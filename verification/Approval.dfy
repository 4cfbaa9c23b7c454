/** Approval rows and the dispatch of one answer to the provider (internal/storage/repository.go). */
module Approval {
  import opened Base

  datatype Decision = Approve | Deny | Cancel

  datatype Status = Pending | Approved | Denied | Cancelled | Expired

  datatype ResponseState = Idle | Dispatching | Written | Ambiguous

  datatype Row = Row(session: ID, provider: nat, status: Status, state: ResponseState, decision: Option<Decision>,
                     responder: Option<ID>, key: nat, digest: Option<Digest>, error: Option<nat>)

  /** `digest` is the hash of the whole request; nothing below needs it to be free of collisions. */
  datatype Request = Request(session: ID, approval: ID, provider: nat, responder: ID, key: nat, decision: Decision,
                             digest: Digest)

  function StatusFor(d: Decision): Status {
    match d case Approve => Approved case Deny => Denied case Cancel => Cancelled
  }

  /** The status tells the decision, and each decision has its own. */
  predicate Says(status: Status, decision: Decision) {
    && (status == Approved <==> decision == Approve) && (status == Denied <==> decision == Deny)
    && (status == Cancelled <==> decision == Cancel)
  }

  type Rows = map<ID, Row>

  const AMBIGUOUS_ERROR: nat := 1
  const RESTART_ERROR: nat := 2
  const RESTART_IDLE_ERROR: nat := 3

  /** What the runtime manager's own look at the row makes of a request: go on, or a final answer. */
  datatype Verdict = Proceed | Replayed | Refused(code: Code)

  function Look(rows: Rows, q: Request): Verdict {
    if q.approval !in rows then Refused(NotFound)
    else
      var a := rows[q.approval];
      if a.session != q.session || a.provider != q.provider then Refused(ApprovalUnknown)
      else if a.state == Idle then Proceed
      else if a.digest != Some(q.digest) then Refused(Conflict)
      else if a.state == Written then Replayed
      else Refused(ApprovalDispatchAmbiguous)
  }

  /** Records the decision before the provider is written to. An identical claim succeeds without effect. */
  function ClaimTx(rows: Rows, q: Request): Outcome<Rows> {
    if q.approval !in rows then Err(ApprovalUnknown)
    else
      var a := rows[q.approval];
      if a.provider != q.provider then Err(ApprovalUnknown)
      else if a.state != Idle then
        if a.decision == Some(q.decision) && a.responder == Some(q.responder) && a.key == q.key &&
           a.digest == Some(q.digest) then Ok(rows)
        else Err(Conflict)
      else if a.status != Pending then Err(Conflict)
      else Ok(rows[q.approval := a.(state := Dispatching, decision := Some(q.decision), responder := Some(q.responder),
                                    key := q.key, digest := Some(q.digest))])
  }

  /** The read a completion begins with: the decision to record, or none if it is recorded already. */
  function CompleteLook(rows: Rows, id: ID, digest: Digest): Outcome<Option<Decision>> {
    if id !in rows then Err(NotFound)
    else
      var a := rows[id];
      if a.digest != Some(digest) then Err(Conflict)
      else if a.state == Written then Ok(None)
      else if a.state != Dispatching || a.decision.None? then Err(Conflict)
      else Ok(a.decision)
  }

  /** Is the answer with this digest still being dispatched? */
  predicate InFlight(rows: Rows, id: ID, digest: Digest) {
    id in rows && rows[id].status == Pending && rows[id].state == Dispatching && rows[id].digest == Some(digest)
  }

  /** The guarded update it ends with. */
  function CompleteUpdate(rows: Rows, id: ID, digest: Digest, decision: Decision): Outcome<Rows> {
    if !InFlight(rows, id, digest) then Err(Conflict)
    else Ok(rows[id := rows[id].(status := StatusFor(decision), state := Written, error := None)])
  }

  function CompleteTx(rows: Rows, id: ID, digest: Digest): Outcome<Rows> {
    match CompleteLook(rows, id, digest)
    case Err(code) => Err(code)
    case Ok(None) => Ok(rows)
    case Ok(Some(decision)) => CompleteUpdate(rows, id, digest, decision)
  }

  /** The read a failure record begins with: whether there is anything to record. */
  function FailLook(rows: Rows, id: ID, digest: Digest, error: nat): Outcome<bool> {
    if id !in rows then Err(NotFound)
    else
      var a := rows[id];
      if a.digest != Some(digest) then Err(Conflict)
      else if a.state == Ambiguous && a.error == Some(error) then Ok(false)
      else if a.state != Dispatching then Err(Conflict)
      else Ok(true)
  }

  function FailUpdate(rows: Rows, id: ID, digest: Digest, error: nat): Outcome<Rows> {
    if !InFlight(rows, id, digest) then Err(Conflict)
    else Ok(rows[id := rows[id].(status := Expired, state := Ambiguous, error := Some(error))])
  }

  function FailTx(rows: Rows, id: ID, digest: Digest, error: nat): Outcome<Rows> {
    match FailLook(rows, id, digest, error)
    case Err(code) => Err(code)
    case Ok(false) => Ok(rows)
    case Ok(true) => FailUpdate(rows, id, digest, error)
  }

  /** What a restart makes of one row; `responder` and `digest` fill columns that are still empty. */
  function Expire(a: Row, responder: ID, digest: Digest): Row {
    if a.status != Pending || (a.state != Idle && a.state != Dispatching) then a
    else a.(status := Expired, state := Ambiguous,
            decision := if a.decision.None? then Some(Cancel) else a.decision,
            responder := if a.responder.None? then Some(responder) else a.responder,
            digest := if a.digest.None? then Some(digest) else a.digest,
            error := Some(if a.state == Idle then RESTART_IDLE_ERROR else RESTART_ERROR))
  }

  function ExpireAll(rows: Rows, responder: ID, digests: map<ID, Digest>): Rows {
    map id | id in rows :: Expire(rows[id], responder, if id in digests then digests[id] else 0)
  }

  /** An answer that reached the provider. */
  datatype Write = Write(approval: ID, decision: Decision)

  /**
   How a write ended: a failed one may have reached the provider all the same, or may still do so, because
   the client's writer has the frame in its hands when the caller stops waiting for it.
   */
  datatype Delivery = Delivered | FailedButApplied | FailedUnapplied | FailedInWriter

  predicate Reached(delivery: Delivery) { delivery == Delivered || delivery == FailedButApplied }

  function Count(writes: seq<Write>, id: ID): nat {
    if writes == [] then 0 else (if writes[0].approval == id then 1 else 0) + Count(writes[1..], id)
  }

  lemma {:induction false} CountAppend(a: seq<Write>, b: seq<Write>, id: ID)
    ensures Count(a + b, id) == Count(a, id) + Count(b, id)
  {
    if a == [] {
      assert a + b == b;
    } else {
      assert (a + b)[1..] == a[1..] + b;
      CountAppend(a[1..], b, id);
    }
  }

  lemma CountOne(writes: seq<Write>, w: Write, id: ID)
    ensures Count(writes + [w], id) == Count(writes, id) + if w.approval == id then 1 else 0
  {
    CountAppend(writes, [w], id);
    assert Count([w][1..], id) == 0;
  }

  /** How much is known to have reached the provider for a row in each state. */
  ghost predicate RowFits(a: Row, n: nat, writes: seq<Write>, id: ID) {
    && (a.state == Idle ==> n == 0)
    && (a.state == Dispatching ==> n <= 1 && a.status == Pending)
    && (a.state == Written ==> n == 1 && a.decision.Some? && Says(a.status, a.decision.value))
    && (a.state == Ambiguous ==> n <= 1 && a.status == Expired)
    && (a.state != Idle ==> a.digest.Some? && a.decision.Some?)
    && (forall i | 0 <= i < |writes| && writes[i].approval == id :: a.decision == Some(writes[i].decision))
  }

  ghost predicate Fits(rows: Rows, writes: seq<Write>) {
    && (forall id | id in rows :: RowFits(rows[id], Count(writes, id), writes, id))
    && (forall i | 0 <= i < |writes| :: writes[i].approval in rows)
  }

  /** Frames in the writers' hands are of approvals that are in flight or ambiguous, and are their only ones. */
  ghost predicate QueueFits(rows: Rows, writes: seq<Write>, queue: seq<Write>) {
    && (forall i | 0 <= i < |queue| :: QueuedFits(rows, queue[i]))
    && (forall id :: Count(writes, id) + Count(queue, id) <= 1)
  }

  predicate QueuedFits(rows: Rows, x: Write) {
    x.approval in rows && rows[x.approval].decision == Some(x.decision) &&
    (rows[x.approval].state == Dispatching || rows[x.approval].state == Ambiguous)
  }

  /** The answer to `q` is claimed. */
  predicate Claimed(rows: Rows, q: Request) {
    q.approval in rows && rows[q.approval].state == Dispatching && rows[q.approval].status == Pending &&
    rows[q.approval].digest == Some(q.digest) && rows[q.approval].decision == Some(q.decision)
  }

  lemma Unwritten(writes: seq<Write>, id: ID)
    requires Count(writes, id) == 0
    ensures forall i | 0 <= i < |writes| :: writes[i].approval != id
  {
  }

  lemma ClaimFits(rows: Rows, writes: seq<Write>, q: Request)
    requires Fits(rows, writes) && Look(rows, q) == Proceed && ClaimTx(rows, q).Ok?
    ensures var now := ClaimTx(rows, q).value; Fits(now, writes) && Claimed(now, q) && Count(writes, q.approval) == 0
  {
    assert RowFits(rows[q.approval], Count(writes, q.approval), writes, q.approval);
    Unwritten(writes, q.approval);
  }

  lemma ClaimsOne(rows: Rows, q: Request)
    requires ClaimTx(rows, q).Ok?
    ensures var now := ClaimTx(rows, q).value;
            now.Keys == rows.Keys && forall id | id in rows && id != q.approval :: now[id] == rows[id]
  {
  }

  lemma SendFits(rows: Rows, writes: seq<Write>, q: Request)
    requires Fits(rows, writes) && Claimed(rows, q) && Count(writes, q.approval) == 0
    ensures var sent := writes + [Write(q.approval, q.decision)]; Fits(rows, sent) && Count(sent, q.approval) == 1
  {
    var w := Write(q.approval, q.decision);
    var sent := writes + [w];
    CountOne(writes, w, q.approval);
    Unwritten(writes, q.approval);
    forall id | id in rows ensures RowFits(rows[id], Count(sent, id), sent, id) {
      CountOne(writes, w, id);
      assert RowFits(rows[id], Count(writes, id), writes, id);
    }
  }

  lemma {:induction false} Unqueued(queue: seq<Write>, id: ID)
    requires forall i | 0 <= i < |queue| :: queue[i].approval != id
    ensures Count(queue, id) == 0
  {
    if queue != [] {
      assert forall i | 0 <= i < |queue[1..]| :: queue[1..][i] == queue[i + 1];
      Unqueued(queue[1..], id);
    }
  }

  /** A row that changes keeps the queue right if it has no frame there, or stays in flight or ambiguous. */
  lemma RowQueue(rows: Rows, writes: seq<Write>, queue: seq<Write>, id: ID, a: Row)
    requires QueueFits(rows, writes, queue)
    requires Count(queue, id) > 0 ==>
               id in rows && a.decision == rows[id].decision && (a.state == Dispatching || a.state == Ambiguous)
    ensures QueueFits(rows[id := a], writes, queue)
  {
    if Count(queue, id) == 0 {
      Unwritten(queue, id);
    }
    forall i | 0 <= i < |queue| ensures QueuedFits(rows[id := a], queue[i]) {
      assert QueuedFits(rows, queue[i]);
    }
  }

  lemma IdleQueue(rows: Rows, writes: seq<Write>, queue: seq<Write>, id: ID)
    requires QueueFits(rows, writes, queue)
    requires id in rows ==> rows[id].state == Idle || rows[id].state == Written
    ensures Count(queue, id) == 0
  {
    forall i | 0 <= i < |queue| ensures queue[i].approval != id {
      assert QueuedFits(rows, queue[i]);
    }
    Unqueued(queue, id);
  }

  lemma SendQueue(rows: Rows, writes: seq<Write>, queue: seq<Write>, q: Request)
    requires QueueFits(rows, writes, queue) && Claimed(rows, q)
    requires Count(writes, q.approval) == 0 && Count(queue, q.approval) == 0
    ensures var x := Write(q.approval, q.decision);
            QueueFits(rows, writes + [x], queue) && QueueFits(rows, writes, queue + [x])
  {
    var x := Write(q.approval, q.decision);
    forall id
      ensures Count(writes + [x], id) + Count(queue, id) <= 1 && Count(writes, id) + Count(queue + [x], id) <= 1
    {
      CountOne(writes, x, id);
      CountOne(queue, x, id);
    }
  }

  /** What is left of a queue when its `i`th frame is gone. */
  function Without(queue: seq<Write>, i: nat): seq<Write>
    requires i < |queue|
  {
    queue[..i] + queue[i + 1..]
  }

  lemma CountWithout(queue: seq<Write>, i: nat, id: ID)
    requires i < |queue|
    ensures Count(queue, id) == Count(Without(queue, i), id) + if queue[i].approval == id then 1 else 0
  {
    CountAppend(queue[..i], queue[i + 1..], id);
    CountOne(queue[..i], queue[i], id);
    CountAppend(queue[..i] + [queue[i]], queue[i + 1..], id);
    assert queue == queue[..i] + [queue[i]] + queue[i + 1..];
  }

  /** A writer lets a frame go, written or not. */
  lemma LetGo(rows: Rows, writes: seq<Write>, queue: seq<Write>, i: nat)
    requires Fits(rows, writes) && QueueFits(rows, writes, queue) && i < |queue|
    ensures QueueFits(rows, writes, Without(queue, i))
    ensures Fits(rows, writes + [queue[i]]) && QueueFits(rows, writes + [queue[i]], Without(queue, i))
  {
    var x := queue[i];
    assert QueuedFits(rows, x);
    forall id ensures Count(writes + [x], id) + Count(Without(queue, i), id) <= 1 {
      CountOne(writes, x, id);
      CountWithout(queue, i, id);
    }
    forall id ensures Count(writes, id) + Count(Without(queue, i), id) <= 1 {
      CountWithout(queue, i, id);
    }
    CountWithout(queue, i, x.approval);
    forall id | id in rows ensures RowFits(rows[id], Count(writes + [x], id), writes + [x], id) {
      CountOne(writes, x, id);
      assert RowFits(rows[id], Count(writes, id), writes, id);
    }
  }

  /** Recording a completion is right when exactly one write has been made. */
  lemma CompleteFits(rows: Rows, writes: seq<Write>, id: ID, digest: Digest, decision: Decision)
    requires Fits(rows, writes) && InFlight(rows, id, digest) && rows[id].decision == Some(decision) &&
             Count(writes, id) == 1
    ensures var r := CompleteUpdate(rows, id, digest, decision); r.Ok? && Fits(r.value, writes)
  {
  }

  /** Recording a failure is right whether or not a write has been made. */
  lemma FailFits(rows: Rows, writes: seq<Write>, id: ID, digest: Digest, error: nat)
    requires Fits(rows, writes) && InFlight(rows, id, digest)
    ensures var r := FailUpdate(rows, id, digest, error); r.Ok? && Fits(r.value, writes)
  {
  }

  // ---- What each step comes to ----

  /** The approval is the request's own, and no answer to it has been taken. */
  predicate Answerable(rows: Rows, q: Request) {
    && q.approval in rows && rows[q.approval].session == q.session && rows[q.approval].provider == q.provider
    && rows[q.approval].status == Pending && rows[q.approval].state == Idle
  }

  /** A request goes on exactly to an idle row of its own, and is a replay exactly of the answer that was written. */
  lemma LooksIff(rows: Rows, q: Request)
    ensures var own := q.approval in rows && rows[q.approval].session == q.session &&
                       rows[q.approval].provider == q.provider;
            && (Look(rows, q) == Proceed <==> own && rows[q.approval].state == Idle)
            && (Look(rows, q) == Replayed <==>
                  own && rows[q.approval].state == Written && rows[q.approval].digest == Some(q.digest))
            && (Look(rows, q) == Refused(Conflict) <==>
                  own && rows[q.approval].state != Idle && rows[q.approval].digest != Some(q.digest))
            && (Look(rows, q) == Refused(ApprovalDispatchAmbiguous) <==>
                  own && (rows[q.approval].state == Dispatching || rows[q.approval].state == Ambiguous) &&
                  rows[q.approval].digest == Some(q.digest))
            && (Look(rows, q) == Refused(NotFound) <==> q.approval !in rows)
            && (Look(rows, q) == Refused(ApprovalUnknown) <==> q.approval in rows && !own)
  {
  }

  /** The very answer that is on record already. */
  predicate Repeats(a: Row, q: Request) {
    a.state != Idle && a.decision == Some(q.decision) && a.responder == Some(q.responder) && a.key == q.key &&
    a.digest == Some(q.digest)
  }

  /** A claim takes a pending idle row, or finds itself on record; it then says so with the whole answer. */
  lemma ClaimsIff(rows: Rows, q: Request)
    ensures ClaimTx(rows, q).Ok? <==>
              && q.approval in rows && rows[q.approval].provider == q.provider
              && ((rows[q.approval].state == Idle && rows[q.approval].status == Pending) ||
                  Repeats(rows[q.approval], q))
    ensures ClaimTx(rows, q).Ok? ==>
              var now := ClaimTx(rows, q).value;
              && now.Keys == rows.Keys && (forall id | id in rows && id != q.approval :: now[id] == rows[id])
              && (rows[q.approval].state != Idle ==> now == rows)
              && (rows[q.approval].state == Idle ==> now[q.approval].state == Dispatching)
              && Repeats(now[q.approval], q)
              && now[q.approval].(state := rows[q.approval].state, decision := rows[q.approval].decision,
                                  responder := rows[q.approval].responder, key := rows[q.approval].key,
                                  digest := rows[q.approval].digest) == rows[q.approval]
    ensures ClaimTx(rows, q) == Err(ApprovalUnknown) <==>
              q.approval !in rows || rows[q.approval].provider != q.provider
    ensures ClaimTx(rows, q).Err? ==> ClaimTx(rows, q).code in {ApprovalUnknown, Conflict}
  {
  }

  /** A completion is recorded exactly for the answer in flight, and again for the one that was written. */
  lemma CompletesIff(rows: Rows, id: ID, digest: Digest)
    ensures var r := CompleteTx(rows, id, digest);
            && (r.Ok? <==> id in rows && rows[id].digest == Some(digest) &&
                           (rows[id].state == Written ||
                            (rows[id].state == Dispatching && rows[id].status == Pending && rows[id].decision.Some?)))
            && (r.Ok? ==>
                  && r.value.Keys == rows.Keys && (forall x | x in rows && x != id :: r.value[x] == rows[x])
                  && r.value[id].state == Written && (rows[id].state == Written ==> r.value == rows)
                  && (rows[id].state == Dispatching ==>
                        && Says(r.value[id].status, rows[id].decision.value) && r.value[id].error.None?
                        && r.value[id].(status := Pending, state := Dispatching, error := rows[id].error) == rows[id]))
            && (r.Err? ==> r.code == if id in rows then Conflict else NotFound)
  {
  }

  /** A failure is recorded exactly for the answer in flight, and again where the same one is on record. */
  lemma FailsIff(rows: Rows, id: ID, digest: Digest, error: nat)
    ensures var r := FailTx(rows, id, digest, error);
            && (r.Ok? <==> id in rows && rows[id].digest == Some(digest) &&
                           ((rows[id].state == Ambiguous && rows[id].error == Some(error)) ||
                            (rows[id].state == Dispatching && rows[id].status == Pending)))
            && (r.Ok? ==>
                  && r.value.Keys == rows.Keys && (forall x | x in rows && x != id :: r.value[x] == rows[x])
                  && r.value[id].state == Ambiguous && r.value[id].error == Some(error)
                  && (rows[id].state == Ambiguous ==> r.value == rows)
                  && (rows[id].state == Dispatching ==>
                        && r.value[id].status == Expired
                        && r.value[id].(status := Pending, state := Dispatching, error := rows[id].error) == rows[id]))
            && (r.Err? ==> r.code == if id in rows then Conflict else NotFound)
  {
  }

  /** After a restart no approval waits for an answer or has one in flight, and what was decided stays. */
  lemma RestartEnds(rows: Rows, responder: ID, digests: map<ID, Digest>)
    ensures var now := ExpireAll(rows, responder, digests);
            && now.Keys == rows.Keys
            && (forall id | id in rows && (rows[id].status != Pending || rows[id].state == Written ||
                                           rows[id].state == Ambiguous) :: now[id] == rows[id])
            && (forall id | id in rows && rows[id].status == Pending &&
                            (rows[id].state == Idle || rows[id].state == Dispatching) ::
                  && now[id].status == Expired && now[id].state == Ambiguous
                  && now[id].decision == Some(if rows[id].decision.Some? then rows[id].decision.value else Cancel)
                  && (rows[id].responder.Some? ==> now[id].responder == rows[id].responder)
                  && (rows[id].digest.Some? ==> now[id].digest == rows[id].digest)
                  && now[id].responder.Some? && now[id].digest.Some? && now[id].key == rows[id].key
                  && now[id].error == Some(if rows[id].state == Idle then RESTART_IDLE_ERROR else RESTART_ERROR)
                  && now[id].session == rows[id].session && now[id].provider == rows[id].provider)
  {
  }

  /** One frame was written or is in the writer's hands. */
  predicate OneFrame(writes: seq<Write>, queue: seq<Write>, written: seq<Write>, queued: seq<Write>, x: Write) {
    (written == writes + [x] && queued == queue) || (written == writes && queued == queue + [x])
  }

  /** Where the request stands in the live runtime: pending there, no longer pending, or without a binding. */
  datatype Standing = PendingThere | NotPending | Unbound

  /** The runtime manager answering one request without interruption; the mutex keeps others out. */
  class Dispatcher {
    var rows: Rows
    ghost var writes: seq<Write>
    ghost var queue: seq<Write>

    ghost predicate Valid()
      reads this
    {
      Fits(rows, writes) && QueueFits(rows, writes, queue)
    }

    constructor ()
      ensures Valid() && rows == map[] && writes == [] && queue == []
    {
      rows, writes, queue := map[], [], [];
    }

    method Claim(q: Request) returns (failure: Option<Code>)
      modifies this`rows
      ensures match ClaimTx(old(rows), q)
              case Ok(now) => failure.None? && rows == now
              case Err(code) => failure == Some(code) && rows == old(rows)
      ensures old(Valid()) && Look(old(rows), q) == Proceed ==> Valid()
      ensures old(Valid()) && Look(old(rows), q) == Proceed && failure.None? ==>
                Claimed(rows, q) && Count(writes, q.approval) == 0 && Count(queue, q.approval) == 0
    {
      if q.approval !in rows { return Some(ApprovalUnknown); }
      var a := rows[q.approval];
      if a.provider != q.provider { return Some(ApprovalUnknown); }
      if a.state != Idle {
        if a.decision == Some(q.decision) && a.responder == Some(q.responder) && a.key == q.key &&
           a.digest == Some(q.digest) { return None; }
        return Some(Conflict);
      }
      if a.status != Pending { return Some(Conflict); }
      if Valid() && Look(rows, q) == Proceed {
        ClaimFits(rows, writes, q);
        IdleQueue(rows, writes, queue, q.approval);
        RowQueue(rows, writes, queue, q.approval, ClaimTx(rows, q).value[q.approval]);
      }
      rows := rows[q.approval := a.(state := Dispatching, decision := Some(q.decision), responder := Some(q.responder),
                                    key := q.key, digest := Some(q.digest))];
      return None;
    }

    /** A read and a guarded update; it keeps the books right if exactly one write has been made. */
    method Complete(id: ID, digest: Digest) returns (failure: Option<Code>)
      modifies this`rows
      ensures match CompleteTx(old(rows), id, digest)
              case Ok(now) => failure.None? && rows == now
              case Err(code) => failure == Some(code) && rows == old(rows)
      ensures old(Valid()) && (InFlight(old(rows), id, digest) ==> Count(writes, id) == 1) ==> Valid()
      ensures failure.None? && InFlight(old(rows), id, digest) ==>
                && rows[id].state == Written && old(rows)[id].decision.Some?
                && Says(rows[id].status, old(rows)[id].decision.value)
    {
      var seen := CompleteLook(rows, id, digest);
      if seen.Err? { return Some(seen.code); }
      if seen.value.None? { return None; }
      if !InFlight(rows, id, digest) { return Some(Conflict); }
      if Valid() && Count(writes, id) == 1 {
        CompleteFits(rows, writes, id, digest, seen.value.value);
        RowQueue(rows, writes, queue, id, CompleteUpdate(rows, id, digest, seen.value.value).value[id]);
      }
      rows := rows[id := rows[id].(status := StatusFor(seen.value.value), state := Written, error := None)];
      return None;
    }

    /** Likewise; it keeps the books right whatever became of the write. */
    method Fail(id: ID, digest: Digest, error: nat) returns (failure: Option<Code>)
      modifies this`rows
      ensures match FailTx(old(rows), id, digest, error)
              case Ok(now) => failure.None? && rows == now
              case Err(code) => failure == Some(code) && rows == old(rows)
      ensures old(Valid()) ==> Valid()
    {
      var seen := FailLook(rows, id, digest, error);
      if seen.Err? { return Some(seen.code); }
      if !seen.value { return None; }
      if !InFlight(rows, id, digest) { return Some(Conflict); }
      if Valid() {
        FailFits(rows, writes, id, digest, error);
        RowQueue(rows, writes, queue, id, FailUpdate(rows, id, digest, error).value[id]);
      }
      rows := rows[id := rows[id].(status := Expired, state := Ambiguous, error := Some(error))];
      return None;
    }

    /**
     Claim, write, then complete or fail. `standing` says where the request stands in the live runtime,
     `delivery` how the write ended.
     */
    method Respond(q: Request, standing: Standing, delivery: Delivery) returns (failure: Option<Code>)
      requires Valid()
      modifies this
      ensures Valid()
      ensures rows.Keys == old(rows).Keys && forall id | id in rows && id != q.approval :: rows[id] == old(rows)[id]
      ensures (writes == old(writes) && queue == old(queue)) ||
              (q.approval in old(rows) && old(rows)[q.approval].state == Idle &&
               OneFrame(old(writes), old(queue), writes, queue, Write(q.approval, q.decision)))
      ensures failure.None? ==>
              q.approval in rows && rows[q.approval].state == Written && Count(writes, q.approval) == 1
      ensures failure.None? && old(rows)[q.approval].state == Idle ==>
              rows[q.approval].decision == Some(q.decision) && Says(rows[q.approval].status, q.decision)
      ensures Answerable(old(rows), q) && standing == PendingThere ==>
                (failure.None? <==> delivery == Delivered) &&
                (rows[q.approval].state == Ambiguous <==> delivery != Delivered)
    {
      match Look(rows, q) {
        case Refused(code) => return Some(code);
        case Replayed => return None;
        case Proceed =>
      }
      if standing == Unbound { return Some(ApprovalDispatchAmbiguous); }
      if standing == NotPending { return Some(ApprovalUnknown); }
      failure := Dispatch(q, delivery);
    }

    method Dispatch(q: Request, delivery: Delivery) returns (failure: Option<Code>)
      requires Valid() && Look(rows, q) == Proceed
      modifies this
      ensures Valid()
      ensures rows.Keys == old(rows).Keys && forall id | id in rows && id != q.approval :: rows[id] == old(rows)[id]
      ensures (writes == old(writes) && queue == old(queue)) ||
              OneFrame(old(writes), old(queue), writes, queue, Write(q.approval, q.decision))
      ensures failure.None? ==>
              && rows[q.approval].state == Written && Count(writes, q.approval) == 1
              && rows[q.approval].decision == Some(q.decision) && Says(rows[q.approval].status, q.decision)
      ensures Answerable(old(rows), q) ==>
                (failure.None? <==> delivery == Delivered) &&
                (rows[q.approval].state == Ambiguous <==> delivery != Delivered)
    {
      ghost var before := rows;
      failure := Claim(q);
      if failure.Some? { return; }
      ClaimsOne(before, q);
      failure := Finish(q, delivery);
    }

    /** The frame goes to the client's writer. */
    ghost method Transmit(q: Request, delivery: Delivery)
      requires Valid() && Claimed(rows, q) && Count(writes, q.approval) == 0 && Count(queue, q.approval) == 0
      modifies this`writes, this`queue
      ensures Valid() && (Reached(delivery) ==> Count(writes, q.approval) == 1)
      ensures writes == if Reached(delivery) then old(writes) + [Write(q.approval, q.decision)] else old(writes)
      ensures queue == if delivery == FailedInWriter then old(queue) + [Write(q.approval, q.decision)] else old(queue)
    {
      SendQueue(rows, writes, queue, q);
      if Reached(delivery) {
        SendFits(rows, writes, q);
        writes := writes + [Write(q.approval, q.decision)];
      } else if delivery == FailedInWriter {
        queue := queue + [Write(q.approval, q.decision)];
      }
    }

    /** The provider write and what is recorded about it. */
    method Finish(q: Request, delivery: Delivery) returns (failure: Option<Code>)
      requires Valid() && Claimed(rows, q) && Count(writes, q.approval) == 0 && Count(queue, q.approval) == 0
      modifies this
      ensures Valid()
      ensures rows.Keys == old(rows).Keys && forall id | id in rows && id != q.approval :: rows[id] == old(rows)[id]
      ensures writes == if Reached(delivery) then old(writes) + [Write(q.approval, q.decision)] else old(writes)
      ensures queue == if delivery == FailedInWriter then old(queue) + [Write(q.approval, q.decision)] else old(queue)
      ensures if delivery == Delivered
              then failure.None? && rows[q.approval].state == Written && Count(writes, q.approval) == 1 &&
                   rows[q.approval].decision == Some(q.decision) && Says(rows[q.approval].status, q.decision)
              else failure == Some(ApprovalDispatchAmbiguous) && rows[q.approval].state == Ambiguous
    {
      Transmit(q, delivery);
      if delivery == Delivered {
        failure := Complete(q.approval, q.digest);
      } else {
        var ignored := Fail(q.approval, q.digest, AMBIGUOUS_ERROR);
        failure := Some(ApprovalDispatchAmbiguous);
      }
    }
  }
}

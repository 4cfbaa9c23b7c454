/**
 Approval dispatch over every run: any number of workers interleaved step by step, crashes between any two
 steps, and restarts. The service mutex lets one worker at a time into the dispatch
 (internal/app/session_service.go); `serialised` says whether it is there.
 */
module ApprovalRuns {
  import opened Base
  import opened Approval

  /** Where a worker stands. It holds the mutex from `Entered` on. */
  datatype Phase = Entered | Looked | Claimant | Sent | Completing(decision: Decision) | Unsure | Failing

  datatype Worker = Worker(request: Request, phase: Phase)

  /** `queue` are frames that a client's writer still has in its hands after the worker stopped waiting. */
  datatype World = World(rows: Rows, writes: seq<Write>, queue: seq<Write>, workers: map<nat, Worker>,
                         mutex: Option<nat>, up: bool)

  datatype Event =
    | Ask(id: ID, row: Row)
    | Enter(worker: nat, request: Request)
    | LookAt(worker: nat, bound: bool)
    | Claim(worker: nat)
    | Send(worker: nat, delivery: Delivery)
    | ReadCompletion(worker: nat, works: bool)
    | Complete(worker: nat, works: bool)
    | ReadFailure(worker: nat, works: bool)
    | Fail(worker: nat, works: bool)
    | LateWrite(frame: nat)
    | DropWrite(frame: nat)
    | Crash
    | Restart(responder: ID, digests: map<ID, Digest>)

  const INIT := World(map[], [], [], map[], None, true)

  function Move(w: World, k: nat, phase: Phase): World
    requires k in w.workers
  {
    w.(workers := w.workers[k := w.workers[k].(phase := phase)])
  }

  /** The worker returns; the mutex is released if it was the holder. */
  function Leave(w: World, k: nat): World {
    w.(workers := w.workers - {k}, mutex := if w.mutex == Some(k) then None else w.mutex)
  }

  predicate At(w: World, k: nat, phase: Phase) {
    w.up && k in w.workers && w.workers[k].phase == phase
  }

  /** `works` is false when the database refuses for reasons of its own. */
  function Apply(w: World, e: Event, serialised: bool): World {
    match e
    case Ask(id, row) =>
      if !w.up || id in w.rows then w
      else w.(rows := w.rows[id := row.(status := Pending, state := Idle, decision := None, responder := None,
                                        digest := None, error := None)])
    case Enter(k, q) =>
      if !w.up || k in w.workers || (serialised && w.mutex.Some?) then w
      else w.(workers := w.workers[k := Worker(q, Entered)], mutex := Some(k))
    case LookAt(k, bound) =>
      if !At(w, k, Entered) then w
      else if bound && Look(w.rows, w.workers[k].request) == Proceed then Move(w, k, Looked)
      else Leave(w, k)
    case Claim(k) =>
      if !At(w, k, Looked) then w
      else
        var r := ClaimTx(w.rows, w.workers[k].request);
        if r.Ok? then Move(w.(rows := r.value), k, Claimant) else Leave(w, k)
    case Send(k, delivery) =>
      if !At(w, k, Claimant) then w
      else
        var x := Write(w.workers[k].request.approval, w.workers[k].request.decision);
        var sent := w.(writes := if Reached(delivery) then w.writes + [x] else w.writes,
                       queue := if delivery == FailedInWriter then w.queue + [x] else w.queue);
        Move(sent, k, if delivery == Delivered then Sent else Unsure)
    case ReadCompletion(k, works) =>
      if !At(w, k, Sent) then w
      else
        var r := CompleteLook(w.rows, w.workers[k].request.approval, w.workers[k].request.digest);
        if !works || r.Err? then Move(w, k, Unsure)
        else if r.value.None? then Leave(w, k)
        else Move(w, k, Completing(r.value.value))
    case Complete(k, works) =>
      if !(w.up && k in w.workers && w.workers[k].phase.Completing?) then w
      else
        var worker := w.workers[k];
        var r := CompleteUpdate(w.rows, worker.request.approval, worker.request.digest, worker.phase.decision);
        if works && r.Ok? then Leave(w.(rows := r.value), k) else Move(w, k, Unsure)
    case ReadFailure(k, works) =>
      if !At(w, k, Unsure) then w
      else
        var r := FailLook(w.rows, w.workers[k].request.approval, w.workers[k].request.digest, AMBIGUOUS_ERROR);
        if works && r.Ok? && r.value then Move(w, k, Failing) else Leave(w, k)
    case Fail(k, works) =>
      if !At(w, k, Failing) then w
      else
        var r := FailUpdate(w.rows, w.workers[k].request.approval, w.workers[k].request.digest, AMBIGUOUS_ERROR);
        if works && r.Ok? then Leave(w.(rows := r.value), k) else Leave(w, k)
    case LateWrite(i) =>
      if i >= |w.queue| then w else w.(writes := w.writes + [w.queue[i]], queue := Without(w.queue, i))
    case DropWrite(i) => if i >= |w.queue| then w else w.(queue := Without(w.queue, i))
    case Crash => w.(queue := [], workers := map[], mutex := None, up := false)
    case Restart(responder, digests) =>
      if w.up then w else w.(rows := ExpireAll(w.rows, responder, digests), up := true)
  }

  function Run(w: World, es: seq<Event>, serialised: bool): World
    decreases |es|
  {
    if es == [] then w else Run(Apply(w, es[0], serialised), es[1..], serialised)
  }

  lemma {:induction false} RunSplit(w: World, a: seq<Event>, b: seq<Event>, serialised: bool)
    ensures Run(w, a + b, serialised) == Run(Run(w, a, serialised), b, serialised)
    decreases |a|
  {
    if a == [] {
      assert a + b == b;
    } else {
      assert (a + b)[1..] == a[1..] + b;
      RunSplit(Apply(w, a[0], serialised), a[1..], b, serialised);
    }
  }

  lemma RunThree(w: World, a: Event, b: Event, c: Event, serialised: bool)
    ensures Run(w, [a, b, c], serialised) == Apply(Apply(Apply(w, a, serialised), b, serialised), c, serialised)
  {
    var es := [a, b, c];
    assert es[1..] == [b, c] && es[1..][1..] == [c];
    var v := Apply(Apply(w, a, serialised), b, serialised);
    assert Run(w, es, serialised) == Run(v, [c], serialised);
    assert Run(v, [c], serialised) == Run(Apply(v, c, serialised), [c][1..], serialised);
  }

  // ---- The invariant under the mutex ----

  /** What the holder of the mutex may rely on in each phase. */
  ghost predicate WorkerFits(rows: Rows, writes: seq<Write>, queue: seq<Write>, worker: Worker) {
    var q := worker.request;
    match worker.phase
    case Entered => true
    case Looked => Look(rows, q) == Proceed
    case Claimant => Claimed(rows, q) && Count(writes, q.approval) == 0 && Count(queue, q.approval) == 0
    case Sent => Claimed(rows, q) && Count(writes, q.approval) == 1
    case Completing(decision) => Claimed(rows, q) && Count(writes, q.approval) == 1 && decision == q.decision
    case Unsure => Claimed(rows, q)
    case Failing => Claimed(rows, q)
  }

  ghost predicate Inv(w: World) {
    && Fits(w.rows, w.writes) && QueueFits(w.rows, w.writes, w.queue)
    && (forall k | k in w.workers :: w.mutex == Some(k) && WorkerFits(w.rows, w.writes, w.queue, w.workers[k]))
    && (!w.up ==> w.workers == map[] && w.queue == [])
  }

  /** What a step keeps and what it may do. */
  ghost predicate Good(w: World, v: World) {
    Inv(v) && RowsEvolve(w.rows, v.rows) && w.writes <= v.writes
  }

  /** A row changes only while nothing is final about it. */
  predicate RowStep(a: Row, b: Row) {
    a.state == Written || a.state == Ambiguous ==> b == a
  }

  ghost predicate RowsEvolve(a: Rows, b: Rows) {
    forall id | id in a :: id in b && RowStep(a[id], b[id])
  }

  lemma AskKeeps(w: World, id: ID, row: Row)
    requires Inv(w)
    ensures Good(w, Apply(w, Ask(id, row), true))
  {
    if w.up && id !in w.rows {
      var v := Apply(w, Ask(id, row), true);
      NewRow(w.rows, w.writes, id, v.rows[id]);
      IdleQueue(w.rows, w.writes, w.queue, id);
      RowQueue(w.rows, w.writes, w.queue, id, v.rows[id]);
    }
  }

  lemma NewRow(rows: Rows, writes: seq<Write>, id: ID, a: Row)
    requires Fits(rows, writes) && id !in rows && a.state == Idle
    ensures Fits(rows[id := a], writes)
  {
    Unqueued(writes, id);
  }

  lemma ClaimKeeps(w: World, k: nat)
    requires Inv(w)
    ensures Good(w, Apply(w, Claim(k), true))
  {
    if At(w, k, Looked) && ClaimTx(w.rows, w.workers[k].request).Ok? {
      var q := w.workers[k].request;
      ClaimFits(w.rows, w.writes, q);
      IdleQueue(w.rows, w.writes, w.queue, q.approval);
      RowQueue(w.rows, w.writes, w.queue, q.approval, ClaimTx(w.rows, q).value[q.approval]);
    }
  }

  lemma SendKeeps(w: World, k: nat, delivery: Delivery)
    requires Inv(w)
    ensures Good(w, Apply(w, Send(k, delivery), true))
  {
    if At(w, k, Claimant) {
      if Reached(delivery) {
        SendReaches(w, k, delivery);
      } else {
        SendFails(w, k, delivery);
      }
    }
  }

  lemma SendReaches(w: World, k: nat, delivery: Delivery)
    requires Inv(w) && At(w, k, Claimant) && Reached(delivery)
    ensures Good(w, Apply(w, Send(k, delivery), true))
  {
    SendFits(w.rows, w.writes, w.workers[k].request);
    SendQueue(w.rows, w.writes, w.queue, w.workers[k].request);
  }

  lemma SendFails(w: World, k: nat, delivery: Delivery)
    requires Inv(w) && At(w, k, Claimant) && !Reached(delivery)
    ensures Good(w, Apply(w, Send(k, delivery), true))
  {
    SendQueue(w.rows, w.writes, w.queue, w.workers[k].request);
  }

  lemma CompleteKeeps(w: World, k: nat, works: bool)
    requires Inv(w)
    ensures Good(w, Apply(w, Complete(k, works), true))
  {
    if w.up && k in w.workers && w.workers[k].phase.Completing? {
      var q := w.workers[k].request;
      CompleteFits(w.rows, w.writes, q.approval, q.digest, q.decision);
      var now := CompleteUpdate(w.rows, q.approval, q.digest, q.decision).value;
      RowQueue(w.rows, w.writes, w.queue, q.approval, now[q.approval]);
    }
  }

  lemma FailKeeps(w: World, k: nat, works: bool)
    requires Inv(w)
    ensures Good(w, Apply(w, Fail(k, works), true))
  {
    if At(w, k, Failing) {
      var q := w.workers[k].request;
      FailFits(w.rows, w.writes, q.approval, q.digest, AMBIGUOUS_ERROR);
      var now := FailUpdate(w.rows, q.approval, q.digest, AMBIGUOUS_ERROR).value;
      RowQueue(w.rows, w.writes, w.queue, q.approval, now[q.approval]);
    }
  }

  lemma RestartKeeps(w: World, responder: ID, digests: map<ID, Digest>)
    requires Inv(w)
    ensures Good(w, Apply(w, Restart(responder, digests), true))
  {
    if !w.up {
      var rows := ExpireAll(w.rows, responder, digests);
      forall id | id in rows
        ensures RowFits(rows[id], Count(w.writes, id), w.writes, id) && RowStep(w.rows[id], rows[id])
      {
        assert RowFits(w.rows[id], Count(w.writes, id), w.writes, id);
        if w.rows[id].state == Idle {
          Unwritten(w.writes, id);
        }
      }
    }
  }

  lemma EnterKeeps(w: World, k: nat, q: Request)
    requires Inv(w)
    ensures Good(w, Apply(w, Enter(k, q), true))
  {
  }

  lemma LookKeeps(w: World, k: nat, bound: bool)
    requires Inv(w)
    ensures Good(w, Apply(w, LookAt(k, bound), true))
  {
  }

  lemma ReadCompletionKeeps(w: World, k: nat, works: bool)
    requires Inv(w)
    ensures Good(w, Apply(w, ReadCompletion(k, works), true))
  {
  }

  lemma ReadFailureKeeps(w: World, k: nat, works: bool)
    requires Inv(w)
    ensures Good(w, Apply(w, ReadFailure(k, works), true))
  {
  }

  /** A worker that relies on what was written for its approval has no frame with a writer. */
  lemma WriterKeeps(w: World, i: nat)
    requires Inv(w)
    ensures Good(w, Apply(w, LateWrite(i), true)) && Good(w, Apply(w, DropWrite(i), true))
  {
    if i < |w.queue| {
      LetGo(w.rows, w.writes, w.queue, i);
      forall k | k in w.workers
        ensures WorkerFits(w.rows, w.writes + [w.queue[i]], Without(w.queue, i), w.workers[k])
        ensures WorkerFits(w.rows, w.writes, Without(w.queue, i), w.workers[k])
      {
        var id := w.workers[k].request.approval;
        CountOne(w.writes, w.queue[i], id);
        CountWithout(w.queue, i, id);
      }
    }
  }

  lemma StepKeeps(w: World, e: Event)
    requires Inv(w)
    ensures Good(w, Apply(w, e, true))
  {
    match e
    case Ask(id, row) => AskKeeps(w, id, row);
    case Enter(k, q) => EnterKeeps(w, k, q);
    case LookAt(k, bound) => LookKeeps(w, k, bound);
    case Claim(k) => ClaimKeeps(w, k);
    case Send(k, delivery) => SendKeeps(w, k, delivery);
    case ReadCompletion(k, works) => ReadCompletionKeeps(w, k, works);
    case Complete(k, works) => CompleteKeeps(w, k, works);
    case ReadFailure(k, works) => ReadFailureKeeps(w, k, works);
    case Fail(k, works) => FailKeeps(w, k, works);
    case LateWrite(i) => WriterKeeps(w, i);
    case DropWrite(i) => WriterKeeps(w, i);
    case Crash =>
    case Restart(responder, digests) => RestartKeeps(w, responder, digests);
  }

  lemma {:induction false} RunKeeps(w: World, es: seq<Event>)
    requires Inv(w)
    ensures Inv(Run(w, es, true)) && RowsEvolve(w.rows, Run(w, es, true).rows) && w.writes <= Run(w, es, true).writes
    decreases |es|
  {
    if es != [] {
      StepKeeps(w, es[0]);
      RunKeeps(Apply(w, es[0], true), es[1..]);
    }
  }

  // ---- What the dispatch promises ----

  /**
   In every run with the mutex, crashes, restarts and late writes included, each approval causes at most one
   provider write, one that is still to come counted in: none while idle, exactly one once written, with the
   stored decision, which also fixes the status, and at most one while dispatching or ambiguous.
   */
  lemma AtMostOneWrite(es: seq<Event>, id: ID)
    ensures var w := Run(INIT, es, true);
            && Count(w.writes, id) + Count(w.queue, id) <= 1
            && (id !in w.rows ==> Count(w.writes, id) == Count(w.queue, id) == 0)
            && (id in w.rows && w.rows[id].state == Idle ==> Count(w.writes, id) == Count(w.queue, id) == 0)
            && (id in w.rows && w.rows[id].state == Written ==>
                  Count(w.writes, id) == 1 && Count(w.queue, id) == 0)
            && (forall i | 0 <= i < |w.writes| && w.writes[i].approval == id ::
                  && id in w.rows && w.rows[id].decision == Some(w.writes[i].decision)
                  && (w.rows[id].state == Written ==>
                        && (w.rows[id].status == Approved <==> w.writes[i].decision == Approve)
                        && (w.rows[id].status == Denied <==> w.writes[i].decision == Deny)
                        && (w.rows[id].status == Cancelled <==> w.writes[i].decision == Cancel)))
  {
    RunKeeps(INIT, es);
    var w := Run(INIT, es, true);
    if id in w.rows {
      assert RowFits(w.rows[id], Count(w.writes, id), w.writes, id);
    } else {
      Unqueued(w.writes, id);
    }
    if id !in w.rows || w.rows[id].state == Idle || w.rows[id].state == Written {
      IdleQueue(w.rows, w.writes, w.queue, id);
    }
  }

  /** The six steps of a dispatch whose write is delivered. */
  function Steps(k: nat, q: Request): seq<Event> {
    [Enter(k, q), LookAt(k, true), Claim(k), Send(k, Delivered), ReadCompletion(k, true), Complete(k, true)]
  }

  function AtPhase(w: World, k: nat, q: Request, phase: Phase): World {
    w.(workers := w.workers[k := Worker(q, phase)], mutex := Some(k))
  }

  lemma ClaimPasses(w: World, k: nat, q: Request)
    requires w.up && w.mutex.None? && k !in w.workers && Answerable(w.rows, q)
    ensures var es := Steps(k, q);
            Apply(Apply(Apply(w, es[0], true), es[1], true), es[2], true) ==
            AtPhase(w.(rows := ClaimTx(w.rows, q).value), k, q, Claimant)
  {
    var es := Steps(k, q);
    assert Apply(w, es[0], true) == AtPhase(w, k, q, Entered);
    assert Apply(AtPhase(w, k, q, Entered), es[1], true) == AtPhase(w, k, q, Looked);
  }

  lemma CompletionPasses(w: World, k: nat, q: Request)
    requires w.up && k !in w.workers && w.mutex.None? && Claimed(w.rows, q)
    ensures var es := Steps(k, q);
            Apply(Apply(Apply(AtPhase(w, k, q, Claimant), es[3], true), es[4], true), es[5], true) ==
            w.(rows := CompleteUpdate(w.rows, q.approval, q.digest, q.decision).value,
               writes := w.writes + [Write(q.approval, q.decision)])
  {
    var es := Steps(k, q);
    var v := w.(writes := w.writes + [Write(q.approval, q.decision)]);
    assert Apply(AtPhase(w, k, q, Claimant), es[3], true) == AtPhase(v, k, q, Sent);
    assert Apply(AtPhase(v, k, q, Sent), es[4], true) == AtPhase(v, k, q, Completing(q.decision));
    assert AtPhase(v, k, q, Sent).workers - {k} == w.workers;
  }

  /** A dispatch that nothing interrupts goes through: one write, and the row says what was decided. */
  lemma DispatchCompletes(w: World, k: nat, q: Request)
    requires w.up && w.mutex.None? && k !in w.workers && Answerable(w.rows, q)
    ensures var v := Run(w, Steps(k, q), true);
            && v.writes == w.writes + [Write(q.approval, q.decision)] && v.mutex.None? && v.workers == w.workers
            && q.approval in v.rows && v.rows[q.approval].state == Written
            && v.rows[q.approval].decision == Some(q.decision) && Says(v.rows[q.approval].status, q.decision)
  {
    var es := Steps(k, q);
    var a, b := es[..3], es[3..];
    assert es == a + b && a == [es[0], es[1], es[2]] && b == [es[3], es[4], es[5]];
    RunSplit(w, a, b, true);
    RunThree(w, es[0], es[1], es[2], true);
    ClaimPasses(w, k, q);
    var claimed := w.(rows := ClaimTx(w.rows, q).value);
    RunThree(AtPhase(claimed, k, q, Claimant), es[3], es[4], es[5], true);
    CompletionPasses(claimed, k, q);
  }

  /** What becomes of the frame: written now, left with the writer, or neither; and only a delivery is taken as sent. */
  lemma SendsAre(w: World, k: nat, delivery: Delivery)
    requires At(w, k, Claimant)
    ensures var q := w.workers[k].request;
            var v, x := Apply(w, Send(k, delivery), true), Write(q.approval, q.decision);
            && (delivery == Delivered || delivery == FailedButApplied ==>
                  v.writes == w.writes + [x] && v.queue == w.queue)
            && (delivery == FailedUnapplied ==> v.writes == w.writes && v.queue == w.queue)
            && (delivery == FailedInWriter ==> v.writes == w.writes && v.queue == w.queue + [x])
            && k in v.workers && (v.workers[k].phase == Sent <==> delivery == Delivered) && v.rows == w.rows
  {
  }

  /** An approval that is asked for waits for its answer, whatever the record says; no other row changes. */
  lemma AskOpens(w: World, id: ID, row: Row)
    requires w.up && id !in w.rows
    ensures var v := Apply(w, Ask(id, row), true);
            && v.rows == w.rows[id := Row(row.session, row.provider, Pending, Idle, None, None, row.key, None, None)]
            && v == w.(rows := v.rows)
  {
  }

  /**
   After a crash and a restart nobody is under way, no frame is left, the mutex is free, and no approval
   waits for an answer or has one in flight.
   */
  lemma RestartClears(w: World, responder: ID, digests: map<ID, Digest>)
    requires Inv(w)
    ensures var v := Run(w, [Crash, Restart(responder, digests)], true);
            && v.up && v.workers == map[] && v.mutex.None? && v.queue == [] && v.writes == w.writes
            && v.rows.Keys == w.rows.Keys
            && (forall id | id in v.rows :: v.rows[id].status != Pending || Final(v.rows[id]))
            && (forall id | id in w.rows && Final(w.rows[id]) :: v.rows[id] == w.rows[id])
  {
    var es := [Crash, Restart(responder, digests)];
    var down := Apply(w, Crash, true);
    assert Run(w, es, true) == Run(down, es[1..], true) && es[1..] == [es[1]];
    assert Run(down, [es[1]], true) == Run(Apply(down, es[1], true), [es[1]][1..], true);
    RestartEnds(w.rows, responder, digests);
  }

  predicate Final(a: Row) { a.state == Written || a.state == Ambiguous }

  /** The writes made for an approval and those still in a writer's hands. */
  function Made(w: World, id: ID): nat { Count(w.writes, id) }

  function Coming(w: World, id: ID): nat { Count(w.queue, id) }

  /** From `w` to `v` no frame of the approval was added and no write undone. */
  predicate Settles(w: World, v: World, id: ID) {
    Made(w, id) <= Made(v, id) && Made(v, id) + Coming(v, id) <= Made(w, id) + Coming(w, id)
  }

  /** Only a claimant sends, and its approval is not final. */
  lemma SendSettles(w: World, k: nat, delivery: Delivery, id: ID)
    requires Inv(w) && id in w.rows && Final(w.rows[id])
    ensures Settles(w, Apply(w, Send(k, delivery), true), id)
  {
    if At(w, k, Claimant) {
      var x := Write(w.workers[k].request.approval, w.workers[k].request.decision);
      CountOne(w.writes, x, id);
      CountOne(w.queue, x, id);
    }
  }

  lemma WriterSettles(w: World, i: nat, id: ID)
    ensures Settles(w, Apply(w, LateWrite(i), true), id) && Settles(w, Apply(w, DropWrite(i), true), id)
  {
    if i < |w.queue| {
      CountOne(w.writes, w.queue[i], id);
      CountWithout(w.queue, i, id);
    }
  }

  lemma OthersWriteNothing(w: World, e: Event)
    requires !e.Send? && !e.LateWrite? && !e.DropWrite?
    ensures var v := Apply(w, e, true); v.writes == w.writes && (v.queue == w.queue || v.queue == [])
  {
  }

  lemma FinalStep(w: World, e: Event, id: ID)
    requires Inv(w) && id in w.rows && Final(w.rows[id])
    ensures Settles(w, Apply(w, e, true), id)
  {
    match e
    case Send(k, delivery) => SendSettles(w, k, delivery, id);
    case LateWrite(i) => WriterSettles(w, i, id);
    case DropWrite(i) => WriterSettles(w, i, id);
    case _ => OthersWriteNothing(w, e);
  }

  /**
   A written or ambiguous approval never changes again, and nothing is written for it again but a frame that
   a writer already has in its hands.
   */
  lemma {:induction false} FinalForGood(w: World, es: seq<Event>, id: ID)
    requires Inv(w) && id in w.rows && Final(w.rows[id])
    ensures var v := Run(w, es, true);
            && id in v.rows && v.rows[id] == w.rows[id]
            && Made(w, id) <= Made(v, id) && Made(v, id) + Coming(v, id) <= Made(w, id) + Coming(w, id)
    decreases |es|
  {
    if es != [] {
      StepKeeps(w, es[0]);
      FinalStep(w, es[0], id);
      FinalForGood(Apply(w, es[0], true), es[1..], id);
    }
  }

  /**
   Nothing is written for a final approval again if and only if no writer has a frame of it, and for a
   written one none ever has.
   */
  lemma QuietIff(w: World, id: ID)
    requires Inv(w) && id in w.rows && Final(w.rows[id])
    ensures (forall es :: Made(Run(w, es, true), id) == Made(w, id)) <==> Coming(w, id) == 0
    ensures w.rows[id].state == Written ==> Coming(w, id) == 0
  {
    if w.rows[id].state == Written {
      IdleQueue(w.rows, w.writes, w.queue, id);
    }
    if Coming(w, id) == 0 {
      forall es ensures Made(Run(w, es, true), id) == Made(w, id) {
        FinalForGood(w, es, id);
      }
    } else {
      var es := WrittenLate(w, id);
    }
  }

  /** The writer that has the frame writes it. */
  lemma WrittenLate(w: World, id: ID) returns (es: seq<Event>)
    requires Coming(w, id) > 0
    ensures Made(Run(w, es, true), id) == Made(w, id) + 1
  {
    var i := FrameOf(w.queue, id);
    CountOne(w.writes, w.queue[i], id);
    es := [LateWrite(i)];
    assert Run(w, es, true) == Run(Apply(w, es[0], true), es[1..], true);
  }

  lemma FrameOf(queue: seq<Write>, id: ID) returns (i: nat)
    requires Count(queue, id) > 0
    ensures i < |queue| && queue[i].approval == id
  {
    if forall i | 0 <= i < |queue| :: queue[i].approval != id {
      Unqueued(queue, id);
    }
    i :| i < |queue| && queue[i].approval == id;
  }

  // ---- Why the mutex is needed ----

  const QUESTION := Row(7, 5, Pending, Idle, None, None, 0, None, None)
  const ANSWER := Request(7, 1, 5, 3, 9, Approve, 42)

  const TWICE := [Ask(1, QUESTION), Enter(1, ANSWER), Enter(2, ANSWER), LookAt(1, true), LookAt(2, true), Claim(1),
                  Claim(2), Send(1, Delivered), Send(2, Delivered)]

  function Both(a: Phase, b: Phase): map<nat, Worker> {
    map[1 := Worker(ANSWER, a), 2 := Worker(ANSWER, b)]
  }

  const CLAIMED := QUESTION.(state := Dispatching, decision := Some(Approve), responder := Some(3), key := 9,
                             digest := Some(42))

  lemma BothEnter()
    ensures Run(INIT, [Ask(1, QUESTION), Enter(1, ANSWER), Enter(2, ANSWER)], false) ==
            World(map[1 := QUESTION], [], [], Both(Entered, Entered), Some(2), true)
  {
    RunThree(INIT, Ask(1, QUESTION), Enter(1, ANSWER), Enter(2, ANSWER), false);
  }

  lemma BothLook(u: World)
    requires u == World(map[1 := QUESTION], [], [], Both(Entered, Entered), Some(2), true)
    ensures Run(u, [LookAt(1, true), LookAt(2, true), Claim(1)], false) ==
            World(map[1 := CLAIMED], [], [], Both(Claimant, Looked), Some(2), true)
  {
  }

  lemma BothSend(v: World)
    requires v == World(map[1 := CLAIMED], [], [], Both(Claimant, Looked), Some(2), true)
    ensures Run(v, [Claim(2), Send(1, Delivered), Send(2, Delivered)], false).writes ==
            [Write(1, Approve), Write(1, Approve)]
  {
  }

  /**
   Without it, two copies of one request can both look before either claims; the second claim finds its
   own decision in flight, succeeds, and the provider is written to twice.
   */
  lemma TwiceWithoutMutex()
    ensures Count(Run(INIT, TWICE, false).writes, 1) == 2
  {
    var a, b, c := TWICE[..3], TWICE[3..6], TWICE[6..];
    assert TWICE == a + (b + c);
    RunSplit(INIT, a, b + c, false);
    RunSplit(Run(INIT, a, false), b, c, false);
    assert a == [Ask(1, QUESTION), Enter(1, ANSWER), Enter(2, ANSWER)];
    assert b == [LookAt(1, true), LookAt(2, true), Claim(1)] && c == [Claim(2), Send(1, Delivered), Send(2, Delivered)];
    BothEnter();
    BothLook(Run(INIT, a, false));
    BothSend(Run(Run(INIT, a, false), b, false));
    var x := Write(1, Approve);
    assert [x, x] == [x] + [x] && [x] == [] + [x];
    CountOne([x], x, 1);
    CountOne([], x, 1);
  }

  // ---- A late write happens ----

  const ALONE := World(map[1 := CLAIMED], [], [], map[1 := Worker(ANSWER, Claimant)], Some(1), true)

  lemma OneClaims()
    ensures Run(INIT, [Ask(1, QUESTION), Enter(1, ANSWER), LookAt(1, true)] + [Claim(1)], true) == ALONE
  {
    var a, b := [Ask(1, QUESTION), Enter(1, ANSWER), LookAt(1, true)], [Claim(1)];
    RunSplit(INIT, a, b, true);
    RunThree(INIT, a[0], a[1], a[2], true);
    var v := Run(INIT, a, true);
    assert v == World(map[1 := QUESTION], [], [], map[1 := Worker(ANSWER, Looked)], Some(1), true);
    assert Run(v, b, true) == Run(Apply(v, b[0], true), b[1..], true);
  }

  lemma OneGivesUp()
    ensures var v := Run(ALONE, [Send(1, FailedInWriter), ReadFailure(1, true), Fail(1, true)], true);
            && v.writes == [] && v.queue == [Write(1, Approve)] && v.up
            && 1 in v.rows && v.rows[1].state == Ambiguous
  {
    RunThree(ALONE, Send(1, FailedInWriter), ReadFailure(1, true), Fail(1, true), true);
  }

  /** The failure is on record, nothing has been written, and then the frame is written after all. */
  lemma LateWriteHappens()
    ensures exists es :: var v := Run(INIT, es, true);
              && 1 in v.rows && v.rows[1].state == Ambiguous && Made(v, 1) == 0
              && Made(Apply(v, LateWrite(0), true), 1) == 1
  {
    var a, b := [Ask(1, QUESTION), Enter(1, ANSWER), LookAt(1, true)] + [Claim(1)],
                [Send(1, FailedInWriter), ReadFailure(1, true), Fail(1, true)];
    OneClaims();
    OneGivesUp();
    RunSplit(INIT, a, b, true);
    CountOne([], Write(1, Approve), 1);
  }
}

/**
 The JSON-RPC client's table of pending calls (internal/providers/codex/protocol.go), shared by callers, one
 reader and whoever makes the client fail. Each step below is one critical section or one channel send;
 any step of any goroutine may come between two others.
 */
module Rpc {
  import opened Base

  /** A call's one-slot response channel; every call makes a new one. */
  type Channel = nat

  datatype Message = Response(id: nat, payload: nat) | Failure

  /** What the reader is doing: waiting for a frame, about to send on a channel, or about to fail the client. */
  datatype Reader = Reading | Holding(channel: Channel, message: Message) | Failing | Stopped

  /**
   The client, and what became of each call: the number it was issued, the messages ever sent on its
   channel, and whether it gave up while it was pending. `notify` are the waiters a failure still owes a
   message.
   */
  datatype State = State(nextId: nat, pending: map<nat, Channel>, done: bool, reader: Reader, notify: set<Channel>,
                         issued: map<Channel, nat>, sent: map<Channel, seq<Message>>, abandoned: set<Channel>)

  datatype Event =
    | Issue(channel: Channel)
    | ReadResponse(id: nat, payload: nat)
    | ReadBadFrame
    | Deliver
    | Fail
    | ReaderFails
    | Notify(channel: Channel)
    | GiveUp(channel: Channel)

  const INIT := State(1, map[], false, Reading, {}, map[], map[], {})

  function SendOn(s: State, c: Channel, m: Message): map<Channel, seq<Message>>
    requires c in s.sent
  {
    s.sent[c := s.sent[c] + [m]]
  }

  function IssueTo(s: State, c: Channel): State {
    if s.done || c in s.issued then s
    else s.(nextId := s.nextId + 1, pending := s.pending[s.nextId := c], issued := s.issued[c := s.nextId],
            sent := s.sent[c := []])
  }

  /** Takes the waiter of a response out of the table; a number nobody waits for is a protocol error. */
  function Take(s: State, id: nat, payload: nat): State {
    if id in s.pending && id > 0
    then s.(pending := s.pending - {id}, reader := Holding(s.pending[id], Response(id, payload)))
    else s.(pending := s.pending - {id}, reader := Failing)
  }

  /** The first failure closes the client and takes over all waiters; later ones do nothing. */
  function Close(s: State): State {
    if s.done then s else s.(done := true, pending := map[], notify := s.pending.Values)
  }

  function Remove(s: State, c: Channel): State
    requires c in s.issued
  {
    if s.issued[c] in s.pending
    then s.(pending := s.pending - {s.issued[c]}, abandoned := s.abandoned + {c}) else s
  }

  function Apply(s: State, e: Event): State {
    match e
    case Issue(c) => IssueTo(s, c)
    case ReadResponse(id, payload) => if s.reader == Reading then Take(s, id, payload) else s
    case ReadBadFrame => if s.reader == Reading then s.(reader := Failing) else s
    case Deliver =>
      if s.reader.Holding? && s.reader.channel in s.sent
      then s.(sent := SendOn(s, s.reader.channel, s.reader.message), reader := Reading) else s
    case Fail => Close(s)
    case ReaderFails => if s.reader == Failing then Close(s).(reader := Stopped) else s
    case Notify(c) =>
      if c in s.notify && c in s.sent then s.(sent := SendOn(s, c, Failure), notify := s.notify - {c}) else s
    case GiveUp(c) => if c in s.issued then Remove(s, c) else s
  }

  function Run(s: State, es: seq<Event>): State
    decreases |es|
  {
    if es == [] then s else Run(Apply(s, es[0]), es[1..])
  }

  // ---- The invariant ----

  /** In which of five places the answer to an issued call is; a call is always in exactly one. */
  datatype Place = InTable | InReader | InFailure | Answered | GivenUp

  predicate IsAt(s: State, c: Channel, p: Place)
    requires c in s.issued
  {
    match p
    case InTable => s.issued[c] in s.pending
    case InReader => s.reader.Holding? && s.reader.channel == c
    case InFailure => c in s.notify
    case Answered => c in s.sent && s.sent[c] != []
    case GivenUp => c in s.abandoned
  }

  function One(b: bool): nat { if b then 1 else 0 }

  /** In how many of the five. */
  function Places(s: State, c: Channel): nat
    requires c in s.issued
  {
    One(IsAt(s, c, InTable)) + One(IsAt(s, c, InReader)) + One(IsAt(s, c, InFailure)) + One(IsAt(s, c, Answered)) +
    One(IsAt(s, c, GivenUp))
  }

  predicate OnePlace(s: State, c: Channel)
    requires c in s.issued
  {
    Places(s, c) == 1
  }

  /** Numbers are given out in order, and the table maps each back to the call it was issued to. */
  ghost predicate Numbered(s: State) {
    && s.nextId >= 1 && s.sent.Keys == s.issued.Keys
    && (forall c | c in s.issued ::
          1 <= s.issued[c] < s.nextId && (s.issued[c] in s.pending ==> s.pending[s.issued[c]] == c))
    && (forall id | id in s.pending :: s.pending[id] in s.issued && s.issued[s.pending[id]] == id)
  }

  /** A channel has carried at most one message, and a response only the one to its own call. */
  ghost predicate OneMessage(s: State) {
    forall c | c in s.sent && c in s.issued ::
      |s.sent[c]| <= 1 && forall m | m in s.sent[c] :: m.Response? ==> m.id == s.issued[c]
  }

  ghost predicate Inv(s: State) {
    && Numbered(s) && OneMessage(s)
    && (forall c | c in s.issued :: OnePlace(s, c))
    && (s.reader.Holding? ==> s.reader.channel in s.issued && s.reader.message.Response? &&
                              s.reader.message.id == s.issued[s.reader.channel])
    && s.notify <= s.issued.Keys && s.abandoned <= s.issued.Keys
    && (s.done ==> s.pending == map[])
    && (!s.done ==> s.notify == {})
  }

  /** `c` is where it was. */
  predicate Unmoved(s: State, t: State, c: Channel)
    requires c in s.issued && c in t.issued
  {
    && (IsAt(s, c, InTable) <==> IsAt(t, c, InTable)) && (IsAt(s, c, InReader) <==> IsAt(t, c, InReader))
    && (IsAt(s, c, InFailure) <==> IsAt(t, c, InFailure)) && (IsAt(s, c, Answered) <==> IsAt(t, c, Answered))
    && (IsAt(s, c, GivenUp) <==> IsAt(t, c, GivenUp))
  }

  lemma Stays(s: State, t: State, c: Channel)
    requires c in s.issued && c in t.issued && Unmoved(s, t, c) && OnePlace(s, c)
    ensures OnePlace(t, c)
  {
  }

  lemma NotElsewhere(s: State, c: Channel, p: Place)
    requires c in s.issued && OnePlace(s, c) && IsAt(s, c, p)
    ensures forall q | q != p :: !IsAt(s, c, q)
  {
  }

  /** `c` went from one place to another. */
  lemma Goes(s: State, t: State, c: Channel, from: Place, to: Place)
    requires c in s.issued && c in t.issued && OnePlace(s, c) && IsAt(s, c, from)
    requires IsAt(t, c, to) && (from != to ==> !IsAt(t, c, from))
    requires forall q | q != from && q != to :: IsAt(t, c, q) ==> IsAt(s, c, q)
    ensures OnePlace(t, c)
  {
  }

  lemma IssueKeeps(s: State, c: Channel)
    requires Inv(s)
    ensures Inv(IssueTo(s, c))
  {
    var t := IssueTo(s, c);
    if t != s {
      assert IsAt(t, c, InTable);
      forall d | d in t.issued ensures OnePlace(t, d) {
        if d != c {
          Stays(s, t, d);
        }
      }
    }
  }

  /** Only the reader's state changes, and nothing is in its hands before or after. */
  lemma ReaderKeeps(s: State, r: Reader)
    requires Inv(s) && !s.reader.Holding? && !r.Holding?
    ensures Inv(s.(reader := r))
  {
    forall d | d in s.issued ensures OnePlace(s.(reader := r), d) {
      Stays(s, s.(reader := r), d);
    }
  }

  /** A waiter goes from the table into the reader's hands. */
  lemma HandKeeps(s: State, id: nat, payload: nat)
    requires Inv(s) && s.reader == Reading && id in s.pending
    ensures Inv(s.(pending := s.pending - {id}, reader := Holding(s.pending[id], Response(id, payload))))
  {
    var t := s.(pending := s.pending - {id}, reader := Holding(s.pending[id], Response(id, payload)));
    forall d | d in t.issued ensures OnePlace(t, d) {
      if d == s.pending[id] {
        Goes(s, t, d, InTable, InReader);
      } else {
        Stays(s, t, d);
      }
    }
  }

  lemma TakeKeeps(s: State, id: nat, payload: nat)
    requires Inv(s) && s.reader == Reading
    ensures Inv(Take(s, id, payload))
  {
    if id in s.pending {
      HandKeeps(s, id, payload);
    } else {
      assert s.pending - {id} == s.pending;
      ReaderKeeps(s, Failing);
    }
  }

  lemma DeliverKeeps(s: State)
    requires Inv(s) && s.reader.Holding?
    ensures s.sent[s.reader.channel] == []
    ensures Inv(Apply(s, Deliver))
  {
    var c, t := s.reader.channel, Apply(s, Deliver);
    assert OnePlace(s, c) && IsAt(s, c, InReader);
    assert !IsAt(s, c, Answered);
    forall d | d in t.issued ensures OnePlace(t, d) {
      if d == c {
        Goes(s, t, d, InReader, Answered);
      } else {
        Stays(s, t, d);
      }
    }
  }

  lemma NotifyKeeps(s: State, c: Channel)
    requires Inv(s) && c in s.notify
    ensures s.sent[c] == []
    ensures Inv(Apply(s, Notify(c)))
  {
    var t := Apply(s, Notify(c));
    assert OnePlace(s, c) && IsAt(s, c, InFailure);
    assert !IsAt(s, c, Answered);
    forall d | d in t.issued ensures OnePlace(t, d) {
      if d == c {
        Goes(s, t, d, InFailure, Answered);
      } else {
        Stays(s, t, d);
      }
    }
  }

  lemma CloseKeeps(s: State)
    requires Inv(s)
    ensures Inv(Close(s))
  {
    var t := Close(s);
    if t != s {
      forall d | d in t.issued ensures OnePlace(t, d) {
        if s.issued[d] in s.pending {
          assert s.pending[s.issued[d]] == d;
          Goes(s, t, d, InTable, InFailure);
        } else {
          assert d !in t.notify;
          Stays(s, t, d);
        }
      }
    }
  }

  lemma RemoveKeeps(s: State, c: Channel)
    requires Inv(s) && c in s.issued
    ensures Inv(Remove(s, c))
  {
    var t := Remove(s, c);
    if t != s {
      forall d | d in t.issued ensures OnePlace(t, d) {
        if d == c {
          Goes(s, t, d, InTable, GivenUp);
        } else {
          Stays(s, t, d);
        }
      }
    }
  }

  lemma StepKeeps(s: State, e: Event)
    requires Inv(s)
    ensures Inv(Apply(s, e)) && (s.done ==> Apply(s, e).done)
  {
    match e
    case Issue(c) => IssueKeeps(s, c);
    case ReadResponse(id, payload) => if s.reader == Reading { TakeKeeps(s, id, payload); }
    case ReadBadFrame => if s.reader == Reading { ReaderKeeps(s, Failing); }
    case Deliver => if s.reader.Holding? { DeliverKeeps(s); }
    case Fail => CloseKeeps(s);
    case ReaderFails =>
      if s.reader == Failing {
        CloseKeeps(s);
        ReaderKeeps(Close(s), Stopped);
      }
    case Notify(c) => if c in s.notify { NotifyKeeps(s, c); }
    case GiveUp(c) => if c in s.issued { RemoveKeeps(s, c); }
  }

  lemma {:induction false} RunKeeps(s: State, es: seq<Event>)
    requires Inv(s)
    ensures Inv(Run(s, es)) && (s.done ==> Run(s, es).done)
    decreases |es|
  {
    if es != [] {
      StepKeeps(s, es[0]);
      RunKeeps(Apply(s, es[0]), es[1..]);
    }
  }

  /** No number is issued twice. */
  ghost predicate Distinct(s: State) {
    forall c, d | c in s.issued && d in s.issued && s.issued[c] == s.issued[d] :: c == d
  }

  lemma IssueDistinct(s: State, c: Channel)
    requires Numbered(s) && Distinct(s)
    ensures Distinct(IssueTo(s, c))
  {
  }

  lemma NumbersStay(s: State, e: Event)
    requires !e.Issue?
    ensures Apply(s, e).issued == s.issued
  {
  }

  lemma {:induction false} RunDistinct(s: State, es: seq<Event>)
    requires Inv(s) && Distinct(s)
    ensures Distinct(Run(s, es))
    decreases |es|
  {
    if es != [] {
      if es[0].Issue? {
        IssueDistinct(s, es[0].channel);
      } else {
        NumbersStay(s, es[0]);
      }
      StepKeeps(s, es[0]);
      RunDistinct(Apply(s, es[0]), es[1..]);
    }
  }

  // ---- What the client promises ----

  /**
   In every interleaving each waiter's channel carries at most one message, so a send into its one slot
   never blocks; a response reaches only the call that was issued its number; and the answer to every
   call is at every moment in exactly one place.
   */
  lemma EveryCallAnsweredOnce(es: seq<Event>, c: Channel)
    requires c in Run(INIT, es).issued
    ensures var s := Run(INIT, es);
            && c in s.sent && |s.sent[c]| <= 1
            && (forall m | m in s.sent[c] :: m.Response? ==> m.id == s.issued[c])
            && OnePlace(s, c)
            && (forall d | d in s.issued && s.issued[d] == s.issued[c] :: d == c)
  {
    RunKeeps(INIT, es);
    RunDistinct(INIT, es);
  }

  /** When the reader or a failure is about to send, the slot is empty. */
  lemma SendsNeverBlock(es: seq<Event>, c: Channel)
    requires var s := Run(INIT, es); c in s.notify || (s.reader.Holding? && s.reader.channel == c)
    ensures var s := Run(INIT, es); c in s.sent && s.sent[c] == []
  {
    RunKeeps(INIT, es);
    var s := Run(INIT, es);
    if c in s.notify {
      NotifyKeeps(s, c);
    } else {
      DeliverKeeps(s);
    }
  }

  /** Once failed, the client stays failed, its table stays empty, and it issues no more calls. */
  lemma FailedForGood(s: State, es: seq<Event>, c: Channel)
    requires Inv(s) && s.done
    ensures Run(s, es).done && Run(s, es).pending == map[] && IssueTo(Run(s, es), c) == Run(s, es)
  {
    RunKeeps(s, es);
  }

  /** A response to a call that has given up, or to no call, fails the whole client. */
  lemma LateResponseFails(s: State, id: nat, payload: nat)
    requires Inv(s) && s.reader == Reading && id !in s.pending
    ensures Run(s, [ReadResponse(id, payload), ReaderFails]).done
    ensures Run(s, [ReadResponse(id, payload), ReaderFails]).pending == map[]
  {
    var es := [ReadResponse(id, payload), ReaderFails];
    var t := Apply(s, es[0]);
    assert Run(s, es) == Run(t, es[1..]);
    assert es[1..] == [ReaderFails];
    assert Run(t, [ReaderFails]) == Run(Apply(t, ReaderFails), [ReaderFails][1..]);
    TakeKeeps(s, id, payload);
    CloseKeeps(t);
  }

  // ---- What reaches a call is what was read ----

  /** The response is on the call's channel or in the reader's hands for it. */
  predicate Carries(s: State, c: Channel, m: Message) {
    || (c in s.sent && m in s.sent[c])
    || (s.reader.Holding? && s.reader.channel == c && s.reader.message == m)
  }

  lemma CarriesStep(s: State, e: Event, c: Channel, id: nat, payload: nat)
    requires Carries(Apply(s, e), c, Response(id, payload))
    ensures Carries(s, c, Response(id, payload)) || e == ReadResponse(id, payload)
  {
  }

  /** A response on its way to a call was there before the run or was read in it, number and payload. */
  lemma {:induction false} RunCarries(s: State, es: seq<Event>, c: Channel, id: nat, payload: nat)
    requires Carries(Run(s, es), c, Response(id, payload))
    ensures Carries(s, c, Response(id, payload)) || ReadResponse(id, payload) in es
    decreases |es|
  {
    if es != [] {
      RunCarries(Apply(s, es[0]), es[1..], c, id, payload);
      if Carries(Apply(s, es[0]), c, Response(id, payload)) {
        CarriesStep(s, es[0], c, id, payload);
      }
    }
  }

  /** In every run, a response that a call gets is one to its own number, with the payload it was read with. */
  lemma ResponsesAreGenuine(es: seq<Event>, c: Channel, id: nat, payload: nat)
    requires Carries(Run(INIT, es), c, Response(id, payload))
    ensures ReadResponse(id, payload) in es
    ensures c in Run(INIT, es).issued && Run(INIT, es).issued[c] == id
  {
    RunCarries(INIT, es, c, id, payload);
    RunKeeps(INIT, es);
  }

  lemma RunTwo(s: State, a: Event, b: Event)
    ensures Run(s, [a]) == Apply(s, a) && Run(s, [a, b]) == Apply(Apply(s, a), b)
  {
    assert [a][1..] == [] && [a, b][1..] == [b] && [b][1..] == [];
    assert Run(Apply(s, a), [b]) == Run(Apply(Apply(s, a), b), [b][1..]);
  }

  /** A new call gets the next number and waits in the table under it. */
  lemma IssueWaits(s: State, c: Channel)
    requires Inv(s) && !s.done && c !in s.issued
    ensures var t := Apply(s, Issue(c));
            && c in t.issued && t.issued[c] == s.nextId && t.nextId == s.nextId + 1 && t.sent[c] == []
            && IsAt(t, c, InTable) && t.pending == s.pending[s.nextId := c]
            && (forall d | d in s.issued :: d in t.issued && t.issued[d] == s.issued[d] && t.sent[d] == s.sent[d])
  {
  }

  /** A waiting call whose response is read and delivered has just that on its channel. */
  lemma ResponseArrives(s: State, c: Channel, payload: nat)
    requires Inv(s) && s.reader == Reading && c in s.issued && s.issued[c] in s.pending
    ensures var t := Run(s, [ReadResponse(s.issued[c], payload), Deliver]);
            && t.sent == s.sent[c := [Response(s.issued[c], payload)]] && t.reader == Reading
            && t.pending == s.pending - {s.issued[c]}
  {
    var id := s.issued[c];
    RunTwo(s, ReadResponse(id, payload), Deliver);
    TakeKeeps(s, id, payload);
    var t := Take(s, id, payload);
    DeliverKeeps(t);
    assert s.pending[id] == c && t.reader == Holding(c, Response(id, payload)) && t.sent == s.sent;
    assert t.sent[c] + [Response(id, payload)] == [Response(id, payload)];
  }

  /** A call that waits when the client fails is told so; one that has given up is out of the table for good. */
  lemma FailureArrives(s: State, c: Channel)
    requires Inv(s) && !s.done && c in s.issued && s.issued[c] in s.pending
    ensures var t := Run(s, [Fail, Notify(c)]);
            t.done && t.pending == map[] && c in t.sent && t.sent[c] == [Failure] && c !in t.notify
  {
    RunTwo(s, Fail, Notify(c));
    assert s.pending[s.issued[c]] in s.pending.Values;
    CloseKeeps(s);
    NotifyKeeps(Close(s), c);
  }

  /** Giving up takes exactly the call's own entry out of the table, if it is still there. */
  lemma GivesUp(s: State, c: Channel)
    requires Inv(s) && c in s.issued
    ensures var t := Apply(s, GiveUp(c));
            && t.pending == s.pending - {s.issued[c]} && t.sent == s.sent && t.issued == s.issued && t.done == s.done
            && (c in t.abandoned <==> c in s.abandoned || s.issued[c] in s.pending)
            && t.reader == s.reader && t.notify == s.notify
  {
    if s.issued[c] !in s.pending {
      assert s.pending - {s.issued[c]} == s.pending;
    }
  }

  /** A frame that cannot be decoded, or whose number nobody waits for, fails the client. */
  lemma BadFrameFails(s: State)
    requires Inv(s) && s.reader == Reading
    ensures Run(s, [ReadBadFrame, ReaderFails]).done && Run(s, [ReadBadFrame, ReaderFails]).reader == Stopped
  {
    RunTwo(s, ReadBadFrame, ReaderFails);
  }

  // ---- The client as the program has it ----

  /** A failure that has told every waiter it took over. */
  function Told(s: State): State
    requires s.notify <= s.sent.Keys
  {
    s.(notify := {}, sent := map c | c in s.sent :: if c in s.notify then s.sent[c] + [Failure] else s.sent[c])
  }

  class Client {
    var nextId: nat
    var pending: map<nat, Channel>
    var done: bool
    var reader: Reader
    var notify: set<Channel>
    var sent: map<Channel, seq<Message>>
    ghost var issued: map<Channel, nat>
    ghost var abandoned: set<Channel>

    ghost function Snapshot(): State
      reads this
    {
      State(nextId, pending, done, reader, notify, issued, sent, abandoned)
    }

    ghost predicate Valid()
      reads this
    {
      Inv(Snapshot())
    }

    constructor ()
      ensures Valid() && Snapshot() == INIT
    {
      nextId, pending, done, reader, notify, sent := 1, map[], false, Reading, {}, map[];
      issued, abandoned := map[], {};
    }

    /** Registers a call under the next number, unless the client has failed. */
    method IssueCall(c: Channel) returns (id: Option<nat>)
      requires Valid() && c !in issued
      modifies this
      ensures Snapshot() == old(IssueTo(Snapshot(), c)) && Valid()
      ensures id == if old(done) then None else Some(old(nextId))
    {
      ghost var s := Snapshot();
      if done { return None; }
      id := Some(nextId);
      pending := pending[nextId := c];
      sent := sent[c := []];
      issued := issued[c := nextId];
      nextId := nextId + 1;
      assert Snapshot() == IssueTo(s, c);
      IssueKeeps(s, c);
    }

    /** What the reader does with a response: the waiter leaves the table before it is sent anything. */
    method OnResponse(id: nat, payload: nat)
      requires Valid() && reader == Reading
      modifies this
      ensures Snapshot() == old(Take(Snapshot(), id, payload)) && Valid()
      ensures id !in pending
      ensures reader == if id in old(pending) then Holding(old(pending)[id], Response(id, payload)) else Failing
    {
      ghost var s := Snapshot();
      if id in pending && id > 0 {
        reader := Holding(pending[id], Response(id, payload));
      } else {
        reader := Failing;
      }
      pending := pending - {id};
      assert Snapshot() == Take(s, id, payload);
      TakeKeeps(s, id, payload);
    }

    method RemovePending(c: Channel, id: nat)
      requires Valid() && c in issued && issued[c] == id
      modifies this
      ensures Snapshot() == old(Remove(Snapshot(), c)) && Valid()
    {
      ghost var s := Snapshot();
      if id in pending {
        abandoned := abandoned + {c};
        pending := pending - {id};
      }
      assert Snapshot() == Remove(s, c);
      RemoveKeeps(s, c);
    }

    /** The first failure takes over all waiters; later ones do nothing. */
    method CloseOnce()
      requires Valid()
      modifies this`done, this`notify, this`pending
      ensures Valid() && Snapshot() == old(Close(Snapshot()))
    {
      CloseKeeps(Snapshot());
      if !done {
        done, notify, pending := true, pending.Values, map[];
      }
    }

    /** Closes the client once and then sends every waiter the failure. */
    method FailAll()
      requires Valid() && notify == {}
      modifies this
      ensures Valid() && old(Close(Snapshot())).notify <= old(sent).Keys
      ensures Snapshot() == Told(old(Close(Snapshot())))
    {
      CloseOnce();
      ToldKeeps(Snapshot());
      TellAll();
    }

    method TellAll()
      requires notify <= sent.Keys
      modifies this`notify, this`sent
      ensures Snapshot() == Told(old(Snapshot()))
    {
      ghost var told := Told(Snapshot()).sent;
      while notify != {}
        invariant notify <= sent.Keys && sent.Keys == old(sent).Keys && notify <= old(notify)
        invariant forall c | c in sent :: sent[c] == if c in notify then old(sent)[c] else told[c]
        decreases |notify|
      {
        var c :| c in notify;
        sent := sent[c := sent[c] + [Failure]];
        notify := notify - {c};
      }
      assert sent == told;
    }
  }

  lemma ToldKeeps(s: State)
    requires Inv(s)
    ensures s.notify <= s.sent.Keys && Inv(Told(s))
  {
    var t := Told(s);
    forall d | d in t.issued ensures OnePlace(t, d) {
      if d in s.notify {
        NotElsewhere(s, d, InFailure);
        Goes(s, t, d, InFailure, Answered);
      } else {
        Stays(s, t, d);
      }
    }
    ToldOnce(s);
  }

  lemma ToldOnce(s: State)
    requires Inv(s)
    ensures s.notify <= s.sent.Keys && OneMessage(Told(s))
  {
    forall d | d in s.notify ensures s.sent[d] == [] {
      assert IsAt(s, d, InFailure) && OnePlace(s, d);
      assert !IsAt(s, d, Answered);
    }
  }
}

/**
 The turn a session's binding takes to be active (internal/providers/codex/runtime.go): set by the response to
 a turn start and by the provider's notifications, which race each other.
 */
module Turns {
  import opened Base

  type TurnId = nat

  datatype Active = NoTurn | StartingTurn | Turn(id: TurnId)

  datatype Binding = Binding(active: Active, completed: Option<TurnId>)

  datatype Note = Started(turn: TurnId) | Delta(turn: TurnId) | Completed(turn: TurnId)

  // ---- The binding's own steps ----

  /** An input claims the binding before it calls the provider. */
  function BeginInput(b: Binding): Outcome<Binding> {
    if b.active != NoTurn then Err(Conflict) else Ok(b.(active := StartingTurn))
  }

  /** The call failed. */
  function FailInput(b: Binding): Binding {
    if b.active == StartingTurn then b.(active := NoTurn) else b
  }

  /** The call returned the new turn, which may be over already. */
  function EndInput(b: Binding, turn: TurnId): Binding {
    if b.completed == Some(turn) then b.(active := NoTurn) else b.(active := Turn(turn))
  }

  /** A notification of another turn than the active one is a routing error, which fails the runtime. */
  function Route(b: Binding, n: Note): Outcome<Binding> {
    if b.active.Turn? && n.turn != b.active.id then Err(Conflict)
    else
      match n
      case Started(turn) => Ok(if b.active.Turn? then b else b.(active := Turn(turn)))
      case Delta(_) => Ok(b)
      case Completed(turn) => Ok(Binding(NoTurn, Some(turn)))
  }

  /** A notification is an error exactly if another turn is active; a start and an end are taken note of. */
  lemma RoutesIff(b: Binding, n: Note)
    ensures Route(b, n).Err? <==> b.active.Turn? && b.active != Turn(n.turn)
    ensures Route(b, n).Err? ==> Route(b, n).code == Conflict
    ensures Route(b, n).Ok? ==>
              && (n.Started? ==> Route(b, n).value == Binding(Turn(n.turn), b.completed))
              && (n.Delta? ==> Route(b, n).value == b)
              && (n.Completed? ==> Route(b, n).value == Binding(NoTurn, Some(n.turn)))
  {
  }

  /** An input claims a free binding; its answer makes the turn active unless it is over; a failure frees it. */
  lemma InputsAre(b: Binding, turn: TurnId)
    ensures BeginInput(b).Ok? <==> b.active == NoTurn
    ensures BeginInput(b).Err? ==> BeginInput(b).code == Conflict
    ensures BeginInput(b).Ok? ==> BeginInput(b).value == Binding(StartingTurn, b.completed)
    ensures EndInput(b, turn) == Binding(if b.completed == Some(turn) then NoTurn else Turn(turn), b.completed)
    ensures FailInput(b).completed == b.completed
    ensures b.active.Turn? ==> FailInput(b).active == b.active
    ensures !b.active.Turn? ==> FailInput(b).active == NoTurn
  {
  }

  // ---- A session with a well-behaved provider ----

  /**
   How the call that starts a turn ended: with the turn, with no answer in time, or with a refusal. `replied`
   says that the provider's answer came all the same, just when the caller stopped waiting or later.
   */
  datatype Answer = Waiting | Answered | TimedOut(replied: bool) | Rejected

  /** How far a turn has come, as the session has noticed. A rejected turn does not exist for the provider. */
  datatype Progress = Progress(turn: TurnId, answer: Answer, started: bool, completed: bool)

  /** The provider notifies the start, then output, then the completion of each turn it took on. */
  predicate Due(p: Progress, n: Note) {
    && n.turn == p.turn && p.answer != Rejected
    && match n
       case Started(_) => !p.started
       case Delta(_) => p.started && !p.completed
       case Completed(_) => p.started && !p.completed
  }

  function Noted(p: Progress, n: Note): Progress {
    match n
    case Started(_) => p.(started := true)
    case Delta(_) => p
    case Completed(_) => p.(completed := true)
  }

  /** What the binding says while the newest turn is at this point. */
  predicate Reflects(b: Binding, p: Progress) {
    && (p.completed ==> p.started) && (p.answer == Rejected ==> !p.started)
    && b.active == (if p.completed || p.answer == Rejected then NoTurn
                    else if p.started || p.answer == Answered then Turn(p.turn)
                    else if p.answer.TimedOut? then NoTurn
                    else StartingTurn)
    && (p.completed <==> b.completed == Some(p.turn))
  }

  // ---- The binding as the program has it ----

  /** Each method is one critical section; what it leaves reflects the turn if what it found did. */
  class SessionBinding {
    var active: Active
    var completed: Option<TurnId>

    function Snapshot(): Binding
      reads this
    {
      Binding(active, completed)
    }

    constructor ()
      ensures Snapshot() == Binding(NoTurn, None)
    {
      active, completed := NoTurn, None;
    }

    /** The first half of an input. The turn it is about to start is none the binding has seen. */
    method Claim(turn: TurnId) returns (failure: Option<Code>)
      modifies this
      ensures failure.None? <==> old(active) == NoTurn
      ensures failure.None? && old(completed) != Some(turn) ==>
              Reflects(Snapshot(), Progress(turn, Waiting, false, false))
      ensures failure.Some? ==> Snapshot() == old(Snapshot())
      ensures Snapshot() == if failure.None? then BeginInput(old(Snapshot())).value else old(Snapshot())
    {
      if active != NoTurn { return Some(Conflict); }
      active := StartingTurn;
      return None;
    }

    /** The second half, when the call failed or returned; a binding that was replaced meanwhile is left alone. */
    method Settle(answer: Outcome<TurnId>, current: bool) returns (failure: Option<Code>)
      modifies this
      ensures failure == if answer.Err? then Some(answer.code) else if current then None else Some(ProviderFailed)
      ensures Snapshot() == if !current then old(Snapshot())
                            else if answer.Ok? then EndInput(old(Snapshot()), answer.value)
                            else FailInput(old(Snapshot()))
      ensures forall p | Reflects(old(Snapshot()), p) && p.answer == Waiting && current &&
                         (answer.Ok? ==> answer.value == p.turn) ::
                Reflects(Snapshot(), p.(answer := if answer.Ok? then Answered else TimedOut(false)))
    {
      match answer {
        case Err(code) =>
          if current && active == StartingTurn { active := NoTurn; }
          return Some(code);
        case Ok(turn) =>
          if !current { return Some(ProviderFailed); }
          active := if completed == Some(turn) then NoTurn else Turn(turn);
          return None;
      }
    }

    method RouteInbound(n: Note) returns (failure: Option<Code>)
      modifies this
      ensures match Route(old(Snapshot()), n)
              case Ok(b) => failure.None? && Snapshot() == b
              case Err(code) => failure == Some(code) && Snapshot() == old(Snapshot())
      ensures forall p | Reflects(old(Snapshot()), p) && Due(p, n) :: failure.None? && Reflects(Snapshot(), Noted(p, n))
    {
      if active.Turn? && n.turn != active.id { return Some(Conflict); }
      match n {
        case Started(turn) => if !active.Turn? { active := Turn(turn); }
        case Delta(_) =>
        case Completed(turn) => completed, active := Some(turn), NoTurn;
      }
      return None;
    }
  }

  // ---- Every run ----

  /**
   The binding, the turns begun so far, newest last, whether a routing error occurred, and whether an answer
   came that nobody was waiting for. Either of the two fails the runtime.
   */
  datatype World = World(binding: Binding, turns: seq<Progress>, broken: bool, failed: bool)

  datatype Event =
    | Ask
    | Answer(k: nat)
    | TimeOut(k: nat, replied: bool)
    | Reject(k: nat)
    | AnswerLate(k: nat, accepts: bool)
    | Notify(k: nat, note: Note)

  const INIT := World(Binding(NoTurn, None), [], false, false)

  /** Is an input still waiting for its response? */
  predicate AnyWaiting(w: World) { exists k | 0 <= k < |w.turns| :: w.turns[k].answer == Waiting }

  /** Would an input now be let in and get past the binding's own check? */
  predicate Taken(w: World, serialised: bool) {
    !(serialised && AnyWaiting(w)) && BeginInput(w.binding).Ok?
  }

  function Answers(w: World, k: nat, answer: Answer, b: Binding): World {
    if k >= |w.turns| || w.turns[k].answer != Waiting then w
    else w.(binding := b, turns := w.turns[k := w.turns[k].(answer := answer)])
  }

  /**
   One step. `serialised` holds inputs back while another one waits, as the service's mutex does. Turns are
   numbered as they begin, so a new one never has an old number. The provider answers at any time, and
   rejects only a turn that it has not started. An answer to a call that has given up is to no call the
   client knows of, and fails it (internal/providers/codex/protocol.go:296-306).
   */
  function Apply(w: World, e: Event, serialised: bool): World {
    match e
    case Ask =>
      if !Taken(w, serialised) then w
      else w.(binding := BeginInput(w.binding).value, turns := w.turns + [Progress(|w.turns|, Waiting, false, false)])
    case Answer(k) => Answers(w, k, Answered, EndInput(w.binding, k))
    case TimeOut(k, replied) => Answers(w, k, TimedOut(replied), FailInput(w.binding))
    case Reject(k) => if k < |w.turns| && w.turns[k].started then w else Answers(w, k, Rejected, FailInput(w.binding))
    case AnswerLate(k, accepts) =>
      if k >= |w.turns| || w.turns[k].answer != TimedOut(false) || (!accepts && w.turns[k].started) then w
      else w.(turns := w.turns[k := w.turns[k].(answer := if accepts then TimedOut(true) else Rejected)],
              failed := true)
    case Notify(k, n) =>
      if k >= |w.turns| || !Due(w.turns[k], n) then w
      else match Route(w.binding, n)
           case Ok(b) => w.(binding := b, turns := w.turns[k := Noted(w.turns[k], n)])
           case Err(_) => w.(turns := w.turns[k := Noted(w.turns[k], n)], broken := true)
  }

  function Run(w: World, es: seq<Event>, serialised: bool): World
    decreases |es|
  {
    if es == [] then w else Run(Apply(w, es[0], serialised), es[1..], serialised)
  }

  /** The turn is done with, for the session and for the provider. */
  predicate Over(p: Progress) { p.answer == Rejected || (p.answer != Waiting && p.started && p.completed) }

  /** Every turn whose start timed out has completed. */
  predicate Recovered(w: World) {
    forall k | 0 <= k < |w.turns| && w.turns[k].answer.TimedOut? :: w.turns[k].completed
  }

  /** Some call that timed out has not been answered. */
  predicate Outstanding(w: World) { exists k | 0 <= k < |w.turns| :: w.turns[k].answer == TimedOut(false) }

  /** No input is taken while a turn whose start timed out may still go on. */
  predicate Careful(w: World, es: seq<Event>)
    decreases |es|
  {
    es == [] || ((es[0].Ask? && Taken(w, true) ==> Recovered(w)) && Careful(Apply(w, es[0], true), es[1..]))
  }

  /** A run in which no turn start times out. */
  predicate Timely(es: seq<Event>) { forall i | 0 <= i < |es| :: !es[i].TimeOut? }

  // ---- The invariant with serialised inputs ----

  /** Every turn but the newest is over, and the binding reflects the newest. */
  ghost predicate Inv(w: World) {
    && !w.broken
    && (forall k | 0 <= k < |w.turns| :: w.turns[k].turn == k)
    && (forall k | 0 <= k < |w.turns| - 1 :: Over(w.turns[k]))
    && (w.turns == [] ==> w.binding == Binding(NoTurn, None))
    && (w.turns != [] ==> Reflects(w.binding, w.turns[|w.turns| - 1]))
    && (w.binding.completed.Some? ==> w.binding.completed.value < |w.turns|)
  }

  lemma StepKeeps(w: World, e: Event)
    requires Inv(w) && (e.Ask? && Taken(w, true) ==> Recovered(w))
    ensures Inv(Apply(w, e, true))
  {
  }

  lemma {:induction false} RunKeeps(w: World, es: seq<Event>)
    requires Inv(w) && Careful(w, es)
    ensures Inv(Run(w, es, true))
    decreases |es|
  {
    if es != [] {
      StepKeeps(w, es[0]);
      RunKeeps(Apply(w, es[0], true), es[1..]);
    }
  }

  /**
   With serialised inputs, over any number of turns, with starts that are answered, rejected or time out, and
   any interleaving of the answers with the notifications: as long as no input is taken while a timed-out
   start is unresolved, there is no routing error and every turn but the newest is over.
   */
  lemma NoRoutingError(es: seq<Event>, k: nat)
    requires Careful(INIT, es)
    ensures !Run(INIT, es, true).broken
    ensures k < |Run(INIT, es, true).turns| - 1 ==> Over(Run(INIT, es, true).turns[k])
  {
    RunKeeps(INIT, es);
  }

  /** The start timed out and the provider has not been heard of since. */
  predicate Lost(p: Progress) { p.answer.TimedOut? && !p.started }

  /**
   A new input is taken exactly when every turn is over or lost; and once every turn is over, the binding has
   no active turn.
   */
  lemma FreeIffOver(es: seq<Event>)
    requires Careful(INIT, es)
    ensures var w := Run(INIT, es, true);
            && (Taken(w, true) <==> forall k | 0 <= k < |w.turns| :: Over(w.turns[k]) || Lost(w.turns[k]))
            && ((forall k | 0 <= k < |w.turns| :: Over(w.turns[k])) ==> w.binding.active == NoTurn)
  {
    RunKeeps(INIT, es);
    var w := Run(INIT, es, true);
    if w.turns != [] {
      var last := w.turns[|w.turns| - 1];
      assert Reflects(w.binding, last);
      assert forall k | 0 <= k < |w.turns| - 1 :: Over(w.turns[k]);
      if last.answer == Waiting {
        assert AnyWaiting(w) && !Over(last) && !Lost(last);
      }
    }
  }

  // ---- When a timed-out start does harm ----

  lemma {:induction false} TimelyIsCareful(w: World, es: seq<Event>)
    requires Inv(w) && Recovered(w) && Timely(es)
    ensures Careful(w, es)
    decreases |es|
  {
    if es != [] {
      StepKeeps(w, es[0]);
      StaysRecovered(w, es[0]);
      TimelyIsCareful(Apply(w, es[0], true), es[1..]);
    }
  }

  lemma StaysRecovered(w: World, e: Event)
    requires Recovered(w) && !e.TimeOut?
    ensures Recovered(Apply(w, e, true))
  {
  }

  lemma RunTwo(w: World, a: Event, b: Event, serialised: bool)
    ensures Run(w, [a, b], serialised) == Apply(Apply(w, a, serialised), b, serialised)
  {
    assert [a, b][1..] == [b];
    var v := Apply(w, a, serialised);
    assert Run(v, [b], serialised) == Run(Apply(v, b, serialised), [b][1..], serialised);
  }

  /** The lost turn starts after all, is taken for the new one, and the new one's start is then unknown. */
  lemma LostTurnBreaks(w: World)
    requires Inv(w) && Taken(w, true) && !Recovered(w)
    ensures var k, n := |w.turns| - 1, |w.turns|;
            k >= 0 && Run(Apply(w, Ask, true), [Notify(k, Started(k)), Notify(n, Started(n))], true).broken
  {
    var k :| 0 <= k < |w.turns| && w.turns[k].answer.TimedOut? && !w.turns[k].completed;
    var n := |w.turns|;
    assert !Over(w.turns[k]);
    assert k == n - 1 && Reflects(w.binding, w.turns[k]);
    RunTwo(Apply(w, Ask, true), Notify(k, Started(k)), Notify(n, Started(n)), true);
  }

  /**
   After any careful run, an input that is taken can be followed by no timely run that breaks the routing if
   and only if every turn whose start timed out has completed.
   */
  lemma HarmlessIff(es: seq<Event>)
    requires Careful(INIT, es) && Taken(Run(INIT, es, true), true)
    ensures var w := Run(INIT, es, true);
            (forall fs | Timely(fs) :: !Run(Apply(w, Ask, true), fs, true).broken) <==> Recovered(w)
  {
    RunKeeps(INIT, es);
    var w := Run(INIT, es, true);
    var v := Apply(w, Ask, true);
    if Recovered(w) {
      StepKeeps(w, Ask);
      StaysRecovered(w, Ask);
      forall fs | Timely(fs) ensures !Run(v, fs, true).broken {
        TimelyIsCareful(v, fs);
        RunKeeps(v, fs);
      }
    } else {
      LostTurnBreaks(w);
      var k, n := |w.turns| - 1, |w.turns|;
      assert Timely([Notify(k, Started(k)), Notify(n, Started(n))]);
    }
  }

  /** No call that has given up is left to be answered, and none was. */
  predicate Settled(w: World) { !w.failed && !Outstanding(w) }

  lemma StaysSettled(w: World, e: Event)
    requires Settled(w) && !e.TimeOut?
    ensures Settled(Apply(w, e, true))
  {
  }

  lemma {:induction false} RunSettled(w: World, es: seq<Event>)
    requires Settled(w) && Timely(es)
    ensures Settled(Run(w, es, true))
    decreases |es|
  {
    if es != [] {
      StaysSettled(w, es[0]);
      RunSettled(Apply(w, es[0], true), es[1..]);
    }
  }

  /** A late answer fails the client and settles its own call: it is not outstanding any more. */
  lemma LateAnswerSettles(w: World, k: nat, accepts: bool)
    requires k < |w.turns| && w.turns[k].answer == TimedOut(false) && (w.turns[k].started ==> accepts)
    ensures var v := Apply(w, AnswerLate(k, accepts), true);
            && v.failed && v.binding == w.binding && v.broken == w.broken && |v.turns| == |w.turns|
            && v.turns[k] == w.turns[k].(answer := if accepts then TimedOut(true) else Rejected)
            && (forall j | 0 <= j < |w.turns| && j != k :: v.turns[j] == w.turns[j])
  {
  }

  /** The answer that is missing comes. */
  lemma LateAnswerFails(w: World)
    requires Outstanding(w)
    ensures exists fs :: Timely(fs) && Run(w, fs, true).failed
  {
    var k :| 0 <= k < |w.turns| && w.turns[k].answer == TimedOut(false);
    var fs := [AnswerLate(k, true)];
    assert Run(w, fs, true) == Run(Apply(w, fs[0], true), fs[1..], true);
  }

  /** Every timely run from here leaves the runtime standing. */
  ghost predicate Stands(w: World) {
    forall fs | Timely(fs) :: !Run(w, fs, true).broken && !Run(w, fs, true).failed
  }

  /**
   With the client taken in: after any careful run, an input that is taken can be followed by no timely run
   that fails the runtime if and only if every turn whose start timed out has completed and every call that
   timed out had its answer at that very moment. An answer that comes later fails the runtime whatever
   became of its turn.
   */
  lemma SurvivesIff(es: seq<Event>)
    requires Careful(INIT, es) && Taken(Run(INIT, es, true), true)
    ensures var w := Run(INIT, es, true); Stands(Apply(w, Ask, true)) <==> Recovered(w) && Settled(w)
  {
    var w := Run(INIT, es, true);
    var v := Apply(w, Ask, true);
    HarmlessIff(es);
    if Recovered(w) && Settled(w) {
      StaysSettled(w, Ask);
      forall fs | Timely(fs) ensures !Run(v, fs, true).failed {
        RunSettled(v, fs);
      }
    } else if w.failed {
      assert Timely([]) && Run(v, [], true).failed;
    } else if Outstanding(w) {
      var k :| 0 <= k < |w.turns| && w.turns[k].answer == TimedOut(false);
      assert v.turns[k] == w.turns[k];
      LateAnswerFails(v);
    }
  }

  // ---- It happens ----

  lemma RunFour(w: World, a: Event, b: Event, c: Event, d: Event, serialised: bool)
    ensures Run(w, [a, b, c, d], serialised) ==
            Apply(Apply(Apply(Apply(w, a, serialised), b, serialised), c, serialised), d, serialised)
  {
    var es, v := [a, b, c, d], Apply(Apply(w, a, serialised), b, serialised);
    assert es[1..][1..] == [c, d];
    assert Run(w, es, serialised) == Run(Apply(w, a, serialised), es[1..], serialised) == Run(v, [c, d], serialised);
    RunTwo(v, c, d, serialised);
  }

  /** A turn start times out, the next input is taken, and the lost turn then breaks the routing. */
  lemma BrokenAfterTimeOut()
    ensures exists es :: Run(INIT, es, true).broken
  {
    var w := Apply(Apply(INIT, Ask, true), TimeOut(0, false), true);
    assert w == World(Binding(NoTurn, None), [Progress(0, TimedOut(false), false, false)], false, false);
    assert w.turns[0].answer.TimedOut? && !w.turns[0].completed;
    assert Taken(w, true) && !Recovered(w);
    LostTurnBreaks(w);
    var fs := [Notify(0, Started(0)), Notify(1, Started(1))];
    var es := [Ask, TimeOut(0, false), Ask] + fs;
    assert es[1..][1..][1..] == fs;
    assert Run(INIT, es, true) == Run(Apply(INIT, Ask, true), es[1..], true) == Run(w, es[1..][1..], true);
    assert Run(w, es[1..][1..], true) == Run(Apply(w, Ask, true), fs, true);
  }

  const FIRST := [Ask, Notify(0, Started(0)), Notify(0, Completed(0)), Ask]
  const SECOND := [Notify(1, Started(1)), Notify(1, Completed(1)), Answer(1), Answer(0)]

  /** The first turn is over before its answer arrives, and a second input is taken. */
  lemma SecondInput()
    ensures Run(INIT, FIRST, false) ==
            World(Binding(StartingTurn, Some(0)),
                  [Progress(0, Waiting, true, true), Progress(1, Waiting, false, false)], false, false)
  {
    RunFour(INIT, FIRST[0], FIRST[1], FIRST[2], FIRST[3], false);
  }

  lemma FirstAnswerLast(u: World)
    requires u.binding == Binding(StartingTurn, Some(0))
    requires u.turns == [Progress(0, Waiting, true, true), Progress(1, Waiting, false, false)]
    ensures var w := Run(u, SECOND, false);
            |w.turns| == 2 && Over(w.turns[0]) && Over(w.turns[1]) && w.binding.active == Turn(0)
  {
    var v := Apply(Apply(u, SECOND[0], false), SECOND[1], false);
    assert v.binding == Binding(NoTurn, Some(1));
    assert v.turns == [Progress(0, Waiting, true, true), Progress(1, Waiting, true, true)];
    RunFour(u, SECOND[0], SECOND[1], SECOND[2], SECOND[3], false);
  }

  /** Without the mutex, two finished turns can leave the binding stuck on the first, closed to every input. */
  lemma StuckWithoutMutex()
    ensures exists es :: Timely(es) && var w := Run(INIT, es, false);
              |w.turns| == 2 && Over(w.turns[0]) && Over(w.turns[1]) && w.binding.active == Turn(0)
  {
    SecondInput();
    FirstAnswerLast(Run(INIT, FIRST, false));
    FourThen(INIT, FIRST, SECOND, false);
    assert Timely(FIRST + SECOND);
  }

  lemma FourThen(w: World, a: seq<Event>, b: seq<Event>, serialised: bool)
    requires |a| == 4
    ensures Run(w, a + b, serialised) == Run(Run(w, a, serialised), b, serialised)
  {
    var es := a + b;
    var v := Apply(Apply(w, a[0], serialised), a[1], serialised);
    assert a == [a[0], a[1], a[2], a[3]];
    RunFour(w, a[0], a[1], a[2], a[3], serialised);
    assert Run(w, es, serialised) == Run(v, es[1..][1..], serialised);
    var u := Apply(Apply(v, a[2], serialised), a[3], serialised);
    assert Run(v, es[1..][1..], serialised) == Run(u, es[1..][1..][1..][1..], serialised);
    assert es[1..][1..][1..][1..] == b;
  }
}

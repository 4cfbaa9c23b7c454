/**
 The runtime manager over every interleaving of starts, stops, failures and closing. A start runs outside
 the lock except for its critical sections; of the starts of one reserved session, a gate lets one at a
 time in, and a session of a direct start is new.
 */
module RuntimeRuns {
  import opened Base
  import opened SessionDomain
  import opened RuntimeManager

  /** Where the start of a session stands, from passing the gate until it returns. */
  datatype Phase = Gated | Ready | Bound | Undoing | Refused

  /** `starters` is the gate table; `status` is what the store says of each session. */
  datatype World = World(core: Core, status: map<ID, SessionStatus>, reserved: set<ID>, starters: map<ID, Phase>,
                         nextBinding: nat)

  datatype Event =
    | StartDirect(session: ID)
    | Reserve(session: ID)
    | Enter(session: ID)
    | ReadStatus(session: ID)
    | BindTo(session: ID, credential: ID, revision: int, handle: Handle, spawns: bool, opens: bool)
    | GoLive(session: ID, works: bool)
    | Undo(session: ID)
    | FailStart(session: ID, works: bool)
    | Advance(session: ID, next: SessionStatus)
    | Stop(session: ID)
    | RuntimeFails(handle: Handle)
    | CloseAll
    | Finish(handle: Handle)

  const INIT := World(EMPTY, map[], {}, map[], 0)

  predicate At(w: World, s: ID, p: Phase) {
    s in w.starters && w.starters[s] == p && s in w.status
  }

  function Leave(w: World, s: ID): World { w.(starters := w.starters - {s}) }

  /** `works` is false when the database refuses. A session's status never returns to starting. */
  ghost function Apply(w: World, e: Event): World {
    match e
    case StartDirect(s) =>
      if s in w.status then w else w.(status := w.status[s := Starting], starters := w.starters[s := Ready])
    case Reserve(s) => if s in w.status then w else w.(status := w.status[s := Starting], reserved := w.reserved + {s})
    case Enter(s) => if s !in w.reserved || s in w.starters then w else w.(starters := w.starters[s := Gated])
    case ReadStatus(s) =>
      if !At(w, s, Gated) then w
      else if w.status[s] == Starting then w.(starters := w.starters[s := Ready]) else Leave(w, s)
    case BindTo(s, c, revision, h, spawns, opens) =>
      if !At(w, s, Ready) then w
      else
        var (core, bound) := Bind(w.core, s, w.nextBinding, c, revision, h, spawns, opens);
        w.(core := core, nextBinding := w.nextBinding + 1,
           starters := w.starters[s := if bound then Bound else Refused])
    case GoLive(s, works) =>
      if !At(w, s, Bound) then w
      else if works && w.status[s] == Starting then Leave(w.(status := w.status[s := Running]), s)
      else w.(starters := w.starters[s := Undoing])
    case Undo(s) => if !At(w, s, Undoing) then w else Leave(w.(core := Release(w.core, s)), s)
    case FailStart(s, works) =>
      if !At(w, s, Refused) then w
      else Leave(w.(status := if works && w.status[s] == Starting then w.status[s := Failed] else w.status), s)
    case Advance(s, next) =>
      if s !in w.status || next.Rank() <= w.status[s].Rank() then w else w.(status := w.status[s := next])
    case Stop(s) => w.(core := Release(w.core, s))
    case RuntimeFails(h) => if h !in w.core.arena then w else w.(core := FailRuntime(w.core, h))
    case CloseAll => w.(core := Close(w.core))
    case Finish(h) => w.(core := Finalize(w.core, h))
  }

  ghost function Run(w: World, es: seq<Event>): World
    decreases |es|
  {
    if es == [] then w else Run(Apply(w, es[0]), es[1..])
  }

  // ---- The invariant ----

  /** A bound session has left `starting`, or its own start is still under way; a start yet to bind is unbound. */
  ghost predicate Guarded(bindings: set<ID>, status: map<ID, SessionStatus>, starters: map<ID, Phase>) {
    && starters.Keys <= status.Keys
    && (forall s | s in bindings ::
          s in status && (status[s] == Starting ==> s in starters && (starters[s] == Bound || starters[s] == Undoing)))
    && (forall s | s in starters && starters[s] == Ready :: s !in bindings)
  }

  ghost predicate WInv(w: World) {
    Inv(w.core) && w.reserved <= w.status.Keys && Guarded(w.core.bindings.Keys, w.status, w.starters)
  }

  lemma Unguard(a: set<ID>, b: set<ID>, status: map<ID, SessionStatus>, starters: map<ID, Phase>)
    requires Guarded(a, status, starters) && b <= a
    ensures Guarded(b, status, starters)
  {
  }

  lemma GuardPhase(b: set<ID>, status: map<ID, SessionStatus>, starters: map<ID, Phase>, s: ID, p: Phase)
    requires Guarded(b, status, starters) && s in status
    requires s in b ==> p != Ready && (status[s] == Starting ==> p == Bound || p == Undoing)
    ensures Guarded(b, status, starters[s := p])
  {
  }

  lemma GuardLeave(b: set<ID>, status: map<ID, SessionStatus>, starters: map<ID, Phase>, s: ID)
    requires Guarded(b, status, starters) && (s in b ==> s in status && status[s] != Starting)
    ensures Guarded(b, status, starters - {s})
  {
  }

  lemma GuardStatus(b: set<ID>, status: map<ID, SessionStatus>, starters: map<ID, Phase>, s: ID, next: SessionStatus)
    requires Guarded(b, status, starters) && (s in b ==> next != Starting)
    ensures Guarded(b, status[s := next], starters)
  {
  }

  /** The session's start has just bound it. */
  lemma GuardBound(b: set<ID>, status: map<ID, SessionStatus>, starters: map<ID, Phase>, s: ID)
    requires Guarded(b, status, starters) && s in status
    ensures Guarded(b + {s}, status, starters[s := Bound])
  {
  }

  lemma StartStep(w: World, s: ID, core: Core, bound: bool)
    requires WInv(w) && At(w, s, Ready) && Inv(core)
    requires core.bindings == if bound then w.core.bindings[s := w.nextBinding] else w.core.bindings
    ensures var phase := if bound then Bound else Refused;
            WInv(w.(core := core, nextBinding := w.nextBinding + 1, starters := w.starters[s := phase]))
  {
    if bound {
      GuardBound(w.core.bindings.Keys, w.status, w.starters, s);
      assert core.bindings.Keys == w.core.bindings.Keys + {s};
    } else {
      GuardPhase(w.core.bindings.Keys, w.status, w.starters, s, Refused);
    }
  }

  lemma BindStep(w: World, s: ID, c: ID, revision: int, h: Handle, spawns: bool, opens: bool)
    requires WInv(w)
    ensures WInv(Apply(w, BindTo(s, c, revision, h, spawns, opens)))
  {
    if At(w, s, Ready) {
      var (core, bound) := Bind(w.core, s, w.nextBinding, c, revision, h, spawns, opens);
      BindKeeps(w.core, s, w.nextBinding, c, revision, h, spawns, opens);
      StartStep(w, s, core, bound);
    }
  }

  lemma UndoStep(w: World, s: ID)
    requires WInv(w)
    ensures WInv(Apply(w, Undo(s)))
  {
    if At(w, s, Undoing) {
      ReleaseAnyKeeps(w.core, s);
      assert Release(w.core, s).bindings.Keys == w.core.bindings.Keys - {s};
    }
  }

  /** A critical section that only takes bindings away. */
  lemma CoreStep(w: World, core: Core)
    requires WInv(w) && Inv(core) && core.bindings.Keys <= w.core.bindings.Keys
    ensures WInv(w.(core := core))
  {
    Unguard(w.core.bindings.Keys, core.bindings.Keys, w.status, w.starters);
  }

  lemma StopStep(w: World, s: ID)
    requires WInv(w)
    ensures WInv(Apply(w, Stop(s)))
  {
    ReleaseAnyKeeps(w.core, s);
    CoreStep(w, Release(w.core, s));
  }

  lemma FailsStep(w: World, h: Handle)
    requires WInv(w)
    ensures WInv(Apply(w, RuntimeFails(h)))
  {
    if h in w.core.arena {
      FailKeeps(w.core, h);
      CoreStep(w, FailRuntime(w.core, h));
    }
  }

  lemma CloseStep(w: World)
    requires WInv(w)
    ensures WInv(Apply(w, CloseAll))
  {
    CloseKeeps(w.core);
    CoreStep(w, Close(w.core));
  }

  lemma FinishStep(w: World, h: Handle)
    requires WInv(w)
    ensures WInv(Apply(w, Finish(h)))
  {
    FinalizeKeeps(w.core, h);
    CoreStep(w, Finalize(w.core, h));
  }

  lemma GateStep(w: World, e: Event)
    requires WInv(w) && (e.StartDirect? || e.Reserve? || e.Enter? || e.ReadStatus?)
    ensures WInv(Apply(w, e))
  {
    var b, s := w.core.bindings.Keys, e.session;
    match e {
      case StartDirect(_) =>
        if s !in w.status {
          GuardStatus(b, w.status, w.starters, s, Starting);
          GuardPhase(b, w.status[s := Starting], w.starters, s, Ready);
        }
      case Reserve(_) => if s !in w.status { GuardStatus(b, w.status, w.starters, s, Starting); }
      case Enter(_) => if s in w.reserved && s !in w.starters { GuardPhase(b, w.status, w.starters, s, Gated); }
      case ReadStatus(_) =>
        if At(w, s, Gated) {
          if w.status[s] == Starting {
            GuardPhase(b, w.status, w.starters, s, Ready);
          } else {
            GuardLeave(b, w.status, w.starters, s);
          }
        }
      case _ =>
    }
  }

  lemma StatusStep(w: World, e: Event)
    requires WInv(w) && (e.GoLive? || e.FailStart? || e.Advance?)
    ensures WInv(Apply(w, e))
  {
    var b, s := w.core.bindings.Keys, e.session;
    match e {
      case GoLive(_, works) =>
        if At(w, s, Bound) {
          if works && w.status[s] == Starting {
            GuardStatus(b, w.status, w.starters, s, Running);
            GuardLeave(b, w.status[s := Running], w.starters, s);
          } else {
            GuardPhase(b, w.status, w.starters, s, Undoing);
          }
        }
      case FailStart(_, works) =>
        if At(w, s, Refused) {
          GuardStatus(b, w.status, w.starters, s, Failed);
          GuardLeave(b, w.status[s := Failed], w.starters, s);
          GuardLeave(b, w.status, w.starters, s);
        }
      case Advance(_, next) =>
        if s in w.status && next.Rank() > w.status[s].Rank() {
          GuardStatus(b, w.status, w.starters, s, next);
        }
      case _ =>
    }
  }

  lemma StepKeeps(w: World, e: Event)
    requires WInv(w)
    ensures WInv(Apply(w, e))
  {
    match e
    case BindTo(s, c, revision, h, spawns, opens) => BindStep(w, s, c, revision, h, spawns, opens);
    case Undo(s) => UndoStep(w, s);
    case Stop(s) => StopStep(w, s);
    case RuntimeFails(h) => FailsStep(w, h);
    case CloseAll => CloseStep(w);
    case Finish(h) => FinishStep(w, h);
    case GoLive(_, _) => StatusStep(w, e);
    case FailStart(_, _) => StatusStep(w, e);
    case Advance(_, _) => StatusStep(w, e);
    case _ => GateStep(w, e);
  }

  lemma {:induction false} RunKeeps(w: World, es: seq<Event>)
    requires WInv(w)
    ensures WInv(Run(w, es))
    decreases |es|
  {
    if es != [] {
      StepKeeps(w, es[0]);
      RunKeeps(Apply(w, es[0]), es[1..]);
    }
  }

  lemma Reachable(es: seq<Event>)
    ensures WInv(Run(INIT, es))
  {
    RunKeeps(INIT, es);
  }

  // ---- A runtime that is gone ----

  /** No section brings back a runtime that is being finalized. */
  predicate StaysOut(m: Core, n: Core, h: Handle) {
    h in m.arena && m.arena[h].finalizing ==> h in n.arena && n.arena[h].finalizing
  }

  lemma BindOut(m: Core, s: ID, binding: nat, c: ID, revision: int, g: Handle, spawns: bool, opens: bool, h: Handle)
    ensures StaysOut(m, Bind(m, s, binding, c, revision, g, spawns, opens).0, h)
  {
  }

  lemma ReleaseOut(m: Core, s: ID, h: Handle)
    ensures StaysOut(m, Release(m, s), h)
  {
  }

  lemma FailOut(m: Core, g: Handle, h: Handle)
    requires g in m.arena
    ensures StaysOut(m, FailRuntime(m, g), h)
  {
  }

  lemma CloseOut(m: Core, h: Handle)
    ensures StaysOut(m, Close(m), h)
  {
  }

  lemma GoneStep(w: World, e: Event, h: Handle)
    ensures StaysOut(w.core, Apply(w, e).core, h)
  {
    match e
    case BindTo(s, c, revision, g, spawns, opens) =>
      BindOut(w.core, s, w.nextBinding, c, revision, g, spawns, opens, h);
    case Undo(s) => ReleaseOut(w.core, s, h);
    case Stop(s) => ReleaseOut(w.core, s, h);
    case RuntimeFails(g) => if g in w.core.arena { FailOut(w.core, g, h); }
    case CloseAll => CloseOut(w.core, h);
    case _ =>
  }

  /** It stays gone: no later run has it registered again, with or without sessions, or finalized twice. */
  lemma {:induction false} GoneForGood(w: World, es: seq<Event>, h: Handle)
    requires WInv(w) && h in w.core.arena && w.core.arena[h].finalizing
    ensures Gone(Run(w, es).core, h)
    decreases |es|
  {
    if es == [] {
      FinalizingIsGone(w.core, h);
    } else {
      StepKeeps(w, es[0]);
      GoneStep(w, es[0], h);
      GoneForGood(Apply(w, es[0]), es[1..], h);
    }
  }

  lemma FinalizingIsGone(m: Core, h: Handle)
    requires Inv(m) && h in m.arena && m.arena[h].finalizing
    ensures Gone(m, h)
  {
  }

  /** So once a runtime's process has died, no later run serves a session with it. */
  lemma FailedForGood(w: World, h: Handle, es: seq<Event>)
    requires WInv(w) && h in w.core.arena
    ensures var v := Run(Apply(w, RuntimeFails(h)), es);
            && Gone(v.core, h)
            && (!w.core.arena[h].finalizing ==>
                  forall s | s in w.core.arena[h].bindings :: s !in Apply(w, RuntimeFails(h)).core.bindings)
  {
    FailsStep(w, h);
    if !w.core.arena[h].finalizing {
      FailTakes(w.core, h);
    }
    GoneForGood(Apply(w, RuntimeFails(h)), es, h);
  }

  /** The steps of a start of a reserved session, up to the session running. */
  function StartSteps(s: ID, c: ID, revision: int, h: Handle): seq<Event> {
    [Reserve(s), Enter(s), ReadStatus(s), BindTo(s, c, revision, h, true, true), GoLive(s, true)]
  }

  /** A start that nothing refuses goes through: the session runs and its credential's runtime has it. */
  lemma StartCompletes(w: World, s: ID, c: ID, revision: int, h: Handle)
    requires WInv(w) && s !in w.status && !w.core.closed
    requires if c in w.core.runtimes then w.core.arena[w.core.runtimes[c]].revision == revision else h !in w.core.arena
    ensures var v := Run(w, StartSteps(s, c, revision, h));
            && s in v.status && v.status[s] == Running && s !in v.starters
            && s in v.core.bindings && c in v.core.runtimes && Owns(v.core, c, s)
  {
    var es := StartSteps(s, c, revision, h);
    var ready := w.(status := w.status[s := Starting], reserved := w.reserved + {s},
                    starters := w.starters[s := Ready]);
    Gates(w, es, s);
    assert es[1..][1..][1..] == [es[3], es[4]];
    WouldBind(w.core, s, w.nextBinding, c, revision, h);
    GoesLive(ready, s, c, revision, h);
  }

  lemma WouldBind(m: Core, s: ID, binding: nat, c: ID, revision: int, h: Handle)
    requires Inv(m) && s !in m.bindings && !m.closed
    requires if c in m.runtimes then m.arena[m.runtimes[c]].revision == revision else h !in m.arena
    ensures var (n, bound) := Bind(m, s, binding, c, revision, h, true, true);
            bound && s in n.bindings && c in n.runtimes && Owns(n, c, s)
  {
    if c in m.runtimes {
      BindsThere(m, s, binding, c, revision, h, true, true);
    } else {
      BindsNew(m, s, binding, c, revision, h, true, true);
    }
  }

  lemma GoesLive(w: World, s: ID, c: ID, revision: int, h: Handle)
    requires At(w, s, Ready) && w.status[s] == Starting
    requires Bind(w.core, s, w.nextBinding, c, revision, h, true, true).1
    ensures var v := Run(w, [BindTo(s, c, revision, h, true, true), GoLive(s, true)]);
            && v.core == Bind(w.core, s, w.nextBinding, c, revision, h, true, true).0
            && s in v.status && v.status[s] == Running && s !in v.starters
  {
    var es := [BindTo(s, c, revision, h, true, true), GoLive(s, true)];
    var core := Bind(w.core, s, w.nextBinding, c, revision, h, true, true).0;
    var b := w.(core := core, nextBinding := w.nextBinding + 1, starters := w.starters[s := Bound]);
    assert Apply(w, es[0]) == b;
    assert es[1..] == [es[1]];
    assert Run(b, [es[1]]) == Run(Apply(b, es[1]), [es[1]][1..]);
  }

  /** The gate lets the start of a new reserved session in. */
  lemma Gates(w: World, es: seq<Event>, s: ID)
    requires s !in w.status && s !in w.starters && |es| >= 3
    requires es[0] == Reserve(s) && es[1] == Enter(s) && es[2] == ReadStatus(s)
    ensures Run(w, es) == Run(w.(status := w.status[s := Starting], reserved := w.reserved + {s},
                                 starters := w.starters[s := Ready]), es[1..][1..][1..])
  {
    var a := w.(status := w.status[s := Starting], reserved := w.reserved + {s});
    var b := a.(starters := w.starters[s := Gated]);
    assert Apply(w, es[0]) == a;
    assert Apply(a, es[1]) == b;
    assert b.starters[s := Ready] == w.starters[s := Ready];
    assert Run(w, es) == Run(a, es[1..]);
    assert Run(a, es[1..]) == Run(b, es[1..][1..]);
  }

  /** A bound session goes live exactly if the database takes it and it is still starting; otherwise it is undone. */
  lemma GoesLiveIff(w: World, s: ID, works: bool)
    requires At(w, s, Bound)
    ensures var v := Apply(w, GoLive(s, works));
            if works && w.status[s] == Starting
            then v == w.(status := w.status[s := Running], starters := w.starters - {s})
            else v == w.(starters := w.starters[s := Undoing])
  {
  }

  /** A start that is refused leaves the session failed, where it was still starting and the database takes that. */
  lemma RefusedFails(w: World, s: ID, works: bool)
    requires At(w, s, Refused)
    ensures var v := Apply(w, FailStart(s, works));
            && v == w.(status := v.status, starters := w.starters - {s})
            && v.status == w.status[s := if works && w.status[s] == Starting then Failed else w.status[s]]
  {
    assert w.status[s := w.status[s]] == w.status;
  }

  /** A direct start is of a new session, which is then starting and ready to be bound. */
  lemma DirectStarts(w: World, s: ID)
    ensures var v := Apply(w, StartDirect(s));
            if s in w.status then v == w
            else v == w.(status := w.status[s := Starting], starters := w.starters[s := Ready])
  {
  }

  /** Otherwise a status only ever climbs. */
  lemma AdvancesIff(w: World, s: ID, next: SessionStatus)
    ensures var v := Apply(w, Advance(s, next));
            if s in w.status && w.status[s].Rank() < next.Rank() then v == w.(status := w.status[s := next]) else v == w
  {
  }

  // ---- What the manager promises ----

  /**
   Whenever the lock is free, the global table is exactly the disjoint union of the registered runtimes'
   tables: a session is in it exactly if some registered runtime has it, with the same binding, and no
   two do.
   */
  lemma DisjointUnion(es: seq<Event>, s: ID)
    ensures var m := Run(INIT, es).core;
            && (s in m.bindings <==>
                exists c :: c in m.runtimes && m.runtimes[c] in m.arena && s in m.arena[m.runtimes[c]].bindings)
            && (forall c | c in m.runtimes && m.runtimes[c] in m.arena && s in m.arena[m.runtimes[c]].bindings ::
                  s in m.bindings && m.arena[m.runtimes[c]].bindings[s] == m.bindings[s])
            && (forall c, d | c in m.runtimes && m.runtimes[c] in m.arena && s in m.arena[m.runtimes[c]].bindings &&
                              d in m.runtimes && m.runtimes[d] in m.arena && s in m.arena[m.runtimes[d]].bindings ::
                  c == d)
  {
    Reachable(es);
    var m := Run(INIT, es).core;
    if s in m.bindings {
      var c :| Owns(m, c, s);
    }
    forall c | c in m.runtimes && m.runtimes[c] in m.arena && s in m.arena[m.runtimes[c]].bindings
      ensures Owns(m, c, s)
    {
    }
  }

  /** A registered runtime serves at least one session and is not being finalized. */
  lemma RegisteredIsLive(es: seq<Event>, c: ID)
    requires c in Run(INIT, es).core.runtimes
    ensures var m := Run(INIT, es).core;
            && m.runtimes[c] in m.arena && m.arena[m.runtimes[c]].credential == c
            && !m.arena[m.runtimes[c]].finalizing && m.arena[m.runtimes[c]].bindings != map[]
  {
    Reachable(es);
  }

  /**
   Every runtime ever registered is finalized at most once, by whichever of start failure, last release,
   failure or closing came first; and it is registered exactly until then.
   */
  lemma FinalizedOnce(es: seq<Event>, h: Handle)
    requires h in Run(INIT, es).core.arena
    ensures var m := Run(INIT, es).core;
            && m.finalized[h] <= 1 && m.finalizers[h] + m.finalized[h] <= 1
            && (m.finalizers[h] + m.finalized[h] == 1 <==> m.arena[h].finalizing)
            && (!m.arena[h].finalizing <==> exists c :: c in m.runtimes && m.runtimes[c] == h)
  {
    Reachable(es);
    var m := Run(INIT, es).core;
    if !m.arena[h].finalizing {
      assert m.runtimes[m.arena[h].credential] == h;
    }
  }

  /** A start that reaches its critical section never finds its session already bound. */
  lemma BindNeverOverwrites(es: seq<Event>, s: ID)
    requires var w := Run(INIT, es); At(w, s, Ready)
    ensures s !in Run(INIT, es).core.bindings
  {
    Reachable(es);
  }
}

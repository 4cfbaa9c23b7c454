/**
 The lease of one session over every run of acquisitions, heartbeats, releases and commands.

 A command reads the row first and the clock later, with nothing but the service's mutex around the two
 (internal/runtime/manager.go, requireLease). The mutex also holds off acquisitions and other commands, but
 not heartbeats and releases (internal/app/session_service.go, requiresIdempotency), so these may come in
 between. `serialised` says whether the mutex is there.
 */
module LeaseRuns {
  import opened Base
  import opened Lease

  datatype Config = Config(session: ID, duration: int, serialised: bool)

  /** Times are what the clock says at each event; nothing makes it run forward. */
  datatype Event =
    | Take(holder: ID, at: Time)
    | Beat(holder: ID, revision: int, at: Time)
    | Give(holder: ID, revision: int, at: Time)
    | Read(worker: nat, holder: ID, revision: int)
    | Check(worker: nat, at: Time)
    | Done(worker: nat, at: Time)
    | Crash

  /** Something that was accepted under the acquisition with this revision. */
  datatype Entry = Entry(acquisition: int, holder: ID, at: Time)

  /** A command that has read the row, and when it was accepted, if it has checked it against the clock. */
  datatype Held = Held(row: Lease, holder: ID, revision: int, accepted: Option<Time>)

  /** The execution of a command, from its acceptance until it returned. */
  datatype Span = Span(acquisition: int, holder: ID, from: Time, to: Time)

  /**
   The stored row, all that was accepted so far, when released acquisitions were, commands under way, and
   commands that are done.
   */
  datatype World = World(row: Option<Lease>, log: seq<Entry>, given: map<int, Time>, held: map<nat, Held>,
                         spans: seq<Span>)

  const INIT := World(None, [], map[], map[], [])

  predicate Accepts(q: Held, at: Time) { q.accepted.None? && q.row.Refusal(q.holder, q.revision, at).None? }

  /** Is the mutex, where there is one, in the hands of a command? */
  predicate Busy(w: World, c: Config) { c.serialised && w.held != map[] }

  function Apply(w: World, e: Event, c: Config): World {
    match e
    case Take(holder, at) =>
      var r := Acquire(w.row, c.session, holder, at, c.duration);
      if Busy(w, c) || r.Err? then w
      else w.(row := Some(r.value), log := w.log + [Entry(r.value.revision, holder, at)])
    case Beat(holder, revision, at) =>
      if w.row.None? || w.row.value.Heartbeat(holder, revision, at, c.duration).Err? then w
      else w.(row := Some(w.row.value.Heartbeat(holder, revision, at, c.duration).value),
              log := w.log + [Entry(revision, holder, at)])
    case Give(holder, revision, at) =>
      if w.row.None? || w.row.value.Release(holder, revision, at).Err? then w
      else w.(row := Some(w.row.value.Release(holder, revision, at).value),
              log := w.log + [Entry(revision, holder, at)], given := w.given[revision := at])
    case Read(k, holder, revision) =>
      if Busy(w, c) || k in w.held || w.row.None? then w
      else w.(held := w.held[k := Held(w.row.value, holder, revision, None)])
    case Check(k, at) =>
      if k !in w.held || w.held[k].accepted.Some? then w
      else if !Accepts(w.held[k], at) then w.(held := w.held - {k})
      else w.(held := w.held[k := w.held[k].(accepted := Some(at))],
              log := w.log + [Entry(w.held[k].revision, w.held[k].holder, at)])
    case Done(k, at) =>
      if k !in w.held || w.held[k].accepted.None? then w
      else w.(held := w.held - {k}, spans := w.spans + [SpanOf(w.held[k], at)])
    case Crash => w.(held := map[])
  }

  function SpanOf(q: Held, to: Time): Span
    requires q.accepted.Some?
  {
    Span(q.revision, q.holder, q.accepted.value, to)
  }

  function Run(w: World, es: seq<Event>, c: Config): World
    decreases |es|
  {
    if es == [] then w else Run(Apply(w, es[0], c), es[1..], c)
  }

  // ---- The invariant under the mutex ----

  /** The row is a lease of the session, running for the duration or released. */
  predicate RowFits(l: Lease, c: Config) {
    && l.session == c.session && l.revision >= 1
    && (l.releasedAt.Some? ==> l.expiresAt == l.lastHeartbeat)
    && (l.releasedAt.None? ==>
          l.expiresAt == l.lastHeartbeat + c.duration && c.duration > 0 && l.lastHeartbeat != ZERO_TIME)
  }

  /** What was accepted under an earlier acquisition is over by the last heartbeat of `l`. */
  predicate Over(e: Entry, l: Lease, given: map<int, Time>) {
    if e.acquisition in given then given[e.acquisition] <= l.lastHeartbeat else e.at < l.lastHeartbeat
  }

  /** An accepted entry is from the current acquisition, or from one that is over. */
  predicate EntryFits(e: Entry, l: Lease, given: map<int, Time>) {
    if e.acquisition == l.revision then
      e.holder == l.holder && l.releasedAt.None? && e.at < l.expiresAt && e.acquisition !in given
    else e.acquisition < l.revision && Over(e, l, given)
  }

  /** The row a command read is an earlier state of the same acquisition, which may have been released since. */
  predicate ReadFits(p: Lease, l: Lease, given: map<int, Time>) {
    if p.revision == l.revision then
      p.holder == l.holder && p.releasedAt == l.releasedAt && p.lastHeartbeat <= l.lastHeartbeat &&
      p.expiresAt <= l.expiresAt
    else p.revision + 1 == l.revision && l.releasedAt.Some? && p.releasedAt.None? && p.revision in given &&
         given[p.revision] == l.lastHeartbeat
  }

  /** What was accepted so far is no later than the acquisition a command has read. */
  predicate EntryBehind(e: Entry, p: Lease, given: map<int, Time>) {
    && e.acquisition <= p.revision
    && (e.acquisition == p.revision ==> e.holder == p.holder)
    && (e.acquisition < p.revision ==> Over(e, p, given))
  }

  /** `e` came before `f`: then its acquisition is no later, has one holder, and was over before `f`'s began. */
  predicate Precedes(e: Entry, f: Entry, given: map<int, Time>) {
    && e.acquisition <= f.acquisition
    && (e.acquisition == f.acquisition ==> e.holder == f.holder)
    && (e.acquisition < f.acquisition ==>
          if e.acquisition in given then given[e.acquisition] <= f.at else e.at < f.at)
  }

  ghost predicate Ordered(log: seq<Entry>, given: map<int, Time>) {
    forall i, j | 0 <= i < j < |log| :: Precedes(log[i], log[j], given)
  }

  ghost predicate RowInv(l: Lease, log: seq<Entry>, given: map<int, Time>, c: Config) {
    && RowFits(l, c)
    && (forall r | r in given :: r < l.revision)
    && (forall i | 0 <= i < |log| :: EntryFits(log[i], l, given))
  }

  ghost predicate ReadInv(p: Lease, l: Lease, log: seq<Entry>, given: map<int, Time>, c: Config) {
    && RowFits(p, c) && ReadFits(p, l, given)
    && (forall i | 0 <= i < |log| :: EntryBehind(log[i], p, given))
  }

  /** One command is under way at most, because the mutex lets no second one in. */
  ghost predicate Inv(w: World, c: Config) {
    && c.serialised
    && (w.row.None? ==> w.log == [] && w.given == map[] && w.held == map[])
    && (w.row.Some? ==> RowInv(w.row.value, w.log, w.given, c))
    && (w.row.Some? ==> forall k | k in w.held :: ReadInv(w.held[k].row, w.row.value, w.log, w.given, c))
    && (forall j, k | j in w.held && k in w.held :: j == k)
    && Ordered(w.log, w.given)
    && (forall k | k in w.held && w.held[k].accepted.Some? :: Executes(w.held[k], w.log))
    && (forall i | 0 <= i < |w.spans| :: SpanLogged(w.spans[i], w.log))
  }

  /** A command that executes was accepted under the acquisition it read, and that is on record. */
  predicate Executes(q: Held, log: seq<Entry>) {
    q.accepted.Some? && q.revision == q.row.revision && Entry(q.revision, q.holder, q.accepted.value) in log
  }

  predicate SpanLogged(s: Span, log: seq<Entry>) { Entry(s.acquisition, s.holder, s.from) in log }

  function Revision(w: World): int {
    if w.row.None? then 0 else w.row.value.revision
  }

  lemma TakeKeeps(w: World, holder: ID, at: Time, c: Config)
    requires Inv(w, c)
    ensures Inv(Apply(w, Take(holder, at), c), c)
  {
  }

  lemma BeatKeeps(w: World, holder: ID, revision: int, at: Time, c: Config)
    requires Inv(w, c)
    ensures Inv(Apply(w, Beat(holder, revision, at), c), c)
  {
  }

  lemma GiveKeeps(w: World, holder: ID, revision: int, at: Time, c: Config)
    requires Inv(w, c)
    ensures Inv(Apply(w, Give(holder, revision, at), c), c)
  {
  }

  lemma ReadKeeps(w: World, k: nat, holder: ID, revision: int, c: Config)
    requires Inv(w, c)
    ensures Inv(Apply(w, Read(k, holder, revision), c), c)
  {
  }

  /** An accepted check is of the acquisition that was read, even if that was released in between. */
  lemma CheckKeeps(w: World, k: nat, at: Time, c: Config)
    requires Inv(w, c)
    ensures Inv(Apply(w, Check(k, at), c), c)
  {
  }

  lemma DoneKeeps(w: World, k: nat, at: Time, c: Config)
    requires Inv(w, c)
    ensures Inv(Apply(w, Done(k, at), c), c)
  {
  }

  lemma StepKeeps(w: World, e: Event, c: Config)
    requires Inv(w, c)
    ensures Inv(Apply(w, e, c), c)
    ensures Revision(w) <= Revision(Apply(w, e, c))
  {
    match e
    case Take(holder, at) => TakeKeeps(w, holder, at, c);
    case Beat(holder, revision, at) => BeatKeeps(w, holder, revision, at, c);
    case Give(holder, revision, at) => GiveKeeps(w, holder, revision, at, c);
    case Read(k, holder, revision) => ReadKeeps(w, k, holder, revision, c);
    case Check(k, at) => CheckKeeps(w, k, at, c);
    case Done(k, at) => DoneKeeps(w, k, at, c);
    case Crash =>
  }

  lemma {:induction false} RunKeeps(w: World, es: seq<Event>, c: Config)
    requires Inv(w, c)
    ensures Inv(Run(w, es, c), c) && Revision(w) <= Revision(Run(w, es, c))
    decreases |es|
  {
    if es != [] {
      StepKeeps(w, es[0], c);
      RunKeeps(Apply(w, es[0], c), es[1..], c);
    }
  }

  // ---- Fencing ----

  /**
   Over any run, with the clock going back and forth as it likes: acquisitions follow one another, each
   has one holder, and everything accepted under one that expired is strictly earlier than everything
   accepted under a later one. For one that was released, its release is no later than that.
   */
  lemma Fencing(es: seq<Event>, c: Config, i: nat, j: nat)
    requires c.serialised && i < j < |Run(INIT, es, c).log|
    ensures var w := Run(INIT, es, c);
            var e, f := w.log[i], w.log[j];
            && e.acquisition <= f.acquisition
            && (e.acquisition == f.acquisition ==> e.holder == f.holder)
            && (e.acquisition < f.acquisition && e.acquisition !in w.given ==> e.at < f.at)
            && (e.acquisition < f.acquisition && e.acquisition in w.given ==> w.given[e.acquisition] <= f.at)
  {
    RunKeeps(INIT, es, c);
    var w := Run(INIT, es, c);
    assert Precedes(w.log[i], w.log[j], w.given);
  }

  /** The row that was read is the holder's, at the revision it presents, not released, and yet to be checked. */
  predicate Granted(q: Held) {
    q.accepted.None? && q.row.holder == q.holder && q.row.revision == q.revision && q.row.releasedAt.None?
  }

  /** There is a time at which the check passes, the last heartbeat for one, exactly if the read was good. */
  lemma AcceptsSometime(q: Held, c: Config)
    requires RowFits(q.row, c)
    ensures (exists at :: Accepts(q, at)) <==> Granted(q)
    ensures Granted(q) ==> Accepts(q, q.row.lastHeartbeat)
  {
    if Granted(q) {
      assert Accepts(q, q.row.lastHeartbeat);
    }
  }

  /** The same command, accepted in between or not. */
  predicate SameRead(p: Held, q: Held) { p.(accepted := q.accepted) == q && (q.accepted.None? ==> p.accepted.None?) }

  /** A row read from now on is at the present revision or a later one. */
  lemma {:induction false} ReadLater(w: World, es: seq<Event>, c: Config, k: nat)
    requires Inv(w, c) && w.row.Some? && k in Run(w, es, c).held
    ensures var q := Run(w, es, c).held[k];
            (k in w.held && SameRead(w.held[k], q)) || q.row.revision >= w.row.value.revision
    decreases |es|
  {
    if es != [] {
      var v := Apply(w, es[0], c);
      StepKeeps(w, es[0], c);
      ReadLater(v, es[1..], c, k);
    }
  }

  /**
   A command can still be accepted under a revision that was superseded if and only if it had read the row
   before that: nothing read afterwards is ever accepted under it, whoever presents it and whenever.
   */
  lemma SupersededIff(w: World, es: seq<Event>, c: Config, k: nat)
    requires Inv(w, c) && w.row.Some? && k in Run(w, es, c).held
    requires Run(w, es, c).held[k].revision < w.row.value.revision
    ensures var q := Run(w, es, c).held[k];
            (exists at :: Accepts(q, at)) <==> k in w.held && w.held[k] == q && Granted(q)
  {
    var v := Run(w, es, c);
    RunKeeps(w, es, c);
    ReadLater(w, es, c, k);
    AcceptsSometime(v.held[k], c);
  }

  /** Heartbeats and releases, whose reading and writing are one step, are refused under it for good. */
  lemma StaleForGood(w: World, es: seq<Event>, c: Config, holder: ID, revision: int, at: Time)
    requires Inv(w, c) && w.row.Some? && revision < w.row.value.revision
    ensures var v := Run(w, es, c); v.row.Some? && v.row.value.Refusal(holder, revision, at) == Some(StaleLease)
  {
    RunKeeps(w, es, c);
  }

  /** A command that nothing interrupts: read, accepted between heartbeat and expiry, and done, all on record. */
  lemma CommandRuns(w: World, c: Config, k: nat, at: Time, to: Time)
    requires w.row.Some? && w.held == map[] && RowFits(w.row.value, c) && w.row.value.releasedAt.None?
    requires at != ZERO_TIME && w.row.value.lastHeartbeat <= at < w.row.value.expiresAt
    ensures var l := w.row.value;
            Run(w, [Read(k, l.holder, l.revision), Check(k, at), Done(k, to)], c) ==
            w.(log := w.log + [Entry(l.revision, l.holder, at)],
               spans := w.spans + [Span(l.revision, l.holder, at, to)])
  {
    var l := w.row.value;
    var es := [Read(k, l.holder, l.revision), Check(k, at), Done(k, to)];
    var a := w.(held := map[k := Held(l, l.holder, l.revision, None)]);
    var b := w.(held := map[k := Held(l, l.holder, l.revision, Some(at))],
                log := w.log + [Entry(l.revision, l.holder, at)]);
    assert w.held[k := Held(l, l.holder, l.revision, None)] == a.held;
    assert Apply(w, es[0], c) == a;
    assert a.held[k := Held(l, l.holder, l.revision, Some(at))] == b.held;
    assert Apply(a, es[1], c) == b;
    assert b.held - {k} == map[];
    assert Run(w, es, c) == Run(a, es[1..], c) == Run(b, es[1..][1..], c);
    assert es[1..][1..] == [es[2]];
    assert Run(b, [es[2]], c) == Run(Apply(b, es[2], c), [es[2]][1..], c);
  }

  // ---- A clock that runs forward ----

  function TimeOf(e: Event): Option<Time> {
    if e.Read? || e.Crash? then None else Some(e.at)
  }

  predicate Forward(es: seq<Event>, t: Time)
    decreases |es|
  {
    es == [] || match TimeOf(es[0])
                case None => Forward(es[1..], t)
                case Some(u) => t <= u && Forward(es[1..], u)
  }

  ghost predicate Sorted(log: seq<Entry>, t: Time) {
    && (forall i, j | 0 <= i < j < |log| :: log[i].at <= log[j].at)
    && (forall i | 0 <= i < |log| :: log[i].at <= t)
  }

  lemma {:induction false} ForwardSorts(w: World, es: seq<Event>, c: Config, t: Time) returns (u: Time)
    requires Forward(es, t) && Sorted(w.log, t)
    ensures Sorted(Run(w, es, c).log, u)
    decreases |es|
  {
    if es != [] {
      SortedStep(w, es[0], c, t);
      u := ForwardSorts(Apply(w, es[0], c), es[1..], c, if TimeOf(es[0]).Some? then es[0].at else t);
    } else {
      u := t;
    }
  }

  lemma SortedStep(w: World, e: Event, c: Config, t: Time)
    requires Sorted(w.log, t) && (TimeOf(e).Some? ==> t <= e.at)
    ensures Sorted(Apply(w, e, c).log, if TimeOf(e).Some? then e.at else t)
  {
  }

  /** Commands that are done were so by `t`, and before anything was accepted under a later acquisition. */
  ghost predicate Finished(w: World, t: Time) {
    && (forall i | 0 <= i < |w.spans| :: w.spans[i].to <= t)
    && (forall i, j | 0 <= i < |w.spans| && 0 <= j < |w.log| && w.spans[i].acquisition < w.log[j].acquisition ::
          w.spans[i].to <= w.log[j].at)
  }

  /** The mutex held off acquisitions until the command was done, so none later than its own is on record. */
  lemma FinishedStep(w: World, e: Event, c: Config, t: Time)
    requires Inv(w, c) && Finished(w, t) && (TimeOf(e).Some? ==> t <= e.at)
    ensures Finished(Apply(w, e, c), if TimeOf(e).Some? then e.at else t)
  {
  }

  lemma {:induction false} ForwardFinishes(w: World, es: seq<Event>, c: Config, t: Time) returns (u: Time)
    requires Inv(w, c) && Forward(es, t) && Finished(w, t)
    ensures Finished(Run(w, es, c), u)
    decreases |es|
  {
    if es != [] {
      FinishedStep(w, es[0], c, t);
      StepKeeps(w, es[0], c);
      u := ForwardFinishes(Apply(w, es[0], c), es[1..], c, if TimeOf(es[0]).Some? then es[0].at else t);
    } else {
      u := t;
    }
  }

  /**
   With a clock that runs forward, the whole execution of a command, however long, is over before anything
   is accepted under a later acquisition; so no two commands under different acquisitions overlap.
   */
  lemma WholeCommandsApart(es: seq<Event>, c: Config, t: Time, i: nat)
    requires c.serialised && Forward(es, t) && i < |Run(INIT, es, c).spans|
    ensures var w := Run(INIT, es, c);
            var s := w.spans[i];
            && (forall j | 0 <= j < |w.log| && s.acquisition < w.log[j].acquisition :: s.to <= w.log[j].at)
            && (forall j | 0 <= j < |w.spans| && s.acquisition < w.spans[j].acquisition :: s.to <= w.spans[j].from)
  {
    RunKeeps(INIT, es, c);
    var u := ForwardFinishes(INIT, es, c, t);
    var w := Run(INIT, es, c);
    forall j | 0 <= j < |w.spans| && w.spans[i].acquisition < w.spans[j].acquisition
      ensures w.spans[i].to <= w.spans[j].from
    {
      assert SpanLogged(w.spans[j], w.log);
    }
  }

  /** With a clock that runs forward, what was accepted under different acquisitions never overlaps in time. */
  lemma NoOverlap(es: seq<Event>, c: Config, t: Time, i: nat, j: nat)
    requires c.serialised && Forward(es, t) && i < |Run(INIT, es, c).log| && j < |Run(INIT, es, c).log|
    requires var log := Run(INIT, es, c).log; log[i].acquisition < log[j].acquisition
    ensures var w := Run(INIT, es, c);
            && w.log[i].at <= w.log[j].at
            && (w.log[i].acquisition !in w.given ==> w.log[i].at < w.log[j].at)
  {
    RunKeeps(INIT, es, c);
    var w := Run(INIT, es, c);
    var u := ForwardSorts(INIT, es, c, t);
    InOrder(w, c, j, i);
    assert Precedes(w.log[i], w.log[j], w.given);
  }

  lemma InOrder(w: World, c: Config, i: nat, j: nat)
    requires Inv(w, c) && i < |w.log| && j < |w.log|
    ensures i <= j ==> w.log[i].acquisition <= w.log[j].acquisition
  {
  }

  // ---- A clock that steps back ----

  /** Nothing accepted from now on is earlier than `t`. */
  ghost predicate NeverBefore(w: World, c: Config, t: Time) {
    forall es, j | |w.log| <= j < |Run(w, es, c).log| :: t <= Run(w, es, c).log[j].at
  }

  /** Neither the row nor a command under way reaches back before `t`. */
  ghost predicate Floor(w: World, t: Time) {
    && w.row.Some? && t <= w.row.value.lastHeartbeat
    && (forall k | k in w.held && Granted(w.held[k]) :: t <= w.held[k].row.lastHeartbeat)
  }

  lemma FloorStep(w: World, e: Event, c: Config, t: Time)
    requires Inv(w, c) && Floor(w, t)
    ensures var v := Apply(w, e, c);
            Floor(v, t) && |w.log| <= |v.log| <= |w.log| + 1 && (|v.log| > |w.log| ==> t <= v.log[|w.log|].at)
  {
  }

  lemma {:induction false} FloorHolds(w: World, es: seq<Event>, c: Config, t: Time, j: nat)
    requires Inv(w, c) && Floor(w, t) && |w.log| <= j < |Run(w, es, c).log|
    ensures t <= Run(w, es, c).log[j].at
    decreases |es|
  {
    if es != [] {
      var v := Apply(w, es[0], c);
      StepKeeps(w, es[0], c);
      FloorStep(w, es[0], c, t);
      if j < |v.log| {
        Prefix(v, es[1..], c);
      } else {
        FloorHolds(v, es[1..], c, t, j);
      }
    }
  }

  lemma {:induction false} Prefix(w: World, es: seq<Event>, c: Config)
    ensures w.log <= Run(w, es, c).log
    decreases |es|
  {
    if es != [] {
      Prefix(Apply(w, es[0], c), es[1..], c);
    }
  }

  lemma RunTwo(w: World, a: Event, b: Event, c: Config)
    ensures Run(w, [a], c) == Apply(w, a, c) && Run(w, [a, b], c) == Apply(Apply(w, a, c), b, c)
  {
    assert [a][1..] == [] && [a, b][1..] == [b];
    assert Run(Apply(w, a, c), [b], c) == Run(Apply(Apply(w, a, c), b, c), [b][1..], c);
  }

  /**
   After a release, nothing accepted later is earlier than a given instant if and only if neither the
   release is nor the last heartbeat that a command under way has read.
   */
  lemma ReleaseFencesIff(w: World, holder: ID, revision: int, at: Time, c: Config, t: Time)
    requires Inv(w, c) && w.row.Some? && w.row.value.Release(holder, revision, at).Ok?
    ensures var v := Apply(w, Give(holder, revision, at), c);
            NeverBefore(v, c, t) <==>
              t <= at && forall k | k in v.held && Granted(v.held[k]) :: t <= v.held[k].row.lastHeartbeat
  {
    var v := Apply(w, Give(holder, revision, at), c);
    StepKeeps(w, Give(holder, revision, at), c);
    if Floor(v, t) {
      forall es, j | |v.log| <= j < |Run(v, es, c).log| ensures t <= Run(v, es, c).log[j].at {
        FloorHolds(v, es, c, t, j);
      }
    } else {
      var es := Earliest(v, holder, at, c, t);
      assert Run(v, es, c).log[|v.log|].at < t;
    }
  }

  /** The run that gets closest to a release: the command under way at its earliest, or a new acquisition. */
  lemma Earliest(v: World, holder: ID, at: Time, c: Config, t: Time) returns (es: seq<Event>)
    requires Inv(v, c) && v.row.Some? && v.row.value.releasedAt == Some(at) &&
             v.row.value.lastHeartbeat == at != ZERO_TIME
    requires !Floor(v, t) && c.duration > 0
    ensures |Run(v, es, c).log| > |v.log| && Run(v, es, c).log[|v.log|].at < t
  {
    if k :| k in v.held && Granted(v.held[k]) && v.held[k].row.lastHeartbeat < t {
      AcceptsSometime(v.held[k], c);
      es := [Check(k, v.held[k].row.lastHeartbeat)];
      RunTwo(v, es[0], Crash, c);
    } else if k :| k in v.held {
      es := [if v.held[k].accepted.None? then Check(k, ZERO_TIME) else Done(k, at), Take(holder, at)];
      RunTwo(v, es[0], es[1], c);
      assert v.held - {k} == map[];
    } else {
      es := [Take(holder, at)];
      RunTwo(v, es[0], Crash, c);
    }
  }

  // ---- It happens ----

  lemma RunFour(w: World, a: Event, b: Event, d: Event, e: Event, c: Config)
    ensures Run(w, [a, b, d, e], c) == Apply(Apply(Apply(Apply(w, a, c), b, c), d, c), e, c)
  {
    var es := [a, b, d, e];
    var v := Apply(Apply(w, a, c), b, c);
    assert es[1..][1..] == [d, e];
    assert Run(w, es, c) == Run(Apply(w, a, c), es[1..], c) == Run(v, [d, e], c);
    RunTwo(v, d, e, c);
  }

  /** A command that read the row is accepted under revision 1 after the release made it 2. */
  lemma AcceptedAfterRelease(session: ID)
    ensures exists es :: Forward(es, 0) && var w := Run(INIT, es, Config(session, 100, true));
              Revision(w) == 2 && |w.log| == 3 && w.log[2] == Entry(1, 1, 30)
  {
    var c := Config(session, 100, true);
    var es := [Take(1, 10), Read(5, 1, 1), Give(1, 1, 20), Check(5, 30)];
    RunFour(INIT, es[0], es[1], es[2], es[3], c);
    assert es[1..] == [es[1], es[2], es[3]] && es[1..][1..] == [es[2], es[3]] && es[1..][1..][1..] == [es[3]];
    assert Forward([es[3]], 20) && Forward([es[2], es[3]], 10);
    assert Forward(es, 0);
  }

  /** A command at 90, the clock back to 20, a release, and a successor that acts at 20. */
  lemma ReleaseOverlap(session: ID)
    ensures exists es :: var log := Run(INIT, es, Config(session, 100, true)).log;
              |log| == 4 && log[1].acquisition < log[3].acquisition && log[1].holder != log[3].holder &&
              log[3].at < log[1].at
  {
    var c := Config(session, 100, true);
    var v := Apply(Apply(INIT, Take(1, 10), c), Read(5, 1, 1), c);
    var es := [Check(5, 90), Done(5, 90), Give(1, 1, 20), Take(2, 20)];
    RunFour(v, es[0], es[1], es[2], es[3], c);
    var all := [Take(1, 10), Read(5, 1, 1)] + es;
    assert Run(INIT, all, c) == Run(Apply(INIT, all[0], c), all[1..], c) == Run(v, all[1..][1..], c);
    assert all[1..][1..] == es;
  }

  /**
   Without the mutex a clock that runs forward is not enough: the first holder's command reads the row, the
   lease is released and taken by a second holder at 20, and the command is accepted at 30.
   */
  lemma OverlapWithoutMutex(session: ID)
    ensures exists es :: Forward(es, 0) && var log := Run(INIT, es, Config(session, 100, false)).log;
              |log| == 4 && log[3].acquisition < log[2].acquisition && log[3].holder != log[2].holder &&
              log[2].at < log[3].at
  {
    var c := Config(session, 100, false);
    var v := Apply(INIT, Take(1, 10), c);
    var es := [Read(5, 1, 1), Give(1, 1, 20), Take(2, 20), Check(5, 30)];
    RunFour(v, es[0], es[1], es[2], es[3], c);
    var all := [Take(1, 10)] + es;
    assert Run(INIT, all, c) == Run(v, all[1..], c) && all[1..] == es;
    assert es[1..][1..][1..] == [es[3]] && Forward([es[3]], 20);
    assert es[1..][1..] == [es[2], es[3]] && Forward([es[2], es[3]], 20);
    assert Forward(es[1..], 10) && Forward(es, 10);
  }
}

/** What the store promises over whole runs about start previews, session moves and resume links. */
module SessionTheorems {
  import opened Base
  import opened SessionDomain
  import opened StoreModel
  import opened StoreInvariants
  import opened StoreRuns

  // ---- Start previews ----

  /** Over a whole run no preview starts two sessions and no session comes from two previews. */
  lemma PreviewOnce(es: seq<Event>, i: nat, j: nat)
    requires i < j < |Run(INIT, es).starts|
    ensures var starts := Run(INIT, es).starts;
            starts[i].preview != starts[j].preview && starts[i].session != starts[j].session
  {
    Reachable(es);
  }

  /** The tuple of the new session is the preview's, and every row it names was current at that step. */
  lemma ConsumeCurrent(d: Db, q: ConsumeRequest)
    requires ConsumeTx(d, q).Ok? && d.previews[q.preview].consumed.None?
    ensures var (e, id) := ConsumeTx(d, q).value;
            var v := d.previews[q.preview];
            && id !in d.sessions && e.sessions.Keys == d.sessions.Keys + {id}
            && Matches(e.sessions[id], v.selection) && e.sessions[id].status == Starting
            && e.sessions[id].resumedFrom.None?
            && Current(d, v.selection) && q.selection == v.selection && q.prints == v.prints && q.client == v.client
            && q.at < v.expiresAt && LatestUsage(d, v.selection.account) == v.selection.usage
            && v.selection.workspace in d.workspaces
            && d.workspaces[v.selection.workspace] == Workspace(v.selection.device, v.workspaceUpdatedAt)
            && !Withdrawn(d.credentials, d.reservations, v.selection.credential)
            && e.(sessions := d.sessions, previews := d.previews, nextRow := d.nextRow) == d
  {
  }

  /** The preview carries the mark of a consumption with the digest that yielded the session. */
  predicate Marked(d: Db, preview: ID, client: ID, digest: Digest, session: ID) {
    && preview in d.previews && d.previews[preview].client == client && d.previews[preview].consumed.Some?
    && d.previews[preview].consumed.value.digest == digest && d.previews[preview].consumed.value.session == session
  }

  lemma MarksPreview(w: World, q: ConsumeRequest)
    requires ConsumeTx(w.db, q).Ok?
    ensures Marked(ApplyConsume(w, q).db, q.preview, q.client, q.digest, ConsumeTx(w.db, q).value.1)
  {
  }

  lemma StaysMarked(w: World, es: seq<Event>, preview: ID, client: ID, digest: Digest, session: ID)
    requires WInv(w) && Marked(w.db, preview, client, digest, session) && preview in Run(w, es).db.previews
    ensures Marked(Run(w, es).db, preview, client, digest, session)
  {
    RunKeeps(w, es);
    assert PreviewStep(w.db.previews[preview], Run(w, es).db.previews[preview]);
  }

  /** A well-formed request for the preview from its client. */
  predicate Repeats(q: ConsumeRequest, r: ConsumeRequest) {
    r.preview == q.preview && r.client == q.client && r.at != ZERO_TIME && r.confirmed && NewSession(r.session).Ok?
  }

  /**
   However much later a request for a consumed preview comes, the digest it was consumed with gets the
   same session and changes nothing, and any other digest is a conflict.
   */
  lemma PreviewReplay(w: World, q: ConsumeRequest, es: seq<Event>, r: ConsumeRequest)
    requires WInv(w) && ConsumeTx(w.db, q).Ok? && Repeats(q, r)
    requires q.preview in Run(ApplyConsume(w, q), es).db.previews
    ensures var d := Run(ApplyConsume(w, q), es).db;
            ConsumeTx(d, r) == if r.digest == q.digest then Ok((d, ConsumeTx(w.db, q).value.1)) else Err(Conflict)
  {
    ConsumeStep(w, q);
    MarksPreview(w, q);
    StaysMarked(ApplyConsume(w, q), es, q.preview, q.client, q.digest, ConsumeTx(w.db, q).value.1);
  }

  /**
   And once the preview is deleted after its retention, every request for it is refused for good, the
   digest it was consumed with included.
   */
  lemma DroppedForGood(w: World, es: seq<Event>, r: ConsumeRequest)
    requires WInv(w) && r.preview in w.previewIds && r.preview !in w.db.previews
    ensures r.preview !in Run(w, es).db.previews
    ensures r.at != ZERO_TIME && r.confirmed && NewSession(r.session).Ok? ==>
              ConsumeTx(Run(w, es).db, r) == Err(IdentityConfirmationRequired)
  {
    RunKeeps(w, es);
  }

  /** So a consumed preview is replayed exactly as long as it is stored. */
  lemma ReplayedIffStored(w: World, q: ConsumeRequest, es: seq<Event>, r: ConsumeRequest)
    requires WInv(w) && ConsumeTx(w.db, q).Ok? && Repeats(q, r) && r.digest == q.digest
    ensures var d := Run(ApplyConsume(w, q), es).db;
            ConsumeTx(d, r) == if q.preview in d.previews then Ok((d, ConsumeTx(w.db, q).value.1))
                               else Err(IdentityConfirmationRequired)
  {
    if q.preview in Run(ApplyConsume(w, q), es).db.previews {
      PreviewReplay(w, q, es, r);
    }
  }

  // ---- What a session is admitted on ----

  /** The rows a session refers to fit together and are usable. */
  predicate Linked(d: Db, s: Session) {
    && s.profile in d.profiles && s.credential in d.credentials && s.workspace in d.workspaces
    && d.profiles[s.profile].device == d.credentials[s.credential].device == d.workspaces[s.workspace].device ==
       s.device
    && d.profiles[s.profile].provider == d.credentials[s.credential].provider == s.provider
    && s.account == Some(d.profiles[s.profile].account) && s.account.value in d.accounts
    && d.accounts[s.account.value].provider == s.provider && d.accounts[s.account.value].enabled
    && (s.provider == Codex ==> d.credentials[s.credential].account == s.account)
    && (s.provider == Fake ==> d.credentials[s.credential].account.None?)
    && (d.credentials[s.credential].status == Healthy || d.credentials[s.credential].status == Unknown)
    && s.credential !in d.reservations
  }

  /** Either insert path adds just the one row, in status starting, on rows that fit together. */
  lemma AdmittedOnLinkedRows(d: Db, id: ID, s: Session, fakeAccount: Option<ID>)
    requires CreateSessionTx(d, id, s, fakeAccount).Ok?
    ensures var e := CreateSessionTx(d, id, s, fakeAccount).value;
            && id !in d.sessions && id in e.sessions && e.sessions == d.sessions[id := e.sessions[id]]
            && Linked(d, e.sessions[id]) && e.sessions[id].status == Starting && e.sessions[id].provider != Claude
            && e.(sessions := d.sessions, nextRow := d.nextRow) == d
  {
  }

  lemma ConsumedOnLinkedRows(d: Db, q: ConsumeRequest)
    requires ConsumeTx(d, q).Ok? && d.previews[q.preview].consumed.None?
    ensures var (e, id) := ConsumeTx(d, q).value; id in e.sessions && Linked(d, e.sessions[id])
  {
  }

  // ---- Status moves ----

  lemma StaleWrite(d: Db, id: ID, read: Session, from: SessionStatus, next: SessionStatus, at: Time,
                   exitCode: Option<int>, failure: Option<nat>)
    requires id in d.sessions && SessionStep(read, d.sessions[id])
    ensures var stale := TransitionTx(d, id, read, from, next, at, exitCode, failure);
            var atomic := TransitionTx(d, id, d.sessions[id], from, next, at, exitCode, failure);
            && (stale.Ok? <==> read.status == from && atomic.Ok?)
            && (stale.Ok? ==> stale == atomic)
  {
  }

  /**
   A write prepared from a row that was read earlier, with any events in between, commits exactly when an
   indivisible read, move and write would, provided the row read had the expected status; and then it
   leaves the database that one would leave.
   */
  lemma TransitionLinearises(w: World, worker: nat, from: SessionStatus, next: SessionStatus, at: Time,
                             exitCode: Option<int>, failure: Option<nat>)
    requires WInv(w) && worker in w.held
    ensures var k := w.held[worker];
            var stale := TransitionTx(w.db, k.id, k.row, from, next, at, exitCode, failure);
            var atomic := TransitionTx(w.db, k.id, w.db.sessions[k.id], from, next, at, exitCode, failure);
            && (stale.Ok? <==> k.row.status == from && atomic.Ok?)
            && (stale.Ok? ==> stale == atomic)
  {
    var k := w.held[worker];
    StaleWrite(w.db, k.id, k.row, from, next, at, exitCode, failure);
  }

  function MovesOf(w: World, id: ID): nat {
    if id in w.moves then w.moves[id] else 0
  }

  lemma RowLater(w: World, e: Event, id: ID)
    requires WInv(w) && id in w.db.sessions
    ensures id in Apply(w, e).db.sessions && SessionStep(w.db.sessions[id], Apply(w, e).db.sessions[id])
  {
    StepKeeps(w, e);
  }

  lemma OnlyWritesCount(w: World, e: Event)
    requires !e.WriteTransition?
    ensures Apply(w, e).moves == w.moves
  {
  }

  /** From `w` to `v` the session was moved no more often than its rank rose. */
  predicate Costs(w: World, v: World, id: ID)
    requires id in w.db.sessions
  {
    && id in v.db.sessions && MovesOf(w, id) <= MovesOf(v, id)
    && MovesOf(v, id) - MovesOf(w, id) <= v.db.sessions[id].status.Rank() - w.db.sessions[id].status.Rank()
  }

  lemma CalmCosts(w: World, v: World, id: ID)
    requires id in w.db.sessions && id in v.db.sessions && SessionStep(w.db.sessions[id], v.db.sessions[id])
    requires v.moves == w.moves
    ensures Costs(w, v, id)
  {
  }

  lemma WriteCosts(w: World, worker: nat, r: Outcome<Db>, id: ID)
    requires worker in w.held && Climbs(w.db, w.held[worker].id, r) && id in w.db.sessions
    requires r.Ok? ==> id in r.value.sessions && SessionStep(w.db.sessions[id], r.value.sessions[id])
    ensures Costs(w, ApplyWrite(w, worker, r), id)
  {
  }

  lemma TransitionCosts(w: World, e: Event, id: ID)
    requires WInv(w) && id in w.db.sessions && e.WriteTransition? && e.worker in w.held
    ensures var k := w.held[e.worker];
            var r := TransitionTx(w.db, k.id, k.row, e.from, e.next, e.at, e.exitCode, e.failure);
            Costs(w, ApplyWrite(w, e.worker, r), id)
  {
    var k := w.held[e.worker];
    var r := TransitionTx(w.db, k.id, k.row, e.from, e.next, e.at, e.exitCode, e.failure);
    TransitionKeeps(w.db, k.id, k.row, e.from, e.next, e.at, e.exitCode, e.failure);
    WriteCosts(w, e.worker, r, id);
  }

  lemma WriteEventCosts(w: World, e: Event, id: ID)
    requires WInv(w) && id in w.db.sessions && e.WriteTransition?
    ensures Costs(w, Apply(w, e), id)
  {
    assert Apply(w, e) == ApplyTransition(w, e);
    if e.worker in w.held {
      TransitionCosts(w, e, id);
    }
  }

  /** Every move of a session raises its rank, so it costs a rank to be moved. */
  lemma MoveCosts(w: World, e: Event, id: ID)
    requires WInv(w) && id in w.db.sessions
    ensures Costs(w, Apply(w, e), id)
  {
    if e.WriteTransition? {
      WriteEventCosts(w, e, id);
    } else {
      RowLater(w, e, id);
      OnlyWritesCount(w, e);
      CalmCosts(w, Apply(w, e), id);
    }
  }

  lemma {:induction false} MovesCost(w: World, es: seq<Event>, id: ID)
    requires WInv(w) && id in w.db.sessions
    ensures Costs(w, Run(w, es), id)
    decreases |es|
  {
    if es != [] {
      MoveCosts(w, es[0], id);
      StepKeeps(w, es[0]);
      MovesCost(Apply(w, es[0]), es[1..], id);
    }
  }

  /**
   The status comparison cannot be fooled: a session that has the same status at two points of a run did
   not move in between and is the same row, up to the provider thread that is written once.
   */
  lemma NoAba(w: World, es: seq<Event>, id: ID)
    requires WInv(w) && id in w.db.sessions
    requires id in Run(w, es).db.sessions && Run(w, es).db.sessions[id].status == w.db.sessions[id].status
    ensures MovesOf(Run(w, es), id) == MovesOf(w, id)
    ensures Run(w, es).db.sessions[id] ==
            w.db.sessions[id].(providerSession := Run(w, es).db.sessions[id].providerSession)
  {
    MovesCost(w, es, id);
    RunKeeps(w, es);
    assert SessionStep(w.db.sessions[id], Run(w, es).db.sessions[id]);
  }

  /** No session moves more than three times, and end metadata is there exactly once it has ended. */
  lemma AtMostThreeMoves(es: seq<Event>, id: ID)
    ensures MovesOf(Run(INIT, es), id) <= 3
    ensures id in Run(INIT, es).db.sessions ==> EndFits(Run(INIT, es).db.sessions[id])
  {
    Reachable(es);
  }

  /** An ended session never changes again, and never goes away. */
  lemma EndedForGood(w: World, es: seq<Event>, id: ID)
    requires WInv(w) && id in w.db.sessions && w.db.sessions[id].status.Terminal()
    ensures id in Run(w, es).db.sessions && Run(w, es).db.sessions[id] == w.db.sessions[id]
  {
    RunKeeps(w, es);
    assert SessionStep(w.db.sessions[id], Run(w, es).db.sessions[id]);
  }

  // ---- Resume links ----

  /** A sequence of sessions in which each one was resumed from the next. */
  ghost predicate Path(sessions: map<ID, Session>, p: seq<ID>) {
    && (forall i | 0 <= i < |p| :: p[i] in sessions)
    && (forall i | 0 < i < |p| :: sessions[p[i - 1]].resumedFrom == Some(p[i]))
  }

  /** `b` is an ancestor that `a` may have: older in the table, over before `a` began, with the same tuple. */
  predicate Before(b: Session, a: Session) {
    && b.rowid < a.rowid && b.status.Terminal() && b.endedAt.Some? && b.endedAt.value <= a.startedAt
    && TupleOf(b) == TupleOf(a)
  }

  lemma {:induction false} PathBefore(sessions: map<ID, Session>, n: nat, p: seq<ID>, i: nat, j: nat)
    requires Descends(sessions, n) && Ended(sessions) && Path(sessions, p) && i < j < |p|
    ensures Before(sessions[p[j]], sessions[p[i]])
    decreases j
  {
    assert sessions[p[j - 1]].resumedFrom == Some(p[j]);
    assert Follows(sessions[p[j - 1]], sessions[p[j]]);
    if i < j - 1 {
      PathBefore(sessions, n, p, i, j - 1);
      assert EndFits(sessions[p[j - 1]]);
    }
  }

  /**
   In every reachable store, along any path of resume links: no session repeats, so links make no cycle;
   a session starts no earlier than the end of any of its ancestors; and all share one tuple.
   */
  lemma ResumeForest(es: seq<Event>, p: seq<ID>, i: nat, j: nat)
    requires Path(Run(INIT, es).db.sessions, p) && i < j < |p|
    ensures p[i] != p[j]
    ensures var sessions := Run(INIT, es).db.sessions;
            && TupleOf(sessions[p[i]]) == TupleOf(sessions[p[j]])
            && sessions[p[j]].endedAt.Some? && sessions[p[j]].endedAt.value <= sessions[p[i]].startedAt
            && sessions[p[j]].status.Terminal()
  {
    Reachable(es);
    var d := Run(INIT, es).db;
    PathBefore(d.sessions, d.nextRow, p, i, j);
  }

  /**
   The store's check of a resumed session and the domain's own way of making one agree: a new record that
   names a source passes the check exactly if resuming that source then is allowed and yields its tuple.
   */
  lemma ResumeAgrees(d: Db, id: ID, newId: ID, s: Session)
    requires id in d.sessions && newId != id && s.resumedFrom == Some(id) && NewSession(s).Ok?
    ensures ResumeRefusal(d, s).None? <==>
              Resume(d.sessions[id], id, newId, s.startedAt).Ok? && TupleOf(s) == TupleOf(d.sessions[id]) &&
              s.providerSession == d.sessions[id].providerSession
  {
  }

  /** The path from a session up to the one its line began with. */
  ghost function Lineage(sessions: map<ID, Session>, n: nat, id: ID): (p: seq<ID>)
    requires Descends(sessions, n) && id in sessions
    ensures p != [] && p[0] == id && Path(sessions, p)
    ensures sessions[p[|p| - 1]].resumedFrom.None?
    decreases sessions[id].rowid
  {
    if sessions[id].resumedFrom.None? then [id]
    else
      assert Follows(sessions[id], sessions[sessions[id].resumedFrom.value]);
      [id] + Lineage(sessions, n, sessions[id].resumedFrom.value)
  }

  /** Every path of links is a prefix of the lineage of its first session. */
  lemma {:induction false} OneRoot(sessions: map<ID, Session>, n: nat, p: seq<ID>)
    requires Descends(sessions, n) && p != [] && Path(sessions, p)
    ensures |p| <= |Lineage(sessions, n, p[0])| && p == Lineage(sessions, n, p[0])[..|p|]
    decreases |p|
  {
    var line := Lineage(sessions, n, p[0]);
    if |p| > 1 {
      assert sessions[p[0]].resumedFrom == Some(p[1]);
      var rest := p[1..];
      assert forall i | 0 < i < |rest| :: rest[i - 1] == p[i] && rest[i] == p[i + 1];
      assert Path(sessions, rest);
      OneRoot(sessions, n, rest);
      assert line == [p[0]] + Lineage(sessions, n, p[1]);
      assert p == [p[0]] + rest;
    }
  }
}

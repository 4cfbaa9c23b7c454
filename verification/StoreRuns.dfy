/** Every run of the store: any transactions, in any order, with stale reads in between. */
module StoreRuns {
  import opened Base
  import opened SessionDomain
  import opened StoreModel
  import opened StoreInvariants

  datatype Read = Read(id: ID, row: Session)

  datatype Start = Start(preview: ID, session: ID)

  /**
   The database and what the run remembers about it: identifiers ever given to credentials and previews
   (generated identifiers do not repeat), the session rows that workers have read and not yet written
   back, how often each session moved, and which session each consumed preview started.
   */
  datatype World = World(db: Db, credentialIds: set<ID>, previewIds: set<ID>, held: map<nat, Read>,
                         moves: map<ID, nat>, starts: seq<Start>)

  datatype Event =
    | PutAccount(id: ID, account: Account)
    | PutWorkspace(id: ID, workspace: Workspace)
    | RecordUsage(id: ID, usage: Usage)
    | PutProfile(id: ID, profile: Profile)
    | DropProfile(id: ID)
    | DropAccount(id: ID, expected: int, at: Time)
    | CreateCredential(id: ID, credential: Credential)
    | Begin(id: ID, enrollment: Enrollment, placeholder: Option<Credential>)
    | Claim(id: ID, client: ID, completion: Digest, live: bool)
    | Await(id: ID, client: ID, confirmation: Confirmation, live: bool)
    | Confirm(id: ID, client: ID, alias: Digest, at: Time, live: bool)
    | Finish(id: ID, client: ID, state: EnrollmentState, at: Time)
    | ExpireDue(id: ID, at: Time)
    | ExpireAll(at: Time)
    | Seal(id: ID, expected: int, item: VaultItem, owner: Option<SealOwner>)
    | Reserve(id: ID, at: Time)
    | Finalize(id: ID, at: Time)
    | CreatePreview(id: ID, preview: Preview)
    | DropPreviews(ids: set<ID>)
    | Consume(request: ConsumeRequest)
    | CreateSession(id: ID, session: Session, fakeAccount: Option<ID>)
    | ReadSession(worker: nat, id: ID)
    | WriteTransition(worker: nat, from: SessionStatus, next: SessionStatus, at: Time, exitCode: Option<int>,
                      failure: Option<nat>)
    | SetProviderSession(id: ID, thread: nat)

  const INIT := World(EMPTY_DB, {}, {}, map[], map[], [])

  /** What is stored after a transaction: a failed one was rolled back. */
  function After(d: Db, r: Outcome<Db>): Db { if r.Ok? then r.value else d }

  function Commit(w: World, r: Outcome<Db>): World { w.(db := After(w.db, r)) }

  function AddCredentialId(w: World, id: ID, r: Outcome<Db>): World {
    if r.Ok? && id !in w.credentialIds then w.(db := r.value, credentialIds := w.credentialIds + {id}) else w
  }

  function AddPreviewId(w: World, id: ID, r: Outcome<Db>): World {
    if r.Ok? && id !in w.previewIds then w.(db := r.value, previewIds := w.previewIds + {id}) else w
  }

  function ApplyWrite(w: World, worker: nat, r: Outcome<Db>): World
    requires worker in w.held
  {
    var id := w.held[worker].id;
    if r.Ok? then w.(db := r.value, moves := w.moves[id := (if id in w.moves then w.moves[id] else 0) + 1]) else w
  }

  function ApplyConsume(w: World, q: ConsumeRequest): World {
    var r := ConsumeTx(w.db, q);
    if r.Err? then w
    else if w.db.previews[q.preview].consumed.Some? then w
    else w.(db := r.value.0, starts := w.starts + [Start(q.preview, r.value.1)])
  }

  // Most commands are one transaction on the database and make up no identifier.

  predicate IsRow(e: Event) {
    e.PutAccount? || e.PutWorkspace? || e.RecordUsage? || e.PutProfile? || e.DropProfile? || e.DropAccount? ||
    e.DropPreviews?
  }

  predicate IsEnrollment(e: Event) {
    e.Claim? || e.Await? || e.Confirm? || e.Finish? || e.ExpireDue? || e.ExpireAll?
  }

  predicate IsVault(e: Event) { e.Seal? || e.Reserve? || e.Finalize? }

  predicate IsSession(e: Event) { e.CreateSession? || e.SetProviderSession? }

  function RowTx(d: Db, e: Event): Outcome<Db>
    requires IsRow(e)
  {
    match e
    case PutAccount(id, account) => Ok(d.(accounts := d.accounts[id := account]))
    case PutWorkspace(id, workspace) => Ok(d.(workspaces := d.workspaces[id := workspace]))
    case RecordUsage(id, usage) =>
      if usage.credential.Some? && usage.credential.value !in d.credentials then Err(Conflict)
      else Ok(d.(usage := d.usage[id := usage], latestUsage := d.latestUsage[usage.account := id]))
    case PutProfile(id, profile) => PutProfileTx(d, id, profile)
    case DropProfile(id) => DropProfileTx(d, id)
    case DropAccount(id, expected, at) => DropAccountTx(d, id, expected, at)
    case DropPreviews(ids) => Ok(d.(previews := d.previews - ids))
  }

  /**
   Any client's begin first ends the enrollments that are due, whosever they are, each in a transaction of its
   own and in the name of its own client. Which are due is a comparison of text and left to chance.
   */
  function ExpireDueTx(d: Db, id: ID, at: Time): Outcome<Db> {
    if id !in d.enrollments || !d.enrollments[id].state.Open() then Err(NotFound)
    else FinishTx(d, id, d.enrollments[id].client, Lapsed, at)
  }

  function EnrollmentTx(d: Db, e: Event): Outcome<Db>
    requires IsEnrollment(e)
  {
    match e
    case Claim(id, client, completion, live) => ClaimTx(d, id, client, completion, live)
    case Await(id, client, confirmation, live) => AwaitTx(d, id, client, confirmation, live)
    case Confirm(id, client, alias, at, live) => ConfirmTx(d, id, client, alias, at, live)
    case Finish(id, client, state, at) => FinishTx(d, id, client, state, at)
    case ExpireDue(id, at) => ExpireDueTx(d, id, at)
    case ExpireAll(at) => ExpireAllTx(d, at)
  }

  function VaultTx(d: Db, e: Event): Outcome<Db>
    requires IsVault(e)
  {
    match e
    case Seal(id, expected, item, owner) => SealTx(d, id, expected, item, owner)
    case Reserve(id, at) => ReserveTx(d, id, at)
    case Finalize(id, at) => FinalizeTx(d, id, at)
  }

  function SessionTx(d: Db, e: Event): Outcome<Db>
    requires IsSession(e)
  {
    match e
    case CreateSession(id, session, fakeAccount) => CreateSessionTx(d, id, session, fakeAccount)
    case SetProviderSession(id, thread) => SetProviderSessionTx(d, id, thread)
  }

  function ApplyBegin(w: World, id: ID, enrollment: Enrollment, placeholder: Option<Credential>): World {
    var r := BeginTx(w.db, id, enrollment, placeholder);
    if placeholder.Some? && enrollment.credential.Some? then AddCredentialId(w, enrollment.credential.value, r)
    else Commit(w, r)
  }

  function ApplyRead(w: World, worker: nat, id: ID): World {
    if id in w.db.sessions then w.(held := w.held[worker := Read(id, w.db.sessions[id])]) else w
  }

  /** The transaction is made from the row the worker holds. */
  function ApplyTransition(w: World, e: Event): World
    requires e.WriteTransition?
  {
    if e.worker !in w.held then w
    else
      var k := w.held[e.worker];
      ApplyWrite(w, e.worker, TransitionTx(w.db, k.id, k.row, e.from, e.next, e.at, e.exitCode, e.failure))
  }

  /** The commands that make up identifiers, and the two halves of a transition. */
  function ApplyOther(w: World, e: Event): World
    requires !IsRow(e) && !IsEnrollment(e) && !IsVault(e) && !IsSession(e)
  {
    match e
    case CreateCredential(id, credential) => AddCredentialId(w, id, CreateCredentialTx(w.db, id, credential))
    case Begin(id, enrollment, placeholder) => ApplyBegin(w, id, enrollment, placeholder)
    case CreatePreview(id, preview) => AddPreviewId(w, id, CreatePreviewTx(w.db, id, preview))
    case Consume(request) => ApplyConsume(w, request)
    case ReadSession(worker, id) => ApplyRead(w, worker, id)
    case WriteTransition(_, _, _, _, _, _) => ApplyTransition(w, e)
  }

  /** What one event makes of the world. A refused transaction leaves it as it was. */
  function Apply(w: World, e: Event): World {
    if IsRow(e) then Commit(w, RowTx(w.db, e))
    else if IsEnrollment(e) then Commit(w, EnrollmentTx(w.db, e))
    else if IsVault(e) then Commit(w, VaultTx(w.db, e))
    else if IsSession(e) then Commit(w, SessionTx(w.db, e))
    else ApplyOther(w, e)
  }

  function Run(w: World, es: seq<Event>): World
    decreases |es|
  {
    if es == [] then w else Run(Apply(w, es[0]), es[1..])
  }

  // ---- The invariant of the world ----

  ghost predicate ReadsValid(held: map<nat, Read>, sessions: map<ID, Session>) {
    forall k | k in held :: held[k].id in sessions && SessionStep(held[k].row, sessions[held[k].id])
  }

  ghost predicate MovesCounted(moves: map<ID, nat>, sessions: map<ID, Session>) {
    forall s | s in moves :: s in sessions && moves[s] <= sessions[s].status.Rank()
  }

  /**
   A preview starts at most one session and a session has at most one preview, and a consumed preview
   remembers the session it started.
   */
  ghost predicate StartsLogged(starts: seq<Start>, previews: map<ID, Preview>, previewIds: set<ID>,
                               sessions: map<ID, Session>) {
    && (forall i | 0 <= i < |starts| :: starts[i].preview in previewIds && starts[i].session in sessions)
    && (forall i | 0 <= i < |starts| && starts[i].preview in previews ::
          previews[starts[i].preview].consumed.Some? &&
          previews[starts[i].preview].consumed.value.session == starts[i].session)
    && (forall i, j | 0 <= i < j < |starts| ::
          starts[i].preview != starts[j].preview && starts[i].session != starts[j].session)
  }

  ghost predicate WInv(w: World) {
    && Inv(w.db)
    && w.db.credentials.Keys <= w.credentialIds
    && w.db.previews.Keys <= w.previewIds
    && ReadsValid(w.held, w.db.sessions)
    && MovesCounted(w.moves, w.db.sessions)
    && StartsLogged(w.starts, w.db.previews, w.previewIds, w.db.sessions)
  }

  /** Rows evolve, and an identifier that is gone does not come back. */
  ghost predicate WEvolves(w: World, v: World) {
    && Evolves(w.db, v.db)
    && w.credentialIds <= v.credentialIds && w.previewIds <= v.previewIds
    && (forall c | c in v.db.credentials :: c in w.db.credentials || c !in w.credentialIds)
    && (forall p | p in v.db.previews :: p in w.db.previews || p !in w.previewIds)
    && w.starts <= v.starts
  }

  /** What one event may do to the world. */
  ghost predicate WStep(w: World, v: World) {
    WEvolves(w, v) && Admits(w.db, v.db) && Moves(w.db, v.db)
  }

  /** The rest of the world follows a database that evolved and made up no identifier. */
  lemma Carry(w: World, d: Db)
    requires WInv(w) && Inv(d) && Evolves(w.db, d)
    requires d.credentials.Keys <= w.db.credentials.Keys && d.previews.Keys <= w.db.previews.Keys
    ensures WInv(w.(db := d)) && WEvolves(w, w.(db := d))
  {
    CarryReads(w.held, w.db.sessions, d.sessions);
    CarryMoves(w.moves, w.db.sessions, d.sessions);
    CarryStarts(w, d);
  }

  lemma CarryReads(held: map<nat, Read>, a: map<ID, Session>, b: map<ID, Session>)
    requires ReadsValid(held, a) && SessionsEvolve(a, b)
    ensures ReadsValid(held, b)
  {
  }

  lemma CarryMoves(moves: map<ID, nat>, a: map<ID, Session>, b: map<ID, Session>)
    requires MovesCounted(moves, a) && SessionsEvolve(a, b)
    ensures MovesCounted(moves, b)
  {
  }

  lemma CarryStarts(w: World, d: Db)
    requires StartsLogged(w.starts, w.db.previews, w.previewIds, w.db.sessions)
    requires SessionsEvolve(w.db.sessions, d.sessions) && PreviewsEvolve(w.db.previews, d.previews)
    requires forall p | p in d.previews :: p in w.db.previews || p !in w.previewIds
    ensures StartsLogged(w.starts, d.previews, w.previewIds, d.sessions)
  {
  }

  lemma CarryNewCredential(w: World, d: Db, id: ID)
    requires WInv(w) && Inv(d) && Evolves(w.db, d) && id !in w.credentialIds
    requires d.credentials.Keys <= w.db.credentials.Keys + {id} && d.previews == w.db.previews
    ensures var v := w.(db := d, credentialIds := w.credentialIds + {id}); WInv(v) && WEvolves(w, v)
  {
    CarryReads(w.held, w.db.sessions, d.sessions);
    CarryMoves(w.moves, w.db.sessions, d.sessions);
    CarryStarts(w, d);
  }

  // ---- One event ----

  lemma CarryNewPreview(w: World, d: Db, id: ID)
    requires WInv(w) && Good(w.db, Ok(d)) && id !in w.previewIds
    requires d.credentials == w.db.credentials && d.previews.Keys <= w.db.previews.Keys + {id} &&
             d.sessions == w.db.sessions
    ensures var v := w.(db := d, previewIds := w.previewIds + {id}); WInv(v) && WStep(w, v)
  {
  }

  lemma CreatePreviewStep(w: World, id: ID, preview: Preview)
    requires WInv(w)
    ensures var v := AddPreviewId(w, id, CreatePreviewTx(w.db, id, preview)); WInv(v) && WStep(w, v)
  {
    CreatePreviewKeeps(w.db, id, preview);
    var r := CreatePreviewTx(w.db, id, preview);
    if r.Ok? && id !in w.previewIds {
      CarryNewPreview(w, r.value, id);
    } else {
      Idle(w);
    }
  }

  lemma LogStart(w: World, p: ID, session: ID)
    requires StartsLogged(w.starts, w.db.previews, w.previewIds, w.db.sessions)
    requires p in w.db.previews && p in w.previewIds && session in w.db.sessions
    requires w.db.previews[p].consumed.Some? && w.db.previews[p].consumed.value.session == session
    requires forall i | 0 <= i < |w.starts| :: w.starts[i].preview != p && w.starts[i].session != session
    ensures StartsLogged(w.starts + [Start(p, session)], w.db.previews, w.previewIds, w.db.sessions)
  {
  }

  /** What a fresh consumption leaves behind. */
  lemma Consumed(d: Db, q: ConsumeRequest)
    requires ConsumeTx(d, q).Ok? && d.previews[q.preview].consumed.None?
    ensures var (e, session) := ConsumeTx(d, q).value;
            && session == q.id && session !in d.sessions && session in e.sessions
            && e.credentials == d.credentials && e.previews.Keys == d.previews.Keys
            && e.items == d.items && e.enrollments == d.enrollments
            && e.previews[q.preview].consumed == Some(Consumption(q.at, q.digest, session))
  {
  }

  /** The preview had no start yet, because a started one is marked consumed. */
  lemma ConsumeStep(w: World, q: ConsumeRequest)
    requires WInv(w)
    ensures var v := ApplyConsume(w, q); WInv(v) && WStep(w, v)
  {
    Idle(w);
    var r := ConsumeTx(w.db, q);
    if r.Ok? && w.db.previews[q.preview].consumed.None? {
      ConsumeKeeps(w.db, q);
      Consumed(w.db, q);
      NotStarted(w, q.preview, q.id);
      CarryStart(w, r.value.0, q.preview, q.id);
    }
  }

  lemma NotStarted(w: World, p: ID, session: ID)
    requires StartsLogged(w.starts, w.db.previews, w.previewIds, w.db.sessions)
    requires p in w.db.previews && w.db.previews[p].consumed.None? && session !in w.db.sessions
    ensures forall i | 0 <= i < |w.starts| :: w.starts[i].preview != p && w.starts[i].session != session
  {
  }

  lemma CarryStart(w: World, d: Db, p: ID, session: ID)
    requires WInv(w) && Good(w.db, Ok(d)) && Closed(w.db, Ok(d))
    requires p in d.previews && session in d.sessions
    requires d.previews[p].consumed.Some? && d.previews[p].consumed.value.session == session
    requires forall i | 0 <= i < |w.starts| :: w.starts[i].preview != p && w.starts[i].session != session
    ensures var v := w.(db := d, starts := w.starts + [Start(p, session)]); WInv(v) && WStep(w, v)
  {
    Carry(w, d);
    LogStart(w.(db := d), p, session);
  }

  lemma CountMove(moves: map<ID, nat>, a: map<ID, Session>, b: map<ID, Session>, id: ID)
    requires MovesCounted(moves, a) && SessionsEvolve(a, b)
    requires id in a && id in b && a[id].status.Rank() < b[id].status.Rank()
    ensures MovesCounted(moves[id := (if id in moves then moves[id] else 0) + 1], b)
  {
  }

  lemma HoldStep(w: World, worker: nat, id: ID)
    requires WInv(w) && id in w.db.sessions
    ensures var v := w.(held := w.held[worker := Read(id, w.db.sessions[id])]); WInv(v) && WStep(w, v)
  {
    Idle(w);
    assert ReadsValid(w.held[worker := Read(id, w.db.sessions[id])], w.db.sessions);
  }

  lemma CarryMove(w: World, d: Db, id: ID, n: nat)
    requires WInv(w) && Inv(d) && Evolves(w.db, d)
    requires d.credentials.Keys <= w.db.credentials.Keys && d.previews.Keys <= w.db.previews.Keys
    requires MovesCounted(w.moves[id := n], d.sessions)
    ensures var v := w.(db := d, moves := w.moves[id := n]); WInv(v) && WEvolves(w, v)
  {
    Carry(w, d);
  }

  lemma MoveCommits(w: World, id: ID, d: Db)
    requires WInv(w) && Good(w.db, Ok(d)) && Climbs(w.db, id, Ok(d))
    ensures var v := w.(db := d, moves := w.moves[id := (if id in w.moves then w.moves[id] else 0) + 1]);
            WInv(v) && WStep(w, v)
  {
    CountMove(w.moves, w.db.sessions, d.sessions, id);
    CarryMove(w, d, id, (if id in w.moves then w.moves[id] else 0) + 1);
  }

  lemma WriteStep(w: World, worker: nat, r: Outcome<Db>)
    requires WInv(w) && worker in w.held && Good(w.db, r)
    requires Climbs(w.db, w.held[worker].id, r)
    ensures var v := ApplyWrite(w, worker, r); WInv(v) && WStep(w, v)
  {
    if r.Ok? {
      MoveCommits(w, w.held[worker].id, r.value);
    } else {
      Idle(w);
    }
  }

  lemma Idle(w: World)
    requires WInv(w)
    ensures WStep(w, w)
  {
  }

  lemma CommitStep(w: World, r: Outcome<Db>)
    requires WInv(w) && Good(w.db, r) && Closed(w.db, r)
    ensures WInv(Commit(w, r)) && WStep(w, Commit(w, r))
  {
    Idle(w);
    if r.Ok? {
      Carry(w, r.value);
    }
  }

  lemma AddCredentialStep(w: World, id: ID, r: Outcome<Db>)
    requires WInv(w) && Good(w.db, r)
    requires r.Ok? ==> r.value.credentials.Keys <= w.db.credentials.Keys + {id} && r.value.previews == w.db.previews
    ensures var v := AddCredentialId(w, id, r); WInv(v) && WStep(w, v)
  {
    Idle(w);
    if r.Ok? && id !in w.credentialIds {
      CarryNewCredential(w, r.value, id);
    }
  }

  lemma BeginStep(w: World, id: ID, enrollment: Enrollment, placeholder: Option<Credential>)
    requires WInv(w)
    ensures var v := ApplyBegin(w, id, enrollment, placeholder); WInv(v) && WStep(w, v)
  {
    BeginKeeps(w.db, id, enrollment, placeholder);
    var r := BeginTx(w.db, id, enrollment, placeholder);
    if placeholder.Some? && enrollment.credential.Some? {
      AddCredentialStep(w, enrollment.credential.value, r);
    } else {
      CommitStep(w, r);
    }
  }

  lemma CreateCredentialStep(w: World, id: ID, credential: Credential)
    requires WInv(w)
    ensures var v := AddCredentialId(w, id, CreateCredentialTx(w.db, id, credential)); WInv(v) && WStep(w, v)
  {
    CreateCredentialKeeps(w.db, id, credential);
    AddCredentialStep(w, id, CreateCredentialTx(w.db, id, credential));
  }

  lemma EnrollmentKeeps(d: Db, e: Event)
    requires Inv(d) && IsEnrollment(e)
    ensures Good(d, EnrollmentTx(d, e)) && Closed(d, EnrollmentTx(d, e))
  {
    match e
    case Claim(id, client, completion, live) => ClaimKeeps(d, id, client, completion, live);
    case Await(id, client, confirmation, live) => AwaitKeeps(d, id, client, confirmation, live);
    case Confirm(id, client, alias, at, live) => ConfirmKeeps(d, id, client, alias, at, live);
    case Finish(id, client, state, at) => FinishKeeps(d, id, client, state, at);
    case ExpireDue(id, at) =>
      if id in d.enrollments {
        FinishKeeps(d, id, d.enrollments[id].client, Lapsed, at);
      }
    case ExpireAll(at) => ExpireAllKeeps(d, at);
  }

  lemma VaultKeeps(d: Db, e: Event)
    requires Inv(d) && IsVault(e)
    ensures Good(d, VaultTx(d, e)) && Closed(d, VaultTx(d, e))
  {
    match e
    case Seal(id, expected, item, owner) => SealKeeps(d, id, expected, item, owner);
    case Reserve(id, at) => ReserveKeeps(d, id, at);
    case Finalize(id, at) => FinalizeKeeps(d, id, at);
  }

  lemma SessionKeeps(d: Db, e: Event)
    requires Inv(d) && IsSession(e)
    ensures Good(d, SessionTx(d, e)) && Closed(d, SessionTx(d, e))
  {
    match e
    case CreateSession(id, session, fakeAccount) => CreateSessionKeeps(d, id, session, fakeAccount);
    case SetProviderSession(id, thread) => SetProviderSessionKeeps(d, id, thread);
  }

  lemma UnrelatedKeeps(d: Db, e: Db)
    requires Inv(d) && e.credentials == d.credentials && e.reservations == d.reservations && e.sessions == d.sessions
    requires e.enrollments == d.enrollments && e.previews == d.previews && e.profiles == d.profiles
    requires e.items == d.items && e.nextRow == d.nextRow
    ensures Good(d, Ok(e)) && Closed(d, Ok(e))
  {
    Still(d);
  }

  /** Accounts, workspaces and usage are in no invariant. */
  lemma PlainRowKeeps(d: Db, e: Event)
    requires Inv(d) && (e.PutAccount? || e.PutWorkspace? || e.RecordUsage?)
    ensures Good(d, RowTx(d, e)) && Closed(d, RowTx(d, e))
  {
    if RowTx(d, e).Ok? {
      UnrelatedKeeps(d, RowTx(d, e).value);
    }
  }

  lemma DropPreviewsKeeps(d: Db, ids: set<ID>)
    requires Inv(d)
    ensures var r := Ok(d.(previews := d.previews - ids)); Good(d, r) && Closed(d, r)
  {
    Still(d);
  }

  lemma RowKeeps(d: Db, e: Event)
    requires Inv(d) && IsRow(e)
    ensures Good(d, RowTx(d, e)) && Closed(d, RowTx(d, e))
  {
    match e
    case PutProfile(id, profile) => PutProfileKeeps(d, id, profile);
    case DropProfile(id) => DropProfileKeeps(d, id);
    case DropAccount(id, expected, at) => DropAccountKeeps(d, id, expected, at);
    case DropPreviews(ids) => DropPreviewsKeeps(d, ids);
    case _ => PlainRowKeeps(d, e);
  }

  lemma ReadStep(w: World, worker: nat, id: ID)
    requires WInv(w)
    ensures var v := ApplyRead(w, worker, id); WInv(v) && WStep(w, v)
  {
    Idle(w);
    if id in w.db.sessions {
      HoldStep(w, worker, id);
    }
  }

  lemma MoveStep(w: World, e: Event)
    requires WInv(w) && e.WriteTransition?
    ensures var v := ApplyTransition(w, e); WInv(v) && WStep(w, v)
  {
    if e.worker in w.held {
      var k := w.held[e.worker];
      TransitionKeeps(w.db, k.id, k.row, e.from, e.next, e.at, e.exitCode, e.failure);
      WriteStep(w, e.worker, TransitionTx(w.db, k.id, k.row, e.from, e.next, e.at, e.exitCode, e.failure));
    } else {
      Idle(w);
    }
  }

  lemma StepKeeps(w: World, e: Event)
    requires WInv(w)
    ensures WInv(Apply(w, e)) && WStep(w, Apply(w, e))
  {
    if IsRow(e) {
      RowKeeps(w.db, e);
      CommitStep(w, RowTx(w.db, e));
    } else if IsEnrollment(e) {
      EnrollmentKeeps(w.db, e);
      CommitStep(w, EnrollmentTx(w.db, e));
    } else if IsVault(e) {
      VaultKeeps(w.db, e);
      CommitStep(w, VaultTx(w.db, e));
    } else if IsSession(e) {
      SessionKeeps(w.db, e);
      CommitStep(w, SessionTx(w.db, e));
    } else {
      OtherStep(w, e);
    }
  }

  lemma OtherStep(w: World, e: Event)
    requires WInv(w) && !IsRow(e) && !IsEnrollment(e) && !IsVault(e) && !IsSession(e)
    ensures var v := ApplyOther(w, e); WInv(v) && WStep(w, v)
  {
    match e
    case CreateCredential(id, credential) => CreateCredentialStep(w, id, credential);
    case Begin(id, enrollment, placeholder) => BeginStep(w, id, enrollment, placeholder);
    case CreatePreview(id, preview) => CreatePreviewStep(w, id, preview);
    case Consume(request) => ConsumeStep(w, request);
    case ReadSession(worker, id) => ReadStep(w, worker, id);
    case WriteTransition(_, _, _, _, _, _) => MoveStep(w, e);
  }

  // ---- Every run ----

  lemma Chain(u: World, v: World, w: World)
    requires WInv(u) && WInv(v) && WEvolves(u, v) && WEvolves(v, w)
    ensures WEvolves(u, w)
  {
    ChainCredentials(u, v, w);
    ChainSessions(u.db.sessions, v.db.sessions, w.db.sessions);
    ChainEnrollments(u.db.enrollments, v.db.enrollments, w.db.enrollments);
    ChainPreviews(u, v, w);
  }

  lemma ChainCredentials(u: World, v: World, w: World)
    requires CredentialsEvolve(u.db.credentials, v.db.credentials) &&
             CredentialsEvolve(v.db.credentials, w.db.credentials)
    requires WithdrawnStays(u.db, v.db) && WithdrawnStays(v.db, w.db)
    requires u.db.credentials.Keys <= u.credentialIds <= v.credentialIds
    requires forall c | c in w.db.credentials :: c in v.db.credentials || c !in v.credentialIds
    ensures CredentialsEvolve(u.db.credentials, w.db.credentials) && WithdrawnStays(u.db, w.db)
  {
  }

  lemma ChainSessions(a: map<ID, Session>, b: map<ID, Session>, c: map<ID, Session>)
    requires SessionsEvolve(a, b) && SessionsEvolve(b, c)
    ensures SessionsEvolve(a, c)
  {
  }

  lemma ChainEnrollments(a: map<ID, Enrollment>, b: map<ID, Enrollment>, c: map<ID, Enrollment>)
    requires EnrollmentsEvolve(a, b) && EnrollmentsEvolve(b, c)
    ensures EnrollmentsEvolve(a, c)
  {
  }

  lemma ChainPreviews(u: World, v: World, w: World)
    requires PreviewsEvolve(u.db.previews, v.db.previews) && PreviewsEvolve(v.db.previews, w.db.previews)
    requires u.db.previews.Keys <= u.previewIds <= v.previewIds
    requires forall p | p in w.db.previews :: p in v.db.previews || p !in v.previewIds
    ensures PreviewsEvolve(u.db.previews, w.db.previews)
  {
  }

  /** From any good world, every run stays good and evolves the rows. */
  lemma {:induction false} RunKeeps(w: World, es: seq<Event>)
    requires WInv(w)
    ensures WInv(Run(w, es)) && WEvolves(w, Run(w, es))
    decreases |es|
  {
    if es == [] {
      Idle(w);
    } else {
      StepKeeps(w, es[0]);
      RunKeeps(Apply(w, es[0]), es[1..]);
      Chain(w, Apply(w, es[0]), Run(w, es));
    }
  }

  /** Every reachable world is good. */
  lemma Reachable(es: seq<Event>)
    ensures WInv(Run(INIT, es))
  {
    assert WInv(INIT);
    RunKeeps(INIT, es);
  }
}

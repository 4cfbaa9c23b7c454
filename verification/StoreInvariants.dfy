/** What every transaction keeps, and how rows may change from one database to a later one. */
module StoreInvariants {
  import opened Base
  import opened SessionDomain
  import opened StoreModel

  // ---- Invariants ----
  //
  // Each one speaks of just the tables it is about, so a transaction that leaves those alone keeps it.

  /** A vault item agrees with its credential, and a revoked credential has none. */
  ghost predicate Coherent(items: map<ID, VaultItem>, credentials: map<ID, Credential>) {
    forall c | c in items :: c in credentials && Agrees(items[c], credentials[c])
  }

  predicate Agrees(item: VaultItem, c: Credential) {
    && c.provider == Codex && c.status != Revoked
    && c.account == Some(item.account) && c.device == item.device
    && c.revision == item.revision && c.secret == item.secret
  }

  /** Is the credential closed to new sessions? */
  predicate Withdrawn(credentials: map<ID, Credential>, reservations: map<ID, Time>, c: ID) {
    c in credentials && (credentials[c].status == Revoked || c in reservations)
  }

  /** A revoked or reserved credential has no session that is starting, running or stopping. */
  ghost predicate Excluded(sessions: map<ID, Session>, credentials: map<ID, Credential>, reservations: map<ID, Time>) {
    forall s | s in sessions && Withdrawn(credentials, reservations, sessions[s].credential) ::
      sessions[s].status.Terminal()
  }

  /** Foreign keys onto the credentials hold. */
  ghost predicate SessionsLinked(sessions: map<ID, Session>, credentials: set<ID>) {
    forall s | s in sessions :: sessions[s].credential in credentials
  }

  ghost predicate EnrollmentsLinked(enrollments: map<ID, Enrollment>, credentials: set<ID>) {
    forall x | x in enrollments ::
      && (enrollments[x].credential.Some? ==> enrollments[x].credential.value in credentials)
      && (enrollments[x].confirmation.Some? ==> enrollments[x].confirmation.value.credential in credentials)
  }

  ghost predicate PreviewsLinked(previews: map<ID, Preview>, credentials: set<ID>) {
    forall v | v in previews :: previews[v].selection.credential in credentials
  }

  /** Only public profiles are bound, and only to sealed credentials. */
  ghost predicate Bound(profiles: map<ID, Profile>, items: set<ID>) {
    forall p | p in profiles ::
      && (profiles[p].internal <==> profiles[p].provider == Fake)
      && (profiles[p].credential.Some? ==> profiles[p].credential.value in items && !profiles[p].internal)
  }

  /** End metadata is present exactly on ended sessions. */
  ghost predicate Ended(sessions: map<ID, Session>) {
    forall s | s in sessions :: EndFits(sessions[s])
  }

  predicate EndFits(s: Session) {
    && (s.endedAt.Some? <==> s.status.Terminal())
    && (s.endedAt.Some? ==> s.startedAt <= s.endedAt.value)
    && (!s.status.Terminal() ==> s.exitCode.None?)
    && (s.failure.Some? <==> s.status == Failed)
  }

  /** A resumed session came after its source, in the table and in time, and inherited its tuple. */
  ghost predicate Descends(sessions: map<ID, Session>, nextRow: nat) {
    && (forall s | s in sessions :: sessions[s].rowid < nextRow)
    && (forall s | s in sessions && sessions[s].resumedFrom.Some? ::
          sessions[s].resumedFrom.value in sessions && Follows(sessions[s], sessions[sessions[s].resumedFrom.value]))
  }

  predicate Follows(s: Session, source: Session) {
    && source.status.Terminal() && source.endedAt.Some? && source.endedAt.value <= s.startedAt
    && source.rowid < s.rowid && TupleOf(source) == TupleOf(s)
  }

  /** What an enrollment row holds in each state; at most one enrollment of a profile is open. */
  ghost predicate Enrolled(enrollments: map<ID, Enrollment>) {
    && (forall x | x in enrollments :: Shaped(enrollments[x]))
    && (forall x, y | x in enrollments && y in enrollments && enrollments[x].state.Open() &&
                      enrollments[y].state.Open() && enrollments[x].profile == enrollments[y].profile :: x == y)
  }

  predicate Shaped(e: Enrollment) {
    && (e.state == Begun ==> e.completion.None?)
    && (e.state == Begun || e.state == Validating ==> e.confirmation.None?)
    && (e.state == Validating || e.confirmation.Some? ==> e.completion.Some?)
    && (e.state == Awaiting || e.attested.Some? ==> e.confirmation.Some?)
    && (e.attested.Some? ==> e.attested.value.client == e.client)
    && (e.state == Succeeded ==> e.attested.Some?)
    && (e.state.Open() || e.state == Succeeded ==> e.credential.Some?)
    && (e.state == Awaiting || e.state == Succeeded ==>
          e.confirmation.Some? && e.confirmation.value.profile == e.profile &&
          e.credential == Some(e.confirmation.value.credential))
  }

  /** A consumed preview points at a session with its tuple, and no two previews share a session. */
  ghost predicate Spent(previews: map<ID, Preview>, sessions: map<ID, Session>) {
    && (forall v | v in previews && previews[v].consumed.Some? ::
          previews[v].consumed.value.session in sessions &&
          Matches(sessions[previews[v].consumed.value.session], previews[v].selection))
    && (forall v, w | v in previews && w in previews && previews[v].consumed.Some? && previews[w].consumed.Some? &&
                      previews[v].consumed.value.session == previews[w].consumed.value.session :: v == w)
  }

  ghost predicate Inv(d: Db) {
    && d.reservations.Keys <= d.credentials.Keys
    && SessionsLinked(d.sessions, d.credentials.Keys)
    && EnrollmentsLinked(d.enrollments, d.credentials.Keys)
    && PreviewsLinked(d.previews, d.credentials.Keys)
    && Bound(d.profiles, d.items.Keys)
    && Coherent(d.items, d.credentials)
    && Excluded(d.sessions, d.credentials, d.reservations)
    && Ended(d.sessions) && Descends(d.sessions, d.nextRow)
    && Enrolled(d.enrollments)
    && Spent(d.previews, d.sessions)
  }

  // ---- How rows change ----

  predicate Kept<T(==)>(before: Option<T>, after: Option<T>) {
    before.Some? ==> after == before
  }

  /** A credential keeps its identity, never loses a revision, and stays revoked. */
  predicate CredentialStep(a: Credential, b: Credential) {
    && a.device == b.device && a.account == b.account && a.provider == b.provider
    && a.revision <= b.revision
    && (a.status == Revoked ==> b == a)
    && (a.revision == b.revision ==> b == a || b.status == Revoked)
  }

  /** A session keeps its tuple and only climbs; an ended one is immutable. */
  predicate SessionStep(a: Session, b: Session) {
    && TupleOf(a) == TupleOf(b) && a.startedAt == b.startedAt && a.resumedFrom == b.resumedFrom && a.rowid == b.rowid
    && a.status.Rank() <= b.status.Rank()
    && (a.status.Rank() == b.status.Rank() ==> a.status == b.status && b == a.(providerSession := b.providerSession))
    && (a.status.Terminal() ==> b == a)
    && Kept(a.providerSession, b.providerSession)
  }

  /** The states an enrollment can be in after it was in `a`. */
  predicate Reaches(a: EnrollmentState, b: EnrollmentState) {
    a == b || (a.Open() && (!b.Open() || (a == Begun) || (a == Validating && b == Awaiting)))
  }

  predicate EnrollmentStep(a: Enrollment, b: Enrollment) {
    && a.client == b.client && a.profile == b.profile && a.begin == b.begin && a.expiresAt == b.expiresAt
    && Reaches(a.state, b.state)
    && Kept(a.completion, b.completion) && Kept(a.confirmation, b.confirmation) && Kept(a.attested, b.attested)
    && (!a.state.Open() ==> b == a)
  }

  predicate PreviewStep(a: Preview, b: Preview) {
    a.(consumed := None) == b.(consumed := None) && Kept(a.consumed, b.consumed)
  }

  ghost predicate CredentialsEvolve(a: map<ID, Credential>, b: map<ID, Credential>) {
    forall c | c in a && c in b :: CredentialStep(a[c], b[c])
  }

  ghost predicate WithdrawnStays(d: Db, e: Db) {
    forall c | Withdrawn(d.credentials, d.reservations, c) && c in e.credentials ::
      Withdrawn(e.credentials, e.reservations, c)
  }

  ghost predicate SessionsEvolve(a: map<ID, Session>, b: map<ID, Session>) {
    forall s | s in a :: s in b && SessionStep(a[s], b[s])
  }

  ghost predicate EnrollmentsEvolve(a: map<ID, Enrollment>, b: map<ID, Enrollment>) {
    forall x | x in a :: x in b && EnrollmentStep(a[x], b[x])
  }

  ghost predicate PreviewsEvolve(a: map<ID, Preview>, b: map<ID, Preview>) {
    forall v | v in a && v in b :: PreviewStep(a[v], b[v])
  }

  /** Every row that survives has changed only as its kind of row may. */
  ghost predicate Evolves(d: Db, e: Db) {
    && CredentialsEvolve(d.credentials, e.credentials)
    && WithdrawnStays(d, e)
    && SessionsEvolve(d.sessions, e.sessions)
    && EnrollmentsEvolve(d.enrollments, e.enrollments)
    && PreviewsEvolve(d.previews, e.previews)
  }

  // ---- What one transaction may do ----

  /** A new session is on a credential that was open to it. */
  ghost predicate Admits(d: Db, e: Db) {
    forall s | s in e.sessions && s !in d.sessions ::
      e.sessions[s].credential in d.credentials && !Withdrawn(d.credentials, d.reservations, e.sessions[s].credential)
  }

  /** One edge of the enrollment diagram. */
  predicate Edge(a: EnrollmentState, b: EnrollmentState) {
    || (a == Begun && b == Validating) || (a == Validating && b == Awaiting) || (a == Awaiting && b == Succeeded)
    || (a.Open() && (b == Cancelled || b == Lapsed || b == Abandoned))
  }

  /** The step completed `x`: its own client had attested it, its credential was sealed and its profile bound. */
  predicate Completed(d: Db, e: Db, x: ID)
    requires x in d.enrollments
  {
    var a := d.enrollments[x];
    && a.attested.Some? && a.attested.value.client == a.client && a.completion.Some? && a.credential.Some?
    && a.credential.value in d.credentials && a.credential.value in e.credentials && a.credential.value in e.items
    && e.credentials[a.credential.value].revision == d.credentials[a.credential.value].revision + 1
    && e.credentials[a.credential.value].status == Healthy
    && a.profile in e.profiles && e.profiles[a.profile].credential == a.credential
  }

  /** Every enrollment stays where it is or crosses one edge, and succeeds only by being completed. */
  ghost predicate Moves(d: Db, e: Db) {
    forall x | x in d.enrollments && x in e.enrollments ::
      d.enrollments[x].state == e.enrollments[x].state ||
      (Edge(d.enrollments[x].state, e.enrollments[x].state) &&
       (e.enrollments[x].state == Succeeded ==> Completed(d, e, x)))
  }

  // ---- Each transaction keeps the invariants and evolves the rows ----

  ghost predicate Good(d: Db, r: Outcome<Db>) {
    r.Ok? ==> Inv(r.value) && Evolves(d, r.value) && Admits(d, r.value) && Moves(d, r.value)
  }

  /** The transaction made up no credential and no preview. */
  ghost predicate Closed(d: Db, r: Outcome<Db>) {
    r.Ok? ==> r.value.credentials.Keys <= d.credentials.Keys && r.value.previews.Keys <= d.previews.Keys
  }

  /** A table that stays as it is has evolved. */
  lemma Still(d: Db)
    ensures CredentialsEvolve(d.credentials, d.credentials)
    ensures SessionsEvolve(d.sessions, d.sessions)
    ensures EnrollmentsEvolve(d.enrollments, d.enrollments)
    ensures PreviewsEvolve(d.previews, d.previews)
  {
  }

  /** The credential and item tables after a seal agree again, whether or not an item was there before. */
  lemma SealItems(d: Db, id: ID, item: VaultItem, c: Credential)
    requires Coherent(d.items, d.credentials) && SealRefusal(d, id, item.revision - 1, item).None?
    requires c == d.credentials[id].(revision := item.revision, secret := item.secret, status := Healthy)
    ensures Coherent(Upsert(d.items, id, item), d.credentials[id := c])
    ensures Upsert(d.items, id, item).Keys == d.items.Keys + {id}
    ensures d.credentials[id := c].Keys == d.credentials.Keys
    ensures CredentialsEvolve(d.credentials, d.credentials[id := c])
  {
  }

  /** A seal withdraws nothing and readmits nothing. */
  lemma SealExcludes(d: Db, id: ID, item: VaultItem, c: Credential)
    requires Excluded(d.sessions, d.credentials, d.reservations) && SealRefusal(d, id, item.revision - 1, item).None?
    requires c == d.credentials[id].(revision := item.revision, secret := item.secret, status := Healthy)
    ensures Excluded(d.sessions, d.credentials[id := c], d.reservations)
    ensures forall x :: Withdrawn(d.credentials, d.reservations, x) <==>
            Withdrawn(d.credentials[id := c], d.reservations, x)
  {
  }

  lemma SealBinds(d: Db, id: ID, item: VaultItem, profile: ID)
    requires Bound(d.profiles, d.items.Keys) && Bindable(d, profile, id, item)
    ensures Bound(d.profiles[profile := Bind(d.profiles[profile], id)], d.items.Keys + {id})
  {
  }

  lemma SealEnrolls(d: Db, owner: SealOwner, id: ID, credentials: set<ID>, e: Enrollment)
    requires Enrolled(d.enrollments) && EnrollmentsLinked(d.enrollments, credentials) && Completes(d, owner, id)
    requires e == d.enrollments[owner.enrollment].(state := Succeeded)
    ensures Enrolled(d.enrollments[owner.enrollment := e])
    ensures EnrollmentsLinked(d.enrollments[owner.enrollment := e], credentials)
    ensures EnrollmentsEvolve(d.enrollments, d.enrollments[owner.enrollment := e])
  {
  }

  lemma SealAlone(d: Db, id: ID, expected: int, item: VaultItem)
    requires Inv(d)
    ensures Good(d, SealTx(d, id, expected, item, None)) && Closed(d, SealTx(d, id, expected, item, None))
  {
    Still(d);
    if SealTx(d, id, expected, item, None).Ok? {
      var c := d.credentials[id].(revision := item.revision, secret := item.secret, status := Healthy);
      SealItems(d, id, item, c);
      SealExcludes(d, id, item, c);
    }
  }

  /** The seal moves no enrollment but the one it completes. */
  lemma SealMoves(d: Db, id: ID, expected: int, item: VaultItem, owner: SealOwner)
    requires Enrolled(d.enrollments) && SealTx(d, id, expected, item, Some(owner)).Ok?
    ensures Moves(d, SealTx(d, id, expected, item, Some(owner)).value)
  {
  }

  lemma SealEvolves(d: Db, id: ID, expected: int, item: VaultItem, owner: SealOwner)
    requires Inv(d) && SealTx(d, id, expected, item, Some(owner)).Ok?
    ensures var e := SealTx(d, id, expected, item, Some(owner)).value; Evolves(d, e) && Admits(d, e)
  {
    Still(d);
    var c := d.credentials[id].(revision := item.revision, secret := item.secret, status := Healthy);
    SealItems(d, id, item, c);
    SealExcludes(d, id, item, c);
    SealEnrolls(d, owner, id, d.credentials.Keys, d.enrollments[owner.enrollment].(state := Succeeded));
  }

  lemma SealOwned(d: Db, id: ID, expected: int, item: VaultItem, owner: SealOwner)
    requires Inv(d) && SealTx(d, id, expected, item, Some(owner)).Ok?
    ensures Good(d, SealTx(d, id, expected, item, Some(owner))) && Closed(d, SealTx(d, id, expected, item, Some(owner)))
  {
    SealMoves(d, id, expected, item, owner);
    SealEvolves(d, id, expected, item, owner);
    var c := d.credentials[id].(revision := item.revision, secret := item.secret, status := Healthy);
    SealItems(d, id, item, c);
    SealExcludes(d, id, item, c);
    var e := d.enrollments[owner.enrollment];
    SealBinds(d, id, item, e.profile);
    SealEnrolls(d, owner, id, d.credentials.Keys, e.(state := Succeeded));
  }

  lemma SealKeeps(d: Db, id: ID, expected: int, item: VaultItem, owner: Option<SealOwner>)
    requires Inv(d)
    ensures Good(d, SealTx(d, id, expected, item, owner))
    ensures Closed(d, SealTx(d, id, expected, item, owner))
  {
    if owner.None? {
      SealAlone(d, id, expected, item);
    } else if SealTx(d, id, expected, item, owner).Ok? {
      SealOwned(d, id, expected, item, owner.value);
    }
  }

  lemma ReserveExcludes(d: Db, id: ID, at: Time)
    requires Excluded(d.sessions, d.credentials, d.reservations) && !InUse(d.sessions, id)
    ensures Excluded(d.sessions, d.credentials, d.reservations[id := at])
    ensures WithdrawnStays(d, d.(reservations := d.reservations[id := at]))
  {
  }

  lemma ReserveKeeps(d: Db, id: ID, at: Time)
    requires Inv(d)
    ensures Good(d, ReserveTx(d, id, at))
    ensures Closed(d, ReserveTx(d, id, at))
  {
    Still(d);
    if ReserveTx(d, id, at).Ok? && ReserveTx(d, id, at).value != d {
      ReserveExcludes(d, id, at);
    }
  }

  lemma UnbindKeeps(profiles: map<ID, Profile>, items: set<ID>, credential: ID)
    requires Bound(profiles, items)
    ensures Bound(Unbind(profiles, credential), items - {credential})
  {
  }

  /** Revoking takes the item away, closes the credential for good, and disturbs no session. */
  lemma RevokeCredential(d: Db, id: ID, c: Credential)
    requires id in d.credentials && d.credentials[id].status != Revoked
    requires c == d.credentials[id].(status := Revoked, secret := ZERO_DIGEST)
    requires Coherent(d.items, d.credentials) && Excluded(d.sessions, d.credentials, d.reservations)
    requires id in d.reservations
    ensures Coherent(d.items - {id}, d.credentials[id := c])
    ensures d.credentials[id := c].Keys == d.credentials.Keys && (d.items - {id}).Keys == d.items.Keys - {id}
    ensures forall x :: Withdrawn(d.credentials, d.reservations, x) <==>
                        Withdrawn(d.credentials[id := c], d.reservations - {id}, x)
    ensures Excluded(d.sessions, d.credentials[id := c], d.reservations - {id})
    ensures CredentialsEvolve(d.credentials, d.credentials[id := c])
  {
  }

  lemma DropReservation(d: Db, id: ID)
    requires id in d.credentials && d.credentials[id].status == Revoked
    requires Excluded(d.sessions, d.credentials, d.reservations)
    ensures forall x :: Withdrawn(d.credentials, d.reservations, x) <==>
            Withdrawn(d.credentials, d.reservations - {id}, x)
    ensures Excluded(d.sessions, d.credentials, d.reservations - {id})
  {
  }

  lemma RevokeKeeps(d: Db, id: ID)
    requires Inv(d) && id in d.reservations && d.credentials[id].status != Revoked
    ensures var r := Ok(d.(items := d.items - {id}, profiles := Unbind(d.profiles, id),
                           credentials :=
                             d.credentials[id := d.credentials[id].(status := Revoked, secret := ZERO_DIGEST)],
                           reservations := d.reservations - {id}));
            Good(d, r) && Closed(d, r)
  {
    Still(d);
    UnbindKeeps(d.profiles, d.items.Keys, id);
    RevokeCredential(d, id, d.credentials[id].(status := Revoked, secret := ZERO_DIGEST));
  }

  lemma ReplayKeeps(d: Db, id: ID)
    requires Inv(d) && id in d.credentials && d.credentials[id].status == Revoked
    ensures var r := Ok(d.(profiles := Unbind(d.profiles, id), reservations := d.reservations - {id}));
            Good(d, r) && Closed(d, r)
  {
    Still(d);
    UnbindKeeps(d.profiles, d.items.Keys, id);
    assert d.items.Keys - {id} == d.items.Keys by { assert id !in d.items; }
    DropReservation(d, id);
  }

  lemma FinalizeKeeps(d: Db, id: ID, at: Time)
    requires Inv(d)
    ensures Good(d, FinalizeTx(d, id, at))
    ensures Closed(d, FinalizeTx(d, id, at))
  {
    if FinalizeTx(d, id, at).Ok? {
      if d.credentials[id].status == Revoked {
        ReplayKeeps(d, id);
      } else {
        RevokeKeeps(d, id);
      }
    }
  }

  /** A session enters only on a credential that is not withdrawn. */
  lemma InsertExcludes(d: Db, id: ID, s: Session)
    requires SessionsLinked(d.sessions, d.credentials.Keys) && Excluded(d.sessions, d.credentials, d.reservations)
    requires id !in d.sessions && LinkRefusal(d, s).None?
    ensures SessionsLinked(d.sessions[id := s], d.credentials.Keys)
    ensures Excluded(d.sessions[id := s], d.credentials, d.reservations)
    ensures SessionsEvolve(d.sessions, d.sessions[id := s])
  {
  }

  /** A session enters only below an ended source. */
  lemma InsertDescends(d: Db, id: ID, s: Session)
    requires Ended(d.sessions) && Descends(d.sessions, d.nextRow) && ResumeRefusal(d, s).None?
    requires id !in d.sessions && EndFits(s) && s.rowid == d.nextRow
    ensures Ended(d.sessions[id := s]) && Descends(d.sessions[id := s], d.nextRow + 1)
  {
  }

  lemma InsertKeeps(d: Db, id: ID, s: Session)
    requires Inv(d) && EndFits(s)
    requires LinkRefusal(d, s).None? && ResumeRefusal(d, s).None?
    ensures Good(d, InsertSession(d, id, s)) && Closed(d, InsertSession(d, id, s))
  {
    Still(d);
    if InsertSession(d, id, s).Ok? {
      var row := s.(rowid := d.nextRow);
      assert LinkRefusal(d, row).None? && ResumeRefusal(d, row).None?;
      InsertExcludes(d, id, row);
      InsertDescends(d, id, row);
    }
  }

  lemma AdmitKeeps(d: Db, id: ID, s: Session)
    requires Inv(d) && EndFits(s)
    ensures Good(d, AdmitSession(d, id, s)) && Closed(d, AdmitSession(d, id, s))
  {
    if LinkRefusal(d, s).None? && ResumeRefusal(d, s).None? {
      InsertKeeps(d, id, s);
    }
  }

  lemma CreateSessionKeeps(d: Db, id: ID, s: Session, fakeAccount: Option<ID>)
    requires Inv(d)
    ensures Good(d, CreateSessionTx(d, id, s, fakeAccount))
    ensures Closed(d, CreateSessionTx(d, id, s, fakeAccount))
  {
    var named := if s.provider == Fake && s.account.None? then s.(account := fakeAccount) else s;
    if NewSession(named).Ok? {
      AdmitKeeps(d, id, NewSession(named).value);
    }
  }

  /** A row that climbs keeps every invariant of the session table, resumed sessions included. */
  lemma PutSession(sessions: map<ID, Session>, nextRow: nat, id: ID, s: Session)
    requires Ended(sessions) && Descends(sessions, nextRow)
    requires id in sessions && SessionStep(sessions[id], s) && EndFits(s)
    ensures Ended(sessions[id := s]) && Descends(sessions[id := s], nextRow)
    ensures SessionsEvolve(sessions, sessions[id := s])
  {
  }

  lemma PutSessionExcludes(d: Db, id: ID, s: Session)
    requires id in d.sessions && SessionStep(d.sessions[id], s)
    requires SessionsLinked(d.sessions, d.credentials.Keys) && Excluded(d.sessions, d.credentials, d.reservations)
    requires Spent(d.previews, d.sessions)
    ensures SessionsLinked(d.sessions[id := s], d.credentials.Keys)
    ensures Excluded(d.sessions[id := s], d.credentials, d.reservations)
    ensures Spent(d.previews, d.sessions[id := s])
  {
  }

  /** The transaction changed one session, upwards. */
  ghost predicate Climbs(d: Db, id: ID, r: Outcome<Db>) {
    r.Ok? ==> r.value == d.(sessions := r.value.sessions) && id in d.sessions && id in r.value.sessions &&
              d.sessions[id].status.Rank() < r.value.sessions[id].status.Rank()
  }

  /** `read` is any earlier state of the row. */
  lemma TransitionKeeps(d: Db, id: ID, read: Session, expected: SessionStatus, next: SessionStatus, at: Time,
                        exitCode: Option<int>, failure: Option<nat>)
    requires Inv(d)
    requires id in d.sessions ==> SessionStep(read, d.sessions[id])
    ensures Good(d, TransitionTx(d, id, read, expected, next, at, exitCode, failure))
    ensures Climbs(d, id, TransitionTx(d, id, read, expected, next, at, exitCode, failure))
  {
    Still(d);
    var r := TransitionTx(d, id, read, expected, next, at, exitCode, failure);
    if r.Ok? {
      assert EndFits(d.sessions[id]);
      var s := r.value.sessions[id];
      PutSession(d.sessions, d.nextRow, id, s);
      PutSessionExcludes(d, id, s);
    }
  }

  lemma SetProviderSessionKeeps(d: Db, id: ID, thread: nat)
    requires Inv(d)
    ensures Good(d, SetProviderSessionTx(d, id, thread))
    ensures Closed(d, SetProviderSessionTx(d, id, thread))
  {
    Still(d);
    if SetProviderSessionTx(d, id, thread).Ok? {
      assert EndFits(d.sessions[id]);
      var s := d.sessions[id].(providerSession := Some(thread));
      PutSession(d.sessions, d.nextRow, id, s);
      PutSessionExcludes(d, id, s);
    }
  }

  lemma CreatePreviewKeeps(d: Db, id: ID, v: Preview)
    requires Inv(d)
    ensures Good(d, CreatePreviewTx(d, id, v))
  {
    Still(d);
    if CreatePreviewTx(d, id, v).Ok? {
      AddPreview(d.previews, d.sessions, d.credentials.Keys, id, v);
    }
  }

  lemma AddPreview(previews: map<ID, Preview>, sessions: map<ID, Session>, credentials: set<ID>, id: ID, v: Preview)
    requires Spent(previews, sessions) && PreviewsLinked(previews, credentials)
    requires id !in previews && v.consumed.None? && v.selection.credential in credentials
    ensures Spent(previews[id := v], sessions) && PreviewsLinked(previews[id := v], credentials)
    ensures PreviewsEvolve(previews, previews[id := v])
  {
  }

  /** The session a preview is spent on is new, so no other preview was spent on it. */
  lemma SpendPreview(d: Db, id: ID, v: Preview, sid: ID, s: Session)
    requires Spent(d.previews, d.sessions) && PreviewsLinked(d.previews, d.credentials.Keys)
    requires id in d.previews && d.previews[id].consumed.None? && sid !in d.sessions
    requires v.(consumed := None) == d.previews[id] && v.consumed.Some? && v.consumed.value.session == sid
    requires Matches(s, v.selection)
    ensures Spent(d.previews[id := v], d.sessions[sid := s]) && PreviewsLinked(d.previews[id := v], d.credentials.Keys)
    ensures PreviewsEvolve(d.previews, d.previews[id := v])
  {
  }

  /** Marking the preview of a session that was just added is no step of its own. */
  lemma SpendKeeps(d: Db, e: Db, id: ID, v: Preview, sid: ID)
    requires Inv(d) && Good(d, Ok(e)) && e == d.(sessions := e.sessions, nextRow := e.nextRow)
    requires id in d.previews && d.previews[id].consumed.None?
    requires sid !in d.sessions && sid in e.sessions && e.sessions == d.sessions[sid := e.sessions[sid]]
    requires v.(consumed := None) == d.previews[id] && v.consumed.Some? && v.consumed.value.session == sid
    requires Matches(e.sessions[sid], v.selection)
    ensures Good(d, Ok(e.(previews := d.previews[id := v])))
  {
    SpendPreview(d, id, v, sid, e.sessions[sid]);
  }

  lemma FreshConsumeKeeps(d: Db, r: ConsumeRequest)
    requires Inv(d) && ConsumeTx(d, r).Ok? && d.previews[r.preview].consumed.None?
    ensures Good(d, Ok(ConsumeTx(d, r).value.0))
  {
    var v := d.previews[r.preview].(consumed := Some(Consumption(r.at, r.digest, r.id)));
    var s := NewSession(r.session).value.(providerSession := None, resumedFrom := None);
    InsertKeeps(d, r.id, s);
    SpendKeeps(d, InsertSession(d, r.id, s).value, r.preview, v, r.id);
  }

  lemma ConsumeKeeps(d: Db, r: ConsumeRequest)
    requires Inv(d)
    requires ConsumeTx(d, r).Ok?
    ensures Good(d, Ok(ConsumeTx(d, r).value.0))
  {
    if d.previews[r.preview].consumed.None? {
      FreshConsumeKeeps(d, r);
    } else {
      Still(d);
    }
  }

  /** A credential that has no rows yet can be added. */
  lemma AddCredential(d: Db, id: ID, c: Credential)
    requires id !in d.credentials && d.reservations.Keys <= d.credentials.Keys
    requires SessionsLinked(d.sessions, d.credentials.Keys)
    requires Coherent(d.items, d.credentials) && Excluded(d.sessions, d.credentials, d.reservations)
    ensures Coherent(d.items, d.credentials[id := c])
    ensures Excluded(d.sessions, d.credentials[id := c], d.reservations)
    ensures WithdrawnStays(d, d.(credentials := d.credentials[id := c]))
    ensures CredentialsEvolve(d.credentials, d.credentials[id := c])
  {
  }

  lemma AddCredentialKeeps(d: Db, id: ID, c: Credential)
    requires Inv(d) && id !in d.credentials
    ensures Good(d, Ok(d.(credentials := d.credentials[id := c])))
  {
    Still(d);
    AddCredential(d, id, c);
  }

  lemma CreateCredentialKeeps(d: Db, id: ID, c: Credential)
    requires Inv(d)
    ensures Good(d, CreateCredentialTx(d, id, c))
  {
    if id !in d.credentials {
      AddCredentialKeeps(d, id, c);
    }
  }

  /** Credentials that no row names can be deleted. */
  lemma DropCredentialsKeeps(d: Db, gone: set<ID>)
    requires Inv(d) && forall c | c in gone :: !Referenced(d, c)
    ensures Good(d, Ok(Delete(d, gone)))
  {
    Still(d);
    DropLinks(d, gone);
    DropExcludes(d, gone);
  }

  lemma DropLinks(d: Db, gone: set<ID>)
    requires forall c | c in gone :: !Referenced(d, c)
    requires SessionsLinked(d.sessions, d.credentials.Keys) && EnrollmentsLinked(d.enrollments, d.credentials.Keys)
    requires PreviewsLinked(d.previews, d.credentials.Keys)
    ensures SessionsLinked(d.sessions, d.credentials.Keys - gone)
    ensures EnrollmentsLinked(d.enrollments, d.credentials.Keys - gone)
    ensures PreviewsLinked(d.previews, d.credentials.Keys - gone)
  {
  }

  lemma DropExcludes(d: Db, gone: set<ID>)
    requires forall c | c in gone :: !Referenced(d, c)
    requires Coherent(d.items, d.credentials) && Excluded(d.sessions, d.credentials, d.reservations)
    ensures (d.credentials - gone).Keys == d.credentials.Keys - gone
    ensures Coherent(d.items, d.credentials - gone)
    ensures Excluded(d.sessions, d.credentials - gone, d.reservations - gone)
    ensures CredentialsEvolve(d.credentials, d.credentials - gone)
    ensures forall c | Withdrawn(d.credentials, d.reservations, c) && c !in gone ::
              Withdrawn(d.credentials - gone, d.reservations - gone, c)
  {
  }

  /** A row may be added or changed as long as it is well shaped and opens no second enrollment of a profile. */
  lemma PutEnrollment(enrollments: map<ID, Enrollment>, credentials: set<ID>, id: ID, e: Enrollment)
    requires Enrolled(enrollments) && EnrollmentsLinked(enrollments, credentials) && Shaped(e)
    requires e.credential.Some? ==> e.credential.value in credentials
    requires e.confirmation.Some? ==> e.confirmation.value.credential in credentials
    requires id in enrollments ==>
             EnrollmentStep(enrollments[id], e) && (e.state.Open() ==> enrollments[id].state.Open())
    requires id !in enrollments ==>
               forall x | x in enrollments :: !(enrollments[x].profile == e.profile && enrollments[x].state.Open())
    ensures Enrolled(enrollments[id := e]) && EnrollmentsLinked(enrollments[id := e], credentials)
    ensures EnrollmentsEvolve(enrollments, enrollments[id := e])
  {
  }

  lemma PutEnrollmentKeeps(d: Db, id: ID, e: Enrollment)
    requires Inv(d) && id in d.enrollments && Shaped(e) && EnrollmentStep(d.enrollments[id], e)
    requires e.state == d.enrollments[id].state || (Edge(d.enrollments[id].state, e.state) && e.state != Succeeded)
    requires e.state.Open() ==> d.enrollments[id].state.Open()
    requires e.credential.Some? ==> e.credential.value in d.credentials
    requires e.confirmation.Some? ==> e.confirmation.value.credential in d.credentials
    ensures Good(d, Ok(d.(enrollments := d.enrollments[id := e])))
  {
    Still(d);
    PutEnrollment(d.enrollments, d.credentials.Keys, id, e);
  }

  lemma BeginKeeps(d: Db, id: ID, e: Enrollment, placeholder: Option<Credential>)
    requires Inv(d)
    ensures Good(d, BeginTx(d, id, e, placeholder))
  {
    var r := BeginTx(d, id, e, placeholder);
    if r.Ok? {
      var made := d.(credentials := r.value.credentials);
      if placeholder.Some? {
        AddCredentialKeeps(d, e.credential.value, placeholder.value);
      } else {
        Still(d);
      }
      PutEnrollment(d.enrollments, made.credentials.Keys, id, e);
    }
  }

  lemma ClaimKeeps(d: Db, id: ID, client: ID, completion: Digest, live: bool)
    requires Inv(d)
    ensures Good(d, ClaimTx(d, id, client, completion, live))
    ensures Closed(d, ClaimTx(d, id, client, completion, live))
  {
    if ClaimTx(d, id, client, completion, live).Ok? {
      assert Shaped(d.enrollments[id]);
      PutEnrollmentKeeps(d, id, d.enrollments[id].(state := Validating, completion := Some(completion)));
    }
  }

  lemma AwaitKeeps(d: Db, id: ID, client: ID, k: Confirmation, live: bool)
    requires Inv(d)
    ensures Good(d, AwaitTx(d, id, client, k, live))
    ensures Closed(d, AwaitTx(d, id, client, k, live))
  {
    if AwaitTx(d, id, client, k, live).Ok? {
      assert Shaped(d.enrollments[id]);
      PutEnrollmentKeeps(d, id, d.enrollments[id].(state := Awaiting, confirmation := Some(k)));
    }
  }

  lemma ConfirmKeeps(d: Db, id: ID, client: ID, alias: Digest, at: Time, live: bool)
    requires Inv(d)
    ensures Good(d, ConfirmTx(d, id, client, alias, at, live))
    ensures Closed(d, ConfirmTx(d, id, client, alias, at, live))
  {
    if ConfirmTx(d, id, client, alias, at, live).Ok? {
      assert Shaped(d.enrollments[id]);
      PutEnrollmentKeeps(d, id, d.enrollments[id].(attested := Some(Attestation(client, at))));
    }
  }

  lemma FinishRow(d: Db, id: ID, e: Enrollment)
    requires Inv(d) && id in d.enrollments && d.enrollments[id].state.Open() && !e.state.Open() && e.state != Succeeded
    requires e.credential == d.enrollments[id].credential || e.credential.None?
    requires e == d.enrollments[id].(state := e.state, credential := e.credential)
    ensures Good(d, Ok(d.(enrollments := d.enrollments[id := e])))
  {
    assert Shaped(d.enrollments[id]);
    PutEnrollmentKeeps(d, id, e);
  }

  lemma DiscardKeeps(d: Db, c: ID)
    requires Inv(d)
    ensures Good(d, Ok(Discard(d, c))) && Closed(d, Ok(Discard(d, c)))
    ensures Discard(d, c) == d.(credentials := Discard(d, c).credentials, reservations := Discard(d, c).reservations)
  {
    Still(d);
    if Placeholder(d, c) && !Referenced(d, c) {
      DropCredentialsKeeps(d, {c});
    }
  }

  lemma DiscardEnd(d: Db, id: ID, e: Enrollment, c: ID)
    requires Inv(d) && id in d.enrollments && d.enrollments[id].state.Open() && !e.state.Open() && e.state != Succeeded
    requires e == d.enrollments[id].(state := e.state, credential := None)
    ensures var r := Ok(Discard(d.(enrollments := d.enrollments[id := e]), c)); Good(d, r) && Closed(d, r)
  {
    FinishRow(d, id, e);
    var freed := d.(enrollments := d.enrollments[id := e]);
    DiscardKeeps(freed, c);
    ThenDropped(d, freed, Discard(freed, c));
  }

  lemma EndKeeps(d: Db, id: ID, e: Enrollment)
    requires Inv(d) && id in d.enrollments && d.enrollments[id].state.Open() && !e.state.Open() && e.state != Succeeded
    requires e == d.enrollments[id].(state := e.state) && e.credential.Some?
    ensures var r := Ok(if e.credential.value in d.items then d.(enrollments := d.enrollments[id := e])
                        else Discard(d.(enrollments := d.enrollments[id := e.(credential := None)]),
                                     e.credential.value));
            Good(d, r) && Closed(d, r)
  {
    if e.credential.value in d.items {
      FinishRow(d, id, e);
    } else {
      DiscardEnd(d, id, e.(credential := None), e.credential.value);
    }
  }

  lemma FinishKeeps(d: Db, id: ID, client: ID, state: EnrollmentState, at: Time)
    requires Inv(d)
    ensures Good(d, FinishTx(d, id, client, state, at))
    ensures Closed(d, FinishTx(d, id, client, state, at))
  {
    var r := FinishTx(d, id, client, state, at);
    if r.Ok? && d.enrollments[id].state == state {
      Still(d);
    } else if r.Ok? {
      EndKeeps(d, id, d.enrollments[id].(state := state));
    }
  }

  /** Evolution, then a change to the credential tables alone. */
  lemma ThenDropped(d: Db, e: Db, f: Db)
    requires Evolves(d, e) && Evolves(e, f) && Moves(d, e) && e.sessions == d.sessions && e.items == d.items
    requires forall x | x in e.enrollments && x in d.enrollments && e.enrollments[x].state == Succeeded ::
               d.enrollments[x].state == Succeeded
    requires e.credentials == d.credentials && e.reservations == d.reservations
    requires f.sessions == e.sessions && f.enrollments == e.enrollments && f.previews == e.previews
    ensures Evolves(d, f) && Admits(d, f) && Moves(d, f)
  {
  }

  lemma LapseKeeps(d: Db, lapsed: map<ID, Enrollment>)
    requires Inv(d) && lapsed == map x | x in d.enrollments :: Lapse(d.enrollments[x], d.items)
    ensures Good(d, Ok(d.(enrollments := lapsed)))
  {
    Still(d);
    LapseRows(d, lapsed);
  }

  lemma LapseRows(d: Db, lapsed: map<ID, Enrollment>)
    requires Enrolled(d.enrollments) && EnrollmentsLinked(d.enrollments, d.credentials.Keys)
    requires lapsed == map x | x in d.enrollments :: Lapse(d.enrollments[x], d.items)
    ensures Enrolled(lapsed) && EnrollmentsLinked(lapsed, d.credentials.Keys) &&
            EnrollmentsEvolve(d.enrollments, lapsed)
  {
    forall x | x in d.enrollments ensures Shaped(lapsed[x]) && EnrollmentStep(d.enrollments[x], lapsed[x]) {
      assert Shaped(d.enrollments[x]);
    }
  }

  /** When nothing is blocked, the only name a doomed placeholder had is the one its enrollment lets go. */
  lemma DoomedUnreferenced(d: Db, lapsed: map<ID, Enrollment>, c: ID)
    requires lapsed == map x | x in d.enrollments :: Lapse(d.enrollments[x], d.items)
    requires c in Doomed(d) && !exists x | x in d.enrollments :: Blocked(d, x)
    ensures !Referenced(d.(enrollments := lapsed), c)
  {
    var x :| x in d.enrollments && d.enrollments[x].state.Open() && d.enrollments[x].credential == Some(c) &&
             c !in d.items && Placeholder(d, c);
    var freed := d.enrollments[x := d.enrollments[x].(credential := None)];
    assert !Blocked(d, x);
    assert !Referenced(d.(enrollments := freed), c);
    forall y | y in d.enrollments ensures !Names(lapsed[y], c) {
      assert y in freed && !Names(freed[y], c);
    }
  }

  lemma DoomedKeeps(d: Db, lapsed: map<ID, Enrollment>)
    requires lapsed == map x | x in d.enrollments :: Lapse(d.enrollments[x], d.items)
    requires Inv(d.(enrollments := lapsed)) && !exists x | x in d.enrollments :: Blocked(d, x)
    ensures Good(d.(enrollments := lapsed), Ok(Delete(d.(enrollments := lapsed), Doomed(d))))
  {
    forall c | c in Doomed(d) ensures !Referenced(d.(enrollments := lapsed), c) {
      DoomedUnreferenced(d, lapsed, c);
    }
    DropCredentialsKeeps(d.(enrollments := lapsed), Doomed(d));
  }

  lemma LapseAllKeeps(d: Db, lapsed: map<ID, Enrollment>)
    requires Inv(d) && lapsed == map x | x in d.enrollments :: Lapse(d.enrollments[x], d.items)
    requires !exists x | x in d.enrollments :: Blocked(d, x)
    ensures var r := Ok(Delete(d.(enrollments := lapsed), Doomed(d))); Good(d, r) && Closed(d, r)
  {
    LapseKeeps(d, lapsed);
    DoomedKeeps(d, lapsed);
    ThenDropped(d, d.(enrollments := lapsed), Delete(d.(enrollments := lapsed), Doomed(d)));
  }

  lemma ExpireAllKeeps(d: Db, at: Time)
    requires Inv(d)
    ensures Good(d, ExpireAllTx(d, at))
    ensures Closed(d, ExpireAllTx(d, at))
  {
    if ExpireAllTx(d, at).Ok? {
      LapseAllKeeps(d, map x | x in d.enrollments :: Lapse(d.enrollments[x], d.items));
    }
  }

  lemma PutProfile(profiles: map<ID, Profile>, items: set<ID>, id: ID, p: Profile)
    requires Bound(profiles, items) && (p.internal <==> p.provider == Fake)
    requires id in profiles ==> p.credential == profiles[id].credential && p.internal == profiles[id].internal
    requires id !in profiles ==> p.credential.None?
    ensures Bound(profiles[id := p], items)
  {
  }

  lemma PutProfileKeeps(d: Db, id: ID, p: Profile)
    requires Inv(d)
    ensures Good(d, PutProfileTx(d, id, p))
    ensures Closed(d, PutProfileTx(d, id, p))
  {
    Still(d);
    if PutProfileTx(d, id, p).Ok? {
      PutProfile(d.profiles, d.items.Keys, id, PutProfileTx(d, id, p).value.profiles[id]);
    }
  }

  lemma DropProfileKeeps(d: Db, id: ID)
    requires Inv(d)
    ensures Good(d, DropProfileTx(d, id))
    ensures Closed(d, DropProfileTx(d, id))
  {
  }

  lemma DropAccountKeeps(d: Db, id: ID, expected: int, at: Time)
    requires Inv(d)
    ensures Good(d, DropAccountTx(d, id, expected, at))
    ensures Closed(d, DropAccountTx(d, id, expected, at))
  {
    Still(d);
    if DropAccountTx(d, id, expected, at).Ok? {
      FewerProfiles(d.profiles, DropAccountTx(d, id, expected, at).value.profiles, d.items.Keys);
    }
  }

  lemma FewerProfiles(a: map<ID, Profile>, b: map<ID, Profile>, items: set<ID>)
    requires Bound(a, items) && forall p | p in b :: p in a && b[p] == a[p]
    ensures Bound(b, items)
  {
  }
}

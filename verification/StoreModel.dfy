/**
 The device database as one value, and every transaction on it as a function of that value.

 A function returns the database it commits or the code it fails with; a failed transaction rolls
 back, so it leaves the database as it was. The checks stand in the order the code makes them.
 */
module StoreModel {
  import opened Base
  import opened SessionDomain
  import opened Aead

  datatype CredentialStatus = Healthy | Expired | Revoked | Unknown

  datatype Credential = Credential(device: ID, account: Option<ID>, provider: Provider, status: CredentialStatus,
                                   revision: int, secret: Digest)

  datatype VaultItem = VaultItem(account: ID, device: ID, revision: int, secret: Digest, envelope: Envelope)

  datatype Account = Account(provider: Provider, enabled: bool, internal: bool, revision: int)

  datatype Profile = Profile(device: ID, account: ID, provider: Provider, credential: Option<ID>, internal: bool,
                             enabled: bool, revision: int)

  datatype Workspace = Workspace(device: ID, updatedAt: Time)

  datatype Usage = Usage(account: ID, device: ID, credential: Option<ID>)

  datatype EnrollmentState = Begun | Validating | Awaiting | Succeeded | Cancelled | Lapsed | Abandoned {
    /** An open enrollment may still succeed; the other states are its ends. */
    predicate Open() { Begun? || Validating? || Awaiting? }
  }

  datatype Confirmation = Confirmation(account: ID, accountRevision: int, profile: ID, profileRevision: int,
                                       credential: ID, credentialRevision: int, alias: Digest)

  datatype Attestation = Attestation(client: ID, at: Time)

  datatype Enrollment = Enrollment(client: ID, profile: ID, credential: Option<ID>, state: EnrollmentState,
                                   begin: Digest, completion: Option<Digest>, confirmation: Option<Confirmation>,
                                   attested: Option<Attestation>, expiresAt: Time)

  /** The selector tuple a client is shown and must repeat when it confirms a start. */
  datatype Selection = Selection(account: ID, accountRevision: int, profile: ID, profileRevision: int,
                                 credential: ID, credentialRevision: int, device: ID, workspace: ID,
                                 usage: Option<ID>, providerVersion: nat)

  datatype Fingerprints = Fingerprints(binary: Digest, schema: Digest, capability: Digest)

  datatype Consumption = Consumption(at: Time, digest: Digest, session: ID)

  datatype Preview = Preview(client: ID, selection: Selection, workspaceUpdatedAt: Time, prints: Fingerprints,
                             createdAt: Time, expiresAt: Time, consumed: Option<Consumption>)

  datatype ConsumeRequest = ConsumeRequest(preview: ID, client: ID, digest: Digest, at: Time, confirmed: bool,
                                           selection: Selection, prints: Fingerprints, id: ID, session: Session)

  /** An enrollment that a seal completes, as its caller names it. */
  datatype SealOwner = SealOwner(enrollment: ID, client: ID, completion: Digest)

  datatype Db = Db(
    accounts: map<ID, Account>,
    profiles: map<ID, Profile>,
    workspaces: map<ID, Workspace>,
    usage: map<ID, Usage>,
    latestUsage: map<ID, ID>,
    credentials: map<ID, Credential>,
    items: map<ID, VaultItem>,
    reservations: map<ID, Time>,
    enrollments: map<ID, Enrollment>,
    previews: map<ID, Preview>,
    sessions: map<ID, Session>,
    nextRow: nat)

  const EMPTY_DB := Db(map[], map[], map[], map[], map[], map[], map[], map[], map[], map[], map[], 0)

  const ZERO_DIGEST: Digest := 0

  // ---- Vault records (internal/storage/vault_records.go) ----

  /** Is the credential used by a session that has not ended? */
  predicate InUse(sessions: map<ID, Session>, credential: ID) {
    exists s | s in sessions :: sessions[s].credential == credential && !sessions[s].status.Terminal()
  }

  /** Inserting a vault item replaces the encrypted part of a stored one and keeps its identity columns. */
  function Upsert(items: map<ID, VaultItem>, id: ID, item: VaultItem): map<ID, VaultItem> {
    if id in items
    then items[id := items[id].(revision := item.revision, secret := item.secret, envelope := item.envelope)]
    else items[id := item]
  }

  /** Why a credential row cannot take the item, if it cannot. */
  function SealRefusal(d: Db, id: ID, expected: int, item: VaultItem): Option<Code> {
    if item.revision < 1 then Some(InvalidArgument)
    else if id !in d.credentials || d.credentials[id].account.None? then Some(NotFound)
    else
      var c := d.credentials[id];
      if c.revision != expected || c.account.value != item.account || c.device != item.device ||
         c.provider != Codex || item.revision != expected + 1 then Some(CredentialRevisionConflict)
      else if c.status == Revoked || c.status == Expired then Some(CredentialRevisionConflict)
      else if id in d.reservations then Some(CredentialRevisionConflict)
      else None
  }

  /** Does the enrollment await exactly this completion, attested by its own client? */
  predicate Completes(d: Db, owner: SealOwner, credential: ID) {
    owner.enrollment in d.enrollments &&
    var e := d.enrollments[owner.enrollment];
    e.client == owner.client && e.credential == Some(credential) && e.state == Awaiting &&
    e.attested.Some? && e.attested.value.client == owner.client && e.completion == Some(owner.completion)
  }

  predicate Bindable(d: Db, profile: ID, credential: ID, item: VaultItem) {
    profile in d.profiles &&
    var p := d.profiles[profile];
    p.account == item.account && p.device == item.device && p.provider == Codex &&
    (p.credential.None? || p.credential == Some(credential))
  }

  function Bind(p: Profile, credential: ID): Profile {
    p.(credential := Some(credential), revision := if p.credential.None? then p.revision + 1 else p.revision)
  }

  /** Advances the encrypted bytes and the credential together; with an owner, also completes its enrollment. */
  function SealTx(d: Db, id: ID, expected: int, item: VaultItem, owner: Option<SealOwner>): Outcome<Db> {
    var refusal := SealRefusal(d, id, expected, item);
    if refusal.Some? then Err(refusal.value)
    else
      var sealed := d.(
        items := Upsert(d.items, id, item),
        credentials := d.credentials[id := d.credentials[id].(revision := item.revision, secret := item.secret,
                                                               status := Healthy)]);
      if owner.None? then Ok(sealed)
      else if !Completes(d, owner.value, id) then Err(IdentityConfirmationRequired)
      else
        var e := d.enrollments[owner.value.enrollment];
        if !Bindable(d, e.profile, id, item) then Err(ProfileBindingChanged)
        else Ok(sealed.(
          profiles := d.profiles[e.profile := Bind(d.profiles[e.profile], id)],
          enrollments := d.enrollments[owner.value.enrollment := e.(state := Succeeded)]))
  }

  /** Keeps new sessions off a credential before logout touches anything outside the database. */
  function ReserveTx(d: Db, id: ID, at: Time): Outcome<Db> {
    if at == ZERO_TIME then Err(InvalidArgument)
    else if id !in d.credentials then Err(NotFound)
    else if d.credentials[id].provider != Codex then Err(Conflict)
    else if d.credentials[id].status == Revoked then Ok(d)
    else if InUse(d.sessions, id) then Err(Conflict)
    else if id in d.reservations then Ok(d)
    else Ok(d.(reservations := d.reservations[id := at]))
  }

  /** Every public profile bound to the credential loses the binding. */
  function Unbind(profiles: map<ID, Profile>, credential: ID): map<ID, Profile> {
    map p | p in profiles ::
      if profiles[p].credential == Some(credential) && !profiles[p].internal
      then profiles[p].(credential := None, revision := profiles[p].revision + 1) else profiles[p]
  }

  /** Turns a reservation into a revocation and forgets the secret. */
  function FinalizeTx(d: Db, id: ID, at: Time): Outcome<Db> {
    if at == ZERO_TIME then Err(InvalidArgument)
    else if id !in d.credentials then Err(NotFound)
    else if d.credentials[id].provider != Codex then Err(Conflict)
    else if d.credentials[id].status == Revoked then
      Ok(d.(profiles := Unbind(d.profiles, id), reservations := d.reservations - {id}))
    else if id !in d.reservations then Err(Conflict)
    else if InUse(d.sessions, id) then Err(Conflict)
    else Ok(d.(items := d.items - {id}, profiles := Unbind(d.profiles, id),
               credentials := d.credentials[id := d.credentials[id].(status := Revoked, secret := ZERO_DIGEST)],
               reservations := d.reservations - {id}))
  }

  // ---- Sessions (internal/storage/repository.go) ----

  function AccountRefusal(d: Db, provider: Provider, account: Option<ID>): Option<Code> {
    if account.None? then (if provider == Codex then Some(InvalidArgument) else None)
    else if account.value !in d.accounts then Some(NotFound)
    else if d.accounts[account.value].provider != provider then Some(Conflict)
    else if !d.accounts[account.value].enabled then Some(PermissionDenied)
    else None
  }

  /** Why the rows a new session refers to do not admit it, if they do not. */
  function LinkRefusal(d: Db, s: Session): Option<Code> {
    var account := AccountRefusal(d, s.provider, s.account);
    if account.Some? then account
    else if s.profile !in d.profiles then Some(NotFound)
    else if d.profiles[s.profile].device != s.device || d.profiles[s.profile].provider != s.provider then Some(Conflict)
    else if Some(d.profiles[s.profile].account) != s.account then Some(Conflict)
    else if s.credential !in d.credentials then Some(NotFound)
    else
      var c := d.credentials[s.credential];
      if c.device != s.device || c.provider != s.provider then Some(Conflict)
      else if c.status == Revoked || c.status == Expired then Some(PermissionDenied)
      else if s.provider == Codex && (c.revision < 1 || c.account.None? || c.account != s.account) then Some(Conflict)
      else if s.provider == Fake && c.account.Some? then Some(Conflict)
      else if s.credential in d.reservations then Some(PermissionDenied)
      else if s.workspace !in d.workspaces then Some(NotFound)
      else if d.workspaces[s.workspace].device != s.device then Some(Conflict)
      else None
  }

  /** Why the source a session claims to continue does not allow it, if it does not. */
  function ResumeRefusal(d: Db, s: Session): Option<Code> {
    if s.resumedFrom.None? then None
    else if s.resumedFrom.value !in d.sessions then Some(NotFound)
    else
      var source := d.sessions[s.resumedFrom.value];
      if !source.status.Terminal() || source.endedAt.None? then Some(InvalidTransition)
      else if s.startedAt < source.endedAt.value then Some(InvalidArgument)
      else if SessionResume !in source.capabilities then Some(PermissionDenied)
      else if source.capabilities != s.capabilities then Some(Conflict)
      else if TupleOf(source) != TupleOf(s) || source.providerSession != s.providerSession then Some(Conflict)
      else None
  }

  /** Adds a row; the table has a primary key and knows two providers. */
  function InsertSession(d: Db, id: ID, s: Session): Outcome<Db> {
    if id in d.sessions || s.provider == Claude then Err(Conflict)
    else Ok(d.(sessions := d.sessions[id := s.(rowid := d.nextRow)], nextRow := d.nextRow + 1))
  }

  function AdmitSession(d: Db, id: ID, s: Session): Outcome<Db> {
    if LinkRefusal(d, s).Some? then Err(LinkRefusal(d, s).value)
    else if ResumeRefusal(d, s).Some? then Err(ResumeRefusal(d, s).value)
    else InsertSession(d, id, s)
  }

  /** `fakeAccount` is the account the device's own identifier stands for. */
  function CreateSessionTx(d: Db, id: ID, s: Session, fakeAccount: Option<ID>): Outcome<Db> {
    var named := if s.provider == Fake && s.account.None? then s.(account := fakeAccount) else s;
    var validated := NewSession(named);
    if validated.Err? then Err(validated.code) else AdmitSession(d, id, validated.value)
  }

  /**
   The write half of a transition. `read` is the row an earlier read returned; the row now stored may
   differ from it, and is changed only if its status is still the expected one.
   */
  function TransitionTx(d: Db, id: ID, read: Session, expected: SessionStatus, next: SessionStatus, at: Time,
                        exitCode: Option<int>, failure: Option<nat>): Outcome<Db> {
    if read.status != expected then Err(Conflict)
    else
      var moved := Transition(read, next, at, exitCode, failure);
      if moved.Err? then Err(moved.code)
      else if id !in d.sessions || d.sessions[id].status != expected then Err(Conflict)
      else if moved.value.status != Failed && moved.value.failure.Some? then Err(Conflict)
      else Ok(d.(sessions := d.sessions[id := d.sessions[id].(
        status := moved.value.status, endedAt := moved.value.endedAt, exitCode := moved.value.exitCode,
        failure := moved.value.failure)]))
  }

  function SetProviderSessionTx(d: Db, id: ID, thread: nat): Outcome<Db> {
    if id !in d.sessions || d.sessions[id].provider != Codex || d.sessions[id].status != Starting ||
       d.sessions[id].providerSession.Some? then Err(Conflict)
    else Ok(d.(sessions := d.sessions[id := d.sessions[id].(providerSession := Some(thread))]))
  }

  // ---- Start previews (internal/storage/session_preview.go) ----

  /** Are the account, profile and credential of the selection as it says, usable and at its revisions? */
  predicate Current(d: Db, x: Selection) {
    x.account in d.accounts && x.profile in d.profiles && x.credential in d.credentials &&
    var a, p, c := d.accounts[x.account], d.profiles[x.profile], d.credentials[x.credential];
    a.provider == Codex && a.enabled && !a.internal && a.revision == x.accountRevision &&
    p.account == x.account && p.device == x.device && p.credential == Some(x.credential) && p.provider == Codex &&
    p.enabled && !p.internal && p.revision == x.profileRevision &&
    c.account == Some(x.account) && c.device == x.device && c.provider == Codex && c.status == Healthy &&
    c.revision == x.credentialRevision
  }

  function CreatePreviewTx(d: Db, id: ID, v: Preview): Outcome<Db> {
    var x := v.selection;
    if x.accountRevision < 1 || x.profileRevision < 1 || x.credentialRevision < 1 ||
       v.workspaceUpdatedAt == ZERO_TIME || v.createdAt == ZERO_TIME || v.expiresAt <= v.createdAt ||
       v.consumed.Some? then
      Err(InvalidArgument)
    else if !Current(d, x) then Err(ProfileBindingChanged)
    else if x.workspace !in d.workspaces || d.workspaces[x.workspace] != Workspace(x.device, v.workspaceUpdatedAt) then
      Err(ProfileBindingChanged)
    else if x.credential !in d.items || d.items[x.credential].revision != x.credentialRevision then
      Err(ProfileBindingChanged)
    else if x.credential in d.reservations then Err(PermissionDenied)
    else if x.usage.Some? && (x.usage.value !in d.usage || d.usage[x.usage.value].account != x.account ||
            d.usage[x.usage.value].device != x.device ||
            (d.usage[x.usage.value].credential.Some? && d.usage[x.usage.value].credential != Some(x.credential))) then
      Err(ProfileBindingChanged)
    else if id in d.previews then Err(Conflict)
    else Ok(d.(previews := d.previews[id := v]))
  }

  /** The newest usage snapshot of an account, if there is one. */
  function LatestUsage(d: Db, account: ID): Option<ID> {
    if account in d.latestUsage then Some(d.latestUsage[account]) else None
  }

  predicate Matches(s: Session, x: Selection) {
    s.account == Some(x.account) && s.profile == x.profile && s.credential == x.credential && s.device == x.device &&
    s.workspace == x.workspace && s.provider == Codex
  }

  /** Why an unconsumed preview does not admit the request, if it does not. */
  function PreviewRefusal(d: Db, v: Preview, r: ConsumeRequest, s: Session): Option<Code> {
    if v.expiresAt <= r.at then Some(ConfirmationExpired)
    else if r.selection != v.selection || r.prints != v.prints then Some(ProfileBindingChanged)
    else if !Matches(s, v.selection) then Some(ProfileBindingChanged)
    else if !Current(d, v.selection) then Some(ProfileBindingChanged)
    else if LatestUsage(d, v.selection.account) != v.selection.usage then Some(ProfileBindingChanged)
    else if LinkRefusal(d, s).Some? then LinkRefusal(d, s)
    else if d.workspaces[v.selection.workspace].updatedAt != v.workspaceUpdatedAt then Some(ProfileBindingChanged)
    else None
  }

  /** Spends a preview on one new session, or answers a replay with the session it was spent on. */
  function ConsumeTx(d: Db, r: ConsumeRequest): Outcome<(Db, ID)> {
    if r.at == ZERO_TIME || !r.confirmed then Err(IdentityConfirmationRequired)
    else
      var validated := NewSession(r.session);
      if validated.Err? then Err(validated.code)
      else if r.preview !in d.previews then Err(IdentityConfirmationRequired)
      else
        var v := d.previews[r.preview];
        if v.client != r.client then Err(PermissionDenied)
        else if v.consumed.Some? then
          (if v.consumed.value.digest == r.digest then Ok((d, v.consumed.value.session)) else Err(Conflict))
        else
          var refusal := PreviewRefusal(d, v, r, validated.value);
          if refusal.Some? then Err(refusal.value)
          else
            var inserted := InsertSession(d, r.id, validated.value.(providerSession := None, resumedFrom := None));
            if inserted.Err? then Err(inserted.code)
            else Ok((inserted.value.(previews :=
                       d.previews[r.preview := v.(consumed := Some(Consumption(r.at, r.digest, r.id)))]), r.id))
  }

  // ---- Enrollments (internal/storage/enrollment.go) ----

  function BeginTx(d: Db, id: ID, e: Enrollment, placeholder: Option<Credential>): Outcome<Db> {
    if e.state != Begun || e.credential.None? || e.expiresAt == ZERO_TIME || e.completion.Some? ||
       e.confirmation.Some? || e.attested.Some? then Err(InvalidArgument)
    else
      var c := e.credential.value;
      if placeholder.Some? && (placeholder.value.provider != Codex || placeholder.value.account.None? ||
                               placeholder.value.revision != 1) then
        Err(InvalidArgument)
      else if placeholder.Some? && (c in d.credentials || placeholder.value.account.value !in d.accounts) then
        Err(Conflict)
      else if placeholder.None? &&
              !(c in d.credentials && d.credentials[c].provider == Codex && e.profile in d.profiles &&
                d.profiles[e.profile].device == d.credentials[c].device &&
                Some(d.profiles[e.profile].account) == d.credentials[c].account) then Err(Conflict)
      else if id in d.enrollments || e.profile !in d.profiles then Err(Conflict)
      else if exists x | x in d.enrollments ::
                d.enrollments[x].profile == e.profile && d.enrollments[x].state.Open() then Err(Conflict)
      else if exists x | x in d.enrollments ::
                d.enrollments[x].client == e.client && d.enrollments[x].begin == e.begin then Err(Conflict)
      else Ok(d.(enrollments := d.enrollments[id := e],
                 credentials := if placeholder.Some? then d.credentials[c := placeholder.value] else d.credentials))
  }

  /**
   The update a claim ends with. `live` is the database's own comparison of the stored deadline with the
   request's time, which compares text and is therefore left to chance here.
   */
  function ClaimTx(d: Db, id: ID, client: ID, completion: Digest, live: bool): Outcome<Db> {
    if id !in d.enrollments || d.enrollments[id].client != client || d.enrollments[id].state != Begun || !live then
      Err(Conflict)
    else
      var e := d.enrollments[id].(state := Validating, completion := Some(completion));
      Ok(d.(enrollments := d.enrollments[id := e]))
  }

  function AwaitTx(d: Db, id: ID, client: ID, k: Confirmation, live: bool): Outcome<Db> {
    if k.accountRevision < 1 || k.profileRevision < 1 || k.credentialRevision < 1 then Err(InvalidArgument)
    else if id !in d.enrollments || d.enrollments[id].client != client || d.enrollments[id].profile != k.profile ||
            d.enrollments[id].credential != Some(k.credential) || d.enrollments[id].state != Validating || !live ||
            k.account !in d.accounts then Err(Conflict)
    else Ok(d.(enrollments := d.enrollments[id := d.enrollments[id].(state := Awaiting, confirmation := Some(k))]))
  }

  function ConfirmTx(d: Db, id: ID, client: ID, alias: Digest, at: Time, live: bool): Outcome<Db> {
    if id !in d.enrollments || d.enrollments[id].client != client || d.enrollments[id].state != Awaiting ||
       d.enrollments[id].confirmation.None? || d.enrollments[id].confirmation.value.alias != alias ||
       d.enrollments[id].attested.Some? || !live then Err(Conflict)
    else Ok(d.(enrollments := d.enrollments[id := d.enrollments[id].(attested := Some(Attestation(client, at)))]))
  }

  /** Is some row's foreign key still on the credential? Reservations do not count: they go with it. */
  predicate Referenced(d: Db, c: ID) {
    || c in d.items
    || (exists x | x in d.sessions :: d.sessions[x].credential == c)
    || (exists x | x in d.profiles :: d.profiles[x].credential == Some(c))
    || (exists x | x in d.previews :: d.previews[x].selection.credential == c)
    || (exists x | x in d.usage :: d.usage[x].credential == Some(c))
    || (exists x | x in d.enrollments :: Names(d.enrollments[x], c))
  }

  /** Does the enrollment row hold the credential in either of its two columns? */
  predicate Names(e: Enrollment, c: ID) {
    e.credential == Some(c) || (e.confirmation.Some? && e.confirmation.value.credential == c)
  }

  /** A placeholder made for an enrollment and never sealed. */
  predicate Placeholder(d: Db, c: ID) {
    c in d.credentials && d.credentials[c].provider == Codex && d.credentials[c].status == Unknown &&
    d.credentials[c].revision == 1
  }

  /** Deletes credentials and, with them, their reservations. */
  function Delete(d: Db, gone: set<ID>): Db {
    d.(credentials := d.credentials - gone, reservations := d.reservations - gone)
  }

  /** Deletes a placeholder if no foreign key forbids it. */
  function Discard(d: Db, c: ID): Db {
    if Placeholder(d, c) && !Referenced(d, c) then Delete(d, {c}) else d
  }

  /** Ends an enrollment without success. A failing deletion of the placeholder is ignored. */
  function FinishTx(d: Db, id: ID, client: ID, state: EnrollmentState, at: Time): Outcome<Db> {
    if state.Open() || state == Succeeded || at == ZERO_TIME then Err(InvalidArgument)
    else if id !in d.enrollments || d.enrollments[id].client != client || d.enrollments[id].credential.None? then
      Err(NotFound)
    else if d.enrollments[id].state == state then Ok(d)
    else if !d.enrollments[id].state.Open() then Err(Conflict)
    else
      var e, c := d.enrollments[id].(state := state), d.enrollments[id].credential.value;
      if c in d.items then Ok(d.(enrollments := d.enrollments[id := e]))
      else Ok(Discard(d.(enrollments := d.enrollments[id := e.(credential := None)]), c))
  }

  /** Ends an open enrollment, letting go of a credential that has no vault item. */
  function Lapse(e: Enrollment, items: map<ID, VaultItem>): Enrollment {
    if !e.state.Open() then e
    else if e.credential.Some? && e.credential.value !in items then e.(state := Lapsed, credential := None)
    else e.(state := Lapsed)
  }

  /** An open enrollment whose credential is still an unsealed placeholder. */
  predicate Pending(d: Db, x: ID) {
    x in d.enrollments && d.enrollments[x].state.Open() && d.enrollments[x].credential.Some? &&
    d.enrollments[x].credential.value !in d.items && Placeholder(d, d.enrollments[x].credential.value)
  }

  /** The placeholders that expiry deletes. */
  function Doomed(d: Db): set<ID> {
    set x | x in d.enrollments && Pending(d, x) :: d.enrollments[x].credential.value
  }

  /** Deleting the placeholder of `x` fails when any row but `x`'s own first column still names it. */
  predicate Blocked(d: Db, x: ID) {
    Pending(d, x) &&
    Referenced(d.(enrollments := d.enrollments[x := d.enrollments[x].(credential := None)]),
               d.enrollments[x].credential.value)
  }

  /** What recovery does to the enrollments of a stopped daemon. Here a failing deletion fails everything. */
  function ExpireAllTx(d: Db, at: Time): Outcome<Db> {
    if at == ZERO_TIME then Err(InvalidArgument)
    else if exists x | x in d.enrollments :: Blocked(d, x) then Err(Conflict)
    else Ok(Delete(d.(enrollments := map x | x in d.enrollments :: Lapse(d.enrollments[x], d.items)), Doomed(d)))
  }

  // ---- Rows that other commands own ----

  /** A credential row made outside an enrollment (internal/storage/repository.go). */
  function CreateCredentialTx(d: Db, id: ID, c: Credential): Outcome<Db> {
    if !((c.provider == Fake && c.account.None? && c.revision >= 0) ||
         (c.provider == Codex && c.account.Some? && c.revision >= 1)) then Err(InvalidArgument)
    else if AccountRefusal(d, c.provider, c.account).Some? then Err(AccountRefusal(d, c.provider, c.account).value)
    else if id in d.credentials then Err(Conflict)
    else Ok(d.(credentials := d.credentials[id := c]))
  }

  /** A profile edit may move a profile between accounts, but never touches its credential or makes it internal. */
  function PutProfileTx(d: Db, id: ID, p: Profile): Outcome<Db> {
    var kept := if id in d.profiles
                then p.(credential := d.profiles[id].credential, internal := d.profiles[id].internal)
                else p.(credential := None);
    if kept.internal != (kept.provider == Fake) then Err(Conflict)
    else Ok(d.(profiles := d.profiles[id := kept]))
  }

  /** Does a session, a preview or an enrollment refer to the profile? */
  predicate ProfileInUse(d: Db, p: ID) {
    || (exists x | x in d.sessions :: d.sessions[x].profile == p)
    || (exists x | x in d.previews :: d.previews[x].selection.profile == p)
    || (exists x | x in d.enrollments :: d.enrollments[x].profile == p ||
         (d.enrollments[x].confirmation.Some? && d.enrollments[x].confirmation.value.profile == p))
  }

  /** A profile that a session, a preview or an enrollment refers to cannot be deleted. */
  function DropProfileTx(d: Db, id: ID): Outcome<Db> {
    if id !in d.profiles then Err(NotFound)
    else if ProfileInUse(d, id) then Err(Conflict)
    else Ok(d.(profiles := d.profiles - {id}))
  }

  /** Do foreign keys stand against deleting the account with its profiles and usage? */
  predicate AccountInUse(d: Db, a: ID) {
    || (exists x | x in d.previews :: d.previews[x].selection.account == a)
    || (exists x | x in d.previews && d.previews[x].selection.usage.Some? ::
          d.previews[x].selection.usage.value in d.usage && d.usage[d.previews[x].selection.usage.value].account == a)
    || (exists x | x in d.enrollments ::
          d.enrollments[x].confirmation.Some? && d.enrollments[x].confirmation.value.account == a)
    || (exists x | x in d.items :: d.items[x].account == a)
    || (exists p | p in d.profiles && d.profiles[p].account == a :: d.profiles[p].internal || ProfileInUse(d, p))
  }

  /** Deletes a disabled account that nothing has used, with its public profiles and its usage. */
  function DropAccountTx(d: Db, id: ID, expected: int, at: Time): Outcome<Db> {
    if expected < 1 || at == ZERO_TIME then Err(InvalidArgument)
    else if id !in d.accounts then Err(NotFound)
    else if d.accounts[id].internal then Err(PermissionDenied)
    else if d.accounts[id].revision != expected then Err(SyncConflict)
    else if d.accounts[id].enabled then Err(Conflict)
    else if exists x | x in d.sessions :: d.sessions[x].account == Some(id) then Err(ActiveSessions)
    else if exists x | x in d.credentials :: d.credentials[x].account == Some(id) then Err(ProviderCleanupRequired)
    else if AccountInUse(d, id) then Err(Conflict)
    else Ok(d.(accounts := d.accounts - {id}, latestUsage := d.latestUsage - {id},
               usage := map u | u in d.usage && d.usage[u].account != id :: d.usage[u],
               profiles := map p | p in d.profiles && (d.profiles[p].account != id || d.profiles[p].internal) ::
                             d.profiles[p]))
  }
}

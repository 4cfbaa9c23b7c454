/**
 What each transaction of the store comes to: exactly when it commits, exactly which rows it then leaves
 different, and what a refusal says. Each is stated from the tables alone, whatever the order of the checks.
 */
module StoreOutcomes {
  import opened Base
  import opened SessionDomain
  import opened StoreModel
  import opened StoreInvariants
  import opened StoreRuns
  import opened SessionTheorems

  /** Every row but that of `id` is as it was, and no other row came or went. */
  ghost predicate SameBut<T(!new)>(a: map<ID, T>, b: map<ID, T>, id: ID) {
    forall x | x != id :: (x in a <==> x in b) && (x in a ==> b[x] == a[x])
  }

  /** A session on the credential is starting, running or stopping. */
  ghost predicate Busy(d: Db, credential: ID) {
    exists s | s in d.sessions :: d.sessions[s].credential == credential && Live(d.sessions[s].status)
  }

  predicate Live(s: SessionStatus) { s == Starting || s == Running || s == Stopping }

  lemma BusyIsInUse(d: Db, credential: ID)
    ensures Busy(d, credential) <==> InUse(d.sessions, credential)
  {
    if s :| s in d.sessions && d.sessions[s].credential == credential && Live(d.sessions[s].status) {
      assert !d.sessions[s].status.Terminal();
    }
    if s :| s in d.sessions && d.sessions[s].credential == credential && !d.sessions[s].status.Terminal() {
      assert Live(d.sessions[s].status);
    }
  }

  // ---- Credentials and their items ----

  /** A reservation commits exactly for a known Codex credential that is revoked or not in use. */
  lemma ReservesIff(d: Db, id: ID, at: Time)
    ensures ReserveTx(d, id, at).Ok? <==>
              at != ZERO_TIME && id in d.credentials && d.credentials[id].provider == Codex &&
              (d.credentials[id].status == Revoked || !Busy(d, id))
    ensures ReserveTx(d, id, at) == Err(InvalidArgument) <==> at == ZERO_TIME
    ensures ReserveTx(d, id, at) == Err(NotFound) <==> at != ZERO_TIME && id !in d.credentials
    ensures ReserveTx(d, id, at).Err? && at != ZERO_TIME && id in d.credentials ==>
              ReserveTx(d, id, at) == Err(Conflict)
  {
    BusyIsInUse(d, id);
  }

  /** It closes the credential, touches nothing else, and keeps the time of a reservation that was there. */
  lemma ReserveCloses(d: Db, id: ID, at: Time)
    requires ReserveTx(d, id, at).Ok?
    ensures var e := ReserveTx(d, id, at).value;
            && Withdrawn(e.credentials, e.reservations, id)
            && e.(reservations := d.reservations) == d && SameBut(d.reservations, e.reservations, id)
            && (id in d.reservations ==> id in e.reservations)
            && (id in e.reservations ==>
                  e.reservations[id] == if id in d.reservations then d.reservations[id] else at)
  {
    if d.credentials[id].status == Revoked || id in d.reservations {
      assert ReserveTx(d, id, at).value == d;
    } else {
      assert ReserveTx(d, id, at).value == d.(reservations := d.reservations[id := at]);
    }
  }

  /** A revocation commits exactly for a known Codex credential that is revoked, or reserved and not in use. */
  lemma FinalizesIff(d: Db, id: ID, at: Time)
    ensures FinalizeTx(d, id, at).Ok? <==>
              at != ZERO_TIME && id in d.credentials && d.credentials[id].provider == Codex &&
              (d.credentials[id].status == Revoked || (id in d.reservations && !Busy(d, id)))
    ensures FinalizeTx(d, id, at) == Err(InvalidArgument) <==> at == ZERO_TIME
    ensures FinalizeTx(d, id, at) == Err(NotFound) <==> at != ZERO_TIME && id !in d.credentials
    ensures FinalizeTx(d, id, at).Err? && at != ZERO_TIME && id in d.credentials ==>
              FinalizeTx(d, id, at) == Err(Conflict)
  {
    BusyIsInUse(d, id);
  }

  /** A public profile bound to the credential loses the binding, at its next revision; others stay. */
  ghost predicate Unbound(a: map<ID, Profile>, b: map<ID, Profile>, credential: ID) {
    && b.Keys == a.Keys
    && forall p | p in a ::
         if a[p].credential == Some(credential) && !a[p].internal
         then b[p] == a[p].(credential := None, revision := a[p].revision + 1)
         else b[p] == a[p]
  }

  /** What a revocation leaves: the credential revoked, without secret, item, reservation or public profile. */
  ghost predicate RevokedIn(d: Db, e: Db, id: ID)
    requires id in d.credentials
  {
    && SameBut(d.credentials, e.credentials, id) && id in e.credentials
    && e.credentials[id] == (if d.credentials[id].status == Revoked then d.credentials[id]
                             else d.credentials[id].(status := Revoked, secret := ZERO_DIGEST))
    && SameBut(d.items, e.items, id) && id !in e.items
    && SameBut(d.reservations, e.reservations, id) && id !in e.reservations
    && Unbound(d.profiles, e.profiles, id)
    && e.(credentials := d.credentials, items := d.items, reservations := d.reservations, profiles := d.profiles) == d
  }

  lemma UnbindUnbinds(profiles: map<ID, Profile>, credential: ID)
    ensures Unbound(profiles, Unbind(profiles, credential), credential)
  {
  }

  lemma RevokesNow(d: Db, e: Db, id: ID)
    requires id in d.credentials && d.credentials[id].status != Revoked
    requires e == d.(items := d.items - {id}, profiles := Unbind(d.profiles, id),
                     credentials := d.credentials[id := d.credentials[id].(status := Revoked, secret := ZERO_DIGEST)],
                     reservations := d.reservations - {id})
    ensures RevokedIn(d, e, id)
  {
    UnbindUnbinds(d.profiles, id);
  }

  lemma RevokesAgain(d: Db, e: Db, id: ID)
    requires id in d.credentials && d.credentials[id].status == Revoked && id !in d.items
    requires e == d.(profiles := Unbind(d.profiles, id), reservations := d.reservations - {id})
    ensures RevokedIn(d, e, id)
  {
    UnbindUnbinds(d.profiles, id);
  }

  lemma FinalizeRevokes(d: Db, id: ID, at: Time)
    requires Inv(d) && FinalizeTx(d, id, at).Ok?
    ensures RevokedIn(d, FinalizeTx(d, id, at).value, id)
  {
    if d.credentials[id].status == Revoked {
      assert id in d.items ==> Agrees(d.items[id], d.credentials[id]);
      RevokesAgain(d, FinalizeTx(d, id, at).value, id);
    } else {
      RevokesNow(d, FinalizeTx(d, id, at).value, id);
    }
  }

  /** The item is for the credential as it is, one revision on, and the credential is open to it. */
  predicate Fresh(d: Db, id: ID, expected: int, item: VaultItem) {
    && id in d.credentials && id !in d.reservations && expected >= 0 && item.revision == expected + 1
    && d.credentials[id].provider == Codex && d.credentials[id].revision == expected
    && d.credentials[id].account == Some(item.account) && d.credentials[id].device == item.device
    && (d.credentials[id].status == Healthy || d.credentials[id].status == Unknown)
  }

  /** The enrollment waits for just this seal. */
  predicate Waits(d: Db, owner: SealOwner, id: ID) {
    && owner.enrollment in d.enrollments && d.enrollments[owner.enrollment].state == Awaiting
    && d.enrollments[owner.enrollment].client == owner.client
    && d.enrollments[owner.enrollment].credential == Some(id)
    && d.enrollments[owner.enrollment].completion == Some(owner.completion)
    && d.enrollments[owner.enrollment].attested.Some?
    && d.enrollments[owner.enrollment].attested.value.client == owner.client
  }

  /** And its profile is of the item's account and device, and free or bound to the credential. */
  predicate Awaited(d: Db, owner: SealOwner, id: ID, item: VaultItem) {
    && Waits(d, owner, id) && d.enrollments[owner.enrollment].profile in d.profiles
    && var p := d.profiles[d.enrollments[owner.enrollment].profile];
       p.account == item.account && p.device == item.device && p.provider == Codex &&
       (p.credential.None? || p.credential == Some(id))
  }

  /** What a seal that completes an enrollment does to it and to its profile. */
  ghost predicate Completion(d: Db, e: Db, owner: SealOwner, id: ID) {
    && owner.enrollment in d.enrollments && owner.enrollment in e.enrollments
    && SameBut(d.enrollments, e.enrollments, owner.enrollment)
    && e.enrollments[owner.enrollment] == d.enrollments[owner.enrollment].(state := Succeeded)
    && var p := d.enrollments[owner.enrollment].profile;
       && p in d.profiles && p in e.profiles && SameBut(d.profiles, e.profiles, p)
       && e.profiles[p].credential == Some(id)
       && e.profiles[p].revision == d.profiles[p].revision + (if d.profiles[p].credential.None? then 1 else 0)
       && e.profiles[p].(credential := d.profiles[p].credential, revision := d.profiles[p].revision) == d.profiles[p]
  }

  /** A seal commits exactly if the item is for the credential as it is and its enrollment, if any, waits for it. */
  lemma SealsIff(d: Db, id: ID, expected: int, item: VaultItem, owner: Option<SealOwner>)
    ensures SealTx(d, id, expected, item, owner).Ok? <==>
              Fresh(d, id, expected, item) && (owner.Some? ==> Awaited(d, owner.value, id, item))
  {
  }

  /** Then the credential is healthy at the next revision with the item's secret, and the item is stored. */
  lemma SealStores(d: Db, id: ID, expected: int, item: VaultItem, owner: Option<SealOwner>)
    requires Inv(d) && SealTx(d, id, expected, item, owner).Ok?
    ensures var e := SealTx(d, id, expected, item, owner).value;
            && SameBut(d.credentials, e.credentials, id) && id in e.credentials
            && e.credentials[id] ==
               d.credentials[id].(revision := expected + 1, secret := item.secret, status := Healthy)
            && SameBut(d.items, e.items, id) && id in e.items && e.items[id] == item
            && e.(credentials := d.credentials, items := d.items, enrollments := d.enrollments,
                  profiles := d.profiles) == d
  {
    if id in d.items {
      assert Agrees(d.items[id], d.credentials[id]);
    }
  }

  /** With an owner it completes the enrollment and binds the profile; without one it leaves both tables alone. */
  lemma SealCompletes(d: Db, id: ID, expected: int, item: VaultItem, owner: Option<SealOwner>)
    requires SealTx(d, id, expected, item, owner).Ok?
    ensures var e := SealTx(d, id, expected, item, owner).value;
            if owner.Some? then Completion(d, e, owner.value, id)
            else e.enrollments == d.enrollments && e.profiles == d.profiles
  {
  }

  /** And a seal that is refused says why. */
  lemma SealRefused(d: Db, id: ID, expected: int, item: VaultItem, owner: Option<SealOwner>)
    requires SealTx(d, id, expected, item, owner).Err?
    ensures SealTx(d, id, expected, item, owner).code ==
              if item.revision < 1 then InvalidArgument
              else if id !in d.credentials || d.credentials[id].account.None? then NotFound
              else if !Fresh(d, id, expected, item) then CredentialRevisionConflict
              else if !Waits(d, owner.value, id) then IdentityConfirmationRequired
              else ProfileBindingChanged
  {
  }

  // ---- Sessions ----

  /** The rows a session names allow it: they fit together and are usable, and a Codex credential was sealed once. */
  predicate Admissible(d: Db, s: Session) {
    Linked(d, s) && (s.provider == Codex ==> d.credentials[s.credential].revision >= 1)
  }

  lemma LinksIff(d: Db, s: Session)
    ensures LinkRefusal(d, s).None? <==> Admissible(d, s)
  {
  }

  /** A refusal names a true reason: a missing row, a row that is closed, or rows that do not fit. */
  lemma LinkRefused(d: Db, s: Session)
    requires LinkRefusal(d, s).Some?
    ensures var code := LinkRefusal(d, s).value;
            && (code == InvalidArgument <==> s.provider == Codex && s.account.None?)
            && (code == NotFound ==>
                  || (s.account.Some? && s.account.value !in d.accounts) || s.profile !in d.profiles
                  || s.credential !in d.credentials || s.workspace !in d.workspaces)
            && (code == PermissionDenied ==>
                  || (s.account.Some? && s.account.value in d.accounts && !d.accounts[s.account.value].enabled)
                  || (s.credential in d.credentials &&
                      (s.credential in d.reservations || d.credentials[s.credential].status == Revoked ||
                       d.credentials[s.credential].status == Expired)))
            && (code == Conflict ==>
                  || (s.account.Some? && s.account.value in d.accounts &&
                      d.accounts[s.account.value].provider != s.provider)
                  || (s.profile in d.profiles && (d.profiles[s.profile].device != s.device ||
                      d.profiles[s.profile].provider != s.provider || Some(d.profiles[s.profile].account) != s.account))
                  || (s.credential in d.credentials &&
                      (d.credentials[s.credential].device != s.device ||
                       d.credentials[s.credential].provider != s.provider ||
                       (s.provider == Codex && d.credentials[s.credential].revision < 1) ||
                       d.credentials[s.credential].account != (if s.provider == Codex then s.account else None)))
                  || (s.workspace in d.workspaces && d.workspaces[s.workspace].device != s.device))
            && (code == InvalidArgument || code == NotFound || code == PermissionDenied || code == Conflict)
  {
  }

  /** The source of a resumed session is over, could be resumed, and passes on its tuple and its thread. */
  predicate Resumable(d: Db, s: Session) {
    s.resumedFrom.Some? ==>
      && s.resumedFrom.value in d.sessions
      && var source := d.sessions[s.resumedFrom.value];
         && source.status.Terminal() && source.endedAt.Some? && source.endedAt.value <= s.startedAt
         && SessionResume in source.capabilities && TupleOf(s) == TupleOf(source)
         && s.providerSession == source.providerSession
  }

  lemma ResumesIff(d: Db, s: Session)
    ensures ResumeRefusal(d, s).None? <==> Resumable(d, s)
    ensures ResumeRefusal(d, s) == Some(NotFound) <==> s.resumedFrom.Some? && s.resumedFrom.value !in d.sessions
    ensures ResumeRefusal(d, s) == Some(InvalidTransition) <==>
              s.resumedFrom.Some? && s.resumedFrom.value in d.sessions &&
              (!d.sessions[s.resumedFrom.value].status.Terminal() || d.sessions[s.resumedFrom.value].endedAt.None?)
    ensures s.resumedFrom.Some? && s.resumedFrom.value in d.sessions && !Resumable(d, s) ==>
              var source := d.sessions[s.resumedFrom.value];
              ResumeRefusal(d, s) ==
                if !source.status.Terminal() || source.endedAt.None? then Some(InvalidTransition)
                else if s.startedAt < source.endedAt.value then Some(InvalidArgument)
                else if SessionResume !in source.capabilities then Some(PermissionDenied)
                else Some(Conflict)
  {
  }

  /** The record as it is asked for, with the device's own account where a fake session names none. */
  function Named(s: Session, fakeAccount: Option<ID>): Session {
    if s.provider == Fake && s.account.None? then s.(account := fakeAccount) else s
  }

  /** A session is admitted exactly if its record is in order, its rows allow it and its identifier is new. */
  lemma CreatesIff(d: Db, id: ID, s: Session, fakeAccount: Option<ID>)
    ensures CreateSessionTx(d, id, s, fakeAccount).Ok? <==>
              NewSession(Named(s, fakeAccount)).Ok? && Admissible(d, Named(s, fakeAccount)) &&
              Resumable(d, Named(s, fakeAccount)) && id !in d.sessions && s.provider != Claude
  {
    var named := Named(s, fakeAccount);
    if NewSession(named).Ok? {
      var v := NewSession(named).value;
      LinksIff(d, v);
      ResumesIff(d, v);
    }
  }

  /** What is wrong with the record comes first, then with the rows it names, then with its source. */
  lemma CreateRefused(d: Db, id: ID, s: Session, fakeAccount: Option<ID>)
    requires CreateSessionTx(d, id, s, fakeAccount).Err?
    ensures var named := Named(s, fakeAccount);
            CreateSessionTx(d, id, s, fakeAccount) ==
              if NewSession(named).Err? then Err(NewSession(named).code)
              else if LinkRefusal(d, named).Some? then Err(LinkRefusal(d, named).value)
              else if ResumeRefusal(d, named).Some? then Err(ResumeRefusal(d, named).value)
              else Err(Conflict)
  {
    var named := Named(s, fakeAccount);
    if NewSession(named).Ok? {
      assert LinkRefusal(d, NewSession(named).value) == LinkRefusal(d, named);
      assert ResumeRefusal(d, NewSession(named).value) == ResumeRefusal(d, named);
    }
  }

  /** What is stored is the record that was asked for, resume link included, with nothing ended about it. */
  lemma CreateStores(d: Db, id: ID, s: Session, fakeAccount: Option<ID>)
    requires CreateSessionTx(d, id, s, fakeAccount).Ok?
    ensures var e := CreateSessionTx(d, id, s, fakeAccount).value;
            && SameBut(d.sessions, e.sessions, id) && id in e.sessions && e.nextRow == d.nextRow + 1
            && e.sessions[id] == Named(s, fakeAccount).(endedAt := None, exitCode := None, failure := None,
                                                        rowid := d.nextRow)
            && e.(sessions := d.sessions, nextRow := d.nextRow) == d
  {
    var v := NewSession(Named(s, fakeAccount)).value;
    assert CreateSessionTx(d, id, s, fakeAccount).value ==
           d.(sessions := d.sessions[id := v.(rowid := d.nextRow)], nextRow := d.nextRow + 1);
  }

  /** A session advances from starting to running to stopping to exited, and may fail or be killed until it ends. */
  predicate StatusEdge(from: SessionStatus, next: SessionStatus) {
    || (from == Starting && next == Running) || (from == Running && next == Stopping)
    || (from == Stopping && next == Exited) || (Live(from) && (next == Failed || next == Killed))
  }

  lemma EdgesAre(from: SessionStatus, next: SessionStatus)
    ensures from.Allows(next) <==> StatusEdge(from, next)
    ensures from.Terminal() <==> forall other :: !StatusEdge(from, other)
  {
    if !from.Terminal() {
      assert StatusEdge(from, Failed);
    }
  }

  /** A status is written exactly if the row that was read may move and the stored one still has its status. */
  lemma TransitionsIff(d: Db, id: ID, read: Session, from: SessionStatus, next: SessionStatus, at: Time,
                       exitCode: Option<int>, failure: Option<nat>)
    requires EndFits(read)
    ensures TransitionTx(d, id, read, from, next, at, exitCode, failure).Ok? <==>
              && read.status == from && id in d.sessions && d.sessions[id].status == from
              && StatusEdge(from, next) && at != ZERO_TIME && read.startedAt <= at
              && (failure.Some? <==> next == Failed) && (exitCode.Some? ==> !Live(next))
  {
    EdgesAre(from, next);
  }

  /** A move that the domain refuses says what the domain says; a row that has moved meanwhile is a conflict. */
  lemma TransitionRefused(d: Db, id: ID, read: Session, from: SessionStatus, next: SessionStatus, at: Time,
                          exitCode: Option<int>, failure: Option<nat>)
    requires TransitionTx(d, id, read, from, next, at, exitCode, failure).Err?
    ensures TransitionTx(d, id, read, from, next, at, exitCode, failure).code ==
              if read.status == from && Transition(read, next, at, exitCode, failure).Err?
              then Transition(read, next, at, exitCode, failure).code
              else Conflict
  {
  }

  /** It then moves just that row, which takes the time, the exit code and the failure of its end, if it ends. */
  lemma TransitionWrites(d: Db, id: ID, read: Session, from: SessionStatus, next: SessionStatus, at: Time,
                         exitCode: Option<int>, failure: Option<nat>)
    requires TransitionTx(d, id, read, from, next, at, exitCode, failure).Ok? && SessionStep(read, d.sessions[id])
    ensures var s := d.sessions[id];
            var moved := if Live(next) then s.(status := next)
                         else s.(status := next, endedAt := Some(at), exitCode := exitCode, failure := failure);
            TransitionTx(d, id, read, from, next, at, exitCode, failure).value ==
            d.(sessions := d.sessions[id := moved])
  {
    var m := Transition(read, next, at, exitCode, failure).value;
    assert TransitionTx(d, id, read, from, next, at, exitCode, failure).value ==
           d.(sessions := d.sessions[id := d.sessions[id].(status := m.status, endedAt := m.endedAt,
                                                           exitCode := m.exitCode, failure := m.failure)]);
  }

  /** The provider's thread is written once, for a Codex session that is still starting. */
  lemma ThreadOnce(d: Db, id: ID, thread: nat)
    ensures var r := SetProviderSessionTx(d, id, thread);
            && (r.Ok? <==> id in d.sessions && d.sessions[id].provider == Codex && d.sessions[id].status == Starting &&
                           d.sessions[id].providerSession.None?)
            && (r.Ok? ==> r.value == d.(sessions := d.sessions[id := d.sessions[id].(providerSession := Some(thread))]))
            && (r.Err? ==> r.code == Conflict)
  {
  }

  // ---- Start previews ----

  /** The account, profile, credential and workspace are as the selection says, and usable. */
  predicate AsShown(d: Db, x: Selection, workspaceUpdatedAt: Time) {
    && x.account in d.accounts && x.profile in d.profiles && x.credential in d.credentials
    && x.workspace in d.workspaces && d.workspaces[x.workspace] == Workspace(x.device, workspaceUpdatedAt)
    && d.accounts[x.account] == Account(Codex, true, false, x.accountRevision)
    && d.profiles[x.profile] == Profile(x.device, x.account, Codex, Some(x.credential), false, true, x.profileRevision)
    && d.credentials[x.credential].(secret := 0) ==
       Credential(x.device, Some(x.account), Codex, Healthy, x.credentialRevision, 0)
  }

  /** The usage snapshot that is shown is of the account, the device and, if it names one, the credential. */
  predicate UsageFits(d: Db, x: Selection) {
    x.usage.Some? ==>
      && x.usage.value in d.usage && d.usage[x.usage.value].account == x.account
      && d.usage[x.usage.value].device == x.device
      && (d.usage[x.usage.value].credential.Some? ==> d.usage[x.usage.value].credential.value == x.credential)
  }

  /** A preview is stored exactly if what it shows is so and its credential is sealed and open. */
  lemma PreviewsIff(d: Db, id: ID, v: Preview)
    ensures var x := v.selection;
            CreatePreviewTx(d, id, v).Ok? <==>
              && x.accountRevision >= 1 && x.profileRevision >= 1 && x.credentialRevision >= 1
              && v.workspaceUpdatedAt != ZERO_TIME && v.createdAt != ZERO_TIME && v.createdAt < v.expiresAt
              && v.consumed.None? && id !in d.previews
              && AsShown(d, x, v.workspaceUpdatedAt) && UsageFits(d, x)
              && x.credential in d.items && d.items[x.credential].revision == x.credentialRevision
              && x.credential !in d.reservations
    ensures CreatePreviewTx(d, id, v).Ok? ==> CreatePreviewTx(d, id, v).value == d.(previews := d.previews[id := v])
  {
  }

  predicate WellFormed(v: Preview) {
    && v.selection.accountRevision >= 1 && v.selection.profileRevision >= 1 && v.selection.credentialRevision >= 1
    && v.workspaceUpdatedAt != ZERO_TIME && v.createdAt != ZERO_TIME && v.createdAt < v.expiresAt && v.consumed.None?
  }

  lemma PreviewRefused(d: Db, id: ID, v: Preview)
    requires CreatePreviewTx(d, id, v).Err?
    ensures var x := v.selection;
            var shown := AsShown(d, x, v.workspaceUpdatedAt) && x.credential in d.items &&
                         d.items[x.credential].revision == x.credentialRevision;
            CreatePreviewTx(d, id, v).code ==
              if !WellFormed(v) then InvalidArgument
              else if shown && x.credential in d.reservations then PermissionDenied
              else if shown && UsageFits(d, x) then Conflict
              else ProfileBindingChanged
  {
  }

  /** The record asks for what the selection shows. */
  predicate Asks(s: Session, x: Selection) {
    && s.provider == Codex && s.account == Some(x.account) && s.profile == x.profile && s.credential == x.credential
    && s.device == x.device && s.workspace == x.workspace
  }

  /** A request in order for a stored preview of its client. */
  predicate InOrder(d: Db, q: ConsumeRequest) {
    q.at != ZERO_TIME && q.confirmed && NewSession(q.session).Ok? && q.preview in d.previews &&
    d.previews[q.preview].client == q.client
  }

  /**
   A fresh preview is spent exactly on a request in order, before its deadline, that repeats what it showed,
   while that is still so, the usage it showed is the newest, and the session's identifier is new.
   */
  lemma ConsumesIff(d: Db, q: ConsumeRequest)
    requires q.preview in d.previews && d.previews[q.preview].consumed.None?
    ensures var v := d.previews[q.preview];
            ConsumeTx(d, q).Ok? <==>
              && InOrder(d, q) && q.at < v.expiresAt && q.selection == v.selection && q.prints == v.prints
              && Asks(q.session, v.selection) && AsShown(d, v.selection, v.workspaceUpdatedAt)
              && v.selection.usage == LatestUsage(d, v.selection.account)
              && v.selection.credentialRevision >= 1 && v.selection.credential !in d.reservations
              && q.id !in d.sessions
  {
    var v := d.previews[q.preview];
    if InOrder(d, q) {
      LinksIff(d, NewSession(q.session).value);
    }
  }

  /** What is stored is the record without thread and resume link, and the mark on the preview. */
  lemma ConsumeStores(d: Db, q: ConsumeRequest)
    requires ConsumeTx(d, q).Ok? && d.previews[q.preview].consumed.None?
    ensures var (e, id) := ConsumeTx(d, q).value;
            && id == q.id && SameBut(d.sessions, e.sessions, id) && id in e.sessions && e.nextRow == d.nextRow + 1
            && e.sessions[id] == q.session.(endedAt := None, exitCode := None, failure := None, providerSession := None,
                                            resumedFrom := None, rowid := d.nextRow)
            && e.previews == d.previews[q.preview :=
                               d.previews[q.preview].(consumed := Some(Consumption(q.at, q.digest, q.id)))]
            && e.(sessions := d.sessions, previews := d.previews, nextRow := d.nextRow) == d
  {
    var s := NewSession(q.session).value.(providerSession := None, resumedFrom := None, rowid := d.nextRow);
    var v := d.previews[q.preview].(consumed := Some(Consumption(q.at, q.digest, q.id)));
    assert ConsumeTx(d, q).value.0 == d.(sessions := d.sessions[q.id := s], nextRow := d.nextRow + 1,
                                         previews := d.previews[q.preview := v]);
  }

  /** A refusal of a fresh preview tells a late request from one that is not the client's, and from a stale one. */
  lemma ConsumeRefused(d: Db, q: ConsumeRequest)
    requires ConsumeTx(d, q).Err? && q.preview in d.previews && d.previews[q.preview].consumed.None?
    ensures var v, code := d.previews[q.preview], ConsumeTx(d, q).code;
            && (code == IdentityConfirmationRequired <==> q.at == ZERO_TIME || !q.confirmed)
            && (InOrder(d, q) ==> (code == ConfirmationExpired <==> v.expiresAt <= q.at))
            && (q.at != ZERO_TIME && q.confirmed && NewSession(q.session).Ok? && q.client != v.client ==>
                  code == PermissionDenied)
  {
    if InOrder(d, q) && LinkRefusal(d, NewSession(q.session).value).Some? {
      LinkRefused(d, NewSession(q.session).value);
    }
  }

  /** The request repeats what the preview showed, and the rows it showed are still so, but for the workspace. */
  predicate StillShown(d: Db, v: Preview, q: ConsumeRequest) {
    && q.selection == v.selection && q.prints == v.prints && Asks(q.session, v.selection)
    && v.selection.usage == LatestUsage(d, v.selection.account)
    && var x := v.selection;
       && x.account in d.accounts && x.profile in d.profiles && x.credential in d.credentials
       && d.accounts[x.account] == Account(Codex, true, false, x.accountRevision)
       && d.profiles[x.profile] ==
          Profile(x.device, x.account, Codex, Some(x.credential), false, true, x.profileRevision)
       && d.credentials[x.credential].(secret := 0) ==
          Credential(x.device, Some(x.account), Codex, Healthy, x.credentialRevision, 0)
  }

  /** A stale preview and an edited workspace are a changed binding, a reserved credential is denied. */
  lemma ConsumeStale(d: Db, q: ConsumeRequest)
    requires ConsumeTx(d, q).Err? && InOrder(d, q) && d.previews[q.preview].consumed.None?
    requires q.at < d.previews[q.preview].expiresAt
    ensures var v, code := d.previews[q.preview], ConsumeTx(d, q).code;
            && (!StillShown(d, v, q) ==> code == ProfileBindingChanged)
            && (StillShown(d, v, q) && v.selection.credentialRevision >= 1 ==>
                  var w := v.selection.workspace;
                  code == if v.selection.credential in d.reservations then PermissionDenied
                          else if w !in d.workspaces then NotFound
                          else if d.workspaces[w].device != v.selection.device then Conflict
                          else if d.workspaces[w].updatedAt != v.workspaceUpdatedAt then ProfileBindingChanged
                          else Conflict)
  {
  }

  /** A usage snapshot is taken exactly if the credential it names, if any, is known; it is then the newest. */
  lemma UsageIff(d: Db, id: ID, usage: Usage)
    ensures var r := RowTx(d, RecordUsage(id, usage));
            && (r.Ok? <==> usage.credential.Some? ==> usage.credential.value in d.credentials)
            && (r.Ok? ==>
                  && r.value.usage == d.usage[id := usage] && LatestUsage(r.value, usage.account) == Some(id)
                  && (forall a | a != usage.account :: LatestUsage(r.value, a) == LatestUsage(d, a))
                  && r.value.(usage := d.usage, latestUsage := d.latestUsage) == d)
            && (r.Err? ==> r.code == Conflict)
  {
  }

  /** A newer usage snapshot of the account makes every preview that showed another one stale. */
  lemma UsageSupersedes(d: Db, id: ID, usage: Usage, q: ConsumeRequest)
    requires q.preview in d.previews && d.previews[q.preview].consumed.None?
    requires d.previews[q.preview].selection.account == usage.account
    requires d.previews[q.preview].selection.usage != Some(id) && RowTx(d, RecordUsage(id, usage)).Ok?
    ensures ConsumeTx(RowTx(d, RecordUsage(id, usage)).value, q).Err?
  {
    ConsumesIff(RowTx(d, RecordUsage(id, usage)).value, q);
  }

  // ---- Enrollments ----

  /** No enrollment of the profile is open, and the client has not used the begin digest before. */
  predicate Unopened(d: Db, e: Enrollment) {
    && (forall x | x in d.enrollments :: d.enrollments[x].profile == e.profile ==> !d.enrollments[x].state.Open())
    && (forall x | x in d.enrollments :: d.enrollments[x].client == e.client ==> d.enrollments[x].begin != e.begin)
  }

  /** What the enrollment is for: a new placeholder of a known account, or the stored credential of its profile. */
  predicate Enrolls(d: Db, e: Enrollment, placeholder: Option<Credential>)
    requires e.credential.Some?
  {
    var c := e.credential.value;
    if placeholder.Some? then
      && placeholder.value.provider == Codex && placeholder.value.revision == 1 && c !in d.credentials
      && placeholder.value.account.Some? && placeholder.value.account.value in d.accounts
    else
      && c in d.credentials && e.profile in d.profiles && d.credentials[c].provider == Codex
      && d.credentials[c].device == d.profiles[e.profile].device
      && d.credentials[c].account == Some(d.profiles[e.profile].account)
  }

  predicate Blank(e: Enrollment) {
    e.state == Begun && e.credential.Some? && e.expiresAt != ZERO_TIME && e.completion.None? &&
    e.confirmation.None? && e.attested.None?
  }

  /** An enrollment is opened exactly if it is blank, for a known profile, and the only open one of it. */
  lemma BeginsIff(d: Db, id: ID, e: Enrollment, placeholder: Option<Credential>)
    ensures BeginTx(d, id, e, placeholder).Ok? <==>
              Blank(e) && Enrolls(d, e, placeholder) && Unopened(d, e) && id !in d.enrollments &&
              e.profile in d.profiles
    ensures !Blank(e) ==> BeginTx(d, id, e, placeholder) == Err(InvalidArgument)
    ensures BeginTx(d, id, e, placeholder).Err? && BeginTx(d, id, e, placeholder).code != InvalidArgument ==>
              BeginTx(d, id, e, placeholder) == Err(Conflict)
  {
  }

  /** It adds the enrollment and its placeholder, and nothing else. */
  lemma BeginAdds(d: Db, id: ID, e: Enrollment, placeholder: Option<Credential>)
    requires BeginTx(d, id, e, placeholder).Ok?
    ensures var f := BeginTx(d, id, e, placeholder).value;
            && SameBut(d.enrollments, f.enrollments, id) && id in f.enrollments && f.enrollments[id] == e
            && (if placeholder.Some?
                then SameBut(d.credentials, f.credentials, e.credential.value) &&
                     e.credential.value in f.credentials && f.credentials[e.credential.value] == placeholder.value
                else f.credentials == d.credentials)
            && f.(enrollments := d.enrollments, credentials := d.credentials) == d
  {
    var c := e.credential.value;
    assert BeginTx(d, id, e, placeholder).value ==
           d.(enrollments := d.enrollments[id := e],
              credentials := if placeholder.Some? then d.credentials[c := placeholder.value] else d.credentials);
  }

  /** Of the enrollment's client, in this state. */
  predicate At(d: Db, id: ID, client: ID, state: EnrollmentState) {
    id in d.enrollments && d.enrollments[id].client == client && d.enrollments[id].state == state
  }

  /** The three steps before the seal: each from one state, by the client, in time, leaving just what it records. */
  lemma StepsIff(d: Db, id: ID, client: ID, completion: Digest, k: Confirmation, alias: Digest, at: Time, live: bool)
    ensures ClaimTx(d, id, client, completion, live).Ok? <==> live && At(d, id, client, Begun)
    ensures AwaitTx(d, id, client, k, live).Ok? <==>
              && live && At(d, id, client, Validating) && d.enrollments[id].profile == k.profile
              && d.enrollments[id].credential == Some(k.credential) && k.account in d.accounts
              && k.accountRevision >= 1 && k.profileRevision >= 1 && k.credentialRevision >= 1
    ensures ConfirmTx(d, id, client, alias, at, live).Ok? <==>
              && live && At(d, id, client, Awaiting) && d.enrollments[id].attested.None?
              && d.enrollments[id].confirmation.Some? && d.enrollments[id].confirmation.value.alias == alias
    ensures ClaimTx(d, id, client, completion, live).Err? ==> ClaimTx(d, id, client, completion, live).code == Conflict
    ensures AwaitTx(d, id, client, k, live).Err? ==>
              AwaitTx(d, id, client, k, live).code ==
                if k.accountRevision >= 1 && k.profileRevision >= 1 && k.credentialRevision >= 1 then Conflict
                else InvalidArgument
    ensures ConfirmTx(d, id, client, alias, at, live).Err? ==>
              ConfirmTx(d, id, client, alias, at, live).code == Conflict
  {
  }

  lemma StepsWrite(d: Db, id: ID, client: ID, completion: Digest, k: Confirmation, alias: Digest, at: Time, live: bool)
    ensures var r := ClaimTx(d, id, client, completion, live);
            r.Ok? ==> r.value == d.(enrollments := d.enrollments[id :=
                                      d.enrollments[id].(state := Validating, completion := Some(completion))])
    ensures var r := AwaitTx(d, id, client, k, live);
            r.Ok? ==> r.value == d.(enrollments := d.enrollments[id :=
                                      d.enrollments[id].(state := Awaiting, confirmation := Some(k))])
    ensures var r := ConfirmTx(d, id, client, alias, at, live);
            r.Ok? ==> r.value == d.(enrollments := d.enrollments[id :=
                                      d.enrollments[id].(attested := Some(Attestation(client, at)))])
  {
  }

  /** A foreign key on the credential other than the enrollment's own first column. */
  ghost predicate NamedElsewhere(d: Db, c: ID, x: ID) {
    || c in d.items
    || (exists s | s in d.sessions :: d.sessions[s].credential == c)
    || (exists p | p in d.profiles :: d.profiles[p].credential == Some(c))
    || (exists v | v in d.previews :: d.previews[v].selection.credential == c)
    || (exists u | u in d.usage :: d.usage[u].credential == Some(c))
    || (exists y | y in d.enrollments :: y != x && d.enrollments[y].credential == Some(c))
    || (exists y | y in d.enrollments ::
          d.enrollments[y].confirmation.Some? && d.enrollments[y].confirmation.value.credential == c)
  }

  /** A credential row that a begin made and no seal has touched. */
  predicate Unsealed(d: Db, c: ID) {
    c in d.credentials && d.credentials[c].provider == Codex && d.credentials[c].status == Unknown &&
    d.credentials[c].revision == 1
  }

  lemma ReferencedIs(d: Db, x: ID, e: Enrollment, c: ID)
    requires x in d.enrollments && e.credential.None? && e.confirmation == d.enrollments[x].confirmation
    ensures Referenced(d.(enrollments := d.enrollments[x := e]), c) <==> NamedElsewhere(d, c, x)
  {
    var f := d.(enrollments := d.enrollments[x := e]);
    if y :| y in f.enrollments && Names(f.enrollments[y], c) {
      assert y != x ==> f.enrollments[y] == d.enrollments[y];
    }
    if y :| y in d.enrollments && y != x && d.enrollments[y].credential == Some(c) {
      assert Names(f.enrollments[y], c);
    }
    if y :| y in d.enrollments && d.enrollments[y].confirmation.Some? &&
            d.enrollments[y].confirmation.value.credential == c {
      assert Names(f.enrollments[y], c);
    }
  }

  /** An enrollment is ended by its client exactly while it is open; ending it again the same way is no error. */
  lemma FinishesIff(d: Db, id: ID, client: ID, state: EnrollmentState, at: Time)
    ensures FinishTx(d, id, client, state, at).Ok? <==>
              && at != ZERO_TIME && (state == Cancelled || state == Lapsed || state == Abandoned)
              && id in d.enrollments && d.enrollments[id].client == client && d.enrollments[id].credential.Some?
              && (d.enrollments[id].state.Open() || d.enrollments[id].state == state)
    ensures FinishTx(d, id, client, state, at).Err? ==>
              FinishTx(d, id, client, state, at).code ==
                if at == ZERO_TIME || state.Open() || state == Succeeded then InvalidArgument
                else if id !in d.enrollments || d.enrollments[id].client != client ||
                        d.enrollments[id].credential.None? then NotFound
                else Conflict
  {
  }

  /** The placeholder that goes with the enrollment: an unsealed row that nothing else names. */
  ghost function Orphan(d: Db, c: ID, x: ID): set<ID> {
    if Unsealed(d, c) && !NamedElsewhere(d, c, x) then {c} else {}
  }

  lemma DiscardsOrphan(d: Db, x: ID, e: Enrollment, c: ID)
    requires x in d.enrollments && e.credential.None? && e.confirmation == d.enrollments[x].confirmation
    ensures var freed := d.(enrollments := d.enrollments[x := e]);
            Discard(freed, c) == freed.(credentials := d.credentials - Orphan(d, c, x),
                                        reservations := d.reservations - Orphan(d, c, x))
  {
    ReferencedIs(d, x, e, c);
    assert d.credentials - {} == d.credentials && d.reservations - {} == d.reservations;
  }

  /** It lets go of an unsealed credential, and the row of that goes exactly if nothing else names it. */
  lemma FinishLetsGo(d: Db, id: ID, client: ID, state: EnrollmentState, at: Time)
    requires FinishTx(d, id, client, state, at).Ok? && d.enrollments[id].state.Open()
    ensures var c := d.enrollments[id].credential.value;
            var e := d.enrollments[id].(state := state, credential := if c in d.items then Some(c) else None);
            FinishTx(d, id, client, state, at).value ==
              d.(enrollments := d.enrollments[id := e], credentials := d.credentials - Orphan(d, c, id),
                 reservations := d.reservations - Orphan(d, c, id))
  {
    var c := d.enrollments[id].credential.value;
    if c in d.items {
      assert d.credentials - {} == d.credentials && d.reservations - {} == d.reservations;
      assert d.enrollments[id].(state := state, credential := Some(c)) == d.enrollments[id].(state := state);
    } else {
      DiscardsOrphan(d, id, d.enrollments[id].(state := state, credential := None), c);
    }
  }

  lemma FinishAgain(d: Db, id: ID, client: ID, state: EnrollmentState, at: Time)
    requires FinishTx(d, id, client, state, at).Ok? && !d.enrollments[id].state.Open()
    ensures FinishTx(d, id, client, state, at).value == d
  {
  }

  /** An unsealed row that an open enrollment was to seal. */
  ghost predicate Provisional(d: Db, c: ID) {
    Unsealed(d, c) && c !in d.items &&
    exists x | x in d.enrollments :: d.enrollments[x].state.Open() && d.enrollments[x].credential == Some(c)
  }

  /** After a restart's expiry no enrollment is open, each open one lapsed, and just their placeholders are gone. */
  lemma ExpiryLeaves(d: Db, at: Time)
    requires Inv(d) && ExpireAllTx(d, at).Ok?
    ensures var f := ExpireAllTx(d, at).value;
            && f.enrollments.Keys == d.enrollments.Keys
            && (forall x | x in d.enrollments ::
                  if d.enrollments[x].state.Open() then
                    f.enrollments[x] == d.enrollments[x].(
                      state := Lapsed,
                      credential := if d.enrollments[x].credential.value in d.items then d.enrollments[x].credential
                                    else None)
                  else f.enrollments[x] == d.enrollments[x])
            && (forall c :: c in f.credentials <==> c in d.credentials && !Provisional(d, c))
            && (forall c | c in f.credentials :: f.credentials[c] == d.credentials[c])
            && f.(enrollments := d.enrollments, credentials := d.credentials, reservations := d.reservations) == d
  {
    var f := ExpireAllTx(d, at).value;
    assert f.credentials == d.credentials - Doomed(d);
    forall x | x in d.enrollments ensures f.enrollments[x] == Lapse(d.enrollments[x], d.items) {
      assert Shaped(d.enrollments[x]);
    }
    forall c ensures c in Doomed(d) <==> Provisional(d, c) {
      DoomedIs(d, c);
    }
  }

  lemma ExpiryRefused(d: Db, at: Time)
    ensures ExpireAllTx(d, at) == Err(InvalidArgument) <==> at == ZERO_TIME
    ensures ExpireAllTx(d, at).Err? && at != ZERO_TIME ==> ExpireAllTx(d, at) == Err(Conflict)
  {
  }

  lemma DoomedIs(d: Db, c: ID)
    ensures c in Doomed(d) <==> Provisional(d, c)
  {
    if x :| x in d.enrollments && d.enrollments[x].state.Open() && d.enrollments[x].credential == Some(c) {
      assert Unsealed(d, c) && c !in d.items ==> Pending(d, x);
    }
  }

  // ---- Rows that other commands own ----

  /** A credential is made outside an enrollment for a fake session, or for an enabled Codex account. */
  lemma CredentialsIff(d: Db, id: ID, c: Credential)
    ensures var r := CreateCredentialTx(d, id, c);
            && (r.Ok? <==>
                  && id !in d.credentials
                  && (c.provider == Fake ==> c.account.None? && c.revision >= 0)
                  && (c.provider == Codex ==>
                        && c.revision >= 1 && c.account.Some? && c.account.value in d.accounts
                        && d.accounts[c.account.value].provider == Codex && d.accounts[c.account.value].enabled)
                  && c.provider != Claude)
            && (r.Ok? ==> r.value == d.(credentials := d.credentials[id := c]))
            && (r.Ok? || r.code != InvalidArgument ==>
                  c.provider != Claude && (c.provider == Codex <==> c.account.Some?))
            && (r == Err(Conflict) && id !in d.credentials ==>
                  c.account.Some? && c.account.value in d.accounts && d.accounts[c.account.value].provider != Codex)
            && (r == Err(NotFound) ==> c.account.Some? && c.account.value !in d.accounts)
            && (r == Err(PermissionDenied) ==>
                  c.account.Some? && c.account.value in d.accounts && !d.accounts[c.account.value].enabled)
            && (r.Err? ==> r.code in {InvalidArgument, NotFound, Conflict, PermissionDenied})
  {
  }

  /** A profile edit leaves the binding and the kind of profile as they were; a new profile is unbound. */
  lemma ProfileEdit(d: Db, id: ID, p: Profile)
    ensures var r := PutProfileTx(d, id, p);
            && (r.Ok? ==>
                  && SameBut(d.profiles, r.value.profiles, id) && id in r.value.profiles
                  && r.value.(profiles := d.profiles) == d
                  && var q := r.value.profiles[id];
                     && q.(credential := p.credential, internal := p.internal) == p
                     && q.credential == (if id in d.profiles then d.profiles[id].credential else None)
                     && q.internal == (if id in d.profiles then d.profiles[id].internal else p.internal))
            && (r.Ok? <==>
                  ((if id in d.profiles then d.profiles[id].internal else p.internal) <==> p.provider == Fake))
            && (r.Err? ==> r.code == Conflict)
  {
  }

  /** A profile goes exactly if no session, preview or enrollment names it. */
  ghost predicate ProfileNamed(d: Db, p: ID) {
    || (exists s | s in d.sessions :: d.sessions[s].profile == p)
    || (exists v | v in d.previews :: d.previews[v].selection.profile == p)
    || (exists x | x in d.enrollments :: d.enrollments[x].profile == p)
    || (exists x | x in d.enrollments ::
          d.enrollments[x].confirmation.Some? && d.enrollments[x].confirmation.value.profile == p)
  }

  lemma ProfileNamedIs(d: Db, p: ID)
    ensures ProfileInUse(d, p) <==> ProfileNamed(d, p)
  {
  }

  lemma DropsProfileIff(d: Db, id: ID)
    ensures DropProfileTx(d, id).Ok? <==> id in d.profiles && !ProfileNamed(d, id)
    ensures DropProfileTx(d, id).Ok? ==> DropProfileTx(d, id).value == d.(profiles := d.profiles - {id})
    ensures DropProfileTx(d, id).Err? ==> DropProfileTx(d, id).code == if id in d.profiles then Conflict else NotFound
  {
    ProfileNamedIs(d, id);
  }

  /** An account goes exactly if it is disabled, public, at the expected revision, and nothing refers to it. */
  lemma DropsAccountIff(d: Db, id: ID, expected: int, at: Time)
    ensures DropAccountTx(d, id, expected, at).Ok? <==>
              && at != ZERO_TIME && expected >= 1 && id in d.accounts
              && !d.accounts[id].internal && !d.accounts[id].enabled && d.accounts[id].revision == expected
              && (forall s | s in d.sessions :: d.sessions[s].account != Some(id))
              && (forall c | c in d.credentials :: d.credentials[c].account != Some(id))
              && (forall i | i in d.items :: d.items[i].account != id)
              && (forall v | v in d.previews :: d.previews[v].selection.account != id)
              && (forall v | v in d.previews && d.previews[v].selection.usage.Some? ::
                    d.previews[v].selection.usage.value in d.usage ==>
                      d.usage[d.previews[v].selection.usage.value].account != id)
              && (forall x | x in d.enrollments && d.enrollments[x].confirmation.Some? ::
                    d.enrollments[x].confirmation.value.account != id)
              && (forall p | p in d.profiles && d.profiles[p].account == id ::
                    !d.profiles[p].internal && !ProfileNamed(d, p))
  {
    forall p | p in d.profiles ensures ProfileInUse(d, p) <==> ProfileNamed(d, p) {
      ProfileNamedIs(d, p);
    }
  }

  lemma DropAccountRefused(d: Db, id: ID, expected: int, at: Time)
    requires DropAccountTx(d, id, expected, at).Err?
    ensures DropAccountTx(d, id, expected, at).code ==
              if expected < 1 || at == ZERO_TIME then InvalidArgument
              else if id !in d.accounts then NotFound
              else if d.accounts[id].internal then PermissionDenied
              else if d.accounts[id].revision != expected then SyncConflict
              else if d.accounts[id].enabled then Conflict
              else if exists s | s in d.sessions :: d.sessions[s].account == Some(id) then ActiveSessions
              else if exists c | c in d.credentials :: d.credentials[c].account == Some(id) then ProviderCleanupRequired
              else Conflict
  {
  }

  /** It takes its profiles and its usage with it, and nothing else. */
  lemma DropAccountTakes(d: Db, id: ID, expected: int, at: Time)
    requires DropAccountTx(d, id, expected, at).Ok?
    ensures var e := DropAccountTx(d, id, expected, at).value;
            && e.accounts == d.accounts - {id} && e.latestUsage == d.latestUsage - {id}
            && (forall p :: p in e.profiles <==> p in d.profiles && d.profiles[p].account != id)
            && (forall p | p in e.profiles :: e.profiles[p] == d.profiles[p])
            && (forall u :: u in e.usage <==> u in d.usage && d.usage[u].account != id)
            && (forall u | u in e.usage :: e.usage[u] == d.usage[u])
            && e.(accounts := d.accounts, latestUsage := d.latestUsage, profiles := d.profiles, usage := d.usage) == d
  {
  }
}

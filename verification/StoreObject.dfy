/**
 The store as the program has it: tables that a transaction's statements change one after another, and
 a rollback that undoes the statements before the one that failed. Each method is proved to commit
 exactly what its transaction function says, or to leave the tables as they were.
 */
module StoreObject {
  import opened Base
  import opened SessionDomain
  import opened StoreModel
  import opened StoreInvariants
  import opened StoreTheorems

  /** The transaction took the tables from `before` to `after` and reported `failure`, as `tx` says. */
  ghost predicate Does(tx: Outcome<Db>, before: Db, after: Db, failure: Option<Code>) {
    match tx
    case Ok(d) => failure.None? && after == d
    case Err(code) => failure == Some(code) && after == before
  }

  /** What a transaction that keeps the invariants leaves, whether it commits or not. */
  lemma StillGood(tx: Outcome<Db>, before: Db, after: Db, failure: Option<Code>)
    requires Inv(before) && Good(before, tx) && Does(tx, before, after, failure)
    ensures Inv(after)
  {
  }

  class Store {
    var accounts: map<ID, Account>
    var profiles: map<ID, Profile>
    var workspaces: map<ID, Workspace>
    var usage: map<ID, Usage>
    var latestUsage: map<ID, ID>
    var credentials: map<ID, Credential>
    var items: map<ID, VaultItem>
    var reservations: map<ID, Time>
    var enrollments: map<ID, Enrollment>
    var previews: map<ID, Preview>
    var sessions: map<ID, Session>
    var nextRow: nat

    function Snapshot(): Db
      reads this
    {
      Db(accounts, profiles, workspaces, usage, latestUsage, credentials, items, reservations, enrollments, previews,
         sessions, nextRow)
    }

    constructor ()
      ensures Snapshot() == EMPTY_DB
    {
      accounts, profiles, workspaces, usage, latestUsage := map[], map[], map[], map[], map[];
      credentials, items, reservations, enrollments, previews := map[], map[], map[], map[], map[];
      sessions, nextRow := map[], 0;
    }

    /** Seals new encrypted bytes. The owner's enrollment is looked at only after the rows were written. */
    method Seal(id: ID, expected: int, item: VaultItem, owner: Option<SealOwner>) returns (failure: Option<Code>)
      modifies this`items, this`credentials, this`profiles, this`enrollments
      ensures Does(SealTx(old(Snapshot()), id, expected, item, owner), old(Snapshot()), Snapshot(), failure)
    {
      if item.revision < 1 { return Some(InvalidArgument); }
      if id !in credentials || credentials[id].account.None? { return Some(NotFound); }
      var c := credentials[id];
      if c.revision != expected || c.account.value != item.account || c.device != item.device || c.provider != Codex ||
         item.revision != expected + 1 { return Some(CredentialRevisionConflict); }
      if c.status == Revoked || c.status == Expired { return Some(CredentialRevisionConflict); }
      if id in reservations { return Some(CredentialRevisionConflict); }
      var itemsBefore, credentialsBefore := items, credentials;
      items := Upsert(items, id, item);
      credentials := credentials[id := c.(revision := item.revision, secret := item.secret, status := Healthy)];
      if owner.None? { return None; }
      failure := Complete(owner.value, id, item);
      if failure.Some? { items, credentials := itemsBefore, credentialsBefore; }
    }

    /** Binds the profile of an attested enrollment and marks the enrollment succeeded. */
    method Complete(owner: SealOwner, id: ID, item: VaultItem) returns (failure: Option<Code>)
      modifies this`profiles, this`enrollments
      ensures failure == if !Completes(old(Snapshot()), owner, id) then Some(IdentityConfirmationRequired)
                         else if !Bindable(old(Snapshot()), old(enrollments)[owner.enrollment].profile, id, item)
                         then Some(ProfileBindingChanged) else None
      ensures failure.None? ==>
                var e := old(enrollments)[owner.enrollment];
                && profiles == old(profiles)[e.profile := Bind(old(profiles)[e.profile], id)]
                && enrollments == old(enrollments)[owner.enrollment := e.(state := Succeeded)]
      ensures failure.Some? ==> profiles == old(profiles) && enrollments == old(enrollments)
    {
      if owner.enrollment !in enrollments { return Some(IdentityConfirmationRequired); }
      var e := enrollments[owner.enrollment];
      if e.client != owner.client || e.credential != Some(id) || e.state != Awaiting || e.attested.None? ||
         e.attested.value.client != owner.client || e.completion != Some(owner.completion) {
        return Some(IdentityConfirmationRequired);
      }
      if e.profile !in profiles { return Some(ProfileBindingChanged); }
      var p := profiles[e.profile];
      if p.account != item.account || p.device != item.device || p.provider != Codex ||
         !(p.credential.None? || p.credential == Some(id)) { return Some(ProfileBindingChanged); }
      profiles := profiles[e.profile := p.(credential := Some(id),
                                           revision := if p.credential.None? then p.revision + 1 else p.revision)];
      enrollments := enrollments[owner.enrollment := e.(state := Succeeded)];
      return None;
    }

    method Reserve(id: ID, at: Time) returns (failure: Option<Code>)
      modifies this`reservations
      ensures Does(ReserveTx(old(Snapshot()), id, at), old(Snapshot()), Snapshot(), failure)
      ensures failure.None? ==> Withdrawn(credentials, reservations, id)
      ensures old(Inv(Snapshot())) ==> Inv(Snapshot())
    {
      if Inv(Snapshot()) { ReserveKeeps(Snapshot(), id, at); }
      if at == ZERO_TIME { return Some(InvalidArgument); }
      if id !in credentials { return Some(NotFound); }
      if credentials[id].provider != Codex { return Some(Conflict); }
      if credentials[id].status == Revoked { return None; }
      if InUse(sessions, id) { return Some(Conflict); }
      if id !in reservations { reservations := reservations[id := at]; }
      return None;
    }

    method Finalize(id: ID, at: Time) returns (failure: Option<Code>)
      modifies this`items, this`profiles, this`credentials, this`reservations
      ensures Does(FinalizeTx(old(Snapshot()), id, at), old(Snapshot()), Snapshot(), failure)
      ensures old(Coherent(items, credentials)) ==> Coherent(items, credentials)
      ensures old(Coherent(items, credentials)) && failure.None? ==>
                && id in credentials && credentials[id].status == Revoked && id !in items && id !in reservations
                && forall p | p in profiles && profiles[p].credential == Some(id) :: profiles[p].internal
    {
      if at == ZERO_TIME { return Some(InvalidArgument); }
      if id !in credentials { return Some(NotFound); }
      if credentials[id].provider != Codex { return Some(Conflict); }
      if credentials[id].status == Revoked {
        profiles := Unbind(profiles, id);
        reservations := reservations - {id};
        return None;
      }
      if id !in reservations { return Some(Conflict); }
      if InUse(sessions, id) { return Some(Conflict); }
      items := items - {id};
      profiles := Unbind(profiles, id);
      credentials := credentials[id := credentials[id].(status := Revoked, secret := ZERO_DIGEST)];
      reservations := reservations - {id};
      return None;
    }

    /** A session that starts afresh or continues an ended one. */
    method CreateSession(id: ID, s: Session, fakeAccount: Option<ID>) returns (failure: Option<Code>)
      modifies this`sessions, this`nextRow
      ensures Does(CreateSessionTx(old(Snapshot()), id, s, fakeAccount), old(Snapshot()), Snapshot(), failure)
      ensures old(Inv(Snapshot())) ==> Inv(Snapshot())
    {
      ghost var before := Snapshot();
      failure := AddSession(id, s, fakeAccount);
      if Inv(before) {
        CreateSessionKeeps(before, id, s, fakeAccount);
        StillGood(CreateSessionTx(before, id, s, fakeAccount), before, Snapshot(), failure);
      }
    }

    /** Its statements, one by one. */
    method AddSession(id: ID, s: Session, fakeAccount: Option<ID>) returns (failure: Option<Code>)
      modifies this`sessions, this`nextRow
      ensures Does(CreateSessionTx(old(Snapshot()), id, s, fakeAccount), old(Snapshot()), Snapshot(), failure)
    {
      var named := s;
      if s.provider == Fake && s.account.None? { named := s.(account := fakeAccount); }
      var validated := NewSession(named);
      if validated.Err? { return Some(validated.code); }
      failure := LinkRefusal(Snapshot(), validated.value);
      if failure.Some? { return; }
      failure := ResumeRefusal(Snapshot(), validated.value);
      if failure.Some? { return; }
      if id in sessions || named.provider == Claude { return Some(Conflict); }
      sessions := sessions[id := validated.value.(rowid := nextRow)];
      nextRow := nextRow + 1;
    }

    /** The read half of a transition: it stands outside the transaction that writes. */
    method ReadSession(id: ID) returns (r: Outcome<Session>)
      ensures r == if id in sessions then Ok(sessions[id]) else Err(NotFound)
    {
      if id !in sessions { return Err(NotFound); }
      return Ok(sessions[id]);
    }

    /** The write half: compare the status that is stored now, and swap. */
    method WriteTransition(id: ID, read: Session, expected: SessionStatus, next: SessionStatus, at: Time,
                           exitCode: Option<int>, failureCode: Option<nat>) returns (failure: Option<Code>)
      modifies this`sessions
      ensures Does(TransitionTx(old(Snapshot()), id, read, expected, next, at, exitCode, failureCode), old(Snapshot()),
                   Snapshot(), failure)
      ensures old(Ended(sessions)) && (id in old(sessions) ==> SessionStep(read, old(sessions)[id])) ==>
                Ended(sessions) && SessionsEvolve(old(sessions), sessions)
    {
      if read.status != expected { return Some(Conflict); }
      var moved := Transition(read, next, at, exitCode, failureCode);
      if moved.Err? { return Some(moved.code); }
      if id !in sessions || sessions[id].status != expected { return Some(Conflict); }
      if next != Failed && moved.value.failure.Some? { return Some(Conflict); }
      if Ended(sessions) && SessionStep(read, sessions[id]) {
        MovesRow(sessions, id, read, next, at, exitCode, failureCode);
      }
      sessions := sessions[id := sessions[id].(status := moved.value.status, endedAt := moved.value.endedAt,
                                               exitCode := moved.value.exitCode, failure := moved.value.failure)];
      return None;
    }

    /** Spends a preview, or answers its replay. */
    method ConsumePreview(q: ConsumeRequest) returns (r: Outcome<ID>)
      modifies this`sessions, this`nextRow, this`previews
      ensures match ConsumeTx(old(Snapshot()), q)
              case Ok(done) => r == Ok(done.1) && Snapshot() == done.0
              case Err(code) => r == Err(code) && Snapshot() == old(Snapshot())
      ensures old(Spent(previews, sessions)) ==> Spent(previews, sessions)
      ensures SessionsEvolve(old(sessions), sessions) && PreviewsEvolve(old(previews), previews)
    {
      if q.at == ZERO_TIME || !q.confirmed { return Err(IdentityConfirmationRequired); }
      var validated := NewSession(q.session);
      if validated.Err? { return Err(validated.code); }
      if q.preview !in previews { return Err(IdentityConfirmationRequired); }
      var v := previews[q.preview];
      if v.client != q.client { return Err(PermissionDenied); }
      if v.consumed.Some? {
        if v.consumed.value.digest == q.digest { return Ok(v.consumed.value.session); }
        return Err(Conflict);
      }
      var refusal := PreviewRefusal(Snapshot(), v, q, validated.value);
      if refusal.Some? { return Err(refusal.value); }
      if q.id in sessions || validated.value.provider == Claude { return Err(Conflict); }
      Spend(q, v, validated.value.(providerSession := None, resumedFrom := None));
      return Ok(q.id);
    }

    /** The two writes of a consumption: the new session and the mark on the preview. */
    method Spend(q: ConsumeRequest, v: Preview, s: Session)
      requires q.preview in previews && v == previews[q.preview] && v.consumed.None? && q.id !in sessions
      requires Matches(s, v.selection)
      modifies this`sessions, this`nextRow, this`previews
      ensures sessions == old(sessions)[q.id := s.(rowid := old(nextRow))] && nextRow == old(nextRow) + 1
      ensures previews == old(previews)[q.preview := v.(consumed := Some(Consumption(q.at, q.digest, q.id)))]
      ensures old(Spent(previews, sessions)) ==> Spent(previews, sessions)
      ensures SessionsEvolve(old(sessions), sessions) && PreviewsEvolve(old(previews), previews)
    {
      SpendsRow(previews, sessions, q, v, s.(rowid := nextRow));
      sessions := sessions[q.id := s.(rowid := nextRow)];
      nextRow := nextRow + 1;
      previews := previews[q.preview := v.(consumed := Some(Consumption(q.at, q.digest, q.id)))];
    }

    /** Opens an enrollment, for a stored credential or with a placeholder for a new one. */
    method BeginEnrollment(id: ID, e: Enrollment, placeholder: Option<Credential>) returns (failure: Option<Code>)
      modifies this`credentials, this`enrollments
      ensures Does(BeginTx(old(Snapshot()), id, e, placeholder), old(Snapshot()), Snapshot(), failure)
      ensures old(Inv(Snapshot())) ==> Inv(Snapshot())
    {
      ghost var before := Snapshot();
      failure := OpenEnrollment(id, e, placeholder);
      if Inv(before) {
        BeginKeeps(before, id, e, placeholder);
        StillGood(BeginTx(before, id, e, placeholder), before, Snapshot(), failure);
      }
    }

    /** The placeholder is inserted first and taken back when the enrollment is refused. */
    method OpenEnrollment(id: ID, e: Enrollment, placeholder: Option<Credential>) returns (failure: Option<Code>)
      modifies this`credentials, this`enrollments
      ensures Does(BeginTx(old(Snapshot()), id, e, placeholder), old(Snapshot()), Snapshot(), failure)
    {
      if e.state != Begun || e.credential.None? || e.expiresAt == ZERO_TIME || e.completion.Some? ||
         e.confirmation.Some? || e.attested.Some? { return Some(InvalidArgument); }
      var c, credentialsBefore := e.credential.value, credentials;
      if placeholder.Some? {
        if placeholder.value.provider != Codex || placeholder.value.account.None? || placeholder.value.revision != 1 {
          return Some(InvalidArgument);
        }
        if c in credentials || placeholder.value.account.value !in accounts { return Some(Conflict); }
        credentials := credentials[c := placeholder.value];
      } else if !(c in credentials && credentials[c].provider == Codex && e.profile in profiles &&
                  profiles[e.profile].device == credentials[c].device &&
                  Some(profiles[e.profile].account) == credentials[c].account) {
        return Some(Conflict);
      }
      if id in enrollments || e.profile !in profiles ||
         (exists x | x in enrollments :: enrollments[x].profile == e.profile && enrollments[x].state.Open()) ||
         (exists x | x in enrollments :: enrollments[x].client == e.client && enrollments[x].begin == e.begin) {
        credentials := credentialsBefore;
        return Some(Conflict);
      }
      enrollments := enrollments[id := e];
      return None;
    }

    /** Ends an enrollment. The placeholder goes if nothing else names it; if something does, it stays. */
    method FinishEnrollment(id: ID, client: ID, state: EnrollmentState, at: Time) returns (failure: Option<Code>)
      modifies this`enrollments, this`credentials, this`reservations
      ensures Does(FinishTx(old(Snapshot()), id, client, state, at), old(Snapshot()), Snapshot(), failure)
      ensures old(Inv(Snapshot())) ==> Inv(Snapshot())
    {
      ghost var before := Snapshot();
      failure := CloseEnrollment(id, client, state, at);
      if Inv(before) {
        FinishKeeps(before, id, client, state, at);
        StillGood(FinishTx(before, id, client, state, at), before, Snapshot(), failure);
      }
    }

    /** The row first, then the placeholder it named. */
    method CloseEnrollment(id: ID, client: ID, state: EnrollmentState, at: Time) returns (failure: Option<Code>)
      modifies this`enrollments, this`credentials, this`reservations
      ensures Does(FinishTx(old(Snapshot()), id, client, state, at), old(Snapshot()), Snapshot(), failure)
    {
      if state.Open() || state == Succeeded || at == ZERO_TIME { return Some(InvalidArgument); }
      if id !in enrollments || enrollments[id].client != client || enrollments[id].credential.None? {
        return Some(NotFound);
      }
      if enrollments[id].state == state { return None; }
      if !enrollments[id].state.Open() { return Some(Conflict); }
      var e, c := enrollments[id].(state := state), enrollments[id].credential.value;
      ghost var before := enrollments;
      enrollments := enrollments[id := e];
      if c !in items {
        enrollments := enrollments[id := e.(credential := None)];
        assert enrollments == before[id := e.(credential := None)];
        DropPlaceholder(c);
      }
      return None;
    }

    method DropPlaceholder(c: ID)
      modifies this`credentials, this`reservations
      ensures Snapshot() == Discard(old(Snapshot()), c)
    {
      if Placeholder(Snapshot(), c) && !Referenced(Snapshot(), c) {
        credentials, reservations := credentials - {c}, reservations - {c};
      }
    }

    /** Ends the enrollments a query found due, one transaction each, until one of them fails. */
    method ExpireDueEnrollments(due: seq<ID>, at: Time) returns (failure: Option<Code>)
      modifies this`enrollments, this`credentials, this`reservations
      ensures (Snapshot(), failure) == ExpireEach(old(Snapshot()), due, at)
    {
      if at == ZERO_TIME { return Some(InvalidArgument); }
      for i := 0 to |due|
        invariant ExpireEach(Snapshot(), due[i..], at) == ExpireEach(old(Snapshot()), due, at)
      {
        assert due[i..][1..] == due[i + 1..];
        if due[i] !in enrollments { return Some(NotFound); }
        failure := CloseEnrollment(due[i], enrollments[due[i]].client, Lapsed, at);
        if failure.Some? { return; }
      }
      return None;
    }

    /**
     Ends every open enrollment: all rows first, then their placeholders one by one in the order the
     query happens to return them. The first placeholder that another row names undoes it all.
     */
    method ExpireEnrollments(at: Time) returns (failure: Option<Code>)
      requires Enrolled(enrollments)
      modifies this`enrollments, this`credentials, this`reservations
      ensures Does(ExpireAllTx(old(Snapshot()), at), old(Snapshot()), Snapshot(), failure)
    {
      if at == ZERO_TIME { return Some(InvalidArgument); }
      var begun := Snapshot();
      var ok, gone := ExpireOpen(begun);
      ExpiryOutcome(begun, Snapshot(), ok, gone, at);
      return if ok then None else Some(Conflict);
    }

    /** All rows, then their placeholders, or nothing at all. */
    method ExpireOpen(begun: Db) returns (ok: bool, ghost gone: set<ID>)
      requires Enrolled(enrollments) && begun == Snapshot()
      modifies this`enrollments, this`credentials, this`reservations
      ensures ok ==> Expiring(begun, Snapshot(), {}, gone)
      ensures !ok ==> Snapshot() == begun && exists x | x in begun.enrollments :: Blocked(begun, x)
    {
      var open := MarkExpired();
      ok, gone := LetGo(open, begun);
      if !ok { Undo(begun); }
    }

    /** Rolls back the three tables an expiry writes. */
    method Undo(begun: Db)
      modifies this`enrollments, this`credentials, this`reservations
      ensures enrollments == begun.enrollments && credentials == begun.credentials && reservations == begun.reservations
    {
      enrollments, credentials, reservations := begun.enrollments, begun.credentials, begun.reservations;
    }

    method MarkExpired() returns (open: set<ID>)
      requires Enrolled(enrollments)
      modifies this`enrollments
      ensures Expiring(old(Snapshot()), Snapshot(), open, {})
    {
      open := set x | x in enrollments && enrollments[x].state.Open();
      ghost var begun := Snapshot();
      enrollments := map x | x in enrollments ::
                       if x in open then enrollments[x].(state := Lapsed) else enrollments[x];
      ExpiryBegins(begun, enrollments, open);
    }

    /** Takes the expired enrollments one by one until they are all done or one of them is blocked. */
    method LetGo(open: set<ID>, ghost begun: Db) returns (ok: bool, ghost gone: set<ID>)
      requires Expiring(begun, Snapshot(), open, {})
      modifies this`enrollments, this`credentials, this`reservations
      ensures ok ==> Expiring(begun, Snapshot(), {}, gone)
      ensures !ok ==> exists x | x in begun.enrollments :: Blocked(begun, x)
    {
      var rest := open;
      gone := {};
      while rest != {}
        invariant Expiring(begun, Snapshot(), rest, gone)
        decreases |rest|
      {
        var x :| x in rest;
        ExpiryAdvances(begun, Snapshot(), rest, gone, x);
        ok := ExpireOne(x);
        if !ok {
          return;
        }
        gone := if Pending(begun, x) then gone + {begun.enrollments[x].credential.value} else gone;
        rest := rest - {x};
      }
      ok := true;
    }

    /** Lets one expired enrollment go of an unsealed credential and deletes it if it is a placeholder. */
    method ExpireOne(x: ID) returns (ok: bool)
      requires x in enrollments && enrollments[x].credential.Some?
      modifies this`enrollments, this`credentials, this`reservations
      ensures ok <==> ExpireRow(old(Snapshot()), x).Some?
      ensures ok ==> Some(Snapshot()) == ExpireRow(old(Snapshot()), x)
    {
      var c := enrollments[x].credential.value;
      if c in items { return true; }
      enrollments := enrollments[x := enrollments[x].(credential := None)];
      if Placeholder(Snapshot(), c) {
        if Referenced(Snapshot(), c) { return false; }
        credentials, reservations := credentials - {c}, reservations - {c};
      }
      return true;
    }
  }

  /** A status write from any earlier state of the row keeps end metadata right and lets the row only climb. */
  lemma MovesRow(sessions: map<ID, Session>, id: ID, read: Session, next: SessionStatus, at: Time,
                 exitCode: Option<int>, failure: Option<nat>)
    requires Ended(sessions) && id in sessions && SessionStep(read, sessions[id]) && read.status == sessions[id].status
    requires Transition(read, next, at, exitCode, failure).Ok? && (next != Failed ==> failure.None?)
    ensures var m := Transition(read, next, at, exitCode, failure).value;
            var s := sessions[id].(status := m.status, endedAt := m.endedAt, exitCode := m.exitCode,
                                   failure := m.failure);
            Ended(sessions[id := s]) && SessionsEvolve(sessions, sessions[id := s])
  {
    assert EndFits(sessions[id]);
  }

  /** The session a preview is spent on is new, so no other preview was spent on it. */
  lemma SpendsRow(previews: map<ID, Preview>, sessions: map<ID, Session>, q: ConsumeRequest, v: Preview, s: Session)
    requires q.preview in previews && v == previews[q.preview] && v.consumed.None? && q.id !in sessions
    requires Matches(s, v.selection)
    ensures var spent := previews[q.preview := v.(consumed := Some(Consumption(q.at, q.digest, q.id)))];
            && (Spent(previews, sessions) ==> Spent(spent, sessions[q.id := s]))
            && SessionsEvolve(sessions, sessions[q.id := s]) && PreviewsEvolve(previews, spent)
  {
  }

  // ---- The expiry that a begin performs ----

  /** The due enrollments in the order they were found, each ended in the name of its own client. */
  function ExpireEach(d: Db, due: seq<ID>, at: Time): (Db, Option<Code>)
    decreases |due|
  {
    if at == ZERO_TIME then (d, Some(InvalidArgument))
    else if due == [] then (d, None)
    else if due[0] !in d.enrollments then (d, Some(NotFound))
    else
      var r := FinishTx(d, due[0], d.enrollments[due[0]].client, Lapsed, at);
      if r.Err? then (d, Some(r.code)) else ExpireEach(r.value, due[1..], at)
  }

  /** From `a` to `b` exactly the due enrollments have lapsed. */
  ghost predicate Lapses(a: map<ID, Enrollment>, b: map<ID, Enrollment>, due: seq<ID>) {
    && b.Keys == a.Keys
    && (forall x | x in due :: x in b && b[x].state == Lapsed)
    && (forall x | x in a && x !in due :: b[x] == a[x])
  }

  lemma LapsesMore(a: map<ID, Enrollment>, b: map<ID, Enrollment>, c: map<ID, Enrollment>, id: ID, rest: seq<ID>)
    requires Lapses(a, b, [id]) && Lapses(b, c, rest) && id !in rest
    ensures Lapses(a, c, [id] + rest)
  {
    assert id in b && b[id].state == Lapsed;
  }

  lemma FinishesOne(d: Db, id: ID, at: Time)
    requires at != ZERO_TIME && id in d.enrollments && d.enrollments[id].state.Open() &&
             d.enrollments[id].credential.Some?
    ensures var r := FinishTx(d, id, d.enrollments[id].client, Lapsed, at);
            r.Ok? && Lapses(d.enrollments, r.value.enrollments, [id])
  {
    var e, c := d.enrollments[id].(state := Lapsed, credential := None), d.enrollments[id].credential.value;
    DiscardTouches(d.(enrollments := d.enrollments[id := e]), c);
  }

  /** What the query returns: different rows that are open, and so still hold their credential. */
  predicate AllOpen(enrollments: map<ID, Enrollment>, due: seq<ID>) {
    && (forall i | 0 <= i < |due| ::
          due[i] in enrollments && enrollments[due[i]].state.Open() && enrollments[due[i]].credential.Some?)
    && (forall i, j | 0 <= i < j < |due| :: due[i] != due[j])
  }

  lemma RestOpen(a: map<ID, Enrollment>, b: map<ID, Enrollment>, due: seq<ID>)
    requires due != [] && AllOpen(a, due) && Lapses(a, b, [due[0]])
    ensures AllOpen(b, due[1..]) && due[0] !in due[1..]
  {
    assert forall i | 0 <= i < |due[1..]| :: due[1..][i] == due[i + 1];
  }

  /** It ends exactly the enrollments that were due, and never fails on open ones. */
  lemma {:induction false} ExpireEachEnds(d: Db, due: seq<ID>, at: Time)
    requires at != ZERO_TIME && AllOpen(d.enrollments, due)
    ensures var (e, failure) := ExpireEach(d, due, at); failure.None? && Lapses(d.enrollments, e.enrollments, due)
    decreases |due|
  {
    if due != [] {
      var r := FinishTx(d, due[0], d.enrollments[due[0]].client, Lapsed, at);
      FinishesOne(d, due[0], at);
      RestOpen(d.enrollments, r.value.enrollments, due);
      ExpireEachEnds(r.value, due[1..], at);
      LapsesMore(d.enrollments, r.value.enrollments, ExpireEach(r.value, due[1..], at).0.enrollments, due[0], due[1..]);
      assert due == [due[0]] + due[1..];
    }
  }

  /** And it keeps every invariant of the store, wherever it stops. */
  lemma {:induction false} ExpireEachKeeps(d: Db, due: seq<ID>, at: Time)
    requires Inv(d)
    ensures Inv(ExpireEach(d, due, at).0)
    decreases |due|
  {
    if due != [] && due[0] in d.enrollments {
      FinishKeeps(d, due[0], d.enrollments[due[0]].client, Lapsed, at);
      var r := FinishTx(d, due[0], d.enrollments[due[0]].client, Lapsed, at);
      if r.Ok? {
        ExpireEachKeeps(r.value, due[1..], at);
      }
    }
  }

  // ---- The loop of the expiry at restart ----

  /** The enrollments in `rest` are expired but still hold their credentials; the others are done. */
  ghost predicate Expiring(d: Db, e: Db, rest: set<ID>, gone: set<ID>) {
    && e == Delete(d.(enrollments := e.enrollments), gone)
    && RowsDone(d, e.enrollments, rest) && PlaceholdersGone(d, rest, gone)
  }

  ghost predicate RowsDone(d: Db, rows: map<ID, Enrollment>, rest: set<ID>) {
    && (forall x | x in rest ::
          x in d.enrollments && d.enrollments[x].state.Open() && d.enrollments[x].credential.Some?)
    && rows.Keys == d.enrollments.Keys
    && (forall x | x in d.enrollments ::
          rows[x] == if x in rest then d.enrollments[x].(state := Lapsed) else Lapse(d.enrollments[x], d.items))
  }

  ghost predicate PlaceholdersGone(d: Db, rest: set<ID>, gone: set<ID>) {
    && (forall x | x in rest ::
          x in d.enrollments && d.enrollments[x].credential.Some? && d.enrollments[x].credential.value !in gone)
    && (forall x | x in d.enrollments && x !in rest :: !Blocked(d, x))
    && gone == set x | x in d.enrollments && x !in rest && Pending(d, x) :: d.enrollments[x].credential.value
  }

  /** The row of `x` is done when it has let go of an unsealed credential. */
  lemma RowDone(d: Db, rows: map<ID, Enrollment>, rest: set<ID>, x: ID)
    requires RowsDone(d, rows, rest) && x in rest && d.enrollments[x].credential.value !in d.items
    ensures RowsDone(d, rows[x := rows[x].(credential := None)], rest - {x})
  {
  }

  lemma PlaceholderGone(d: Db, rest: set<ID>, gone: set<ID>, x: ID, c: ID)
    requires PlaceholdersGone(d, rest, gone) && x in rest && !Blocked(d, x) && Pending(d, x)
    requires c == d.enrollments[x].credential.value
    requires forall y | y in rest - {x} :: d.enrollments[y].credential.value != c
    ensures PlaceholdersGone(d, rest - {x}, gone + {c})
  {
  }

  function Cleared(e: Db, x: ID): Db
    requires x in e.enrollments
  {
    e.(enrollments := e.enrollments[x := e.enrollments[x].(credential := None)])
  }

  /** The statements for one row, or none if a foreign key stops them. */
  function ExpireRow(e: Db, x: ID): Option<Db>
    requires x in e.enrollments && e.enrollments[x].credential.Some?
  {
    var c := e.enrollments[x].credential.value;
    if c in e.items then Some(e)
    else if !Placeholder(Cleared(e, x), c) then Some(Cleared(e, x))
    else if Referenced(Cleared(e, x), c) then None
    else Some(Delete(Cleared(e, x), {c}))
  }

  /** The next row is dealt with: it stops the loop if it is blocked, and else it is done. */
  ghost predicate Advances(d: Db, e: Db, rest: set<ID>, gone: set<ID>, x: ID) {
    && x in e.enrollments && e.enrollments[x].credential.Some?
    && (ExpireRow(e, x).None? ==> Blocked(d, x))
    && (ExpireRow(e, x).Some? ==> Expiring(d, ExpireRow(e, x).value, rest - {x},
                                           if Pending(d, x) then gone + {d.enrollments[x].credential.value} else gone))
  }

  lemma ExpiryAdvances(d: Db, e: Db, rest: set<ID>, gone: set<ID>, x: ID)
    requires Expiring(d, e, rest, gone) && x in rest
    ensures Advances(d, e, rest, gone, x)
  {
    var c := d.enrollments[x].credential.value;
    if c in e.items {
      ExpiryKeepsSealed(d, e, rest, gone, x);
    } else if !Placeholder(e, c) {
      ExpiryKeepsPlain(d, e, rest, gone, x);
    } else {
      ExpiryPlaceholder(d, e, rest, gone, x);
    }
  }

  lemma ExpiryPlaceholder(d: Db, e: Db, rest: set<ID>, gone: set<ID>, x: ID)
    requires Expiring(d, e, rest, gone) && x in rest && d.enrollments[x].credential.value !in d.items
    requires Placeholder(e, d.enrollments[x].credential.value)
    ensures Advances(d, e, rest, gone, x)
  {
    ExpiryBlocked(d, e, rest, gone, x);
    if !Referenced(Cleared(e, x), d.enrollments[x].credential.value) {
      ExpiryDrops(d, e, rest, gone, x);
    }
  }

  lemma ExpiryBegins(d: Db, expired: map<ID, Enrollment>, rest: set<ID>)
    requires Enrolled(d.enrollments) && rest == set x | x in d.enrollments && d.enrollments[x].state.Open()
    requires expired == map x | x in d.enrollments ::
               if x in rest then d.enrollments[x].(state := Lapsed) else d.enrollments[x]
    ensures Expiring(d, d.(enrollments := expired), rest, {})
  {
  }

  lemma ExpiryKeepsSealed(d: Db, e: Db, rest: set<ID>, gone: set<ID>, x: ID)
    requires Expiring(d, e, rest, gone) && x in rest && d.enrollments[x].credential.value in d.items
    ensures Advances(d, e, rest, gone, x)
  {
  }

  lemma ExpiryKeepsPlain(d: Db, e: Db, rest: set<ID>, gone: set<ID>, x: ID)
    requires Expiring(d, e, rest, gone) && x in rest && d.enrollments[x].credential.value !in d.items
    requires !Placeholder(e, d.enrollments[x].credential.value)
    ensures Advances(d, e, rest, gone, x)
  {
    ClearsPlain(d, e, rest, gone, x);
    assert ExpireRow(e, x) == Some(Cleared(e, x));
  }

  lemma ClearsPlain(d: Db, e: Db, rest: set<ID>, gone: set<ID>, x: ID)
    requires Expiring(d, e, rest, gone) && x in rest && d.enrollments[x].credential.value !in d.items
    requires !Placeholder(e, d.enrollments[x].credential.value)
    ensures Expiring(d, Cleared(e, x), rest - {x}, gone) && !Pending(d, x)
  {
    RowDone(d, e.enrollments, rest, x);
    assert !Pending(d, x);
  }

  /**
   Clearing other rows before `x` cannot have unblocked it: a done row that named the same placeholder
   would itself have been blocked by `x`.
   */
  lemma ExpiryBlocked(d: Db, e: Db, rest: set<ID>, gone: set<ID>, x: ID)
    requires Expiring(d, e, rest, gone) && x in rest && d.enrollments[x].credential.value !in d.items
    requires Placeholder(e, d.enrollments[x].credential.value)
    ensures var c := d.enrollments[x].credential.value;
            Pending(d, x) && (Referenced(Cleared(e, x), c) <==> Blocked(d, x))
  {
    var c := d.enrollments[x].credential.value;
    var a := d.enrollments[x := d.enrollments[x].(credential := None)];
    var b := e.enrollments[x := e.enrollments[x].(credential := None)];
    assert Pending(d, x);
    forall y | y in d.enrollments ensures Names(a[y], c) <==> Names(b[y], c) {
      if y != x && y !in rest && Pending(d, y) {
        NotShared(d, x, y);
      }
    }
    SameNames(d.(enrollments := a), e.(enrollments := b), c);
  }

  /** An unblocked enrollment shares its placeholder with no other row. */
  lemma NotShared(d: Db, x: ID, y: ID)
    requires x in d.enrollments && x != y && Pending(d, y) && !Blocked(d, y)
    ensures !Names(d.enrollments[x], d.enrollments[y].credential.value)
  {
    var free := d.enrollments[y := d.enrollments[y].(credential := None)];
    assert x in free && free[x] == d.enrollments[x];
  }

  lemma SameNames(d: Db, e: Db, c: ID)
    requires e == d.(enrollments := e.enrollments, credentials := e.credentials, reservations := e.reservations)
    requires e.enrollments.Keys == d.enrollments.Keys
    requires forall y | y in d.enrollments :: Names(d.enrollments[y], c) <==> Names(e.enrollments[y], c)
    ensures Referenced(d, c) <==> Referenced(e, c)
  {
  }

  lemma ExpiryDrops(d: Db, e: Db, rest: set<ID>, gone: set<ID>, x: ID)
    requires Expiring(d, e, rest, gone) && x in rest && d.enrollments[x].credential.value !in d.items
    requires Placeholder(e, d.enrollments[x].credential.value) && !Blocked(d, x)
    requires !Referenced(Cleared(e, x),
                         d.enrollments[x].credential.value)
    ensures var c := d.enrollments[x].credential.value;
            Expiring(d, Delete(Cleared(e, x), {c}),
                     rest - {x}, gone + {c})
  {
    var c := d.enrollments[x].credential.value;
    RowDone(d, e.enrollments, rest, x);
    NoOtherName(d, e.enrollments, rest, x, e);
    PlaceholderGone(d, rest, gone, x, c);
    DropTwice(d.credentials, gone, c);
    DropTwice(d.reservations, gone, c);
  }

  lemma DropTwice<T>(m: map<ID, T>, gone: set<ID>, c: ID)
    ensures m - gone - {c} == m - (gone + {c})
  {
  }

  lemma NoOtherName(d: Db, rows: map<ID, Enrollment>, rest: set<ID>, x: ID, e: Db)
    requires RowsDone(d, rows, rest) && x in rest
    requires !Referenced(e.(enrollments := rows[x := rows[x].(credential := None)]), d.enrollments[x].credential.value)
    ensures forall y | y in rest - {x} :: d.enrollments[y].credential.value != d.enrollments[x].credential.value
  {
    var c := d.enrollments[x].credential.value;
    var cleared := rows[x := rows[x].(credential := None)];
    forall y | y in rest - {x} ensures d.enrollments[y].credential.value != c {
      assert y in cleared && !Names(cleared[y], c);
    }
  }

  lemma ExpiryEnds(d: Db, e: Db, gone: set<ID>)
    requires Expiring(d, e, {}, gone)
    ensures !exists x | x in d.enrollments :: Blocked(d, x)
    ensures e == Delete(d.(enrollments := map x | x in d.enrollments :: Lapse(d.enrollments[x], d.items)), Doomed(d))
  {
    assert gone == Doomed(d);
    assert e.enrollments == map x | x in d.enrollments :: Lapse(d.enrollments[x], d.items);
  }

  lemma ExpiryOutcome(d: Db, e: Db, ok: bool, gone: set<ID>, at: Time)
    requires at != ZERO_TIME
    requires ok ==> Expiring(d, e, {}, gone)
    requires !ok ==> e == d && exists x | x in d.enrollments :: Blocked(d, x)
    ensures Does(ExpireAllTx(d, at), d, e, if ok then None else Some(Conflict))
  {
    if ok {
      ExpiryEnds(d, e, gone);
    }
  }
}

/** Whole commands of the store, from one transaction to the next: when nothing stands against them, they go through. */
module StoreCommands {
  import opened Base
  import opened SessionDomain
  import opened StoreModel
  import opened StoreInvariants
  import opened StoreRuns
  import opened StoreTheorems
  import opened SessionTheorems
  import opened StoreOutcomes

  /**
   A logout goes through: once the reservation is committed, the revocation commits whenever it comes and
   whatever happened in between, as long as the credential exists.
   */
  lemma LogoutCompletes(w: World, id: ID, at: Time, es: seq<Event>, later: Time)
    requires WInv(w) && ReserveTx(w.db, id, at).Ok? && later != ZERO_TIME
    requires id in Run(Commit(w, ReserveTx(w.db, id, at)), es).db.credentials
    ensures var d := Run(Commit(w, ReserveTx(w.db, id, at)), es).db;
            var r := FinalizeTx(d, id, later);
            r.Ok? && id in r.value.credentials && r.value.credentials[id].status == Revoked && id !in r.value.items
  {
    var v := Commit(w, ReserveTx(w.db, id, at));
    ReserveCloses(w.db, id, at);
    ReserveKeeps(w.db, id, at);
    CommitStep(w, ReserveTx(w.db, id, at));
    RunKeeps(v, es);
    WithdrawnForGood(v, es, id);
    ClosedFinalizes(Run(v, es).db, id, later);
    FinalizeRevokes(Run(v, es).db, id, later);
  }

  lemma ClosedFinalizes(d: Db, id: ID, at: Time)
    requires Inv(d) && Withdrawn(d.credentials, d.reservations, id) && d.credentials[id].provider == Codex
    requires at != ZERO_TIME
    ensures FinalizeTx(d, id, at).Ok?
  {
    if s :| s in d.sessions && d.sessions[s].credential == id && Live(d.sessions[s].status) {
      assert d.sessions[s].status.Terminal();
    }
    FinalizesIff(d, id, at);
  }

  /** The enrollment as its client has attested it. */
  function Attested(e: Enrollment, completion: Digest, k: Confirmation, at: Time): Enrollment {
    e.(state := Awaiting, completion := Some(completion), confirmation := Some(k),
       attested := Some(Attestation(e.client, at)))
  }

  function With(d: Db, id: ID, e: Enrollment): Db { d.(enrollments := d.enrollments[id := e]) }

  lemma AttestationPasses(d: Db, id: ID, e: Enrollment, completion: Digest, k: Confirmation, at: Time)
    requires id in d.enrollments && d.enrollments[id] == e && Blank(e) && k.account in d.accounts
    requires k.profile == e.profile && e.credential == Some(k.credential)
    requires k.accountRevision >= 1 && k.profileRevision >= 1 && k.credentialRevision >= 1
    ensures var claimed := e.(state := Validating, completion := Some(completion));
            var awaited := claimed.(state := Awaiting, confirmation := Some(k));
            && ClaimTx(d, id, e.client, completion, true) == Ok(With(d, id, claimed))
            && AwaitTx(With(d, id, claimed), id, e.client, k, true) == Ok(With(d, id, awaited))
            && ConfirmTx(With(d, id, awaited), id, e.client, k.alias, at, true) ==
               Ok(With(d, id, Attested(e, completion, k, at)))
  {
    var claimed := e.(state := Validating, completion := Some(completion));
    var awaited := claimed.(state := Awaiting, confirmation := Some(k));
    assert With(With(d, id, claimed), id, awaited) == With(d, id, awaited);
    var attested := Attested(e, completion, k, at);
    assert With(With(d, id, awaited), id, attested) == With(d, id, attested);
  }

  /** The placeholder and the item are of one account and device, and the profile is theirs and free. */
  predicate Fitting(d: Db, e: Enrollment, p: Credential, item: VaultItem) {
    && (p.status == Unknown || p.status == Healthy) && p.account == Some(item.account) && p.device == item.device
    && item.revision == 2 && e.profile in d.profiles
    && var q := d.profiles[e.profile];
       q.account == item.account && q.device == item.device && q.provider == Codex && q.credential.None?
  }

  /** What a completed enrollment leaves. */
  predicate EnrolledIn(d: Db, id: ID, profile: ID, c: ID, item: VaultItem) {
    && id in d.enrollments && d.enrollments[id].state == Succeeded
    && c in d.credentials && d.credentials[c].status == Healthy && d.credentials[c].revision == 2
    && c in d.items && d.items[c] == item
    && profile in d.profiles && d.profiles[profile].credential == Some(c)
  }

  lemma AttestedSeals(d: Db, id: ID, e: Enrollment, p: Credential, completion: Digest, k: Confirmation, at: Time,
                      item: VaultItem)
    requires Inv(d) && BeginTx(d, id, e, Some(p)).Ok? && Fitting(d, e, p, item) && e.credential == Some(k.credential)
    ensures var f := With(BeginTx(d, id, e, Some(p)).value, id, Attested(e, completion, k, at));
            var r := SealTx(f, k.credential, 1, item, Some(SealOwner(id, e.client, completion)));
            r.Ok? && EnrolledIn(r.value, id, e.profile, k.credential, item)
  {
    var f := With(BeginTx(d, id, e, Some(p)).value, id, Attested(e, completion, k, at));
    var owner := SealOwner(id, e.client, completion);
    BeginAdds(d, id, e, Some(p));
    assert k.credential !in f.items && k.credential !in f.reservations;
    SealsIff(f, k.credential, 1, item, Some(owner));
    SealCompletes(f, k.credential, 1, item, Some(owner));
  }

  /** The five commands of an enrollment. */
  function Enrolling(id: ID, e: Enrollment, p: Credential, completion: Digest, k: Confirmation, at: Time,
                     item: VaultItem): seq<Event> {
    [Begin(id, e, Some(p)), Claim(id, e.client, completion, true), Await(id, e.client, k, true),
     Confirm(id, e.client, k.alias, at, true), Seal(k.credential, 1, item, Some(SealOwner(id, e.client, completion)))]
  }

  /**
   An enrollment of a new credential goes through: begun with a placeholder that fits its profile, claimed,
   awaited, confirmed with the alias that was awaited and sealed with the digest it was claimed with, it
   succeeds, the credential is healthy at revision 2 and the profile is bound to it.
   */
  lemma EnrollmentCompletes(w: World, id: ID, e: Enrollment, p: Credential, completion: Digest, k: Confirmation,
                            at: Time, item: VaultItem)
    requires Inv(w.db) && BeginTx(w.db, id, e, Some(p)).Ok? && Fitting(w.db, e, p, item)
    requires e.credential == Some(k.credential) && k.credential !in w.credentialIds
    requires k.profile == e.profile && k.account in w.db.accounts
    requires k.accountRevision >= 1 && k.profileRevision >= 1 && k.credentialRevision >= 1
    ensures EnrolledIn(Run(w, Enrolling(id, e, p, completion, k, at, item)).db, id, e.profile, k.credential, item)
  {
    var es := Enrolling(id, e, p, completion, k, at, item);
    var begun := BeginTx(w.db, id, e, Some(p)).value;
    var v := w.(db := begun, credentialIds := w.credentialIds + {k.credential});
    BeginRuns(w, id, e, p);
    Opened(w.db, id, e, p);
    AttestationRuns(v, es, id, e, completion, k, at);
    AttestedSeals(w.db, id, e, p, completion, k, at, item);
    SealRuns(v.(db := With(begun, id, Attested(e, completion, k, at))), k.credential, item,
             SealOwner(id, e.client, completion));
  }

  lemma Opened(d: Db, id: ID, e: Enrollment, p: Credential)
    requires BeginTx(d, id, e, Some(p)).Ok?
    ensures var begun := BeginTx(d, id, e, Some(p)).value;
            Blank(e) && begun.accounts == d.accounts && id in begun.enrollments && begun.enrollments[id] == e
  {
    BeginsIff(d, id, e, Some(p));
    BeginAdds(d, id, e, Some(p));
  }

  lemma BeginRuns(w: World, id: ID, e: Enrollment, p: Credential)
    requires BeginTx(w.db, id, e, Some(p)).Ok? && e.credential.value !in w.credentialIds
    ensures Apply(w, Begin(id, e, Some(p))) ==
            w.(db := BeginTx(w.db, id, e, Some(p)).value, credentialIds := w.credentialIds + {e.credential.value})
  {
  }

  lemma SealRuns(w: World, c: ID, item: VaultItem, owner: SealOwner)
    ensures Apply(w, Seal(c, 1, item, Some(owner))).db == After(w.db, SealTx(w.db, c, 1, item, Some(owner)))
  {
  }

  lemma AttestationRuns(v: World, es: seq<Event>, id: ID, e: Enrollment, completion: Digest, k: Confirmation, at: Time)
    requires |es| == 5 && es[1] == Claim(id, e.client, completion, true) && es[2] == Await(id, e.client, k, true)
    requires es[3] == Confirm(id, e.client, k.alias, at, true)
    requires id in v.db.enrollments && v.db.enrollments[id] == e && Blank(e) && k.account in v.db.accounts
    requires k.profile == e.profile && e.credential == Some(k.credential)
    requires k.accountRevision >= 1 && k.profileRevision >= 1 && k.credentialRevision >= 1
    ensures Run(v, es[1..]) == Apply(v.(db := With(v.db, id, Attested(e, completion, k, at))), es[4])
  {
    var claimed := e.(state := Validating, completion := Some(completion));
    var awaited := claimed.(state := Awaiting, confirmation := Some(k));
    AttestationPasses(v.db, id, e, completion, k, at);
    var a, b := v.(db := With(v.db, id, claimed)), v.(db := With(v.db, id, awaited));
    var c := v.(db := With(v.db, id, Attested(e, completion, k, at)));
    EnrollmentRuns(v, es[1]);
    EnrollmentRuns(a, es[2]);
    EnrollmentRuns(b, es[3]);
    RunFour(v, es, a, b, c);
  }

  lemma EnrollmentRuns(w: World, e: Event)
    requires IsEnrollment(e)
    ensures Apply(w, e) == Commit(w, EnrollmentTx(w.db, e))
  {
  }

  lemma RunFour(v: World, es: seq<Event>, a: World, b: World, c: World)
    requires |es| == 5 && Apply(v, es[1]) == a && Apply(a, es[2]) == b && Apply(b, es[3]) == c
    ensures Run(v, es[1..]) == Apply(c, es[4])
  {
    assert Run(v, es[1..]) == Run(a, es[1..][1..]);
    assert Run(a, es[1..][1..]) == Run(b, es[1..][1..][1..]);
    assert Run(b, es[1..][1..][1..]) == Run(c, es[1..][1..][1..][1..]);
    assert es[1..][1..][1..][1..] == [es[4]];
    assert Run(c, [es[4]]) == Run(Apply(c, es[4]), [es[4]][1..]);
  }

  /** A worker reads the session and at once writes the move. */
  function Moved(w: World, worker: nat, id: ID, from: SessionStatus, next: SessionStatus, at: Time,
                 exitCode: Option<int>): World {
    Apply(Apply(w, ReadSession(worker, id)), WriteTransition(worker, from, next, at, exitCode, None))
  }

  lemma MoveRuns(w: World, worker: nat, id: ID, from: SessionStatus, next: SessionStatus, at: Time,
                 exitCode: Option<int>)
    requires id in w.db.sessions
    ensures Moved(w, worker, id, from, next, at, exitCode).db ==
            After(w.db, TransitionTx(w.db, id, w.db.sessions[id], from, next, at, exitCode, None))
    ensures TransitionTx(w.db, id, w.db.sessions[id], from, next, at, exitCode, None).Ok? ==>
              MovesOf(Moved(w, worker, id, from, next, at, exitCode), id) == MovesOf(w, id) + 1
  {
    var v := w.(held := w.held[worker := Read(id, w.db.sessions[id])]);
    assert Apply(w, ReadSession(worker, id)) == v;
    assert Apply(v, WriteTransition(worker, from, next, at, exitCode, None)) ==
           ApplyTransition(v, WriteTransition(worker, from, next, at, exitCode, None));
  }

  /** A row as a move leaves it. */
  function MovedRow(s: Session, next: SessionStatus, at: Time, exitCode: Option<int>): Session {
    if next.Terminal() then s.(status := next, endedAt := Some(at), exitCode := exitCode) else s.(status := next)
  }

  lemma MoveWorks(w: World, worker: nat, id: ID, next: SessionStatus, at: Time, exitCode: Option<int>)
    requires id in w.db.sessions && EndFits(w.db.sessions[id]) && w.db.sessions[id].status.Allows(next)
    requires next != Failed && at != ZERO_TIME && w.db.sessions[id].startedAt <= at
    requires exitCode.Some? ==> next.Terminal()
    ensures var s := w.db.sessions[id];
            Moved(w, worker, id, s.status, next, at, exitCode).db ==
            w.db.(sessions := w.db.sessions[id := MovedRow(s, next, at, exitCode)])
    ensures MovesOf(Moved(w, worker, id, w.db.sessions[id].status, next, at, exitCode), id) == MovesOf(w, id) + 1
  {
    var s := w.db.sessions[id];
    MoveRuns(w, worker, id, s.status, next, at, exitCode);
    TransitionsIff(w.db, id, s, s.status, next, at, exitCode, None);
    TransitionWrites(w.db, id, s, s.status, next, at, exitCode, None);
    assert s.failure.None?;
  }

  lemma SessionStops(w: World, id: ID, j: nat, k: nat, up: Time, down: Time)
    requires id in w.db.sessions && EndFits(w.db.sessions[id]) && w.db.sessions[id].status == Starting
    requires up != ZERO_TIME && down != ZERO_TIME
    requires w.db.sessions[id].startedAt <= up && w.db.sessions[id].startedAt <= down
    ensures var s := w.db.sessions[id];
            var v := Moved(Moved(w, j, id, Starting, Running, up, None), k, id, Running, Stopping, down, None);
            && v.db == w.db.(sessions := w.db.sessions[id := s.(status := Stopping)])
            && MovesOf(v, id) == MovesOf(w, id) + 2
  {
    var s := w.db.sessions[id];
    var running := Moved(w, j, id, Starting, Running, up, None);
    MoveWorks(w, j, id, Running, up, None);
    assert running.db.sessions == w.db.sessions[id := s.(status := Running)];
    MoveWorks(running, k, id, Stopping, down, None);
    assert running.db.sessions[id := s.(status := Stopping)] == w.db.sessions[id := s.(status := Stopping)];
  }

  /**
   A session goes through its life: read and moved from starting to running, to stopping and to exited by any
   workers, it ends with the time and the exit code of the last move, and nothing else has changed.
   */
  lemma SessionLives(w: World, id: ID, j: nat, k: nat, l: nat, up: Time, down: Time, at: Time, exitCode: int)
    requires id in w.db.sessions && EndFits(w.db.sessions[id]) && w.db.sessions[id].status == Starting
    requires up != ZERO_TIME && down != ZERO_TIME && at != ZERO_TIME
    requires w.db.sessions[id].startedAt <= up && w.db.sessions[id].startedAt <= down
    requires w.db.sessions[id].startedAt <= at
    ensures var s := w.db.sessions[id];
            var stopping := Moved(Moved(w, j, id, Starting, Running, up, None), k, id, Running, Stopping, down, None);
            var v := Moved(stopping, l, id, Stopping, Exited, at, Some(exitCode));
            && v.db == w.db.(sessions := w.db.sessions[id := s.(status := Exited, endedAt := Some(at),
                                                                exitCode := Some(exitCode))])
            && MovesOf(v, id) == MovesOf(w, id) + 3
  {
    var s := w.db.sessions[id];
    var stopping := Moved(Moved(w, j, id, Starting, Running, up, None), k, id, Running, Stopping, down, None);
    SessionStops(w, id, j, k, up, down);
    MoveWorks(stopping, l, id, Exited, at, Some(exitCode));
    assert stopping.db.sessions[id := MovedRow(s.(status := Stopping), Exited, at, Some(exitCode))] ==
           w.db.sessions[id := MovedRow(s.(status := Stopping), Exited, at, Some(exitCode))];
  }

  /** A preview that is stored can be spent at once by its client on what it showed, and the start is on record. */
  lemma PreviewStarts(w: World, id: ID, v: Preview, q: ConsumeRequest)
    requires CreatePreviewTx(w.db, id, v).Ok? && id !in w.previewIds
    requires v.selection.usage == LatestUsage(w.db, v.selection.account)
    requires q.preview == id && q.client == v.client && q.confirmed && q.at != ZERO_TIME && q.at < v.expiresAt
    requires q.selection == v.selection && q.prints == v.prints && q.id !in w.db.sessions
    requires NewSession(q.session).Ok? && Asks(q.session, v.selection)
    ensures var u := Run(w, [CreatePreview(id, v), Consume(q)]);
            && u.starts == w.starts + [Start(id, q.id)] && u.previewIds == w.previewIds + {id}
            && q.id in u.db.sessions && u.db.sessions[q.id].status == Starting
            && id in u.db.previews && u.db.previews[id].consumed.Some?
  {
    var es := [CreatePreview(id, v), Consume(q)];
    var shown := w.(db := CreatePreviewTx(w.db, id, v).value, previewIds := w.previewIds + {id});
    PreviewsIff(w.db, id, v);
    PreviewRuns(w, id, v);
    ConsumesIff(shown.db, q);
    SpendRuns(shown, q);
    assert es[1..] == [es[1]];
    assert Run(w, es) == Run(shown, [es[1]]) == Run(Apply(shown, es[1]), [es[1]][1..]);
  }

  lemma PreviewRuns(w: World, id: ID, v: Preview)
    requires CreatePreviewTx(w.db, id, v).Ok? && id !in w.previewIds
    ensures Apply(w, CreatePreview(id, v)) ==
            w.(db := CreatePreviewTx(w.db, id, v).value, previewIds := w.previewIds + {id})
  {
  }

  lemma SpendRuns(w: World, q: ConsumeRequest)
    requires ConsumeTx(w.db, q).Ok? && w.db.previews[q.preview].consumed.None?
    ensures var u := Apply(w, Consume(q));
            && u == w.(db := u.db, starts := w.starts + [Start(q.preview, q.id)])
            && q.id in u.db.sessions && u.db.sessions[q.id].status == Starting
            && q.preview in u.db.previews && u.db.previews[q.preview].consumed.Some?
  {
    ConsumeStores(w.db, q);
    assert Apply(w, Consume(q)) == ApplyConsume(w, q);
  }
}

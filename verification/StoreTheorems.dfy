/** What the store promises over whole runs. */
module StoreTheorems {
  import opened Base
  import opened StoreModel
  import opened StoreInvariants
  import opened StoreRuns

  // ---- A withdrawn credential never serves again ----

  /** The credential is known and is not, or no longer, open to sessions. */
  predicate Barred(w: World, c: ID) {
    c in w.credentialIds && (c in w.db.credentials ==> Withdrawn(w.db.credentials, w.db.reservations, c))
  }

  /** No event adds a session on a barred credential. */
  lemma AddsNoSession(w: World, e: Event, c: ID)
    requires WInv(w) && Barred(w, c)
    ensures forall s | s in Apply(w, e).db.sessions && Apply(w, e).db.sessions[s].credential == c :: s in w.db.sessions
  {
    StepKeeps(w, e);
  }

  lemma StaysBarred(w: World, v: World, c: ID)
    requires WInv(w) && WEvolves(w, v) && Barred(w, c)
    ensures Barred(v, c)
  {
  }

  /** In every reachable store a session on a revoked or reserved credential has ended. */
  lemma WithdrawnIsIdle(es: seq<Event>, s: ID)
    requires var d := Run(INIT, es).db;
             s in d.sessions && Withdrawn(d.credentials, d.reservations, d.sessions[s].credential)
    ensures Run(INIT, es).db.sessions[s].status.Terminal()
  {
    Reachable(es);
  }

  /**
   Once a credential is revoked or reserved, it stays so for as long as it exists, and from then on no
   run gives it a session that is starting, running or stopping, or any new session at all.
   */
  lemma {:induction false} WithdrawnForGood(w: World, es: seq<Event>, c: ID)
    requires WInv(w) && Barred(w, c)
    ensures var v := Run(w, es);
            && Barred(v, c)
            && (forall s | s in v.db.sessions && v.db.sessions[s].credential == c ::
                  s in w.db.sessions && v.db.sessions[s].status.Terminal() && v.db.sessions[s] == w.db.sessions[s])
    decreases |es|
  {
    if es == [] {
      EndedWhenBarred(w, c);
    } else {
      var u := Apply(w, es[0]);
      StepKeeps(w, es[0]);
      StaysBarred(w, u, c);
      AddsNoSession(w, es[0], c);
      EndedWhenBarred(w, c);
      WithdrawnForGood(u, es[1..], c);
    }
  }

  lemma EndedWhenBarred(w: World, c: ID)
    requires WInv(w) && Barred(w, c)
    ensures forall s | s in w.db.sessions && w.db.sessions[s].credential == c :: w.db.sessions[s].status.Terminal()
  {
  }

  // ---- Seals ----

  /** A committed seal advances the revision by one and stores an item that agrees with the credential. */
  lemma SealAdvances(d: Db, id: ID, expected: int, item: VaultItem, owner: Option<SealOwner>)
    requires Inv(d) && SealTx(d, id, expected, item, owner).Ok?
    ensures var e := SealTx(d, id, expected, item, owner).value;
            && d.credentials[id].revision == expected && e.credentials[id].revision == expected + 1
            && id in e.items && Agrees(e.items[id], e.credentials[id])
            && e.items[id].secret == item.secret && e.items[id].envelope == item.envelope
  {
  }

  /** Of two seals prepared for the same revision, the second cannot commit, however much later it comes. */
  lemma OneSealPerRevision(w: World, id: ID, expected: int, item: VaultItem, owner: Option<SealOwner>, es: seq<Event>,
                           later: VaultItem, laterOwner: Option<SealOwner>)
    requires WInv(w) && SealTx(w.db, id, expected, item, owner).Ok?
    ensures SealTx(Run(Commit(w, SealTx(w.db, id, expected, item, owner)), es).db, id, expected, later, laterOwner).Err?
  {
    var v := Commit(w, SealTx(w.db, id, expected, item, owner));
    SealAdvances(w.db, id, expected, item, owner);
    SealKeeps(w.db, id, expected, item, owner);
    CommitStep(w, SealTx(w.db, id, expected, item, owner));
    RunKeeps(v, es);
    Stale(v, Run(v, es), id, expected, later, laterOwner);
  }

  lemma Stale(w: World, v: World, id: ID, expected: int, item: VaultItem, owner: Option<SealOwner>)
    requires WEvolves(w, v) && id in w.db.credentials && w.db.credentials[id].revision > expected
    requires w.db.credentials.Keys <= w.credentialIds
    ensures SealTx(v.db, id, expected, item, owner).Err?
  {
  }

  /** In every reachable store a vault item agrees with its credential, and a revoked credential has none. */
  lemma ItemsAgree(es: seq<Event>, c: ID)
    ensures var d := Run(INIT, es).db;
            && (c in d.items ==> c in d.credentials && Agrees(d.items[c], d.credentials[c]))
            && (c in d.credentials && d.credentials[c].status == Revoked ==> c !in d.items)
  {
    Reachable(es);
  }

  // ---- What becomes of a sealed item ----

  lemma ClaimTouches(d: Db, e: Event)
    requires e.Claim? || e.Await? || e.Confirm?
    ensures After(d, EnrollmentTx(d, e)).items == d.items
  {
  }

  lemma DiscardTouches(d: Db, c: ID)
    ensures Discard(d, c).items == d.items && Discard(d, c).enrollments == d.enrollments
  {
  }

  lemma FinishTouches(d: Db, id: ID, client: ID, state: EnrollmentState, at: Time)
    ensures After(d, FinishTx(d, id, client, state, at)).items == d.items
  {
    if FinishTx(d, id, client, state, at).Ok? && d.enrollments[id].state != state {
      var e, c := d.enrollments[id].(state := state), d.enrollments[id].credential.value;
      DiscardTouches(d.(enrollments := d.enrollments[id := e.(credential := None)]), c);
    }
  }

  lemma ExpiryTouches(d: Db, at: Time)
    ensures After(d, ExpireAllTx(d, at)).items == d.items
  {
  }

  lemma EnrollmentTouches(d: Db, e: Event)
    requires IsEnrollment(e)
    ensures After(d, EnrollmentTx(d, e)).items == d.items
  {
    match e
    case Finish(id, client, state, at) => FinishTouches(d, id, client, state, at);
    case ExpireDue(id, at) =>
      if id in d.enrollments {
        FinishTouches(d, id, d.enrollments[id].client, Lapsed, at);
      }
    case ExpireAll(at) => ExpiryTouches(d, at);
    case _ => ClaimTouches(d, e);
  }

  lemma BeginTouches(d: Db, id: ID, e: Enrollment, placeholder: Option<Credential>)
    ensures After(d, BeginTx(d, id, e, placeholder)).items == d.items
  {
  }

  lemma RowTouches(d: Db, e: Event)
    requires IsRow(e)
    ensures After(d, RowTx(d, e)).items == d.items && After(d, RowTx(d, e)).enrollments == d.enrollments
  {
  }

  lemma SessionTouches(d: Db, e: Event)
    requires IsSession(e)
    ensures After(d, SessionTx(d, e)).items == d.items && After(d, SessionTx(d, e)).enrollments == d.enrollments
  {
  }

  lemma ConsumeTouches(w: World, q: ConsumeRequest)
    ensures ApplyConsume(w, q).db.items == w.db.items && ApplyConsume(w, q).db.enrollments == w.db.enrollments
  {
    if ConsumeTx(w.db, q).Ok? && w.db.previews[q.preview].consumed.None? {
      Consumed(w.db, q);
    }
  }

  lemma CreateCredentialTouches(w: World, id: ID, c: Credential)
    ensures var d := AddCredentialId(w, id, CreateCredentialTx(w.db, id, c)).db;
            d.items == w.db.items && d.enrollments == w.db.enrollments
  {
  }

  lemma CreatePreviewTouches(w: World, id: ID, v: Preview)
    ensures var d := AddPreviewId(w, id, CreatePreviewTx(w.db, id, v)).db;
            d.items == w.db.items && d.enrollments == w.db.enrollments
  {
  }

  lemma WriteTouches(w: World, e: Event)
    requires e.WriteTransition?
    ensures var d := ApplyTransition(w, e).db; d.items == w.db.items && d.enrollments == w.db.enrollments
  {
  }

  /** The event leaves both the items and the enrollments alone. */
  predicate TouchesNeither(w: World, e: Event) {
    Apply(w, e).db.items == w.db.items && Apply(w, e).db.enrollments == w.db.enrollments
  }

  lemma CreationTouches(w: World, e: Event)
    requires e.CreateCredential? || e.CreatePreview?
    ensures TouchesNeither(w, e)
  {
    if e.CreateCredential? {
      CreateCredentialTouches(w, e.id, e.credential);
    } else {
      CreatePreviewTouches(w, e.id, e.preview);
    }
  }

  lemma ConsumptionTouches(w: World, e: Event)
    requires e.Consume?
    ensures TouchesNeither(w, e)
  {
    ConsumeTouches(w, e.request);
  }

  lemma MoveTouches(w: World, e: Event)
    requires e.ReadSession? || e.WriteTransition?
    ensures TouchesNeither(w, e)
  {
    if e.WriteTransition? {
      assert Apply(w, e) == ApplyTransition(w, e);
      WriteTouches(w, e);
    }
  }

  /** The world's own events, but for beginning an enrollment. */
  lemma OtherTouches(w: World, e: Event)
    requires e.CreateCredential? || e.CreatePreview? || e.Consume? || e.ReadSession? || e.WriteTransition?
    ensures TouchesNeither(w, e)
  {
    if e.CreateCredential? || e.CreatePreview? {
      CreationTouches(w, e);
    } else if e.Consume? {
      ConsumptionTouches(w, e);
    } else {
      MoveTouches(w, e);
    }
  }

  lemma OnlySealsTouchItems(w: World, e: Event)
    requires !IsVault(e)
    ensures Apply(w, e).db.items == w.db.items
  {
    if IsRow(e) {
      RowTouches(w.db, e);
    } else if IsEnrollment(e) {
      EnrollmentTouches(w.db, e);
    } else if IsSession(e) {
      SessionTouches(w.db, e);
    } else if e.Begin? {
      BeginTouches(w.db, e.id, e.enrollment, e.placeholder);
    } else {
      OtherTouches(w, e);
    }
  }

  /** The credential is as it was when the item was sealed: not sealed again, and not revoked. */
  predicate Unsuperseded(d: Db, c: ID, revision: int) {
    c in d.credentials && d.credentials[c].revision == revision && d.credentials[c].status != Revoked
  }

  /** Unless it superseded the credential, the step left its item as it was. */
  predicate KeepsItem(d: Db, e: Db, c: ID)
    requires c in d.items && c in d.credentials
  {
    Unsuperseded(e, c, d.credentials[c].revision) ==> c in e.items && e.items[c] == d.items[c]
  }

  lemma SealTouches(d: Db, id: ID, expected: int, item: VaultItem, owner: Option<SealOwner>, c: ID)
    requires c in d.items && c in d.credentials
    ensures KeepsItem(d, After(d, SealTx(d, id, expected, item, owner)), c)
  {
  }

  lemma FinalizeTouches(d: Db, id: ID, at: Time, c: ID)
    requires c in d.items && c in d.credentials
    ensures KeepsItem(d, After(d, FinalizeTx(d, id, at)), c)
  {
  }

  lemma VaultTouches(d: Db, e: Event, c: ID)
    requires c in d.items && c in d.credentials && IsVault(e)
    ensures KeepsItem(d, After(d, VaultTx(d, e)), c)
  {
    match e
    case Seal(id, expected, item, owner) => SealTouches(d, id, expected, item, owner, c);
    case Reserve(id, at) =>
    case Finalize(id, at) => FinalizeTouches(d, id, at, c);
  }

  lemma ItemKept(w: World, e: Event, c: ID)
    requires c in w.db.items && c in w.db.credentials
    ensures KeepsItem(w.db, Apply(w, e).db, c)
  {
    if IsVault(e) {
      VaultTouches(w.db, e, c);
    } else {
      OnlySealsTouchItems(w, e);
    }
  }

  /** Over any run, an item stays exactly as it was sealed until it is sealed again or revoked. */
  lemma {:induction false} ItemStays(w: World, es: seq<Event>, c: ID)
    requires WInv(w) && c in w.db.items && c in w.db.credentials
    requires Unsuperseded(Run(w, es).db, c, w.db.credentials[c].revision)
    ensures c in Run(w, es).db.items && Run(w, es).db.items[c] == w.db.items[c]
    decreases |es|
  {
    if es != [] {
      var u := Apply(w, es[0]);
      StepKeeps(w, es[0]);
      RunKeeps(u, es[1..]);
      Between(w, u, Run(w, es), c);
      ItemKept(w, es[0], c);
      ItemStays(u, es[1..], c);
    }
  }

  /** A credential that is unsuperseded at the end was so all along. */
  lemma Between(w: World, u: World, v: World, c: ID)
    requires WInv(w) && WInv(u) && WEvolves(w, u) && WEvolves(u, v) && c in w.db.credentials
    requires Unsuperseded(v.db, c, w.db.credentials[c].revision)
    ensures Unsuperseded(u.db, c, w.db.credentials[c].revision)
  {
  }

  // ---- Enrollments ----

  /**
   An event moves an enrollment along one edge of its diagram or not at all. It succeeds only in the step
   that seals its credential and binds its profile, and only after its own client attested it.
   */
  lemma EnrollmentMoves(w: World, e: Event, x: ID)
    requires WInv(w) && x in w.db.enrollments
    ensures var a, d := w.db.enrollments[x], Apply(w, e).db;
            && x in d.enrollments
            && (d.enrollments[x].state == a.state || Edge(a.state, d.enrollments[x].state))
            && (a.state != Succeeded && d.enrollments[x].state == Succeeded ==> Completed(w.db, d, x))
  {
    StepKeeps(w, e);
  }

  /** Over any run an enrollment follows its diagram, its ends are final, and what it recorded stays. */
  lemma EnrollmentHistory(w: World, es: seq<Event>, x: ID)
    requires WInv(w) && x in w.db.enrollments
    ensures var a, b := w.db.enrollments[x], Run(w, es).db.enrollments;
            && x in b && Reaches(a.state, b[x].state)
            && Kept(a.completion, b[x].completion) && Kept(a.confirmation, b[x].confirmation)
            && Kept(a.attested, b[x].attested)
            && (!a.state.Open() ==> b[x] == a)
            && (b[x].state == Succeeded ==> b[x].attested.Some? && b[x].attested.value.client == b[x].client)
  {
    RunKeeps(w, es);
    assert Shaped(Run(w, es).db.enrollments[x]);
  }

  /** The client on whose behalf an event acts on an enrollment. */
  function ClientOf(e: Event): Option<ID> {
    match e
    case Claim(_, client, _, _) => Some(client)
    case Await(_, client, _, _) => Some(client)
    case Confirm(_, client, _, _, _) => Some(client)
    case Finish(_, client, _, _) => Some(client)
    case Seal(_, _, _, owner) => if owner.Some? then Some(owner.value.client) else None
    case _ => None
  }

  /** How an enrollment may change: by its own client, with the digests it holds, or by an expiry that ends it. */
  predicate Proper(e: Event, a: Enrollment, b: Enrollment) {
    && (e.ExpireAll? || (e.ExpireDue? && a.state.Open() && b.state == Lapsed) || ClientOf(e) == Some(a.client))
    && (a.completion != b.completion ==> e.Claim? && b.completion == Some(e.completion))
    && (a.confirmation != b.confirmation ==> e.Await? && b.confirmation == Some(e.confirmation))
    && (a.attested != b.attested ==>
          e.Confirm? && a.confirmation.Some? && e.alias == a.confirmation.value.alias &&
          b.attested == Some(Attestation(e.client, e.at)))
    && (a.state != b.state && b.state == Succeeded ==>
          e.Seal? && e.owner.Some? && a.completion == Some(e.owner.value.completion))
  }

  /** The enrollment is still there, and unchanged or properly changed. */
  predicate ChangesProperly(e: Event, a: map<ID, Enrollment>, b: map<ID, Enrollment>, x: ID) {
    x in a && x in b && (b[x] == a[x] || Proper(e, a[x], b[x]))
  }

  lemma ClaimProper(d: Db, id: ID, client: ID, completion: Digest, live: bool, x: ID)
    requires x in d.enrollments
    ensures ChangesProperly(Claim(id, client, completion, live), d.enrollments,
                            After(d, ClaimTx(d, id, client, completion, live)).enrollments, x)
  {
  }

  lemma AwaitProper(d: Db, id: ID, client: ID, k: Confirmation, live: bool, x: ID)
    requires x in d.enrollments
    ensures ChangesProperly(Await(id, client, k, live), d.enrollments,
                            After(d, AwaitTx(d, id, client, k, live)).enrollments, x)
  {
  }

  lemma ConfirmProper(d: Db, id: ID, client: ID, alias: Digest, at: Time, live: bool, x: ID)
    requires x in d.enrollments
    ensures ChangesProperly(Confirm(id, client, alias, at, live), d.enrollments,
                            After(d, ConfirmTx(d, id, client, alias, at, live)).enrollments, x)
  {
  }

  lemma FinishProper(d: Db, e: Event, id: ID, client: ID, state: EnrollmentState, at: Time, x: ID)
    requires x in d.enrollments
    requires ClientOf(e) == Some(client) || (e.ExpireDue? && state == Lapsed)
    ensures ChangesProperly(e, d.enrollments, After(d, FinishTx(d, id, client, state, at)).enrollments, x)
  {
    if FinishTx(d, id, client, state, at).Ok? && d.enrollments[id].state != state {
      var row, c := d.enrollments[id].(state := state), d.enrollments[id].credential.value;
      DiscardTouches(d.(enrollments := d.enrollments[id := row.(credential := None)]), c);
    }
  }

  lemma SealProper(d: Db, id: ID, expected: int, item: VaultItem, owner: Option<SealOwner>, x: ID)
    requires x in d.enrollments
    ensures ChangesProperly(Seal(id, expected, item, owner), d.enrollments,
                            After(d, SealTx(d, id, expected, item, owner)).enrollments, x)
  {
  }

  lemma ExpiryProper(d: Db, at: Time, x: ID)
    requires x in d.enrollments
    ensures ChangesProperly(ExpireAll(at), d.enrollments, After(d, ExpireAllTx(d, at)).enrollments, x)
  {
    if ExpireAllTx(d, at).Ok? {
      assert ExpireAllTx(d, at).value.enrollments[x] == Lapse(d.enrollments[x], d.items);
    }
  }

  lemma BeginProper(d: Db, id: ID, e: Enrollment, placeholder: Option<Credential>, x: ID)
    requires x in d.enrollments
    ensures var v := After(d, BeginTx(d, id, e, placeholder));
            x in v.enrollments && v.enrollments[x] == d.enrollments[x]
  {
  }

  lemma FinalizeProper(d: Db, id: ID, at: Time)
    ensures After(d, FinalizeTx(d, id, at)).enrollments == d.enrollments
  {
  }

  lemma EnrollmentProper(d: Db, e: Event, x: ID)
    requires x in d.enrollments && IsEnrollment(e)
    ensures ChangesProperly(e, d.enrollments, After(d, EnrollmentTx(d, e)).enrollments, x)
  {
    match e
    case Claim(id, client, completion, live) => ClaimProper(d, id, client, completion, live, x);
    case Await(id, client, confirmation, live) => AwaitProper(d, id, client, confirmation, live, x);
    case Confirm(id, client, alias, at, live) => ConfirmProper(d, id, client, alias, at, live, x);
    case Finish(id, client, state, at) => FinishProper(d, e, id, client, state, at, x);
    case ExpireDue(id, at) =>
      if id in d.enrollments {
        FinishProper(d, e, id, d.enrollments[id].client, Lapsed, at, x);
      }
    case ExpireAll(at) => ExpiryProper(d, at, x);
  }

  lemma VaultProper(d: Db, e: Event, x: ID)
    requires x in d.enrollments && IsVault(e)
    ensures ChangesProperly(e, d.enrollments, After(d, VaultTx(d, e)).enrollments, x)
  {
    match e
    case Seal(id, expected, item, owner) => SealProper(d, id, expected, item, owner, x);
    case Reserve(id, at) =>
    case Finalize(id, at) => FinalizeProper(d, id, at);
  }

  lemma CommitsProperly(w: World, e: Event, x: ID)
    requires x in w.db.enrollments && (IsEnrollment(e) || IsVault(e))
    ensures ChangesProperly(e, w.db.enrollments, Apply(w, e).db.enrollments, x)
  {
    if IsEnrollment(e) {
      EnrollmentProper(w.db, e, x);
    } else {
      VaultProper(w.db, e, x);
    }
  }

  lemma BeginsProperly(w: World, e: Event, x: ID)
    requires x in w.db.enrollments && e.Begin?
    ensures ChangesProperly(e, w.db.enrollments, Apply(w, e).db.enrollments, x)
  {
    BeginProper(w.db, e.id, e.enrollment, e.placeholder, x);
  }

  lemma TouchesProperly(w: World, e: Event, x: ID)
    requires x in w.db.enrollments && !IsEnrollment(e) && !IsVault(e) && !e.Begin?
    ensures ChangesProperly(e, w.db.enrollments, Apply(w, e).db.enrollments, x)
  {
    if IsRow(e) {
      RowTouches(w.db, e);
    } else if IsSession(e) {
      SessionTouches(w.db, e);
    } else {
      OtherTouches(w, e);
    }
  }

  /**
   Nobody but an enrollment's own client moves it, except that the expiry at restart and the expiry that any
   client's begin performs may end it. Each of its write-once fields is filled by the one command that
   carries it, with the digests that were recorded before.
   */
  lemma OnlyOwnerActs(w: World, e: Event, x: ID)
    requires x in w.db.enrollments
    ensures ChangesProperly(e, w.db.enrollments, Apply(w, e).db.enrollments, x)
  {
    if IsEnrollment(e) || IsVault(e) {
      CommitsProperly(w, e, x);
    } else if e.Begin? {
      BeginsProperly(w, e, x);
    } else {
      TouchesProperly(w, e, x);
    }
  }

  // ---- A credential in use is no placeholder ----

  /**
   A materialization is made for a healthy credential at a revision of at least one
   (internal/vault/materialization.go:75-83). Such a credential is never an unsealed placeholder again, so
   the foreign key of the materializations never stands against the deletion of one.
   */
  lemma UsedNeverPlaceholder(w: World, es: seq<Event>, c: ID)
    requires WInv(w) && c in w.db.credentials && w.db.credentials[c].status == Healthy &&
             w.db.credentials[c].revision >= 1
    ensures !Placeholder(Run(w, es).db, c)
  {
    RunKeeps(w, es);
    if c in Run(w, es).db.credentials {
      assert CredentialStep(w.db.credentials[c], Run(w, es).db.credentials[c]);
    }
  }

  // ---- Expiry at restart ----

  /** Only the enrollment itself refers to its placeholder. */
  ghost predicate Private(d: Db, x: ID)
    requires Pending(d, x)
  {
    !Referenced(d.(enrollments := d.enrollments - {x}), d.enrollments[x].credential.value)
  }

  /**
   Recovery expires the enrollments of a stopped daemon, unless some placeholder has a second name. An
   enrollment that waits for its confirmation always gives its placeholder one, in its confirmation
   tuple: the foreign key then forbids the deletion, and the whole transaction fails.
   */
  lemma ExpiryCommitsIff(d: Db, at: Time)
    requires Inv(d) && at != ZERO_TIME
    ensures ExpireAllTx(d, at).Ok? <==> forall x | Pending(d, x) :: d.enrollments[x].state != Awaiting && Private(d, x)
  {
    forall x | x in d.enrollments
      ensures Blocked(d, x) <==> Pending(d, x) && (d.enrollments[x].state == Awaiting || !Private(d, x))
    {
      BlockedIff(d, x);
    }
  }

  lemma BlockedIff(d: Db, x: ID)
    requires Inv(d) && x in d.enrollments
    ensures Blocked(d, x) <==> Pending(d, x) && (d.enrollments[x].state == Awaiting || !Private(d, x))
  {
    assert Shaped(d.enrollments[x]);
    if Pending(d, x) {
      var c := d.enrollments[x].credential.value;
      var freed := d.(enrollments := d.enrollments[x := d.enrollments[x].(credential := None)]);
      assert Names(freed.enrollments[x], c) <==> d.enrollments[x].state == Awaiting;
      assert freed.enrollments - {x} == d.enrollments - {x};
      OneMoreName(freed, d.(enrollments := d.enrollments - {x}), x, c);
    }
  }

  lemma OneMoreName(d: Db, e: Db, x: ID, c: ID)
    requires x in d.enrollments && e == d.(enrollments := d.enrollments - {x})
    ensures Referenced(d, c) <==> Referenced(e, c) || Names(d.enrollments[x], c)
  {
    if y :| y in d.enrollments && y != x && Names(d.enrollments[y], c) {
      assert y in e.enrollments && Names(e.enrollments[y], c);
    }
  }

  const PROFILE := Profile(7, 1, Codex, None, false, true, 1)
  const ACCOUNT := Account(Codex, true, false, 1)
  const PLACEHOLDER := Credential(7, Some(1), Codex, Unknown, 1, ZERO_DIGEST)
  const BEGUN := Enrollment(9, 2, Some(3), Begun, 5, None, None, None, 100)
  const VALIDATING := BEGUN.(state := Validating, completion := Some(8))
  const TUPLE := Confirmation(1, 1, 2, 1, 3, 1, 6)
  const AWAITING := VALIDATING.(state := Awaiting, confirmation := Some(TUPLE))

  /** A client enrolls a new credential up to the point where the operator must confirm. */
  const SCRIPT := [PutAccount(1, ACCOUNT), PutProfile(2, PROFILE), Begin(4, BEGUN, Some(PLACEHOLDER)),
                   Claim(4, 9, 8, true), Await(4, 9, TUPLE, true)]

  const PROFILED := EMPTY_DB.(accounts := map[1 := ACCOUNT], profiles := map[2 := PROFILE])

  function Enrolling(e: Enrollment): World {
    INIT.(db := PROFILED.(credentials := map[3 := PLACEHOLDER], enrollments := map[4 := e]), credentialIds := {3})
  }

  lemma {:induction false} RunSnoc(w: World, es: seq<Event>, e: Event)
    ensures Run(w, es + [e]) == Apply(Run(w, es), e)
    decreases |es|
  {
    if es == [] {
      assert es + [e] == [e] && [e][1..] == [];
    } else {
      assert (es + [e])[1..] == es[1..] + [e];
      RunSnoc(Apply(w, es[0]), es[1..], e);
    }
  }

  lemma ScriptNext(k: nat, w: World)
    requires k < 5 && Run(INIT, SCRIPT[..k]) == w
    ensures Run(INIT, SCRIPT[..k + 1]) == Apply(w, SCRIPT[k])
  {
    assert SCRIPT[..k + 1] == SCRIPT[..k] + [SCRIPT[k]];
    RunSnoc(INIT, SCRIPT[..k], SCRIPT[k]);
  }

  lemma ScriptRows()
    ensures Run(INIT, SCRIPT[..2]) == INIT.(db := PROFILED)
  {
    var w := INIT.(db := EMPTY_DB.(accounts := map[1 := ACCOUNT]));
    assert SCRIPT[..0] == [];
    ScriptNext(0, INIT);
    assert Run(INIT, SCRIPT[..1]) == w;
    ScriptNext(1, w);
  }

  lemma BeginsFirst()
    ensures ApplyBegin(INIT.(db := PROFILED), 4, BEGUN, Some(PLACEHOLDER)) == Enrolling(BEGUN)
  {
  }

  lemma ScriptBegins()
    ensures Run(INIT, SCRIPT[..3]) == Enrolling(BEGUN)
  {
    var w := INIT.(db := PROFILED);
    ScriptRows();
    ScriptNext(2, w);
    assert Apply(w, SCRIPT[2]) == ApplyBegin(w, 4, BEGUN, Some(PLACEHOLDER));
    BeginsFirst();
  }

  lemma ScriptClaims()
    ensures Run(INIT, SCRIPT[..4]) == Enrolling(VALIDATING)
  {
    ScriptBegins();
    ScriptNext(3, Enrolling(BEGUN));
  }

  lemma ScriptAwaits()
    ensures Run(INIT, SCRIPT[..5]) == Enrolling(AWAITING)
  {
    ScriptClaims();
    ScriptNext(4, Enrolling(VALIDATING));
  }

  lemma AwaitingBlocks(d: Db)
    requires d == Enrolling(AWAITING).db
    ensures Blocked(d, 4)
  {
    assert Names(d.enrollments[4 := AWAITING.(credential := None)][4], 3);
  }

  /** It happens: an ordinary enrollment that reached its confirmation cannot be expired. */
  lemma ExpiryFails(at: Time)
    requires at != ZERO_TIME
    ensures exists es :: ExpireAllTx(Run(INIT, es).db, at) == Err(Conflict)
  {
    ScriptAwaits();
    AwaitingBlocks(Enrolling(AWAITING).db);
  }

  lemma LapsesFirst(d: Db, at: Time)
    requires at != ZERO_TIME && d == Enrolling(BEGUN).db
    ensures ExpireDueTx(d, 4, at) == Ok(Delete(Enrolling(BEGUN.(state := Lapsed, credential := None)).db, {3}))
  {
    var e := Enrolling(BEGUN.(state := Lapsed, credential := None)).db;
    assert d.(enrollments := d.enrollments[4 := BEGUN.(state := Lapsed, credential := None)]) == e;
    assert !Referenced(e, 3);
  }

  /** And it happens: any client's begin ends another's enrollment and deletes its placeholder. */
  lemma BeginExpiresOthers(at: Time)
    requires at != ZERO_TIME
    ensures exists es :: var d := Run(INIT, es).db;
              4 in d.enrollments && d.enrollments[4].state == Begun && 3 in d.credentials &&
              var r := ExpireDueTx(d, 4, at);
              r.Ok? && 4 in r.value.enrollments && r.value.enrollments[4].state == Lapsed && 3 !in r.value.credentials
  {
    ScriptBegins();
    LapsesFirst(Run(INIT, SCRIPT[..3]).db, at);
  }
}

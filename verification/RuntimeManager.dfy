/**
 Who owns what in the Codex runtime manager (internal/providers/codex/runtime.go): one shared runtime per
 credential, one binding per session, and a global table of bindings beside the runtimes' own. Every
 operation changes them in one critical section of the manager's lock.
 */
module RuntimeManager {
  import opened Base

  type Handle = nat

  /** A runtime that was ever registered; bindings are told apart by identity. */
  datatype Runtime = Runtime(credential: ID, revision: int, bindings: map<ID, nat>, finalizing: bool)

  /**
   The manager. `arena` holds every runtime ever made, `finalizers` those that some goroutine has taken on
   to finalize, `finalized` those on which it was done, both with multiplicity.
   */
  datatype Core = Core(runtimes: map<ID, Handle>, arena: map<Handle, Runtime>, bindings: map<ID, nat>, closed: bool,
                       finalizers: multiset<Handle>, finalized: multiset<Handle>)

  const EMPTY := Core(map[], map[], map[], false, multiset{}, multiset{})

  // ---- The critical sections ----

  /** A registered runtime whose own table has this very binding of the session. */
  predicate Owns(m: Core, c: ID, s: ID) {
    c in m.runtimes && m.runtimes[c] in m.arena && s in m.bindings && s in m.arena[m.runtimes[c]].bindings &&
    m.arena[m.runtimes[c]].bindings[s] == m.bindings[s]
  }

  /** The runtime leaves the table and its goroutine takes on to finalize it. */
  function Retire(m: Core, h: Handle): Core
    requires h in m.arena
  {
    m.(runtimes := m.runtimes - {m.arena[h].credential}, arena := m.arena[h := m.arena[h].(finalizing := true)],
       finalizers := m.finalizers + multiset{h})
  }

  /** Takes a session's binding out of both tables, and retires its runtime with the last one. */
  function ReleaseFrom(m: Core, c: ID, s: ID): Core
    requires c in m.runtimes && m.runtimes[c] in m.arena
  {
    var h := m.runtimes[c];
    var left := m.arena[h].bindings - {s};
    var n := m.(bindings := m.bindings - {s}, arena := m.arena[h := m.arena[h].(bindings := left)]);
    if left == map[] && !m.arena[h].finalizing then Retire(n, h) else n
  }

  /** The search for the owner may find any; where none exists only the global entry goes. */
  ghost function Release(m: Core, s: ID): Core {
    if s !in m.bindings then m
    else if exists c :: Owns(m, c, s) then
      var c :| Owns(m, c, s);
      ReleaseFrom(m, c, s)
    else m.(bindings := m.bindings - {s})
  }

  /** A runtime that failed takes all its sessions with it, unless it is already being finalized. */
  function FailRuntime(m: Core, h: Handle): Core
    requires h in m.arena
  {
    if m.arena[h].finalizing then m
    else
      var r := Retire(m, h);
      r.(bindings := m.bindings - m.arena[h].bindings.Keys, arena := r.arena[h := r.arena[h].(bindings := map[])])
  }

  /** The handles of all registered runtimes. */
  function Registered(m: Core): set<Handle> { set c | c in m.runtimes :: m.runtimes[c] }

  function Close(m: Core): Core {
    if m.closed then m
    else m.(closed := true, runtimes := map[], bindings := map[],
            arena := map h | h in m.arena ::
              if h in Registered(m) then m.arena[h].(finalizing := true) else m.arena[h],
            finalizers := m.finalizers + multiset(Registered(m)))
  }

  /** Why a session may not be bound under this credential, whatever the provider says. */
  function BindRefusal(m: Core, c: ID, revision: int): Option<Code> {
    if m.closed then Some(ProviderFailed)
    else if c in m.runtimes && m.runtimes[c] in m.arena &&
            (m.arena[m.runtimes[c]].finalizing || m.arena[m.runtimes[c]].revision != revision) then
      Some(CredentialRevisionConflict)
    else None
  }

  function Attach(m: Core, h: Handle, s: ID, binding: nat): Core
    requires h in m.arena
  {
    m.(bindings := m.bindings[s := binding],
       arena := m.arena[h := m.arena[h].(bindings := m.arena[h].bindings[s := binding])])
  }

  /** Registers a runtime that has no session yet. */
  function Make(m: Core, c: ID, revision: int, h: Handle): Core {
    m.(runtimes := m.runtimes[c := h], arena := m.arena[h := Runtime(c, revision, map[], false)])
  }

  /**
   The last part of a start: find or make the runtime, open a thread, register the binding. `spawns` and
   `opens` say whether the process and the thread came up; `h` is the new runtime, if one is made. The
   second component says whether the session is now bound.
   */
  function Bind(m: Core, s: ID, binding: nat, c: ID, revision: int, h: Handle, spawns: bool, opens: bool):
    (Core, bool)
  {
    if BindRefusal(m, c, revision).Some? then (m, false)
    else if c in m.runtimes then
      if opens && m.runtimes[c] in m.arena then (Attach(m, m.runtimes[c], s, binding), true) else (m, false)
    else if !spawns || h in m.arena then (m, false)
    else if opens then (Attach(Make(m, c, revision, h), h, s, binding), true)
    else (Retire(Make(m, c, revision, h), h), false)
  }

  /** The goroutine that took it on finalizes the runtime. */
  function Finalize(m: Core, h: Handle): Core {
    if h !in m.finalizers then m
    else m.(finalizers := m.finalizers - multiset{h}, finalized := m.finalized + multiset{h})
  }

  // ---- The invariant ----

  /** Exactly the runtimes that are not being finalized are registered, and each has a session. */
  ghost predicate Listed(m: Core) {
    && (forall c | c in m.runtimes ::
          m.runtimes[c] in m.arena && m.arena[m.runtimes[c]].credential == c && !m.arena[m.runtimes[c]].finalizing)
    && (forall h | h in m.arena && !m.arena[h].finalizing ::
          m.arena[h].credential in m.runtimes && m.runtimes[m.arena[h].credential] == h)
  }

  ghost predicate Occupied(m: Core) {
    forall c | c in m.runtimes && m.runtimes[c] in m.arena :: m.arena[m.runtimes[c]].bindings != map[]
  }

  /** The global table is the disjoint union of the registered runtimes' tables. */
  ghost predicate Partitioned(m: Core) {
    && (forall s | s in m.bindings :: exists c :: Owns(m, c, s))
    && (forall c, s | c in m.runtimes && m.runtimes[c] in m.arena && s in m.arena[m.runtimes[c]].bindings ::
          Owns(m, c, s))
    && (forall c, d, s | Owns(m, c, s) && Owns(m, d, s) :: c == d)
  }

  /** A runtime is finalized, or about to be, exactly once if it is marked and not at all otherwise. */
  ghost predicate Counted(m: Core) {
    forall h :: m.finalizers[h] + m.finalized[h] == if h in m.arena && m.arena[h].finalizing then 1 else 0
  }

  ghost predicate Inv(m: Core) {
    Listed(m) && Occupied(m) && Partitioned(m) && Counted(m) && (m.closed ==> m.runtimes == map[])
  }

  // ---- Each section keeps it ----

  lemma RetireListed(m: Core, h: Handle)
    requires Listed(m) && h in m.arena && !m.arena[h].finalizing && Counted(m)
    ensures Listed(Retire(m, h)) && Counted(Retire(m, h))
    ensures Retire(m, h).runtimes == m.runtimes - {m.arena[h].credential}
  {
  }

  /** Ownership that is only taken away from some sessions stays a partition. */
  lemma Restricted(m: Core, n: Core)
    requires Partitioned(m) && n.bindings.Keys <= m.bindings.Keys
    requires forall d, x :: Owns(n, d, x) <==> Owns(m, d, x) && x in n.bindings
    requires forall d, x | d in n.runtimes && n.runtimes[d] in n.arena && x in n.arena[n.runtimes[d]].bindings ::
               Owns(m, d, x) && x in n.bindings
    ensures Partitioned(n)
  {
  }

  /** A session of one runtime is in no other's table. */
  lemma Apart(m: Core, c: ID, d: ID, x: ID)
    requires Partitioned(m) && Owns(m, d, x) && c != d && c in m.runtimes && m.runtimes[c] in m.arena
    ensures x !in m.arena[m.runtimes[c]].bindings
  {
  }

  lemma ReleaseKeeps(m: Core, c: ID, s: ID)
    requires Inv(m) && Owns(m, c, s)
    ensures Inv(ReleaseFrom(m, c, s)) && ReleaseFrom(m, c, s).bindings == m.bindings - {s}
  {
    var h := m.runtimes[c];
    var n := m.(bindings := m.bindings - {s},
                arena := m.arena[h := m.arena[h].(bindings := m.arena[h].bindings - {s})]);
    DetachListed(m, c, s, n);
    DetachPartitioned(m, c, s, n);
    if n.arena[h].bindings == map[] {
      RetireEmpty(n, c);
    }
  }

  /** `n` is `m` with the binding of `s` taken out of both tables. */
  predicate Detached(m: Core, c: ID, s: ID, n: Core) {
    && c in m.runtimes && m.runtimes[c] in m.arena
    && n == m.(bindings := m.bindings - {s},
               arena := m.arena[m.runtimes[c] :=
                                  m.arena[m.runtimes[c]].(bindings := m.arena[m.runtimes[c]].bindings - {s})])
  }

  lemma DetachListed(m: Core, c: ID, s: ID, n: Core)
    requires Listed(m) && Occupied(m) && Counted(m) && Detached(m, c, s, n)
    ensures Listed(n) && Counted(n)
    ensures forall d | d in n.runtimes && d != c :: n.arena[n.runtimes[d]].bindings != map[]
  {
  }

  lemma DetachPartitioned(m: Core, c: ID, s: ID, n: Core)
    requires Listed(m) && Partitioned(m) && Owns(m, c, s) && Detached(m, c, s, n)
    ensures Partitioned(n)
  {
    forall d, x ensures Owns(n, d, x) <==> Owns(m, d, x) && x in n.bindings {
      DetachOwner(m, c, s, n, d, x);
    }
    forall d, x | d in n.runtimes && n.runtimes[d] in n.arena && x in n.arena[n.runtimes[d]].bindings
      ensures Owns(m, d, x) && x in n.bindings
    {
      DetachOwned(m, c, s, n, d, x);
    }
    Restricted(m, n);
  }

  lemma DetachOwner(m: Core, c: ID, s: ID, n: Core, d: ID, x: ID)
    requires Listed(m) && Partitioned(m) && Owns(m, c, s) && Detached(m, c, s, n)
    ensures Owns(n, d, x) <==> Owns(m, d, x) && x in n.bindings
  {
  }

  lemma DetachOwned(m: Core, c: ID, s: ID, n: Core, d: ID, x: ID)
    requires Listed(m) && Partitioned(m) && Owns(m, c, s) && Detached(m, c, s, n)
    requires d in n.runtimes && n.runtimes[d] in n.arena && x in n.arena[n.runtimes[d]].bindings
    ensures Owns(m, d, x) && x in n.bindings
  {
  }

  lemma RetirePartitioned(m: Core, c: ID)
    requires Listed(m) && Partitioned(m) && c in m.runtimes && m.arena[m.runtimes[c]].bindings == map[]
    ensures Partitioned(Retire(m, m.runtimes[c]))
  {
    var n := Retire(m, m.runtimes[c]);
    forall d, x ensures Owns(n, d, x) <==> Owns(m, d, x) && x in n.bindings {
    }
    Restricted(m, n);
  }

  lemma RetireEmpty(m: Core, c: ID)
    requires Listed(m) && Partitioned(m) && Counted(m) && (m.closed ==> m.runtimes == map[])
    requires c in m.runtimes && m.arena[m.runtimes[c]].bindings == map[]
    requires forall d | d in m.runtimes && d != c :: m.arena[m.runtimes[d]].bindings != map[]
    ensures Inv(Retire(m, m.runtimes[c]))
  {
    RetireListed(m, m.runtimes[c]);
    RetirePartitioned(m, c);
  }

  /** The runtime stays registered, with the sessions it has, and each of them stays bound. */
  ghost predicate Untouched(m: Core, n: Core, c: ID)
    requires c in m.runtimes
  {
    && c in n.runtimes && n.runtimes[c] == m.runtimes[c] && m.runtimes[c] in m.arena && m.runtimes[c] in n.arena
    && n.arena[n.runtimes[c]] == m.arena[m.runtimes[c]]
    && (forall s | Owns(m, c, s) :: Owns(n, c, s))
  }

  lemma FailSpares(m: Core, h: Handle)
    requires Listed(m) && Partitioned(m) && h in m.arena
    ensures forall c | c in m.runtimes && m.runtimes[c] != h :: Untouched(m, FailRuntime(m, h), c)
  {
    if !m.arena[h].finalizing {
      var own := m.arena[h].credential;
      forall c | c in m.runtimes && m.runtimes[c] != h ensures Untouched(m, FailRuntime(m, h), c) {
        forall s | Owns(m, c, s) ensures Owns(FailRuntime(m, h), c, s) {
          Apart(m, own, c, s);
        }
      }
    }
  }

  /** A runtime that fails, perhaps long after it was unregistered, takes no other one with it. */
  lemma FailKeeps(m: Core, h: Handle)
    requires Inv(m) && h in m.arena
    ensures Inv(FailRuntime(m, h)) && FailRuntime(m, h).bindings.Keys <= m.bindings.Keys
    ensures forall c | c in m.runtimes && m.runtimes[c] != h :: Untouched(m, FailRuntime(m, h), c)
  {
    FailSpares(m, h);
    if !m.arena[h].finalizing {
      FailListed(m, h);
      FailPartitioned(m, h);
    }
  }

  lemma FailListed(m: Core, h: Handle)
    requires Listed(m) && Occupied(m) && Counted(m) && h in m.arena && !m.arena[h].finalizing
    ensures var n := FailRuntime(m, h); Listed(n) && Occupied(n) && Counted(n)
  {
  }

  lemma FailPartitioned(m: Core, h: Handle)
    requires Listed(m) && Partitioned(m) && h in m.arena && !m.arena[h].finalizing
    ensures Partitioned(FailRuntime(m, h))
  {
    forall d, x | Owns(m, d, x) && d != m.arena[h].credential ensures x !in m.arena[h].bindings {
      Apart(m, m.arena[h].credential, d, x);
    }
    FailRestricts(m, h, FailRuntime(m, h));
    Restricted(m, FailRuntime(m, h));
  }

  lemma FailRestricts(m: Core, h: Handle, n: Core)
    requires Listed(m) && Partitioned(m) && h in m.arena && !m.arena[h].finalizing && n == FailRuntime(m, h)
    requires forall d, x | Owns(m, d, x) && d != m.arena[h].credential :: x !in m.arena[h].bindings
    ensures forall d, x :: Owns(n, d, x) <==> Owns(m, d, x) && x in n.bindings
    ensures forall d, x | d in n.runtimes && n.runtimes[d] in n.arena && x in n.arena[n.runtimes[d]].bindings ::
              Owns(m, d, x) && x in n.bindings
  {
  }

  lemma CloseKeeps(m: Core)
    requires Inv(m)
    ensures Inv(Close(m)) && Close(m).bindings == map[]
  {
  }

  lemma OnlyOwner(m: Core, n: Core, c: ID, s: ID, d: ID)
    requires Listed(m) && Partitioned(m) && c in m.runtimes && s !in m.bindings
    requires n.runtimes == m.runtimes &&
             (forall h | h in m.arena && h != m.runtimes[c] :: h in n.arena && n.arena[h] == m.arena[h])
    requires Owns(n, d, s)
    ensures d == c
  {
  }

  lemma AttachOwned(m: Core, c: ID, s: ID, binding: nat)
    requires Listed(m) && Partitioned(m) && c in m.runtimes && s !in m.bindings
    ensures var n := Attach(m, m.runtimes[c], s, binding);
            && (forall d, x | x != s :: Owns(n, d, x) <==> Owns(m, d, x))
            && (forall d :: Owns(n, d, s) <==> d == c)
  {
    var n := Attach(m, m.runtimes[c], s, binding);
    forall d | Owns(n, d, s) ensures d == c {
      OnlyOwner(m, n, c, s, d);
    }
  }

  lemma AttachPartitioned(m: Core, c: ID, s: ID, binding: nat)
    requires Listed(m) && Partitioned(m) && c in m.runtimes && s !in m.bindings
    ensures Partitioned(Attach(m, m.runtimes[c], s, binding))
  {
    var n := Attach(m, m.runtimes[c], s, binding);
    AttachOwned(m, c, s, binding);
    forall d, x | d in n.runtimes && x in n.arena[n.runtimes[d]].bindings ensures Owns(n, d, x) {
      if x != s {
        assert Owns(m, d, x);
      }
    }
    forall x | x in n.bindings ensures exists d :: Owns(n, d, x) {
      if x == s {
        assert Owns(n, c, x);
      } else {
        var d :| Owns(m, d, x);
        assert Owns(n, d, x);
      }
    }
  }

  lemma AttachListed(m: Core, c: ID, s: ID, binding: nat)
    requires Listed(m) && Counted(m) && c in m.runtimes
    requires forall d | d in m.runtimes && d != c :: m.arena[m.runtimes[d]].bindings != map[]
    ensures var n := Attach(m, m.runtimes[c], s, binding); Listed(n) && Occupied(n) && Counted(n)
  {
    assert s in Attach(m, m.runtimes[c], s, binding).arena[m.runtimes[c]].bindings;
  }

  lemma AttachKeeps(m: Core, c: ID, s: ID, binding: nat)
    requires Listed(m) && Partitioned(m) && Counted(m) && !m.closed
    requires forall d | d in m.runtimes && d != c :: m.arena[m.runtimes[d]].bindings != map[]
    requires c in m.runtimes && s !in m.bindings
    ensures var n := Attach(m, m.runtimes[c], s, binding); Inv(n) && Owns(n, c, s)
  {
    AttachListed(m, c, s, binding);
    AttachOwned(m, c, s, binding);
    AttachPartitioned(m, c, s, binding);
  }

  lemma MakeListed(m: Core, c: ID, revision: int, h: Handle)
    requires Listed(m) && Occupied(m) && Counted(m) && c !in m.runtimes && h !in m.arena
    ensures var n := Make(m, c, revision, h);
            Listed(n) && Counted(n) && forall d | d in n.runtimes && d != c :: n.arena[n.runtimes[d]].bindings != map[]
  {
  }

  lemma MakePartitioned(m: Core, c: ID, revision: int, h: Handle)
    requires Listed(m) && Partitioned(m) && c !in m.runtimes && h !in m.arena
    ensures Partitioned(Make(m, c, revision, h))
  {
    var n := Make(m, c, revision, h);
    forall d, x ensures Owns(n, d, x) <==> Owns(m, d, x) && x in n.bindings {
    }
    Restricted(m, n);
  }

  lemma MadeKeeps(m: Core, s: ID, binding: nat, c: ID, revision: int, h: Handle)
    requires Inv(m) && !m.closed && s !in m.bindings && c !in m.runtimes && h !in m.arena
    ensures var made := Make(m, c, revision, h);
            && Inv(Attach(made, h, s, binding)) && Owns(Attach(made, h, s, binding), c, s)
            && Inv(Retire(made, h))
  {
    MakeListed(m, c, revision, h);
    MakePartitioned(m, c, revision, h);
    AttachKeeps(Make(m, c, revision, h), c, s, binding);
    RetireEmpty(Make(m, c, revision, h), c);
  }

  /** A session that is not bound yet can be bound, and a failed start leaves no empty runtime behind. */
  lemma BindKeeps(m: Core, s: ID, binding: nat, c: ID, revision: int, h: Handle, spawns: bool, opens: bool)
    requires Inv(m) && s !in m.bindings
    ensures var (n, bound) := Bind(m, s, binding, c, revision, h, spawns, opens);
            && Inv(n) && (!bound ==> n.bindings == m.bindings)
            && (bound ==> n.bindings == m.bindings[s := binding] && c in n.runtimes && Owns(n, c, s))
  {
    if BindRefusal(m, c, revision).None? {
      if c in m.runtimes {
        AttachKeeps(m, c, s, binding);
      } else if spawns && h !in m.arena {
        MadeKeeps(m, s, binding, c, revision, h);
      }
    }
  }

  /** A session has one owner, so the search finds it. */
  lemma Found(m: Core, c: ID, s: ID)
    requires Partitioned(m) && Owns(m, c, s)
    ensures Release(m, s) == ReleaseFrom(m, c, s)
  {
    assert forall d | Owns(m, d, s) :: d == c;
  }

  /** Whichever owner the search finds, the session is bound no longer and no other session is touched. */
  lemma ReleaseAnyKeeps(m: Core, s: ID)
    requires Inv(m)
    ensures Inv(Release(m, s)) && Release(m, s).bindings == m.bindings - {s}
  {
    if s in m.bindings {
      var c :| Owns(m, c, s);
      Found(m, c, s);
      ReleaseKeeps(m, c, s);
    } else {
      assert m.bindings - {s} == m.bindings;
    }
  }

  lemma FinalizeCounted(m: Core, h: Handle)
    requires Counted(m)
    ensures Counted(Finalize(m, h))
  {
  }

  lemma SameTables(m: Core, n: Core)
    requires Listed(m) && Occupied(m) && Partitioned(m)
    requires n.runtimes == m.runtimes && n.arena == m.arena && n.bindings == m.bindings
    ensures Listed(n) && Occupied(n) && Partitioned(n)
  {
    assert forall d, x :: Owns(n, d, x) <==> Owns(m, d, x);
  }

  lemma FinalizeKeeps(m: Core, h: Handle)
    requires Inv(m)
    ensures Inv(Finalize(m, h)) && Finalize(m, h).bindings == m.bindings
  {
    FinalizeCounted(m, h);
    SameTables(m, Finalize(m, h));
  }

  // ---- What each section comes to ----

  /** No credential leads to the runtime, it has no session, and one goroutine has taken on or done its finalizing. */
  ghost predicate Gone(m: Core, h: Handle) {
    && h in m.arena && m.arena[h].finalizing && m.finalizers[h] + m.finalized[h] == 1
    && (forall c | c in m.runtimes :: m.runtimes[c] != h)
  }

  /** A live runtime that fails is gone, its table is empty and no session of it is bound any more. */
  lemma FailTakes(m: Core, h: Handle)
    requires Inv(m) && h in m.arena && !m.arena[h].finalizing
    ensures var n := FailRuntime(m, h);
            && Gone(n, h) && n.arena[h].bindings == map[] && n.finalizers[h] == m.finalizers[h] + 1
            && n.bindings.Keys == m.bindings.Keys - m.arena[h].bindings.Keys
            && n.runtimes.Keys == m.runtimes.Keys - {m.arena[h].credential}
  {
    FailListed(m, h);
  }

  /** One that is being finalized already is left alone. */
  lemma FailAgain(m: Core, h: Handle)
    requires h in m.arena && m.arena[h].finalizing
    ensures FailRuntime(m, h) == m
  {
  }

  /** A release unbinds the session from its owner, which goes exactly with its last one; others are untouched. */
  lemma ReleaseTakes(m: Core, c: ID, s: ID)
    requires Inv(m) && Owns(m, c, s)
    ensures var n, h := Release(m, s), m.runtimes[c];
            && n.bindings == m.bindings - {s} && h in n.arena
            && n.arena[h].bindings == m.arena[h].bindings - {s}
            && (if m.arena[h].bindings.Keys == {s} then Gone(n, h)
                else c in n.runtimes && n.runtimes[c] == h && !n.arena[h].finalizing)
            && (forall d | d in m.runtimes && d != c :: Untouched(m, n, d))
  {
    Found(m, c, s);
    ReleaseKeeps(m, c, s);
    ReleaseLeaves(m, c, s);
    LastOne(m.arena[m.runtimes[c]].bindings, s);
  }

  lemma LastOne(table: map<ID, nat>, s: ID)
    requires s in table
    ensures table - {s} == map[] <==> table.Keys == {s}
  {
    if table - {s} == map[] {
      assert forall x | x in table :: x == s || x in table - {s};
    }
  }

  lemma ReleaseLeaves(m: Core, c: ID, s: ID)
    requires Inv(m) && Owns(m, c, s)
    ensures forall d | d in m.runtimes && d != c :: Untouched(m, ReleaseFrom(m, c, s), d)
  {
    forall d | d in m.runtimes && d != c ensures Untouched(m, ReleaseFrom(m, c, s), d) {
      forall x | Owns(m, d, x) ensures Owns(ReleaseFrom(m, c, s), d, x) {
        Apart(m, c, d, x);
      }
    }
  }

  /** Closing leaves nothing registered or bound, and every runtime that was registered is gone. */
  lemma CloseTakes(m: Core)
    requires Inv(m)
    ensures var n := Close(m);
            && n.closed && n.runtimes == map[] && n.bindings == map[] && n.arena.Keys == m.arena.Keys
            && (forall h | h in m.arena :: Gone(n, h))
  {
    CloseKeeps(m);
  }

  /** The runtime's finalizing is done, once. */
  lemma FinalizeMoves(m: Core, h: Handle)
    ensures var n := Finalize(m, h);
            && n.finalizers[h] + n.finalized[h] == m.finalizers[h] + m.finalized[h]
            && (h in m.finalizers ==> n.finalized[h] == m.finalized[h] + 1)
            && n.(finalizers := m.finalizers, finalized := m.finalized) == m
  {
  }

  /** A start is refused exactly by a closed manager, or by a runtime of another revision or on its way out. */
  lemma RefusesIff(m: Core, c: ID, revision: int)
    requires Inv(m)
    ensures BindRefusal(m, c, revision) == Some(ProviderFailed) <==> m.closed
    ensures BindRefusal(m, c, revision) == Some(CredentialRevisionConflict) <==>
              !m.closed && c in m.runtimes && m.arena[m.runtimes[c]].revision != revision
    ensures BindRefusal(m, c, revision).None? <==>
              !m.closed && (c in m.runtimes ==> m.arena[m.runtimes[c]].revision == revision)
  {
  }

  /** The session is in the table of the credential's runtime `h`, at this revision, beside those it had. */
  ghost predicate BoundIn(n: Core, c: ID, h: Handle, revision: int, had: map<ID, nat>, s: ID, binding: nat) {
    && s in n.bindings && n.bindings[s] == binding && c in n.runtimes && n.runtimes[c] == h && Owns(n, c, s)
    && n.arena[h].credential == c && n.arena[h].revision == revision && !n.arena[h].finalizing
    && n.arena[h].bindings == had[s := binding]
  }

  predicate OthersStay(m: Core, n: Core, c: ID) {
    forall d | d in m.runtimes && d != c :: d in n.runtimes && n.runtimes[d] == m.runtimes[d]
  }

  /** With a runtime there, the session is bound exactly if the runtime is at its revision and the thread opens. */
  lemma BindsThere(m: Core, s: ID, binding: nat, c: ID, revision: int, h: Handle, spawns: bool, opens: bool)
    requires Inv(m) && s !in m.bindings && c in m.runtimes
    ensures var (n, bound) := Bind(m, s, binding, c, revision, h, spawns, opens);
            && (bound <==> opens && m.arena[m.runtimes[c]].revision == revision)
            && (bound ==> BoundIn(n, c, m.runtimes[c], revision, m.arena[m.runtimes[c]].bindings, s, binding))
            && (!bound ==> n == m) && OthersStay(m, n, c)
  {
  }

  /** Without one, exactly if the manager is open, a new process comes up and the thread opens. */
  lemma BindsNew(m: Core, s: ID, binding: nat, c: ID, revision: int, h: Handle, spawns: bool, opens: bool)
    requires Inv(m) && s !in m.bindings && c !in m.runtimes && h !in m.arena
    ensures var (n, bound) := Bind(m, s, binding, c, revision, h, spawns, opens);
            && (bound <==> !m.closed && spawns && opens)
            && (bound ==> BoundIn(n, c, h, revision, map[], s, binding))
            && OthersStay(m, n, c)
  {
  }

  /** A start whose thread does not open leaves a runtime that was there as it is. */
  lemma UnopenedStays(m: Core, s: ID, binding: nat, c: ID, revision: int, h: Handle, spawns: bool)
    requires c in m.runtimes || !spawns || h in m.arena
    ensures Bind(m, s, binding, c, revision, h, spawns, false) == (m, false)
  {
  }

  lemma RetiredIsGone(m: Core, c: ID)
    requires Listed(m) && Counted(m) && c in m.runtimes
    ensures var n := Retire(m, m.runtimes[c]);
            Gone(n, m.runtimes[c]) && n.bindings == m.bindings && n.runtimes == m.runtimes - {c}
  {
    RetireListed(m, m.runtimes[c]);
  }

  lemma MadeIsGone(m: Core, c: ID, revision: int, h: Handle)
    requires Listed(m) && Occupied(m) && Counted(m) && c !in m.runtimes && h !in m.arena
    ensures var n := Retire(Make(m, c, revision, h), h);
            Gone(n, h) && n.bindings == m.bindings && n.runtimes == m.runtimes
  {
    var made := Make(m, c, revision, h);
    MakeListed(m, c, revision, h);
    RetiredIsGone(made, c);
    assert made.runtimes - {c} == m.runtimes;
  }

  /** And one that was made for it is gone. */
  lemma UnopenedGoes(m: Core, s: ID, binding: nat, c: ID, revision: int, h: Handle)
    requires Inv(m) && !m.closed && c !in m.runtimes && h !in m.arena
    ensures var (n, bound) := Bind(m, s, binding, c, revision, h, true, false);
            !bound && Gone(n, h) && n.bindings == m.bindings && n.runtimes == m.runtimes
  {
    MadeIsGone(m, c, revision, h);
  }

  // ---- The manager as the program has it ----

  class Manager {
    var runtimes: map<ID, Handle>
    var arena: map<Handle, Runtime>
    var bindings: map<ID, nat>
    var closed: bool
    ghost var finalizers: multiset<Handle>
    ghost var finalized: multiset<Handle>

    ghost function Snapshot(): Core
      reads this
    {
      Core(runtimes, arena, bindings, closed, finalizers, finalized)
    }

    ghost predicate Valid()
      reads this
    {
      Inv(Snapshot())
    }

    constructor ()
      ensures Valid() && Snapshot() == EMPTY
    {
      runtimes, arena, bindings, closed := map[], map[], map[], false;
      finalizers, finalized := multiset{}, multiset{};
    }

    /** Looks through the registered runtimes for the one that holds the session's binding. */
    method RuntimeForBinding(s: ID) returns (owner: Option<ID>)
      requires s in bindings && forall c | c in runtimes :: runtimes[c] in arena
      ensures owner.Some? ==> Owns(Snapshot(), owner.value, s)
      ensures owner.None? ==> forall c :: !Owns(Snapshot(), c, s)
    {
      var rest := runtimes.Keys;
      while rest != {}
        invariant rest <= runtimes.Keys
        invariant forall c | c in runtimes && c !in rest :: !Owns(Snapshot(), c, s)
        decreases |rest|
      {
        var c :| c in rest;
        rest := rest - {c};
        if s in arena[runtimes[c]].bindings && arena[runtimes[c]].bindings[s] == bindings[s] {
          return Some(c);
        }
      }
      return None;
    }

    /** Lets go of a session's binding; `last` is the runtime that it was the last one of. */
    method ReleaseBinding(s: ID) returns (last: Option<Handle>, ghost owner: Option<ID>)
      requires Valid()
      modifies this
      ensures s !in old(bindings) ==> Snapshot() == old(Snapshot()) && last.None?
      ensures s in old(bindings) ==> owner.Some? && Owns(old(Snapshot()), owner.value, s) &&
                                     Snapshot() == ReleaseFrom(old(Snapshot()), owner.value, s)
      ensures last.Some? ==> finalizers == old(finalizers) + multiset{last.value}
    {
      if s !in bindings { return None, None; }
      var found := RuntimeForBinding(s);
      assert Partitioned(Snapshot());
      var h := runtimes[found.value];
      bindings := bindings - {s};
      arena := arena[h := arena[h].(bindings := arena[h].bindings - {s})];
      if arena[h].bindings != map[] || arena[h].finalizing { return None, found; }
      runtimes := runtimes - {arena[h].credential};
      arena := arena[h := arena[h].(finalizing := true)];
      finalizers := finalizers + multiset{h};
      return Some(h), found;
    }

    method DropSessions(sessions: set<ID>)
      modifies this`bindings
      ensures bindings == old(bindings) - sessions
    {
      var rest := sessions;
      while rest != {}
        invariant rest <= sessions && bindings == old(bindings) - (sessions - rest)
        decreases |rest|
      {
        var s :| s in rest;
        bindings := bindings - {s};
        rest := rest - {s};
      }
    }

    /** Marks and unregisters a failed runtime and deletes its sessions one by one from the global table. */
    method Fail(h: Handle) returns (mine: bool)
      requires h in arena
      modifies this
      ensures Snapshot() == FailRuntime(old(Snapshot()), h)
      ensures mine == !old(arena)[h].finalizing
      ensures h in arena && arena[h].finalizing
      ensures mine ==> arena[h].bindings == map[] && bindings.Keys !! old(arena)[h].bindings.Keys &&
                       finalizers[h] == old(finalizers)[h] + 1
    {
      if arena[h].finalizing { return false; }
      var failed := arena[h];
      runtimes := runtimes - {failed.credential};
      DropSessions(failed.bindings.Keys);
      arena := arena[h := failed.(finalizing := true, bindings := map[])];
      finalizers := finalizers + multiset{h};
      assert arena == FailRuntime(old(Snapshot()), h).arena;
      return true;
    }

    /** Finds or makes the runtime, opens the thread, and registers the binding in both tables. */
    method BindSession(s: ID, binding: nat, c: ID, revision: int, h: Handle, spawns: bool, opens: bool)
      returns (bound: bool)
      requires h !in arena && forall x | x in runtimes :: runtimes[x] in arena
      modifies this
      ensures (Snapshot(), bound) == Bind(old(Snapshot()), s, binding, c, revision, h, spawns, opens)
    {
      if closed { return false; }
      var runtime := h;
      var created := false;
      if c in runtimes {
        runtime := runtimes[c];
        if arena[runtime].finalizing || arena[runtime].revision != revision { return false; }
      } else {
        if !spawns { return false; }
        arena := arena[h := Runtime(c, revision, map[], false)];
        runtimes := runtimes[c := h];
        created := true;
      }
      if !opens {
        if created {
          runtimes := runtimes - {c};
          arena := arena[h := arena[h].(finalizing := true)];
          finalizers := finalizers + multiset{h};
        }
        return false;
      }
      arena := arena[runtime := arena[runtime].(bindings := arena[runtime].bindings[s := binding])];
      bindings := bindings[s := binding];
      return true;
    }

    method MarkAll(handles: set<Handle>)
      requires handles <= arena.Keys
      modifies this`arena, this`finalizers
      ensures arena == map h | h in old(arena) ::
                if h in handles then old(arena)[h].(finalizing := true) else old(arena)[h]
      ensures finalizers == old(finalizers) + multiset(handles)
    {
      var rest := handles;
      while rest != {}
        invariant rest <= handles && arena.Keys == old(arena).Keys
        invariant forall h | h in arena ::
                    arena[h] == if h in handles && h !in rest then old(arena)[h].(finalizing := true) else old(arena)[h]
        invariant finalizers + multiset(rest) == old(finalizers) + multiset(handles)
        decreases |rest|
      {
        var h :| h in rest;
        assert multiset(rest) == multiset(rest - {h}) + multiset{h};
        arena := arena[h := arena[h].(finalizing := true)];
        finalizers := finalizers + multiset{h};
        rest := rest - {h};
      }
    }

    /** Marks every registered runtime, one by one, and empties both tables. */
    method CloseAll()
      requires forall c | c in runtimes :: runtimes[c] in arena
      modifies this
      ensures Snapshot() == Close(old(Snapshot()))
    {
      if closed { return; }
      closed := true;
      MarkAll(set c | c in runtimes :: runtimes[c]);
      runtimes, bindings := map[], map[];
    }
  }
}

/**
 Fake-credential materialization (internal/vault/materialization.go): a row per lease in the database, a
 directory per lease in the file system, and a recovery that makes the two agree after a crash.
 */
module Materialization {
  import opened Base
  import opened Aead

  datatype State = Pending | Active | Quarantined | Released

  datatype Manifest = Manifest(version: int, lease: ID, credential: ID, revision: int, contentDigest: Digest,
                               active: bool)

  datatype Row = Row(credential: ID, revision: int, digest: Digest, state: State, refCount: nat)

  /** An entry of the leases directory is named after a staging area, a lease, or anything else. */
  datatype Name = Staging(n: nat) | LeaseOf(id: ID) | Other(n: nat)

  /** What readable files a folder holds; a manifest that cannot be parsed is absent. */
  datatype Entry = File | Folder(manifest: Option<Manifest>, content: Option<Bytes>)

  /** The two digests are whatever functions they are; nothing is assumed about them. */
  datatype Hashes = Hashes(content: Bytes -> Digest, manifest: Manifest -> Digest)

  datatype Disk = Disk(rows: map<ID, Row>, dirs: map<Name, Entry>, quarantine: multiset<(Name, Entry)>)

  const MANIFEST_VERSION := 1
  const MAX_CONTENT := 64 * 1024

  /** Does the folder hold exactly what the row of the lease says? */
  predicate Matches(h: Hashes, id: ID, row: Row, e: Entry) {
    e.Folder? && e.manifest.Some? && e.content.Some? &&
    var m := e.manifest.value;
    m.version == MANIFEST_VERSION && m.lease == id && m.credential == row.credential && m.revision == row.revision &&
    m.active && h.manifest(m) == row.digest && m.contentDigest == h.content(e.content.value)
  }

  // ---- What recovery should leave ----

  /** The entry stays: it is the folder of a known lease and matches its row. */
  predicate Stays(h: Hashes, rows: map<ID, Row>, n: Name, e: Entry) {
    n.LeaseOf? && n.id in rows && Matches(h, n.id, rows[n.id], e)
  }

  /** The row of a lease whose folder, if there is one, is `e`. */
  function Settled(h: Hashes, id: ID, row: Row, e: Option<Entry>): Row {
    if e.Some? && e.value.Folder? then
      if Matches(h, id, row, e.value) then (if row.state == Pending then row.(state := Active) else row)
      else if row.state == Pending || row.state == Active then row.(state := Quarantined, refCount := 0)
      else row
    else if row.state == Pending then row.(state := Quarantined, refCount := 0)
    else row
  }

  function EntryAt(dirs: map<Name, Entry>, n: Name): Option<Entry> {
    if n in dirs then Some(dirs[n]) else None
  }

  /** The names recovery moves to quarantine. */
  function Strays(h: Hashes, rows: map<ID, Row>, dirs: map<Name, Entry>): set<Name> {
    set n | n in dirs && !Stays(h, rows, n, dirs[n])
  }

  function Items(dirs: map<Name, Entry>, names: set<Name>): set<(Name, Entry)>
    requires names <= dirs.Keys
  {
    set n | n in names :: (n, dirs[n])
  }

  function Recovered(h: Hashes, d: Disk): Disk {
    var strays := Strays(h, d.rows, d.dirs);
    Disk(map id | id in d.rows :: Settled(h, id, d.rows[id], EntryAt(d.dirs, LeaseOf(id))),
         d.dirs - strays,
         d.quarantine + multiset(Items(d.dirs, strays)))
  }

  /** Nothing is pending or staged, and what remains on disk is what the rows say. */
  ghost predicate Clean(h: Hashes, d: Disk) {
    && (forall id | id in d.rows :: d.rows[id].state != Pending)
    && (forall n | n in d.dirs :: n.LeaseOf? && n.id in d.rows && Matches(h, n.id, d.rows[n.id], d.dirs[n]))
  }

  lemma SettledMatches(h: Hashes, id: ID, row: Row, e: Entry)
    ensures Matches(h, id, Settled(h, id, row, Some(e)), e) <==> Matches(h, id, row, e)
  {
  }

  /** From any state at all, recovery leaves a clean one. */
  lemma RecoveredClean(h: Hashes, d: Disk)
    ensures Clean(h, Recovered(h, d))
  {
  }

  /** A clean state is one that recovery does not change, and the only kind. */
  lemma CleanIffFixed(h: Hashes, d: Disk)
    ensures Clean(h, d) <==> Recovered(h, d) == d
  {
  }

  /** Running recovery again changes nothing. */
  lemma RecoverIdempotent(h: Hashes, d: Disk)
    ensures Recovered(h, Recovered(h, d)) == Recovered(h, d)
  {
    RecoveredClean(h, d);
    CleanIffFixed(h, Recovered(h, d));
  }

  /**
   What a folder must hold for its row, spelled out: both files, readable, with a manifest of version 1 in
   state active that names the lease, the credential and the revision of the row, and the two digests.
   */
  predicate Intact(h: Hashes, id: ID, row: Row, e: Entry) {
    match e
    case Folder(Some(m), Some(content)) =>
      && m == Manifest(1, id, row.credential, row.revision, h.content(content), true)
      && row.digest == h.manifest(m)
    case _ => false
  }

  /** Exactly the intact folders of known leases stay, as they are; everything else is in quarantine, as it was. */
  lemma StaysIff(h: Hashes, d: Disk, n: Name)
    ensures var r := Recovered(h, d);
            && (n in r.dirs <==>
                  n in d.dirs && n.LeaseOf? && n.id in d.rows && Intact(h, n.id, d.rows[n.id], d.dirs[n]))
            && (n in r.dirs ==> r.dirs[n] == d.dirs[n])
            && (n in d.dirs ==> r.quarantine[(n, d.dirs[n])] ==
                                d.quarantine[(n, d.dirs[n])] + if n in r.dirs then 0 else 1)
  {
    var strays := Strays(h, d.rows, d.dirs);
    if n in strays {
      assert (n, d.dirs[n]) in Items(d.dirs, strays);
    }
  }

  /** A row that is active or pending is active afterwards exactly if its folder, where it has one, is intact. */
  lemma RowsIff(h: Hashes, d: Disk, id: ID)
    requires id in d.rows
    ensures var r, row := Recovered(h, d), d.rows[id];
            var folder := LeaseOf(id) in d.dirs && d.dirs[LeaseOf(id)].Folder?;
            var intact := folder && Intact(h, id, row, d.dirs[LeaseOf(id)]);
            && r.rows.Keys == d.rows.Keys
            && (row.state == Pending ==>
                  r.rows[id] == if intact then row.(state := Active) else row.(state := Quarantined, refCount := 0))
            && (row.state == Active ==>
                  r.rows[id] == if folder && !intact then row.(state := Quarantined, refCount := 0) else row)
            && (row.state == Quarantined || row.state == Released ==> r.rows[id] == row)
  {
  }

  // ---- The effects of the three operations, each of which a crash may follow ----

  datatype Request = Request(lease: ID, credential: ID, revision: int, content: Bytes, refCount: nat)

  /** The checks on the request itself. */
  predicate Acceptable(q: Request) { q.revision >= 1 && 0 < |q.content| <= MAX_CONTENT }

  /** A revision of at least 1 and between 1 and 65536 bytes. */
  lemma AcceptableIff(q: Request)
    ensures Acceptable(q) <==> 1 <= q.revision && 1 <= |q.content| <= 65536
  {
  }

  datatype Effect =
    | SetRow(id: ID, row: Row)
    | SetDir(name: Name, entry: Entry)
    | Promote(n: nat, lease: ID)
    | RemoveDir(name: Name)
    | Quarantine(name: Name)

  /** `Promote` renames the folder inside a staging area, which stays behind empty. */
  function Exec(d: Disk, e: Effect): Disk {
    match e
    case SetRow(id, row) => d.(rows := d.rows[id := row])
    case SetDir(name, entry) => d.(dirs := d.dirs[name := entry])
    case Promote(n, lease) =>
      if Staging(n) !in d.dirs then d
      else d.(dirs := d.dirs[LeaseOf(lease) := d.dirs[Staging(n)]][Staging(n) := Folder(None, None)])
    case RemoveDir(name) => d.(dirs := d.dirs - {name})
    case Quarantine(name) =>
      if name !in d.dirs then d
      else d.(dirs := d.dirs - {name}, quarantine := d.quarantine + multiset{(name, d.dirs[name])})
  }

  function ExecAll(d: Disk, es: seq<Effect>): Disk
    decreases |es|
  {
    if es == [] then d else ExecAll(Exec(d, es[0]), es[1..])
  }

  function ManifestFor(h: Hashes, q: Request): Manifest {
    Manifest(MANIFEST_VERSION, q.lease, q.credential, q.revision, h.content(q.content), true)
  }

  function RowFor(h: Hashes, q: Request, state: State): Row {
    Row(q.credential, q.revision, h.manifest(ManifestFor(h, q)), state, q.refCount)
  }

  function FolderFor(h: Hashes, q: Request): Entry { Folder(Some(ManifestFor(h, q)), Some(q.content)) }

  /** The row first, then a staging area filled file by file, one rename, and the row again. */
  function MaterializeEffects(h: Hashes, q: Request, n: nat): seq<Effect> {
    [SetRow(q.lease, RowFor(h, q, Pending)),
     SetDir(Staging(n), Folder(None, None)),
     SetDir(Staging(n), Folder(Some(ManifestFor(h, q)), None)),
     SetDir(Staging(n), FolderFor(h, q)),
     Promote(n, q.lease),
     RemoveDir(Staging(n)),
     SetRow(q.lease, RowFor(h, q, Active))]
  }

  /** The state after the first `k` effects, written out. */
  function Partway(h: Hashes, d: Disk, q: Request, n: nat, k: nat): Disk {
    d.(rows := if k == 0 then d.rows else d.rows[q.lease := RowFor(h, q, if k == 7 then Active else Pending)],
       dirs := if k < 2 then d.dirs
               else if k == 2 then d.dirs[Staging(n) := Folder(None, None)]
               else if k == 3 then d.dirs[Staging(n) := Folder(Some(ManifestFor(h, q)), None)]
               else if k == 4 then d.dirs[Staging(n) := FolderFor(h, q)]
               else if k == 5 then d.dirs[LeaseOf(q.lease) := FolderFor(h, q)][Staging(n) := Folder(None, None)]
               else d.dirs[LeaseOf(q.lease) := FolderFor(h, q)])
  }

  lemma {:induction false} ExecSnoc(d: Disk, es: seq<Effect>, e: Effect)
    ensures ExecAll(d, es + [e]) == Exec(ExecAll(d, es), e)
    decreases |es|
  {
    if es == [] {
      assert es + [e] == [e];
      assert ExecAll(Exec(d, e), [e][1..]) == Exec(d, e);
    } else {
      assert (es + [e])[1..] == es[1..] + [e];
      ExecSnoc(Exec(d, es[0]), es[1..], e);
    }
  }

  lemma ExecNext(d: Disk, es: seq<Effect>, i: nat)
    requires i < |es|
    ensures ExecAll(d, es[..i + 1]) == Exec(ExecAll(d, es[..i]), es[i])
  {
    assert es[..i + 1] == es[..i] + [es[i]];
    ExecSnoc(d, es[..i], es[i]);
  }

  lemma {:induction false} PrefixPartway(h: Hashes, d: Disk, q: Request, n: nat, k: nat)
    requires k <= 7 && Staging(n) !in d.dirs
    ensures ExecAll(d, MaterializeEffects(h, q, n)[..k]) == Partway(h, d, q, n, k)
    decreases k
  {
    var es := MaterializeEffects(h, q, n);
    if k > 0 {
      PrefixPartway(h, d, q, n, k - 1);
      assert es[..k] == es[..k - 1] + [es[k - 1]];
      ExecSnoc(d, es[..k - 1], es[k - 1]);
      PartwayStep(h, d, q, n, k);
    } else {
      assert es[..0] == [];
    }
  }

  lemma PartwayStep(h: Hashes, d: Disk, q: Request, n: nat, k: nat)
    requires 0 < k <= 7 && Staging(n) !in d.dirs
    ensures Exec(Partway(h, d, q, n, k - 1), MaterializeEffects(h, q, n)[k - 1]) == Partway(h, d, q, n, k)
  {
    if k == 5 {
      var whole := FolderFor(h, q);
      assert d.dirs[Staging(n) := whole][LeaseOf(q.lease) := whole][Staging(n) := Folder(None, None)] ==
             d.dirs[LeaseOf(q.lease) := whole][Staging(n) := Folder(None, None)];
    } else if k == 6 {
      assert d.dirs[LeaseOf(q.lease) := FolderFor(h, q)][Staging(n) := Folder(None, None)] - {Staging(n)} ==
             d.dirs[LeaseOf(q.lease) := FolderFor(h, q)];
    } else if k == 7 {
      assert d.rows[q.lease := RowFor(h, q, Pending)][q.lease := RowFor(h, q, Active)] ==
             d.rows[q.lease := RowFor(h, q, Active)];
    } else if k == 3 {
      assert d.dirs[Staging(n) := Folder(None, None)][Staging(n) := Folder(Some(ManifestFor(h, q)), None)] ==
             d.dirs[Staging(n) := Folder(Some(ManifestFor(h, q)), None)];
    } else if k == 4 {
      assert d.dirs[Staging(n) := Folder(Some(ManifestFor(h, q)), None)][Staging(n) := FolderFor(h, q)] ==
             d.dirs[Staging(n) := FolderFor(h, q)];
    }
  }

  // ---- A crash in the middle of an operation ----

  /** What the lease's row and folder come to when the first `k` effects happened. */
  function RowAfter(h: Hashes, q: Request, k: nat): Row {
    if k >= 5 then RowFor(h, q, Active) else RowFor(h, q, Quarantined).(refCount := 0)
  }

  lemma FolderMatches(h: Hashes, q: Request, state: State)
    ensures Matches(h, q.lease, RowFor(h, q, state), FolderFor(h, q))
  {
  }

  lemma PartwayRows(h: Hashes, d: Disk, q: Request, n: nat, k: nat)
    requires 0 < k <= 7 && q.lease !in d.rows && LeaseOf(q.lease) !in d.dirs && Staging(n) !in d.dirs
    ensures Recovered(h, Partway(h, d, q, n, k)).rows == Recovered(h, d).rows[q.lease := RowAfter(h, q, k)]
  {
  }

  /** A new row is no reason to treat an entry that was there before differently. */
  lemma SameStays(h: Hashes, d: Disk, q: Request, row: Row)
    requires q.lease !in d.rows && LeaseOf(q.lease) !in d.dirs
    ensures forall x | x in d.dirs :: Stays(h, d.rows[q.lease := row], x, d.dirs[x]) <==> Stays(h, d.rows, x, d.dirs[x])
  {
  }

  /** What a staging area, and the folder of the lease if it is there yet, add to what recovery leaves. */
  lemma AddedDirs(h: Hashes, d: Disk, q: Request, row: Row, dirs: map<Name, Entry>)
    requires q.lease !in d.rows && LeaseOf(q.lease) !in d.dirs
    requires forall x | x in d.dirs :: x in dirs && dirs[x] == d.dirs[x]
    requires forall x | x in dirs && x !in d.dirs :: x.Staging? || x == LeaseOf(q.lease)
    requires LeaseOf(q.lease) in dirs ==> Matches(h, q.lease, row, dirs[LeaseOf(q.lease)])
    ensures dirs - Strays(h, d.rows[q.lease := row], dirs) ==
            (d.dirs - Strays(h, d.rows, d.dirs)) +
            (if LeaseOf(q.lease) in dirs then map[LeaseOf(q.lease) := dirs[LeaseOf(q.lease)]] else map[])
  {
    SameStays(h, d, q, row);
  }

  lemma PartwayShape(h: Hashes, d: Disk, q: Request, n: nat, k: nat)
    requires 0 < k <= 7 && LeaseOf(q.lease) !in d.dirs && Staging(n) !in d.dirs
    ensures var dirs := Partway(h, d, q, n, k).dirs;
            && (forall x | x in d.dirs :: x in dirs && dirs[x] == d.dirs[x])
            && (forall x | x in dirs && x !in d.dirs :: x.Staging? || x == LeaseOf(q.lease))
            && (LeaseOf(q.lease) in dirs <==> k >= 5)
            && (k >= 5 ==> dirs[LeaseOf(q.lease)] == FolderFor(h, q))
  {
  }

  lemma PartwayDirs(h: Hashes, d: Disk, q: Request, n: nat, k: nat)
    requires 0 < k <= 7 && q.lease !in d.rows && LeaseOf(q.lease) !in d.dirs && Staging(n) !in d.dirs
    ensures Recovered(h, Partway(h, d, q, n, k)).dirs ==
            if k >= 5 then Recovered(h, d).dirs[LeaseOf(q.lease) := FolderFor(h, q)] else Recovered(h, d).dirs
  {
    var p := Partway(h, d, q, n, k);
    PartwayShape(h, d, q, n, k);
    FolderMatches(h, q, if k == 7 then Active else Pending);
    AddedDirs(h, d, q, RowFor(h, q, if k == 7 then Active else Pending), p.dirs);
  }

  /**
   If the daemon dies after any number of a materialization's effects, recovery brings it to all or
   nothing: the lease is active with its whole folder, or quarantined without one, or was never there;
   and every other lease is as if only recovery had run.
   */
  lemma MaterializeAtomic(h: Hashes, d: Disk, q: Request, n: nat, k: nat)
    requires k <= 7 && q.lease !in d.rows && LeaseOf(q.lease) !in d.dirs && Staging(n) !in d.dirs
    ensures var r := Recovered(h, ExecAll(d, MaterializeEffects(h, q, n)[..k]));
            && r.rows == (if k == 0 then Recovered(h, d).rows else Recovered(h, d).rows[q.lease := RowAfter(h, q, k)])
            && r.dirs == (if k >= 5 then Recovered(h, d).dirs[LeaseOf(q.lease) := FolderFor(h, q)]
                          else Recovered(h, d).dirs)
  {
    PrefixPartway(h, d, q, n, k);
    if k > 0 {
      PartwayRows(h, d, q, n, k);
      PartwayDirs(h, d, q, n, k);
    }
  }

  // ---- A materialization that returns ----

  /** The two differ in at most one staging area. */
  predicate SameButStaging(x: Disk, y: Disk, n: nat) {
    x.rows == y.rows && x.dirs - {Staging(n)} == y.dirs - {Staging(n)} && x.quarantine == y.quarantine
  }

  /** From `d` to `x` all seven effects came off, but for a staging area that may be left, and the folder matches. */
  ghost predicate Whole(h: Hashes, d: Disk, x: Disk, q: Request, n: nat) {
    && SameButStaging(x, ExecAll(d, MaterializeEffects(h, q, n)), n)
    && LeaseOf(q.lease) in x.dirs && Matches(h, q.lease, RowFor(h, q, Active), x.dirs[LeaseOf(q.lease)])
  }

  lemma MadeWhole(h: Hashes, d: Disk, x: Disk, q: Request, n: nat)
    requires Staging(n) !in d.dirs && x.rows == d.rows[q.lease := RowFor(h, q, Active)] && x.quarantine == d.quarantine
    requires x.dirs - {Staging(n)} == d.dirs[LeaseOf(q.lease) := FolderFor(h, q)]
    ensures Whole(h, d, x, q, n)
  {
    PrefixPartway(h, d, q, n, 7);
    assert MaterializeEffects(h, q, n)[..7] == MaterializeEffects(h, q, n);
    assert (x.dirs - {Staging(n)})[LeaseOf(q.lease)] == FolderFor(h, q);
    FolderMatches(h, q, Active);
  }

  /** Recovery makes the same rows and folders of both. */
  lemma StagingAside(h: Hashes, x: Disk, y: Disk, n: nat)
    requires SameButStaging(x, y, n)
    ensures Recovered(h, x).rows == Recovered(h, y).rows && Recovered(h, x).dirs == Recovered(h, y).dirs
  {
    forall m | m != Staging(n) ensures EntryAt(x.dirs, m) == EntryAt(y.dirs, m) {
      assert EntryAt(x.dirs, m) == EntryAt(x.dirs - {Staging(n)}, m);
      assert EntryAt(y.dirs, m) == EntryAt(y.dirs - {Staging(n)}, m);
    }
    StaysAside(h, x, y, n);
  }

  /** What stays on disk is the same, because a staging area never does. */
  lemma StaysAside(h: Hashes, x: Disk, y: Disk, n: nat)
    requires x.rows == y.rows && forall m | m != Staging(n) :: EntryAt(x.dirs, m) == EntryAt(y.dirs, m)
    ensures Recovered(h, x).dirs == Recovered(h, y).dirs
  {
    forall m ensures EntryAt(Recovered(h, x).dirs, m) == EntryAt(Recovered(h, y).dirs, m) {
      assert EntryAt(x.dirs, m) == EntryAt(y.dirs, m) || m == Staging(n);
    }
    SameEntries(Recovered(h, x).dirs, Recovered(h, y).dirs);
  }

  lemma SameEntries(a: map<Name, Entry>, b: map<Name, Entry>)
    requires forall m :: EntryAt(a, m) == EntryAt(b, m)
    ensures a == b
  {
    assert forall m | m in a :: EntryAt(a, m) == Some(a[m]) && m in b && b[m] == a[m];
    assert forall m | m in b :: EntryAt(b, m) == Some(b[m]) && m in a;
  }

  /**
   A materialization that returns an error, at whatever effect and whether or not it could clean up, is
   brought to all or nothing by the next recovery, just as one that dies.
   */
  lemma FailureAtomic(h: Hashes, d: Disk, x: Disk, q: Request, n: nat, k: nat)
    requires k <= 6 && q.lease !in d.rows && LeaseOf(q.lease) !in d.dirs && Staging(n) !in d.dirs
    requires SameButStaging(x, Partway(h, d, q, n, k), n)
    ensures var r := Recovered(h, x);
            && r.rows == (if k == 0 then Recovered(h, d).rows else Recovered(h, d).rows[q.lease := RowAfter(h, q, k)])
            && r.dirs == (if k >= 5 then Recovered(h, d).dirs[LeaseOf(q.lease) := FolderFor(h, q)]
                          else Recovered(h, d).dirs)
  {
    StagingAside(h, x, Partway(h, d, q, n, k), n);
    PrefixPartway(h, d, q, n, k);
    MaterializeAtomic(h, d, q, n, k);
  }

  /** Removing a folder removes its files, one of them first, and then the folder. */
  function RemoveEffects(id: ID, e: Option<Entry>, contentFirst: bool): seq<Effect> {
    if e.Some? && e.value.Folder? then
      [SetDir(LeaseOf(id), if contentFirst then e.value.(content := None) else e.value.(manifest := None)),
       SetDir(LeaseOf(id), Folder(None, None)),
       RemoveDir(LeaseOf(id))]
    else [RemoveDir(LeaseOf(id))]
  }

  function ReleaseEffects(id: ID, row: Row, e: Option<Entry>, contentFirst: bool): seq<Effect> {
    [SetRow(id, row.(state := Released, refCount := 0))] + RemoveEffects(id, e, contentFirst)
  }

  /** The state after the first `k` effects of a release: a folder that is being removed matches no row. */
  ghost predicate Releasing(d: Disk, x: Disk, id: ID, row: Row, k: nat) {
    && x.rows == (if k == 0 then d.rows else d.rows[id := row.(state := Released, refCount := 0)])
    && (k <= 1 ==> x.dirs == d.dirs)
    && (k >= 2 && LeaseOf(id) in x.dirs ==>
          var e := x.dirs[LeaseOf(id)]; e.Folder? && (e.manifest.None? || e.content.None?))
  }

  lemma {:induction false} ReleasePartway(d: Disk, id: ID, row: Row, contentFirst: bool, k: nat)
    requires k <= |ReleaseEffects(id, row, EntryAt(d.dirs, LeaseOf(id)), contentFirst)|
    ensures var effects := ReleaseEffects(id, row, EntryAt(d.dirs, LeaseOf(id)), contentFirst);
            Releasing(d, ExecAll(d, effects[..k]), id, row, k)
    decreases k
  {
    var es := ReleaseEffects(id, row, EntryAt(d.dirs, LeaseOf(id)), contentFirst);
    if k > 0 {
      ReleasePartway(d, id, row, contentFirst, k - 1);
      assert es[..k] == es[..k - 1] + [es[k - 1]];
      ExecSnoc(d, es[..k - 1], es[k - 1]);
    }
  }

  /**
   A release that dies after any of its effects leaves the row released, and the folder stays through
   recovery if and only if it matched and died right after the row was written: then it stays through every
   later recovery, and a repeated release, which stops at a released row, does not remove it either.
   */
  lemma ReleaseLeaksIff(h: Hashes, d: Disk, id: ID, contentFirst: bool, k: nat)
    requires id in d.rows && d.rows[id].state != Released
    requires 1 <= k <= |ReleaseEffects(id, d.rows[id], EntryAt(d.dirs, LeaseOf(id)), contentFirst)|
    ensures var x := ExecAll(d, ReleaseEffects(id, d.rows[id], EntryAt(d.dirs, LeaseOf(id)), contentFirst)[..k]);
            var r := Recovered(h, x);
            && id in r.rows && r.rows[id].state == Released
            && (LeaseOf(id) in r.dirs <==>
                  k == 1 && LeaseOf(id) in d.dirs && Matches(h, id, d.rows[id], d.dirs[LeaseOf(id)]))
            && (LeaseOf(id) in Recovered(h, r).dirs <==> LeaseOf(id) in r.dirs)
  {
    ReleasePartway(d, id, d.rows[id], contentFirst, k);
    var x := ExecAll(d, ReleaseEffects(id, d.rows[id], EntryAt(d.dirs, LeaseOf(id)), contentFirst)[..k]);
    RecoverIdempotent(h, x);
  }

  /** A release that comes off leaves the row released and unused and the folder gone, and nothing else changed. */
  lemma ReleaseRemoves(d: Disk, id: ID, contentFirst: bool)
    requires id in d.rows
    ensures ExecAll(d, ReleaseEffects(id, d.rows[id], EntryAt(d.dirs, LeaseOf(id)), contentFirst)) ==
            d.(rows := d.rows[id := d.rows[id].(state := Released, refCount := 0)], dirs := d.dirs - {LeaseOf(id)})
  {
    var n := LeaseOf(id);
    var es := ReleaseEffects(id, d.rows[id], EntryAt(d.dirs, n), contentFirst);
    var marked := d.(rows := d.rows[id := d.rows[id].(state := Released, refCount := 0)]);
    assert ExecAll(d, es) == ExecAll(marked, es[1..]);
    RemovesAll(marked, id, contentFirst);
  }

  lemma RemovesAll(d: Disk, id: ID, contentFirst: bool)
    ensures ExecAll(d, RemoveEffects(id, EntryAt(d.dirs, LeaseOf(id)), contentFirst)) ==
            d.(dirs := d.dirs - {LeaseOf(id)})
  {
    var n := LeaseOf(id);
    var es := RemoveEffects(id, EntryAt(d.dirs, n), contentFirst);
    assert es[..|es|] == es;
    ExecNext(d, es, 0);
    if |es| == 3 {
      ExecNext(d, es, 1);
      ExecNext(d, es, 2);
      assert d.dirs[n := es[0].entry][n := Folder(None, None)] - {n} == d.dirs - {n};
    }
  }

  const EMPTY_DISK := Disk(map[], map[], multiset{})

  /** It happens: a materialization, a release that dies after its first effect, and a recovery. */
  lemma LeakHappens(h: Hashes, q: Request, n: nat)
    ensures var made := ExecAll(EMPTY_DISK, MaterializeEffects(h, q, n));
            q.lease in made.rows && made.rows[q.lease].state == Active &&
            var dead := Exec(made, SetRow(q.lease, made.rows[q.lease].(state := Released, refCount := 0)));
            var r := Recovered(h, dead);
            q.lease in r.rows && r.rows[q.lease].state == Released && LeaseOf(q.lease) in r.dirs
  {
    PrefixPartway(h, EMPTY_DISK, q, n, 7);
    assert MaterializeEffects(h, q, n)[..7] == MaterializeEffects(h, q, n);
    FolderMatches(h, q, Released);
  }

  // ---- One row per credential and revision ----

  /** The table's unique key: does the row stand for the credential and revision of the request? */
  predicate Claims(row: Row, q: Request) { row.credential == q.credential && row.revision == q.revision }

  datatype Verdict = Proceed | Existing(row: Row) | Refused(code: Code)

  /** What becomes of a request, given the rows there are. */
  function Decide(h: Hashes, rows: map<ID, Row>, q: Request): Verdict {
    if q.lease in rows then
      if rows[q.lease].digest == h.manifest(ManifestFor(h, q)) && rows[q.lease].state == Active then
        Existing(rows[q.lease])
      else Refused(MaterializationConflict)
    else if exists id | id in rows :: Claims(rows[id], q) then Refused(Conflict)
    else Proceed
  }

  /** A request goes on exactly if its lease is new and no row has its credential at its revision. */
  lemma DecidesIff(h: Hashes, rows: map<ID, Row>, q: Request)
    ensures Decide(h, rows, q) == Proceed <==>
              q.lease !in rows &&
              forall id | id in rows :: !(rows[id].credential == q.credential && rows[id].revision == q.revision)
    ensures Decide(h, rows, q).Existing? <==>
              q.lease in rows && rows[q.lease].state == Active &&
              rows[q.lease].digest ==
                h.manifest(Manifest(1, q.lease, q.credential, q.revision, h.content(q.content), true))
    ensures Decide(h, rows, q).Existing? ==> Decide(h, rows, q).row == rows[q.lease]
    ensures Decide(h, rows, q) == Refused(MaterializationConflict) <==>
              q.lease in rows && !Decide(h, rows, q).Existing?
    ensures Decide(h, rows, q) == Refused(Conflict) <==>
              q.lease !in rows &&
              exists id | id in rows :: rows[id].credential == q.credential && rows[id].revision == q.revision
  {
    if Decide(h, rows, q) != Proceed && q.lease !in rows {
      var id :| id in rows && Claims(rows[id], q);
      assert rows[id].credential == q.credential && rows[id].revision == q.revision;
    }
  }

  /** A materialization that comes off leaves an active row and an intact folder, which recovery keeps. */
  lemma MaterializedIntact(h: Hashes, d: Disk, q: Request, n: nat)
    requires Decide(h, d.rows, q) == Proceed && LeaseOf(q.lease) !in d.dirs && Staging(n) !in d.dirs
    ensures var x := ExecAll(d, MaterializeEffects(h, q, n));
            && q.lease in x.rows && LeaseOf(q.lease) in x.dirs && Staging(n) !in x.dirs
            && x.rows == d.rows[q.lease := Row(q.credential, q.revision, x.rows[q.lease].digest, Active, q.refCount)]
            && Intact(h, q.lease, x.rows[q.lease], x.dirs[LeaseOf(q.lease)])
            && x.dirs[LeaseOf(q.lease)].content == Some(q.content)
            && x.dirs == d.dirs[LeaseOf(q.lease) := x.dirs[LeaseOf(q.lease)]] && x.quarantine == d.quarantine
  {
    PrefixPartway(h, d, q, n, 7);
    assert MaterializeEffects(h, q, n)[..7] == MaterializeEffects(h, q, n);
  }

  /** Another attempt at the same credential and revision, under the same lease or a new one. */
  predicate Retries(rows: map<ID, Row>, q: Request, p: Request) {
    p.credential == q.credential && p.revision == q.revision && (p.lease == q.lease || p.lease !in rows)
  }

  lemma SettledClaims(h: Hashes, d: Disk, q: Request)
    ensures (exists id | id in Recovered(h, d).rows :: Claims(Recovered(h, d).rows[id], q)) <==>
            (exists id | id in d.rows :: Claims(d.rows[id], q))
  {
    var r := Recovered(h, d);
    assert forall id | id in d.rows :: id in r.rows && (Claims(r.rows[id], q) <==> Claims(d.rows[id], q));
  }

  /**
   If a materialization dies, the credential's revision is lost, for its own lease and for any new one, if
   and only if it died after writing the row and before renaming the folder.
   */
  lemma RevisionLostIff(h: Hashes, d: Disk, q: Request, n: nat, k: nat)
    requires k <= 7 && Decide(h, d.rows, q) == Proceed && LeaseOf(q.lease) !in d.dirs && Staging(n) !in d.dirs
    ensures var r := Recovered(h, ExecAll(d, MaterializeEffects(h, q, n)[..k]));
            (forall p | Retries(d.rows, q, p) :: Decide(h, r.rows, p).Refused?) <==> 1 <= k <= 4
  {
    MaterializeAtomic(h, d, q, n, k);
    var r := Recovered(h, ExecAll(d, MaterializeEffects(h, q, n)[..k]));
    if 1 <= k <= 4 {
      assert Claims(r.rows[q.lease], q);
      forall p | Retries(d.rows, q, p) ensures Decide(h, r.rows, p).Refused? {
        assert Claims(r.rows[q.lease], p);
      }
    } else {
      SettledClaims(h, d, q);
      assert Retries(d.rows, q, q) && !Decide(h, r.rows, q).Refused?;
    }
  }

  // ---- Every run ----

  /**
   A materialization or a release that dies, fails or ends after `k` effects, with its staging area cleaned up
   or not, or a recovery.
   */
  datatype Operation =
    | Make(request: Request, n: nat, k: nat, cleans: bool)
    | Give(lease: ID, contentFirst: bool, k: nat)
    | Restart

  function Cut(es: seq<Effect>, k: nat): seq<Effect> { if k < |es| then es[..k] else es }

  function Apply(h: Hashes, d: Disk, o: Operation): Disk {
    match o
    case Make(q, n, k, cleans) =>
      if Decide(h, d.rows, q) != Proceed then d
      else
        var x := ExecAll(d, Cut(MaterializeEffects(h, q, n), k));
        if cleans then x.(dirs := x.dirs - {Staging(n)}) else x
    case Give(id, contentFirst, k) =>
      if id !in d.rows || d.rows[id].state == Released then d
      else ExecAll(d, Cut(ReleaseEffects(id, d.rows[id], EntryAt(d.dirs, LeaseOf(id)), contentFirst), k))
    case Restart => Recovered(h, d)
  }

  function Run(h: Hashes, d: Disk, os: seq<Operation>): Disk
    decreases |os|
  {
    if os == [] then d else Run(h, Apply(h, d, os[0]), os[1..])
  }

  /** A lease from its materialization to its release, neither of which is cut short. */
  lemma LeaseLives(h: Hashes, d: Disk, q: Request, n: nat, contentFirst: bool)
    requires Decide(h, d.rows, q) == Proceed && LeaseOf(q.lease) !in d.dirs && Staging(n) !in d.dirs
    ensures var made := Apply(h, d, Make(q, n, 7, true));
            && q.lease in made.rows && made.rows[q.lease].state == Active && LeaseOf(q.lease) in made.dirs
            && Apply(h, made, Give(q.lease, contentFirst, 4)) ==
               d.(rows := d.rows[q.lease := made.rows[q.lease].(state := Released, refCount := 0)])
            && Run(h, d, [Make(q, n, 7, true), Give(q.lease, contentFirst, 4)]) ==
               Apply(h, made, Give(q.lease, contentFirst, 4))
  {
    var os := [Make(q, n, 7, true), Give(q.lease, contentFirst, 4)];
    var made := Apply(h, d, os[0]);
    MaterializedIntact(h, d, q, n);
    assert made == ExecAll(d, MaterializeEffects(h, q, n)) by {
      assert made.dirs - {Staging(n)} == made.dirs;
    }
    ReleaseRemoves(made, q.lease, contentFirst);
    assert made.dirs - {LeaseOf(q.lease)} == d.dirs;
    assert os[1..] == [os[1]];
    assert Run(h, made, [os[1]]) == Run(h, Apply(h, made, os[1]), [os[1]][1..]);
  }

  /** A row that is over and blocks its credential and revision. */
  predicate Dead(rows: map<ID, Row>, id: ID, credential: ID, revision: int) {
    && id in rows && (rows[id].state == Quarantined || rows[id].state == Released)
    && rows[id].credential == credential && rows[id].revision == revision
  }

  /** An effect that leaves the row alone or ends it. */
  predicate Spares(e: Effect, id: ID, credential: ID, revision: int) {
    e.SetRow? && e.id == id ==>
      e.row.state == Released && e.row.credential == credential && e.row.revision == revision
  }

  lemma {:induction false} EffectsSpare(d: Disk, es: seq<Effect>, id: ID, credential: ID, revision: int)
    requires Dead(d.rows, id, credential, revision)
    requires forall i | 0 <= i < |es| :: Spares(es[i], id, credential, revision)
    ensures Dead(ExecAll(d, es).rows, id, credential, revision)
    decreases |es|
  {
    if es != [] {
      assert Spares(es[0], id, credential, revision);
      EffectsSpare(Exec(d, es[0]), es[1..], id, credential, revision);
    }
  }

  lemma StaysDead(h: Hashes, d: Disk, o: Operation, id: ID, credential: ID, revision: int)
    requires Dead(d.rows, id, credential, revision)
    ensures Dead(Apply(h, d, o).rows, id, credential, revision)
  {
    match o
    case Make(q, n, k, cleans) =>
      if Decide(h, d.rows, q) == Proceed {
        EffectsSpare(d, Cut(MaterializeEffects(h, q, n), k), id, credential, revision);
      }
    case Give(lease, contentFirst, k) =>
      if lease in d.rows && d.rows[lease].state != Released {
        var es := ReleaseEffects(lease, d.rows[lease], EntryAt(d.dirs, LeaseOf(lease)), contentFirst);
        EffectsSpare(d, Cut(es, k), id, credential, revision);
      }
    case Restart =>
  }

  /**
   And it stays lost: over every later run of materializations, releases and recoveries, crashes included, no
   request for that credential and revision is ever taken again, under its own lease or a new one.
   */
  lemma {:induction false} LostForGood(h: Hashes, d: Disk, os: seq<Operation>, id: ID, p: Request)
    requires Dead(d.rows, id, p.credential, p.revision)
    requires p.lease == id || p.lease !in Run(h, d, os).rows
    ensures Dead(Run(h, d, os).rows, id, p.credential, p.revision)
    ensures Decide(h, Run(h, d, os).rows, p).Refused?
    decreases |os|
  {
    if os == [] {
      assert Claims(d.rows[id], p);
    } else {
      StaysDead(h, d, os[0], id, p.credential, p.revision);
      LostForGood(h, Apply(h, d, os[0]), os[1..], id, p);
    }
  }

  // ---- Recovery itself ----

  /** The next thing recovery may do. It marks a bad folder's row before it moves the folder. */
  predicate RecoverStep(h: Hashes, d: Disk, e: Effect) {
    match e
    case SetRow(id, row) =>
      && id in d.rows && row == Settled(h, id, d.rows[id], EntryAt(d.dirs, LeaseOf(id)))
    case Quarantine(n) =>
      && n in d.dirs && !Stays(h, d.rows, n, d.dirs[n])
      && (n.LeaseOf? && n.id in d.rows && d.dirs[n].Folder? ==>
            d.rows[n.id].state == Released || d.rows[n.id].state == Quarantined)
    case _ => false
  }

  ghost predicate RecoverSteps(h: Hashes, d: Disk, es: seq<Effect>)
    decreases |es|
  {
    es == [] || (RecoverStep(h, d, es[0]) && RecoverSteps(h, Exec(d, es[0]), es[1..]))
  }

  lemma SettledTwice(h: Hashes, id: ID, row: Row, e: Option<Entry>)
    ensures Settled(h, id, Settled(h, id, row, e), e) == Settled(h, id, row, e)
  {
  }

  /** A row that recovery has settled is not a reason to treat any entry differently. */
  lemma SetRowResumes(h: Hashes, d: Disk, id: ID)
    requires id in d.rows
    ensures Recovered(h, Exec(d, SetRow(id, Settled(h, id, d.rows[id], EntryAt(d.dirs, LeaseOf(id)))))) ==
            Recovered(h, d)
  {
    var e := EntryAt(d.dirs, LeaseOf(id));
    var row := Settled(h, id, d.rows[id], e);
    var x := Exec(d, SetRow(id, row));
    SettledTwice(h, id, d.rows[id], e);
    forall n | n in d.dirs ensures Stays(h, x.rows, n, d.dirs[n]) <==> Stays(h, d.rows, n, d.dirs[n]) {
      if n == LeaseOf(id) {
        SettledMatches(h, id, d.rows[id], d.dirs[n]);
      }
    }
    assert Strays(h, x.rows, x.dirs) == Strays(h, d.rows, d.dirs);
    assert Recovered(h, x).rows == Recovered(h, d).rows;
  }

  lemma ItemsSplit(dirs: map<Name, Entry>, names: set<Name>, n: Name)
    requires n in names && names <= dirs.Keys
    ensures multiset(Items(dirs, names)) == multiset(Items(dirs - {n}, names - {n})) + multiset{(n, dirs[n])}
  {
    var all, rest := Items(dirs, names), Items(dirs - {n}, names - {n});
    assert (n, dirs[n]) !in rest;
    forall i ensures i in all <==> i in rest || i == (n, dirs[n]) {
      if i in all && i.0 != n {
        assert i.0 in names - {n} && (dirs - {n})[i.0] == dirs[i.0];
      }
    }
    assert all == rest + {(n, dirs[n])};
  }

  lemma QuarantineResumes(h: Hashes, d: Disk, n: Name)
    requires RecoverStep(h, d, Quarantine(n))
    ensures Recovered(h, Exec(d, Quarantine(n))) == Recovered(h, d)
  {
    var x := Exec(d, Quarantine(n));
    var strays := Strays(h, d.rows, d.dirs);
    assert Strays(h, x.rows, x.dirs) == strays - {n};
    assert x.dirs - (strays - {n}) == d.dirs - strays;
    ItemsSplit(d.dirs, strays, n);
    forall id | id in d.rows
      ensures Settled(h, id, d.rows[id], EntryAt(x.dirs, LeaseOf(id))) ==
              Settled(h, id, d.rows[id], EntryAt(d.dirs, LeaseOf(id)))
    {
    }
    assert Recovered(h, x).rows == Recovered(h, d).rows;
  }

  /**
   However far a recovery got before it died, the next complete one ends where the first would have:
   same rows, same folders, same quarantine.
   */
  lemma {:induction false} RecoverResumes(h: Hashes, d: Disk, es: seq<Effect>)
    requires RecoverSteps(h, d, es)
    ensures Recovered(h, ExecAll(d, es)) == Recovered(h, d)
    decreases |es|
  {
    if es != [] {
      if es[0].SetRow? {
        SetRowResumes(h, d, es[0].id);
      } else {
        QuarantineResumes(h, d, es[0].name);
      }
      RecoverResumes(h, Exec(d, es[0]), es[1..]);
    }
  }

  lemma {:induction false} StepsSnoc(h: Hashes, d: Disk, es: seq<Effect>, e: Effect)
    requires RecoverSteps(h, d, es) && RecoverStep(h, ExecAll(d, es), e)
    ensures RecoverSteps(h, d, es + [e]) && ExecAll(d, es + [e]) == Exec(ExecAll(d, es), e)
    decreases |es|
  {
    ExecSnoc(d, es, e);
    if es == [] {
      assert es + [e] == [e] && [e][1..] == [];
    } else {
      assert (es + [e])[1..] == es[1..] + [e];
      StepsSnoc(h, Exec(d, es[0]), es[1..], e);
    }
  }

  lemma {:induction false} StepsPrefix(h: Hashes, d: Disk, es: seq<Effect>, k: nat)
    requires RecoverSteps(h, d, es) && k <= |es|
    ensures RecoverSteps(h, d, es[..k])
    decreases |es|
  {
    if k > 0 {
      assert es[..k][1..] == es[1..][..k - 1];
      StepsPrefix(h, Exec(d, es[0]), es[1..], k - 1);
    }
  }

  /** A recovery that dies after any number of its effects is made good by the next complete one. */
  lemma RecoverCrash(h: Hashes, d: Disk, es: seq<Effect>, k: nat)
    requires RecoverSteps(h, d, es) && k <= |es|
    ensures Recovered(h, ExecAll(d, es[..k])) == Recovered(h, d) && Clean(h, Recovered(h, ExecAll(d, es[..k])))
  {
    StepsPrefix(h, d, es, k);
    RecoverResumes(h, d, es[..k]);
    RecoveredClean(h, d);
  }

  // ---- The materializer as the program has it ----

  class Materializer {
    const hashes: Hashes
    var rows: map<ID, Row>
    var dirs: map<Name, Entry>
    ghost var quarantine: multiset<(Name, Entry)>

    ghost function Snapshot(): Disk
      reads this
    {
      Disk(rows, dirs, quarantine)
    }

    constructor (hashes: Hashes)
      ensures this.hashes == hashes && Snapshot() == Disk(map[], map[], multiset{})
    {
      this.hashes := hashes;
      rows, dirs, quarantine := map[], map[], multiset{};
    }

    /** Moves an entry out of the leases directory. */
    method MoveAway(n: Name)
      requires n in dirs
      modifies this`dirs, this`quarantine
      ensures Snapshot() == Exec(old(Snapshot()), Quarantine(n))
    {
      quarantine := quarantine + multiset{(n, dirs[n])};
      dirs := dirs - {n};
    }

    method Mark(id: ID, state: State, refCount: nat)
      requires id in rows
      modifies this`rows
      ensures Snapshot() == Exec(old(Snapshot()), SetRow(id, old(rows)[id].(state := state, refCount := refCount)))
    {
      rows := rows[id := rows[id].(state := state, refCount := refCount)];
    }

    /**
     Makes the folder of a lease. Each step may be the last one the daemon lives to do, and each may fail:
     `fails` of the seven effects come off, and `cleans` says whether the staging area can be removed.
     */
    method Materialize(q: Request, current: bool, n: nat, fails: nat, cleans: bool) returns (r: Outcome<Row>)
      requires Staging(n) !in dirs
      modifies this
      ensures Decide(hashes, old(rows), q) != Proceed ==> Snapshot() == old(Snapshot())
      ensures r.Ok? ==> q.lease in rows && rows[q.lease] == r.value && r.value.state == Active &&
                        r.value.digest == hashes.manifest(ManifestFor(hashes, q))
      ensures r.Ok? && q.lease !in old(rows) ==>
                Whole(hashes, old(Snapshot()), Snapshot(), q, n) && (Staging(n) in dirs ==> !cleans)
      ensures r.Err? ==> exists k | 0 <= k <= 6 ::
                SameButStaging(Snapshot(), Partway(hashes, old(Snapshot()), q, n, k), n)
      ensures fails >= 7 && Acceptable(q) && current && LeaseOf(q.lease) !in old(dirs) ==>
                (r.Ok? <==> !Decide(hashes, old(rows), q).Refused?)
    {
      assert SameButStaging(Snapshot(), Partway(hashes, Snapshot(), q, n, 0), n);
      if !Acceptable(q) { return Err(InvalidArgument); }
      if !current { return Err(MaterializationConflict); }
      match Decide(hashes, rows, q) {
        case Existing(row) => return Ok(row);
        case Refused(code) => return Err(code);
        case Proceed =>
      }
      if fails == 0 { return Err(Conflict); }
      r := Make(q, n, fails, cleans);
    }

    method Make(q: Request, n: nat, fails: nat, cleans: bool) returns (r: Outcome<Row>)
      requires Staging(n) !in dirs && fails > 0
      modifies this`rows, this`dirs
      ensures r.Ok? <==> fails >= 7 && LeaseOf(q.lease) !in old(dirs)
      ensures r.Ok? ==> r.value == RowFor(hashes, q, Active) && rows == old(rows)[q.lease := r.value] &&
                        Whole(hashes, old(Snapshot()), Snapshot(), q, n) && (Staging(n) in dirs ==> !cleans)
      ensures r.Err? ==> exists k | 0 <= k <= 6 ::
                SameButStaging(Snapshot(), Partway(hashes, old(Snapshot()), q, n, k), n)
    {
      ghost var d := Snapshot();
      rows := rows[q.lease := RowFor(hashes, q, Pending)];
      var code := Stage(q, n, fails, cleans);
      if code.Some? {
        assert SameButStaging(Snapshot(), Partway(hashes, d, q, n, 1), n);
        return Err(code.value);
      }
      Promote(q, n, cleans, d.dirs);
      if fails < 7 {
        assert SameButStaging(Snapshot(), Partway(hashes, d, q, n, 6), n);
        return Err(Conflict);
      }
      rows := rows[q.lease := RowFor(hashes, q, Active)];
      assert rows == d.rows[q.lease := RowFor(hashes, q, Active)];
      MadeWhole(hashes, d, Snapshot(), q, n);
      return Ok(rows[q.lease]);
    }

    /** Writes the two files into a staging area, which is removed again if the folder cannot be renamed. */
    method Stage(q: Request, n: nat, fails: nat, cleans: bool) returns (code: Option<Code>)
      requires Staging(n) !in dirs
      modifies this`dirs
      ensures code.None? <==> fails > 4 && LeaseOf(q.lease) !in old(dirs)
      ensures code.None? ==> dirs == old(dirs)[Staging(n) := FolderFor(hashes, q)]
      ensures code.Some? ==> dirs - {Staging(n)} == old(dirs)
    {
      if fails <= 1 { return Some(Conflict); }
      dirs := dirs[Staging(n) := Folder(None, None)];
      if fails > 2 { dirs := dirs[Staging(n) := Folder(Some(ManifestFor(hashes, q)), None)]; }
      if fails > 3 { dirs := dirs[Staging(n) := FolderFor(hashes, q)]; }
      if fails > 4 && LeaseOf(q.lease) !in dirs { return None; }
      code := Some(if fails > 3 && LeaseOf(q.lease) in dirs then MaterializationConflict else Conflict);
      if cleans { dirs := dirs - {Staging(n)}; }
    }

    /** Renames the folder and removes the staging area, or leaves it where it cannot be removed. */
    method Promote(q: Request, n: nat, cleans: bool, ghost before: map<Name, Entry>)
      requires dirs == before[Staging(n) := FolderFor(hashes, q)] && Staging(n) !in before
      modifies this`dirs
      ensures dirs - {Staging(n)} == before[LeaseOf(q.lease) := FolderFor(hashes, q)]
      ensures Staging(n) in dirs ==> !cleans
    {
      dirs := dirs[LeaseOf(q.lease) := dirs[Staging(n)]][Staging(n) := Folder(None, None)];
      if cleans { dirs := dirs - {Staging(n)}; }
    }

    /** Marks the row, then removes the folder with its files. `k` of these effects come off. */
    method Release(id: ID, contentFirst: bool, k: nat) returns (failure: Option<Code>)
      modifies this`rows, this`dirs
      ensures id !in old(rows) ==> failure == Some(NotFound)
      ensures id in old(rows) && old(rows)[id].state == Released ==> failure.None?
      ensures id !in old(rows) || old(rows)[id].state == Released ==> Snapshot() == old(Snapshot())
      ensures id in old(rows) && old(rows)[id].state != Released ==>
                var es := ReleaseEffects(id, old(rows)[id], EntryAt(old(dirs), LeaseOf(id)), contentFirst);
                && Snapshot() == ExecAll(old(Snapshot()), Cut(es, k))
                && failure == (if k < |es| then Some(Conflict) else None)
                && (failure.None? ==> LeaseOf(id) !in dirs)
    {
      if id !in rows { return Some(NotFound); }
      if rows[id].state == Released { return None; }
      if k == 0 { return Some(Conflict); }
      ghost var es := ReleaseEffects(id, rows[id], EntryAt(dirs, LeaseOf(id)), contentFirst);
      assert Cut(es, k)[1..] == Cut(RemoveEffects(id, EntryAt(dirs, LeaseOf(id)), contentFirst), k - 1);
      Mark(id, Released, 0);
      var gone := RemoveAll(id, contentFirst, k - 1);
      return if gone then None else Some(Conflict);
    }

    method RemoveAll(id: ID, contentFirst: bool, k: nat) returns (gone: bool)
      modifies this`dirs
      ensures var es := RemoveEffects(id, EntryAt(old(dirs), LeaseOf(id)), contentFirst);
              Snapshot() == ExecAll(old(Snapshot()), Cut(es, k)) && (gone <==> k >= |es|)
      ensures gone ==> LeaseOf(id) !in dirs
    {
      var n := LeaseOf(id);
      ghost var d, es := Snapshot(), RemoveEffects(id, EntryAt(dirs, n), contentFirst);
      assert es[..|es|] == es;
      ExecNext(d, es, 0);
      if k == 0 { return false; }
      if n in dirs && dirs[n].Folder? {
        ExecNext(d, es, 1);
        ExecNext(d, es, 2);
        dirs := dirs[n := if contentFirst then dirs[n].(content := None) else dirs[n].(manifest := None)];
        if k == 1 { return false; }
        dirs := dirs[n := Folder(None, None)];
        if k == 2 { return false; }
      }
      dirs := dirs - {n};
      return true;
    }

    /** Deals with one entry of the leases directory. */
    method RecoverEntry(n: Name, ghost d: Disk, ghost trace: seq<Effect>) returns (ghost more: seq<Effect>)
      requires n in dirs && RecoverSteps(hashes, d, trace) && ExecAll(d, trace) == Snapshot()
      modifies this
      ensures RecoverSteps(hashes, d, more) && ExecAll(d, more) == Snapshot()
      ensures dirs == old(dirs) || dirs == old(dirs) - {n}
      ensures rows.Keys == old(rows).Keys && forall id | id in rows && n != LeaseOf(id) :: rows[id] == old(rows)[id]
      ensures n in dirs ==> Stays(hashes, rows, n, dirs[n])
      ensures n.LeaseOf? && n.id in rows && old(dirs)[n].Folder? ==> rows[n.id].state != Pending
    {
      more := trace;
      if !n.LeaseOf? || !dirs[n].Folder? || n.id !in rows {
        StepsSnoc(hashes, d, more, Quarantine(n));
        MoveAway(n);
        more := more + [Quarantine(n)];
        return;
      }
      var row := rows[n.id];
      if !Matches(hashes, n.id, row, dirs[n]) {
        if row.state == Pending || row.state == Active {
          ghost var e := SetRow(n.id, row.(state := Quarantined, refCount := 0));
          StepsSnoc(hashes, d, more, e);
          Mark(n.id, Quarantined, 0);
          more := more + [e];
        }
        StepsSnoc(hashes, d, more, Quarantine(n));
        MoveAway(n);
        more := more + [Quarantine(n)];
      } else if row.state == Pending {
        ghost var e := SetRow(n.id, row.(state := Active));
        StepsSnoc(hashes, d, more, e);
        Mark(n.id, Active, row.refCount);
        more := more + [e];
      }
    }

    /** First every entry as it was listed, in any order, then every pending row that had no folder. */
    method Recover() returns (ghost trace: seq<Effect>)
      modifies this
      ensures Snapshot() == Recovered(hashes, old(Snapshot())) && Clean(hashes, Snapshot())
      ensures RecoverSteps(hashes, old(Snapshot()), trace) && ExecAll(old(Snapshot()), trace) == Snapshot()
    {
      ghost var d := Snapshot();
      var listed := dirs.Keys;
      var seen := set id | id in rows && LeaseOf(id) in dirs && dirs[LeaseOf(id)].Folder?;
      trace := RecoverEntries(listed, d);
      trace := RecoverRows(seen, d, trace);
      RecoverResumes(hashes, d, trace);
      CleanIffFixed(hashes, Snapshot());
    }

    method RecoverEntries(listed: set<Name>, ghost d: Disk) returns (ghost trace: seq<Effect>)
      requires listed == dirs.Keys && d == Snapshot()
      modifies this
      ensures RecoverSteps(hashes, d, trace) && ExecAll(d, trace) == Snapshot()
      ensures EntriesDone(hashes, d, rows, dirs, {})
    {
      trace := [];
      var rest := listed;
      while rest != {}
        invariant rest <= dirs.Keys
        invariant RecoverSteps(hashes, d, trace) && ExecAll(d, trace) == Snapshot()
        invariant EntriesDone(hashes, d, rows, dirs, rest)
        decreases |rest|
      {
        var n :| n in rest;
        ghost var rowsBefore, dirsBefore := rows, dirs;
        trace := RecoverEntry(n, d, trace);
        EntryDone(hashes, d, rowsBefore, dirsBefore, rest, n, rows, dirs);
        rest := rest - {n};
      }
    }

    /** Quarantines a pending row that has no folder. */
    method RecoverRow(id: ID, ghost d: Disk, ghost trace: seq<Effect>) returns (ghost more: seq<Effect>)
      requires RecoverSteps(hashes, d, trace) && ExecAll(d, trace) == Snapshot()
      requires EntriesDone(hashes, d, rows, dirs, {}) && id in rows && rows[id].state == Pending
      requires !(LeaseOf(id) in d.dirs && d.dirs[LeaseOf(id)].Folder?)
      modifies this`rows
      ensures RecoverSteps(hashes, d, more) && ExecAll(d, more) == Snapshot()
      ensures EntriesDone(hashes, d, rows, dirs, {})
      ensures rows == old(rows)[id := old(rows)[id].(state := Quarantined, refCount := 0)]
    {
      ghost var e := SetRow(id, rows[id].(state := Quarantined, refCount := 0));
      MissingRow(hashes, d, rows, dirs, id);
      StepsSnoc(hashes, d, trace, e);
      Mark(id, Quarantined, 0);
      more := trace + [e];
    }

    method RecoverRows(seen: set<ID>, ghost d: Disk, ghost begun: seq<Effect>) returns (ghost trace: seq<Effect>)
      requires RecoverSteps(hashes, d, begun) && ExecAll(d, begun) == Snapshot()
      requires EntriesDone(hashes, d, rows, dirs, {})
      requires seen == set id | id in d.rows && LeaseOf(id) in d.dirs && d.dirs[LeaseOf(id)].Folder?
      modifies this`rows
      ensures RecoverSteps(hashes, d, trace) && ExecAll(d, trace) == Snapshot() && Clean(hashes, Snapshot())
    {
      trace := begun;
      var rest := rows.Keys;
      while rest != {}
        invariant rest <= rows.Keys
        invariant RecoverSteps(hashes, d, trace) && ExecAll(d, trace) == Snapshot()
        invariant EntriesDone(hashes, d, rows, dirs, {})
        invariant forall id | id in rows && id !in rest :: rows[id].state != Pending
        decreases |rest|
      {
        var id :| id in rest;
        if rows[id].state == Pending && id !in seen {
          trace := RecoverRow(id, d, trace);
        }
        rest := rest - {id};
      }
      DoneIsClean(hashes, d, Snapshot());
    }
  }

  lemma DoneIsClean(h: Hashes, d: Disk, r: Disk)
    requires EntriesDone(h, d, r.rows, r.dirs, {}) && forall id | id in r.rows :: r.rows[id].state != Pending
    ensures Clean(h, r)
  {
  }

  /** Every entry but those in `rest` was dealt with: it matches or is gone, and its row is settled. */
  ghost predicate EntriesDone(h: Hashes, d: Disk, rows: map<ID, Row>, dirs: map<Name, Entry>, rest: set<Name>) {
    && rows.Keys == d.rows.Keys && dirs.Keys <= d.dirs.Keys
    && (forall n | n in dirs :: dirs[n] == d.dirs[n] && (n !in rest ==> Stays(h, rows, n, dirs[n])))
    && (forall id | id in rows && LeaseOf(id) in d.dirs && d.dirs[LeaseOf(id)].Folder? && LeaseOf(id) !in rest ::
          rows[id].state != Pending)
  }

  lemma EntryDone(h: Hashes, d: Disk, rows: map<ID, Row>, dirs: map<Name, Entry>, rest: set<Name>, n: Name,
                  rowsNow: map<ID, Row>, dirsNow: map<Name, Entry>)
    requires EntriesDone(h, d, rows, dirs, rest) && n in rest && n in dirs && rowsNow.Keys == rows.Keys
    requires dirsNow == dirs || dirsNow == dirs - {n}
    requires forall id | id in rows && n != LeaseOf(id) :: rowsNow[id] == rows[id]
    requires n in dirsNow ==> Stays(h, rowsNow, n, dirsNow[n])
    requires n.LeaseOf? && n.id in rows && dirs[n].Folder? ==> rowsNow[n.id].state != Pending
    ensures EntriesDone(h, d, rowsNow, dirsNow, rest - {n})
  {
  }

  /** A pending row that is left has no entry, so settling it disturbs no other. */
  lemma MissingRow(h: Hashes, d: Disk, rows: map<ID, Row>, dirs: map<Name, Entry>, id: ID)
    requires EntriesDone(h, d, rows, dirs, {}) && id in rows && rows[id].state == Pending
    requires !(LeaseOf(id) in d.dirs && d.dirs[LeaseOf(id)].Folder?)
    ensures LeaseOf(id) !in dirs
    ensures EntriesDone(h, d, rows[id := rows[id].(state := Quarantined, refCount := 0)], dirs, {})
  {
  }
}

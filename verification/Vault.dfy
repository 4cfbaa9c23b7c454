/** Sealing and reading vault items (internal/vault/vault.go) with an idealised authenticated cipher. */
module Vault {
  import opened Base
  import opened Aead

  const WORD: nat := 0x1_0000_0000

  // ---- Length-prefixed fields ----

  /** Four bytes, big end first, of a length as the code converts it to 32 bits. */
  function Prefix(n: nat): (p: Bytes)
    ensures |p| == 4
  {
    var a, b, c := n / 256, n / 256 / 256, n / 256 / 256 / 256;
    [c % 256, b % 256, a % 256, n % 256]
  }

  function Length(p: Bytes): (n: nat)
    requires |p| >= 4
    ensures n < WORD
  {
    var a, b, c, d: int := p[0], p[1], p[2], p[3];
    ((a * 256 + b) * 256 + c) * 256 + d
  }

  lemma PrefixLength(n: nat)
    requires n < WORD
    ensures Length(Prefix(n)) == n
  {
  }

  /** The first byte counts for most. */
  lemma BigEnd(n: nat)
    requires n < WORD
    ensures var a: int, b: int, c: int, d: int := Prefix(n)[0], Prefix(n)[1], Prefix(n)[2], Prefix(n)[3];
            n == a * 0x100_0000 + b * 0x1_0000 + c * 0x100 + d
  {
    PrefixLength(n);
  }

  function Encode(fields: seq<Bytes>): Bytes {
    if fields == [] then [] else Prefix(|fields[0]|) + fields[0] + Encode(fields[1..])
  }

  /** Reads the fields back, if the bytes are the encoding of any. */
  function Decode(bs: Bytes): Option<seq<Bytes>>
    decreases |bs|
  {
    if bs == [] then Some([])
    else if |bs| < 4 || |bs| - 4 < Length(bs) then None
    else
      var n := Length(bs);
      var rest := Decode(bs[4 + n..]);
      if rest.None? then None else Some([bs[4..4 + n]] + rest.value)
  }

  predicate Short(fields: seq<Bytes>) { forall i | 0 <= i < |fields| :: |fields[i]| < WORD }

  lemma {:induction false} DecodesShort(bs: Bytes)
    ensures Decode(bs).Some? ==> Short(Decode(bs).value)
    decreases |bs|
  {
    if bs != [] && |bs| >= 4 && |bs| - 4 >= Length(bs) {
      DecodesShort(bs[4 + Length(bs)..]);
    }
  }

  lemma {:induction false} RoundTrip(fields: seq<Bytes>)
    requires Short(fields)
    ensures Decode(Encode(fields)) == Some(fields)
    decreases |fields|
  {
    if fields != [] {
      var f, bs := fields[0], Encode(fields);
      PrefixLength(|f|);
      assert bs[..4] == Prefix(|f|);
      assert Length(bs) == Length(Prefix(|f|)) == |f|;
      assert bs[4..4 + |f|] == f;
      assert bs[4 + |f|..] == Encode(fields[1..]);
      RoundTrip(fields[1..]);
      assert fields == [f] + fields[1..];
    }
  }

  /** The encoding can be read back exactly when every length fits its prefix. */
  lemma RoundTripIff(fields: seq<Bytes>)
    ensures Decode(Encode(fields)) == Some(fields) <==> Short(fields)
  {
    DecodesShort(Encode(fields));
    if Short(fields) {
      RoundTrip(fields);
    }
  }

  lemma EncodeInjective(a: seq<Bytes>, b: seq<Bytes>)
    requires Short(a) && Short(b) && Encode(a) == Encode(b)
    ensures a == b
  {
    RoundTrip(a);
    RoundTrip(b);
  }

  function Zeros(n: nat): (z: Bytes)
    ensures |z| == n
  {
    seq(n, i => 0)
  }

  function Empties(n: nat): (e: seq<Bytes>)
    ensures |e| == n
  {
    seq(n, i => [])
  }

  lemma {:induction false} EncodesEmpties(n: nat)
    ensures Encode(Empties(n)) == Zeros(4 * n)
    decreases n
  {
    if n > 0 {
      EncodesEmpties(n - 1);
      assert Empties(n)[1..] == Empties(n - 1);
      assert Prefix(0) == Zeros(4);
      assert Zeros(4 * n) == Zeros(4) + [] + Zeros(4 * (n - 1));
    }
  }

  /** It happens beyond that: one field of 2^32 zero bytes is encoded like 2^30 + 1 empty ones. */
  lemma LongFieldsCollide()
    ensures Encode([Zeros(WORD)]) == Encode(Empties(WORD / 4 + 1)) && [Zeros(WORD)] != Empties(WORD / 4 + 1)
  {
    EncodesEmpties(WORD / 4 + 1);
    OneZeros(WORD);
  }

  lemma OneZeros(n: nat)
    requires n % WORD == 0
    ensures Encode([Zeros(n)]) == Zeros(n + 4)
  {
    assert [Zeros(n)][1..] == [];
    PrefixZero(n);
    assert Zeros(n + 4) == Zeros(4) + Zeros(n) + [];
  }

  lemma PrefixZero(n: nat)
    requires n % WORD == 0
    ensures Prefix(n) == Zeros(4)
  {
    var k := n / WORD;
    assert n == k * WORD;
    assert n / 256 == k * 0x100_0000;
    assert n / 256 / 256 == k * 0x1_0000;
    assert n / 256 / 256 / 256 == k * 0x100;
  }

  /** The loop that writes the fields one after another. */
  method EncodeFields(fields: seq<Bytes>) returns (out: Bytes)
    ensures out == Encode(fields)
    ensures Short(fields) ==> Decode(out) == Some(fields)
  {
    out := [];
    for i := 0 to |fields|
      invariant out + Encode(fields[i..]) == Encode(fields)
    {
      assert fields[i..][1..] == fields[i + 1..];
      ghost var rest := Encode(fields[i + 1..]);
      assert out + (Prefix(|fields[i]|) + fields[i] + rest) == out + Prefix(|fields[i]|) + fields[i] + rest;
      out := out + Prefix(|fields[i]|) + fields[i];
    }
    RoundTripIff(fields);
  }

  // ---- Decimal text ----

  const MINUS: byte := 45
  const ZERO_DIGIT: byte := 48

  function Digits(n: nat): (d: Bytes)
    ensures |d| >= 1 && forall i | 0 <= i < |d| :: ZERO_DIGIT <= d[i] < ZERO_DIGIT + 10
    decreases n
  {
    if n < 10 then [ZERO_DIGIT + n] else Digits(n / 10) + [ZERO_DIGIT + n % 10]
  }

  function Number(d: Bytes): int {
    if d == [] then 0 else Number(d[..|d| - 1]) * 10 + (d[|d| - 1] - ZERO_DIGIT)
  }

  lemma {:induction false} DigitsNumber(n: nat)
    ensures Number(Digits(n)) == n
    decreases n
  {
    var d := Digits(n);
    if n >= 10 {
      DigitsNumber(n / 10);
      assert d[..|d| - 1] == Digits(n / 10);
    } else {
      assert d[..0] == [];
    }
  }

  function Power(k: nat): nat { if k == 0 then 1 else 10 * Power(k - 1) }

  lemma {:induction false} DigitsShort(n: nat, k: nat)
    requires n < Power(k) && k >= 1
    ensures |Digits(n)| <= k
    decreases k
  {
    if n >= 10 {
      assert Power(1) == 10;
      DigitsShort(n / 10, k - 1);
    }
  }

  function FormatInt(n: int): Bytes { if n < 0 then [MINUS] + Digits(-n) else Digits(n) }

  lemma DigitsInjective(m: nat, n: nat)
    requires Digits(m) == Digits(n)
    ensures m == n
  {
    DigitsNumber(m);
    DigitsNumber(n);
  }

  lemma Signed(n: int)
    ensures n < 0 <==> FormatInt(n)[0] == MINUS
    ensures n < 0 ==> FormatInt(n)[1..] == Digits(-n)
  {
  }

  lemma FormatInjective(m: int, n: int)
    requires FormatInt(m) == FormatInt(n)
    ensures m == n
  {
    Signed(m);
    Signed(n);
    if m < 0 {
      DigitsInjective(-m, -n);
    } else {
      DigitsInjective(m, n);
    }
  }

  // ---- Items ----

  const CODEX: Bytes := [99, 111, 100, 101, 120]
  const FORMAT_VERSION := 1
  const MAX_PAYLOAD := 64 * 1024
  const INT64_LIMIT := 0x8000_0000_0000_0000

  /** Whose secret an item is. */
  datatype Owner = Owner(device: Bytes, provider: Bytes, credential: Bytes, account: Bytes)

  datatype Item = Item(owner: Owner, revision: int, envelope: Envelope, secret: Digest)

  /** The code's identifiers are at most 57 bytes long and its revisions are 64-bit; both are well within this. */
  predicate Bounded(o: Owner, revision: int) {
    |o.device| < WORD && |o.provider| < WORD && |o.credential| < WORD && |o.account| < WORD &&
    -INT64_LIMIT <= revision < INT64_LIMIT
  }

  /** The data a ciphertext is bound to. */
  function Aad(o: Owner, revision: int): Bytes {
    Encode([FormatInt(FORMAT_VERSION), o.device, o.provider, o.credential, o.account, FormatInt(revision)])
  }

  lemma PowerStep(k: nat)
    ensures Power(k + 4) == 10_000 * Power(k)
  {
    assert Power(k + 4) == 10 * Power(k + 3) && Power(k + 3) == 10 * Power(k + 2) && Power(k + 2) == 10 * Power(k + 1);
  }

  lemma FormatShort(n: int)
    requires -INT64_LIMIT <= n < INT64_LIMIT
    ensures |FormatInt(n)| <= 20
  {
    PowerStep(0);
    PowerStep(4);
    PowerStep(8);
    PowerStep(12);
    PowerStep(15);
    DigitsShort(if n < 0 then -n else n, 19);
  }

  /** No two owners and revisions are bound to the same data. */
  lemma AadInjective(o: Owner, r: int, p: Owner, s: int)
    requires Bounded(o, r) && Bounded(p, s) && Aad(o, r) == Aad(p, s)
    ensures o == p && r == s
  {
    FormatShort(FORMAT_VERSION);
    FormatShort(r);
    FormatShort(s);
    var a := [FormatInt(FORMAT_VERSION), o.device, o.provider, o.credential, o.account, FormatInt(r)];
    var b := [FormatInt(FORMAT_VERSION), p.device, p.provider, p.credential, p.account, FormatInt(s)];
    EncodeInjective(a, b);
    assert a[1] == b[1] && a[2] == b[2] && a[3] == b[3] && a[4] == b[4] && a[5] == b[5];
    FormatInjective(r, s);
  }

  /** The data can be read back: the format's version, the device, provider, credential and account, the revision. */
  lemma AadReads(o: Owner, revision: int)
    requires Bounded(o, revision)
    ensures Decode(Aad(o, revision)) ==
            Some([[49], o.device, o.provider, o.credential, o.account, FormatInt(revision)])
  {
    FormatShort(FORMAT_VERSION);
    FormatShort(revision);
    assert FormatInt(FORMAT_VERSION) == [49];
    RoundTrip([FormatInt(FORMAT_VERSION), o.device, o.provider, o.credential, o.account, FormatInt(revision)]);
  }

  /** What sealing needs of its input. `json` says whether bytes are a JSON object without repeated keys. */
  predicate Sealable(o: Owner, expected: int, plain: Bytes, json: Bytes -> bool) {
    o.provider == CODEX && expected >= 1 && 2 <= |plain| <= MAX_PAYLOAD && json(plain)
  }

  /** The plaintext under a fresh data key, the data key under the vault's key, both bound to the owner. */
  function SealItem(kek: Bytes, dek: Bytes, payloadNonce: Bytes, wrapNonce: Bytes, o: Owner, expected: int,
                    plain: Bytes, json: Bytes -> bool, hash: Bytes -> Digest): Outcome<Item> {
    if !Sealable(o, expected, plain, json) then Err(InvalidArgument)
    else
      var aad := Aad(o, expected + 1);
      Ok(Item(o, expected + 1,
              Envelope(payloadNonce, Seal(dek, payloadNonce, plain, aad), wrapNonce, Seal(kek, wrapNonce, dek, aad),
                       hash(aad)),
              hash(plain)))
  }

  /** A secret is sealed exactly for Codex, at a revision of at least 1, if it is a JSON object of 2 to 65536 bytes. */
  lemma SealsIff(kek: Bytes, dek: Bytes, payloadNonce: Bytes, wrapNonce: Bytes, o: Owner, expected: int, plain: Bytes,
                 json: Bytes -> bool, hash: Bytes -> Digest)
    ensures var r := SealItem(kek, dek, payloadNonce, wrapNonce, o, expected, plain, json, hash);
            && (r.Ok? <==> o.provider == [99, 111, 100, 101, 120] && expected >= 1 && 2 <= |plain| <= 65536 &&
                           json(plain))
            && (r.Err? ==> r.code == InvalidArgument)
            && (r.Ok? ==> r.value.owner == o && r.value.revision == expected + 1 && r.value.secret == hash(plain) &&
                          r.value.envelope.payloadNonce == payloadNonce && r.value.envelope.wrapNonce == wrapNonce)
  {
  }

  function ReadItem(kek: Bytes, item: Item, json: Bytes -> bool, hash: Bytes -> Digest): Outcome<(Bytes, int)> {
    var aad, e := Aad(item.owner, item.revision), item.envelope;
    if hash(aad) != e.aadDigest then Err(VaultCorrupt)
    else
      var dek := Open(kek, e.wrapNonce, e.wrapped, aad);
      if dek.None? then Err(VaultCorrupt)
      else
        var plain := Open(dek.value, e.payloadNonce, e.payload, aad);
        if plain.None? || !json(plain.value) then Err(VaultCorrupt)
        else if hash(plain.value) != item.secret then Err(VaultCorrupt)
        else Ok((plain.value, item.revision))
  }

  /** Whatever is read is what both layers and both digests vouch for; anything else is reported as corrupt. */
  lemma ReadsOnlyGenuine(kek: Bytes, item: Item, json: Bytes -> bool, hash: Bytes -> Digest)
    ensures var r, e, aad := ReadItem(kek, item, json, hash), item.envelope, Aad(item.owner, item.revision);
            && (r.Err? ==> r.code == VaultCorrupt)
            && (r.Ok? <==>
                  && e.aadDigest == hash(aad) && e.wrapped.key == kek && e.wrapped.nonce == e.wrapNonce
                  && e.wrapped.aad == aad && e.payload.key == e.wrapped.plain && e.payload.nonce == e.payloadNonce
                  && e.payload.aad == aad && json(e.payload.plain) && item.secret == hash(e.payload.plain))
            && (r.Ok? ==> r.value == (e.payload.plain, item.revision))
  {
  }

  /** Reading a sealed item returns the sealed plaintext and the revision it was sealed at. */
  lemma SealThenRead(kek: Bytes, dek: Bytes, payloadNonce: Bytes, wrapNonce: Bytes, o: Owner, expected: int,
                     plain: Bytes, json: Bytes -> bool, hash: Bytes -> Digest)
    requires Sealable(o, expected, plain, json)
    ensures var item := SealItem(kek, dek, payloadNonce, wrapNonce, o, expected, plain, json, hash);
            item.Ok? && ReadItem(kek, item.value, json, hash) == Ok((plain, expected + 1))
  {
  }

  /**
   A row that carries the ciphertexts of a sealed item opens exactly if it is the row they were sealed
   for: same device, provider, credential, account and revision, same nonces and digests, same vault key.
   */
  lemma OpensIff(kek: Bytes, dek: Bytes, payloadNonce: Bytes, wrapNonce: Bytes, o: Owner, expected: int, plain: Bytes,
                 json: Bytes -> bool, hash: Bytes -> Digest, key: Bytes, row: Item)
    requires Sealable(o, expected, plain, json) && Bounded(o, expected + 1) && Bounded(row.owner, row.revision)
    requires var item := SealItem(kek, dek, payloadNonce, wrapNonce, o, expected, plain, json, hash).value;
             row.envelope.payload == item.envelope.payload && row.envelope.wrapped == item.envelope.wrapped
    ensures var item := SealItem(kek, dek, payloadNonce, wrapNonce, o, expected, plain, json, hash).value;
            ReadItem(key, row, json, hash).Ok? <==> row == item && key == kek
  {
    if Aad(row.owner, row.revision) == Aad(o, expected + 1) {
      AadInjective(row.owner, row.revision, o, expected + 1);
    }
  }

  /** In particular, an envelope moved to another owner or revision never opens, under any key. */
  lemma MovedNeverOpens(kek: Bytes, dek: Bytes, payloadNonce: Bytes, wrapNonce: Bytes, o: Owner, expected: int,
                        plain: Bytes, json: Bytes -> bool, hash: Bytes -> Digest, key: Bytes, p: Owner, revision: int)
    requires Sealable(o, expected, plain, json) && Bounded(o, expected + 1) && Bounded(p, revision)
    requires p != o || revision != expected + 1
    ensures var item := SealItem(kek, dek, payloadNonce, wrapNonce, o, expected, plain, json, hash).value;
            ReadItem(key, item.(owner := p, revision := revision), json, hash) == Err(VaultCorrupt)
  {
    var item := SealItem(kek, dek, payloadNonce, wrapNonce, o, expected, plain, json, hash).value;
    OpensIff(kek, dek, payloadNonce, wrapNonce, o, expected, plain, json, hash, key,
             item.(owner := p, revision := revision));
  }
}

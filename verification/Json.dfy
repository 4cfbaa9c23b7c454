/**
 The three duplicate-key checks (internal/device/protocol.go, internal/providers/codex/jsonl.go and
 internal/vault/vault.go), each a walk over the tokens of a streaming JSON decoder. The vault tells its
 decoder to leave numbers as they are written; the other two decoders convert each number to a float64 and
 fail on one that is out of range.
 */
module Json {
  import opened Base

  /** `fits` says of a number whether it is within the range of float64. */
  datatype Token = OpenObject | CloseObject | OpenArray | CloseArray | Str(s: string) | Literal(n: nat) |
    Number(n: nat, fits: bool)

  /** A token that the decoder cannot return. */
  predicate Unreadable(t: Token, useNumber: bool) { t.Number? && !t.fits && !useNumber }

  /** Is there another element before the enclosing object or array closes? */
  predicate More(ts: seq<Token>) { ts != [] && ts[0] != CloseObject && ts[0] != CloseArray }

  // ---- The walk all three amount to ----

  /** What is left after one value without a repeated key, if the tokens begin with one. */
  function WalkValue(ts: seq<Token>, useNumber: bool): (r: Option<seq<Token>>)
    ensures r.Some? ==> |r.value| < |ts|
    decreases |ts|, 0
  {
    if ts == [] || Unreadable(ts[0], useNumber) then None
    else match ts[0]
      case OpenObject => WalkMembers(ts[1..], {}, useNumber)
      case OpenArray => WalkElements(ts[1..], useNumber)
      case CloseObject => None
      case CloseArray => None
      case _ => Some(ts[1..])
  }

  function WalkMembers(ts: seq<Token>, seen: set<string>, useNumber: bool): (r: Option<seq<Token>>)
    ensures r.Some? ==> |r.value| < |ts|
    decreases |ts|, 1
  {
    if !More(ts) then (if ts != [] && ts[0] == CloseObject then Some(ts[1..]) else None)
    else if !ts[0].Str? || ts[0].s in seen then None
    else
      var v := WalkValue(ts[1..], useNumber);
      if v.None? then None else WalkMembers(v.value, seen + {ts[0].s}, useNumber)
  }

  function WalkElements(ts: seq<Token>, useNumber: bool): (r: Option<seq<Token>>)
    ensures r.Some? ==> |r.value| < |ts|
    decreases |ts|, 1
  {
    if !More(ts) then (if ts != [] && ts[0] == CloseArray then Some(ts[1..]) else None)
    else
      var v := WalkValue(ts, useNumber);
      if v.None? then None else WalkElements(v.value, useNumber)
  }

  // ---- The three walks as the program has them ----

  class Decoder {
    var rest: seq<Token>
    const useNumber: bool

    constructor (tokens: seq<Token>, useNumber: bool)
      ensures rest == tokens && this.useNumber == useNumber
    {
      rest := tokens;
      this.useNumber := useNumber;
    }

    /** The next token, unless the input is at its end or the token is a number that cannot be converted. */
    method Next() returns (t: Option<Token>)
      modifies this
      ensures t.None? <==> old(rest) == [] || Unreadable(old(rest)[0], useNumber)
      ensures t.None? ==> rest == old(rest)
      ensures t.Some? ==> t.value == old(rest)[0] && rest == old(rest)[1..]
    {
      if rest == [] || Unreadable(rest[0], useNumber) { return None; }
      t := Some(rest[0]);
      rest := rest[1..];
    }

    /** internal/device/protocol.go: consumeJSONValue. */
    method ConsumeValue() returns (ok: bool)
      modifies this
      ensures ok <==> WalkValue(old(rest), useNumber).Some?
      ensures ok ==> Some(rest) == WalkValue(old(rest), useNumber)
      decreases |rest|
    {
      var token := Next();
      if token.None? { return false; }
      match token.value {
        case OpenObject =>
          var seen: set<string> := {};
          while More(rest)
            invariant |rest| < |old(rest)|
            invariant WalkMembers(rest, seen, useNumber) == WalkMembers(old(rest)[1..], {}, useNumber)
            decreases |rest|
          {
            var key := Next();
            if key.None? || !key.value.Str? { return false; }
            if key.value.s in seen { return false; }
            seen := seen + {key.value.s};
            ok := ConsumeValue();
            if !ok { return; }
          }
          var close := Next();
          return close == Some(CloseObject);
        case OpenArray =>
          while More(rest)
            invariant |rest| < |old(rest)| && WalkElements(rest, useNumber) == WalkElements(old(rest)[1..], useNumber)
            decreases |rest|
          {
            ok := ConsumeValue();
            if !ok { return; }
          }
          var close := Next();
          return close == Some(CloseArray);
        case CloseObject => return false;
        case CloseArray => return false;
        case _ => return true;
      }
    }

    /** internal/providers/codex/jsonl.go: validateValue, which reads the key before it looks at its kind. */
    method ValidateFrameValue() returns (ok: bool)
      modifies this
      ensures ok <==> WalkValue(old(rest), useNumber).Some?
      ensures ok ==> Some(rest) == WalkValue(old(rest), useNumber)
      decreases |rest|
    {
      var token := Next();
      if token.None? { return false; }
      if token == Some(OpenObject) {
        var seen: set<string> := {};
        while More(rest)
          invariant |rest| < |old(rest)|
          invariant WalkMembers(rest, seen, useNumber) == WalkMembers(old(rest)[1..], {}, useNumber)
          decreases |rest|
        {
          var key := Next();
          if key.None? { return false; }
          if !key.value.Str? || key.value.s in seen { return false; }
          seen := seen + {key.value.s};
          ok := ValidateFrameValue();
          if !ok { return; }
        }
        var end := Next();
        return end == Some(CloseObject);
      } else if token == Some(OpenArray) {
        while More(rest)
          invariant |rest| < |old(rest)| && WalkElements(rest, useNumber) == WalkElements(old(rest)[1..], useNumber)
          decreases |rest|
        {
          ok := ValidateFrameValue();
          if !ok { return; }
        }
        var end := Next();
        return end == Some(CloseArray);
      }
      return token != Some(CloseObject) && token != Some(CloseArray);
    }

    /** internal/vault/vault.go: validateObject, after its opening brace. */
    method ValidateObject() returns (ok: bool)
      modifies this
      ensures ok <==> WalkMembers(old(rest), {}, useNumber).Some?
      ensures ok ==> Some(rest) == WalkMembers(old(rest), {}, useNumber)
      decreases |rest|, 1
    {
      var seen: set<string> := {};
      while More(rest)
        invariant |rest| <= |old(rest)| && WalkMembers(rest, seen, useNumber) == WalkMembers(old(rest), {}, useNumber)
        decreases |rest|
      {
        var key := Next();
        if key.None? || !key.value.Str? { return false; }
        if key.value.s in seen { return false; }
        seen := seen + {key.value.s};
        ok := ValidateVaultValue();
        if !ok { return; }
      }
      var end := Next();
      return end == Some(CloseObject);
    }

    /** internal/vault/vault.go: validateJSONValue. */
    method ValidateVaultValue() returns (ok: bool)
      modifies this
      ensures ok <==> WalkValue(old(rest), useNumber).Some?
      ensures ok ==> Some(rest) == WalkValue(old(rest), useNumber)
      decreases |rest|, 0
    {
      var token := Next();
      if token.None? { return false; }
      if token == Some(OpenObject) {
        ok := ValidateObject();
        return;
      }
      if token == Some(OpenArray) {
        while More(rest)
          invariant |rest| < |old(rest)| && WalkElements(rest, useNumber) == WalkElements(old(rest)[1..], useNumber)
          decreases |rest|
        {
          ok := ValidateVaultValue();
          if !ok { return; }
        }
        var end := Next();
        return end == Some(CloseArray);
      }
      return token != Some(CloseObject) && token != Some(CloseArray);
    }
  }

  /** internal/device/protocol.go: validateJSON. */
  method ValidateDevice(tokens: seq<Token>) returns (ok: bool)
    ensures ok <==> WalkValue(tokens, false) == Some([])
  {
    var d := new Decoder(tokens, false);
    ok := d.ConsumeValue();
    if !ok { return; }
    return d.rest == [];
  }

  /** internal/providers/codex/jsonl.go: validateJSON, of a frame within its size bounds. */
  method ValidateFrame(tokens: seq<Token>) returns (ok: bool)
    ensures ok <==> WalkValue(tokens, false) == Some([])
  {
    var d := new Decoder(tokens, false);
    ok := d.ValidateFrameValue();
    if !ok { return; }
    return d.rest == [];
  }

  /** internal/vault/vault.go: validateJSONObject. */
  method ValidateVault(tokens: seq<Token>) returns (ok: bool)
    ensures ok <==> tokens != [] && tokens[0] == OpenObject && WalkValue(tokens, true) == Some([])
  {
    var d := new Decoder(tokens, true);
    var first := d.Next();
    if first != Some(OpenObject) { return false; }
    ok := d.ValidateObject();
    if !ok { return; }
    var trailing := d.Next();
    return trailing.None?;
  }

  // ---- Any tokens ----

  /** Whatever a decoder that converts numbers gets through, one that leaves them alone does too. */
  lemma {:induction false} LenientValue(ts: seq<Token>)
    requires WalkValue(ts, false).Some?
    ensures WalkValue(ts, true) == WalkValue(ts, false)
    decreases |ts|, 0
  {
    match ts[0]
    case OpenObject => LenientMembers(ts[1..], {});
    case OpenArray => LenientElements(ts[1..]);
    case _ =>
  }

  lemma {:induction false} LenientMembers(ts: seq<Token>, seen: set<string>)
    requires WalkMembers(ts, seen, false).Some?
    ensures WalkMembers(ts, seen, true) == WalkMembers(ts, seen, false)
    decreases |ts|, 1
  {
    if More(ts) {
      LenientValue(ts[1..]);
      LenientMembers(WalkValue(ts[1..], false).value, seen + {ts[0].s});
    }
  }

  lemma {:induction false} LenientElements(ts: seq<Token>)
    requires WalkElements(ts, false).Some?
    ensures WalkElements(ts, true) == WalkElements(ts, false)
    decreases |ts|, 1
  {
    if More(ts) {
      LenientValue(ts);
      LenientElements(WalkValue(ts, false).value);
    }
  }

  // ---- JSON values and what the walk says of their tokens ----

  datatype Value = Leaf(n: nat) | Num(n: nat, fits: bool) | Text(s: string) | Array(items: Values) |
    Object(members: Members)

  datatype Values = NoValues | Item(head: Value, tail: Values)

  datatype Members = NoMembers | Member(key: string, value: Value, rest: Members)

  function Flatten(v: Value): (ts: seq<Token>)
    ensures More(ts)
  {
    match v
    case Leaf(n) => [Literal(n)]
    case Num(n, fits) => [Number(n, fits)]
    case Text(s) => [Str(s)]
    case Array(items) => [OpenArray] + FlattenItems(items) + [CloseArray]
    case Object(members) => [OpenObject] + FlattenMembers(members) + [CloseObject]
  }

  function FlattenItems(vs: Values): seq<Token> {
    match vs
    case NoValues => []
    case Item(head, tail) => Flatten(head) + FlattenItems(tail)
  }

  function FlattenMembers(ms: Members): seq<Token> {
    match ms
    case NoMembers => []
    case Member(key, value, rest) => [Str(key)] + Flatten(value) + FlattenMembers(rest)
  }

  function Keys(ms: Members): seq<string> {
    match ms
    case NoMembers => []
    case Member(key, _, rest) => [key] + Keys(rest)
  }

  predicate Distinct(keys: seq<string>) { forall i, j | 0 <= i < j < |keys| :: keys[i] != keys[j] }

  /** No object, at any depth, repeats a key. */
  predicate NoRepeats(v: Value) {
    match v
    case Leaf(_) => true
    case Num(_, _) => true
    case Text(_) => true
    case Array(items) => NoRepeatsIn(items)
    case Object(members) => Distinct(Keys(members)) && NoRepeatsUnder(members)
  }

  predicate NoRepeatsIn(vs: Values) {
    match vs
    case NoValues => true
    case Item(head, tail) => NoRepeats(head) && NoRepeatsIn(tail)
  }

  predicate NoRepeatsUnder(ms: Members) {
    match ms
    case NoMembers => true
    case Member(_, value, rest) => NoRepeats(value) && NoRepeatsUnder(rest)
  }

  /** Every number, at any depth, is within the range of float64. */
  predicate AllFit(v: Value) {
    match v
    case Leaf(_) => true
    case Num(_, fits) => fits
    case Text(_) => true
    case Array(items) => AllFitIn(items)
    case Object(members) => AllFitUnder(members)
  }

  predicate AllFitIn(vs: Values) {
    match vs
    case NoValues => true
    case Item(head, tail) => AllFit(head) && AllFitIn(tail)
  }

  predicate AllFitUnder(ms: Members) {
    match ms
    case NoMembers => true
    case Member(_, value, rest) => AllFit(value) && AllFitUnder(rest)
  }

  /** The keys are distinct and none of them was seen before. */
  predicate Unseen(keys: seq<string>, seen: set<string>) {
    Distinct(keys) && forall i | 0 <= i < |keys| :: keys[i] !in seen
  }

  lemma UnseenStep(key: string, keys: seq<string>, seen: set<string>)
    ensures Unseen([key] + keys, seen) <==> key !in seen && Unseen(keys, seen + {key})
  {
    var all := [key] + keys;
    assert forall i | 0 <= i < |keys| :: all[i + 1] == keys[i];
    if Unseen(all, seen) {
      assert all[0] !in seen;
      forall i, j | 0 <= i < j < |keys| ensures keys[i] != keys[j] {
        assert all[i + 1] != all[j + 1];
      }
      forall i | 0 <= i < |keys| ensures keys[i] !in seen + {key} {
        assert all[0] != all[i + 1] && all[i + 1] !in seen;
      }
    }
    if key !in seen && Unseen(keys, seen + {key}) {
      forall i, j | 0 <= i < j < |all| ensures all[i] != all[j] {
        if i > 0 {
          assert keys[i - 1] != keys[j - 1];
        } else {
          assert keys[j - 1] !in seen + {key};
        }
      }
      forall i | 0 <= i < |all| ensures all[i] !in seen {
        if i > 0 {
          assert keys[i - 1] !in seen + {key};
        }
      }
    }
  }

  /** The walk takes exactly the tokens of a value it accepts, and stops at any other. */
  lemma {:induction false} WalksValue(v: Value, after: seq<Token>, useNumber: bool)
    ensures WalkValue(Flatten(v) + after, useNumber) ==
            if NoRepeats(v) && (useNumber || AllFit(v)) then Some(after) else None
    decreases v
  {
    var ts := Flatten(v) + after;
    match v
    case Leaf(_) => assert ts[1..] == after;
    case Num(_, _) => assert ts[1..] == after;
    case Text(_) => assert ts[1..] == after;
    case Array(items) =>
      assert ts[1..] == FlattenItems(items) + ([CloseArray] + after);
      WalksItems(items, after, useNumber);
    case Object(members) =>
      assert ts[1..] == FlattenMembers(members) + ([CloseObject] + after);
      WalksMembers(members, {}, after, useNumber);
  }

  lemma {:induction false} WalksItems(vs: Values, after: seq<Token>, useNumber: bool)
    ensures WalkElements(FlattenItems(vs) + ([CloseArray] + after), useNumber) ==
            if NoRepeatsIn(vs) && (useNumber || AllFitIn(vs)) then Some(after) else None
    decreases vs
  {
    var close := [CloseArray] + after;
    match vs
    case NoValues =>
      assert FlattenItems(vs) + close == close && close[1..] == after;
    case Item(head, tail) =>
      var ts := Flatten(head) + (FlattenItems(tail) + close);
      assert FlattenItems(vs) + close == ts;
      assert More(ts) by { assert ts[0] == Flatten(head)[0]; }
      WalksValue(head, FlattenItems(tail) + close, useNumber);
      WalksItems(tail, after, useNumber);
  }

  lemma {:induction false} WalksMembers(ms: Members, seen: set<string>, after: seq<Token>, useNumber: bool)
    ensures WalkMembers(FlattenMembers(ms) + ([CloseObject] + after), seen, useNumber) ==
            if Unseen(Keys(ms), seen) && NoRepeatsUnder(ms) && (useNumber || AllFitUnder(ms)) then Some(after) else None
    decreases ms
  {
    var close := [CloseObject] + after;
    match ms
    case NoMembers =>
      assert FlattenMembers(ms) + close == close && close[1..] == after;
    case Member(key, value, rest) =>
      var ts := [Str(key)] + (Flatten(value) + (FlattenMembers(rest) + close));
      assert FlattenMembers(ms) + close == ts;
      assert ts[1..] == Flatten(value) + (FlattenMembers(rest) + close);
      UnseenStep(key, Keys(rest), seen);
      WalksValue(value, FlattenMembers(rest) + close, useNumber);
      if key !in seen {
        WalksMembers(rest, seen + {key}, after, useNumber);
      }
  }

  // ---- Whatever a check gets through is a value ----

  /** What the walk consumes are the tokens of some value that it should accept. */
  lemma {:induction false} ValueWalked(ts: seq<Token>, useNumber: bool) returns (v: Value)
    requires WalkValue(ts, useNumber).Some?
    ensures ts == Flatten(v) + WalkValue(ts, useNumber).value && NoRepeats(v) && (useNumber || AllFit(v))
    decreases |ts|, 0
  {
    assert ts == [ts[0]] + ts[1..];
    match ts[0]
    case OpenObject =>
      var members := MembersWalked(ts[1..], {}, useNumber);
      v := Object(members);
    case OpenArray =>
      var items := ElementsWalked(ts[1..], useNumber);
      v := Array(items);
    case Str(s) => v := Text(s);
    case Literal(n) => v := Leaf(n);
    case Number(n, fits) => v := Num(n, fits);
  }

  lemma Glue(a: seq<Token>, b: seq<Token>, c: seq<Token>, d: seq<Token>, e: seq<Token>)
    ensures a + (b + (c + d + e)) == (a + b + c) + d + e
    ensures [] + b + c == b + c && [] + (b + (c + d + e)) == b + (c + d + e)
  {
  }

  lemma {:induction false} ElementsWalked(ts: seq<Token>, useNumber: bool) returns (vs: Values)
    requires WalkElements(ts, useNumber).Some?
    ensures ts == FlattenItems(vs) + [CloseArray] + WalkElements(ts, useNumber).value
    ensures NoRepeatsIn(vs) && (useNumber || AllFitIn(vs))
    decreases |ts|, 1
  {
    if More(ts) {
      var head := ValueWalked(ts, useNumber);
      var rest := WalkValue(ts, useNumber).value;
      var tail := ElementsWalked(rest, useNumber);
      vs := Item(head, tail);
      Glue([], Flatten(head), FlattenItems(tail), [CloseArray], WalkElements(rest, useNumber).value);
    } else {
      vs := NoValues;
      assert ts == [ts[0]] + ts[1..];
    }
  }

  lemma {:induction false} MembersWalked(ts: seq<Token>, seen: set<string>, useNumber: bool) returns (ms: Members)
    requires WalkMembers(ts, seen, useNumber).Some?
    ensures ts == FlattenMembers(ms) + [CloseObject] + WalkMembers(ts, seen, useNumber).value
    ensures Unseen(Keys(ms), seen) && NoRepeatsUnder(ms) && (useNumber || AllFitUnder(ms))
    decreases |ts|, 1
  {
    assert ts == [ts[0]] + ts[1..];
    if More(ts) {
      var key := ts[0].s;
      var value := ValueWalked(ts[1..], useNumber);
      var rest := WalkValue(ts[1..], useNumber).value;
      var tail := MembersWalked(rest, seen + {key}, useNumber);
      ms := Member(key, value, tail);
      UnseenStep(key, Keys(tail), seen);
      Glue([Str(key)], Flatten(value), FlattenMembers(tail), [CloseObject],
           WalkMembers(rest, seen + {key}, useNumber).value);
    } else {
      ms := NoMembers;
    }
  }

  /**
   On any tokens whatever, the checks accept exactly the tokens of one value without repeated keys, whose
   numbers the decoder can take; in particular nothing that is cut short, mismatched or followed by more.
   */
  lemma AcceptsOnlyValues(ts: seq<Token>, useNumber: bool)
    ensures WalkValue(ts, useNumber) == Some([]) <==>
              exists v :: ts == Flatten(v) && NoRepeats(v) && (useNumber || AllFit(v))
  {
    if WalkValue(ts, useNumber) == Some([]) {
      var v := ValueWalked(ts, useNumber);
      assert Flatten(v) + [] == Flatten(v);
    }
    if v :| ts == Flatten(v) && NoRepeats(v) && (useNumber || AllFit(v)) {
      assert Flatten(v) + [] == Flatten(v);
      WalksValue(v, [], useNumber);
    }
  }

  // ---- What the three checks make of a value ----

  predicate DeviceAccepts(v: Value) { WalkValue(Flatten(v), false) == Some([]) }

  predicate VaultAccepts(v: Value) { Flatten(v)[0] == OpenObject && WalkValue(Flatten(v), true) == Some([]) }

  /**
   The device and frame checks accept a value exactly if no object in it repeats a key and every number fits
   a float64; the vault's exactly if no object repeats a key and it is an object itself.
   */
  lemma Accepts(v: Value)
    ensures DeviceAccepts(v) <==> NoRepeats(v) && AllFit(v)
    ensures VaultAccepts(v) <==> NoRepeats(v) && v.Object?
  {
    assert Flatten(v) + [] == Flatten(v);
    WalksValue(v, [], false);
    WalksValue(v, [], true);
  }

  /**
   So on an object the checks agree if and only if it repeats a key or all its numbers fit, and on anything
   else if and only if all of them refuse it.
   */
  lemma AgreeIff(v: Value)
    ensures v.Object? ==> ((DeviceAccepts(v) <==> VaultAccepts(v)) <==> (NoRepeats(v) ==> AllFit(v)))
    ensures !v.Object? ==> ((DeviceAccepts(v) <==> VaultAccepts(v)) <==> !(NoRepeats(v) && AllFit(v)))
  {
    Accepts(v);
  }

  /** An object with one number beyond float64, such as 1e999. */
  const BEYOND := Object(Member("a", Num(0, false), NoMembers))

  /** They do differ: the vault takes an object that neither the device nor the frame check lets through. */
  lemma ChecksDiffer()
    ensures VaultAccepts(BEYOND) && !DeviceAccepts(BEYOND)
  {
    Accepts(BEYOND);
    assert Keys(BEYOND.members) == ["a"];
  }

  /** The three checks on the tokens of any value. */
  method CheckTree(v: Value) returns (device: bool, frame: bool, vault: bool)
    ensures device == frame == (NoRepeats(v) && AllFit(v))
    ensures vault == (NoRepeats(v) && v.Object?)
  {
    Accepts(v);
    device := ValidateDevice(Flatten(v));
    frame := ValidateFrame(Flatten(v));
    vault := ValidateVault(Flatten(v));
  }
}

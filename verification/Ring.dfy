/** The replay buffer of a session's output (internal/runtime/ring.go). */
module Ring {
  import opened Base
  import opened Aead

  /** Sequence numbers count the chunks ever appended, from 1. */
  datatype Chunk = Chunk(sequence: int, data: Bytes)

  /** What a reader gets: chunks, the number to ask for next, and whether older output was already gone. */
  datatype Replay = Replay(chunks: seq<Chunk>, truncated: bool, nextSequence: int)

  /** An answer may carry a failure beside its chunks: a truncated one does. */
  datatype Answer = Answer(replay: Replay, failure: Option<Code>)

  function Total(chunks: seq<Chunk>): nat {
    if chunks == [] then 0 else |chunks[0].data| + Total(chunks[1..])
  }

  function Concat(chunks: seq<Chunk>): Bytes {
    if chunks == [] then [] else chunks[0].data + Concat(chunks[1..])
  }

  lemma {:induction false} TotalAppend(a: seq<Chunk>, b: seq<Chunk>)
    ensures Total(a + b) == Total(a) + Total(b)
  {
    if a == [] {
      assert a + b == b;
    } else {
      assert (a + b)[1..] == a[1..] + b;
      TotalAppend(a[1..], b);
    }
  }

  lemma {:induction false} ConcatAppend(a: seq<Chunk>, b: seq<Chunk>)
    ensures Concat(a + b) == Concat(a) + Concat(b)
  {
    if a == [] {
      assert a + b == b;
    } else {
      assert (a + b)[1..] == a[1..] + b;
      ConcatAppend(a[1..], b);
    }
  }

  /** The chunks one write is cut into. */
  function Split(data: Bytes, size: nat, next: int): seq<Chunk>
    requires 0 < size
    decreases |data|
  {
    if data == [] then []
    else if |data| < size then [Chunk(next + 1, data)]
    else [Chunk(next + 1, data[..size])] + Split(data[size..], size, next + 1)
  }

  /** Cutting loses no byte, numbers the chunks consecutively and bounds each of them. */
  lemma {:induction false} SplitExact(data: Bytes, size: nat, next: int)
    requires 0 < size
    ensures var c := Split(data, size, next);
            && Concat(c) == data
            && (forall i | 0 <= i < |c| :: c[i].sequence == next + 1 + i && 0 < |c[i].data| <= size)
            && (forall i | 0 <= i < |c| - 1 :: |c[i].data| == size)
            && (c == [] <==> data == [])
    decreases |data|
  {
    if |data| >= size {
      SplitExact(data[size..], size, next + 1);
      assert data == data[..size] + data[size..];
      var c := Split(data, size, next);
      assert c[1..] == Split(data[size..], size, next + 1);
      forall i | 0 <= i < |c|
        ensures c[i].sequence == next + 1 + i && 0 < |c[i].data| <= size && (i < |c| - 1 ==> |c[i].data| == size)
      {
        if i > 0 {
          assert c[i] == c[1..][i - 1];
        }
      }
    }
  }

  /** Eviction: the oldest chunks go until the rest fits. */
  function Retain(chunks: seq<Chunk>, capacity: nat): seq<Chunk> {
    if Total(chunks) <= capacity then chunks else Retain(chunks[1..], capacity)
  }

  /** `kept` is the longest suffix of `history` that fits. */
  ghost predicate LongestSuffix(kept: seq<Chunk>, history: seq<Chunk>, capacity: nat) {
    && |kept| <= |history| && kept == history[|history| - |kept|..] && Total(kept) <= capacity
    && (forall i | 0 <= i < |history| - |kept| :: Total(history[i..]) > capacity)
  }

  lemma {:induction false} RetainLongest(history: seq<Chunk>, capacity: nat)
    ensures LongestSuffix(Retain(history, capacity), history, capacity)
    decreases |history|
  {
    if Total(history) > capacity {
      RetainLongest(history[1..], capacity);
      LongestStep(Retain(history, capacity), history, capacity);
    } else {
      assert history[0..] == history;
    }
  }

  lemma LongestStep(kept: seq<Chunk>, history: seq<Chunk>, capacity: nat)
    requires Total(history) > capacity && LongestSuffix(kept, history[1..], capacity)
    ensures LongestSuffix(kept, history, capacity)
  {
    var cut := |history| - |kept|;
    assert history[1..][cut - 1..] == history[cut..];
    assert history[0..] == history;
    forall i | 0 < i < cut ensures Total(history[i..]) > capacity {
      assert history[1..][i - 1..] == history[i..];
    }
  }

  /** There is only one longest suffix. */
  lemma LongestUnique(a: seq<Chunk>, b: seq<Chunk>, history: seq<Chunk>, capacity: nat)
    requires LongestSuffix(a, history, capacity) && LongestSuffix(b, history, capacity)
    ensures a == b
  {
  }

  /** Evicting early changes nothing: what an earlier eviction dropped a later one would drop too. */
  lemma {:induction false} RetainTwice(history: seq<Chunk>, more: seq<Chunk>, capacity: nat)
    ensures Retain(Retain(history, capacity) + more, capacity) == Retain(history + more, capacity)
    decreases |history|
  {
    if Total(history) > capacity {
      RetainTwice(history[1..], more, capacity);
      TotalAppend(history, more);
      RetainDrops(history + more, capacity);
      assert (history + more)[1..] == history[1..] + more;
    }
  }

  lemma RetainDrops(chunks: seq<Chunk>, capacity: nat)
    requires Total(chunks) > capacity
    ensures Retain(chunks, capacity) == Retain(chunks[1..], capacity)
  {
  }

  /** The newest chunk stays, because it fits alone. */
  lemma NewestStays(history: seq<Chunk>, capacity: nat)
    requires history != [] && |history[|history| - 1].data| <= capacity
    ensures Retain(history, capacity) != []
  {
  }

  /** The chunks are numbered consecutively up to `next`. */
  predicate Consecutive(chunks: seq<Chunk>, next: int) {
    |chunks| <= next && forall i | 0 <= i < |chunks| :: chunks[i].sequence == next - |chunks| + 1 + i
  }

  /** The chunks numbered `from` or higher. */
  function Since(chunks: seq<Chunk>, from: int): seq<Chunk> {
    if chunks == [] then []
    else (if chunks[0].sequence >= from then [chunks[0]] else []) + Since(chunks[1..], from)
  }

  lemma {:induction false} SinceAppend(a: seq<Chunk>, b: seq<Chunk>, from: int)
    ensures Since(a + b, from) == Since(a, from) + Since(b, from)
  {
    if a == [] {
      assert a + b == b;
    } else {
      assert (a + b)[1..] == a[1..] + b && (a + b)[0] == a[0];
      SinceAppend(a[1..], b, from);
      var first := if a[0].sequence >= from then [a[0]] else [];
      assert first + (Since(a[1..], from) + Since(b, from)) == first + Since(a[1..], from) + Since(b, from);
    }
  }

  /** With consecutive numbers, the chunks from a retained number on are a suffix. */
  lemma SinceSuffix(chunks: seq<Chunk>, next: int, from: int)
    requires Consecutive(chunks, next) && next - |chunks| + 1 <= from <= next + 1
    ensures Since(chunks, from) == chunks[|chunks| - (next + 1 - from)..]
  {
    var cut := |chunks| - (next + 1 - from);
    var a, b := chunks[..cut], chunks[cut..];
    assert chunks == a + b;
    SinceAppend(a, b, from);
    SinceNone(a, from);
    SinceAll(b, from);
  }

  lemma {:induction false} SinceNone(chunks: seq<Chunk>, from: int)
    requires forall i | 0 <= i < |chunks| :: chunks[i].sequence < from
    ensures Since(chunks, from) == []
  {
    if chunks != [] {
      assert forall i | 0 <= i < |chunks[1..]| :: chunks[1..][i] == chunks[i + 1];
      SinceNone(chunks[1..], from);
    }
  }

  lemma {:induction false} SinceAll(chunks: seq<Chunk>, from: int)
    requires forall i | 0 <= i < |chunks| :: chunks[i].sequence >= from
    ensures Since(chunks, from) == chunks
  {
    if chunks != [] {
      assert forall i | 0 <= i < |chunks[1..]| :: chunks[1..][i] == chunks[i + 1];
      SinceAll(chunks[1..], from);
      assert chunks == [chunks[0]] + chunks[1..];
    }
  }

  /** What a reader that asks for `from` is answered. */
  function ReplayFrom(chunks: seq<Chunk>, next: int, from: int): Answer {
    if from < 0 then Answer(Replay([], false, 0), Some(InvalidArgument))
    else if chunks == [] then Answer(Replay([], false, next + 1), None)
    else if from == 0 then Answer(Replay(chunks, false, next + 1), None)
    else if from < chunks[0].sequence then Answer(Replay(chunks, true, next + 1), Some(ReplayUnavailable))
    else Answer(Replay(Since(chunks, from), false, next + 1), None)
  }

  /** What a reader is answered: everything from its number on, or all there is, with the number that comes next. */
  lemma AnswersAre(chunks: seq<Chunk>, next: int, from: int)
    requires Consecutive(chunks, next)
    ensures var a := ReplayFrom(chunks, next, from);
            && (a.failure == Some(InvalidArgument) <==> from < 0)
            && (from >= 0 ==> a.replay.nextSequence == next + 1)
            && (a.replay.truncated <==> chunks != [] && 0 < from < chunks[0].sequence)
            && (a.failure == Some(ReplayUnavailable) <==> a.replay.truncated)
            && (from < 0 ==> a.replay.chunks == [])
            && (from == 0 || a.replay.truncated ==> a.replay.chunks == chunks)
            && (from > next ==> a.replay.chunks == [] || a.replay.truncated)
            && (0 < from <= next + 1 && !a.replay.truncated && chunks != [] ==>
                  a.replay.chunks == chunks[|chunks| - (next + 1 - from)..])
  {
    if chunks != [] && chunks[0].sequence <= from {
      if from <= next + 1 {
        SinceSuffix(chunks, next, from);
      } else {
        SinceNone(chunks, from);
      }
    }
  }

  class RingBuffer {
    const capacity: nat
    const chunkSize: nat
    var chunks: seq<Chunk>
    var bytes: nat
    var next: int

    ghost predicate Valid()
      reads this
    {
      && 0 < chunkSize <= capacity
      && bytes == Total(chunks) <= capacity
      && Consecutive(chunks, next)
      && (next > 0 ==> chunks != [])
    }

    constructor (capacity: nat, chunkSize: nat)
      requires 0 < chunkSize <= capacity
      ensures Valid() && chunks == [] && next == 0 && this.capacity == capacity && this.chunkSize == chunkSize
    {
      this.capacity, this.chunkSize := capacity, chunkSize;
      chunks, bytes, next := [], 0, 0;
    }

    /** Cuts the data into chunks, keeps them, and evicts what no longer fits. */
    method Append(data: Bytes) returns (added: seq<Chunk>)
      requires Valid()
      modifies this`chunks, this`bytes, this`next
      ensures Valid()
      ensures added == Split(data, chunkSize, old(next))
      ensures chunks == Retain(old(chunks) + added, capacity) && next == old(next) + |added|
    {
      added := Store(data);
      SplitExact(data, chunkSize, old(next));
      Joins(old(chunks), added, old(next));
      if chunks != [] {
        KeepsNewest(old(chunks), added, capacity, chunkSize);
      }
      Evict();
    }

    method Store(data: Bytes) returns (added: seq<Chunk>)
      requires 0 < chunkSize && bytes == Total(chunks)
      modifies this`chunks, this`bytes, this`next
      ensures added == Split(data, chunkSize, old(next))
      ensures chunks == old(chunks) + added && bytes == Total(chunks) && next == old(next) + |added|
    {
      added := [];
      var rest := data;
      while rest != []
        invariant added + Split(rest, chunkSize, next) == Split(data, chunkSize, old(next))
        invariant chunks == old(chunks) + added && bytes == Total(chunks) && next == old(next) + |added|
        decreases |rest|
      {
        var n := if |rest| < chunkSize then |rest| else chunkSize;
        var chunk := Chunk(next + 1, rest[..n]);
        CutOne(rest, chunkSize, next, n);
        Regroup(added, [chunk], Split(rest[n..], chunkSize, next + 1));
        Regroup(old(chunks), added, [chunk]);
        Put(chunk);
        added := added + [chunk];
        rest := rest[n..];
      }
    }

    method Put(chunk: Chunk)
      requires bytes == Total(chunks)
      modifies this`chunks, this`bytes, this`next
      ensures chunks == old(chunks) + [chunk] && bytes == Total(chunks) && next == chunk.sequence
    {
      TotalAppend(chunks, [chunk]);
      next := chunk.sequence;
      chunks := chunks + [chunk];
      bytes := bytes + |chunk.data|;
    }

    method Evict()
      requires bytes == Total(chunks) && Consecutive(chunks, next)
      modifies this`chunks, this`bytes
      ensures chunks == Retain(old(chunks), capacity) && bytes == Total(chunks) <= capacity
      ensures Consecutive(chunks, next)
    {
      while bytes > capacity && |chunks| > 0
        invariant bytes == Total(chunks) && Retain(chunks, capacity) == Retain(old(chunks), capacity)
        invariant Consecutive(chunks, next)
        decreases |chunks|
      {
        RetainDrops(chunks, capacity);
        bytes := bytes - |chunks[0].data|;
        chunks := chunks[1..];
      }
    }

    method ReplayChunks(from: int) returns (r: Answer)
      requires Valid()
      ensures r == ReplayFrom(chunks, next, from)
    {
      if from < 0 { return Answer(Replay([], false, 0), Some(InvalidArgument)); }
      if |chunks| == 0 { return Answer(Replay([], false, next + 1), None); }
      var oldest := chunks[0].sequence;
      var start := if from == 0 then oldest else from;
      if start < oldest { return Answer(Replay(chunks, true, next + 1), Some(ReplayUnavailable)); }
      var found := [];
      for i := 0 to |chunks|
        invariant found == Since(chunks[..i], start)
      {
        if chunks[i].sequence >= start { found := found + [chunks[i]]; }
        assert chunks[..i + 1] == chunks[..i] + [chunks[i]];
        SinceAppend(chunks[..i], [chunks[i]], start);
      }
      assert chunks[..|chunks|] == chunks;
      if from == 0 { SinceAll(chunks, oldest); }
      return Answer(Replay(found, false, next + 1), None);
    }
  }

  /** Bounds that make no sense are refused. */
  method NewRingBuffer(capacity: int, chunkSize: int) returns (r: Outcome<RingBuffer>)
    ensures r.Ok? <==> 0 < chunkSize <= capacity
    ensures r.Ok? ==> fresh(r.value) && r.value.Valid() && r.value.chunks == [] && r.value.next == 0
    ensures r.Err? ==> r.code == InvalidArgument
  {
    if capacity <= 0 || chunkSize <= 0 || capacity < chunkSize { return Err(InvalidArgument); }
    var ring := new RingBuffer(capacity, chunkSize);
    return Ok(ring);
  }

  lemma Regroup(a: seq<Chunk>, b: seq<Chunk>, c: seq<Chunk>)
    ensures a + (b + c) == (a + b) + c
  {
  }

  lemma CutOne(rest: Bytes, size: nat, next: int, n: nat)
    requires 0 < size && rest != [] && n == if |rest| < size then |rest| else size
    ensures Split(rest, size, next) == [Chunk(next + 1, rest[..n])] + Split(rest[n..], size, next + 1)
  {
    assert |rest| < size ==> rest[..n] == rest;
  }

  lemma Joins(a: seq<Chunk>, b: seq<Chunk>, next: int)
    requires Consecutive(a, next) && forall i | 0 <= i < |b| :: b[i].sequence == next + 1 + i
    ensures Consecutive(a + b, next + |b|)
  {
  }

  lemma KeepsNewest(a: seq<Chunk>, b: seq<Chunk>, capacity: nat, size: nat)
    requires Total(a) <= capacity && size <= capacity && a + b != []
    requires forall i | 0 <= i < |b| :: |b[i].data| <= size
    ensures Retain(a + b, capacity) != []
  {
    if b == [] {
      assert a + b == a;
    } else {
      NewestStays(a + b, capacity);
    }
  }
}

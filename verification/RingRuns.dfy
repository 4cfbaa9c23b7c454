/** A session's output buffer with one writer and one polling reader, over every interleaving. */
module RingRuns {
  import opened Base
  import opened Aead
  import opened Ring

  datatype Step = Write(data: Bytes) | Poll

  /**
   The buffer, everything ever written to it, and a reader that starts at number 1 and always asks for
   the number it was last told. `lost` records that some poll reported truncation.
   */
  datatype View = View(chunks: seq<Chunk>, next: int, history: seq<Chunk>, written: Bytes, from: int, received: Bytes,
                       lost: bool)

  const START := View([], 0, [], [], 1, [], false)

  function Apply(v: View, s: Step, capacity: nat, size: nat): View
    requires 0 < size <= capacity
  {
    match s
    case Write(data) =>
      var added := Split(data, size, v.next);
      v.(chunks := Retain(v.chunks + added, capacity), next := v.next + |added|, history := v.history + added,
         written := v.written + data)
    case Poll =>
      var r := ReplayFrom(v.chunks, v.next, v.from);
      if r.failure == Some(InvalidArgument) then v
      else v.(from := r.replay.nextSequence, received := v.received + Concat(r.replay.chunks),
              lost := v.lost || r.replay.truncated)
  }

  function Run(v: View, steps: seq<Step>, capacity: nat, size: nat): View
    requires 0 < size <= capacity
    decreases |steps|
  {
    if steps == [] then v else Run(Apply(v, steps[0], capacity, size), steps[1..], capacity, size)
  }

  /** The buffer is what eviction leaves of the whole history, and the history is what was written. */
  ghost predicate Kept(v: View, capacity: nat, size: nat) {
    && v.chunks == Retain(v.history, capacity) && v.next == |v.history|
    && (forall i | 0 <= i < |v.history| :: v.history[i].sequence == i + 1 && |v.history[i].data| <= size)
    && Concat(v.history) == v.written
  }

  /** A reader that lost nothing has exactly the chunks below the number it asks for next. */
  ghost predicate Followed(v: View) {
    !v.lost ==> 1 <= v.from <= |v.history| + 1 && v.received == Concat(v.history[..v.from - 1])
  }

  lemma WriteKeeps(v: View, data: Bytes, capacity: nat, size: nat)
    requires 0 < size <= capacity && Kept(v, capacity, size) && Followed(v)
    ensures var w := Apply(v, Write(data), capacity, size); Kept(w, capacity, size) && Followed(w)
  {
    var added := Split(data, size, v.next);
    SplitExact(data, size, v.next);
    RetainTwice(v.history, added, capacity);
    ConcatAppend(v.history, added);
    if !v.lost {
      assert (v.history + added)[..v.from - 1] == v.history[..v.from - 1];
    }
  }

  /** What the buffer holds of the history. */
  lemma Holds(v: View, capacity: nat, size: nat)
    requires 0 < size <= capacity && Kept(v, capacity, size)
    ensures LongestSuffix(v.chunks, v.history, capacity) && Consecutive(v.chunks, v.next)
    ensures v.history != [] ==> v.chunks != []
  {
    RetainLongest(v.history, capacity);
    if v.history != [] {
      NewestStays(v.history, capacity);
    }
  }

  /** The retained chunks from a number on are the history from that number on. */
  lemma SinceHistory(chunks: seq<Chunk>, history: seq<Chunk>, from: int)
    requires |chunks| <= |history| && chunks == history[|history| - |chunks|..] && Consecutive(chunks, |history|)
    requires |history| - |chunks| < from <= |history| + 1
    ensures Since(chunks, from) == history[from - 1..]
  {
    var gone := |history| - |chunks|;
    SinceSuffix(chunks, |history|, from);
    assert history[gone..][from - 1 - gone..] == history[from - 1..];
  }

  /** An answered poll that reports no truncation delivers all the reader misses. */
  lemma PollDelivers(v: View, capacity: nat, size: nat)
    requires 0 < size <= capacity && Kept(v, capacity, size) && 1 <= v.from <= |v.history| + 1
    ensures var r := ReplayFrom(v.chunks, v.next, v.from);
            && r.replay.nextSequence == |v.history| + 1
            && (r.replay.truncated <==> v.from <= |v.history| - |v.chunks|)
            && r.failure == (if r.replay.truncated then Some(ReplayUnavailable) else None)
            && (!r.replay.truncated ==> r.replay.chunks == v.history[v.from - 1..])
  {
    Holds(v, capacity, size);
    if v.chunks != [] {
      assert v.chunks[0].sequence == |v.history| - |v.chunks| + 1;
      if v.from > |v.history| - |v.chunks| {
        SinceHistory(v.chunks, v.history, v.from);
      }
    }
  }

  /** A reader that lost nothing so far loses something now, or has everything. */
  lemma PollFollows(v: View, capacity: nat, size: nat)
    requires 0 < size <= capacity && Kept(v, capacity, size) && Followed(v) && !v.lost
    ensures var w := Apply(v, Poll, capacity, size);
            && (w.lost <==> v.from <= |v.history| - |v.chunks|)
            && (!w.lost ==> w.from == |v.history| + 1 && w.received == Concat(v.history))
  {
    PollDelivers(v, capacity, size);
    var seen, missed := v.history[..v.from - 1], v.history[v.from - 1..];
    ConcatAppend(seen, missed);
    assert v.history == seen + missed;
  }

  lemma PollKeeps(v: View, capacity: nat, size: nat)
    requires 0 < size <= capacity && Kept(v, capacity, size) && Followed(v)
    ensures var w := Apply(v, Poll, capacity, size); Kept(w, capacity, size) && Followed(w)
    ensures var w := Apply(v, Poll, capacity, size); !w.lost ==> w.received == v.written
  {
    if !v.lost {
      PollFollows(v, capacity, size);
      assert v.history[..|v.history|] == v.history;
    }
  }

  lemma {:induction false} RunKeeps(v: View, steps: seq<Step>, capacity: nat, size: nat)
    requires 0 < size <= capacity && Kept(v, capacity, size) && Followed(v)
    ensures var w := Run(v, steps, capacity, size); Kept(w, capacity, size) && Followed(w)
    decreases |steps|
  {
    if steps != [] {
      match steps[0] {
        case Write(data) => WriteKeeps(v, data, capacity, size);
        case Poll => PollKeeps(v, capacity, size);
      }
      RunKeeps(Apply(v, steps[0], capacity, size), steps[1..], capacity, size);
    }
  }

  /**
   After any writes the buffer holds exactly the longest suffix of the full chunk history that fits, the
   newest chunk always among it, and the history is the byte stream, numbered consecutively from 1.
   */
  lemma RetainsLongestSuffix(steps: seq<Step>, capacity: nat, size: nat)
    requires 0 < size <= capacity
    ensures var v := Run(START, steps, capacity, size);
            && LongestSuffix(v.chunks, v.history, capacity)
            && (v.history != [] ==> v.chunks != [])
            && Concat(v.history) == v.written
            && (forall i | 0 <= i < |v.history| :: v.history[i].sequence == i + 1)
  {
    RunKeeps(START, steps, capacity, size);
    Holds(Run(START, steps, capacity, size), capacity, size);
  }

  /**
   A reader that polls, however its polls interleave with the writes, then has the whole byte stream so
   far, unless some poll reported truncation.
   */
  lemma ReaderGetsEverything(steps: seq<Step>, capacity: nat, size: nat)
    requires 0 < size <= capacity
    ensures var v := Apply(Run(START, steps, capacity, size), Poll, capacity, size);
            !v.lost ==> v.received == v.written
  {
    RunKeeps(START, steps, capacity, size);
    PollKeeps(Run(START, steps, capacity, size), capacity, size);
  }

  /** A poll reports truncation exactly when a chunk the reader has not seen is no longer retained. */
  lemma TruncatedIff(steps: seq<Step>, capacity: nat, size: nat)
    requires 0 < size <= capacity && !Run(START, steps, capacity, size).lost
    ensures var v := Run(START, steps, capacity, size);
            Apply(v, Poll, capacity, size).lost <==> v.from <= |v.history| - |v.chunks|
  {
    RunKeeps(START, steps, capacity, size);
    PollFollows(Run(START, steps, capacity, size), capacity, size);
  }
}

/** The VRAM pattern test: the `fill` and `check` kernels and `test` in src/resource/cuda.rs. */
module Vram {
  import opened Remainders

  const THREADS := 256
  const MAX_TEST_BYTES := 0x4000_0000
  const TWO_TO_THE_32 := 0x1_0000_0000

  // Grid-stride loops

  /** What a u32 keeps of a number. */
  function U32(n: nat): nat {
    n % TWO_TO_THE_32
  }

  lemma SmallU32(n: nat)
    requires n < TWO_TO_THE_32
    ensures U32(n) == n
  {
  }

  /** The word a thread starts at. */
  function FirstWord(block: nat, thread: nat): nat {
    U32(block * THREADS + thread)
  }

  /** How far apart a thread's words are. */
  function Stride(blocks: nat): nat {
    U32(blocks * THREADS)
  }

  /** The words that a grid's threads start at, thread after thread and block after block. */
  function Starts(blocks: nat): (starts: seq<nat>)
    ensures |starts| == blocks * THREADS
  {
    seq(blocks * THREADS, t requires 0 <= t < blocks * THREADS => FirstWord(t / THREADS, t % THREADS))
  }

  /** They are the first words of the buffer, one for each thread, if and only if a u32 can number the threads. */
  lemma StartsAreTheFirstWords(blocks: nat)
    ensures blocks * THREADS <= TWO_TO_THE_32 <==> forall t | 0 <= t < blocks * THREADS :: Starts(blocks)[t] == t
  {
    forall t | 0 <= t < blocks * THREADS ensures Starts(blocks)[t] == U32(t) {
      assert t / THREADS * THREADS + t % THREADS == t;
    }
    if blocks * THREADS > TWO_TO_THE_32 {
      assert Starts(blocks)[TWO_TO_THE_32] == 0;
    }
  }

  /** Threads start at words of their own if and only if the grid has no more threads than a u32 has values. */
  lemma ThreadsStartApart(blocks: nat)
    ensures blocks * THREADS <= TWO_TO_THE_32 <==>
            forall block: nat, thread: nat, other: nat, another: nat |
              block < blocks && other < blocks && thread < THREADS && another < THREADS
              && FirstWord(block, thread) == FirstWord(other, another) :: block == other && thread == another
  {
    if blocks * THREADS > TWO_TO_THE_32 {
      assert FirstWord(0, 0) == FirstWord(TWO_TO_THE_32 / THREADS, 0);
    }
  }

  /** With four blocks for each of the card's processors the stride is the number of threads up to 2^22 - 1 processors, and
   *  too small from there on. */
  lemma StrideIsThreads(sms: nat)
    ensures Stride(U32(sms * 4)) == sms * 4 * THREADS <==> sms < 0x40_0000
  {
  }

  /** A grid that runs: its stride is its number of threads. */
  predicate Runs(blocks: nat) {
    0 < blocks * THREADS < TWO_TO_THE_32
  }

  lemma GridRuns(sms: nat)
    requires 0 < sms < 0x40_0000
    ensures Runs(U32(sms * 4))
  {
    StrideIsThreads(sms);
  }

  /** The thread, of `stride`, that visits word `i`: each starts at its own number and goes on by strides. */
  function Visitor(stride: nat, i: nat): (t: nat)
    requires stride > 0
    ensures t < stride
  {
    if i < stride then i else Visitor(stride, i - stride)
  }

  /** Each word has one visitor. */
  lemma {:induction false} VisitorIsRemainder(stride: nat, i: nat)
    requires stride > 0
    ensures Visitor(stride, i) == i % stride
    decreases i
  {
    if i >= stride {
      VisitorIsRemainder(stride, i - stride);
      NextRemainder(i - stride, stride);
    }
  }

  /** From one word of a thread to its next, the words in between are others'. */
  lemma NextVisit(stride: nat, i: nat)
    requires stride > 0
    ensures Visitor(stride, i + stride) == Visitor(stride, i)
    ensures forall j | i < j < i + stride :: Visitor(stride, j) != Visitor(stride, i)
  {
    forall j | i < j < i + stride ensures Visitor(stride, j) != Visitor(stride, i) {
      RemaindersDiffer(i, j, stride);
      VisitorIsRemainder(stride, i);
      VisitorIsRemainder(stride, j);
    }
  }

  /** The value that belongs at word `i`. */
  function Pattern(i: nat, seed: bv32): bv32 {
    ((i % TWO_TO_THE_32) as bv32 * 1664525) ^ seed
  }

  /** What each pass writes. */
  const PATTERN: nat -> bv32 := (i: nat) => Pattern(i, 0)
  const INVERSE: nat -> bv32 := (i: nat) => Pattern(i, 0xffff_ffff)

  /** The first pass writes each number times a constant, the second the inverse: each bit both ways. */
  lemma SeedsAreInverse(i: nat)
    ensures PATTERN(i) == (i % 0x1_0000_0000) as bv32 * 1664525
    ensures INVERSE(i) == !PATTERN(i)
  {
    var x := (i % TWO_TO_THE_32) as bv32 * 1664525;
    assert x ^ 0 == x;
    assert x ^ 0xffff_ffff == !(x ^ 0);
  }

  /** The constant is odd, so numbers that differ give products that do: a word that answers for another one shows. */
  lemma ProductsDiffer(a: bv32, b: bv32)
    ensures a * 1664525 == b * 1664525 <==> a == b
  {
    assert a * 1664525 * 4276115653 == a;
    assert b * 1664525 * 4276115653 == b;
  }

  // The card under test

  /** What a word gives back for what was stored in it. */
  type ReadBack = (nat, bv32) -> bv32

  predicate Mismatch(readBack: ReadBack, pattern: nat -> bv32, i: nat) {
    readBack(i, pattern(i)) != pattern(i)
  }

  /** The words that don't give back their pattern. */
  function BadWords(readBack: ReadBack, pattern: nat -> bv32, words: nat): set<nat> {
    set i | 0 <= i < words && Mismatch(readBack, pattern, i)
  }

  lemma {:induction false} FewBadWords(readBack: ReadBack, pattern: nat -> bv32, words: nat)
    ensures |BadWords(readBack, pattern, words)| <= words
  {
    if words > 0 {
      FewBadWords(readBack, pattern, words - 1);
      var fewer := BadWords(readBack, pattern, words - 1);
      if Mismatch(readBack, pattern, words - 1) {
        assert BadWords(readBack, pattern, words) == fewer + {words - 1};
      } else {
        assert BadWords(readBack, pattern, words) == fewer;
      }
    }
  }

  /** Where each thread is: at one of its words. */
  ghost predicate Positions(next: seq<nat>, stride: nat)
    requires stride > 0
  {
    |next| == stride && forall t | 0 <= t < stride :: Visitor(stride, next[t]) == t
  }

  /** The words not visited yet. */
  function Left(next: seq<nat>, stride: nat, words: nat): set<nat>
    requires |next| == stride > 0
  {
    set i | 0 <= i < words && next[Visitor(stride, i)] <= i
  }

  lemma StartPositions(blocks: nat, words: nat)
    requires Runs(blocks)
    ensures Stride(blocks) == |Starts(blocks)| && Positions(Starts(blocks), Stride(blocks))
    ensures forall i | 0 <= i < words :: i in Left(Starts(blocks), Stride(blocks), words)
  {
    StartsAreTheFirstWords(blocks);
    SmallU32(blocks * THREADS);
    var stride := Stride(blocks);
    forall i | 0 <= i < words ensures Visitor(stride, i) <= i {
      VisitorBelow(stride, i);
    }
  }

  lemma {:induction false} VisitorBelow(stride: nat, i: nat)
    requires stride > 0
    ensures Visitor(stride, i) <= i
    decreases i
  {
    if i >= stride {
      VisitorBelow(stride, i - stride);
    }
  }

  /** A thread's turn visits one word, for the first time. */
  lemma OneTurn(next: seq<nat>, stride: nat, words: nat, t: nat, later: seq<nat>)
    requires stride > 0 && Positions(next, stride) && t < stride && next[t] < words
    requires later == next[t := next[t] + stride]
    ensures Positions(later, stride)
    ensures next[t] in Left(next, stride, words)
    ensures Left(later, stride, words) == Left(next, stride, words) - {next[t]}
  {
    NextVisit(stride, next[t]);
  }

  /** Once every thread is past the end, every word has been visited. */
  lemma NoneLeft(next: seq<nat>, stride: nat, words: nat)
    requires stride > 0 && Positions(next, stride) && forall t | 0 <= t < stride :: next[t] >= words
    ensures Left(next, stride, words) == {}
  {
  }

  /** So many of the bad words have been visited. */
  ghost predicate Counted(next: seq<nat>, stride: nat, words: nat, bad: set<nat>, count: nat)
    requires stride > 0
  {
    Positions(next, stride) && count == |bad - Left(next, stride, words)|
  }

  lemma CountOneMore(bad: set<nat>, left: set<nat>, i: nat)
    requires i in left
    ensures |bad - (left - {i})| == |bad - left| + (if i in bad then 1 else 0) <= |bad|
  {
    var counted := bad - (left - {i});
    assert counted == if i in bad then (bad - left) + {i} else bad - left;
    assert bad == counted + (bad - counted);
  }

  lemma CountTurn(next: seq<nat>, stride: nat, words: nat, bad: set<nat>, count: nat, t: nat, later: seq<nat>)
    requires stride > 0 && Counted(next, stride, words, bad, count) && t < stride && next[t] < words
    requires later == next[t := next[t] + stride]
    ensures Counted(later, stride, words, bad, count + if next[t] in bad then 1 else 0)
    ensures count + (if next[t] in bad then 1 else 0) <= |bad|
    ensures |Left(later, stride, words)| < |Left(next, stride, words)|
  {
    OneTurn(next, stride, words, t, later);
    CountOneMore(bad, Left(next, stride, words), next[t]);
  }

  lemma NoneCounted(blocks: nat, words: nat, bad: set<nat>)
    requires Runs(blocks) && forall i | i in bad :: i < words
    ensures |Starts(blocks)| == Stride(blocks) > 0 && Counted(Starts(blocks), Stride(blocks), words, bad, 0)
  {
    StartPositions(blocks, words);
    assert bad - Left(Starts(blocks), Stride(blocks), words) == {};
  }

  lemma AllCounted(next: seq<nat>, stride: nat, words: nat, bad: set<nat>, count: nat)
    requires stride > 0 && Counted(next, stride, words, bad, count) && forall t | 0 <= t < stride :: next[t] >= words
    ensures count == |bad|
  {
    NoneLeft(next, stride, words);
    assert bad - {} == bad;
  }

  class Card {
    const readBack: ReadBack
    const buffer: array<bv32>
    var errors: nat // a u32 on the card

    constructor (readBack: ReadBack, words: nat)
      ensures this.readBack == readBack && buffer.Length == words && errors == 0 && fresh(buffer)
    {
      this.readBack := readBack;
      buffer := new bv32[words];
      errors := 0;
    }

    /** The `fill` kernel: in every turn any thread that is not past the end stores its next word. */
    method Fill(blocks: nat, pattern: nat -> bv32)
      requires Runs(blocks)
      modifies buffer
      ensures forall i | 0 <= i < buffer.Length :: buffer[i] == pattern(i)
    {
      StartPositions(blocks, buffer.Length);
      var next: seq<nat>, stride := Starts(blocks), Stride(blocks);
      while exists t :: 0 <= t < stride && next[t] < buffer.Length
        invariant Positions(next, stride)
        invariant forall i | 0 <= i < buffer.Length && i !in Left(next, stride, buffer.Length) :: buffer[i] == pattern(i)
        decreases |Left(next, stride, buffer.Length)|
      {
        var t :| 0 <= t < stride && next[t] < buffer.Length;
        var later := next[t := next[t] + stride];
        OneTurn(next, stride, buffer.Length, t, later);
        buffer[next[t]] := pattern(next[t]);
        next := later;
      }
      NoneLeft(next, stride, buffer.Length);
    }

    /** One word of the `check` kernel, with what the counter becomes. */
    method CheckWord(i: nat, pattern: nat -> bv32, counter: nat, ghost bad: set<nat>) returns (now: nat)
      requires i < buffer.Length && buffer[i] == pattern(i) && bad == BadWords(readBack, pattern, buffer.Length)
      requires counter + (if i in bad then 1 else 0) < TWO_TO_THE_32
      ensures now == counter + if i in bad then 1 else 0
    {
      if readBack(i, buffer[i]) != pattern(i) {
        SmallU32(counter + 1);
        return U32(counter + 1);
      }
      return counter;
    }

    /** The `check` kernel, threads taking turns in any order: the u32 counter gains exactly the number of words read back
     *  wrong. */
    method Check(blocks: nat, pattern: nat -> bv32)
      requires Runs(blocks) && errors + buffer.Length < TWO_TO_THE_32
      requires forall i | 0 <= i < buffer.Length :: buffer[i] == pattern(i)
      modifies this
      ensures errors == old(errors) + |BadWords(readBack, pattern, buffer.Length)|
    {
      var words, counter := buffer.Length, errors;
      ghost var count, bad := 0, BadWords(readBack, pattern, words);
      FewBadWords(readBack, pattern, words);
      NoneCounted(blocks, words, bad);
      var next: seq<nat>, stride := Starts(blocks), Stride(blocks);
      while exists t :: 0 <= t < stride && next[t] < words
        invariant |next| == stride && Counted(next, stride, words, bad, count) && counter == old(errors) + count
        decreases |Left(next, stride, words)|
      {
        var t :| 0 <= t < stride && next[t] < words;
        var later := next[t := next[t] + stride];
        CountTurn(next, stride, words, bad, count, t, later);
        counter := CheckWord(next[t], pattern, counter, bad);
        count := count + if next[t] in bad then 1 else 0;
        next := later;
      }
      AllCounted(next, stride, words, bad, count);
      errors := counter;
    }

    /** The pattern test: fill and check with a seed and its inverse. */
    method TestPatterns(sms: nat) returns (mismatches: nat)
      requires 0 < sms < 0x40_0000 && 4 * buffer.Length <= MAX_TEST_BYTES
      modifies this, buffer
      ensures mismatches == AllMismatches(readBack, buffer.Length) < TWO_TO_THE_32
    {
      FewBadWords(readBack, PATTERN, buffer.Length);
      FewBadWords(readBack, INVERSE, buffer.Length);
      var blocks := U32(sms * 4);
      GridRuns(sms);
      errors := 0;
      for pass := 0 to 2
        invariant errors == (if pass >= 1 then |BadWords(readBack, PATTERN, buffer.Length)| else 0)
                            + (if pass >= 2 then |BadWords(readBack, INVERSE, buffer.Length)| else 0)
      {
        var pattern := if pass == 0 then PATTERN else INVERSE;
        Fill(blocks, pattern);
        Check(blocks, pattern);
      }
      mismatches := errors;
    }
  }

  /** How many words are tested, of this much free memory. */
  function TestWords(free: nat): (words: nat)
    ensures 4 * words <= 0x4000_0000 && 8 * words <= free
    ensures 4 * (words + 1) > 0x4000_0000 || 8 * (words + 1) > free
  {
    var bytes := if free / 2 < MAX_TEST_BYTES then free / 2 else MAX_TEST_BYTES;
    (bytes - bytes % 4) / 4
  }

  // What a clean result says

  function AllMismatches(readBack: ReadBack, words: nat): nat {
    |BadWords(readBack, PATTERN, words)| + |BadWords(readBack, INVERSE, words)|
  }

  lemma NoBadWords(readBack: ReadBack, pattern: nat -> bv32, words: nat)
    ensures |BadWords(readBack, pattern, words)| == 0 <==> forall i | 0 <= i < words :: !Mismatch(readBack, pattern, i)
  {
    if |BadWords(readBack, pattern, words)| == 0 {
      forall i | 0 <= i < words ensures !Mismatch(readBack, pattern, i) {
        assert i !in BadWords(readBack, pattern, words);
      }
    }
  }

  /** No mismatch means that every read of both passes gave back what was written. */
  lemma NoMismatchMeansAllMatched(readBack: ReadBack, words: nat)
    ensures AllMismatches(readBack, words) == 0 <==>
            forall i | 0 <= i < words :: !Mismatch(readBack, PATTERN, i) && !Mismatch(readBack, INVERSE, i)
  {
    NoBadWords(readBack, PATTERN, words);
    NoBadWords(readBack, INVERSE, words);
  }

  predicate OneBit(mask: bv32) {
    mask != 0 && mask & (mask - 1) == 0
  }

  predicate BitReads(value: bv32, mask: bv32, high: bool) {
    value & mask == if high then mask else 0
  }

  /** The bit reads as 1, or as 0, whatever was stored. */
  ghost predicate Stuck(readBack: ReadBack, i: nat, mask: bv32, high: bool) {
    forall v: bv32 :: BitReads(readBack(i, v), mask, high)
  }

  /** The word gives back everything else. */
  ghost predicate OtherwiseRight(readBack: ReadBack, i: nat, mask: bv32) {
    forall v: bv32 :: SameOutside(readBack(i, v), v, mask)
  }

  predicate SameOutside(a: bv32, b: bv32, mask: bv32) {
    a | mask == b | mask
  }

  /** Of a value and its inverse, a stuck bit changes one; if nothing else changes, the other comes back right. */
  lemma StuckBitShowsOnce(v: bv32, mask: bv32, high: bool, back: bv32, inverseBack: bv32)
    requires OneBit(mask) && BitReads(back, mask, high) && BitReads(inverseBack, mask, high)
    ensures back != v || inverseBack != !v
    ensures SameOutside(back, v, mask) && SameOutside(inverseBack, !v, mask) ==> back == v || inverseBack == !v
  {
  }

  lemma StuckWord(readBack: ReadBack, i: nat, mask: bv32, high: bool, v: bv32)
    requires OneBit(mask) && Stuck(readBack, i, mask, high)
    ensures readBack(i, v) != v || readBack(i, !v) != !v
    ensures OtherwiseRight(readBack, i, mask) ==> readBack(i, v) == v || readBack(i, !v) == !v
  {
    assert BitReads(readBack(i, v), mask, high) && BitReads(readBack(i, !v), mask, high);
    StuckBitShowsOnce(v, mask, high, readBack(i, v), readBack(i, !v));
    if OtherwiseRight(readBack, i, mask) {
      assert SameOutside(readBack(i, v), v, mask) && SameOutside(readBack(i, !v), !v, mask);
    }
  }

  lemma BadIfMismatch(readBack: ReadBack, pattern: nat -> bv32, words: nat, i: nat, written: bv32)
    requires i < words && pattern(i) == written
    ensures i in BadWords(readBack, pattern, words) <==> readBack(i, written) != written
  {
  }

  /** A stuck bit shows in a pass, and if the word is right otherwise, in exactly one. */
  lemma StuckBitShows(readBack: ReadBack, words: nat, i: nat, mask: bv32, high: bool)
    requires i < words && OneBit(mask) && Stuck(readBack, i, mask, high)
    ensures i in BadWords(readBack, PATTERN, words) || i in BadWords(readBack, INVERSE, words)
    ensures AllMismatches(readBack, words) > 0
    ensures OtherwiseRight(readBack, i, mask) ==>
              (i in BadWords(readBack, PATTERN, words) <==> i !in BadWords(readBack, INVERSE, words))
  {
    SeedsAreInverse(i);
    StuckWord(readBack, i, mask, high, PATTERN(i));
    BadIfMismatch(readBack, PATTERN, words, i, PATTERN(i));
    BadIfMismatch(readBack, INVERSE, words, i, !PATTERN(i));
  }
}

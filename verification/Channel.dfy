/** The ring's code run by itself, with no other thread in between: masks, strides and loops, and what a receiver gets
 *  while the sender rests: src/broadcast.rs. */
module Channel {
  import opened Wrappers
  import opened Remainders
  import Ring
  import RingSafety

  // Capacities and slots

  function Power(k: nat): nat {
    if k == 0 then 1 else 2 * Power(k - 1)
  }

  /** The first power of two from `2^k` on that is at least `n`. */
  function PowerFrom(n: nat, k: nat): nat
    decreases n - Power(k)
  {
    if n <= Power(k) then Power(k) else PowerFromGrows(n, k); PowerFrom(n, k + 1)
  }

  lemma PowerFromGrows(n: nat, k: nat)
    ensures Power(k) < Power(k + 1)
  {
    PowerPositive(k);
  }

  lemma {:induction false} PowerPositive(k: nat)
    ensures Power(k) > 0
  {
    if k > 0 {
      PowerPositive(k - 1);
    }
  }

  function RoundedUp(requested: nat): nat {
    var power := PowerFrom(requested, 0);
    if power < 2 then 2 else power
  }

  lemma {:induction false} PowerFromIsLeast(n: nat, k: nat) returns (j: nat)
    requires k == 0 || Power(k - 1) < n
    ensures j >= k && PowerFrom(n, k) == Power(j) >= n && (j == 0 || Power(j - 1) < n)
    decreases n - Power(k)
  {
    j := k;
    if n > Power(k) {
      PowerFromGrows(n, k);
      j := PowerFromIsLeast(n, k + 1);
    }
  }

  /** A power of two, at least 2 and the number asked for, and less than twice that. */
  lemma CapacityMeets(requested: nat) returns (j: nat)
    ensures j > 0 && RoundedUp(requested) == Power(j) && RoundedUp(requested) >= 2 && RoundedUp(requested) >= requested
    ensures requested > 1 ==> RoundedUp(requested) < 2 * requested
  {
    j := PowerFromIsLeast(requested, 0);
    if j == 0 {
      j := 1;
      assert Power(1) == 2 * Power(0);
    } else {
      PowerPositive(j - 1);
    }
  }

  /** `a & b` on naturals. */
  function BitAnd(a: nat, b: nat): nat
    decreases a
  {
    if a == 0 || b == 0 then 0 else 2 * BitAnd(a / 2, b / 2) + (a % 2) * (b % 2)
  }

  lemma HalvedRemainder(a: nat, half: nat)
    requires half > 0
    ensures a % (2 * half) == 2 * ((a / 2) % half) + a % 2
  {
    var q, r := (a / 2) / half, (a / 2) % half;
    assert a / 2 == half * q + r;
    assert (2 * half) * q == 2 * (half * q);
    RemainderIs(a, 2 * half, q, 2 * r + a % 2);
  }

  /** Masking with a power of two less one is taking the remainder. */
  lemma {:induction false} MaskIsRemainder(a: nat, k: nat)
    ensures Power(k) > 0 && BitAnd(a, Power(k) - 1) == a % Power(k)
    decreases k
  {
    PowerPositive(k);
    if k > 0 {
      PowerPositive(k - 1);
      MaskIsRemainder(a / 2, k - 1);
      HalvedRemainder(a, Power(k - 1));
      MaskStep(a, Power(k - 1));
    }
  }

  lemma MaskStep(a: nat, half: nat)
    requires half > 0
    ensures BitAnd(a, 2 * half - 1) == 2 * BitAnd(a / 2, half - 1) + a % 2
  {
    var mask := 2 * half - 1;
    assert mask / 2 == half - 1 && mask % 2 == 1;
    var bit := a % 2;
    assert bit * 1 == bit;
  }

  lemma {:induction false} SlotIsRemainder(capacity: nat, pos: nat)
    requires capacity > 0
    ensures Ring.SlotOf(capacity, pos) == pos % capacity
    decreases pos
  {
    if pos >= capacity {
      SlotIsRemainder(capacity, pos - capacity);
      RemainderIs(pos, capacity, (pos - capacity) / capacity + 1, (pos - capacity) % capacity);
    }
  }

  /** The code's `pos & mask` is the slot the ring's model uses. */
  lemma MaskedSlot(k: nat, pos: nat)
    ensures Power(k) > 0 && BitAnd(pos, Power(k) - 1) == Ring.SlotOf(Power(k), pos)
  {
    MaskIsRemainder(pos, k);
    SlotIsRemainder(Power(k), pos);
  }

  /** Positions less than a capacity apart have slots of their own. */
  lemma SlotsDiffer(capacity: nat, p: nat, q: nat)
    requires capacity > 0 && p < q < p + capacity
    ensures Ring.SlotOf(capacity, p) != Ring.SlotOf(capacity, q)
  {
    var slot := Ring.SlotOf(capacity, p);
    RingSafety.PosOfSlot(capacity, p);
    RingSafety.PosOfSlot(capacity, q);
    if Ring.SlotOf(capacity, q) == slot {
      RingSafety.LapOrder(capacity, slot, Ring.LapOf(capacity, p), Ring.LapOf(capacity, q));
      RingSafety.LaterLap(capacity, slot, Ring.LapOf(capacity, p), Ring.LapOf(capacity, q));
    }
  }

  const MAX_STAGING_WORDS := 16
  const CACHE_LINE_WORDS := 8

  /** Words per slot, rounded up to whole cache lines. */
  function Stride(words: nat): (stride: nat)
    ensures words <= stride < words + CACHE_LINE_WORDS && stride % CACHE_LINE_WORDS == 0
  {
    (words + CACHE_LINE_WORDS - 1) / CACHE_LINE_WORDS * CACHE_LINE_WORDS
  }

  /** Where a slot's words start. */
  function Base(stride: nat, slot: nat): nat {
    if slot == 0 then 0 else Base(stride, slot - 1) + stride
  }

  lemma {:induction false} BaseIsProduct(stride: nat, slot: nat)
    ensures Base(stride, slot) == slot * stride
  {
    if slot > 0 {
      BaseIsProduct(stride, slot - 1);
      assert slot * stride == (slot - 1) * stride + stride;
    }
  }

  /** Slots are a stride apart. */
  lemma {:induction false} BasesApart(stride: nat, slot: nat, later: nat)
    requires slot < later
    ensures Base(stride, slot) + stride <= Base(stride, later)
    decreases later
  {
    if slot < later - 1 {
      BasesApart(stride, slot, later - 1);
    }
  }

  lemma SameSlice(before: seq<nat>, after: seq<nat>, from: nat, n: nat)
    requires from + n <= |before| == |after| && forall k | from <= k < from + n :: after[k] == before[k]
    ensures after[from..from + n] == before[from..from + n]
  {
  }

  /** The last position before `end` in the slot of `pos`. */
  lemma {:induction false} NewestPosition(capacity: nat, end: nat, pos: nat) returns (newest: nat)
    requires capacity > 0 && pos < end
    ensures pos <= newest < end <= newest + capacity && Ring.SlotOf(capacity, newest) == Ring.SlotOf(capacity, pos)
    ensures pos + capacity < end ==> newest > pos
    decreases end - pos
  {
    newest := pos;
    if pos + capacity < end {
      SlotOneLapEarlier(capacity, pos + capacity);
      newest := NewestPosition(capacity, end, pos + capacity);
    }
  }

  lemma SlotOneLapEarlier(capacity: nat, pos: nat)
    requires 0 < capacity <= pos
    ensures Ring.SlotOf(capacity, pos - capacity) == Ring.SlotOf(capacity, pos)
  {
  }

  class RingBuffer {
    const mask: nat
    const stride: nat
    const words: nat // per event
    const versions: array<nat>
    const cells: array<nat>
    var producer: nat
    ghost const power: nat
    ghost var sent: seq<seq<nat>>

    ghost function Capacity(): nat {
      mask + 1
    }

    ghost function WordsOf(slot: nat): seq<nat>
      requires Shape() && slot < Capacity()
      reads this, cells
    {
      BasesApart(stride, slot, Capacity());
      cells[Base(stride, slot)..Base(stride, slot) + words]
    }

    /** The slot holds the event sent at `pos`. */
    ghost predicate Holds(pos: nat)
      requires Shape() && pos < |sent|
      reads this, versions, cells
    {
      var slot := Ring.SlotOf(Capacity(), pos);
      slot < Capacity() && versions[slot] == 2 * pos + 2 && WordsOf(slot) == sent[pos]
    }

    ghost predicate Shape() {
      && Capacity() == Power(power) && Capacity() >= 2 && words <= MAX_STAGING_WORDS && words <= stride
      && versions != cells && versions.Length == Capacity() && cells.Length == Base(stride, Capacity())
    }

    /** The last capacity's worth of events, and slots not yet used. */
    ghost predicate Valid()
      reads this, versions, cells
    {
      && Shape()
      && producer == |sent|
      && (forall pos | 0 <= pos < |sent| :: |sent[pos]| == words)
      && (forall pos | 0 <= pos < |sent| && |sent| <= pos + Capacity() :: Holds(pos))
      && (forall slot | |sent| <= slot < Capacity() :: versions[slot] == 2 * slot)
    }

    /** What a slot's version says about a position of that slot, no further ahead than the cursor. */
    lemma NewestInSlot(pos: nat)
      requires Valid() && pos <= |sent|
      ensures var slot := Ring.SlotOf(Capacity(), pos);
              && slot < Capacity()
              && (versions[slot] < 2 * pos + 2 <==> pos == |sent|)
              && (versions[slot] > 2 * pos + 2 <==> pos + Capacity() < |sent|)
    {
      var capacity, slot, lap := Capacity(), Ring.SlotOf(Capacity(), pos), Ring.LapOf(Capacity(), pos);
      RingSafety.PosOfSlot(capacity, pos);
      if pos + capacity < |sent| {
        var newest := NewestPosition(capacity, |sent|, pos);
        assert Holds(newest);
      } else if pos < |sent| {
        assert Holds(pos);
      } else if pos >= capacity {
        SlotOneLapEarlier(capacity, pos);
        assert Holds(pos - capacity);
      } else {
        assert slot == pos;
      }
    }

    constructor (requested: nat, words: nat)
      requires words <= MAX_STAGING_WORDS
      ensures Valid() && sent == [] && fresh(versions) && fresh(cells)
      ensures this.words == words && Capacity() == RoundedUp(requested)
    {
      ghost var j := CapacityMeets(requested);
      var capacity := RoundedUp(requested);
      mask := capacity - 1;
      this.words := words;
      stride := Stride(words);
      versions := new nat[capacity](i => 2 * i);
      cells := new nat[Base(Stride(words), capacity)](i => 0);
      producer := 0;
      power := j;
      sent := [];
    }

    method StoreWords(base: nat, value: seq<nat>)
      requires |value| == words && base + words <= cells.Length
      modifies cells
      ensures cells[base..base + words] == value
      ensures forall k | 0 <= k < cells.Length && !(base <= k < base + words) :: cells[k] == old(cells[k])
    {
      for i := 0 to words
        invariant cells[base..base + i] == value[..i]
        invariant forall k | 0 <= k < cells.Length && !(base <= k < base + words) :: cells[k] == old(cells[k])
      {
        cells[base + i] := value[i];
        assert cells[base..base + i + 1] == cells[base..base + i] + [value[i]];
      }
    }

    method StoreSlot(slot: nat, value: seq<nat>)
      requires Shape() && slot < Capacity() && |value| == words
      modifies cells
      ensures WordsOf(slot) == value
      ensures forall other | 0 <= other < Capacity() && other != slot :: WordsOf(other) == old(WordsOf(other))
    {
      ghost var before := cells[..];
      BasesApart(stride, slot, Capacity());
      BaseIsProduct(stride, slot);
      StoreWords(slot * stride, value);
      forall other | 0 <= other < Capacity() && other != slot ensures WordsOf(other) == old(WordsOf(other)) {
        BasesApart(stride, other, Capacity());
        if other < slot {
          BasesApart(stride, other, slot);
        } else {
          BasesApart(stride, slot, other);
        }
        SameSlice(before, cells[..], Base(stride, other), words);
      }
    }

    /** The seqlock around the words: odd, the words, even. */
    method Overwrite(slot: nat, pos: nat, value: seq<nat>)
      requires Shape() && slot < Capacity() && |value| == words
      modifies versions, cells
      ensures versions[..] == old(versions[..])[slot := 2 * pos + 2]
      ensures WordsOf(slot) == value
      ensures forall other | 0 <= other < Capacity() && other != slot :: WordsOf(other) == old(WordsOf(other))
    {
      versions[slot] := 2 * pos + 1;
      StoreSlot(slot, value);
      versions[slot] := 2 * pos + 2;
    }

    /** Publish one event over the oldest. */
    method Send(value: seq<nat>)
      requires Valid() && |value| == words
      modifies this, versions, cells
      ensures Valid() && sent == old(sent) + [value]
    {
      var pos := producer;
      producer := producer + 1;
      var slot := BitAnd(pos, mask);
      MaskedSlot(power, pos);
      RingSafety.PosOfSlot(Capacity(), pos);
      Overwrite(slot, pos, value);
      sent := sent + [value];
      forall p | 0 <= p < |sent| && |sent| <= p + Capacity() ensures Holds(p) {
        if p < pos {
          assert old(Holds(p));
          SlotsDiffer(Capacity(), p, pos);
        }
      }
    }
  }

  // Receiving while the sender rests

  /** What one receive gives, and where the receiver stands after it. */
  function Received(capacity: nat, sent: seq<seq<nat>>, pos: nat): (Option<seq<nat>>, nat) {
    if pos >= |sent| then (None, pos)
    else if pos + capacity < |sent| then (None, |sent| - capacity / 2)
    else (Some(sent[pos]), pos + 1)
  }

  /** What `n` receives in a row give. */
  function Drained(capacity: nat, sent: seq<seq<nat>>, pos: nat, n: nat): seq<Option<seq<nat>>>
    decreases n
  {
    if n == 0 then []
    else
      var (r, next) := Received(capacity, sent, pos);
      [r] + Drained(capacity, sent, next, n - 1)
  }

  function Somes(data: seq<seq<nat>>): seq<Option<seq<nat>>> {
    seq(|data|, i requires 0 <= i < |data| => Some(data[i]))
  }

  /** At most one capacity behind, a receiver gets exactly the events it hasn't had, in order, and then nothing. */
  lemma {:induction false} DrainsTheRest(capacity: nat, sent: seq<seq<nat>>, pos: nat)
    requires pos <= |sent| <= pos + capacity
    ensures Drained(capacity, sent, pos, |sent| - pos + 1) == Somes(sent[pos..]) + [None]
    decreases |sent| - pos
  {
    var n := |sent| - pos;
    if n == 0 {
      assert Drained(capacity, sent, pos, 1) == [None] + Drained(capacity, sent, pos, 0);
      assert Somes(sent[pos..]) == [];
    } else {
      DrainsTheRest(capacity, sent, pos + 1);
      assert sent[pos..] == [sent[pos]] + sent[pos + 1..];
      assert Somes(sent[pos..]) == [Some(sent[pos])] + Somes(sent[pos + 1..]);
      assert Drained(capacity, sent, pos, n + 1) == [Some(sent[pos])] + Drained(capacity, sent, pos + 1, n);
    }
  }

  /** Further behind, it gets nothing once and then exactly the last half capacity of events. */
  lemma DrainsTheLastHalf(capacity: nat, sent: seq<seq<nat>>, pos: nat)
    requires capacity >= 2 && pos + capacity < |sent|
    ensures Drained(capacity, sent, pos, capacity / 2 + 2) == [None] + Somes(sent[|sent| - capacity / 2..]) + [None]
  {
    var half := |sent| - capacity / 2;
    DrainsTheRest(capacity, sent, half);
    var rest := Drained(capacity, sent, half, capacity / 2 + 1);
    assert Drained(capacity, sent, pos, capacity / 2 + 2) == [None] + rest;
    assert [None] + (Somes(sent[half..]) + [None]) == [None] + Somes(sent[half..]) + [None];
  }

  class Receiver {
    const buffer: RingBuffer
    var pos: nat
    var laps: nat

    /** `subscribe`: from the cursor on. */
    constructor (buffer: RingBuffer)
      requires buffer.Valid()
      ensures this.buffer == buffer && pos == |buffer.sent| && laps == 0
    {
      this.buffer := buffer;
      pos := buffer.producer;
      laps := 0;
    }

    method CatchUp()
      requires buffer.Valid()
      modifies this
      ensures pos == Ring.Saturating(|buffer.sent|, buffer.Capacity() / 2) && laps == old(laps) + 1
    {
      laps := laps + 1;
      var producerPos := buffer.producer;
      var capacity := buffer.mask + 1;
      pos := if producerPos < capacity / 2 then 0 else producerPos - capacity / 2;
    }

    method LoadWords(base: nat) returns (staged: seq<nat>)
      requires base + buffer.words <= buffer.cells.Length
      ensures staged == buffer.cells[base..base + buffer.words]
    {
      staged := [];
      for i := 0 to buffer.words
        invariant staged == buffer.cells[base..base + i]
      {
        staged := staged + [buffer.cells[base + i]];
      }
    }

    /** The next event if there is one. */
    method TryRecv() returns (r: Option<seq<nat>>)
      requires buffer.Valid() && pos <= |buffer.sent|
      modifies this
      ensures (r, pos) == Received(buffer.Capacity(), buffer.sent, old(pos)) && pos <= |buffer.sent|
      ensures laps == old(laps) + if old(pos) + buffer.Capacity() < |buffer.sent| then 1 else 0
    {
      var slot := BitAnd(pos, buffer.mask);
      MaskedSlot(buffer.power, pos);
      RingSafety.PosOfSlot(buffer.Capacity(), pos);
      var want := 2 * pos + 2;
      buffer.NewestInSlot(pos);

      var v1 := buffer.versions[slot];
      if v1 < want {
        return None;
      }
      if v1 > want {
        CatchUp();
        return None;
      }

      BasesApart(buffer.stride, slot, buffer.Capacity());
      BaseIsProduct(buffer.stride, slot);
      var staged := LoadWords(slot * buffer.stride);
      var v2 := buffer.versions[slot];
      if v1 != v2 {
        return None;
      }
      assert buffer.Holds(pos);
      pos := pos + 1;
      return Some(staged);
    }
  }
}

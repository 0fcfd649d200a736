/** No torn and no stale reads: what a receiver delivers at a position is what was sent there, whatever it loads. */
module RingSafety {
  import opened Memory
  import opened Ring

  // Positions

  lemma {:induction false} PosOfSlot(capacity: nat, pos: nat)
    requires capacity > 0
    ensures SlotOf(capacity, pos) < capacity && SlotOf(capacity, pos) <= pos
    ensures PosOf(capacity, SlotOf(capacity, pos), LapOf(capacity, pos)) == pos
    decreases pos
  {
    if pos >= capacity {
      PosOfSlot(capacity, pos - capacity);
    }
  }

  lemma {:induction false} SlotOfPos(capacity: nat, slot: nat, lap: nat)
    requires slot < capacity
    ensures SlotOf(capacity, PosOf(capacity, slot, lap)) == slot && LapOf(capacity, PosOf(capacity, slot, lap)) == lap
    decreases lap
  {
    if lap > 0 {
      SlotOfPos(capacity, slot, lap - 1);
    }
  }

  lemma {:induction false} LaterLap(capacity: nat, slot: nat, lap: nat, later: nat)
    requires lap < later
    ensures PosOf(capacity, slot, lap) + capacity <= PosOf(capacity, slot, later)
    decreases later
  {
    if lap < later - 1 {
      LaterLap(capacity, slot, lap, later - 1);
    }
  }

  /** Positions of a slot are ordered as its laps. */
  lemma LapOrder(capacity: nat, slot: nat, lap: nat, other: nat)
    requires capacity > 0
    ensures PosOf(capacity, slot, lap) < PosOf(capacity, slot, other) <==> lap < other
    ensures PosOf(capacity, slot, lap) == PosOf(capacity, slot, other) <==> lap == other
  {
    if lap < other {
      LaterLap(capacity, slot, lap, other);
    } else if other < lap {
      LaterLap(capacity, slot, other, lap);
    }
  }

  // What each location holds

  /** How many sends have completed, and how many have marked their slot. */
  function DoneSends(s: State): nat {
    if s.at.Idle? || s.sent == [] then |s.sent| else |s.sent| - 1
  }

  function MarkedSends(s: State): nat {
    if s.at.Claimed? then DoneSends(s) else |s.sent|
  }

  function StoredWords(s: State, i: nat): nat {
    if s.at.Writing? && i < s.at.done then |s.sent| else DoneSends(s)
  }

  function VersionAt(capacity: nat, slot: nat, ts: nat): nat {
    if ts == 0 then 2 * slot else 2 * PosOf(capacity, slot, (ts - 1) / 2) + (if ts % 2 == 1 then 1 else 2)
  }

  ghost predicate CursorHolds(s: State) {
    && |s.history(Cursor)| == |s.sent| + 1
    && forall k | 0 <= k < |s.history(Cursor)| :: s.history(Cursor)[k].value == k
  }

  /** A slot's version counts its laps: odd while one is written, even once it is. */
  ghost predicate VersionHolds(u: Setup, s: State, slot: nat) {
    var h := s.history(Version(slot));
    && h != []
    && (forall ts | 0 <= ts < |h| :: h[ts].value == VersionAt(u.capacity, slot, ts))
    && (forall lap: nat :: 2 * lap + 1 < |h| <==> PosOf(u.capacity, slot, lap) < MarkedSends(s))
    && (forall lap: nat :: 2 * lap + 2 < |h| <==> PosOf(u.capacity, slot, lap) < DoneSends(s))
  }

  ghost predicate WordHolds(u: Setup, s: State, slot: nat, i: nat) {
    var h := s.history(Word(slot, i));
    && h != [] && h[0].value == 0
    && (forall lap: nat :: lap + 1 < |h| <==> PosOf(u.capacity, slot, lap) < StoredWords(s, i))
    && forall lap: nat | lap + 1 < |h| :: WordIs(u, s, slot, i, lap)
  }

  ghost predicate WordIs(u: Setup, s: State, slot: nat, i: nat, lap: nat)
    requires lap + 1 < |s.history(Word(slot, i))|
  {
    var pos := PosOf(u.capacity, slot, lap);
    pos < |s.sent| && i < |s.sent[pos]| && s.history(Word(slot, i))[lap + 1].value == s.sent[pos][i]
  }

  ghost predicate Holds(u: Setup, s: State) {
    && CursorHolds(s)
    && (forall slot | 0 <= slot < u.capacity :: VersionHolds(u, s, slot))
    && (forall slot, i | 0 <= slot < u.capacity && 0 <= i < u.words :: WordHolds(u, s, slot, i))
    && (forall pos | 0 <= pos < |s.sent| :: |s.sent[pos]| == u.words)
    && (!s.at.Idle? ==> |s.sent| == s.at.pos + 1)
    && (s.at.Writing? ==> s.at.done <= u.words)
  }

  // What the messages carry

  /** The even version of a lap comes with its words, and with the cursor past it. */
  ghost predicate EvenCarries(u: Setup, s: State, slot: nat, lap: nat)
    requires 2 * lap + 2 < |s.history(Version(slot))|
  {
    var view := s.history(Version(slot))[2 * lap + 2].view;
    (forall i | 0 <= i < u.words :: view(Word(slot, i)) >= lap + 1) && view(Cursor) > PosOf(u.capacity, slot, lap)
  }

  /** The odd version comes with the cursor at its position, thanks to the fence of the send before. */
  ghost predicate OddCarries(u: Setup, s: State, slot: nat, lap: nat)
    requires 2 * lap + 1 < |s.history(Version(slot))|
  {
    s.history(Version(slot))[2 * lap + 1].view(Cursor) >= PosOf(u.capacity, slot, lap)
  }

  /** A word comes with the odd version of its lap. */
  ghost predicate WordCarries(u: Setup, s: State, slot: nat, i: nat, lap: nat)
    requires lap + 1 < |s.history(Word(slot, i))|
  {
    s.history(Word(slot, i))[lap + 1].view(Version(slot)) >= 2 * lap + 1
  }

  ghost predicate Carries(u: Setup, s: State) {
    && (forall slot, lap: nat | 0 <= slot < u.capacity && 2 * lap + 2 < |s.history(Version(slot))| ::
        EvenCarries(u, s, slot, lap))
    && (forall slot, lap: nat | 0 <= slot < u.capacity && 2 * lap + 1 < |s.history(Version(slot))| ::
        OddCarries(u, s, slot, lap))
    && (forall slot, i, lap: nat | 0 <= slot < u.capacity && 0 <= i < u.words && lap + 1 < |s.history(Word(slot, i))| ::
          WordCarries(u, s, slot, i, lap))
  }

  /** The sender has seen all it wrote, and its last release fence covers the mark of the send under way. */
  ghost predicate SenderSees(u: Setup, s: State)
    requires u.capacity > 0
  {
    && (forall l :: s.sender.cur(l) == |s.history(l)| - 1)
    && s.sender.rel(Cursor) >= DoneSends(s)
    && (s.at.Writing? ==>
          s.sender.rel(Version(SlotOf(u.capacity, s.at.pos))) >= 2 * LapOf(u.capacity, s.at.pos) + 1
          && s.sender.rel(Cursor) >= |s.sent|)
  }

  ghost predicate SenderInv(u: Setup, s: State)
    requires u.capacity > 0
  {
    Holds(u, s) && Carries(u, s) && SenderSees(u, s)
  }

  // Sender steps

  /** A slot whose next send is at `pos` has exactly its earlier laps' versions. */
  lemma VersionLength(u: Setup, s: State, slot: nat, lap: nat)
    requires u.capacity > 0 && VersionHolds(u, s, slot)
    ensures PosOf(u.capacity, slot, lap) == DoneSends(s) == MarkedSends(s) ==> |s.history(Version(slot))| == 2 * lap + 1
    ensures PosOf(u.capacity, slot, lap) == DoneSends(s) < MarkedSends(s) == DoneSends(s) + 1 ==>
              |s.history(Version(slot))| == 2 * lap + 2
  {
    var h := s.history(Version(slot));
    assert 2 * lap + 1 < |h| <==> PosOf(u.capacity, slot, lap) < MarkedSends(s);
    assert 2 * lap + 2 < |h| <==> PosOf(u.capacity, slot, lap) < DoneSends(s);
    if lap > 0 {
      LapOrder(u.capacity, slot, lap - 1, lap);
      assert 2 * (lap - 1) + 2 < |h| <==> PosOf(u.capacity, slot, lap - 1) < DoneSends(s);
    }
  }

  lemma WordLength(u: Setup, s: State, slot: nat, i: nat, lap: nat)
    requires u.capacity > 0 && WordHolds(u, s, slot, i) && PosOf(u.capacity, slot, lap) == StoredWords(s, i)
    ensures |s.history(Word(slot, i))| == lap + 1
  {
    var h := s.history(Word(slot, i));
    assert lap + 1 < |h| <==> PosOf(u.capacity, slot, lap) < StoredWords(s, i);
    if lap > 0 {
      LapOrder(u.capacity, slot, lap - 1, lap);
      assert lap - 1 + 1 < |h| <==> PosOf(u.capacity, slot, lap - 1) < StoredWords(s, i);
    }
  }

  /** A location that keeps its history, while no position of its slot comes to count. */
  lemma VersionStays(u: Setup, s: State, t: State, slot: nat)
    requires VersionHolds(u, s, slot) && t.history(Version(slot)) == s.history(Version(slot))
    requires forall lap: nat :: PosOf(u.capacity, slot, lap) < MarkedSends(s) <==>
        PosOf(u.capacity, slot, lap) < MarkedSends(t)
    requires forall lap: nat :: PosOf(u.capacity, slot, lap) < DoneSends(s) <==> PosOf(u.capacity, slot, lap) < DoneSends(t)
    ensures VersionHolds(u, t, slot)
  {
  }

  lemma WordStays(u: Setup, s: State, t: State, slot: nat, i: nat)
    requires WordHolds(u, s, slot, i) && t.history(Word(slot, i)) == s.history(Word(slot, i)) && s.sent <= t.sent
    requires forall lap: nat :: PosOf(u.capacity, slot, lap) < StoredWords(s, i) <==>
        PosOf(u.capacity, slot, lap) < StoredWords(t, i)
    ensures WordHolds(u, t, slot, i)
  {
    forall lap: nat | lap + 1 < |t.history(Word(slot, i))| ensures WordIs(u, t, slot, i, lap) {
      assert WordIs(u, s, slot, i, lap);
    }
  }

  /** A position belongs to one slot and lap only. */
  lemma OtherPos(capacity: nat, pos: nat, slot: nat, lap: nat)
    requires capacity > 0 && slot < capacity && (slot != SlotOf(capacity, pos) || lap != LapOf(capacity, pos))
    ensures PosOf(capacity, slot, lap) != pos
  {
    SlotOfPos(capacity, slot, lap);
  }

  lemma ClaimHolds(u: Setup, s: State, data: seq<nat>, t: State)
    requires Sound(u) && Holds(u, s) && SendNext(u, s, Claim(data), t)
    ensures Holds(u, t)
  {
    forall slot | 0 <= slot < u.capacity ensures VersionHolds(u, t, slot) {
      VersionStays(u, s, t, slot);
    }
    forall slot, i | 0 <= slot < u.capacity && 0 <= i < u.words ensures WordHolds(u, t, slot, i) {
      WordStays(u, s, t, slot, i);
    }
  }

  lemma MarkHolds(u: Setup, s: State, t: State)
    requires Sound(u) && Holds(u, s) && SendNext(u, s, Mark, t)
    ensures Holds(u, t)
    ensures |s.history(Version(SlotOf(u.capacity, s.at.pos)))| == 2 * LapOf(u.capacity, s.at.pos) + 1
  {
    var pos := s.at.pos;
    var here, lap := SlotOf(u.capacity, pos), LapOf(u.capacity, pos);
    PosOfSlot(u.capacity, pos);
    VersionLength(u, s, here, lap);
    forall slot | 0 <= slot < u.capacity ensures VersionHolds(u, t, slot) {
      if slot == here {
        MarkedVersion(u, s, t, slot, lap);
      } else {
        forall l: nat ensures PosOf(u.capacity, slot, l) != pos {
          OtherPos(u.capacity, pos, slot, l);
        }
        VersionStays(u, s, t, slot);
      }
    }
    forall slot, i | 0 <= slot < u.capacity && 0 <= i < u.words ensures WordHolds(u, t, slot, i) {
      WordStays(u, s, t, slot, i);
    }
  }

  /** The slot's next odd version. */
  lemma MarkedVersion(u: Setup, s: State, t: State, slot: nat, lap: nat)
    requires u.capacity > 0 && VersionHolds(u, s, slot) && |s.history(Version(slot))| == 2 * lap + 1
    requires MarkedSends(s) == DoneSends(s) == DoneSends(t) == PosOf(u.capacity, slot, lap)
        && MarkedSends(t) == DoneSends(t) + 1
    requires exists m ::
               t.history(Version(slot)) == s.history(Version(slot)) + [m] && m.value == 2 * PosOf(u.capacity, slot, lap) + 1
    ensures VersionHolds(u, t, slot)
  {
    forall l: nat
      ensures 2 * l + 1 < 2 * lap + 2 <==> PosOf(u.capacity, slot, l) < MarkedSends(t)
      ensures 2 * l + 2 < 2 * lap + 2 <==> PosOf(u.capacity, slot, l) < DoneSends(t)
    {
      LapOrder(u.capacity, slot, l, lap);
    }
  }

  lemma FenceHolds(u: Setup, s: State, t: State)
    requires Sound(u) && Holds(u, s) && SendNext(u, s, PassFence, t)
    ensures Holds(u, t)
    ensures |t.history(Version(SlotOf(u.capacity, t.at.pos)))| == 2 * LapOf(u.capacity, t.at.pos) + 2
  {
    PosOfSlot(u.capacity, s.at.pos);
    VersionLength(u, s, SlotOf(u.capacity, s.at.pos), LapOf(u.capacity, s.at.pos));
    forall slot | 0 <= slot < u.capacity ensures VersionHolds(u, t, slot) {
      VersionStays(u, s, t, slot);
    }
    forall slot, i | 0 <= slot < u.capacity && 0 <= i < u.words ensures WordHolds(u, t, slot, i) {
      WordStays(u, s, t, slot, i);
    }
  }

  lemma StoreWordHolds(u: Setup, s: State, t: State)
    requires Sound(u) && Holds(u, s) && SendNext(u, s, StoreWord, t)
    ensures Holds(u, t)
    ensures |s.history(Word(SlotOf(u.capacity, s.at.pos), s.at.done))| == LapOf(u.capacity, s.at.pos) + 1
  {
    var pos := s.at.pos;
    var here, lap := SlotOf(u.capacity, pos), LapOf(u.capacity, pos);
    PosOfSlot(u.capacity, pos);
    WordLength(u, s, here, s.at.done, lap);
    forall slot | 0 <= slot < u.capacity ensures VersionHolds(u, t, slot) {
      VersionStays(u, s, t, slot);
    }
    forall slot, i | 0 <= slot < u.capacity && 0 <= i < u.words ensures WordHolds(u, t, slot, i) {
      if slot == here && i == s.at.done {
        StoredWord(u, s, t, slot, i, lap);
      } else {
        forall l: nat | i == s.at.done ensures PosOf(u.capacity, slot, l) != pos {
          OtherPos(u.capacity, pos, slot, l);
        }
        WordStays(u, s, t, slot, i);
      }
    }
  }

  /** The word's value of the next lap. */
  lemma StoredWord(u: Setup, s: State, t: State, slot: nat, i: nat, lap: nat)
    requires u.capacity > 0 && WordHolds(u, s, slot, i) && |s.history(Word(slot, i))| == lap + 1 && t.sent == s.sent
    requires StoredWords(s, i) == PosOf(u.capacity, slot, lap) && StoredWords(t, i) == StoredWords(s, i) + 1
    requires PosOf(u.capacity, slot, lap) < |t.sent| && i < |t.sent[PosOf(u.capacity, slot, lap)]|
    requires exists m ::
               t.history(Word(slot, i)) == s.history(Word(slot, i)) + [m] && m.value == t.sent[PosOf(u.capacity, slot, lap)][i]
    ensures WordHolds(u, t, slot, i)
  {
    forall l: nat ensures l + 1 < lap + 2 <==> PosOf(u.capacity, slot, l) < StoredWords(t, i) {
      LapOrder(u.capacity, slot, l, lap);
    }
    forall l: nat | l + 1 < |t.history(Word(slot, i))| ensures WordIs(u, t, slot, i, l) {
      if l < lap {
        assert WordIs(u, s, slot, i, l);
      }
    }
  }

  lemma PublishHolds(u: Setup, s: State, t: State)
    requires Sound(u) && Holds(u, s) && SendNext(u, s, Publish, t)
    ensures Holds(u, t)
    ensures |s.history(Version(SlotOf(u.capacity, s.at.pos)))| == 2 * LapOf(u.capacity, s.at.pos) + 2
  {
    var pos := s.at.pos;
    var here, lap := SlotOf(u.capacity, pos), LapOf(u.capacity, pos);
    PosOfSlot(u.capacity, pos);
    VersionLength(u, s, here, lap);
    forall slot | 0 <= slot < u.capacity ensures VersionHolds(u, t, slot) {
      if slot == here {
        PublishedVersion(u, s, t, slot, lap);
      } else {
        forall l: nat ensures PosOf(u.capacity, slot, l) != pos {
          OtherPos(u.capacity, pos, slot, l);
        }
        VersionStays(u, s, t, slot);
      }
    }
    forall slot, i | 0 <= slot < u.capacity && 0 <= i < u.words ensures WordHolds(u, t, slot, i) {
      WordStays(u, s, t, slot, i);
    }
  }

  /** The slot's next even version. */
  lemma PublishedVersion(u: Setup, s: State, t: State, slot: nat, lap: nat)
    requires u.capacity > 0 && VersionHolds(u, s, slot) && |s.history(Version(slot))| == 2 * lap + 2
    requires DoneSends(s) == PosOf(u.capacity, slot, lap)
        && DoneSends(t) == MarkedSends(t) == MarkedSends(s) == DoneSends(s) + 1
    requires exists m ::
               t.history(Version(slot)) == s.history(Version(slot)) + [m] && m.value == 2 * PosOf(u.capacity, slot, lap) + 2
    ensures VersionHolds(u, t, slot)
  {
    forall l: nat
      ensures 2 * l + 1 < 2 * lap + 3 <==> PosOf(u.capacity, slot, l) < MarkedSends(t)
      ensures 2 * l + 2 < 2 * lap + 3 <==> PosOf(u.capacity, slot, l) < DoneSends(t)
    {
      LapOrder(u.capacity, slot, l, lap);
    }
  }

  // What the messages carry after each step

  ghost predicate Extends(h: History, g: History) {
    forall l :: |h(l)| <= |g(l)| && forall at | 0 <= at < |h(l)| :: g(l)[at] == h(l)[at]
  }

  /** With no message added to a slot's locations, what they carry stays. */
  lemma CarriesStays(u: Setup, s: State, t: State)
    requires Carries(u, s)
    requires forall slot :: t.history(Version(slot)) == s.history(Version(slot))
    requires forall slot, i :: t.history(Word(slot, i)) == s.history(Word(slot, i))
    ensures Carries(u, t)
  {
    forall slot, lap: nat | 0 <= slot < u.capacity && 2 * lap + 2 < |t.history(Version(slot))|
      ensures EvenCarries(u, t, slot, lap) {
      assert EvenCarries(u, s, slot, lap);
    }
    forall slot, lap: nat | 0 <= slot < u.capacity && 2 * lap + 1 < |t.history(Version(slot))|
      ensures OddCarries(u, t, slot, lap) {
      assert OddCarries(u, s, slot, lap);
    }
    forall slot, i, lap: nat | 0 <= slot < u.capacity && 0 <= i < u.words && lap + 1 < |t.history(Word(slot, i))|
      ensures WordCarries(u, t, slot, i, lap)
    {
      assert WordCarries(u, s, slot, i, lap);
    }
  }

  /** One version added. */
  lemma VersionAdded(u: Setup, s: State, t: State, here: nat, m: Message)
    requires Carries(u, s)
    requires forall l :: t.history(l) == if l == Version(here) then s.history(l) + [m] else s.history(l)
    requires forall lap: nat | 2 * lap + 2 == |s.history(Version(here))| :: EvenCarries(u, t, here, lap)
    requires forall lap: nat | 2 * lap + 1 == |s.history(Version(here))| :: OddCarries(u, t, here, lap)
    ensures Carries(u, t)
  {
    forall slot, lap: nat | 0 <= slot < u.capacity && 2 * lap + 2 < |t.history(Version(slot))|
      ensures EvenCarries(u, t, slot, lap) {
      if 2 * lap + 2 < |s.history(Version(slot))| {
        assert EvenCarries(u, s, slot, lap);
      }
    }
    forall slot, lap: nat | 0 <= slot < u.capacity && 2 * lap + 1 < |t.history(Version(slot))|
      ensures OddCarries(u, t, slot, lap) {
      if 2 * lap + 1 < |s.history(Version(slot))| {
        assert OddCarries(u, s, slot, lap);
      }
    }
    forall slot, i, lap: nat | 0 <= slot < u.capacity && 0 <= i < u.words && lap + 1 < |t.history(Word(slot, i))|
      ensures WordCarries(u, t, slot, i, lap)
    {
      assert WordCarries(u, s, slot, i, lap);
    }
  }

  lemma WordAdded(u: Setup, s: State, t: State, here: nat, j: nat, m: Message)
    requires Carries(u, s)
    requires forall l :: t.history(l) == if l == Word(here, j) then s.history(l) + [m] else s.history(l)
    requires forall lap: nat | lap + 1 == |s.history(Word(here, j))| :: WordCarries(u, t, here, j, lap)
    ensures Carries(u, t)
  {
    forall slot, lap: nat | 0 <= slot < u.capacity && 2 * lap + 2 < |t.history(Version(slot))|
      ensures EvenCarries(u, t, slot, lap) {
      assert EvenCarries(u, s, slot, lap);
    }
    forall slot, lap: nat | 0 <= slot < u.capacity && 2 * lap + 1 < |t.history(Version(slot))|
      ensures OddCarries(u, t, slot, lap) {
      assert OddCarries(u, s, slot, lap);
    }
    forall slot, i, lap: nat | 0 <= slot < u.capacity && 0 <= i < u.words && lap + 1 < |t.history(Word(slot, i))|
      ensures WordCarries(u, t, slot, i, lap)
    {
      if lap + 1 < |s.history(Word(slot, i))| {
        assert WordCarries(u, s, slot, i, lap);
      }
    }
  }

  lemma ClaimCarries(u: Setup, s: State, data: seq<nat>, t: State)
    requires Sound(u) && SenderInv(u, s) && SendNext(u, s, Claim(data), t)
    ensures Carries(u, t) && SenderSees(u, t)
  {
    CarriesStays(u, s, t);
  }

  lemma MarkCarries(u: Setup, s: State, t: State)
    requires Sound(u) && SenderInv(u, s) && SendNext(u, s, Mark, t)
    ensures Carries(u, t) && SenderSees(u, t)
  {
    var slot, lap := SlotOf(u.capacity, s.at.pos), LapOf(u.capacity, s.at.pos);
    MarkHolds(u, s, t);
    PosOfSlot(u.capacity, s.at.pos);
    VersionAdded(u, s, t, slot, NewMessage(s.history, s.sender, Version(slot), 2 * s.at.pos + 1, false));
  }

  lemma FenceCarries(u: Setup, s: State, t: State)
    requires Sound(u) && u.orderings.releaseFence && SenderInv(u, s) && SendNext(u, s, PassFence, t)
    ensures Carries(u, t) && SenderSees(u, t)
  {
    FenceHolds(u, s, t);
    CarriesStays(u, s, t);
  }

  lemma StoreWordCarries(u: Setup, s: State, t: State)
    requires Sound(u) && SenderInv(u, s) && SendNext(u, s, StoreWord, t)
    ensures Carries(u, t) && SenderSees(u, t)
  {
    var slot := SlotOf(u.capacity, s.at.pos);
    StoreWordHolds(u, s, t);
    WordAdded(u, s, t, slot, s.at.done,
              NewMessage(s.history, s.sender, Word(slot, s.at.done), s.sent[|s.sent| - 1][s.at.done], false));
  }

  /** By the time the even version is stored, all words are. */
  lemma AllWordsStored(u: Setup, s: State, i: nat)
    requires Sound(u) && Holds(u, s) && s.at.Writing? && s.at.done == u.words && i < u.words
    ensures |s.history(Word(SlotOf(u.capacity, s.at.pos), i))| > LapOf(u.capacity, s.at.pos) + 1
  {
    var slot, lap := SlotOf(u.capacity, s.at.pos), LapOf(u.capacity, s.at.pos);
    PosOfSlot(u.capacity, s.at.pos);
    assert WordHolds(u, s, slot, i);
    assert lap + 1 < |s.history(Word(slot, i))| <==> PosOf(u.capacity, slot, lap) < StoredWords(s, i);
  }

  lemma PublishCarries(u: Setup, s: State, t: State)
    requires Sound(u) && u.orderings.releaseStore && SenderInv(u, s) && SendNext(u, s, Publish, t)
    ensures Carries(u, t) && SenderSees(u, t)
  {
    var slot, lap := SlotOf(u.capacity, s.at.pos), LapOf(u.capacity, s.at.pos);
    PublishHolds(u, s, t);
    PosOfSlot(u.capacity, s.at.pos);
    forall i | 0 <= i < u.words ensures s.sender.cur(Word(slot, i)) >= lap + 1 {
      AllWordsStored(u, s, i);
    }
    VersionAdded(u, s, t, slot, NewMessage(s.history, s.sender, Version(slot), 2 * s.at.pos + 2, true));
  }

  lemma SendKeeps(u: Setup, s: State, step: SendStep, t: State)
    requires Sound(u) && AsCoded(u.orderings) && SenderInv(u, s) && SendNext(u, s, step, t)
    ensures SenderInv(u, t)
  {
    match step
    case Claim(data) => ClaimHolds(u, s, data, t); ClaimCarries(u, s, data, t);
    case Mark => MarkHolds(u, s, t); MarkCarries(u, s, t);
    case PassFence => FenceHolds(u, s, t); FenceCarries(u, s, t);
    case StoreWord => StoreWordHolds(u, s, t); StoreWordCarries(u, s, t);
    case Publish => PublishHolds(u, s, t); PublishCarries(u, s, t);
  }

  lemma SendExtends(u: Setup, s: State, step: SendStep, t: State)
    requires Sound(u) && Holds(u, s) && SendNext(u, s, step, t)
    ensures Extends(s.history, t.history) && s.sent <= t.sent && DoneSends(s) <= DoneSends(t) && t.receivers == s.receivers
  {
  }

  // Receivers

  /** Word `i` as loaded: some lap's, no earlier than the wanted one, and the view knows that lap's odd version. */
  ghost predicate LoadedFrom(u: Setup, s: State, r: Receiver, view: View, i: nat, value: nat, lap: nat)
    requires u.capacity > 0
  {
    var slot := SlotOf(u.capacity, r.pos);
    && LapOf(u.capacity, r.pos) <= lap
    && lap + 1 < |s.history(Word(slot, i))| && s.history(Word(slot, i))[lap + 1].value == value
    && 2 * lap + 1 <= view(Version(slot))
  }

  ghost predicate StagedFrom(u: Setup, s: State, r: Receiver, view: View, i: nat, value: nat)
    requires u.capacity > 0
  {
    exists lap: nat :: LoadedFrom(u, s, r, view, i, value, lap)
  }

  ghost predicate StagedOk(u: Setup, s: State, r: Receiver, view: View, staged: seq<nat>)
    requires u.capacity > 0
  {
    |staged| <= u.words && forall i | 0 <= i < |staged| :: StagedFrom(u, s, r, view, i, staged[i])
  }

  /** The first load saw the wanted version: what was stored before it will be seen too. */
  ghost predicate SawWanted(u: Setup, s: State, r: Receiver)
    requires u.capacity > 0
  {
    var slot, lap := SlotOf(u.capacity, r.pos), LapOf(u.capacity, r.pos);
    && 2 * lap + 2 < |s.history(Version(slot))|
    && r.thread.cur(Version(slot)) >= 2 * lap + 2
    && forall i | 0 <= i < u.words :: r.thread.cur(Word(slot, i)) >= lap + 1
  }

  /** The send one lap later has at least marked the slot, and the receiver will find the cursor that far. */
  ghost predicate SawLapped(u: Setup, s: State, r: Receiver) {
    r.thread.cur(Cursor) >= r.pos + u.capacity && r.pos + u.capacity < MarkedSends(s)
  }

  ghost predicate ReceiverInv(u: Setup, s: State, r: Receiver)
    requires u.capacity > 0
  {
    && r.pos <= |s.sent|
    && FencesAdd(r.thread)
    && match r.at
       case Ready => true
       case Lapped => SawLapped(u, s, r)
       case Copying(v1, staged) => v1 == 2 * r.pos + 2 && SawWanted(u, s, r) && StagedOk(u, s, r, r.thread.acq, staged)
       case Copied(v1, staged) =>
         v1 == 2 * r.pos + 2 && |staged| == u.words && SawWanted(u, s, r) && StagedOk(u, s, r, r.thread.cur, staged)
  }

  /** Where a receiver stands after what its log says. */
  function PosAfter(start: nat, log: seq<Event>): nat {
    if log == [] then start
    else match log[|log| - 1]
         case Delivered(pos, _) => pos + 1
         case CaughtUp(_, to) => to
  }

  /** A delivery is of the next position and bit for bit what was sent there; a jump is forward, because that position was
      overwritten or about to be, and not beyond the sender. */
  ghost predicate EventTrue(u: Setup, s: State, at: nat, e: Event) {
    match e
    case Delivered(pos, data) => pos == at && pos < DoneSends(s) && pos < |s.sent| && data == s.sent[pos]
    case CaughtUp(from, to) =>
      from == at && from + u.capacity < MarkedSends(s) && from + u.capacity <= to + u.capacity / 2 && to <= |s.sent|
  }

  ghost predicate LogTrue(u: Setup, s: State, r: Receiver) {
    && r.pos == PosAfter(r.start, r.log)
    && forall k | 0 <= k < |r.log| :: EventTrue(u, s, PosAfter(r.start, r.log[..k]), r.log[k])
  }

  /** What a receiver knows stays true as the histories grow. */
  lemma ReceiverStays(u: Setup, s: State, t: State, r: Receiver)
    requires u.capacity > 0 && ReceiverInv(u, s, r) && Extends(s.history, t.history) && s.sent <= t.sent
    requires MarkedSends(s) <= MarkedSends(t)
    ensures ReceiverInv(u, t, r)
  {
    if r.at.Copying? || r.at.Copied? {
      var view := if r.at.Copying? then r.thread.acq else r.thread.cur;
      forall i | 0 <= i < |r.at.staged| ensures StagedFrom(u, t, r, view, i, r.at.staged[i]) {
        assert StagedFrom(u, s, r, view, i, r.at.staged[i]);
        var lap: nat :| LoadedFrom(u, s, r, view, i, r.at.staged[i], lap);
        assert LoadedFrom(u, t, r, view, i, r.at.staged[i], lap);
      }
    }
  }

  lemma LogStays(u: Setup, s: State, t: State, r: Receiver)
    requires LogTrue(u, s, r) && s.sent <= t.sent && DoneSends(s) <= DoneSends(t) && MarkedSends(s) <= MarkedSends(t)
    ensures LogTrue(u, t, r)
  {
    forall k | 0 <= k < |r.log| ensures EventTrue(u, t, PosAfter(r.start, r.log[..k]), r.log[k]) {
      assert EventTrue(u, s, PosAfter(r.start, r.log[..k]), r.log[k]);
    }
  }

  lemma LogGrows(u: Setup, s: State, r: Receiver, q: Receiver, e: Event)
    requires LogTrue(u, s, r) && q.start == r.start && q.log == r.log + [e] && q.pos == PosAfter(q.start, q.log)
    requires EventTrue(u, s, r.pos, e)
    ensures LogTrue(u, s, q)
  {
    forall k | 0 <= k < |q.log| ensures EventTrue(u, s, PosAfter(q.start, q.log[..k]), q.log[k]) {
      if k < |r.log| {
        assert q.log[..k] == r.log[..k];
        assert EventTrue(u, s, PosAfter(r.start, r.log[..k]), r.log[k]);
      } else {
        assert q.log[..k] == r.log;
      }
    }
  }

  /** The versions a receiver may load, compared with the one it wants. */
  lemma VersionTells(capacity: nat, pos: nat, ts: nat)
    requires capacity > 0
    ensures var slot, lap := SlotOf(capacity, pos), LapOf(capacity, pos);
            && (VersionAt(capacity, slot, ts) == 2 * pos + 2 <==> ts == 2 * lap + 2)
            && (VersionAt(capacity, slot, ts) > 2 * pos + 2 <==> ts > 2 * lap + 2)
  {
    var slot, lap := SlotOf(capacity, pos), LapOf(capacity, pos);
    PosOfSlot(capacity, pos);
    if ts > 0 {
      LapOrder(capacity, slot, (ts - 1) / 2, lap);
      LapOrder(capacity, slot, lap, (ts - 1) / 2);
    }
  }

  lemma WantedSeen(u: Setup, s: State, r: Receiver, ts: nat, q: Receiver)
    requires Sound(u) && u.orderings.acquireLoad && SenderInv(u, s) && ReceiverInv(u, s, r) && r.at.Ready?
    requires ReceiveNext(u, s.history, r, LoadFirst(ts), q) && q.at.Copying?
    ensures ReceiverInv(u, s, q)
  {
    var slot, lap := SlotOf(u.capacity, r.pos), LapOf(u.capacity, r.pos);
    PosOfSlot(u.capacity, r.pos);
    LoadKeepsFences(s.history, r.thread, Version(slot), ts, true);
    assert VersionHolds(u, s, slot);
    VersionTells(u.capacity, r.pos, ts);
    assert EvenCarries(u, s, slot, lap);
    AcquireLearns(s.history, r.thread, Version(slot), ts, Version(slot));
    forall i | 0 <= i < u.words ensures q.thread.cur(Word(slot, i)) >= lap + 1 {
      AcquireLearns(s.history, r.thread, Version(slot), ts, Word(slot, i));
    }
    assert SawWanted(u, s, q) && StagedOk(u, s, q, q.thread.acq, []);
  }

  lemma LappedSeen(u: Setup, s: State, r: Receiver, ts: nat, q: Receiver)
    requires Sound(u) && u.orderings.acquireLoad && SenderInv(u, s) && ReceiverInv(u, s, r) && r.at.Ready?
    requires ReceiveNext(u, s.history, r, LoadFirst(ts), q) && q.at.Lapped?
    ensures ReceiverInv(u, s, q)
  {
    var slot, lap := SlotOf(u.capacity, r.pos), LapOf(u.capacity, r.pos);
    PosOfSlot(u.capacity, r.pos);
    LoadKeepsFences(s.history, r.thread, Version(slot), ts, true);
    assert VersionHolds(u, s, slot);
    VersionTells(u.capacity, r.pos, ts);
    var later := (ts - 1) / 2;
    LaterLap(u.capacity, slot, lap, later);
    if ts % 2 == 1 {
      assert 2 * later + 1 == ts;
      assert OddCarries(u, s, slot, later);
    } else {
      assert 2 * later + 2 == ts;
      assert EvenCarries(u, s, slot, later);
    }
    AcquireLearns(s.history, r.thread, Version(slot), ts, Cursor);
    assert 2 * (lap + 1) + 1 < |s.history(Version(slot))| <==> PosOf(u.capacity, slot, lap + 1) < MarkedSends(s);
  }

  lemma StagedLater(u: Setup, s: State, r: Receiver, q: Receiver, view: View, later: View, staged: seq<nat>)
    requires u.capacity > 0 && StagedOk(u, s, r, view, staged) && q.pos == r.pos && forall l :: view(l) <= later(l)
    ensures StagedOk(u, s, q, later, staged)
  {
    forall i | 0 <= i < |staged| ensures StagedFrom(u, s, q, later, i, staged[i]) {
      assert StagedFrom(u, s, r, view, i, staged[i]);
      var lap: nat :| LoadedFrom(u, s, r, view, i, staged[i], lap);
      assert LoadedFrom(u, s, q, later, i, staged[i], lap);
    }
  }

  lemma WordLoaded(u: Setup, s: State, r: Receiver, ts: nat, q: Receiver)
    requires Sound(u) && SenderInv(u, s) && ReceiverInv(u, s, r) && ReceiveNext(u, s.history, r, LoadWord(ts), q)
    ensures ReceiverInv(u, s, q)
  {
    var slot, lap, i := SlotOf(u.capacity, r.pos), LapOf(u.capacity, r.pos), |r.at.staged|;
    PosOfSlot(u.capacity, r.pos);
    assert r.thread.cur(Word(slot, i)) >= lap + 1;
    LoadKeepsFences(s.history, r.thread, Word(slot, i), ts, false);
    StagedLater(u, s, r, q, r.thread.acq, q.thread.acq, r.at.staged);
    assert WordCarries(u, s, slot, i, ts - 1);
    assert LoadedFrom(u, s, q, q.thread.acq, i, q.at.staged[i], ts - 1);
    forall j | 0 <= j < |q.at.staged| ensures StagedFrom(u, s, q, q.thread.acq, j, q.at.staged[j]) {
      assert j < i ==> q.at.staged[j] == r.at.staged[j];
    }
  }

  lemma FencePassed(u: Setup, s: State, r: Receiver, q: Receiver)
    requires Sound(u) && u.orderings.acquireFence && ReceiverInv(u, s, r) && ReceiveNext(u, s.history, r, Fence, q)
    ensures ReceiverInv(u, s, q)
  {
    StagedLater(u, s, r, q, r.thread.acq, q.thread.cur, r.at.staged);
  }

  /** The second load can only see the wanted version if every word is of that lap. */
  lemma UntornWord(u: Setup, s: State, r: Receiver, ts: nat, i: nat)
    requires Sound(u) && SenderInv(u, s) && ReceiverInv(u, s, r) && r.at.Copied? && i < u.words
    requires CanLoad(s.history, r.thread, Version(SlotOf(u.capacity, r.pos)), ts)
    requires s.history(Version(SlotOf(u.capacity, r.pos)))[ts].value == 2 * r.pos + 2
    ensures r.pos < DoneSends(s) && r.pos < |s.sent| && |s.sent[r.pos]| == u.words && r.at.staged[i] == s.sent[r.pos][i]
  {
    var slot, lap := SlotOf(u.capacity, r.pos), LapOf(u.capacity, r.pos);
    PosOfSlot(u.capacity, r.pos);
    assert VersionHolds(u, s, slot) && WordHolds(u, s, slot, i);
    VersionTells(u.capacity, r.pos, ts);
    assert StagedFrom(u, s, r, r.thread.cur, i, r.at.staged[i]);
    var from: nat :| LoadedFrom(u, s, r, r.thread.cur, i, r.at.staged[i], from);
    assert WordIs(u, s, slot, i, lap);
    assert 2 * lap + 2 < |s.history(Version(slot))| <==> PosOf(u.capacity, slot, lap) < DoneSends(s);
  }

  /** A position without words is complete once its even version is there. */
  lemma WantedIsDone(u: Setup, s: State, r: Receiver)
    requires Sound(u) && SenderInv(u, s) && ReceiverInv(u, s, r) && r.at.Copied?
    ensures r.pos < DoneSends(s) <= |s.sent|
  {
    var slot, lap := SlotOf(u.capacity, r.pos), LapOf(u.capacity, r.pos);
    PosOfSlot(u.capacity, r.pos);
    assert VersionHolds(u, s, slot);
    assert 2 * lap + 2 < |s.history(Version(slot))| <==> PosOf(u.capacity, slot, lap) < DoneSends(s);
  }

  lemma SecondLoaded(u: Setup, s: State, r: Receiver, ts: nat, q: Receiver)
    requires Sound(u) && SenderInv(u, s) && ReceiverInv(u, s, r) && LogTrue(u, s, r)
    requires ReceiveNext(u, s.history, r, LoadSecond(ts), q)
    ensures ReceiverInv(u, s, q) && LogTrue(u, s, q)
  {
    LoadKeepsFences(s.history, r.thread, Version(SlotOf(u.capacity, r.pos)), ts, false);
    if s.history(Version(SlotOf(u.capacity, r.pos)))[ts].value == r.at.v1 {
      WantedIsDone(u, s, r);
      forall i | 0 <= i < u.words ensures r.at.staged[i] == s.sent[r.pos][i] {
        UntornWord(u, s, r, ts, i);
      }
      assert r.at.staged == s.sent[r.pos];
      LogGrows(u, s, r, q, Delivered(r.pos, r.at.staged));
    }
  }

  lemma CaughtUpAhead(u: Setup, s: State, r: Receiver, ts: nat, q: Receiver)
    requires Sound(u) && SenderInv(u, s) && ReceiverInv(u, s, r) && LogTrue(u, s, r)
    requires ReceiveNext(u, s.history, r, CatchUp(ts), q)
    ensures ReceiverInv(u, s, q) && LogTrue(u, s, q)
  {
    LoadKeepsFences(s.history, r.thread, Cursor, ts, false);
    LogGrows(u, s, r, q, CaughtUp(r.pos, q.pos));
  }

  lemma Learned(u: Setup, s: State, r: Receiver, view: View, q: Receiver)
    requires Sound(u) && ReceiverInv(u, s, r) && ReceiveNext(u, s.history, r, Learn(view), q)
    ensures ReceiverInv(u, s, q)
  {
    if r.at.Copying? {
      StagedLater(u, s, r, q, r.thread.acq, q.thread.acq, r.at.staged);
    } else if r.at.Copied? {
      StagedLater(u, s, r, q, r.thread.cur, q.thread.cur, r.at.staged);
    }
  }

  lemma FirstLoaded(u: Setup, s: State, r: Receiver, ts: nat, q: Receiver)
    requires Sound(u) && u.orderings.acquireLoad && SenderInv(u, s) && ReceiverInv(u, s, r)
    requires ReceiveNext(u, s.history, r, LoadFirst(ts), q)
    ensures ReceiverInv(u, s, q)
  {
    LoadKeepsFences(s.history, r.thread, Version(SlotOf(u.capacity, r.pos)), ts, true);
    if q.at.Copying? {
      WantedSeen(u, s, r, ts, q);
    } else if q.at.Lapped? {
      LappedSeen(u, s, r, ts, q);
    }
  }

  lemma ReceiveKeeps(u: Setup, s: State, r: Receiver, step: ReceiveStep, q: Receiver)
    requires Sound(u) && AsCoded(u.orderings) && SenderInv(u, s) && ReceiverInv(u, s, r) && LogTrue(u, s, r)
    requires ReceiveNext(u, s.history, r, step, q)
    ensures ReceiverInv(u, s, q) && LogTrue(u, s, q)
  {
    match step
    case LoadFirst(ts) => FirstLoaded(u, s, r, ts, q);
    case LoadWord(ts) => WordLoaded(u, s, r, ts, q);
    case Fence => FencePassed(u, s, r, q);
    case LoadSecond(ts) => SecondLoaded(u, s, r, ts, q);
    case CatchUp(ts) => CaughtUpAhead(u, s, r, ts, q);
    case Learn(view) => Learned(u, s, r, view, q);
  }

  // Every run

  ghost predicate RingInv(u: Setup, s: State)
    requires u.capacity > 0
  {
    && SenderInv(u, s)
    && forall i | 0 <= i < |s.receivers| :: ReceiverInv(u, s, s.receivers[i]) && LogTrue(u, s, s.receivers[i])
  }

  lemma SendStepKeeps(u: Setup, s: State, step: SendStep, t: State)
    requires Sound(u) && AsCoded(u.orderings) && RingInv(u, s) && SendNext(u, s, step, t)
    ensures RingInv(u, t)
  {
    SendKeeps(u, s, step, t);
    SendExtends(u, s, step, t);
    forall i | 0 <= i < |t.receivers| ensures ReceiverInv(u, t, t.receivers[i]) && LogTrue(u, t, t.receivers[i]) {
      ReceiverStays(u, s, t, s.receivers[i]);
      LogStays(u, s, t, s.receivers[i]);
    }
  }

  lemma SenderUntouched(u: Setup, s: State, t: State)
    requires u.capacity > 0 && SenderInv(u, s) && t == s.(receivers := t.receivers)
    ensures SenderInv(u, t)
    ensures forall r :: ReceiverInv(u, s, r) ==> ReceiverInv(u, t, r)
    ensures forall r :: LogTrue(u, s, r) ==> LogTrue(u, t, r)
  {
    forall slot | 0 <= slot < u.capacity ensures VersionHolds(u, t, slot) {
      VersionStays(u, s, t, slot);
    }
    forall slot, i | 0 <= slot < u.capacity && 0 <= i < u.words ensures WordHolds(u, t, slot, i) {
      WordStays(u, s, t, slot, i);
    }
    CarriesStays(u, s, t);
    forall r | ReceiverInv(u, s, r) ensures ReceiverInv(u, t, r) {
      ReceiverStays(u, s, t, r);
    }
    forall r | LogTrue(u, s, r) ensures LogTrue(u, t, r) {
      LogStays(u, s, t, r);
    }
  }

  lemma SubscribedHolds(u: Setup, s: State, thread: Thread, ts: nat, q: Receiver)
    requires Sound(u) && SenderInv(u, s) && Subscribed(s.history, thread, ts, q)
    ensures ReceiverInv(u, s, q) && LogTrue(u, s, q)
  {
    LoadKeepsFences(s.history, thread, Cursor, ts, false);
  }

  lemma RingStepKeeps(u: Setup, s: State, step: Step, t: State)
    requires Sound(u) && AsCoded(u.orderings) && RingInv(u, s) && Next(u, s, step, t)
    ensures RingInv(u, t)
  {
    match step
    case Send(send) => SendStepKeeps(u, s, send, t);
    case Subscribe(thread, ts) =>
      SubscribedHolds(u, s, thread, ts, t.receivers[|s.receivers|]);
      SenderUntouched(u, s, t);
    case Receive(i, receive) =>
      ReceiveKeeps(u, s, s.receivers[i], receive, t.receivers[i]);
      SenderUntouched(u, s, t);
  }

  lemma StartHolds(u: Setup, s: State)
    requires Sound(u) && Init(s)
    ensures RingInv(u, s)
  {
  }

  lemma {:induction false} EveryRingStateIsGood(u: Setup, states: seq<State>, steps: seq<Step>, n: nat)
    requires Sound(u) && AsCoded(u.orderings) && IsRun(u, states, steps) && n < |states|
    ensures RingInv(u, states[n])
  {
    if n == 0 {
      StartHolds(u, states[0]);
    } else {
      EveryRingStateIsGood(u, states, steps, n - 1);
      RingStepKeeps(u, states[n - 1], steps[n - 1], states[n]);
    }
  }

  /** Under any interleaving and any loads the memory model allows: every value delivered at a position is, word for word,
      what was sent there; a receiver moves forward only, position by position except where it was lapped. */
  lemma DeliveredIsSent(u: Setup, states: seq<State>, steps: seq<Step>, n: nat, i: nat, k: nat)
    requires Sound(u) && AsCoded(u.orderings) && IsRun(u, states, steps) && n < |states|
    requires i < |states[n].receivers| && k < |states[n].receivers[i].log|
    ensures var s, r := states[n], states[n].receivers[i];
            match r.log[k]
            case Delivered(pos, data) => pos == PosAfter(r.start, r.log[..k]) && pos < |s.sent| && data == s.sent[pos]
            case CaughtUp(from, to) =>
              from == PosAfter(r.start, r.log[..k]) < to <= |s.sent| && from + u.capacity < |s.sent|
  {
    EveryRingStateIsGood(u, states, steps, n);
    var r := states[n].receivers[i];
    assert EventTrue(u, states[n], PosAfter(r.start, r.log[..k]), r.log[k]);
  }

  /** In every state of every run: no position is delivered twice or out of order, and none is left out between two
      deliveries without a jump. */
  lemma PositionsRise(u: Setup, states: seq<State>, steps: seq<Step>, n: nat, i: nat, j: nat, k: nat)
    requires Sound(u) && AsCoded(u.orderings) && IsRun(u, states, steps) && n < |states| && i < |states[n].receivers|
    requires var log := states[n].receivers[i].log; j < k < |log| && log[j].Delivered? && log[k].Delivered?
    ensures var log := states[n].receivers[i].log;
            log[j].pos < log[k].pos && (k == j + 1 ==> log[k].pos == log[j].pos + 1)
  {
    EveryRingStateIsGood(u, states, steps, n);
    LogRises(u, states[n], states[n].receivers[i], j, k);
  }

  lemma LogRises(u: Setup, s: State, r: Receiver, j: nat, k: nat)
    requires Sound(u) && LogTrue(u, s, r) && j < k < |r.log| && r.log[j].Delivered? && r.log[k].Delivered?
    ensures r.log[j].pos < r.log[k].pos
    ensures k == j + 1 ==> r.log[k].pos == r.log[j].pos + 1
  {
    PosRises(u, s, r, j + 1, k);
    assert EventTrue(u, s, PosAfter(r.start, r.log[..j]), r.log[j]);
    assert EventTrue(u, s, PosAfter(r.start, r.log[..k]), r.log[k]);
    assert r.log[..j + 1][j] == r.log[j];
  }

  lemma {:induction false} PosRises(u: Setup, s: State, r: Receiver, j: nat, k: nat)
    requires Sound(u) && LogTrue(u, s, r) && j <= k <= |r.log|
    ensures PosAfter(r.start, r.log[..j]) + (k - j) <= PosAfter(r.start, r.log[..k])
    decreases k - j
  {
    if j < k {
      PosRises(u, s, r, j, k - 1);
      assert EventTrue(u, s, PosAfter(r.start, r.log[..k - 1]), r.log[k - 1]);
      assert r.log[..k][k - 1] == r.log[k - 1];
    }
  }
}

/** What a receiver gets from the ring while the sender rests, in the atomic steps: exactly what `Channel.Received` says. */
module RingProgress {
  import opened Memory
  import opened Ring
  import opened RingSafety
  import opened RingOrderings
  import Channel

  /** Steps of one receiver, one after another. */
  ghost predicate IsReceive(u: Setup, h: History, rs: seq<Receiver>, steps: seq<ReceiveStep>)
    requires Sound(u)
  {
    |rs| == |steps| + 1 && forall i | 0 <= i < |steps| :: ReceiveNext(u, h, rs[i], steps[i], rs[i + 1])
  }

  ghost predicate Becomes(u: Setup, h: History, r: Receiver, q: Receiver)
    requires Sound(u)
  {
    exists rs, steps :: IsReceive(u, h, rs, steps) && rs[0] == r && rs[|steps|] == q
  }

  lemma BecomesItself(u: Setup, h: History, r: Receiver)
    requires Sound(u)
    ensures Becomes(u, h, r, r)
  {
    var rs: seq<Receiver>, steps: seq<ReceiveStep> := [r], [];
    assert IsReceive(u, h, rs, steps) && rs[0] == r && rs[|steps|] == r;
  }

  lemma BecomesOn(u: Setup, h: History, r: Receiver, q: Receiver, step: ReceiveStep, next: Receiver)
    requires Sound(u) && Becomes(u, h, r, q) && ReceiveNext(u, h, q, step, next)
    ensures Becomes(u, h, r, next)
  {
    var rs, steps :| IsReceive(u, h, rs, steps) && rs[0] == r && rs[|steps|] == q;
    var rs', steps' := rs + [next], steps + [step];
    forall i | 0 <= i < |steps'| ensures ReceiveNext(u, h, rs'[i], steps'[i], rs'[i + 1]) {
      if i < |steps| {
        assert ReceiveNext(u, h, rs[i], steps[i], rs[i + 1]);
      }
    }
    assert IsReceive(u, h, rs', steps') && rs'[0] == r && rs'[|steps'|] == next;
  }

  function Newest(h: History, l: Loc): int {
    |h(l)| - 1
  }

  // What the newest values are

  /** The newest version of a position's slot while the sender rests: behind, at or beyond the one wanted. */
  lemma NewestVersion(u: Setup, s: State, pos: nat)
    requires Sound(u) && Holds(u, s) && s.at.Idle? && pos <= |s.sent|
    ensures var l := Version(SlotOf(u.capacity, pos));
            && s.history(l) != []
            && var v := s.history(l)[Newest(s.history, l)].value;
               && (v < 2 * pos + 2 <==> pos == |s.sent|)
               && (v > 2 * pos + 2 <==> pos + u.capacity < |s.sent|)
  {
    var slot, lap := SlotOf(u.capacity, pos), LapOf(u.capacity, pos);
    PosOfSlot(u.capacity, pos);
    assert VersionHolds(u, s, slot);
    var h := s.history(Version(slot));
    var ts := |h| - 1;
    assert h[ts].value == VersionAt(u.capacity, slot, ts);
    assert 2 * lap + 1 < |h| <==> pos < |s.sent|;
    assert 2 * lap + 2 < |h| <==> pos < |s.sent|;
    assert PosOf(u.capacity, slot, lap + 1) == pos + u.capacity;
    assert 2 * (lap + 1) + 1 < |h| <==> pos + u.capacity < |s.sent|;
    assert 2 * (lap + 1) + 2 < |h| <==> pos + u.capacity < |s.sent|;
    if ts > 0 {
      LapOrder(u.capacity, slot, (ts - 1) / 2, lap);
      LapOrder(u.capacity, slot, lap, (ts - 1) / 2);
    }
  }

  lemma NewestWord(u: Setup, s: State, pos: nat, i: nat)
    requires Sound(u) && Holds(u, s) && s.at.Idle? && pos < |s.sent| <= pos + u.capacity && i < u.words
    ensures var l := Word(SlotOf(u.capacity, pos), i);
            s.history(l) != [] && i < |s.sent[pos]| && s.history(l)[Newest(s.history, l)].value == s.sent[pos][i]
  {
    var slot, lap := SlotOf(u.capacity, pos), LapOf(u.capacity, pos);
    PosOfSlot(u.capacity, pos);
    assert WordHolds(u, s, slot, i);
    var h := s.history(Word(slot, i));
    assert lap + 1 < |h| <==> pos < |s.sent|;
    assert PosOf(u.capacity, slot, lap + 1) == pos + u.capacity;
    assert lap + 2 < |h| <==> pos + u.capacity < |s.sent|;
    assert WordIs(u, s, slot, i, lap);
  }

  // Receiving

  /** Everything a receiver's next load may return is in the histories. */
  ghost predicate CanGoOn(s: State, r: Receiver) {
    MessagesInHistory(s.history) && ThreadInHistory(s.history, r.thread)
  }

  /** The receiver has copied the first `n` words of the event it wants. */
  ghost predicate HasCopied(u: Setup, s: State, r: Receiver, q: Receiver, n: nat)
    requires Sound(u)
  {
    && r.pos < |s.sent| && n <= |s.sent[r.pos]|
    && Becomes(u, s.history, r, q) && CanGoOn(s, q)
    && q == r.(thread := q.thread, at := Copying(2 * r.pos + 2, s.sent[r.pos][..n]))
  }

  lemma {:induction false} CopiesWords(u: Setup, s: State, r: Receiver, first: Receiver, n: nat) returns (q: Receiver)
    requires Sound(u) && Holds(u, s) && s.at.Idle? && r.pos < |s.sent| <= r.pos + u.capacity && n <= u.words
    requires HasCopied(u, s, r, first, 0)
    ensures HasCopied(u, s, r, q, n)
  {
    assert |s.sent[r.pos]| == u.words;
    q := first;
    if n > 0 {
      var p := CopiesWords(u, s, r, first, n - 1);
      var l := Word(SlotOf(u.capacity, r.pos), n - 1);
      NewestWord(u, s, r.pos, n - 1);
      NewestIsLoadable(s.history, p.thread, l);
      LoadInHistory(s.history, p.thread, l, Newest(s.history, l), false);
      assert s.sent[r.pos][..n] == s.sent[r.pos][..n - 1] + [s.sent[r.pos][n - 1]];
      q := p.(thread := Loaded(s.history, p.thread, l, Newest(s.history, l), false),
              at := Copying(2 * r.pos + 2, s.sent[r.pos][..n]));
      BecomesOn(u, s.history, r, p, LoadWord(Newest(s.history, l)), q);
    }
  }

  /** The first load, of the newest version. */
  lemma LoadsVersion(u: Setup, s: State, r: Receiver) returns (q: Receiver)
    requires Sound(u) && Holds(u, s) && s.at.Idle? && r.at.Ready? && r.pos <= |s.sent| && CanGoOn(s, r)
    ensures Becomes(u, s.history, r, q) && CanGoOn(s, q)
    ensures q == r.(thread := q.thread,
                    at := if r.pos == |s.sent| then Ready
                          else if r.pos + u.capacity < |s.sent| then Lapped else Copying(2 * r.pos + 2, []))
  {
    var l := Version(SlotOf(u.capacity, r.pos));
    NewestVersion(u, s, r.pos);
    NewestIsLoadable(s.history, r.thread, l);
    LoadInHistory(s.history, r.thread, l, Newest(s.history, l), u.orderings.acquireLoad);
    q := r.(thread := Loaded(s.history, r.thread, l, Newest(s.history, l), u.orderings.acquireLoad),
            at := if r.pos == |s.sent| then Ready
                  else if r.pos + u.capacity < |s.sent| then Lapped else Copying(2 * r.pos + 2, []));
    BecomesItself(u, s.history, r);
    BecomesOn(u, s.history, r, r, LoadFirst(Newest(s.history, l)), q);
  }

  lemma FinishesCopy(u: Setup, s: State, r: Receiver, p: Receiver) returns (q: Receiver)
    requires Sound(u) && Holds(u, s) && s.at.Idle? && r.pos < |s.sent| <= r.pos + u.capacity
    requires HasCopied(u, s, r, p, u.words) && |s.sent[r.pos]| == u.words
    ensures Becomes(u, s.history, r, q)
    ensures q == r.(thread := q.thread, at := Ready, pos := r.pos + 1, log := r.log + [Delivered(r.pos, s.sent[r.pos])])
  {
    assert s.sent[r.pos][..u.words] == s.sent[r.pos];
    var fenced := p.(thread := if u.orderings.acquireFence then AcquireFenced(p.thread) else p.thread,
                     at := Copied(2 * r.pos + 2, s.sent[r.pos]));
    BecomesOn(u, s.history, r, p, Fence, fenced);
    var l := Version(SlotOf(u.capacity, r.pos));
    NewestVersion(u, s, r.pos);
    NewestIsLoadable(s.history, fenced.thread, l);
    q := fenced.(thread := Loaded(s.history, fenced.thread, l, Newest(s.history, l), false), at := Ready,
                 pos := r.pos + 1, log := r.log + [Delivered(r.pos, s.sent[r.pos])]);
    BecomesOn(u, s.history, r, fenced, LoadSecond(Newest(s.history, l)), q);
  }

  /** Of a receiver that is behind by more than the ring holds: it jumps to half a capacity behind the newest cursor. */
  lemma CatchesUp(u: Setup, s: State, r: Receiver, p: Receiver) returns (q: Receiver)
    requires Sound(u) && Holds(u, s) && Becomes(u, s.history, r, p) && CanGoOn(s, p)
    requires p == r.(thread := p.thread, at := Lapped)
    ensures Becomes(u, s.history, r, q)
    ensures q == r.(thread := q.thread, at := Ready, pos := Saturating(|s.sent|, u.capacity / 2), laps := r.laps + 1,
                    log := r.log + [CaughtUp(r.pos, Saturating(|s.sent|, u.capacity / 2))])
  {
    NewestIsLoadable(s.history, p.thread, Cursor);
    q := p.(thread := Loaded(s.history, p.thread, Cursor, Newest(s.history, Cursor), false), at := Ready,
            pos := Saturating(|s.sent|, u.capacity / 2), laps := r.laps + 1,
            log := r.log + [CaughtUp(r.pos, Saturating(|s.sent|, u.capacity / 2))]);
    BecomesOn(u, s.history, r, p, CatchUp(Newest(s.history, Cursor)), q);
  }

  /** In every reachable state in which no send is under way, a receive that loads newest values gives what the sequential
      ring gives: the next event word for word if it is held, nothing if there is none, and if it was overwritten nothing
      and a jump. */
  lemma UndisturbedReceive(u: Setup, s: State, i: nat) returns (q: Receiver)
    requires Sound(u) && Reachable(u, s) && s.at.Idle? && i < |s.receivers|
    requires s.receivers[i].at.Ready? && s.receivers[i].pos <= |s.sent|
    ensures var r := s.receivers[i];
            var (data, pos) := Channel.Received(u.capacity, s.sent, r.pos);
            && Becomes(u, s.history, r, q) && q.at.Ready? && q.pos == pos
            && q.log == r.log + (if data.Some? then [Delivered(r.pos, data.value)]
                                 else if r.pos + u.capacity < |s.sent| then [CaughtUp(r.pos, pos)] else [])
            && q.laps == r.laps + if r.pos + u.capacity < |s.sent| then 1 else 0
  {
    ReachableAny(u, s);
    var r := s.receivers[i];
    var p := LoadsVersion(u, s, r);
    if r.pos == |s.sent| {
      q := p;
      assert q.log == r.log + [];
    } else if r.pos + u.capacity < |s.sent| {
      q := CatchesUp(u, s, r, p);
    } else {
      assert |s.sent[r.pos]| == u.words && s.sent[r.pos][..0] == [];
      var copied := CopiesWords(u, s, r, p, u.words);
      q := FinishesCopy(u, s, r, copied);
    }
  }
}

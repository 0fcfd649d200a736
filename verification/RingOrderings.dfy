/** All four orderings are needed: without any one of them, some run delivers what was never sent. */
module RingOrderings {
  import opened Memory
  import opened Ring
  import opened RingSafety

  ghost predicate Reachable(u: Setup, s: State)
    requires Sound(u)
  {
    exists states, steps :: IsRun(u, states, steps) && states[|steps|] == s
  }

  lemma ReachStart(u: Setup, s: State)
    requires Sound(u) && Init(s)
    ensures Reachable(u, s)
  {
    var states: seq<State>, steps: seq<Step> := [s], [];
    assert IsRun(u, states, steps) && states[|steps|] == s;
  }

  lemma ReachStep(u: Setup, s: State, step: Step, t: State)
    requires Sound(u) && Reachable(u, s) && Next(u, s, step, t)
    ensures Reachable(u, t)
  {
    var states, steps :| IsRun(u, states, steps) && states[|steps|] == s;
    var states', steps' := states + [t], steps + [step];
    forall i | 0 <= i < |steps'| ensures Next(u, states'[i], steps'[i], states'[i + 1]) {
      if i < |steps| {
        assert Next(u, states[i], steps[i], states[i + 1]);
      }
    }
    assert IsRun(u, states', steps') && states'[|steps'|] == t;
  }

  // What holds with any orderings

  /** All views are of what is there. */
  ghost predicate ViewsInHistory(s: State) {
    && MessagesInHistory(s.history) && ThreadInHistory(s.history, s.sender)
    && forall i | 0 <= i < |s.receivers| :: ThreadInHistory(s.history, s.receivers[i].thread)
  }

  /** Without its fence the sender's words carry nothing. */
  ghost predicate NothingFenced(s: State) {
    && (forall l :: s.sender.rel(l) == 0)
    && forall slot, i, at, x | 0 <= at < |s.history(Word(slot, i))| :: s.history(Word(slot, i))[at].view(Version(x)) == 0
  }

  ghost predicate AnyInv(u: Setup, s: State) {
    Holds(u, s) && ViewsInHistory(s) && (!u.orderings.releaseFence ==> NothingFenced(s))
  }

  lemma HoldsKept(u: Setup, s: State, step: SendStep, t: State)
    requires Sound(u) && Holds(u, s) && SendNext(u, s, step, t)
    ensures Holds(u, t)
  {
    match step
    case Claim(data) => ClaimHolds(u, s, data, t);
    case Mark => MarkHolds(u, s, t);
    case PassFence => FenceHolds(u, s, t);
    case StoreWord => StoreWordHolds(u, s, t);
    case Publish => PublishHolds(u, s, t);
  }

  lemma HoldsSame(u: Setup, s: State, t: State)
    requires u.capacity > 0 && Holds(u, s) && t == s.(receivers := t.receivers)
    ensures Holds(u, t)
  {
    forall slot | 0 <= slot < u.capacity ensures VersionHolds(u, t, slot) {
      VersionStays(u, s, t, slot);
    }
    forall slot, i | 0 <= slot < u.capacity && 0 <= i < u.words ensures WordHolds(u, t, slot, i) {
      WordStays(u, s, t, slot, i);
    }
  }

  lemma ViewGrows(h: History, g: History, v: View)
    requires InHistory(h, v) && Extends(h, g)
    ensures InHistory(g, v)
  {
    forall l ensures v(l) < |g(l)| {
      assert v(l) < |h(l)|;
    }
  }

  /** A history with one more message, whose view is of it. */
  lemma AppendInHistory(s: State, t: State, l: Loc, m: Message)
    requires ViewsInHistory(s) && t.receivers == s.receivers && t.history == Append(s.history, l, m)
    requires InHistory(t.history, m.view) && ThreadInHistory(t.history, t.sender)
    ensures ViewsInHistory(t)
  {
    assert Extends(s.history, t.history);
    forall x, at | 0 <= at < |t.history(x)| ensures InHistory(t.history, t.history(x)[at].view) {
      if at < |s.history(x)| {
        ViewGrows(s.history, t.history, s.history(x)[at].view);
      }
    }
    forall i | 0 <= i < |t.receivers| ensures ThreadInHistory(t.history, t.receivers[i].thread) {
      var thread := s.receivers[i].thread;
      ViewGrows(s.history, t.history, thread.cur);
      ViewGrows(s.history, t.history, thread.acq);
      ViewGrows(s.history, t.history, thread.rel);
    }
  }

  lemma SeenInHistory(h: History, l: Loc, m: Message, v: View)
    requires InHistory(h, v)
    ensures InHistory(Append(h, l, m), Seeing(v, l, |h(l)|)) && InHistory(Append(h, l, m), v)
  {
    forall x ensures Seeing(v, l, |h(l)|)(x) < |Append(h, l, m)(x)| && v(x) < |Append(h, l, m)(x)| {
      assert v(x) < |h(x)|;
    }
  }

  lemma StoreInHistory(s: State, l: Loc, value: nat, release: bool)
    requires ViewsInHistory(s)
    ensures ViewsInHistory(StoreTo(s, l, value, release))
  {
    var m := NewMessage(s.history, s.sender, l, value, release);
    SeenInHistory(s.history, l, m, s.sender.cur);
    SeenInHistory(s.history, l, m, s.sender.acq);
    SeenInHistory(s.history, l, m, s.sender.rel);
    AppendInHistory(s, StoreTo(s, l, value, release), l, m);
  }

  lemma JoinInHistory(h: History, v: View, w: View)
    requires InHistory(h, v) && InHistory(h, w)
    ensures InHistory(h, Join(v, w))
  {
    forall l ensures Join(v, w)(l) < |h(l)| {
      assert v(l) < |h(l)| && w(l) < |h(l)|;
    }
  }

  lemma SeeingInHistory(h: History, v: View, l: Loc, at: nat)
    requires InHistory(h, v) && at < |h(l)|
    ensures InHistory(h, Seeing(v, l, at))
  {
    forall x ensures Seeing(v, l, at)(x) < |h(x)| {
      assert v(x) < |h(x)|;
    }
  }

  lemma LoadInHistory(h: History, t: Thread, l: Loc, at: nat, acquire: bool)
    requires MessagesInHistory(h) && ThreadInHistory(h, t) && at < |h(l)|
    ensures ThreadInHistory(h, Loaded(h, t, l, at, acquire))
  {
    SeeingInHistory(h, t.cur, l, at);
    SeeingInHistory(h, t.acq, l, at);
    JoinInHistory(h, Seeing(t.cur, l, at), h(l)[at].view);
    JoinInHistory(h, Seeing(t.acq, l, at), h(l)[at].view);
  }

  lemma ClaimInHistory(s: State, t: State)
    requires ViewsInHistory(s) && s.history(Cursor) != [] && t.receivers == s.receivers
    requires t.history == Append(s.history, Cursor, AddedMessage(s.history, s.sender, Cursor))
    requires t.sender == AfterAdd(s.history, s.sender, Cursor)
    ensures ViewsInHistory(t)
  {
    var h, m := s.history, AddedMessage(s.history, s.sender, Cursor);
    var last := |h(Cursor)| - 1;
    LoadInHistory(h, s.sender, Cursor, last, false);
    var read := Loaded(h, s.sender, Cursor, last, false);
    SeenInHistory(h, Cursor, m, read.cur);
    SeenInHistory(h, Cursor, m, read.acq);
    SeenInHistory(h, Cursor, m, read.rel);
    SeenInHistory(h, Cursor, m, h(Cursor)[last].view);
    JoinInHistory(t.history, Seeing(s.sender.rel, Cursor, |h(Cursor)|), h(Cursor)[last].view);
    AppendInHistory(s, t, Cursor, m);
  }

  lemma SendInHistory(u: Setup, s: State, step: SendStep, t: State)
    requires Sound(u) && ViewsInHistory(s) && SendNext(u, s, step, t)
    ensures ViewsInHistory(t)
  {
    match step
    case Claim(data) => ClaimInHistory(s, t);
    case Mark => StoreInHistory(s, Version(SlotOf(u.capacity, s.at.pos)), 2 * s.at.pos + 1, false);
    case PassFence =>
    case StoreWord => StoreInHistory(s, Word(SlotOf(u.capacity, s.at.pos), s.at.done),
        s.sent[|s.sent| - 1][s.at.done], false);
    case Publish => StoreInHistory(s, Version(SlotOf(u.capacity, s.at.pos)), 2 * s.at.pos + 2, u.orderings.releaseStore);
  }

  lemma ReceiveInHistory(u: Setup, h: History, r: Receiver, step: ReceiveStep, q: Receiver)
    requires Sound(u) && MessagesInHistory(h) && ThreadInHistory(h, r.thread) && ReceiveNext(u, h, r, step, q)
    ensures ThreadInHistory(h, q.thread)
  {
    var slot := SlotOf(u.capacity, r.pos);
    match step
    case LoadFirst(ts) => LoadInHistory(h, r.thread, Version(slot), ts, u.orderings.acquireLoad);
    case LoadWord(ts) => LoadInHistory(h, r.thread, Word(slot, |r.at.staged|), ts, false);
    case Fence =>
    case LoadSecond(ts) => LoadInHistory(h, r.thread, Version(slot), ts, false);
    case CatchUp(ts) => LoadInHistory(h, r.thread, Cursor, ts, false);
    case Learn(view) => JoinInHistory(h, r.thread.cur, view); JoinInHistory(h, r.thread.acq, view);
  }

  lemma StepInHistory(u: Setup, s: State, step: Step, t: State)
    requires Sound(u) && ViewsInHistory(s) && Next(u, s, step, t)
    ensures ViewsInHistory(t)
  {
    match step
    case Send(send) => SendInHistory(u, s, send, t);
    case Subscribe(thread, ts) => LoadInHistory(s.history, thread, Cursor, ts, false);
    case Receive(i, receive) => ReceiveInHistory(u, s.history, s.receivers[i], receive, t.receivers[i]);
  }

  lemma FencedKept(u: Setup, s: State, step: SendStep, t: State)
    requires Sound(u) && !u.orderings.releaseFence && NothingFenced(s) && SendNext(u, s, step, t)
    ensures NothingFenced(t)
  {
    match step
    case Claim(data) =>
    case Mark =>
    case PassFence =>
    case StoreWord =>
    case Publish =>
  }

  lemma StepKeepsAny(u: Setup, s: State, step: Step, t: State)
    requires Sound(u) && AnyInv(u, s) && Next(u, s, step, t)
    ensures AnyInv(u, t)
  {
    StepInHistory(u, s, step, t);
    if step.Send? {
      HoldsKept(u, s, step.send, t);
      if !u.orderings.releaseFence {
        FencedKept(u, s, step.send, t);
      }
    } else {
      HoldsSame(u, s, t);
    }
  }

  lemma {:induction false} RunKeepsAny(u: Setup, states: seq<State>, steps: seq<Step>, n: nat)
    requires Sound(u) && IsRun(u, states, steps) && n < |states|
    ensures AnyInv(u, states[n])
  {
    if n > 0 {
      RunKeepsAny(u, states, steps, n - 1);
      StepKeepsAny(u, states[n - 1], steps[n - 1], states[n]);
    }
  }

  lemma ReachableAny(u: Setup, s: State)
    requires Sound(u) && Reachable(u, s)
    ensures AnyInv(u, s)
  {
    var states, steps :| IsRun(u, states, steps) && states[|steps|] == s;
    RunKeepsAny(u, states, steps, |steps|);
  }

  /** In every reachable state a receiver can load the newest value of any location: runs in which every load does are
      the sequentially consistent ones, so whatever holds of all runs holds of those. */
  lemma NewestAlwaysLoadable(u: Setup, s: State, i: nat, l: Loc)
    requires Sound(u) && Reachable(u, s) && i < |s.receivers|
    ensures s.history(l) != [] && CanLoad(s.history, s.receivers[i].thread, l, |s.history(l)| - 1)
  {
    ReachableAny(u, s);
    NewestIsLoadable(s.history, s.receivers[i].thread, l);
    assert s.receivers[i].thread.cur(l) < |s.history(l)|;
  }

  // Sends, one after another

  function AfterMark(u: Setup, s: State): State
    requires Sound(u) && s.at.Claimed?
  {
    StoreTo(s, Version(SlotOf(u.capacity, s.at.pos)), 2 * s.at.pos + 1, false).(at := Marked(s.at.pos))
  }

  function AfterClaim(s: State, data: seq<nat>): State
    requires s.history(Cursor) != []
  {
    s.(history := Append(s.history, Cursor, AddedMessage(s.history, s.sender, Cursor)),
       sender := AfterAdd(s.history, s.sender, Cursor), sent := s.sent + [data],
       at := Claimed(s.history(Cursor)[|s.history(Cursor)| - 1].value))
  }

  function AfterFence(u: Setup, s: State): State
    requires s.at.Marked?
  {
    s.(sender := if u.orderings.releaseFence then ReleaseFenced(s.sender) else s.sender, at := Writing(s.at.pos, 0))
  }

  /** The next send, up to its fence. */
  lemma SendToFence(u: Setup, s: State, data: seq<nat>) returns (t: State)
    requires Sound(u) && Reachable(u, s) && s.at.Idle? && |data| == u.words
    ensures Reachable(u, t) && t.at == Writing(|s.sent|, 0) && t.sent == s.sent + [data] && t.receivers == s.receivers
  {
    ReachableAny(u, s);
    var claimed := AfterClaim(s, data);
    ReachStep(u, s, Send(Claim(data)), claimed);
    var marked := AfterMark(u, claimed);
    ReachStep(u, claimed, Send(Mark), marked);
    t := AfterFence(u, marked);
    ReachStep(u, marked, Send(PassFence), t);
  }

  function AfterWord(u: Setup, s: State): State
    requires Sound(u) && s.at.Writing? && s.sent != [] && s.at.done < |s.sent[|s.sent| - 1]|
  {
    StoreTo(s, Word(SlotOf(u.capacity, s.at.pos), s.at.done), s.sent[|s.sent| - 1][s.at.done], false)
    .(at := Writing(s.at.pos, s.at.done + 1))
  }

  lemma {:induction false} SendWords(u: Setup, s: State) returns (t: State)
    requires Sound(u) && Reachable(u, s) && s.at.Writing? && s.at.done <= u.words
    ensures Reachable(u, t) && t.at == Writing(s.at.pos, u.words) && t.sent == s.sent && t.receivers == s.receivers
    ensures t.sender.rel == s.sender.rel
    decreases u.words - s.at.done
  {
    t := s;
    if s.at.done < u.words {
      ReachableAny(u, s);
      var next := AfterWord(u, s);
      ReachStep(u, s, Send(StoreWord), next);
      t := SendWords(u, next);
    }
  }

  function AfterPublish(u: Setup, s: State): State
    requires Sound(u) && s.at.Writing?
  {
    StoreTo(s, Version(SlotOf(u.capacity, s.at.pos)), 2 * s.at.pos + 2, u.orderings.releaseStore).(at := Idle)
  }

  lemma SendWhole(u: Setup, s: State, data: seq<nat>) returns (t: State)
    requires Sound(u) && Reachable(u, s) && s.at.Idle? && |data| == u.words
    ensures Reachable(u, t) && t.at.Idle? && t.sent == s.sent + [data] && t.receivers == s.receivers
  {
    var fenced := SendToFence(u, s, data);
    var written := SendWords(u, fenced);
    t := AfterPublish(u, written);
    ReachStep(u, written, Send(Publish), t);
  }

  lemma {:induction false} SendMany(u: Setup, s: State, data: seq<nat>, n: nat) returns (t: State)
    requires Sound(u) && Reachable(u, s) && s.at.Idle? && |data| == u.words
    ensures Reachable(u, t) && t.at.Idle? && s.sent <= t.sent && |t.sent| == |s.sent| + n && t.receivers == s.receivers
  {
    t := s;
    if n > 0 {
      var before := SendMany(u, s, data, n - 1);
      t := SendWhole(u, before, data);
    }
  }

  // Position 0 sits in slot 0, lap 0; the position `capacity` in slot 0, lap 1

  lemma FirstPositions(capacity: nat)
    requires capacity >= 2
    ensures SlotOf(capacity, 0) == 0 && LapOf(capacity, 0) == 0
    ensures SlotOf(capacity, capacity) == 0 && LapOf(capacity, capacity) == 1
    ensures PosOf(capacity, 0, 0) == 0 && PosOf(capacity, 0, 1) == capacity
  {
  }

  /** Slot 0 after the first send: one even version, one value of each word. */
  lemma FirstLap(u: Setup, s: State)
    requires Sound(u) && Holds(u, s) && s.at.Idle? && |s.sent| == 1
    ensures |s.history(Version(0))| == 3 && s.history(Version(0))[2].value == 2
    ensures forall i | 0 <= i < u.words :: |s.history(Word(0, i))| == 2 && s.history(Word(0, i))[0].value == 0
    ensures |s.history(Cursor)| == 2 && s.history(Cursor)[0].value == 0
  {
    FirstPositions(u.capacity);
    assert VersionHolds(u, s, 0);
    assert 2 * 0 + 2 < |s.history(Version(0))| <==> PosOf(u.capacity, 0, 0) < DoneSends(s);
    assert 2 * 1 + 1 < |s.history(Version(0))| <==> PosOf(u.capacity, 0, 1) < MarkedSends(s);
    forall i | 0 <= i < u.words ensures |s.history(Word(0, i))| == 2 && s.history(Word(0, i))[0].value == 0 {
      assert WordHolds(u, s, 0, i);
      assert 0 + 1 < |s.history(Word(0, i))| <==> PosOf(u.capacity, 0, 0) < StoredWords(s, i);
      assert 1 + 1 < |s.history(Word(0, i))| <==> PosOf(u.capacity, 0, 1) < StoredWords(s, i);
    }
  }

  /** Slot 0 with all words of lap 1 stored and its even version not yet. */
  lemma SecondLap(u: Setup, s: State)
    requires Sound(u) && Holds(u, s) && s.at == Writing(u.capacity, u.words) && |s.sent| == u.capacity + 1
    ensures |s.history(Version(0))| == 4 && s.history(Version(0))[2].value == 2
    ensures forall i | 0 <= i < u.words ::
        |s.history(Word(0, i))| == 3 && s.history(Word(0, i))[2].value == s.sent[u.capacity][i]
  {
    FirstPositions(u.capacity);
    assert VersionHolds(u, s, 0);
    VersionLength(u, s, 0, 1);
    forall i | 0 <= i < u.words
      ensures |s.history(Word(0, i))| == 3 && s.history(Word(0, i))[2].value == s.sent[u.capacity][i]
    {
      assert WordHolds(u, s, 0, i);
      assert 1 + 1 < |s.history(Word(0, i))| <==> PosOf(u.capacity, 0, 1) < StoredWords(s, i);
      LapOrder(u.capacity, 0, 1, 2);
      assert 2 + 1 < |s.history(Word(0, i))| <==> PosOf(u.capacity, 0, 2) < StoredWords(s, i);
      assert WordIs(u, s, 0, i, 1);
    }
  }

  // A receiver at position 0

  function WithReceiver(s: State, r: Receiver): State {
    s.(receivers := [r])
  }

  const NEW_THREAD: Thread := Thread(NOTHING_SEEN, NOTHING_SEEN, NOTHING_SEEN)

  /** It subscribes before knowing of any send and loads slot 0's even version of lap 0. */
  lemma ReceiveFirst(u: Setup, s: State) returns (r: Receiver)
    requires Sound(u) && Reachable(u, s) && s.at.Idle? && |s.sent| == 1 && s.receivers == []
    ensures Reachable(u, WithReceiver(s, r)) && r.pos == 0 && r.at == Copying(2, []) && r.log == []
    ensures r.thread.cur(Version(0)) <= 2 && r.thread.acq(Version(0)) <= 2
    ensures |s.history(Version(0))| == 3
    ensures forall i | 0 <= i < u.words :: r.thread.cur(Word(0, i)) <= 1
    ensures forall i | 0 <= i < u.words :: !u.orderings.acquireLoad || s.history(Version(0))[2].view(Word(0, i)) == 0 ==>
              r.thread.cur(Word(0, i)) == 0
  {
    ReachableAny(u, s);
    FirstLap(u, s);
    FirstPositions(u.capacity);
    var h := s.history;
    forall l ensures NOTHING_SEEN(l) < |h(l)| {
      assert s.sender.cur(l) < |h(l)|;
    }
    var new' := Receiver(Loaded(h, NEW_THREAD, Cursor, 0, false), 0, 0, Ready, 0, []);
    var subscribed := s.(receivers := s.receivers + [new']);
    ReachStep(u, s, Subscribe(NEW_THREAD, 0), subscribed);
    LoadedView(h, NEW_THREAD, Cursor, 0, false, Version(0));
    r := new'.(thread := Loaded(h, new'.thread, Version(0), 2, u.orderings.acquireLoad), at := Copying(2, []));
    assert WithReceiver(s, r) == subscribed.(receivers := subscribed.receivers[0 := r]);
    ReachStep(u, subscribed, Receive(0, LoadFirst(2)), WithReceiver(s, r));
    ReachableAny(u, WithReceiver(s, r));
    assert ThreadInHistory(h, WithReceiver(s, r).receivers[0].thread);
    assert r.thread.cur(Version(0)) < |h(Version(0))| && r.thread.acq(Version(0)) < |h(Version(0))|;
    forall i | 0 <= i < u.words
      ensures r.thread.cur(Word(0, i)) < |h(Word(0, i))|
      ensures !u.orderings.acquireLoad || h(Version(0))[2].view(Word(0, i)) == 0 ==> r.thread.cur(Word(0, i)) == 0
    {
      LoadedView(h, NEW_THREAD, Cursor, 0, false, Word(0, i));
      LoadedView(h, new'.thread, Version(0), 2, u.orderings.acquireLoad, Word(0, i));
    }
  }

  /** It loads all words at one point of their histories. */
  lemma {:induction false} ReceiveWords(u: Setup, s: State, r: Receiver, ts: nat) returns (q: Receiver)
    requires Sound(u) && Reachable(u, WithReceiver(s, r)) && r.pos == 0 && r.at.Copying? && |r.at.staged| <= u.words
    requires forall i | 0 <= i < u.words :: ts < |s.history(Word(0, i))|
    requires forall i | |r.at.staged| <= i < u.words :: r.thread.cur(Word(0, i)) <= ts
    ensures Reachable(u, WithReceiver(s, q)) && q.pos == 0 && q.log == r.log
    ensures q.at.Copying? && q.at.v1 == r.at.v1 && |q.at.staged| == u.words && r.at.staged <= q.at.staged
    ensures forall i | |r.at.staged| <= i < u.words :: q.at.staged[i] == s.history(Word(0, i))[ts].value
    ensures q.thread.cur(Version(0)) == r.thread.cur(Version(0))
    ensures (forall i | 0 <= i < u.words ::
        s.history(Word(0, i))[ts].view(Version(0)) <= 2) && r.thread.acq(Version(0)) <= 2 ==>
              q.thread.acq(Version(0)) <= 2
    decreases u.words - |r.at.staged|
  {
    q := r;
    var i := |r.at.staged|;
    if i < u.words {
      FirstPositions(u.capacity);
      var word := Word(0, i);
      var next := r.(thread := Loaded(s.history, r.thread, word, ts, false),
                     at := Copying(r.at.v1, r.at.staged + [s.history(word)[ts].value]));
      assert WithReceiver(s, next) == WithReceiver(s, r).(receivers := WithReceiver(s, r).receivers[0 := next]);
      ReachStep(u, WithReceiver(s, r), Receive(0, LoadWord(ts)), WithReceiver(s, next));
      LoadedView(s.history, r.thread, word, ts, false, Version(0));
      forall j | i < j < u.words ensures next.thread.cur(Word(0, j)) <= ts {
        LoadedView(s.history, r.thread, word, ts, false, Word(0, j));
      }
      assert next.thread.acq(Version(0)) == Max(r.thread.acq(Version(0)), s.history(word)[ts].view(Version(0)));
      q := ReceiveWords(u, s, next, ts);
      assert q.at.staged[i] == next.at.staged[i];
    }
  }

  /** And finds the version unchanged, so delivers. */
  lemma ReceiveSecond(u: Setup, s: State, r: Receiver) returns (q: Receiver)
    requires Sound(u) && Reachable(u, WithReceiver(s, r)) && r.pos == 0 && r.log == []
    requires r.at.Copying? && r.at.v1 == 2 && |r.at.staged| == u.words
    requires r.thread.cur(Version(0)) <= 2 && (u.orderings.acquireFence ==> r.thread.acq(Version(0)) <= 2)
    requires |s.history(Version(0))| > 2 && s.history(Version(0))[2].value == 2
    ensures Reachable(u, WithReceiver(s, q)) && q.log == [Delivered(0, r.at.staged)]
  {
    FirstPositions(u.capacity);
    var fenced := r.(thread := if u.orderings.acquireFence then AcquireFenced(r.thread) else r.thread,
        at := Copied(2, r.at.staged));
    assert WithReceiver(s, fenced) == WithReceiver(s, r).(receivers := WithReceiver(s, r).receivers[0 := fenced]);
    ReachStep(u, WithReceiver(s, r), Receive(0, Fence), WithReceiver(s, fenced));
    q := fenced.(thread := Loaded(s.history, fenced.thread, Version(0), 2, false), at := Ready, pos := 1,
                 log := r.log + [Delivered(0, r.at.staged)]);
    assert WithReceiver(s, q) == WithReceiver(s, fenced).(receivers := WithReceiver(s, fenced).receivers[0 := q]);
    ReachStep(u, WithReceiver(s, fenced), Receive(0, LoadSecond(2)), WithReceiver(s, q));
  }

  // The two ways to go wrong

  ghost predicate TearFree(u: Setup)
    requires Sound(u)
  {
    forall s, i, k | Reachable(u, s) && 0 <= i < |s.receivers| && 0 <= k < |s.receivers[i].log| ::
        EventIsSent(s, s.receivers[i].log[k])
  }

  predicate EventIsSent(s: State, e: Event) {
    e.Delivered? ==> e.pos < |s.sent| && e.data == s.sent[e.pos]
  }

  function All(words: nat, value: nat): seq<nat> {
    seq(words, i => value)
  }

  /** The first send, seen from its even version: without the release store that carries no words. */
  lemma SendFirst(u: Setup, s: State) returns (t: State)
    requires Sound(u) && Init(s)
    ensures Reachable(u, t) && t.at.Idle? && t.sent == [All(u.words, 1)] && t.receivers == []
    ensures |t.history(Version(0))| == 3
    ensures !u.orderings.releaseStore ==> forall i | 0 <= i < u.words :: t.history(Version(0))[2].view(Word(0, i)) == 0
  {
    ReachStart(u, s);
    var fenced := SendToFence(u, s, All(u.words, 1));
    ReachableAny(u, fenced);
    FirstPositions(u.capacity);
    forall i | 0 <= i < u.words ensures fenced.sender.rel(Word(0, i)) == 0 {
      assert WordHolds(u, fenced, 0, i);
      assert 0 + 1 < |fenced.history(Word(0, i))| <==> PosOf(u.capacity, 0, 0) < StoredWords(fenced, i);
      assert fenced.sender.rel(Word(0, i)) < |fenced.history(Word(0, i))|;
    }
    var written := SendWords(u, fenced);
    t := AfterPublish(u, written);
    ReachStep(u, written, Send(Publish), t);
    ReachableAny(u, written);
    VersionLength(u, written, 0, 0);
    assert VersionHolds(u, written, 0);
  }

  /** Without the release store or the acquire load, the words' first values can be taken for the first send. */
  lemma StaleRead(u: Setup)
    requires Sound(u) && u.words > 0 && !(u.orderings.releaseStore && u.orderings.acquireLoad)
    ensures !TearFree(u)
  {
    var start := State(START, [], NEW_THREAD, Idle, []);
    var s := SendFirst(u, start);
    ReachableAny(u, s);
    FirstLap(u, s);
    var r := ReceiveFirst(u, s);
    var copied := ReceiveWords(u, s, r, 0);
    ReachableAny(u, WithReceiver(s, copied));
    assert ThreadInHistory(s.history, WithReceiver(s, copied).receivers[0].thread);
    assert copied.thread.acq(Version(0)) < |s.history(Version(0))|;
    var q := ReceiveSecond(u, s, copied);
    var t := WithReceiver(s, q);
    assert copied.at.staged[0] == 0 && t.sent[0][0] == 1;
    assert !EventIsSent(t, t.receivers[0].log[0]);
  }

  /** Without either fence, the words of the send one lap later can be taken for the first's. */
  lemma TornRead(u: Setup)
    requires Sound(u) && u.words > 0 && !(u.orderings.releaseFence && u.orderings.acquireFence)
    ensures !TearFree(u)
  {
    var start := State(START, [], NEW_THREAD, Idle, []);
    var first := SendFirst(u, start);
    var r := ReceiveFirst(u, first);
    var lapped := SendMany(u, WithReceiver(first, r), All(u.words, 2), u.capacity - 1);
    var fenced := SendToFence(u, lapped, All(u.words, 2));
    var s := SendWords(u, fenced);
    ReachableAny(u, s);
    SecondLap(u, s);
    assert WithReceiver(s, r) == s;
    var copied := ReceiveWords(u, s, r, 2);
    var q := ReceiveSecond(u, s, copied);
    var t := WithReceiver(s, q);
    assert copied.at.staged[0] == 2 && t.sent[0] == All(u.words, 1);
    assert !EventIsSent(t, t.receivers[0].log[0]);
  }

  /** Receivers deliver only what was sent exactly when all four orderings are there. */
  lemma OrderingsAreNeeded(u: Setup)
    requires Sound(u) && u.words > 0
    ensures TearFree(u) <==> AsCoded(u.orderings)
  {
    if AsCoded(u.orderings) {
      forall s, i, k | Reachable(u, s) && 0 <= i < |s.receivers| && 0 <= k < |s.receivers[i].log|
        ensures EventIsSent(s, s.receivers[i].log[k])
      {
        var states, steps :| IsRun(u, states, steps) && states[|steps|] == s;
        DeliveredIsSent(u, states, steps, |steps|, i, k);
      }
    } else if u.orderings.releaseStore && u.orderings.acquireLoad {
      TornRead(u);
    } else {
      StaleRead(u);
    }
  }
}

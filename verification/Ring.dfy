/** The broadcast ring as atomic steps of one sender and any number of receivers, interleaved in any way:
 *  src/broadcast.rs. */
module Ring {
  import opened Memory

  /** The four orderings the code relies on. */
  datatype Orderings = Orderings(
    releaseFence: bool,  // between the odd version and the words
    releaseStore: bool,  // of the even version
    acquireLoad: bool,   // of the version before the words
    acquireFence: bool)  // between the words and the version's second load

  predicate AsCoded(o: Orderings) {
    o.releaseFence && o.releaseStore && o.acquireLoad && o.acquireFence
  }

  datatype Setup = Setup(capacity: nat, words: nat, orderings: Orderings)

  /** `channel` rounds the capacity up to a power of two, at least 2; a power is only needed for masking. */
  predicate Sound(u: Setup) {
    u.capacity >= 2
  }

  // Positions: slot `pos % capacity`, lap `pos / capacity`

  function SlotOf(capacity: nat, pos: nat): nat
    requires capacity > 0
  {
    if pos < capacity then pos else SlotOf(capacity, pos - capacity)
  }

  function LapOf(capacity: nat, pos: nat): nat
    requires capacity > 0
  {
    if pos < capacity then 0 else LapOf(capacity, pos - capacity) + 1
  }

  function PosOf(capacity: nat, slot: nat, lap: nat): nat {
    if lap == 0 then slot else PosOf(capacity, slot, lap - 1) + capacity
  }

  // The sender

  datatype SenderAt =
    | Idle
    | Claimed(pos: nat)
    | Marked(pos: nat)               // odd version stored
    | Writing(pos: nat, done: nat)   // fence passed, `done` words stored

  // Receivers

  datatype Event = Delivered(pos: nat, data: seq<nat>) | CaughtUp(from: nat, to: nat)

  datatype ReceiverAt =
    | Ready
    | Lapped
    | Copying(v1: nat, staged: seq<nat>)
    | Copied(v1: nat, staged: seq<nat>) // fence passed

  /** `start` and `log` remember where the receiver subscribed and what happened to it. */
  datatype Receiver = Receiver(thread: Thread, pos: nat, laps: nat, at: ReceiverAt, start: nat, log: seq<Event>)

  datatype State = State(history: History, sent: seq<seq<nat>>, sender: Thread, at: SenderAt, receivers: seq<Receiver>)

  datatype SendStep = Claim(data: seq<nat>) | Mark | PassFence | StoreWord | Publish

  datatype ReceiveStep =
    | LoadFirst(ts: nat)
    | LoadWord(ts: nat)
    | Fence
    | LoadSecond(ts: nat)
    | CatchUp(ts: nat)
    | Learn(view: View) // the receiver's thread learns of writes in some other way

  datatype Step =
    | Send(send: SendStep)
    | Subscribe(thread: Thread, ts: nat)
    | Receive(receiver: nat, receive: ReceiveStep)

  function Initial(l: Loc): nat {
    match l
    case Version(slot) => 2 * slot
    case _ => 0
  }

  const START: History := l => [Message(Initial(l), NOTHING_SEEN)]

  ghost predicate Init(s: State) {
    s == State(START, [], Thread(NOTHING_SEEN, NOTHING_SEEN, NOTHING_SEEN), Idle, [])
  }

  function Saturating(a: nat, b: nat): nat {
    if a < b then 0 else a - b
  }

  function StoreTo(s: State, l: Loc, value: nat, release: bool): State {
    s.(history := Append(s.history, l, NewMessage(s.history, s.sender, l, value, release)),
        sender := Stored(s.history, s.sender, l))
  }

  ghost predicate SendNext(u: Setup, s: State, step: SendStep, t: State)
    requires Sound(u)
  {
    match step
    case Claim(data) =>
      s.at.Idle? && |data| == u.words && s.history(Cursor) != []
      && t == s.(history := Append(s.history, Cursor, AddedMessage(s.history, s.sender, Cursor)),
                 sender := AfterAdd(s.history, s.sender, Cursor), sent := s.sent + [data],
                 at := Claimed(s.history(Cursor)[|s.history(Cursor)| - 1].value))
    case Mark =>
      s.at.Claimed?
      && t == StoreTo(s, Version(SlotOf(u.capacity, s.at.pos)), 2 * s.at.pos + 1, false).(at := Marked(s.at.pos))
    case PassFence =>
      s.at.Marked?
      && t == s.(sender := if u.orderings.releaseFence then ReleaseFenced(s.sender) else s.sender,
          at := Writing(s.at.pos, 0))
    case StoreWord =>
      s.at.Writing? && s.at.done < u.words && s.sent != [] && s.at.done < |s.sent[|s.sent| - 1]|
      && t == StoreTo(s, Word(SlotOf(u.capacity, s.at.pos), s.at.done), s.sent[|s.sent| - 1][s.at.done], false)
              .(at := Writing(s.at.pos, s.at.done + 1))
    case Publish =>
      s.at.Writing? && s.at.done == u.words
      && t == StoreTo(s, Version(SlotOf(u.capacity, s.at.pos)), 2 * s.at.pos + 2, u.orderings.releaseStore).(at := Idle)
  }

  /** What a receiver becomes by a step; only the sender writes. */
  ghost predicate ReceiveNext(u: Setup, h: History, r: Receiver, step: ReceiveStep, q: Receiver)
    requires Sound(u)
  {
    var slot := SlotOf(u.capacity, r.pos);
    var want := 2 * r.pos + 2;
    match step
    case LoadFirst(ts) =>
      r.at.Ready? && CanLoad(h, r.thread, Version(slot), ts)
      && var v1 := h(Version(slot))[ts].value;
         q == r.(thread := Loaded(h, r.thread, Version(slot), ts, u.orderings.acquireLoad),
                 at := if v1 < want then Ready else if v1 > want then Lapped else Copying(v1, []))
    case LoadWord(ts) =>
      r.at.Copying? && |r.at.staged| < u.words && CanLoad(h, r.thread, Word(slot, |r.at.staged|), ts)
      && q == r.(thread := Loaded(h, r.thread, Word(slot, |r.at.staged|), ts, false),
                 at := Copying(r.at.v1, r.at.staged + [h(Word(slot, |r.at.staged|))[ts].value]))
    case Fence =>
      r.at.Copying? && |r.at.staged| == u.words
      && q == r.(thread := if u.orderings.acquireFence then AcquireFenced(r.thread) else r.thread,
          at := Copied(r.at.v1, r.at.staged))
    case LoadSecond(ts) =>
      r.at.Copied? && CanLoad(h, r.thread, Version(slot), ts)
      && var thread := Loaded(h, r.thread, Version(slot), ts, false);
         q == if h(Version(slot))[ts].value == r.at.v1
              then r.(thread := thread, at := Ready, pos := r.pos + 1, log := r.log + [Delivered(r.pos, r.at.staged)])
              else r.(thread := thread, at := Ready)
    case CatchUp(ts) =>
      r.at.Lapped? && CanLoad(h, r.thread, Cursor, ts)
      && var to := Saturating(h(Cursor)[ts].value, u.capacity / 2);
         q == r.(thread := Loaded(h, r.thread, Cursor, ts, false), at := Ready, pos := to, laps := r.laps + 1,
                 log := r.log + [CaughtUp(r.pos, to)])
    case Learn(view) =>
      InHistory(h, view) && q == r.(thread := Thread(Join(r.thread.cur, view), Join(r.thread.acq, view), r.thread.rel))
  }

  /** A new receiver starts at a cursor value its thread can load. */
  ghost predicate Subscribed(h: History, thread: Thread, ts: nat, q: Receiver) {
    && ThreadInHistory(h, thread) && FencesAdd(thread)
    && CanLoad(h, thread, Cursor, ts)
    && q == Receiver(Loaded(h, thread, Cursor, ts, false), h(Cursor)[ts].value, 0, Ready, h(Cursor)[ts].value, [])
  }

  ghost predicate Next(u: Setup, s: State, step: Step, t: State)
    requires Sound(u)
  {
    match step
    case Send(send) => SendNext(u, s, send, t)
    case Subscribe(thread, ts) =>
      |t.receivers| == |s.receivers| + 1 && Subscribed(s.history, thread, ts, t.receivers[|s.receivers|])
      && t == s.(receivers := s.receivers + [t.receivers[|s.receivers|]])
    case Receive(i, receive) =>
      i < |s.receivers| && i < |t.receivers| && ReceiveNext(u, s.history, s.receivers[i], receive, t.receivers[i])
      && t == s.(receivers := s.receivers[i := t.receivers[i]])
  }

  ghost predicate IsRun(u: Setup, states: seq<State>, steps: seq<Step>)
    requires Sound(u)
  {
    && |states| == |steps| + 1
    && Init(states[0])
    && forall i | 0 <= i < |steps| :: Next(u, states[i], steps[i], states[i + 1])
  }
}

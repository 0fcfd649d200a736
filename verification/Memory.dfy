/** Atomics with one writer and many readers, under the memory model of section 31.11 [atomics.fences] and section 6.9.2
 *  [intro.multithread] of ISO C++20, which Rust uses.
 *
 *  Each location keeps every value ever stored, in order. A thread's view says how far into each location's history it
 *  must already have seen; a load may return anything from there on. Releases put the writer's view on a message,
 *  acquires take it over. Since only one thread writes, a store is always the newest, and loads never depend on stores
 *  that come later. */
module Memory {

  datatype Loc = Cursor | Version(slot: nat) | Word(slot: nat, i: nat)

  /** An index into each location's history. */
  type View = Loc -> nat

  datatype Message = Message(value: nat, view: View)

  type History = Loc -> seq<Message>

  /** What a thread has seen, what it will have seen after an acquire fence, and what it had seen at its last release
      fence. */
  datatype Thread = Thread(cur: View, acq: View, rel: View)

  function Max(a: nat, b: nat): nat {
    if a < b then b else a
  }

  const NOTHING_SEEN: View := l => 0

  function Seeing(v: View, l: Loc, at: nat): View {
    x => if x == l then Max(v(x), at) else v(x)
  }

  function Join(v: View, w: View): View {
    x => Max(v(x), w(x))
  }

  function Append(h: History, l: Loc, m: Message): History {
    x => if x == l then h(x) + [m] else h(x)
  }

  /** A thread never goes back in a location's history. */
  predicate CanLoad(h: History, t: Thread, l: Loc, at: nat) {
    t.cur(l) <= at < |h(l)|
  }

  /** A relaxed load keeps the message's view for a later acquire fence. */
  function Loaded(h: History, t: Thread, l: Loc, at: nat, acquire: bool): Thread
    requires at < |h(l)|
  {
    var seen := h(l)[at].view;
    Thread(if acquire then Join(Seeing(t.cur, l, at), seen) else Seeing(t.cur, l, at), Join(Seeing(t.acq, l, at),
        seen), t.rel)
  }

  /** A release store carries all its thread has seen; a relaxed one what it had seen at its last release fence. */
  function NewMessage(h: History, t: Thread, l: Loc, value: nat, release: bool): Message {
    Message(value, Seeing(if release then t.cur else t.rel, l, |h(l)|))
  }

  function Stored(h: History, t: Thread, l: Loc): Thread {
    Thread(Seeing(t.cur, l, |h(l)|), Seeing(t.acq, l, |h(l)|), t.rel)
  }

  function ReleaseFenced(t: Thread): Thread {
    t.(rel := t.cur)
  }

  function AcquireFenced(t: Thread): Thread {
    t.(cur := t.acq)
  }

  /** A relaxed fetch-add by the only writer: it reads the newest message, whose view its own message passes on. */
  function AddedMessage(h: History, t: Thread, l: Loc): Message
    requires h(l) != []
  {
    var last := h(l)[|h(l)| - 1];
    Message(last.value + 1, Join(Seeing(t.rel, l, |h(l)|), last.view))
  }

  function AfterAdd(h: History, t: Thread, l: Loc): Thread
    requires h(l) != []
  {
    var read := Loaded(h, t, l, |h(l)| - 1, false);
    Stored(h, read, l)
  }

  // Which loads are possible

  ghost predicate InHistory(h: History, v: View) {
    forall l :: v(l) < |h(l)|
  }

  ghost predicate MessagesInHistory(h: History) {
    forall l, at | 0 <= at < |h(l)| :: InHistory(h, h(l)[at].view)
  }

  ghost predicate ThreadInHistory(h: History, t: Thread) {
    InHistory(h, t.cur) && InHistory(h, t.acq) && InHistory(h, t.rel)
  }

  /** The newest value can always be loaded, so sequentially consistent runs are among the runs. */
  lemma NewestIsLoadable(h: History, t: Thread, l: Loc)
    requires ThreadInHistory(h, t)
    ensures CanLoad(h, t, l, |h(l)| - 1)
  {
  }

  /** What a fence would add never falls behind what was seen. */
  ghost predicate FencesAdd(t: Thread) {
    forall l :: t.cur(l) <= t.acq(l)
  }

  lemma LoadKeepsFences(h: History, t: Thread, l: Loc, at: nat, acquire: bool)
    requires at < |h(l)| && FencesAdd(t)
    ensures FencesAdd(Loaded(h, t, l, at, acquire))
    ensures forall x :: t.acq(x) <= Loaded(h, t, l, at, acquire).acq(x)
  {
    var now, seen := Loaded(h, t, l, at, acquire), h(l)[at].view;
    forall x ensures now.cur(x) <= now.acq(x) && t.acq(x) <= now.acq(x) {
      assert t.cur(x) <= t.acq(x);
      assert Seeing(t.cur, l, at)(x) <= Seeing(t.acq, l, at)(x);
      assert now.acq(x) == Max(Seeing(t.acq, l, at)(x), seen(x));
      assert now.cur(x) == if acquire then Max(Seeing(t.cur, l, at)(x), seen(x)) else Seeing(t.cur, l, at)(x);
    }
  }

  /** What a thread's view of `x` becomes by a load. */
  lemma LoadedView(h: History, t: Thread, l: Loc, at: nat, acquire: bool, x: Loc)
    requires at < |h(l)|
    ensures var old', seen := if x == l then Max(t.cur(x), at) else t.cur(x), h(l)[at].view(x);
            Loaded(h, t, l, at, acquire).cur(x) == if acquire then Max(old', seen) else old'
  {
    var seen := h(l)[at].view;
    var cur := Seeing(t.cur, l, at);
    assert cur(x) == if x == l then Max(t.cur(x), at) else t.cur(x);
    assert Join(cur, seen)(x) == Max(cur(x), seen(x));
  }

  /** An acquire load takes over what came with the message. */
  lemma AcquireLearns(h: History, t: Thread, l: Loc, at: nat, x: Loc)
    requires at < |h(l)|
    ensures Loaded(h, t, l, at, true).cur(x) >= Max(t.cur(x), h(l)[at].view(x))
    ensures Loaded(h, t, l, at, true).cur(l) >= at
  {
    LoadedView(h, t, l, at, true, x);
    LoadedView(h, t, l, at, true, l);
  }
}

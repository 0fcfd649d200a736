/** Cards out of service: src/resource/quarantine.rs. */
module Quarantine {
  import opened Wrappers
  import opened Spec

  const HARDWARE_XIDS: seq<u64> := [48, 63, 64, 74, 79, 92, 94, 95, 119, 120]

  datatype CardEvent = Xid(code: u64) | PagesPendingRetirement | TestFailed(reason: string) | Cleared

  datatype Reason = XidSeen(code: u64) | PagesPending | QualificationFailed(reason: string)

  datatype Quarantine = Quarantine(reason: Reason, since: nat)

  /** Why an event takes a card out of service; None for one that doesn't. */
  function ReasonFor(event: CardEvent): Option<Reason> {
    match event
    case Xid(code) => if code in HARDWARE_XIDS then Some(XidSeen(code)) else None
    case PagesPendingRetirement => Some(PagesPending)
    case TestFailed(reason) => Some(QualificationFailed(reason))
    case Cleared => None
  }

  predicate IsFault(event: CardEvent) {
    ReasonFor(event).Some?
  }

  /** The faults: ten Xids that blame the card rather than the job, pages waiting to be retired, and a failed test. */
  lemma FaultsAre(event: CardEvent)
    ensures ReasonFor(event) ==
            match event
            case Xid(code) =>
              if code == 48 || code == 63 || code == 64 || code == 74 || code == 79 || code == 92 || code == 94
                 || code == 95 || code == 119 || code == 120 then Some(XidSeen(code)) else None
            case PagesPendingRetirement => Some(PagesPending)
            case TestFailed(reason) => Some(QualificationFailed(reason))
            case Cleared => None
    ensures IsFault(event) <==> ReasonFor(event).Some?
  {
    var xids: seq<u64> := [48, 63, 64, 74, 79, 92, 94, 95, 119, 120];
    assert HARDWARE_XIDS == xids;
    assert xids[0] == 48 && xids[1] == 63 && xids[2] == 64 && xids[3] == 74 && xids[4] == 79;
    assert xids[5] == 92 && xids[6] == 94 && xids[7] == 95 && xids[8] == 119 && xids[9] == 120;
  }

  /** What an event makes of a card: a fault in a card that is already out of service adds nothing. */
  function Apply(event: CardEvent, current: Option<Quarantine>, now: nat): Option<Quarantine> {
    if event.Cleared? then None
    else match ReasonFor(event)
         case None => current
         case Some(reason) => if current.Some? then current else Some(Quarantine(reason, now))
  }

  /** What the inventory says of a card. */
  datatype Gpu = Gpu(index: u32, uuid: string)

  /** How a card is remembered: wherever it sits if it has a UUID, else by where it sits. */
  datatype Card = ByUuid(uuid: string) | ByIndex(index: u32)

  function CardOf(gpu: Gpu): Card {
    if gpu.uuid == "" then ByIndex(gpu.index) else ByUuid(gpu.uuid)
  }

  /** Two entries of the inventory are one card exactly if they have the same UUID, wherever it sits, or both have none and
      sit in the same place. */
  lemma SameCardIff(a: Gpu, b: Gpu)
    ensures CardOf(a) == CardOf(b) <==> a.uuid == b.uuid && (a.uuid == "" ==> a.index == b.index)
  {
  }

  // Histories

  datatype Entry = Entry(card: Card, event: CardEvent, time: nat)

  /** A card's quarantine after a history that began with `start`. */
  function After(start: Option<Quarantine>, history: seq<Entry>, card: Card): Option<Quarantine> {
    if history == [] then start
    else
      var last := history[|history| - 1];
      var before := After(start, history[..|history| - 1], card);
      if last.card == card then Apply(last.event, before, last.time) else before
  }

  /** The card has not been cleared from entry `i` on. */
  ghost predicate NotClearedSince(history: seq<Entry>, card: Card, i: nat) {
    forall j | i <= j < |history| && history[j].card == card :: !history[j].event.Cleared?
  }

  ghost predicate FaultAt(history: seq<Entry>, card: Card, i: nat) {
    i < |history| && history[i].card == card && IsFault(history[i].event)
  }

  /** Entry `i` is the first fault since the card's last clear. */
  ghost predicate FirstFault(history: seq<Entry>, card: Card, i: nat) {
    && FaultAt(history, card, i) && NotClearedSince(history, card, i)
    && forall j | 0 <= j < i && FaultAt(history, card, j) :: !NotClearedSince(history, card, j)
  }

  lemma {:induction false} NoFaultNoQuarantine(history: seq<Entry>, card: Card)
    requires forall i | 0 <= i < |history| && FaultAt(history, card, i) :: !NotClearedSince(history, card, i)
    ensures After(None, history, card).None?
    decreases |history|
  {
    if history != [] {
      var n := |history| - 1;
      if history[n].card != card || !history[n].event.Cleared? {
        forall i | 0 <= i < n && FaultAt(history[..n], card, i) ensures !NotClearedSince(history[..n], card, i) {
          assert FaultAt(history, card, i);
          var j :| i <= j < |history| && history[j].card == card && history[j].event.Cleared?;
          assert history[..n][j] == history[j];
        }
        NoFaultNoQuarantine(history[..n], card);
        if history[n].card == card && IsFault(history[n].event) {
          assert FaultAt(history, card, n) && NotClearedSince(history, card, n);
        }
      }
    }
  }

  lemma {:induction false} FirstFaultDecides(history: seq<Entry>, card: Card, i: nat)
    requires FirstFault(history, card, i)
    ensures After(None, history, card) == Some(Quarantine(ReasonFor(history[i].event).value, history[i].time))
    decreases |history|
  {
    var n := |history| - 1;
    var before := history[..n];
    if i < n {
      forall j | i <= j < |before| && before[j].card == card ensures !before[j].event.Cleared? {
        assert before[j] == history[j];
      }
      forall j | 0 <= j < i && FaultAt(before, card, j) ensures !NotClearedSince(before, card, j) {
        assert FaultAt(history, card, j);
        var l :| j <= l < |history| && history[l].card == card && history[l].event.Cleared?;
        assert l < i && before[l] == history[l];
      }
      assert FaultAt(before, card, i);
      FirstFaultDecides(before, card, i);
    } else {
      forall j | 0 <= j < |before| && FaultAt(before, card, j) ensures !NotClearedSince(before, card, j) {
        assert FaultAt(history, card, j);
        var l :| j <= l < |history| && history[l].card == card && history[l].event.Cleared?;
        assert l < n && before[l] == history[l];
      }
      NoFaultNoQuarantine(before, card);
    }
  }

  lemma {:induction false} FirstOf(history: seq<Entry>, card: Card, i: nat) returns (first: nat)
    requires FaultAt(history, card, i) && NotClearedSince(history, card, i)
    ensures FirstFault(history, card, first)
    decreases i
  {
    if j :| 0 <= j < i && FaultAt(history, card, j) && NotClearedSince(history, card, j) {
      first := FirstOf(history, card, j);
    } else {
      first := i;
    }
  }

  /** A card is quarantined exactly when a fault came after its last clear, with the first such fault's reason and time. */
  lemma QuarantinedIff(history: seq<Entry>, card: Card)
    ensures After(None, history, card).Some? <==>
            exists i: nat :: FaultAt(history, card, i) && NotClearedSince(history, card, i)
    ensures forall i: nat | FirstFault(history, card, i) ::
              After(None, history, card) == Some(Quarantine(ReasonFor(history[i].event).value, history[i].time))
  {
    forall i: nat | FirstFault(history, card, i)
      ensures After(None, history, card) == Some(Quarantine(ReasonFor(history[i].event).value, history[i].time))
    {
      FirstFaultDecides(history, card, i);
    }
    if i: nat :| FaultAt(history, card, i) && NotClearedSince(history, card, i) {
      var first := FirstOf(history, card, i);
    } else {
      NoFaultNoQuarantine(history, card);
    }
  }

  /** What was loaded stays until the first clear, and counts for nothing after it. */
  lemma {:induction false} LoadedUntilCleared(start: Quarantine, history: seq<Entry>, card: Card)
    ensures After(Some(start), history, card) ==
            if NotClearedSince(history, card, 0) then Some(start) else After(None, history, card)
    decreases |history|
  {
    if history != [] {
      var n := |history| - 1;
      LoadedUntilCleared(start, history[..n], card);
      if NotClearedSince(history[..n], card, 0) {
        assert NotClearedSince(history, card, 0) <==> !(history[n].card == card && history[n].event.Cleared?);
      } else {
        var j :| 0 <= j < n && history[..n][j].card == card && history[..n][j].event.Cleared?;
        assert history[j].card == card && history[j].event.Cleared?;
      }
    }
  }

  // The machine's own record

  function Lookup(cards: map<Card, Quarantine>, card: Card): Option<Quarantine> {
    if card in cards then Some(cards[card]) else None
  }

  class Quarantines {
    var cards: map<Card, Quarantine>
    var tested: map<Card, nat>
    var saved: map<Card, Quarantine> // what the file holds
    ghost var loaded: map<Card, Quarantine>
    ghost var history: seq<Entry>

    /** The cards are what the events since loading make of what was loaded. */
    ghost predicate Valid()
      reads this
    {
      forall card :: Lookup(cards, card) == After(Lookup(loaded, card), history, card)
    }

    /** A missing or unreadable file means none. */
    constructor Load(file: Option<map<Card, Quarantine>>)
      ensures Valid() && history == [] && tested == map[]
      ensures cards == loaded == if file.Some? then file.value else map[]
    {
      cards := if file.Some? then file.value else map[];
      loaded := if file.Some? then file.value else map[];
      saved := if file.Some? then file.value else map[];
      tested := map[];
      history := [];
    }

    /** What the events since loading say of a card. */
    method Get(gpu: Gpu) returns (quarantine: Option<Quarantine>)
      requires Valid()
      ensures quarantine == After(Lookup(loaded, CardOf(gpu)), history, CardOf(gpu))
    {
      quarantine := Lookup(cards, CardOf(gpu));
    }

    /** One event for one card; the file follows the cards, and a card newly out of service counts as untested. */
    method Handle(gpu: Gpu, event: CardEvent, now: nat, saves: bool)
      requires Valid()
      modifies this
      ensures Valid() && loaded == old(loaded) && history == old(history) + [Entry(CardOf(gpu), event, now)]
      ensures forall other | CardOf(other) != CardOf(gpu) ::
                Lookup(cards, CardOf(other)) == Lookup(old(cards), CardOf(other))
      ensures Lookup(cards, CardOf(gpu)) == Apply(event, Lookup(old(cards), CardOf(gpu)), now)
      ensures saved == if cards != old(cards) && saves then cards else old(saved)
      ensures tested == if CardOf(gpu) in cards && CardOf(gpu) !in old(cards) then old(tested) - {CardOf(gpu)}
                        else old(tested)
    {
      var card := CardOf(gpu);
      history := history + [Entry(card, event, now)];
      assert history[..|history| - 1] == old(history);
      var before := Lookup(cards, card);
      var after := Apply(event, before, now);
      if after == before {
        return;
      }
      match after {
        case Some(quarantine) =>
          cards := cards[card := quarantine];
          tested := tested - {card};
        case None =>
          cards := cards - {card};
      }
      if saves {
        saved := cards;
      }
    }

    /** A qualification came to an end on this card. */
    method RecordTest(gpu: Gpu, passed: bool, reason: string, now: nat, saves: bool)
      requires Valid()
      modifies this
      ensures Valid() && loaded == old(loaded)
      ensures history == old(history) + [Entry(CardOf(gpu), if passed then Cleared else TestFailed(reason), now)]
      ensures passed ==> CardOf(gpu) !in cards
      ensures !passed ==> Lookup(cards, CardOf(gpu)) ==
                          Some(if CardOf(gpu) in old(cards) then old(cards)[CardOf(gpu)]
                               else Quarantine(QualificationFailed(reason), now))
      ensures CardOf(gpu) in tested && tested[CardOf(gpu)] == now
      ensures forall other | CardOf(other) != CardOf(gpu) ::
                Lookup(cards, CardOf(other)) == Lookup(old(cards), CardOf(other))
    {
      if passed {
        Handle(gpu, Cleared, now, saves);
      } else {
        Handle(gpu, TestFailed(reason), now, saves);
      }
      tested := tested[CardOf(gpu) := now];
    }
  }
}

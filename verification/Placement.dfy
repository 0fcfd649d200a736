/** Placing a job's members on the nodes, all or nothing: src/resource/placement.rs. */
module Placement {
  import opened Wrappers
  import opened Spec
  import opened Pool

  /** A member's node and what it holds there. */
  datatype Placed = Placed(node: nat, allocation: Allocation)

  predicate AllShaped(pools: seq<PoolState>) {
    forall n | 0 <= n < |pools| :: Shaped(pools[n])
  }

  ghost predicate AllWellFormed(pools: seq<PoolState>) {
    forall n | 0 <= n < |pools| :: WellFormed(pools[n])
  }

  /** The first usable node from `node` on that can take the request. */
  function FirstNode(pools: seq<PoolState>, usable: seq<bool>, option: ResourceSpec, node: nat): Option<Placed>
    requires AllShaped(pools) && |usable| == |pools| && node <= |pools|
    decreases |pools| - node
  {
    if node == |pools| then None
    else if usable[node] && Reserve(pools[node], option).Some? then Some(Placed(node, Reserve(pools[node], option).value))
    else FirstNode(pools, usable, option, node + 1)
  }

  /** The first option from `i` on that fits somewhere. */
  function FirstOption(pools: seq<PoolState>, usable: seq<bool>, options: seq<ResourceSpec>, i: nat): Option<Placed>
    requires AllShaped(pools) && |usable| == |pools| && i <= |options|
    decreases |options| - i
  {
    if i == |options| then None
    else if FirstNode(pools, usable, options[i], 0).Some? then FirstNode(pools, usable, options[i], 0)
    else FirstOption(pools, usable, options, i + 1)
  }

  function PlaceMember(pools: seq<PoolState>, usable: seq<bool>, spec: ResourceSpec): Option<Placed>
    requires AllShaped(pools) && |usable| == |pools|
  {
    FirstOption(pools, usable, GpuOptions(spec), 0)
  }

  /** A usable node can take the request now. */
  predicate FitsOn(pools: seq<PoolState>, usable: seq<bool>, option: ResourceSpec, node: nat)
    requires AllShaped(pools) && |usable| == |pools|
  {
    node < |pools| && usable[node] && Reserve(pools[node], option).Some?
  }

  lemma {:induction false} FirstNodeIsFirst(pools: seq<PoolState>, usable: seq<bool>, option: ResourceSpec, node: nat)
    requires AllShaped(pools) && |usable| == |pools| && node <= |pools|
    ensures var r := FirstNode(pools, usable, option, node);
            && (r.None? <==> forall n | node <= n :: !FitsOn(pools, usable, option, n))
            && (r.Some? ==> node <= r.value.node && FitsOn(pools, usable, option, r.value.node)
                            && Reserve(pools[r.value.node], option) == Some(r.value.allocation)
                            && forall n | node <= n < r.value.node :: !FitsOn(pools, usable, option, n))
    decreases |pools| - node
  {
    if node < |pools| {
      FirstNodeIsFirst(pools, usable, option, node + 1);
      var here := FitsOn(pools, usable, option, node);
    }
  }

  lemma {:induction false} FirstOptionIsFirst(pools: seq<PoolState>, usable: seq<bool>, options: seq<ResourceSpec>, i: nat)
      returns (k: nat)
    requires AllShaped(pools) && |usable| == |pools| && i <= |options|
    ensures i <= k <= |options|
    ensures forall j | i <= j < k :: forall n: nat :: !FitsOn(pools, usable, options[j], n)
    ensures FirstOption(pools, usable, options, i) == if k < |options| then FirstNode(pools, usable, options[k],
        0) else None
    ensures k < |options| ==> FirstNode(pools, usable, options[k], 0).Some?
    decreases |options| - i
  {
    k := i;
    if i < |options| {
      FirstNodeIsFirst(pools, usable, options[i], 0);
      if FirstNode(pools, usable, options[i], 0).None? {
        k := FirstOptionIsFirst(pools, usable, options, i + 1);
      }
    }
  }

  /** A member gets the fewest-card option that fits any usable node, on the first node it fits; it goes without exactly
      when no option fits any. */
  lemma PlaceMemberMeets(pools: seq<PoolState>, usable: seq<bool>, spec: ResourceSpec)
    requires AllShaped(pools) && |usable| == |pools|
    ensures PlaceMember(pools, usable, spec).None? <==>
            forall option, n: nat | option in GpuOptions(spec) :: !FitsOn(pools, usable, option, n)
    ensures PlaceMember(pools, usable, spec).Some? ==>
              var placed := PlaceMember(pools, usable, spec).value;
              exists k :: 0 <= k < |GpuOptions(spec)|
                && FitsOn(pools, usable, GpuOptions(spec)[k], placed.node)
                && Reserve(pools[placed.node], GpuOptions(spec)[k]) == Some(placed.allocation)
                && (forall n: nat | n < placed.node :: !FitsOn(pools, usable, GpuOptions(spec)[k], n))
                && (forall j, n: nat | 0 <= j < k :: !FitsOn(pools, usable, GpuOptions(spec)[j], n))
  {
    var options := GpuOptions(spec);
    var k := FirstOptionIsFirst(pools, usable, options, 0);
    if k < |options| {
      FirstNodeIsFirst(pools, usable, options[k], 0);
      assert options[k] in options;
    }
  }

  /** Any node that is usable will do, and any number of cards that a job may have: a member goes without exactly when all
      of them refuse, and gets no more cards, nor a later node, than it has to. */
  lemma PlacesIff(pools: seq<PoolState>, usable: seq<bool>, spec: ResourceSpec)
    requires AllShaped(pools) && |usable| == |pools|
    ensures var placed := PlaceMember(pools, usable, spec);
            && (placed.None? <==> forall option, n | option in GpuOptions(spec) && 0 <= n < |pools| && usable[n] ::
                                    Reserve(pools[n], option).None?)
            && (placed.Some? ==>
                  exists k, node | 0 <= k < |GpuOptions(spec)| && node == placed.value.node ::
                    && 0 <= node < |pools| && usable[node]
                    && Reserve(pools[node], GpuOptions(spec)[k]) == Some(placed.value.allocation)
                    && (forall n | 0 <= n < node && usable[n] :: Reserve(pools[n], GpuOptions(spec)[k]).None?)
                    && (forall j, n | 0 <= j < k && 0 <= n < |pools| && usable[n] ::
                          Reserve(pools[n], GpuOptions(spec)[j]).None?))
  {
    PlaceMemberMeets(pools, usable, spec);
    var placed := PlaceMember(pools, usable, spec);
    if placed.None? {
      forall option, n | option in GpuOptions(spec) && 0 <= n < |pools| && usable[n] ensures Reserve(pools[n], option).None? {
        assert !FitsOn(pools, usable, option, n);
      }
    } else {
      var node := placed.value.node;
      var k :| 0 <= k < |GpuOptions(spec)| && FitsOn(pools, usable, GpuOptions(spec)[k], node)
               && Reserve(pools[node], GpuOptions(spec)[k]) == Some(placed.value.allocation)
               && (forall n: nat | n < node :: !FitsOn(pools, usable, GpuOptions(spec)[k], n))
               && (forall j, n: nat | 0 <= j < k :: !FitsOn(pools, usable, GpuOptions(spec)[j], n));
      assert GpuOptions(spec)[k] in GpuOptions(spec);
      forall n | 0 <= n < node && usable[n] ensures Reserve(pools[n], GpuOptions(spec)[k]).None? {
        assert !FitsOn(pools, usable, GpuOptions(spec)[k], n);
      }
      forall j, n | 0 <= j < k && 0 <= n < |pools| && usable[n] ensures Reserve(pools[n], GpuOptions(spec)[j]).None? {
        assert !FitsOn(pools, usable, GpuOptions(spec)[j], n);
      }
    }
  }

  // What a node has room for by its totals

  /** So many cards together hold so much VRAM, each its part. */
  predicate EnoughCards(total: SystemResources, vramMb: nat, count: nat) {
    |set i: nat | i < |total.gpus| && total.gpus[i].vramMb > 0 && total.gpus[i].vramMb * count >= vramMb| >= count
  }

  /** The CPU, the memory, and as many cards as asked for, or some number of them when only their VRAM is. */
  predicate RoomFor(total: SystemResources, spec: ResourceSpec) {
    && total.cpuCores >= spec.cpu && total.memoryMb >= spec.memoryMb
    && if spec.gpu > 0 || spec.vramMb == 0 then EnoughCards(total, spec.vramMb, spec.gpu)
       else || EnoughCards(total, spec.vramMb, 1) || EnoughCards(total, spec.vramMb, 2)
            || EnoughCards(total, spec.vramMb, 4) || EnoughCards(total, spec.vramMb, 8)
  }

  lemma MatchingCardsAre(total: SystemResources, spec: ResourceSpec)
    requires spec.gpu > 0
    ensures MatchingCards(total, spec) ==
            set i: nat | i < |total.gpus| && total.gpus[i].vramMb > 0 && total.gpus[i].vramMb * spec.gpu >= spec.vramMb
  {
    forall i: nat | i < |total.gpus|
      ensures total.gpus[i].vramMb >= VramPerGpu(spec) <==> total.gpus[i].vramMb * spec.gpu >= spec.vramMb
    {
      HoldsItsShare(spec, total.gpus[i].vramMb);
    }
  }

  lemma CouldFitIff(total: SystemResources, option: ResourceSpec)
    ensures CouldFit(total, option) <==>
            total.cpuCores >= option.cpu && total.memoryMb >= option.memoryMb
            && EnoughCards(total, option.vramMb, option.gpu)
  {
    if option.gpu > 0 {
      MatchingCardsAre(total, option);
    }
  }

  /** Room for the job is room for one of the options that are tried. */
  lemma RoomIffSomeOption(total: SystemResources, spec: ResourceSpec)
    ensures RoomFor(total, spec) <==> exists option | option in GpuOptions(spec) :: CouldFit(total, option)
  {
    OptionsAre(spec);
    var options := GpuOptions(spec);
    forall option | option in options
      ensures CouldFit(total, option) <==> total.cpuCores >= spec.cpu && total.memoryMb >= spec.memoryMb
                                           && EnoughCards(total, spec.vramMb, option.gpu)
    {
      CouldFitIff(total, option);
    }
    if spec.gpu == 0 && spec.vramMb > 0 {
      assert options[0] in options && options[1] in options && options[2] in options && options[3] in options;
    } else {
      assert options[0] in options;
    }
  }

  function Taken(pools: seq<PoolState>, placed: Placed): (now: seq<PoolState>)
    ensures |now| == |pools| && (AllShaped(pools) ==> AllShaped(now))
  {
    if placed.node < |pools| then pools[placed.node := Booked(pools[placed.node], placed.allocation)] else pools
  }

  lemma PlaceMemberTakes(pools: seq<PoolState>, usable: seq<bool>, spec: ResourceSpec, placed: Placed)
    requires AllWellFormed(pools) && |usable| == |pools| && PlaceMember(pools, usable, spec) == Some(placed)
    ensures placed.node < |pools| && usable[placed.node]
    ensures WholeCards(pools[placed.node].total, placed.allocation.gpus) && Holds(pools[placed.node], placed.allocation)
    ensures AllWellFormed(Taken(pools, placed)) && AllShaped(Taken(pools, placed))
  {
    PlaceMemberMeets(pools, usable, spec);
    var k :| 0 <= k < |GpuOptions(spec)| && FitsOn(pools, usable, GpuOptions(spec)[k], placed.node)
             && Reserve(pools[placed.node], GpuOptions(spec)[k]) == Some(placed.allocation);
    ReservationMeets(pools[placed.node], GpuOptions(spec)[k], placed.allocation);
    StaysWellFormed(pools[placed.node], Booked(pools[placed.node], placed.allocation));
  }

  /** The members placed one after another, or None when one fits nowhere. */
  function PlaceAll(pools: seq<PoolState>, usable: seq<bool>, members: seq<ResourceSpec>): Option<seq<Placed>>
    requires AllShaped(pools) && |usable| == |pools|
    decreases |members|
  {
    if members == [] then Some([])
    else match PlaceMember(pools, usable, members[0])
         case None => None
         case Some(member) => Prepend([member], PlaceAll(Taken(pools, member), usable, members[1..]))
  }

  lemma PlaceNone(pools: seq<PoolState>, usable: seq<bool>, members: seq<ResourceSpec>)
    requires AllShaped(pools) && |usable| == |pools| && members == []
    ensures PlaceAll(pools, usable, members) == Some([])
  {
  }

  lemma PlaceSingle(pools: seq<PoolState>, usable: seq<bool>, spec: ResourceSpec)
    requires AllShaped(pools) && |usable| == |pools|
    ensures PlaceMember(pools, usable, spec).None? ==> PlaceAll(pools, usable, [spec]).None?
    ensures PlaceMember(pools, usable, spec).Some? ==>
              PlaceAll(pools, usable, [spec]) == Some([PlaceMember(pools, usable, spec).value])
  {
    var members := [spec];
    assert members[0] == spec;
    match PlaceMember(pools, usable, members[0])
    case None =>
    case Some(member) =>
      PlaceNone(Taken(pools, member), usable, members[1..]);
      assert PlaceAll(pools, usable, members) == Prepend([member], Some([]));
      assert [member] + [] == [member];
  }

  function Prepend(front: seq<Placed>, rest: Option<seq<Placed>>): Option<seq<Placed>> {
    match rest
    case None => None
    case Some(placed) => Some(front + placed)
  }

  lemma PrependNothing(rest: Option<seq<Placed>>)
    ensures Prepend([], rest) == rest
  {
    if rest.Some? {
      assert [] + rest.value == rest.value;
    }
  }

  function TakenAll(pools: seq<PoolState>, placed: seq<Placed>): seq<PoolState> {
    if placed == [] then pools else Taken(TakenAll(pools, placed[..|placed| - 1]), placed[|placed| - 1])
  }

  lemma {:induction false} TakenAllFromFront(pools: seq<PoolState>, first: Placed, rest: seq<Placed>)
    ensures TakenAll(pools, [first] + rest) == TakenAll(Taken(pools, first), rest)
    decreases |rest|
  {
    var all := [first] + rest;
    if rest == [] {
      assert all[..0] == [];
    } else {
      TakenAllFromFront(pools, first, rest[..|rest| - 1]);
      assert all[..|all| - 1] == [first] + rest[..|rest| - 1];
    }
  }

  lemma {:induction false} TakenAllShaped(pools: seq<PoolState>, placed: seq<Placed>)
    requires AllShaped(pools)
    ensures AllShaped(TakenAll(pools, placed)) && |TakenAll(pools, placed)| == |pools|
    decreases |placed|
  {
    if placed != [] {
      TakenAllShaped(pools, placed[..|placed| - 1]);
    }
  }

  /** Every member gets what it would get alone on what the earlier ones left. */
  lemma {:induction false} PlaceAllMeets(pools: seq<PoolState>, usable: seq<bool>, members: seq<ResourceSpec>,
                                         placed: seq<Placed>, i: nat)
    requires AllShaped(pools) && |usable| == |pools| && PlaceAll(pools, usable, members) == Some(placed) && i < |members|
    ensures |placed| == |members|
    ensures AllShaped(TakenAll(pools, placed[..i])) && |TakenAll(pools, placed[..i])| == |pools|
    ensures PlaceMember(TakenAll(pools, placed[..i]), usable, members[i]) == Some(placed[i])
    decreases |members|
  {
    var first := PlaceMember(pools, usable, members[0]).value;
    var rest := PlaceAll(Taken(pools, first), usable, members[1..]).value;
    assert placed == [first] + rest;
    if |members| > 1 {
      PlaceAllMeets(Taken(pools, first), usable, members[1..], rest, if i > 0 then i - 1 else 0);
    } else {
      PlaceNone(Taken(pools, first), usable, members[1..]);
    }
    TakenAllShaped(pools, placed[..i]);
    if i > 0 {
      assert placed[..i] == [first] + rest[..i - 1] && members[i] == members[1..][i - 1];
      TakenAllFromFront(pools, first, rest[..i - 1]);
    }
  }

  // Rolling back

  /** How much of a node's resource these members hold. */
  function Owed(placed: seq<Placed>, node: nat, res: Resource): nat {
    if placed == [] then 0
    else (if placed[0].node == node then Amount(placed[0].allocation, res) else 0) + Owed(placed[1..], node, res)
  }

  lemma {:induction false} OwedAppend(placed: seq<Placed>, member: Placed, node: nat, res: Resource)
    ensures Owed(placed + [member], node, res) ==
            Owed(placed, node, res) + (if member.node == node then Amount(member.allocation, res) else 0)
    decreases placed
  {
    if placed != [] {
      assert (placed + [member])[1..] == placed[1..] + [member];
      OwedAppend(placed[1..], member, node, res);
    }
  }

  ghost predicate SameShape(p: PoolState, q: PoolState) {
    p.total == q.total && p.blocked == q.blocked && |p.availableVramMb| == |q.availableVramMb|
  }

  /** `now` is `before` less what `placed` holds. */
  ghost predicate Less(before: seq<PoolState>, placed: seq<Placed>, now: seq<PoolState>) {
    && |now| == |before|
    && (forall n | 0 <= n < |now| :: SameShape(now[n], before[n]))
    && (forall i | 0 <= i < |placed| ::
          placed[i].node < |before| && WholeCards(before[placed[i].node].total, placed[i].allocation.gpus))
    && forall n: nat, res | n < |now| :: Available(now[n], res) + Owed(placed, n, res) == Available(before[n], res)
  }

  lemma LessOneMore(before: seq<PoolState>, placed: seq<Placed>, now: seq<PoolState>, member: Placed)
    requires Less(before, placed, now)
    requires member.node < |now| && WholeCards(before[member.node].total, member.allocation.gpus)
    requires Holds(now[member.node], member.allocation)
    ensures Less(before, placed + [member], Taken(now, member))
  {
    var then' := Taken(now, member);
    forall n: nat, res | n < |now|
      ensures Available(then'[n], res) + Owed(placed + [member], n, res) == Available(before[n], res)
    {
      OwedAppend(placed, member, n, res);
      assert Available(now[n], res) + Owed(placed, n, res) == Available(before[n], res);
      assert n == member.node ==> Amount(member.allocation, res) <= Available(now[n], res);
    }
  }

  /** Giving the first member back leaves the rest. */
  lemma LessOneFewer(before: seq<PoolState>, placed: seq<Placed>, now: seq<PoolState>)
    requires AllWellFormed(before) && Less(before, placed, now) && placed != []
    ensures placed[0].node < |now|
    ensures forall res :: Available(now[placed[0].node], res) + Amount(placed[0].allocation, res)
                          <= Capacity(now[placed[0].node].total, res)
    ensures Less(before, placed[1..], now[placed[0].node := Released(now[placed[0].node], placed[0].allocation)])
  {
    var node, alloc := placed[0].node, placed[0].allocation;
    var then' := now[node := Released(now[node], alloc)];
    forall n: nat, res | n < |now|
      ensures Available(then'[n], res) + Owed(placed[1..], n, res) == Available(before[n], res) {
      assert Available(now[n], res) + Owed(placed, n, res) == Available(before[n], res);
      if n == node && res.Card? && res.index >= |now[n].availableVramMb| {
        CardVramOfWhole(before[node].total, alloc.gpus, res.index);
      }
    }
    forall res ensures Available(now[node], res) + Amount(alloc, res) <= Capacity(now[node].total, res) {
      assert Available(now[node], res) + Owed(placed, node, res) == Available(before[node], res);
      assert Available(before[node], res) <= Capacity(before[node].total, res);
    }
    forall i | 0 <= i < |placed[1..]| ensures placed[1..][i].node < |before|
      && WholeCards(before[placed[1..][i].node].total, placed[1..][i].allocation.gpus)
    {
      assert placed[1..][i] == placed[i + 1];
    }
  }

  lemma LessNothing(before: seq<PoolState>, now: seq<PoolState>)
    requires Less(before, [], now)
    ensures now == before
  {
    forall n | 0 <= n < |now| ensures now[n] == before[n] {
      forall res ensures Available(now[n], res) == Available(before[n], res) {
        assert Available(now[n], res) + Owed([], n, res) == Available(before[n], res);
      }
      SamePool(now[n], before[n]);
    }
  }

  // The code's loops over the nodes' pools

  ghost predicate Pools(pools: seq<ResourcePool>)
    reads pools
  {
    && (forall i, j | 0 <= i < j < |pools| :: pools[i] != pools[j])
    && forall i | 0 <= i < |pools| :: pools[i].Valid()
  }

  function States(pools: seq<ResourcePool>): (states: seq<PoolState>)
    reads pools
    ensures |states| == |pools| && forall i | 0 <= i < |pools| :: states[i] == pools[i].State()
  {
    seq(|pools|, i requires 0 <= i < |pools| reads pools => pools[i].State())
  }

  method TryNode(pools: seq<ResourcePool>, node: nat, option: ResourceSpec) returns (r: Option<Allocation>)
    requires Pools(pools) && node < |pools|
    modifies pools[node]
    ensures Pools(pools)
    ensures r == Reserve(old(States(pools))[node], option)
    ensures States(pools) == if r.Some? then Taken(old(States(pools)), Placed(node, r.value)) else old(States(pools))
  {
    r := pools[node].TryReserve(option);
  }

  /** The first usable node that can take one option; a node that can't is left as it was. */
  method TryNodes(pools: seq<ResourcePool>, usable: seq<bool>, option: ResourceSpec) returns (r: Option<Placed>)
    requires Pools(pools) && |usable| == |pools|
    modifies pools
    ensures Pools(pools)
    ensures r == FirstNode(old(States(pools)), usable, option, 0)
    ensures r.Some? ==> States(pools) == Taken(old(States(pools)), r.value)
    ensures r.None? ==> States(pools) == old(States(pools))
  {
    ghost var before := States(pools);
    for node := 0 to |pools|
      invariant Pools(pools) && States(pools) == before
      invariant FirstNode(before, usable, option, 0) == FirstNode(before, usable, option, node)
    {
      if usable[node] {
        var found := TryNode(pools, node, option);
        if found.Some? {
          return Some(Placed(node, found.value));
        }
      }
    }
    return None;
  }

  /** The first option that some node can give, from the fewest cards on. */
  method TryOptions(pools: seq<ResourcePool>, usable: seq<bool>, spec: ResourceSpec) returns (r: Option<Placed>)
    requires Pools(pools) && |usable| == |pools|
    modifies pools
    ensures Pools(pools)
    ensures r == PlaceMember(old(States(pools)), usable, spec)
    ensures r.Some? ==> States(pools) == Taken(old(States(pools)), r.value)
    ensures r.None? ==> States(pools) == old(States(pools))
  {
    ghost var before := States(pools);
    var options := GpuOptions(spec);
    for i := 0 to |options|
      invariant Pools(pools) && States(pools) == before
      invariant FirstOption(before, usable, options, 0) == FirstOption(before, usable, options, i)
    {
      r := TryNodes(pools, usable, options[i]);
      if r.Some? {
        return;
      }
    }
    return None;
  }

  /** Give every placed member's allocation back. */
  method RollBack(pools: seq<ResourcePool>, placed: seq<Placed>, ghost before: seq<PoolState>)
    requires Pools(pools) && AllWellFormed(before) && Less(before, placed, States(pools))
    modifies pools
    ensures Pools(pools) && States(pools) == before
  {
    for i := 0 to |placed|
      invariant Pools(pools) && Less(before, placed[i..], States(pools))
    {
      ghost var now := States(pools);
      LessOneFewer(before, placed[i..], now);
      assert placed[i..][0] == placed[i] && placed[i..][1..] == placed[i + 1..];
      var node := placed[i].node;
      assert SameShape(now[node], before[node]) && pools[node].State() == now[node];
      pools[node].Release(placed[i].allocation);
      assert States(pools) == now[node := Released(now[node], placed[i].allocation)];
    }
    LessNothing(before, States(pools));
  }

  /** One more member taken off the pools. */
  lemma TakeNext(before: seq<PoolState>, usable: seq<bool>, spec: ResourceSpec, placed: seq<Placed>,
                 now: seq<PoolState>, member: Placed)
    requires AllWellFormed(now) && AllShaped(now) && |usable| == |now|
    requires Less(before, placed, now) && now == TakenAll(before, placed)
    requires PlaceMember(now, usable, spec) == Some(member)
    ensures Less(before, placed + [member], Taken(now, member))
    ensures Taken(now, member) == TakenAll(before, placed + [member])
  {
    PlaceMemberTakes(now, usable, spec, member);
    assert SameShape(now[member.node], before[member.node]);
    LessOneMore(before, placed, now, member);
    assert (placed + [member])[..|placed|] == placed;
  }

  /** One more member out of those left to place. */
  lemma PlaceNext(pools: seq<PoolState>, usable: seq<bool>, members: seq<ResourceSpec>, placed: seq<Placed>, member: Placed)
    requires AllShaped(pools) && |usable| == |pools| && members != []
    requires PlaceMember(pools, usable, members[0]) == Some(member)
    ensures Prepend(placed, PlaceAll(pools, usable, members)) ==
            Prepend(placed + [member], PlaceAll(Taken(pools, member), usable, members[1..]))
  {
    var rest := PlaceAll(Taken(pools, member), usable, members[1..]);
    if rest.Some? {
      assert placed + ([member] + rest.value) == (placed + [member]) + rest.value;
    }
  }

  /** Place one more member, or undo the earlier ones. */
  method PlaceOrUndo(pools: seq<ResourcePool>, usable: seq<bool>, spec: ResourceSpec, placed: seq<Placed>,
                     ghost before: seq<PoolState>) returns (r: Option<Placed>)
    requires Pools(pools) && |usable| == |pools| && AllWellFormed(before)
    requires States(pools) == TakenAll(before, placed) && Less(before, placed, States(pools))
    modifies pools
    ensures Pools(pools)
    ensures r == PlaceMember(old(States(pools)), usable, spec)
    ensures r.None? ==> States(pools) == before
    ensures r.Some? ==> States(pools) == Taken(old(States(pools)), r.value) == TakenAll(before, placed + [r.value])
    ensures r.Some? ==> Less(before, placed + [r.value], States(pools))
  {
    ghost var now := States(pools);
    r := TryOptions(pools, usable, spec);
    if r.None? {
      RollBack(pools, placed, before);
    } else {
      TakeNext(before, usable, spec, placed, now, r.value);
    }
  }

  /** All members placed, or nothing changed. */
  method Place(pools: seq<ResourcePool>, usable: seq<bool>, members: seq<ResourceSpec>) returns (r: Option<seq<Placed>>)
    requires Pools(pools) && |usable| == |pools|
    modifies pools
    ensures Pools(pools)
    ensures r == PlaceAll(old(States(pools)), usable, members)
    ensures States(pools) == if r.Some? then TakenAll(old(States(pools)), r.value) else old(States(pools))
  {
    ghost var before := States(pools);
    var placed: seq<Placed> := [];
    assert members[0..] == members;
    PrependNothing(PlaceAll(before, usable, members));
    for i := 0 to |members|
      invariant Pools(pools)
      invariant States(pools) == TakenAll(before, placed) && Less(before, placed, States(pools))
      invariant PlaceAll(before, usable, members) == Prepend(placed, PlaceAll(States(pools), usable, members[i..]))
    {
      ghost var now := States(pools);
      assert members[i..][0] == members[i] && members[i..][1..] == members[i + 1..];
      var found := PlaceOrUndo(pools, usable, members[i], placed, before);
      if found.None? {
        return None;
      }
      PlaceNext(now, usable, members[i..], placed, found.value);
      placed := placed + [found.value];
    }
    PlacedEverything(States(pools), usable, placed, members[|members|..]);
    return Some(placed);
  }

  lemma PlacedEverything(pools: seq<PoolState>, usable: seq<bool>, placed: seq<Placed>, rest: seq<ResourceSpec>)
    requires AllShaped(pools) && |usable| == |pools| && rest == []
    ensures Prepend(placed, PlaceAll(pools, usable, rest)) == Some(placed)
  {
    assert placed + [] == placed;
  }
}

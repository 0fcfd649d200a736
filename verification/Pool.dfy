/** One node's free resources: src/resource/pool.rs. */
module Pool {
  import opened Wrappers
  import opened Spec

  datatype GpuInfo = GpuInfo(index: u32, vramMb: u64)

  datatype SystemResources = SystemResources(cpuCores: u32, memoryMb: u64, gpus: seq<GpuInfo>)

  datatype GpuAllocation = GpuAllocation(index: u32, vramMb: u64)

  datatype Allocation = Allocation(cpu: u32, memoryMb: u64, gpus: seq<GpuAllocation>)

  /** The pool's fields as a value. */
  datatype PoolState = PoolState(total: SystemResources, availableCpu: nat, availableMemoryMb: nat,
                                 availableVramMb: seq<nat>, blocked: seq<bool>)

  /** The pool indexes its vectors by `gpu.index`, so card i must be listed i-th. */
  ghost predicate WellIndexed(total: SystemResources) {
    forall i | 0 <= i < |total.gpus| :: total.gpus[i].index == i
  }

  /** One entry per card. */
  predicate Shaped(p: PoolState) {
    |p.availableVramMb| == |p.blocked| == |p.total.gpus|
  }

  ghost predicate WellFormed(p: PoolState) {
    && WellIndexed(p.total)
    && Shaped(p)
    && forall res: Resource :: Available(p, res) <= Capacity(p.total, res)
  }

  // CPU, memory and each card are accounted for in the same way

  datatype Resource = Cpu | Memory | Card(index: nat)

  function CardVram(gpus: seq<GpuAllocation>, index: nat): nat {
    if gpus == [] then 0
    else CardVram(gpus[..|gpus| - 1], index) + (if gpus[|gpus| - 1].index == index then gpus[|gpus| - 1].vramMb else 0)
  }

  function Amount(alloc: Allocation, res: Resource): nat {
    match res
    case Cpu => alloc.cpu
    case Memory => alloc.memoryMb
    case Card(i) => CardVram(alloc.gpus, i)
  }

  function Available(p: PoolState, res: Resource): nat {
    match res
    case Cpu => p.availableCpu
    case Memory => p.availableMemoryMb
    case Card(i) => if i < |p.availableVramMb| then p.availableVramMb[i] else 0
  }

  function Capacity(total: SystemResources, res: Resource): nat {
    match res
    case Cpu => total.cpuCores
    case Memory => total.memoryMb
    case Card(i) => if i < |total.gpus| then total.gpus[i].vramMb else 0
  }

  /** Whole cards of this machine, each at most once, lowest index first. */
  ghost predicate WholeCards(total: SystemResources, gpus: seq<GpuAllocation>) {
    && (forall i | 0 <= i < |gpus| ::
          gpus[i].index < |total.gpus| && gpus[i].vramMb == total.gpus[gpus[i].index].vramMb && gpus[i].vramMb > 0)
    && forall i, j | 0 <= i < j < |gpus| :: gpus[i].index < gpus[j].index
  }

  /** A card an allocation mentions is held whole, any other not at all. */
  lemma CardVramOfWhole(total: SystemResources, gpus: seq<GpuAllocation>, index: nat)
    requires WholeCards(total, gpus)
    ensures CardVram(gpus, index) == if exists i :: 0 <= i < |gpus| && gpus[i].index == index
                                     then Capacity(total, Card(index)) else 0
    ensures CardVram(gpus, index) > 0 <==> exists i :: 0 <= i < |gpus| && gpus[i].index == index
  {
    if gpus != [] {
      var rest := gpus[..|gpus| - 1];
      CardVramOfWhole(total, rest, index);
      if i :| 0 <= i < |rest| && rest[i].index == index {
        assert gpus[i].index == index;
      }
    }
  }

  lemma SamePool(p: PoolState, q: PoolState)
    requires p.total == q.total && p.blocked == q.blocked && |p.availableVramMb| == |q.availableVramMb|
    requires forall res: Resource :: Available(p, res) == Available(q, res)
    ensures p == q
  {
    assert Available(p, Cpu) == Available(q, Cpu) && Available(p, Memory) == Available(q, Memory);
    forall i | 0 <= i < |p.availableVramMb| ensures p.availableVramMb[i] == q.availableVramMb[i] {
      assert Available(p, Card(i)) == Available(q, Card(i));
    }
  }

  // What the operations do to a pool

  function NewPool(total: SystemResources): PoolState {
    PoolState(total, total.cpuCores, total.memoryMb,
              seq(|total.gpus|, i requires 0 <= i < |total.gpus| => total.gpus[i].vramMb as nat),
              seq(|total.gpus|, i => false))
  }

  /** `release`, whose additions the caller keeps within the totals. */
  function Released(p: PoolState, alloc: Allocation): (q: PoolState)
    ensures q.total == p.total && q.blocked == p.blocked && |q.availableVramMb| == |p.availableVramMb|
    ensures forall res: Resource | res.Card? ==> res.index < |p.availableVramMb| ::
              Available(q, res) == Available(p, res) + Amount(alloc, res)
  {
    p.(availableCpu := p.availableCpu + alloc.cpu,
       availableMemoryMb := p.availableMemoryMb + alloc.memoryMb,
       availableVramMb := seq(|p.availableVramMb|, i requires 0 <= i < |p.availableVramMb| =>
                                p.availableVramMb[i] + CardVram(alloc.gpus, i)))
  }

  function Saturating(a: nat, b: nat): nat {
    if a < b then 0 else a - b
  }

  /** `book`, which can't refuse: it stops at zero and skips cards the machine doesn't have. */
  function Booked(p: PoolState, alloc: Allocation): (q: PoolState)
    ensures q.total == p.total && q.blocked == p.blocked && |q.availableVramMb| == |p.availableVramMb|
    ensures forall res: Resource :: Available(q, res) == Saturating(Available(p, res), Amount(alloc, res))
  {
    p.(availableCpu := Saturating(p.availableCpu, alloc.cpu),
       availableMemoryMb := Saturating(p.availableMemoryMb, alloc.memoryMb),
       availableVramMb := seq(|p.availableVramMb|, i requires 0 <= i < |p.availableVramMb| =>
                                Saturating(p.availableVramMb[i], CardVram(alloc.gpus, i))))
  }

  /** Booking whole cards leaves nothing of them, and the others as they were. */
  lemma BookedCards(p: PoolState, alloc: Allocation, i: nat)
    requires WellFormed(p) && WholeCards(p.total, alloc.gpus) && i < |p.total.gpus|
    ensures Booked(p, alloc).availableVramMb[i] == if i in Indices(alloc.gpus) then 0 else p.availableVramMb[i]
  {
    var q := Booked(p, alloc);
    assert Available(q, Card(i)) == Saturating(Available(p, Card(i)), Amount(alloc, Card(i)));
    assert Available(p, Card(i)) <= Capacity(p.total, Card(i));
    CardVramOfWhole(p.total, alloc.gpus, i);
  }

  /** All of the allocation is free. */
  ghost predicate Holds(p: PoolState, alloc: Allocation) {
    forall res: Resource :: Amount(alloc, res) <= Available(p, res)
  }

  /** Giving back what was booked undoes the booking, as long as booking cut nothing off. */
  lemma ReleaseUndoesBook(p: PoolState, alloc: Allocation)
    requires Holds(p, alloc)
    ensures Released(Booked(p, alloc), alloc) == p
  {
    var q := Released(Booked(p, alloc), alloc);
    forall res: Resource ensures Available(q, res) == Available(p, res) {
      assert Available(Booked(p, alloc), res) == Saturating(Available(p, res), Amount(alloc, res));
    }
    SamePool(q, p);
  }

  /** A card that may be handed out to a request whose cards hold `share` each. */
  predicate CardFits(p: PoolState, share: nat, index: nat)
    requires Shaped(p)
  {
    && index < |p.total.gpus|
    && p.total.gpus[index].vramMb > 0
    && p.availableVramMb[index] == p.total.gpus[index].vramMb
    && !p.blocked[index]
    && p.total.gpus[index].vramMb >= share
  }

  /** The first `count` fitting cards from `index` on, or all of them when there are fewer. */
  function Select(p: PoolState, share: nat, index: nat, count: nat): (gpus: seq<GpuAllocation>)
    requires Shaped(p) && index <= |p.total.gpus|
    decreases |p.total.gpus| - index
  {
    if index == |p.total.gpus| || count == 0 then
      []
    else if CardFits(p, share, index) then
      [GpuAllocation(p.total.gpus[index].index, p.total.gpus[index].vramMb)] + Select(p, share, index + 1, count - 1)
    else
      Select(p, share, index + 1, count)
  }

  /** Every card of `gpus` fits and comes from `index` or later. */
  ghost predicate AllFit(p: PoolState, share: nat, index: nat, gpus: seq<GpuAllocation>)
    requires Shaped(p)
  {
    forall i | 0 <= i < |gpus| :: index <= gpus[i].index && CardFits(p, share, gpus[i].index)
  }

  lemma {:induction false} SelectFits(p: PoolState, share: nat, index: nat, count: nat)
    requires WellFormed(p) && index <= |p.total.gpus|
    ensures |Select(p, share, index, count)| <= count
    ensures WholeCards(p.total, Select(p, share, index, count))
    ensures AllFit(p, share, index, Select(p, share, index, count))
    decreases |p.total.gpus| - index
  {
    if index < |p.total.gpus| && count > 0 {
      if CardFits(p, share, index) {
        SelectFits(p, share, index + 1, count - 1);
        var rest, gpus := Select(p, share, index + 1, count - 1), Select(p, share, index, count);
        assert gpus[0].index == index && forall i | 1 <= i < |gpus| :: gpus[i] == rest[i - 1];
      } else {
        SelectFits(p, share, index + 1, count);
      }
    }
  }

  lemma IndicesOfCons(gpu: GpuAllocation, rest: seq<GpuAllocation>)
    ensures Indices([gpu] + rest) == {gpu.index as nat} + Indices(rest)
  {
    var gpus := [gpu] + rest;
    assert gpus[0] == gpu;
    forall k | k in Indices(rest) ensures k in Indices(gpus) {
      var i :| 0 <= i < |rest| && rest[i].index as nat == k;
      assert gpus[i + 1] == rest[i];
    }
  }

  /** A fitting card passed over means the request was already met by lower ones. */
  lemma {:induction false} SelectIsLowest(p: PoolState, share: nat, index: nat, count: nat, k: nat)
    requires WellFormed(p) && index <= |p.total.gpus|
    requires index <= k && CardFits(p, share, k) && k !in Indices(Select(p, share, index, count))
    ensures |Select(p, share, index, count)| == count
    ensures forall l | l in Indices(Select(p, share, index, count)) :: l < k
    decreases |p.total.gpus| - index
  {
    if count > 0 {
      if CardFits(p, share, index) {
        var rest := Select(p, share, index + 1, count - 1);
        IndicesOfCons(GpuAllocation(p.total.gpus[index].index, p.total.gpus[index].vramMb), rest);
        SelectIsLowest(p, share, index + 1, count - 1, k);
      } else {
        SelectIsLowest(p, share, index + 1, count, k);
      }
    }
  }

  function Indices(gpus: seq<GpuAllocation>): set<nat> {
    set i | 0 <= i < |gpus| :: gpus[i].index as nat
  }

  function TryFindGpus(p: PoolState, spec: ResourceSpec): (r: Option<seq<GpuAllocation>>)
    requires Shaped(p)
  {
    var selected := Select(p, VramPerGpu(spec), 0, spec.gpu);
    if |selected| == spec.gpu then Some(selected) else None
  }

  function Reserve(p: PoolState, spec: ResourceSpec): (r: Option<Allocation>)
    requires Shaped(p)
  {
    if p.availableCpu < spec.cpu || p.availableMemoryMb < spec.memoryMb then None
    else match TryFindGpus(p, spec)
         case None => None
         case Some(gpus) => Some(Allocation(spec.cpu, spec.memoryMb, gpus))
  }

  predicate CanAdmit(p: PoolState, spec: ResourceSpec)
    requires Shaped(p)
  {
    TryFindGpus(p, spec).Some? && p.availableCpu >= spec.cpu && p.availableMemoryMb >= spec.memoryMb
  }

  function MatchingCards(total: SystemResources, spec: ResourceSpec): set<nat> {
    set i: nat | i < |total.gpus| && total.gpus[i].vramMb > 0 && total.gpus[i].vramMb >= VramPerGpu(spec)
  }

  /** Whether the request could ever fit, by the node's totals. */
  predicate CouldFit(total: SystemResources, spec: ResourceSpec) {
    && total.cpuCores >= spec.cpu
    && total.memoryMb >= spec.memoryMb
    && |MatchingCards(total, spec)| >= spec.gpu
  }

  // What a reservation means

  function FittingCards(p: PoolState, spec: ResourceSpec): set<nat>
    requires Shaped(p)
  {
    set i: nat | i < |p.total.gpus| && CardFits(p, VramPerGpu(spec), i)
  }

  lemma {:induction false} IndicesCount(total: SystemResources, gpus: seq<GpuAllocation>)
    requires WholeCards(total, gpus)
    ensures |Indices(gpus)| == |gpus|
  {
    if gpus != [] {
      var rest := gpus[..|gpus| - 1];
      IndicesCount(total, rest);
      var last := gpus[|gpus| - 1].index as nat;
      assert Indices(gpus) == Indices(rest) + {last} by {
        forall i | 0 <= i < |rest| ensures gpus[i].index as nat in Indices(rest) {
          assert rest[i] == gpus[i];
        }
      }
      assert last !in Indices(rest);
    }
  }

  lemma SubsetSize<T>(a: set<T>, b: set<T>)
    requires a <= b
    ensures |a| <= |b|
    ensures |a| == |b| ==> a == b
  {
    assert b == a + (b - a);
    assert |b| == |a| + |b - a|;
  }

  /** Enough fitting cards, and only then. */
  lemma SelectsWhenEnough(p: PoolState, spec: ResourceSpec)
    requires WellFormed(p)
    ensures TryFindGpus(p, spec).Some? <==> |FittingCards(p, spec)| >= spec.gpu
  {
    var gpus := Select(p, VramPerGpu(spec), 0, spec.gpu);
    SelectFits(p, VramPerGpu(spec), 0, spec.gpu);
    IndicesCount(p.total, gpus);
    SubsetSize(Indices(gpus), FittingCards(p, spec));
    if |gpus| < spec.gpu {
      forall k | k in FittingCards(p, spec) ensures k in Indices(gpus) {
        if k !in Indices(gpus) {
          SelectIsLowest(p, VramPerGpu(spec), 0, spec.gpu, k);
        }
      }
      assert Indices(gpus) == FittingCards(p, spec);
    }
  }

  /** A card holds its share exactly when as many cards like it hold the whole. */
  lemma HoldsItsShare(spec: ResourceSpec, vramMb: nat)
    requires spec.gpu > 0
    ensures vramMb >= VramPerGpu(spec) <==> vramMb * spec.gpu >= spec.vramMb
  {
    SharesCover(spec);
    if vramMb >= VramPerGpu(spec) {
      ProductsRise(VramPerGpu(spec), vramMb, spec.gpu, spec.gpu);
    } else {
      ProductsRise(vramMb, VramPerGpu(spec) - 1, spec.gpu, spec.gpu);
    }
  }

  /** Which cards fit: any that reports VRAM, is wholly free, not blocked itself, and holds its part of the request. */
  lemma FittingCardsAre(p: PoolState, spec: ResourceSpec)
    requires WellFormed(p) && spec.gpu > 0
    ensures FittingCards(p, spec) ==
            set i: nat | && i < |p.total.gpus| && p.total.gpus[i].vramMb > 0
                         && p.availableVramMb[i] == p.total.gpus[i].vramMb && !p.blocked[i]
                         && p.total.gpus[i].vramMb * spec.gpu >= spec.vramMb
  {
    forall i: nat | i < |p.total.gpus|
      ensures p.total.gpus[i].vramMb >= VramPerGpu(spec) <==> p.total.gpus[i].vramMb * spec.gpu >= spec.vramMb
    {
      HoldsItsShare(spec, p.total.gpus[i].vramMb);
    }
  }

  /** Reserving succeeds exactly when CPU, memory and enough fitting cards are free. */
  lemma ReserveIffEnough(p: PoolState, spec: ResourceSpec)
    requires WellFormed(p)
    ensures Reserve(p, spec).Some? <==>
            p.availableCpu >= spec.cpu && p.availableMemoryMb >= spec.memoryMb && |FittingCards(p, spec)| >= spec.gpu
    ensures CanAdmit(p, spec) <==> Reserve(p, spec).Some?
  {
    SelectsWhenEnough(p, spec);
  }

  /** The same in terms of what is free: the CPU, the memory and as many cards as asked for. */
  lemma ReserveIffFree(p: PoolState, spec: ResourceSpec)
    requires WellFormed(p)
    ensures Reserve(p, spec).Some? <==>
            && p.availableCpu >= spec.cpu && p.availableMemoryMb >= spec.memoryMb
            && |set i: nat | && i < |p.total.gpus| && p.total.gpus[i].vramMb > 0
                             && p.availableVramMb[i] == p.total.gpus[i].vramMb && !p.blocked[i]
                             && p.total.gpus[i].vramMb * spec.gpu >= spec.vramMb| >= spec.gpu
  {
    ReserveIffEnough(p, spec);
    if spec.gpu > 0 {
      FittingCardsAre(p, spec);
    }
  }

  function TotalVram(gpus: seq<GpuAllocation>): nat {
    if gpus == [] then 0 else TotalVram(gpus[..|gpus| - 1]) + gpus[|gpus| - 1].vramMb
  }

  lemma {:induction false} EvenShares(gpus: seq<GpuAllocation>, share: nat)
    requires forall i | 0 <= i < |gpus| :: gpus[i].vramMb >= share
    ensures TotalVram(gpus) >= |gpus| * share
  {
    if gpus != [] {
      EvenShares(gpus[..|gpus| - 1], share);
      assert |gpus| * share == (|gpus| - 1) * share + share;
    }
  }

  lemma FreeCardsHold(p: PoolState, alloc: Allocation)
    requires WellFormed(p) && WholeCards(p.total, alloc.gpus)
    requires alloc.cpu <= p.availableCpu && alloc.memoryMb <= p.availableMemoryMb
    requires forall k | k in Indices(alloc.gpus) :: Available(p, Card(k)) == Capacity(p.total, Card(k))
    ensures Holds(p, alloc)
  {
    forall res: Resource ensures Amount(alloc, res) <= Available(p, res) {
      if res.Card? {
        CardVramOfWhole(p.total, alloc.gpus, res.index);
        if i :| 0 <= i < |alloc.gpus| && alloc.gpus[i].index == res.index {
          assert res.index in Indices(alloc.gpus);
        }
      }
    }
  }

  /** What a reservation hands out: the request's CPU and memory, and as many whole, free, unblocked cards as it asks
      for, the lowest-numbered ones that fit, whose VRAM together covers the request. */
  lemma ReservationMeets(p: PoolState, spec: ResourceSpec, alloc: Allocation)
    requires WellFormed(p) && Reserve(p, spec) == Some(alloc)
    ensures alloc.cpu == spec.cpu && alloc.memoryMb == spec.memoryMb && |alloc.gpus| == spec.gpu
    ensures WholeCards(p.total, alloc.gpus) && Holds(p, alloc)
    ensures forall k | k in Indices(alloc.gpus) ::
              k < |p.total.gpus| && !p.blocked[k] && Available(p, Card(k)) == Capacity(p.total, Card(k))
    ensures forall k, l | k in FittingCards(p, spec) && k !in Indices(alloc.gpus) && l in Indices(alloc.gpus) :: l < k
    ensures Indices(alloc.gpus) <= FittingCards(p, spec)
    ensures spec.gpu > 0 ==> TotalVram(alloc.gpus) >= spec.vramMb
  {
    SelectFits(p, VramPerGpu(spec), 0, spec.gpu);
    forall k, l | k in FittingCards(p, spec) && k !in Indices(alloc.gpus) && l in Indices(alloc.gpus) ensures l < k {
      SelectIsLowest(p, VramPerGpu(spec), 0, spec.gpu, k);
    }
    FreeCardsHold(p, alloc);
    EvenShares(alloc.gpus, VramPerGpu(spec));
    if spec.gpu > 0 {
      SharesCover(spec);
    }
  }

  /** Which cards it hands out: of those that are free, whole, unblocked and large enough, the lowest. */
  lemma ReservationIsLowest(p: PoolState, spec: ResourceSpec, alloc: Allocation)
    requires WellFormed(p) && Reserve(p, spec) == Some(alloc)
    ensures var free := set i: nat | && i < |p.total.gpus| && p.total.gpus[i].vramMb > 0
                                     && p.availableVramMb[i] == p.total.gpus[i].vramMb && !p.blocked[i]
                                     && p.total.gpus[i].vramMb * spec.gpu >= spec.vramMb;
            && Indices(alloc.gpus) <= free && |Indices(alloc.gpus)| == |alloc.gpus| == spec.gpu
            && forall k, l | k in free && k !in Indices(alloc.gpus) && l in Indices(alloc.gpus) :: l < k
  {
    ReservationMeets(p, spec, alloc);
    IndicesCount(p.total, alloc.gpus);
    if spec.gpu > 0 {
      FittingCardsAre(p, spec);
    }
  }

  /** What a fully free, unblocked pool has room for is what its totals have room for. */
  lemma IdleFitsWhatCouldFit(p: PoolState, spec: ResourceSpec)
    requires WellFormed(p)
    requires forall res: Resource :: Available(p, res) == Capacity(p.total, res)
    requires forall i | 0 <= i < |p.blocked| :: !p.blocked[i]
    ensures Reserve(p, spec).Some? <==> CouldFit(p.total, spec)
  {
    ReserveIffEnough(p, spec);
    assert Available(p, Cpu) == Capacity(p.total, Cpu) && Available(p, Memory) == Capacity(p.total, Memory);
    forall i: nat | i < |p.total.gpus|
      ensures i in FittingCards(p, spec) <==> i in MatchingCards(p.total, spec)
    {
      assert Available(p, Card(i)) == Capacity(p.total, Card(i));
    }
    assert FittingCards(p, spec) == MatchingCards(p.total, spec);
  }

  /** A busier or blocked pool never fits more than the totals allow. */
  lemma ReserveImpliesCouldFit(p: PoolState, spec: ResourceSpec)
    requires WellFormed(p) && Reserve(p, spec).Some?
    ensures CouldFit(p.total, spec)
  {
    ReserveIffEnough(p, spec);
    assert Available(p, Cpu) <= Capacity(p.total, Cpu) && Available(p, Memory) <= Capacity(p.total, Memory);
    assert FittingCards(p, spec) <= MatchingCards(p.total, spec);
    SubsetSize(FittingCards(p, spec), MatchingCards(p.total, spec));
  }

  function OneCard(p: PoolState, index: nat): Allocation
    requires index < |p.total.gpus|
  {
    Allocation(0, 0, [GpuAllocation(p.total.gpus[index].index, p.total.gpus[index].vramMb)])
  }

  /** `reserve_card`: one whole card for a qualification, blocked or not. */
  function ReserveCard(p: PoolState, index: nat): (r: Option<Allocation>)
    requires Shaped(p)
  {
    if index < |p.total.gpus| && p.total.gpus[index].vramMb > 0 && p.availableVramMb[index] == p.total.gpus[index].vramMb
    then Some(OneCard(p, index))
    else None
  }

  lemma OneCardVram(p: PoolState, index: nat, res: Resource)
    requires WellFormed(p) && index < |p.total.gpus|
    ensures Amount(OneCard(p, index), res) == if res == Card(index) then p.total.gpus[index].vramMb else 0
  {
    var gpus := OneCard(p, index).gpus;
    assert p.total.gpus[index].index == index && gpus[..|gpus| - 1] == [];
    match res
    case Card(i) => assert CardVram(gpus, i) == CardVram([], i) + (if index == i then p.total.gpus[index].vramMb else 0);
    case _ =>
  }

  /** The card was wholly free and is held whole. */
  lemma ReserveCardMeets(p: PoolState, index: nat, alloc: Allocation)
    requires WellFormed(p) && ReserveCard(p, index) == Some(alloc)
    ensures WholeCards(p.total, alloc.gpus) && Holds(p, alloc) && Indices(alloc.gpus) == {index}
    ensures Available(p, Card(index)) == Capacity(p.total, Card(index)) > 0
    ensures alloc == Allocation(0, 0, [GpuAllocation(index, p.total.gpus[index].vramMb)])
  {
    assert p.total.gpus[index].index == index;
    IndicesOfCons(alloc.gpus[0], []);
    assert alloc.gpus == [alloc.gpus[0]] + [];
    forall res: Resource ensures Amount(alloc, res) <= Available(p, res) {
      OneCardVram(p, index, res);
    }
  }

  /** Blocked or not, a card is handed over exactly if it reports VRAM and none of it is taken. */
  lemma ReserveCardIff(p: PoolState, index: nat)
    requires WellFormed(p)
    ensures ReserveCard(p, index).Some? <==>
            Available(p, Card(index)) == Capacity(p.total, Card(index)) && Capacity(p.total, Card(index)) > 0
  {
  }

  // The pool itself, updated in place

  class ResourcePool {
    const total: SystemResources
    var availableCpu: u32
    var availableMemoryMb: u64
    var availableVramMb: seq<u64>
    var blocked: seq<bool>

    ghost predicate Valid()
      reads this
    {
      WellFormed(State())
    }

    function State(): PoolState
      reads this
    {
      PoolState(total, availableCpu, availableMemoryMb,
                seq(|availableVramMb|, i requires 0 <= i < |availableVramMb| reads this => availableVramMb[i] as nat), blocked)
    }

    constructor (resources: SystemResources)
      requires WellIndexed(resources)
      ensures Valid() && State() == NewPool(resources)
      ensures availableCpu == resources.cpuCores && availableMemoryMb == resources.memoryMb && total == resources
      ensures |availableVramMb| == |resources.gpus| && forall i | 0 <= i < |resources.gpus| ::
                availableVramMb[i] == resources.gpus[i].vramMb && !blocked[i]
    {
      total := resources;
      availableCpu := resources.cpuCores;
      availableMemoryMb := resources.memoryMb;
      availableVramMb := seq(|resources.gpus|, i requires 0 <= i < |resources.gpus| => resources.gpus[i].vramMb);
      blocked := seq(|resources.gpus|, i => false);
    }

    lemma FreeCardsHere(spec: ResourceSpec)
      requires Valid()
      ensures (set i: nat | && i < |total.gpus| && total.gpus[i].vramMb > 0
                            && availableVramMb[i] == total.gpus[i].vramMb && !blocked[i]
                            && total.gpus[i].vramMb * spec.gpu >= spec.vramMb) ==
              var p := State();
              set i: nat | && i < |p.total.gpus| && p.total.gpus[i].vramMb > 0
                           && p.availableVramMb[i] == p.total.gpus[i].vramMb && !p.blocked[i]
                           && p.total.gpus[i].vramMb * spec.gpu >= spec.vramMb
    {
    }

    /** Reserve what is asked for, if the CPU, the memory and enough cards are free: of the cards the lowest that are
     *  whole, not blocked and large enough, and all of each. */
    method TryReserve(spec: ResourceSpec) returns (r: Option<Allocation>)
      requires Valid()
      modifies this
      ensures Valid()
      ensures r.Some? <==>
              && old(availableCpu) >= spec.cpu && old(availableMemoryMb) >= spec.memoryMb
              && |set i: nat | && i < |total.gpus| && total.gpus[i].vramMb > 0
                               && old(availableVramMb)[i] == total.gpus[i].vramMb && !old(blocked)[i]
                               && total.gpus[i].vramMb * spec.gpu >= spec.vramMb| >= spec.gpu
      ensures r.Some? ==>
              && r.value.cpu == spec.cpu && r.value.memoryMb == spec.memoryMb && |r.value.gpus| == spec.gpu
              && availableCpu == old(availableCpu) - spec.cpu
              && availableMemoryMb == old(availableMemoryMb) - spec.memoryMb
      ensures r.Some? ==>
              var free := set i: nat | && i < |total.gpus| && total.gpus[i].vramMb > 0
                                       && old(availableVramMb)[i] == total.gpus[i].vramMb && !old(blocked)[i]
                                       && total.gpus[i].vramMb * spec.gpu >= spec.vramMb;
              && Indices(r.value.gpus) <= free && |Indices(r.value.gpus)| == |r.value.gpus|
              && WholeCards(total, r.value.gpus)
              && forall k, l | k in free && k !in Indices(r.value.gpus) && l in Indices(r.value.gpus) :: l < k
      ensures r == Reserve(old(State()), spec)
      ensures State() == if r.Some? then Booked(old(State()), r.value) else old(State())
    {
      FreeCardsHere(spec);
      ReserveIffFree(State(), spec);
      if availableCpu < spec.cpu || availableMemoryMb < spec.memoryMb {
        return None;
      }
      var found := TryFindGpus(State(), spec);
      if found.None? {
        return None;
      }
      var gpus := found.value;
      ghost var before := State();
      r := Some(Allocation(spec.cpu, spec.memoryMb, gpus));
      ReservationMeets(before, spec, r.value);
      ReservationIsLowest(before, spec, r.value);
      forall i: nat | i < |availableVramMb| ensures CardVram(gpus, i) <= availableVramMb[i] {
        assert Amount(r.value, Card(i)) <= Available(before, Card(i));
      }
      availableCpu := availableCpu - spec.cpu;
      availableMemoryMb := availableMemoryMb - spec.memoryMb;
      TakeCards(gpus);
      SamePool(State(), Booked(before, r.value));
      StaysWellFormed(before, State());
    }

    /** Subtract every card of an allocation that is free. */
    method TakeCards(gpus: seq<GpuAllocation>)
      requires WholeCards(total, gpus) && |availableVramMb| == |total.gpus|
      requires forall i: nat | i < |availableVramMb| :: CardVram(gpus, i) <= availableVramMb[i]
      modifies this`availableVramMb
      ensures |availableVramMb| == |old(availableVramMb)|
      ensures forall i: nat | i < |availableVramMb| :: availableVramMb[i] + CardVram(gpus, i) == old(availableVramMb[i])
    {
      for k := 0 to |gpus|
        invariant |availableVramMb| == |old(availableVramMb)|
        invariant forall i: nat | i < |availableVramMb| ::
                    availableVramMb[i] + CardVram(gpus[..k], i) == old(availableVramMb[i])
      {
        var gpu := gpus[k];
        assert gpus[..k + 1][..k] == gpus[..k];
        CardVramOfPrefix(gpus, k + 1, gpu.index);
        availableVramMb := availableVramMb[gpu.index := availableVramMb[gpu.index] - gpu.vramMb];
      }
      assert gpus[..|gpus|] == gpus;
    }

    lemma WholeCardsHold(gpus: seq<GpuAllocation>)
      requires WholeCards(total, gpus)
      ensures forall i: nat | i < |total.gpus| ::
                CardVram(gpus, i) == if i in Indices(gpus) then total.gpus[i].vramMb as nat else 0
    {
      forall i: nat | i < |total.gpus|
        ensures CardVram(gpus, i) == if i in Indices(gpus) then total.gpus[i].vramMb as nat else 0
      {
        CardVramOfWhole(total, gpus, i);
      }
    }

    method Release(alloc: Allocation)
      requires Valid() && WholeCards(total, alloc.gpus)
      requires forall res: Resource :: Available(State(), res) + Amount(alloc, res) <= Capacity(total, res)
      modifies this
      ensures Valid() && State() == Released(old(State()), alloc)
      ensures availableCpu == old(availableCpu) + alloc.cpu && availableMemoryMb == old(availableMemoryMb) + alloc.memoryMb
      ensures |availableVramMb| == |old(availableVramMb)| && forall i: nat | i < |availableVramMb| ::
                availableVramMb[i] == old(availableVramMb)[i] + if i in Indices(alloc.gpus) then total.gpus[i].vramMb else 0
    {
      ghost var before := State();
      WholeCardsHold(alloc.gpus);
      assert Available(before, Cpu) + Amount(alloc, Cpu) <= Capacity(total, Cpu);
      assert Available(before, Memory) + Amount(alloc, Memory) <= Capacity(total, Memory);
      availableCpu := availableCpu + alloc.cpu;
      availableMemoryMb := availableMemoryMb + alloc.memoryMb;
      forall i: nat | i < |availableVramMb|
        ensures availableVramMb[i] + CardVram(alloc.gpus, i) <= total.gpus[i].vramMb
      {
        assert Available(before, Card(i)) + Amount(alloc, Card(i)) <= Capacity(total, Card(i));
      }
      ReturnCards(alloc.gpus);
      forall res: Resource ensures Available(State(), res) == Available(Released(before, alloc), res) {
        if res.Card? && res.index >= |availableVramMb| {
          assert Available(State(), res) == 0;
        }
      }
      SamePool(State(), Released(before, alloc));
      forall res: Resource ensures Available(State(), res) <= Capacity(total, res) {
        assert Available(before, res) + Amount(alloc, res) <= Capacity(total, res);
      }
    }

    /** Add every card of an allocation back. */
    method ReturnCards(gpus: seq<GpuAllocation>)
      requires WholeCards(total, gpus) && |availableVramMb| == |total.gpus|
      requires forall i: nat | i < |availableVramMb| :: availableVramMb[i] + CardVram(gpus, i) <= total.gpus[i].vramMb
      modifies this`availableVramMb
      ensures |availableVramMb| == |old(availableVramMb)|
      ensures forall i: nat | i < |availableVramMb| :: availableVramMb[i] == old(availableVramMb[i]) + CardVram(gpus, i)
    {
      for k := 0 to |gpus|
        invariant |availableVramMb| == |old(availableVramMb)|
        invariant forall i: nat | i < |availableVramMb| ::
                    availableVramMb[i] == old(availableVramMb[i]) + CardVram(gpus[..k], i)
      {
        var gpu := gpus[k];
        assert gpus[..k + 1][..k] == gpus[..k];
        CardVramOfPrefix(gpus, k + 1, gpu.index);
        availableVramMb := availableVramMb[gpu.index := availableVramMb[gpu.index] + gpu.vramMb];
      }
      assert gpus[..|gpus|] == gpus;
    }

    method Book(alloc: Allocation)
      requires Valid()
      modifies this
      ensures Valid() && State() == Booked(old(State()), alloc)
      ensures availableCpu == (if alloc.cpu <= old(availableCpu) then old(availableCpu) - alloc.cpu else 0)
      ensures availableMemoryMb ==
              if alloc.memoryMb <= old(availableMemoryMb) then old(availableMemoryMb) - alloc.memoryMb else 0
    {
      ghost var before := State();
      availableCpu := Saturating(availableCpu, alloc.cpu);
      availableMemoryMb := Saturating(availableMemoryMb, alloc.memoryMb);
      var gpus := alloc.gpus;
      for k := 0 to |gpus|
        invariant availableCpu == Saturating(before.availableCpu, alloc.cpu)
        invariant availableMemoryMb == Saturating(before.availableMemoryMb, alloc.memoryMb)
        invariant blocked == before.blocked && |availableVramMb| == |before.availableVramMb|
        invariant forall i: nat | i < |availableVramMb| ::
                    availableVramMb[i] == Saturating(before.availableVramMb[i], CardVram(gpus[..k], i))
      {
        var gpu := gpus[k];
        assert gpus[..k + 1][..k] == gpus[..k];
        if gpu.index < |availableVramMb| {
          availableVramMb := availableVramMb[gpu.index := Saturating(availableVramMb[gpu.index], gpu.vramMb)];
        }
      }
      assert gpus[..|gpus|] == gpus;
      SamePool(State(), Booked(before, alloc));
      StaysWellFormed(before, State());
    }

    /** Hand the card out, or not. */
    method Block(index: u32, isBlocked: bool)
      requires Valid() && index < |total.gpus|
      modifies this`blocked
      ensures Valid() && State() == old(State()).(blocked := old(blocked)[index := isBlocked])
    {
      ghost var before := State();
      blocked := blocked[index := isBlocked];
      StaysWellFormed(before, State());
    }

    /** All of one card, blocked or not, unless part of it is taken or it reports no VRAM. */
    method ReserveOneCard(index: u32) returns (r: Option<Allocation>)
      requires Valid()
      modifies this
      ensures Valid()
      ensures r == if index < |total.gpus| && total.gpus[index].vramMb > 0
                      && old(availableVramMb)[index] == total.gpus[index].vramMb
                   then Some(Allocation(0, 0, [GpuAllocation(index, total.gpus[index].vramMb)])) else None
      ensures r.Some? ==> availableVramMb == old(availableVramMb)[index := 0]
      ensures availableCpu == old(availableCpu) && availableMemoryMb == old(availableMemoryMb) && blocked == old(blocked)
      ensures r == ReserveCard(old(State()), index)
      ensures State() == if r.Some? then Booked(old(State()), r.value) else old(State())
    {
      if index >= |total.gpus| || total.gpus[index].vramMb == 0 || availableVramMb[index] != total.gpus[index].vramMb {
        return None;
      }
      ghost var before := State();
      var gpus := [GpuAllocation(index, total.gpus[index].vramMb)];
      r := Some(Allocation(0, 0, gpus));
      availableVramMb := availableVramMb[index := 0];
      forall res: Resource ensures Available(State(), res) == Available(Booked(before, r.value), res) {
        OneCardVram(before, index, res);
      }
      SamePool(State(), Booked(before, r.value));
      StaysWellFormed(before, State());
    }
  }

  lemma CardVramOfPrefix(gpus: seq<GpuAllocation>, n: nat, index: nat)
    requires n <= |gpus|
    ensures CardVram(gpus[..n], index) <= CardVram(gpus, index)
  {
    if n < |gpus| {
      CardVramOfPrefix(gpus[..|gpus| - 1], n, index);
      assert gpus[..|gpus| - 1][..n] == gpus[..n];
    } else {
      assert gpus[..n] == gpus;
    }
  }

  lemma StaysWellFormed(p: PoolState, q: PoolState)
    requires WellFormed(p) && q.total == p.total && |q.blocked| == |p.blocked| && |q.availableVramMb| == |p.availableVramMb|
    requires forall res: Resource :: Available(q, res) <= Available(p, res)
    ensures WellFormed(q)
  {
    forall res: Resource ensures Available(q, res) <= Capacity(q.total, res) {
      assert Available(p, res) <= Capacity(p.total, res);
    }
  }
}

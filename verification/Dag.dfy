/** Dependency checks on a workflow: src/workflow/dag.rs. */
module Dag {
  import opened Wrappers
  import opened Spec

  datatype DagError =
    | EmptyWorkflow
    | DuplicateJobId(jobId: JobId)
    | UnknownDependency(jobId: JobId, depId: JobId)
    | Cycle(jobId: JobId)

  /** Every job's dependency list, which may repeat an id or name the job itself. */
  type Graph = map<JobId, seq<JobId>>

  function Ids(jobs: seq<JobSpec>): set<JobId> {
    set job | job in jobs :: job.id
  }

  predicate UniqueIds(jobs: seq<JobSpec>) {
    forall i, j | 0 <= i < j < |jobs| :: jobs[i].id != jobs[j].id
  }

  predicate KnownDeps(jobs: seq<JobSpec>) {
    forall job | job in jobs :: SetOf(job.dependsOn) <= Ids(jobs)
  }

  function GraphOf(jobs: seq<JobSpec>): (g: Graph)
    requires UniqueIds(jobs)
    ensures g.Keys == Ids(jobs)
    ensures forall job | job in jobs :: g[job.id] == job.dependsOn
  {
    map job | job in jobs :: job.id := job.dependsOn
  }

  predicate Closed(g: Graph) {
    forall id | id in g :: SetOf(g[id]) <= g.Keys
  }

  lemma GraphClosed(jobs: seq<JobSpec>)
    requires UniqueIds(jobs) && KnownDeps(jobs)
    ensures Closed(GraphOf(jobs))
  {
    var g := GraphOf(jobs);
    forall id | id in g ensures SetOf(g[id]) <= g.Keys {
      var job :| job in jobs && job.id == id;
    }
  }

  /** One step of a walk, from a job to one it depends on. */
  predicate Depends(g: Graph, p: seq<JobId>, i: nat)
    requires i + 1 < |p|
  {
    p[i] in g && p[i + 1] in g[p[i]]
  }

  ghost predicate IsPath(g: Graph, p: seq<JobId>) {
    forall i | 0 <= i < |p| - 1 :: Depends(g, p, i)
  }

  ghost predicate IsWalk(g: Graph, p: seq<JobId>) {
    |p| >= 2 && IsPath(g, p)
  }

  ghost predicate IsCycle(g: Graph, p: seq<JobId>) {
    IsWalk(g, p) && p[0] == p[|p| - 1]
  }

  ghost predicate Acyclic(g: Graph) {
    forall p | IsWalk(g, p) :: p[0] != p[|p| - 1]
  }

  predicate NoDuplicates<T(==)>(s: seq<T>) {
    forall i, j | 0 <= i < j < |s| :: s[i] != s[j]
  }

  function SetOf<T>(s: seq<T>): set<T> {
    set x | x in s
  }

  /** Job number `i` of the order depends only on earlier ones. */
  predicate ComesAfterDeps(g: Graph, order: seq<JobId>, i: nat)
    requires i < |order|
  {
    order[i] in g && SetOf(g[order[i]]) <= SetOf(order[..i])
  }

  ghost predicate DepsFirst(g: Graph, order: seq<JobId>) {
    forall i | 0 <= i < |order| :: ComesAfterDeps(g, order, i)
  }

  /** Each job exactly once, and only after everything it depends on. */
  ghost predicate TopoOrder(g: Graph, order: seq<JobId>) {
    NoDuplicates(order) && SetOf(order) == g.Keys && DepsFirst(g, order)
  }

  lemma DepsFirstAppend(g: Graph, order: seq<JobId>, id: JobId)
    requires DepsFirst(g, order) && id in g && SetOf(g[id]) <= SetOf(order)
    ensures DepsFirst(g, order + [id])
  {
    var longer := order + [id];
    forall i | 0 <= i < |longer| ensures ComesAfterDeps(g, longer, i) {
      if i < |order| {
        assert ComesAfterDeps(g, order, i);
        assert longer[..i] == order[..i];
      } else {
        assert longer[..i] == order;
      }
    }
  }

  function Occurrences(s: seq<JobId>, id: JobId): nat {
    if s == [] then 0 else Occurrences(s[..|s| - 1], id) + (if s[|s| - 1] == id then 1 else 0)
  }

  lemma OccurrencesAppend(s: seq<JobId>, x: JobId, id: JobId)
    ensures Occurrences(s + [x], id) == Occurrences(s, id) + (if x == id then 1 else 0)
  {
    assert (s + [x])[..|s|] == s;
  }

  lemma OccurrencesMonotone(s: seq<JobId>, n: nat, id: JobId)
    requires n <= |s|
    ensures Occurrences(s[..n], id) <= Occurrences(s, id)
  {
    if n < |s| {
      OccurrencesMonotone(s[..|s| - 1], n, id);
      assert s[..|s| - 1][..n] == s[..n];
    } else {
      assert s[..n] == s;
    }
  }

  /** How many entries of `s` are not done yet. */
  function Remaining(s: seq<JobId>, done: set<JobId>): nat {
    if s == [] then 0 else Remaining(s[..|s| - 1], done) + (if s[|s| - 1] in done then 0 else 1)
  }

  lemma NoneRemain(s: seq<JobId>, done: set<JobId>)
    ensures Remaining(s, done) == 0 <==> SetOf(s) <= done
  {
    if s != [] {
      assert s == s[..|s| - 1] + [s[|s| - 1]];
    }
  }

  lemma RemainingAfter(s: seq<JobId>, done: set<JobId>, id: JobId)
    requires id !in done
    ensures Remaining(s, done) == Remaining(s, done + {id}) + Occurrences(s, id)
  {
  }

  lemma RemainingNone(s: seq<JobId>)
    ensures Remaining(s, {}) == |s|
  {
  }

  // A topological order rules out cycles

  lemma {:induction false} WalkDescends(g: Graph, order: seq<JobId>, p: seq<JobId>, start: nat)
    requires NoDuplicates(order) && DepsFirst(g, order)
    requires IsWalk(g, p) && start < |order| && order[start] == p[0]
    ensures exists end :: 0 <= end < start && order[end] == p[|p| - 1]
    decreases |p|
  {
    assert Depends(g, p, 0) && ComesAfterDeps(g, order, start);
    assert p[1] in SetOf(order[..start]);
    var next :| 0 <= next < start && order[next] == p[1];
    if |p| > 2 {
      var rest := p[1..];
      forall i | 0 <= i < |rest| - 1 ensures Depends(g, rest, i) {
        assert Depends(g, p, i + 1);
      }
      WalkDescends(g, order, rest, next);
    }
  }

  /** Sorted means acyclic. */
  lemma OrderMeansAcyclic(g: Graph, order: seq<JobId>)
    requires TopoOrder(g, order)
    ensures Acyclic(g)
  {
    forall p | IsWalk(g, p) ensures p[0] != p[|p| - 1] {
      assert Depends(g, p, 0);
      assert p[0] in SetOf(order);
      var start :| 0 <= start < |order| && order[start] == p[0];
      WalkDescends(g, order, p, start);
    }
  }

  // Jobs that all wait for each other contain a cycle

  /** A job of `waiting` depends on another one of `waiting`. */
  predicate WaitsIn(g: Graph, waiting: set<JobId>, id: JobId) {
    id in g && exists dep | dep in g[id] :: dep in waiting
  }

  ghost predicate Stuck(g: Graph, waiting: set<JobId>) {
    forall id | id in waiting :: WaitsIn(g, waiting, id)
  }

  /** Follow unfinished dependencies until one repeats. */
  lemma {:induction false} WalkUntilRepeat(g: Graph, waiting: set<JobId>, p: seq<JobId>) returns (cycle: seq<JobId>)
    requires Stuck(g, waiting)
    requires |p| > 0 && NoDuplicates(p) && SetOf(p) <= waiting && IsPath(g, p)
    ensures IsCycle(g, cycle) && SetOf(cycle) <= waiting
    decreases |waiting| - |p|
  {
    var last := p[|p| - 1];
    assert last in SetOf(p);
    assert WaitsIn(g, waiting, last);
    var dep :| dep in g[last] && dep in waiting;
    var longer := p + [dep];
    forall i | 0 <= i < |longer| - 1 ensures Depends(g, longer, i) {
      if i < |p| - 1 {
        assert Depends(g, p, i);
      }
    }
    if dep in p {
      var k :| 0 <= k < |p| && p[k] == dep;
      cycle := longer[k..];
      forall i | 0 <= i < |cycle| - 1 ensures Depends(g, cycle, i) {
        assert Depends(g, longer, k + i);
      }
      assert SetOf(longer) <= waiting;
    } else {
      LengthBound(longer, waiting);
      cycle := WalkUntilRepeat(g, waiting, longer);
    }
  }

  lemma {:induction false} DistinctCount<T>(s: seq<T>)
    requires NoDuplicates(s)
    ensures |SetOf(s)| == |s|
    decreases s
  {
    if s != [] {
      var rest := s[..|s| - 1];
      DistinctCount(rest);
      assert s == rest + [s[|s| - 1]];
      assert SetOf(s) == SetOf(rest) + {s[|s| - 1]};
    }
  }

  lemma SubsetSize<T>(a: set<T>, b: set<T>)
    requires a <= b
    ensures |a| <= |b|
    ensures |a| == |b| ==> a == b
  {
    assert b == a + (b - a);
    assert |b| == |a| + |b - a|;
  }

  lemma LengthBound(p: seq<JobId>, bound: set<JobId>)
    requires NoDuplicates(p) && SetOf(p) <= bound
    ensures |p| <= |bound|
  {
    DistinctCount(p);
    SubsetSize(SetOf(p), bound);
  }

  lemma StuckMeansCycle(g: Graph, waiting: set<JobId>) returns (cycle: seq<JobId>)
    requires Stuck(g, waiting) && waiting != {}
    ensures IsCycle(g, cycle) && SetOf(cycle) <= waiting
  {
    var id :| id in waiting;
    cycle := WalkUntilRepeat(g, waiting, [id]);
  }

  // The checks

  method CheckDuplicateIds(jobs: seq<JobSpec>) returns (r: Result<(), DagError>)
    ensures r.Success? <==> UniqueIds(jobs)
    ensures r.Failure? ==> exists i ::
                0 <= i < |jobs| && UniqueIds(jobs[..i]) && jobs[i].id in Ids(jobs[..i])
                && r.error == DuplicateJobId(jobs[i].id)
  {
    var seen: set<JobId> := {};
    for i := 0 to |jobs|
      invariant UniqueIds(jobs[..i])
      invariant seen == Ids(jobs[..i])
    {
      if jobs[i].id in seen {
        var other :| other in jobs[..i] && other.id == jobs[i].id;
        return Failure(DuplicateJobId(jobs[i].id));
      }
      seen := seen + {jobs[i].id};
      assert jobs[..i + 1] == jobs[..i] + [jobs[i]];
    }
    assert jobs[..|jobs|] == jobs;
    return Success(());
  }

  method CheckUnknownDeps(jobs: seq<JobSpec>) returns (r: Result<(), DagError>)
    ensures r.Success? <==> KnownDeps(jobs)
    ensures r.Failure? ==> exists job, dep ::
                job in jobs && dep in job.dependsOn && dep !in Ids(jobs) && r.error == UnknownDependency(job.id, dep)
  {
    var known := Ids(jobs);
    for i := 0 to |jobs|
      invariant forall job | job in jobs[..i] :: forall dep | dep in job.dependsOn :: dep in known
    {
      var deps := jobs[i].dependsOn;
      for j := 0 to |deps|
        invariant forall dep | dep in deps[..j] :: dep in known
      {
        if deps[j] !in known {
          assert jobs[i] in jobs && deps[j] in jobs[i].dependsOn;
          return Failure(UnknownDependency(jobs[i].id, deps[j]));
        }
      }
      assert jobs[..i + 1] == jobs[..i] + [jobs[i]];
    }
    assert jobs[..|jobs|] == jobs;
    return Success(());
  }

  /** Every job's dependents, one entry for each time a job names the key. */
  ghost predicate DependentsOf(g: Graph, dependents: map<JobId, seq<JobId>>) {
    && dependents.Keys == g.Keys
    && (forall dep | dep in dependents :: SetOf(dependents[dep]) <= g.Keys)
    && forall dep, id {:trigger Occurrences(dependents[dep], id)} | dep in g && id in g ::
         Occurrences(dependents[dep], id) == Occurrences(g[id], dep)
  }

  /** The same for the jobs in `seen` only. */
  ghost predicate CollectedFrom(g: Graph, seen: set<JobId>, dependents: map<JobId, seq<JobId>>) {
    && dependents.Keys == g.Keys
    && (forall dep | dep in dependents :: SetOf(dependents[dep]) <= g.Keys)
    && forall dep, id {:trigger Occurrences(dependents[dep], id)} | dep in g && id in g ::
         Occurrences(dependents[dep], id) == if id in seen then Occurrences(g[id], dep) else 0
  }

  lemma NextJob(jobs: seq<JobSpec>, g: Graph, i: nat)
    requires UniqueIds(jobs) && KnownDeps(jobs) && g == GraphOf(jobs) && i < |jobs|
    ensures jobs[i].id !in Ids(jobs[..i])
    ensures Ids(jobs[..i + 1]) == Ids(jobs[..i]) + {jobs[i].id}
    ensures jobs[i].id in g && g[jobs[i].id] == jobs[i].dependsOn && SetOf(jobs[i].dependsOn) <= g.Keys
  {
    assert jobs[i] in jobs;
    assert jobs[..i + 1] == jobs[..i] + [jobs[i]];
  }

  method CollectDependents(jobs: seq<JobSpec>) returns (dependents: map<JobId, seq<JobId>>)
    requires UniqueIds(jobs) && KnownDeps(jobs)
    ensures DependentsOf(GraphOf(jobs), dependents)
  {
    ghost var g := GraphOf(jobs);
    dependents := map id | id in Ids(jobs) :: [];
    for i := 0 to |jobs|
      invariant CollectedFrom(g, Ids(jobs[..i]), dependents)
    {
      NextJob(jobs, g, i);
      var before := dependents;
      dependents := AddDependent(g, jobs[i].id, jobs[i].dependsOn, before);
      AddedAll(g, Ids(jobs[..i]), jobs[i].id, before, dependents);
    }
    assert jobs[..|jobs|] == jobs;
  }

  /** `dependents` is `before` with `id` added once for each entry of `taken`. */
  ghost predicate Added(g: Graph, before: map<JobId, seq<JobId>>, id: JobId, taken: seq<JobId>,
                        dependents: map<JobId, seq<JobId>>)
    requires before.Keys == g.Keys
  {
    && dependents.Keys == g.Keys
    && (forall dep | dep in dependents :: SetOf(dependents[dep]) <= g.Keys)
    && (forall dep | dep in g :: Occurrences(dependents[dep], id) == Occurrences(before[dep], id) + Occurrences(taken, dep))
    && forall dep, other {:trigger Occurrences(dependents[dep], other)} | dep in g && other != id ::
         Occurrences(dependents[dep], other) == Occurrences(before[dep], other)
  }

  lemma AddedNone(g: Graph, before: map<JobId, seq<JobId>>, id: JobId)
    requires before.Keys == g.Keys && forall dep | dep in before :: SetOf(before[dep]) <= g.Keys
    ensures Added(g, before, id, [], before)
  {
  }

  lemma AddOne(g: Graph, before: map<JobId, seq<JobId>>, id: JobId, taken: seq<JobId>,
               dependents: map<JobId, seq<JobId>>, dep: JobId)
    requires before.Keys == g.Keys && Added(g, before, id, taken, dependents)
    requires id in g && dep in g
    ensures Added(g, before, id, taken + [dep], dependents[dep := dependents[dep] + [id]])
  {
    forall other { OccurrencesAppend(dependents[dep], id, other); }
    forall any { OccurrencesAppend(taken, dep, any); }
    Append(dependents[dep], id);
  }

  lemma AddedAll(g: Graph, seen: set<JobId>, id: JobId, before: map<JobId, seq<JobId>>, dependents: map<JobId, seq<JobId>>)
    requires CollectedFrom(g, seen, before) && id in g && id !in seen
    requires Added(g, before, id, g[id], dependents)
    ensures CollectedFrom(g, seen + {id}, dependents)
  {
  }

  method AddDependent(ghost g: Graph, id: JobId, deps: seq<JobId>, before: map<JobId, seq<JobId>>)
      returns (dependents: map<JobId, seq<JobId>>)
    requires before.Keys == g.Keys && forall dep | dep in before :: SetOf(before[dep]) <= g.Keys
    requires id in g && SetOf(deps) <= g.Keys
    ensures Added(g, before, id, deps, dependents)
  {
    AddedNone(g, before, id);
    dependents := before;
    for k := 0 to |deps|
      invariant Added(g, before, id, deps[..k], dependents)
    {
      assert deps[k] in SetOf(deps) && deps[..k + 1] == deps[..k] + [deps[k]];
      AddOne(g, before, id, deps[..k], dependents, deps[k]);
      dependents := dependents[deps[k] := dependents[deps[k]] + [id]];
    }
    assert deps[..|deps|] == deps;
  }

  /** What Kahn's loop keeps: degrees count unfinished dependencies, the queue holds what is ready and not yet out. */
  ghost predicate KahnState(g: Graph, order: seq<JobId>, queue: seq<JobId>, inDegree: map<JobId, nat>) {
    && inDegree.Keys == g.Keys
    && (forall id | id in g :: inDegree[id] == Remaining(g[id], SetOf(order)))
    && DepsFirst(g, order)
    && Ready(order, queue, inDegree)
  }

  function Zeros(inDegree: map<JobId, nat>): set<JobId> {
    set id | id in inDegree && inDegree[id] == 0
  }

  /** The finished and the queued jobs are those with no dependency left. */
  ghost predicate Ready(order: seq<JobId>, queue: seq<JobId>, inDegree: map<JobId, nat>) {
    && NoDuplicates(order) && NoDuplicates(queue) && SetOf(order) !! SetOf(queue)
    && SetOf(order) + SetOf(queue) == Zeros(inDegree)
  }

  method InitialQueue(inDegree: map<JobId, nat>) returns (queue: seq<JobId>)
    ensures Ready([], queue, inDegree)
  {
    // a HashMap's order, so any order
    queue := [];
    var left := inDegree.Keys;
    while left != {}
      invariant left <= inDegree.Keys
      invariant NoDuplicates(queue) && SetOf(queue) == Zeros(inDegree) - left
      decreases |left|
    {
      var id :| id in left;
      Append(queue, id);
      left := left - {id};
      if inDegree[id] == 0 {
        queue := queue + [id];
      }
    }
  }

  lemma InitialState(g: Graph, queue: seq<JobId>, inDegree: map<JobId, nat>)
    requires inDegree.Keys == g.Keys && (forall id | id in g :: inDegree[id] == |g[id]|)
    requires Ready([], queue, inDegree)
    ensures KahnState(g, [], queue, inDegree)
  {
    assert SetOf<JobId>([]) == {};
    forall id | id in g { RemainingNone(g[id]); }
  }

  lemma TakeHead(queue: seq<JobId>)
    requires queue != [] && NoDuplicates(queue)
    ensures NoDuplicates(queue[1..]) && queue[0] !in SetOf(queue[1..])
    ensures SetOf(queue) == SetOf(queue[1..]) + {queue[0]}
  {
    assert queue == [queue[0]] + queue[1..];
  }

  lemma Append<T>(s: seq<T>, x: T)
    ensures SetOf(s + [x]) == SetOf(s) + {x}
    ensures NoDuplicates(s) && x !in SetOf(s) ==> NoDuplicates(s + [x])
  {
  }

  /** Taking the queue's head out leaves the same jobs finished or queued. */
  lemma TakeOut(g: Graph, order: seq<JobId>, queue: seq<JobId>, inDegree: map<JobId, nat>)
    requires KahnState(g, order, queue, inDegree) && queue != []
    ensures queue[0] in g && queue[0] !in SetOf(order)
    ensures Ready(order + [queue[0]], queue[1..], inDegree)
    ensures DepsFirst(g, order + [queue[0]])
  {
    var id := queue[0];
    TakeHead(queue);
    Append(order, id);
    assert id in Zeros(inDegree);
    NoneRemain(g[id], SetOf(order));
    DepsFirstAppend(g, order, id);
  }

  /** Lowering one degree keeps the queue right if a job that reaches zero joins it. */
  lemma Lower(order: seq<JobId>, queue: seq<JobId>, inDegree: map<JobId, nat>, id: JobId)
    requires Ready(order, queue, inDegree) && id in inDegree && inDegree[id] > 0
    ensures inDegree[id] == 1 ==> Ready(order, queue + [id], inDegree[id := 0])
    ensures inDegree[id] > 1 ==> Ready(order, queue, inDegree[id := inDegree[id] - 1])
  {
    Append(queue, id);
    assert id !in Zeros(inDegree);
    if inDegree[id] == 1 {
      assert Zeros(inDegree[id := 0]) == Zeros(inDegree) + {id};
    } else {
      assert Zeros(inDegree[id := inDegree[id] - 1]) == Zeros(inDegree);
    }
  }

  /** Partway through a finished job's dependents, the rest of them still counts against their degrees. */
  ghost predicate Lowered(g: Graph, done: set<JobId>, waiting: seq<JobId>, i: nat, inDegree: map<JobId, nat>)
    requires i <= |waiting|
  {
    && inDegree.Keys == g.Keys
    && forall x | x in g ::
         inDegree[x] + Occurrences(waiting[..i], x) == Remaining(g[x], done) + Occurrences(waiting, x)
  }

  lemma LowerNext(g: Graph, done: set<JobId>, waiting: seq<JobId>, i: nat, inDegree: map<JobId, nat>)
    requires i < |waiting| && waiting[i] in g && Lowered(g, done, waiting, i, inDegree)
    ensures inDegree[waiting[i]] > 0
    ensures Lowered(g, done, waiting, i + 1, inDegree[waiting[i] := inDegree[waiting[i]] - 1])
  {
    assert waiting[..i + 1] == waiting[..i] + [waiting[i]];
    forall x { OccurrencesAppend(waiting[..i], waiting[i], x); }
    OccurrencesMonotone(waiting, i + 1, waiting[i]);
  }

  lemma LowerStart(g: Graph, dependents: map<JobId, seq<JobId>>, order: seq<JobId>, id: JobId, inDegree: map<JobId, nat>)
    requires DependentsOf(g, dependents) && inDegree.Keys == g.Keys && id in g && id !in SetOf(order)
    requires forall x | x in g :: inDegree[x] == Remaining(g[x], SetOf(order))
    ensures Lowered(g, SetOf(order) + {id}, dependents[id], 0, inDegree)
  {
    forall x | x in g { RemainingAfter(g[x], SetOf(order), id); }
  }

  /** One turn of Kahn's loop: take the head off the queue and lower its dependents' degrees. */
  method Settle(ghost g: Graph, dependents: map<JobId, seq<JobId>>, order: seq<JobId>, queue: seq<JobId>,
      inDegree: map<JobId, nat>)
      returns (order': seq<JobId>, queue': seq<JobId>, inDegree': map<JobId, nat>)
    requires DependentsOf(g, dependents)
    requires KahnState(g, order, queue, inDegree) && queue != []
    ensures KahnState(g, order', queue', inDegree')
    ensures order' == order + [queue[0]]
  {
    TakeOut(g, order, queue, inDegree);
    var id := queue[0];
    order', queue', inDegree' := order + [id], queue[1..], inDegree;
    Append(order, id);
    var waiting := dependents[id];
    LowerStart(g, dependents, order, id, inDegree);
    for i := 0 to |waiting|
      invariant Lowered(g, SetOf(order'), waiting, i, inDegree')
      invariant Ready(order', queue', inDegree')
    {
      var dependent := waiting[i];
      assert dependent in SetOf(waiting);
      LowerNext(g, SetOf(order'), waiting, i, inDegree');
      Lower(order', queue', inDegree', dependent);
      inDegree' := inDegree'[dependent := inDegree'[dependent] - 1];
      if inDegree'[dependent] == 0 {
        queue' := queue' + [dependent];
      }
    }
    assert waiting[..|waiting|] == waiting;
  }

  /** Jobs Kahn's loop never reached wait for each other. */
  lemma UnreachedAreStuck(g: Graph, order: seq<JobId>, inDegree: map<JobId, nat>)
    requires Closed(g) && KahnState(g, order, [], inDegree)
    ensures Stuck(g, set id | id in g && inDegree[id] > 0)
    ensures |order| <= |g|
    ensures |order| < |g| <==> (set id | id in g && inDegree[id] > 0) != {}
    ensures |order| == |g| ==> TopoOrder(g, order)
  {
    var waiting := set id | id in g && inDegree[id] > 0;
    var done := SetOf(order);
    assert SetOf<JobId>([]) == {};
    assert done == g.Keys - waiting;
    forall id | id in waiting ensures WaitsIn(g, waiting, id) {
      NoneRemain(g[id], done);
      var dep :| dep in SetOf(g[id]) && dep !in done;
      assert dep in g.Keys;
    }
    DistinctCount(order);
    SubsetSize(done, g.Keys);
    assert |g| == |g.Keys|;
  }

  lemma IdCount(jobs: seq<JobSpec>)
    requires UniqueIds(jobs)
    ensures |GraphOf(jobs)| == |jobs|
  {
    var ids := seq(|jobs|, i requires 0 <= i < |jobs| => jobs[i].id);
    DistinctCount(ids);
    assert SetOf(ids) == Ids(jobs) by {
      forall id | id in Ids(jobs) ensures id in ids {
        var job :| job in jobs && job.id == id;
        var i :| 0 <= i < |jobs| && jobs[i] == job;
        assert ids[i] == id;
      }
    }
    assert |GraphOf(jobs)| == |GraphOf(jobs).Keys|;
  }

  lemma Bounded(g: Graph, order: seq<JobId>, queue: seq<JobId>, inDegree: map<JobId, nat>)
    requires KahnState(g, order, queue, inDegree) && queue != []
    ensures |order| < |g|
  {
    TakeOut(g, order, queue, inDegree);
    Append(order, queue[0]);
    LengthBound(order + [queue[0]], g.Keys);
  }

  /** Kahn's loop. */
  method Drain(ghost g: Graph, dependents: map<JobId, seq<JobId>>, ready: seq<JobId>, degrees: map<JobId, nat>)
      returns (order: seq<JobId>, inDegree: map<JobId, nat>)
    requires DependentsOf(g, dependents) && KahnState(g, [], ready, degrees)
    ensures KahnState(g, order, [], inDegree)
  {
    var queue := ready;
    order, inDegree := [], degrees;
    while queue != []
      invariant KahnState(g, order, queue, inDegree)
      decreases |g| - |order|
    {
      Bounded(g, order, queue, inDegree);
      order, queue, inDegree := Settle(g, dependents, order, queue, inDegree);
    }
  }

  function Degrees(jobs: seq<JobSpec>): (degrees: map<JobId, nat>)
    requires UniqueIds(jobs)
    ensures degrees.Keys == GraphOf(jobs).Keys
    ensures forall id | id in degrees :: degrees[id] == |GraphOf(jobs)[id]|
  {
    map job | job in jobs :: job.id := |job.dependsOn|
  }

  /** An order that leaves jobs out means a cycle among those. */
  lemma OutcomeOfDrain(g: Graph, order: seq<JobId>, inDegree: map<JobId, nat>)
    requires Closed(g) && KahnState(g, order, [], inDegree)
    ensures |order| == |g| ==> TopoOrder(g, order) && Acyclic(g)
    ensures |order| != |g| ==> !Acyclic(g) && exists cycle :: IsCycle(g, cycle)
    ensures |order| != |g| ==> exists id :: id in inDegree && inDegree[id] > 0
  {
    UnreachedAreStuck(g, order, inDegree);
    if |order| == |g| {
      OrderMeansAcyclic(g, order);
    } else {
      var waiting := set id | id in g && inDegree[id] > 0;
      var one :| one in waiting;
      var cycle := StuckMeansCycle(g, waiting);
    }
  }

  /** Kahn's algorithm: an order exactly when there is no cycle, whatever order the ready jobs come in. */
  method TopoSort(jobs: seq<JobSpec>) returns (r: Result<seq<JobId>, DagError>)
    requires UniqueIds(jobs) && KnownDeps(jobs)
    ensures r.Success? <==> Acyclic(GraphOf(jobs))
    ensures r.Success? ==> TopoOrder(GraphOf(jobs), r.value) && |r.value| == |jobs|
    ensures r.Failure? ==> r.error.Cycle? && r.error.jobId in Ids(jobs) && exists cycle :: IsCycle(GraphOf(jobs), cycle)
  {
    GraphClosed(jobs);
    IdCount(jobs);
    var dependents := CollectDependents(jobs);
    r := Kahn(GraphOf(jobs), Degrees(jobs), dependents);
  }

  method Kahn(ghost g: Graph, degrees: map<JobId, nat>, dependents: map<JobId, seq<JobId>>)
      returns (r: Result<seq<JobId>, DagError>)
    requires Closed(g) && DependentsOf(g, dependents)
    requires degrees.Keys == g.Keys && forall id | id in g :: degrees[id] == |g[id]|
    ensures r.Success? <==> Acyclic(g)
    ensures r.Success? ==> TopoOrder(g, r.value) && |r.value| == |g|
    ensures r.Failure? ==> r.error.Cycle? && r.error.jobId in g && exists cycle :: IsCycle(g, cycle)
  {
    var ready := InitialQueue(degrees);
    InitialState(g, ready, degrees);
    var order, inDegree := Drain(g, dependents, ready, degrees);
    OutcomeOfDrain(g, order, inDegree);
    assert |degrees| == |degrees.Keys| == |g.Keys| == |g|;
    if |order| != |degrees| {
      var cycled :| cycled in inDegree && inDegree[cycled] > 0;
      return Failure(Cycle(cycled));
    }
    return Success(order);
  }

  /** Accepted: at least one job, distinct ids, known dependencies and no cycle. */
  ghost predicate Valid(jobs: seq<JobSpec>) {
    jobs != [] && UniqueIds(jobs) && KnownDeps(jobs) && Acyclic(GraphOf(jobs))
  }

  // The same in terms of the jobs

  predicate SomeHasId(jobs: seq<JobSpec>, id: JobId) {
    exists job :: job in jobs && job.id == id
  }

  /** Each of these jobs depends on the next one, and the last is the first again. */
  predicate DependsOnItself(jobs: seq<JobSpec>, walk: seq<JobSpec>) {
    && |walk| >= 2 && walk[0] == walk[|walk| - 1] && (forall i | 0 <= i < |walk| :: walk[i] in jobs)
    && forall i | 0 <= i < |walk| - 1 :: walk[i + 1].id in walk[i].dependsOn
  }

  /** There is a job, no two have the same id, each dependency is the id of one, and none depends on itself, directly or
      through others. */
  lemma ValidMeans(jobs: seq<JobSpec>)
    ensures Valid(jobs) <==>
            && jobs != [] && (forall i, j | 0 <= i < j < |jobs| :: jobs[i].id != jobs[j].id)
            && (forall job, dep | job in jobs && dep in job.dependsOn :: SomeHasId(jobs, dep))
            && forall walk :: !DependsOnItself(jobs, walk)
  {
    KnownMeans(jobs);
    if UniqueIds(jobs) && KnownDeps(jobs) {
      AcyclicMeans(jobs);
    }
  }

  lemma KnownMeans(jobs: seq<JobSpec>)
    ensures KnownDeps(jobs) <==> forall job, dep | job in jobs && dep in job.dependsOn :: SomeHasId(jobs, dep)
  {
    if KnownDeps(jobs) {
      forall job, dep | job in jobs && dep in job.dependsOn ensures SomeHasId(jobs, dep) {
        assert dep in SetOf(job.dependsOn) && dep in Ids(jobs);
      }
    } else {
      var job :| job in jobs && !(SetOf(job.dependsOn) <= Ids(jobs));
      var dep :| dep in SetOf(job.dependsOn) && dep !in Ids(jobs);
      assert !SomeHasId(jobs, dep);
    }
  }

  lemma AcyclicMeans(jobs: seq<JobSpec>)
    requires UniqueIds(jobs) && KnownDeps(jobs)
    ensures Acyclic(GraphOf(jobs)) <==> forall walk :: !DependsOnItself(jobs, walk)
  {
    if walk :| DependsOnItself(jobs, walk) {
      WalkOfJobs(jobs, walk);
    }
    if !Acyclic(GraphOf(jobs)) {
      var p :| IsWalk(GraphOf(jobs), p) && p[0] == p[|p| - 1];
      var walk := JobsOfWalk(jobs, p);
    }
  }

  lemma WalkOfJobs(jobs: seq<JobSpec>, walk: seq<JobSpec>)
    requires UniqueIds(jobs) && DependsOnItself(jobs, walk)
    ensures !Acyclic(GraphOf(jobs))
  {
    var g, p := GraphOf(jobs), seq(|walk|, i requires 0 <= i < |walk| => walk[i].id);
    forall i | 0 <= i < |p| - 1 ensures Depends(g, p, i) {
      assert g[walk[i].id] == walk[i].dependsOn;
    }
    assert IsWalk(g, p);
  }

  lemma JobsOfWalk(jobs: seq<JobSpec>, p: seq<JobId>) returns (walk: seq<JobSpec>)
    requires UniqueIds(jobs) && KnownDeps(jobs) && IsCycle(GraphOf(jobs), p)
    ensures DependsOnItself(jobs, walk)
  {
    var g := GraphOf(jobs);
    GraphClosed(jobs);
    forall i | 0 <= i < |p| ensures SomeHasId(jobs, p[i]) {
      assert Depends(g, p, if i < |p| - 1 then i else 0);
    }
    walk := JobsWithIds(jobs, p);
    forall i | 0 <= i < |walk| - 1 ensures walk[i + 1].id in walk[i].dependsOn {
      assert Depends(g, p, i) && g[walk[i].id] == walk[i].dependsOn;
    }
    SameIdSameJob(jobs, walk[0], walk[|walk| - 1]);
  }

  lemma SameIdSameJob(jobs: seq<JobSpec>, a: JobSpec, b: JobSpec)
    requires UniqueIds(jobs) && a in jobs && b in jobs && a.id == b.id
    ensures a == b
  {
    var i :| 0 <= i < |jobs| && jobs[i] == a;
    var j :| 0 <= j < |jobs| && jobs[j] == b;
    assert i == j;
  }

  lemma {:induction false} JobsWithIds(jobs: seq<JobSpec>, ids: seq<JobId>) returns (found: seq<JobSpec>)
    requires forall i | 0 <= i < |ids| :: SomeHasId(jobs, ids[i])
    ensures |found| == |ids| && forall i | 0 <= i < |ids| :: found[i] in jobs && found[i].id == ids[i]
    decreases |ids|
  {
    if ids == [] {
      found := [];
    } else {
      var n := |ids| - 1;
      forall i | 0 <= i < n ensures SomeHasId(jobs, ids[..n][i]) {
        assert ids[..n][i] == ids[i];
      }
      var front := JobsWithIds(jobs, ids[..n]);
      assert SomeHasId(jobs, ids[n]);
      var job :| job in jobs && job.id == ids[n];
      found := front + [job];
    }
  }

  method Validate(spec: WorkflowSpec) returns (r: Result<(), DagError>)
    ensures r.Success? <==> Valid(spec.jobs)
    ensures r == Failure(EmptyWorkflow) <==> spec.jobs == []
    ensures spec.jobs != [] && !UniqueIds(spec.jobs) ==> r.Failure? && r.error.DuplicateJobId?
    ensures spec.jobs != [] && UniqueIds(spec.jobs) && !KnownDeps(spec.jobs) ==> r.Failure? && r.error.UnknownDependency?
    ensures r.Failure? && r.error.Cycle? ==>
              UniqueIds(spec.jobs) && KnownDeps(spec.jobs) && exists cycle :: IsCycle(GraphOf(spec.jobs), cycle)
  {
    if spec.jobs == [] {
      return Failure(EmptyWorkflow);
    }
    var _ :- CheckDuplicateIds(spec.jobs);
    var _ :- CheckUnknownDeps(spec.jobs);
    var _ :- TopoSort(spec.jobs);
    return Success(());
  }

  /** A valid workflow can be ordered: what the scheduler's progress argument needs. */
  lemma ValidHasOrder(jobs: seq<JobSpec>) returns (order: seq<JobId>)
    requires Valid(jobs)
    ensures TopoOrder(GraphOf(jobs), order)
  {
    GraphClosed(jobs);
    order := ExtendOrder(GraphOf(jobs), []);
  }

  lemma {:induction false} ExtendOrder(g: Graph, prefix: seq<JobId>) returns (order: seq<JobId>)
    requires Closed(g) && Acyclic(g)
    requires NoDuplicates(prefix) && SetOf(prefix) <= g.Keys && DepsFirst(g, prefix)
    ensures TopoOrder(g, order)
    decreases |g| - |prefix|
  {
    var waiting := g.Keys - SetOf(prefix);
    if waiting == {} {
      assert forall id | id in g.Keys :: id in SetOf(prefix) || id in waiting;
      order := prefix;
    } else {
      if Stuck(g, waiting) {
        var cycle := StuckMeansCycle(g, waiting);
        assert false;
      }
      var id :| id in waiting && !WaitsIn(g, waiting, id);
      DepsFirstAppend(g, prefix, id);
      Append(prefix, id);
      LengthBound(prefix + [id], g.Keys);
      order := ExtendOrder(g, prefix + [id]);
    }
  }
}

/** checkForMultiplePoolMemberUpdates: member updates of one pool are merged into a single replacement.
    On the plans of this controller the merged plan is again a plan of the same job, so it is legal and
    converges; and it leads to the same state as the plan it replaces, up to the ids the service issues. */
module Optimiser {
  import opened Remote
  import opened Plan
  import opened PoolSteps
  import opened Convergence

  predicate IsMemberUpdate<Name>(a: Action<Name>) {
    a.CreateMember? || a.DeleteMember?
  }

  /** Member updates planned for the pool of this name. */
  function CountFor<Name(==)>(plan: seq<Action<Name>>, name: Name): nat {
    if plan == [] then 0
    else (if IsMemberUpdate(plan[0]) && plan[0].name == name then 1 else 0) + CountFor(plan[1..], name)
  }

  /** The names with more than one member update. */
  function Busy<Name(==)>(plan: seq<Action<Name>>): set<Name> {
    set a | a in plan && IsMemberUpdate(a) && CountFor(plan, a.name) > 1 :: a.name
  }

  /** Keeps everything but the member updates of busy names, of which the first becomes a replacement. */
  function Filter<Name(==)>(plan: seq<Action<Name>>, busy: set<Name>, seen: set<Name>): seq<Action<Name>> {
    if plan == [] then []
    else
      var a, rest := plan[0], plan[1..];
      if !IsMemberUpdate(a) || a.name !in busy then [a] + Filter(rest, busy, seen)
      else if a.name in seen then Filter(rest, busy, seen)
      else [ReplaceMembers(a.name, a.poolId)] + Filter(rest, busy, seen + {a.name})
  }

  function Optimise<Name(==)>(plan: seq<Action<Name>>): seq<Action<Name>> {
    Filter(plan, Busy(plan), {})
  }

  function NamesIn<Name(==)>(plan: seq<Action<Name>>): set<Name> {
    set a | a in plan && IsMemberUpdate(a) :: a.name
  }

  /** With nothing to merge the list is returned as it is. */
  lemma {:induction false} FilterNothing<Name>(plan: seq<Action<Name>>, busy: set<Name>, seen: set<Name>)
    requires NamesIn(plan) !! busy
    ensures Filter(plan, busy, seen) == plan
  {
    if plan != [] {
      var a, rest := plan[0], plan[1..];
      assert NamesIn(rest) <= NamesIn(plan);
      assert a in plan;
      FilterNothing(rest, busy, seen);
    }
  }

  lemma {:induction false} FilterConcat<Name>(a: seq<Action<Name>>, b: seq<Action<Name>>, busy: set<Name>,
                                              seen: set<Name>)
    ensures Filter(a + b, busy, seen) == Filter(a, busy, seen) + Filter(b, busy, seen + NamesIn(a) * busy)
    decreases |a|
  {
    if a == [] {
      assert a + b == b;
      assert seen + NamesIn(a) * busy == seen;
    } else {
      var x, rest := a[0], a[1..];
      assert (a + b)[0] == x && (a + b)[1..] == rest + b;
      assert NamesIn(a) == NamesIn([x]) + NamesIn(rest);
      assert NamesIn([x]) == if IsMemberUpdate(x) then {x.name} else {} by {
        assert [x][0] in [x];
      }
      if !IsMemberUpdate(x) || x.name !in busy {
        FilterConcat(rest, b, busy, seen);
        assert seen + NamesIn(a) * busy == seen + NamesIn(rest) * busy;
      } else {
        FilterConcat(rest, b, busy, seen + {x.name});
        assert seen + NamesIn(a) * busy == seen + {x.name} + NamesIn(rest) * busy;
        if x.name in seen {
          assert seen + {x.name} == seen;
        }
      }
    }
  }

  /** A run of member updates of one pool is kept, dropped or replaced as a whole. */
  lemma {:induction false} FilterOnePool<Name>(plan: seq<Action<Name>>, name: Name, pool: string, busy: set<Name>,
                                               seen: set<Name>)
    requires forall a :: a in plan ==> IsMemberUpdate(a) && a.name == name && a.poolId == pool
    ensures Filter(plan, busy, seen) ==
            if name !in busy then plan
            else if plan == [] || name in seen then [] else [ReplaceMembers(name, pool)]
  {
    if plan != [] {
      var rest := plan[1..];
      assert plan[0] in plan;
      FilterOnePool(rest, name, pool, busy, if name in busy && name !in seen then seen + {name} else seen);
    }
  }

  lemma {:induction false} CountConcat<Name>(a: seq<Action<Name>>, b: seq<Action<Name>>, name: Name)
    ensures CountFor(a + b, name) == CountFor(a, name) + CountFor(b, name)
    decreases |a|
  {
    if a == [] {
      assert a + b == b;
    } else {
      assert (a + b)[0] == a[0] && (a + b)[1..] == a[1..] + b;
      CountConcat(a[1..], b, name);
    }
  }

  lemma {:induction false} CountNone<Name>(plan: seq<Action<Name>>, name: Name)
    ensures CountFor(plan, name) > 0 <==> name in NamesIn(plan)
  {
    if plan != [] {
      CountNone(plan[1..], name);
      assert plan == [plan[0]] + plan[1..];
    }
  }

  lemma {:induction false} CountOnePool<Name>(plan: seq<Action<Name>>, name: Name)
    requires forall a :: a in plan ==> IsMemberUpdate(a) && a.name == name
    ensures CountFor(plan, name) == |plan|
  {
    if plan != [] {
      assert plan[0] in plan;
      CountOnePool(plan[1..], name);
    }
  }

  // ----- the pieces of a plan -----

  lemma {:induction false} DropsOfOnePool(name: PoolName, pool: string, recs: seq<MemberRec>, nodes: seq<string>)
    ensures forall a :: a in MemberDrops(name, pool, recs, nodes) ==>
              a.DeleteMember? && a.name == name && a.poolId == pool
  {
    if recs != [] {
      DropsOfOnePool(name, pool, recs[1..], nodes);
    }
  }

  lemma {:induction false} AddsOfOnePool(name: PoolName, pool: string, recs: seq<MemberRec>, nodes: seq<string>)
    ensures forall a :: a in MemberAdds(name, pool, recs, nodes) ==>
              a.CreateMember? && a.name == name && a.poolId == pool
  {
    if nodes != [] {
      AddsOfOnePool(name, pool, recs, nodes[1..]);
    }
  }

  /** The member updates of a pool in one phase of the plan as first built. */
  function Raw(job: Job, stage: nat, rec: PoolRec): seq<Update> {
    if stage == 1 then Drops(job, rec) else Adds(job, rec)
  }

  lemma RawOfOnePool(job: Job, stage: nat, rec: PoolRec)
    ensures forall a :: a in Raw(job, stage, rec) ==> IsMemberUpdate(a) && a.name == rec.name && a.poolId == rec.id
  {
    DropsOfOnePool(rec.name, rec.id, rec.members, job.nodes);
    AddsOfOnePool(rec.name, rec.id, rec.members, job.nodes);
  }

  predicate NamesDistinct(recs: seq<PoolRec>) {
    forall i, j :: 0 <= i < j < |recs| ==> recs[i].name != recs[j].name
  }

  lemma ListedNamesDistinct(recs: seq<PoolRec>, s: State)
    requires EndpointsUnique(s) && ListsPools(recs, s)
    ensures NamesDistinct(recs)
  {
    forall i, j | 0 <= i < j < |recs| ensures recs[i].name != recs[j].name {
      assert ListedPool(recs[i], s) && ListedPool(recs[j], s);
    }
  }

  lemma {:induction false} NamesInChunks(job: Job, stage: nat, recs: seq<PoolRec>)
    requires job.merged == {} && (stage == 1 || stage == 3)
    ensures forall n :: n in NamesIn(Chunks(job, stage, recs)) <==>
                        exists i :: 0 <= i < |recs| && recs[i].name == n && Raw(job, stage, recs[i]) != []
  {
    if recs != [] {
      var raw, rest := Raw(job, stage, recs[0]), Chunks(job, stage, recs[1..]);
      NamesInChunks(job, stage, recs[1..]);
      RawOfOnePool(job, stage, recs[0]);
      assert Chunks(job, stage, recs) == raw + rest;
      if raw != [] { assert raw[0] in raw + rest; }
      forall n ensures n in NamesIn(raw + rest) <==>
                       exists i :: 0 <= i < |recs| && recs[i].name == n && Raw(job, stage, recs[i]) != [] {
        assert n in NamesIn(raw + rest) <==> (raw != [] && n == recs[0].name) || n in NamesIn(rest);
        if i :| 0 <= i < |recs[1..]| && recs[1..][i].name == n && Raw(job, stage, recs[1..][i]) != [] {
          assert recs[i + 1].name == n;
        }
        if i :| 0 <= i < |recs| && recs[i].name == n && Raw(job, stage, recs[i]) != [] {
          assert i == 0 || recs[1..][i - 1].name == n;
        }
      }
    }
  }

  lemma {:induction false} CountInChunks(job: Job, stage: nat, recs: seq<PoolRec>, k: nat)
    requires job.merged == {} && (stage == 1 || stage == 3) && k < |recs| && NamesDistinct(recs)
    ensures CountFor(Chunks(job, stage, recs), recs[k].name) == |Raw(job, stage, recs[k])|
  {
    var raw, rest, name := Raw(job, stage, recs[0]), Chunks(job, stage, recs[1..]), recs[k].name;
    assert Chunks(job, stage, recs) == raw + rest;
    CountConcat(raw, rest, name);
    RawOfOnePool(job, stage, recs[0]);
    if k == 0 {
      CountOnePool(raw, name);
      NamesInChunks(job, stage, recs[1..]);
      assert forall i :: 0 <= i < |recs[1..]| ==> recs[1..][i].name == recs[i + 1].name != name;
      CountNone(rest, name);
    } else {
      CountInChunks(job, stage, recs[1..], k - 1);
      CountNone(raw, name);
    }
  }

  /** Merging one phase: the chunks of the merged job appear. */
  lemma {:induction false} FilterChunks(job: Job, merged: set<string>, stage: nat, recs: seq<PoolRec>,
                                        busy: set<PoolName>, seen: set<PoolName>)
    requires job.merged == {} && (stage == 1 || stage == 3) && NamesDistinct(recs)
    requires forall i :: 0 <= i < |recs| ==> (recs[i].id in merged <==> recs[i].name in busy)
    requires forall i :: 0 <= i < |recs| && recs[i].name in busy ==>
                           (recs[i].name in seen <==> stage == 3 && Drops(job, recs[i]) != [])
    ensures Filter(Chunks(job, stage, recs), busy, seen) == Chunks(job.(merged := merged), stage, recs)
  {
    if recs != [] {
      var rec, rest := recs[0], Chunks(job, stage, recs[1..]);
      var raw := Raw(job, stage, rec);
      assert Chunks(job, stage, recs) == raw + rest;
      RawOfOnePool(job, stage, rec);
      FilterConcat(raw, rest, busy, seen);
      FilterOnePool(raw, rec.name, rec.id, busy, seen);
      assert NamesIn(raw) <= {rec.name};
      FilterChunks(job, merged, stage, recs[1..], busy, seen + NamesIn(raw) * busy);
      ChunkOfMerged(job, merged, stage, rec);
    }
  }

  lemma ChunkOfMerged(job: Job, merged: set<string>, stage: nat, rec: PoolRec)
    requires stage == 1 || stage == 3
    ensures var other := job.(merged := merged);
            Chunk(other, stage, rec) ==
            if rec.id !in merged then Raw(job, stage, rec)
            else if Raw(job, stage, rec) == [] || (stage == 3 && Drops(job, rec) != []) then []
            else [ReplaceMembers(rec.name, rec.id)]
  {
  }

  lemma {:induction false} ChunksIgnoreMerged(job: Job, merged: set<string>, stage: nat, recs: seq<PoolRec>)
    requires stage == 0 || stage == 2
    ensures Chunks(job.(merged := merged), stage, recs) == Chunks(job, stage, recs)
    ensures NamesIn(Chunks(job, stage, recs)) == {}
  {
    if recs != [] {
      ChunksIgnoreMerged(job, merged, stage, recs[1..]);
    }
  }

  lemma {:induction false} CreatesIgnoreMerged(job: Job, merged: set<string>, ports: seq<ServicePort>)
    ensures Creates(job.(merged := merged), ports) == Creates(job, ports)
    ensures NamesIn(Creates(job, ports)) == {}
  {
    if ports != [] {
      CreatesIgnoreMerged(job, merged, ports[1..]);
    }
  }

  lemma {:induction false} ListenerDropsIgnoreMerged(job: Job, merged: set<string>, recs: seq<ListenerRec>)
    ensures ListenerDrops(job.(merged := merged), recs) == ListenerDrops(job, recs)
    ensures NamesIn(ListenerDrops(job, recs)) == {}
  {
    if recs != [] {
      ListenerDropsIgnoreMerged(job, merged, recs[1..]);
    }
  }

  // ----- the merged plan -----

  /** The pools with more than one member update. */
  function MergedPools(job: Job): set<string> {
    set i | 0 <= i < |job.pools| && |Drops(job, job.pools[i])| + |Adds(job, job.pools[i])| > 1 :: job.pools[i].id
  }

  function Merged(job: Job): Job {
    job.(merged := MergedPools(job))
  }

  lemma BusyMeansSeveral<Name>(plan: seq<Action<Name>>, name: Name)
    ensures name in Busy(plan) <==> CountFor(plan, name) > 1
  {
    CountNone(plan, name);
  }

  lemma NamesInConcat<Name>(a: seq<Action<Name>>, b: seq<Action<Name>>)
    ensures NamesIn(a + b) == NamesIn(a) + NamesIn(b)
  {
  }

  lemma CountInPlan(job: Job, k: nat)
    requires job.merged == {} && NamesDistinct(job.pools) && k < |job.pools|
    ensures CountFor(PlanOf(job), job.pools[k].name) == |Drops(job, job.pools[k])| + |Adds(job, job.pools[k])|
  {
    var name := job.pools[k].name;
    var l, c0, c1, c2, c3, n := ListenerDrops(job, job.listeners), Chunks(job, 0, job.pools), Chunks(job, 1, job.pools),
                                Chunks(job, 2, job.pools), Chunks(job, 3, job.pools), Creates(job, job.service.ports);
    CountConcat(l, c0, name);
    CountConcat(l + c0, c1, name);
    CountConcat(l + c0 + c1, c2, name);
    CountConcat(l + c0 + c1 + c2, c3, name);
    CountConcat(l + c0 + c1 + c2 + c3, n, name);
    ListenerDropsIgnoreMerged(job, {}, job.listeners);
    ChunksIgnoreMerged(job, {}, 0, job.pools);
    ChunksIgnoreMerged(job, {}, 2, job.pools);
    CreatesIgnoreMerged(job, {}, job.service.ports);
    CountNone(l, name);
    CountNone(c0, name);
    CountNone(c2, name);
    CountNone(n, name);
    CountInChunks(job, 1, job.pools, k);
    CountInChunks(job, 3, job.pools, k);
  }

  lemma MergedIsCounted(job: Job, s: State)
    requires ListsPools(job.pools, s)
    ensures forall i :: 0 <= i < |job.pools| ==>
                          (job.pools[i].id in MergedPools(job) <==>
                            |Drops(job, job.pools[i])| + |Adds(job, job.pools[i])| > 1)
  {
    hide ListedPool, Drops, Adds;
  }

  /** On a plan of this controller the optimiser yields the plan of the merged job. */
  lemma OptimiseMerges(job: Job, s: State)
    requires Setup(job, s) && job.merged == {}
    ensures Optimise(PlanOf(job)) == PlanOf(Merged(job))
  {
    ListedNamesDistinct(job.pools, s);
    MergedIsCounted(job, s);
    hide WF, JobOf, PlanOf, Drops, Adds, MergedPools, Busy, CountFor;
    var busy := Busy(PlanOf(job));
    forall i | 0 <= i < |job.pools| ensures job.pools[i].id in MergedPools(job) <==> job.pools[i].name in busy {
      CountInPlan(job, i);
      BusyMeansSeveral(PlanOf(job), job.pools[i].name);
    }
    FilterPlan(job, busy);
  }

  lemma FilterPlan(job: Job, busy: set<PoolName>)
    requires job.merged == {} && NamesDistinct(job.pools)
    requires forall i :: 0 <= i < |job.pools| ==> (job.pools[i].id in MergedPools(job) <==> job.pools[i].name in busy)
    ensures Filter(PlanOf(job), busy, {}) == PlanOf(Merged(job))
  {
    hide Chunk, Drops, Adds, MergedPools, Filter;
    var m := MergedPools(job);
    var l, c0, c1, c2, c3, n := ListenerDrops(job, job.listeners), Chunks(job, 0, job.pools), Chunks(job, 1, job.pools),
                                Chunks(job, 2, job.pools), Chunks(job, 3, job.pools), Creates(job, job.service.ports);
    ListenerDropsIgnoreMerged(job, m, job.listeners);
    ChunksIgnoreMerged(job, m, 0, job.pools);
    ChunksIgnoreMerged(job, m, 2, job.pools);
    CreatesIgnoreMerged(job, m, job.service.ports);
    NamesInChunks(job, 1, job.pools);
    NamesInConcat(l, c0);
    NamesInConcat(l + c0, c1);
    NamesInConcat(l + c0 + c1, c2);
    var seen := NamesIn(c1) * busy;
    FilterConcat(l, c0, busy, {});
    FilterConcat(l + c0, c1, busy, {});
    FilterConcat(l + c0 + c1, c2, busy, {});
    FilterConcat(l + c0 + c1 + c2, c3, busy, {});
    FilterConcat(l + c0 + c1 + c2 + c3, n, busy, {});
    assert {} + NamesIn(l + c0 + c1 + c2) * busy == seen;
    FilterNothing(l, busy, {});
    FilterNothing(c0, busy, {} + NamesIn(l) * busy);
    assert {} + NamesIn(l + c0) * busy == {};
    FilterChunks(job, m, 1, job.pools, busy, {});
    FilterNothing(c2, busy, {} + NamesIn(l + c0 + c1) * busy);
    FilterChunks(job, m, 3, job.pools, busy, seen) by {
      forall i | 0 <= i < |job.pools| && job.pools[i].name in busy
        ensures job.pools[i].name in seen <==> Drops(job, job.pools[i]) != []
      {
        if k :| 0 <= k < |job.pools| && job.pools[k].name == job.pools[i].name && Raw(job, 1, job.pools[k]) != [] {
          assert k == i;
        }
      }
    }
    FilterNothing(n, busy, {} + NamesIn(l + c0 + c1 + c2 + c3) * busy);
  }

  // ----- the meaning of a plan -----

  ghost predicate SameMembers(a: map<string, Member>, b: map<string, Member>) {
    forall m :: Present(a, m) <==> Present(b, m)
  }

  ghost predicate SamePool(a: Pool, b: Pool) {
    a.name == b.name && a.monitor == b.monitor && SameMembers(a.members, b.members)
  }

  /** Something that was there before is its own counterpart; something new corresponds to something new. */
  predicate Twin(before: set<string>, x: string, y: string) {
    if x in before then y == x else y !in before
  }

  ghost predicate HasTwinPool(s: State, a: State, p: string, b: State)
    requires p in a.pools
  {
    exists q :: q in b.pools && Twin(s.pools.Keys, p, q) && SamePool(a.pools[p], b.pools[q])
  }

  ghost predicate SameListener(a: State, l: string, b: State, k: string)
    requires l in a.listeners && k in b.listeners
  {
    && a.listeners[l].protocol == b.listeners[k].protocol && a.listeners[l].port == b.listeners[k].port
    && a.listeners[l].poolId in a.pools && b.listeners[k].poolId in b.pools
    && a.pools[a.listeners[l].poolId].name == b.pools[b.listeners[k].poolId].name
  }

  ghost predicate HasTwinListener(s: State, a: State, l: string, b: State)
    requires l in a.listeners
  {
    exists k :: k in b.listeners && Twin(s.listeners.Keys, l, k) && SameListener(a, l, b, k)
  }

  ghost predicate Embeds(s: State, a: State, b: State) {
    && (forall p :: p in a.pools ==> HasTwinPool(s, a, p, b))
    && (forall l :: l in a.listeners ==> HasTwinListener(s, a, l, b))
  }

  /** Equal but for the ids of what was created on the way from s. */
  ghost predicate SameUpToFreshIds(s: State, a: State, b: State) {
    Embeds(s, a, b) && Embeds(s, b, a)
  }

  lemma CoversDetermines(a: map<string, Member>, b: map<string, Member>, nodes: seq<string>, nodePort: int)
    requires Covers(a, nodes, nodePort) && Covers(b, nodes, nodePort)
    ensures SameMembers(a, b)
  {
    forall m ensures Present(a, m) <==> Present(b, m) {
    }
  }

  /** Two jobs that differ at most in what they merge. */
  predicate SameButMerged(x: Job, y: Job) {
    y == x.(merged := y.merged)
  }

  lemma TwinPool(x: Job, y: Job, s: State, a: State, b: State, p: string)
    requires Setup(x, s) && SameButMerged(x, y) && Converged(x, s, a) && Converged(y, s, b) && p in a.pools
    ensures HasTwinPool(s, a, p, b)
  {
    hide WF, ListenersMade;
    var n := |x.service.ports|;
    assert PoolsMade(x, s, a, n) && PoolsMade(y, s, b, n);
    if p in s.pools {
      var i :| 0 <= i < |x.pools| && x.pools[i].id == p;
      TwinListedPool(x, y, s, a, b, i);
    } else {
      var j :| 0 <= j < n && NewPool(x, a.pools[p], x.service.ports[j]);
      TwinNewPool(x, y, s, a, b, p, j);
    }
  }

  lemma TwinListedPool(x: Job, y: Job, s: State, a: State, b: State, i: nat)
    requires ListsPools(x.pools, s) && SameButMerged(x, y) && i < |x.pools|
    requires At(x, s, a, x.pools[i], 4) && At(y, s, b, x.pools[i], 4) && x.pools[i].id in a.pools
    ensures HasTwinPool(s, a, x.pools[i].id, b)
  {
    var rec := x.pools[i];
    var port := PortOf(x, rec.name).value;
    assert PoolChanges(x, rec) == PoolChanges(y, rec);
    CoversDetermines(a.pools[rec.id].members, b.pools[rec.id].members, x.nodes, port.nodePort);
  }

  lemma TwinNewPool(x: Job, y: Job, s: State, a: State, b: State, p: string, j: nat)
    requires ListsPools(x.pools, s) && ServiceOk(x.service) && SameButMerged(x, y) && j < |x.service.ports|
    requires p in a.pools && p !in s.pools && NewPool(x, a.pools[p], x.service.ports[j])
    requires PoolsMade(y, s, b, |y.service.ports|)
    ensures HasTwinPool(s, a, p, b)
  {
    hide At, Covers, GenMonitor;
    var n, port := |y.service.ports|, x.service.ports[j];
    assert HasPool(b, GenName(port));
    var q :| q in b.pools && b.pools[q].name == GenName(port);
    var other := StandingPool(y, s, b, n, q);
    assert other == port;
    SurvivorIsListed(y, s, b, q, port);
    var i :| 0 <= i < n && NewPool(y, b.pools[q], y.service.ports[i]);
    assert y.service.ports[i] == port;
    CoversDetermines(a.pools[p].members, b.pools[q].members, x.nodes, port.nodePort);
    assert Twin(s.pools.Keys, p, q) && SamePool(a.pools[p], b.pools[q]);
  }

  /** A surviving pool serves a port with a listed pool. */
  lemma SurvivorIsListed(job: Job, s0: State, s: State, q: string, port: ServicePort)
    requires ListsPools(job.pools, s0) && PoolsMade(job, s0, s, |job.service.ports|)
    requires q in s.pools && s.pools[q].name == GenName(port)
    ensures q in s0.pools ==> PoolListed(job.pools, port)
  {
    if q in s0.pools {
      var i :| 0 <= i < |job.pools| && job.pools[i].id == q;
      FinishedPool(job, s0, s, i);
      assert Matches(port, job.pools[i].name.protocol, job.pools[i].name.port);
    }
  }

  /** The listener of a port: a kept one is its own counterpart, a new one has a new counterpart. */
  lemma CounterpartListener(x: Job, y: Job, s: State, a: State, b: State, l: string) returns (k: string)
    requires ListsListeners(x.listeners, s) && SameButMerged(x, y) && l in a.listeners
    requires ListenersMade(x, s, a, |x.service.ports|) && ListenersMade(y, s, b, |y.service.ports|)
    ensures k in b.listeners && Twin(s.listeners.Keys, l, k)
    ensures a.listeners[l].protocol == b.listeners[k].protocol && a.listeners[l].port == b.listeners[k].port
  {
    hide ListedListener;
    var n, kept := |x.service.ports|, KeptListeners(x, s);
    assert kept == KeptListeners(y, s) && (l in s.listeners ==> l in kept);
    if l in kept {
      k := l;
    } else {
      var j :| 0 <= j < n && NewListener(x, a.listeners[l], x.service.ports[j]);
      var port := x.service.ports[j];
      assert HasListener(b, port);
      hide ListenersMade;
      k :| k in b.listeners && Matches(port, b.listeners[k].protocol, b.listeners[k].port);
      KeptIsListed(y, s, b, k, port);
    }
  }

  lemma KeptIsListed(job: Job, s0: State, s: State, k: string, port: ServicePort)
    requires ListsListeners(job.listeners, s0) && ListenersMade(job, s0, s, |job.service.ports|)
    requires k in s.listeners && Matches(port, s.listeners[k].protocol, s.listeners[k].port)
    ensures k in s0.listeners ==> ListenerListed(job.listeners, port)
  {
    if k in s0.listeners {
      var i :| 0 <= i < |job.listeners| && job.listeners[i].id == k;
      assert ListedListener(job.listeners[i], s0);
      assert Matches(port, job.listeners[i].listener.protocol, job.listeners[i].listener.port);
    }
  }

  lemma TwinListener(x: Job, y: Job, s: State, a: State, b: State, l: string)
    requires Setup(x, s) && SameButMerged(x, y) && Converged(x, s, a) && Converged(y, s, b) && l in a.listeners
    ensures HasTwinListener(s, a, l, b)
  {
    var k := CounterpartListener(x, y, s, a, b, l);
    StandingListener(x, s, a, l);
    StandingListener(y, s, b, k);
    hide ListenerDesired, Converged;
    SameFront(x.service, a, l, b, k);
  }

  lemma SameFront(service: Service, a: State, l: string, b: State, k: string)
    requires ServiceOk(service) && l in a.listeners && k in b.listeners
    requires ListenerDesired(a, service, a.listeners[l]) && ListenerDesired(b, service, b.listeners[k])
    requires a.listeners[l].protocol == b.listeners[k].protocol && a.listeners[l].port == b.listeners[k].port
    ensures SameListener(a, l, b, k)
  {
  }

  lemma ConvergedEmbeds(x: Job, y: Job, s: State, a: State, b: State)
    requires Setup(x, s) && SameButMerged(x, y) && Converged(x, s, a) && Converged(y, s, b)
    ensures Embeds(s, a, b)
  {
    hide Setup, Converged, HasTwinPool, HasTwinListener, SameButMerged;
    forall p | p in a.pools ensures HasTwinPool(s, a, p, b) {
      TwinPool(x, y, s, a, b, p);
    }
    forall l | l in a.listeners ensures HasTwinListener(s, a, l, b) {
      TwinListener(x, y, s, a, b, l);
    }
  }

  /** The optimiser preserves meaning: the plan it returns is accepted update by update like the plan it
      was given, ends in the desired state like it, and in the same state up to fresh ids. */
  lemma OptimiserPreservesMeaning(job: Job, s: State)
    requires Setup(job, s) && job.merged == {}
    ensures var raw, c := PlanOf(job), ContextOf(job);
            var final := Run(s, Optimise(raw), c);
            && Safe(s, raw, c) && Safe(s, Optimise(raw), c)
            && Desired(final, job.service, job.nodes)
            && SameUpToFreshIds(s, Run(s, raw, c), final)
  {
    var other, c := Merged(job), ContextOf(job);
    assert Setup(other, s) && ContextOf(other) == c;
    hide Setup, Run, Safe, PlanOf, Converged, Embeds, Desired;
    OptimiseMerges(job, s);
    PlanRuns(job, s);
    PlanRuns(other, s);
    PlanConverges(other, s);
    var a, b := Run(s, PlanOf(job), c), Run(s, PlanOf(other), c);
    ConvergedEmbeds(job, other, s, a, b);
    ConvergedEmbeds(other, job, s, b, a);
  }
}

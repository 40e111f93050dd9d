/** What an update costs and how much it takes up on the way: the length of the plan does not depend on the
    number of nodes, every pool's members are changed at most once, and no count rises above the larger of
    where it started and where it ends. */
module Bounds {
  import opened Text
  import opened Remote
  import opened Plan
  import opened PoolSteps
  import opened Convergence
  import opened Optimiser

  // ----- plan length -----

  lemma MergedChunk(job: Job, rec: PoolRec)
    requires job.merged == {} && (rec.id in MergedPools(job) <==> |Drops(job, rec)| + |Adds(job, rec)| > 1)
    ensures var m := Merged(job);
            && |Chunk(m, 0, rec)| + |Chunk(m, 1, rec)| + |Chunk(m, 2, rec)| + |Chunk(m, 3, rec)| <= 2
            && |Chunk(m, 1, rec)| + |Chunk(m, 3, rec)| <= 1
            && (PoolChanges(m, rec) != [] && GenName(PortOf(m, rec.name).value) != rec.name
                ==> Chunk(m, 1, rec) == [] && Chunk(m, 3, rec) == [])
  {
    var m := Merged(job);
    assert Drops(m, rec) == Drops(job, rec) && Adds(m, rec) == Adds(job, rec);
  }

  lemma {:induction false} ChunksLength(job: Job, s: State, k: nat)
    requires ListsPools(job.pools, s) && job.merged == {} && k <= |job.pools|
    ensures var m, recs := Merged(job), job.pools[k..];
            |Chunks(m, 0, recs)| + |Chunks(m, 1, recs)| + |Chunks(m, 2, recs)| + |Chunks(m, 3, recs)| <= 2 * |recs|
    decreases |job.pools| - k
  {
    if k < |job.pools| {
      var recs := job.pools[k..];
      assert recs[0] == job.pools[k] && recs[1..] == job.pools[k + 1..];
      MergedIsCounted(job, s);
      MergedChunk(job, recs[0]);
      ChunksLength(job, s, k + 1);
    }
  }

  lemma {:induction false} OtherLengths(job: Job, recs: seq<ListenerRec>, ports: seq<ServicePort>)
    ensures |ListenerDrops(job, recs)| <= |recs| && |Creates(job, ports)| <= 2 * |ports|
    decreases |recs| + |ports|
  {
    if recs != [] {
      OtherLengths(job, recs[1..], ports);
    } else if ports != [] {
      OtherLengths(job, recs, ports[1..]);
    }
  }

  /** The number of actions is bounded by what is listed and asked for, whatever the number of nodes. */
  lemma PlanLength(job: Job, s: State)
    requires Setup(job, s) && job.merged == {}
    ensures |Optimise(PlanOf(job))| <= |job.listeners| + 2 * |job.pools| + 2 * |job.service.ports|
  {
    hide WF;
    OptimiseMerges(job, s);
    ChunksLength(job, s, 0);
    assert job.pools[0..] == job.pools;
    OtherLengths(Merged(job), job.listeners, job.service.ports);
  }

  // ----- member changes per pool -----

  predicate ChangesMembers(a: Update, pool: string) {
    (a.CreateMember? || a.DeleteMember? || a.ReplaceMembers?) && a.poolId == pool
  }

  function MemberChanges(plan: seq<Update>, pool: string): nat {
    if plan == [] then 0 else (if ChangesMembers(plan[0], pool) then 1 else 0) + MemberChanges(plan[1..], pool)
  }

  lemma {:induction false} MemberChangesConcat(a: seq<Update>, b: seq<Update>, pool: string)
    ensures MemberChanges(a + b, pool) == MemberChanges(a, pool) + MemberChanges(b, pool)
    decreases |a|
  {
    if a == [] {
      assert a + b == b;
    } else {
      assert (a + b)[0] == a[0] && (a + b)[1..] == a[1..] + b;
      MemberChangesConcat(a[1..], b, pool);
    }
  }

  lemma {:induction false} MemberChangesNone(plan: seq<Update>, pool: string)
    requires forall a :: a in plan ==> !ChangesMembers(a, pool)
    ensures MemberChanges(plan, pool) == 0
  {
    if plan != [] {
      assert plan[0] in plan;
      MemberChangesNone(plan[1..], pool);
    }
  }

  lemma {:induction false} MemberChangesAtMost(plan: seq<Update>, pool: string)
    ensures MemberChanges(plan, pool) <= |plan|
  {
    if plan != [] {
      MemberChangesAtMost(plan[1..], pool);
    }
  }

  lemma ChunkOfOthers(job: Job, stage: nat, rec: PoolRec, pool: string)
    requires rec.id != pool
    ensures MemberChanges(Chunk(job, stage, rec), pool) == 0
  {
    DropsOfOnePool(rec.name, rec.id, rec.members, job.nodes);
    AddsOfOnePool(rec.name, rec.id, rec.members, job.nodes);
    MemberChangesNone(Chunk(job, stage, rec), pool);
  }

  lemma {:induction false} ChunksOfOthers(job: Job, stage: nat, recs: seq<PoolRec>, pool: string)
    requires forall i :: 0 <= i < |recs| ==> recs[i].id != pool
    ensures MemberChanges(Chunks(job, stage, recs), pool) == 0
  {
    if recs != [] {
      ChunkOfOthers(job, stage, recs[0], pool);
      ChunksOfOthers(job, stage, recs[1..], pool);
      MemberChangesConcat(Chunk(job, stage, recs[0]), Chunks(job, stage, recs[1..]), pool);
    }
  }

  lemma {:induction false} ChunksOfPool(job: Job, stage: nat, recs: seq<PoolRec>, k: nat)
    requires k < |recs| && forall i, j :: 0 <= i < j < |recs| ==> recs[i].id != recs[j].id
    ensures MemberChanges(Chunks(job, stage, recs), recs[k].id) == MemberChanges(Chunk(job, stage, recs[k]), recs[k].id)
  {
    var pool := recs[k].id;
    MemberChangesConcat(Chunk(job, stage, recs[0]), Chunks(job, stage, recs[1..]), pool);
    if k == 0 {
      ChunksOfOthers(job, stage, recs[1..], pool);
    } else {
      ChunkOfOthers(job, stage, recs[0], pool);
      ChunksOfPool(job, stage, recs[1..], k - 1);
    }
  }

  lemma {:induction false} OthersChangeNone(job: Job, recs: seq<ListenerRec>, ports: seq<ServicePort>, pool: string)
    ensures MemberChanges(ListenerDrops(job, recs), pool) == 0 && MemberChanges(Creates(job, ports), pool) == 0
    decreases |recs| + |ports|
  {
    if recs != [] {
      OthersChangeNone(job, recs[1..], ports, pool);
      MemberChangesConcat(ListenerDrop(job, recs[0]), ListenerDrops(job, recs[1..]), pool);
      MemberChangesNone(ListenerDrop(job, recs[0]), pool);
    } else if ports != [] {
      OthersChangeNone(job, recs, ports[1..], pool);
      MemberChangesConcat(PortCreates(job, ports[0]), Creates(job, ports[1..]), pool);
      MemberChangesNone(PortCreates(job, ports[0]), pool);
    }
  }

  lemma ChangesOfPlan(job: Job, pool: string)
    ensures MemberChanges(PlanOf(job), pool)
            == MemberChanges(Chunks(job, 0, job.pools), pool) + MemberChanges(Chunks(job, 1, job.pools), pool)
               + MemberChanges(Chunks(job, 2, job.pools), pool) + MemberChanges(Chunks(job, 3, job.pools), pool)
  {
    hide MemberChanges;
    var l, c0, c1, c2, c3, n := ListenerDrops(job, job.listeners), Chunks(job, 0, job.pools), Chunks(job, 1, job.pools),
                                Chunks(job, 2, job.pools), Chunks(job, 3, job.pools), Creates(job, job.service.ports);
    MemberChangesConcat(l, c0, pool);
    MemberChangesConcat(l + c0, c1, pool);
    MemberChangesConcat(l + c0 + c1, c2, pool);
    MemberChangesConcat(l + c0 + c1 + c2, c3, pool);
    MemberChangesConcat(l + c0 + c1 + c2 + c3, n, pool);
    OthersChangeNone(job, job.listeners, job.service.ports, pool);
  }

  lemma ChunkChangesOnce(job: Job, rec: PoolRec)
    requires job.merged == {} && (rec.id in MergedPools(job) <==> |Drops(job, rec)| + |Adds(job, rec)| > 1)
    ensures var m := Merged(job);
            MemberChanges(Chunk(m, 0, rec), rec.id) + MemberChanges(Chunk(m, 1, rec), rec.id)
            + MemberChanges(Chunk(m, 2, rec), rec.id) + MemberChanges(Chunk(m, 3, rec), rec.id) <= 1
  {
    var m := Merged(job);
    MergedChunk(job, rec);
    MemberChangesAtMost(Chunk(m, 1, rec), rec.id);
    MemberChangesAtMost(Chunk(m, 3, rec), rec.id);
    MemberChangesNone(Chunk(m, 0, rec), rec.id);
    var changes := Chunk(m, 2, rec);
    if |changes| == 2 {
      assert changes == [changes[0]] + [changes[1]];
      MemberChangesConcat([changes[0]], [changes[1]], rec.id);
      MemberChangesNone([changes[0]], rec.id);
      MemberChangesAtMost([changes[1]], rec.id);
    } else {
      MemberChangesNone(changes, rec.id);
    }
  }

  /** The members of a listed pool are changed by at most one action. */
  lemma MembersChangeOnce(job: Job, s: State, pool: string)
    requires Setup(job, s) && job.merged == {} && pool in s.pools
    ensures MemberChanges(Optimise(PlanOf(job)), pool) <= 1
  {
    hide WF, MemberChanges, Chunk, Chunks, PlanOf, MergedPools, Drops, Adds;
    var m := Merged(job);
    var k :| 0 <= k < |job.pools| && job.pools[k].id == pool;
    OptimiseMerges(job, s);
    ChangesOfPlan(m, pool);
    ChunksOfPool(m, 0, job.pools, k);
    ChunksOfPool(m, 1, job.pools, k);
    ChunksOfPool(m, 2, job.pools, k);
    ChunksOfPool(m, 3, job.pools, k);
    MergedIsCounted(job, s);
    ChunkChangesOnce(job, job.pools[k]);
  }

  // ----- counts along the way -----

  lemma {:induction false} SizeOfRange<K, V>(m: map<K, V>)
    requires forall i, j :: i in m && j in m && i != j ==> m[i] != m[j]
    ensures |m.Values| == |m|
    decreases |m|
  {
    if k :| k in m {
      var rest := m - {k};
      SizeOfRange(rest);
      assert m.Values == rest.Values + {m[k]} by {
        forall v | v in m.Values ensures v in rest.Values + {m[k]} {
          var i :| i in m && m[i] == v;
          assert i == k || i in rest;
        }
      }
      assert m.Keys == rest.Keys + {k};
    } else {
      assert m.Keys == {} && m.Values == {};
    }
  }

  lemma {:induction false} SizeOfSeq<V>(s: seq<V>)
    requires Distinct(s)
    ensures |set x | x in s| == |s|
  {
    if s != [] {
      SizeOfSeq(s[1..]);
      assert (set x | x in s) == (set x | x in s[1..]) + {s[0]};
    }
  }

  ghost predicate InRange<K, V>(m: map<K, V>, v: V) {
    exists i :: i in m && m[i] == v
  }

  /** An injective map has as many keys as a list without repetitions of its values has elements. */
  lemma SameRange<K, V>(m: map<K, V>, s: seq<V>)
    requires forall i, j :: i in m && j in m && i != j ==> m[i] != m[j]
    requires Distinct(s) && (forall i :: i in m ==> m[i] in s) && (forall i :: 0 <= i < |s| ==> InRange(m, s[i]))
    ensures |m| == |s|
  {
    SizeOfRange(m);
    SizeOfSeq(s);
    assert m.Values == set x | x in s;
  }

  /** A covering member map has exactly one member per node. */
  lemma CoversSize(members: map<string, Member>, nodes: seq<string>, nodePort: int)
    requires Covers(members, nodes, nodePort) && MembersOk(members) && Distinct(nodes)
    ensures |members| == |nodes|
  {
    var wanted := seq(|nodes|, i requires 0 <= i < |nodes| => Member(nodes[i], nodePort));
    forall i | i in members ensures members[i] in wanted {
      var j :| 0 <= j < |nodes| && nodes[j] == members[i].target;
      assert wanted[j] == members[i];
    }
    forall j | 0 <= j < |wanted| ensures InRange(members, wanted[j]) {
      assert nodes[j] in nodes;
    }
    SameRange(members, wanted);
  }

  /** The desired state has one pool and one listener per service port. */
  lemma DesiredSizes(s: State, service: Service, nodes: seq<string>)
    requires WF(s) && ServiceOk(service) && Desired(s, service, nodes)
    ensures |s.pools| == |service.ports| && |s.listeners| == |service.ports|
  {
    DesiredPools(s, service, nodes);
    DesiredListeners(s, service, nodes);
  }

  ghost function NamesByPool(s: State): map<string, PoolName> {
    map p | p in s.pools :: s.pools[p].name
  }

  function WantedNames(ports: seq<ServicePort>): (names: seq<PoolName>)
    ensures |names| == |ports| && forall i :: 0 <= i < |ports| ==> names[i] == GenName(ports[i])
  {
    seq(|ports|, i requires 0 <= i < |ports| => GenName(ports[i]))
  }

  lemma DesiredPoolName(s: State, service: Service, nodes: seq<string>, p: string)
    requires p in s.pools && exists port :: port in service.ports && PoolDesired(s.pools[p], service, nodes, port)
    ensures s.pools[p].name in WantedNames(service.ports)
  {
    var port :| port in service.ports && PoolDesired(s.pools[p], service, nodes, port);
    var i :| 0 <= i < |service.ports| && service.ports[i] == port;
    assert WantedNames(service.ports)[i] == s.pools[p].name;
  }

  lemma NamedPoolInRange(s: State, name: PoolName)
    requires HasPool(s, name)
    ensures InRange(NamesByPool(s), name)
  {
    var p :| p in s.pools && s.pools[p].name == name;
    assert p in NamesByPool(s);
  }

  lemma DesiredPools(s: State, service: Service, nodes: seq<string>)
    requires EndpointsUnique(s) && ServiceOk(service) && Desired(s, service, nodes)
    ensures |s.pools| == |service.ports|
  {
    hide PoolDesired, ListenerDesired, HasListener, HasPool, InRange, WantedNames;
    var names, wanted := NamesByPool(s), WantedNames(service.ports);
    forall p | p in names ensures names[p] in wanted {
      DesiredPoolName(s, service, nodes, p);
    }
    forall i | 0 <= i < |wanted| ensures InRange(names, wanted[i]) {
      assert service.ports[i] in service.ports;
      NamedPoolInRange(s, GenName(service.ports[i]));
    }
    SameRange(names, wanted);
    assert names.Keys == s.pools.Keys;
  }

  ghost function ListenerPorts(s: State): map<string, int> {
    map l | l in s.listeners :: s.listeners[l].port
  }

  function WantedPorts(ports: seq<ServicePort>): (numbers: seq<int>)
    ensures |numbers| == |ports| && forall i :: 0 <= i < |ports| ==> numbers[i] == ports[i].port
  {
    seq(|ports|, i requires 0 <= i < |ports| => ports[i].port)
  }

  lemma DesiredListenerPort(s: State, service: Service, l: Listener)
    requires ListenerDesired(s, service, l)
    ensures l.port in WantedPorts(service.ports)
  {
    var port :| port in service.ports && Matches(port, l.protocol, l.port);
    var i :| 0 <= i < |service.ports| && service.ports[i] == port;
    assert WantedPorts(service.ports)[i] == l.port;
  }

  lemma ServedPortInRange(s: State, port: ServicePort)
    requires HasListener(s, port)
    ensures InRange(ListenerPorts(s), port.port)
  {
    var l :| l in s.listeners && Matches(port, s.listeners[l].protocol, s.listeners[l].port);
    assert l in ListenerPorts(s);
  }

  lemma DesiredListeners(s: State, service: Service, nodes: seq<string>)
    requires PortsUnique(s) && ServiceOk(service) && Desired(s, service, nodes)
    ensures |s.listeners| == |service.ports|
  {
    hide PoolDesired, ListenerDesired, HasListener, HasPool, InRange, WantedPorts;
    var numbers, wanted := ListenerPorts(s), WantedPorts(service.ports);
    forall l | l in numbers ensures numbers[l] in wanted {
      DesiredListenerPort(s, service, s.listeners[l]);
    }
    forall i | 0 <= i < |wanted| ensures InRange(numbers, wanted[i]) {
      assert service.ports[i] in service.ports;
      ServedPortInRange(s, service.ports[i]);
    }
    SameRange(numbers, wanted);
    assert numbers.Keys == s.listeners.Keys;
  }

  // Deletions and updates come before creations.

  predicate Grows(a: Update) { a.CreatePool? || a.CreateListener? || a.CreateMember? }

  predicate Shrinks(a: Update) { a.DeletePool? || a.DeleteListener? || a.DeleteMember? || a.UpdatePool? }

  predicate NoneGrows(plan: seq<Update>) { forall i :: 0 <= i < |plan| ==> !Grows(plan[i]) }

  predicate NoneShrinks(plan: seq<Update>) { forall i :: 0 <= i < |plan| ==> !Shrinks(plan[i]) }

  lemma StepSizes(s: State, a: Update, c: Context)
    requires Enabled(s, a)
    ensures var t := Apply(s, a, c);
            && (!Grows(a) ==> t.pools.Keys <= s.pools.Keys && t.listeners.Keys <= s.listeners.Keys)
            && (!Shrinks(a) ==> s.pools.Keys <= t.pools.Keys && s.listeners.Keys <= t.listeners.Keys)
  {
  }

  lemma {:induction false} RunSizes(s: State, plan: seq<Update>, c: Context)
    requires Safe(s, plan, c)
    ensures var t := Run(s, plan, c);
            && (NoneGrows(plan) ==> t.pools.Keys <= s.pools.Keys && t.listeners.Keys <= s.listeners.Keys)
            && (NoneShrinks(plan) ==> s.pools.Keys <= t.pools.Keys && s.listeners.Keys <= t.listeners.Keys)
    decreases |plan|
  {
    hide Apply;
    if plan != [] {
      StepSizes(s, plan[0], c);
      RunSizes(Apply(s, plan[0], c), plan[1..], c);
    }
  }

  lemma SubsetSize<T>(a: set<T>, b: set<T>)
    requires a <= b
    ensures |a| <= |b|
  {
    assert b == a + (b - a);
  }

  /** In a plan whose growth comes last no count rises above the larger of its two ends. */
  lemma ValleySizes(s: State, front: seq<Update>, back: seq<Update>, c: Context, k: nat)
    requires Safe(s, front + back, c) && NoneGrows(front) && NoneShrinks(back) && k <= |front| + |back|
    ensures var mid, t := Run(s, (front + back)[..k], c), Run(s, front + back, c);
            && (mid.pools.Keys <= s.pools.Keys || mid.pools.Keys <= t.pools.Keys)
            && (mid.listeners.Keys <= s.listeners.Keys || mid.listeners.Keys <= t.listeners.Keys)
  {
    hide Run, Safe;
    var plan := front + back;
    assert plan == plan[..k] + plan[k..];
    SafeConcat(s, plan[..k], plan[k..], c);
    if k <= |front| {
      assert plan[..k] == front[..k];
      RunSizes(s, plan[..k], c);
    } else {
      assert plan[k..] == back[k - |front|..];
      RunSizes(Run(s, plan[..k], c), plan[k..], c);
    }
  }

  lemma {:induction false} NoneGrowsInChunks(job: Job, stage: nat, recs: seq<PoolRec>)
    ensures if stage < 3 then NoneGrows(Chunks(job, stage, recs)) else NoneShrinks(Chunks(job, stage, recs))
  {
    hide Chunk;
    if recs != [] {
      NoneGrowsInChunk(job, stage, recs[0]);
      NoneGrowsInChunks(job, stage, recs[1..]);
    }
  }

  lemma NoneGrowsInChunk(job: Job, stage: nat, rec: PoolRec)
    ensures if stage < 3 then NoneGrows(Chunk(job, stage, rec)) else NoneShrinks(Chunk(job, stage, rec))
  {
    DropsOfOnePool(rec.name, rec.id, rec.members, job.nodes);
    AddsOfOnePool(rec.name, rec.id, rec.members, job.nodes);
    var chunk := Chunk(job, stage, rec);
    assert forall i :: 0 <= i < |chunk| ==> chunk[i] in chunk;
  }

  lemma {:induction false} NoneGrowsInDrops(job: Job, recs: seq<ListenerRec>)
    ensures NoneGrows(ListenerDrops(job, recs))
  {
    if recs != [] {
      NoneGrowsInDrops(job, recs[1..]);
    }
  }

  lemma {:induction false} NoneShrinksInCreates(job: Job, ports: seq<ServicePort>)
    ensures NoneShrinks(Creates(job, ports))
  {
    if ports != [] {
      NoneShrinksInCreates(job, ports[1..]);
    }
  }

  lemma NoneGrowsConcat(a: seq<Update>, b: seq<Update>)
    ensures NoneGrows(a) && NoneGrows(b) ==> NoneGrows(a + b)
    ensures NoneShrinks(a) && NoneShrinks(b) ==> NoneShrinks(a + b)
  {
  }

  lemma Regrouped(a: seq<Update>, b: seq<Update>, c: seq<Update>)
    ensures a + b + c == a + (b + c)
  {
  }

  /** The part of a plan after phase 2. */
  function Growth(job: Job): seq<Update> {
    Chunks(job, 3, job.pools) + Creates(job, job.service.ports)
  }

  /** All creations come last: what is before phase 3 creates nothing, and what comes from then on deletes and updates
      nothing. */
  lemma GrowthComesLast(job: Job)
    ensures PlanOf(job) == PoolPlan(job, 3) + Growth(job)
    ensures NoneGrows(PoolPlan(job, 3)) && NoneShrinks(Growth(job))
  {
    PlanShape(job);
    NoneGrowsInDrops(job, job.listeners);
    NoneGrowsInChunks(job, 0, job.pools);
    NoneGrowsInChunks(job, 1, job.pools);
    NoneGrowsInChunks(job, 2, job.pools);
    NoneGrowsInChunks(job, 3, job.pools);
    NoneShrinksInCreates(job, job.service.ports);
    hide Chunks, ListenerDrops, Creates, PlanOf, NoneGrows, NoneShrinks;
    NoneGrowsConcat(PoolPlan(job, 0), Chunks(job, 0, job.pools));
    NoneGrowsConcat(PoolPlan(job, 1), Chunks(job, 1, job.pools));
    NoneGrowsConcat(PoolPlan(job, 2), Chunks(job, 2, job.pools));
    NoneGrowsConcat(Chunks(job, 3, job.pools), Creates(job, job.service.ports));
    Regrouped(PoolPlan(job, 3), Chunks(job, 3, job.pools), Creates(job, job.service.ports));
  }

  /** In the plan that is executed no deletion and no update of a pool follows a creation of any kind. */
  lemma CreationsComeLast(job: Job, s: State)
    requires Setup(job, s) && job.merged == {}
    ensures var plan := Optimise(PlanOf(job));
            forall i, j :: 0 <= i < j < |plan| && Grows(plan[i]) ==> !Shrinks(plan[j])
  {
    hide PlanOf, Optimise, PoolPlan, Growth, Setup, Grows, Shrinks;
    OptimiseMerges(job, s);
    GrowthComesLast(Merged(job));
  }

  function Max(a: int, b: int): int { if a >= b then a else b }

  lemma SizesBetween(s: State, mid: State, t: State)
    requires mid.pools.Keys <= s.pools.Keys || mid.pools.Keys <= t.pools.Keys
    requires mid.listeners.Keys <= s.listeners.Keys || mid.listeners.Keys <= t.listeners.Keys
    ensures |mid.pools| <= Max(|s.pools|, |t.pools|) && |mid.listeners| <= Max(|s.listeners|, |t.listeners|)
  {
    if mid.pools.Keys <= s.pools.Keys { SubsetSize(mid.pools.Keys, s.pools.Keys); }
    else { SubsetSize(mid.pools.Keys, t.pools.Keys); }
    if mid.listeners.Keys <= s.listeners.Keys { SubsetSize(mid.listeners.Keys, s.listeners.Keys); }
    else { SubsetSize(mid.listeners.Keys, t.listeners.Keys); }
  }

  lemma MergedSetup(job: Job, s: State)
    requires Setup(job, s)
    ensures Setup(Merged(job), s)
  {
  }

  /** What is known of a complete run of the merged plan. */
  lemma MergedRun(job: Job, s: State)
    requires Setup(job, s) && job.merged == {}
    ensures var m, c := Merged(job), ContextOf(job);
            var t := Run(s, PlanOf(m), c);
            && Optimise(PlanOf(job)) == PlanOf(m) && ContextOf(m) == c
            && Safe(s, PlanOf(m), c) && WF(s) && WF(t) && NodesOk(c.nodes) && ServiceOk(job.service)
            && Desired(t, job.service, job.nodes)
  {
    var m, c := Merged(job), ContextOf(job);
    assert Setup(m, s) && ContextOf(m) == c;
    hide WF, Run, Safe, PlanOf, Converged, Desired, JobOf;
    OptimiseMerges(job, s);
    PlanRuns(m, s);
    PlanConverges(m, s);
    assert NodesOk(c.nodes) && ServiceOk(job.service) by { JobParts(job, s); }
    SafeKeepsWF(s, PlanOf(m), c);
  }

  lemma JobParts(job: Job, s: State)
    requires JobOf(job, s)
    ensures ServiceOk(job.service) && NodesOk(job.nodes)
  {
  }

  /** Peaks of pools and listeners: at no point of an update are there more than there were before it or
      are there after it, which is one per service port. */
  lemma CountPeaks(job: Job, s: State, k: nat)
    requires Setup(job, s) && job.merged == {} && k <= |Optimise(PlanOf(job))|
    ensures var mid := Run(s, Optimise(PlanOf(job))[..k], ContextOf(job));
            && |mid.pools| <= Max(|s.pools|, |job.service.ports|)
            && |mid.listeners| <= Max(|s.listeners|, |job.service.ports|)
  {
    hide Setup, Run, Safe, PlanOf, PoolPlan, Growth, Desired, WF, NodesOk, ServiceOk;
    var m, c := Merged(job), ContextOf(job);
    MergedRun(job, s);
    GrowthComesLast(m);
    ValleySizes(s, PoolPlan(m, 3), Growth(m), c, k);
    var t := Run(s, PlanOf(m), c);
    DesiredSizes(t, job.service, job.nodes);
    SizesBetween(s, Run(s, PlanOf(m)[..k], c), t);
  }

  // Members: one change takes a pool from its old members to its final ones.

  lemma StepMembers(s: State, a: Update, c: Context, pool: string)
    requires IdsSpent(s) && Enabled(s, a) && pool in s.pools && !ChangesMembers(a, pool)
    ensures var t := Apply(s, a, c); pool in t.pools ==> t.pools[pool].members == s.pools[pool].members
  {
  }

  /** Ids are not reused: a pool that is gone stays gone. */
  lemma StepGone(s: State, a: Update, c: Context, pool: string, bound: nat)
    requires Enabled(s, a) && pool !in s.pools && s.next >= bound && forall n: nat :: n >= bound ==> pool != FreshId(n)
    ensures var t := Apply(s, a, c); pool !in t.pools && t.next >= bound
  {
  }

  lemma {:induction false} RunGone(s: State, plan: seq<Update>, c: Context, pool: string, bound: nat)
    requires Safe(s, plan, c) && pool !in s.pools && s.next >= bound && forall n: nat :: n >= bound ==>
              pool != FreshId(n)
    ensures pool !in Run(s, plan, c).pools
    decreases |plan|
  {
    hide Apply;
    if plan != [] {
      StepGone(s, plan[0], c, pool, bound);
      RunGone(Apply(s, plan[0], c), plan[1..], c, pool, bound);
    }
  }

  lemma {:induction false} RunMembers(s: State, plan: seq<Update>, c: Context, pool: string)
    requires WF(s) && NodesOk(c.nodes) && Safe(s, plan, c) && pool in s.pools && MemberChanges(plan, pool) == 0
    requires pool in Run(s, plan, c).pools
    ensures Run(s, plan, c).pools[pool].members == s.pools[pool].members
    decreases |plan|
  {
    if plan != [] {
      var t := Apply(s, plan[0], c);
      StepKeepsWF(s, plan[0], c);
      StepMembers(s, plan[0], c, pool);
      if pool in t.pools {
        hide Apply, WF;
        RunMembers(t, plan[1..], c, pool);
      } else {
        assert forall n: nat :: n >= s.next ==> pool != FreshId(n);
        StepGrowsIds(s, plan[0], c);
        RunGone(t, plan[1..], c, pool, s.next);
      }
    }
  }

  lemma StepGrowsIds(s: State, a: Update, c: Context)
    requires Enabled(s, a)
    ensures Apply(s, a, c).next >= s.next
  {
  }

  // ----- pools scheduled for deletion -----

  /** The update is made to this pool. */
  predicate Concerns(a: Update, pool: string) {
    && (a.DeletePool? || a.UpdatePool? || a.CreateMember? || a.DeleteMember? || a.ReplaceMembers?)
    && a.poolId == pool
  }

  lemma ChunkConcerns(job: Job, stage: nat, rec: PoolRec)
    ensures forall a :: a in Chunk(job, stage, rec) ==> Concerns(a, rec.id)
    ensures forall a :: a in Chunk(job, stage, rec) && (a.DeletePool? || PortOf(job, rec.name).None?) ==>
                          PortOf(job, rec.name).None? && a == DeletePool(rec.name, rec.id)
  {
    DropsOfOnePool(rec.name, rec.id, rec.members, job.nodes);
    AddsOfOnePool(rec.name, rec.id, rec.members, job.nodes);
  }

  /** Every update made to a listed pool comes from the chunk of that pool in some phase. */
  lemma {:induction false} ChunkOfUpdate(job: Job, stage: nat, recs: seq<PoolRec>, k: nat, a: Update)
    requires k < |recs| && forall i, j :: 0 <= i < j < |recs| ==> recs[i].id != recs[j].id
    requires a in Chunks(job, stage, recs) && Concerns(a, recs[k].id)
    ensures a in Chunk(job, stage, recs[k])
  {
    hide Chunk;
    ChunkConcerns(job, stage, recs[0]);
    if a in Chunk(job, stage, recs[0]) {
      assert Concerns(a, recs[0].id);
    } else {
      StrangerInChunks(job, stage, recs[1..], recs[0].id, a);
      ChunkOfUpdate(job, stage, recs[1..], k - 1, a);
    }
  }

  lemma {:induction false} StrangerInChunks(job: Job, stage: nat, recs: seq<PoolRec>, pool: string, a: Update)
    requires a in Chunks(job, stage, recs) && forall i :: 0 <= i < |recs| ==> recs[i].id != pool
    ensures !Concerns(a, pool)
  {
    hide Chunk;
    ChunkConcerns(job, stage, recs[0]);
    if a !in Chunk(job, stage, recs[0]) {
      StrangerInChunks(job, stage, recs[1..], pool, a);
    }
  }

  lemma {:induction false} OthersConcernNone(job: Job, recs: seq<ListenerRec>, ports: seq<ServicePort>, pool: string)
    ensures forall a :: a in ListenerDrops(job, recs) || a in Creates(job, ports) ==> !Concerns(a, pool)
    decreases |recs| + |ports|
  {
    if recs != [] {
      OthersConcernNone(job, recs[1..], ports, pool);
    } else if ports != [] {
      OthersConcernNone(job, recs, ports[1..], pool);
    }
  }

  lemma OriginOfUpdate(job: Job, k: nat, a: Update) returns (stage: nat)
    requires k < |job.pools| && forall i, j :: 0 <= i < j < |job.pools| ==> job.pools[i].id != job.pools[j].id
    requires a in PlanOf(job) && Concerns(a, job.pools[k].id)
    ensures a in Chunk(job, stage, job.pools[k])
  {
    hide Chunks, Chunk, ListenerDrops, Creates;
    OthersConcernNone(job, job.listeners, job.service.ports, job.pools[k].id);
    stage := if a in Chunks(job, 0, job.pools) then 0 else if a in Chunks(job, 1, job.pools) then 1
             else if a in Chunks(job, 2, job.pools) then 2 else 3;
    ChunkOfUpdate(job, stage, job.pools, k, a);
  }

  /** Every update made to a pool is made to a listed one. */
  lemma PoolOfUpdate(job: Job, a: Update, pool: string) returns (k: nat)
    requires a in PlanOf(job) && Concerns(a, pool)
    ensures k < |job.pools| && job.pools[k].id == pool
  {
    hide Chunks, ListenerDrops, Creates;
    OthersConcernNone(job, job.listeners, job.service.ports, pool);
    if forall i :: 0 <= i < |job.pools| ==> job.pools[i].id != pool {
      var stage := if a in Chunks(job, 0, job.pools) then 0 else if a in Chunks(job, 1, job.pools) then 1
                   else if a in Chunks(job, 2, job.pools) then 2 else 3;
      StrangerInChunks(job, stage, job.pools, pool, a);
      assert false;
    }
    k :| 0 <= k < |job.pools| && job.pools[k].id == pool;
  }

  /** A pool that the plan deletes is left alone otherwise: the deletion is the only update made to it. */
  lemma DeletedPoolIsLeftAlone(job: Job, s: State, a: Update, b: Update)
    requires Setup(job, s) && job.merged == {}
    requires a in Optimise(PlanOf(job)) && a.DeletePool?
    requires b in Optimise(PlanOf(job)) && Concerns(b, a.poolId)
    ensures b == a
  {
    var m := Merged(job);
    OptimiseMerges(job, s);
    hide PlanOf, Chunk, Optimise;
    var k := PoolOfUpdate(m, a, a.poolId);
    var i := OriginOfUpdate(m, k, a);
    var j := OriginOfUpdate(m, k, b);
    ChunkConcerns(m, i, m.pools[k]);
    ChunkConcerns(m, j, m.pools[k]);
  }

  /** A pool no port asks for is not changed member by member: its only update is its deletion. */
  lemma UnwantedPoolUnchanged(job: Job, k: nat)
    requires k < |job.pools| && forall i, j :: 0 <= i < j < |job.pools| ==> job.pools[i].id != job.pools[j].id
    requires PortOf(job, job.pools[k].name).None?
    ensures MemberChanges(PlanOf(job), job.pools[k].id) == 0
  {
    hide PlanOf, MemberChanges, Chunks;
    var rec := job.pools[k];
    ChangesOfPlan(job, rec.id);
    ChunksOfPool(job, 0, job.pools, k);
    ChunksOfPool(job, 1, job.pools, k);
    ChunksOfPool(job, 2, job.pools, k);
    ChunksOfPool(job, 3, job.pools, k);
    MemberChangesNone(Chunk(job, 0, rec), rec.id);
    MemberChangesNone([], rec.id);
  }

  lemma GoneIsUnwanted(job: Job, s0: State, s: State, k: nat)
    requires ListsPools(job.pools, s0) && k < |job.pools| && Converged(job, s0, s) && job.pools[k].id !in s.pools
    ensures PortOf(job, job.pools[k].name).None?
  {
    assert At(job, s0, s, job.pools[k], 4);
  }

  lemma DroppedPoolUnchanged(job: Job, s: State, pool: string)
    requires Setup(job, s) && pool in s.pools && pool !in Run(s, PlanOf(job), ContextOf(job)).pools
    ensures MemberChanges(PlanOf(job), pool) == 0
  {
    hide Converged, MemberChanges, Run, Safe, PlanOf;
    PlanRuns(job, s);
    var k :| 0 <= k < |job.pools| && job.pools[k].id == pool;
    GoneIsUnwanted(job, s, Run(s, PlanOf(job), ContextOf(job)), k);
    UnwantedPoolUnchanged(job, k);
  }

  /** Peaks of members: at every point of an update a listed pool has the members it started with or,
      if it survives, the members it ends with, which are one per node. */
  lemma MemberPeaks(job: Job, s: State, k: nat, pool: string)
    requires Setup(job, s) && job.merged == {} && k <= |Optimise(PlanOf(job))| && pool in s.pools
    ensures var plan, c := Optimise(PlanOf(job)), ContextOf(job);
            var mid, t := Run(s, plan[..k], c), Run(s, plan, c);
            pool in mid.pools ==>
              || mid.pools[pool].members == s.pools[pool].members
              || (pool in t.pools && mid.pools[pool].members == t.pools[pool].members
                  && |mid.pools[pool].members| == |job.nodes|)
  {
    hide Setup, Run, Safe, PlanOf, Desired, WF, NodesOk, ServiceOk, MemberChanges;
    var m, c := Merged(job), ContextOf(job);
    var plan := PlanOf(m);
    MergedRun(job, s);
    MembersChangeOnce(job, s, pool);
    assert plan == plan[..k] + plan[k..];
    MemberChangesConcat(plan[..k], plan[k..], pool);
    SafeConcat(s, plan[..k], plan[k..], c);
    SafeKeepsWF(s, plan[..k], c);
    var mid, t := Run(s, plan[..k], c), Run(s, plan, c);
    if pool in mid.pools {
      if MemberChanges(plan[..k], pool) == 0 {
        RunMembers(s, plan[..k], c, pool);
      } else {
        if pool !in t.pools {
          DroppedPoolUnchanged(m, s, pool) by { MergedSetup(job, s); }
          assert false;
        }
        RunMembers(mid, plan[k..], c, pool);
        FinalMembers(job, t, pool);
      }
    }
  }

  lemma FinalMembers(job: Job, t: State, pool: string)
    requires WF(t) && NodesOk(job.nodes) && Desired(t, job.service, job.nodes) && pool in t.pools
    ensures |t.pools[pool].members| == |job.nodes|
  {
    var port :| port in job.service.ports && PoolDesired(t.pools[pool], job.service, job.nodes, port);
    assert MembersOk(t.pools[pool].members);
    hide Desired, WF;
    CoversSize(t.pools[pool].members, job.nodes, port.nodePort);
  }
}

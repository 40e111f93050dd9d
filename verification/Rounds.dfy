/** Attempts that go round for ever: two pools hold some nodes and a third holds others. As long as an attempt lists the
    odd one first and is cut after its first update, there is always an odd one left. */
module Rounds {
  import opened Text
  import opened Remote
  import opened Plan
  import opened PoolSteps
  import opened Optimiser
  import opened Fixpoint
  import opened Services
  import opened Controller
  import opened FirstSteps
  import opened Retries
  import Lifecycle
  import Nodes

  // ----- pools and their nodes -----

  ghost predicate Holds(s: State, service: Service, p: string, port: ServicePort, nodes: seq<string>) {
    && p in s.pools && port in service.ports && s.pools[p].name == GenName(port)
    && Covers(s.pools[p].members, nodes, port.nodePort)
  }

  predicate Picked(nodes: seq<string>, desired: seq<string>, quota: int) {
    NodesOk(nodes) && |nodes| == quota && Elements(nodes) <= Elements(desired)
  }

  lemma CoversElements(members: map<string, Member>, a: seq<string>, b: seq<string>, nodePort: int)
    requires Covers(members, a, nodePort)
    ensures Covers(members, b, nodePort) <==> Elements(a) == Elements(b)
  {
    ElementsIn(a, b);
    forall n | n in a ensures exists m :: m in members && members[m] == Member(n, nodePort) {
    }
    if Covers(members, b, nodePort) {
      forall n ensures n in a <==> n in b {
        if n in a {
          var m :| m in members && members[m] == Member(n, nodePort);
          assert GoodMember(members[m], b, nodePort);
        }
        if n in b {
          var m :| m in members && members[m] == Member(n, nodePort);
          assert GoodMember(members[m], a, nodePort);
        }
      }
    }
  }

  /** Listing a pool first selects its nodes, if they are as many as the quota. */
  lemma FirstIsSelected(desired: seq<string>, existing: seq<string>, quota: int, nodes: seq<string>)
    requires Distinct(desired) && 0 < quota < |desired| && Picked(nodes, desired, quota)
    requires Elements(existing) == Elements(nodes)
    ensures Elements(Nodes.Select(desired, existing, quota)) == Elements(nodes)
  {
    hide Nodes.Select;
    var selected := Nodes.Select(desired, existing, quota);
    Nodes.SelectedNodes(desired, existing, quota);
    Nodes.SelectionKeepsExisting(desired, existing, quota);
    assert Elements(desired) * Elements(existing) == Elements(nodes);
    Nodes.ElementsSize(nodes);
    Nodes.ElementsSize(selected);
    Nodes.ElementsOfSubset(Elements(selected) * Elements(existing), Elements(selected));
    Nodes.ElementsOfSubset(Elements(selected) * Elements(existing), Elements(existing));
  }

  lemma OwnPort(service: Service, port: ServicePort)
    requires ServiceOk(service) && port in service.ports
    ensures FindPort(service.ports, TCP, port.port) == Some(port)
  {
  }

  /** Neither set of nodes holds the other. */
  lemma DifferentPicks(a: seq<string>, b: seq<string>, desired: seq<string>, quota: int)
    requires Picked(a, desired, quota) && Picked(b, desired, quota) && Elements(a) != Elements(b)
    ensures exists n :: n in a && n !in b
  {
    if forall n :: n in a ==> n in b {
      assert Elements(a) <= Elements(b);
      Nodes.ElementsSize(a);
      Nodes.ElementsSize(b);
      Nodes.ElementsOfSubset(Elements(a), Elements(b));
    }
  }

  /** A pool that holds the selected nodes gets no member update. */
  lemma AgreeingPool(job: Job, s: State, rec: PoolRec, port: ServicePort, nodes: seq<string>)
    requires ListedPool(rec, s) && ServiceOk(job.service) && Holds(s, job.service, rec.id, port, nodes)
    requires Elements(job.nodes) == Elements(nodes)
    ensures Drops(job, rec) == [] && Adds(job, rec) == [] && PortOf(job, rec.name) == Some(port)
  {
    var members := s.pools[rec.id].members;
    OwnPort(job.service, port);
    CoversElements(members, nodes, job.nodes, port.nodePort);
    hide Covers, GoodMember, ListsMembers;
    CoveredNodes(rec.members, members, job.nodes, port.nodePort);
    NoDrops(rec.name, rec.id, rec.members, job.nodes);
    NoAdds(rec.name, rec.id, rec.members, job.nodes);
  }

  /** A pool that holds other nodes has members to drop and nodes to add. */
  lemma DisagreeingPool(job: Job, s: State, rec: PoolRec, port: ServicePort, held: seq<string>, desired: seq<string>,
                        quota: int, selected: seq<string>)
    requires ListedPool(rec, s) && ServiceOk(job.service) && Holds(s, job.service, rec.id, port, held)
    requires Picked(held, desired, quota) && Picked(selected, desired, quota) && Elements(held) != Elements(selected)
    requires Elements(job.nodes) == Elements(selected)
    ensures Drops(job, rec) != [] && Adds(job, rec) != [] && PortOf(job, rec.name) == Some(port)
  {
    var members := s.pools[rec.id].members;
    OwnPort(job.service, port);
    ElementsIn(job.nodes, selected);
    hide FindPort, Picked;
    DifferentPicks(held, selected, desired, quota);
    DifferentPicks(selected, held, desired, quota);
    var x :| x in held && x !in selected;
    var y :| y in selected && y !in held;
    MemberRecorded(rec.members, members, held, port.nodePort, x);
    NoDrops(rec.name, rec.id, rec.members, job.nodes);
    NoAdds(rec.name, rec.id, rec.members, job.nodes);
    NoRecordOf(rec.members, members, held, port.nodePort, y);
  }

  lemma MemberRecorded(recs: seq<MemberRec>, members: map<string, Member>, nodes: seq<string>, nodePort: int, x: string)
    requires ListsMembers(recs, members) && Covers(members, nodes, nodePort) && x in nodes
    ensures exists i :: 0 <= i < |recs| && recs[i].member.target == x
  {
    var m :| m in members && members[m] == Member(x, nodePort);
    var i :| 0 <= i < |recs| && recs[i].id == m;
    assert recs[i].member.target == x;
  }

  lemma NoRecordOf(recs: seq<MemberRec>, members: map<string, Member>, nodes: seq<string>, nodePort: int, y: string)
    requires ListsMembers(recs, members) && Covers(members, nodes, nodePort) && y !in nodes
    ensures !HasMember(recs, Member(y, nodePort))
  {
    forall i | 0 <= i < |recs| ensures recs[i].member.target != y {
      assert GoodMember(members[recs[i].id], nodes, nodePort);
    }
  }

  /** The nodes of an attempt whose first listed pool has members for some nodes, on whatever port. */
  lemma FirstSelects(s: State, service: KubeService, desired: seq<string>, quota: int, pools: seq<PoolRec>,
                     nodePort: int, held: seq<string>)
    returns (nodes: seq<string>)
    requires NodesOk(desired) && service.policy != Local && Nodes.MemberQuota(service.quotaAnnotation) == Some(quota)
    requires 0 < quota < |desired| && Picked(held, desired, quota)
    requires pools != [] && ListsPools(pools, s) && Covers(s.pools[pools[0].id].members, held, nodePort)
    ensures NodesOk(nodes) && Elements(nodes) == Elements(held)
    ensures exists existing :: TargetsOf(existing, pools) && NodesFor(service, desired, existing) == Some(nodes)
  {
    hide Nodes.Select, Nodes.MemberQuota, Covers, Picked;
    var rec := pools[0];
    assert ListedPool(rec, s);
    var existing := seq(|rec.members|, i requires 0 <= i < |rec.members| => rec.members[i].member.target);
    assert TargetsOf(existing, pools);
    hide ListsPools, ListsMembers;
    Lifecycle.CoveredTargets(rec.members, s.pools[rec.id].members, held, nodePort, existing);
    nodes := Nodes.Select(desired, existing, quota);
    FirstIsSelected(desired, existing, quota, held);
    SelectedOk(desired, existing, quota);
  }

  /** An attempt may list these pools first. */
  lemma ListingFirst(s: State, service: KubeService, desired: seq<string>, quota: int, first: seq<string>,
                     nodePort: int, held: seq<string>)
    returns (job: Job)
    requires KubeOk(service) && AllTcp(service) && NodesOk(desired) && WF(s)
    requires service.policy != Local && Nodes.MemberQuota(service.quotaAnnotation) == Some(quota)
    requires 0 < quota < |desired| && Picked(held, desired, quota)
    requires first != [] && Distinct(first) && forall p :: p in first ==> p in s.pools
    requires Covers(s.pools[first[0]].members, held, nodePort)
    ensures JobOf(job, s) && job.merged == {} && job.service == ServiceOf(service)
    ensures Elements(job.nodes) == Elements(held)
    ensures |job.pools| >= |first| && forall i :: 0 <= i < |first| ==> job.pools[i].id == first[i]
    ensures exists existing :: TargetsOf(existing, job.pools) && NodesFor(service, desired, existing) == Some(job.nodes)
  {
    assert ListenersBacked(s);
    hide WF, Covers, Picked, NodesFor, Nodes.MemberQuota, TargetsOf, NodesOk, ListsPools, ListsListeners, ServiceOf,
         KubeOk, AllTcp, Elements;
    var pools := SomePools(s, first);
    var listeners := SomeListeners(s);
    var nodes := FirstSelects(s, service, desired, quota, pools, nodePort, held);
    job := Job(listeners, pools, ServiceOf(service), nodes, {});
  }

  // ----- no nodes are served -----

  lemma HeldAsDesired(s: State, service: Service, nodes: seq<string>, p: string, port: ServicePort, held: seq<string>)
    requires ServiceOk(service) && Desired(s, service, nodes) && Holds(s, service, p, port, held)
    ensures Elements(held) == Elements(nodes)
  {
    hide Covers, MonitorOk;
    var q :| q in service.ports && PoolDesired(s.pools[p], service, nodes, q);
    CoversElements(s.pools[p].members, held, nodes, port.nodePort);
  }

  /** Two pools that hold different nodes are not as any nodes would have them. */
  lemma DisagreeingIsNotDesired(s: State, service: Service, p: string, pPort: ServicePort, x: seq<string>, q: string,
                                qPort: ServicePort, y: seq<string>)
    requires ServiceOk(service) && Holds(s, service, p, pPort, x) && Holds(s, service, q, qPort, y)
    requires Elements(x) != Elements(y)
    ensures forall nodes :: !Desired(s, service, nodes)
  {
    forall nodes ensures !Desired(s, service, nodes) {
      if Desired(s, service, nodes) {
        HeldAsDesired(s, service, nodes, p, pPort, x);
        HeldAsDesired(s, service, nodes, q, qPort, y);
        assert false;
      }
    }
  }

  // ----- going round -----

  /** Three pools: two hold the same nodes, the odd one others. */
  datatype Ring = Ring(a: string, b: string, odd: string, aPort: ServicePort, bPort: ServicePort, oddPort: ServicePort,
                       common: seq<string>, others: seq<string>)

  /** The load balancer has such pools, and anything else. */
  ghost predicate Turns(s: State, service: Service, desired: seq<string>, quota: int, r: Ring) {
    && WF(s) && r.a != r.b && r.b != r.odd && r.odd != r.a
    && Holds(s, service, r.a, r.aPort, r.common) && Holds(s, service, r.b, r.bPort, r.common)
    && Holds(s, service, r.odd, r.oddPort, r.others)
    && Picked(r.common, desired, quota) && Picked(r.others, desired, quota) && Elements(r.common) != Elements(r.others)
  }

  /** The job of an attempt that lists the odd pool first. */
  ghost predicate OddFirst(job: Job, s: State, service: KubeService, desired: seq<string>, r: Ring)
    requires KubeOk(service) && AllTcp(service)
  {
    && JobOf(job, s) && job.merged == {} && job.service == ServiceOf(service)
    && |job.pools| > 1 && job.pools[0].id == r.odd && job.pools[1].id == r.a
    && Elements(job.nodes) == Elements(r.others)
    && exists existing :: TargetsOf(existing, job.pools) && NodesFor(service, desired, existing) == Some(job.nodes)
  }

  lemma OddFirstExists(s: State, service: KubeService, desired: seq<string>, quota: int, r: Ring) returns (job: Job)
    requires KubeOk(service) && AllTcp(service) && NodesOk(desired)
    requires service.policy != Local && Nodes.MemberQuota(service.quotaAnnotation) == Some(quota)
    requires 0 < quota < |desired|
    requires Turns(s, ServiceOf(service), desired, quota, r)
    ensures OddFirst(job, s, service, desired, r)
  {
    hide WF, Covers, GenName, Picked, NodesFor, Nodes.MemberQuota, TargetsOf, NodesOk, ServiceOf, KubeOk, AllTcp,
         Elements, JobOf;
    var first := [r.odd, r.a];
    job := ListingFirst(s, service, desired, quota, first, r.oddPort.nodePort, r.others);
    assert job.pools[0].id == first[0] && job.pools[1].id == first[1];
  }

  /** What the attempt finds: the odd pool agrees with the selected nodes, the next does not. */
  lemma RingPlans(job: Job, s: State, service: KubeService, desired: seq<string>, quota: int, r: Ring)
    requires KubeOk(service) && AllTcp(service) && OddFirst(job, s, service, desired, r)
    requires Turns(s, ServiceOf(service), desired, quota, r)
    ensures Drops(job, job.pools[0]) == [] && Drops(job, job.pools[1]) != [] && Adds(job, job.pools[1]) != []
    ensures job.pools[1].name == GenName(r.aPort)
  {
    hide WF, Drops, Adds, PortOf, Covers, NodesFor, TargetsOf, ListsMembers, Picked;
    var odd, a := job.pools[0], job.pools[1];
    assert ListedPool(odd, s) && ListedPool(a, s);
    AgreeingPool(job, s, odd, r.oddPort, r.others);
    DisagreeingPool(job, s, a, r.aPort, r.common, desired, quota, r.others);
  }

  /** A pool of the ring is of a service port. */
  lemma RingIsWanted(job: Job, s: State, service: KubeService, desired: seq<string>, quota: int, r: Ring, i: nat)
    requires KubeOk(service) && AllTcp(service) && OddFirst(job, s, service, desired, r)
    requires Turns(s, ServiceOf(service), desired, quota, r)
    requires i < |job.pools| && job.pools[i].id in {r.a, r.b, r.odd}
    ensures PortOf(job, job.pools[i].name).Some?
  {
    hide WF, Covers, NodesFor, TargetsOf, ListsMembers, Picked;
    assert ListedPool(job.pools[i], s) && ServiceOk(job.service);
    OwnPort(job.service, r.aPort);
    OwnPort(job.service, r.bPort);
    OwnPort(job.service, r.oddPort);
  }

  /** Such an attempt begins by deleting something else, or by giving the first of the others the nodes of the odd
      pool. */
  lemma FirstUpdate(job: Job, s: State, service: KubeService, desired: seq<string>, quota: int, r: Ring)
    requires KubeOk(service) && AllTcp(service) && OddFirst(job, s, service, desired, r)
    requires Turns(s, ServiceOf(service), desired, quota, r)
    ensures var plan := Optimise(PlanOf(job));
            && plan != [] && Admissible(s, plan[0])
            && (|| plan[0] == ReplaceMembers(GenName(r.aPort), r.a)
                || plan[0].DeleteListener?
                || (plan[0].DeletePool? && plan[0].poolId !in {r.a, r.b, r.odd}))
  {
    hide Turns, OddFirst, Setup, Drops, Adds, PortOf, PlanOf, Optimise, GenName, Chunk, MergedPools, ServiceOf, KubeOk,
         ListsPools, AllTcp, FindPort, Deletions, SameUpToFreshIds, Run, Desired, Admissible;
    OddFirstFacts(job, s, service, desired, quota, r);
    OptimiserPreservesMeaning(job, s);
    OptimiseMerges(job, s);
    if Deletions(job) != [] {
      SameFirst(job, s);
      FirstDeletion(job);
      var d := Deletions(job)[0];
      if d.DeletePool? && d.poolId in {r.a, r.b, r.odd} {
        var i :| 0 <= i < |job.pools| && job.pools[i].id == d.poolId && PortOf(job, job.pools[i].name).None?;
        RingIsWanted(job, s, service, desired, quota, r, i);
        assert false;
      }
    } else {
      RingPlans(job, s, service, desired, quota, r);
      MergedIsCounted(job, s);
      assert job.pools[1].id in MergedPools(job);
      QuietChunk(job, job.pools[0]);
      BusyChunk(job, job.pools[1]);
      DeletionsIgnoreNodes(job, job.nodes, Merged(job).merged);
      assert Merged(job) == job.(nodes := job.nodes, merged := Merged(job).merged);
      StartsWithMembers(Merged(job), 1, ReplaceMembers(job.pools[1].name, r.a));
    }
  }

  lemma OddFirstFacts(job: Job, s: State, service: KubeService, desired: seq<string>, quota: int, r: Ring)
    requires KubeOk(service) && AllTcp(service) && OddFirst(job, s, service, desired, r)
    requires Turns(s, ServiceOf(service), desired, quota, r)
    ensures Setup(job, s) && ListsPools(job.pools, s) && job.merged == {} && NodesOk(job.nodes)
    ensures |job.pools| > 1 && job.pools[1].id == r.a && Elements(job.nodes) == Elements(r.others)
  {
    hide WF, Holds, Picked, ListsPools, ListsListeners, TargetsOf, NodesFor, NodesOk;
  }

  lemma OddFirstSelects(job: Job, s: State, service: KubeService, desired: seq<string>, r: Ring)
    requires KubeOk(service) && AllTcp(service) && OddFirst(job, s, service, desired, r)
    ensures JobOf(job, s) && job.service == ServiceOf(service)
    ensures exists existing :: TargetsOf(existing, job.pools) && NodesFor(service, desired, existing) == Some(job.nodes)
  {
    hide JobOf, NodesFor, TargetsOf, NodesOk;
  }

  function Turned(r: Ring): Ring {
    Ring(r.a, r.odd, r.b, r.aPort, r.oddPort, r.bPort, r.others, r.common)
  }

  lemma ReplaceIs(s: State, u: Update, c: Context)
    requires u.ReplaceMembers? && u.poolId in s.pools
    ensures var members, t := GenMembers(c.nodes, u.name.nodePort, s.next), Apply(s, u, c);
            && t.listeners == s.listeners && t.pools == s.pools[u.poolId := s.pools[u.poolId].(members := members)]
            && t.pools.Keys == s.pools.Keys
  {
  }

  lemma HeldChanges(s: State, t: State, service: Service, p: string, port: ServicePort, before: seq<string>,
                    members: map<string, Member>, after: seq<string>)
    requires Holds(s, service, p, port, before) && t.pools == s.pools[p := s.pools[p].(members := members)]
    requires Covers(members, after, port.nodePort)
    ensures Holds(t, service, p, port, after)
  {
  }

  lemma HeldStays(s: State, t: State, service: Service, p: string, port: ServicePort, nodes: seq<string>, other: string)
    requires Holds(s, service, p, port, nodes)
    requires p != other && other in t.pools && t.pools == s.pools[other := t.pools[other]]
    ensures Holds(t, service, p, port, nodes)
  {
    hide Covers;
  }

  /** After the replacement the other pool is the odd one; a deletion leaves the ring as it is. */
  lemma OneTurn(s: State, u: Update, c: Context, service: Service, desired: seq<string>, quota: int, r: Ring)
    returns (next: Ring)
    requires Turns(s, service, desired, quota, r) && NodesOk(c.nodes) && Elements(c.nodes) == Elements(r.others)
    requires Admissible(s, u)
    requires || u == ReplaceMembers(GenName(r.aPort), r.a) || u.DeleteListener?
             || (u.DeletePool? && u.poolId !in {r.a, r.b, r.odd})
    ensures Turns(Apply(s, u, c), service, desired, quota, next)
  {
    assert Enabled(s, u);
    hide WF, Picked, Covers, GenMembers, Holds, Elements, Apply, Enabled;
    var t := Apply(s, u, c);
    assert WF(t) by { StepKeepsWF(s, u, c); }
    if u.ReplaceMembers? {
      ReplacementTurns(s, c, service, desired, quota, r);
      next := Turned(r);
    } else {
      next := r;
      HeldLeft(s, u, c, service, r.a, r.aPort, r.common);
      HeldLeft(s, u, c, service, r.b, r.bPort, r.common);
      HeldLeft(s, u, c, service, r.odd, r.oddPort, r.others);
    }
  }

  lemma HeldLeft(s: State, u: Update, c: Context, service: Service, p: string, port: ServicePort, nodes: seq<string>)
    requires Holds(s, service, p, port, nodes) && Enabled(s, u)
    requires u.DeleteListener? || (u.DeletePool? && u.poolId != p)
    ensures Holds(Apply(s, u, c), service, p, port, nodes)
  {
    hide Covers;
  }

  lemma ReplacementTurns(s: State, c: Context, service: Service, desired: seq<string>, quota: int, r: Ring)
    requires Turns(s, service, desired, quota, r) && NodesOk(c.nodes) && Elements(c.nodes) == Elements(r.others)
    requires Admissible(s, ReplaceMembers(GenName(r.aPort), r.a))
    ensures Turns(Apply(s, ReplaceMembers(GenName(r.aPort), r.a), c), service, desired, quota, Turned(r))
  {
    hide WF, Picked, Covers, GenMembers, Holds, Apply, Elements;
    var u := ReplaceMembers(GenName(r.aPort), r.a);
    assert r.a in s.pools;
    var t, members := Apply(s, u, c), GenMembers(c.nodes, r.aPort.nodePort, s.next);
    assert WF(t) by { StepKeepsWF(s, u, c); }
    ReplaceIs(s, u, c);
    GenMembersCover(c.nodes, r.aPort.nodePort, s.next);
    CoversElements(members, c.nodes, r.others, r.aPort.nodePort);
    HeldChanges(s, t, service, r.a, r.aPort, r.common, members, r.others);
    HeldStays(s, t, service, r.b, r.bPort, r.common, r.a);
    HeldStays(s, t, service, r.odd, r.oddPort, r.others, r.a);
  }

  /** It goes round for any number of attempts, each of which takes effect. */
  lemma {:induction false} GoesRound(s: State, service: KubeService, desired: seq<string>, quota: int, r: Ring, n: nat)
    returns (runs: seq<Attempt>, t: State)
    requires KubeOk(service) && AllTcp(service) && NodesOk(desired)
    requires service.policy != Local && Nodes.MemberQuota(service.quotaAnnotation) == Some(quota)
    requires 0 < quota < |desired|
    requires Turns(s, ServiceOf(service), desired, quota, r)
    ensures |runs| == n && RetryRun(s, runs, t, service, desired) && forall i :: 0 <= i < n ==> runs[i].taken == 1
    ensures WF(t) && forall nodes :: !Desired(t, ServiceOf(service), nodes)
    decreases n
  {
    hide *;
    if n == 0 {
      runs, t := [], s;
      RingIsNotDesired(s, service, desired, quota, r);
    } else {
      var job, next := NextTurn(s, service, desired, quota, r);
      var rest;
      rest, t := GoesRound(Run(s, Optimise(PlanOf(job))[..1], ContextOf(job)), service, desired, quota, next, n - 1);
      runs := [Attempt(job, 1)] + rest;
      AttemptAdded(job, s, rest, t, service, desired);
    }
  }

  lemma RingIsNotDesired(s: State, service: KubeService, desired: seq<string>, quota: int, r: Ring)
    requires KubeOk(service) && AllTcp(service) && Turns(s, ServiceOf(service), desired, quota, r)
    ensures WF(s) && RetryRun(s, [], s, service, desired) && forall nodes :: !Desired(s, ServiceOf(service), nodes)
  {
    hide WF, Picked, Holds, Desired;
    DisagreeingIsNotDesired(s, ServiceOf(service), r.a, r.aPort, r.common, r.odd, r.oddPort, r.others);
  }

  lemma NextTurn(s: State, service: KubeService, desired: seq<string>, quota: int, r: Ring)
    returns (job: Job, next: Ring)
    requires KubeOk(service) && AllTcp(service) && NodesOk(desired)
    requires service.policy != Local && Nodes.MemberQuota(service.quotaAnnotation) == Some(quota)
    requires 0 < quota < |desired|
    requires Turns(s, ServiceOf(service), desired, quota, r)
    ensures JobOf(job, s) && job.merged == {} && Optimise(PlanOf(job)) != []
    ensures Retry(Attempt(job, 1), service, desired)
    ensures Turns(Run(s, Optimise(PlanOf(job))[..1], ContextOf(job)), ServiceOf(service), desired, quota, next)
  {
    hide Optimise, PlanOf, Apply, Turns, Nodes.MemberQuota, NodesOk, Run, ServiceOf, KubeOk, AllTcp, OddFirst, JobOf,
         Retry, ListsPools, Admissible;
    job := OddFirstExists(s, service, desired, quota, r);
    FirstUpdate(job, s, service, desired, quota, r);
    OddFirstFacts(job, s, service, desired, quota, r);
    IsRetry(job, service, desired) by { OddFirstSelects(job, s, service, desired, r); }
    var plan, c := Optimise(PlanOf(job)), ContextOf(job);
    next := OneTurn(s, plan[0], c, ServiceOf(service), desired, quota, r);
    RunOne(s, plan[0], c);
    assert plan[..1] == [plan[0]];
  }

  lemma IsRetry(job: Job, service: KubeService, desired: seq<string>)
    requires KubeOk(service) && AllTcp(service) && job.service == ServiceOf(service)
    requires exists existing ::
               TargetsOf(existing, job.pools) && NodesFor(service, desired, existing) == Some(job.nodes)
    ensures Retry(Attempt(job, 1), service, desired)
  {
    hide NodesFor, TargetsOf, Optimise, PlanOf;
  }

  lemma AttemptAdded(job: Job, s: State, rest: seq<Attempt>, t: State, service: KubeService, desired: seq<string>)
    requires KubeOk(service) && AllTcp(service) && JobOf(job, s) && job.merged == {} && Optimise(PlanOf(job)) != []
    requires Retry(Attempt(job, 1), service, desired)
    requires RetryRun(Run(s, Optimise(PlanOf(job))[..1], ContextOf(job)), rest, t, service, desired)
    ensures RetryRun(s, [Attempt(job, 1)] + rest, t, service, desired)
  {
    hide JobOf, Retry, Optimise, PlanOf, Run;
    assert ([Attempt(job, 1)] + rest)[1..] == rest;
  }

  // ----- a load balancer that goes round -----

  lemma PicksExist(desired: seq<string>, quota: int)
    requires NodesOk(desired) && 0 < quota < |desired|
    ensures Picked(desired[..quota], desired, quota) && Picked(desired[1..quota + 1], desired, quota)
    ensures Elements(desired[..quota]) != Elements(desired[1..quota + 1])
  {
    var x, y := desired[..quota], desired[1..quota + 1];
    assert forall n :: n in x ==> n in desired;
    assert forall n :: n in y ==> n in desired;
    assert x[0] in Elements(x) && desired[0] !in y;
  }

  /** In the desired state every port has a pool that holds the nodes. */
  lemma DesiredHolds(s: State, service: Service, nodes: seq<string>, port: ServicePort) returns (p: string)
    requires ServiceOk(service) && Desired(s, service, nodes) && port in service.ports
    ensures Holds(s, service, p, port, nodes)
  {
    hide Covers, MonitorOk;
    assert HasPool(s, GenName(port));
    p :| p in s.pools && s.pools[p].name == GenName(port);
    var q :| q in service.ports && PoolDesired(s.pools[p], service, nodes, q);
    OwnPort(service, port);
    OwnPort(service, q);
  }

  /** With an exceeded quota, a load balancer for three ports can come to go round. */
  lemma RingExists(service: Service, desired: seq<string>, quota: int) returns (s: State, r: Ring)
    requires ServiceOk(service) && |service.ports| >= 3 && NodesOk(desired) && 0 < quota < |desired|
    ensures Turns(s, service, desired, quota, r)
  {
    var x, y := desired[..quota], desired[1..quota + 1];
    var aPort, bPort, oddPort := service.ports[0], service.ports[1], service.ports[2];
    PicksExist(desired, quota);
    assert NodesOk(x) && NodesOk(y);
    hide WF, Desired, Holds, NodesOk, Elements;
    Lifecycle.ServedIsDesired(service, x);
    var base := Lifecycle.Served(service, x);
    var a := DesiredHolds(base, service, x, aPort);
    var b := DesiredHolds(base, service, x, bPort);
    var odd := DesiredHolds(base, service, x, oddPort);
    HeldApart(base, service, a, aPort, b, bPort, x);
    HeldApart(base, service, b, bPort, odd, oddPort, x);
    HeldApart(base, service, odd, oddPort, a, aPort, x);
    s := OtherNodes(base, service, odd, oddPort, x, y);
    r := Ring(a, b, odd, aPort, bPort, oddPort, x, y);
    HeldStays(base, s, service, a, aPort, x, odd);
    HeldStays(base, s, service, b, bPort, x, odd);
  }

  lemma HeldApart(s: State, service: Service, p: string, pPort: ServicePort, q: string, qPort: ServicePort,
                  nodes: seq<string>)
    requires Holds(s, service, p, pPort, nodes) && Holds(s, service, q, qPort, nodes) && pPort.port != qPort.port
    ensures p != q
  {
    hide Covers;
  }

  /** A pool is given other nodes. */
  lemma OtherNodes(s: State, service: Service, p: string, port: ServicePort, x: seq<string>, y: seq<string>)
    returns (t: State)
    requires WF(s) && Holds(s, service, p, port, x) && NodesOk(y)
    ensures WF(t) && Holds(t, service, p, port, y)
    ensures p in t.pools && t.pools == s.pools[p := t.pools[p]]
  {
    hide WF, Covers, GenMembers;
    var u, c := ReplaceMembers(GenName(port), p), Context(y, 0);
    t := Apply(s, u, c);
    StepKeepsWF(s, u, c);
    GenMembersCover(y, port.nodePort, s.next);
  }
}

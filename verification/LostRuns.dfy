/** When retrying is sure to succeed: exactly if no quota keeps a node out or the service has a single port. With two
    ports an attempt that is cut after it renamed a pool, and one that then fills this pool with the nodes it had before
    it was renamed, leave two pools with different nodes. */
module LostRuns {
  import opened Text
  import opened Remote
  import opened Plan
  import opened PoolSteps
  import opened Optimiser
  import opened Fixpoint
  import opened Shortest
  import opened Services
  import opened Controller
  import opened FirstSteps
  import opened Retries
  import opened Rounds
  import Bounds
  import Lifecycle
  import Nodes
  import Planner

  // ----- one pool has an old name -----

  /** Every listener and every pool is of some service port. */
  ghost predicate AllWanted(s: State, service: Service) {
    StrayListeners(s, service) == {} && StrayPools(s, service) == {}
  }

  lemma NothingIsDeleted(job: Job, s: State)
    requires Setup(job, s) && AllWanted(s, job.service)
    ensures Deletions(job) == []
  {
    hide WF, ListsMembers;
    forall i | 0 <= i < |job.listeners|
      ensures PortFor(job.service, job.listeners[i].listener.protocol, job.listeners[i].listener.port).Some?
    {
      assert ListedListener(job.listeners[i], s) && job.listeners[i].id !in StrayListeners(s, job.service);
    }
    NoListenerDrops(job, job.listeners);
    forall i | 0 <= i < |job.pools| ensures Chunk(job, 0, job.pools[i]) == [] {
      assert ListedPool(job.pools[i], s) && job.pools[i].id !in StrayPools(s, job.service);
      assert PortOf(job, job.pools[i].name) == PortOfPool(job.service, s.pools[job.pools[i].id]);
    }
    NoChunks(job, 0, job.pools);
  }

  lemma NothingElse(base: State, s: State, pool: string, service: Service, nodes: seq<string>)
    requires ServiceOk(service) && Desired(base, service, nodes) && PoolChanged(base, s, pool)
    ensures AllWanted(s, service) && PoollessPorts(s, service) == {} && ListenerlessPorts(s, service) == {}
    ensures OldHeads(s, service) <= {pool} && Touched(s, service, nodes) <= {pool}
  {
    hide Desired, OldHeads, PoolChanged, StrayListeners, StrayPools, PoollessPorts, ListenerlessPorts, Touched;
    DesiredIsRight(base, service, nodes);
    PoolUpdate(base, s, pool, service, nodes);
    OnlyOne(OldHeads(base, service), OldHeads(s, service), pool);
    OnlyOne(Touched(base, service, nodes), Touched(s, service, nodes), pool);
  }

  lemma OnlyOne<T>(before: set<T>, after: set<T>, x: T)
    requires before == {} && before - {x} == after - {x}
    ensures after <= {x}
  {
    forall y | y in after ensures y == x {
      assert y !in after - {x};
    }
  }

  /** The desired state but for one pool, which has the name of another node port and any members. */
  ghost predicate Behind(base: State, s: State, pool: string, port: ServicePort, service: Service, nodes: seq<string>) {
    && Desired(base, service, nodes) && PoolChanged(base, s, pool) && port in service.ports
    && SameEndpoint(s.pools[pool].name, GenName(port)) && s.pools[pool].name != GenName(port)
  }

  lemma BehindByTwo(base: State, s: State, pool: string, port: ServicePort, service: Service, nodes: seq<string>)
    requires ServiceOk(service) && Behind(base, s, pool, port, service, nodes)
    ensures Length(s, service, nodes) == 2
  {
    hide Desired, GenName;
    NothingElse(base, s, pool, service, nodes);
    IsMisnamed(s, pool, port, service, nodes);
    hide OldHeads, StrayListeners, StrayPools, PoollessPorts, ListenerlessPorts, Touched;
    assert OldHeads(s, service) == {pool} && Touched(s, service, nodes) == {pool};
  }

  lemma IsMisnamed(s: State, pool: string, port: ServicePort, service: Service, nodes: seq<string>)
    requires ServiceOk(service) && port in service.ports && pool in s.pools
    requires SameEndpoint(s.pools[pool].name, GenName(port)) && s.pools[pool].name != GenName(port)
    ensures pool in OldHeads(s, service) && pool in Touched(s, service, nodes)
  {
    OwnPort(service, port);
  }

  lemma OthersAreLeft(job: Job, base: State, s: State, pool: string, rec: PoolRec, phase: nat)
    requires ServiceOk(job.service) && Desired(base, job.service, job.nodes) && PoolChanged(base, s, pool)
    requires ListedPool(rec, s) && rec.id != pool
    ensures Chunk(job, phase, rec) == []
  {
    hide Chunk, PoolDesired, ListsMembers, HasPool, HasListener, ListenerDesired, ServiceOk, SameEndpoint, GenName;
    assert rec.id in base.pools && base.pools[rec.id] == s.pools[rec.id];
    DesiredPoolIsLeft(job, s, rec, phase);
  }

  lemma RenamedChunks(job: Job, s: State, rec: PoolRec, port: ServicePort)
    requires ServiceOk(job.service) && ListedPool(rec, s) && port in job.service.ports
    requires SameEndpoint(rec.name, GenName(port)) && rec.name != GenName(port)
    ensures Chunk(job, 1, rec) == []
    ensures Chunk(job, 2, rec) == [UpdatePool(GenName(port), rec.id), ReplaceMembers(GenName(port), rec.id)]
  {
    OwnPort(job.service, port);
  }

  /** The plan renames the pool and replaces its members. */
  lemma FirstIsRename(job: Job, base: State, s: State, pool: string, port: ServicePort)
    requires Setup(job, s) && job.merged == {} && Behind(base, s, pool, port, job.service, job.nodes)
    ensures var plan := Optimise(PlanOf(job)); |plan| == 2 && plan[0] == UpdatePool(GenName(port), pool)
  {
    BehindByTwo(base, s, pool, port, job.service, job.nodes);
    PlanHasLength(job, s);
    OptimiseMerges(job, s);
    Bounds.MergedSetup(job, s);
    hide WF, Optimise, PlanOf, Chunk, Length, PoolDesired, AllWanted, ListsMembers, ListsListeners, GenName, Deletions,
         HasListener, ListenerDesired;
    var m := Merged(job);
    NothingElse(base, s, pool, m.service, m.nodes);
    NothingIsDeleted(m, s);
    assert HasPoolRec(m.pools, pool);
    var k :| 0 <= k < |m.pools| && m.pools[k].id == pool;
    forall i | 0 <= i < |m.pools|
      ensures Chunk(m, 1, m.pools[i]) == [] && (i != k ==> Chunk(m, 2, m.pools[i]) == [])
    {
      assert ListedPool(m.pools[i], s);
      if i == k {
        RenamedChunks(m, s, m.pools[i], port);
      } else {
        OthersAreLeft(m, base, s, pool, m.pools[i], 1);
        OthersAreLeft(m, base, s, pool, m.pools[i], 2);
      }
    }
    RenamedChunks(m, s, m.pools[k], port);
    StartsWithChange(m, k, UpdatePool(GenName(port), pool));
  }

  // ----- a renamed pool has its old members -----

  /** No member on another node port is kept. */
  lemma AllOutdated(job: Job, s: State, rec: PoolRec, port: ServicePort, held: seq<string>, nodePort: int)
    requires ServiceOk(job.service) && ListedPool(rec, s) && port in job.service.ports && rec.name == GenName(port)
    requires Covers(s.pools[rec.id].members, held, nodePort) && nodePort != port.nodePort
    requires held != [] && job.nodes != []
    ensures Drops(job, rec) != [] && Adds(job, rec) != []
  {
    var members := s.pools[rec.id].members;
    OwnPort(job.service, port);
    MemberRecorded(rec.members, members, held, nodePort, held[0]);
    forall i | 0 <= i < |rec.members| ensures rec.members[i].member.port == nodePort {
      assert GoodMember(members[rec.members[i].id], held, nodePort);
    }
    NoDrops(rec.name, rec.id, rec.members, job.nodes);
    NoAdds(rec.name, rec.id, rec.members, job.nodes);
    assert !HasMember(rec.members, Member(job.nodes[0], port.nodePort));
  }

  /** An attempt that lists it first replaces them. */
  lemma FirstIsReplace(job: Job, s: State, pool: string, port: ServicePort, held: seq<string>, nodePort: int)
    requires Setup(job, s) && job.merged == {} && AllWanted(s, job.service) && port in job.service.ports
    requires job.pools != [] && job.pools[0].id == pool && pool in s.pools && s.pools[pool].name == GenName(port)
    requires Covers(s.pools[pool].members, held, nodePort) && nodePort != port.nodePort
    requires held != [] && job.nodes != []
    ensures var plan := Optimise(PlanOf(job)); plan != [] && plan[0] == ReplaceMembers(GenName(port), pool)
  {
    var rec := job.pools[0];
    assert ListedPool(rec, s);
    AllOutdated(job, s, rec, port, held, nodePort);
    MergedIsCounted(job, s);
    OptimiseMerges(job, s);
    Bounds.MergedSetup(job, s);
    hide WF, Optimise, PlanOf, Chunk, Drops, Adds, ListsPools, ListsListeners, GenName, Deletions, Covers, MergedPools,
         AllWanted;
    BusyChunk(job, rec);
    NothingIsDeleted(Merged(job), s);
    StartsWithMembers(Merged(job), 0, ReplaceMembers(rec.name, rec.id));
  }

  // ----- the run -----

  /** Two ports whose pools hold these nodes; the second pool has the name of another node port and other members. */
  datatype Pair = Pair(a: string, b: string, aPort: ServicePort, bPort: ServicePort, other: Port, x: seq<string>,
                       y: seq<string>)

  ghost predicate Split(base: State, s: State, service: Service, desired: seq<string>, quota: int, r: Pair) {
    && WF(s) && r.a != r.b && r.other != r.bPort.nodePort
    && Holds(base, service, r.b, r.bPort, r.x) && Holds(s, service, r.a, r.aPort, r.x)
    && Behind(base, s, r.b, r.bPort, service, r.x) && Covers(s.pools[r.b].members, r.y, r.other)
    && Picked(r.x, desired, quota) && Picked(r.y, desired, quota) && Elements(r.x) != Elements(r.y)
  }

  lemma SplitExists(service: Service, desired: seq<string>, quota: int) returns (base: State, s: State, r: Pair)
    requires ServiceOk(service) && |service.ports| >= 2 && NodesOk(desired) && 0 < quota < |desired|
    ensures Split(base, s, service, desired, quota, r)
  {
    var x, y := desired[..quota], desired[1..quota + 1];
    var aPort, bPort := service.ports[0], service.ports[1];
    var other := if bPort.nodePort == 30000 then 30001 else 30000;
    PicksExist(desired, quota);
    assert NodesOk(x) && NodesOk(y);
    hide WF, Desired, Holds, NodesOk, Elements, Behind, Picked, Covers;
    Lifecycle.ServedIsDesired(service, x);
    base := Lifecycle.Served(service, x);
    var a := DesiredHolds(base, service, x, aPort);
    var b := DesiredHolds(base, service, x, bPort);
    HeldApart(base, service, a, aPort, b, bPort, x);
    s := Misplaced(base, service, b, bPort, other, x, y);
    HeldStays(base, s, service, a, aPort, x, b);
    r := Pair(a, b, aPort, bPort, other, x, y);
  }

  /** A pool gets another node port in its name and other members there. */
  lemma Misplaced(s: State, service: Service, p: string, port: ServicePort, other: Port, x: seq<string>, y: seq<string>)
    returns (t: State)
    requires WF(s) && Desired(s, service, x) && Holds(s, service, p, port, x) && NodesOk(y) && other != port.nodePort
    ensures WF(t) && Behind(s, t, p, port, service, x) && Covers(t.pools[p].members, y, other)
    ensures p in t.pools && t.pools == s.pools[p := t.pools[p]]
  {
    var c, name := Context(y, 0), GenName(port).(nodePort := other);
    hide WF, Covers, Desired;
    var t1 := Renamed(s, service, p, port, name, x, c);
    t := Refilled(t1, p, c);
  }

  lemma Renamed(s: State, service: Service, p: string, port: ServicePort, name: PoolName, x: seq<string>, c: Context)
    returns (t: State)
    requires WF(s) && Holds(s, service, p, port, x) && SameEndpoint(name, GenName(port)) && NodesOk(c.nodes)
    ensures WF(t) && PoolChanged(s, t, p) && t.pools[p].name == name
  {
    var u := UpdatePool(name, p);
    assert EndpointsUnique(s);
    assert Admissible(s, u);
    t := Apply(s, u, c);
    hide WF, Covers;
    StepKeepsWF(s, u, c);
  }

  lemma Refilled(s: State, p: string, c: Context) returns (t: State)
    requires WF(s) && p in s.pools && NodesOk(c.nodes)
    ensures WF(t) && PoolChanged(s, t, p) && t.pools[p].name == s.pools[p].name
    ensures Covers(t.pools[p].members, c.nodes, s.pools[p].name.nodePort)
  {
    hide WF, Covers, GenMembers;
    var u := ReplaceMembers(s.pools[p].name, p);
    StepKeepsWF(s, u, c);
    t := Apply(s, u, c);
    GenMembersCover(c.nodes, u.name.nodePort, s.next);
  }

  /** After the rename: the second pool has the right name and its old members. */
  ghost predicate HalfDone(s: State, service: Service, desired: seq<string>, quota: int, r: Pair) {
    && WF(s) && r.a != r.b && r.other != r.bPort.nodePort && AllWanted(s, service)
    && Holds(s, service, r.a, r.aPort, r.x) && r.bPort in service.ports
    && r.b in s.pools && s.pools[r.b].name == GenName(r.bPort) && Covers(s.pools[r.b].members, r.y, r.other)
    && Picked(r.x, desired, quota) && Picked(r.y, desired, quota) && Elements(r.x) != Elements(r.y)
  }

  lemma RenameHalves(base: State, s: State, c: Context, service: Service, desired: seq<string>, quota: int, r: Pair)
    requires ServiceOk(service) && Split(base, s, service, desired, quota, r)
    requires NodesOk(c.nodes) && Admissible(s, UpdatePool(GenName(r.bPort), r.b))
    ensures HalfDone(Apply(s, UpdatePool(GenName(r.bPort), r.b), c), service, desired, quota, r)
  {
    var u := UpdatePool(GenName(r.bPort), r.b);
    hide WF, Covers, Picked, Desired, PatchMonitor, Elements;
    StepKeepsWF(s, u, c);
    var t := Apply(s, u, c);
    NothingElse(base, t, r.b, service, r.x);
    hide AllWanted;
    HeldStays(s, t, service, r.a, r.aPort, r.x, r.b);
  }

  /** The first attempt lists the other pool first and is cut after the rename. */
  lemma FirstAttempt(base: State, s: State, service: KubeService, desired: seq<string>, quota: int, r: Pair)
    returns (job: Job)
    requires KubeOk(service) && AllTcp(service) && NodesOk(desired)
    requires service.policy != Local && Nodes.MemberQuota(service.quotaAnnotation) == Some(quota)
    requires 0 < quota < |desired| && Split(base, s, ServiceOf(service), desired, quota, r)
    ensures JobOf(job, s) && job.merged == {} && Retry(Attempt(job, 1), service, desired)
    ensures |Optimise(PlanOf(job))| == 2
    ensures HalfDone(Run(s, Optimise(PlanOf(job))[..1], ContextOf(job)), ServiceOf(service), desired, quota, r)
  {
    hide Optimise, PlanOf, Run, Apply, WF, Covers, Picked, Desired, HalfDone, NodesFor, Nodes.MemberQuota, NodesOk,
         ServiceOf, KubeOk, AllTcp, Elements, ListsPools, ListsListeners, TargetsOf, PoolChanged, Admissible, Retry;
    job := ListingFirst(s, service, desired, quota, [r.a], r.aPort.nodePort, r.x);
    IsRetry(job, service, desired);
    var plan, c, u := Optimise(PlanOf(job)), ContextOf(job), UpdatePool(GenName(r.bPort), r.b);
    ElementsIn(job.nodes, r.x);
    DesiredForSameNodes(base, job.service, r.x, job.nodes);
    FirstIsRename(job, base, s, r.b, r.bPort);
    OptimiserPreservesMeaning(job, s);
    FirstAlone(s, plan, c);
    RenameHalves(base, s, c, job.service, desired, quota, r);
  }

  lemma FirstAlone(s: State, plan: seq<Update>, c: Context)
    requires plan != [] && Safe(s, plan, c)
    ensures Admissible(s, plan[0]) && Run(s, plan[..1], c) == Apply(s, plan[0], c)
  {
    RunOne(s, plan[0], c);
    assert plan[..1] == [plan[0]];
  }

  /** The second lists that pool first and is cut after it replaced its members. */
  lemma SecondAttempt(s: State, service: KubeService, desired: seq<string>, quota: int, r: Pair)
    returns (job: Job)
    requires KubeOk(service) && AllTcp(service) && NodesOk(desired)
    requires service.policy != Local && Nodes.MemberQuota(service.quotaAnnotation) == Some(quota)
    requires 0 < quota < |desired| && HalfDone(s, ServiceOf(service), desired, quota, r)
    ensures JobOf(job, s) && job.merged == {} && Retry(Attempt(job, 1), service, desired)
    ensures Optimise(PlanOf(job)) != []
    ensures var t := Run(s, Optimise(PlanOf(job))[..1], ContextOf(job));
            forall nodes :: !Desired(t, ServiceOf(service), nodes)
  {
    hide Optimise, PlanOf, Run, Apply, WF, Covers, Picked, Desired, NodesFor, Nodes.MemberQuota, NodesOk,
         ServiceOf, KubeOk, AllTcp, Elements, ListsPools, ListsListeners, TargetsOf, Admissible, Retry, AllWanted;
    job := ListingFirst(s, service, desired, quota, [r.b], r.other, r.y);
    IsRetry(job, service, desired);
    var plan, c := Optimise(PlanOf(job)), ContextOf(job);
    SomeNode(r.y, job.nodes, desired, quota);
    FirstIsReplace(job, s, r.b, r.bPort, r.y, r.other);
    OptimiserPreservesMeaning(job, s);
    FirstAlone(s, plan, c);
    var t := Apply(s, plan[0], c);
    ReplaceIs(s, plan[0], c);
    GenMembersCover(c.nodes, r.bPort.nodePort, s.next);
    HeldStays(s, t, job.service, r.a, r.aPort, r.x, r.b);
    DisagreeingIsNotDesired(t, job.service, r.a, r.aPort, r.x, r.b, r.bPort, c.nodes);
  }

  lemma SomeNode(held: seq<string>, nodes: seq<string>, desired: seq<string>, quota: int)
    requires Picked(held, desired, quota) && quota > 0 && Elements(held) == Elements(nodes)
    ensures held != [] && nodes != []
  {
    assert held[0] in Elements(nodes);
  }

  /** The run that shows it: enough attempts, both of which take effect, and no state anyone asked for. */
  lemma LostRun(service: KubeService, desired: seq<string>) returns (s: State, runs: seq<Attempt>, t: State)
    requires KubeOk(service) && AllTcp(service) && NodesOk(desired) && |service.ports| >= 2
    requires service.policy != Local && Nodes.MemberQuota(service.quotaAnnotation).Some?
    requires !AllNodesFit(service, desired)
    ensures WF(s) && RetryRun(s, runs, t, service, desired) && Enough(runs)
    ensures forall i :: 0 <= i < |runs| ==> runs[i].taken == 1
    ensures forall nodes :: !Desired(t, ServiceOf(service), nodes)
  {
    var svc, quota := ServiceOf(service), Nodes.MemberQuota(service.quotaAnnotation).value;
    assert |svc.ports| == |Planner.KubesOf(svc.ports)|;
    hide NodesOk, Nodes.MemberQuota, Desired, WF, RetryRun, Enough, Selectable, ServiceOf, KubeOk, AllTcp, ServiceOk;
    s, runs, t := RunIsLost(service, desired, quota) by { assert ServiceOk(svc); }
  }

  lemma RunIsLost(service: KubeService, desired: seq<string>, quota: int)
    returns (s: State, runs: seq<Attempt>, t: State)
    requires KubeOk(service) && AllTcp(service) && NodesOk(desired)
    requires ServiceOk(ServiceOf(service)) && |ServiceOf(service).ports| >= 2
    requires service.policy != Local && Nodes.MemberQuota(service.quotaAnnotation) == Some(quota)
    requires 0 < quota < |desired|
    ensures WF(s) && RetryRun(s, runs, t, service, desired) && Enough(runs)
    ensures forall i :: 0 <= i < |runs| ==> runs[i].taken == 1
    ensures forall nodes :: !Desired(t, ServiceOf(service), nodes)
  {
    hide *;
    var svc := ServiceOf(service);
    var base, r;
    base, s, r := SplitExists(svc, desired, quota);
    assert WF(s) by { SplitIsWF(base, s, svc, desired, quota, r); }
    var first := FirstAttempt(base, s, service, desired, quota, r);
    var t1 := Run(s, Optimise(PlanOf(first))[..1], ContextOf(first));
    var second := SecondAttempt(t1, service, desired, quota, r);
    t := Run(t1, Optimise(PlanOf(second))[..1], ContextOf(second));
    NoAttempts(t, service, desired);
    AttemptAdded(second, t1, [], t, service, desired);
    assert [Attempt(second, 1)] + [] == [Attempt(second, 1)];
    AttemptAdded(first, s, [Attempt(second, 1)], t, service, desired);
    runs := [Attempt(first, 1)] + [Attempt(second, 1)];
    TwoAreEnough(runs);
  }

  lemma SplitIsWF(base: State, s: State, service: Service, desired: seq<string>, quota: int, r: Pair)
    requires Split(base, s, service, desired, quota, r)
    ensures WF(s)
  {
  }

  lemma TwoAreEnough(runs: seq<Attempt>)
    requires |runs| == 2 && |Optimise(PlanOf(runs[0].job))| == 2
    ensures Enough(runs)
  {
    hide Optimise, PlanOf;
  }

  lemma NoAttempts(t: State, service: KubeService, desired: seq<string>)
    requires KubeOk(service) && AllTcp(service)
    ensures RetryRun(t, [], t, service, desired)
  {
  }

  // ----- when retrying succeeds -----

  /** Every sequence of enough attempts reaches the desired state of nodes the service may select. */
  ghost predicate RetryingSucceeds(service: KubeService, desired: seq<string>)
    requires KubeOk(service) && AllTcp(service)
  {
    forall s, runs, t :: WF(s) && RetryRun(s, runs, t, service, desired) && Enough(runs) ==>
                           exists nodes :: Selectable(service, desired, nodes) && Desired(t, ServiceOf(service), nodes)
  }

  /** Retrying is sure to succeed if and only if no quota keeps a node out or the service has at most one port. */
  lemma RetryingSucceedsIff(service: KubeService, desired: seq<string>)
    requires KubeOk(service) && AllTcp(service) && NodesOk(desired)
    requires service.policy != Local ==> Nodes.MemberQuota(service.quotaAnnotation).Some?
    ensures RetryingSucceeds(service, desired) <==> AllNodesFit(service, desired) || |service.ports| <= 1
  {
    hide WF, RetryRun, Enough, Desired, Selectable, NodesFor, NodesOk, Nodes.MemberQuota, ServiceOf, KubeOk, AllTcp;
    if AllNodesFit(service, desired) || |service.ports| <= 1 {
      forall s, runs, t | WF(s) && RetryRun(s, runs, t, service, desired) && Enough(runs)
        ensures exists nodes :: Selectable(service, desired, nodes) && Desired(t, ServiceOf(service), nodes)
      {
        var nodes := Succeeds(service, desired, s, runs, t);
      }
    } else {
      var s, runs, t := LostRun(service, desired);
      assert !RetryingSucceeds(service, desired);
    }
  }

  lemma Succeeds(service: KubeService, desired: seq<string>, s: State, runs: seq<Attempt>, t: State)
    returns (nodes: seq<string>)
    requires KubeOk(service) && AllTcp(service) && NodesOk(desired)
    requires AllNodesFit(service, desired) || |service.ports| <= 1
    requires WF(s) && RetryRun(s, runs, t, service, desired) && Enough(runs)
    ensures Selectable(service, desired, nodes) && Desired(t, ServiceOf(service), nodes)
  {
    hide WF, RetryRun, Enough, Desired, NodesFor, ServiceOf, KubeOk, AllTcp, AllNodesFit;
    if AllNodesFit(service, desired) {
      RetriesSucceed(service, desired, s, runs, t);
      nodes := AllSelectable(service, desired);
      ElementsIn(nodes, desired);
      DesiredForSameNodes(t, ServiceOf(service), desired, nodes);
    } else {
      nodes := OnePortSucceeds(service, desired, s, runs, t);
    }
  }

  lemma AllSelectable(service: KubeService, desired: seq<string>) returns (nodes: seq<string>)
    requires NodesOk(desired) && AllNodesFit(service, desired)
    ensures Selectable(service, desired, nodes) && Elements(nodes) == Elements(desired)
  {
    hide Nodes.Select, Nodes.MemberQuota;
    AllSelected(service, desired, []);
    nodes := NodesFor(service, desired, []).value;
    if service.policy != Local {
      SelectedOk(desired, [], Nodes.MemberQuota(service.quotaAnnotation).value);
    }
  }
}

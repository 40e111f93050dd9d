/** UpdateLoadBalancer from end to end: the checks before anything is planned, the selection of nodes, the plan,
    and its execution. */
module Controller {
  import opened Text
  import opened Remote
  import opened Plan
  import opened Convergence
  import opened PoolNames
  import opened Optimiser
  import opened Fixpoint
  import opened Codec
  import opened Planner
  import opened Sdk
  import opened Services
  import Executor
  import Merging
  import Nodes
  import Subnets

  datatype Rejection =
    NotReady | NotTcp | TypeChanged | SubnetsChanged | NoNodes | ListingFailed | BadQuota | UpdateFailed

  datatype Result = Done | Rejected(reason: Rejection)

  /** validateService */
  method ValidateService(service: KubeService) returns (ok: bool)
    ensures ok <==> AllTcp(service)
  {
    var i := 0;
    while i < |service.ports|
      invariant 0 <= i <= |service.ports|
      invariant forall j :: 0 <= j < i ==> service.ports[j].protocol == "TCP"
    {
      if service.ports[i].protocol != "TCP" {
        return false;
      }
      i := i + 1;
    }
    ok := true;
  }

  /** getPoolMemberTargets */
  method GetPoolMemberTargets(members: seq<MemberRec>) returns (targets: seq<string>)
    ensures |targets| == |members| && forall i :: 0 <= i < |members| ==> targets[i] == members[i].member.target
  {
    targets := [];
    var i := 0;
    while i < |members|
      invariant 0 <= i <= |members| && |targets| == i
      invariant forall j :: 0 <= j < i ==> targets[j] == members[j].member.target
    {
      targets := targets + [members[i].member.target];
      i := i + 1;
    }
  }

  ghost predicate TargetsOf(existing: seq<string>, pools: seq<PoolRec>) {
    if pools == [] then existing == []
    else |existing| == |pools[0].members| && forall i :: 0 <= i < |existing| ==>
           existing[i] == pools[0].members[i].member.target
  }

  lemma ListedTargets(recs: seq<PoolRec>, s: State)
    requires PoolsOk(s) && ListsPools(recs, s)
    ensures forall i, j :: 0 <= i < |recs| && 0 <= j < |recs[i].members| ==> Token(recs[i].members[j].member.target)
  {
    forall i, j | 0 <= i < |recs| && 0 <= j < |recs[i].members| ensures Token(recs[i].members[j].member.target) {
      assert ListedPool(recs[i], s) && MembersOk(s.pools[recs[i].id].members);
    }
  }

  lemma TokenHasNoSpace(x: string)
    requires Token(x)
    ensures x != "" && ' ' !in x
  {
  }

  lemma TokensHaveNoSpace(xs: seq<string>)
    requires AllTokens(xs)
    ensures forall i :: 0 <= i < |xs| ==> xs[i] != "" && ' ' !in xs[i]
  {
    forall i | 0 <= i < |xs| ensures xs[i] != "" && ' ' !in xs[i] {
      TokenHasNoSpace(xs[i]);
    }
  }

  lemma SelectedOk(desired: seq<string>, existing: seq<string>, quota: int)
    requires NodesOk(desired)
    ensures NodesOk(Nodes.Select(desired, existing, quota))
  {
    hide Nodes.Select;
    Nodes.SelectedNodes(desired, existing, quota);
    var nodes := Nodes.Select(desired, existing, quota);
    forall i | 0 <= i < |nodes| ensures Token(nodes[i]) {
      assert nodes[i] in Elements(nodes);
      var j :| 0 <= j < |desired| && desired[j] == nodes[i];
    }
  }

  /** getNodeIDs: the internal addresses of the nodes that have one. */
  function NodeIDs(nodes: seq<string>): seq<string> {
    if nodes == [] then []
    else if nodes[0] != "" then [nodes[0]] + NodeIDs(nodes[1..])
    else NodeIDs(nodes[1..])
  }

  method GetNodeIDs(nodes: seq<string>) returns (ids: seq<string>)
    ensures ids == NodeIDs(nodes)
  {
    ids := [];
    var i := 0;
    while i < |nodes|
      invariant 0 <= i <= |nodes|
      invariant ids + NodeIDs(nodes[i..]) == NodeIDs(nodes)
    {
      assert nodes[i..][0] == nodes[i] && nodes[i..][1..] == nodes[i + 1..];
      if nodes[i] != "" {
        ids := ids + [nodes[i]];
      }
      i := i + 1;
    }
  }

  /** The subnets annotation, if set, stands for the subnets the load balancer has. */
  predicate SubnetsUnchanged(service: KubeService, lb: LoadBalancer, subnets: seq<Subnets.Subnet>) {
    var annotation := Subnets.WithoutSpaces(service.subnetsAnnotation);
    annotation == ""
    || Subnets.ResolveAll(Split(annotation, ','), Subnets.VpcOf(lb.subnets, subnets), subnets) ==
         Some(Elements(lb.subnets))
  }

  predicate SubnetIdsPlain(lb: LoadBalancer, subnets: seq<Subnets.Subnet>) {
    Subnets.PlainIds(subnets) && Subnets.Plain(lb.subnets) && Distinct(lb.subnets)
  }

  // ----- planning on a listing -----

  lemma ListsMore(recs: seq<PoolRec>, id: string)
    requires recs != [] && (id == recs[0].id || HasPoolRec(recs[1..], id))
    ensures HasPoolRec(recs, id)
  {
    if id == recs[0].id {
    } else {
      var i :| 0 <= i < |recs[1..]| && recs[1..][i].id == id;
      assert recs[i + 1].id == id;
    }
  }

  lemma UpdatesInChunk(job: Job, stage: nat, rec: PoolRec)
    ensures forall a :: a in Chunk(job, stage, rec) && a.UpdatePool? ==> a.poolId == rec.id
  {
    DropsOfOnePool(rec.name, rec.id, rec.members, job.nodes);
    AddsOfOnePool(rec.name, rec.id, rec.members, job.nodes);
  }

  lemma {:induction false} UpdatesAreListed(job: Job, stage: nat, recs: seq<PoolRec>)
    ensures forall a :: a in Chunks(job, stage, recs) && a.UpdatePool? ==> HasPoolRec(recs, a.poolId)
  {
    hide Chunk, HasPoolRec;
    if recs != [] {
      UpdatesAreListed(job, stage, recs[1..]);
      UpdatesInChunk(job, stage, recs[0]);
      forall a | a in Chunks(job, stage, recs) && a.UpdatePool? ensures HasPoolRec(recs, a.poolId) {
        ListsMore(recs, a.poolId);
      }
    }
  }

  lemma {:induction false} NoUpdatesElsewhere(job: Job, recs: seq<ListenerRec>, ports: seq<ServicePort>)
    ensures forall a :: a in ListenerDrops(job, recs) || a in Creates(job, ports) ==> !a.UpdatePool?
    decreases |recs| + |ports|
  {
    if recs != [] {
      NoUpdatesElsewhere(job, recs[1..], ports);
    } else if ports != [] {
      NoUpdatesElsewhere(job, recs, ports[1..]);
    }
  }

  /** Every UPDATE-POOL of a plan names a pool of the listing it was made from. */
  lemma PlannedPoolsAreListed(job: Job)
    ensures forall a :: a in PlanOf(job) && a.UpdatePool? ==>
              exists i :: 0 <= i < |job.pools| && job.pools[i].id == a.poolId
  {
    hide Chunks, ListenerDrops, Creates;
    UpdatesAreListed(job, 0, job.pools);
    UpdatesAreListed(job, 1, job.pools);
    UpdatesAreListed(job, 2, job.pools);
    UpdatesAreListed(job, 3, job.pools);
    NoUpdatesElsewhere(job, job.listeners, job.service.ports);
  }

  /** Steps 1 to 8 on a listing: the lines of the merged plan. */
  method MakePlan(listeners: seq<ListenerRow>, pools: array<PoolRow>, service: KubeService, nodes: seq<string>,
                  ghost job: Job, ghost s: State)
    returns (r: Planned)
    requires KubeOk(service) && AllTcp(service) && job.service == ServiceOf(service) && nodes == job.nodes
    requires Setup(job, s) && job.merged == {}
    requires |listeners| == |job.listeners| && forall i :: 0 <= i < |listeners| ==>
              listeners[i] == ListenerRowOf(job.listeners[i])
    requires pools.Length == |job.pools| && forall i :: 0 <= i < pools.Length ==> pools[i] == RowOf(job.pools[i])
    modifies pools
    ensures r == Ok(Texts(Optimise(PlanOf(job))))
    ensures forall i :: 0 <= i < pools.Length ==> pools[i].id == job.pools[i].id
  {
    hide RowOf, ListenerRowOf, Texts, PlanOf, Safe, WF, JobOf, Show, Lines, SpellAll, Printable, Spell, Parses,
         Optimise;
    JobFacts(job, s);
    r := PlanUpdates(listeners, pools, service.ports, service.policy, service.healthCheckNodePort, nodes, job, true);
    PlanRuns(job, s);
    Executor.SafeIsPrintable(s, PlanOf(job), ContextOf(job));
    OptimiseSpelt(PlanOf(job));
    TextsAreLines(PlanOf(job));
    TextsAreLines(Optimise(PlanOf(job)));
    var filtered := Merging.CheckForMultiplePoolMemberUpdates(r.updates, SpellAll(PlanOf(job)));
    r := Ok(filtered);
  }

  lemma TextsAreLines(plan: seq<Update>)
    ensures Texts(plan) == Lines(SpellAll(plan))
  {
  }

  lemma JobFacts(job: Job, s: State)
    requires Setup(job, s)
    ensures ServiceOk(job.service) && NodesOk(job.nodes)
    ensures forall i, j :: 0 <= i < |job.pools| && 0 <= j < |job.pools[i].members| ==>
              Token(job.pools[i].members[j].member.target)
    ensures forall i :: 0 <= i < |job.pools| ==> RowOf(job.pools[i]).id == job.pools[i].id
  {
    ListedTargets(job.pools, s);
  }

  /** What a complete merged run of a job means. */
  lemma MergedPlanFacts(job: Job, s: State)
    requires Setup(job, s) && job.merged == {}
    ensures var plan, c := Optimise(PlanOf(job)), ContextOf(job);
            && WF(s) && NodesOk(c.nodes) && Safe(s, plan, c)
            && Desired(Run(s, plan, c), job.service, job.nodes)
            && (plan == [] <==> Desired(s, job.service, job.nodes))
            && forall a :: a in plan && a.UpdatePool? ==>
                 exists i :: 0 <= i < |job.pools| && job.pools[i].id == a.poolId
  {
    var other := Merged(job);
    assert Setup(other, s) && other.pools == job.pools;
    hide Setup, Safe, Run, Desired, PlanOf, Optimise, SameUpToFreshIds;
    OptimiserPreservesMeaning(job, s);
    OptimiseMerges(job, s);
    PlanEmptyIffDesired(other, s);
    PlannedPoolsAreListed(other);
    SetupFacts(job, s);
  }

  /** What an attempt at an update did: the job was for this service and these nodes, a prefix of its merged plan took
      effect, and the calls issued are that prefix or one update more. */
  ghost predicate IsAttempt(attempt: Attempt, s: State, service: Service, nodes: seq<string>, t: State,
                            calls: seq<Update>)
  {
    && attempt.job.service == service && attempt.job.nodes == nodes && Attempts(s, [attempt], t)
    && attempt.taken <= |calls| <= attempt.taken + 1 && calls <= Optimise(PlanOf(attempt.job))
  }

  /** An attempt was made, to the end of its plan if it is done. */
  ghost predicate Attempted(s: State, service: Service, nodes: seq<string>, t: State, calls: seq<Update>, done: bool) {
    exists attempt: Attempt ::
      && IsAttempt(attempt, s, service, nodes, t, calls)
      && (done ==> calls == Optimise(PlanOf(attempt.job)) && attempt.taken == |calls|)
  }

  lemma AttemptMade(job: Job, s: State, taken: nat, issued: nat)
    requires Setup(job, s) && job.merged == {} && taken <= issued <= taken + 1 && issued <= |Optimise(PlanOf(job))|
    ensures var plan := Optimise(PlanOf(job));
            Attempted(s, job.service, job.nodes, Run(s, plan[..taken], ContextOf(job)), plan[..issued], taken == |plan|)
  {
    hide Run, PlanOf, Optimise, WF, ContextOf;
    var plan := Optimise(PlanOf(job));
    var attempt, t := Attempt(job, taken), Run(s, plan[..taken], ContextOf(job));
    assert [attempt][1..] == [] && Attempts(t, [], t);
    assert Attempts(s, [attempt], t);
    assert IsAttempt(attempt, s, job.service, job.nodes, t, plan[..issued]);
    assert plan[..|plan|] == plan;
  }

  lemma SetupFacts(job: Job, s: State)
    requires Setup(job, s)
    ensures WF(s) && NodesOk(ContextOf(job).nodes)
  {
  }

  /** The nodes of an update, or None if the quota annotation is no number. */
  method SelectNodes(service: KubeService, desired: seq<string>, rows: seq<PoolRow>, ghost recs: seq<PoolRec>,
                     ghost s: State)
    returns (r: Option<seq<string>>, ghost existing: seq<string>)
    requires NodesOk(desired) && PoolsOk(s) && ListsPools(recs, s)
    requires |rows| == |recs| && forall i :: 0 <= i < |recs| ==> rows[i] == RowOf(recs[i])
    ensures |existing| == if rows == [] then 0 else |rows[0].members|
    ensures forall i :: 0 <= i < |existing| ==> existing[i] == rows[0].members[i].member.target
    ensures TargetsOf(existing, recs) && r == NodesFor(service, desired, existing)
    ensures r.Some? ==> NodesOk(r.value)
  {
    hide Show, Nodes.Select, Nodes.MemberQuota;
    ListedTargets(recs, s);
    var targets := [];
    if |rows| > 0 {
      targets := GetPoolMemberTargets(rows[0].members);
    }
    existing := targets;
    assert AllTokens(targets);
    TokensHaveNoSpace(targets);
    TokensHaveNoSpace(desired);
    r := Nodes.FilterNodesByServiceMemberQuota(desired, targets, service.policy == Local, service.quotaAnnotation);
    if r.Some? && service.policy != Local {
      SelectedOk(desired, targets, Nodes.MemberQuota(service.quotaAnnotation).value);
    }
  }

  /** The subnets annotation is set and does not stand for the load balancer's subnets. */
  predicate SubnetsDiffer(service: KubeService, lb: LoadBalancer, subnets: seq<Subnets.Subnet>) {
    Subnets.WithoutSpaces(service.subnetsAnnotation) != ""
    && (SubnetIdsPlain(lb, subnets) ==> !SubnetsUnchanged(service, lb, subnets))
  }

  /** Nothing about the request stands in the way of an update. */
  predicate Acceptable(service: KubeService, lb: LoadBalancer, nodes: seq<string>, subnets: seq<Subnets.Subnet>) {
    && IsReady(lb) && AllTcp(service) && IsServicePublic(service) == lb.isPublic
    && !SubnetsDiffer(service, lb, subnets)
    && nodes != [] && (service.policy != Local ==> Nodes.MemberQuota(service.quotaAnnotation).Some?)
  }

  /** The checks that come before the subnets are listed. */
  predicate Updatable(lb: LoadBalancer, service: KubeService) {
    IsReady(lb) && AllTcp(service) && IsServicePublic(service) == lb.isPublic
  }

  /** The checks before the listeners and pools are listed. */
  predicate Admitted(lb: LoadBalancer, service: KubeService, nodes: seq<string>, subnets: seq<Subnets.Subnet>) {
    && Updatable(lb, service) && (SubnetIdsPlain(lb, subnets) ==> SubnetsUnchanged(service, lb, subnets)) && nodes != []
  }

  /** The reason holds of the request, and no reason that is looked for earlier does. The listings may fail, and so
      may an update, for reasons of the service's. */
  predicate Justified(reason: Rejection, lb: LoadBalancer, service: KubeService, nodes: seq<string>,
                      allSubnets: Option<seq<Subnets.Subnet>>) {
    match reason
    case NotReady => !IsReady(lb)
    case NotTcp => IsReady(lb) && !AllTcp(service)
    case TypeChanged => IsReady(lb) && AllTcp(service) && IsServicePublic(service) != lb.isPublic
    case SubnetsChanged => Updatable(lb, service) && allSubnets.Some? && SubnetsDiffer(service, lb, allSubnets.value)
    case NoNodes => Updatable(lb, service) && allSubnets.Some? && nodes == []
    case ListingFailed =>
      Updatable(lb, service) && (allSubnets.Some? ==> Admitted(lb, service, nodes, allSubnets.value))
    case BadQuota =>
      && allSubnets.Some? && Admitted(lb, service, nodes, allSubnets.value)
      && service.policy != Local && Nodes.MemberQuota(service.quotaAnnotation).None?
    case UpdateFailed => allSubnets.Some? && Admitted(lb, service, nodes, allSubnets.value)
  }

  /** The checks before the load balancer's listeners and pools are looked at. */
  method CheckRequest(lb: LoadBalancer, service: KubeService, nodes: seq<string>,
                      allSubnets: Option<seq<Subnets.Subnet>>)
    returns (r: Result)
    ensures r == Rejected(NotReady) <==> lb.operatingStatus != "online" || lb.provisioningStatus != "active"
    ensures r.Done? ==> nodes != [] && forall i :: 0 <= i < |service.ports| ==> service.ports[i].protocol == "TCP"
    ensures r.Done? ==> (service.ipTypeAnnotation in {"", "public"}) == lb.isPublic
    ensures r == Rejected(TypeChanged) ==> (service.ipTypeAnnotation in {"", "public"}) != lb.isPublic
    ensures r.Done? ==> allSubnets.Some? && Admitted(lb, service, nodes, allSubnets.value)
    ensures r.Rejected? ==> Justified(r.reason, lb, service, nodes, allSubnets)
    ensures r.Rejected? ==> r.reason != UpdateFailed && r.reason != BadQuota
    ensures r == Rejected(ListingFailed) ==> allSubnets.None?
  {
    if !IsReady(lb) {
      return Rejected(NotReady);
    }
    var valid := ValidateService(service);
    if !valid {
      return Rejected(NotTcp);
    }
    if IsServicePublic(service) != lb.isPublic {
      return Rejected(TypeChanged);
    }
    if allSubnets.None? {
      return Rejected(ListingFailed);
    }
    var accepted := Subnets.ValidateServiceSubnetsNotUpdated(service.subnetsAnnotation, lb.subnets, allSubnets.value);
    if !accepted {
      return Rejected(SubnetsChanged);
    }
    if nodes == [] {
      return Rejected(NoNodes);
    }
    r := Done;
  }

  /** The targets of the pool that some listing of the load balancer has first. */
  ghost predicate Existing(existing: seq<string>, s: State) {
    exists recs :: ListsPools(recs, s) && TargetsOf(existing, recs)
  }

  /** The number of rounds a wait for this load balancer has. */
  function Patience(lb: LoadBalancer): nat {
    if IsNLB(lb) then 3 * 60 / 14 else 2 * 60 / 8
  }

  /** A network load balancer is waited for in 12 rounds, any other in 15. */
  lemma PatienceIs(lb: LoadBalancer)
    ensures Patience(lb) == if ToLower(lb.profileFamily) == "network" then 12 else 15
  {
    assert ToLower("network") == "network";
  }

  /** The service was asked for updates, all of them or until one failed. */
  predicate Executed(r: Result) {
    r.Done? || r.reason == UpdateFailed
  }

  /** Steps 1 to 8 and the execution of what they come to. */
  method PlanAndExecute(sdk: VpcSdk, lb: LoadBalancer, service: KubeService, nodeList: seq<string>,
                        listeners: seq<ListenerRow>, rows: seq<PoolRow>, ghost job: Job)
    returns (r: Result, ghost calls: seq<Update>)
    requires KubeOk(service) && AllTcp(service) && job.service == ServiceOf(service) && nodeList == job.nodes
    requires Setup(job, sdk.remote) && job.merged == {} && sdk.Observed(lb) && IsReady(lb) && Disciplined(sdk.log)
    requires |listeners| == |job.listeners|
             && forall i :: 0 <= i < |listeners| ==> listeners[i] == ListenerRowOf(job.listeners[i])
    requires |rows| == |job.pools| && forall i :: 0 <= i < |rows| ==> rows[i] == RowOf(job.pools[i])
    modifies sdk
    ensures WF(sdk.remote) && Disciplined(sdk.log) && Issues(sdk.log) == Issues(old(sdk.log)) + calls
    ensures Executed(r) && Attempted(old(sdk.remote), job.service, job.nodes, sdk.remote, calls, r.Done?)
    ensures r.Done? ==> Desired(sdk.remote, job.service, job.nodes)
    ensures Desired(old(sdk.remote), job.service, job.nodes) ==>
              r.Done? && sdk.remote == old(sdk.remote) && sdk.log == old(sdk.log)
    ensures sdk.reliable && sdk.least + sdk.slack < Patience(lb) ==> r.Done?
    ensures sdk.least >= Patience(lb) ==> |calls| <= 1
  {
    hide WF, Setup, ListsRefs, Disciplined, Desired, RowOf, ListenerRowOf, Texts, PlanOf, Optimise, Safe, Run, NodesOk,
         KubesOf, Attempted, Issues;
    ghost var plan := Optimise(PlanOf(job));
    var c := Context(nodeList, if service.policy == Local then service.healthCheckNodePort else 0);
    assert ContextOf(job) == c;
    MergedPlanFacts(job, sdk.remote);
    var pools := new PoolRow[|rows|](i requires 0 <= i < |rows| => rows[i]);
    var planned := MakePlan(listeners, pools, service, nodeList, job, sdk.remote);
    var updates := planned.updates;
    if |updates| == 0 {
      RunNone(sdk.remote, c);
      AttemptMade(job, sdk.remote, 0, 0);
      assert plan[..0] == [];
      return Done, [];
    }
    var maxWaitTime, minSleepTime := 2 * 60, 8;
    if IsNLB(lb) {
      maxWaitTime, minSleepTime := 3 * 60, 14;
    }
    ghost var s := sdk.remote;
    var ok, taken, issued := Executor.ExecuteUpdates(sdk, lb, updates, pools[..], minSleepTime, maxWaitTime, c, plan);
    calls := plan[..issued];
    SafeKeepsPrefix(s, plan, c, taken);
    AttemptMade(job, s, taken, issued);
    if !ok {
      AttemptedAnyway(s, job.service, job.nodes, sdk.remote, calls, taken == |plan|);
      return Rejected(UpdateFailed), calls;
    }
    assert plan[..taken] == plan;
    r := Done;
  }

  lemma AttemptedAnyway(s: State, service: Service, nodes: seq<string>, t: State, calls: seq<Update>, done: bool)
    requires Attempted(s, service, nodes, t, calls, done)
    ensures Attempted(s, service, nodes, t, calls, false)
  {
    hide IsAttempt;
  }

  /** From the listings on: select nodes, plan, execute. */
  method Reconcile(sdk: VpcSdk, lb: LoadBalancer, service: KubeService, desired: seq<string>)
    returns (r: Result, ghost existing: seq<string>, ghost calls: seq<Update>)
    requires WF(sdk.remote) && KubeOk(service) && AllTcp(service) && NodesOk(desired)
    requires sdk.Observed(lb) && IsReady(lb) && Disciplined(sdk.log)
    modifies sdk
    ensures WF(sdk.remote) && Disciplined(sdk.log) && Issues(sdk.log) == Issues(old(sdk.log)) + calls
    ensures if Executed(r) then
              && Existing(existing, old(sdk.remote)) && NodesFor(service, desired, existing).Some?
              && Attempted(old(sdk.remote), ServiceOf(service), NodesFor(service, desired, existing).value,
                           sdk.remote, calls, r.Done?)
            else
              && (r.reason == ListingFailed || (r.reason == BadQuota && NodesFor(service, desired, existing).None?))
              && sdk.remote == old(sdk.remote) && sdk.log == old(sdk.log)
    ensures r.Done? ==> Desired(sdk.remote, ServiceOf(service), NodesFor(service, desired, existing).value)
    ensures Executed(r) && Desired(old(sdk.remote), ServiceOf(service), NodesFor(service, desired, existing).value) ==>
              r.Done? && sdk.remote == old(sdk.remote) && sdk.log == old(sdk.log)
    ensures sdk.reliable ==> r != Rejected(ListingFailed)
    ensures sdk.reliable && sdk.least + sdk.slack < Patience(lb) ==> r != Rejected(UpdateFailed)
    ensures sdk.least >= Patience(lb) ==> |calls| <= 1
  {
    hide WF, ListsRefs, Disciplined, Desired, RowOf, ListenerRowOf, Texts, PlanOf, Optimise, Safe, Run, NodesOk,
         KubesOf, ListsPools, ListsListeners, TargetsOf, ServiceOk, Attempted, Issues;
    existing, calls := [], [];
    assert ListenersBacked(sdk.remote) && PoolsOk(sdk.remote) by { PartsOfWF(sdk.remote); }
    var listeners, listenerRecs := sdk.ListLoadBalancerListeners();
    if listeners.None? {
      return Rejected(ListingFailed), existing, calls;
    }
    var rows, poolRecs := sdk.ListLoadBalancerPools();
    if rows.None? {
      return Rejected(ListingFailed), existing, calls;
    }
    var nodeList;
    nodeList, existing := SelectNodes(service, desired, rows.value, poolRecs, sdk.remote);
    if nodeList.None? {
      return Rejected(BadQuota), existing, calls;
    }
    ghost var job := Job(listenerRecs, poolRecs, ServiceOf(service), nodeList.value, {});
    assert Setup(job, sdk.remote);
    r, calls := PlanAndExecute(sdk, lb, service, nodeList.value, listeners.value, rows.value, job);
  }

  /** UpdateLoadBalancer. `nodes` are the internal addresses of the nodes that passed the label filters, `allSubnets`
      the answer to ListSubnets. Whatever the service does, the invariant holds afterwards and every mutating call came
      right after a look that saw online/active. Either the request is rejected for a reason that holds and nothing
      changes, or updates are executed: then a prefix of the plan for the service and the selected nodes took effect,
      and the calls are that prefix or one update more. Success means all of the plan, and that the load balancer is
      as desired; nothing is issued if it already was. A reliable service lets every acceptable request succeed if it
      is busy after an update for fewer looks than a wait has rounds; if it always is for longer, no update makes a
      second call. */
  method UpdateLoadBalancer(sdk: VpcSdk, lb: LoadBalancer, service: KubeService, nodes: seq<string>,
                            allSubnets: Option<seq<Subnets.Subnet>>)
    returns (r: Result, ghost existing: seq<string>, ghost calls: seq<Update>)
    requires WF(sdk.remote) && KubeOk(service) && NodesOk(NodeIDs(nodes)) && sdk.Observed(lb) && Disciplined(sdk.log)
    modifies sdk
    ensures WF(sdk.remote) && Disciplined(sdk.log) && Issues(sdk.log) == Issues(old(sdk.log)) + calls
    ensures if Executed(r) then
              && allSubnets.Some? && Admitted(lb, service, nodes, allSubnets.value)
              && Existing(existing, old(sdk.remote)) && NodesFor(service, NodeIDs(nodes), existing).Some?
              && Attempted(old(sdk.remote), ServiceOf(service), NodesFor(service, NodeIDs(nodes), existing).value,
                           sdk.remote, calls, r.Done?)
            else
              && Justified(r.reason, lb, service, nodes, allSubnets)
              && sdk.remote == old(sdk.remote) && sdk.log == old(sdk.log)
    ensures r.Done? ==> Serves(sdk.remote, service, NodesFor(service, NodeIDs(nodes), existing).value)
    ensures r.Done? ==> Desired(sdk.remote, ServiceOf(service), NodesFor(service, NodeIDs(nodes), existing).value)
    ensures r == Rejected(NotReady) <==> lb.operatingStatus != "online" || lb.provisioningStatus != "active"
    ensures Executed(r) ==>
              Desired(old(sdk.remote), ServiceOf(service), NodesFor(service, NodeIDs(nodes), existing).value) ==>
                r.Done? && sdk.remote == old(sdk.remote) && sdk.log == old(sdk.log)
    ensures sdk.reliable && allSubnets.Some? ==> r != Rejected(ListingFailed)
    ensures sdk.reliable && sdk.least + sdk.slack < Patience(lb) ==>
              allSubnets.Some? && Acceptable(service, lb, nodes, allSubnets.value) ==> r.Done?
    ensures sdk.least >= Patience(lb) ==> |calls| <= 1
  {
    hide WF, ListsRefs, Disciplined, Desired, Serves, NodesOk, NodeIDs, KubesOf, Existing, Attempted, Issues,
         SubnetsDiffer, SubnetIdsPlain, SubnetsUnchanged;
    existing, calls := [], [];
    r := CheckRequest(lb, service, nodes, allSubnets);
    if r.Rejected? {
      return;
    }
    var desired := GetNodeIDs(nodes);
    r, existing, calls := Reconcile(sdk, lb, service, desired);
    if r.Done? {
      ServesIff(sdk.remote, service, NodesFor(service, desired, existing).value);
    }
  }

  lemma PartsOfWF(s: State)
    requires WF(s)
    ensures ListenersBacked(s) && PoolsOk(s)
  {
  }

  lemma SafeKeepsPrefix(s: State, plan: seq<Update>, c: Context, k: nat)
    requires WF(s) && NodesOk(c.nodes) && Safe(s, plan, c) && k <= |plan|
    ensures WF(Run(s, plan[..k], c))
  {
    SafePrefix(s, plan, c, k);
  }
}

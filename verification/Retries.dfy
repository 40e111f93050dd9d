/** Updates tried again and again, each selecting its nodes anew from the members of whichever pool is listed first.
    Enough attempts that take effect reach the desired state if all nodes can be members or the service has at most one
    port; module LostRuns shows that otherwise they need not. */
module Retries {
  import opened Text
  import opened Remote
  import opened Plan
  import opened Optimiser
  import opened Fixpoint
  import opened Shortest
  import opened Progress
  import opened Services
  import opened Controller
  import opened FirstSteps
  import Bounds
  import Lifecycle
  import Nodes
  import Planner

  /** An attempt at an update of this service, planned with the nodes it selects; unless there is nothing to do some
      update takes effect. */
  ghost predicate Retry(run: Attempt, service: KubeService, desired: seq<string>)
    requires KubeOk(service) && AllTcp(service)
  {
    && run.job.service == ServiceOf(service) && (run.taken > 0 || Optimise(PlanOf(run.job)) == [])
    && exists existing :: && TargetsOf(existing, run.job.pools)
                          && NodesFor(service, desired, existing) == Some(run.job.nodes)
  }

  ghost predicate RetryRun(s: State, runs: seq<Attempt>, t: State, service: KubeService, desired: seq<string>)
    requires KubeOk(service) && AllTcp(service)
  {
    Attempts(s, runs, t) && forall i :: 0 <= i < |runs| ==> Retry(runs[i], service, desired)
  }

  /** There are as many attempts as the first plan has updates. */
  ghost predicate Enough(runs: seq<Attempt>) {
    runs != [] && |runs| >= |Optimise(PlanOf(runs[0].job))|
  }

  /** No quota keeps a node out. */
  predicate AllNodesFit(service: KubeService, desired: seq<string>) {
    || service.policy == Local
    || (Nodes.MemberQuota(service.quotaAnnotation).Some?
        && !(0 < Nodes.MemberQuota(service.quotaAnnotation).value < |desired|))
  }

  lemma AllSelected(service: KubeService, desired: seq<string>, existing: seq<string>)
    requires NodesOk(desired) && AllNodesFit(service, desired)
    ensures NodesFor(service, desired, existing).Some?
    ensures Elements(NodesFor(service, desired, existing).value) == Elements(desired)
  {
    hide Nodes.Select, Nodes.MemberQuota;
    if service.policy != Local {
      Nodes.SelectedNodes(desired, existing, Nodes.MemberQuota(service.quotaAnnotation).value);
    }
  }

  lemma ElementsIn(a: seq<string>, b: seq<string>)
    ensures Elements(a) == Elements(b) <==> forall n :: n in a <==> n in b
  {
    assert forall n :: (n in Elements(a) <==> n in a) && (n in Elements(b) <==> n in b);
  }

  /** If no node is kept out, enough attempts succeed, whatever is listed first. */
  lemma RetriesSucceed(service: KubeService, desired: seq<string>, s: State, runs: seq<Attempt>, t: State)
    requires KubeOk(service) && AllTcp(service) && NodesOk(desired) && AllNodesFit(service, desired)
    requires WF(s) && RetryRun(s, runs, t, service, desired) && Enough(runs)
    ensures Desired(t, ServiceOf(service), desired)
  {
    hide WF, Attempts, AllNodesFit, NodesFor, TargetsOf, NodesOk, Desired, Optimise, PlanOf;
    forall i | 0 <= i < |runs| ensures Insists(runs[i], ServiceOf(service), desired) {
      var existing :| TargetsOf(existing, runs[i].job.pools)
                      && NodesFor(service, desired, existing) == Some(runs[i].job.nodes);
      AllSelected(service, desired, existing);
      ElementsIn(runs[i].job.nodes, desired);
    }
    AttemptsSucceed(s, runs, t, ServiceOf(service), desired);
  }

  // ----- a single port -----

  /** The nodes some attempt may select. */
  ghost predicate Selectable(service: KubeService, desired: seq<string>, nodes: seq<string>) {
    NodesOk(nodes) && exists existing :: NodesFor(service, desired, existing) == Some(nodes)
  }

  lemma OnePortTouched(s: State, service: Service, nodes: seq<string>)
    requires EndpointsUnique(s) && |service.ports| <= 1
    ensures forall p, q :: p in s.pools && q in s.pools ==>
                             PortOfPool(service, s.pools[p]).Some? && PortOfPool(service, s.pools[q]).Some? ==> p == q
    ensures |Touched(s, service, nodes)| <= 1
  {
    forall p, q | && p in s.pools && q in s.pools
                  && PortOfPool(service, s.pools[p]).Some? && PortOfPool(service, s.pools[q]).Some?
      ensures p == q
    {
      assert PortOfPool(service, s.pools[p]).value == PortOfPool(service, s.pools[q]).value;
      assert SameEndpoint(s.pools[p].name, s.pools[q].name);
    }
    hide Fits, Misnamed, PortOfPool;
    if p :| p in Touched(s, service, nodes) {
      assert Touched(s, service, nodes) == {p};
    }
  }

  /** If the nodes of an attempt make for a longer plan than others, the pool listed first is one of no service port. */
  lemma StrayIsFirst(job: Job, s: State, service: KubeService, desired: seq<string>, existing: seq<string>,
                     nodes: seq<string>)
    requires KubeOk(service) && AllTcp(service) && NodesOk(desired) && |service.ports| <= 1
    requires Setup(job, s) && job.service == ServiceOf(service) && Selectable(service, desired, nodes)
    requires TargetsOf(existing, job.pools) && NodesFor(service, desired, existing) == Some(job.nodes)
    requires Length(s, job.service, job.nodes) > Length(s, job.service, nodes)
    ensures exists i :: 0 <= i < |job.pools| && PortOf(job, job.pools[i].name).None?
  {
    var svc := job.service;
    assert |svc.ports| == |Planner.KubesOf(svc.ports)|;
    OnePortTouched(s, svc, job.nodes);
    assert Touched(s, svc, nodes) == {} by { LongerMeansTouched(s, svc, job.nodes, nodes); }
    assert Touched(s, svc, job.nodes) != {};
    var p :| p in Touched(s, svc, job.nodes);
    PoolIsListed(job, s, p);
    var rec := job.pools[0];
    assert ListedPool(rec, s) && PortOf(job, rec.name) == PortOfPool(svc, s.pools[rec.id]);
    if PortOf(job, rec.name).Some? {
      assert rec.id == p;
      assert p !in Touched(s, svc, nodes);
      FirstPoolKeepsNodes(job, s, service, desired, existing, nodes);
      assert false;
    }
  }

  lemma LongerMeansTouched(s: State, service: Service, more: seq<string>, fewer: seq<string>)
    requires Length(s, service, more) > Length(s, service, fewer) && |Touched(s, service, more)| <= 1
    ensures Touched(s, service, fewer) == {} && Touched(s, service, more) != {}
  {
    hide Touched;
  }

  lemma PoolIsListed(job: Job, s: State, p: string)
    requires ListsPools(job.pools, s) && p in s.pools
    ensures job.pools != []
  {
    assert HasPoolRec(job.pools, p);
  }

  /** An attempt that lists a pool first which has the members of selectable nodes selects them again. */
  lemma FirstPoolKeepsNodes(job: Job, s: State, service: KubeService, desired: seq<string>, existing: seq<string>,
                            nodes: seq<string>)
    requires KubeOk(service) && AllTcp(service) && NodesOk(desired)
    requires Setup(job, s) && job.service == ServiceOf(service)
    requires Selectable(service, desired, nodes) && TargetsOf(existing, job.pools)
    requires NodesFor(service, desired, existing) == Some(job.nodes) && job.pools != []
    requires job.pools[0].id in s.pools && PortOfPool(job.service, s.pools[job.pools[0].id]).Some?
    requires job.pools[0].id !in Touched(s, job.service, nodes)
    ensures Length(s, job.service, job.nodes) == Length(s, job.service, nodes)
  {
    var rec := job.pools[0];
    assert ListedPool(rec, s);
    var p := s.pools[rec.id];
    assert Fits(job.service, nodes, p);
    hide WF, Touched, NodesFor, Covers, Length, ListsPools, ListsListeners, ListsMembers;
    Lifecycle.CoveredTargets(rec.members, p.members, nodes, PortOfPool(job.service, p).value.nodePort, existing);
    var before :| NodesFor(service, desired, before) == Some(nodes);
    Lifecycle.SelectsSameNodes(service, desired, before, desired, existing);
    SameNodesSameLength(s, job.service, job.nodes, nodes);
  }

  /** What an attempt does for its own nodes, and how they compare with others. */
  lemma OwnNodes(job: Job, s: State, taken: nat, nodes: seq<string>)
    requires Setup(job, s) && job.merged == {} && taken <= |Optimise(PlanOf(job))| && |job.service.ports| <= 1
    ensures var plan := Optimise(PlanOf(job));
            && Length(Run(s, plan[..taken], ContextOf(job)), job.service, job.nodes)
               <= Length(s, job.service, job.nodes) - taken
            && |plan| == Length(s, job.service, job.nodes) <= Length(s, job.service, nodes) + 1
  {
    assert EndpointsUnique(s) by { WFIsUnique(job, s); }
    hide Setup, Length, Optimise, PlanOf, Run, EndpointsUnique;
    LengthAfter(job, s, taken);
    PlanHasLength(job, s);
    OnePortTouched(s, job.service, job.nodes);
    LengthsDifferByOne(s, job.service, job.nodes, nodes);
  }

  lemma WFIsUnique(job: Job, s: State)
    requires Setup(job, s)
    ensures EndpointsUnique(s)
  {
  }

  /** One attempt with a single port: whichever nodes it selects, some selectable nodes are one update nearer. */
  lemma OnePortStep(job: Job, taken: nat, s: State, service: KubeService, desired: seq<string>, existing: seq<string>,
                    nodes: seq<string>)
    returns (nearer: seq<string>)
    requires KubeOk(service) && AllTcp(service) && NodesOk(desired) && |service.ports| <= 1
    requires Setup(job, s) && job.merged == {} && job.service == ServiceOf(service)
    requires taken <= |Optimise(PlanOf(job))| && (taken > 0 || Optimise(PlanOf(job)) == [])
    requires TargetsOf(existing, job.pools) && NodesFor(service, desired, existing) == Some(job.nodes)
    requires Selectable(service, desired, nodes)
    ensures Selectable(service, desired, nearer)
    ensures var t := Run(s, Optimise(PlanOf(job))[..taken], ContextOf(job));
            Length(t, job.service, nearer) <= Bounds.Max(Length(s, job.service, nodes) - 1, 0)
  {
    hide Length, Optimise, PlanOf, Run, NodesFor, TargetsOf, Selectable, NodesOk, Setup;
    assert |job.service.ports| == |Planner.KubesOf(job.service.ports)|;
    hide ServiceOf, KubeOk, AllTcp;
    OwnNodes(job, s, taken, nodes);
    if taken > 1 || Length(s, job.service, job.nodes) <= Length(s, job.service, nodes) {
      nearer := job.nodes;
      OwnAreSelectable(job, s, service, desired, existing);
    } else {
      nearer := nodes;
      StrayIsFirst(job, s, service, desired, existing, nodes);
      NodesOfSelectable(service, desired, nodes);
      DeletionServesAll(job, s, nodes);
    }
  }

  lemma OwnAreSelectable(job: Job, s: State, service: KubeService, desired: seq<string>, existing: seq<string>)
    requires Setup(job, s) && NodesFor(service, desired, existing) == Some(job.nodes)
    ensures Selectable(service, desired, job.nodes)
  {
    hide WF, NodesFor;
  }

  lemma NodesOfSelectable(service: KubeService, desired: seq<string>, nodes: seq<string>)
    requires Selectable(service, desired, nodes)
    ensures NodesOk(nodes)
  {
  }

  lemma LengthsDifferByOne(s: State, service: Service, more: seq<string>, fewer: seq<string>)
    requires |Touched(s, service, more)| <= 1
    ensures Length(s, service, more) <= Length(s, service, fewer) + 1
  {
    hide Touched;
  }

  /** A deletion at the head of a plan is one update less for all nodes. */
  lemma DeletionServesAll(job: Job, s: State, nodes: seq<string>)
    requires Setup(job, s) && job.merged == {} && NodesOk(nodes)
    requires exists i :: 0 <= i < |job.pools| && PortOf(job, job.pools[i].name).None?
    ensures var plan := Optimise(PlanOf(job));
            && plan != []
            && Length(Run(s, plan[..1], ContextOf(job)), job.service, nodes) <= Length(s, job.service, nodes) - 1
  {
    hide Setup, PlanOf, Optimise, Length, Run, Safe, PortOf, Chunks, ListenerDrops, Enabled, Apply, NodesOk;
    var other := job.(nodes := nodes);
    OtherSetup(job, s, nodes);
    PoolDropsAre(job, job.pools);
    assert Deletions(job) != [];
    DeletionsIgnoreNodes(job, nodes, {});
    assert other == job.(nodes := nodes, merged := {});
    hide Deletions;
    SameFirst(job, s);
    SameFirst(other, s);
    FirstDeletion(job);
    LengthAfter(other, s, 1);
    PlanHasLength(other, s);
    SameDeletion(s, Optimise(PlanOf(job)), Optimise(PlanOf(other)), ContextOf(job), ContextOf(other));
  }

  lemma OtherSetup(job: Job, s: State, nodes: seq<string>)
    requires Setup(job, s) && NodesOk(nodes)
    ensures Setup(job.(nodes := nodes), s)
  {
    hide WF;
  }

  lemma SameFirst(job: Job, s: State)
    requires Setup(job, s) && job.merged == {} && Deletions(job) != []
    ensures var plan := Optimise(PlanOf(job));
            plan != [] && plan[0] == Deletions(job)[0] && Safe(s, plan, ContextOf(job))
  {
    var m := Merged(job);
    hide Setup, PlanOf, Optimise, Run, Safe, Desired, SameUpToFreshIds, Deletions;
    OptimiserPreservesMeaning(job, s);
    OptimiseMerges(job, s);
    DeletionsIgnoreNodes(job, job.nodes, m.merged);
    assert m == job.(nodes := job.nodes, merged := m.merged);
    DeletionsComeFirst(m);
  }

  lemma SameDeletion(s: State, a: seq<Update>, b: seq<Update>, c: Context, d: Context)
    requires a != [] && b != [] && a[0] == b[0] && Safe(s, a, c) && Safe(s, b, d)
    requires a[0].DeleteListener? || a[0].DeletePool?
    ensures Run(s, a[..1], c) == Run(s, b[..1], d)
  {
    assert a[..1] == [a[0]] && b[..1] == [b[0]];
    RunOne(s, a[0], c);
    RunOne(s, b[0], d);
    assert Apply(s, a[0], c) == Apply(s, b[0], d);
    hide Run, Safe;
  }

  lemma {:induction false} OnePortRun(s: State, runs: seq<Attempt>, t: State, service: KubeService,
                                      desired: seq<string>, nodes: seq<string>)
    returns (reached: seq<string>)
    requires KubeOk(service) && AllTcp(service) && NodesOk(desired) && |service.ports| <= 1
    requires WF(s) && RetryRun(s, runs, t, service, desired) && Selectable(service, desired, nodes)
    requires Length(s, ServiceOf(service), nodes) <= |runs|
    ensures Selectable(service, desired, reached) && Desired(t, ServiceOf(service), reached)
    decreases |runs|
  {
    hide WF, JobOf, Length, Optimise, PlanOf, Run, Selectable, Retry, Desired, ServiceOf;
    if runs == [] {
      reached := nodes;
      LengthIsWrongAndNeedless(t, ServiceOf(service), nodes);
      NothingWrongIsDesired(t, ServiceOf(service), nodes);
    } else {
      var job, taken := runs[0].job, runs[0].taken;
      var next := Run(s, Optimise(PlanOf(job))[..taken], ContextOf(job));
      AttemptKeepsWF(job, s, taken) by { JobIsSetUp(job, s); }
      var existing := ExistingOf(runs[0], service, desired);
      JobIsSetUp(job, s);
      var nearer := OnePortStep(job, taken, s, service, desired, existing, nodes);
      assert RetryRun(next, runs[1..], t, service, desired);
      reached := OnePortRun(next, runs[1..], t, service, desired, nearer);
    }
  }

  lemma ExistingOf(run: Attempt, service: KubeService, desired: seq<string>) returns (existing: seq<string>)
    requires KubeOk(service) && AllTcp(service) && Retry(run, service, desired)
    ensures TargetsOf(existing, run.job.pools) && NodesFor(service, desired, existing) == Some(run.job.nodes)
    ensures run.job.service == ServiceOf(service) && (run.taken > 0 || Optimise(PlanOf(run.job)) == [])
  {
    hide NodesFor, TargetsOf, Optimise, PlanOf;
    existing :| TargetsOf(existing, run.job.pools) && NodesFor(service, desired, existing) == Some(run.job.nodes);
  }

  lemma JobIsSetUp(job: Job, s: State)
    requires WF(s) && JobOf(job, s)
    ensures Setup(job, s)
  {
  }

  /** With a single port enough attempts succeed, whatever is listed first and whatever the quota. */
  lemma OnePortSucceeds(service: KubeService, desired: seq<string>, s: State, runs: seq<Attempt>, t: State)
    returns (reached: seq<string>)
    requires KubeOk(service) && AllTcp(service) && NodesOk(desired) && |service.ports| <= 1
    requires WF(s) && RetryRun(s, runs, t, service, desired) && Enough(runs)
    ensures Selectable(service, desired, reached) && Desired(t, ServiceOf(service), reached)
  {
    var job := runs[0].job;
    assert JobOf(job, s) && Retry(runs[0], service, desired) && NodesOk(job.nodes);
    assert Selectable(service, desired, job.nodes);
    hide WF, JobOf, Length, Optimise, PlanOf, Selectable, Retry, Desired, RetryRun;
    PlanHasLength(job, s) by { JobIsSetUp(job, s); }
    reached := OnePortRun(s, runs, t, service, desired, job.nodes);
  }
}

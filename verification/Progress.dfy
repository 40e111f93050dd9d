/** Updates that never run to their end: does the load balancer come closer to the desired state nevertheless? Every
    update that takes effect shortens the plan of the next attempt by one, as long as all attempts select the same
    nodes. With a member quota they need not: a load balancer whose pools disagree can be changed for ever. */
module Progress {
  import opened Remote
  import opened Plan
  import opened Optimiser
  import opened Bounds
  import opened Fixpoint
  import opened Shortest

  // ----- the rest of a plan -----

  /** The name a pool of the listed state gets. */
  predicate Aim(service: Service, s0: State, a: Update) {
    a.UpdatePool? ==>
      && a.poolId in s0.pools && PortOfPool(service, s0.pools[a.poolId]).Some?
      && a.name == GenName(PortOfPool(service, s0.pools[a.poolId]).value)
  }

  predicate Aimed(service: Service, s0: State, plan: seq<Update>) {
    forall i :: 0 <= i < |plan| ==> Aim(service, s0, plan[i])
  }

  /** An update of a pool keeps its name, or the replacement of its members comes next. */
  predicate Pair(s0: State, plan: seq<Update>, i: int)
    requires 0 <= i < |plan|
  {
    plan[i].UpdatePool? ==>
      || (plan[i].poolId in s0.pools && plan[i].name == s0.pools[plan[i].poolId].name)
      || (i + 1 < |plan| && plan[i + 1] == ReplaceMembers(plan[i].name, plan[i].poolId))
  }

  predicate Paired(s0: State, plan: seq<Update>) {
    forall i :: 0 <= i < |plan| ==> Pair(s0, plan, i)
  }

  /** Every listed pool that is left has its old name or its new one. */
  ghost predicate NamedEitherWay(service: Service, s0: State, s: State) {
    && s.next >= s0.next
    && forall p :: p in s0.pools && p in s.pools ==>
                     || s.pools[p].name == s0.pools[p].name
                     || (PortOfPool(service, s0.pools[p]).Some?
                         && s.pools[p].name == GenName(PortOfPool(service, s0.pools[p]).value))
  }

  lemma NamesStep(service: Service, s0: State, s: State, a: Update, c: Context)
    requires IdsSpent(s0) && NamedEitherWay(service, s0, s) && Aim(service, s0, a) && Admissible(s, a)
    ensures NamedEitherWay(service, s0, Apply(s, a, c))
  {
    hide FreshId, GenMembers, GenMonitor, PortOfPool;
    assert FreshId(s.next) !in s0.pools;
  }

  /** The rest of a plan: it leads to the desired state, and is made for the state the plan was made for. */
  ghost predicate OnTheWay(service: Service, nodes: seq<string>, s0: State, s: State, plan: seq<Update>) {
    && WF(s) && NamedEitherWay(service, s0, s)
    && Aimed(service, s0, plan) && Paired(s0, plan) && Reaches(s, plan, service, nodes)
  }

  lemma WayStep(service: Service, nodes: seq<string>, s0: State, s: State, plan: seq<Update>)
    requires WF(s0) && NodesOk(nodes) && plan != [] && OnTheWay(service, nodes, s0, s, plan)
    ensures Admissible(s, plan[0])
    ensures OnTheWay(service, nodes, s0, Apply(s, plan[0], Context(nodes, HealthPort(service))), plan[1..])
  {
    assert IdsSpent(s0);
    hide WF, Desired, Apply, Enabled, NamedEitherWay, IdsSpent, Aim, Aimed, Paired;
    var c := Context(nodes, HealthPort(service));
    TailIsTidy(service, s0, plan);
    StepKeepsWF(s, plan[0], c);
    NamesStep(service, s0, s, plan[0], c);
  }

  /** What is left of a plan is no shorter than a plan made anew. */
  lemma {:induction false} RestIsLongEnough(service: Service, nodes: seq<string>, s0: State, s: State,
                                            plan: seq<Update>)
    requires WF(s0) && ServiceOk(service) && NodesOk(nodes) && OnTheWay(service, nodes, s0, s, plan)
    ensures Length(s, service, nodes) <= |plan|
    decreases |plan|
  {
    assert WF(s);
    var c := Context(nodes, HealthPort(service));
    if plan == [] {
      DesiredIsRight(s, service, nodes);
    } else {
      RenameIsPaired(service, s0, s, plan);
      hide WF, Length, Apply, Enabled, OnTheWay, ServiceOk;
      var a, t := plan[0], Apply(s, plan[0], c);
      WayStep(service, nodes, s0, s, plan);
      if a.UpdatePool? && s.pools[a.poolId].name != a.name {
        WayStep(service, nodes, s0, t, plan[1..]);
        RestIsLongEnough(service, nodes, s0, Apply(t, plan[1], c), plan[1..][1..]);
        RenameAndReplace(s, a, c, service, nodes);
      } else {
        OneAtATime(s, a, c, service, nodes);
        RestIsLongEnough(service, nodes, s0, t, plan[1..]);
      }
    }
  }

  lemma {:induction false} WayPrefix(service: Service, nodes: seq<string>, s0: State, s: State, plan: seq<Update>,
                                     k: nat)
    requires WF(s0) && NodesOk(nodes) && OnTheWay(service, nodes, s0, s, plan) && k <= |plan|
    ensures OnTheWay(service, nodes, s0, Run(s, plan[..k], Context(nodes, HealthPort(service))), plan[k..])
    decreases k
  {
    hide WF, Apply, OnTheWay, NodesOk;
    var c := Context(nodes, HealthPort(service));
    if k == 0 {
      assert plan[..0] == [] && plan[0..] == plan;
    } else {
      WayStep(service, nodes, s0, s, plan);
      WayPrefix(service, nodes, s0, Apply(s, plan[0], c), plan[1..], k - 1);
      assert plan[..k][0] == plan[0] && plan[..k][1..] == plan[1..][..k - 1] && plan[k..] == plan[1..][k - 1..];
    }
  }

  lemma TailIsTidy(service: Service, s0: State, plan: seq<Update>)
    requires plan != [] && Aimed(service, s0, plan) && Paired(s0, plan)
    ensures Aimed(service, s0, plan[1..]) && Paired(s0, plan[1..])
    ensures Aim(service, s0, plan[0]) && (|plan| > 1 ==> Aim(service, s0, plan[1]))
  {
    hide Aim;
    forall i | 0 <= i < |plan| - 1 ensures Pair(s0, plan[1..], i) {
      assert Pair(s0, plan, i + 1);
    }
  }

  lemma RenameIsPaired(service: Service, s0: State, s: State, plan: seq<Update>)
    requires plan != [] && Aimed(service, s0, plan) && Paired(s0, plan) && NamedEitherWay(service, s0, s)
    ensures plan[0].UpdatePool? && plan[0].poolId in s.pools && s.pools[plan[0].poolId].name != plan[0].name ==>
              |plan| > 1 && plan[1] == ReplaceMembers(plan[0].name, plan[0].poolId)
  {
    assert Aim(service, s0, plan[0]) && Pair(s0, plan, 0);
  }

  lemma RenameAndReplace(s: State, a: Update, c: Context, service: Service, nodes: seq<string>)
    requires a.UpdatePool? && Admissible(s, a) && Enabled(Apply(s, a, c), ReplaceMembers(a.name, a.poolId))
    ensures var t := Apply(Apply(s, a, c), ReplaceMembers(a.name, a.poolId), c);
            Length(t, service, nodes) >= Length(s, service, nodes) - 2
  {
    var t := Apply(Apply(s, a, c), ReplaceMembers(a.name, a.poolId), c);
    assert PoolChanged(s, t, a.poolId);
    hide Apply, Length;
    WholeUpdate(s, t, a.poolId, service, nodes);
  }

  // ----- the plans of the controller -----

  lemma TidyConcat(service: Service, s0: State, a: seq<Update>, b: seq<Update>)
    requires Aimed(service, s0, a) && Paired(s0, a) && Aimed(service, s0, b) && Paired(s0, b)
    ensures Aimed(service, s0, a + b) && Paired(s0, a + b)
  {
    hide Aim;
    var plan := a + b;
    forall i | 0 <= i < |plan| ensures Pair(s0, plan, i) {
      if i < |a| {
        assert Pair(s0, a, i);
      } else {
        assert Pair(s0, b, i - |a|);
      }
    }
  }

  lemma NoUpdateIsTidy(service: Service, s0: State, plan: seq<Update>)
    requires forall a :: a in plan ==> !a.UpdatePool?
    ensures Aimed(service, s0, plan) && Paired(s0, plan)
  {
    assert forall i :: 0 <= i < |plan| ==> plan[i] in plan;
  }

  lemma ChunkIsTidy(job: Job, s: State, stage: nat, rec: PoolRec)
    requires ListedPool(rec, s)
    ensures Aimed(job.service, s, Chunk(job, stage, rec)) && Paired(s, Chunk(job, stage, rec))
  {
    if stage == 2 {
      hide MonitorOk;
    } else {
      DropsOfOnePool(rec.name, rec.id, rec.members, job.nodes);
      AddsOfOnePool(rec.name, rec.id, rec.members, job.nodes);
      NoUpdateIsTidy(job.service, s, Chunk(job, stage, rec));
    }
  }

  lemma {:induction false} ChunksAreTidy(job: Job, s: State, stage: nat, recs: seq<PoolRec>)
    requires forall i :: 0 <= i < |recs| ==> ListedPool(recs[i], s)
    ensures Aimed(job.service, s, Chunks(job, stage, recs)) && Paired(s, Chunks(job, stage, recs))
  {
    hide Chunk, Aimed, Paired, ListedPool;
    if recs == [] {
      NoUpdateIsTidy(job.service, s, []);
    } else {
      ChunkIsTidy(job, s, stage, recs[0]);
      ChunksAreTidy(job, s, stage, recs[1..]);
      TidyConcat(job.service, s, Chunk(job, stage, recs[0]), Chunks(job, stage, recs[1..]));
    }
  }

  lemma PlanIsTidy(job: Job, s: State)
    requires Setup(job, s)
    ensures Aimed(job.service, s, PlanOf(job)) && Paired(s, PlanOf(job))
  {
    var svc, drops, creates := job.service, ListenerDrops(job, job.listeners), Creates(job, job.service.ports);
    assert forall i :: 0 <= i < |job.pools| ==> ListedPool(job.pools[i], s);
    hide Aimed, Paired, Chunks, ListenerDrops, Creates, Setup;
    OnlyPoolsAreUpdated(job, job.listeners, svc.ports);
    NoUpdateIsTidy(svc, s, drops);
    NoUpdateIsTidy(svc, s, creates);
    ChunksAreTidy(job, s, 0, job.pools);
    ChunksAreTidy(job, s, 1, job.pools);
    ChunksAreTidy(job, s, 2, job.pools);
    ChunksAreTidy(job, s, 3, job.pools);
    var p0 := drops + Chunks(job, 0, job.pools);
    var p1 := p0 + Chunks(job, 1, job.pools);
    var p2 := p1 + Chunks(job, 2, job.pools);
    var p3 := p2 + Chunks(job, 3, job.pools);
    TidyConcat(svc, s, drops, Chunks(job, 0, job.pools));
    TidyConcat(svc, s, p0, Chunks(job, 1, job.pools));
    TidyConcat(svc, s, p1, Chunks(job, 2, job.pools));
    TidyConcat(svc, s, p2, Chunks(job, 3, job.pools));
    TidyConcat(svc, s, p3, creates);
  }

  lemma {:induction false} OnlyPoolsAreUpdated(job: Job, recs: seq<ListenerRec>, ports: seq<ServicePort>)
    ensures forall a :: a in ListenerDrops(job, recs) || a in Creates(job, ports) ==> !a.UpdatePool?
    decreases |recs| + |ports|
  {
    if recs != [] {
      OnlyPoolsAreUpdated(job, recs[1..], ports);
    } else if ports != [] {
      OnlyPoolsAreUpdated(job, recs, ports[1..]);
    }
  }

  lemma SameNodesSameLength(s: State, service: Service, a: seq<string>, b: seq<string>)
    requires forall n :: n in a <==> n in b
    ensures Length(s, service, a) == Length(s, service, b)
  {
    hide HeadOk;
    assert forall members: map<string, Member>, nodePort: int ::
        Covers(members, a, nodePort) <==> Covers(members, b, nodePort);
    assert Touched(s, service, a) == Touched(s, service, b);
  }

  /** Progress within one update: wherever a plan is cut, the next attempt for the same service and the same nodes, in
      whatever order things are listed, has a plan that is shorter by at least the updates that took effect. */
  lemma NextPlanIsShorter(job: Job, s: State, taken: nat, next: Job)
    requires Setup(job, s) && job.merged == {} && taken <= |Optimise(PlanOf(job))|
    requires JobOf(next, Run(s, Optimise(PlanOf(job))[..taken], ContextOf(job))) && next.merged == {}
    requires next.service == job.service && forall n :: n in next.nodes <==> n in job.nodes
    ensures |Optimise(PlanOf(next))| <= |Optimise(PlanOf(job))| - taken
  {
    hide PlanOf, Optimise, Length, Aimed, Paired, NamedEitherWay;
    var t := Run(s, Optimise(PlanOf(job))[..taken], ContextOf(job));
    LengthAfter(job, s, taken);
    AttemptKeepsWF(job, s, taken);
    PlanHasLength(next, t);
    SameNodesSameLength(t, job.service, next.nodes, job.nodes);
  }

  lemma PlanIsOnTheWay(job: Job, s: State)
    requires Setup(job, s) && job.merged == {}
    ensures OnTheWay(job.service, job.nodes, s, s, Optimise(PlanOf(job)))
  {
    assert NamedEitherWay(job.service, s, s);
    assert Setup(Merged(job), s) by { MergedSetup(job, s); }
    hide PlanOf, Optimise, Aimed, Paired, NamedEitherWay, JobOf, WF, Run, Safe, Desired, SameUpToFreshIds;
    OptimiserPreservesMeaning(job, s);
    OptimiseMerges(job, s);
    PlanIsTidy(Merged(job), s);
  }

  lemma LengthAfter(job: Job, s: State, taken: nat)
    requires Setup(job, s) && job.merged == {} && taken <= |Optimise(PlanOf(job))|
    ensures var plan := Optimise(PlanOf(job));
            Length(Run(s, plan[..taken], ContextOf(job)), job.service, job.nodes) <= |plan| - taken
  {
    assert ServiceOk(job.service) && NodesOk(job.nodes);
    PlanIsOnTheWay(job, s);
    hide PlanOf, Optimise, Length, JobOf, WF, Run, OnTheWay, ServiceOk, NodesOk;
    var plan := Optimise(PlanOf(job));
    WayPrefix(job.service, job.nodes, s, s, plan, taken);
    RestIsLongEnough(job.service, job.nodes, s, Run(s, plan[..taken], ContextOf(job)), plan[taken..]);
  }

  // ----- many attempts -----

  /** The attempt is for this service and these nodes, and unless there is nothing to do some update takes effect. */
  ghost predicate Insists(run: Attempt, service: Service, nodes: seq<string>) {
    && run.job.service == service && (forall n :: n in run.job.nodes <==> n in nodes)
    && (run.taken > 0 || Optimise(PlanOf(run.job)) == [])
  }

  lemma {:induction false} AttemptsAdvance(s: State, runs: seq<Attempt>, t: State, service: Service, nodes: seq<string>)
    requires WF(s) && Attempts(s, runs, t) && forall i :: 0 <= i < |runs| ==> Insists(runs[i], service, nodes)
    ensures WF(t) && Length(t, service, nodes) <= Max(Length(s, service, nodes) - |runs|, 0)
    decreases |runs|
  {
    hide WF, Run, Length, JobOf, Optimise, PlanOf;
    if runs != [] {
      var job, taken := runs[0].job, runs[0].taken;
      var next := Run(s, Optimise(PlanOf(job))[..taken], ContextOf(job));
      assert Insists(runs[0], service, nodes);
      AttemptKeepsWF(job, s, taken);
      LengthAfter(job, s, taken);
      PlanHasLength(job, s);
      SameNodesSameLength(s, service, job.nodes, nodes);
      SameNodesSameLength(next, service, job.nodes, nodes);
      AttemptsAdvance(next, runs[1..], t, service, nodes);
    }
  }

  /** Progress over attempts that never complete: if all are for one service and select the same nodes, as many
      attempts as the first plan is long reach the desired state, though each may be stopped after its first update. */
  lemma AttemptsSucceed(s: State, runs: seq<Attempt>, t: State, service: Service, nodes: seq<string>)
    requires WF(s) && Attempts(s, runs, t) && forall i :: 0 <= i < |runs| ==> Insists(runs[i], service, nodes)
    requires runs != [] && |runs| >= |Optimise(PlanOf(runs[0].job))|
    ensures Desired(t, service, nodes)
  {
    assert JobOf(runs[0].job, s) && Insists(runs[0], service, nodes);
    assert ServiceOk(service);
    hide WF, Desired, Length, Attempts, Optimise, PlanOf;
    AttemptsAdvance(s, runs, t, service, nodes);
    PlanHasLength(runs[0].job, s);
    SameNodesSameLength(s, service, runs[0].job.nodes, nodes);
    LengthIsWrongAndNeedless(t, service, nodes);
    NothingWrongIsDesired(t, service, nodes);
  }
}

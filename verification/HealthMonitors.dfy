/** Which health monitors an update restores. The planner looks at the type and the port only, and only for the
    policies Cluster and Local with a health check node port; so a complete update does not always end in the
    generated monitor, and here is exactly when it does. */
module HealthMonitors {
  import opened Text
  import opened Remote
  import opened Plan
  import opened PoolSteps
  import opened Convergence

  /** The policies under which step 4 inspects the monitor. */
  predicate Inspected(service: Service) {
    service.policy == Cluster || (service.policy == Local && service.healthCheckNodePort > 0)
  }

  predicate MonitorGenerated(service: Service, p: Pool) {
    var generated := GenMonitor(p.name.nodePort, HealthPort(service));
    p.monitor.check == generated.check && p.monitor.port == generated.port
  }

  ghost predicate MonitorsGenerated(service: Service, s: State) {
    forall p :: p in s.pools ==> MonitorGenerated(service, s.pools[p])
  }

  const STRAY := Monitor(HttpsCheck, 1, 7, 7, 7, "/stray")

  /** A load balancer with one pool for the first port, and a monitor nobody generated. */
  ghost function StrayState(service: Service): State
    requires service.ports != []
  {
    State(map[], map["p" := Pool(GenName(service.ports[0]), STRAY, map[])], 0)
  }

  function StrayJob(service: Service, nodes: seq<string>): Job
    requires service.ports != []
  {
    Job([], [PoolRec("p", GenName(service.ports[0]), STRAY, [])], service, nodes, {})
  }

  lemma StraySetup(service: Service, nodes: seq<string>)
    requires service.ports != [] && ServiceOk(service) && NodesOk(nodes)
    ensures Setup(StrayJob(service, nodes), StrayState(service))
  {
    var s := StrayState(service);
    assert forall n: nat :: FreshId(n)[0] == 'r';
    assert WF(s) by {
      assert forall n: nat :: FreshId(n) != "p";
      assert Token("p");
    }
    assert ListedPool(StrayJob(service, nodes).pools[0], s);
  }

  /** The final monitor of a listed pool that survives. */
  lemma ListedPoolMonitor(job: Job, s: State, i: nat)
    requires Setup(job, s) && i < |job.pools| && PortOf(job, job.pools[i].name).Some?
    ensures var rec, t := job.pools[i], Run(s, PlanOf(job), ContextOf(job));
            && rec.id in t.pools && t.pools[rec.id].name == GenName(PortOf(job, rec.name).value)
            && t.pools[rec.id].monitor == FinalMonitor(job, rec)
  {
    PlanRuns(job, s);
    hide Run, PlanOf, Safe, WF, FinalMonitor;
    assert At(job, s, Run(s, PlanOf(job), ContextOf(job)), job.pools[i], 4);
  }

  /** A complete update of a service leaves every pool with the type and port of the generated monitor, whatever
      state it starts from, if and only if the service's policy is one the planner inspects (or it has no ports). */
  lemma MonitorsConvergeIff(service: Service, nodes: seq<string>)
    requires ServiceOk(service) && NodesOk(nodes)
    ensures Inspected(service) || service.ports == [] <==>
            forall job, s :: Setup(job, s) && job.service == service && job.nodes == nodes ==>
                               MonitorsGenerated(service, Run(s, PlanOf(job), ContextOf(job)))
  {
    hide Run, PlanOf, Setup, Safe;
    if Inspected(service) || service.ports == [] {
      forall job, s | Setup(job, s) && job.service == service && job.nodes == nodes
        ensures MonitorsGenerated(service, Run(s, PlanOf(job), ContextOf(job)))
      {
        PlanConverges(job, s);
        DesiredMonitors(service, nodes, Run(s, PlanOf(job), ContextOf(job)));
      }
    } else {
      var job, s := StrayJob(service, nodes), StrayState(service);
      StraySetup(service, nodes);
      ListedPoolMonitor(job, s, 0);
      assert PortOf(job, job.pools[0].name) == Some(service.ports[0]);
      var t := Run(s, PlanOf(job), ContextOf(job));
      assert t.pools["p"].monitor == STRAY;
      assert !MonitorGenerated(service, t.pools["p"]);
    }
  }

  lemma DesiredMonitors(service: Service, nodes: seq<string>, s: State)
    requires Inspected(service) || service.ports == []
    requires Desired(s, service, nodes)
    ensures MonitorsGenerated(service, s)
  {
    hide PoolDesired, ListenerDesired, HasPool, HasListener, MonitorGenerated, Inspected;
    forall p | p in s.pools ensures MonitorGenerated(service, s.pools[p]) {
      var port :| port in service.ports && PoolDesired(s.pools[p], service, nodes, port);
      DesiredMonitor(service, nodes, s.pools[p], port);
    }
  }

  lemma DesiredMonitor(service: Service, nodes: seq<string>, p: Pool, port: ServicePort)
    requires Inspected(service) && PoolDesired(p, service, nodes, port)
    ensures MonitorGenerated(service, p)
  {
    hide Covers;
  }

  /** All fields of a surviving pool's monitor end up generated exactly if it was patched and its URL path is set by
      the patch or was empty, or if it was not patched and already was the generated one. */
  lemma WholeMonitorIff(job: Job, s: State, i: nat)
    requires Setup(job, s) && i < |job.pools| && PortOf(job, job.pools[i].name).Some?
    ensures var rec, t, hp := job.pools[i], Run(s, PlanOf(job), ContextOf(job)), HealthPort(job.service);
            var generated := GenMonitor(PortOf(job, rec.name).value.nodePort, hp);
            rec.id in t.pools &&
            (t.pools[rec.id].monitor == generated <==>
             if PoolChanges(job, rec) != [] then hp > 0 || rec.monitor.urlPath == "" else rec.monitor == generated)
  {
    hide Run, PlanOf, Setup;
    ListedPoolMonitor(job, s, i);
  }

  /** A pool that a complete update made has a generated monitor: HTTP on the health check node port of a Local service
      that has one, and else TCP on the pool's own node port. */
  lemma NewPoolsAreChecked(job: Job, s: State, p: string)
    requires Setup(job, s) && p !in s.pools && p in Run(s, PlanOf(job), ContextOf(job)).pools
    ensures var made, port := Run(s, PlanOf(job), ContextOf(job)).pools[p], job.service.healthCheckNodePort;
            made.monitor == if job.service.policy == Local && port > 0 then Monitor(HttpCheck, port, 5, 2, 2, "/")
                            else Monitor(TcpCheck, made.name.nodePort, 5, 2, 2, "")
  {
    hide Run, PlanOf, WF, At, Safe, ListenersMade, Covers;
    PlanRuns(job, s);
    var t := Run(s, PlanOf(job), ContextOf(job));
    assert PoolsMade(job, s, t, |job.service.ports|);
    var j :| 0 <= j < |job.service.ports| && NewPool(job, t.pools[p], job.service.ports[j]);
  }

  const DELAYED := GenMonitor(30080, 0).(delay := 60)

  /** A load balancer for port 80 and one node, desired but for the delay of its monitor. */
  ghost function DelayedState(): State {
    State(map["l" := Listener(TCP, 80, "p")],
          map["p" := Pool(PoolName(TCP, 80, 30080), DELAYED, map["m" := Member("10.1.0.5", 30080)])], 0)
  }

  function DelayedJob(): Job {
    Job([ListenerRec("l", Listener(TCP, 80, "p"), PoolName(TCP, 80, 30080))],
        [PoolRec("p", PoolName(TCP, 80, 30080), DELAYED, [MemberRec("m", Member("10.1.0.5", 30080))])],
        Service([ServicePort(80, 30080)], Cluster, 0), ["10.1.0.5"], {})
  }

  lemma DelayedWF()
    ensures WF(DelayedState())
  {
    hide FreshId;
    var s := DelayedState();
    var members := s.pools["p"].members;
    forall n: nat ensures FreshId(n) !in {"l", "p", "m"} { LettersAreNotIssued(n); }
    NodeIsToken();
    LettersAreTokens();
    hide Token;
    assert MembersOk(members);
    assert PoolsOk(s) by { hide MembersOk; }
    hide MembersOk, PoolsOk;
    assert IdsSpent(s);
  }

  lemma LettersAreNotIssued(n: nat)
    ensures FreshId(n) !in {"l", "p", "m"}
  {
    assert FreshId(n)[0] == 'r';
  }

  lemma LettersAreTokens()
    ensures Token("l") && Token("p") && Token("m")
  {
  }

  lemma DelayedSetup()
    ensures Setup(DelayedJob(), DelayedState())
  {
    hide WF, Token, GenMonitor;
    var job, s := DelayedJob(), DelayedState();
    DelayedWF();
    assert Token("10.1.0.5") by { NodeIsToken(); }
    assert job.pools[0].id == "p" && job.listeners[0].id == "l" && job.pools[0].members[0].id == "m";
    assert ListsMembers(job.pools[0].members, s.pools["p"].members);
    assert ListsPools(job.pools, s);
    assert ListsListeners(job.listeners, s);
  }

  lemma NodeIsToken()
    ensures Token("10.1.0.5")
  {
  }

  /** For example, under policy Cluster a delay of 60 seconds survives a complete update, which does not even
      plan to change it. */
  lemma DelayIsKept()
    ensures var job, s := DelayedJob(), DelayedState();
            var t := Run(s, PlanOf(job), ContextOf(job));
            && Setup(job, s) && "p" in t.pools
            && t.pools["p"].monitor == DELAYED != GenMonitor(t.pools["p"].name.nodePort, HealthPort(job.service))
  {
    var job, s := DelayedJob(), DelayedState();
    DelayedSetup();
    hide Run, PlanOf, Setup;
    ListedPoolMonitor(job, s, 0);
    assert PortOf(job, job.pools[0].name) == Some(ServicePort(80, 30080));
  }
}

/** Ways to the desired state that this controller never takes: they may give a pool another protocol or port, and so
    reuse one whose members fit elsewhere. No such way is shorter than the number of wrong things less the number of
    reusable pools; and where a pool can be reused, a way can be shorter than the plan. */
module Reuse {
  import opened Text
  import opened Remote
  import opened Plan
  import opened Optimiser
  import opened Bounds
  import opened Shortest
  import opened HealthMonitors

  /** Every update is one the service accepts, and every state on the way is well-formed. */
  ghost predicate Legal(s: State, plan: seq<Update>, c: Context)
    decreases |plan|
  {
    WF(s) && (plan == [] || (Enabled(s, plan[0]) && Legal(Apply(s, plan[0], c), plan[1..], c)))
  }

  /** Any legal way to the desired state. */
  ghost predicate Leads(s: State, plan: seq<Update>, service: Service, nodes: seq<string>) {
    var c := Context(nodes, HealthPort(service));
    Legal(s, plan, c) && Desired(Run(s, plan, c), service, nodes)
  }

  lemma {:induction false} SafeIsLegal(s: State, plan: seq<Update>, c: Context)
    requires WF(s) && NodesOk(c.nodes) && Safe(s, plan, c)
    ensures Legal(s, plan, c)
    decreases |plan|
  {
    hide WF, Apply, Enabled;
    if plan != [] {
      StepKeepsWF(s, plan[0], c);
      SafeIsLegal(Apply(s, plan[0], c), plan[1..], c);
    }
  }

  // ----- what no way can do without -----

  /** The members are not those of any service port. */
  ghost predicate Useless(service: Service, nodes: seq<string>, p: Pool) {
    forall port :: port in service.ports ==> !Covers(p.members, nodes, port.nodePort)
  }

  ghost function UselessPools(s: State, service: Service, nodes: seq<string>): set<string> {
    set p | p in s.pools && Useless(service, nodes, s.pools[p])
  }

  /** Pools nobody asks for, or with the wrong members, whose members are those of some other service port. */
  ghost function Reusable(s: State, service: Service, nodes: seq<string>): set<string> {
    set p | p in s.pools && (PortOfPool(service, s.pools[p]).None? || !Fits(service, nodes, s.pools[p]))
            && !Useless(service, nodes, s.pools[p])
  }

  ghost function Least(s: State, service: Service, nodes: seq<string>): nat {
    |StrayListeners(s, service)| + |ListenerlessPorts(s, service)| + |PoollessPorts(s, service)|
    + |OldHeads(s, service)| + |UselessPools(s, service, nodes)|
  }

  lemma LeastIsWrongLessReusable(s: State, service: Service, nodes: seq<string>)
    ensures Least(s, service, nodes) == Wrong(s, service, nodes) - |Reusable(s, service, nodes)|
  {
    var stray, misfits := StrayPools(s, service), OldMembers(s, service, nodes);
    var useless, reusable := UselessPools(s, service, nodes), Reusable(s, service, nodes);
    forall p | p in useless ensures p in stray + misfits {
      if PortOfPool(service, s.pools[p]).Some? {
        assert PortOfPool(service, s.pools[p]).value in service.ports;
      }
    }
    hide Covers;
    assert stray + misfits == useless + reusable && stray !! misfits && useless !! reusable;
  }

  // ----- a single update -----

  /** One pool has changed, perhaps even its protocol and port. */
  ghost predicate PoolSwapped(s: State, t: State, pool: string) {
    t.listeners == s.listeners && pool in s.pools && pool in t.pools && t.pools == s.pools[pool := t.pools[pool]]
  }

  lemma SwapSets(s: State, t: State, pool: string, service: Service, nodes: seq<string>)
    requires PoolSwapped(s, t, pool)
    ensures StrayListeners(t, service) == StrayListeners(s, service)
    ensures ListenerlessPorts(t, service) == ListenerlessPorts(s, service)
    ensures OldHeads(s, service) - {pool} == OldHeads(t, service) - {pool}
    ensures UselessPools(s, service, nodes) - {pool} == UselessPools(t, service, nodes) - {pool}
  {
    hide HeadOk, PortOfPool, Useless;
    SameFronts(s, t, service);
  }

  lemma SamePorts(s: State, t: State, pool: string, service: Service)
    requires PoolSwapped(s, t, pool) && SameEndpoint(s.pools[pool].name, t.pools[pool].name)
    ensures PoollessPorts(t, service) == PoollessPorts(s, service)
  {
    forall port ensures HasPoolFor(t, port) <==> HasPoolFor(s, port) {
      if HasPoolFor(s, port) {
        var p :| p in s.pools && Matches(port, s.pools[p].name.protocol, s.pools[p].name.port);
        assert p in t.pools && Matches(port, t.pools[p].name.protocol, t.pools[p].name.port);
      }
      if HasPoolFor(t, port) {
        var p :| p in t.pools && Matches(port, t.pools[p].name.protocol, t.pools[p].name.port);
        assert p in s.pools && Matches(port, s.pools[p].name.protocol, s.pools[p].name.port);
      }
    }
  }

  /** A pool that leaves its port leaves it without pool; at the port it comes to it can do some good. */
  lemma OtherPorts(s: State, t: State, pool: string, service: Service)
    requires ServiceOk(service) && EndpointsUnique(s) && EndpointsUnique(t) && PoolSwapped(s, t, pool)
    requires !SameEndpoint(s.pools[pool].name, t.pools[pool].name)
    ensures var left := if PortOfPool(service, s.pools[pool]).Some? then 1 else 0;
            |PoollessPorts(t, service)| >= |PoollessPorts(s, service)| + left - 1
  {
    var gone := s.(pools := s.pools - {pool});
    PoolLost(s, gone, pool, service);
    assert t.pools == gone.pools[pool := t.pools[pool]];
    PoolMadeFor(gone, t, pool, service);
  }

  lemma HeadsOnly(s: State, t: State, pool: string, service: Service, nodes: seq<string>)
    requires ServiceOk(service) && EndpointsUnique(s) && EndpointsUnique(t) && PoolSwapped(s, t, pool)
    requires t.pools[pool].members == s.pools[pool].members
    ensures Least(t, service, nodes) >= Least(s, service, nodes) - 1
  {
    assert pool in UselessPools(t, service, nodes) <==> pool in UselessPools(s, service, nodes);
    assert pool in OldHeads(s, service) ==> PortOfPool(service, s.pools[pool]).Some?;
    hide OldHeads, UselessPools, StrayListeners, PoollessPorts, ListenerlessPorts, HeadOk, PortOfPool, ServiceOk;
    SwapSets(s, t, pool, service, nodes);
    AgreeBut(UselessPools(s, service, nodes), UselessPools(t, service, nodes), pool);
    OneLess(OldHeads(s, service), OldHeads(t, service), pool);
    if SameEndpoint(s.pools[pool].name, t.pools[pool].name) {
      SamePorts(s, t, pool, service);
    } else {
      OtherPorts(s, t, pool, service);
    }
  }

  lemma MembersOnly(s: State, t: State, pool: string, service: Service, nodes: seq<string>)
    requires PoolSwapped(s, t, pool)
    requires t.pools[pool].name == s.pools[pool].name && t.pools[pool].monitor == s.pools[pool].monitor
    ensures Least(t, service, nodes) >= Least(s, service, nodes) - 1
  {
    hide MonitorOk;
    assert pool in OldHeads(t, service) <==> pool in OldHeads(s, service);
    hide OldHeads, UselessPools, StrayListeners, PoollessPorts, ListenerlessPorts;
    SwapSets(s, t, pool, service, nodes);
    SamePorts(s, t, pool, service);
    AgreeBut(OldHeads(s, service), OldHeads(t, service), pool);
    OneLess(UselessPools(s, service, nodes), UselessPools(t, service, nodes), pool);
  }

  lemma PoolAdded(s: State, t: State, id: string, service: Service, nodes: seq<string>)
    requires ServiceOk(service) && t.listeners == s.listeners
    requires id !in s.pools && id in t.pools && t.pools == s.pools[id := t.pools[id]]
    ensures Least(t, service, nodes) >= Least(s, service, nodes) - 1
  {
    assert UselessPools(s, service, nodes) <= UselessPools(t, service, nodes) by { hide Useless; }
    hide Useless, UselessPools, OldHeads, PoollessPorts, StrayListeners, ListenerlessPorts, ServiceOk;
    SameFronts(s, t, service);
    SetsGrow(s, t, id, service, nodes);
    SubsetSize(OldHeads(s, service), OldHeads(t, service));
    SubsetSize(UselessPools(s, service, nodes), UselessPools(t, service, nodes));
    PoolMadeFor(s, t, id, service);
  }

  lemma PoolRemoved(s: State, t: State, id: string, service: Service, nodes: seq<string>)
    requires EndpointsUnique(s) && t.listeners == s.listeners && id in s.pools && t.pools == s.pools - {id}
    ensures Least(t, service, nodes) >= Least(s, service, nodes) - 1
  {
    assert UselessPools(t, service, nodes) == UselessPools(s, service, nodes) - {id} by { hide Useless; }
    assert id in OldHeads(s, service) ==> PortOfPool(service, s.pools[id]).Some?;
    hide Useless, UselessPools, OldHeads, PoollessPorts, StrayListeners, ListenerlessPorts, PortOfPool;
    SameFronts(s, t, service);
    SetsShrink(s, t, id, service, nodes);
    OneLess(OldHeads(s, service), OldHeads(t, service), id);
    OneLess(UselessPools(s, service, nodes), UselessPools(t, service, nodes), id);
    PoolLost(s, t, id, service);
  }

  lemma MembersShape(s: State, a: Update, c: Context)
    requires Enabled(s, a) && (a.CreateMember? || a.DeleteMember? || a.ReplaceMembers?)
    ensures var t := Apply(s, a, c);
            && PoolSwapped(s, t, a.poolId)
            && t.pools[a.poolId].name == s.pools[a.poolId].name
            && t.pools[a.poolId].monitor == s.pools[a.poolId].monitor
  {
    hide GenMembers, FreshId;
  }

  lemma HeadShape(s: State, a: Update, c: Context)
    requires Enabled(s, a) && a.UpdatePool?
    ensures var t := Apply(s, a, c);
            PoolSwapped(s, t, a.poolId) && t.pools[a.poolId].members == s.pools[a.poolId].members
  {
    hide PatchMonitor;
  }

  lemma PoolShape(s: State, a: Update, c: Context)
    requires WF(s) && Enabled(s, a) && (a.CreatePool? || a.DeletePool?)
    ensures var t, id := Apply(s, a, c), FreshId(s.next);
            && t.listeners == s.listeners
            && (a.CreatePool? ==> id !in s.pools && id in t.pools && t.pools == s.pools[id := t.pools[id]])
            && (a.DeletePool? ==> t.pools == s.pools - {a.poolId})
  {
    assert FreshId(s.next) !in s.pools;
    hide GenMembers, FreshId, WF;
  }

  /** No update whatever makes up for more than one. */
  lemma OneAtMost(s: State, a: Update, c: Context, service: Service, nodes: seq<string>)
    requires WF(s) && ServiceOk(service) && Enabled(s, a) && WF(Apply(s, a, c))
    ensures Least(Apply(s, a, c), service, nodes) >= Least(s, service, nodes) - 1
  {
    var t := Apply(s, a, c);
    assert EndpointsUnique(s) && EndpointsUnique(t);
    hide Least, WF, FreshId, Apply, EndpointsUnique, ServiceOk;
    if a.CreateListener? || a.DeleteListener? {
      FrontsOnly(s, a, c, service, nodes);
    } else if a.CreatePool? {
      PoolShape(s, a, c);
      PoolAdded(s, t, FreshId(s.next), service, nodes);
    } else if a.DeletePool? {
      PoolShape(s, a, c);
      PoolRemoved(s, t, a.poolId, service, nodes);
    } else if a.UpdatePool? {
      HeadShape(s, a, c);
      HeadsOnly(s, t, a.poolId, service, nodes);
    } else {
      MembersShape(s, a, c);
      MembersOnly(s, t, a.poolId, service, nodes);
    }
  }

  lemma FrontsOnly(s: State, a: Update, c: Context, service: Service, nodes: seq<string>)
    requires WF(s) && ServiceOk(service) && Enabled(s, a) && (a.CreateListener? || a.DeleteListener?)
    ensures Least(Apply(s, a, c), service, nodes) >= Least(s, service, nodes) - 1
  {
    FrontUpdate(s, a, c, service);
    var t := Apply(s, a, c);
    hide WF, Apply, Covers, MonitorOk;
    SamePools(s, t, service, nodes);
    assert UselessPools(t, service, nodes) == UselessPools(s, service, nodes);
  }

  // ----- the lower bound -----

  lemma DesiredIsLeast(s: State, service: Service, nodes: seq<string>)
    requires ServiceOk(service) && Desired(s, service, nodes)
    ensures Least(s, service, nodes) == 0
  {
    DesiredIsRight(s, service, nodes);
    LeastIsWrongLessReusable(s, service, nodes);
  }

  lemma {:induction false} NoWayIsShorterThanLeast(s: State, plan: seq<Update>, service: Service, nodes: seq<string>)
    requires ServiceOk(service) && Leads(s, plan, service, nodes)
    ensures |plan| >= Least(s, service, nodes)
    decreases |plan|
  {
    hide Least, Desired, WF, Apply, Enabled;
    if plan == [] {
      DesiredIsLeast(s, service, nodes);
    } else {
      var c := Context(nodes, HealthPort(service));
      assert Legal(Apply(s, plan[0], c), plan[1..], c);
      OneAtMost(s, plan[0], c, service, nodes);
      NoWayIsShorterThanLeast(Apply(s, plan[0], c), plan[1..], service, nodes);
    }
  }

  /** No legal way to the desired state is shorter than what is wrong, less the pools that can be reused. */
  lemma NoWayIsShorter(s: State, plan: seq<Update>, service: Service, nodes: seq<string>)
    requires ServiceOk(service) && Leads(s, plan, service, nodes)
    ensures |plan| >= Wrong(s, service, nodes) - |Reusable(s, service, nodes)|
  {
    hide Least, Wrong, Reusable, Leads;
    NoWayIsShorterThanLeast(s, plan, service, nodes);
    LeastIsWrongLessReusable(s, service, nodes);
  }

  /** Where no pool can be reused, the optimised plan is a shortest of all legal ways if and only if it renames no pool
      whose members already fit. */
  lemma ShortestOfAllIff(job: Job, s: State)
    requires Setup(job, s) && job.merged == {} && Reusable(s, job.service, job.nodes) == {}
    ensures var plan := Optimise(PlanOf(job));
            && Leads(s, plan, job.service, job.nodes)
            && (NeedlesslyReplaced(s, job.service, job.nodes) == {} <==>
                forall other :: Leads(s, other, job.service, job.nodes) ==> |other| >= |plan|)
  {
    var svc, nodes := job.service, job.nodes;
    assert WF(s) && ServiceOk(svc) && NodesOk(nodes);
    hide WF, Safe, Run, Desired, PlanOf, Optimise, JobOf, Wrong, Reusable, NeedlesslyReplaced, Legal;
    ShortestIff(job, s);
    PlanHasLength(job, s);
    LengthIsWrongAndNeedless(s, svc, nodes);
    var c := Context(nodes, HealthPort(svc));
    SafeIsLegal(s, Optimise(PlanOf(job)), c);
    forall other | Leads(s, other, svc, nodes) ensures |other| >= Wrong(s, svc, nodes) {
      NoWayIsShorter(s, other, svc, nodes);
    }
    var way :| Reaches(s, way, svc, nodes) && |way| == |Optimise(PlanOf(job))| - |NeedlesslyReplaced(s, svc, nodes)|;
    SafeIsLegal(s, way, c);
    assert Leads(s, way, svc, nodes);
  }

  // ----- a way that is shorter -----

  /** A pool no listener is in front of can be given a protocol and port no other pool has. */
  lemma RenameKeepsWF(s: State, name: PoolName, p: string, c: Context)
    requires WF(s) && p in s.pools && forall l :: l in s.listeners ==> s.listeners[l].poolId != p
    requires forall q :: q in s.pools && q != p ==> !SameEndpoint(s.pools[q].name, name)
    ensures Enabled(s, UpdatePool(name, p)) && WF(Apply(s, UpdatePool(name, p), c))
  {
    hide PatchMonitor, FreshId, Token, MembersOk;
  }

  /** A pool nobody asks for whose members are those of a port without pool. */
  ghost predicate Fitting(s: State, service: Service, nodes: seq<string>, p: string, port: ServicePort) {
    && p in StrayPools(s, service) && port in PoollessPorts(s, service)
    && p in s.pools && Covers(s.pools[p].members, nodes, port.nodePort)
  }

  lemma PoolForPort(service: Service, nodes: seq<string>, port: ServicePort, before: Monitor,
                    members: map<string, Member>)
    requires ServiceOk(service) && port in service.ports && Covers(members, nodes, port.nodePort)
    ensures var p := Pool(GenName(port), PatchMonitor(before, port.nodePort, HealthPort(service)), members);
            HeadOk(service, p) && Fits(service, nodes, p)
  {
    hide Covers;
    SameNumber(service, port, PortFor(service, TCP, port.port).value);
  }

  lemma StrayMended(s: State, t: State, service: Service, nodes: seq<string>, p: string, port: ServicePort)
    requires ServiceOk(service) && p in StrayPools(s, service) && port in PoollessPorts(s, service)
    requires PoolSwapped(s, t, p) && t.pools[p].name == GenName(port)
    requires HeadOk(service, t.pools[p]) && Fits(service, nodes, t.pools[p])
    ensures Wrong(t, service, nodes) == Wrong(s, service, nodes) - 2
  {
    hide HeadOk, Fits, MonitorOk, GenName, ServiceOk;
    var gone := s.(pools := s.pools - {p});
    assert t.pools == gone.pools[p := t.pools[p]];
    assert p !in OldHeads(s, service) && p !in OldMembers(s, service, nodes);
    PoolNotMissed(s, gone, p, service);
    hide PortOfPool, StrayPools, OldHeads, OldMembers, PoollessPorts, StrayListeners, ListenerlessPorts;
    SetsShrink(s, gone, p, service, nodes);
    RightPoolAdded(gone, t, p, service, nodes);
    PortServed(gone, t, p, port, service);
    SameFronts(s, t, service);
  }

  /** Giving it that port puts two things right at once. */
  lemma RenameMendsTwo(s: State, service: Service, nodes: seq<string>, p: string, port: ServicePort)
    requires WF(s) && ServiceOk(service) && StrayListeners(s, service) == {} && Fitting(s, service, nodes, p, port)
    ensures var a, c := UpdatePool(GenName(port), p), Context(nodes, HealthPort(service));
            && Enabled(s, a) && WF(Apply(s, a, c))
            && Wrong(Apply(s, a, c), service, nodes) == Wrong(s, service, nodes) - 2
  {
    var a, c := UpdatePool(GenName(port), p), Context(nodes, HealthPort(service));
    NoListenerInFront(s, service, p);
    hide WF, Covers, StrayPools, StrayListeners, PatchMonitor, HeadOk, Fits, Wrong, ServiceOk;
    EndpointFree(s, port, service);
    PoollessIsWanted(s, port, service);
    RenameKeepsWF(s, GenName(port), p, c);
    PoolForPort(service, nodes, port, s.pools[p].monitor, s.pools[p].members);
    StrayMended(s, Apply(s, a, c), service, nodes, p, port);
  }

  lemma ListenerDropped(s: State, a: Update, c: Context, service: Service)
    requires a.DeleteListener? && a.listenerId in StrayListeners(s, service)
    ensures Enabled(s, a)
    ensures var t := Apply(s, a, c);
            t.pools == s.pools && StrayListeners(t, service) == StrayListeners(s, service) - {a.listenerId}
  {
    hide PortFor;
  }

  lemma StrayListenerGoes(s: State, l: string, service: Service, nodes: seq<string>)
    requires WF(s) && ServiceOk(service) && NodesOk(nodes) && l in StrayListeners(s, service)
    ensures var a := DeleteListener(s.pools[s.listeners[l].poolId].name, l);
            && Enabled(s, a) && WF(Apply(s, a, Context(nodes, HealthPort(service))))
            && var t := Apply(s, a, Context(nodes, HealthPort(service)));
            && t.pools == s.pools && StrayListeners(t, service) == StrayListeners(s, service) - {l}
            && Wrong(t, service, nodes) == Wrong(s, service, nodes) - 1
  {
    var a := DeleteListener(s.pools[s.listeners[l].poolId].name, l);
    ListenerDropped(s, a, Context(nodes, HealthPort(service)), service);
    hide WF, Wrong, ServiceOk, StrayListeners, Apply, Enabled;
    MendStrayListener(s, l, service, nodes);
    StepKeepsWF(s, a, Context(nodes, HealthPort(service)));
  }

  /** Where there is such a pool some legal way is shorter than the plan, which has an update for everything wrong. */
  lemma {:induction false} FittingPoolShortens(s: State, service: Service, nodes: seq<string>, p: string,
                                               port: ServicePort)
    returns (way: seq<Update>)
    requires WF(s) && ServiceOk(service) && NodesOk(nodes) && Fitting(s, service, nodes, p, port)
    ensures Leads(s, way, service, nodes) && |way| == Wrong(s, service, nodes) - 1
    decreases |StrayListeners(s, service)|
  {
    var c := Context(nodes, HealthPort(service));
    if l :| l in StrayListeners(s, service) {
      assert ListenersBacked(s);
      var a := DeleteListener(s.pools[s.listeners[l].poolId].name, l);
      hide WF, Apply, Enabled, Wrong, StrayListeners, StrayPools, PoollessPorts, Desired;
      StrayListenerGoes(s, l, service, nodes);
      var t := Apply(s, a, c);
      SamePools(s, t, service, nodes);
      var rest := FittingPoolShortens(t, service, nodes, p, port);
      way := [a] + rest;
      LegalFirst(s, a, rest, c);
    } else {
      var a := UpdatePool(GenName(port), p);
      assert StrayListeners(s, service) == {};
      hide WF, Apply, Wrong, StrayListeners, Desired, Fitting;
      RenameMendsTwo(s, service, nodes, p, port);
      var t := Apply(s, a, c);
      var rest := ShortWay(t, service, nodes);
      SafeIsLegal(t, rest, c);
      way := [a] + rest;
      LegalFirst(s, a, rest, c);
    }
  }

  lemma LegalFirst(s: State, a: Update, rest: seq<Update>, c: Context)
    requires WF(s) && Enabled(s, a)
    ensures Legal(s, [a] + rest, c) <==> Legal(Apply(s, a, c), rest, c)
    ensures Run(s, [a] + rest, c) == Run(Apply(s, a, c), rest, c)
  {
    hide WF, Apply, Enabled;
    assert ([a] + rest)[0] == a && ([a] + rest)[1..] == rest;
  }

  const MOVED := ServicePort(81, 30080)

  /** The service of DelayedState with port 80 changed to 81, the node port being the same. */
  function MovedJob(): Job {
    DelayedJob().(service := Service([MOVED], Cluster, 0))
  }

  lemma MovedSetup()
    ensures Setup(MovedJob(), DelayedState())
  {
    hide WF, ListsPools, ListsListeners, Token;
    DelayedSetup();
  }

  function ShortCut(): seq<Update> {
    [DeleteListener(PoolName(TCP, 80, 30080), "l"), UpdatePool(GenName(MOVED), "p"), CreateListener(GenName(MOVED))]
  }

  lemma MovedLength()
    ensures var job, s := MovedJob(), DelayedState();
            && Length(s, job.service, job.nodes) == 4 && NeedlesslyReplaced(s, job.service, job.nodes) == {}
            && Reusable(s, job.service, job.nodes) == {"p"}
  {
    var job, s := MovedJob(), DelayedState();
    var svc, nodes := job.service, job.nodes;
    assert PortFor(svc, TCP, 80) == None;
    assert StrayListeners(s, svc) == {"l"} && StrayPools(s, svc) == {"p"} && OldHeads(s, svc) == {};
    assert Touched(s, svc, nodes) == {} && NeedlesslyReplaced(s, svc, nodes) == {};
    assert MOVED in svc.ports;
    assert PoollessPorts(s, svc) == {MOVED} && ListenerlessPorts(s, svc) == {MOVED};
    assert Covers(s.pools["p"].members, nodes, 30080) by {
      assert s.pools["p"].members["m"] == Member("10.1.0.5", 30080);
    }
    assert !Useless(svc, nodes, s.pools["p"]);
  }

  /** After the listener is gone. */
  ghost function Bare(): State {
    DelayedState().(listeners := map[])
  }

  /** After the pool has its new port. */
  ghost function Renamed(): State {
    var members := map["m" := Member("10.1.0.5", 30080)];
    Bare().(pools := map["p" := Pool(GenName(MOVED), PatchMonitor(DELAYED, 30080, 0), members)])
  }

  lemma ShortCutIsLegal(c: Context)
    requires c == Context(["10.1.0.5"], 0)
    ensures Legal(DelayedState(), ShortCut(), c)
    ensures Run(DelayedState(), ShortCut(), c) ==
            Renamed().(listeners := map[FreshId(0) := Listener(TCP, 81, "p")], next := 1)
  {
    hide WF, FreshId, Token;
    var s, way := DelayedState(), ShortCut();
    DelayedWF();
    assert Enabled(s, way[0]) && Apply(s, way[0], c) == Bare();
    DeleteListenerKeepsWF(s, way[0].name, "l", c);
    RenameKeepsWF(Bare(), GenName(MOVED), "p", c);
    assert Apply(Bare(), way[1], c) == Renamed();
    assert HasPool(Renamed(), GenName(MOVED)) by { assert Renamed().pools["p"].name == GenName(MOVED); }
    assert Enabled(Renamed(), way[2]);
    CreateListenerKeepsWF(Renamed(), GenName(MOVED), c);
    var t := Apply(Renamed(), way[2], c);
    assert PoolNamed(Renamed(), GenName(MOVED)) == "p";
    assert t.listeners == map[FreshId(0) := Listener(TCP, 81, "p")];
    hide Apply, Enabled;
    assert way[1..] == [way[1], way[2]] && way[1..][1..] == [way[2]] && way[1..][1..][1..] == [];
  }

  lemma ShortCutEnds()
    ensures var s := Renamed().(listeners := map[FreshId(0) := Listener(TCP, 81, "p")], next := 1);
            Desired(s, MovedJob().service, ["10.1.0.5"])
  {
    hide FreshId;
    var s := Renamed().(listeners := map[FreshId(0) := Listener(TCP, 81, "p")], next := 1);
    var svc := MovedJob().service;
    assert MOVED in svc.ports;
    assert Covers(s.pools["p"].members, ["10.1.0.5"], 30080) by {
      assert s.pools["p"].members["m"] == Member("10.1.0.5", 30080);
    }
    hide Covers;
    assert PoolDesired(s.pools["p"], svc, ["10.1.0.5"], MOVED);
    assert HasPool(s, GenName(MOVED)) by { assert s.pools["p"].name == GenName(MOVED); }
    assert HasListener(s, MOVED) by { assert s.listeners[FreshId(0)].port == 81; }
    assert ListenerDesired(s, svc, s.listeners[FreshId(0)]);
  }

  /** A service whose port number changes under an unchanged node port: the plan deletes and creates the pool and the
      listener, four updates, and renames nothing needlessly; giving the pool its new port takes three. */
  lemma ReuseIsShorter()
    ensures var job, s := MovedJob(), DelayedState();
            && Setup(job, s) && NeedlesslyReplaced(s, job.service, job.nodes) == {}
            && |Optimise(PlanOf(job))| == 4
            && Leads(s, ShortCut(), job.service, job.nodes) && |ShortCut()| == 3
  {
    var job, s := MovedJob(), DelayedState();
    MovedSetup();
    MovedLength();
    hide Length, Optimise, PlanOf, Setup, Legal, Run, Desired, NeedlesslyReplaced;
    PlanHasLength(job, s);
    ShortCutIsLegal(Context(job.nodes, 0));
    ShortCutEnds();
  }
}

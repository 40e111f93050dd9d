/** How good is a plan? Every admissible update brings a load balancer at most one step closer to the desired state, so
    no way of such updates can be shorter than the number of things that are wrong. The plan of this controller is that
    short exactly if it renames no pool whose members already fit: it replaces those members needlessly. Admissible
    updates leave each pool its protocol and port; module Reuse is about ways that do not. */
module Shortest {
  import opened Text
  import opened Remote
  import opened Plan
  import opened PoolSteps
  import opened Optimiser
  import opened Bounds
  import opened Fixpoint

  // ----- what is wrong with a state -----

  /** The service port a pool or a listener is for. */
  function PortFor(service: Service, protocol: Protocol, number: Port): Option<ServicePort> {
    FindPort(service.ports, protocol, number)
  }

  function PortOfPool(service: Service, p: Pool): Option<ServicePort> {
    PortFor(service, p.name.protocol, p.name.port)
  }

  ghost function StrayListeners(s: State, service: Service): set<string> {
    set l | l in s.listeners && PortFor(service, s.listeners[l].protocol, s.listeners[l].port).None?
  }

  ghost function StrayPools(s: State, service: Service): set<string> {
    set p | p in s.pools && PortOfPool(service, s.pools[p]).None?
  }

  predicate HeadOk(service: Service, p: Pool) {
    && PortOfPool(service, p).Some?
    && p.name == GenName(PortOfPool(service, p).value)
    && MonitorOk(service, p.name.nodePort, p.monitor)
  }

  /** Pools with the wrong name or the wrong monitor. */
  ghost function OldHeads(s: State, service: Service): set<string> {
    set p | p in s.pools && PortOfPool(service, s.pools[p]).Some? && !HeadOk(service, s.pools[p])
  }

  ghost predicate Fits(service: Service, nodes: seq<string>, p: Pool) {
    PortOfPool(service, p).Some? && Covers(p.members, nodes, PortOfPool(service, p).value.nodePort)
  }

  /** Pools with the wrong members. */
  ghost function OldMembers(s: State, service: Service, nodes: seq<string>): set<string> {
    set p | p in s.pools && PortOfPool(service, s.pools[p]).Some? && !Fits(service, nodes, s.pools[p])
  }

  predicate Misnamed(service: Service, p: Pool) {
    PortOfPool(service, p).Some? && p.name != GenName(PortOfPool(service, p).value)
  }

  /** Pools that will be renamed although their members already are those of the new name. */
  ghost function NeedlesslyReplaced(s: State, service: Service, nodes: seq<string>): set<string> {
    set p | p in s.pools && Misnamed(service, s.pools[p]) && Fits(service, nodes, s.pools[p])
  }

  ghost predicate HasPoolFor(s: State, port: ServicePort) {
    exists p :: p in s.pools && Matches(port, s.pools[p].name.protocol, s.pools[p].name.port)
  }

  ghost function PoollessPorts(s: State, service: Service): set<ServicePort> {
    set port | port in service.ports && !HasPoolFor(s, port)
  }

  ghost function ListenerlessPorts(s: State, service: Service): set<ServicePort> {
    set port | port in service.ports && !HasListener(s, port)
  }

  /** What is wrong besides the members of pools. */
  ghost function Rest(s: State, service: Service): nat {
    |StrayListeners(s, service)| + |StrayPools(s, service)| + |OldHeads(s, service)|
    + |PoollessPorts(s, service)| + |ListenerlessPorts(s, service)|
  }

  /** The number of things that are wrong. */
  ghost function Wrong(s: State, service: Service, nodes: seq<string>): nat {
    Rest(s, service) + |OldMembers(s, service, nodes)|
  }

  /** The pools whose members the planner touches. */
  ghost function Touched(s: State, service: Service, nodes: seq<string>): set<string> {
    set p | p in s.pools && PortOfPool(service, s.pools[p]).Some?
            && (Misnamed(service, s.pools[p]) || !Fits(service, nodes, s.pools[p]))
  }

  /** The length of the plan, as a function of the state. */
  ghost function Length(s: State, service: Service, nodes: seq<string>): nat {
    Rest(s, service) + |Touched(s, service, nodes)|
  }

  lemma LengthIsWrongAndNeedless(s: State, service: Service, nodes: seq<string>)
    ensures Length(s, service, nodes) == Wrong(s, service, nodes) + |NeedlesslyReplaced(s, service, nodes)|
  {
    var misfits, needless := OldMembers(s, service, nodes), NeedlesslyReplaced(s, service, nodes);
    assert Touched(s, service, nodes) == misfits + needless && misfits !! needless;
  }

  // ----- a single update -----

  lemma OneLess<T>(before: set<T>, after: set<T>, x: T)
    requires before - {x} <= after
    ensures |after| >= |before| - 1 && (x in after || x !in before ==> |after| >= |before|)
  {
    SubsetSize(before - {x}, after);
    if x in after || x !in before {
      SubsetSize(before, after);
    }
  }

  lemma AgreeBut<T>(a: set<T>, b: set<T>, x: T)
    requires a - {x} == b - {x}
    ensures (x in a <==> x in b) ==> a == b
    ensures x in a && x !in b ==> |b| == |a| - 1
  {
    forall y | y != x ensures y in a <==> y in b {
      assert y in a - {x} <==> y in b - {x};
    }
    if x in a && x !in b {
      assert b == a - {x};
    }
  }

  lemma ListenerUpdate(s: State, a: Update, c: Context, service: Service, nodes: seq<string>)
    requires WF(s) && ServiceOk(service) && Admissible(s, a) && (a.CreateListener? || a.DeleteListener?)
    ensures var t := Apply(s, a, c);
            && Wrong(t, service, nodes) >= Wrong(s, service, nodes) - 1
            && Length(t, service, nodes) >= Length(s, service, nodes) - 1
  {
    FrontUpdate(s, a, c, service);
    hide WF, StrayListeners, ListenerlessPorts, StrayPools, OldHeads, OldMembers, Touched, PoollessPorts;
    SamePools(s, Apply(s, a, c), service, nodes);
  }

  lemma FrontUpdate(s: State, a: Update, c: Context, service: Service)
    requires WF(s) && ServiceOk(service) && Enabled(s, a) && (a.CreateListener? || a.DeleteListener?)
    ensures var t := Apply(s, a, c);
            && t.pools == s.pools
            && |StrayListeners(t, service)| + |ListenerlessPorts(t, service)|
               >= |StrayListeners(s, service)| + |ListenerlessPorts(s, service)| - 1
  {
    var t := Apply(s, a, c);
    var stray, bare := StrayListeners(s, service), ListenerlessPorts(s, service);
    if a.DeleteListener? {
      assert stray - {a.listenerId} <= StrayListeners(t, service);
      assert bare <= ListenerlessPorts(t, service);
      OneLess(stray, StrayListeners(t, service), a.listenerId);
      SubsetSize(bare, ListenerlessPorts(t, service));
    } else {
      assert FreshId(s.next) !in s.listeners;
      assert stray <= StrayListeners(t, service);
      SubsetSize(stray, StrayListeners(t, service));
      ListenerMadeFor(s, t, a.name, service);
    }
  }

  lemma ListenerMadeFor(s: State, t: State, name: PoolName, service: Service)
    requires ServiceOk(service)
    requires FreshId(s.next) !in s.listeners && FreshId(s.next) in t.listeners
    requires t.listeners == s.listeners[FreshId(s.next) := t.listeners[FreshId(s.next)]]
    requires t.listeners[FreshId(s.next)].protocol == name.protocol && t.listeners[FreshId(s.next)].port == name.port
    ensures |ListenerlessPorts(t, service)| >= |ListenerlessPorts(s, service)| - 1
  {
    var bare := ListenerlessPorts(s, service);
    forall port | port in bare && !Matches(port, name.protocol, name.port)
      ensures port in ListenerlessPorts(t, service)
    {
      assert !HasListener(t, port);
    }
    match PortFor(service, name.protocol, name.port)
    case None => SubsetSize(bare, ListenerlessPorts(t, service));
    case Some(q) => OneLess(bare, ListenerlessPorts(t, service), q);
  }

  lemma SamePools(s: State, t: State, service: Service, nodes: seq<string>)
    requires t.pools == s.pools
    ensures StrayPools(t, service) == StrayPools(s, service) && OldHeads(t, service) == OldHeads(s, service)
    ensures OldMembers(t, service, nodes) == OldMembers(s, service, nodes)
    ensures Touched(t, service, nodes) == Touched(s, service, nodes)
    ensures PoollessPorts(t, service) == PoollessPorts(s, service)
  {
  }

  lemma SameFronts(s: State, t: State, service: Service)
    requires t.listeners == s.listeners
    ensures StrayListeners(t, service) == StrayListeners(s, service)
    ensures ListenerlessPorts(t, service) == ListenerlessPorts(s, service)
  {
  }

  lemma PoolCreated(s: State, name: PoolName, c: Context, service: Service, nodes: seq<string>)
    requires WF(s) && ServiceOk(service) && Admissible(s, CreatePool(name))
    ensures var t := Apply(s, CreatePool(name), c);
            && Wrong(t, service, nodes) >= Wrong(s, service, nodes) - 1
            && Length(t, service, nodes) >= Length(s, service, nodes) - 1
  {
    var t := Apply(s, CreatePool(name), c);
    var id := FreshId(s.next);
    assert id !in s.pools && t.pools == s.pools[id := t.pools[id]] && t.pools[id].name == name;
    hide WF, FreshId, Apply, Touched, StrayPools, OldHeads, OldMembers, PoollessPorts, StrayListeners,
         ListenerlessPorts;
    SameFronts(s, t, service);
    SetsGrow(s, t, id, service, nodes);
    SubsetSize(StrayPools(s, service), StrayPools(t, service));
    SubsetSize(OldHeads(s, service), OldHeads(t, service));
    SubsetSize(OldMembers(s, service, nodes), OldMembers(t, service, nodes));
    SubsetSize(Touched(s, service, nodes), Touched(t, service, nodes));
    PoolMadeFor(s, t, id, service);
  }

  lemma SetsGrow(s: State, t: State, id: string, service: Service, nodes: seq<string>)
    requires id !in s.pools && id in t.pools && t.pools == s.pools[id := t.pools[id]]
    ensures StrayPools(s, service) <= StrayPools(t, service) && OldHeads(s, service) <= OldHeads(t, service)
    ensures OldMembers(s, service, nodes) <= OldMembers(t, service, nodes)
    ensures Touched(s, service, nodes) <= Touched(t, service, nodes)
  {
    hide HeadOk, Fits, Misnamed, PortOfPool;
  }

  lemma SetsShrink(s: State, t: State, id: string, service: Service, nodes: seq<string>)
    requires t.pools == s.pools - {id}
    ensures StrayPools(t, service) == StrayPools(s, service) - {id}
    ensures OldHeads(t, service) == OldHeads(s, service) - {id}
    ensures OldMembers(t, service, nodes) == OldMembers(s, service, nodes) - {id}
    ensures Touched(t, service, nodes) == Touched(s, service, nodes) - {id}
  {
    hide HeadOk, Fits, Misnamed, PortOfPool;
  }

  lemma PoolMadeFor(s: State, t: State, id: string, service: Service)
    requires ServiceOk(service) && id !in s.pools && id in t.pools && t.pools == s.pools[id := t.pools[id]]
    ensures |PoollessPorts(t, service)| >= |PoollessPorts(s, service)| - 1
  {
    var bare, name := PoollessPorts(s, service), t.pools[id].name;
    forall port | port in bare && !Matches(port, name.protocol, name.port) ensures port in PoollessPorts(t, service) {
      assert !HasPoolFor(t, port);
    }
    match PortFor(service, name.protocol, name.port)
    case None => SubsetSize(bare, PoollessPorts(t, service));
    case Some(q) => OneLess(bare, PoollessPorts(t, service), q);
  }

  lemma PoolDeleted(s: State, name: PoolName, pool: string, c: Context, service: Service, nodes: seq<string>)
    requires WF(s) && ServiceOk(service) && Admissible(s, DeletePool(name, pool))
    ensures var t := Apply(s, DeletePool(name, pool), c);
            && Wrong(t, service, nodes) >= Wrong(s, service, nodes) - 1
            && Length(t, service, nodes) >= Length(s, service, nodes) - 1
  {
    var t := Apply(s, DeletePool(name, pool), c);
    assert t.pools == s.pools - {pool};
    assert EndpointsUnique(s);
    assert pool in StrayPools(s, service) <==> PortOfPool(service, s.pools[pool]).None?;
    assert pool in OldHeads(s, service) + OldMembers(s, service, nodes) + Touched(s, service, nodes) ==>
             PortOfPool(service, s.pools[pool]).Some?;
    hide WF, Apply, Touched, StrayPools, OldHeads, OldMembers, PoollessPorts, StrayListeners, ListenerlessPorts,
         PortOfPool;
    SameFronts(s, t, service);
    SetsShrink(s, t, pool, service, nodes);
    OneLess(StrayPools(s, service), StrayPools(t, service), pool);
    OneLess(OldHeads(s, service), OldHeads(t, service), pool);
    OneLess(OldMembers(s, service, nodes), OldMembers(t, service, nodes), pool);
    OneLess(Touched(s, service, nodes), Touched(t, service, nodes), pool);
    PoolLost(s, t, pool, service);
  }

  lemma PoolLost(s: State, t: State, pool: string, service: Service)
    requires EndpointsUnique(s) && pool in s.pools && t.pools == s.pools - {pool}
    ensures |PoollessPorts(t, service)|
            >= |PoollessPorts(s, service)| + if PortOfPool(service, s.pools[pool]).Some? then 1 else 0
  {
    var before, after := PoollessPorts(s, service), PoollessPorts(t, service);
    assert before <= after;
    match PortOfPool(service, s.pools[pool])
    case None => SubsetSize(before, after);
    case Some(port) =>
      assert HasPoolFor(s, port);
      forall p | p in t.pools ensures !Matches(port, t.pools[p].name.protocol, t.pools[p].name.port) {
        assert !SameEndpoint(s.pools[p].name, s.pools[pool].name);
      }
      assert !HasPoolFor(t, port);
      SubsetSize(before + {port}, after);
  }

  /** The pools but one are as they were, and that one keeps its protocol and port. */
  ghost predicate PoolChanged(s: State, t: State, pool: string) {
    && t.listeners == s.listeners && pool in s.pools && pool in t.pools && t.pools == s.pools[pool := t.pools[pool]]
    && SameEndpoint(s.pools[pool].name, t.pools[pool].name)
  }

  lemma PoolUpdate(s: State, t: State, pool: string, service: Service, nodes: seq<string>)
    requires PoolChanged(s, t, pool)
    ensures StrayListeners(t, service) == StrayListeners(s, service)
    ensures ListenerlessPorts(t, service) == ListenerlessPorts(s, service)
    ensures StrayPools(t, service) == StrayPools(s, service) && PoollessPorts(t, service) == PoollessPorts(s, service)
    ensures OldHeads(s, service) - {pool} == OldHeads(t, service) - {pool}
    ensures OldMembers(s, service, nodes) - {pool} == OldMembers(t, service, nodes) - {pool}
    ensures Touched(s, service, nodes) - {pool} == Touched(t, service, nodes) - {pool}
  {
    hide Covers, MonitorOk;
    SameFronts(s, t, service);
    forall port ensures HasPoolFor(t, port) <==> HasPoolFor(s, port) {
      if HasPoolFor(s, port) {
        var p :| p in s.pools && Matches(port, s.pools[p].name.protocol, s.pools[p].name.port);
        assert p in t.pools && Matches(port, t.pools[p].name.protocol, t.pools[p].name.port);
      }
      if HasPoolFor(t, port) {
        var p :| p in t.pools && Matches(port, t.pools[p].name.protocol, t.pools[p].name.port);
        assert p in s.pools && Matches(port, s.pools[p].name.protocol, s.pools[p].name.port);
      }
    }
  }

  /** An update of a pool's members leaves its head alone. */
  lemma MembersUpdate(s: State, t: State, pool: string, service: Service, nodes: seq<string>)
    requires PoolChanged(s, t, pool)
    requires t.pools[pool].name == s.pools[pool].name && t.pools[pool].monitor == s.pools[pool].monitor
    ensures Wrong(t, service, nodes) >= Wrong(s, service, nodes) - 1
    ensures Length(t, service, nodes) >= Length(s, service, nodes) - 1
  {
    hide MonitorOk;
    assert pool in OldHeads(t, service) <==> pool in OldHeads(s, service);
    hide OldHeads, OldMembers, PoolChanged, StrayListeners, StrayPools, PoollessPorts, ListenerlessPorts, Touched;
    PoolUpdate(s, t, pool, service, nodes);
    AgreeBut(OldHeads(s, service), OldHeads(t, service), pool);
    OneLess(OldMembers(s, service, nodes), OldMembers(t, service, nodes), pool);
    OneLess(Touched(s, service, nodes), Touched(t, service, nodes), pool);
  }

  /** An update of a pool's head leaves its members alone. */
  lemma HeadUpdate(s: State, t: State, pool: string, service: Service, nodes: seq<string>)
    requires PoolChanged(s, t, pool) && t.pools[pool].members == s.pools[pool].members
    ensures Wrong(t, service, nodes) >= Wrong(s, service, nodes) - 1
    ensures t.pools[pool].name == s.pools[pool].name ==> Length(t, service, nodes) >= Length(s, service, nodes) - 1
  {
    hide Covers, MonitorOk;
    assert pool in OldMembers(t, service, nodes) <==> pool in OldMembers(s, service, nodes);
    assert t.pools[pool].name == s.pools[pool].name ==>
             (pool in Touched(t, service, nodes) <==> pool in Touched(s, service, nodes));
    hide OldHeads, OldMembers, PoolChanged, StrayListeners, StrayPools, PoollessPorts, ListenerlessPorts, Touched;
    PoolUpdate(s, t, pool, service, nodes);
    OneLess(OldHeads(s, service), OldHeads(t, service), pool);
    AgreeBut(OldMembers(s, service, nodes), OldMembers(t, service, nodes), pool);
    AgreeBut(Touched(s, service, nodes), Touched(t, service, nodes), pool);
  }

  /** A pool's head and members together. */
  lemma WholeUpdate(s: State, t: State, pool: string, service: Service, nodes: seq<string>)
    requires PoolChanged(s, t, pool)
    ensures Length(t, service, nodes) >= Length(s, service, nodes) - 2
  {
    PoolUpdate(s, t, pool, service, nodes);
    OneLess(OldHeads(s, service), OldHeads(t, service), pool);
    OneLess(Touched(s, service, nodes), Touched(t, service, nodes), pool);
  }

  /** No admissible update puts more than one thing right. */
  lemma OneAtATime(s: State, a: Update, c: Context, service: Service, nodes: seq<string>)
    requires WF(s) && ServiceOk(service) && Admissible(s, a)
    ensures Wrong(Apply(s, a, c), service, nodes) >= Wrong(s, service, nodes) - 1
    ensures !(a.UpdatePool? && s.pools[a.poolId].name != a.name) ==>
              Length(Apply(s, a, c), service, nodes) >= Length(s, service, nodes) - 1
  {
    var t := Apply(s, a, c);
    match a
    case CreateListener(_) => ListenerUpdate(s, a, c, service, nodes);
    case DeleteListener(_, _) => ListenerUpdate(s, a, c, service, nodes);
    case CreatePool(name) => PoolCreated(s, name, c, service, nodes);
    case DeletePool(name, pool) => PoolDeleted(s, name, pool, c, service, nodes);
    case UpdatePool(_, pool) => hide Wrong, Length, WF; HeadUpdate(s, t, pool, service, nodes);
    case CreateMember(_, pool, _) => hide Wrong, Length, WF; MembersUpdate(s, t, pool, service, nodes);
    case DeleteMember(_, pool, _, _) => hide Wrong, Length, WF; MembersUpdate(s, t, pool, service, nodes);
    case ReplaceMembers(_, pool) => hide Wrong, Length, WF; MembersUpdate(s, t, pool, service, nodes);
  }

  // ----- nothing wrong -----

  lemma NothingWrongIsDesired(s: State, service: Service, nodes: seq<string>)
    requires WF(s) && ServiceOk(service) && Wrong(s, service, nodes) == 0
    ensures Desired(s, service, nodes)
  {
    forall p | p in s.pools
      ensures exists port :: port in service.ports && PoolDesired(s.pools[p], service, nodes, port)
    {
      RightPool(s, service, nodes, p);
    }
    forall l | l in s.listeners ensures ListenerDesired(s, service, s.listeners[l]) {
      RightListener(s, service, nodes, l);
    }
    forall port | port in service.ports ensures HasPool(s, GenName(port)) && HasListener(s, port) {
      RightPort(s, service, nodes, port);
    }
  }

  lemma RightPool(s: State, service: Service, nodes: seq<string>, p: string)
    requires Wrong(s, service, nodes) == 0 && p in s.pools
    ensures PortOfPool(service, s.pools[p]).Some?
    ensures var port := PortOfPool(service, s.pools[p]).value;
            port in service.ports && PoolDesired(s.pools[p], service, nodes, port)
  {
    hide Covers, MonitorOk;
    assert p !in StrayPools(s, service) && p !in OldHeads(s, service) && p !in OldMembers(s, service, nodes);
  }

  lemma RightListener(s: State, service: Service, nodes: seq<string>, l: string)
    requires ListenersBacked(s) && Wrong(s, service, nodes) == 0 && l in s.listeners
    ensures ListenerDesired(s, service, s.listeners[l])
  {
    assert l !in StrayListeners(s, service);
    var pool := s.listeners[l].poolId;
    assert pool in s.pools;
    RightPool(s, service, nodes, pool);
  }

  lemma RightPort(s: State, service: Service, nodes: seq<string>, port: ServicePort)
    requires ServiceOk(service) && Wrong(s, service, nodes) == 0 && port in service.ports
    ensures HasPool(s, GenName(port)) && HasListener(s, port)
  {
    assert port !in PoollessPorts(s, service) && port !in ListenerlessPorts(s, service);
    var p :| p in s.pools && Matches(port, s.pools[p].name.protocol, s.pools[p].name.port);
    RightPool(s, service, nodes, p);
    SameNumber(service, port, PortOfPool(service, s.pools[p]).value);
  }

  lemma SameNumber(service: Service, a: ServicePort, b: ServicePort)
    requires ServiceOk(service) && a in service.ports && b in service.ports
    ensures a.port == b.port ==> a == b
  {
  }

  lemma DesiredIsRight(s: State, service: Service, nodes: seq<string>)
    requires ServiceOk(service) && Desired(s, service, nodes)
    ensures Wrong(s, service, nodes) == 0 && Length(s, service, nodes) == 0
  {
    hide Covers, MonitorOk, WF;
    forall p | p in s.pools ensures HeadOk(service, s.pools[p]) && Fits(service, nodes, s.pools[p]) {
      var port :| port in service.ports && PoolDesired(s.pools[p], service, nodes, port);
      SameNumber(service, port, PortOfPool(service, s.pools[p]).value);
    }
    forall l | l in s.listeners ensures l !in StrayListeners(s, service) {
      assert ListenerDesired(s, service, s.listeners[l]);
    }
    forall port | port in service.ports ensures HasPoolFor(s, port) {
      var p :| p in s.pools && s.pools[p].name == GenName(port);
    }
    AllEmpty(s, service, nodes);
  }

  lemma AllEmpty(s: State, service: Service, nodes: seq<string>)
    requires forall p :: p in s.pools ==> HeadOk(service, s.pools[p]) && Fits(service, nodes, s.pools[p])
    requires forall l :: l in s.listeners ==> l !in StrayListeners(s, service)
    requires forall port :: port in service.ports ==> HasPoolFor(s, port) && HasListener(s, port)
    ensures Wrong(s, service, nodes) == 0 && Length(s, service, nodes) == 0
  {
    hide Covers, MonitorOk, HasPoolFor, HasListener;
    assert StrayListeners(s, service) == {} && StrayPools(s, service) == {} && OldHeads(s, service) == {};
    assert OldMembers(s, service, nodes) == {} && Touched(s, service, nodes) == {};
    assert PoollessPorts(s, service) == {} && ListenerlessPorts(s, service) == {};
  }

  // ----- the lower bound -----

  /** A way to the desired state that leaves each pool its protocol and port: every update is admissible when its turn
      comes. */
  ghost predicate Reaches(s: State, plan: seq<Update>, service: Service, nodes: seq<string>) {
    var c := Context(nodes, HealthPort(service));
    Safe(s, plan, c) && Desired(Run(s, plan, c), service, nodes)
  }

  /** No such way to the desired state is shorter than what is wrong. */
  lemma {:induction false} NoShorter(s: State, plan: seq<Update>, service: Service, nodes: seq<string>)
    requires WF(s) && ServiceOk(service) && NodesOk(nodes) && Reaches(s, plan, service, nodes)
    ensures |plan| >= Wrong(s, service, nodes)
    decreases |plan|
  {
    hide Wrong, Desired, WF, Apply, Enabled;
    if plan == [] {
      DesiredIsRight(s, service, nodes);
    } else {
      var c := Context(nodes, HealthPort(service));
      OneAtATime(s, plan[0], c, service, nodes);
      StepKeepsWF(s, plan[0], c);
      NoShorter(Apply(s, plan[0], c), plan[1..], service, nodes);
    }
  }

  // ----- a way that short -----

  /** An update that puts one thing right and makes nothing wrong. */
  ghost predicate Mends(s: State, a: Update, service: Service, nodes: seq<string>) {
    var c := Context(nodes, HealthPort(service));
    Admissible(s, a) && Wrong(Apply(s, a, c), service, nodes) == Wrong(s, service, nodes) - 1
  }

  lemma MendStrayListener(s: State, l: string, service: Service, nodes: seq<string>)
    requires WF(s) && ServiceOk(service) && l in StrayListeners(s, service)
    ensures Mends(s, DeleteListener(s.pools[s.listeners[l].poolId].name, l), service, nodes)
  {
    var a := DeleteListener(s.pools[s.listeners[l].poolId].name, l);
    var t := Apply(s, a, Context(nodes, HealthPort(service)));
    SamePools(s, t, service, nodes);
    assert StrayListeners(t, service) == StrayListeners(s, service) - {l};
    forall port | port in service.ports ensures HasListener(t, port) <==> HasListener(s, port) {
      if HasListener(s, port) {
        var k :| k in s.listeners && Matches(port, s.listeners[k].protocol, s.listeners[k].port);
        assert k in t.listeners;
      }
    }
    assert ListenerlessPorts(t, service) == ListenerlessPorts(s, service);
  }

  lemma NoListenerInFront(s: State, service: Service, p: string)
    requires ListenersBacked(s) && StrayListeners(s, service) == {} && p in StrayPools(s, service)
    ensures forall l :: l in s.listeners ==> s.listeners[l].poolId != p
  {
    forall l | l in s.listeners ensures s.listeners[l].poolId != p {
      assert l !in StrayListeners(s, service);
    }
  }

  lemma MendStrayPool(s: State, p: string, service: Service, nodes: seq<string>)
    requires WF(s) && ServiceOk(service) && StrayListeners(s, service) == {} && p in StrayPools(s, service)
    ensures Mends(s, DeletePool(s.pools[p].name, p), service, nodes)
  {
    var a := DeletePool(s.pools[p].name, p);
    NoListenerInFront(s, service, p) by { assert ListenersBacked(s); }
    assert Admissible(s, a);
    StrayIsNeither(s, p, service, nodes);
    var t := Apply(s, a, Context(nodes, HealthPort(service)));
    assert t.pools == s.pools - {p} && t.listeners == s.listeners;
    PoolNotMissed(s, t, p, service);
    hide WF, Apply, Admissible, StrayListeners, ListenerlessPorts, StrayPools, OldHeads, OldMembers, PoollessPorts;
    SameFronts(s, t, service);
    SetsShrink(s, t, p, service, nodes);
  }

  lemma StrayIsNeither(s: State, p: string, service: Service, nodes: seq<string>)
    requires p in StrayPools(s, service)
    ensures p in s.pools && p !in OldHeads(s, service) && p !in OldMembers(s, service, nodes)
  {
  }

  lemma PoolNotMissed(s: State, t: State, p: string, service: Service)
    requires t.pools == s.pools - {p} && p in StrayPools(s, service)
    ensures PoollessPorts(t, service) == PoollessPorts(s, service)
  {
    forall port | port in service.ports ensures HasPoolFor(t, port) <==> HasPoolFor(s, port) {
      if HasPoolFor(s, port) {
        var q :| q in s.pools && Matches(port, s.pools[q].name.protocol, s.pools[q].name.port);
        assert q in t.pools;
      }
    }
  }

  lemma HeadMended(s: State, t: State, p: string, service: Service, nodes: seq<string>)
    requires PoolChanged(s, t, p) && t.pools[p].members == s.pools[p].members
    requires p in OldHeads(s, service) && HeadOk(service, t.pools[p])
    ensures Wrong(t, service, nodes) == Wrong(s, service, nodes) - 1
  {
    hide HeadOk, Covers;
    assert p !in OldHeads(t, service);
    assert p in OldMembers(t, service, nodes) <==> p in OldMembers(s, service, nodes);
    hide OldHeads, OldMembers, PoolChanged, StrayListeners, StrayPools, PoollessPorts, ListenerlessPorts, Touched;
    PoolUpdate(s, t, p, service, nodes);
    AgreeBut(OldHeads(s, service), OldHeads(t, service), p);
    AgreeBut(OldMembers(s, service, nodes), OldMembers(t, service, nodes), p);
  }

  lemma MembersMended(s: State, t: State, p: string, service: Service, nodes: seq<string>)
    requires PoolChanged(s, t, p) && t.pools[p].name == s.pools[p].name && t.pools[p].monitor == s.pools[p].monitor
    requires p in OldMembers(s, service, nodes) && Fits(service, nodes, t.pools[p])
    ensures Wrong(t, service, nodes) == Wrong(s, service, nodes) - 1
  {
    hide MonitorOk, Fits;
    assert p !in OldMembers(t, service, nodes);
    assert p in OldHeads(t, service) <==> p in OldHeads(s, service);
    hide OldHeads, OldMembers, PoolChanged, StrayListeners, StrayPools, PoollessPorts, ListenerlessPorts, Touched;
    PoolUpdate(s, t, p, service, nodes);
    AgreeBut(OldHeads(s, service), OldHeads(t, service), p);
    AgreeBut(OldMembers(s, service, nodes), OldMembers(t, service, nodes), p);
  }

  lemma MendHead(s: State, p: string, service: Service, nodes: seq<string>)
    requires WF(s) && p in OldHeads(s, service)
    ensures Mends(s, UpdatePool(GenName(PortOfPool(service, s.pools[p]).value), p), service, nodes)
  {
    var port := PortOfPool(service, s.pools[p]).value;
    var a := UpdatePool(GenName(port), p);
    assert Admissible(s, a);
    var t := Apply(s, a, Context(nodes, HealthPort(service)));
    assert PoolChanged(s, t, p) && HeadOk(service, t.pools[p]);
    hide WF, Apply, HeadOk, OldHeads, Wrong;
    HeadMended(s, t, p, service, nodes);
  }

  lemma MendMembers(s: State, p: string, service: Service, nodes: seq<string>)
    requires WF(s) && p in OldMembers(s, service, nodes)
    ensures Mends(s, ReplaceMembers(GenName(PortOfPool(service, s.pools[p]).value), p), service, nodes)
  {
    var port := PortOfPool(service, s.pools[p]).value;
    var a := ReplaceMembers(GenName(port), p);
    var t := Apply(s, a, Context(nodes, HealthPort(service)));
    assert t.pools[p].members == GenMembers(nodes, port.nodePort, s.next);
    hide WF, Covers, GenMembers, Wrong;
    GenMembersCover(nodes, port.nodePort, s.next);
    assert PoolChanged(s, t, p) && Fits(service, nodes, t.pools[p]);
    MembersMended(s, t, p, service, nodes);
  }

  lemma EndpointFree(s: State, port: ServicePort, service: Service)
    requires port in PoollessPorts(s, service)
    ensures Admissible(s, CreatePool(GenName(port)))
  {
    forall q | q in s.pools ensures !SameEndpoint(s.pools[q].name, GenName(port)) {
      assert !HasPoolFor(s, port);
    }
  }

  lemma GeneratedPoolIsRight(service: Service, nodes: seq<string>, port: ServicePort, next: nat)
    requires ServiceOk(service) && port in service.ports
    ensures var monitor := GenMonitor(port.nodePort, HealthPort(service));
            var members := GenMembers(nodes, port.nodePort, next);
            var p := Pool(GenName(port), monitor, members);
            HeadOk(service, p) && Fits(service, nodes, p)
  {
    hide GenMembers, Covers;
    GenMembersCover(nodes, port.nodePort, next);
    SameNumber(service, port, PortFor(service, TCP, port.port).value);
  }

  lemma PoolIsMade(s: State, port: ServicePort, service: Service, nodes: seq<string>)
    requires WF(s) && ServiceOk(service) && port in PoollessPorts(s, service)
    ensures Admissible(s, CreatePool(GenName(port)))
    ensures var t, id := Apply(s, CreatePool(GenName(port)), Context(nodes, HealthPort(service))), FreshId(s.next);
            && id !in s.pools && t.listeners == s.listeners && id in t.pools && t.pools == s.pools[id := t.pools[id]]
            && t.pools[id].name == GenName(port) && HeadOk(service, t.pools[id]) && Fits(service, nodes, t.pools[id])
  {
    assert FreshId(s.next) !in s.pools;
    hide WF, FreshId, GenMembers, GenMonitor, HeadOk, Fits, PoollessPorts;
    EndpointFree(s, port, service);
    assert port in service.ports by { PoollessIsWanted(s, port, service); }
    GeneratedPoolIsRight(service, nodes, port, s.next + 1);
  }

  lemma MendPool(s: State, port: ServicePort, service: Service, nodes: seq<string>)
    requires WF(s) && ServiceOk(service) && port in PoollessPorts(s, service)
    ensures Mends(s, CreatePool(GenName(port)), service, nodes)
  {
    var id := FreshId(s.next);
    hide WF, FreshId, HeadOk, Fits, PoollessPorts, Apply, Enabled, GenName, StrayListeners, ListenerlessPorts,
         StrayPools, OldHeads, OldMembers, ServiceOk;
    PoolIsMade(s, port, service, nodes);
    var t := Apply(s, CreatePool(GenName(port)), Context(nodes, HealthPort(service)));
    SameFronts(s, t, service);
    RightPoolAdded(s, t, id, service, nodes);
    PortServed(s, t, id, port, service);
  }

  lemma PoollessIsWanted(s: State, port: ServicePort, service: Service)
    requires port in PoollessPorts(s, service)
    ensures port in service.ports
  {
  }

  lemma RightPoolAdded(s: State, t: State, id: string, service: Service, nodes: seq<string>)
    requires id !in s.pools && id in t.pools && t.pools == s.pools[id := t.pools[id]]
    requires HeadOk(service, t.pools[id]) && Fits(service, nodes, t.pools[id])
    ensures StrayPools(t, service) == StrayPools(s, service) && OldHeads(t, service) == OldHeads(s, service)
    ensures OldMembers(t, service, nodes) == OldMembers(s, service, nodes)
  {
    hide Covers, MonitorOk;
  }

  lemma PortServed(s: State, t: State, id: string, port: ServicePort, service: Service)
    requires ServiceOk(service) && port in PoollessPorts(s, service)
    requires id !in s.pools && id in t.pools && t.pools == s.pools[id := t.pools[id]]
    requires t.pools[id].name == GenName(port)
    ensures PoollessPorts(t, service) == PoollessPorts(s, service) - {port}
  {
    forall q | q in service.ports ensures HasPoolFor(t, q) <==> q == port || HasPoolFor(s, q) {
      if HasPoolFor(s, q) {
        var p :| p in s.pools && Matches(q, s.pools[p].name.protocol, s.pools[p].name.port);
        assert p in t.pools && t.pools[p] == s.pools[p];
      }
    }
  }

  lemma MendListener(s: State, port: ServicePort, service: Service, nodes: seq<string>)
    requires WF(s) && ServiceOk(service) && port in ListenerlessPorts(s, service)
    requires StrayListeners(s, service) == {} && OldHeads(s, service) == {} && PoollessPorts(s, service) == {}
    ensures Mends(s, CreateListener(GenName(port)), service, nodes)
  {
    var a := CreateListener(GenName(port));
    NameStands(s, port, service);
    forall l | l in s.listeners ensures s.listeners[l].port != port.port {
      assert l !in StrayListeners(s, service);
      assert !HasListener(s, port);
      SameNumber(service, port, PortFor(service, s.listeners[l].protocol, s.listeners[l].port).value);
    }
    assert Admissible(s, a);
    var t := Apply(s, a, Context(nodes, HealthPort(service)));
    var id := FreshId(s.next);
    assert id !in s.listeners && t.listeners == s.listeners[id := t.listeners[id]];
    SamePools(s, t, service, nodes);
    hide WF, Apply, FreshId;
    assert StrayListeners(t, service) == StrayListeners(s, service);
    FrontServed(s, t, id, port, service);
  }

  lemma NameStands(s: State, port: ServicePort, service: Service)
    requires ServiceOk(service) && port in service.ports
    requires OldHeads(s, service) == {} && PoollessPorts(s, service) == {}
    ensures HasPool(s, GenName(port))
  {
    assert port !in PoollessPorts(s, service);
    var p :| p in s.pools && Matches(port, s.pools[p].name.protocol, s.pools[p].name.port);
    assert p !in OldHeads(s, service);
    SameNumber(service, port, PortOfPool(service, s.pools[p]).value);
  }

  lemma FrontServed(s: State, t: State, id: string, port: ServicePort, service: Service)
    requires ServiceOk(service) && port in ListenerlessPorts(s, service)
    requires id !in s.listeners && id in t.listeners && t.listeners == s.listeners[id := t.listeners[id]]
    requires t.listeners[id].protocol == TCP && t.listeners[id].port == port.port
    ensures ListenerlessPorts(t, service) == ListenerlessPorts(s, service) - {port}
  {
    forall q | q in service.ports ensures HasListener(t, q) <==> q == port || HasListener(s, q) {
      if HasListener(s, q) {
        var l :| l in s.listeners && Matches(q, s.listeners[l].protocol, s.listeners[l].port);
        assert l in t.listeners && t.listeners[l] == s.listeners[l];
      }
    }
  }

  /** As long as something is wrong, some update mends it. */
  lemma SomethingMends(s: State, service: Service, nodes: seq<string>)
    requires WF(s) && ServiceOk(service) && Wrong(s, service, nodes) > 0
    ensures exists a :: Mends(s, a, service, nodes)
  {
    assert ListenersBacked(s);
    hide WF, Mends, HeadOk, Fits, Misnamed;
    if l :| l in StrayListeners(s, service) {
      MendStrayListener(s, l, service, nodes);
      assert Mends(s, DeleteListener(s.pools[s.listeners[l].poolId].name, l), service, nodes);
    } else if p :| p in StrayPools(s, service) {
      MendStrayPool(s, p, service, nodes);
    } else if p :| p in OldHeads(s, service) {
      MendHead(s, p, service, nodes);
    } else if p :| p in OldMembers(s, service, nodes) {
      MendMembers(s, p, service, nodes);
    } else if port :| port in PoollessPorts(s, service) {
      MendPool(s, port, service, nodes);
    } else {
      assert StrayListeners(s, service) == {} && StrayPools(s, service) == {} && OldHeads(s, service) == {};
      assert OldMembers(s, service, nodes) == {} && PoollessPorts(s, service) == {};
      var port :| port in ListenerlessPorts(s, service);
      MendListener(s, port, service, nodes);
    }
  }

  /** There is a way to the desired state with one update for everything that is wrong. */
  lemma {:induction false} ShortWay(s: State, service: Service, nodes: seq<string>) returns (plan: seq<Update>)
    requires WF(s) && ServiceOk(service) && NodesOk(nodes)
    ensures Reaches(s, plan, service, nodes) && |plan| == Wrong(s, service, nodes)
    decreases Wrong(s, service, nodes)
  {
    hide Wrong, WF, Apply, Enabled, Desired;
    var c := Context(nodes, HealthPort(service));
    if Wrong(s, service, nodes) == 0 {
      NothingWrongIsDesired(s, service, nodes);
      plan := [];
      RunNone(s, c);
    } else {
      SomethingMends(s, service, nodes);
      var a :| Mends(s, a, service, nodes);
      StepKeepsWF(s, a, c);
      var rest := ShortWay(Apply(s, a, c), service, nodes);
      plan := [a] + rest;
      RunFirst(s, a, rest, c);
    }
  }

  // ----- the length of the plan -----

  /** How many of these are in the set. */
  function Tally<T(==)>(xs: seq<T>, those: set<T>): nat {
    if xs == [] then 0 else (if xs[0] in those then 1 else 0) + Tally(xs[1..], those)
  }

  lemma {:induction false} TallyIsSize<T>(xs: seq<T>, those: set<T>)
    requires Distinct(xs) && forall x :: x in those ==> x in xs
    ensures Tally(xs, those) == |those|
    decreases |xs|
  {
    if xs == [] {
      assert those == {};
    } else {
      var rest := those - {xs[0]};
      TallyIsSize(xs[1..], rest);
      TallyWithout(xs[1..], those, xs[0]);
    }
  }

  lemma {:induction false} TallyWithout<T>(xs: seq<T>, those: set<T>, x: T)
    requires x !in xs
    ensures Tally(xs, those - {x}) == Tally(xs, those)
  {
    if xs != [] {
      TallyWithout(xs[1..], those, x);
    }
  }

  function ListenerIds(recs: seq<ListenerRec>): (ids: seq<string>)
    ensures |ids| == |recs| && forall i :: 0 <= i < |recs| ==> ids[i] == recs[i].id
  {
    seq(|recs|, i requires 0 <= i < |recs| => recs[i].id)
  }

  function PoolIds(recs: seq<PoolRec>): (ids: seq<string>)
    ensures |ids| == |recs| && forall i :: 0 <= i < |recs| ==> ids[i] == recs[i].id
  {
    seq(|recs|, i requires 0 <= i < |recs| => recs[i].id)
  }

  lemma {:induction false} DropsTally(job: Job, s: State, recs: seq<ListenerRec>)
    requires forall i :: 0 <= i < |recs| ==> ListedListener(recs[i], s)
    ensures |ListenerDrops(job, recs)| == Tally(ListenerIds(recs), StrayListeners(s, job.service))
  {
    if recs != [] {
      assert ListenerIds(recs)[1..] == ListenerIds(recs[1..]);
      assert ListedListener(recs[0], s);
      DropsTally(job, s, recs[1..]);
    }
  }

  /** The number of updates a pool gets. */
  lemma ChunkLengths(job: Job, s: State, rec: PoolRec)
    requires job.merged == {} && ListedPool(rec, s) && ServiceOk(job.service)
    requires rec.id in MergedPools(job) <==> |Drops(job, rec)| + |Adds(job, rec)| > 1
    ensures var m := Merged(job);
            |Chunk(m, 0, rec)| + |Chunk(m, 1, rec)| + |Chunk(m, 2, rec)| + |Chunk(m, 3, rec)|
            == (if rec.id in StrayPools(s, job.service) then 1 else 0)
               + (if rec.id in OldHeads(s, job.service) then 1 else 0)
               + (if rec.id in Touched(s, job.service, job.nodes) then 1 else 0)
  {
    var p := s.pools[rec.id];
    assert PortOf(job, rec.name) == PortOfPool(job.service, p);
    if Steady(job, rec) {
      SteadyFits(job, s, rec);
    }
    hide Covers, MonitorOk, MemberDrops, MemberAdds, ListsMembers;
  }

  lemma SteadyFits(job: Job, s: State, rec: PoolRec)
    requires ListedPool(rec, s) && Steady(job, rec)
    ensures Drops(job, rec) == [] && Adds(job, rec) == [] <==> Fits(job.service, job.nodes, s.pools[rec.id])
  {
    var members := s.pools[rec.id].members;
    NoDrops(rec.name, rec.id, rec.members, job.nodes);
    NoAdds(rec.name, rec.id, rec.members, job.nodes);
    RecordsCover(rec.members, members, job.nodes, rec.name.nodePort);
  }

  /** The records of a listing cover the nodes exactly if the members do. */
  lemma RecordsCover(recs: seq<MemberRec>, members: map<string, Member>, nodes: seq<string>, nodePort: int)
    requires ListsMembers(recs, members)
    ensures Covers(members, nodes, nodePort) <==>
            && (forall i :: 0 <= i < |recs| ==> GoodMember(recs[i].member, nodes, nodePort))
            && (forall n :: n in nodes ==> HasMember(recs, Member(n, nodePort)))
  {
    if Covers(members, nodes, nodePort) {
      CoveredNodes(recs, members, nodes, nodePort);
    }
    hide GoodMember;
    if (forall i :: 0 <= i < |recs| ==> GoodMember(recs[i].member, nodes, nodePort))
       && (forall n :: n in nodes ==> HasMember(recs, Member(n, nodePort))) {
      forall m | m in members ensures GoodMember(members[m], nodes, nodePort) {
        var i :| 0 <= i < |recs| && recs[i].id == m;
      }
      forall n | n in nodes ensures exists m :: m in members && members[m] == Member(n, nodePort) {
        var i :| 0 <= i < |recs| && recs[i].member == Member(n, nodePort);
        assert members[recs[i].id] == Member(n, nodePort);
      }
    }
  }

  function ChunkSum(job: Job, recs: seq<PoolRec>): nat {
    |Chunks(job, 0, recs)| + |Chunks(job, 1, recs)| + |Chunks(job, 2, recs)| + |Chunks(job, 3, recs)|
  }

  lemma ChunkSumStep(job: Job, recs: seq<PoolRec>)
    requires recs != []
    ensures ChunkSum(job, recs) == |Chunk(job, 0, recs[0])| + |Chunk(job, 1, recs[0])| + |Chunk(job, 2, recs[0])|
                                   + |Chunk(job, 3, recs[0])| + ChunkSum(job, recs[1..])
  {
    hide Chunk;
  }

  /** What is wrong with the pools of these ids, counted as the planner does. */
  ghost function PoolTally(ids: seq<string>, s: State, service: Service, nodes: seq<string>): nat {
    Tally(ids, StrayPools(s, service)) + Tally(ids, OldHeads(s, service)) + Tally(ids, Touched(s, service, nodes))
  }

  lemma PoolTallyStep(ids: seq<string>, s: State, service: Service, nodes: seq<string>)
    requires ids != []
    ensures PoolTally(ids, s, service, nodes) ==
            (if ids[0] in StrayPools(s, service) then 1 else 0) + (if ids[0] in OldHeads(s, service) then 1 else 0)
            + (if ids[0] in Touched(s, service, nodes) then 1 else 0) + PoolTally(ids[1..], s, service, nodes)
  {
    hide StrayPools, OldHeads, Touched;
  }

  lemma ListedChunkLengths(job: Job, s: State, k: nat)
    requires ListsPools(job.pools, s) && ServiceOk(job.service) && job.merged == {} && k < |job.pools|
    ensures var m, rec := Merged(job), job.pools[k];
            |Chunk(m, 0, rec)| + |Chunk(m, 1, rec)| + |Chunk(m, 2, rec)| + |Chunk(m, 3, rec)|
            == (if rec.id in StrayPools(s, job.service) then 1 else 0)
               + (if rec.id in OldHeads(s, job.service) then 1 else 0)
               + (if rec.id in Touched(s, job.service, job.nodes) then 1 else 0)
  {
    assert ListedPool(job.pools[k], s);
    MergedIsCounted(job, s);
    hide Chunk, StrayPools, OldHeads, Touched, ListsPools, ListedPool, MergedPools, ServiceOk, Drops, Adds;
    ChunkLengths(job, s, job.pools[k]);
  }

  lemma {:induction false} ChunksTally(job: Job, s: State, k: nat)
    requires ListsPools(job.pools, s) && ServiceOk(job.service) && job.merged == {} && k <= |job.pools|
    ensures ChunkSum(Merged(job), job.pools[k..]) == PoolTally(PoolIds(job.pools[k..]), s, job.service, job.nodes)
    decreases |job.pools| - k
  {
    if k < |job.pools| {
      hide *;
      ListedChunkLengths(job, s, k);
      ChunkSumStep(Merged(job), job.pools[k..]);
      PoolTallyStep(PoolIds(job.pools[k..]), s, job.service, job.nodes);
      IdsTail(job.pools, k);
      ChunksTally(job, s, k + 1);
    } else {
      assert job.pools[k..] == [] && PoolIds([]) == [];
    }
  }

  lemma IdsTail(recs: seq<PoolRec>, k: nat)
    requires k < |recs|
    ensures recs[k..][1..] == recs[k + 1..] && PoolIds(recs[k..])[1..] == PoolIds(recs[k + 1..])
  {
  }

  lemma {:induction false} CreatesTally(job: Job, s: State, ports: seq<ServicePort>)
    requires ListsPools(job.pools, s) && ListsListeners(job.listeners, s)
    requires forall i :: 0 <= i < |ports| ==> ports[i] in job.service.ports
    ensures |Creates(job, ports)| ==
            Tally(ports, PoollessPorts(s, job.service)) + Tally(ports, ListenerlessPorts(s, job.service))
  {
    if ports != [] {
      PortIsListed(job, s, ports[0]);
      hide ListsPools, ListsListeners, PoolListed, ListenerListed, HasPoolFor, HasListener;
      CreatesTally(job, s, ports[1..]);
    }
  }

  lemma PortIsListed(job: Job, s: State, port: ServicePort)
    requires ListsPools(job.pools, s) && ListsListeners(job.listeners, s)
    ensures PoolListed(job.pools, port) <==> HasPoolFor(s, port)
    ensures ListenerListed(job.listeners, port) <==> HasListener(s, port)
  {
    hide ListsMembers;
    if HasPoolFor(s, port) {
      var p :| p in s.pools && Matches(port, s.pools[p].name.protocol, s.pools[p].name.port);
      var i :| 0 <= i < |job.pools| && job.pools[i].id == p;
      assert ListedPool(job.pools[i], s);
    }
    if HasListener(s, port) {
      var l :| l in s.listeners && Matches(port, s.listeners[l].protocol, s.listeners[l].port);
      var i :| 0 <= i < |job.listeners| && job.listeners[i].id == l;
      assert ListedListener(job.listeners[i], s);
    }
    if PoolListed(job.pools, port) {
      var i :| 0 <= i < |job.pools| && Matches(port, job.pools[i].name.protocol, job.pools[i].name.port);
      assert ListedPool(job.pools[i], s);
    }
    if ListenerListed(job.listeners, port) {
      var i :| 0 <= i < |job.listeners|
               && Matches(port, job.listeners[i].listener.protocol, job.listeners[i].listener.port);
      assert ListedListener(job.listeners[i], s);
    }
  }

  lemma ListedIdsAre(job: Job, s: State)
    requires ListsPools(job.pools, s) && ListsListeners(job.listeners, s)
    ensures Distinct(PoolIds(job.pools)) && forall p :: p in s.pools ==> p in PoolIds(job.pools)
    ensures Distinct(ListenerIds(job.listeners)) && forall l :: l in s.listeners ==> l in ListenerIds(job.listeners)
  {
    hide ListedPool, ListedListener;
    forall p | p in s.pools ensures p in PoolIds(job.pools) {
      var i :| 0 <= i < |job.pools| && job.pools[i].id == p;
      assert PoolIds(job.pools)[i] == p;
    }
    forall l | l in s.listeners ensures l in ListenerIds(job.listeners) {
      var i :| 0 <= i < |job.listeners| && job.listeners[i].id == l;
      assert ListenerIds(job.listeners)[i] == l;
    }
  }

  /** The length of the optimised plan depends on the state, the service and the nodes only: it is the number of things
      that are wrong, and one more for each pool that is renamed although its members already fit. */
  lemma PlanHasLength(job: Job, s: State)
    requires Setup(job, s) && job.merged == {}
    ensures |Optimise(PlanOf(job))| == Length(s, job.service, job.nodes)
  {
    var m, svc := Merged(job), job.service;
    OptimiseMerges(job, s);
    assert PlanOf(m) == ListenerDrops(m, m.listeners) + Chunks(m, 0, m.pools) + Chunks(m, 1, m.pools)
                        + Chunks(m, 2, m.pools) + Chunks(m, 3, m.pools) + Creates(m, svc.ports);
    assert job.pools[0..] == job.pools;
    ListedIdsAre(job, s);
    DropsTally(m, s, m.listeners);
    ChunksTally(job, s, 0);
    CreatesTally(m, s, svc.ports);
    Sizes(job, s);
  }

  lemma Sizes(job: Job, s: State)
    requires ServiceOk(job.service) && ListsPools(job.pools, s) && ListsListeners(job.listeners, s)
    ensures var svc, ids, ports := job.service, PoolIds(job.pools), job.service.ports;
            && Tally(ListenerIds(job.listeners), StrayListeners(s, svc)) == |StrayListeners(s, svc)|
            && Tally(ids, StrayPools(s, svc)) == |StrayPools(s, svc)|
            && Tally(ids, OldHeads(s, svc)) == |OldHeads(s, svc)|
            && Tally(ids, Touched(s, svc, job.nodes)) == |Touched(s, svc, job.nodes)|
            && Tally(ports, PoollessPorts(s, svc)) == |PoollessPorts(s, svc)|
            && Tally(ports, ListenerlessPorts(s, svc)) == |ListenerlessPorts(s, svc)|
  {
    var svc, ids, ports := job.service, PoolIds(job.pools), job.service.ports;
    ListedIdsAre(job, s);
    hide ListsPools, ListsListeners, HeadOk, Fits, Misnamed, HasPoolFor, HasListener;
    assert Distinct(ports);
    TallyIsSize(ListenerIds(job.listeners), StrayListeners(s, svc));
    TallyIsSize(ids, StrayPools(s, svc));
    TallyIsSize(ids, OldHeads(s, svc));
    TallyIsSize(ids, Touched(s, svc, job.nodes));
    TallyIsSize(ports, PoollessPorts(s, svc));
    TallyIsSize(ports, ListenerlessPorts(s, svc));
  }

  /** The optimised plan is a shortest such way to the desired state if and only if it renames no pool whose members
      already fit. In any case it is longer than a shortest way by just one update for each such pool. */
  lemma ShortestIff(job: Job, s: State)
    requires Setup(job, s) && job.merged == {}
    ensures var plan, needless := Optimise(PlanOf(job)), |NeedlesslyReplaced(s, job.service, job.nodes)|;
            && Reaches(s, plan, job.service, job.nodes)
            && (forall other :: Reaches(s, other, job.service, job.nodes) ==> |other| >= |plan| - needless)
            && (exists other :: Reaches(s, other, job.service, job.nodes) && |other| == |plan| - needless)
            && (needless == 0 <==> forall other :: Reaches(s, other, job.service, job.nodes) ==> |other| >= |plan|)
  {
    hide WF, Safe, Run, Desired, PlanOf, Optimise, ListsPools, ListsListeners, Length, Wrong, NeedlesslyReplaced,
         SameUpToFreshIds;
    OptimiserPreservesMeaning(job, s);
    PlanHasLength(job, s);
    LengthIsWrongAndNeedless(s, job.service, job.nodes);
    forall other | Reaches(s, other, job.service, job.nodes) ensures |other| >= Wrong(s, job.service, job.nodes) {
      NoShorter(s, other, job.service, job.nodes);
    }
    var other := ShortWay(s, job.service, job.nodes);
  }

  /** Such pools come about when a node port is changed, the update is cut between the rename and the replacement of
      the members, and the change is taken back. */
  lemma RenameTakenBack(s: State, pool: string, changed: PoolName, c: Context, service: Service, nodes: seq<string>)
    requires WF(s) && pool in s.pools && HeadOk(service, s.pools[pool]) && Fits(service, nodes, s.pools[pool])
    requires SameEndpoint(changed, s.pools[pool].name) && changed != s.pools[pool].name
    ensures Admissible(s, UpdatePool(changed, pool))
    ensures pool in NeedlesslyReplaced(Apply(s, UpdatePool(changed, pool), c), service, nodes)
  {
    assert EndpointsUnique(s);
    hide WF, Covers, MonitorOk;
  }
}

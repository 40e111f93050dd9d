/** Creating a load balancer and updating it again and again: with the service and the nodes unchanged, the first
    update after a creation, and every update after a successful one, plans nothing, although each selects its nodes
    anew from the members of whichever pool happens to be listed first. */
module Lifecycle {
  import opened Text
  import opened Remote
  import opened Plan
  import opened PoolSteps
  import opened PoolNames
  import opened Fixpoint
  import opened Planner
  import opened Sdk
  import opened Services
  import opened Controller
  import Executor
  import Nodes
  import Subnets

  // ----- selecting nodes again -----

  lemma CoveredTargets(recs: seq<MemberRec>, members: map<string, Member>, nodes: seq<string>, nodePort: int,
                       existing: seq<string>)
    requires ListsMembers(recs, members) && Covers(members, nodes, nodePort)
    requires |existing| == |recs| && forall i :: 0 <= i < |existing| ==> existing[i] == recs[i].member.target
    ensures Elements(existing) == Elements(nodes)
  {
    CoveredNodes(recs, members, nodes, nodePort);
    forall x ensures x in existing <==> x in nodes {
      if x in existing {
        var i :| 0 <= i < |existing| && existing[i] == x;
        assert GoodMember(recs[i].member, nodes, nodePort);
      }
      if x in nodes {
        assert HasMember(recs, Member(x, nodePort));
        var i :| 0 <= i < |recs| && recs[i].member == Member(x, nodePort);
        assert existing[i] == x;
      }
    }
  }

  lemma SelectsSameNodes(service: KubeService, desired: seq<string>, before: seq<string>, reordered: seq<string>,
                         existing: seq<string>)
    requires NodesOk(desired) && NodesOk(reordered) && Elements(reordered) == Elements(desired)
    requires NodesFor(service, desired, before).Some?
    requires Elements(existing) == Elements(NodesFor(service, desired, before).value)
    ensures NodesFor(service, reordered, existing).Some?
    ensures forall n :: n in NodesFor(service, reordered, existing).value <==>
                        n in NodesFor(service, desired, before).value
  {
    hide Nodes.Select, Nodes.MemberQuota;
    var nodes, again := NodesFor(service, desired, before).value, NodesFor(service, reordered, existing).value;
    if service.policy != Local {
      Nodes.SelectionIsStable(desired, before, reordered, existing, Nodes.MemberQuota(service.quotaAnnotation).value);
    }
    assert forall n :: (n in again <==> n in Elements(again)) && (n in nodes <==> n in Elements(nodes));
  }

  /** In the desired state, selecting again finds the same nodes, whichever pool is listed first and in whatever order
      the cluster lists its nodes. */
  lemma SelectionInDesiredState(service: KubeService, desired: seq<string>, before: seq<string>, s: State,
                                recs: seq<PoolRec>, reordered: seq<string>, existing: seq<string>)
    requires KubeOk(service) && AllTcp(service) && NodesOk(desired) && NodesFor(service, desired, before).Some?
    requires NodesOk(reordered) && Elements(reordered) == Elements(desired)
    requires Desired(s, ServiceOf(service), NodesFor(service, desired, before).value)
    requires ListsPools(recs, s) && TargetsOf(existing, recs)
    ensures NodesFor(service, reordered, existing).Some?
    ensures Desired(s, ServiceOf(service), NodesFor(service, reordered, existing).value)
  {
    hide Desired, ListsPools, TargetsOf, NodesOk, Nodes.Select, Nodes.MemberQuota;
    var svc, nodes := ServiceOf(service), NodesFor(service, desired, before).value;
    if recs == [] {
      PortsHavePools(s, svc, nodes, recs);
      DesiredWithoutPorts(s, svc, nodes, NodesFor(service, reordered, existing).value);
    } else {
      FirstPoolTargets(s, svc, nodes, recs, existing);
      hide NodesFor;
      SelectsSameNodes(service, desired, before, reordered, existing);
      DesiredForSameNodes(s, svc, nodes, NodesFor(service, reordered, existing).value);
    }
  }

  lemma FirstPoolTargets(s: State, service: Service, nodes: seq<string>, recs: seq<PoolRec>, existing: seq<string>)
    requires Desired(s, service, nodes) && ListsPools(recs, s) && recs != [] && TargetsOf(existing, recs)
    ensures Elements(existing) == Elements(nodes)
  {
    hide Covers, MonitorOk, ListsMembers, ListenerDesired;
    var rec := recs[0];
    assert ListedPool(rec, s);
    var port :| port in service.ports && PoolDesired(s.pools[rec.id], service, nodes, port);
    CoveredTargets(rec.members, s.pools[rec.id].members, nodes, port.nodePort, existing);
  }

  lemma PortsHavePools(s: State, service: Service, nodes: seq<string>, recs: seq<PoolRec>)
    requires Desired(s, service, nodes) && ListsPools(recs, s)
    ensures service.ports != [] ==> recs != []
  {
    if service.ports != [] {
      hide PoolDesired, ListenerDesired, HasListener, ListedPool;
      assert service.ports[0] in service.ports && HasPool(s, GenName(service.ports[0]));
      var p :| p in s.pools && s.pools[p].name == GenName(service.ports[0]);
      var i :| 0 <= i < |recs| && recs[i].id == p;
    }
  }

  lemma DesiredWithoutPorts(s: State, service: Service, a: seq<string>, b: seq<string>)
    requires Desired(s, service, a) && service.ports == []
    ensures Desired(s, service, b)
  {
  }

  /** The addresses of a node list do not depend on its order. */
  lemma {:induction false} NodeIDsElements(nodes: seq<string>)
    ensures forall x :: x in NodeIDs(nodes) <==> x != "" && x in nodes
  {
    if nodes != [] {
      NodeIDsElements(nodes[1..]);
    }
  }

  /** The addresses are kept in order, one for each node that has one. */
  lemma {:induction false} NodeIDsInOrder(a: seq<string>, b: seq<string>)
    ensures NodeIDs(a + b) == NodeIDs(a) + NodeIDs(b)
    ensures "" !in a ==> NodeIDs(a) == a
    ensures NodeIDs([""]) == []
  {
    if a == [] {
      assert a + b == b;
    } else {
      assert (a + b)[1..] == a[1..] + b && a == [a[0]] + a[1..];
      NodeIDsInOrder(a[1..], b);
    }
  }

  /** Two updates in a row, the second with the nodes in any order: once the first has succeeded, both together are
      exactly its plan, and the load balancer is as it left it; the second changes nothing and issues nothing, and
      fails only if it finds the load balancer not ready, or if a listing fails. */
  method UpdateTwice(sdk: VpcSdk, lb: LoadBalancer, service: KubeService, nodes: seq<string>, reordered: seq<string>,
                     allSubnets: Option<seq<Subnets.Subnet>>)
    returns (first: Result, again: Option<LoadBalancer>, second: Result, ghost existing: seq<string>,
             ghost calls: seq<Update>)
    requires WF(sdk.remote) && KubeOk(service) && sdk.Observed(lb) && Disciplined(sdk.log)
    requires NodesOk(NodeIDs(nodes)) && NodesOk(NodeIDs(reordered)) && Elements(reordered) == Elements(nodes)
    requires allSubnets.Some? ==> SubnetIdsPlain(lb, allSubnets.value)
    modifies sdk
    ensures first.Done? ==>
              && AllTcp(service)
              && Existing(existing, old(sdk.remote)) && NodesFor(service, NodeIDs(nodes), existing).Some?
              && var used := NodesFor(service, NodeIDs(nodes), existing).value;
              && Desired(sdk.remote, ServiceOf(service), used)
              && Attempted(old(sdk.remote), ServiceOf(service), used, sdk.remote, calls, true)
              && Issues(sdk.log) == Issues(old(sdk.log)) + calls
    ensures first.Done? && again.Some? ==>
              second == if IsReady(again.value) then (if second.Done? then Done else Rejected(ListingFailed))
                        else Rejected(NotReady)
    ensures first.Done? && again.Some? && IsReady(again.value) && sdk.reliable ==> second.Done?
  {
    hide WF, Disciplined, Desired, ListsRefs, NodesOk, NodeIDs, ListsPools, TargetsOf, Issues, NodesFor, Attempted,
         IsReady, SubnetsUnchanged, SubnetIdsPlain, AllTcp, IsServicePublic, Existing;
    first, existing, calls := UpdateLoadBalancer(sdk, lb, service, nodes, allSubnets);
    again, second := None, Done;
    if first.Rejected? {
      return;
    }
    ghost var settled, log := sdk.remote, sdk.log;
    again := sdk.GetLoadBalancer();
    Executor.SeenKeepsDiscipline(log, sdk.log);
    if again.None? {
      return;
    }
    SameSettings(service, lb, again.value, allSubnets.value);
    QuotaWasRead(service, NodeIDs(nodes), existing);
    SameNodes(nodes, reordered);
    ghost var existing2, calls2;
    second, existing2, calls2 := UpdateLoadBalancer(sdk, again.value, service, reordered, allSubnets);
    if Executed(second) {
      StillDesired(service, NodeIDs(nodes), existing, settled, NodeIDs(reordered), existing2);
    }
  }

  lemma SameNodes(nodes: seq<string>, reordered: seq<string>)
    requires Elements(reordered) == Elements(nodes)
    ensures Elements(NodeIDs(reordered)) == Elements(NodeIDs(nodes)) && (reordered == [] <==> nodes == [])
  {
    NodeIDsElements(nodes);
    NodeIDsElements(reordered);
    assert forall x :: (x in nodes <==> x in Elements(nodes)) && (x in reordered <==> x in Elements(reordered));
    if nodes != [] { assert nodes[0] in Elements(reordered); }
    if reordered != [] { assert reordered[0] in Elements(nodes); }
  }

  /** What is checked of a load balancer object does not change with the state it is in. */
  lemma SameSettings(service: KubeService, lb: LoadBalancer, again: LoadBalancer, subnets: seq<Subnets.Subnet>)
    requires again.isPublic == lb.isPublic && again.subnets == lb.subnets
    ensures SubnetIdsPlain(again, subnets) == SubnetIdsPlain(lb, subnets)
    ensures SubnetsUnchanged(service, again, subnets) == SubnetsUnchanged(service, lb, subnets)
  {
  }

  lemma QuotaWasRead(service: KubeService, desired: seq<string>, existing: seq<string>)
    requires NodesFor(service, desired, existing).Some?
    ensures service.policy != Local ==> Nodes.MemberQuota(service.quotaAnnotation).Some?
  {
  }

  lemma StillDesired(service: KubeService, desired: seq<string>, before: seq<string>, s: State, reordered: seq<string>,
                     existing: seq<string>)
    requires KubeOk(service) && AllTcp(service) && NodesOk(desired) && NodesFor(service, desired, before).Some?
    requires Desired(s, ServiceOf(service), NodesFor(service, desired, before).value) && Existing(existing, s)
    requires NodesOk(reordered) && Elements(reordered) == Elements(desired)
    ensures NodesFor(service, reordered, existing).Some?
    ensures Desired(s, ServiceOf(service), NodesFor(service, reordered, existing).value)
  {
    hide Desired, ListsPools, TargetsOf, NodesOk, NodesFor;
    var recs :| ListsPools(recs, s) && TargetsOf(existing, recs);
    SelectionInDesiredState(service, desired, before, s, recs, reordered, existing);
  }

  // ----- creation -----

  /** What a create request carries for one pool and one listener. */
  datatype PoolPrototype = PoolPrototype(name: string, monitor: Monitor, members: seq<Member>)

  datatype ListenerPrototype = ListenerPrototype(defaultPool: string, port: int)

  function MembersOf(nodes: seq<string>, nodePort: int): (members: seq<Member>)
    ensures |members| == |nodes| && forall i :: 0 <= i < |nodes| ==> members[i] == Member(nodes[i], nodePort)
  {
    seq(|nodes|, i requires 0 <= i < |nodes| => Member(nodes[i], nodePort))
  }

  /** genLoadBalancerMembers */
  method GenLoadBalancerMembers(nodePort: int, nodes: seq<string>) returns (members: seq<Member>)
    ensures members == MembersOf(nodes, nodePort)
  {
    members := [];
    var i := 0;
    while i < |nodes|
      invariant 0 <= i <= |nodes| && members == MembersOf(nodes, nodePort)[..i]
    {
      members := members + [Member(nodes[i], nodePort)];
      i := i + 1;
    }
  }

  /** The pool a request has for a pool name. */
  function PoolFor(name: string, nodes: seq<string>, healthPort: int): PoolPrototype
    requires Parses(name)
  {
    var nodePort := ExtractFields(name).value.nodePort;
    PoolPrototype(name, GenMonitor(nodePort, healthPort), MembersOf(nodes, nodePort))
  }

  /** The request lists of the SDK's CreateLoadBalancer; None if a pool name does not parse. */
  method BuildRequest(poolList: seq<string>, nodes: seq<string>, healthPort: int)
    returns (r: Option<(seq<PoolPrototype>, seq<ListenerPrototype>)>)
    ensures r.None? <==> exists i :: 0 <= i < |poolList| && !Parses(poolList[i])
    ensures r.Some? ==> |r.value.0| == |r.value.1| == |poolList|
    ensures r.Some? ==> forall i :: 0 <= i < |poolList| ==>
                          && Parses(poolList[i])
                          && r.value.0[i] == PoolFor(poolList[i], nodes, healthPort)
                          && r.value.1[i] == ListenerPrototype(poolList[i], ExtractFields(poolList[i]).value.port)
  {
    hide ExtractFields, MembersOf, GenMonitor;
    var pools: seq<PoolPrototype>, listeners: seq<ListenerPrototype> := [], [];
    var i := 0;
    while i < |poolList|
      invariant 0 <= i <= |poolList| && |pools| == |listeners| == i
      invariant forall j :: 0 <= j < i ==> Parses(poolList[j])
      invariant forall j :: 0 <= j < i ==>
                  && pools[j] == PoolFor(poolList[j], nodes, healthPort)
                  && listeners[j] == ListenerPrototype(poolList[j], ExtractFields(poolList[j]).value.port)
    {
      var fields := ExtractFields(poolList[i]);
      if fields.None? {
        assert !Parses(poolList[i]);
        return None;
      }
      var members := GenLoadBalancerMembers(fields.value.nodePort, nodes);
      pools := pools + [PoolPrototype(poolList[i], GenMonitor(fields.value.nodePort, healthPort), members)];
      listeners := listeners + [ListenerPrototype(poolList[i], fields.value.port)];
      i := i + 1;
    }
    r := Some((pools, listeners));
  }

  /** What the service makes of a create request: one pool and one TCP listener per prototype, in whatever ids. */
  ghost predicate Realises(s: State, pools: seq<PoolPrototype>, listeners: seq<ListenerPrototype>,
                           poolIds: seq<string>, listenerIds: seq<string>)
  {
    && |poolIds| == |pools| && |listenerIds| == |listeners| && Distinct(poolIds) && Distinct(listenerIds)
    && (forall p :: p in s.pools <==> p in poolIds) && (forall l :: l in s.listeners <==> l in listenerIds)
    && (forall i :: 0 <= i < |pools| ==> MadePool(s.pools[poolIds[i]], pools[i]))
    && (forall i :: 0 <= i < |listeners| ==> MadeListener(s, s.listeners[listenerIds[i]], listeners[i]))
    && PoolsOk(s) && IdsSpent(s)
  }

  ghost predicate MadePool(p: Pool, proto: PoolPrototype) {
    && Show(p.name) == proto.name && p.monitor == proto.monitor
    && forall m :: Present(p.members, m) <==> m in proto.members
  }

  ghost predicate MadeListener(s: State, l: Listener, proto: ListenerPrototype) {
    l.protocol == TCP && l.port == proto.port && l.poolId in s.pools
    && Show(s.pools[l.poolId].name) == proto.defaultPool
  }

  /** getServicePoolNames */
  function PoolNamesOf(ports: seq<ServicePort>): (names: seq<string>)
    ensures |names| == |ports| && forall i :: 0 <= i < |ports| ==> names[i] == Show(GenName(ports[i]))
  {
    seq(|ports|, i requires 0 <= i < |ports| => Show(GenName(ports[i])))
  }

  /** The request a service and a node list lead to. */
  ghost predicate Requested(pools: seq<PoolPrototype>, listeners: seq<ListenerPrototype>, service: Service,
                            nodes: seq<string>)
  {
    && |pools| == |listeners| == |service.ports|
    && forall i :: 0 <= i < |service.ports| ==>
                     var port := service.ports[i];
                     && pools[i] == PoolPrototype(Show(GenName(port)), GenMonitor(port.nodePort, HealthPort(service)),
                                                  MembersOf(nodes, port.nodePort))
                     && listeners[i] == ListenerPrototype(Show(GenName(port)), port.port)
  }

  /** The pools and listeners of a create request. */
  method CreateRequest(service: Service, nodes: seq<string>)
    returns (pools: seq<PoolPrototype>, listeners: seq<ListenerPrototype>)
    ensures Requested(pools, listeners, service, nodes)
  {
    hide Show, ExtractFields, GenMonitor, MembersOf;
    var r := BuildRequest(PoolNamesOf(service.ports), nodes, HealthPort(service));
    forall i | 0 <= i < |service.ports| ensures ExtractFields(Show(GenName(service.ports[i]))).Some? {
      ExtractShow(GenName(service.ports[i]));
    }
    assert r.Some?;
    pools, listeners := r.value.0, r.value.1;
    forall i | 0 <= i < |service.ports| {
      ExtractShow(GenName(service.ports[i]));
    }
  }

  /** A create request: whether the load balancer is public, where it is placed, and what it consists of. */
  datatype Creation = Creation(isPublic: bool, subnets: seq<string>, pools: seq<PoolPrototype>,
                               listeners: seq<ListenerPrototype>)

  /** A request can be made for the service. */
  ghost predicate Creatable(service: KubeService, nodes: seq<string>, all: seq<Subnets.Subnet>, config: Subnets.Config)
  {
    && AllTcp(service) && Subnets.Placeable(service.subnetsAnnotation, service.zoneAnnotation, all, config)
    && nodes != [] && NodesFor(service, NodeIDs(nodes), []).Some?
  }

  /** The request asks for what the service wants, with the nodes selected as if there were no members yet. */
  ghost predicate Asks(request: Creation, service: KubeService, nodes: seq<string>, all: seq<Subnets.Subnet>,
                       config: Subnets.Config)
    requires KubeOk(service) && Creatable(service, nodes, all, config)
  {
    && request.isPublic == IsServicePublic(service)
    && Subnets.Placed(service.subnetsAnnotation, service.zoneAnnotation, all, config, request.subnets)
    && Requested(request.pools, request.listeners, ServiceOf(service), NodesFor(service, NodeIDs(nodes), []).value)
  }

  /** The monitor of a new pool: HTTP on the health check node port of a Local service that has one, and else TCP on the
      node port. */
  function NewMonitor(service: KubeService, nodePort: int): Monitor {
    if service.policy == Local && service.healthCheckNodePort > 0 then
      Monitor(HttpCheck, service.healthCheckNodePort, 5, 2, 2, "/")
    else Monitor(TcpCheck, nodePort, 5, 2, 2, "")
  }

  /** What is asked for, in the fields of the service: one named and checked pool per port, with one member per node on
      the node port, and one listener in front of it. */
  ghost predicate AsksFor(pools: seq<PoolPrototype>, listeners: seq<ListenerPrototype>, service: KubeService,
                          nodes: seq<string>)
  {
    && |pools| == |listeners| == |service.ports|
    && forall i :: 0 <= i < |service.ports| ==> AsksForPort(pools[i], listeners[i], service, nodes, service.ports[i])
  }

  ghost predicate AsksForPort(pool: PoolPrototype, listener: ListenerPrototype, service: KubeService,
                              nodes: seq<string>, port: KubePort)
  {
    && pool.name == listener.defaultPool == GenText("TCP", port.port, port.nodePort) && listener.port == port.port
    && pool.monitor == NewMonitor(service, port.nodePort)
    && |pool.members| == |nodes| && forall j :: 0 <= j < |nodes| ==> pool.members[j] == Member(nodes[j], port.nodePort)
  }

  lemma RequestedIff(pools: seq<PoolPrototype>, listeners: seq<ListenerPrototype>, service: KubeService,
                     nodes: seq<string>)
    requires KubeOk(service) && AllTcp(service)
    ensures Requested(pools, listeners, ServiceOf(service), nodes) <==> AsksFor(pools, listeners, service, nodes)
  {
    PortsAre(service);
    var svc := ServiceOf(service);
    hide ServiceOf, Show, GenText, MembersOf, GenMonitor, NewMonitor, HealthPort;
    forall i | 0 <= i < |svc.ports|
      ensures Show(GenName(svc.ports[i])) == GenText("TCP", service.ports[i].port, service.ports[i].nodePort)
      ensures GenMonitor(svc.ports[i].nodePort, HealthPort(svc)) == NewMonitor(service, service.ports[i].nodePort)
    {
      NameOf(svc.ports[i]);
      MonitorOf(service, svc.ports[i].nodePort);
    }
    if |pools| == |listeners| == |service.ports| {
      forall i | 0 <= i < |pools|
        ensures pools[i].members == MembersOf(nodes, svc.ports[i].nodePort) <==>
                && |pools[i].members| == |nodes|
                && forall j :: 0 <= j < |nodes| ==> pools[i].members[j] == Member(nodes[j], service.ports[i].nodePort)
      {
      }
    }
  }

  lemma NameOf(port: ServicePort)
    ensures Show(GenName(port)) == GenText("TCP", port.port, port.nodePort)
  {
    ProtocolTextFacts();
  }

  lemma MonitorOf(service: KubeService, nodePort: int)
    requires KubeOk(service) && AllTcp(service)
    ensures GenMonitor(nodePort, HealthPort(ServiceOf(service))) == NewMonitor(service, nodePort)
  {
  }

  /** CreateLoadBalancer up to the call of the service. */
  method CreateLoadBalancer(service: KubeService, nodes: seq<string>, allSubnets: Option<seq<Subnets.Subnet>>,
                            config: Subnets.Config)
    returns (r: Option<Creation>)
    requires KubeOk(service) && NodesOk(NodeIDs(nodes))
    ensures r.Some? <==> allSubnets.Some? && Creatable(service, nodes, allSubnets.value, config)
    ensures r.Some? ==> Asks(r.value, service, nodes, allSubnets.value, config)
    ensures r.Some? ==> (r.value.isPublic <==> service.ipTypeAnnotation in {"", "public"})
    ensures r.Some? ==>
              AsksFor(r.value.pools, r.value.listeners, service, NodesFor(service, NodeIDs(nodes), []).value)
  {
    hide AsksFor, Subnets.Placeable, Subnets.Placed, Requested, Nodes.Select, Nodes.MemberQuota, NodeIDs, AllTokens,
         Distinct;
    var valid := ValidateService(service);
    if !valid || allSubnets.None? {
      return None;
    }
    var subnetList :=
          Subnets.ChooseSubnets(service.subnetsAnnotation, service.zoneAnnotation, allSubnets.value, config);
    if subnetList.None? || nodes == [] {
      return None;
    }
    var desired := GetNodeIDs(nodes);
    TokensHaveNoSpace(desired);
    var nodeList :=
          Nodes.FilterNodesByServiceMemberQuota(desired, [], service.policy == Local, service.quotaAnnotation);
    if nodeList.None? {
      return None;
    }
    var pools, listeners := CreateRequest(ServiceOf(service), nodeList.value);
    RequestedIff(pools, listeners, service, nodeList.value);
    r := Some(Creation(IsServicePublic(service), subnetList.value, pools, listeners));
  }

  function Ids(count: nat): (ids: seq<string>)
    ensures |ids| == count && forall i :: 0 <= i < count ==> ids[i] == FreshId(i)
  {
    seq(count, i requires 0 <= i < count => FreshId(i))
  }

  /** One way for the service to serve a request: it numbers pools and listeners in the order of the request, and
      after them the members, pool by pool. */
  ghost function Served(service: Service, nodes: seq<string>): State {
    var n := |service.ports|;
    State(map id | id in FreshIds(0, n) :: Listener(TCP, service.ports[Serial(id)].port, id),
          map id | id in FreshIds(0, n) :: ServedPool(service, nodes, Serial(id)),
          n + n * |nodes|)
  }

  ghost function ServedPool(service: Service, nodes: seq<string>, i: nat): Pool
    requires i < |service.ports|
  {
    var port := service.ports[i];
    Pool(GenName(port), GenMonitor(port.nodePort, HealthPort(service)),
         GenMembers(nodes, port.nodePort, |service.ports| + i * |nodes|))
  }

  lemma ServedMembers(nodes: seq<string>, nodePort: int, next: nat)
    ensures forall m :: Present(GenMembers(nodes, nodePort, next), m) <==> m in MembersOf(nodes, nodePort)
  {
    hide FreshId;
    var members, listed := GenMembers(nodes, nodePort, next), MembersOf(nodes, nodePort);
    forall m | m in listed ensures Present(members, m) {
      var i :| 0 <= i < |listed| && listed[i] == m;
      assert FreshId(next + i) in members && members[FreshId(next + i)] == m;
    }
    forall m | Present(members, m) ensures m in listed {
      var id :| id in members && members[id] == m;
      assert listed[Serial(id) - next] == m;
    }
  }

  /** A block of ids ends within all blocks. */
  lemma BlockEnds(i: nat, n: nat, size: nat)
    requires i < n
    ensures i * size + size <= n * size
  {
    assert (i + 1) * size <= n * size;
  }

  lemma ServedPoolIds(service: Service, nodes: seq<string>, i: nat)
    requires NodesOk(nodes) && i < |service.ports|
    ensures MembersOk(ServedPool(service, nodes, i).members)
    ensures forall k: nat :: k >= Served(service, nodes).next ==> FreshId(k) !in ServedPool(service, nodes, i).members
  {
    hide FreshId, MembersOk, NodesOk;
    var n := |service.ports|;
    BlockEnds(i, n, |nodes|);
    GenMembersOk(nodes, service.ports[i].nodePort, n + i * |nodes|);
  }

  lemma ServedIds(service: Service, nodes: seq<string>)
    requires NodesOk(nodes)
    ensures var s := Served(service, nodes); PoolsOk(s) && IdsSpent(s)
  {
    hide FreshId, ServedPool, MembersOk, NodesOk;
    var s := Served(service, nodes);
    forall p | p in s.pools
      ensures MembersOk(s.pools[p].members) && forall k: nat :: k >= s.next ==> FreshId(k) !in s.pools[p].members
    {
      ServedPoolIds(service, nodes, Serial(p));
    }
    assert s.next >= |service.ports| by { BlockEnds(0, |service.ports| + 1, |nodes|); }
  }

  /** No two pools have a member id in common. */
  lemma ServedMembersApart(service: Service, nodes: seq<string>, i: nat, j: nat)
    requires i < j < |service.ports|
    ensures ServedPool(service, nodes, i).members.Keys !! ServedPool(service, nodes, j).members.Keys
  {
    BlockEnds(i, j, |nodes|);
  }

  /** A request can be served. */
  lemma ServedRealises(service: Service, nodes: seq<string>, pools: seq<PoolPrototype>,
                       listeners: seq<ListenerPrototype>)
    requires NodesOk(nodes) && Requested(pools, listeners, service, nodes)
    ensures Realises(Served(service, nodes), pools, listeners, Ids(|service.ports|), Ids(|service.ports|))
  {
    hide FreshId, Show, GenMembers, MembersOf, PoolsOk, IdsSpent;
    var s, ids := Served(service, nodes), Ids(|service.ports|);
    ServedIds(service, nodes);
    forall id ensures id in FreshIds(0, |ids|) <==> id in ids {
      if id in FreshIds(0, |ids|) {
        assert ids[Serial(id)] == id;
      }
    }
    forall i | 0 <= i < |ids| ensures ids[i] in s.pools && MadePool(s.pools[ids[i]], pools[i]) {
      ServedMembers(nodes, service.ports[i].nodePort, |service.ports| + i * |nodes|);
      assert Serial(ids[i]) == i;
    }
    forall i | 0 <= i < |ids| ensures MadeListener(s, s.listeners[ids[i]], listeners[i]) {
      assert Serial(ids[i]) == i;
    }
    assert Distinct(ids) by {
      assert forall i :: 0 <= i < |ids| ==> Serial(ids[i]) == i;
    }
  }

  lemma ServedIsDesired(service: Service, nodes: seq<string>)
    requires ServiceOk(service) && NodesOk(nodes)
    ensures WF(Served(service, nodes)) && Desired(Served(service, nodes), service, nodes)
  {
    hide Show, MembersOf, GenMonitor, Realises, WF, Desired;
    var n := |service.ports|;
    var pools := seq(n, i requires 0 <= i < n =>
                   var port := service.ports[i];
                   PoolPrototype(Show(GenName(port)), GenMonitor(port.nodePort, HealthPort(service)),
                                 MembersOf(nodes, port.nodePort)));
    var listeners := seq(n, i requires 0 <= i < n =>
                       ListenerPrototype(Show(GenName(service.ports[i])), service.ports[i].port));
    ServedRealises(service, nodes, pools, listeners);
    CreatedIsDesired(Served(service, nodes), pools, listeners, Ids(n), Ids(n), service, nodes);
  }

  lemma MadePoolDesired(p: Pool, proto: PoolPrototype, service: Service, nodes: seq<string>, port: ServicePort)
    requires MadePool(p, proto)
    requires proto == PoolPrototype(Show(GenName(port)), GenMonitor(port.nodePort, HealthPort(service)),
                                    MembersOf(nodes, port.nodePort))
    ensures PoolDesired(p, service, nodes, port)
  {
    hide Show;
    ShowInjective(p.name, GenName(port));
    forall m | m in p.members ensures GoodMember(p.members[m], nodes, port.nodePort) {
      assert Present(p.members, p.members[m]);
    }
    forall n | n in nodes ensures Present(p.members, Member(n, port.nodePort)) {
      var i :| 0 <= i < |nodes| && nodes[i] == n;
      assert MembersOf(nodes, port.nodePort)[i] == Member(n, port.nodePort);
    }
  }

  /** One finished pool and one finished listener per service port, in whatever ids. */
  ghost predicate Finished(s: State, poolIds: seq<string>, listenerIds: seq<string>, service: Service,
                           nodes: seq<string>)
  {
    && |poolIds| == |service.ports| && |listenerIds| == |service.ports|
    && (forall p :: p in s.pools ==> p in poolIds) && (forall l :: l in s.listeners ==> l in listenerIds)
    && (forall i :: 0 <= i < |service.ports| ==> PoolFinished(s, poolIds[i], service, nodes, service.ports[i]))
    && (forall i :: 0 <= i < |service.ports| ==> ListenerFinished(s, listenerIds[i], service.ports[i]))
  }

  ghost predicate PoolFinished(s: State, p: string, service: Service, nodes: seq<string>, port: ServicePort) {
    p in s.pools && PoolDesired(s.pools[p], service, nodes, port)
  }

  ghost predicate ListenerFinished(s: State, l: string, port: ServicePort) {
    && l in s.listeners && Matches(port, s.listeners[l].protocol, s.listeners[l].port)
    && s.listeners[l].poolId in s.pools && s.pools[s.listeners[l].poolId].name == GenName(port)
  }

  lemma RealisedIsFinished(s: State, pools: seq<PoolPrototype>, listeners: seq<ListenerPrototype>, poolIds: seq<string>,
                           listenerIds: seq<string>, service: Service, nodes: seq<string>)
    requires Requested(pools, listeners, service, nodes) && Realises(s, pools, listeners, poolIds, listenerIds)
    ensures Finished(s, poolIds, listenerIds, service, nodes)
  {
    hide Show, MembersOf, GenMonitor, PoolsOk, IdsSpent, PoolDesired, MadePool;
    forall i | 0 <= i < |service.ports| ensures PoolFinished(s, poolIds[i], service, nodes, service.ports[i]) {
      MadePoolDesired(s.pools[poolIds[i]], pools[i], service, nodes, service.ports[i]);
    }
    forall i | 0 <= i < |service.ports| ensures ListenerFinished(s, listenerIds[i], service.ports[i]) {
      assert MadeListener(s, s.listeners[listenerIds[i]], listeners[i]);
      ShowInjective(s.pools[s.listeners[listenerIds[i]].poolId].name, GenName(service.ports[i]));
    }
  }

  lemma PoolServes(s: State, poolIds: seq<string>, listenerIds: seq<string>, service: Service, nodes: seq<string>,
                   p: string)
    returns (i: nat)
    requires Finished(s, poolIds, listenerIds, service, nodes) && p in s.pools
    ensures i < |service.ports| && |poolIds| == |service.ports| && poolIds[i] == p
            && PoolFinished(s, p, service, nodes, service.ports[i])
  {
    hide PoolFinished, ListenerFinished;
    i :| 0 <= i < |poolIds| && poolIds[i] == p;
  }

  lemma ListenerServes(s: State, poolIds: seq<string>, listenerIds: seq<string>, service: Service, nodes: seq<string>,
                       l: string)
    returns (i: nat)
    requires Finished(s, poolIds, listenerIds, service, nodes) && l in s.listeners
    ensures i < |service.ports| && |listenerIds| == |service.ports| && listenerIds[i] == l
            && ListenerFinished(s, l, service.ports[i])
  {
    hide PoolFinished, ListenerFinished;
    i :| 0 <= i < |listenerIds| && listenerIds[i] == l;
  }

  lemma FinishedEndpoints(s: State, poolIds: seq<string>, listenerIds: seq<string>, service: Service,
                          nodes: seq<string>)
    requires ServiceOk(service) && Finished(s, poolIds, listenerIds, service, nodes)
    ensures EndpointsUnique(s)
  {
    hide Finished, Covers, MonitorOk;
    forall p, q | p in s.pools && q in s.pools && p != q ensures !SameEndpoint(s.pools[p].name, s.pools[q].name) {
      var i := PoolServes(s, poolIds, listenerIds, service, nodes, p);
      var j := PoolServes(s, poolIds, listenerIds, service, nodes, q);
    }
  }

  lemma FinishedListeners(s: State, poolIds: seq<string>, listenerIds: seq<string>, service: Service,
                          nodes: seq<string>)
    requires ServiceOk(service) && Finished(s, poolIds, listenerIds, service, nodes)
    ensures ListenersBacked(s) && PortsUnique(s)
  {
    hide Finished;
    forall k, l | k in s.listeners && l in s.listeners && k != l ensures s.listeners[k].port != s.listeners[l].port {
      var i := ListenerServes(s, poolIds, listenerIds, service, nodes, k);
      var j := ListenerServes(s, poolIds, listenerIds, service, nodes, l);
    }
    forall l | l in s.listeners
      ensures s.listeners[l].poolId in s.pools
              && s.pools[s.listeners[l].poolId].name.protocol == s.listeners[l].protocol
              && s.pools[s.listeners[l].poolId].name.port == s.listeners[l].port
    {
      var i := ListenerServes(s, poolIds, listenerIds, service, nodes, l);
    }
  }

  lemma FinishedPort(s: State, poolIds: seq<string>, listenerIds: seq<string>, service: Service, nodes: seq<string>,
                     port: ServicePort)
    requires Finished(s, poolIds, listenerIds, service, nodes) && port in service.ports
    ensures HasPool(s, GenName(port)) && HasListener(s, port)
  {
    hide Covers, MonitorOk;
    var i :| 0 <= i < |service.ports| && service.ports[i] == port;
    assert PoolFinished(s, poolIds[i], service, nodes, port) && ListenerFinished(s, listenerIds[i], port);
  }

  lemma FinishedIsDesired(s: State, poolIds: seq<string>, listenerIds: seq<string>, service: Service,
                          nodes: seq<string>)
    requires Finished(s, poolIds, listenerIds, service, nodes)
    ensures Desired(s, service, nodes)
  {
    hide Finished, PoolDesired, HasPool, HasListener;
    forall p | p in s.pools
      ensures exists port :: port in service.ports && PoolDesired(s.pools[p], service, nodes, port)
    {
      var i := PoolServes(s, poolIds, listenerIds, service, nodes, p);
      assert service.ports[i] in service.ports;
    }
    forall l | l in s.listeners ensures ListenerDesired(s, service, s.listeners[l]) {
      var i := ListenerServes(s, poolIds, listenerIds, service, nodes, l);
      assert service.ports[i] in service.ports;
    }
    forall port | port in service.ports ensures HasPool(s, GenName(port)) && HasListener(s, port) {
      FinishedPort(s, poolIds, listenerIds, service, nodes, port);
    }
  }

  /** A created load balancer satisfies the invariant and is the desired one. */
  lemma CreatedIsDesired(s: State, pools: seq<PoolPrototype>, listeners: seq<ListenerPrototype>, poolIds: seq<string>,
                         listenerIds: seq<string>, service: Service, nodes: seq<string>)
    requires ServiceOk(service) && Requested(pools, listeners, service, nodes)
             && Realises(s, pools, listeners, poolIds, listenerIds)
    ensures WF(s) && Desired(s, service, nodes)
  {
    assert PoolsOk(s) && IdsSpent(s);
    hide Realises, Requested, Finished, Desired, EndpointsUnique, ListenersBacked, PortsUnique, PoolsOk, IdsSpent;
    RealisedIsFinished(s, pools, listeners, poolIds, listenerIds, service, nodes);
    FinishedEndpoints(s, poolIds, listenerIds, service, nodes);
    FinishedListeners(s, poolIds, listenerIds, service, nodes);
    FinishedIsDesired(s, poolIds, listenerIds, service, nodes);
  }

  /** Creation is a fixed point of update: on the load balancer created for a service and its nodes (there being no
      existing members then), an update for the same service and nodes plans nothing. */
  lemma CreateIsFixpoint(service: KubeService, desired: seq<string>, s: State, pools: seq<PoolPrototype>,
                         listeners: seq<ListenerPrototype>, poolIds: seq<string>, listenerIds: seq<string>,
                       existing: seq<string>, job: Job)
    requires KubeOk(service) && AllTcp(service) && NodesOk(desired) && NodesFor(service, desired, []).Some?
    requires Requested(pools, listeners, ServiceOf(service), NodesFor(service, desired, []).value)
    requires Realises(s, pools, listeners, poolIds, listenerIds)
    requires JobOf(job, s) && job.service == ServiceOf(service) && TargetsOf(existing, job.pools)
    requires NodesFor(service, desired, existing) == Some(job.nodes)
    ensures WF(s) && PlanOf(job) == []
  {
    CreatedIsDesired(s, pools, listeners, poolIds, listenerIds, ServiceOf(service),
                     NodesFor(service, desired, []).value);
    SelectionInDesiredState(service, desired, [], s, job.pools, desired, existing);
    DesiredPlansNothing(job, s);
  }

  /** The service holds what was asked for. */
  ghost predicate Realised(sdk: VpcSdk, request: Creation, poolIds: seq<string>, listenerIds: seq<string>)
    reads sdk
  {
    && sdk.isPublic == request.isPublic && Distinct(sdk.subnets) && Elements(sdk.subnets) == Elements(request.subnets)
    && Realises(sdk.remote, request.pools, request.listeners, poolIds, listenerIds)
  }

  /** An item of the subnets annotation is decided by a subnet of another VPC. */
  ghost predicate ForeignItem(service: KubeService, all: seq<Subnets.Subnet>, config: Subnets.Config)
    requires Subnets.ClusterSubnets(all, config) != []
  {
    var annotation := Subnets.WithoutSpaces(service.subnetsAnnotation);
    var vpcID := Subnets.ClusterSubnets(all, config)[0].vpcID;
    annotation != "" && exists item :: item in Split(annotation, ',') && Subnets.ForeignDecides(item, vpcID, all)
  }

  /** The subnets check of an update after a creation rejects exactly a foreign item. */
  lemma CreatedSubnets(service: KubeService, nodes: seq<string>, all: seq<Subnets.Subnet>, config: Subnets.Config,
                       request: Creation, lb: LoadBalancer)
    requires KubeOk(service) && Creatable(service, nodes, all, config) && Asks(request, service, nodes, all, config)
    requires Distinct(lb.subnets) && Elements(lb.subnets) == Elements(request.subnets)
    requires Subnets.ListingOk(all) && Subnets.PlainIds(all)
    ensures SubnetsDiffer(service, lb, all) <==> ForeignItem(service, all, config)
    ensures SubnetsDiffer(service, lb, all) ==> SubnetIdsPlain(lb, all) && !SubnetsUnchanged(service, lb, all)
  {
    hide Requested, Subnets.ForeignDecides, Subnets.ResolveAll, Subnets.VpcOf, Split, Subnets.NamedIn, Subnets.InVpc,
         Subnets.ListingOk;
    var annotation := Subnets.WithoutSpaces(service.subnetsAnnotation);
    if annotation != "" {
      var own, cluster := Subnets.InVpc(all, config.vpcName), Subnets.ClusterSubnets(all, config)[0];
      Subnets.NamedInMembers(own, config.subnetNames);
      assert cluster in own;
      Subnets.CreatedIsAccepted(service.subnetsAnnotation, all, config.vpcName, cluster, lb.subnets);
      Subnets.ResolvedIds(Split(annotation, ','), cluster.vpcID, own);
      Subnets.InVpcMembers(all, config.vpcName);
      forall i | 0 <= i < |lb.subnets| ensures lb.subnets[i] != "" && ',' !in lb.subnets[i] {
        assert lb.subnets[i] in Elements(lb.subnets);
        var k :| 0 <= k < |own| && own[k].id == lb.subnets[i];
        assert own[k] in own;
      }
    }
  }

  /** The first update after a creation, with nothing changed: it changes nothing and issues nothing. If it finds the
      load balancer ready it passes all checks and succeeds, unless a listing fails or an item of the subnets
      annotation is decided by a subnet of another VPC; in that case it is always rejected for the subnets. */
  method UpdateAfterCreation(sdk: VpcSdk, service: KubeService, nodes: seq<string>, all: seq<Subnets.Subnet>,
                             config: Subnets.Config, request: Creation, ghost poolIds: seq<string>,
                             ghost listenerIds: seq<string>)
    returns (lb: Option<LoadBalancer>, r: Result)
    requires KubeOk(service) && NodesOk(NodeIDs(nodes)) && Creatable(service, nodes, all, config)
    requires Asks(request, service, nodes, all, config) && Realised(sdk, request, poolIds, listenerIds)
    requires Disciplined(sdk.log) && Subnets.ListingOk(all) && Subnets.PlainIds(all)
    modifies sdk
    ensures sdk.remote == old(sdk.remote) && Issues(sdk.log) == Issues(old(sdk.log))
    ensures lb.Some? && !IsReady(lb.value) ==> r == Rejected(NotReady)
    ensures lb.Some? && IsReady(lb.value) ==>
              if ForeignItem(service, all, config) then r == Rejected(SubnetsChanged)
              else r.Done? || (r == Rejected(ListingFailed) && !sdk.reliable)
    ensures sdk.reliable && old(sdk.busy) == 0 ==> lb.Some? && IsReady(lb.value)
  {
    hide WF, Disciplined, Desired, ListsRefs, NodesOk, NodeIDs, Existing, Issues, NodesFor, Attempted, IsReady,
         SubnetsUnchanged, SubnetIdsPlain, SubnetsDiffer, ForeignItem, AllTcp, IsServicePublic, Realises, Requested,
         Subnets.Placeable, Subnets.Placed, Subnets.ListingOk, Subnets.PlainIds;
    CreatedIsDesired(sdk.remote, request.pools, request.listeners, poolIds, listenerIds, ServiceOf(service),
                     NodesFor(service, NodeIDs(nodes), []).value);
    QuotaWasRead(service, NodeIDs(nodes), []);
    ghost var s, log := sdk.remote, sdk.log;
    lb := sdk.GetLoadBalancer();
    Executor.SeenKeepsDiscipline(log, sdk.log);
    if lb.None? {
      return lb, Rejected(ListingFailed);
    }
    CreatedSubnets(service, nodes, all, config, request, lb.value);
    ghost var existing, calls;
    r, existing, calls := UpdateLoadBalancer(sdk, lb.value, service, nodes, Some(all));
    if Executed(r) {
      StillDesired(service, NodeIDs(nodes), [], s, NodeIDs(nodes), existing);
    }
  }
}

/** The Kubernetes service as the controller reads it: what is planned for it, which nodes it gets, and what it means
    for a load balancer to serve it, told in the fields of the service alone. */
module Services {
  import opened Text
  import opened Remote
  import opened Plan
  import opened Planner
  import Nodes

  datatype KubeService = KubeService(ports: seq<KubePort>, policy: Policy, healthCheckNodePort: int,
                                     quotaAnnotation: string, subnetsAnnotation: string, zoneAnnotation: string,
                                     ipTypeAnnotation: string)

  /** isServicePublic */
  predicate IsServicePublic(service: KubeService) {
    service.ipTypeAnnotation == "" || service.ipTypeAnnotation == "public"
  }

  /** What Kubernetes guarantees of an accepted service: port numbers in range, no TCP port number twice. */
  predicate KubeOk(service: KubeService) {
    && (forall i :: 0 <= i < |service.ports| ==>
                      0 <= service.ports[i].port < 0x8000_0000 && 0 <= service.ports[i].nodePort < 0x8000_0000)
    && (forall i, j :: 0 <= i < j < |service.ports| && service.ports[i].protocol == service.ports[j].protocol ==>
                         service.ports[i].port != service.ports[j].port)
  }

  predicate AllTcp(service: KubeService) {
    forall i :: 0 <= i < |service.ports| ==> service.ports[i].protocol == "TCP"
  }

  /** The service as the model plans for it. */
  function ServiceOf(service: KubeService): (s: Service)
    requires KubeOk(service) && AllTcp(service)
    ensures KubesOf(s.ports) == service.ports && ServiceOk(s)
    ensures s.policy == service.policy && s.healthCheckNodePort == service.healthCheckNodePort
  {
    var ports := seq(|service.ports|, i requires 0 <= i < |service.ports| =>
                       ServicePort(service.ports[i].port, service.ports[i].nodePort));
    Service(ports, service.policy, service.healthCheckNodePort)
  }

  // ----- its nodes -----

  /** The nodes an update works with, given the members of the pool that is listed first. */
  ghost function NodesFor(service: KubeService, desired: seq<string>, existing: seq<string>): Option<seq<string>> {
    if service.policy == Local then Some(desired)
    else
      match Nodes.MemberQuota(service.quotaAnnotation)
      case None => None
      case Some(quota) => Some(Nodes.Select(desired, existing, quota))
  }

  /** A quota this service's annotation stands for: 50 if it is not set, 0 for the two words, or a number. */
  ghost predicate QuotaIs(service: KubeService, v: int) {
    if service.quotaAnnotation == "" then v == 50
    else if ToLower(service.quotaAnnotation) in {"disable", "max"} then v == 0
    else Numeral(service.quotaAnnotation, v) && -0x8000_0000_0000_0000 <= v < 0x8000_0000_0000_0000
  }

  /** How many nodes a service gets: all of them under policy Local; else a number of different ones, which is the
      quota if that is positive and exceeded; and an error exactly if the annotation is no quota. */
  lemma NodesOfService(service: KubeService, desired: seq<string>, existing: seq<string>)
    requires Distinct(desired)
    ensures service.policy == Local ==> NodesFor(service, desired, existing) == Some(desired)
    ensures service.policy != Local ==>
              (NodesFor(service, desired, existing).Some? <==> exists v :: QuotaIs(service, v))
    ensures service.policy != Local ==>
              forall v :: QuotaIs(service, v) ==>
                            var nodes := NodesFor(service, desired, existing);
                            && nodes.Some? && Distinct(nodes.value) && Elements(nodes.value) <= Elements(desired)
                            && |nodes.value| == (if 0 < v < |desired| then v else |desired|)
    ensures service.policy != Local && service.quotaAnnotation == "" ==>
              var nodes := NodesFor(service, desired, existing);
              nodes.Some? && |nodes.value| == if |desired| < 50 then |desired| else 50
  {
    hide Nodes.MemberQuota, Nodes.Select, Numeral;
    var quota := Nodes.MemberQuota(service.quotaAnnotation);
    forall v ensures quota == Some(v) <==> QuotaIs(service, v) {
      Nodes.QuotaIff(service.quotaAnnotation, v);
    }
    if quota.Some? {
      assert QuotaIs(service, quota.value);
      Nodes.SelectedNodes(desired, existing, quota.value);
    }
    assert service.quotaAnnotation == "" ==> QuotaIs(service, 50);
  }

  // ----- the target, in the fields of the service -----

  /** The pool is named for the port, has one member per node on its node port and nothing else, and is checked as the
      policy asks: on the health check node port, or on the pool's own node port. */
  ghost predicate ServesPort(p: Pool, service: KubeService, nodes: seq<string>, port: KubePort) {
    && p.name.protocol == TCP && p.name.port == port.port && p.name.nodePort == port.nodePort
    && (forall m :: m in p.members ==> p.members[m].target in nodes && p.members[m].port == port.nodePort)
    && (forall n :: n in nodes ==> exists m :: m in p.members && p.members[m] == Member(n, port.nodePort))
    && (service.policy == Local && service.healthCheckNodePort > 0 ==>
          p.monitor.check == HttpCheck && p.monitor.port == service.healthCheckNodePort)
    && (service.policy == Cluster ==> p.monitor.check == TcpCheck && p.monitor.port == port.nodePort)
  }

  /** One pool and one listener for each port of the service, the listener in front of the pool, and nothing else. */
  ghost predicate Serves(s: State, service: KubeService, nodes: seq<string>) {
    && (forall p :: p in s.pools ==> PoolWanted(s.pools[p], service, nodes))
    && (forall i :: 0 <= i < |service.ports| ==> PortHasPool(s, service, nodes, service.ports[i]))
    && (forall l :: l in s.listeners ==> FrontWanted(s, s.listeners[l], service))
    && (forall i :: 0 <= i < |service.ports| ==> PortHasFront(s, service.ports[i]))
  }

  ghost predicate PoolWanted(p: Pool, service: KubeService, nodes: seq<string>) {
    exists i :: 0 <= i < |service.ports| && ServesPort(p, service, nodes, service.ports[i])
  }

  ghost predicate PortHasPool(s: State, service: KubeService, nodes: seq<string>, port: KubePort) {
    exists p :: p in s.pools && ServesPort(s.pools[p], service, nodes, port)
  }

  ghost predicate FrontOf(s: State, l: Listener, port: KubePort) {
    && l.protocol == TCP && l.port == port.port && l.poolId in s.pools
    && var name := s.pools[l.poolId].name;
    && name.protocol == TCP && name.port == port.port && name.nodePort == port.nodePort
  }

  ghost predicate FrontWanted(s: State, l: Listener, service: KubeService) {
    exists i :: 0 <= i < |service.ports| && FrontOf(s, l, service.ports[i])
  }

  ghost predicate PortHasFront(s: State, port: KubePort) {
    exists l :: l in s.listeners && FrontOf(s, s.listeners[l], port)
  }

  lemma PortsAre(service: KubeService)
    requires KubeOk(service) && AllTcp(service)
    ensures var ports := ServiceOf(service).ports;
            && |ports| == |service.ports|
            && forall i :: 0 <= i < |ports| ==>
                 ports[i].port == service.ports[i].port && ports[i].nodePort == service.ports[i].nodePort
  {
    var ports := ServiceOf(service).ports;
    assert forall i :: 0 <= i < |ports| ==> KubesOf(ports)[i] == service.ports[i];
  }

  lemma ServesPortIff(p: Pool, service: KubeService, nodes: seq<string>, i: nat)
    requires KubeOk(service) && AllTcp(service) && i < |service.ports|
    ensures |ServiceOf(service).ports| == |service.ports|
    ensures ServesPort(p, service, nodes, service.ports[i]) <==>
            PoolDesired(p, ServiceOf(service), nodes, ServiceOf(service).ports[i])
  {
    PortsAre(service);
  }

  lemma PoolWantedIff(p: Pool, service: KubeService, nodes: seq<string>)
    requires KubeOk(service) && AllTcp(service)
    ensures PoolWanted(p, service, nodes) <==>
            exists port :: port in ServiceOf(service).ports && PoolDesired(p, ServiceOf(service), nodes, port)
  {
    PortsAre(service);
    var svc := ServiceOf(service);
    hide PoolDesired, ServesPort, ServiceOf;
    if PoolWanted(p, service, nodes) {
      var i :| 0 <= i < |service.ports| && ServesPort(p, service, nodes, service.ports[i]);
      ServesPortIff(p, service, nodes, i);
      assert svc.ports[i] in svc.ports;
    }
    if port :| port in svc.ports && PoolDesired(p, svc, nodes, port) {
      var i :| 0 <= i < |svc.ports| && svc.ports[i] == port;
      ServesPortIff(p, service, nodes, i);
    }
  }

  lemma FrontWantedIff(s: State, l: Listener, service: KubeService)
    requires KubeOk(service) && AllTcp(service)
    ensures FrontWanted(s, l, service) <==> ListenerDesired(s, ServiceOf(service), l)
  {
    PortsAre(service);
    var svc := ServiceOf(service);
    hide ServiceOf;
    if FrontWanted(s, l, service) {
      var i :| 0 <= i < |service.ports| && FrontOf(s, l, service.ports[i]);
      assert svc.ports[i] in svc.ports;
    }
    if ListenerDesired(s, svc, l) {
      var port :| && port in svc.ports && Matches(port, l.protocol, l.port)
                  && s.pools[l.poolId].name == GenName(port);
      var i :| 0 <= i < |svc.ports| && svc.ports[i] == port;
      assert FrontOf(s, l, service.ports[i]);
    }
  }

  /** Given that there is nothing but what the service asks for, each port has its pool and its listener. */
  lemma PortHasBothIff(s: State, service: KubeService, nodes: seq<string>, i: nat)
    requires KubeOk(service) && AllTcp(service) && i < |service.ports|
    requires forall p :: p in s.pools ==> PoolWanted(s.pools[p], service, nodes)
    requires forall l :: l in s.listeners ==> FrontWanted(s, s.listeners[l], service)
    ensures |ServiceOf(service).ports| == |service.ports|
    ensures PortHasPool(s, service, nodes, service.ports[i]) <==> HasPool(s, GenName(ServiceOf(service).ports[i]))
    ensures PortHasFront(s, service.ports[i]) <==> HasListener(s, ServiceOf(service).ports[i])
  {
    PortsAre(service);
    var port := ServiceOf(service).ports[i];
    hide ServiceOf, FrontOf, FrontWanted, ServesPort, PoolWanted;
    if PortHasPool(s, service, nodes, service.ports[i]) {
      var p :| p in s.pools && ServesPort(s.pools[p], service, nodes, service.ports[i]);
      NamedFor(s.pools[p], service, nodes, i);
    }
    if p :| p in s.pools && s.pools[p].name == GenName(port) {
      OwnPool(s.pools[p], service, nodes, i);
    }
    if PortHasFront(s, service.ports[i]) {
      var l :| l in s.listeners && FrontOf(s, s.listeners[l], service.ports[i]);
      FrontMatches(s, s.listeners[l], service, i);
    }
    if l :| l in s.listeners && Matches(port, s.listeners[l].protocol, s.listeners[l].port) {
      OwnFront(s, s.listeners[l], service, i);
    }
  }

  lemma NamedFor(p: Pool, service: KubeService, nodes: seq<string>, i: nat)
    requires KubeOk(service) && AllTcp(service) && i < |service.ports|
    requires ServesPort(p, service, nodes, service.ports[i])
    ensures |ServiceOf(service).ports| == |service.ports| && p.name == GenName(ServiceOf(service).ports[i])
  {
    PortsAre(service);
  }

  lemma FrontMatches(s: State, l: Listener, service: KubeService, i: nat)
    requires KubeOk(service) && AllTcp(service) && i < |service.ports| && FrontOf(s, l, service.ports[i])
    ensures |ServiceOf(service).ports| == |service.ports| && Matches(ServiceOf(service).ports[i], l.protocol, l.port)
  {
    PortsAre(service);
  }

  /** A wanted pool that is named for a port serves that port, port numbers being distinct. */
  lemma OwnPool(p: Pool, service: KubeService, nodes: seq<string>, i: nat)
    requires KubeOk(service) && AllTcp(service) && i < |service.ports| == |ServiceOf(service).ports|
    requires PoolWanted(p, service, nodes) && p.name == GenName(ServiceOf(service).ports[i])
    ensures ServesPort(p, service, nodes, service.ports[i])
  {
    PortsAre(service);
    hide ServiceOf;
    var j :| 0 <= j < |service.ports| && ServesPort(p, service, nodes, service.ports[j]);
    assert service.ports[i].port == service.ports[j].port;
    assert i == j;
  }

  lemma OwnFront(s: State, l: Listener, service: KubeService, i: nat)
    requires KubeOk(service) && AllTcp(service) && i < |service.ports| == |ServiceOf(service).ports|
    requires FrontWanted(s, l, service) && Matches(ServiceOf(service).ports[i], l.protocol, l.port)
    ensures FrontOf(s, l, service.ports[i])
  {
    PortsAre(service);
    hide ServiceOf;
    var j :| 0 <= j < |service.ports| && FrontOf(s, l, service.ports[j]);
    assert i == j;
  }

  lemma PoolsWantedIff(s: State, service: KubeService, nodes: seq<string>)
    requires KubeOk(service) && AllTcp(service)
    ensures (forall p :: p in s.pools ==> PoolWanted(s.pools[p], service, nodes)) <==>
            (forall p :: p in s.pools ==>
               exists port :: port in ServiceOf(service).ports
                              && PoolDesired(s.pools[p], ServiceOf(service), nodes, port))
  {
    hide ServiceOf, PoolDesired, PoolWanted;
    forall p | p in s.pools
      ensures PoolWanted(s.pools[p], service, nodes) <==>
              exists port :: port in ServiceOf(service).ports
                             && PoolDesired(s.pools[p], ServiceOf(service), nodes, port)
    {
      PoolWantedIff(s.pools[p], service, nodes);
    }
  }

  lemma FrontsWantedIff(s: State, service: KubeService)
    requires KubeOk(service) && AllTcp(service)
    ensures (forall l :: l in s.listeners ==> FrontWanted(s, s.listeners[l], service)) <==>
            (forall l :: l in s.listeners ==> ListenerDesired(s, ServiceOf(service), s.listeners[l]))
  {
    hide ServiceOf, ListenerDesired, FrontWanted;
    forall l | l in s.listeners
      ensures FrontWanted(s, s.listeners[l], service) <==> ListenerDesired(s, ServiceOf(service), s.listeners[l])
    {
      FrontWantedIff(s, s.listeners[l], service);
    }
  }

  lemma PortsServedIff(s: State, service: KubeService, nodes: seq<string>)
    requires KubeOk(service) && AllTcp(service)
    requires forall p :: p in s.pools ==> PoolWanted(s.pools[p], service, nodes)
    requires forall l :: l in s.listeners ==> FrontWanted(s, s.listeners[l], service)
    ensures (forall i :: 0 <= i < |service.ports| ==>
               PortHasPool(s, service, nodes, service.ports[i]) && PortHasFront(s, service.ports[i])) <==>
            (forall port :: port in ServiceOf(service).ports ==> HasPool(s, GenName(port)) && HasListener(s, port))
  {
    PortsAre(service);
    hide ServiceOf, HasPool, HasListener, PoolWanted, PortHasPool, FrontWanted, PortHasFront, GenName;
    forall i | 0 <= i < |service.ports|
      ensures PortHasPool(s, service, nodes, service.ports[i]) <==> HasPool(s, GenName(ServiceOf(service).ports[i]))
      ensures PortHasFront(s, service.ports[i]) <==> HasListener(s, ServiceOf(service).ports[i])
    {
      PortHasBothIff(s, service, nodes, i);
    }
    PortsEitherWay(s, service, nodes);
  }

  /** The desired state, told without the planner's terms. */
  lemma ServesIff(s: State, service: KubeService, nodes: seq<string>)
    requires KubeOk(service) && AllTcp(service)
    ensures Desired(s, ServiceOf(service), nodes) <==> Serves(s, service, nodes)
  {
    hide ServiceOf, PoolDesired, ListenerDesired, HasPool, HasListener, PoolWanted, PortHasPool, FrontWanted,
         PortHasFront, GenName;
    PoolsWantedIff(s, service, nodes);
    FrontsWantedIff(s, service);
    if (forall p :: p in s.pools ==> PoolWanted(s.pools[p], service, nodes))
       && forall l :: l in s.listeners ==> FrontWanted(s, s.listeners[l], service) {
      PortsServedIff(s, service, nodes);
    }
  }

  lemma PortsEitherWay(s: State, service: KubeService, nodes: seq<string>)
    requires KubeOk(service) && AllTcp(service) && |ServiceOf(service).ports| == |service.ports|
    requires var ports := ServiceOf(service).ports;
             forall i :: 0 <= i < |ports| ==>
               && (PortHasPool(s, service, nodes, service.ports[i]) <==> HasPool(s, GenName(ports[i])))
               && (PortHasFront(s, service.ports[i]) <==> HasListener(s, ports[i]))
    ensures var ports := ServiceOf(service).ports;
            (forall i :: 0 <= i < |ports| ==>
               PortHasPool(s, service, nodes, service.ports[i]) && PortHasFront(s, service.ports[i])) <==>
            (forall port :: port in ports ==> HasPool(s, GenName(port)) && HasListener(s, port))
  {
    hide ServiceOf, HasPool, HasListener, PortHasPool, PortHasFront;
    var ports := ServiceOf(service).ports;
    assert forall i :: 0 <= i < |ports| ==> ports[i] in ports;
  }
}

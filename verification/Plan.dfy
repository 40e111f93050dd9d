/** What UpdateLoadBalancer plans: the updates each step appends, as functions of the listed
    listeners and pools, the service and the selected nodes. */
module Plan {
  import opened Text
  import opened Remote

  datatype MemberRec = MemberRec(id: string, member: Member)

  datatype PoolRec = PoolRec(id: string, name: PoolName, monitor: Monitor, members: seq<MemberRec>)

  datatype ListenerRec = ListenerRec(id: string, listener: Listener, poolName: PoolName)

  /** A TCP service port; validateService rejects every other protocol before anything is planned. */
  datatype ServicePort = ServicePort(port: Port, nodePort: Port)

  datatype Policy = Cluster | Local | OtherPolicy

  datatype Service = Service(ports: seq<ServicePort>, policy: Policy, healthCheckNodePort: int)

  /** Everything a plan is computed from. `merged` names the pools whose member updates are issued as
      one REPLACE-POOL-MEMBERS: none in the plan as first built, some after the last step. */
  datatype Job = Job(listeners: seq<ListenerRec>, pools: seq<PoolRec>, service: Service, nodes: seq<string>,
                     merged: set<string>)

  /** Kubernetes accepts one TCP service port per port number. */
  predicate ServiceOk(service: Service) {
    forall i, j :: 0 <= i < j < |service.ports| ==> service.ports[i].port != service.ports[j].port
  }

  /** getServiceHealthCheckNodePort */
  function HealthPort(service: Service): int {
    if service.policy == Local then service.healthCheckNodePort else 0
  }

  function ContextOf(job: Job): Context {
    Context(job.nodes, HealthPort(job.service))
  }

  /** genLoadBalancerPoolName for a TCP port. */
  function GenName(port: ServicePort): PoolName {
    PoolName(TCP, port.port, port.nodePort)
  }

  // ----- matching service ports -----

  predicate Matches(port: ServicePort, protocol: Protocol, number: Port) {
    protocol == TCP && port.port == number
  }

  /** The first service port with this protocol and number. */
  function FindPort(ports: seq<ServicePort>, protocol: Protocol, number: Port): (r: Option<ServicePort>)
    ensures r.Some? ==> r.value in ports && Matches(r.value, protocol, number)
    ensures r.None? ==> forall p :: p in ports ==> !Matches(p, protocol, number)
  {
    if ports == [] then None
    else if Matches(ports[0], protocol, number) then Some(ports[0])
    else FindPort(ports[1..], protocol, number)
  }

  function PortOf(job: Job, name: PoolName): Option<ServicePort> {
    FindPort(job.service.ports, name.protocol, name.port)
  }

  /** The pool is wanted and its node port is unchanged, so its members are compared one by one. */
  predicate Steady(job: Job, rec: PoolRec) {
    PortOf(job, rec.name).Some? && PortOf(job, rec.name).value.nodePort == rec.name.nodePort
  }

  // ----- steps 1 to 7 -----

  /** Step 1 for one listener. */
  function ListenerDrop(job: Job, rec: ListenerRec): seq<Update> {
    if FindPort(job.service.ports, rec.listener.protocol, rec.listener.port).Some? then []
    else [DeleteListener(rec.poolName, rec.id)]
  }

  function ListenerDrops(job: Job, recs: seq<ListenerRec>): seq<Update> {
    if recs == [] then [] else ListenerDrop(job, recs[0]) + ListenerDrops(job, recs[1..])
  }

  predicate GoodMember(m: Member, nodes: seq<string>, nodePort: int) {
    m.target in nodes && m.port == nodePort
  }

  /** Step 3: members that are no longer wanted. */
  function MemberDrops(name: PoolName, pool: string, members: seq<MemberRec>, nodes: seq<string>): seq<Update> {
    if members == [] then []
    else
      var m := members[0];
      (if GoodMember(m.member, nodes, name.nodePort) then [] else [DeleteMember(name, pool, m.id, m.member.target)])
      + MemberDrops(name, pool, members[1..], nodes)
  }

  predicate HasMember(members: seq<MemberRec>, m: Member) {
    exists i :: 0 <= i < |members| && members[i].member == m
  }

  /** Step 5: nodes without a member on the pool's node port. */
  function MemberAdds(name: PoolName, pool: string, members: seq<MemberRec>, nodes: seq<string>): seq<Update> {
    if nodes == [] then []
    else
      (if HasMember(members, Member(nodes[0], name.nodePort)) then [] else [CreateMember(name, pool, nodes[0])])
      + MemberAdds(name, pool, members, nodes[1..])
  }

  /** The monitor condition the planner checks: type and port only, and only for the two policies it knows. */
  predicate MonitorOk(service: Service, nodePort: int, m: Monitor) {
    && (service.policy == Local && service.healthCheckNodePort > 0 ==>
          m.check == HttpCheck && m.port == service.healthCheckNodePort)
    && (service.policy == Cluster ==> m.check == TcpCheck && m.port == nodePort)
  }

  /** Step 4: rename a pool whose node port changed and replace its members, or only refresh its monitor. */
  function PoolChanges(job: Job, rec: PoolRec): seq<Update> {
    match PortOf(job, rec.name)
    case None => []
    case Some(port) =>
      if GenName(port) != rec.name then [UpdatePool(GenName(port), rec.id), ReplaceMembers(GenName(port), rec.id)]
      else if !MonitorOk(job.service, port.nodePort, rec.monitor) then [UpdatePool(GenName(port), rec.id)]
      else []
  }

  function Drops(job: Job, rec: PoolRec): seq<Update> {
    if Steady(job, rec) then MemberDrops(rec.name, rec.id, rec.members, job.nodes) else []
  }

  function Adds(job: Job, rec: PoolRec): seq<Update> {
    if Steady(job, rec) then MemberAdds(rec.name, rec.id, rec.members, job.nodes) else []
  }

  /** The updates of one pool in step 2 + phase. In a merged pool a single REPLACE-POOL-MEMBERS stands
      where the first member update stood. */
  function Chunk(job: Job, phase: nat, rec: PoolRec): seq<Update> {
    var replace := [ReplaceMembers(rec.name, rec.id)];
    if phase == 0 then (if PortOf(job, rec.name).None? then [DeletePool(rec.name, rec.id)] else [])
    else if phase == 1 then
      if rec.id in job.merged && Drops(job, rec) != [] then replace else Drops(job, rec)
    else if phase == 2 then PoolChanges(job, rec)
    else
      if rec.id in job.merged && Drops(job, rec) != [] then []
      else if rec.id in job.merged && Adds(job, rec) != [] then replace
      else Adds(job, rec)
  }

  function Chunks(job: Job, phase: nat, recs: seq<PoolRec>): seq<Update> {
    if recs == [] then [] else Chunk(job, phase, recs[0]) + Chunks(job, phase, recs[1..])
  }

  predicate PoolListed(recs: seq<PoolRec>, port: ServicePort) {
    exists i :: 0 <= i < |recs| && Matches(port, recs[i].name.protocol, recs[i].name.port)
  }

  predicate ListenerListed(recs: seq<ListenerRec>, port: ServicePort) {
    exists i :: 0 <= i < |recs| && Matches(port, recs[i].listener.protocol, recs[i].listener.port)
  }

  /** Steps 6 and 7 for one service port: the pool first, then the listener that refers to it. */
  function PortCreates(job: Job, port: ServicePort): seq<Update> {
    (if PoolListed(job.pools, port) then [] else [CreatePool(GenName(port))])
    + (if ListenerListed(job.listeners, port) then [] else [CreateListener(GenName(port))])
  }

  function Creates(job: Job, ports: seq<ServicePort>): seq<Update> {
    if ports == [] then [] else PortCreates(job, ports[0]) + Creates(job, ports[1..])
  }

  function PlanOf(job: Job): seq<Update> {
    ListenerDrops(job, job.listeners)
    + Chunks(job, 0, job.pools) + Chunks(job, 1, job.pools) + Chunks(job, 2, job.pools) + Chunks(job, 3, job.pools)
    + Creates(job, job.service.ports)
  }

  // ----- listings -----

  ghost predicate HasRecord(recs: seq<MemberRec>, id: string) {
    exists i :: 0 <= i < |recs| && recs[i].id == id
  }

  ghost predicate ListsMembers(recs: seq<MemberRec>, members: map<string, Member>) {
    && (forall i, j :: 0 <= i < j < |recs| ==> recs[i].id != recs[j].id)
    && (forall i :: 0 <= i < |recs| ==> recs[i].id in members && members[recs[i].id] == recs[i].member)
    && (forall m :: m in members ==> HasRecord(recs, m))
  }

  ghost predicate HasPoolRec(recs: seq<PoolRec>, id: string) {
    exists i :: 0 <= i < |recs| && recs[i].id == id
  }

  ghost predicate HasListenerRec(recs: seq<ListenerRec>, id: string) {
    exists i :: 0 <= i < |recs| && recs[i].id == id
  }

  ghost predicate ListsPools(recs: seq<PoolRec>, s: State) {
    && (forall i, j :: 0 <= i < j < |recs| ==> recs[i].id != recs[j].id)
    && (forall i :: 0 <= i < |recs| ==> ListedPool(recs[i], s))
    && (forall p :: p in s.pools ==> HasPoolRec(recs, p))
  }

  ghost predicate ListedPool(rec: PoolRec, s: State) {
    && rec.id in s.pools
    && s.pools[rec.id].name == rec.name && s.pools[rec.id].monitor == rec.monitor
    && ListsMembers(rec.members, s.pools[rec.id].members)
  }

  ghost predicate ListsListeners(recs: seq<ListenerRec>, s: State) {
    && (forall i, j :: 0 <= i < j < |recs| ==> recs[i].id != recs[j].id)
    && (forall i :: 0 <= i < |recs| ==> ListedListener(recs[i], s))
    && (forall l :: l in s.listeners ==> HasListenerRec(recs, l))
  }

  ghost predicate ListedListener(rec: ListenerRec, s: State) {
    && rec.id in s.listeners && s.listeners[rec.id] == rec.listener
    && rec.listener.poolId in s.pools && s.pools[rec.listener.poolId].name == rec.poolName
  }

  /** The job was computed from complete listings, in whatever order they came. */
  ghost predicate JobOf(job: Job, s: State) {
    && ListsListeners(job.listeners, s) && ListsPools(job.pools, s)
    && ServiceOk(job.service) && NodesOk(job.nodes)
  }

  ghost predicate Setup(job: Job, s: State) {
    WF(s) && JobOf(job, s)
  }

  // ----- the target -----

  /** The members are exactly one per node, on the node port. */
  ghost predicate Covers(members: map<string, Member>, nodes: seq<string>, nodePort: int) {
    && (forall m :: m in members ==> GoodMember(members[m], nodes, nodePort))
    && (forall n :: n in nodes ==> exists m :: m in members && members[m] == Member(n, nodePort))
  }

  ghost predicate PoolDesired(p: Pool, service: Service, nodes: seq<string>, port: ServicePort) {
    p.name == GenName(port) && Covers(p.members, nodes, port.nodePort) && MonitorOk(service, port.nodePort, p.monitor)
  }

  /** One listener and one pool per service port, each as the service wants it, and nothing else. */
  ghost predicate Desired(s: State, service: Service, nodes: seq<string>) {
    && (forall p :: p in s.pools ==>
                      exists port :: port in service.ports && PoolDesired(s.pools[p], service, nodes, port))
    && (forall port :: port in service.ports ==> HasPool(s, GenName(port)))
    && (forall l :: l in s.listeners ==> ListenerDesired(s, service, s.listeners[l]))
    && (forall port :: port in service.ports ==> HasListener(s, port))
  }

  ghost predicate ListenerDesired(s: State, service: Service, l: Listener) {
    && l.poolId in s.pools
    && exists port :: && port in service.ports && Matches(port, l.protocol, l.port)
                      && s.pools[l.poolId].name == GenName(port)
  }

  ghost predicate HasListener(s: State, port: ServicePort) {
    exists l :: l in s.listeners && Matches(port, s.listeners[l].protocol, s.listeners[l].port)
  }
}

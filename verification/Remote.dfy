/** The load balancer as the VPC service holds it, and the effect and the guard of every
    operation the controller may ask for. Collections are keyed by the ids the service issued;
    the order in which a listing returns them is up to the service. */
module Remote {
  import opened Text

  datatype Protocol = TCP | UDP

  /** The non-negative half of Kubernetes' int32 port fields. */
  type Port = n: int | 0 <= n < 0x8000_0000

  /** The three fields of a generated pool name. */
  datatype PoolName = PoolName(protocol: Protocol, port: Port, nodePort: Port)

  datatype CheckType = TcpCheck | HttpCheck | HttpsCheck

  datatype Monitor = Monitor(check: CheckType, port: int, delay: int, maxRetries: int, timeout: int, urlPath: string)

  datatype Member = Member(target: string, port: int)

  datatype Pool = Pool(name: PoolName, monitor: Monitor, members: map<string, Member>)

  datatype Listener = Listener(protocol: Protocol, port: Port, poolId: string)

  datatype State = State(listeners: map<string, Listener>, pools: map<string, Pool>, next: nat)

  /** What every builder reads besides the pool name: the selected nodes and the health check port
      (0 unless the service is externalTrafficPolicy Local). */
  datatype Context = Context(nodes: seq<string>, healthPort: int)

  /** One update. The planner and the executor exchange these as lines of text (Name is then string);
      the model runs them with parsed names (Name is then PoolName). */
  datatype Action<Name> =
    | CreateListener(name: Name)
    | CreatePool(name: Name)
    | CreateMember(name: Name, poolId: string, node: string)
    | DeleteListener(name: Name, listenerId: string)
    | DeletePool(name: Name, poolId: string)
    | DeleteMember(name: Name, poolId: string, memberId: string, target: string)
    | ReplaceMembers(name: Name, poolId: string)
    | UpdatePool(name: Name, poolId: string)

  type Update = Action<PoolName>

  // ----- ids issued by the service -----

  /** The n-th id the service issues. Its spelling is of no interest: it is a word, and no two are equal. */
  function FreshId(n: nat): (id: string)
    ensures Token(id) && Serial(id) == n
  {
    seq(n + 1, _ => 'r')
  }

  function Serial(id: string): int {
    |id| - 1
  }

  /** The ids numbered next, ..., next + count - 1. */
  function FreshIds(next: nat, count: nat): (ids: set<string>)
    ensures forall id :: id in ids ==> next <= Serial(id) < next + count && id == FreshId(Serial(id))
  {
    set n: nat | next <= n < next + count :: FreshId(n)
  }

  // ----- builders -----

  /** genLoadBalancerHealthMonitor */
  function GenMonitor(nodePort: int, healthPort: int): Monitor {
    if healthPort > 0 then Monitor(HttpCheck, healthPort, 5, 2, 2, "/")
    else Monitor(TcpCheck, nodePort, 5, 2, 2, "")
  }

  /** The monitor a pool has after genLoadBalancerHealthMonitorUpdate was patched into it: a patch
      that does not set a URL path leaves the old one. */
  function PatchMonitor(before: Monitor, nodePort: int, healthPort: int): Monitor {
    var generated := GenMonitor(nodePort, healthPort);
    if healthPort > 0 then generated else generated.(urlPath := before.urlPath)
  }

  /** genLoadBalancerMembers: one member per node, on the node port. */
  function GenMembers(nodes: seq<string>, nodePort: int, next: nat): map<string, Member> {
    map id | id in FreshIds(next, |nodes|) :: Member(nodes[Serial(id) - next], nodePort)
  }

  // ----- well-formedness -----

  /** Two pool names that differ at most in the node port. */
  predicate SameEndpoint(a: PoolName, b: PoolName) {
    a.protocol == b.protocol && a.port == b.port
  }

  ghost predicate EndpointsUnique(s: State) {
    forall p, q :: p in s.pools && q in s.pools && p != q ==> !SameEndpoint(s.pools[p].name, s.pools[q].name)
  }

  ghost predicate ListenersBacked(s: State) {
    forall l :: l in s.listeners ==>
                  var listener := s.listeners[l];
                  && listener.poolId in s.pools
                  && s.pools[listener.poolId].name.protocol == listener.protocol
                  && s.pools[listener.poolId].name.port == listener.port
  }

  ghost predicate PortsUnique(s: State) {
    forall k, l :: k in s.listeners && l in s.listeners && k != l ==> s.listeners[k].port != s.listeners[l].port
  }

  ghost predicate MembersOk(members: map<string, Member>) {
    && (forall i, j :: i in members && j in members && i != j ==> members[i] != members[j])
    && (forall i :: i in members ==> Token(i) && Token(members[i].target))
  }

  ghost predicate PoolsOk(s: State) {
    && (forall l :: l in s.listeners ==> Token(l))
    && (forall p :: p in s.pools ==> Token(p) && MembersOk(s.pools[p].members))
  }

  /** No id in use will be issued again. */
  ghost predicate IdsSpent(s: State) {
    forall n: nat :: n >= s.next ==>
                       && FreshId(n) !in s.pools && FreshId(n) !in s.listeners
                       && forall p :: p in s.pools ==> FreshId(n) !in s.pools[p].members
  }

  /** The invariant of every run. It says nothing about the member ports of a pool: a stop between
      the rename of a pool and the replacement of its members leaves them on the old node port. */
  ghost predicate WF(s: State) {
    EndpointsUnique(s) && ListenersBacked(s) && PortsUnique(s) && PoolsOk(s) && IdsSpent(s)
  }

  predicate NodesOk(nodes: seq<string>) {
    AllTokens(nodes) && Distinct(nodes)
  }

  // ----- operations -----

  ghost predicate HasPool(s: State, name: PoolName) {
    exists p :: p in s.pools && s.pools[p].name == name
  }

  ghost function PoolNamed(s: State, name: PoolName): (p: string)
    requires HasPool(s, name)
    ensures p in s.pools && s.pools[p].name == name
  {
    var p :| p in s.pools && s.pools[p].name == name;
    p
  }

  /** What the service (or the lookup before the call) demands. */
  ghost predicate Enabled(s: State, a: Update) {
    match a
    case CreateListener(name) => HasPool(s, name) && forall l :: l in s.listeners ==> s.listeners[l].port != name.port
    case CreatePool(name) => !HasPool(s, name)
    case CreateMember(name, p, node) =>
      p in s.pools && forall m :: m in s.pools[p].members ==> s.pools[p].members[m] != Member(node, name.nodePort)
    case DeleteListener(_, l) => l in s.listeners
    case DeletePool(_, p) => p in s.pools && forall l :: l in s.listeners ==> s.listeners[l].poolId != p
    case DeleteMember(_, p, m, _) => p in s.pools && m in s.pools[p].members
    case ReplaceMembers(_, p) => p in s.pools
    case UpdatePool(name, p) => p in s.pools && forall q :: q in s.pools && q != p ==> s.pools[q].name != name
  }

  ghost function Apply(s: State, a: Update, c: Context): State
    requires Enabled(s, a)
  {
    match a
    case CreateListener(name) =>
      s.(listeners := s.listeners[FreshId(s.next) := Listener(name.protocol, name.port, PoolNamed(s, name))],
         next := s.next + 1)
    case CreatePool(name) =>
      var members := GenMembers(c.nodes, name.nodePort, s.next + 1);
      WithNewPool(s, Pool(name, GenMonitor(name.nodePort, c.healthPort), members), s.next + 1 + |c.nodes|)
    case CreateMember(name, p, node) =>
      WithMembers(s, p, s.pools[p].members[FreshId(s.next) := Member(node, name.nodePort)], s.next + 1)
    case DeleteListener(_, l) => s.(listeners := s.listeners - {l})
    case DeletePool(_, p) => s.(pools := s.pools - {p})
    case DeleteMember(_, p, m, _) => WithMembers(s, p, s.pools[p].members - {m}, s.next)
    case ReplaceMembers(name, p) =>
      WithMembers(s, p, GenMembers(c.nodes, name.nodePort, s.next), s.next + |c.nodes|)
    case UpdatePool(name, p) =>
      s.(pools :=
        s.pools[p := Pool(name, PatchMonitor(s.pools[p].monitor, name.nodePort, c.healthPort), s.pools[p].members)])
  }

  function WithNewPool(s: State, pool: Pool, next: nat): State {
    s.(pools := s.pools[FreshId(s.next) := pool], next := next)
  }

  function WithMembers(s: State, p: string, members: map<string, Member>, next: nat): State
    requires p in s.pools
  {
    s.(pools := s.pools[p := s.pools[p].(members := members)], next := next)
  }

  /** An update of the kind this controller issues: enabled, keeping at most one pool per protocol and port, naming
      what is there, and renaming a pool for its own protocol and port only. */
  ghost predicate Admissible(s: State, a: Update) {
    && Enabled(s, a)
    && match a
       case CreatePool(name) => forall q :: q in s.pools ==> !SameEndpoint(s.pools[q].name, name)
       case UpdatePool(name, p) => SameEndpoint(s.pools[p].name, name)
       case CreateMember(_, _, node) => Token(node)
       case DeleteMember(_, p, m, target) => s.pools[p].members[m].target == target
       case _ => true
  }

  lemma GenMembersOk(nodes: seq<string>, nodePort: int, next: nat)
    requires NodesOk(nodes)
    ensures MembersOk(GenMembers(nodes, nodePort, next))
    ensures forall n: nat :: n >= next + |nodes| ==> FreshId(n) !in GenMembers(nodes, nodePort, next)
  {
    var ms := GenMembers(nodes, nodePort, next);
    forall i, j | i in ms && j in ms && i != j ensures ms[i] != ms[j] {
      assert Serial(i) != Serial(j);
    }
  }

  lemma CreateListenerKeepsWF(s: State, name: PoolName, c: Context)
    requires WF(s) && Enabled(s, CreateListener(name))
    ensures WF(Apply(s, CreateListener(name), c))
  {
  }

  lemma DeleteListenerKeepsWF(s: State, name: PoolName, l: string, c: Context)
    requires WF(s) && Enabled(s, DeleteListener(name, l))
    ensures WF(Apply(s, DeleteListener(name, l), c))
  {
  }

  lemma DeletePoolKeepsWF(s: State, name: PoolName, p: string, c: Context)
    requires WF(s) && Enabled(s, DeletePool(name, p))
    ensures WF(Apply(s, DeletePool(name, p), c))
  {
  }

  lemma UpdatePoolKeepsWF(s: State, name: PoolName, p: string, c: Context)
    requires WF(s) && Admissible(s, UpdatePool(name, p))
    ensures WF(Apply(s, UpdatePool(name, p), c))
  {
  }

  lemma NewPoolKeepsWF(s: State, pool: Pool, next: nat)
    requires WF(s) && next > s.next && MembersOk(pool.members)
    requires forall q :: q in s.pools ==> !SameEndpoint(s.pools[q].name, pool.name)
    requires forall n: nat :: n >= next ==> FreshId(n) !in pool.members
    ensures WF(WithNewPool(s, pool, next))
  {
    var s1 := WithNewPool(s, pool, next);
    assert EndpointsUnique(s1);
    assert ListenersBacked(s1);
  }

  lemma WithMembersKeepsWF(s: State, p: string, members: map<string, Member>, next: nat)
    requires WF(s) && p in s.pools && next >= s.next && MembersOk(members)
    requires forall n: nat :: n >= next ==> FreshId(n) !in members
    ensures WF(WithMembers(s, p, members, next))
  {
  }

  lemma CreatePoolKeepsWF(s: State, name: PoolName, c: Context)
    requires WF(s) && NodesOk(c.nodes) && Admissible(s, CreatePool(name))
    ensures WF(Apply(s, CreatePool(name), c))
  {
    hide WF, MembersOk, GenMembers, GenMonitor;
    var members := GenMembers(c.nodes, name.nodePort, s.next + 1);
    GenMembersOk(c.nodes, name.nodePort, s.next + 1);
    NewPoolKeepsWF(s, Pool(name, GenMonitor(name.nodePort, c.healthPort), members), s.next + 1 + |c.nodes|);
  }

  lemma MemberUpdateKeepsWF(s: State, a: Update, c: Context)
    requires WF(s) && NodesOk(c.nodes) && Admissible(s, a)
    requires a.CreateMember? || a.DeleteMember? || a.ReplaceMembers?
    ensures WF(Apply(s, a, c))
  {
    var members := s.pools[a.poolId].members;
    match a
    case CreateMember(name, p, node) =>
      WithMembersKeepsWF(s, p, members[FreshId(s.next) := Member(node, name.nodePort)], s.next + 1);
    case DeleteMember(_, p, m, _) =>
      WithMembersKeepsWF(s, p, members - {m}, s.next);
    case ReplaceMembers(name, p) =>
      GenMembersOk(c.nodes, name.nodePort, s.next);
      WithMembersKeepsWF(s, p, GenMembers(c.nodes, name.nodePort, s.next), s.next + |c.nodes|);
  }

  /** Every admissible update keeps the invariant. */
  lemma StepKeepsWF(s: State, a: Update, c: Context)
    requires WF(s) && NodesOk(c.nodes) && Admissible(s, a)
    ensures WF(Apply(s, a, c))
  {
    match a
    case CreateListener(name) => CreateListenerKeepsWF(s, name, c);
    case CreatePool(name) => CreatePoolKeepsWF(s, name, c);
    case DeleteListener(name, l) => DeleteListenerKeepsWF(s, name, l, c);
    case DeletePool(name, p) => DeletePoolKeepsWF(s, name, p, c);
    case UpdatePool(name, p) => UpdatePoolKeepsWF(s, name, p, c);
    case CreateMember(_, _, _) => MemberUpdateKeepsWF(s, a, c);
    case DeleteMember(_, _, _, _) => MemberUpdateKeepsWF(s, a, c);
    case ReplaceMembers(_, _) => MemberUpdateKeepsWF(s, a, c);
  }

  // ----- running a plan -----

  /** Runs updates in order and stops at the first one the service refuses. */
  ghost function Run(s: State, plan: seq<Update>, c: Context): State
    decreases |plan|
  {
    if plan == [] || !Enabled(s, plan[0]) then s else Run(Apply(s, plan[0], c), plan[1..], c)
  }

  /** Every update is admissible when its turn comes. */
  ghost predicate Safe(s: State, plan: seq<Update>, c: Context)
    decreases |plan|
  {
    plan == [] || (Admissible(s, plan[0]) && Safe(Apply(s, plan[0], c), plan[1..], c))
  }

  lemma RunFirst(s: State, a: Update, rest: seq<Update>, c: Context)
    requires Admissible(s, a)
    ensures Run(s, [a] + rest, c) == Run(Apply(s, a, c), rest, c)
    ensures Safe(s, [a] + rest, c) <==> Safe(Apply(s, a, c), rest, c)
  {
    hide Apply;
    assert ([a] + rest)[0] == a && ([a] + rest)[1..] == rest;
  }

  lemma RunNone(s: State, c: Context)
    ensures Run(s, [], c) == s && Safe(s, [], c)
  {
  }

  lemma RunOne(s: State, a: Update, c: Context)
    requires Admissible(s, a)
    ensures Run(s, [a], c) == Apply(s, a, c) && Safe(s, [a], c)
  {
    hide Apply;
    RunFirst(s, a, [], c);
    assert [a] + [] == [a];
  }

  lemma {:induction false} SafeConcat(s: State, a: seq<Update>, b: seq<Update>, c: Context)
    ensures Safe(s, a + b, c) <==> Safe(s, a, c) && Safe(Run(s, a, c), b, c)
    ensures Safe(s, a, c) ==> Run(s, a + b, c) == Run(Run(s, a, c), b, c)
    decreases |a|
  {
    hide Apply;
    if a == [] {
      assert a + b == b;
    } else {
      assert (a + b)[0] == a[0] && (a + b)[1..] == a[1..] + b;
      if Admissible(s, a[0]) {
        SafeConcat(Apply(s, a[0], c), a[1..], b, c);
      }
    }
  }

  /** A safe run keeps the invariant. */
  lemma {:induction false} SafeKeepsWF(s: State, plan: seq<Update>, c: Context)
    requires WF(s) && NodesOk(c.nodes) && Safe(s, plan, c)
    ensures WF(Run(s, plan, c)) && Run(s, plan, c).next >= s.next
    decreases |plan|
  {
    if plan != [] {
      StepKeepsWF(s, plan[0], c);
      SafeKeepsWF(Apply(s, plan[0], c), plan[1..], c);
    }
  }

  /** Wherever a safe run is stopped the invariant holds, the next update is admissible, and running
      it is applying it to the state reached so far. */
  lemma SafePrefix(s: State, plan: seq<Update>, c: Context, k: nat)
    requires WF(s) && NodesOk(c.nodes) && Safe(s, plan, c) && k <= |plan|
    ensures WF(Run(s, plan[..k], c))
    ensures k < |plan| ==> Admissible(Run(s, plan[..k], c), plan[k])
    ensures k < |plan| ==> Run(s, plan[..k + 1], c) == Apply(Run(s, plan[..k], c), plan[k], c)
  {
    assert plan == plan[..k] + plan[k..];
    SafeConcat(s, plan[..k], plan[k..], c);
    SafeKeepsWF(s, plan[..k], c);
    if k < |plan| {
      RunStep(s, plan[..k], plan[k], c);
      assert plan[..k + 1] == plan[..k] + [plan[k]];
    }
  }

  lemma RunStep(s: State, plan: seq<Update>, a: Update, c: Context)
    requires Safe(s, plan, c) && Admissible(Run(s, plan, c), a)
    ensures Run(s, plan + [a], c) == Apply(Run(s, plan, c), a, c)
  {
    hide Apply;
    SafeConcat(s, plan, [a], c);
    RunFirst(Run(s, plan, c), a, [], c);
    assert [a] + [] == [a];
  }
}

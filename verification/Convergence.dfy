/** Whole plans: every update is legal when its turn comes, the invariant holds wherever the run
    stops, and a complete run ends in exactly the state the service asks for. */
module Convergence {
  import opened Text
  import opened Remote
  import opened Plan
  import opened PoolSteps

  // ----- step 1: listeners -----

  predicate ListenerKept(job: Job, l: Listener) {
    FindPort(job.service.ports, l.protocol, l.port).Some?
  }

  function KeptListeners(job: Job, s0: State): map<string, Listener> {
    map l | l in s0.listeners && ListenerKept(job, s0.listeners[l]) :: s0.listeners[l]
  }

  /** The kept listeners and those still to be looked at. */
  ghost function Unchecked(job: Job, s0: State, recs: seq<ListenerRec>): map<string, Listener> {
    map l | l in s0.listeners && (ListenerKept(job, s0.listeners[l]) || HasListenerRec(recs, l)) :: s0.listeners[l]
  }

  lemma UncheckedStep(job: Job, s0: State, recs: seq<ListenerRec>)
    requires recs != [] && ListedListener(recs[0], s0)
    requires forall i, j :: 0 <= i < j < |recs| ==> recs[i].id != recs[j].id
    ensures var skip := if ListenerKept(job, recs[0].listener) then {} else {recs[0].id};
            Unchecked(job, s0, recs) - skip == Unchecked(job, s0, recs[1..])
  {
    var rest := recs[1..];
    forall l ensures HasListenerRec(recs, l) <==> l == recs[0].id || HasListenerRec(rest, l) {
      if i :| 0 <= i < |recs| && recs[i].id == l {
        assert i == 0 || rest[i - 1].id == l;
      }
      if i :| 0 <= i < |rest| && rest[i].id == l {
        assert recs[i + 1].id == l;
      }
    }
    assert forall i :: 0 <= i < |rest| ==> rest[i].id == recs[i + 1].id != recs[0].id;
  }

  lemma {:induction false} ListenerDropsRun(job: Job, s0: State, s: State, recs: seq<ListenerRec>)
    requires s == s0.(listeners := Unchecked(job, s0, recs))
    requires forall i :: 0 <= i < |recs| ==> ListedListener(recs[i], s0)
    requires forall i, j :: 0 <= i < j < |recs| ==> recs[i].id != recs[j].id
    ensures var plan := ListenerDrops(job, recs);
            && Safe(s, plan, ContextOf(job))
            && Run(s, plan, ContextOf(job)) == s0.(listeners := KeptListeners(job, s0))
    decreases |recs|
  {
    hide Run, Safe;
    var c := ContextOf(job);
    if recs == [] {
      assert Unchecked(job, s0, recs) == KeptListeners(job, s0);
      RunNone(s, c);
    } else {
      var rec, rest := recs[0], ListenerDrops(job, recs[1..]);
      UncheckedStep(job, s0, recs);
      var s1 := s0.(listeners := Unchecked(job, s0, recs[1..]));
      ListenerDropsRun(job, s0, s1, recs[1..]);
      if ListenerKept(job, rec.listener) {
        assert s.listeners - {} == s.listeners;
        assert s1 == s && ListenerDrops(job, recs) == rest;
      } else {
        assert HasListenerRec(recs, rec.id);
        var a := DeleteListener(rec.poolName, rec.id);
        assert Admissible(s, a) && Apply(s, a, c) == s1;
        RunFirst(s, a, rest, c);
      }
    }
  }

  // ----- steps 2 to 5: pools -----

  /** Within a phase: the first k pools are one phase ahead of the others. */
  ghost predicate PoolsAt(job: Job, s0: State, s: State, stage: nat, k: nat)
    requires ListsPools(job.pools, s0)
  {
    && WF(s) && s.next >= s0.next && s.listeners == KeptListeners(job, s0)
    && s.pools.Keys <= s0.pools.Keys
    && (forall i :: 0 <= i < |job.pools| ==> At(job, s0, s, job.pools[i], if i < k then stage + 1 else stage))
  }

  lemma ChunkIsDone(job: Job, s0: State, s: State, stage: nat, k: nat)
    requires Setup(job, s0) && stage < 4 && k < |job.pools| && PoolsAt(job, s0, s, stage, k)
    ensures ChunkDone(job, s0, s, job.pools[k], stage)
  {
    hide ChunkDone;
    var rec := job.pools[k];
    assert ListedPool(rec, s0) && At(job, s0, s, rec, stage);
    if stage == 0 {
      assert PortOf(job, rec.name).None? ==> forall l :: l in s.listeners ==> s.listeners[l].poolId != rec.id
      by { assert ListenersBacked(s0); }
      DropPoolDone(job, s0, s, rec);
    } else if stage == 1 {
      DropMembersDone(job, s0, s, rec);
    } else if stage == 2 {
      ChangePoolDone(job, s0, s, rec);
    } else {
      AddMembersDone(job, s0, s, rec);
    }
  }

  lemma AtFrame(job: Job, s0: State, s: State, t: State, rec: PoolRec, other: string, stage: nat)
    requires rec.id in s0.pools && At(job, s0, s, rec, stage) && OnlyPool(s, t, other) && rec.id != other
    ensures At(job, s0, t, rec, stage)
  {
  }

  lemma ChunkAdvances(job: Job, s0: State, s: State, stage: nat, k: nat)
    requires Setup(job, s0) && stage < 4 && k < |job.pools| && PoolsAt(job, s0, s, stage, k)
    ensures var plan, c := Chunk(job, stage, job.pools[k]), ContextOf(job);
            Safe(s, plan, c) && PoolsAt(job, s0, Run(s, plan, c), stage, k + 1)
  {
    hide At, Run, Safe, WF, Chunk;
    var rec, c := job.pools[k], ContextOf(job);
    var plan := Chunk(job, stage, rec);
    ChunkIsDone(job, s0, s, stage, k);
    var t := Run(s, plan, c);
    SafeKeepsWF(s, plan, c);
    forall i | 0 <= i < |job.pools| && i != k
      ensures At(job, s0, t, job.pools[i], if i < k + 1 then stage + 1 else stage)
    {
      AtFrame(job, s0, s, t, job.pools[i], rec.id, if i < k then stage + 1 else stage);
    }
    assert rec.id in s0.pools;
    forall p | p in t.pools ensures p in s0.pools {
    }
  }

  lemma {:induction false} PhaseRuns(job: Job, s0: State, s: State, stage: nat, k: nat)
    requires Setup(job, s0) && stage < 4 && k <= |job.pools| && PoolsAt(job, s0, s, stage, k)
    ensures var plan, c := Chunks(job, stage, job.pools[k..]), ContextOf(job);
            Safe(s, plan, c) && PoolsAt(job, s0, Run(s, plan, c), stage, |job.pools|)
    decreases |job.pools| - k
  {
    hide PoolsAt, Setup, Run, Safe, Chunk;
    var c := ContextOf(job);
    if k == |job.pools| {
      assert job.pools[k..] == [];
      RunNone(s, c);
    } else {
      var chunk, rest := Chunk(job, stage, job.pools[k]), Chunks(job, stage, job.pools[k + 1..]);
      ChunkAdvances(job, s0, s, stage, k);
      PhaseRuns(job, s0, Run(s, chunk, c), stage, k + 1);
      assert job.pools[k..][0] == job.pools[k] && job.pools[k..][1..] == job.pools[k + 1..];
      assert Chunks(job, stage, job.pools[k..]) == chunk + rest;
      SafeConcat(s, chunk, rest, c);
    }
  }

  /** The plan up to and including the given number of pool phases. */
  function PoolPlan(job: Job, stages: nat): seq<Update> {
    if stages == 0 then ListenerDrops(job, job.listeners)
    else PoolPlan(job, stages - 1) + Chunks(job, stages - 1, job.pools)
  }

  lemma ListenersRun(job: Job, s0: State)
    requires Setup(job, s0)
    ensures var plan, c := ListenerDrops(job, job.listeners), ContextOf(job);
            Safe(s0, plan, c) && PoolsAt(job, s0, Run(s0, plan, c), 0, 0)
  {
    hide Run, Safe;
    assert Unchecked(job, s0, job.listeners) == s0.listeners by {
      assert forall l :: l in s0.listeners ==> HasListenerRec(job.listeners, l);
    }
    ListenerDropsRun(job, s0, s0, job.listeners);
    SafeKeepsWF(s0, ListenerDrops(job, job.listeners), ContextOf(job));
  }

  lemma {:induction false} PoolPlanRuns(job: Job, s0: State, stages: nat)
    requires Setup(job, s0) && stages <= 4
    ensures var plan, c := PoolPlan(job, stages), ContextOf(job);
            Safe(s0, plan, c) && PoolsAt(job, s0, Run(s0, plan, c), stages, 0)
  {
    var c := ContextOf(job);
    hide Run, Safe, Setup, At, Chunks, ContextOf;
    if stages == 0 {
      ListenersRun(job, s0);
    } else {
      PoolPlanRuns(job, s0, stages - 1);
      var mid := Run(s0, PoolPlan(job, stages - 1), c);
      PhaseRuns(job, s0, mid, stages - 1, 0);
      assert job.pools[0..] == job.pools;
      SafeConcat(s0, PoolPlan(job, stages - 1), Chunks(job, stages - 1, job.pools), c);
    }
  }

  // ----- steps 6 and 7: new pools and listeners -----

  ghost predicate NewPool(job: Job, p: Pool, port: ServicePort) {
    && !PoolListed(job.pools, port)
    && p.name == GenName(port)
    && p.monitor == GenMonitor(port.nodePort, HealthPort(job.service))
    && Covers(p.members, job.nodes, port.nodePort)
  }

  /** Listed pools are finished, and the first k service ports have their pool. */
  ghost predicate PoolsMade(job: Job, s0: State, s: State, k: nat)
    requires ListsPools(job.pools, s0) && k <= |job.service.ports|
  {
    var ports := job.service.ports;
    && (forall i :: 0 <= i < |job.pools| ==> At(job, s0, s, job.pools[i], 4))
    && (forall p :: p in s.pools && p !in s0.pools ==> exists j :: 0 <= j < k && NewPool(job, s.pools[p], ports[j]))
    && (forall j :: 0 <= j < k ==> HasPool(s, GenName(ports[j])))
  }

  ghost predicate NewListener(job: Job, l: Listener, port: ServicePort) {
    !ListenerListed(job.listeners, port) && Matches(port, l.protocol, l.port)
  }

  /** Kept listeners are untouched, and the first k service ports have their listener. */
  ghost predicate ListenersMade(job: Job, s0: State, s: State, k: nat)
    requires k <= |job.service.ports|
  {
    var ports, kept := job.service.ports, KeptListeners(job, s0);
    && (forall l :: l in kept ==> l in s.listeners && s.listeners[l] == kept[l])
    && (forall l :: l in s.listeners && l !in kept ==>
                      l !in s0.listeners && exists j :: 0 <= j < k && NewListener(job, s.listeners[l], ports[j]))
    && (forall j :: 0 <= j < k ==> HasListener(s, ports[j]))
  }

  lemma FinishedPool(job: Job, s0: State, s: State, i: nat)
    requires ListsPools(job.pools, s0) && i < |job.pools| && At(job, s0, s, job.pools[i], 4)
    requires job.pools[i].id in s.pools
    ensures PortOf(job, job.pools[i].name).Some?
    ensures PoolDesired(s.pools[job.pools[i].id], job.service, job.nodes, PortOf(job, job.pools[i].name).value)
  {
  }

  /** Every pool that stands after k ports were served is a finished one, for a port that is listed or among those k. */
  lemma StandingPool(job: Job, s0: State, s: State, k: nat, p: string) returns (port: ServicePort)
    requires ListsPools(job.pools, s0) && k <= |job.service.ports| && PoolsMade(job, s0, s, k) && p in s.pools
    ensures port in job.service.ports && PoolDesired(s.pools[p], job.service, job.nodes, port)
    ensures PoolListed(job.pools, port) || exists j :: 0 <= j < k && job.service.ports[j] == port
  {
    if p in s0.pools {
      var i :| 0 <= i < |job.pools| && job.pools[i].id == p;
      FinishedPool(job, s0, s, i);
      port := PortOf(job, job.pools[i].name).value;
    } else {
      var j :| 0 <= j < k && NewPool(job, s.pools[p], job.service.ports[j]);
      port := job.service.ports[j];
    }
  }

  /** Naming a pool or finding a listener does not depend on what was added since. */
  lemma HasPoolGrows(s: State, t: State, name: PoolName)
    requires HasPool(s, name) && forall p :: p in s.pools ==> p in t.pools && t.pools[p] == s.pools[p]
    ensures HasPool(t, name)
  {
    var p :| p in s.pools && s.pools[p].name == name;
    assert p in t.pools;
  }

  lemma HasListenerGrows(s: State, t: State, port: ServicePort)
    requires HasListener(s, port) && forall l :: l in s.listeners ==>
              l in t.listeners && t.listeners[l] == s.listeners[l]
    ensures HasListener(t, port)
  {
    var l :| l in s.listeners && Matches(port, s.listeners[l].protocol, s.listeners[l].port);
    assert l in t.listeners;
  }

  lemma ListedPoolStands(job: Job, s0: State, s: State, k: nat)
    requires ListsPools(job.pools, s0) && ServiceOk(job.service) && k < |job.service.ports| && PoolsMade(job, s0, s, k)
    requires PoolListed(job.pools, job.service.ports[k])
    ensures HasPool(s, GenName(job.service.ports[k]))
  {
    hide MembersAt, FinalMonitor, NewPool, ListedPool, ListsPools, HasPool;
    var port := job.service.ports[k];
    var i :| 0 <= i < |job.pools| && Matches(port, job.pools[i].name.protocol, job.pools[i].name.port);
    assert PortOf(job, job.pools[i].name) == Some(port);
    assert At(job, s0, s, job.pools[i], 4) && job.pools[i].id in s0.pools by { ListedIn(job.pools, s0, i); }
    assert s.pools[job.pools[i].id].name == GenName(port);
    NamedPool(s, job.pools[i].id);
  }

  lemma ListedIn(recs: seq<PoolRec>, s: State, i: nat)
    requires ListsPools(recs, s) && i < |recs|
    ensures recs[i].id in s.pools
  {
  }

  lemma PoolsMadeNext(job: Job, s0: State, s: State, k: nat)
    requires ListsPools(job.pools, s0) && k < |job.service.ports| && PoolsMade(job, s0, s, k)
    requires HasPool(s, GenName(job.service.ports[k]))
    ensures PoolsMade(job, s0, s, k + 1)
  {
    hide HasPool, NewPool, At, ListedPool;
  }

  lemma MissingPoolIsFree(job: Job, s0: State, s: State, k: nat)
    requires Setup(job, s0) && k < |job.service.ports| && PoolsMade(job, s0, s, k)
    requires !PoolListed(job.pools, job.service.ports[k])
    ensures Admissible(s, CreatePool(GenName(job.service.ports[k])))
  {
    var port := job.service.ports[k];
    forall q | q in s.pools ensures !SameEndpoint(s.pools[q].name, GenName(port)) {
      var other := StandingPool(job, s0, s, k, q);
    }
  }

  lemma NamedPool(s: State, p: string)
    requires p in s.pools
    ensures HasPool(s, s.pools[p].name)
  {
  }

  lemma PoolMade(job: Job, s0: State, s: State, k: nat)
    requires Setup(job, s0) && k < |job.service.ports| && PoolsMade(job, s0, s, k) && WF(s) && s.next >= s0.next
    requires !PoolListed(job.pools, job.service.ports[k]) && Admissible(s, CreatePool(GenName(job.service.ports[k])))
    ensures var t := Apply(s, CreatePool(GenName(job.service.ports[k])), ContextOf(job));
            PoolsMade(job, s0, t, k + 1) && t.listeners == s.listeners && t.next >= s.next
  {
    hide At, Covers, GenMembers, GenMonitor, HasPool;
    var port, c := job.service.ports[k], ContextOf(job);
    var t := Apply(s, CreatePool(GenName(port)), c);
    var id := FreshId(s.next);
    assert id !in s0.pools && id !in s.pools && id in t.pools;
    GenMembersCover(c.nodes, port.nodePort, s.next + 1);
    assert NewPool(job, t.pools[id], port);
    assert HasPool(t, GenName(port)) by { NamedPool(t, id); }
    forall i | 0 <= i < |job.pools| ensures At(job, s0, t, job.pools[i], 4) {
      AtFrame(job, s0, s, t, job.pools[i], id, 4);
    }
    forall j | 0 <= j < k ensures HasPool(t, GenName(job.service.ports[j])) {
      HasPoolGrows(s, t, GenName(job.service.ports[j]));
    }
    forall p | p in t.pools && p !in s0.pools
      ensures exists j :: 0 <= j < k + 1 && NewPool(job, t.pools[p], job.service.ports[j])
    {
      if p == id {
        assert NewPool(job, t.pools[p], job.service.ports[k]);
      } else {
        var j :| 0 <= j < k && NewPool(job, s.pools[p], job.service.ports[j]);
        assert NewPool(job, t.pools[p], job.service.ports[j]);
      }
    }
  }

  lemma MissingListenerIsFree(job: Job, s0: State, s: State, k: nat)
    requires Setup(job, s0) && k < |job.service.ports| && ListenersMade(job, s0, s, k)
    requires !ListenerListed(job.listeners, job.service.ports[k]) && HasPool(s, GenName(job.service.ports[k]))
    ensures Admissible(s, CreateListener(GenName(job.service.ports[k])))
  {
    var port := job.service.ports[k];
    forall l | l in s.listeners ensures s.listeners[l].port != port.port {
      if l in KeptListeners(job, s0) {
        var i :| 0 <= i < |job.listeners| && job.listeners[i].id == l;
        assert !Matches(port, job.listeners[i].listener.protocol, job.listeners[i].listener.port);
      }
    }
  }

  lemma ListedListenerStands(job: Job, s0: State, s: State, k: nat)
    requires ListsListeners(job.listeners, s0) && k < |job.service.ports| && ListenersMade(job, s0, s, k)
    requires ListenerListed(job.listeners, job.service.ports[k])
    ensures HasListener(s, job.service.ports[k])
  {
    hide NewListener;
    var port := job.service.ports[k];
    var i :| 0 <= i < |job.listeners|
        && Matches(port, job.listeners[i].listener.protocol, job.listeners[i].listener.port);
    assert ListedListener(job.listeners[i], s0);
    assert job.listeners[i].id in KeptListeners(job, s0);
  }

  lemma ListenersMadeNext(job: Job, s0: State, s: State, k: nat)
    requires k < |job.service.ports| && ListenersMade(job, s0, s, k) && HasListener(s, job.service.ports[k])
    ensures ListenersMade(job, s0, s, k + 1)
  {
    hide HasListener, NewListener, KeptListeners;
  }

  lemma ListenerMade(job: Job, s0: State, s: State, k: nat)
    requires k < |job.service.ports| && ListenersMade(job, s0, s, k) && WF(s0) && WF(s) && s.next >= s0.next
    requires !ListenerListed(job.listeners, job.service.ports[k])
    requires Admissible(s, CreateListener(GenName(job.service.ports[k])))
    ensures var t := Apply(s, CreateListener(GenName(job.service.ports[k])), ContextOf(job));
            ListenersMade(job, s0, t, k + 1) && t.pools == s.pools && t.next >= s.next
  {
    var port, c := job.service.ports[k], ContextOf(job);
    var t := Apply(s, CreateListener(GenName(port)), c);
    var id := FreshId(s.next);
    assert id !in s0.listeners && id !in s.listeners && id in t.listeners by { assert IdsSpent(s0) && IdsSpent(s); }
    assert NewListener(job, t.listeners[id], port) && HasListener(t, port);
    ListenerAdded(job, s0, s, t, k, id);
  }

  lemma ListenerAdded(job: Job, s0: State, s: State, t: State, k: nat, id: string)
    requires k < |job.service.ports| && ListenersMade(job, s0, s, k)
    requires id !in s0.listeners && id !in s.listeners && id in t.listeners
             && t.listeners == s.listeners[id := t.listeners[id]]
    requires NewListener(job, t.listeners[id], job.service.ports[k]) && HasListener(t, job.service.ports[k])
    ensures ListenersMade(job, s0, t, k + 1)
  {
    hide NewListener, HasListener;
    forall j | 0 <= j < k ensures HasListener(t, job.service.ports[j]) {
      HasListenerGrows(s, t, job.service.ports[j]);
    }
    forall l | l in t.listeners && l !in KeptListeners(job, s0)
      ensures l !in s0.listeners && exists j :: 0 <= j < k + 1 && NewListener(job, t.listeners[l], job.service.ports[j])
    {
      if l == id {
        assert NewListener(job, t.listeners[l], job.service.ports[k]);
      } else {
        var j :| 0 <= j < k && NewListener(job, s.listeners[l], job.service.ports[j]);
        assert NewListener(job, t.listeners[l], job.service.ports[j]);
      }
    }
  }

  ghost predicate Made(job: Job, s0: State, s: State, k: nat)
    requires ListsPools(job.pools, s0) && k <= |job.service.ports|
  {
    WF(s) && s.next >= s0.next && PoolsMade(job, s0, s, k) && ListenersMade(job, s0, s, k)
  }

  lemma PoolPart(job: Job, s0: State, s: State, k: nat)
    requires Setup(job, s0) && k < |job.service.ports| && Made(job, s0, s, k)
    ensures var port, c := job.service.ports[k], ContextOf(job);
            var plan := if PoolListed(job.pools, port) then [] else [CreatePool(GenName(port))];
            var t := Run(s, plan, c);
            && Safe(s, plan, c) && WF(t) && t.next >= s.next
            && PoolsMade(job, s0, t, k + 1) && ListenersMade(job, s0, t, k)
  {
    hide Run, Safe, Apply, Admissible, WF, PoolsMade, ListenersMade, PoolListed;
    var port, c := job.service.ports[k], ContextOf(job);
    if PoolListed(job.pools, port) {
      ListedPoolStands(job, s0, s, k);
      PoolsMadeNext(job, s0, s, k);
      RunNone(s, c);
    } else {
      var a := CreatePool(GenName(port));
      MissingPoolIsFree(job, s0, s, k);
      PoolMade(job, s0, s, k);
      RunOne(s, a, c);
      SafeKeepsWF(s, [a], c);
      SameListeners(job, s0, s, Run(s, [a], c), k);
    }
  }

  lemma ListenerPart(job: Job, s0: State, s: State, k: nat)
    requires Setup(job, s0) && k < |job.service.ports| && WF(s) && s.next >= s0.next
    requires PoolsMade(job, s0, s, k + 1) && ListenersMade(job, s0, s, k)
    ensures var port, c := job.service.ports[k], ContextOf(job);
            var plan := if ListenerListed(job.listeners, port) then [] else [CreateListener(GenName(port))];
            Safe(s, plan, c) && Made(job, s0, Run(s, plan, c), k + 1)
  {
    assert HasPool(s, GenName(job.service.ports[k]));
    hide Run, Safe, Apply, Admissible, WF, PoolsMade, ListenersMade, ListenerListed;
    var port, c := job.service.ports[k], ContextOf(job);
    if ListenerListed(job.listeners, port) {
      ListedListenerStands(job, s0, s, k);
      ListenersMadeNext(job, s0, s, k);
      RunNone(s, c);
    } else {
      var a := CreateListener(GenName(port));
      MissingListenerIsFree(job, s0, s, k);
      ListenerMade(job, s0, s, k);
      RunOne(s, a, c);
      SafeKeepsWF(s, [a], c);
      SamePools(job, s0, s, Run(s, [a], c), k + 1);
    }
  }

  lemma SameListeners(job: Job, s0: State, s: State, t: State, k: nat)
    requires k <= |job.service.ports| && ListenersMade(job, s0, s, k) && t.listeners == s.listeners
    ensures ListenersMade(job, s0, t, k)
  {
    forall j | 0 <= j < k ensures HasListener(t, job.service.ports[j]) {
      HasListenerGrows(s, t, job.service.ports[j]);
    }
  }

  lemma SamePools(job: Job, s0: State, s: State, t: State, k: nat)
    requires ListsPools(job.pools, s0) && k <= |job.service.ports| && PoolsMade(job, s0, s, k) && t.pools == s.pools
    ensures PoolsMade(job, s0, t, k)
  {
    hide PoolAt, NewPool, HasPool;
    assert forall i :: 0 <= i < |job.pools| ==> At(job, s0, s, job.pools[i], 4) && At(job, s0, t, job.pools[i], 4);
    forall j | 0 <= j < k ensures HasPool(t, GenName(job.service.ports[j])) {
      HasPoolGrows(s, t, GenName(job.service.ports[j]));
    }
  }

  lemma {:induction false} CreatesRun(job: Job, s0: State, s: State, k: nat)
    requires Setup(job, s0) && k <= |job.service.ports| && Made(job, s0, s, k)
    ensures var plan, c := Creates(job, job.service.ports[k..]), ContextOf(job);
            Safe(s, plan, c) && Made(job, s0, Run(s, plan, c), |job.service.ports|)
    decreases |job.service.ports| - k
  {
    hide Run, Safe, Made, PoolsMade, ListenersMade, WF, Setup, PoolListed, ListenerListed;
    var ports, c := job.service.ports, ContextOf(job);
    if k == |ports| {
      assert ports[k..] == [];
      RunNone(s, c);
    } else {
      var port := ports[k];
      var a := if PoolListed(job.pools, port) then [] else [CreatePool(GenName(port))];
      var b := if ListenerListed(job.listeners, port) then [] else [CreateListener(GenName(port))];
      var rest := Creates(job, ports[k + 1..]);
      CreatesStep(job, s0, s, k);
      var t := Run(s, a + b, c);
      CreatesRun(job, s0, t, k + 1);
      assert ports[k..][0] == port && ports[k..][1..] == ports[k + 1..];
      assert Creates(job, ports[k..]) == (a + b) + rest;
      SafeConcat(s, a + b, rest, c);
    }
  }

  lemma CreatesStep(job: Job, s0: State, s: State, k: nat)
    requires Setup(job, s0) && k < |job.service.ports| && Made(job, s0, s, k)
    ensures var plan, c := PortCreates(job, job.service.ports[k]), ContextOf(job);
            Safe(s, plan, c) && Made(job, s0, Run(s, plan, c), k + 1)
  {
    PoolPart(job, s0, s, k);
    hide Run, Safe, PoolsMade, ListenersMade, WF, Setup, PoolListed, ListenerListed;
    var port, c := job.service.ports[k], ContextOf(job);
    var a := if PoolListed(job.pools, port) then [] else [CreatePool(GenName(port))];
    var b := if ListenerListed(job.listeners, port) then [] else [CreateListener(GenName(port))];
    ListenerPart(job, s0, Run(s, a, c), k);
    SafeConcat(s, a, b, c);
  }

  // ----- the whole plan -----

  /** The state a complete run ends in, told in terms of the state it started from: listed pools keep
      their id, take the generated name and the final monitor, and are the only ones left besides one
      new pool per service port that had none; likewise for listeners. */
  ghost predicate Converged(job: Job, s0: State, s: State)
    requires ListsPools(job.pools, s0)
  {
    Made(job, s0, s, |job.service.ports|)
  }

  lemma NothingMadeYet(job: Job, s0: State, s: State)
    requires ListsPools(job.pools, s0) && PoolsAt(job, s0, s, 4, 0)
    ensures Made(job, s0, s, 0)
  {
    hide At, WF;
  }

  lemma PlanRuns(job: Job, s0: State)
    requires Setup(job, s0)
    ensures Safe(s0, PlanOf(job), ContextOf(job)) && Converged(job, s0, Run(s0, PlanOf(job), ContextOf(job)))
  {
    var c, pools, creates := ContextOf(job), PoolPlan(job, 4), Creates(job, job.service.ports);
    PlanShape(job);
    hide Run, Safe, WF, PlanOf, PoolPlan, PoolsAt, Made, Setup;
    PoolPlanRuns(job, s0, 4);
    var mid := Run(s0, pools, c);
    NothingMadeYet(job, s0, mid);
    CreatesRun(job, s0, mid, 0);
    assert job.service.ports[0..] == job.service.ports;
    SafeConcat(s0, pools, creates, c);
  }

  lemma PlanShape(job: Job)
    ensures PlanOf(job) == PoolPlan(job, 4) + Creates(job, job.service.ports)
  {
    assert PoolPlan(job, 1) == PoolPlan(job, 0) + Chunks(job, 0, job.pools);
    assert PoolPlan(job, 2) == PoolPlan(job, 1) + Chunks(job, 1, job.pools);
    assert PoolPlan(job, 3) == PoolPlan(job, 2) + Chunks(job, 2, job.pools);
    assert PoolPlan(job, 4) == PoolPlan(job, 3) + Chunks(job, 3, job.pools);
  }

  lemma ConvergedIsDesired(job: Job, s0: State, s: State)
    requires Setup(job, s0) && Converged(job, s0, s)
    ensures Desired(s, job.service, job.nodes)
  {
    assert ListsPools(job.pools, s0) && ServiceOk(job.service);
    hide Setup, PoolDesired, ListenerDesired, HasPool, HasListener, ListsPools, ServiceOk, PoolsMade, ListenersMade, WF;
    PoolsAreDesired(job, s0, s);
    PortsAreServed(job, s0, s);
    ListenersAreDesired(job, s0, s);
  }

  lemma ListenersAreDesired(job: Job, s0: State, s: State)
    requires ListsPools(job.pools, s0) && ServiceOk(job.service) && Converged(job, s0, s)
    ensures forall l :: l in s.listeners ==> ListenerDesired(s, job.service, s.listeners[l])
  {
    hide Converged, ListenerDesired, ListsPools, ServiceOk;
    forall l | l in s.listeners ensures ListenerDesired(s, job.service, s.listeners[l]) {
      StandingListener(job, s0, s, l);
    }
  }

  lemma PoolsAreDesired(job: Job, s0: State, s: State)
    requires ListsPools(job.pools, s0) && PoolsMade(job, s0, s, |job.service.ports|)
    ensures forall p :: p in s.pools ==>
                          exists port :: && port in job.service.ports
                                         && PoolDesired(s.pools[p], job.service, job.nodes, port)
  {
    hide PoolsMade, PoolDesired;
    forall p | p in s.pools
      ensures exists port :: port in job.service.ports && PoolDesired(s.pools[p], job.service, job.nodes, port)
    {
      var port := StandingPool(job, s0, s, |job.service.ports|, p);
    }
  }

  lemma PortsAreServed(job: Job, s0: State, s: State)
    requires ListsPools(job.pools, s0) && PoolsMade(job, s0, s, |job.service.ports|)
    requires ListenersMade(job, s0, s, |job.service.ports|)
    ensures forall port :: port in job.service.ports ==> HasPool(s, GenName(port)) && HasListener(s, port)
  {
    hide HasPool, HasListener, NewPool, NewListener, At, ListedPool, KeptListeners;
  }

  lemma StandingListener(job: Job, s0: State, s: State, l: string)
    requires ListsPools(job.pools, s0) && ServiceOk(job.service) && Converged(job, s0, s) && l in s.listeners
    ensures ListenerDesired(s, job.service, s.listeners[l])
  {
    var n, listener := |job.service.ports|, s.listeners[l];
    assert PoolsMade(job, s0, s, n) && ListenersMade(job, s0, s, n);
    assert ListenersBacked(s);
    hide PoolsMade, ListenersMade, WF, Covers, MonitorOk, ListsPools, Converged, ServiceOk, ListenerDesired;
    var port := ServedListener(job, s0, s, l);
    var other := StandingPool(job, s0, s, n, listener.poolId);
    ServedFront(s, job.service, listener, port, other);
  }

  lemma ServedFront(s: State, service: Service, listener: Listener, port: ServicePort, other: ServicePort)
    requires ServiceOk(service) && port in service.ports && other in service.ports
    requires Matches(port, listener.protocol, listener.port) && listener.poolId in s.pools
    requires s.pools[listener.poolId].name == GenName(other) && GenName(other).port == listener.port
    ensures ListenerDesired(s, service, listener)
  {
    assert port == other;
  }

  lemma ServedListener(job: Job, s0: State, s: State, l: string) returns (port: ServicePort)
    requires ListenersMade(job, s0, s, |job.service.ports|) && l in s.listeners
    ensures port in job.service.ports && Matches(port, s.listeners[l].protocol, s.listeners[l].port)
  {
    hide HasListener;
    if l in KeptListeners(job, s0) {
      port := FindPort(job.service.ports, s.listeners[l].protocol, s.listeners[l].port).value;
    } else {
      var j :| 0 <= j < |job.service.ports| && NewListener(job, s.listeners[l], job.service.ports[j]);
      port := job.service.ports[j];
    }
  }

  // ----- main results -----

  /** Convergence: a complete run ends in the desired state. */
  lemma PlanConverges(job: Job, s: State)
    requires Setup(job, s)
    ensures Desired(Run(s, PlanOf(job), ContextOf(job)), job.service, job.nodes)
  {
    PlanRuns(job, s);
    ConvergedIsDesired(job, s, Run(s, PlanOf(job), ContextOf(job)));
  }

  /** Legality and stability: wherever the run stops, the invariant holds and the next update is one the service
      accepts. */
  lemma EveryStepIsLegal(job: Job, s: State, k: nat)
    requires Setup(job, s) && k <= |PlanOf(job)|
    ensures var plan, c := PlanOf(job), ContextOf(job);
            var mid := Run(s, plan[..k], c);
            && WF(mid)
            && (k < |plan| ==> Enabled(mid, plan[k]) && Run(s, plan[..k + 1], c) == Apply(mid, plan[k], c))
  {
    PlanRuns(job, s);
    SafePrefix(s, PlanOf(job), ContextOf(job), k);
  }

  /** The rules updates are ordered by, at every point of a plan: a pool is deleted when no listener refers to it, a
      listener is created when its pool is there and its port is free, a pool when no pool has its protocol and port;
      what is deleted, changed or renamed is there, and no name or member comes up twice. */
  lemma RulesKept(job: Job, s: State, k: nat)
    requires Setup(job, s) && k < |PlanOf(job)|
    ensures var a, mid := PlanOf(job)[k], Run(s, PlanOf(job)[..k], ContextOf(job));
            && (a.DeleteListener? ==> a.listenerId in mid.listeners)
            && (a.DeletePool? ==> a.poolId in mid.pools && forall l :: l in mid.listeners ==>
                                    mid.listeners[l].poolId != a.poolId)
            && (a.CreatePool? ==> forall p :: p in mid.pools ==>
                  mid.pools[p].name.protocol != a.name.protocol || mid.pools[p].name.port != a.name.port)
            && (a.CreateListener? ==>
                  && (exists p :: p in mid.pools && mid.pools[p].name == a.name)
                  && forall l :: l in mid.listeners ==> mid.listeners[l].port != a.name.port)
            && (a.UpdatePool? ==>
                  && a.poolId in mid.pools && mid.pools[a.poolId].name.protocol == a.name.protocol
                  && mid.pools[a.poolId].name.port == a.name.port
                  && forall p :: p in mid.pools && p != a.poolId ==> mid.pools[p].name != a.name)
            && (a.ReplaceMembers? ==> a.poolId in mid.pools)
            && (a.CreateMember? ==> a.poolId in mid.pools && forall m :: m in mid.pools[a.poolId].members ==>
                  mid.pools[a.poolId].members[m] != Member(a.node, a.name.nodePort))
            && (a.DeleteMember? ==>
                  && a.poolId in mid.pools && a.memberId in mid.pools[a.poolId].members
                  && mid.pools[a.poolId].members[a.memberId].target == a.target)
  {
    hide PlanOf, Run, WF, Safe, Converged;
    PlanRuns(job, s);
    SetupParts(job, s);
    SafePrefix(s, PlanOf(job), ContextOf(job), k);
  }

  lemma SetupParts(job: Job, s: State)
    requires Setup(job, s)
    ensures WF(s) && NodesOk(ContextOf(job).nodes)
  {
  }
}

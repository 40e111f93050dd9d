/** When a plan is empty, what a second update does, and what becomes of updates that were cut short. */
module Fixpoint {
  import opened Text
  import opened Remote
  import opened Plan
  import opened PoolSteps
  import opened Convergence
  import opened Optimiser

  // ----- nothing is planned exactly in the desired state -----

  lemma {:induction false} NoListenerDrops(job: Job, recs: seq<ListenerRec>)
    requires forall i :: 0 <= i < |recs| ==>
              FindPort(job.service.ports, recs[i].listener.protocol, recs[i].listener.port).Some?
    ensures ListenerDrops(job, recs) == []
  {
    if recs != [] {
      NoListenerDrops(job, recs[1..]);
    }
  }

  lemma {:induction false} NoChunks(job: Job, stage: nat, recs: seq<PoolRec>)
    requires forall i :: 0 <= i < |recs| ==> Chunk(job, stage, recs[i]) == []
    ensures Chunks(job, stage, recs) == []
  {
    if recs != [] {
      NoChunks(job, stage, recs[1..]);
    }
  }

  lemma {:induction false} NoCreates(job: Job, ports: seq<ServicePort>)
    requires forall p :: p in ports ==> PoolListed(job.pools, p) && ListenerListed(job.listeners, p)
    ensures Creates(job, ports) == []
  {
    if ports != [] {
      NoCreates(job, ports[1..]);
    }
  }

  lemma DesiredPoolIsLeft(job: Job, s: State, rec: PoolRec, stage: nat)
    requires ListedPool(rec, s) && ServiceOk(job.service)
    requires exists port :: port in job.service.ports && PoolDesired(s.pools[rec.id], job.service, job.nodes, port)
    ensures Chunk(job, stage, rec) == []
  {
    var port :| port in job.service.ports && PoolDesired(s.pools[rec.id], job.service, job.nodes, port);
    OwnPortIsFound(job, rec.name, port);
    DesiredMembersAreLeft(job, s, rec, port);
    hide Covers, ListsMembers, FindPort, MonitorOk, Drops, Adds, ServiceOk;
  }

  lemma OwnPortIsFound(job: Job, name: PoolName, port: ServicePort)
    requires ServiceOk(job.service) && port in job.service.ports && name == GenName(port)
    ensures PortOf(job, name) == Some(port)
  {
  }

  lemma DesiredMembersAreLeft(job: Job, s: State, rec: PoolRec, port: ServicePort)
    requires ListedPool(rec, s) && rec.name == GenName(port)
    requires Covers(s.pools[rec.id].members, job.nodes, port.nodePort)
    ensures Drops(job, rec) == [] && Adds(job, rec) == []
  {
    hide Covers, GoodMember, ListsMembers, MemberDrops, MemberAdds, PortOf, HasMember;
    NoDrops(rec.name, rec.id, rec.members, job.nodes);
    NoAdds(rec.name, rec.id, rec.members, job.nodes);
    CoveredNodes(rec.members, s.pools[rec.id].members, job.nodes, port.nodePort);
  }

  lemma CoveredNodes(recs: seq<MemberRec>, members: map<string, Member>, nodes: seq<string>, nodePort: int)
    requires ListsMembers(recs, members) && Covers(members, nodes, nodePort)
    ensures forall n :: n in nodes ==> HasMember(recs, Member(n, nodePort))
    ensures forall i :: 0 <= i < |recs| ==> GoodMember(recs[i].member, nodes, nodePort)
  {
    forall n | n in nodes ensures HasMember(recs, Member(n, nodePort)) {
      var m :| m in members && members[m] == Member(n, nodePort);
      assert HasRecord(recs, m);
    }
  }

  lemma DesiredPortIsListed(job: Job, s: State, port: ServicePort)
    requires ListsPools(job.pools, s) && ListsListeners(job.listeners, s)
    requires HasPool(s, GenName(port)) && HasListener(s, port)
    ensures PoolListed(job.pools, port) && ListenerListed(job.listeners, port)
  {
    var p :| p in s.pools && s.pools[p].name == GenName(port);
    var i :| 0 <= i < |job.pools| && job.pools[i].id == p;
    assert ListedPool(job.pools[i], s);
    assert Matches(port, job.pools[i].name.protocol, job.pools[i].name.port);
    var l :| l in s.listeners && Matches(port, s.listeners[l].protocol, s.listeners[l].port);
    var j :| 0 <= j < |job.listeners| && job.listeners[j].id == l;
    assert ListedListener(job.listeners[j], s);
    assert Matches(port, job.listeners[j].listener.protocol, job.listeners[j].listener.port);
  }

  lemma DesiredPlansNothing(job: Job, s: State)
    requires JobOf(job, s) && Desired(s, job.service, job.nodes)
    ensures PlanOf(job) == []
  {
    hide Chunk, PoolDesired, HasPool, HasListener, PoolListed, ListenerListed;
    forall i | 0 <= i < |job.listeners|
      ensures FindPort(job.service.ports, job.listeners[i].listener.protocol, job.listeners[i].listener.port).Some?
    {
      assert ListedListener(job.listeners[i], s);
      assert ListenerDesired(s, job.service, s.listeners[job.listeners[i].id]);
    }
    NoListenerDrops(job, job.listeners);
    forall stage: nat ensures Chunks(job, stage, job.pools) == [] {
      forall i | 0 <= i < |job.pools| ensures Chunk(job, stage, job.pools[i]) == [] {
        assert ListedPool(job.pools[i], s);
        DesiredPoolIsLeft(job, s, job.pools[i], stage);
      }
      NoChunks(job, stage, job.pools);
    }
    forall port | port in job.service.ports ensures PoolListed(job.pools, port) && ListenerListed(job.listeners, port) {
      DesiredPortIsListed(job, s, port);
    }
    NoCreates(job, job.service.ports);
  }

  /** Exactness: the plan is empty if and only if the state already is the desired one. */
  lemma PlanEmptyIffDesired(job: Job, s: State)
    requires Setup(job, s)
    ensures PlanOf(job) == [] <==> Desired(s, job.service, job.nodes)
  {
    hide PlanOf, WF, Desired;
    if Desired(s, job.service, job.nodes) {
      DesiredPlansNothing(job, s);
    } else {
      PlanConverges(job, s);
      RunNone(s, ContextOf(job));
    }
  }

  lemma DesiredForSameNodes(s: State, service: Service, a: seq<string>, b: seq<string>)
    requires Desired(s, service, a) && forall n :: n in a <==> n in b
    ensures Desired(s, service, b)
  {
    forall p | p in s.pools ensures exists port :: port in service.ports && PoolDesired(s.pools[p], service, b, port) {
      var port :| port in service.ports && PoolDesired(s.pools[p], service, a, port);
      assert PoolDesired(s.pools[p], service, b, port);
    }
  }

  /** Idempotence: once an update has run to the end, an update for the same service and the same nodes,
      listed and ordered in any way, plans nothing. */
  lemma SecondUpdatePlansNothing(first: Job, s: State, second: Job)
    requires Setup(first, s) && first.merged == {} && second.service == first.service
    requires JobOf(second, Run(s, Optimise(PlanOf(first)), ContextOf(first)))
    requires forall n :: n in first.nodes <==> n in second.nodes
    ensures PlanOf(second) == [] && Optimise(PlanOf(second)) == []
  {
    hide Setup, JobOf, Desired, PlanOf, Run, Safe, SameUpToFreshIds;
    var t := Run(s, Optimise(PlanOf(first)), ContextOf(first));
    OptimiserPreservesMeaning(first, s);
    DesiredForSameNodes(t, first.service, first.nodes, second.nodes);
    DesiredPlansNothing(second, t);
  }

  // ----- updates cut short -----

  /** One update: what it was planned from, and how many of its actions took effect. */
  datatype Attempt = Attempt(job: Job, taken: nat)

  /** A run of the controller: updates for any services and node lists, each planned on the state the one
      before left, and each stopped anywhere by an error, a timeout or a restart. */
  ghost predicate Attempts(s: State, runs: seq<Attempt>, t: State)
    decreases |runs|
  {
    if runs == [] then t == s
    else
      var plan := Optimise(PlanOf(runs[0].job));
      && JobOf(runs[0].job, s) && runs[0].job.merged == {} && runs[0].taken <= |plan|
      && Attempts(Run(s, plan[..runs[0].taken], ContextOf(runs[0].job)), runs[1..], t)
  }

  lemma AttemptKeepsWF(job: Job, s: State, taken: nat)
    requires Setup(job, s) && job.merged == {} && taken <= |Optimise(PlanOf(job))|
    ensures WF(Run(s, Optimise(PlanOf(job))[..taken], ContextOf(job)))
  {
    hide WF, PlanOf, Run, Safe, Desired, SameUpToFreshIds;
    OptimiserPreservesMeaning(job, s);
    SafePrefix(s, Optimise(PlanOf(job)), ContextOf(job), taken);
  }

  /** The invariant holds over every run, however often updates are cut short. */
  lemma {:induction false} AttemptsKeepWF(s: State, runs: seq<Attempt>, t: State)
    requires WF(s) && Attempts(s, runs, t)
    ensures WF(t)
    decreases |runs|
  {
    hide WF, PlanOf, Run, JobOf;
    if runs != [] {
      var job := runs[0].job;
      AttemptKeepsWF(job, s, runs[0].taken);
      AttemptsKeepWF(Run(s, Optimise(PlanOf(job))[..runs[0].taken], ContextOf(job)), runs[1..], t);
    }
  }

  /** Self-stabilisation: whatever updates came before and wherever they stopped, the first one that runs
      to the end reaches the desired state of its own service and nodes. */
  lemma SelfStabilisation(s: State, runs: seq<Attempt>, t: State, last: Job)
    requires WF(s) && Attempts(s, runs, t) && JobOf(last, t) && last.merged == {}
    ensures Safe(t, Optimise(PlanOf(last)), ContextOf(last))
    ensures Desired(Run(t, Optimise(PlanOf(last)), ContextOf(last)), last.service, last.nodes)
  {
    AttemptsKeepWF(s, runs, t);
    OptimiserPreservesMeaning(last, t);
  }
}

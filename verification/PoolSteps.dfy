/** One pool on its way through the phases of a plan: where it stands after each phase, and that the
    updates a phase issues for it are legal, take it one phase further and touch nothing else. */
module PoolSteps {
  import opened Text
  import opened Remote
  import opened Plan

  // ----- where a pool stands between the phases -----

  /** The members that are wanted as they are. */
  function Wanted(members: map<string, Member>, nodes: seq<string>, nodePort: int): map<string, Member> {
    map m | m in members && GoodMember(members[m], nodes, nodePort) :: members[m]
  }

  ghost predicate MembersAt(job: Job, rec: PoolRec, before: map<string, Member>, members: map<string, Member>,
                            stage: nat)
    requires PortOf(job, rec.name).Some?
  {
    var nodePort := PortOf(job, rec.name).value.nodePort;
    if stage <= 1 then members == before
    else if stage >= 4 then Covers(members, job.nodes, nodePort)
    else if !Steady(job, rec) then (if stage == 2 then members == before else Covers(members, job.nodes, nodePort))
    else if rec.id in job.merged && Drops(job, rec) != [] then Covers(members, job.nodes, nodePort)
    else members == Wanted(before, job.nodes, nodePort)
  }

  /** The monitor after step 4: patched if step 4 issued an UPDATE-POOL, else untouched. */
  function FinalMonitor(job: Job, rec: PoolRec): Monitor
    requires PortOf(job, rec.name).Some?
  {
    if PoolChanges(job, rec) == [] then rec.monitor
    else PatchMonitor(rec.monitor, PortOf(job, rec.name).value.nodePort, HealthPort(job.service))
  }

  ghost predicate PoolAt(job: Job, rec: PoolRec, before: map<string, Member>, p: Pool, stage: nat)
    requires PortOf(job, rec.name).Some?
  {
    && p.name == (if stage >= 3 then GenName(PortOf(job, rec.name).value) else rec.name)
    && p.monitor == (if stage >= 3 then FinalMonitor(job, rec) else rec.monitor)
    && MembersAt(job, rec, before, p.members, stage)
  }

  /** The listed pool after `stage` phases. */
  ghost predicate At(job: Job, s0: State, s: State, rec: PoolRec, stage: nat)
    requires rec.id in s0.pools
  {
    if PortOf(job, rec.name).None? then (if stage == 0 then rec.id in s.pools else rec.id !in s.pools)
    else rec.id in s.pools && PoolAt(job, rec, s0.pools[rec.id].members, s.pools[rec.id], stage)
  }

  /** Nothing but this pool (and the id supply) differs. */
  ghost predicate OnlyPool(s: State, t: State, pool: string) {
    && t.listeners == s.listeners && t.next >= s.next
    && forall q :: q != pool ==> (q in s.pools <==> q in t.pools) && (q in s.pools ==> t.pools[q] == s.pools[q])
  }

  // ----- member updates -----

  lemma GenMembersCover(nodes: seq<string>, nodePort: int, next: nat)
    ensures Covers(GenMembers(nodes, nodePort, next), nodes, nodePort)
  {
    var ms := GenMembers(nodes, nodePort, next);
    forall n | n in nodes ensures exists m :: m in ms && ms[m] == Member(n, nodePort) {
      var i: nat :| i < |nodes| && nodes[i] == n;
      assert FreshId(next + i) in ms;
    }
  }

  /** The wanted members and those still to be looked at. */
  ghost function Remaining(members: map<string, Member>, recs: seq<MemberRec>, nodes: seq<string>,
                           nodePort: int): map<string, Member>
  {
    map m | m in members && (GoodMember(members[m], nodes, nodePort) || HasRecord(recs, m)) :: members[m]
  }

  lemma DroppedMember(c: Context, s: State, a: Update)
    requires a.DeleteMember? && a.poolId in s.pools && a.memberId in s.pools[a.poolId].members
    requires s.pools[a.poolId].members[a.memberId].target == a.target
    ensures Admissible(s, a)
    ensures Apply(s, a, c) == WithMembers(s, a.poolId, s.pools[a.poolId].members - {a.memberId}, s.next)
  {
  }

  lemma {:induction false} MemberDropsRun(c: Context, s: State, name: PoolName, pool: string,
                                          all: map<string, Member>, recs: seq<MemberRec>)
    requires pool in s.pools && s.pools[pool].members == Remaining(all, recs, c.nodes, name.nodePort)
    requires forall i, j :: 0 <= i < j < |recs| ==> recs[i].id != recs[j].id
    requires forall i :: 0 <= i < |recs| ==> recs[i].id in all && all[recs[i].id] == recs[i].member
    ensures var plan := MemberDrops(name, pool, recs, c.nodes);
            && Safe(s, plan, c)
            && Run(s, plan, c) == WithMembers(s, pool, Wanted(all, c.nodes, name.nodePort), s.next)
    decreases |recs|
  {
    hide Run, Safe, Apply, Admissible, Enabled;
    var plan := MemberDrops(name, pool, recs, c.nodes);
    if recs == [] {
      assert s.pools[pool].members == Wanted(all, c.nodes, name.nodePort);
      assert WithMembers(s, pool, s.pools[pool].members, s.next) == s;
      RunNone(s, c);
    } else {
      var m, rest := recs[0], MemberDrops(name, pool, recs[1..], c.nodes);
      RemainingStep(all, recs, c.nodes, name.nodePort);
      var left := Remaining(all, recs[1..], c.nodes, name.nodePort);
      var s1 := WithMembers(s, pool, left, s.next);
      MemberDropsRun(c, s1, name, pool, all, recs[1..]);
      if GoodMember(m.member, c.nodes, name.nodePort) {
        assert s.pools[pool].members - {} == s.pools[pool].members;
        assert s1 == s && plan == rest;
      } else {
        var a := DeleteMember(name, pool, m.id, m.member.target);
        assert HasRecord(recs, m.id);
        DroppedMember(c, s, a);
        RunFirst(s, a, rest, c);
      }
    }
  }

  lemma RemainingStep(all: map<string, Member>, recs: seq<MemberRec>, nodes: seq<string>, nodePort: int)
    requires recs != [] && recs[0].id in all && all[recs[0].id] == recs[0].member
    requires forall i, j :: 0 <= i < j < |recs| ==> recs[i].id != recs[j].id
    ensures var skip := if GoodMember(recs[0].member, nodes, nodePort) then {} else {recs[0].id};
            Remaining(all, recs, nodes, nodePort) - skip == Remaining(all, recs[1..], nodes, nodePort)
  {
    var rest := recs[1..];
    forall m ensures HasRecord(recs, m) <==> m == recs[0].id || HasRecord(rest, m) {
      if i :| 0 <= i < |recs| && recs[i].id == m {
        assert i == 0 || rest[i - 1].id == m;
      }
      if i :| 0 <= i < |rest| && rest[i].id == m {
        assert recs[i + 1].id == m;
      }
    }
    assert forall i :: 0 <= i < |rest| ==> rest[i].id == recs[i + 1].id != recs[0].id;
  }

  ghost predicate Present(members: map<string, Member>, m: Member) {
    exists i :: i in members && members[i] == m
  }

  ghost predicate OnlyMembers(s: State, t: State, pool: string) {
    && pool in s.pools && pool in t.pools && OnlyPool(s, t, pool)
    && t.pools[pool] == s.pools[pool].(members := t.pools[pool].members)
  }

  /** Members while nodes are added one by one: `todo` are the nodes not yet looked at. */
  ghost predicate Adding(members: map<string, Member>, recs: seq<MemberRec>, nodes: seq<string>, nodePort: int,
                         todo: seq<string>)
  {
    && (forall m :: m in members ==> GoodMember(members[m], nodes, nodePort))
    && (forall n :: n in todo ==>
                      n in nodes && (Present(members, Member(n, nodePort)) <==> HasMember(recs, Member(n, nodePort))))
    && (forall n :: n in nodes && n !in todo ==> Present(members, Member(n, nodePort)))
  }

  lemma StillAdding(before: map<string, Member>, after: map<string, Member>, recs: seq<MemberRec>, nodes: seq<string>,
                    nodePort: int, todo: seq<string>)
    requires Adding(before, recs, nodes, nodePort, todo) && Distinct(todo) && todo != []
    requires forall m :: Present(after, m) <==> m == Member(todo[0], nodePort) || Present(before, m)
    requires forall i :: i in after ==>
                           after[i] == Member(todo[0], nodePort) || (i in before && after[i] == before[i])
    ensures Adding(after, recs, nodes, nodePort, todo[1..])
  {
    hide HasMember, Present;
    assert forall x :: x in todo <==> x == todo[0] || x in todo[1..];
    assert todo[0] !in todo[1..];
  }

  lemma {:induction false} MemberAddsRun(c: Context, s: State, name: PoolName, pool: string,
                                         recs: seq<MemberRec>, todo: seq<string>)
    requires WF(s) && NodesOk(c.nodes) && NodesOk(todo) && pool in s.pools
    requires Adding(s.pools[pool].members, recs, c.nodes, name.nodePort, todo)
    ensures var plan := MemberAdds(name, pool, recs, todo);
            && Safe(s, plan, c) && OnlyMembers(s, Run(s, plan, c), pool)
            && Covers(Run(s, plan, c).pools[pool].members, c.nodes, name.nodePort)
    decreases |todo|
  {
    hide WF, Run, Safe, Apply, Admissible, Enabled;
    var plan, members := MemberAdds(name, pool, recs, todo), s.pools[pool].members;
    if todo == [] {
      assert forall n :: n in c.nodes ==> Present(members, Member(n, name.nodePort));
      RunNone(s, c);
    } else {
      var n, rest := todo[0], todo[1..];
      assert n in todo && forall x :: x in todo <==> x == n || x in rest;
      assert n !in rest;
      if HasMember(recs, Member(n, name.nodePort)) {
        MemberAddsRun(c, s, name, pool, recs, rest);
        assert plan == MemberAdds(name, pool, recs, rest);
      } else {
        var a := CreateMember(name, pool, n);
        AddedMember(c, s, name, pool, n);
        var s1 := Apply(s, a, c);
        StillAdding(members, s1.pools[pool].members, recs, c.nodes, name.nodePort, todo);
        MemberAddsRun(c, s1, name, pool, recs, rest);
        RunFirst(s, a, MemberAdds(name, pool, recs, rest), c);
      }
    }
  }

  lemma AddedMember(c: Context, s: State, name: PoolName, pool: string, n: string)
    requires WF(s) && NodesOk(c.nodes) && pool in s.pools && Token(n)
    requires !Present(s.pools[pool].members, Member(n, name.nodePort))
    ensures var a := CreateMember(name, pool, n);
            && Enabled(s, a) && Admissible(s, a)
            && var t := Apply(s, a, c);
            && WF(t) && OnlyMembers(s, t, pool)
            && (forall m :: Present(t.pools[pool].members, m) <==>
                            m == Member(n, name.nodePort) || Present(s.pools[pool].members, m))
            && (forall i :: i in t.pools[pool].members ==>
                              t.pools[pool].members[i] == Member(n, name.nodePort)
                              || (i in s.pools[pool].members && t.pools[pool].members[i] == s.pools[pool].members[i]))
  {
    var a := CreateMember(name, pool, n);
    assert WF(Apply(s, a, c)) by { StepKeepsWF(s, a, c); }
    var members, t := s.pools[pool].members, Apply(s, a, c);
    assert FreshId(s.next) !in members;
    hide WF, FreshId;
    MemberGrown(members, FreshId(s.next), Member(n, name.nodePort));
  }

  lemma MemberGrown(members: map<string, Member>, id: string, m: Member)
    requires id !in members
    ensures forall x :: Present(members[id := m], x) <==> x == m || Present(members, x)
  {
    var grown := members[id := m];
    forall x | Present(members, x) ensures Present(grown, x) {
      var i :| i in members && members[i] == x;
      assert i in grown && grown[i] == x;
    }
    assert id in grown;
  }

  // ----- the updates of one pool in one phase -----

  ghost predicate ChunkDone(job: Job, s0: State, s: State, rec: PoolRec, stage: nat)
    requires rec.id in s0.pools
  {
    var plan, c := Chunk(job, stage, rec), ContextOf(job);
    && Safe(s, plan, c)
    && At(job, s0, Run(s, plan, c), rec, stage + 1)
    && OnlyPool(s, Run(s, plan, c), rec.id)
  }

  lemma DropPoolDone(job: Job, s0: State, s: State, rec: PoolRec)
    requires ListedPool(rec, s0) && At(job, s0, s, rec, 0)
    requires PortOf(job, rec.name).None? ==> forall l :: l in s.listeners ==> s.listeners[l].poolId != rec.id
    ensures ChunkDone(job, s0, s, rec, 0)
  {
    var a, c := DeletePool(rec.name, rec.id), ContextOf(job);
    if PortOf(job, rec.name).None? {
      RunOne(s, a, c);
    } else {
      RunNone(s, c);
    }
  }

  lemma ReplaceDone(c: Context, s: State, name: PoolName, pool: string)
    requires pool in s.pools
    ensures var a := ReplaceMembers(name, pool);
            && Admissible(s, a) && OnlyMembers(s, Apply(s, a, c), pool)
            && Covers(Apply(s, a, c).pools[pool].members, c.nodes, name.nodePort)
  {
    GenMembersCover(c.nodes, name.nodePort, s.next);
  }

  lemma DropMembersDone(job: Job, s0: State, s: State, rec: PoolRec)
    requires ListedPool(rec, s0) && At(job, s0, s, rec, 1)
    ensures ChunkDone(job, s0, s, rec, 1)
  {
    hide Run, Safe, Apply, Admissible;
    var c := ContextOf(job);
    if !Steady(job, rec) {
      RunNone(s, c);
    } else if rec.id in job.merged && Drops(job, rec) != [] {
      ReplaceDone(c, s, rec.name, rec.id);
      RunOne(s, ReplaceMembers(rec.name, rec.id), c);
    } else {
      var all := s0.pools[rec.id].members;
      assert Remaining(all, rec.members, job.nodes, rec.name.nodePort) == all;
      MemberDropsRun(c, s, rec.name, rec.id, all, rec.members);
    }
  }

  lemma UpdateDone(c: Context, s: State, name: PoolName, pool: string)
    requires EndpointsUnique(s) && pool in s.pools && SameEndpoint(s.pools[pool].name, name)
    ensures var a := UpdatePool(name, pool);
            && Admissible(s, a)
            && var t := Apply(s, a, c);
            && OnlyPool(s, t, pool) && pool in t.pools
            && t.pools[pool] ==
                 Pool(name, PatchMonitor(s.pools[pool].monitor, name.nodePort, c.healthPort), s.pools[pool].members)
  {
  }

  lemma ChangePoolDone(job: Job, s0: State, s: State, rec: PoolRec)
    requires WF(s) && ListedPool(rec, s0) && At(job, s0, s, rec, 2)
    ensures ChunkDone(job, s0, s, rec, 2)
  {
    hide Run, Safe, Apply, Admissible, PatchMonitor, GenMonitor, MonitorOk;
    var c := ContextOf(job);
    if PoolChanges(job, rec) == [] {
      RunNone(s, c);
    } else {
      var port := PortOf(job, rec.name).value;
      var a, b := UpdatePool(GenName(port), rec.id), ReplaceMembers(GenName(port), rec.id);
      UpdateDone(c, s, GenName(port), rec.id);
      var s1 := Apply(s, a, c);
      if GenName(port) != rec.name {
        ReplaceDone(c, s1, GenName(port), rec.id);
        RunOne(s1, b, c);
        RunFirst(s, a, [b], c);
        assert [a] + [b] == PoolChanges(job, rec);
      } else {
        RunOne(s, a, c);
      }
    }
  }

  /** Dropping nothing means there is nothing to drop. */
  lemma {:induction false} NoDrops(name: PoolName, pool: string, recs: seq<MemberRec>, nodes: seq<string>)
    ensures MemberDrops(name, pool, recs, nodes) == []
            <==> forall i :: 0 <= i < |recs| ==> GoodMember(recs[i].member, nodes, name.nodePort)
  {
    if recs != [] {
      NoDrops(name, pool, recs[1..], nodes);
      assert forall i :: 1 <= i < |recs| ==> recs[i] == recs[1..][i - 1];
    }
  }

  /** Adding nothing means every node has its member. */
  lemma {:induction false} NoAdds(name: PoolName, pool: string, recs: seq<MemberRec>, nodes: seq<string>)
    ensures MemberAdds(name, pool, recs, nodes) == []
            <==> forall n :: n in nodes ==> HasMember(recs, Member(n, name.nodePort))
  {
    if nodes != [] {
      NoAdds(name, pool, recs, nodes[1..]);
      assert forall n :: n in nodes <==> n == nodes[0] || n in nodes[1..];
    }
  }

  lemma WantedIsAdding(rec: PoolRec, before: map<string, Member>, nodes: seq<string>, nodePort: int)
    requires ListsMembers(rec.members, before)
    ensures Adding(Wanted(before, nodes, nodePort), rec.members, nodes, nodePort, nodes)
  {
    var wanted := Wanted(before, nodes, nodePort);
    forall n | n in nodes
      ensures Present(wanted, Member(n, nodePort)) <==> HasMember(rec.members, Member(n, nodePort))
    {
      if i :| 0 <= i < |rec.members| && rec.members[i].member == Member(n, nodePort) {
        assert rec.members[i].id in wanted;
      }
      if m :| m in wanted && wanted[m] == Member(n, nodePort) {
        assert HasRecord(rec.members, m);
        var i :| 0 <= i < |rec.members| && rec.members[i].id == m;
        assert rec.members[i].member == Member(n, nodePort);
      }
    }
  }

  lemma AddMembersDone(job: Job, s0: State, s: State, rec: PoolRec)
    requires WF(s) && NodesOk(job.nodes) && ListedPool(rec, s0) && At(job, s0, s, rec, 3)
    ensures ChunkDone(job, s0, s, rec, 3)
  {
    hide Run, Safe, Apply, Admissible, WF;
    var c := ContextOf(job);
    if !Steady(job, rec) || (rec.id in job.merged && Drops(job, rec) != []) {
      RunNone(s, c);
    } else {
      var before := s0.pools[rec.id].members;
      WantedIsAdding(rec, before, job.nodes, rec.name.nodePort);
      if rec.id in job.merged && Adds(job, rec) != [] {
        ReplaceDone(c, s, rec.name, rec.id);
        RunOne(s, ReplaceMembers(rec.name, rec.id), c);
      } else {
        MemberAddsRun(c, s, rec.name, rec.id, rec.members, job.nodes);
      }
    }
  }
}

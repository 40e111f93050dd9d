/** How a plan begins: with deletions if there are any, whichever nodes are selected, and else with the first member
    update of a listed pool. And that a load balancer can be listed with any pools first. */
module FirstSteps {
  import opened Text
  import opened Remote
  import opened Plan
  import opened Optimiser
  import Bounds

  // ----- deletions -----

  /** Steps 1 and 2. */
  function Deletions(job: Job): seq<Update> {
    ListenerDrops(job, job.listeners) + Chunks(job, 0, job.pools)
  }

  lemma DeletionsComeFirst(job: Job)
    requires Deletions(job) != []
    ensures PlanOf(job) != [] && PlanOf(job)[0] == Deletions(job)[0]
  {
    hide Chunks, ListenerDrops, Creates;
  }

  lemma {:induction false} ListenerDropsIgnoreNodes(job: Job, other: Job, recs: seq<ListenerRec>)
    requires other.service == job.service
    ensures ListenerDrops(other, recs) == ListenerDrops(job, recs)
    ensures forall a :: a in ListenerDrops(job, recs) ==> a.DeleteListener?
  {
    if recs != [] {
      ListenerDropsIgnoreNodes(job, other, recs[1..]);
    }
  }

  lemma {:induction false} PoolDropsIgnoreNodes(job: Job, other: Job, recs: seq<PoolRec>)
    requires other.service == job.service
    ensures Chunks(other, 0, recs) == Chunks(job, 0, recs)
  {
    if recs != [] {
      PoolDropsIgnoreNodes(job, other, recs[1..]);
    }
  }

  /** The deletions are the same for all nodes, and merging does not change them. */
  lemma DeletionsIgnoreNodes(job: Job, nodes: seq<string>, merged: set<string>)
    ensures Deletions(job.(nodes := nodes, merged := merged)) == Deletions(job)
  {
    var other := job.(nodes := nodes, merged := merged);
    ListenerDropsIgnoreNodes(job, other, job.listeners);
    PoolDropsIgnoreNodes(job, other, job.pools);
  }

  /** Step 2 deletes pools of ports the service does not have, and each of them. */
  lemma {:induction false} PoolDropsAre(job: Job, recs: seq<PoolRec>)
    ensures forall a :: a in Chunks(job, 0, recs) ==>
                          a.DeletePool? && exists i :: && 0 <= i < |recs| && recs[i].id == a.poolId
                                                       && PortOf(job, recs[i].name).None?
    ensures (exists i :: 0 <= i < |recs| && PortOf(job, recs[i].name).None?) ==> Chunks(job, 0, recs) != []
  {
    if recs != [] {
      var rest := recs[1..];
      PoolDropsAre(job, rest);
      hide PortOf;
      forall a | a in Chunks(job, 0, recs)
        ensures a.DeletePool? && exists i :: && 0 <= i < |recs| && recs[i].id == a.poolId
                                             && PortOf(job, recs[i].name).None?
      {
        if a in Chunks(job, 0, rest) {
          var i :| 0 <= i < |rest| && rest[i].id == a.poolId && PortOf(job, rest[i].name).None?;
          assert recs[i + 1] == rest[i];
        } else {
          assert recs[0].id == a.poolId && PortOf(job, recs[0].name).None?;
        }
      }
      if i :| 0 <= i < |recs| && PortOf(job, recs[i].name).None? {
        if i > 0 {
          assert rest[i - 1] == recs[i];
        }
      }
    }
  }

  /** The first update of a plan with deletions: a listener's, or that of a pool of no service port. */
  lemma FirstDeletion(job: Job)
    requires Deletions(job) != []
    ensures var a := Deletions(job)[0];
            a.DeleteListener? || (a.DeletePool? && exists i :: && 0 <= i < |job.pools| && job.pools[i].id == a.poolId
                                                               && PortOf(job, job.pools[i].name).None?)
  {
    hide PortOf;
    ListenerDropsIgnoreNodes(job, job, job.listeners);
    PoolDropsAre(job, job.pools);
    var a := Deletions(job)[0];
    assert a in ListenerDrops(job, job.listeners) || a in Chunks(job, 0, job.pools);
  }

  // ----- member updates -----

  /** Without deletions a plan begins with the first member update. */
  lemma StartsWithMembers(job: Job, k: nat, a: Update)
    requires Deletions(job) == [] && k < |job.pools|
    requires forall i :: 0 <= i < k ==> Chunk(job, 1, job.pools[i]) == []
    requires Chunk(job, 1, job.pools[k]) == [a]
    ensures PlanOf(job) != [] && PlanOf(job)[0] == a
  {
    hide Chunk, ListenerDrops, Creates;
    QuietStart(job, 1, job.pools, k);
    var rest := job.pools[k..];
    assert rest[0] == job.pools[k] && Chunks(job, 1, rest) == [a] + Chunks(job, 1, rest[1..]);
    assert Chunks(job, 0, job.pools) == [];
  }

  /** Without deletions and the first member updates it begins with the first pool that is renamed. */
  lemma StartsWithChange(job: Job, k: nat, a: Update)
    requires Deletions(job) == [] && k < |job.pools|
    requires forall i :: 0 <= i < |job.pools| ==> Chunk(job, 1, job.pools[i]) == []
    requires forall i :: 0 <= i < k ==> Chunk(job, 2, job.pools[i]) == []
    requires Chunk(job, 2, job.pools[k]) != [] && Chunk(job, 2, job.pools[k])[0] == a
    ensures PlanOf(job) != [] && PlanOf(job)[0] == a
  {
    hide Chunk, ListenerDrops, Creates;
    QuietStart(job, 1, job.pools, |job.pools|);
    QuietStart(job, 2, job.pools, k);
    var rest := job.pools[k..];
    assert rest[0] == job.pools[k] && Chunks(job, 2, rest) == Chunk(job, 2, rest[0]) + Chunks(job, 2, rest[1..]);
    assert Chunks(job, 0, job.pools) == [] && Chunks(job, 1, job.pools) == [];
  }

  lemma {:induction false} QuietStart(job: Job, phase: nat, recs: seq<PoolRec>, k: nat)
    requires k <= |recs| && forall i :: 0 <= i < k ==> Chunk(job, phase, recs[i]) == []
    ensures Chunks(job, phase, recs) == Chunks(job, phase, recs[k..])
    decreases k
  {
    hide Chunk;
    if k > 0 {
      assert forall i :: 0 <= i < k - 1 ==> recs[1..][i] == recs[i + 1];
      QuietStart(job, phase, recs[1..], k - 1);
      assert recs[1..][k - 1..] == recs[k..];
    } else {
      assert recs[0..] == recs;
    }
  }

  lemma BusyChunk(job: Job, rec: PoolRec)
    requires job.merged == {} && Drops(job, rec) != [] && Adds(job, rec) != [] && rec.id in MergedPools(job)
    ensures Chunk(Merged(job), 1, rec) == [ReplaceMembers(rec.name, rec.id)]
  {
    var m := Merged(job);
    assert Drops(m, rec) == Drops(job, rec);
  }

  lemma QuietChunk(job: Job, rec: PoolRec)
    requires Drops(job, rec) == []
    ensures Chunk(Merged(job), 1, rec) == []
  {
    var m := Merged(job);
    assert Drops(m, rec) == Drops(job, rec);
  }

  // ----- listings exist -----

  lemma RecordFirst(rec: MemberRec, recs: seq<MemberRec>)
    ensures forall id :: HasRecord([rec] + recs, id) <==> id == rec.id || HasRecord(recs, id)
  {
    var all := [rec] + recs;
    forall id ensures HasRecord(all, id) <==> id == rec.id || HasRecord(recs, id) {
      if HasRecord(recs, id) {
        var i :| 0 <= i < |recs| && recs[i].id == id;
        assert all[i + 1].id == id;
      }
      if id == rec.id {
        assert all[0].id == id;
      }
    }
  }

  lemma RecordAdded(members: map<string, Member>, m: string, rest: seq<MemberRec>)
    requires m in members && ListsMembers(rest, members - {m})
    ensures ListsMembers([MemberRec(m, members[m])] + rest, members)
  {
    RecordFirst(MemberRec(m, members[m]), rest);
    hide HasRecord;
  }

  lemma {:induction false} SomeRecords(members: map<string, Member>) returns (recs: seq<MemberRec>)
    ensures ListsMembers(recs, members)
    decreases |members|
  {
    if members == map[] {
      recs := [];
    } else {
      hide ListsMembers;
      var m :| m in members;
      var rest := SomeRecords(members - {m});
      recs := [MemberRec(m, members[m])] + rest;
      RecordAdded(members, m, rest);
    }
  }

  /** The elements of a set in some order that begins as wanted. */
  lemma {:induction false} SomeOrder(those: set<string>, first: seq<string>) returns (ids: seq<string>)
    requires Distinct(first) && forall x :: x in first ==> x in those
    ensures Distinct(ids) && first <= ids && forall x :: x in ids <==> x in those
    decreases |those| - |first|
  {
    if forall x :: x in those ==> x in first {
      ids := first;
      Bounds.SizeOfSeq(first);
    } else {
      var x :| x in those && x !in first;
      Bounds.SizeOfSeq(first + [x]);
      Bounds.SubsetSize((set y | y in first + [x]), those);
      ids := SomeOrder(those, first + [x]);
    }
  }

  lemma {:induction false} PoolsInOrder(s: State, ids: seq<string>) returns (recs: seq<PoolRec>)
    requires forall i :: 0 <= i < |ids| ==> ids[i] in s.pools
    ensures |recs| == |ids| && forall i :: 0 <= i < |ids| ==> recs[i].id == ids[i] && ListedPool(recs[i], s)
  {
    if ids == [] {
      recs := [];
    } else {
      var p := ids[0];
      var members := SomeRecords(s.pools[p].members);
      var rest := PoolsInOrder(s, ids[1..]);
      recs := [PoolRec(p, s.pools[p].name, s.pools[p].monitor, members)] + rest;
    }
  }

  /** Any pools may be listed first. */
  lemma SomePools(s: State, first: seq<string>) returns (recs: seq<PoolRec>)
    requires Distinct(first) && forall x :: x in first ==> x in s.pools
    ensures ListsPools(recs, s) && |recs| >= |first| && forall i :: 0 <= i < |first| ==> recs[i].id == first[i]
  {
    hide ListedPool;
    var ids := SomeOrder(s.pools.Keys, first);
    recs := PoolsInOrder(s, ids);
    forall p | p in s.pools ensures HasPoolRec(recs, p) {
      var i :| 0 <= i < |ids| && ids[i] == p;
      assert recs[i].id == p;
    }
  }

  lemma SomeListeners(s: State) returns (recs: seq<ListenerRec>)
    requires ListenersBacked(s)
    ensures ListsListeners(recs, s)
  {
    var ids := SomeOrder(s.listeners.Keys, []);
    recs := seq(|ids|, i requires 0 <= i < |ids| =>
              ListenerRec(ids[i], s.listeners[ids[i]], s.pools[s.listeners[ids[i]].poolId].name));
    forall l | l in s.listeners ensures HasListenerRec(recs, l) {
      var i :| 0 <= i < |ids| && ids[i] == l;
      assert recs[i].id == l;
    }
  }
}

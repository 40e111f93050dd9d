/** The VPC service behind the SDK interface: it holds the load balancer, answers in any order it likes, may be
    in any state when looked at, may refuse any call, and may lose the reply of a call it carried out. A mutating
    call leaves the load balancer busy: for a number of looks it is not seen ready. */
module Sdk {
  import opened Text
  import opened Remote
  import opened Plan
  import opened PoolNames
  import opened Planner

  const ONLINE := "online"
  const ACTIVE := "active"

  datatype PoolRef = PoolRef(id: string, name: string)

  /** A load balancer object as a listing or a Get returned it. */
  datatype LoadBalancer = LoadBalancer(id: string, name: string, operatingStatus: string, provisioningStatus: string,
                                       profileFamily: string, isPublic: bool, subnets: seq<string>, pools: seq<PoolRef>)

  predicate IsReady(lb: LoadBalancer) {
    lb.operatingStatus == ONLINE && lb.provisioningStatus == ACTIVE
  }

  /** GetStatus */
  function GetStatus(lb: LoadBalancer): string {
    lb.operatingStatus + "/" + lb.provisioningStatus
  }

  /** The status is the text of a ready load balancer exactly for a ready load balancer. */
  lemma StatusOfReady(lb: LoadBalancer)
    ensures GetStatus(lb) == "online/active" <==> lb.operatingStatus == "online" && lb.provisioningStatus == "active"
    ensures GetStatus(lb) == "online/active" <==> IsReady(lb)
  {
    var status, o := GetStatus(lb), lb.operatingStatus;
    if status == "online/active" {
      assert status[|o|] == '/' && |o| == 6;
      assert o == status[..6] && lb.provisioningStatus == status[7..];
      assert "online/active"[..6] == "online" && "online/active"[7..] == "active";
    }
  }

  predicate IsNLB(lb: LoadBalancer) {
    EqualFold(lb.profileFamily, "network")
  }

  /** What the controller sees and does, as far as the order matters: a look that was answered with these two status
      texts, a look that was not answered, a wait found to have taken too long, a mutating call. */
  datatype Event = Seen(operating: string, provisioning: string) | Missed | Expired | Issued(update: Update)

  /** The look that shows this load balancer object. */
  function Sight(lb: LoadBalancer): Event {
    Seen(lb.operatingStatus, lb.provisioningStatus)
  }

  predicate SawReady(e: Event) {
    e == Seen("online", "active")
  }

  predicate SawBusy(e: Event) {
    e.Seen? && (e.operating != "online" || e.provisioning != "active")
  }

  lemma SightIs(lb: LoadBalancer)
    ensures IsReady(lb) <==> lb.operatingStatus == "online" && lb.provisioningStatus == "active"
    ensures IsReady(lb) <==> Sight(lb) == Seen("online", "active")
    ensures SawReady(Sight(lb)) <==> IsReady(lb)
    ensures SawBusy(Sight(lb)) <==> !IsReady(lb)
  {
  }

  /** Every mutating call comes right after an observation of online/active. */
  ghost predicate Disciplined(log: seq<Event>) {
    forall i :: 0 <= i < |log| && log[i].Issued? ==> i > 0 && log[i - 1] == Seen("online", "active")
  }

  /** The mutating calls, in order. */
  function Issues(log: seq<Event>): seq<Update> {
    if log == [] then []
    else
      var last := log[|log| - 1];
      Issues(log[..|log| - 1]) + (if last.Issued? then [last.update] else [])
  }

  lemma IssuesNext(log: seq<Event>, e: Event)
    ensures Issues(log + [e]) == Issues(log) + (if e.Issued? then [e.update] else [])
  {
    assert (log + [e])[..|log|] == log;
  }

  ghost predicate ListsRefs(refs: seq<PoolRef>, s: State) {
    && (forall i :: 0 <= i < |refs| ==> refs[i].id in s.pools && refs[i].name == Show(s.pools[refs[i].id].name))
    && (forall p :: p in s.pools ==> exists i :: 0 <= i < |refs| && refs[i].id == p)
  }

  lemma PoolIdsGrow(recs: seq<PoolRec>, rec: PoolRec)
    ensures forall id :: HasPoolRec(recs, id) || id == rec.id ==> HasPoolRec(recs + [rec], id)
  {
    forall id | HasPoolRec(recs, id) || id == rec.id ensures HasPoolRec(recs + [rec], id) {
      if id == rec.id {
        assert (recs + [rec])[|recs|].id == id;
      } else {
        var i :| 0 <= i < |recs| && recs[i].id == id;
        assert (recs + [rec])[i].id == id;
      }
    }
  }

  lemma ListenerIdsGrow(recs: seq<ListenerRec>, rec: ListenerRec)
    ensures forall id :: HasListenerRec(recs, id) || id == rec.id ==> HasListenerRec(recs + [rec], id)
  {
    forall id | HasListenerRec(recs, id) || id == rec.id ensures HasListenerRec(recs + [rec], id) {
      if id == rec.id {
        assert (recs + [rec])[|recs|].id == id;
      } else {
        var i :| 0 <= i < |recs| && recs[i].id == id;
        assert (recs + [rec])[i].id == id;
      }
    }
  }

  class VpcSdk {
    var remote: State
    /** The history of looks and mutating calls. */
    ghost var log: seq<Event>
    /** The number of looks that will still find the load balancer busy. */
    var busy: nat
    /** A reliable service answers every call and refuses nothing it could do, and its waits are not too long for
        the clock. */
    const reliable: bool
    /** After a mutating call the load balancer is found busy at least `least` times, and not more than `slack`
        times longer if the service is reliable. */
    const least: nat
    const slack: nat
    const id: string
    const name: string
    const profileFamily: string
    const isPublic: bool
    const subnets: seq<string>

    constructor (initial: State, busy: nat, reliable: bool, least: nat, slack: nat)
      ensures remote == initial && log == [] && this.busy == busy
      ensures this.reliable == reliable && this.least == least && this.slack == slack
    {
      remote, log, this.busy := initial, [], busy;
      this.reliable, this.least, this.slack := reliable, least, slack;
      id, name, profileFamily, isPublic, subnets := "", "", "", true, [];
    }

    /** The load balancer object is what the latest look showed. */
    ghost predicate Observed(lb: LoadBalancer)
      reads this
    {
      && log != [] && log[|log| - 1] == Sight(lb) && (IsReady(lb) ==> busy == 0)
      && ListsRefs(lb.pools, remote)
      && lb.isPublic == isPublic && lb.subnets == subnets && lb.profileFamily == profileFamily
    }

    /** The load balancer is as busy as a mutating call leaves it. */
    ghost predicate Busied()
      reads this
    {
      least <= busy && (reliable ==> busy <= least + slack)
    }

    /** A mutating call was made. Success means the guard held and the effect took place; failure means nothing
        happened, or the effect took place and the reply was lost. A reliable service that was not busy refuses
        nothing it could do. */
    ghost predicate CallMade(a: Update, c: Context, ok: bool, s: State, before: seq<Event>, wasBusy: nat)
      reads this
    {
      && log == before + [Issued(a)] && Busied()
      && (ok ==> Enabled(s, a) && remote == Apply(s, a, c))
      && (!ok ==> remote == s || (Enabled(s, a) && remote == Apply(s, a, c)))
      && (reliable && wasBusy == 0 && Enabled(s, a) ==> ok)
    }

    /** Whether a call that could be carried out is, and whether its reply arrives; a call is only sure to be carried
        out while the load balancer is not busy. */
    method Decide(enabled: bool) returns (carriedOut: bool, ok: bool)
      modifies this`busy
      ensures carriedOut ==> enabled
      ensures ok ==> carriedOut
      ensures reliable && old(busy) == 0 && enabled ==> ok
      ensures Busied()
    {
      var refused: bool, lost: bool, more: nat := *, *, *;
      carriedOut := enabled && ((reliable && busy == 0) || !refused);
      ok := carriedOut && ((reliable && busy == 0) || !lost);
      busy := least + if reliable && more > slack then slack else more;
    }

    // ----- reading -----

    method GetLoadBalancer() returns (r: Option<LoadBalancer>)
      modifies this`log, this`busy
      ensures r.None? ==> log == old(log) + [Missed] && busy == old(busy)
      ensures r.Some? ==> log == old(log) + [Sight(r.value)] && Observed(r.value)
      ensures r.Some? ==> busy == if old(busy) > 0 then old(busy) - 1 else 0
      ensures r.Some? && old(busy) > 0 ==> !IsReady(r.value)
      ensures reliable ==> r.Some? && (old(busy) == 0 ==> IsReady(r.value))
    {
      var fails: bool, operating: string, provisioning: string := *, *, *;
      if fails && !reliable {
        log := log + [Missed];
        return None;
      }
      if busy > 0 {
        busy, provisioning := busy - 1, "update_pending";
      } else if reliable {
        operating, provisioning := ONLINE, ACTIVE;
      }
      var refs := ListPoolRefs();
      var lb := LoadBalancer(id, name, operating, provisioning, profileFamily, isPublic, subnets, refs);
      log := log + [Sight(lb)];
      r := Some(lb);
    }

    /** Whether a wait has taken longer than it may. */
    method TakesTooLong() returns (late: bool)
      modifies this`log
      ensures log == if late then old(log) + [Expired] else old(log)
      ensures reliable ==> !late
    {
      late := *;
      late := late && !reliable;
      if late {
        log := log + [Expired];
      }
    }

    method ListPoolRefs() returns (refs: seq<PoolRef>)
      ensures ListsRefs(refs, remote)
    {
      hide Show;
      refs := [];
      var todo := remote.pools.Keys;
      while todo != {}
        invariant todo <= remote.pools.Keys
        invariant forall i :: 0 <= i < |refs| ==>
                  refs[i].id in remote.pools && refs[i].name == Show(remote.pools[refs[i].id].name)
        invariant forall p :: p in remote.pools && p !in todo ==> exists i :: 0 <= i < |refs| && refs[i].id == p
      {
        var p :| p in todo;
        ghost var before := refs;
        refs := refs + [PoolRef(p, Show(remote.pools[p].name))];
        forall q | q in remote.pools && q !in todo - {p} ensures exists i :: 0 <= i < |refs| && refs[i].id == q {
          if q == p {
            assert refs[|before|].id == q;
          } else {
            var i :| 0 <= i < |before| && before[i].id == q;
            assert refs[i].id == q;
          }
        }
        todo := todo - {p};
      }
    }

    method ListMembers(members: map<string, Member>) returns (recs: seq<MemberRec>)
      ensures ListsMembers(recs, members)
    {
      recs := [];
      var todo := members.Keys;
      while todo != {}
        invariant todo <= members.Keys
        invariant forall i, j :: 0 <= i < j < |recs| ==> recs[i].id != recs[j].id
        invariant forall i :: 0 <= i < |recs| ==>
                                recs[i].id in members && recs[i].id !in todo && members[recs[i].id] == recs[i].member
        invariant forall m :: m in members && m !in todo ==> HasRecord(recs, m)
      {
        var m :| m in todo;
        ghost var before := recs;
        recs := recs + [MemberRec(m, members[m])];
        forall q | q in members && q !in todo - {m} ensures HasRecord(recs, q) {
          if q == m {
            assert recs[|before|].id == q;
          } else {
            var i :| 0 <= i < |before| && before[i].id == q;
            assert recs[i].id == q;
          }
        }
        todo := todo - {m};
      }
    }

    /** ListLoadBalancerPools, with each pool's members listed too. */
    method ListLoadBalancerPools() returns (r: Option<seq<PoolRow>>, ghost recs: seq<PoolRec>)
      ensures r.Some? ==> ListsPools(recs, remote) && |r.value| == |recs|
                          && forall i :: 0 <= i < |recs| ==> r.value[i] == RowOf(recs[i])
      ensures reliable ==> r.Some?
    {
      hide RowOf, ListsMembers, HasPoolRec;
      recs := [];
      var fails: bool := *;
      if fails && !reliable {
        return None, [];
      }
      var rows: seq<PoolRow> := [];
      var todo := remote.pools.Keys;
      while todo != {}
        invariant todo <= remote.pools.Keys
        invariant |rows| == |recs| && forall i :: 0 <= i < |recs| ==> rows[i] == RowOf(recs[i])
        invariant forall i, j :: 0 <= i < j < |recs| ==> recs[i].id != recs[j].id
        invariant forall i :: 0 <= i < |recs| ==> ListedPool(recs[i], remote) && recs[i].id !in todo
        invariant forall p :: p in remote.pools && p !in todo ==> HasPoolRec(recs, p)
      {
        var p :| p in todo;
        var members := ListMembers(remote.pools[p].members);
        var rec := PoolRec(p, remote.pools[p].name, remote.pools[p].monitor, members);
        ghost var before := recs;
        rows := rows + [RowOf(rec)];
        recs := recs + [rec];
        PoolIdsGrow(before, rec);
        todo := todo - {p};
      }
      r := Some(rows);
    }

    method ListLoadBalancerListeners() returns (r: Option<seq<ListenerRow>>, ghost recs: seq<ListenerRec>)
      requires ListenersBacked(remote)
      ensures r.Some? ==> ListsListeners(recs, remote) && |r.value| == |recs|
                          && forall i :: 0 <= i < |recs| ==> r.value[i] == ListenerRowOf(recs[i])
      ensures reliable ==> r.Some?
    {
      hide ListenerRowOf, HasListenerRec;
      recs := [];
      var fails: bool := *;
      if fails && !reliable {
        return None, [];
      }
      var rows: seq<ListenerRow> := [];
      var todo := remote.listeners.Keys;
      while todo != {}
        invariant todo <= remote.listeners.Keys
        invariant |rows| == |recs| && forall i :: 0 <= i < |recs| ==> rows[i] == ListenerRowOf(recs[i])
        invariant forall i, j :: 0 <= i < j < |recs| ==> recs[i].id != recs[j].id
        invariant forall i :: 0 <= i < |recs| ==> ListedListener(recs[i], remote) && recs[i].id !in todo
        invariant forall l :: l in remote.listeners && l !in todo ==> HasListenerRec(recs, l)
      {
        var l :| l in todo;
        var rec := ListenerRec(l, remote.listeners[l], remote.pools[remote.listeners[l].poolId].name);
        ghost var before := recs;
        rows := rows + [ListenerRowOf(rec)];
        recs := recs + [rec];
        ListenerIdsGrow(before, rec);
        todo := todo - {l};
      }
      r := Some(rows);
    }

    // ----- writing -----

    /** The request builders parse the pool name first; None is their error return. */
    method ParseName(poolName: string, ghost n: PoolName) returns (r: Option<PoolName>)
      requires Parses(poolName) ==> poolName == Show(n)
      ensures r == if Parses(poolName) then Some(n) else None
    {
      var fields := ExtractFields(poolName);
      if fields.None? {
        return None;
      }
      ExtractShow(n);
      var protocol := if fields.value.protocol == "tcp" then TCP else UDP;
      r := Some(PoolName(protocol, fields.value.port, fields.value.nodePort));
    }

    /** A name that does not parse is refused before anything is sent. */
    ghost predicate Refused(poolName: string, ok: bool, s: State, before: seq<Event>)
      reads this
    {
      !Parses(poolName) ==> !ok && remote == s && log == before
    }

    method CreateLoadBalancerListener(poolName: string, poolID: string, c: Context, ghost n: PoolName)
      returns (ok: bool)
      requires Parses(poolName) ==> poolName == Show(n)
      requires EndpointsUnique(remote) && poolID in remote.pools && remote.pools[poolID].name == n
      modifies this
      ensures Refused(poolName, ok, old(remote), old(log))
      ensures Parses(poolName) ==> CallMade(CreateListener(n), c, ok, old(remote), old(log), old(busy))
    {
      hide Parses, Show;
      var parsed := ParseName(poolName, n);
      if parsed.None? {
        return false;
      }
      var name := parsed.value;
      var carriedOut;
      carriedOut, ok := Decide(forall l | l in remote.listeners :: remote.listeners[l].port != name.port);
      log := log + [Issued(CreateListener(name))];
      if carriedOut {
        var listener := Listener(name.protocol, name.port, poolID);
        remote := remote.(listeners := remote.listeners[FreshId(remote.next) := listener], next := remote.next + 1);
      }
    }

    method CreateLoadBalancerPool(poolName: string, c: Context, ghost n: PoolName) returns (ok: bool)
      requires Parses(poolName) ==> poolName == Show(n)
      modifies this
      ensures Refused(poolName, ok, old(remote), old(log))
      ensures Parses(poolName) ==> CallMade(CreatePool(n), c, ok, old(remote), old(log), old(busy))
    {
      hide Parses, Show;
      var parsed := ParseName(poolName, n);
      if parsed.None? {
        return false;
      }
      var name := parsed.value;
      var carriedOut;
      carriedOut, ok := Decide(forall p | p in remote.pools :: remote.pools[p].name != name);
      log := log + [Issued(CreatePool(name))];
      if carriedOut {
        var members := GenMembers(c.nodes, name.nodePort, remote.next + 1);
        var pool := Pool(name, GenMonitor(name.nodePort, c.healthPort), members);
        remote := WithNewPool(remote, pool, remote.next + 1 + |c.nodes|);
      }
    }

    method CreateLoadBalancerPoolMember(poolName: string, poolID: string, nodeID: string, c: Context, ghost n: PoolName)
      returns (ok: bool)
      requires Parses(poolName) ==> poolName == Show(n)
      modifies this
      ensures Refused(poolName, ok, old(remote), old(log))
      ensures Parses(poolName) ==> CallMade(CreateMember(n, poolID, nodeID), c, ok, old(remote), old(log), old(busy))
    {
      hide Parses, Show;
      var parsed := ParseName(poolName, n);
      if parsed.None? {
        return false;
      }
      var name := parsed.value;
      var member := Member(nodeID, name.nodePort);
      var carriedOut;
      carriedOut, ok := Decide(poolID in remote.pools
                               && forall m | m in remote.pools[poolID].members ::
                                    remote.pools[poolID].members[m] != member);
      log := log + [Issued(CreateMember(name, poolID, nodeID))];
      if carriedOut {
        remote :=
          WithMembers(remote, poolID, remote.pools[poolID].members[FreshId(remote.next) := member], remote.next + 1);
      }
    }

    method DeleteLoadBalancerListener(listenerID: string, c: Context, ghost n: PoolName) returns (ok: bool)
      modifies this
      ensures CallMade(DeleteListener(n, listenerID), c, ok, old(remote), old(log), old(busy))
    {
      var carriedOut;
      carriedOut, ok := Decide(listenerID in remote.listeners);
      log := log + [Issued(DeleteListener(n, listenerID))];
      if carriedOut {
        remote := remote.(listeners := remote.listeners - {listenerID});
      }
    }

    method DeleteLoadBalancerPool(poolID: string, c: Context, ghost n: PoolName) returns (ok: bool)
      modifies this
      ensures CallMade(DeletePool(n, poolID), c, ok, old(remote), old(log), old(busy))
    {
      var carriedOut;
      carriedOut, ok :=
        Decide(poolID in remote.pools && forall l | l in remote.listeners :: remote.listeners[l].poolId != poolID);
      log := log + [Issued(DeletePool(n, poolID))];
      if carriedOut {
        remote := remote.(pools := remote.pools - {poolID});
      }
    }

    method DeleteLoadBalancerPoolMember(poolID: string, memberID: string, c: Context, ghost n: PoolName,
                                        ghost target: string)
      returns (ok: bool)
      modifies this
      ensures CallMade(DeleteMember(n, poolID, memberID, target), c, ok, old(remote), old(log), old(busy))
    {
      var carriedOut;
      carriedOut, ok := Decide(poolID in remote.pools && memberID in remote.pools[poolID].members);
      log := log + [Issued(DeleteMember(n, poolID, memberID, target))];
      if carriedOut {
        remote := WithMembers(remote, poolID, remote.pools[poolID].members - {memberID}, remote.next);
      }
    }

    method ReplaceLoadBalancerPoolMembers(poolName: string, poolID: string, c: Context, ghost n: PoolName)
      returns (ok: bool)
      requires Parses(poolName) ==> poolName == Show(n)
      modifies this
      ensures Refused(poolName, ok, old(remote), old(log))
      ensures Parses(poolName) ==> CallMade(ReplaceMembers(n, poolID), c, ok, old(remote), old(log), old(busy))
    {
      hide Parses, Show;
      var parsed := ParseName(poolName, n);
      if parsed.None? {
        return false;
      }
      var name := parsed.value;
      var carriedOut;
      carriedOut, ok := Decide(poolID in remote.pools);
      log := log + [Issued(ReplaceMembers(name, poolID))];
      if carriedOut {
        remote := WithMembers(remote, poolID, GenMembers(c.nodes, name.nodePort, remote.next), remote.next + |c.nodes|);
      }
    }

    method UpdateLoadBalancerPool(newPoolName: string, existingPool: PoolRow, c: Context, ghost n: PoolName)
      returns (ok: bool)
      requires Parses(newPoolName) ==> newPoolName == Show(n)
      modifies this
      ensures Refused(newPoolName, ok, old(remote), old(log))
      ensures Parses(newPoolName) ==> CallMade(UpdatePool(n, existingPool.id), c, ok, old(remote), old(log), old(busy))
    {
      hide Parses, Show;
      var parsed := ParseName(newPoolName, n);
      if parsed.None? {
        return false;
      }
      var name, p := parsed.value, existingPool.id;
      var carriedOut;
      carriedOut, ok :=
        Decide(p in remote.pools && forall q | q in remote.pools :: q == p || remote.pools[q].name != name);
      log := log + [Issued(UpdatePool(name, p))];
      if carriedOut {
        var monitor := PatchMonitor(remote.pools[p].monitor, name.nodePort, c.healthPort);
        remote := remote.(pools := remote.pools[p := Pool(name, monitor, remote.pools[p].members)]);
      }
    }
  }
}

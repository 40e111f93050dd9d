/** The planner as it is written: loops that append lines of text to the list of required updates. Each
    method is proved to append exactly the lines of the updates that module Plan defines for its step. */
module Planner {
  import opened Text
  import opened Remote
  import opened Plan
  import opened PoolNames
  import opened Codec

  datatype KubePort = KubePort(protocol: string, port: int, nodePort: int)

  datatype PoolRow = PoolRow(id: string, name: string, monitor: Monitor, members: seq<MemberRec>)

  datatype ListenerRow = ListenerRow(id: string, protocol: string, port: int, poolName: string)

  datatype Planned = Ok(updates: seq<string>) | Failed

  function KubeOf(port: ServicePort): KubePort {
    KubePort("TCP", port.port, port.nodePort)
  }

  function KubesOf(ports: seq<ServicePort>): (kubes: seq<KubePort>)
    ensures |kubes| == |ports| && forall i :: 0 <= i < |ports| ==> kubes[i] == KubeOf(ports[i])
  {
    seq(|ports|, i requires 0 <= i < |ports| => KubeOf(ports[i]))
  }

  function RowOf(rec: PoolRec): PoolRow {
    PoolRow(rec.id, Show(rec.name), rec.monitor, rec.members)
  }

  function ListenerRowOf(rec: ListenerRec): ListenerRow {
    ListenerRow(rec.id, ProtocolText(rec.listener.protocol), rec.listener.port, Show(rec.poolName))
  }

  /** A listed pool as the planner holds it: under its name, or renamed to the marker if no port asks for it. */
  function RowDuring(job: Job, rec: PoolRec): PoolRow {
    if PortOf(job, rec.name).None? then RowOf(rec).(name := POOL_TO_BE_DELETED) else RowOf(rec)
  }

  predicate IsServicePortEqualListener(port: KubePort, listener: ListenerRow) {
    listener.port == port.port && EqualFold(listener.protocol, port.protocol)
  }

  predicate IsServicePortEqualPoolName(port: KubePort, name: NameFields) {
    name.port == port.port && EqualFold(name.protocol, port.protocol)
  }

  lemma EqualFoldTCP(p: Protocol)
    ensures EqualFold(ProtocolText(p), "TCP") <==> p == TCP
  {
    ProtocolTextFacts();
  }

  lemma EqualsListener(port: ServicePort, rec: ListenerRec)
    ensures IsServicePortEqualListener(KubeOf(port), ListenerRowOf(rec))
            <==> Matches(port, rec.listener.protocol, rec.listener.port)
  {
    EqualFoldTCP(rec.listener.protocol);
  }

  lemma EqualsPoolName(port: ServicePort, name: PoolName)
    ensures ExtractFields(Show(name)).Some?
    ensures IsServicePortEqualPoolName(KubeOf(port), ExtractFields(Show(name)).value) <==>
              Matches(port, name.protocol, name.port)
    ensures ExtractFields(Show(name)).value.nodePort == name.nodePort
  {
    ExtractShow(name);
    EqualFoldTCP(name.protocol);
  }

  lemma ShowsGenName(port: ServicePort)
    ensures GenText("TCP", port.port, port.nodePort) == Show(GenName(port))
  {
    ProtocolTextFacts();
  }

  /** The first match of a port list decides FindPort. */
  lemma {:induction false} FindPortAt(ports: seq<ServicePort>, protocol: Protocol, number: Port, i: nat)
    requires i < |ports| && Matches(ports[i], protocol, number)
    requires forall j :: 0 <= j < i ==> !Matches(ports[j], protocol, number)
    ensures FindPort(ports, protocol, number) == Some(ports[i])
  {
    if i > 0 {
      FindPortAt(ports[1..], protocol, number, i - 1);
    }
  }

  // ----- step 1 -----

  method CheckListenerForExtPortDeletedFromService(updates: seq<string>, listener: ListenerRow, ports: seq<KubePort>,
                                                   ghost job: Job, ghost rec: ListenerRec)
    returns (r: seq<string>)
    requires listener == ListenerRowOf(rec) && ports == KubesOf(job.service.ports)
    ensures r == updates + Texts(ListenerDrop(job, rec))
  {
    hide IsServicePortEqualListener, Line;
    var i := 0;
    while i < |ports|
      invariant 0 <= i <= |ports|
      invariant forall j :: 0 <= j < i ==> !Matches(job.service.ports[j], rec.listener.protocol, rec.listener.port)
    {
      EqualsListener(job.service.ports[i], rec);
      if IsServicePortEqualListener(ports[i], listener) {
        FindPortAt(job.service.ports, rec.listener.protocol, rec.listener.port, i);
        return updates;
      }
      i := i + 1;
    }
    r := updates + [Line(DeleteListener(listener.poolName, listener.id))];
  }

  // ----- step 2 -----

  method CheckPoolForExtPortDeletedFromService(updates: seq<string>, pools: array<PoolRow>, k: nat,
                                               ports: seq<KubePort>, ghost job: Job, ghost rec: Option<PoolRec>)
    returns (r: Planned)
    requires k < pools.Length && ports == KubesOf(job.service.ports)
    requires rec.Some? ==> pools[k] == RowOf(rec.value)
    modifies pools
    ensures forall i :: 0 <= i < pools.Length && i != k ==> pools[i] == old(pools[i])
    ensures r.Failed? <==> ExtractFields(old(pools[k].name)).None?
    ensures pools[k] == old(pools[k]) || pools[k] == old(pools[k]).(name := POOL_TO_BE_DELETED)
    ensures rec.Some? ==> pools[k] == RowDuring(job, rec.value) && r == Ok(updates + Texts(Chunk(job, 0, rec.value)))
  {
    hide IsServicePortEqualPoolName, ExtractFields, Line, Show;
    var pool := pools[k];
    var fields := ExtractFields(pool.name);
    if rec.Some? { ExtractShow(rec.value.name); }
    if fields.None? {
      return Failed;
    }
    var i := 0;
    while i < |ports|
      invariant 0 <= i <= |ports| && pools[..] == old(pools[..])
      invariant rec.Some? ==>
                forall j :: 0 <= j < i ==> !Matches(job.service.ports[j], rec.value.name.protocol, rec.value.name.port)
    {
      if rec.Some? { EqualsPoolName(job.service.ports[i], rec.value.name); }
      if IsServicePortEqualPoolName(ports[i], fields.value) {
        if rec.Some? { FindPortAt(job.service.ports, rec.value.name.protocol, rec.value.name.port, i); }
        return Ok(updates);
      }
      i := i + 1;
    }
    var line := Line(DeletePool(pool.name, pool.id));
    pools[k] := pool.(name := POOL_TO_BE_DELETED);
    r := Ok(updates + [line]);
  }

  // ----- steps 3 and 5: members -----

  /** The loop both member checks start with: has the node port of a matching service port changed? */
  method NodePortChanged(fields: NameFields, ports: seq<KubePort>, ghost job: Job, ghost rec: Option<PoolRec>)
    returns (changed: bool)
    requires ports == KubesOf(job.service.ports) && ServiceOk(job.service)
    requires rec.Some? ==> ExtractFields(Show(rec.value.name)) == Some(fields) && PortOf(job, rec.value.name).Some?
    ensures rec.Some? ==> (changed <==> !Steady(job, rec.value))
  {
    hide IsServicePortEqualPoolName, ExtractFields, Show;
    changed := false;
    var i := 0;
    while i < |ports|
      invariant 0 <= i <= |ports|
      invariant rec.Some? ==>
                  forall j :: 0 <= j < i && Matches(job.service.ports[j], rec.value.name.protocol, rec.value.name.port)
                              ==> job.service.ports[j].nodePort == rec.value.name.nodePort
    {
      if rec.Some? { EqualsPoolName(job.service.ports[i], rec.value.name); }
      if IsServicePortEqualPoolName(ports[i], fields) {
        if fields.nodePort != ports[i].nodePort {
          if rec.Some? {
            assert job.service.ports[i] == PortOf(job, rec.value.name).value;
          }
          return true;
        }
      }
      i := i + 1;
    }
  }

  /** What the planner knows of a pool in steps 3 to 5. */
  ghost predicate Tracked(job: Job, rec: Option<PoolRec>, pool: PoolRow) {
    && ServiceOk(job.service) && NodesOk(job.nodes)
    && (rec.Some? ==> pool == RowDuring(job, rec.value)
                      && forall i :: 0 <= i < |rec.value.members| ==> Token(rec.value.members[i].member.target))
  }

  method CheckPoolForNodesToDelete(updates: seq<string>, pool: PoolRow, ports: seq<KubePort>, nodes: seq<string>,
                                   ghost job: Job, ghost rec: Option<PoolRec>)
    returns (r: Planned)
    requires ports == KubesOf(job.service.ports) && nodes == job.nodes && Tracked(job, rec, pool)
    ensures r.Failed? <==> pool.name != POOL_TO_BE_DELETED && ExtractFields(pool.name).None?
    ensures rec.Some? ==> r == Ok(updates + Texts(Drops(job, rec.value)))
  {
    hide ExtractFields, Line, Show, Padded, Contains, Texts, MemberDrops;
    if rec.Some? { ExtractShow(rec.value.name); }
    if pool.name == POOL_TO_BE_DELETED {
      return Ok(updates);
    }
    var fields := ExtractFields(pool.name);
    if fields.None? {
      return Failed;
    }
    var changed := NodePortChanged(fields.value, ports, job, rec);
    if changed {
      return Ok(updates);
    }
    if rec.Some? { LoopsEnd(rec.value.name, pool.id, pool.members, nodes); }
    var nodeString := Padded(nodes);
    var out := updates;
    var i := 0;
    while i < |pool.members|
      invariant 0 <= i <= |pool.members|
      invariant rec.Some? ==>
                  out + Texts(MemberDrops(rec.value.name, pool.id, pool.members[i..], nodes))
                  == updates + Texts(MemberDrops(rec.value.name, pool.id, pool.members, nodes))
    {
      var m := pool.members[i];
      var found := ContainsText(nodeString, " " + m.member.target + " ");
      if rec.Some? {
        PaddedContains(nodes, m.member.target);
        DropsStep(rec.value.name, pool.id, pool.members, nodes, i);
      }
      if !found || fields.value.nodePort != m.member.port {
        out := out + [Line(DeleteMember(pool.name, pool.id, m.id, m.member.target))];
      }
      i := i + 1;
    }
    r := Ok(out);
  }

  lemma LoopsEnd(name: PoolName, pool: string, members: seq<MemberRec>, nodes: seq<string>)
    ensures Texts(MemberDrops(name, pool, members[|members|..], nodes)) == []
    ensures Texts(MemberAdds(name, pool, members, nodes[|nodes|..])) == []
    ensures members[0..] == members && nodes[0..] == nodes
  {
  }

  /** One round of the loop over the members, in lines of text. */
  lemma DropsStep(name: PoolName, pool: string, members: seq<MemberRec>, nodes: seq<string>, i: nat)
    requires i < |members|
    ensures Texts(MemberDrops(name, pool, members[i..], nodes)) ==
            (if GoodMember(members[i].member, nodes, name.nodePort) then []
             else [Line(DeleteMember(Show(name), pool, members[i].id, members[i].member.target))])
            + Texts(MemberDrops(name, pool, members[i + 1..], nodes))
  {
    hide Line, Show;
    assert members[i..][0] == members[i] && members[i..][1..] == members[i + 1..];
    TextsConcat([DeleteMember(name, pool, members[i].id, members[i].member.target)],
                MemberDrops(name, pool, members[i + 1..], nodes));
  }

  /** One round of the loop over the nodes, in lines of text. */
  lemma AddsStep(name: PoolName, pool: string, members: seq<MemberRec>, nodes: seq<string>, i: nat)
    requires i < |nodes|
    ensures Texts(MemberAdds(name, pool, members, nodes[i..])) ==
            (if HasMember(members, Member(nodes[i], name.nodePort)) then []
             else [Line(CreateMember(Show(name), pool, nodes[i]))])
            + Texts(MemberAdds(name, pool, members, nodes[i + 1..]))
  {
    hide Line, Show, HasMember;
    assert nodes[i..][0] == nodes[i] && nodes[i..][1..] == nodes[i + 1..];
    TextsConcat([CreateMember(name, pool, nodes[i])], MemberAdds(name, pool, members, nodes[i + 1..]));
  }

  method CheckPoolForNodesToAdd(updates: seq<string>, pool: PoolRow, ports: seq<KubePort>, nodes: seq<string>,
                                ghost job: Job, ghost rec: Option<PoolRec>)
    returns (r: Planned)
    requires ports == KubesOf(job.service.ports) && nodes == job.nodes && Tracked(job, rec, pool)
    ensures r.Failed? <==> pool.name != POOL_TO_BE_DELETED && ExtractFields(pool.name).None?
    ensures rec.Some? ==> r == Ok(updates + Texts(Adds(job, rec.value)))
  {
    hide ExtractFields, Line, Show, Texts, MemberAdds;
    if rec.Some? { ExtractShow(rec.value.name); }
    if pool.name == POOL_TO_BE_DELETED {
      return Ok(updates);
    }
    var fields := ExtractFields(pool.name);
    if fields.None? {
      return Failed;
    }
    var changed := NodePortChanged(fields.value, ports, job, rec);
    if changed {
      return Ok(updates);
    }
    if rec.Some? { LoopsEnd(rec.value.name, pool.id, pool.members, nodes); }
    var out := updates;
    var i := 0;
    while i < |nodes|
      invariant 0 <= i <= |nodes|
      invariant rec.Some? ==>
                  out + Texts(MemberAdds(rec.value.name, pool.id, pool.members, nodes[i..]))
                  == updates + Texts(MemberAdds(rec.value.name, pool.id, pool.members, nodes))
    {
      var foundMember := false;
      var j := 0;
      while j < |pool.members|
        invariant 0 <= j <= |pool.members|
        invariant !foundMember ==>
                  forall k :: 0 <= k < j ==> pool.members[k].member != Member(nodes[i], fields.value.nodePort)
        invariant foundMember ==> HasMember(pool.members, Member(nodes[i], fields.value.nodePort))
      {
        if nodes[i] == pool.members[j].member.target && fields.value.nodePort == pool.members[j].member.port {
          assert pool.members[j].member == Member(nodes[i], fields.value.nodePort);
          foundMember := true;
          break;
        }
        j := j + 1;
      }
      if rec.Some? {
        AddsStep(rec.value.name, pool.id, pool.members, nodes, i);
      }
      if !foundMember {
        out := out + [Line(CreateMember(pool.name, pool.id, nodes[i]))];
      }
      i := i + 1;
    }
    r := Ok(out);
  }

  // ----- step 4 -----

  method CheckPoolForServiceChanges(updates: seq<string>, pool: PoolRow, ports: seq<KubePort>, policy: Policy,
                                    healthCheckNodePort: int, ghost job: Job, ghost rec: Option<PoolRec>)
    returns (r: Planned)
    requires ports == KubesOf(job.service.ports) && Tracked(job, rec, pool)
    requires policy == job.service.policy && healthCheckNodePort == job.service.healthCheckNodePort
    ensures r.Failed? <==> pool.name != POOL_TO_BE_DELETED && ExtractFields(pool.name).None?
    ensures rec.Some? ==> r == Ok(updates + Texts(PoolChanges(job, rec.value)))
  {
    hide ExtractFields, Line, Show, IsServicePortEqualPoolName, GenText;
    if rec.Some? { ExtractShow(rec.value.name); }
    if pool.name == POOL_TO_BE_DELETED {
      return Ok(updates);
    }
    var fields := ExtractFields(pool.name);
    if fields.None? {
      return Failed;
    }
    var i := 0;
    while i < |ports|
      invariant 0 <= i <= |ports|
      invariant rec.Some? ==>
                forall j :: 0 <= j < i ==> !Matches(job.service.ports[j], rec.value.name.protocol, rec.value.name.port)
    {
      var port := ports[i];
      if rec.Some? { EqualsPoolName(job.service.ports[i], rec.value.name); }
      if !IsServicePortEqualPoolName(port, fields.value) {
        i := i + 1;
        continue;
      }
      var poolName := GenText(port.protocol, port.port, port.nodePort);
      if rec.Some? {
        FindPortAt(job.service.ports, rec.value.name.protocol, rec.value.name.port, i);
        ShowsGenName(job.service.ports[i]);
        if Show(GenName(job.service.ports[i])) == Show(rec.value.name) {
          ShowInjective(GenName(job.service.ports[i]), rec.value.name);
        }
      }
      var updatePool, replacePoolMembers := false, false;
      if poolName != pool.name {
        updatePool := true;
        replacePoolMembers := true;
      } else if policy == Local && healthCheckNodePort > 0
                && (pool.monitor.check != HttpCheck || pool.monitor.port != healthCheckNodePort) {
        updatePool := true;
      } else if policy == Cluster && (pool.monitor.check != TcpCheck || pool.monitor.port != port.nodePort) {
        updatePool := true;
      }
      var out := updates;
      if updatePool {
        out := out + [Line(UpdatePool(poolName, pool.id))];
      }
      if replacePoolMembers {
        out := out + [Line(ReplaceMembers(poolName, pool.id))];
      }
      return Ok(out);
    }
    r := Ok(updates);
  }

  // ----- steps 6 and 7 -----

  method CheckPoolsForExtPortAddedToService(updates: seq<string>, pools: seq<PoolRow>, port: KubePort,
                                            ghost job: Job, ghost known: bool, ghost p: ServicePort)
    returns (r: Planned)
    requires port == KubeOf(p)
    requires known ==> |pools| == |job.pools| && p in job.service.ports
                       && forall i :: 0 <= i < |pools| ==> pools[i] == RowDuring(job, job.pools[i])
    ensures r.Failed? ==>
              exists i :: 0 <= i < |pools| && pools[i].name != POOL_TO_BE_DELETED && ExtractFields(pools[i].name).None?
    ensures known ==> r == Ok(updates + Texts(if PoolListed(job.pools, p) then [] else [CreatePool(GenName(p))]))
  {
    hide ExtractFields, Line, Show, IsServicePortEqualPoolName, GenText;
    var poolName := GenText(port.protocol, port.port, port.nodePort);
    ShowsGenName(p);
    var i := 0;
    while i < |pools|
      invariant 0 <= i <= |pools|
      invariant known ==> forall j :: 0 <= j < i ==> !Matches(p, job.pools[j].name.protocol, job.pools[j].name.port)
    {
      if known { SamePoolPort(job, p, job.pools[i]); }
      if pools[i].name == poolName {
        return Ok(updates);
      }
      if pools[i].name == POOL_TO_BE_DELETED {
        i := i + 1;
        continue;
      }
      var fields := ExtractFields(pools[i].name);
      if fields.None? {
        return Failed;
      }
      if IsServicePortEqualPoolName(port, fields.value) {
        return Ok(updates);
      }
      i := i + 1;
    }
    r := Ok(updates + [Line(CreatePool(poolName))]);
  }

  /** What one round of the loop over the pools finds out about a listed pool. */
  lemma SamePoolPort(job: Job, p: ServicePort, rec: PoolRec)
    requires p in job.service.ports
    ensures var row := RowDuring(job, rec);
            && (row.name == Show(GenName(p)) ==> Matches(p, rec.name.protocol, rec.name.port))
            && (row.name == POOL_TO_BE_DELETED ==> !Matches(p, rec.name.protocol, rec.name.port))
            && (row.name != POOL_TO_BE_DELETED ==>
                  && ExtractFields(row.name).Some?
                  && (IsServicePortEqualPoolName(KubeOf(p), ExtractFields(row.name).value) <==>
                       Matches(p, rec.name.protocol, rec.name.port)))
  {
    hide ExtractFields, Show, IsServicePortEqualPoolName;
    ExtractShow(rec.name);
    ExtractShow(GenName(p));
    EqualsPoolName(p, rec.name);
    if Show(rec.name) == Show(GenName(p)) {
      ShowInjective(rec.name, GenName(p));
    }
  }

  method CheckListenersForExtPortAddedToService(updates: seq<string>, listeners: seq<ListenerRow>, port: KubePort,
                                                ghost job: Job, ghost p: ServicePort)
    returns (r: seq<string>)
    requires port == KubeOf(p) && |listeners| == |job.listeners|
    requires forall i :: 0 <= i < |listeners| ==> listeners[i] == ListenerRowOf(job.listeners[i])
    ensures r == updates + Texts(if ListenerListed(job.listeners, p) then [] else [CreateListener(GenName(p))])
  {
    hide IsServicePortEqualListener, Line, Show, GenText;
    var i := 0;
    while i < |listeners|
      invariant 0 <= i <= |listeners|
      invariant forall j :: 0 <= j < i ==>
                !Matches(p, job.listeners[j].listener.protocol, job.listeners[j].listener.port)
    {
      EqualsListener(p, job.listeners[i]);
      if IsServicePortEqualListener(port, listeners[i]) {
        return updates;
      }
      i := i + 1;
    }
    ShowsGenName(p);
    r := updates + [Line(CreateListener(GenText(port.protocol, port.port, port.nodePort)))];
  }

  // ----- the loops of the steps -----

  lemma {:induction false} ChunksConcat(job: Job, stage: nat, a: seq<PoolRec>, b: seq<PoolRec>)
    ensures Chunks(job, stage, a + b) == Chunks(job, stage, a) + Chunks(job, stage, b)
    decreases |a|
  {
    hide Chunk;
    if a == [] {
      assert a + b == b;
    } else {
      assert (a + b)[0] == a[0] && (a + b)[1..] == a[1..] + b;
      ChunksConcat(job, stage, a[1..], b);
    }
  }

  lemma ChunksSnoc(updates: seq<string>, job: Job, stage: nat, recs: seq<PoolRec>, i: nat)
    requires i < |recs|
    ensures updates + Texts(Chunks(job, stage, recs[..i + 1]))
            == updates + Texts(Chunks(job, stage, recs[..i])) + Texts(Chunk(job, stage, recs[i]))
  {
    hide Chunk, Texts;
    assert recs[..i + 1] == recs[..i] + [recs[i]];
    ChunksConcat(job, stage, recs[..i], [recs[i]]);
    ChunksOne(job, stage, recs[i]);
    TextsConcat(Chunks(job, stage, recs[..i]), Chunk(job, stage, recs[i]));
    Regroup(updates, Texts(Chunks(job, stage, recs[..i])), Texts(Chunk(job, stage, recs[i])), []);
  }

  lemma ChunksOne(job: Job, stage: nat, rec: PoolRec)
    ensures Chunks(job, stage, [rec]) == Chunk(job, stage, rec)
  {
    hide Chunk;
    assert [rec][1..] == [];
  }

  lemma {:induction false} ListenerDropsConcat(job: Job, a: seq<ListenerRec>, b: seq<ListenerRec>)
    ensures ListenerDrops(job, a + b) == ListenerDrops(job, a) + ListenerDrops(job, b)
    decreases |a|
  {
    hide ListenerDrop;
    if a == [] {
      assert a + b == b;
    } else {
      assert (a + b)[0] == a[0] && (a + b)[1..] == a[1..] + b;
      ListenerDropsConcat(job, a[1..], b);
    }
  }

  lemma ListenerDropsSnoc(job: Job, recs: seq<ListenerRec>, i: nat)
    requires i < |recs|
    ensures Texts(ListenerDrops(job, recs[..i + 1])) ==
              Texts(ListenerDrops(job, recs[..i])) + Texts(ListenerDrop(job, recs[i]))
  {
    hide ListenerDrop, Line;
    assert recs[..i + 1] == recs[..i] + [recs[i]];
    ListenerDropsConcat(job, recs[..i], [recs[i]]);
    assert ListenerDrops(job, [recs[i]]) == ListenerDrop(job, recs[i]) + ListenerDrops(job, [recs[i]][1..]);
    TextsConcat(ListenerDrops(job, recs[..i]), ListenerDrop(job, recs[i]));
  }

  lemma {:induction false} CreatesConcat(job: Job, a: seq<ServicePort>, b: seq<ServicePort>)
    ensures Creates(job, a + b) == Creates(job, a) + Creates(job, b)
    decreases |a|
  {
    hide PortCreates;
    if a == [] {
      assert a + b == b;
    } else {
      assert (a + b)[0] == a[0] && (a + b)[1..] == a[1..] + b;
      CreatesConcat(job, a[1..], b);
    }
  }

  lemma CreatesSnoc(updates: seq<string>, job: Job, ports: seq<ServicePort>, i: nat)
    requires i < |ports|
    ensures updates + Texts(Creates(job, ports[..i + 1])) == updates + Texts(Creates(job, ports[..i]))
            + Texts(if PoolListed(job.pools, ports[i]) then [] else [CreatePool(GenName(ports[i]))])
            + Texts(if ListenerListed(job.listeners, ports[i]) then [] else [CreateListener(GenName(ports[i]))])
  {
    hide Texts, PoolListed, ListenerListed;
    var before := Creates(job, ports[..i]);
    var a := if PoolListed(job.pools, ports[i]) then [] else [CreatePool(GenName(ports[i]))];
    var b := if ListenerListed(job.listeners, ports[i]) then [] else [CreateListener(GenName(ports[i]))];
    assert ports[..i + 1] == ports[..i] + [ports[i]];
    CreatesConcat(job, ports[..i], [ports[i]]);
    CreatesOne(job, ports[i]);
    TextsConcat(a, b);
    TextsConcat(before, a + b);
    Regroup(updates, Texts(before), Texts(a), Texts(b));
  }

  lemma CreatesOne(job: Job, port: ServicePort)
    ensures Creates(job, [port]) == PortCreates(job, port)
  {
    hide PortCreates;
    assert [port][1..] == [];
  }

  lemma Regroup<T>(u: seq<T>, x: seq<T>, a: seq<T>, b: seq<T>)
    ensures u + (x + (a + b)) == u + x + a + b
    ensures u + (x + a) == u + x + a
  {
  }

  predicate Parses(name: string) {
    ExtractFields(name).Some?
  }

  lemma PoolLoopEnds(job: Job, stage: nat)
    ensures Texts(Chunks(job, stage, job.pools[..0])) == [] && forall u: seq<string> :: u + [] == u
    ensures job.pools[..|job.pools|] == job.pools
  {
  }

  lemma PortLoopEnds(job: Job)
    ensures Texts(Creates(job, job.service.ports[..0])) == [] && forall u: seq<string> :: u + [] == u
    ensures job.service.ports[..|job.service.ports|] == job.service.ports
  {
  }

  /** Step 1 over all listeners. */
  method DropListeners(listeners: seq<ListenerRow>, ports: seq<KubePort>, ghost job: Job) returns (updates: seq<string>)
    requires ports == KubesOf(job.service.ports) && |listeners| == |job.listeners|
    requires forall i :: 0 <= i < |listeners| ==> listeners[i] == ListenerRowOf(job.listeners[i])
    ensures updates == Texts(ListenerDrops(job, job.listeners))
  {
    hide Texts, ListenerDrop;
    updates := [];
    assert job.listeners[..0] == [];
    assert Texts([]) == [];
    var i := 0;
    while i < |listeners|
      invariant 0 <= i <= |listeners|
      invariant updates == Texts(ListenerDrops(job, job.listeners[..i]))
    {
      ListenerDropsSnoc(job, job.listeners, i);
      updates := CheckListenerForExtPortDeletedFromService(updates, listeners[i], ports, job, job.listeners[i]);
      i := i + 1;
    }
    assert job.listeners[..i] == job.listeners;
  }

  /** Step 2 over all pools; afterwards every pool name parses or is the marker. */
  method DropPools(updates: seq<string>, pools: array<PoolRow>, ports: seq<KubePort>, ghost job: Job, ghost known: bool)
    returns (r: Planned)
    requires ports == KubesOf(job.service.ports)
    requires known ==>
              pools.Length == |job.pools| && forall i :: 0 <= i < pools.Length ==> pools[i] == RowOf(job.pools[i])
    modifies pools
    ensures r.Failed? <==> exists i :: 0 <= i < pools.Length && !Parses(old(pools[i].name))
    ensures r.Ok? ==> forall i :: 0 <= i < pools.Length ==> pools[i].name == POOL_TO_BE_DELETED || Parses(pools[i].name)
    ensures forall i :: 0 <= i < pools.Length ==> pools[i].id == old(pools[i].id)
    ensures known ==> r == Ok(updates + Texts(Chunks(job, 0, job.pools)))
                      && forall i :: 0 <= i < pools.Length ==> pools[i] == RowDuring(job, job.pools[i])
  {
    hide Texts, Chunk, Chunks, RowOf, RowDuring, ExtractFields, KubesOf;
    ghost var was := pools[..];
    var out := updates;
    PoolLoopEnds(job, 0);
    var i := 0;
    while i < pools.Length
      invariant 0 <= i <= pools.Length
      invariant forall j :: 0 <= j < i ==> Parses(was[j].name)
      invariant forall j :: 0 <= j < i ==> pools[j] == was[j] || pools[j] == was[j].(name := POOL_TO_BE_DELETED)
      invariant forall j :: i <= j < pools.Length ==> pools[j] == was[j]
      invariant known ==> out == updates + Texts(Chunks(job, 0, job.pools[..i]))
      invariant known ==> forall j :: 0 <= j < i ==> pools[j] == RowDuring(job, job.pools[j])
    {
      if known { ChunksSnoc(updates, job, 0, job.pools, i); }
      var planned := CheckPoolForExtPortDeletedFromService(out, pools, i, ports, job,
                                                           if known then Some(job.pools[i]) else None);
      if planned.Failed? {
        assert !Parses(was[i].name);
        return Failed;
      }
      out := planned.updates;
      i := i + 1;
    }
    r := Ok(out);
  }

  ghost predicate AllTracked(job: Job, known: bool, pools: seq<PoolRow>) {
    && ServiceOk(job.service) && NodesOk(job.nodes) && job.merged == {}
    && (known ==> |pools| == |job.pools| && forall i :: 0 <= i < |pools| ==> Tracked(job, Some(job.pools[i]), pools[i]))
  }

  /** Steps 3, 4 and 5 for one pool: stage 1 drops members, stage 2 changes the pool, stage 3 adds members. */
  method CheckPool(stage: nat, updates: seq<string>, pool: PoolRow, ports: seq<KubePort>, policy: Policy,
                   healthCheckNodePort: int, nodes: seq<string>, ghost job: Job, ghost rec: Option<PoolRec>)
    returns (r: Planned)
    requires 1 <= stage <= 3 && ports == KubesOf(job.service.ports) && nodes == job.nodes && job.merged == {}
    requires policy == job.service.policy && healthCheckNodePort == job.service.healthCheckNodePort
    requires Tracked(job, rec, pool)
    ensures r.Failed? <==> pool.name != POOL_TO_BE_DELETED && !Parses(pool.name)
    ensures rec.Some? ==> r == Ok(updates + Texts(Chunk(job, stage, rec.value)))
  {
    hide Texts, Drops, Adds, PoolChanges, Tracked, ExtractFields;
    if stage == 1 {
      r := CheckPoolForNodesToDelete(updates, pool, ports, nodes, job, rec);
    } else if stage == 2 {
      r := CheckPoolForServiceChanges(updates, pool, ports, policy, healthCheckNodePort, job, rec);
    } else {
      r := CheckPoolForNodesToAdd(updates, pool, ports, nodes, job, rec);
    }
  }

  /** Steps 3, 4 and 5 over all pools. Once step 2 has succeeded none of them can fail. */
  method CheckPools(stage: nat, updates: seq<string>, pools: array<PoolRow>, ports: seq<KubePort>, policy: Policy,
                    healthCheckNodePort: int, nodes: seq<string>, ghost job: Job, ghost known: bool)
    returns (r: Planned)
    requires 1 <= stage <= 3 && ports == KubesOf(job.service.ports) && nodes == job.nodes
    requires policy == job.service.policy && healthCheckNodePort == job.service.healthCheckNodePort
    requires AllTracked(job, known, pools[..])
    requires forall i :: 0 <= i < pools.Length ==> pools[i].name == POOL_TO_BE_DELETED || Parses(pools[i].name)
    ensures r.Ok? && (known ==> r.updates == updates + Texts(Chunks(job, stage, job.pools)))
  {
    hide Texts, Chunk, Chunks, Tracked, ExtractFields, KubesOf;
    var out := updates;
    PoolLoopEnds(job, stage);
    var i := 0;
    while i < pools.Length
      invariant 0 <= i <= pools.Length
      invariant known ==> out == updates + Texts(Chunks(job, stage, job.pools[..i]))
    {
      ghost var rec := if known then Some(job.pools[i]) else None;
      assert Tracked(job, rec, pools[i]) by { TrackedAt(job, known, pools[..], i); }
      if known { ChunksSnoc(updates, job, stage, job.pools, i); }
      var planned := CheckPool(stage, out, pools[i], ports, policy, healthCheckNodePort, nodes, job, rec);
      if planned.Failed? {
        return Failed;
      }
      out := planned.updates;
      i := i + 1;
    }
    r := Ok(out);
  }

  lemma TrackedAt(job: Job, known: bool, pools: seq<PoolRow>, i: nat)
    requires AllTracked(job, known, pools) && i < |pools|
    ensures Tracked(job, if known then Some(job.pools[i]) else None, pools[i])
  {
  }

  /** Steps 6 and 7 over all service ports. */
  method CreatePoolsAndListeners(updates: seq<string>, listeners: seq<ListenerRow>, pools: array<PoolRow>,
                                 ports: seq<KubePort>, ghost job: Job, ghost known: bool)
    returns (r: Planned)
    requires ports == KubesOf(job.service.ports) && AllTracked(job, known, pools[..])
    requires forall i :: 0 <= i < pools.Length ==> pools[i].name == POOL_TO_BE_DELETED || Parses(pools[i].name)
    requires |listeners| == |job.listeners|
    requires forall i :: 0 <= i < |listeners| ==> listeners[i] == ListenerRowOf(job.listeners[i])
    ensures r.Ok? && (known ==> r.updates == updates + Texts(Creates(job, job.service.ports)))
  {
    hide Texts, Creates, PoolListed, ListenerListed, RowDuring, ExtractFields, ListenerRowOf;
    var out := updates;
    PortLoopEnds(job);
    ghost var rows := pools[..];
    assert known ==> forall j :: 0 <= j < |rows| ==> rows[j] == RowDuring(job, job.pools[j]);
    assert forall j :: 0 <= j < |rows| ==> rows[j].name == POOL_TO_BE_DELETED || Parses(rows[j].name);
    hide AllTracked;
    var i := 0;
    while i < |ports|
      invariant 0 <= i <= |ports|
      invariant known ==> out == updates + Texts(Creates(job, job.service.ports[..i]))
    {
      ghost var port := job.service.ports[i];
      assert ports[i] == KubeOf(port) && port in job.service.ports;
      CreatesSnoc(updates, job, job.service.ports, i);
      var planned := CheckPoolsForExtPortAddedToService(out, pools[..], ports[i], job, known, port);
      if planned.Failed? {
        return Failed;
      }
      out := CheckListenersForExtPortAddedToService(planned.updates, listeners, ports[i], job, port);
      i := i + 1;
    }
    r := Ok(out);
  }

  /** Steps 1 to 7 of UpdateLoadBalancer. Planning fails exactly if a listed pool name does not parse, which
      step 2 finds out: the marker it leaves behind is skipped by every later step. On the listing of a
      load balancer with generated names the lines are those of the plan. */
  method PlanUpdates(listeners: seq<ListenerRow>, pools: array<PoolRow>, ports: seq<KubePort>, policy: Policy,
                     healthCheckNodePort: int, nodes: seq<string>, ghost job: Job, ghost known: bool)
    returns (r: Planned)
    requires ports == KubesOf(job.service.ports) && nodes == job.nodes
    requires policy == job.service.policy && healthCheckNodePort == job.service.healthCheckNodePort
    requires ServiceOk(job.service) && NodesOk(job.nodes) && job.merged == {}
    requires |listeners| == |job.listeners|
    requires forall i :: 0 <= i < |listeners| ==> listeners[i] == ListenerRowOf(job.listeners[i])
    requires known ==> pools.Length == |job.pools| && forall i :: 0 <= i < pools.Length ==>
                         pools[i] == RowOf(job.pools[i]) && forall j :: 0 <= j < |job.pools[i].members| ==>
                           Token(job.pools[i].members[j].member.target)
    modifies pools
    ensures r.Failed? <==> exists i :: 0 <= i < pools.Length && !Parses(old(pools[i].name))
    ensures forall i :: 0 <= i < pools.Length ==> pools[i].id == old(pools[i].id)
    ensures known ==> r == Ok(Texts(PlanOf(job)))
  {
    hide Texts, RowOf, RowDuring, ListenerRowOf, Chunks, Creates, ListenerDrops, ExtractFields, Parses;
    var updates := DropListeners(listeners, ports, job);
    r := DropPools(updates, pools, ports, job, known);
    if r.Failed? {
      return;
    }
    assert AllTracked(job, known, pools[..]);
    r := CheckPools(1, r.updates, pools, ports, policy, healthCheckNodePort, nodes, job, known);
    r := CheckPools(2, r.updates, pools, ports, policy, healthCheckNodePort, nodes, job, known);
    r := CheckPools(3, r.updates, pools, ports, policy, healthCheckNodePort, nodes, job, known);
    r := CreatePoolsAndListeners(r.updates, listeners, pools, ports, job, known);
    TextsOfPlan(job);
  }

  lemma TextsOfPlan(job: Job)
    ensures Texts(PlanOf(job)) ==
            Texts(ListenerDrops(job, job.listeners)) + Texts(Chunks(job, 0, job.pools))
            + Texts(Chunks(job, 1, job.pools))
            + Texts(Chunks(job, 2, job.pools)) + Texts(Chunks(job, 3, job.pools))
            + Texts(Creates(job, job.service.ports))
  {
    hide Texts, Chunks, Creates, ListenerDrops;
    var l, c0, c1, c2, c3, n := ListenerDrops(job, job.listeners), Chunks(job, 0, job.pools), Chunks(job, 1, job.pools),
                                Chunks(job, 2, job.pools), Chunks(job, 3, job.pools), Creates(job, job.service.ports);
    TextsConcat(l, c0);
    TextsConcat(l + c0, c1);
    TextsConcat(l + c0 + c1, c2);
    TextsConcat(l + c0 + c1 + c2, c3);
    TextsConcat(l + c0 + c1 + c2 + c3, n);
  }
}

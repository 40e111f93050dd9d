/** The periodic monitor: deletion of stale load balancers, and the events raised for the others. */
module Monitoring {
  import opened Text
  import opened Sdk

  datatype ServiceType = LoadBalancerService | NodePortService | OtherService

  datatype KubeObject = KubeObject(uid: string, kind: ServiceType)

  const LB_NAME_PREFIX := "kube"

  function WithoutDashes(s: string): (r: string)
    ensures '-' !in r && |r| <= |s|
  {
    if s == "" then "" else if s[0] == '-' then WithoutDashes(s[1..]) else [s[0]] + WithoutDashes(s[1..])
  }

  /** Dashes are dropped, wherever they are, and everything else is kept in order. */
  lemma {:induction false} DashesDropped(a: string, b: string)
    ensures WithoutDashes(a + b) == WithoutDashes(a) + WithoutDashes(b)
    ensures '-' !in a ==> WithoutDashes(a) == a
    ensures WithoutDashes("-") == ""
  {
    if a == "" {
      assert a + b == b;
    } else {
      assert (a + b)[1..] == a[1..] + b && a == [a[0]] + a[1..];
      DashesDropped(a[1..], b);
    }
  }

  /** The name before it is cut to length. */
  function FullName(clusterID: string, uid: string): string {
    LB_NAME_PREFIX + "-" + clusterID + "-" + WithoutDashes(uid)
  }

  /** GenerateLoadBalancerName and vpcGetLoadBalancerName */
  function LbName(clusterID: string, uid: string): string {
    var name := FullName(clusterID, uid);
    if |name| > 63 then name[..63] else name
  }

  /** A name has the first 63 characters of prefix, cluster and service id, or all of them. */
  lemma NameIsCut(clusterID: string, uid: string)
    ensures var name, full := LbName(clusterID, uid), "kube-" + (clusterID + ("-" + WithoutDashes(uid)));
            name <= full && |name| == if |full| <= 63 then |full| else 63
  {
    assert FullName(clusterID, uid) == "kube-" + (clusterID + ("-" + WithoutDashes(uid)));
  }

  lemma DashedId()
    ensures WithoutDashes("7a-2b") == "7a2b"
  {
    DashesDropped("7a", "-" + "2b");
    DashesDropped("-", "2b");
    DashesDropped("2b", "");
    hide WithoutDashes;
    assert "7a" + ("-" + "2b") == "7a-2b";
  }

  /** How names look. */
  lemma NameLooksLikeThis()
    ensures LbName("prod", "7a-2b") == "kube-prod-7a2b"
  {
    DashedId();
    NameIsCut("prod", "7a-2b");
    hide WithoutDashes, LbName;
    assert "kube-" + ("prod" + ("-" + "7a2b")) == "kube-prod-7a2b";
  }

  function NamePrefix(clusterID: string): string {
    LB_NAME_PREFIX + "-" + clusterID + "-"
  }

  // ----- the clean-up -----

  /** The name is that of a listed service that may own a load balancer. */
  predicate Owned(clusterID: string, services: seq<KubeObject>, name: string) {
    exists i :: 0 <= i < |services| && !services[i].kind.OtherService? && LbName(clusterID, services[i].uid) == name
  }

  /** The load balancers of this cluster, by name; of two with one name the later one counts. */
  function VpcMap(clusterID: string, lbs: seq<LoadBalancer>): (m: map<string, LoadBalancer>)
    ensures forall n :: n in m ==> m[n] in lbs && m[n].name == n && NamePrefix(clusterID) <= n
    ensures forall i :: 0 <= i < |lbs| && NamePrefix(clusterID) <= lbs[i].name ==> lbs[i].name in m
  {
    if lbs == [] then map[]
    else
      var last := lbs[|lbs| - 1];
      var rest := VpcMap(clusterID, lbs[..|lbs| - 1]);
      if NamePrefix(clusterID) <= last.name then rest[last.name := last] else rest
  }

  /** The services of one kind, by load balancer name; of two with one name the later one counts. */
  function ServiceMap(clusterID: string, services: seq<KubeObject>, kind: ServiceType): (m: map<string, KubeObject>)
    ensures forall n :: n in m ==> m[n] in services && m[n].kind == kind && LbName(clusterID, m[n].uid) == n
    ensures forall i :: 0 <= i < |services| && services[i].kind == kind ==> LbName(clusterID, services[i].uid) in m
  {
    if services == [] then map[]
    else
      var last := services[|services| - 1];
      var rest := ServiceMap(clusterID, services[..|services| - 1], kind);
      if last.kind == kind then rest[LbName(clusterID, last.uid) := last] else rest
  }

  lemma OwnedMeansMapped(clusterID: string, services: seq<KubeObject>, name: string)
    ensures Owned(clusterID, services, name) <==>
            name in ServiceMap(clusterID, services, LoadBalancerService)
            || name in ServiceMap(clusterID, services, NodePortService)
  {
    hide LbName;
    var lbMap := ServiceMap(clusterID, services, LoadBalancerService);
    var npMap := ServiceMap(clusterID, services, NodePortService);
    if name in lbMap {
      var i :| 0 <= i < |services| && services[i] == lbMap[name];
    }
    if name in npMap {
      var i :| 0 <= i < |services| && services[i] == npMap[name];
    }
  }

  /** What a clean-up may delete. */
  predicate Stale(clusterID: string, services: seq<KubeObject>, lb: LoadBalancer) {
    IsReady(lb) && NamePrefix(clusterID) <= lb.name && !Owned(clusterID, services, lb.name)
  }

  /** That is: it is online/active, its name has the cluster's prefix, and no load balancer or node port service that
      is listed has this name. */
  lemma StaleIff(clusterID: string, services: seq<KubeObject>, lb: LoadBalancer)
    ensures Stale(clusterID, services, lb) <==>
            && lb.operatingStatus == "online" && lb.provisioningStatus == "active"
            && "kube-" + (clusterID + "-") <= lb.name
            && forall i :: 0 <= i < |services| && services[i].kind in {LoadBalancerService, NodePortService} ==>
                             LbName(clusterID, services[i].uid) != lb.name
  {
    hide LbName;
    assert NamePrefix(clusterID) == "kube-" + (clusterID + "-");
    SightIs(lb);
  }

  lemma VpcMapNext(clusterID: string, lbs: seq<LoadBalancer>, k: nat)
    requires k < |lbs|
    ensures VpcMap(clusterID, lbs[..k + 1]) ==
            var before := VpcMap(clusterID, lbs[..k]);
            if NamePrefix(clusterID) <= lbs[k].name then before[lbs[k].name := lbs[k]] else before
  {
    hide NamePrefix;
    assert lbs[..k + 1][..k] == lbs[..k];
  }

  /** Of load balancers with one name the last one listed is mapped. */
  lemma {:induction false} LastIsMapped(clusterID: string, lbs: seq<LoadBalancer>, i: nat, k: nat)
    requires i < k <= |lbs| && NamePrefix(clusterID) <= lbs[i].name
    requires forall j :: i < j < k ==> lbs[j].name != lbs[i].name
    ensures var mapped := VpcMap(clusterID, lbs[..k]); lbs[i].name in mapped && mapped[lbs[i].name] == lbs[i]
  {
    hide NamePrefix, VpcMap;
    VpcMapNext(clusterID, lbs, k - 1);
    if i < k - 1 {
      LastIsMapped(clusterID, lbs, i, k - 1);
    }
  }

  /** The provider: it asks for deletions and keeps going when one fails. */
  class Provider {
    const clusterID: string
    var deletions: seq<LoadBalancer>

    constructor (clusterID: string)
      ensures this.clusterID == clusterID && deletions == []
    {
      this.clusterID, deletions := clusterID, [];
    }

    /** The first loop: the load balancers whose name has this cluster's prefix. */
    method MapLoadBalancers(lbs: seq<LoadBalancer>) returns (vpcMap: map<string, LoadBalancer>)
      ensures vpcMap == VpcMap(clusterID, lbs)
    {
      hide NamePrefix;
      vpcMap := map[];
      var prefix := NamePrefix(clusterID);
      var i := 0;
      while i < |lbs|
        invariant 0 <= i <= |lbs| && vpcMap == VpcMap(clusterID, lbs[..i])
      {
        assert lbs[..i + 1][..i] == lbs[..i];
        if prefix <= lbs[i].name {
          vpcMap := vpcMap[lbs[i].name := lbs[i]];
        }
        i := i + 1;
      }
      assert lbs[..i] == lbs;
    }

    /** The second loop: the services that may own a load balancer, by kind. */
    method MapServices(services: seq<KubeObject>)
      returns (lbMap: map<string, KubeObject>, npMap: map<string, KubeObject>)
      ensures lbMap == ServiceMap(clusterID, services, LoadBalancerService)
      ensures npMap == ServiceMap(clusterID, services, NodePortService)
    {
      hide LbName;
      lbMap, npMap := map[], map[];
      var i := 0;
      while i < |services|
        invariant 0 <= i <= |services|
        invariant lbMap == ServiceMap(clusterID, services[..i], LoadBalancerService)
        invariant npMap == ServiceMap(clusterID, services[..i], NodePortService)
      {
        assert services[..i + 1][..i] == services[..i];
        if services[i].kind == LoadBalancerService {
          lbMap := lbMap[LbName(clusterID, services[i].uid) := services[i]];
        } else if services[i].kind == NodePortService {
          npMap := npMap[LbName(clusterID, services[i].uid) := services[i]];
        }
        i := i + 1;
      }
      assert services[..i] == services;
    }

    /** The last loop: the deletions. */
    method DeleteStale(lbs: seq<LoadBalancer>, services: seq<KubeObject>, lbMap: map<string, KubeObject>,
                       npMap: map<string, KubeObject>, vpcMap: map<string, LoadBalancer>)
      requires vpcMap == VpcMap(clusterID, lbs) && lbMap == ServiceMap(clusterID, services, LoadBalancerService)
      requires npMap == ServiceMap(clusterID, services, NodePortService)
      modifies this
      ensures old(deletions) <= deletions
      ensures forall i :: |old(deletions)| <= i < |deletions| ==>
                            deletions[i] in lbs && Stale(clusterID, services, deletions[i])
      ensures forall i, j :: |old(deletions)| <= i < j < |deletions| ==> deletions[i].name != deletions[j].name
      ensures forall n :: n in vpcMap && Stale(clusterID, services, vpcMap[n]) ==>
                vpcMap[n] in deletions[|old(deletions)|..]
    {
      hide LbName, NamePrefix, Owned, VpcMap, ServiceMap;
      ghost var start := |deletions|;
      var names := vpcMap.Keys;
      while names != {}
        invariant names <= vpcMap.Keys
        invariant old(deletions) <= deletions
        invariant forall i :: start <= i < |deletions| ==>
                                deletions[i] in lbs && Stale(clusterID, services, deletions[i])
                                && deletions[i].name !in names
        invariant forall i, j :: start <= i < j < |deletions| ==> deletions[i].name != deletions[j].name
        invariant forall n :: n in vpcMap && n !in names && Stale(clusterID, services, vpcMap[n]) ==>
                  vpcMap[n] in deletions[start..]
      {
        var name :| name in names;
        var lb := vpcMap[name];
        OwnedMeansMapped(clusterID, services, name);
        if IsReady(lb) && lb.name !in lbMap && lb.name !in npMap {
          ghost var before := deletions;
          deletions := deletions + [lb];
          assert deletions[start..] == before[start..] + [lb];
        }
        names := names - {name};
      }
    }

    /** VpcMonitorLoadBalancers of the provider: the maps it returns, and, for every order of its loops, the
        deletions it asks for: each stale load balancer of the map once, and nothing else. */
    method MonitorLoadBalancers(lbs: seq<LoadBalancer>, services: seq<KubeObject>)
      returns (lbMap: map<string, KubeObject>, vpcMap: map<string, LoadBalancer>)
      modifies this
      ensures vpcMap == VpcMap(clusterID, lbs) && lbMap == ServiceMap(clusterID, services, LoadBalancerService)
      ensures old(deletions) <= deletions
      ensures forall i :: |old(deletions)| <= i < |deletions| ==>
                            deletions[i] in lbs && Stale(clusterID, services, deletions[i])
      ensures forall i, j :: |old(deletions)| <= i < j < |deletions| ==> deletions[i].name != deletions[j].name
      ensures forall n :: n in vpcMap && Stale(clusterID, services, vpcMap[n]) ==>
                vpcMap[n] in deletions[|old(deletions)|..]
    {
      hide VpcMap, ServiceMap, Stale;
      vpcMap := MapLoadBalancers(lbs);
      var npMap;
      lbMap, npMap := MapServices(services);
      DeleteStale(lbs, services, lbMap, npMap, vpcMap);
    }
  }

  lemma StripPrefix(k: string, a: string, b: string)
    ensures k + a <= k + b <==> a <= b
  {
    assert k + a <= k + b ==> a == (k + a)[|k|..] && b == (k + b)[|k|..];
  }

  lemma DashedPrefix(own: string, other: string, u: string)
    requires '-' !in u
    ensures own + "-" <= other + "-" + u <==> own == other || own + "-" <= other
  {
    var a, b := own + "-", other + "-" + u;
    if |own| < |other| {
      assert b[..|own| + 1] == other[..|own| + 1];
    } else if |own| == |other| {
      assert b[..|own| + 1] == other + "-" && a[..|own|] == own && (other + "-")[..|own|] == other;
    } else if |a| <= |b| {
      assert b[|own|] == u[|own| - |other| - 1] != a[|own|];
    }
  }

  lemma ForeignFullName(own: string, other: string, uid: string)
    requires own != other
    ensures NamePrefix(own) <= FullName(other, uid) <==> own + "-" <= other
  {
    var k, u := LB_NAME_PREFIX + "-", WithoutDashes(uid);
    assert NamePrefix(own) == k + (own + "-") && FullName(other, uid) == k + (other + "-" + u);
    StripPrefix(k, own + "-", other + "-" + u);
    DashedPrefix(own, other, u);
  }

  /** A prefix survives the cut exactly if it fits. */
  lemma CutPrefix(prefix: string, clusterID: string, uid: string)
    ensures prefix <= LbName(clusterID, uid) <==> prefix <= FullName(clusterID, uid) && |prefix| <= 63
  {
    var full := FullName(clusterID, uid);
    if |full| > 63 && |prefix| <= 63 {
      assert prefix <= full ==> full[..63][..|prefix|] == full[..|prefix|];
      assert prefix <= full[..63] ==> full[..63][..|prefix|] == full[..|prefix|];
    }
  }

  /** When does the prefix test take a load balancer of another cluster for one of this cluster? Exactly if the
      other cluster's id starts with this one's followed by a dash, and the prefix fits into a name. */
  lemma ForeignPrefixIff(own: string, other: string, uid: string)
    requires own != other
    ensures NamePrefix(own) <= LbName(other, uid) <==> own + "-" <= other && |own| <= 57
  {
    hide FullName, LbName;
    CutPrefix(NamePrefix(own), other, uid);
    ForeignFullName(own, other, uid);
  }

  /** And when does it recognise a load balancer of its own? Exactly if the prefix fits: a cluster with a longer id
      never sees any of its load balancers. */
  lemma OwnPrefixIff(own: string, uid: string)
    ensures NamePrefix(own) <= LbName(own, uid) <==> |own| <= 57
  {
    hide LbName;
    CutPrefix(NamePrefix(own), own, uid);
    assert FullName(own, uid) == NamePrefix(own) + WithoutDashes(uid);
  }

  /** The uncut name of a load balancer of a cluster whose id extends this one's is not one of this cluster's. */
  lemma ForeignIsNotOwned(own: string, other: string, uid: string, services: seq<KubeObject>)
    requires own + "-" <= other && |FullName(other, uid)| <= 63
    ensures !Owned(own, services, LbName(other, uid))
  {
    var name, k := FullName(other, uid), 5 + |other|;
    assert name[k] == '-' by {
      assert name == (LB_NAME_PREFIX + "-" + other) + ("-" + WithoutDashes(uid));
    }
    forall i | 0 <= i < |services| ensures LbName(own, services[i].uid) != name {
      var u := WithoutDashes(services[i].uid);
      var mine := NamePrefix(own) + u;
      assert FullName(own, services[i].uid) == mine;
      assert forall m :: |NamePrefix(own)| <= m < |mine| ==> mine[m] == u[m - |NamePrefix(own)|];
    }
  }

  /** When may the clean-up delete a ready load balancer of another cluster? Exactly if it passes the prefix test
      and does not happen to have the name of a listed service; the latter cannot be if its name is not cut. */
  lemma ForeignIsStaleIff(own: string, other: string, uid: string, services: seq<KubeObject>, lb: LoadBalancer)
    requires own != other && IsReady(lb) && lb.name == LbName(other, uid)
    ensures Stale(own, services, lb) <==> own + "-" <= other && |own| <= 57 && !Owned(own, services, lb.name)
    ensures |FullName(other, uid)| <= 63 ==> (Stale(own, services, lb) <==> own + "-" <= other)
  {
    hide FullName, LbName, Owned, NamePrefix;
    ForeignPrefixIff(own, other, uid);
    if |FullName(other, uid)| <= 63 && own + "-" <= other {
      ForeignIsNotOwned(own, other, uid, services);
      OwnFits(own, other, uid);
    }
  }

  lemma OwnFits(own: string, other: string, uid: string)
    requires own + "-" <= other && |FullName(other, uid)| <= 63
    ensures |own| <= 57
  {
  }

  lemma OnlyOne(deletions: seq<LoadBalancer>, lb: LoadBalancer)
    requires lb in deletions && forall i :: 0 <= i < |deletions| ==> deletions[i] == lb
    requires forall i, j :: 0 <= i < j < |deletions| ==> deletions[i].name != deletions[j].name
    ensures deletions == [lb]
  {
    assert |deletions| > 1 ==> deletions[0].name == deletions[1].name;
  }

  /** A monitor that sees one such load balancer deletes it, whatever services it is given. */
  method DeleteForeign(provider: Provider, other: string, uid: string, services: seq<KubeObject>, lb: LoadBalancer)
    requires provider.clusterID + "-" <= other && |FullName(other, uid)| <= 63
    requires IsReady(lb) && lb.name == LbName(other, uid)
    modifies provider
    ensures provider.deletions == old(provider.deletions) + [lb]
  {
    ForeignIsStaleIff(provider.clusterID, other, uid, services, lb);
    hide LbName, FullName, VpcMap, ServiceMap, Stale, IsReady;
    var lbs := [lb];
    assert Stale(provider.clusterID, services, lbs[0]);
    ghost var before := provider.deletions;
    var lbMap, vpcMap := provider.MonitorLoadBalancers(lbs, services);
    StaleIsMapped(provider.clusterID, lbs, services);
    ghost var asked := provider.deletions[|before|..];
    assert forall i :: 0 <= i < |asked| ==> asked[i] == provider.deletions[|before| + i];
    OnlyOne(asked, lb);
  }

  /** It happens: the monitor of cluster "prod", with a service of its own, deletes a load balancer of "prod-eu". */
  method ForeignIsDeleted(provider: Provider, lb: LoadBalancer)
    requires provider.clusterID == "prod" && IsReady(lb) && lb.name == LbName("prod-eu", "9f-3c")
    modifies provider
    ensures provider.deletions == old(provider.deletions) + [lb]
  {
    hide WithoutDashes, LbName;
    assert "prod" + "-" == "prod-eu"[..5] && |WithoutDashes("9f-3c")| <= 5;
    DeleteForeign(provider, "prod-eu", "9f-3c", [KubeObject("7a-2b", LoadBalancerService)], lb);
  }

  /** The load balancer of a service that is listed is kept, dashes in the service id or not. */
  method LiveIsKept(provider: Provider, services: seq<KubeObject>, lb: LoadBalancer)
    requires provider.clusterID == "prod" && KubeObject("7a-2b", LoadBalancerService) in services
    requires lb.name == "kube-prod-7a2b"
    modifies provider
    ensures provider.deletions == old(provider.deletions)
  {
    NameLooksLikeThis();
    hide LbName, VpcMap, ServiceMap, Stale;
    ghost var before := provider.deletions;
    var lbMap, vpcMap := provider.MonitorLoadBalancers([lb], services);
    NothingAsked(provider.clusterID, services, lb, before, provider.deletions);
    StaleIff("prod", services, lb);
  }

  lemma NothingAsked(clusterID: string, services: seq<KubeObject>, lb: LoadBalancer, before: seq<LoadBalancer>,
                     after: seq<LoadBalancer>)
    requires before <= after
    requires forall i :: |before| <= i < |after| ==> after[i] in [lb] && Stale(clusterID, services, after[i])
    ensures after == before || Stale(clusterID, services, lb)
  {
    hide Stale;
    if |after| > |before| {
      assert after[|before|] in [lb];
    }
  }

  lemma StaleIsMapped(clusterID: string, lbs: seq<LoadBalancer>, services: seq<KubeObject>)
    ensures forall i :: 0 <= i < |lbs| && Stale(clusterID, services, lbs[i]) ==> lbs[i].name in VpcMap(clusterID, lbs)
    ensures forall n :: n in VpcMap(clusterID, lbs) ==> VpcMap(clusterID, lbs)[n] in lbs
  {
  }

  // ----- services with one name -----

  lemma SameStart(prefix: string, a: string, b: string, n: nat)
    requires |prefix| <= n && |a| == |b|
    ensures var p, q := prefix + a, prefix + b;
            |p| > n ==> (p[..n] == q[..n] <==> a[..n - |prefix|] == b[..n - |prefix|])
  {
    var p, q, m := prefix + a, prefix + b, n - |prefix|;
    if |p| > n {
      assert p[..n] == prefix + a[..m] && q[..n] == prefix + b[..m];
      assert p[..n][|prefix|..] == a[..m] && q[..n][|prefix|..] == b[..m];
    }
  }

  /** When do two services of a cluster share a load balancer name? For ids that are equally long without their dashes,
      as Kubernetes issues them: never if the names are not cut, unless the ids are the same; otherwise exactly if
      the cluster id leaves no room for an id at all, or the ids agree on what fits of them. */
  lemma SharedNameIff(clusterID: string, uid1: string, uid2: string)
    requires |WithoutDashes(uid1)| == |WithoutDashes(uid2)|
    ensures var a, b := WithoutDashes(uid1), WithoutDashes(uid2);
            LbName(clusterID, uid1) == LbName(clusterID, uid2) <==>
            if |FullName(clusterID, uid1)| <= 63 then a == b
            else |clusterID| > 57 || a[..57 - |clusterID|] == b[..57 - |clusterID|]
  {
    var prefix, a, b := NamePrefix(clusterID), WithoutDashes(uid1), WithoutDashes(uid2);
    assert FullName(clusterID, uid1) == prefix + a && FullName(clusterID, uid2) == prefix + b;
    if |prefix + a| <= 63 {
      assert (prefix + a)[|prefix|..] == a && (prefix + b)[|prefix|..] == b;
    } else if |prefix| <= 63 {
      SameStart(prefix, a, b, 63);
    } else {
      assert (prefix + a)[..63] == prefix[..63] == (prefix + b)[..63];
    }
  }

  /** Of services of one kind that share a name the last one listed is monitored, and no other. */
  lemma {:induction false} MonitoredIff(clusterID: string, services: seq<KubeObject>, kind: ServiceType, i: nat)
    requires i < |services| && services[i].kind == kind
    requires forall j :: 0 <= j < |services| && j != i ==> services[j] != services[i]
    ensures ServiceMap(clusterID, services, kind)[LbName(clusterID, services[i].uid)] == services[i] <==>
            forall j :: i < j < |services| && services[j].kind == kind ==>
                          LbName(clusterID, services[j].uid) != LbName(clusterID, services[i].uid)
  {
    hide LbName;
    var n := |services| - 1;
    var rest, name := services[..n], LbName(clusterID, services[i].uid);
    if i < n {
      assert rest[i] == services[i];
      assert forall j :: 0 <= j < n ==> rest[j] == services[j];
      MonitoredIff(clusterID, rest, kind, i);
      if services[n].kind == kind && LbName(clusterID, services[n].uid) == name {
        assert ServiceMap(clusterID, services, kind)[name] == services[n];
      } else {
        assert ServiceMap(clusterID, services, kind)[name] == ServiceMap(clusterID, rest, kind)[name];
        assert forall j :: i < j < |services| ==> j == n || (i < j < n && rest[j] == services[j]);
      }
    }
  }

  // ----- the events -----

  const ONLINE_ACTIVE := ONLINE + "/" + ACTIVE
  const OFFLINE_NOT_FOUND := "offline/not_found"

  datatype Notice = Normal | Warning

  /** The event one observation of a service raises, given the status stored before ("" if there is none). */
  function Raised(before: string, now: string): Option<Notice> {
    if now == ONLINE_ACTIVE then (if before != ONLINE_ACTIVE then Some(Normal) else None)
    else if before == now then Some(Warning) else None
  }

  function Stored(status: map<string, string>, uid: string): string {
    if uid in status then status[uid] else ""
  }

  predicate UidsDistinct(lbMap: map<string, KubeObject>) {
    forall a, b :: a in lbMap && b in lbMap && a != b ==> lbMap[a].uid != lbMap[b].uid
  }

  /** Service ids in a map keyed by the names made from them are distinct. */
  lemma NamedUidsDistinct(clusterID: string, services: seq<KubeObject>)
    ensures UidsDistinct(ServiceMap(clusterID, services, LoadBalancerService))
  {
  }

  function ObservationOf(name: string, vpcMap: map<string, LoadBalancer>): string {
    if name in vpcMap then GetStatus(vpcMap[name]) else OFFLINE_NOT_FOUND
  }

  /** A service is observed as online/active exactly if its load balancer is; without one it is offline/not_found. */
  lemma ObservationIs(name: string, vpcMap: map<string, LoadBalancer>)
    ensures ObservationOf(name, vpcMap) == "online/active" <==>
            && name in vpcMap
            && vpcMap[name].operatingStatus == "online" && vpcMap[name].provisioningStatus == "active"
    ensures name !in vpcMap ==> ObservationOf(name, vpcMap) == "offline/not_found"
    ensures ObservationOf(name, vpcMap) != ""
  {
    if name in vpcMap {
      hide GetStatus;
      StatusOfReady(vpcMap[name]);
      StatusIsLong(vpcMap[name]);
    }
  }

  lemma StatusIsLong(lb: LoadBalancer)
    ensures |GetStatus(lb)| > 0
  {
  }

  /** What a round of the monitor sees of each load balancer service, by service id. */
  function Observations(lbMap: map<string, KubeObject>, vpcMap: map<string, LoadBalancer>): map<string, string>
    requires UidsDistinct(lbMap)
  {
    map n | n in lbMap :: lbMap[n].uid := ObservationOf(n, vpcMap)
  }

  /** The events of a round, by service id. */
  function RoundEvents(status: map<string, string>, seen: map<string, string>): map<string, Notice> {
    map uid | uid in seen && Raised(Stored(status, uid), seen[uid]).Some? ::
      Raised(Stored(status, uid), seen[uid]).value
  }

  /** The first observation of a service raises an event exactly if it is online/active, and a normal one; the next
      raises a warning exactly if it is the same and not online/active. */
  lemma FirstEvents(status: map<string, string>, seen: map<string, string>, next: map<string, string>, uid: string)
    requires uid !in status && uid in seen && uid in next && seen[uid] != ""
    ensures var events := RoundEvents(status, seen);
            (uid in events <==> seen[uid] == "online/active") && (uid in events ==> events[uid] == Normal)
    ensures var events := RoundEvents(status + seen, next);
            && (uid in events && events[uid] == Normal <==>
                next[uid] == "online/active" && seen[uid] != "online/active")
            && (uid in events && events[uid] == Warning <==> next[uid] == seen[uid] != "online/active")
  {
    assert ONLINE_ACTIVE == "online/active";
  }

  class Recorder {
    var status: map<string, string>
    /** The events raised in the latest round. */
    var events: map<string, Notice>

    constructor ()
      ensures status == map[] && events == map[]
    {
      status, events := map[], map[];
    }

    /** The loop of VpcMonitorLoadBalancers in the cloud provider, in whatever order the services come: afterwards
        every service has its observation stored, and exactly the events of the round have been raised. */
    method RecordRound(lbMap: map<string, KubeObject>, vpcMap: map<string, LoadBalancer>)
      requires UidsDistinct(lbMap)
      modifies this
      ensures status == old(status) + Observations(lbMap, vpcMap)
      ensures events == RoundEvents(old(status), Observations(lbMap, vpcMap))
    {
      hide GetStatus, Raised, ObservationOf, RoundEvents, SeenBut, Observations;
      events := map[];
      var names := lbMap.Keys;
      ghost var seen: map<string, string> := map[];
      SeenEnds(old(status), lbMap, vpcMap);
      while names != {}
        invariant names <= lbMap.Keys
        invariant seen == SeenBut(lbMap, names, vpcMap)
        invariant status == old(status) + seen
        invariant events == RoundEvents(old(status), seen)
      {
        var name :| name in names;
        var serviceID := lbMap[name].uid;
        var oldStatus := Stored(status, serviceID);
        var newStatus := ObservationOf(name, vpcMap);
        SeenNext(lbMap, names, name, vpcMap);
        RoundNext(old(status), seen, serviceID, newStatus);
        status := status[serviceID := newStatus];
        if newStatus == ONLINE_ACTIVE {
          if oldStatus != ONLINE_ACTIVE {
            events := events[serviceID := Normal];
          }
        } else if oldStatus == newStatus {
          events := events[serviceID := Warning];
        }
        seen := seen[serviceID := newStatus];
        names := names - {name};
      }
    }
  }

  /** What has been seen of the services whose turn has come. */
  ghost function SeenBut(lbMap: map<string, KubeObject>, names: set<string>, vpcMap: map<string, LoadBalancer>)
    : map<string, string>
    requires UidsDistinct(lbMap)
  {
    map n | n in lbMap && n !in names :: lbMap[n].uid := ObservationOf(n, vpcMap)
  }

  lemma SeenOfNone(lbMap: map<string, KubeObject>, vpcMap: map<string, LoadBalancer>)
    requires UidsDistinct(lbMap)
    ensures SeenBut(lbMap, lbMap.Keys, vpcMap) == map[]
  {
    hide ObservationOf, UidsDistinct;
    assert SeenBut(lbMap, lbMap.Keys, vpcMap).Keys == {};
  }

  lemma SeenOfAll(lbMap: map<string, KubeObject>, vpcMap: map<string, LoadBalancer>)
    requires UidsDistinct(lbMap)
    ensures SeenBut(lbMap, {}, vpcMap) == Observations(lbMap, vpcMap)
  {
    hide ObservationOf;
    var seen, observed := SeenBut(lbMap, {}, vpcMap), Observations(lbMap, vpcMap);
    assert seen.Keys == observed.Keys;
    assert forall n :: n in lbMap ==> seen[lbMap[n].uid] == observed[lbMap[n].uid];
  }

  lemma NoEvents(status: map<string, string>)
    ensures RoundEvents(status, map[]) == map[] && status + map[] == status
  {
    hide Raised, Stored;
    assert RoundEvents(status, map[]).Keys == {};
  }

  lemma SeenEnds(status: map<string, string>, lbMap: map<string, KubeObject>, vpcMap: map<string, LoadBalancer>)
    requires UidsDistinct(lbMap)
    ensures SeenBut(lbMap, lbMap.Keys, vpcMap) == map[] && SeenBut(lbMap, {}, vpcMap) == Observations(lbMap, vpcMap)
    ensures RoundEvents(status, map[]) == map[] && status + map[] == status
  {
    hide SeenBut, Observations, RoundEvents, UidsDistinct;
    SeenOfNone(lbMap, vpcMap);
    SeenOfAll(lbMap, vpcMap);
    NoEvents(status);
  }

  lemma SeenNext(lbMap: map<string, KubeObject>, names: set<string>, name: string, vpcMap: map<string, LoadBalancer>)
    requires UidsDistinct(lbMap) && name in names && name in lbMap
    ensures lbMap[name].uid !in SeenBut(lbMap, names, vpcMap)
    ensures SeenBut(lbMap, names - {name}, vpcMap) ==
              SeenBut(lbMap, names, vpcMap)[lbMap[name].uid := ObservationOf(name, vpcMap)]
  {
    hide ObservationOf;
  }

  lemma RoundGrows(status: map<string, string>, seen: map<string, string>, uid: string, now: string)
    requires uid !in seen
    ensures RoundEvents(status, seen[uid := now]) ==
            var e := Raised(Stored(status, uid), now);
            if e.Some? then RoundEvents(status, seen)[uid := e.value] else RoundEvents(status, seen)
  {
    hide Raised, Stored;
    var events, next := RoundEvents(status, seen), RoundEvents(status, seen[uid := now]);
    assert forall u :: u != uid ==> (u in next <==> u in events) && (u in events ==> next[u] == events[u]);
  }

  lemma RoundNext(status: map<string, string>, seen: map<string, string>, uid: string, now: string)
    requires uid !in seen
    ensures Stored(status + seen, uid) == Stored(status, uid)
    ensures RoundEvents(status, seen[uid := now]) ==
            var before := Stored(status, uid);
            if now == ONLINE_ACTIVE then
              (if before != ONLINE_ACTIVE then RoundEvents(status, seen)[uid := Normal] else RoundEvents(status, seen))
            else if before == now then RoundEvents(status, seen)[uid := Warning] else RoundEvents(status, seen)
  {
    hide RoundEvents;
    RoundGrows(status, seen, uid, now);
  }

  // ----- whole runs -----

  /** The status map after a number of rounds. */
  function StatusAfter(status: map<string, string>, rounds: seq<map<string, string>>): map<string, string>
    decreases |rounds|
  {
    if rounds == [] then status else StatusAfter(status + rounds[0], rounds[1..])
  }

  /** The events a service gets over a run, in order. */
  function EventsOver(status: map<string, string>, rounds: seq<map<string, string>>, uid: string): seq<Notice>
    decreases |rounds|
  {
    if rounds == [] then []
    else
      var events := RoundEvents(status, rounds[0]);
      (if uid in events then [events[uid]] else []) + EventsOver(status + rounds[0], rounds[1..], uid)
  }

  /** The observations made of one service: the rounds in which it was not listed leave no trace. */
  function History(rounds: seq<map<string, string>>, uid: string): seq<string> {
    if rounds == [] then []
    else (if uid in rounds[0] then [rounds[0][uid]] else []) + History(rounds[1..], uid)
  }

  function Last(history: seq<string>, start: string): string {
    if history == [] then start else history[|history| - 1]
  }

  /** How often a status is entered, and how often one other than online/active repeats. */
  function Entries(history: seq<string>, before: string): nat {
    if history == [] then 0
    else (if history[0] == ONLINE_ACTIVE && before != ONLINE_ACTIVE then 1 else 0) + Entries(history[1..], history[0])
  }

  function Repeats(history: seq<string>, before: string): nat {
    if history == [] then 0
    else (if history[0] != ONLINE_ACTIVE && before == history[0] then 1 else 0) + Repeats(history[1..], history[0])
  }

  function CountOf(events: seq<Notice>, e: Notice): nat {
    if events == [] then 0 else (if events[0] == e then 1 else 0) + CountOf(events[1..], e)
  }

  /** The events of a service taken by itself. */
  function Transitions(history: seq<string>, before: string): seq<Notice> {
    if history == [] then []
    else
      var e := Raised(before, history[0]);
      (if e.Some? then [e.value] else []) + Transitions(history[1..], history[0])
  }

  lemma OneEvent(status: map<string, string>, seen: map<string, string>, uid: string)
    ensures uid in RoundEvents(status, seen) <==> uid in seen && Raised(Stored(status, uid), seen[uid]).Some?
    ensures uid in RoundEvents(status, seen) ==>
              Some(RoundEvents(status, seen)[uid]) == Raised(Stored(status, uid), seen[uid])
  {
  }

  lemma HistoryStep(status: map<string, string>, rounds: seq<map<string, string>>, uid: string)
    requires rounds != []
    ensures var h, rest, next := History(rounds, uid), History(rounds[1..], uid), status + rounds[0];
            if uid in rounds[0] then h == [rounds[0][uid]] + rest && Stored(next, uid) == rounds[0][uid]
            else h == rest && Stored(next, uid) == Stored(status, uid)
  {
  }

  /** Every service is monitored as if it were alone: over every run, whatever else is listed in between, its stored
      status is its last observation, and its events are those its own history calls for. */
  lemma {:induction false} ServiceIsMonitoredAlone(status: map<string, string>, rounds: seq<map<string, string>>,
                                                   uid: string)
    ensures Stored(StatusAfter(status, rounds), uid) == Last(History(rounds, uid), Stored(status, uid))
    ensures EventsOver(status, rounds, uid) == Transitions(History(rounds, uid), Stored(status, uid))
    decreases |rounds|
  {
    hide RoundEvents, Raised, Stored, History;
    if rounds == [] {
      EmptyHistory(uid);
    } else {
      HistoryStep(status, rounds, uid);
      OneEvent(status, rounds[0], uid);
      ServiceIsMonitoredAlone(status + rounds[0], rounds[1..], uid);
    }
  }

  lemma EmptyHistory(uid: string)
    ensures History([], uid) == []
  {
  }

  /** Its normal events are exactly the entries into online/active, and its warnings exactly the repeats of an
      unchanged other status. */
  lemma {:induction false} TransitionsCounted(history: seq<string>, before: string)
    ensures CountOf(Transitions(history, before), Normal) == Entries(history, before)
    ensures CountOf(Transitions(history, before), Warning) == Repeats(history, before)
  {
    if history != [] {
      var rest := Transitions(history[1..], history[0]);
      TransitionsCounted(history[1..], history[0]);
      var e := Raised(before, history[0]);
      if e.Some? {
        assert ([e.value] + rest)[1..] == rest;
      } else {
        assert [] + rest == rest;
      }
    }
  }

  /** VpcMonitorLoadBalancers of the cloud provider. Without services, or when the load balancers cannot be listed,
      nothing is deleted and nothing is recorded. */
  method VpcMonitorLoadBalancers(provider: Provider, recorder: Recorder, services: seq<KubeObject>,
                                 lbs: Option<seq<LoadBalancer>>)
    modifies provider, recorder
    ensures services == [] || lbs.None? ==>
              provider.deletions == old(provider.deletions) && recorder.status == old(recorder.status)
              && recorder.events == old(recorder.events)
    ensures services != [] && lbs.Some? ==>
              var lbMap := ServiceMap(provider.clusterID, services, LoadBalancerService);
              var vpcMap := VpcMap(provider.clusterID, lbs.value);
              && UidsDistinct(lbMap)
              && recorder.status == old(recorder.status) + Observations(lbMap, vpcMap)
              && recorder.events == RoundEvents(old(recorder.status), Observations(lbMap, vpcMap))
    ensures lbs.Some? ==>
              && old(provider.deletions) <= provider.deletions
              && forall i :: |old(provider.deletions)| <= i < |provider.deletions| ==>
                               provider.deletions[i] in lbs.value
                               && Stale(provider.clusterID, services, provider.deletions[i])
    ensures services != [] && lbs.Some? ==>
              var vpcMap := VpcMap(provider.clusterID, lbs.value);
              forall n :: n in vpcMap && Stale(provider.clusterID, services, vpcMap[n]) ==>
                            vpcMap[n] in provider.deletions[|old(provider.deletions)|..]
  {
    hide VpcMap, ServiceMap, Observations, RoundEvents, UidsDistinct, Stale;
    if services == [] || lbs.None? {
      return;
    }
    var lbMap, vpcMap := provider.MonitorLoadBalancers(lbs.value, services);
    NamedUidsDistinct(provider.clusterID, services);
    recorder.RecordRound(lbMap, vpcMap);
  }
}

/** The subnets annotation: how its items are resolved, and the check that an update does not change it. */
module Subnets {
  import opened Text

  datatype Subnet = Subnet(id: string, name: string, cidr: string, zone: string, vpcID: string, vpcName: string)

  datatype Resolution = Found(id: string) | OtherVpc | NotFound

  /** The inner loop of validateServiceSubnets: the first subnet that matches by id, or, within the VPC, by name or
      CIDR. */
  function Resolve(item: string, vpcID: string, subnets: seq<Subnet>): Resolution {
    if subnets == [] then NotFound
    else
      var s := subnets[0];
      if item == s.id then (if vpcID != s.vpcID then OtherVpc else Found(s.id))
      else if vpcID == s.vpcID && (item == s.name || item == s.cidr) then Found(s.id)
      else Resolve(item, vpcID, subnets[1..])
  }

  /** The set of ids the items stand for; None if one of them is an error. */
  function ResolveAll(items: seq<string>, vpcID: string, subnets: seq<Subnet>): Option<set<string>> {
    if items == [] then Some({})
    else
      match (Resolve(items[0], vpcID, subnets), ResolveAll(items[1..], vpcID, subnets))
      case (Found(id), Some(ids)) => Some({id} + ids)
      case _ => None
  }

  /** strings.ReplaceAll(annotation, " ", "") */
  function WithoutSpaces(s: string): string {
    if s == "" then "" else if s[0] == ' ' then WithoutSpaces(s[1..]) else [s[0]] + WithoutSpaces(s[1..])
  }

  /** An item is the first subnet that has it for id, or lies in the VPC and has it for name or CIDR: that subnet's id,
      or an error if it is of another VPC. Without such a subnet it is not found. */
  lemma {:induction false} ResolvesToFirst(item: string, vpcID: string, subnets: seq<Subnet>, k: nat)
    requires k <= |subnets|
    requires forall j :: 0 <= j < k ==>
                           var s := subnets[j];
                           item != s.id && !(vpcID == s.vpcID && (item == s.name || item == s.cidr))
    requires k < |subnets| ==>
               var s := subnets[k]; item == s.id || (vpcID == s.vpcID && (item == s.name || item == s.cidr))
    ensures Resolve(item, vpcID, subnets) ==
            if k == |subnets| then NotFound
            else if subnets[k].vpcID == vpcID then Found(subnets[k].id)
            else OtherVpc
  {
    if k > 0 {
      assert forall j :: 1 <= j < |subnets| ==> subnets[1..][j - 1] == subnets[j];
      ResolvesToFirst(item, vpcID, subnets[1..], k - 1);
    }
  }

  /** Items stand for the set of the ids found for them, and for none if one of them is not found in the VPC. */
  lemma {:induction false} ResolvesToAll(items: seq<string>, vpcID: string, subnets: seq<Subnet>)
    ensures var ids := ResolveAll(items, vpcID, subnets);
            && (ids.Some? <==> forall item :: item in items ==> Resolve(item, vpcID, subnets).Found?)
            && (ids.Some? ==>
                  forall id :: id in ids.value <==>
                                 exists item :: item in items && Resolve(item, vpcID, subnets) == Found(id))
  {
    hide Resolve;
    if items != [] {
      var first, rest := Resolve(items[0], vpcID, subnets), ResolveAll(items[1..], vpcID, subnets);
      ResolvesToAll(items[1..], vpcID, subnets);
      assert items[0] in items && forall item :: item in items <==> item == items[0] || item in items[1..];
      assert ResolveAll(items, vpcID, subnets) ==
             if first.Found? && rest.Some? then Some({first.id} + rest.value) else None;
    }
  }

  /** Spaces are dropped, wherever they are, and everything else is kept in order. */
  lemma {:induction false} SpacesDropped(a: string, b: string)
    ensures WithoutSpaces(a + b) == WithoutSpaces(a) + WithoutSpaces(b)
    ensures ' ' !in a ==> WithoutSpaces(a) == a
    ensures WithoutSpaces(" ") == ""
  {
    if a == "" {
      assert a + b == b;
    } else {
      assert (a + b)[1..] == a[1..] + b && a == [a[0]] + a[1..];
      SpacesDropped(a[1..], b);
    }
  }

  // ----- the loops -----

  method ResolveItem(item: string, vpcID: string, subnets: seq<Subnet>) returns (r: Resolution)
    ensures r == Resolve(item, vpcID, subnets)
  {
    var i := 0;
    while i < |subnets|
      invariant 0 <= i <= |subnets|
      invariant Resolve(item, vpcID, subnets) == Resolve(item, vpcID, subnets[i..])
    {
      var subnet := subnets[i];
      assert subnets[i..][0] == subnet && subnets[i..][1..] == subnets[i + 1..];
      if item == subnet.id {
        if vpcID != subnet.vpcID {
          return OtherVpc;
        }
        return Found(item);
      }
      if vpcID != subnet.vpcID {
        i := i + 1;
        continue;
      }
      if item == subnet.name || item == subnet.cidr {
        return Found(subnet.id);
      }
      i := i + 1;
    }
    r := NotFound;
  }

  /** validateServiceSubnets: the ids are collected in a map, so repetitions fall away, and listed in the order
      of the map. */
  method ValidateServiceSubnets(serviceSubnets: string, vpcID: string, subnets: seq<Subnet>)
    returns (r: Option<seq<string>>)
    ensures r.None? <==> ResolveAll(Split(serviceSubnets, ','), vpcID, subnets).None?
    ensures r.Some? ==>
              Distinct(r.value) && Some(Elements(r.value)) == ResolveAll(Split(serviceSubnets, ','), vpcID, subnets)
  {
    hide Split, Resolve;
    var items := Split(serviceSubnets, ',');
    var desired: set<string> := {};
    var i := 0;
    assert items[0..] == items && forall ids: set<string> :: {} + ids == ids;
    while i < |items|
      invariant 0 <= i <= |items|
      invariant ResolveAll(items, vpcID, subnets) ==
                match ResolveAll(items[i..], vpcID, subnets) case None => None case Some(rest) => Some(desired + rest)
    {
      assert items[i..][0] == items[i] && items[i..][1..] == items[i + 1..];
      var found := ResolveItem(items[i], vpcID, subnets);
      if !found.Found? {
        return None;
      }
      ghost var rest := ResolveAll(items[i + 1..], vpcID, subnets);
      assert rest.Some? ==> desired + ({found.id} + rest.value) == desired + {found.id} + rest.value;
      desired := desired + {found.id};
      i := i + 1;
    }
    assert desired + {} == desired;
    var list: seq<string> := [];
    var todo := desired;
    while todo != {}
      invariant Distinct(list) && Elements(list) !! todo && Elements(list) + todo == desired
    {
      var id :| id in todo;
      assert Elements(list + [id]) == Elements(list) + {id};
      list, todo := list + [id], todo - {id};
    }
    r := Some(list);
  }

  function VpcOf(lbSubnets: seq<string>, subnets: seq<Subnet>): string {
    if lbSubnets == [] then ""
    else if exists i :: 0 <= i < |subnets| && subnets[i].id == lbSubnets[0] then FirstVpc(lbSubnets[0], subnets)
    else VpcOf(lbSubnets[1..], subnets)
  }

  function FirstVpc(id: string, subnets: seq<Subnet>): string {
    if subnets == [] then "" else if subnets[0].id == id then subnets[0].vpcID else FirstVpc(id, subnets[1..])
  }

  lemma {:induction false} FirstVpcIs(id: string, subnets: seq<Subnet>, k: nat)
    requires k < |subnets| && subnets[k].id == id && forall j :: 0 <= j < k ==> subnets[j].id != id
    ensures FirstVpc(id, subnets) == subnets[k].vpcID
  {
    if k > 0 {
      FirstVpcIs(id, subnets[1..], k - 1);
    }
  }

  /** The VPC is that of the first of the load balancer's subnets that is listed, as the first subnet with its id has
      it; it is empty if none is listed. */
  lemma {:induction false} VpcOfFirst(lbSubnets: seq<string>, subnets: seq<Subnet>, i: nat, k: nat)
    requires i <= |lbSubnets|
    requires forall h, j :: 0 <= h < i && 0 <= j < |subnets| ==> subnets[j].id != lbSubnets[h]
    requires i < |lbSubnets| ==> k < |subnets| && subnets[k].id == lbSubnets[i]
    requires i < |lbSubnets| ==> forall j :: 0 <= j < k ==> subnets[j].id != lbSubnets[i]
    ensures VpcOf(lbSubnets, subnets) == if i < |lbSubnets| then subnets[k].vpcID else ""
    decreases i
  {
    if i > 0 {
      assert forall h :: 1 <= h < |lbSubnets| ==> lbSubnets[1..][h - 1] == lbSubnets[h];
      VpcOfFirst(lbSubnets[1..], subnets, i - 1, k);
    } else if lbSubnets != [] {
      FirstVpcIs(lbSubnets[0], subnets, k);
    }
  }

  /** getVpcID */
  method GetVpcID(lbSubnets: seq<string>, subnets: seq<Subnet>) returns (vpcID: string)
    ensures vpcID == VpcOf(lbSubnets, subnets)
  {
    var i := 0;
    while i < |lbSubnets|
      invariant 0 <= i <= |lbSubnets|
      invariant VpcOf(lbSubnets, subnets) == VpcOf(lbSubnets[i..], subnets)
    {
      assert lbSubnets[i..][0] == lbSubnets[i] && lbSubnets[i..][1..] == lbSubnets[i + 1..];
      var j := 0;
      while j < |subnets|
        invariant 0 <= j <= |subnets|
        invariant forall k :: 0 <= k < j ==> subnets[k].id != lbSubnets[i]
        invariant FirstVpc(lbSubnets[i], subnets) == FirstVpc(lbSubnets[i], subnets[j..])
      {
        assert subnets[j..][0] == subnets[j] && subnets[j..][1..] == subnets[j + 1..];
        if lbSubnets[i] == subnets[j].id {
          return subnets[j].vpcID;
        }
        j := j + 1;
      }
      i := i + 1;
    }
    vpcID := "";
  }

  // ----- sort.Strings -----

  predicate Less(a: string, b: string) {
    b != "" && (a == "" || a[0] < b[0] || (a[0] == b[0] && Less(a[1..], b[1..])))
  }

  predicate Ascending(s: seq<string>) {
    forall i, j :: 0 <= i < j < |s| ==> !Less(s[j], s[i])
  }

  lemma {:induction false} LessTotal(a: string, b: string)
    ensures a == b || Less(a, b) || Less(b, a)
    ensures !(Less(a, b) && Less(b, a)) && !Less(a, a)
  {
    if a != "" {
      LessTotal(a[1..], a[1..]);
      if b != "" {
        LessTotal(a[1..], b[1..]);
        if a[0] == b[0] && a[1..] == b[1..] {
          assert a == [a[0]] + a[1..] && b == [b[0]] + b[1..];
        }
      }
    }
  }

  lemma {:induction false} LessTransitive(a: string, b: string, c: string)
    ensures Less(a, b) && !Less(c, b) ==> Less(a, c)
    ensures !Less(b, a) && !Less(c, b) ==> !Less(c, a)
    decreases |b|
  {
    if a != "" && b != "" && c != "" {
      LessTransitive(a[1..], b[1..], c[1..]);
    }
  }

  function Insert(x: string, s: seq<string>): seq<string> {
    if s == [] || !Less(s[0], x) then [x] + s else [s[0]] + Insert(x, s[1..])
  }

  /** sort.Strings */
  function Sort(s: seq<string>): seq<string> {
    if s == [] then [] else Insert(s[0], Sort(s[1..]))
  }

  lemma {:induction false} InsertSorted(x: string, s: seq<string>)
    requires Ascending(s)
    ensures Ascending(Insert(x, s)) && multiset(Insert(x, s)) == multiset(s) + multiset{x}
  {
    if s == [] || !Less(s[0], x) {
      forall j | 0 <= j < |s| ensures !Less(s[j], x) {
        LessTransitive(x, s[0], s[j]);
        LessTotal(x, x);
      }
    } else {
      var rest := s[1..];
      assert s == [s[0]] + rest;
      InsertSorted(x, rest);
      LessTotal(s[0], x);
      var t := Insert(x, rest);
      forall j | 0 <= j < |t| ensures !Less(t[j], s[0]) {
        assert t[j] in multiset(t);
        assert t[j] == x || t[j] in rest;
      }
    }
  }

  lemma {:induction false} SortSorted(s: seq<string>)
    ensures Ascending(Sort(s)) && multiset(Sort(s)) == multiset(s)
  {
    if s != [] {
      SortSorted(s[1..]);
      InsertSorted(s[0], Sort(s[1..]));
      assert s == [s[0]] + s[1..];
    }
  }

  lemma SameFirst(a: seq<string>, b: seq<string>)
    requires Ascending(a) && Ascending(b) && multiset(a) == multiset(b) && a != [] && b != []
    ensures a[0] == b[0]
  {
    assert a[0] in multiset(b) && b[0] in multiset(a);
    var i :| 0 <= i < |b| && b[i] == a[0];
    var j :| 0 <= j < |a| && a[j] == b[0];
    LessTotal(a[0], b[0]);
  }

  /** An ascending list is determined by what is in it. */
  lemma {:induction false} AscendingUnique(a: seq<string>, b: seq<string>)
    requires Ascending(a) && Ascending(b) && multiset(a) == multiset(b)
    ensures a == b
    decreases |a|
  {
    assert |a| == |multiset(a)| && |b| == |multiset(b)|;
    if a != [] {
      SameFirst(a, b);
      hide Less;
      TailMultiset(a);
      TailMultiset(b);
      AscendingUnique(a[1..], b[1..]);
    }
  }

  lemma TailMultiset(a: seq<string>)
    requires a != []
    ensures a == [a[0]] + a[1..] && multiset(a[1..]) == multiset(a) - multiset{a[0]}
  {
    assert a == [a[0]] + a[1..];
  }

  lemma {:induction false} DistinctMultiset(a: seq<string>)
    requires Distinct(a)
    ensures multiset(a) == multiset(Elements(a))
  {
    if a != [] {
      DistinctMultiset(a[1..]);
      assert a == [a[0]] + a[1..];
      assert Elements(a) == {a[0]} + Elements(a[1..]);
    }
  }

  // ----- comparing joined lists -----

  predicate Plain(ids: seq<string>) {
    forall i :: 0 <= i < |ids| ==> ids[i] != "" && ',' !in ids[i]
  }

  lemma {:induction false} SplitOfJoin(ids: seq<string>)
    requires Plain(ids) && ids != []
    ensures Split(Join(ids, ","), ',') == ids
  {
    SplitWhole(ids[0], ',');
    if |ids| > 1 {
      SplitOfJoin(ids[1..]);
      var rest := Join(ids[1..], ",");
      assert ids[0] + "," + rest == ids[0] + [','] + rest;
      SplitConcat(ids[0], rest, ',');
    } else {
      assert ids == [ids[0]];
    }
  }

  lemma JoinInjective(a: seq<string>, b: seq<string>)
    requires Plain(a) && Plain(b) && Join(a, ",") == Join(b, ",")
    ensures a == b
  {
    if a != [] { SplitOfJoin(a); }
    if b != [] { SplitOfJoin(b); }
    assert Split("", ',') == [""];
  }

  /** Sorted and joined lists are equal texts exactly if the lists hold the same ids. */
  lemma SameText(a: seq<string>, b: seq<string>)
    requires Distinct(a) && Distinct(b) && Plain(a) && Plain(b)
    ensures Join(Sort(a), ",") == Join(Sort(b), ",") <==> Elements(a) == Elements(b)
  {
    SortSorted(a);
    SortSorted(b);
    DistinctMultiset(a);
    DistinctMultiset(b);
    SortPlain(a);
    SortPlain(b);
    if Elements(a) == Elements(b) {
      AscendingUnique(Sort(a), Sort(b));
    }
    if Join(Sort(a), ",") == Join(Sort(b), ",") {
      JoinInjective(Sort(a), Sort(b));
      assert multiset(a) == multiset(b);
      forall x ensures x in Elements(a) <==> x in Elements(b) {
        assert x in a <==> x in multiset(a);
        assert x in b <==> x in multiset(b);
      }
    }
  }

  lemma SortPlain(a: seq<string>)
    requires Plain(a)
    ensures Plain(Sort(a))
  {
    SortSorted(a);
    forall i | 0 <= i < |Sort(a)| ensures Sort(a)[i] != "" && ',' !in Sort(a)[i] {
      assert Sort(a)[i] in multiset(a);
    }
  }

  predicate PlainIds(subnets: seq<Subnet>) {
    forall i :: 0 <= i < |subnets| ==> subnets[i].id != "" && ',' !in subnets[i].id
  }

  lemma {:induction false} ResolvedId(item: string, vpcID: string, subnets: seq<Subnet>)
    ensures var r := Resolve(item, vpcID, subnets);
            r.Found? ==> exists i :: 0 <= i < |subnets| && subnets[i].id == r.id && subnets[i].vpcID == vpcID
  {
    if subnets != [] {
      ResolvedId(item, vpcID, subnets[1..]);
      var r := Resolve(item, vpcID, subnets[1..]);
      if r.Found? {
        var i :| 0 <= i < |subnets[1..]| && subnets[1..][i].id == r.id && subnets[1..][i].vpcID == vpcID;
        assert subnets[i + 1].id == r.id;
      }
    }
  }

  lemma {:induction false} ResolvedIds(items: seq<string>, vpcID: string, subnets: seq<Subnet>)
    ensures var r := ResolveAll(items, vpcID, subnets);
            r.Some? ==> forall id :: id in r.value ==>
                                       exists i :: && 0 <= i < |subnets| && subnets[i].id == id
                                                   && subnets[i].vpcID == vpcID
  {
    if items != [] {
      ResolvedId(items[0], vpcID, subnets);
      ResolvedIds(items[1..], vpcID, subnets);
    }
  }

  /** validateServiceSubnetsNotUpdated. For ids without commas, the update is accepted exactly if the annotation
      is not set or stands for just the subnets the load balancer has. */
  method ValidateServiceSubnetsNotUpdated(annotation: string, lbSubnets: seq<string>, subnets: seq<Subnet>)
    returns (ok: bool)
    ensures WithoutSpaces(annotation) == "" ==> ok
    ensures WithoutSpaces(annotation) != "" && PlainIds(subnets) && Plain(lbSubnets) && Distinct(lbSubnets) ==>
              (ok <==>
               ResolveAll(Split(WithoutSpaces(annotation), ','), VpcOf(lbSubnets, subnets), subnets)
               == Some(Elements(lbSubnets)))
  {
    hide Split, Sort, Join, ResolveAll, VpcOf, Plain, PlainIds, Elements;
    var serviceSubnets := WithoutSpaces(annotation);
    if serviceSubnets == "" {
      return true;
    }
    var vpcID := GetVpcID(lbSubnets, subnets);
    var requested := ValidateServiceSubnets(serviceSubnets, vpcID, subnets);
    if requested.None? {
      return false;
    }
    if PlainIds(subnets) && Plain(lbSubnets) && Distinct(lbSubnets) {
      RequestedPlain(serviceSubnets, vpcID, subnets, requested.value);
      SameText(requested.value, lbSubnets);
    }
    ok := Join(Sort(requested.value), ",") == Join(Sort(lbSubnets), ",");
  }

  lemma RequestedPlain(serviceSubnets: string, vpcID: string, subnets: seq<Subnet>, ids: seq<string>)
    requires PlainIds(subnets) && Some(Elements(ids)) == ResolveAll(Split(serviceSubnets, ','), vpcID, subnets)
    ensures Plain(ids)
  {
    hide Split, ResolveAll;
    ResolvedIds(Split(serviceSubnets, ','), vpcID, subnets);
    forall i | 0 <= i < |ids| ensures ids[i] != "" && ',' !in ids[i] {
      assert ids[i] in Elements(ids);
    }
  }

  // ----- an annotation that created a load balancer -----

  /** filterSubnetsByVpcName */
  function InVpc(subnets: seq<Subnet>, vpcName: string): seq<Subnet> {
    if subnets == [] then []
    else if subnets[0].vpcName == vpcName then [subnets[0]] + InVpc(subnets[1..], vpcName)
    else InVpc(subnets[1..], vpcName)
  }

  /** filterSubnetsByName, as it is: a subnet stays if its name occurs anywhere in the list. */
  ghost function NamedIn(subnets: seq<Subnet>, list: string): seq<Subnet> {
    if subnets == [] then []
    else (if Contains("," + list + ",", subnets[0].name) then [subnets[0]] else []) + NamedIn(subnets[1..], list)
  }

  function SubnetIDs(subnets: seq<Subnet>): seq<string> {
    if subnets == [] then [] else [subnets[0].id] + SubnetIDs(subnets[1..])
  }

  function InZone(subnets: seq<Subnet>, zone: string): seq<string> {
    if subnets == [] then []
    else (if zone == subnets[0].zone then [subnets[0].id] else []) + InZone(subnets[1..], zone)
  }

  /** What the filters keep of one subnet. */
  lemma FilterOne(s: Subnet, vpcName: string, list: string, zone: string)
    ensures InVpc([s], vpcName) == if s.vpcName == vpcName then [s] else []
    ensures NamedIn([s], list) == if exists a, b :: "," + list + "," == a + s.name + b then [s] else []
    ensures InZone([s], zone) == if s.zone == zone then [s.id] else []
    ensures SubnetIDs([s]) == [s.id]
  {
    ContainsIff("," + list + ",", s.name);
    hide Contains;
    assert [s][1..] == [];
  }

  lemma FilterFirst(subnets: seq<Subnet>, vpcName: string, list: string, zone: string)
    requires subnets != []
    ensures var s, rest := subnets[0], subnets[1..];
            && InVpc(subnets, vpcName) == (if s.vpcName == vpcName then [s] else []) + InVpc(rest, vpcName)
            && NamedIn(subnets, list) == (if Contains("," + list + ",", s.name) then [s] else []) + NamedIn(rest, list)
            && InZone(subnets, zone) == (if zone == s.zone then [s.id] else []) + InZone(rest, zone)
            && SubnetIDs(subnets) == [s.id] + SubnetIDs(rest)
  {
    hide Contains;
  }

  /** The filters take the subnets one by one, in order. */
  lemma {:induction false} FilterMore(a: seq<Subnet>, b: seq<Subnet>, vpcName: string, list: string, zone: string)
    ensures InVpc(a + b, vpcName) == InVpc(a, vpcName) + InVpc(b, vpcName)
    ensures NamedIn(a + b, list) == NamedIn(a, list) + NamedIn(b, list)
    ensures InZone(a + b, zone) == InZone(a, zone) + InZone(b, zone)
    ensures SubnetIDs(a + b) == SubnetIDs(a) + SubnetIDs(b)
  {
    hide Contains, InVpc, NamedIn, InZone, SubnetIDs;
    if a == [] {
      assert a + b == b;
      FilterEnds(a, vpcName, list, zone);
    } else {
      assert (a + b)[1..] == a[1..] + b;
      FilterFirst(a, vpcName, list, zone);
      FilterFirst(a + b, vpcName, list, zone);
      FilterMore(a[1..], b, vpcName, list, zone);
    }
  }

  lemma FilterNext(subnets: seq<Subnet>, i: nat, vpcName: string, list: string, zone: string)
    requires i < |subnets|
    ensures var s, now, rest := subnets[i], subnets[i..], subnets[i + 1..];
            && InVpc(now, vpcName) == (if s.vpcName == vpcName then [s] else []) + InVpc(rest, vpcName)
            && NamedIn(now, list) == (if Contains("," + list + ",", s.name) then [s] else []) + NamedIn(rest, list)
            && InZone(now, zone) == (if zone == s.zone then [s.id] else []) + InZone(rest, zone)
            && SubnetIDs(now) == [s.id] + SubnetIDs(rest)
  {
    hide Contains, InVpc, NamedIn, InZone, SubnetIDs;
    assert subnets[i..][0] == subnets[i] && subnets[i..][1..] == subnets[i + 1..];
    FilterFirst(subnets[i..], vpcName, list, zone);
  }

  lemma FilterEnds(subnets: seq<Subnet>, vpcName: string, list: string, zone: string)
    ensures subnets[0..] == subnets && subnets[|subnets|..] == []
    ensures InVpc([], vpcName) == [] && NamedIn([], list) == [] && InZone([], zone) == [] && SubnetIDs([]) == []
  {
  }

  method FilterSubnetsByVpcName(subnets: seq<Subnet>, vpcName: string) returns (matching: seq<Subnet>)
    ensures matching == InVpc(subnets, vpcName)
  {
    hide InVpc;
    FilterEnds(subnets, vpcName, "", "");
    matching := [];
    var i := 0;
    while i < |subnets|
      invariant 0 <= i <= |subnets| && matching + InVpc(subnets[i..], vpcName) == InVpc(subnets, vpcName)
    {
      FilterNext(subnets, i, vpcName, "", "");
      if subnets[i].vpcName == vpcName {
        matching := matching + [subnets[i]];
      }
      i := i + 1;
    }
  }

  method FilterSubnetsByName(subnets: seq<Subnet>, list: string) returns (matching: seq<Subnet>)
    ensures matching == NamedIn(subnets, list)
  {
    hide Contains, NamedIn;
    FilterEnds(subnets, "", list, "");
    matching := [];
    var i := 0;
    while i < |subnets|
      invariant 0 <= i <= |subnets| && matching + NamedIn(subnets[i..], list) == NamedIn(subnets, list)
    {
      FilterNext(subnets, i, "", list, "");
      var found := ContainsText("," + list + ",", subnets[i].name);
      if found {
        matching := matching + [subnets[i]];
      }
      i := i + 1;
    }
  }

  method GetSubnetIDs(subnets: seq<Subnet>) returns (ids: seq<string>)
    ensures ids == SubnetIDs(subnets)
  {
    hide SubnetIDs;
    FilterEnds(subnets, "", "", "");
    ids := [];
    var i := 0;
    while i < |subnets|
      invariant 0 <= i <= |subnets| && ids + SubnetIDs(subnets[i..]) == SubnetIDs(subnets)
    {
      FilterNext(subnets, i, "", "", "");
      ids := ids + [subnets[i].id];
      i := i + 1;
    }
  }

  method ValidateServiceZone(zone: string, subnets: seq<Subnet>) returns (r: Option<seq<string>>)
    ensures r == if InZone(subnets, zone) == [] then None else Some(InZone(subnets, zone))
  {
    hide InZone;
    FilterEnds(subnets, "", "", zone);
    var ids: seq<string> := [];
    var i := 0;
    while i < |subnets|
      invariant 0 <= i <= |subnets| && ids + InZone(subnets[i..], zone) == InZone(subnets, zone)
    {
      FilterNext(subnets, i, "", "", zone);
      if zone == subnets[i].zone {
        ids := ids + [subnets[i].id];
      }
      i := i + 1;
    }
    assert ids == InZone(subnets, zone);
    r := if |ids| == 0 then None else Some(ids);
  }

  datatype Config = Config(vpcName: string, subnetNames: string)

  /** The configured subnets, of which there must be one. */
  ghost function ClusterSubnets(all: seq<Subnet>, config: Config): seq<Subnet> {
    NamedIn(InVpc(all, config.vpcName), config.subnetNames)
  }

  /** A load balancer can be placed: the annotation, if set, can be resolved, and else the zone, if set, has subnets. */
  ghost predicate Placeable(annotation: string, zone: string, all: seq<Subnet>, config: Config) {
    var cluster := ClusterSubnets(all, config);
    && cluster != []
    && if WithoutSpaces(annotation) != "" then
         ResolveAll(Split(WithoutSpaces(annotation), ','), cluster[0].vpcID, InVpc(all, config.vpcName)).Some?
       else WithoutSpaces(zone) != "" ==> InZone(cluster, WithoutSpaces(zone)) != []
  }

  /** These are the subnets to place it in; those of an annotation come in any order. */
  ghost predicate Placed(annotation: string, zone: string, all: seq<Subnet>, config: Config, ids: seq<string>)
    requires Placeable(annotation, zone, all, config)
  {
    var cluster := ClusterSubnets(all, config);
    if WithoutSpaces(annotation) != "" then
      && Distinct(ids)
      && ResolveAll(Split(WithoutSpaces(annotation), ','), cluster[0].vpcID, InVpc(all, config.vpcName)) ==
           Some(Elements(ids))
    else ids == if WithoutSpaces(zone) != "" then InZone(cluster, WithoutSpaces(zone)) else SubnetIDs(cluster)
  }

  /** The part of CreateLoadBalancer that finds the subnets. */
  method ChooseSubnets(annotation: string, zone: string, all: seq<Subnet>, config: Config)
    returns (r: Option<seq<string>>)
    ensures r.Some? <==> Placeable(annotation, zone, all, config)
    ensures r.Some? ==> Placed(annotation, zone, all, config, r.value)
  {
    hide NamedIn, InVpc, ResolveAll, Split, InZone, SubnetIDs;
    var vpcSubnets := FilterSubnetsByVpcName(all, config.vpcName);
    var clusterSubnets := FilterSubnetsByName(vpcSubnets, config.subnetNames);
    if |clusterSubnets| == 0 {
      return None;
    }
    var subnetList := GetSubnetIDs(clusterSubnets);
    var serviceSubnets, serviceZone := WithoutSpaces(annotation), WithoutSpaces(zone);
    r := Some(subnetList);
    if serviceSubnets != "" {
      r := ValidateServiceSubnets(serviceSubnets, clusterSubnets[0].vpcID, vpcSubnets);
    } else if serviceZone != "" {
      r := ValidateServiceZone(serviceZone, clusterSubnets);
    }
  }

  lemma {:induction false} NamedInMembers(subnets: seq<Subnet>, list: string)
    ensures forall s :: s in NamedIn(subnets, list) ==> s in subnets
  {
    hide Contains;
    if subnets != [] {
      NamedInMembers(subnets[1..], list);
    }
  }

  /** What the service guarantees of a complete listing: ids are unique, and a VPC id goes with one VPC name. */
  predicate ListingOk(subnets: seq<Subnet>) {
    && (forall i, j :: 0 <= i < j < |subnets| ==> subnets[i].id != subnets[j].id)
    && (forall i, j :: 0 <= i < |subnets| && 0 <= j < |subnets| && subnets[i].vpcID == subnets[j].vpcID ==>
                         subnets[i].vpcName == subnets[j].vpcName)
  }

  /** The search for an item ends at this subnet. */
  predicate Decides(item: string, vpcID: string, s: Subnet) {
    item == s.id || (vpcID == s.vpcID && (item == s.name || item == s.cidr))
  }

  /** The first subnet of the list that decides the item is one of another VPC, whose id the item is. */
  predicate ForeignDecides(item: string, vpcID: string, subnets: seq<Subnet>) {
    exists k :: 0 <= k < |subnets| && Decides(item, vpcID, subnets[k]) && subnets[k].vpcID != vpcID
                && forall j :: 0 <= j < k ==> !Decides(item, vpcID, subnets[j])
  }

  lemma {:induction false} InVpcMembers(subnets: seq<Subnet>, vpcName: string)
    ensures forall s :: s in InVpc(subnets, vpcName) <==> s in subnets && s.vpcName == vpcName
  {
    if subnets != [] {
      InVpcMembers(subnets[1..], vpcName);
    }
  }

  lemma ForeignDecidesRest(item: string, vpcID: string, subnets: seq<Subnet>)
    requires subnets != [] && !Decides(item, vpcID, subnets[0])
    ensures ForeignDecides(item, vpcID, subnets) <==> ForeignDecides(item, vpcID, subnets[1..])
  {
    hide Decides;
    var rest := subnets[1..];
    if ForeignDecides(item, vpcID, subnets) {
      var k :| 0 <= k < |subnets| && Decides(item, vpcID, subnets[k]) && subnets[k].vpcID != vpcID
               && forall j :: 0 <= j < k ==> !Decides(item, vpcID, subnets[j]);
      assert rest[k - 1] == subnets[k];
    }
    if ForeignDecides(item, vpcID, rest) {
      var k :| 0 <= k < |rest| && Decides(item, vpcID, rest[k]) && rest[k].vpcID != vpcID
               && forall j :: 0 <= j < k ==> !Decides(item, vpcID, rest[j]);
      assert subnets[k + 1] == rest[k];
      assert forall j :: 1 <= j < k + 1 ==> subnets[j] == rest[j - 1];
    }
  }

  lemma ForeignDecidesFirst(item: string, vpcID: string, subnets: seq<Subnet>)
    requires subnets != [] && Decides(item, vpcID, subnets[0])
    ensures ForeignDecides(item, vpcID, subnets) <==> subnets[0].vpcID != vpcID
  {
    hide Decides;
  }

  /** Searching the full list finds what searching the filtered list found, unless a subnet of another VPC decides. */
  lemma {:induction false} ResolveInFull(item: string, vpcID: string, subnets: seq<Subnet>, vpcName: string)
    requires forall i :: 0 <= i < |subnets| && subnets[i].vpcID == vpcID ==> subnets[i].vpcName == vpcName
    requires Resolve(item, vpcID, InVpc(subnets, vpcName)).Found?
    ensures Resolve(item, vpcID, subnets) ==
            if ForeignDecides(item, vpcID, subnets) then OtherVpc else Resolve(item, vpcID, InVpc(subnets, vpcName))
  {
    hide ForeignDecides;
    var s, rest := subnets[0], subnets[1..];
    assert forall i :: 0 <= i < |rest| ==> rest[i] == subnets[i + 1];
    if s.vpcName == vpcName {
      assert InVpc(subnets, vpcName)[1..] == InVpc(rest, vpcName);
    }
    if Decides(item, vpcID, s) {
      ForeignDecidesFirst(item, vpcID, subnets);
    } else {
      ForeignDecidesRest(item, vpcID, subnets);
      ResolveInFull(item, vpcID, rest, vpcName);
    }
  }

  lemma {:induction false} ResolveAllInFull(items: seq<string>, vpcID: string, subnets: seq<Subnet>, vpcName: string)
    requires forall i :: 0 <= i < |subnets| && subnets[i].vpcID == vpcID ==> subnets[i].vpcName == vpcName
    requires ResolveAll(items, vpcID, InVpc(subnets, vpcName)).Some?
    ensures ResolveAll(items, vpcID, subnets) ==
            if exists item :: item in items && ForeignDecides(item, vpcID, subnets) then None
            else ResolveAll(items, vpcID, InVpc(subnets, vpcName))
  {
    hide ForeignDecides, InVpc, Resolve;
    if items != [] {
      ResolveInFull(items[0], vpcID, subnets, vpcName);
      ResolveAllInFull(items[1..], vpcID, subnets, vpcName);
      assert forall item :: item in items <==> item == items[0] || item in items[1..];
    }
  }

  lemma {:induction false} FirstVpcOfId(id: string, vpcID: string, subnets: seq<Subnet>)
    requires forall i, j :: 0 <= i < j < |subnets| ==> subnets[i].id != subnets[j].id
    requires exists i :: 0 <= i < |subnets| && subnets[i].id == id && subnets[i].vpcID == vpcID
    ensures FirstVpc(id, subnets) == vpcID
  {
    var i :| 0 <= i < |subnets| && subnets[i].id == id && subnets[i].vpcID == vpcID;
    if subnets[0].id != id {
      assert subnets[1..][i - 1] == subnets[i];
      FirstVpcOfId(id, vpcID, subnets[1..]);
    }
  }

  /** Creation resolves an annotation in the list filtered by VPC name with the VPC of a cluster subnet; the update
      resolves it in the full list with the VPC of the load balancer's own subnets. So an annotation that created a
      load balancer with just its subnets is accepted by the update if and only if no item is decided by a subnet of
      another VPC: if none is, both come to the same ids, and otherwise the update finds none at all. */
  lemma CreatedIsAccepted(annotation: string, subnets: seq<Subnet>, vpcName: string, cluster: Subnet,
                          lbSubnets: seq<string>)
    requires ListingOk(subnets) && cluster in InVpc(subnets, vpcName)
    requires var created := ResolveAll(Split(WithoutSpaces(annotation), ','), cluster.vpcID, InVpc(subnets, vpcName));
             created == Some(Elements(lbSubnets))
    ensures VpcOf(lbSubnets, subnets) == cluster.vpcID
    ensures var items := Split(WithoutSpaces(annotation), ',');
            ResolveAll(items, VpcOf(lbSubnets, subnets), subnets) ==
            if exists item :: item in items && ForeignDecides(item, cluster.vpcID, subnets) then None
            else Some(Elements(lbSubnets))
  {
    hide Split, Resolve, ForeignDecides;
    var items, own := Split(WithoutSpaces(annotation), ','), InVpc(subnets, vpcName);
    InVpcMembers(subnets, vpcName);
    ResolveAllInFull(items, cluster.vpcID, subnets, vpcName);
    ResolvedIds(items, cluster.vpcID, own);
    assert Elements([]) == {} && Elements(lbSubnets) != {};
    var id := lbSubnets[0];
    assert id in Elements(lbSubnets);
    var k :| 0 <= k < |own| && own[k].id == id && own[k].vpcID == cluster.vpcID;
    assert own[k] in own;
    FirstVpcOfId(id, cluster.vpcID, subnets);
  }

  /** In particular it is accepted if no subnet's id is another's name or CIDR. */
  lemma DisjointIdsAreAccepted(annotation: string, subnets: seq<Subnet>, vpcName: string, cluster: Subnet,
                               lbSubnets: seq<string>)
    requires ListingOk(subnets) && cluster in InVpc(subnets, vpcName)
    requires forall i, j :: 0 <= i < |subnets| && 0 <= j < |subnets| ==>
                              subnets[i].id != subnets[j].name && subnets[i].id != subnets[j].cidr
    requires var created := ResolveAll(Split(WithoutSpaces(annotation), ','), cluster.vpcID, InVpc(subnets, vpcName));
             created == Some(Elements(lbSubnets))
    ensures ResolveAll(Split(WithoutSpaces(annotation), ','), VpcOf(lbSubnets, subnets), subnets) ==
              Some(Elements(lbSubnets))
  {
    hide Split, Resolve, ResolveAll;
    var items, own := Split(WithoutSpaces(annotation), ','), InVpc(subnets, vpcName);
    CreatedIsAccepted(annotation, subnets, vpcName, cluster, lbSubnets);
    InVpcMembers(subnets, vpcName);
    hide ForeignDecides, Decides, InVpc, Elements, VpcOf;
    forall item | item in items ensures !ForeignDecides(item, cluster.vpcID, subnets) {
      ResolvedItem(items, item, cluster.vpcID, own);
      var s :| s in own && s.vpcID == cluster.vpcID && Decides(item, cluster.vpcID, s);
      NoForeignId(subnets, item, s);
    }
  }

  /** What a subnet decides for its VPC no subnet of another VPC has for id. */
  lemma NoForeignId(subnets: seq<Subnet>, item: string, s: Subnet)
    requires s in subnets && Decides(item, s.vpcID, s) && ListingOk(subnets)
    requires forall i, j :: 0 <= i < |subnets| && 0 <= j < |subnets| ==>
                              subnets[i].id != subnets[j].name && subnets[i].id != subnets[j].cidr
    ensures !ForeignDecides(item, s.vpcID, subnets)
  {
    var k :| 0 <= k < |subnets| && subnets[k] == s;
  }

  lemma {:induction false} ResolvedItem(items: seq<string>, item: string, vpcID: string, subnets: seq<Subnet>)
    requires item in items && ResolveAll(items, vpcID, subnets).Some?
    ensures exists s :: s in subnets && s.vpcID == vpcID && Decides(item, vpcID, s)
  {
    if item == items[0] {
      FoundItem(item, vpcID, subnets);
    } else {
      ResolvedItem(items[1..], item, vpcID, subnets);
    }
  }

  lemma {:induction false} FoundItem(item: string, vpcID: string, subnets: seq<Subnet>)
    requires Resolve(item, vpcID, subnets).Found?
    ensures exists s :: s in subnets && s.vpcID == vpcID && Decides(item, vpcID, s)
  {
    if Decides(item, vpcID, subnets[0]) {
      assert subnets[0] in subnets;
    } else {
      FoundItem(item, vpcID, subnets[1..]);
      var t :| t in subnets[1..] && t.vpcID == vpcID && Decides(item, vpcID, t);
      assert t in subnets;
    }
  }

  const OWN := Subnet("s-1", "web", "10.0.0.0/24", "z-1", "v-1", "vpc")
  const FOREIGN := Subnet("web", "other", "10.1.0.0/24", "z-1", "v-2", "vpc2")

  /** The order of the listing matters: a load balancer is created from the annotation "web", the name of one of the
      cluster's subnets and the id of another VPC's. Its update is rejected if the other is listed first, and
      accepted if it is listed last. */
  lemma ForeignIdIsRejected()
    ensures forall all :: all == [FOREIGN, OWN] || all == [OWN, FOREIGN] ==>
              && ListingOk(all) && OWN in InVpc(all, "vpc")
              && ResolveAll(Split(WithoutSpaces("web"), ','), "v-1", InVpc(all, "vpc")) == Some({"s-1"})
              && ResolveAll(Split(WithoutSpaces("web"), ','), VpcOf(["s-1"], all), all) ==
                 if all == [FOREIGN, OWN] then None else Some({"s-1"})
  {
    OneItem();
    forall all | all == [FOREIGN, OWN] || all == [OWN, FOREIGN]
      ensures && ListingOk(all) && OWN in InVpc(all, "vpc")
              && ResolveAll(["web"], "v-1", InVpc(all, "vpc")) == Some({"s-1"})
              && ResolveAll(["web"], VpcOf(["s-1"], all), all) == if all == [FOREIGN, OWN] then None else Some({"s-1"})
    {
      OwnOfBoth(all);
      OwnResolves();
      assert Elements(["s-1"]) == {"s-1"};
      CreatedIsAccepted("web", all, "vpc", OWN, ["s-1"]);
      ForeignDecidesFirst("web", "v-1", all);
      assert forall item :: item in ["web"] <==> item == "web";
    }
  }

  lemma OwnOfBoth(all: seq<Subnet>)
    requires all == [FOREIGN, OWN] || all == [OWN, FOREIGN]
    ensures InVpc(all, "vpc") == [OWN]
  {
    assert InVpc([OWN], "vpc") == [OWN] && InVpc([FOREIGN], "vpc") == [];
    assert all[1..] == [OWN] || all[1..] == [FOREIGN];
  }

  /** A subnet is found by its id, its name and its CIDR. */
  lemma OwnResolves()
    ensures ResolveAll(["s-1"], "v-1", [OWN]) == Some({"s-1"})
    ensures ResolveAll(["web"], "v-1", [OWN]) == Some({"s-1"})
    ensures ResolveAll(["10.0.0.0/24"], "v-1", [OWN]) == Some({"s-1"})
  {
    forall item | item == "s-1" || item == "web" || item == "10.0.0.0/24"
      ensures ResolveAll([item], "v-1", [OWN]) == Some({"s-1"})
    {
      var none: set<string> := {};
      ResolvesToFirst(item, "v-1", [OWN], 0);
      assert [item][1..] == [] && ResolveAll([item][1..], "v-1", [OWN]) == Some(none) && {"s-1"} + none == {"s-1"};
    }
  }

  lemma OneItem()
    ensures Split(WithoutSpaces("web"), ',') == ["web"]
  {
    assert "web"[1..] == "eb" && "eb"[1..] == "b" && "b"[1..] == "";
    assert WithoutSpaces("b") == "b" && WithoutSpaces("eb") == "eb" && WithoutSpaces("web") == "web";
    SplitWhole("web", ',');
  }
}

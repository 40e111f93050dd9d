/** Which nodes become pool members: the member quota of a service and the selection it forces. */
module Nodes {
  import opened Text

  const DEFAULT_POOL_MEMBER_QUOTA := 50

  /** getServiceMemberQuota on the annotation value ("" when it is not set); None is the error for a
      value that is no number. */
  function MemberQuota(annotation: string): Option<int> {
    var quota := ToLower(annotation);
    if quota == "" then Some(DEFAULT_POOL_MEMBER_QUOTA)
    else if quota == "disable" || quota == "max" then Some(0)
    else Atoi(quota)
  }

  /** A number in the annotation is read as that number, with a sign or without; "disable" and "max", in any case,
      and 0 lift the limit: every desired node is selected, in the desired order. */
  lemma QuotaIsRead(n: int, annotation: string, desired: seq<string>, existing: seq<string>)
    requires 0 <= n <= MAX_INT64 && (ToLower(annotation) == "disable" || ToLower(annotation) == "max")
    ensures MemberQuota(Decimal(n)) == MemberQuota("+" + Decimal(n)) == Some(n)
    ensures MemberQuota("-" + Decimal(n)) == Some(-n)
    ensures MemberQuota(annotation) == MemberQuota(Decimal(0)) && Select(desired, existing, 0) == desired
  {
    hide Atoi, Decimal, ToLower;
    AtoiSigned(n);
    AtoiSigned(0);
    NoWord("", Decimal(n));
    NoWord("+", Decimal(n));
    NoWord("-", Decimal(n));
    NoWord("", Decimal(0));
  }

  /** A number in letters is none of the words the annotation may hold, and lower case already. */
  lemma NoWord(sign: string, digits: string)
    requires sign in {"", "+", "-"} && digits != "" && forall i :: 0 <= i < |digits| ==> IsDigit(digits[i])
    ensures ToLower(sign + digits) == sign + digits && sign + digits !in {"", "disable", "max"}
    ensures "" + digits == digits
  {
    var s := sign + digits;
    assert forall i :: 0 <= i < |s| ==> LowerChar(s[i]) == s[i];
    assert s[0] == '+' || s[0] == '-' || IsDigit(s[0]);
    assert "disable"[0] == 'd' && "max"[0] == 'm';
  }

  lemma NumeralHasNoLetters(s: string, v: int)
    requires Numeral(s, v)
    ensures forall i :: 0 <= i < |s| ==> IsDigit(s[i]) || s[i] == '+' || s[i] == '-'
  {
    hide Digits;
    if v >= 0 && Digits(s, v) {
      ValueOfDigits(s, v);
    } else {
      ValueOfDigits(s[1..], if v >= 0 then v else -v);
      assert s == [s[0]] + s[1..];
    }
  }

  lemma NumeralIsLower(s: string, v: int)
    ensures Numeral(ToLower(s), v) <==> Numeral(s, v)
  {
    hide Numeral;
    if Numeral(s, v) {
      NumeralHasNoLetters(s, v);
      assert ToLower(s) == s;
    }
    if Numeral(ToLower(s), v) {
      NumeralHasNoLetters(ToLower(s), v);
      forall i | 0 <= i < |s| ensures ToLower(s)[i] == s[i] {
        assert ToLower(s)[i] == LowerChar(s[i]);
      }
      assert ToLower(s) == s;
    }
  }

  /** What an annotation stands for: 50 if it is not set, no limit if it is one of the two words in any case, and else
      the number it is the text of; any other text is an error. */
  lemma QuotaIff(annotation: string, v: int)
    ensures MemberQuota(annotation) == Some(v) <==>
            if annotation == "" then v == 50
            else if ToLower(annotation) in {"disable", "max"} then v == 0
            else Numeral(annotation, v) && -0x8000_0000_0000_0000 <= v < 0x8000_0000_0000_0000
  {
    hide Atoi, Numeral;
    AtoiIff(ToLower(annotation), v);
    NumeralIsLower(annotation, v);
    assert |ToLower(annotation)| == |annotation|;
  }

  /** The desired nodes that are (or are not) existing members, in order. */
  function Sift(desired: seq<string>, existing: seq<string>, member: bool): seq<string> {
    if desired == [] then []
    else if (desired[0] in existing) == member then [desired[0]] + Sift(desired[1..], existing, member)
    else Sift(desired[1..], existing, member)
  }

  function Keep(desired: seq<string>, existing: seq<string>): seq<string> {
    Sift(desired, existing, true)
  }

  function Rest(desired: seq<string>, existing: seq<string>): seq<string> {
    Sift(desired, existing, false)
  }

  /** Appending one by one until the quota is reached; a quota that is not positive is never reached. */
  function Cap(nodes: seq<string>, quota: int): seq<string> {
    if 0 < quota <= |nodes| then nodes[..quota] else nodes
  }

  /** The selected nodes: existing members first, in the order of the desired list. */
  function Select(desired: seq<string>, existing: seq<string>, quota: int): seq<string> {
    if quota == 0 || |desired| <= quota then desired else Cap(Keep(desired, existing) + Rest(desired, existing), quota)
  }

  // ----- the loop -----

  lemma {:induction false} SiftConcat(a: seq<string>, b: seq<string>, existing: seq<string>, member: bool)
    ensures Sift(a + b, existing, member) == Sift(a, existing, member) + Sift(b, existing, member)
    decreases |a|
  {
    if a == [] {
      assert a + b == b;
    } else {
      assert (a + b)[0] == a[0] && (a + b)[1..] == a[1..] + b;
      SiftConcat(a[1..], b, existing, member);
    }
  }

  lemma SiftSnoc(desired: seq<string>, i: nat, existing: seq<string>, member: bool)
    requires i < |desired|
    ensures Sift(desired[..i + 1], existing, member)
            == Sift(desired[..i], existing, member) + (if (desired[i] in existing) == member then [desired[i]] else [])
    ensures Sift(desired[..i + 1], existing, member) <= Sift(desired, existing, member)
  {
    assert desired[..i + 1] == desired[..i] + [desired[i]];
    SiftConcat(desired[..i], [desired[i]], existing, member);
    assert desired == desired[..i + 1] + desired[i + 1..];
    SiftConcat(desired[..i + 1], desired[i + 1..], existing, member);
  }

  lemma {:induction false} SiftNothing(desired: seq<string>, member: bool)
    ensures Sift(desired, [], member) == if member then [] else desired
  {
    if desired != [] {
      SiftNothing(desired[1..], member);
    }
  }

  lemma SiftNothingYet(existing: seq<string>)
    ensures Keep([], existing) == [] && Rest([], existing) == []
  {
  }

  /** What the loops have collected when they stop is the selection. */
  lemma CollectedIsSelected(desired: seq<string>, existing: seq<string>, quota: int, nodes: seq<string>)
    requires quota != 0 && quota < |desired|
    requires var all := Keep(desired, existing) + Rest(desired, existing);
             nodes <= all && (|nodes| == quota || (nodes == all && !(0 < quota <= |all|)))
    ensures nodes == Select(desired, existing, quota)
  {
  }

  /** The first loop of filterNodesByServiceMemberQuota: existing members move to the final list, and it
      stops early when they fill the quota. */
  method PreferExisting(desired: seq<string>, existing: seq<string>, quota: int)
    returns (finalNodes: seq<string>, remaining: seq<string>, full: bool)
    requires quota != 0
    requires forall i :: 0 <= i < |desired| ==> desired[i] != "" && ' ' !in desired[i]
    requires forall i :: 0 <= i < |existing| ==> ' ' !in existing[i]
    ensures full ==> |finalNodes| == quota && finalNodes <= Keep(desired, existing)
    ensures !full ==> finalNodes == Keep(desired, existing) && remaining == Rest(desired, existing)
    ensures !full && quota > 0 ==> |finalNodes| < quota
  {
    hide Padded, Contains, Sift;
    finalNodes, remaining, full := [], [], false;
    var existingList := Padded(existing);
    var i := 0;
    SiftNothingYet(existing);
    while i < |desired|
      invariant 0 <= i <= |desired|
      invariant finalNodes == Keep(desired[..i], existing) && remaining == Rest(desired[..i], existing)
      invariant quota > 0 ==> |finalNodes| < quota
    {
      SiftSnoc(desired, i, existing, true);
      SiftSnoc(desired, i, existing, false);
      PaddedContains(existing, desired[i]);
      var found := ContainsText(existingList, " " + desired[i] + " ");
      if found {
        finalNodes := finalNodes + [desired[i]];
        if |finalNodes| == quota {
          full := true;
          return;
        }
      } else {
        remaining := remaining + [desired[i]];
      }
      i := i + 1;
    }
    assert desired[..i] == desired;
  }

  /** filterNodesByServiceMemberQuota. The annotation is read only for a service that is not Local. */
  method FilterNodesByServiceMemberQuota(desired: seq<string>, existing: seq<string>, local: bool, annotation: string)
    returns (r: Option<seq<string>>)
    requires forall i :: 0 <= i < |desired| ==> desired[i] != "" && ' ' !in desired[i]
    requires forall i :: 0 <= i < |existing| ==> ' ' !in existing[i]
    ensures local ==> r == Some(desired)
    ensures !local && MemberQuota(annotation).None? ==> r.None?
    ensures !local && MemberQuota(annotation).Some? ==>
              r == Some(Select(desired, existing, MemberQuota(annotation).value))
  {
    hide Sift, MemberQuota, Cap;
    if local {
      return Some(desired);
    }
    var parsed := MemberQuota(annotation);
    if parsed.None? {
      return None;
    }
    var quota := parsed.value;
    if quota == 0 || |desired| <= quota {
      return Some(desired);
    }
    hide Select;
    var finalNodes: seq<string>, todo: seq<string> := [], desired;
    if |existing| > 0 {
      var full;
      finalNodes, todo, full := PreferExisting(desired, existing, quota);
      if full {
        CollectedIsSelected(desired, existing, quota, finalNodes);
        return Some(finalNodes);
      }
    } else {
      SiftNothing(desired, true);
      SiftNothing(desired, false);
    }
    ghost var all := finalNodes + todo;
    ghost var kept := |finalNodes|;
    var i := 0;
    while i < |todo|
      invariant 0 <= i <= |todo| && kept + i <= |all|
      invariant finalNodes == all[..kept + i]
      invariant quota > 0 ==> |finalNodes| < quota
    {
      finalNodes := finalNodes + [todo[i]];
      if |finalNodes| == quota {
        break;
      }
      i := i + 1;
    }
    CollectedIsSelected(desired, existing, quota, finalNodes);
    r := Some(finalNodes);
  }

  // ----- what the selection promises -----

  lemma {:induction false} SiftElements(desired: seq<string>, existing: seq<string>, member: bool)
    requires Distinct(desired)
    ensures forall x :: x in Sift(desired, existing, member) <==> x in desired && (x in existing) == member
    ensures Distinct(Sift(desired, existing, member))
  {
    if desired != [] {
      var d, tail := desired[0], desired[1..];
      SiftElements(tail, existing, member);
      assert d !in tail && forall x :: x in desired <==> x == d || x in tail;
    }
  }

  lemma {:induction false} SiftSizes(desired: seq<string>, existing: seq<string>)
    ensures |Keep(desired, existing)| + |Rest(desired, existing)| == |desired|
  {
    if desired != [] {
      SiftSizes(desired[1..], existing);
    }
  }

  lemma KeepElements(desired: seq<string>, existing: seq<string>)
    requires Distinct(desired)
    ensures Elements(Keep(desired, existing)) == Elements(desired) * Elements(existing)
    ensures Elements(Rest(desired, existing)) == Elements(desired) - Elements(existing)
    ensures Distinct(Keep(desired, existing)) && Distinct(Rest(desired, existing))
    ensures |Keep(desired, existing)| + |Rest(desired, existing)| == |desired|
  {
    SiftElements(desired, existing, true);
    SiftElements(desired, existing, false);
    SiftSizes(desired, existing);
  }

  lemma {:induction false} ElementsSize(s: seq<string>)
    requires Distinct(s)
    ensures |Elements(s)| == |s|
  {
    if s != [] {
      ElementsSize(s[1..]);
      assert Elements(s) == {s[0]} + Elements(s[1..]);
    }
  }

  function Min(a: int, b: int): int { if a <= b then a else b }

  lemma DisjointConcat(a: seq<string>, b: seq<string>)
    requires Distinct(a) && Distinct(b) && Elements(a) !! Elements(b)
    ensures Distinct(a + b) && Elements(a + b) == Elements(a) + Elements(b)
  {
    forall i, j | 0 <= i < j < |a + b| ensures (a + b)[i] != (a + b)[j] {
      if i < |a| <= j {
        assert a[i] in Elements(a) && b[j - |a|] in Elements(b);
      }
    }
  }

  lemma OrderedNodes(desired: seq<string>, existing: seq<string>)
    requires Distinct(desired)
    ensures var all := Keep(desired, existing) + Rest(desired, existing);
            Distinct(all) && Elements(all) == Elements(desired) && |all| == |desired|
  {
    KeepElements(desired, existing);
    DisjointConcat(Keep(desired, existing), Rest(desired, existing));
  }

  /** The selection has no repetitions, takes only desired nodes, and is exactly as long as the quota
      when a positive quota is exceeded; otherwise it is the whole desired list, perhaps reordered. */
  lemma SelectedNodes(desired: seq<string>, existing: seq<string>, quota: int)
    requires Distinct(desired)
    ensures var nodes := Select(desired, existing, quota);
            && Distinct(nodes) && Elements(nodes) <= Elements(desired)
            && |nodes| == (if 0 < quota < |desired| then quota else |desired|)
            && (!(0 < quota < |desired|) ==> Elements(nodes) == Elements(desired))
  {
    OrderedNodes(desired, existing);
    var all := Keep(desired, existing) + Rest(desired, existing);
    var nodes := Select(desired, existing, quota);
    assert nodes == desired || nodes == Cap(all, quota);
    forall x | x in nodes ensures x in Elements(desired) {
      if nodes != desired { assert x in all; }
    }
  }

  /** No other selection of that size keeps more existing members: as many are kept as fit. */
  lemma SelectionKeepsExisting(desired: seq<string>, existing: seq<string>, quota: int)
    requires Distinct(desired) && 0 < quota < |desired|
    ensures |Elements(Select(desired, existing, quota)) * Elements(existing)|
            == Min(quota, |Elements(desired) * Elements(existing)|)
  {
    var kept, rest := Keep(desired, existing), Rest(desired, existing);
    KeepElements(desired, existing);
    ElementsSize(kept);
    var nodes := Select(desired, existing, quota);
    if quota <= |kept| {
      assert nodes == kept[..quota];
      forall x | x in nodes ensures x in existing { assert x in Elements(kept); }
      assert Elements(nodes) * Elements(existing) == Elements(nodes);
      ElementsSize(nodes);
    } else {
      var more := rest[..quota - |kept|];
      assert nodes == kept + more;
      forall x | x in more ensures x !in existing { assert x in Elements(rest); }
      assert Elements(nodes) * Elements(existing) == Elements(kept) by {
        forall x ensures x in Elements(nodes) * Elements(existing) <==> x in Elements(kept) {
          assert x in nodes <==> x in kept || x in more;
        }
      }
    }
  }

  lemma ElementsOfSubset(a: set<string>, b: set<string>)
    requires a <= b && |a| == |b|
    ensures a == b
  {
    assert b == a + (b - a);
  }

  /** Stability: selecting again, with the nodes selected before as the existing members and the desired nodes
      in any order, selects the same nodes. */
  lemma SelectionIsStable(desired: seq<string>, existing: seq<string>, reordered: seq<string>, members: seq<string>,
                          quota: int)
    requires Distinct(desired) && Distinct(reordered) && Elements(reordered) == Elements(desired)
    requires Elements(members) == Elements(Select(desired, existing, quota))
    ensures Elements(Select(reordered, members, quota)) == Elements(Select(desired, existing, quota))
  {
    hide Select;
    SelectedNodes(desired, existing, quota);
    SelectedNodes(reordered, members, quota);
    ElementsSize(desired);
    ElementsSize(reordered);
    if 0 < quota < |desired| {
      var first, second := Select(desired, existing, quota), Select(reordered, members, quota);
      SelectionKeepsExisting(reordered, members, quota);
      assert Elements(reordered) * Elements(members) == Elements(members);
      ElementsSize(first);
      ElementsSize(second);
      ElementsOfSubset(Elements(second) * Elements(members), Elements(second));
      ElementsOfSubset(Elements(second) * Elements(members), Elements(members));
    }
  }
}

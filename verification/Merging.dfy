/** checkForMultiplePoolMemberUpdates as it is written: over lines of text, with a counter per pool name
    that is set to zero once the pool's replacement has been issued. */
module Merging {
  import opened Text
  import opened Remote
  import opened Optimiser
  import opened Codec

  lemma PrefixNext<T>(s: seq<T>, i: nat)
    requires i < |s|
    ensures s[..i + 1] == s[..i] + [s[i]]
  {
  }

  lemma CountNext(plan: seq<Command>, i: nat, name: string)
    requires i < |plan|
    ensures CountFor(plan[..i + 1], name) ==
              CountFor(plan[..i], name) + (if IsMemberUpdate(plan[i]) && plan[i].name == name then 1 else 0)
  {
    PrefixNext(plan, i);
    CountConcat(plan[..i], [plan[i]], name);
    assert [plan[i]][1..] == [];
  }

  lemma FilterNext(plan: seq<Command>, i: nat, busy: set<string>)
    requires i < |plan|
    ensures var a, seen := plan[i], NamesIn(plan[..i]) * busy;
            && Filter(plan[..i + 1], busy, {}) == Filter(plan[..i], busy, {}) +
               (if !IsMemberUpdate(a) || a.name !in busy then [a]
                else if a.name in seen then [] else [ReplaceMembers(a.name, a.poolId)])
            && NamesIn(plan[..i + 1]) == NamesIn(plan[..i]) + (if IsMemberUpdate(a) then {a.name} else {})
  {
    PrefixNext(plan, i);
    FilterConcat(plan[..i], [plan[i]], busy, {});
    assert {} + NamesIn(plan[..i]) * busy == NamesIn(plan[..i]) * busy;
    assert [plan[i]][1..] == [] && [plan[i]][0] in [plan[i]];
    NamesInConcat(plan[..i], [plan[i]]);
    assert NamesIn([plan[i]]) == if IsMemberUpdate(plan[i]) then {plan[i].name} else {};
  }

  /** The fields the optimiser looks at. */
  lemma LineParts(a: Command)
    requires Printable(a)
    ensures var w := Fields(Line(a));
            && |w| >= 2 && w[0] == Verb(a) && w[1] == a.name
            && (IsMemberUpdate(a) ==> |w| >= 3 && w[2] == a.poolId)
            && (w[0] == CREATE_POOL_MEMBER || w[0] == DELETE_POOL_MEMBER <==> IsMemberUpdate(a))
  {
    hide Fields, Line;
    LineFields(a);
  }

  /** The counters after the first i lines. */
  ghost predicate Counted(poolUpdates: map<string, int>, plan: seq<Command>) {
    && (forall n :: n in poolUpdates ==> poolUpdates[n] == CountFor(plan, n) > 0)
    && (forall n :: n !in poolUpdates ==> CountFor(plan, n) == 0)
  }

  /** The first loop: count the member updates of each pool name. */
  method CountMemberUpdates(updates: seq<string>, ghost plan: seq<Command>) returns (poolUpdates: map<string, int>)
    requires updates == Lines(plan) && forall i :: 0 <= i < |plan| ==> Printable(plan[i])
    ensures Counted(poolUpdates, plan)
  {
    hide Line, Fields, Printable;
    poolUpdates := map[];
    var i := 0;
    while i < |updates|
      invariant 0 <= i <= |updates| && Counted(poolUpdates, plan[..i])
    {
      LineParts(plan[i]);
      var updateArgs := Fields(updates[i]);
      var cmd, poolName := updateArgs[0], updateArgs[1];
      forall n { CountNext(plan, i, n); }
      if cmd == CREATE_POOL_MEMBER || cmd == DELETE_POOL_MEMBER {
        poolUpdates := poolUpdates[poolName := (if poolName in poolUpdates then poolUpdates[poolName] else 0) + 1];
      }
      i := i + 1;
    }
    assert plan[..i] == plan;
  }

  lemma BusyIsCounted(poolUpdates: map<string, int>, plan: seq<Command>)
    requires Counted(poolUpdates, plan)
    ensures forall n :: n in Busy(plan) <==> n in poolUpdates && poolUpdates[n] > 1
  {
    forall n ensures n in Busy(plan) <==> n in poolUpdates && poolUpdates[n] > 1 {
      BusyMeansSeveral(plan, n);
    }
  }

  /** The counters while lines are filtered: those of pools already replaced are zero. */
  ghost predicate Zeroed(poolUpdates: map<string, int>, plan: seq<Command>, busy: set<string>, seen: set<string>) {
    forall n :: n in NamesIn(plan) ==>
                  && n in poolUpdates
                  && poolUpdates[n] == (if n in busy && n in seen then 0 else CountFor(plan, n))
                  && CountFor(plan, n) > 0 && (n in busy <==> CountFor(plan, n) > 1)
  }

  method CheckForMultiplePoolMemberUpdates(updates: seq<string>, ghost plan: seq<Command>)
    returns (filtered: seq<string>)
    requires updates == Lines(plan) && forall i :: 0 <= i < |plan| ==> Printable(plan[i])
    ensures filtered == Lines(Optimise(plan))
  {
    hide Line, Fields, Printable, Filter, CountFor, NamesIn;
    var poolUpdates := CountMemberUpdates(updates, plan);
    ghost var busy := Busy(plan);
    BusyIsCounted(poolUpdates, plan);
    var filterNeeded := false;
    var names := poolUpdates.Keys;
    while names != {}
      invariant names <= poolUpdates.Keys
      invariant filterNeeded <==> exists n :: n in poolUpdates && n !in names && poolUpdates[n] > 1
    {
      var name :| name in names;
      if poolUpdates[name] > 1 {
        filterNeeded := true;
      }
      names := names - {name};
    }
    if !filterNeeded {
      assert busy == {};
      FilterNothing(plan, busy, {});
      return updates;
    }
    CountersStart(poolUpdates, plan);
    hide Counted, Busy;
    filtered := [];
    FilterStart(plan, busy);
    var i := 0;
    while i < |updates|
      invariant 0 <= i <= |updates|
      invariant filtered == Lines(Filter(plan[..i], busy, {}))
      invariant Zeroed(poolUpdates, plan, busy, NamesIn(plan[..i]))
    {
      LineParts(plan[i]);
      FilterNext(plan, i, busy);
      InNames(plan, i);
      var updateArgs := Fields(updates[i]);
      var cmd := updateArgs[0];
      if cmd != CREATE_POOL_MEMBER && cmd != DELETE_POOL_MEMBER {
        filtered := filtered + [updates[i]];
        i := i + 1;
        continue;
      }
      var poolName, poolID := updateArgs[1], updateArgs[2];
      if poolUpdates[poolName] == 1 {
        filtered := filtered + [updates[i]];
      } else if poolUpdates[poolName] > 1 {
        filtered := filtered + [Line(ReplaceMembers(poolName, poolID))];
        poolUpdates := poolUpdates[poolName := 0];
      }
      i := i + 1;
    }
    assert plan[..i] == plan;
  }

  lemma InNames(plan: seq<Command>, i: nat)
    requires i < |plan|
    ensures IsMemberUpdate(plan[i]) ==> plan[i].name in NamesIn(plan)
  {
    assert plan[i] in plan;
  }

  lemma FilterStart(plan: seq<Command>, busy: set<string>)
    ensures Filter(plan[..0], busy, {}) == []
  {
  }

  lemma CountersStart(poolUpdates: map<string, int>, plan: seq<Command>)
    requires Counted(poolUpdates, plan)
    ensures Zeroed(poolUpdates, plan, Busy(plan), NamesIn(plan[..0]))
  {
    forall n | n in NamesIn(plan) ensures CountFor(plan, n) > 0 && (n in Busy(plan) <==> CountFor(plan, n) > 1) {
      CountNone(plan, n);
      BusyMeansSeveral(plan, n);
    }
  }
}

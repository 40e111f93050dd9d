/** The executor of UpdateLoadBalancer: one line at a time, each only after the load balancer was seen ready,
    stopping at the first error. */
module Executor {
  import opened Text
  import opened Remote
  import opened PoolNames
  import opened Codec
  import opened Planner
  import opened Sdk

  // ----- waiting -----

  /** The number of rounds a wait has. */
  function Rounds(minSleep: int, maxWait: int): nat
    requires minSleep > 0 && maxWait >= 0
  {
    maxWait / minSleep
  }

  predicate NothingIssued(log: seq<Event>) {
    forall i :: 0 <= i < |log| ==> !log[i].Issued?
  }

  /** Every poll was answered and the clock did not run out. */
  predicate Uncut(polls: seq<Event>) {
    forall i :: 0 <= i < |polls| ==> polls[i].Seen?
  }

  /** One of the first k polls saw the load balancer ready. */
  predicate SeenReadyBefore(polls: seq<Event>, k: int) {
    exists i :: 0 <= i < |polls| && i < k && SawReady(polls[i])
  }

  /** A wait of at most n rounds for a load balancer that was ready or not, by its polls and its success. Unless it
      is cut short, it succeeds exactly if there is a round at all and the load balancer was ready already or was
      seen so by a poll before the last one allowed; and it gives up only after the last one. */
  ghost predicate Waited(ready: bool, n: nat, polls: seq<Event>, ok: bool) {
    && NothingIssued(polls) && |polls| <= n && (ready ==> polls == [])
    && (forall i :: 0 <= i < |polls| - 1 ==> SawBusy(polls[i]))
    && (if Uncut(polls) then ok <==> n > 0 && (ready || SeenReadyBefore(polls, n - 1)) else !ok)
    && (!ok && Uncut(polls) ==> |polls| == n)
  }

  /** What was seen since the log had this length. */
  function Since(log: seq<Event>, start: nat): seq<Event>
    requires start <= |log|
  {
    log[start..]
  }

  /** The progress of a wait: i polls were made, and all but the last found the load balancer not ready. */
  ghost predicate Polled(polls: seq<Event>, i: nat, ready: bool) {
    && |polls| == i && (forall k :: 0 <= k < i - 1 ==> SawBusy(polls[k]))
    && (i > 0 ==> if ready then SawReady(polls[i - 1]) else SawBusy(polls[i - 1]))
  }

  lemma PolledUncut(polls: seq<Event>, i: nat, ready: bool)
    requires Polled(polls, i, ready)
    ensures Uncut(polls) && NothingIssued(polls)
    ensures !ready ==> forall k :: 0 <= k < i ==> SawBusy(polls[k])
  {
    assert forall k :: 0 <= k < i ==> SawBusy(polls[k]) || k == i - 1;
  }

  lemma PolledNext(polls: seq<Event>, i: nat, lb: LoadBalancer)
    requires Polled(polls, i, false)
    ensures Polled(polls + [Sight(lb)], i + 1, IsReady(lb))
  {
    PolledUncut(polls, i, false);
    SightIs(lb);
  }

  lemma SinceNext(log: seq<Event>, start: nat, e: Event)
    requires start <= |log|
    ensures Since(log + [e], start) == Since(log, start) + [e]
  {
  }

  lemma PolledNothing(log: seq<Event>, ready: bool)
    ensures Polled(Since(log, |log|), 0, ready)
  {
  }

  /** The progress of a wait, as far as the end of it is concerned. */
  lemma PolledLast(log: seq<Event>, start: nat, i: nat, ready: bool)
    requires start <= |log| && Polled(Since(log, start), i, ready)
    ensures |log| == start + i && (i > 0 ==> (SawReady(log[|log| - 1]) <==> ready))
    ensures Uncut(Since(log, start))
  {
    PolledUncut(Since(log, start), i, ready);
  }

  lemma WaitFound(polls: seq<Event>, i: nat, first: bool, n: nat)
    requires Polled(polls, i, true) && i < n && (i == 0 <==> first)
    ensures Waited(first, n, polls, true)
  {
    PolledUncut(polls, i, true);
    if i > 0 {
      assert SeenReadyBefore(polls, n - 1) by { assert SawReady(polls[i - 1]); }
    }
  }

  lemma WaitCut(polls: seq<Event>, i: nat, n: nat, cut: Event)
    requires Polled(polls, i, false) && i < n && (cut == Missed || cut == Expired)
    ensures Waited(false, n, polls + [cut], false)
  {
    PolledUncut(polls, i, false);
    assert !Uncut(polls + [cut]) by { assert (polls + [cut])[i] == cut; }
  }

  lemma WaitGivenUp(polls: seq<Event>, first: bool, ready: bool, n: nat)
    requires Polled(polls, n, ready) && (n > 0 ==> !first)
    ensures Waited(first, n, polls, false)
  {
    PolledUncut(polls, n, ready);
    assert n > 0 ==> !SeenReadyBefore(polls, n - 1);
  }

  /** WaitLoadBalancerReady. What the last poll finds is never looked at. On a reliable service the wait succeeds
      exactly if the load balancer becomes ready in time for the poll before the last one; on no service does it
      succeed if the load balancer stays busy longer. */
  method WaitLoadBalancerReady(sdk: VpcSdk, lb: LoadBalancer, minSleep: int, maxWait: int)
    returns (r: Option<LoadBalancer>)
    requires minSleep > 0 && maxWait >= 0 && sdk.Observed(lb)
    modifies sdk`log, sdk`busy
    ensures old(sdk.log) <= sdk.log
    ensures Waited(IsReady(lb), Rounds(minSleep, maxWait), Since(sdk.log, |old(sdk.log)|), r.Some?)
    ensures r.Some? ==> r.value.operatingStatus == "online" && r.value.provisioningStatus == "active"
    ensures r.Some? ==> IsReady(r.value) && sdk.Observed(r.value)
    ensures r.Some? && IsReady(lb) ==> r.value == lb
    ensures sdk.reliable ==> Uncut(Since(sdk.log, |old(sdk.log)|))
    ensures sdk.reliable ==>
              (r.Some? <==> && Rounds(minSleep, maxWait) > 0
                            && (IsReady(lb) || old(sdk.busy) + 1 < Rounds(minSleep, maxWait)))
    ensures sdk.reliable && sdk.log != old(sdk.log) ==>
              (SawReady(sdk.log[|sdk.log| - 1]) <==> old(sdk.busy) < |sdk.log| - |old(sdk.log)|)
    ensures !IsReady(lb) && old(sdk.busy) + 1 >= Rounds(minSleep, maxWait) ==> r.None?
  {
    hide ListsRefs, IsReady, Waited, Uncut, Polled, Since, Rounds, Sight, SawReady, SawBusy;
    var current := lb;
    var i := 0;
    ghost var start, busy, n := |sdk.log|, sdk.busy, Rounds(minSleep, maxWait);
    assert Polled(Since(sdk.log, start), 0, IsReady(current)) by { PolledNothing(sdk.log, IsReady(current)); }
    while i < Rounds(minSleep, maxWait)
      invariant 0 <= i && (i <= n || i == 0)
      invariant old(sdk.log) <= sdk.log && sdk.Observed(current)
      invariant Polled(Since(sdk.log, start), i, IsReady(current))
      invariant i == 0 ==> current == lb
      invariant i > 0 ==> !IsReady(lb)
      invariant sdk.busy == if busy > i then busy - i else 0
      invariant i > 0 && IsReady(current) ==> busy < i
      invariant sdk.reliable ==> busy + 1 >= i && (i > 0 && !IsReady(current) ==> busy >= i)
    {
      ghost var log := sdk.log;
      ghost var polls := Since(log, start);
      PolledLast(log, start, i, IsReady(current));
      if IsReady(current) {
        WaitFound(polls, i, IsReady(lb), n);
        SightIs(current);
        return Some(current);
      }
      var late := sdk.TakesTooLong();
      if late {
        WaitCut(polls, i, n, Expired);
        SinceNext(log, start, Expired);
        return None;
      }
      var next := sdk.GetLoadBalancer();
      if next.None? {
        WaitCut(polls, i, n, Missed);
        SinceNext(log, start, Missed);
        return None;
      }
      SinceNext(log, start, Sight(next.value));
      PolledNext(polls, i, next.value);
      current := next.value;
      i := i + 1;
    }
    PolledLast(sdk.log, start, i, IsReady(current));
    WaitGivenUp(Since(sdk.log, start), IsReady(lb), IsReady(current), n);
    r := None;
  }

  /** The polls of a wait that is not honoured although the last of them saw the load balancer ready. */
  lemma LastPollIsIgnored(n: nat, polls: seq<Event>, ok: bool)
    requires n > 0 && |polls| == n && Waited(false, n, polls, ok)
    ensures polls[n - 1] == Seen("online", "active") ==> !ok
  {
    if SawReady(polls[n - 1]) {
      assert Uncut(polls);
      assert !SeenReadyBefore(polls, n - 1);
    }
  }

  /** It happens: with the times of an application load balancer, on a reliable service, for a load balancer that was
      not ready and will be found busy by 14 polls. */
  method ReadyTooLate(sdk: VpcSdk, lb: LoadBalancer) returns (r: Option<LoadBalancer>)
    requires sdk.reliable && sdk.Observed(lb) && !IsReady(lb) && sdk.busy == 14
    modifies sdk`log, sdk`busy
    ensures r.None?
    ensures |sdk.log| == |old(sdk.log)| + 15 && old(sdk.log) <= sdk.log
    ensures sdk.log[|sdk.log| - 1] == Seen("online", "active")
    ensures forall i :: |old(sdk.log)| <= i < |sdk.log| - 1 ==> SawBusy(sdk.log[i])
  {
    ghost var start := |sdk.log|;
    r := WaitLoadBalancerReady(sdk, lb, 8, 120);
    ghost var polls := Since(sdk.log, start);
    assert |polls| == 15;
    assert forall i :: start <= i < |sdk.log| - 1 ==> sdk.log[i] == polls[i - start];
  }

  // ----- one update -----

  /** createLoadBalancerListener: the pool is looked up by name in the load balancer object. */
  method FindPoolID(refs: seq<PoolRef>, poolName: string) returns (poolID: Option<string>)
    ensures poolID.None? ==> forall i :: 0 <= i < |refs| ==> refs[i].name != poolName
    ensures poolID.Some? ==> exists i :: 0 <= i < |refs| && refs[i] == PoolRef(poolID.value, poolName)
  {
    var i := 0;
    while i < |refs|
      invariant 0 <= i <= |refs|
      invariant forall j :: 0 <= j < i ==> refs[j].name != poolName
    {
      if poolName == refs[i].name {
        assert refs[i] == PoolRef(refs[i].id, poolName);
        return Some(refs[i].id);
      }
      i := i + 1;
    }
    poolID := None;
  }

  /** updateLoadBalancerPool: the pool is looked up by id in the listing the plan was made from. */
  method FindPool(pools: seq<PoolRow>, poolID: string) returns (pool: Option<PoolRow>)
    ensures pool.None? ==> forall i :: 0 <= i < |pools| ==> pools[i].id != poolID
    ensures pool.Some? ==> pool.value.id == poolID
  {
    var i := 0;
    while i < |pools|
      invariant 0 <= i <= |pools|
      invariant forall j :: 0 <= j < i ==> pools[j].id != poolID
    {
      if pools[i].id == poolID {
        return Some(pools[i]);
      }
      i := i + 1;
    }
    pool := None;
  }

  /** What must be found locally before the call goes out. */
  ghost predicate Found(a: Update, s: State, pools: seq<PoolRow>) {
    && (a.CreateListener? ==> HasPool(s, a.name))
    && (a.UpdatePool? ==> exists i :: 0 <= i < |pools| && pools[i].id == a.poolId)
  }

  lemma RefsHavePool(refs: seq<PoolRef>, s: State, name: PoolName, i: int)
    requires ListsRefs(refs, s)
    ensures HasPool(s, name) ==> exists j :: 0 <= j < |refs| && refs[j].name == Show(name)
    ensures 0 <= i < |refs| && refs[i].name == Show(name) ==> refs[i].id in s.pools && s.pools[refs[i].id].name == name
  {
    hide Show;
    if HasPool(s, name) {
      var p :| p in s.pools && s.pools[p].name == name;
      var j :| 0 <= j < |refs| && refs[j].id == p;
    }
    if 0 <= i < |refs| && refs[i].name == Show(name) {
      ShowInjective(s.pools[refs[i].id].name, name);
    }
  }

  lemma ShowParses(name: PoolName)
    ensures Parses(Show(name))
  {
    ExtractShow(name);
  }

  /** One round of the executor: take the line apart and carry it out. The only errors are those of the
      service: the line decodes, and what the lookups search for is there. */
  method Perform(sdk: VpcSdk, lb: LoadBalancer, update: string, pools: seq<PoolRow>, c: Context, ghost a: Update)
    returns (ok: bool)
    requires update == Line(Spell(a)) && Printable(Spell(a))
    requires EndpointsUnique(sdk.remote) && ListsRefs(lb.pools, sdk.remote) && Found(a, sdk.remote, pools)
    modifies sdk
    ensures sdk.CallMade(a, c, ok, old(sdk.remote), old(sdk.log), old(sdk.busy))
  {
    hide Line, Printable, Fields, Decode, Show, Parses, EndpointsUnique;
    hide VpcSdk.CallMade;
    DecodeLine(Spell(a));
    ShowParses(a.name);
    match Decode(update)
    case Decoded(CreateListener(name)) =>
      var poolID := FindPoolID(lb.pools, name);
      RefsHavePool(lb.pools, sdk.remote, a.name, 0);
      if poolID.None? {
        assert false;
      } else {
        ghost var i :| 0 <= i < |lb.pools| && lb.pools[i] == PoolRef(poolID.value, name);
        RefsHavePool(lb.pools, sdk.remote, a.name, i);
        ok := sdk.CreateLoadBalancerListener(name, poolID.value, c, a.name);
      }
    case Decoded(CreatePool(name)) =>
      ok := sdk.CreateLoadBalancerPool(name, c, a.name);
    case Decoded(CreateMember(name, pool, node)) =>
      ok := sdk.CreateLoadBalancerPoolMember(name, pool, node, c, a.name);
    case Decoded(DeleteListener(_, listener)) =>
      ok := sdk.DeleteLoadBalancerListener(listener, c, a.name);
    case Decoded(DeletePool(_, pool)) =>
      ok := sdk.DeleteLoadBalancerPool(pool, c, a.name);
    case Decoded(DeleteMember(_, pool, member, target)) =>
      ok := sdk.DeleteLoadBalancerPoolMember(pool, member, c, a.name, target);
    case Decoded(ReplaceMembers(name, pool)) =>
      ok := sdk.ReplaceLoadBalancerPoolMembers(name, pool, c, a.name);
    case Decoded(UpdatePool(name, poolID)) =>
      var pool := FindPool(pools, poolID);
      if pool.None? {
        assert false;
      } else {
        ok := sdk.UpdateLoadBalancerPool(name, pool.value, c, a.name);
      }
    case MissingArgument =>
      assert false;
    case Unsupported =>
      assert false;
  }

  // ----- a whole plan -----

  lemma AdmissibleIsPrintable(s: State, a: Update)
    requires PoolsOk(s) && Admissible(s, a)
    ensures Printable(Spell(a))
  {
    hide Show;
    ShowIsToken(a.name);
  }

  /** Every line of a safe plan is made of words. */
  lemma {:induction false} SafeIsPrintable(s: State, plan: seq<Update>, c: Context)
    requires WF(s) && NodesOk(c.nodes) && Safe(s, plan, c)
    ensures forall i :: 0 <= i < |plan| ==> Printable(Spell(plan[i]))
    decreases |plan|
  {
    if plan != [] {
      AdmissibleIsPrintable(s, plan[0]);
      StepKeepsWF(s, plan[0], c);
      hide WF, Apply, Admissible, Printable, Spell;
      SafeIsPrintable(Apply(s, plan[0], c), plan[1..], c);
      assert forall i :: 1 <= i < |plan| ==> plan[i] == plan[1..][i - 1];
    }
  }

  lemma SeenKeepsDiscipline(log: seq<Event>, newLog: seq<Event>)
    requires log <= newLog && NothingIssued(newLog[|log|..])
    ensures Disciplined(log) ==> Disciplined(newLog)
    ensures Issues(newLog) == Issues(log)
    decreases |newLog| - |log|
  {
    if |log| < |newLog| {
      var next := log + [newLog[|log|]];
      assert !newLog[|log|..][0].Issued?;
      IssuesNext(log, newLog[|log|]);
      assert newLog[|next|..] == newLog[|log|..][1..];
      SeenKeepsDiscipline(next, newLog);
    } else {
      assert newLog == log;
    }
  }

  ghost predicate ReadyNow(log: seq<Event>) {
    log != [] && log[|log| - 1] == Seen("online", "active")
  }

  lemma IssueKeepsDiscipline(log: seq<Event>, a: Update)
    requires Disciplined(log) && ReadyNow(log)
    ensures Disciplined(log + [Issued(a)]) && Issues(log + [Issued(a)]) == Issues(log) + [a]
  {
    IssuesNext(log, Issued(a));
  }

  /** Before an update other than the first: look, and wait until the load balancer is ready. On a reliable service
      this succeeds exactly if the load balancer is not busy or is so for fewer looks than the wait has rounds. */
  method AwaitReady(sdk: VpcSdk, minSleep: int, maxWait: int) returns (r: Option<LoadBalancer>)
    requires minSleep > 0 && maxWait >= 0 && Disciplined(sdk.log)
    modifies sdk`log, sdk`busy
    ensures Disciplined(sdk.log) && Issues(sdk.log) == Issues(old(sdk.log))
    ensures r.Some? ==> IsReady(r.value) && sdk.Observed(r.value)
    ensures sdk.reliable ==> (r.Some? <==> old(sdk.busy) == 0 || old(sdk.busy) < Rounds(minSleep, maxWait))
    ensures old(sdk.busy) > 0 && old(sdk.busy) >= Rounds(minSleep, maxWait) ==> r.None?
  {
    hide ListsRefs, IsReady, Disciplined, Issues, Uncut, Rounds;
    r := sdk.GetLoadBalancer();
    SeenKeepsDiscipline(old(sdk.log), sdk.log);
    if r.Some? && !IsReady(r.value) {
      ghost var before := sdk.log;
      r := WaitLoadBalancerReady(sdk, r.value, minSleep, maxWait);
      SeenKeepsDiscipline(before, sdk.log);
    }
  }

  /** The executor loop. However the service behaves, what has taken effect is a prefix of the plan, what has been
      issued is that prefix or one update more (whose reply was an error), and every update was issued right after
      the load balancer was seen ready. Success means the whole plan took effect. A reliable service lets every plan
      succeed if it is busy after an update for fewer looks than a wait has rounds; a service that always is busy for
      longer lets no plan of two updates succeed. */
  method ExecuteUpdates(sdk: VpcSdk, lb: LoadBalancer, updates: seq<string>, pools: seq<PoolRow>,
                        minSleep: int, maxWait: int, c: Context, ghost plan: seq<Update>)
    returns (ok: bool, ghost taken: nat, ghost issued: nat)
    requires minSleep > 0 && maxWait >= 0 && updates == Texts(plan)
    requires WF(sdk.remote) && NodesOk(c.nodes) && Safe(sdk.remote, plan, c)
    requires forall a :: a in plan && a.UpdatePool? ==> exists i :: 0 <= i < |pools| && pools[i].id == a.poolId
    requires sdk.Observed(lb) && IsReady(lb) && Disciplined(sdk.log)
    modifies sdk
    ensures taken <= issued <= taken + 1 && issued <= |plan|
    ensures sdk.remote == Run(old(sdk.remote), plan[..taken], c)
    ensures Issues(sdk.log) == Issues(old(sdk.log)) + plan[..issued] && Disciplined(sdk.log)
    ensures ok ==> taken == |plan|
    ensures sdk.reliable && sdk.least + sdk.slack < Rounds(minSleep, maxWait) ==> ok
    ensures sdk.least > 0 && sdk.least >= Rounds(minSleep, maxWait) ==> issued <= 1 && (|plan| > 1 ==> !ok)
  {
    hide WF, Safe, Run, Apply, ListsRefs, Disciplined, Issues, Line, Printable, Spell, Texts, NodesOk, IsReady,
         Rounds;
    ghost var s0 := sdk.remote;
    SafeIsPrintable(s0, plan, c);
    RunNone(s0, c);
    var current := lb;
    var i := 0;
    while i < |updates|
      invariant 0 <= i <= |updates|
      invariant sdk.remote == Run(s0, plan[..i], c)
      invariant Issues(sdk.log) == Issues(old(sdk.log)) + plan[..i] && Disciplined(sdk.log)
      invariant if i == 0 then sdk.Observed(current) && IsReady(current) else sdk.Busied()
      invariant sdk.least > 0 && sdk.least >= Rounds(minSleep, maxWait) ==> i <= 1
    {
      if i > 0 {
        var next := AwaitReady(sdk, minSleep, maxWait);
        if next.None? {
          return false, i, i;
        }
        current := next.value;
      }
      ghost var a := plan[i];
      ghost var mid := sdk.remote;
      SafePrefix(s0, plan, c, i);
      assert EndpointsUnique(mid) by { UniqueOfWF(mid); }
      assert Found(a, mid, pools) by { FoundOfAdmissible(a, mid, pools, plan); }
      SightIs(current);
      IssueKeepsDiscipline(sdk.log, a);
      ok := Perform(sdk, current, updates[i], pools, c, a);
      assert plan[..i + 1] == plan[..i] + [a];
      if !ok {
        return false, if sdk.remote == mid then i else i + 1, i + 1;
      }
      i := i + 1;
    }
    return true, i, i;
  }

  lemma UniqueOfWF(s: State)
    requires WF(s)
    ensures EndpointsUnique(s)
  {
  }

  lemma FoundOfAdmissible(a: Update, s: State, pools: seq<PoolRow>, plan: seq<Update>)
    requires Admissible(s, a) && a in plan
    requires forall a :: a in plan && a.UpdatePool? ==> exists i :: 0 <= i < |pools| && pools[i].id == a.poolId
    ensures Found(a, s, pools)
  {
  }
}

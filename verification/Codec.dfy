/** Updates as lines of text: written by the planner, read back by the optimiser and the executor. */
module Codec {
  import opened Text
  import opened Remote
  import opened PoolNames
  import opened Optimiser

  const CREATE_LISTENER := "CREATE-LISTENER"
  const CREATE_POOL := "CREATE-POOL"
  const CREATE_POOL_MEMBER := "CREATE-POOL-MEMBER"
  const DELETE_LISTENER := "DELETE-LISTENER"
  const DELETE_POOL := "DELETE-POOL"
  const DELETE_POOL_MEMBER := "DELETE-POOL-MEMBER"
  const REPLACE_POOL_MEMBERS := "REPLACE-POOL-MEMBERS"
  const UPDATE_POOL := "UPDATE-POOL"

  /** An update whose pool name is still text. */
  type Command = Action<string>

  function Verb<Name>(a: Action<Name>): string {
    match a
    case CreateListener(_) => CREATE_LISTENER
    case CreatePool(_) => CREATE_POOL
    case CreateMember(_, _, _) => CREATE_POOL_MEMBER
    case DeleteListener(_, _) => DELETE_LISTENER
    case DeletePool(_, _) => DELETE_POOL
    case DeleteMember(_, _, _, _) => DELETE_POOL_MEMBER
    case ReplaceMembers(_, _) => REPLACE_POOL_MEMBERS
    case UpdatePool(_, _) => UPDATE_POOL
  }

  function Args(a: Command): (args: seq<string>)
    ensures args != []
  {
    match a
    case CreateListener(name) => [name]
    case CreatePool(name) => [name]
    case CreateMember(name, pool, node) => [name, pool, node]
    case DeleteListener(name, listener) => [name, listener]
    case DeletePool(name, pool) => [name, pool]
    case DeleteMember(name, pool, member, target) => [name, pool, member, target]
    case ReplaceMembers(name, pool) => [name, pool]
    case UpdatePool(name, pool) => [name, pool]
  }

  /** The line a Sprintf call of the planner produces. */
  function Line(a: Command): string {
    Join([Verb(a)] + Args(a), " ")
  }

  /** How lines look: the verb and the arguments, with a space between any two. */
  lemma LinesLookLikeThis(name: string, id: string, x: string, y: string)
    ensures Line(CreateListener(name)) == Join(["CREATE-LISTENER", name], " ")
    ensures Line(CreatePool(name)) == Join(["CREATE-POOL", name], " ")
    ensures Line(CreateMember(name, id, x)) == Join(["CREATE-POOL-MEMBER", name, id, x], " ")
    ensures Line(DeleteListener(name, id)) == Join(["DELETE-LISTENER", name, id], " ")
    ensures Line(DeletePool(name, id)) == Join(["DELETE-POOL", name, id], " ")
    ensures Line(DeleteMember(name, id, x, y)) == Join(["DELETE-POOL-MEMBER", name, id, x, y], " ")
    ensures Line(ReplaceMembers(name, id)) == Join(["REPLACE-POOL-MEMBERS", name, id], " ")
    ensures Line(UpdatePool(name, id)) == Join(["UPDATE-POOL", name, id], " ")
  {
    hide Join;
    forall verb: string ensures [verb] + [name] == [verb, name] && [verb] + [name, id] == [verb, name, id] {
    }
    assert [CREATE_POOL_MEMBER] + [name, id, x] == [CREATE_POOL_MEMBER, name, id, x];
    assert [DELETE_POOL_MEMBER] + [name, id, x, y] == [DELETE_POOL_MEMBER, name, id, x, y];
  }

  predicate Printable(a: Command) {
    AllTokens(Args(a))
  }

  datatype Decoding = Decoded(command: Command) | MissingArgument | Unsupported

  /** How the executor takes a line apart: the verb is the first field, the rest is trimmed and, for all
      but the two verbs that take a bare pool name, split again by the handler, which checks the number of arguments. */
  function Decode(line: string): Decoding
    requires Fields(line) != []
  {
    var verb := Fields(line)[0];
    var args := TrimSpace(TrimPrefix(line, verb));
    var w := Fields(args);
    if verb == CREATE_LISTENER then Decoded(CreateListener(args))
    else if verb == CREATE_POOL then Decoded(CreatePool(args))
    else if verb == CREATE_POOL_MEMBER then
      if |w| == 3 then Decoded(CreateMember(w[0], w[1], w[2])) else MissingArgument
    else if verb == DELETE_LISTENER then
      if |w| == 2 then Decoded(DeleteListener(w[0], w[1])) else MissingArgument
    else if verb == DELETE_POOL then
      if |w| == 2 then Decoded(DeletePool(w[0], w[1])) else MissingArgument
    else if verb == DELETE_POOL_MEMBER then
      if |w| == 4 then Decoded(DeleteMember(w[0], w[1], w[2], w[3])) else MissingArgument
    else if verb == UPDATE_POOL then
      if |w| == 2 then Decoded(UpdatePool(w[0], w[1])) else MissingArgument
    else if verb == REPLACE_POOL_MEMBERS then
      if |w| == 2 then Decoded(ReplaceMembers(w[0], w[1])) else MissingArgument
    else Unsupported
  }

  lemma VerbIsToken(a: Command)
    ensures Token(Verb(a))
  {
    assert forall i :: 0 <= i < |Verb(a)| ==> Verb(a)[i] == '-' || 'A' <= Verb(a)[i] <= 'Z';
  }

  /** A line splits into its verb and its arguments. */
  lemma LineFields(a: Command)
    requires Printable(a)
    ensures Fields(Line(a)) == [Verb(a)] + Args(a)
    ensures TrimSpace(TrimPrefix(Line(a), Verb(a))) == Join(Args(a), " ")
    ensures Fields(Join(Args(a), " ")) == Args(a)
  {
    VerbIsToken(a);
    ArgumentsOfLine(Verb(a), Args(a));
    FieldsOfJoin(Args(a));
  }

  /** The codec: reading a written line gives back the command, so neither "Required argument is missing"
      nor "Unsupported update operation" can arise from a planned line. */
  lemma DecodeLine(a: Command)
    requires Printable(a)
    ensures Fields(Line(a)) != [] && Decode(Line(a)) == Decoded(a)
  {
    hide Fields, TrimSpace, TrimPrefix, Line;
    LineFields(a);
    assert Fields(Line(a))[0] == Verb(a);
  }

  // ----- spelling updates -----

  /** An update with its pool name written out. */
  function Spell(u: Update): Command {
    match u
    case CreateListener(name) => CreateListener(Show(name))
    case CreatePool(name) => CreatePool(Show(name))
    case CreateMember(name, pool, node) => CreateMember(Show(name), pool, node)
    case DeleteListener(name, listener) => DeleteListener(Show(name), listener)
    case DeletePool(name, pool) => DeletePool(Show(name), pool)
    case DeleteMember(name, pool, member, target) => DeleteMember(Show(name), pool, member, target)
    case ReplaceMembers(name, pool) => ReplaceMembers(Show(name), pool)
    case UpdatePool(name, pool) => UpdatePool(Show(name), pool)
  }

  function Lines(plan: seq<Command>): (lines: seq<string>)
    ensures |lines| == |plan| && forall i :: 0 <= i < |plan| ==> lines[i] == Line(plan[i])
  {
    seq(|plan|, i requires 0 <= i < |plan| => Line(plan[i]))
  }

  function SpellAll(plan: seq<Update>): (spelt: seq<Command>)
    ensures |spelt| == |plan| && forall i :: 0 <= i < |plan| ==> spelt[i] == Spell(plan[i])
  {
    seq(|plan|, i requires 0 <= i < |plan| => Spell(plan[i]))
  }

  /** The plan as the executor gets it. */
  function Texts(plan: seq<Update>): (lines: seq<string>)
    ensures |lines| == |plan| && forall i :: 0 <= i < |plan| ==> lines[i] == Line(Spell(plan[i]))
  {
    Lines(SpellAll(plan))
  }

  lemma TextsConcat(a: seq<Update>, b: seq<Update>)
    ensures Texts(a + b) == Texts(a) + Texts(b)
  {
    hide Line, Spell;
    var left, right := Texts(a + b), Texts(a) + Texts(b);
    assert |left| == |right| && forall i :: 0 <= i < |left| ==> left[i] == right[i];
  }

  // ----- merging before or after spelling -----

  lemma SpellFacts(u: Update, name: PoolName)
    ensures IsMemberUpdate(Spell(u)) <==> IsMemberUpdate(u)
    ensures Spell(u).name == Show(u.name) && (Show(u.name) == Show(name) <==> u.name == name)
    ensures IsMemberUpdate(u) ==> Spell(u).poolId == u.poolId
  {
    if Show(u.name) == Show(name) { ShowInjective(u.name, name); }
  }

  lemma {:induction false} CountSpelt(plan: seq<Update>, name: PoolName)
    ensures CountFor(SpellAll(plan), Show(name)) == CountFor(plan, name)
  {
    if plan != [] {
      SpellFacts(plan[0], name);
      assert SpellAll(plan)[1..] == SpellAll(plan[1..]);
      CountSpelt(plan[1..], name);
    }
  }

  function ShowAll(names: set<PoolName>): set<string> {
    set n | n in names :: Show(n)
  }

  lemma BusySpelt(plan: seq<Update>)
    ensures Busy(SpellAll(plan)) == ShowAll(Busy(plan))
  {
    hide Spell, Show, CountFor;
    var spelt := SpellAll(plan);
    forall s ensures s in Busy(spelt) <==> s in ShowAll(Busy(plan)) {
      if s in Busy(spelt) {
        var i :| 0 <= i < |spelt| && spelt[i].name == s && IsMemberUpdate(spelt[i]) && CountFor(spelt, s) > 1;
        SpellFacts(plan[i], plan[i].name);
        CountSpelt(plan, plan[i].name);
        assert plan[i] in plan;
      }
      if s in ShowAll(Busy(plan)) {
        var n :| n in Busy(plan) && Show(n) == s;
        var i :| 0 <= i < |plan| && plan[i].name == n && IsMemberUpdate(plan[i]);
        SpellFacts(plan[i], n);
        CountSpelt(plan, n);
        assert spelt[i] in spelt;
      }
    }
  }

  lemma ShowAllContains(names: set<PoolName>, n: PoolName)
    ensures Show(n) in ShowAll(names) <==> n in names
  {
    hide Show;
    if m :| m in names && Show(m) == Show(n) {
      ShowInjective(m, n);
    }
  }

  lemma {:induction false} FilterSpelt(plan: seq<Update>, busy: set<PoolName>, seen: set<PoolName>)
    ensures Filter(SpellAll(plan), ShowAll(busy), ShowAll(seen)) == SpellAll(Filter(plan, busy, seen))
  {
    hide Show;
    if plan != [] {
      var u, rest := plan[0], plan[1..];
      SpellFacts(u, u.name);
      assert SpellAll(plan)[0] == Spell(u) && SpellAll(plan)[1..] == SpellAll(rest);
      ShowAllContains(busy, u.name);
      ShowAllContains(seen, u.name);
      FilterSpelt(rest, busy, seen);
      FilterSpelt(rest, busy, seen + {u.name});
      assert ShowAll(seen + {u.name}) == ShowAll(seen) + {Show(u.name)};
    }
  }

  /** Merging lines of text is merging updates. */
  lemma OptimiseSpelt(plan: seq<Update>)
    ensures Optimise(SpellAll(plan)) == SpellAll(Optimise(plan))
  {
    BusySpelt(plan);
    FilterSpelt(plan, Busy(plan), {});
    assert ShowAll({}) == {};
  }
}

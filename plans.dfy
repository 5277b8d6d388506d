/**
 Launch plans: the ordered action list a `LaunchDescription` holds, and its
 expansion into the nodes the launch runtime starts. Expansion threads one
 argument map through the plan in order, the way the runtime visits the
 actions with one launch context.
 */
module Plans {
  import opened Wrappers
  import opened Launch
  import opened Composers

  /** One entry of a launch description: `DeclareLaunchArgument`, a `Node`,
      an `OpaqueFunction`, or `IncludeLaunchDescription` of another plan. */
  datatype Action =
    | Declare(name: string, default: string)
    | Start(node: NodeTemplate)
    | Opaque(composer: Composer)
    | Include(plan: seq<Action>)

  type Plan = seq<Action>

  /** What expanding a plan gives: the nodes to start, in order, and the
      launch arguments in force afterwards. */
  datatype Outcome = Outcome(nodes: seq<Node>, args: Args)

  /** `DeclareLaunchArgument(name, default_value=default)` executed against
      `args`: the default applies only when nothing bound the name before. */
  function Declared(args: Args, name: string, default: string): Args
  {
    if name in args then args else args[name := default]
  }

  /** Lookups after a declaration: the declared name reads as it was bound,
      or else as its default; every other name reads as before. */
  lemma DeclaredLookup(args: Args, name: string, default: string, k: string, fallback: string)
    ensures k in Declared(args, name, default) <==> k in args || k == name
    ensures ValueOr(Declared(args, name, default), name, fallback) == ValueOr(args, name, default)
    ensures k != name ==> ValueOr(Declared(args, name, default), k, fallback) == ValueOr(args, k, fallback)
  {
  }

  /** Every name a plan declares, through its includes. */
  function DeclaredNames(plan: Plan): set<string>
  {
    if plan == [] then {}
    else
      var rest := DeclaredNames(plan[1..]);
      match plan[0]
      case Declare(n, _) => {n} + rest
      case Start(_) => rest
      case Opaque(_) => rest
      case Include(child) => DeclaredNames(child) + rest
  }

  /** Nodes started first, then the outcome of the rest of the plan. */
  function Then(nodes: seq<Node>, rest: Option<Outcome>): Option<Outcome>
  {
    if rest.Some? then Some(Outcome(nodes + rest.value.nodes, rest.value.args)) else None
  }

  /** Expands `plan` in order against `args`. Declarations bind their default
      only if the name is unbound; a node is resolved against the arguments in
      force where it stands; an opaque function is called with them; an
      included plan is expanded inline, sharing the same arguments. None stands
      for a substitution that names an unbound argument. */
  function Expand(plan: Plan, args: Args): Option<Outcome>
    decreases plan
  {
    if plan == [] then Some(Outcome([], args))
    else
      match plan[0]
      case Declare(n, d) => Expand(plan[1..], Declared(args, n, d))
      case Start(t) =>
        var node := Resolve(t, args);
        if node.Some? then Then([node.value], Expand(plan[1..], args)) else None
      case Opaque(c) =>
        if CanEvaluate(c, args) then Then(Evaluate(c, args), Expand(plan[1..], args)) else None
      case Include(child) =>
        var inner := Expand(child, args);
        if inner.Some? then Then(inner.value.nodes, Expand(plan[1..], inner.value.args)) else None
  }

  /** A caller-supplied value or an earlier declaration always wins: bindings
      in force are never overwritten, and expansion adds exactly the names the
      plan declares. */
  lemma {:induction false} ExpandKeepsBindings(plan: Plan, args: Args)
    requires Expand(plan, args).Some?
    ensures forall k :: k in args ==> k in Expand(plan, args).value.args && Expand(plan, args).value.args[k] == args[k]
    ensures Expand(plan, args).value.args.Keys == args.Keys + DeclaredNames(plan)
    decreases plan
  {
    if plan != [] {
      match plan[0]
      case Declare(n, d) =>
        ExpandKeepsBindings(plan[1..], Declared(args, n, d));
      case Start(t) =>
        ExpandKeepsBindings(plan[1..], args);
      case Opaque(c) =>
        ExpandKeepsBindings(plan[1..], args);
      case Include(child) =>
        var inner := Expand(child, args).value;
        ExpandKeepsBindings(child, args);
        ExpandKeepsBindings(plan[1..], inner.args);
    }
  }

  /** Expanding `p + q` expands `p`, then `q` from where `p` left the
      arguments; the node lists concatenate. */
  lemma {:induction false} ExpandConcat(p: Plan, q: Plan, args: Args)
    ensures Expand(p + q, args) ==
      (var first := Expand(p, args);
       if first.Some? then Then(first.value.nodes, Expand(q, first.value.args)) else None)
    decreases p
  {
    if p == [] {
      assert p + q == q;
      var e := Expand(q, args);
      if e.Some? { assert [] + e.value.nodes == e.value.nodes; }
    } else {
      assert (p + q)[0] == p[0];
      assert (p + q)[1..] == p[1..] + q;
      match p[0]
      case Declare(n, d) =>
        ExpandConcat(p[1..], q, Declared(args, n, d));
      case Start(t) =>
        ExpandConcat(p[1..], q, args);
        var node := Resolve(t, args);
        if node.Some? { ThenAfter([node.value], Expand(p[1..], args), q); }
      case Opaque(c) =>
        ExpandConcat(p[1..], q, args);
        if CanEvaluate(c, args) { ThenAfter(Evaluate(c, args), Expand(p[1..], args), q); }
      case Include(child) =>
        var inner := Expand(child, args);
        if inner.Some? {
          ExpandConcat(p[1..], q, inner.value.args);
          ThenAfter(inner.value.nodes, Expand(p[1..], inner.value.args), q);
        }
    }
  }

  /** A prefix that only binds arguments hands them on: what follows expands
      from where it left them. */
  lemma ExpandAfterPrefix(p: Plan, q: Plan, args: Args, after: Args)
    requires Expand(p, args) == Some(Outcome([], after))
    ensures Expand(p + q, args) == Expand(q, after)
  {
    ExpandConcat(p, q, args);
    var e := Expand(q, after);
    if e.Some? { assert [] + e.value.nodes == e.value.nodes; }
  }

  /** Starting `pre` before a partial outcome, then continuing with `q`,
      is the same as continuing first and starting `pre` before it all. */
  lemma ThenAfter(pre: seq<Node>, first: Option<Outcome>, q: Plan)
    ensures (var f := Then(pre, first);
             if f.Some? then Then(f.value.nodes, Expand(q, f.value.args)) else None)
         == Then(pre, if first.Some? then Then(first.value.nodes, Expand(q, first.value.args)) else None)
  {
    if first.Some? {
      var second := Expand(q, first.value.args);
      if second.Some? {
        assert (pre + first.value.nodes) + second.value.nodes == pre + (first.value.nodes + second.value.nodes);
      }
    }
  }

  /** A plan made only of declarations. */
  predicate OnlyDeclarations(plan: Plan)
  {
    forall i :: 0 <= i < |plan| ==> plan[i].Declare?
  }

  /** The default of the first declaration of `name` in a plan of
      declarations, if any. */
  function FirstDefault(plan: Plan, name: string): Option<string>
    requires OnlyDeclarations(plan)
  {
    if plan == [] then None
    else if plan[0].name == name then Some(plan[0].default)
    else FirstDefault(plan[1..], name)
  }

  /** Argument resolution: after a run of declarations, a name bound by the
      caller (or by an earlier plan) keeps that value, and every other declared
      name takes the default of its first declaration. No node starts. */
  lemma {:induction false} DeclarationsResolve(plan: Plan, args: Args)
    requires OnlyDeclarations(plan)
    ensures Expand(plan, args).Some? && Expand(plan, args).value.nodes == []
    ensures forall k :: k in Expand(plan, args).value.args <==> k in args || FirstDefault(plan, k).Some?
    ensures forall k :: k in Expand(plan, args).value.args ==>
      Expand(plan, args).value.args[k] == if k in args then args[k] else FirstDefault(plan, k).value
    decreases plan
  {
    if plan != [] {
      var next := Declared(args, plan[0].name, plan[0].default);
      assert OnlyDeclarations(plan[1..]) by {
        forall i | 0 <= i < |plan[1..]| ensures plan[1..][i].Declare? { assert plan[1..][i] == plan[i + 1]; }
      }
      DeclarationsResolve(plan[1..], next);
      assert Expand(plan, args) == Expand(plan[1..], next);
    }
  }

  /** The mutable `LaunchDescription` that `generate_launch_description`
      fills with `add_action`. */
  class LaunchDescription {
    var entities: Plan

    constructor ()
      ensures entities == []
    {
      entities := [];
    }

    /** `ld.add_action(a)`: appends one action at the end. */
    method AddAction(a: Action)
      modifies this
      ensures entities == old(entities) + [a]
    {
      entities := entities + [a];
    }
  }
}

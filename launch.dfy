/**
 Substitutions, launch arguments and node descriptors: the vocabulary shared by
 both launch files. A node descriptor in a plan may still hold substitutions
 (`LaunchConfiguration(...)`, `Command([...])`); it is resolved against the
 launch arguments in force when the launch runtime reaches it.
 */
module Launch {
  import opened Wrappers

  /** Resolved launch arguments: every bound name with its string value. */
  type Args = map<string, string>

  /** The value bound to `name`, or `default` when it is unbound. */
  function ValueOr(args: Args, name: string, default: string): string
  {
    if name in args then args[name] else default
  }

  /** One piece of a substitution list: literal text or `LaunchConfiguration(name)`. */
  datatype Subst = Text(text: string) | Config(name: string)

  /** A parameter value once resolved: a string, a boolean, or the text a shell
      command produces (the command itself is kept; running it is external). */
  datatype ParamValue = StrParam(s: string) | BoolParam(b: bool) | CommandOutput(command: string)

  /** A parameter value as written in a launch file, before resolution. */
  datatype ParamExpr = StrExpr(subs: seq<Subst>) | BoolExpr(b: bool) | CommandExpr(tokens: seq<Subst>)

  /** A node to start, with every substitution resolved. `name` and `namespace`
      are None where the launch file leaves them out. */
  datatype Node = Node(
    package: string,
    executable: string,
    name: Option<string>,
    namespace: Option<string>,
    parameters: seq<(string, ParamValue)>,
    remappings: seq<(string, string)>,
    arguments: seq<string>)

  /** A `Node(...)` action as written in a launch file. */
  datatype NodeTemplate = NodeTemplate(
    package: string,
    executable: string,
    name: Option<string>,
    namespace: Option<seq<Subst>>,
    parameters: seq<(string, ParamExpr)>,
    remappings: seq<(string, string)>,
    arguments: seq<seq<Subst>>)

  /** True when every `LaunchConfiguration` in `subs` names a bound argument. */
  predicate Bound(subs: seq<Subst>, args: Args)
  {
    forall i :: 0 <= i < |subs| && subs[i].Config? ==> subs[i].name in args
  }

  /** The text a substitution piece stands for; requires its name to be bound. */
  function Piece(s: Subst, args: Args): string
    requires s.Config? ==> s.name in args
  {
    match s
    case Text(t) => t
    case Config(n) => args[n]
  }

  /** Performs a substitution list: the concatenation of its pieces in order, or
      None when some configuration it names is not bound. */
  function Perform(subs: seq<Subst>, args: Args): (r: Option<string>)
    ensures r.Some? <==> Bound(subs, args)
  {
    if subs == [] then Some("")
    else
      var rest := Perform(subs[1..], args);
      match subs[0]
      case Text(t) => if rest.Some? then Some(t + rest.value) else None
      case Config(n) =>
        if n in args && rest.Some? then Some(args[n] + rest.value) else None
  }

  /** Performing a concatenation performs each half in turn. */
  lemma {:induction false} PerformConcat(a: seq<Subst>, b: seq<Subst>, args: Args)
    requires Bound(a, args) && Bound(b, args)
    ensures Perform(a + b, args).Some?
    ensures Perform(a + b, args).value == Perform(a, args).value + Perform(b, args).value
  {
    if a == [] {
      assert a + b == b;
    } else {
      assert (a + b)[1..] == a[1..] + b;
      PerformConcat(a[1..], b, args);
    }
  }

  /** A one-piece substitution list performs to that piece. */
  lemma PerformPiece(p: Subst, args: Args)
    requires p.Config? ==> p.name in args
    ensures Perform([p], args) == Some(Piece(p, args))
  {
    assert [p][1..] == [];
    assert Piece(p, args) + "" == Piece(p, args);
  }

  /** `[Text(t), Config(n)]` performs to `t` followed by the value of `n`. */
  lemma PerformPair(t: string, n: string, args: Args)
    requires n in args
    ensures Bound([Text(t), Config(n)], args)
    ensures Perform([Text(t), Config(n)], args) == Some(t + args[n])
  {
    assert Perform([Config(n)], args) == Some(args[n]) by {
      assert [Config(n)][1..] == [];
      assert args[n] + "" == args[n];
    }
    assert [Text(t), Config(n)][1..] == [Config(n)];
  }

  /** Appending `[Text(t), Config(n)]` to a bound token list appends `t` and
      the value of `n` to what it performs to. */
  lemma PerformAppendPair(xs: seq<Subst>, t: string, n: string, args: Args)
    requires Bound(xs, args) && n in args
    ensures Perform(xs + [Text(t), Config(n)], args) == Some(Perform(xs, args).value + t + args[n])
  {
    PerformPair(t, n, args);
    PerformConcat(xs, [Text(t), Config(n)], args);
    assert Perform(xs, args).value + (t + args[n]) == Perform(xs, args).value + t + args[n];
  }

  /** Performs every substitution list of `xs`, in order. */
  function PerformAll(xs: seq<seq<Subst>>, args: Args): (r: Option<seq<string>>)
    ensures r.Some? ==> |r.value| == |xs|
  {
    if xs == [] then Some([])
    else
      var head := Perform(xs[0], args);
      var rest := PerformAll(xs[1..], args);
      if head.Some? && rest.Some? then Some([head.value] + rest.value) else None
  }

  /** `PerformAll` succeeds exactly when every list in `xs` is bound, and then
      its i-th string is what the i-th list performs to. */
  lemma {:induction false} PerformAllEach(xs: seq<seq<Subst>>, args: Args)
    ensures PerformAll(xs, args).Some? <==> forall i :: 0 <= i < |xs| ==> Bound(xs[i], args)
    ensures PerformAll(xs, args).Some? ==>
      forall i :: 0 <= i < |xs| ==> Perform(xs[i], args) == Some(PerformAll(xs, args).value[i])
    decreases xs
  {
    if xs != [] {
      PerformAllEach(xs[1..], args);
      assert forall i :: 1 <= i < |xs| ==> xs[i] == xs[1..][i - 1];
    }
  }

  /** Performing a concatenation of performable lists of substitution lists
      performs each part in turn. */
  lemma {:induction false} PerformAllConcat(xs: seq<seq<Subst>>, ys: seq<seq<Subst>>, args: Args)
    requires PerformAll(xs, args).Some? && PerformAll(ys, args).Some?
    ensures PerformAll(xs + ys, args) == Some(PerformAll(xs, args).value + PerformAll(ys, args).value)
    decreases xs
  {
    if xs == [] {
      assert xs + ys == ys;
      assert [] + PerformAll(ys, args).value == PerformAll(ys, args).value;
    } else {
      var h := Perform(xs[0], args).value;
      var l, r := PerformAll(xs[1..], args).value, PerformAll(ys, args).value;
      assert PerformAll(xs, args) == Some([h] + l);
      assert (xs + ys)[0] == xs[0];
      assert (xs + ys)[1..] == xs[1..] + ys;
      PerformAllConcat(xs[1..], ys, args);
      assert PerformAll(xs + ys, args) == Some([h] + (l + r));
      assert [h] + (l + r) == [h] + l + r;
    }
  }

  /** A flag followed by a one-piece value performs to the flag followed by
      the piece's text. */
  lemma PerformAllFlag(flag: string, v: Subst, args: Args)
    requires v.Config? ==> v.name in args
    ensures PerformAll([Lit(flag), [v]], args) == Some([flag, Piece(v, args)])
  {
    PerformLit(flag, args);
    PerformPiece(v, args);
    var xs := [Lit(flag), [v]];
    assert xs[1..][1..] == [];
    assert xs[1..] == [[v]];
    assert PerformAll(xs[1..], args) == Some([Piece(v, args)]) by {
      assert [Piece(v, args)] + [] == [Piece(v, args)];
    }
    assert [flag] + [Piece(v, args)] == [flag, Piece(v, args)];
  }

  /** Appending a flag and a one-piece value to a performable list appends
      the flag and the piece's text to what it performs to. */
  lemma PerformAllAppendFlag(xs: seq<seq<Subst>>, flag: string, v: Subst, args: Args)
    requires PerformAll(xs, args).Some? && (v.Config? ==> v.name in args)
    ensures PerformAll(xs + [Lit(flag), [v]], args) == Some(PerformAll(xs, args).value + [flag, Piece(v, args)])
  {
    PerformAllFlag(flag, v, args);
    PerformAllConcat(xs, [Lit(flag), [v]], args);
  }

  /** Resolves one parameter value. */
  function ResolveParam(e: ParamExpr, args: Args): (r: Option<ParamValue>)
    ensures r.Some? <==> (e.BoolExpr? || (e.StrExpr? && Bound(e.subs, args)) || (e.CommandExpr? && Bound(e.tokens, args)))
    ensures r.Some? && e.BoolExpr? ==> r.value == BoolParam(e.b)
    ensures r.Some? && e.StrExpr? ==> r.value == StrParam(Perform(e.subs, args).value)
    ensures r.Some? && e.CommandExpr? ==> r.value == CommandOutput(Perform(e.tokens, args).value)
  {
    match e
    case BoolExpr(b) => Some(BoolParam(b))
    case StrExpr(subs) =>
      var s := Perform(subs, args);
      if s.Some? then Some(StrParam(s.value)) else None
    case CommandExpr(tokens) =>
      var s := Perform(tokens, args);
      if s.Some? then Some(CommandOutput(s.value)) else None
  }

  /** Resolves a parameter list, keeping its keys and their order. */
  function ResolveParams(ps: seq<(string, ParamExpr)>, args: Args): (r: Option<seq<(string, ParamValue)>>)
    ensures r.Some? <==> forall i :: 0 <= i < |ps| ==> ResolveParam(ps[i].1, args).Some?
    ensures r.Some? ==> |r.value| == |ps|
    ensures r.Some? ==> forall i :: 0 <= i < |ps| ==>
      r.value[i].0 == ps[i].0 && Some(r.value[i].1) == ResolveParam(ps[i].1, args)
  {
    if ps == [] then Some([])
    else
      var head := ResolveParam(ps[0].1, args);
      var rest := ResolveParams(ps[1..], args);
      if head.Some? && rest.Some? then Some([(ps[0].0, head.value)] + rest.value) else None
  }

  /** A one-entry parameter list resolves to its one resolved entry. */
  lemma ResolveOneParam(key: string, e: ParamExpr, args: Args)
    requires ResolveParam(e, args).Some?
    ensures ResolveParams([(key, e)], args) == Some([(key, ResolveParam(e, args).value)])
  {
    var ps := [(key, e)];
    assert ps[1..] == [];
    assert ResolveParams(ps[1..], args) == Some([]);
    assert [(key, ResolveParam(e, args).value)] + [] == [(key, ResolveParam(e, args).value)];
  }

  /** An optional substitution list, performed when present. */
  function PerformOpt(o: Option<seq<Subst>>, args: Args): (r: Option<Option<string>>)
    ensures r.Some? <==> (o.Some? ==> Bound(o.value, args))
    ensures r.Some? ==> (r.value.Some? <==> o.Some?)
    ensures r.Some? && o.Some? ==> r.value.value == Perform(o.value, args).value
  {
    match o
    case None => Some(None)
    case Some(subs) =>
      var s := Perform(subs, args);
      if s.Some? then Some(Some(s.value)) else None
  }

  /** Resolves a node template against the launch arguments in force. Package,
      executable, name and remappings are literals and pass through unchanged. */
  function Resolve(t: NodeTemplate, args: Args): (r: Option<Node>)
    ensures r.Some? ==> r.value.package == t.package && r.value.executable == t.executable
    ensures r.Some? ==> r.value.name == t.name && r.value.remappings == t.remappings
    ensures r.Some? ==> |r.value.parameters| == |t.parameters| && |r.value.arguments| == |t.arguments|
    ensures r.Some? <==> && PerformOpt(t.namespace, args).Some?
                         && ResolveParams(t.parameters, args).Some?
                         && PerformAll(t.arguments, args).Some?
    ensures r.Some? ==> && r.value.namespace == PerformOpt(t.namespace, args).value
                        && r.value.parameters == ResolveParams(t.parameters, args).value
                        && r.value.arguments == PerformAll(t.arguments, args).value
  {
    var ns := PerformOpt(t.namespace, args);
    var ps := ResolveParams(t.parameters, args);
    var xs := PerformAll(t.arguments, args);
    if ns.Some? && ps.Some? && xs.Some? then
      Some(Node(t.package, t.executable, t.name, ns.value, ps.value, t.remappings, xs.value))
    else None
  }

  /** Treats a literal string as a substitution list. */
  function Lit(s: string): seq<Subst>
  {
    [Text(s)]
  }

  /** A literal performs to itself whatever the arguments. */
  lemma PerformLit(s: string, args: Args)
    ensures Perform(Lit(s), args) == Some(s)
  {
    assert s + "" == s;
  }
}

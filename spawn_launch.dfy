/**
 `generate_launch_description` of spawn.launch.py: eight argument
 declarations, the description plan included without forwarded arguments,
 the `create` node that spawns the robot in the simulator, and an
 unconditional parameter bridge.
 */
module SpawnLaunch {
  import opened Wrappers
  import opened Launch
  import opened Composers
  import opened Plans
  import opened DescriptionLaunch

  /** The eight `DeclareLaunchArgument` actions, in the order they are added. */
  function SpawnArguments(): Plan
  {
    [Declare("x", "0.0"), Declare("y", "0.0"), Declare("z", "0.0"),
     Declare("R", "0.0"), Declare("P", "0.0"), Declare("Y", "0.0"),
     Declare("model_name", "kobuki"), Declare("gazebo", "true")]
  }

  /** The `create` node as written: flags are literals, values are
      `LaunchConfiguration`s, except the topic, which is a literal. */
  function CreateTemplate(): NodeTemplate
  {
    NodeTemplate("ros_gz_sim", "create", None, None, [], [],
      [Lit("-model"), [Config("model_name")]]
        + [Lit("-topic"), Lit("robot_description")]
        + [Lit("-x"), [Config("x")]]
        + [Lit("-y"), [Config("y")]]
        + [Lit("-z"), [Config("z")]]
        + [Lit("-R"), [Config("R")]]
        + [Lit("-P"), [Config("P")]]
        + [Lit("-Y"), [Config("Y")]])
  }

  /** The unconditional bridge as written; its config path is built from the
      same share directory. */
  function SpawnBridgeTemplate(): NodeTemplate
  {
    NodeTemplate("ros_gz_bridge", "parameter_bridge", Some("bridge_ros_gz"), None,
                 [("config_file", StrExpr(Lit(BridgeConfigFile))), ("use_sim_time", BoolExpr(true))],
                 [], [])
  }

  /** The plan spawn.launch.py returns. */
  function SpawnPlan(): Plan
  {
    SpawnArguments() + SpawnTail()
  }

  /** The order of the entities: the eight declarations first, then the
      include, then `create`, then the bridge. */
  lemma SpawnPlanShape()
    ensures var p := SpawnPlan();
      && |p| == 11
      && (forall i :: 0 <= i < 8 ==> p[i].Declare?)
      && p[8] == Include(DescriptionPlan())
      && p[9] == Start(CreateTemplate()) && p[10] == Start(SpawnBridgeTemplate())
  {
  }

  /** The three entities after the declarations: the included description
      plan, `create`, then the bridge. */
  function SpawnTail(): Plan
  {
    [Include(DescriptionPlan()), Start(CreateTemplate()), Start(SpawnBridgeTemplate())]
  }

  /** `generate_launch_description`: eleven `add_action` calls on a fresh
      `LaunchDescription`. The include refers to the description plan. */
  method GenerateLaunchDescription() returns (ld: LaunchDescription)
    ensures fresh(ld)
    ensures ld.entities == SpawnPlan()
  {
    ld := new LaunchDescription();
    ld.AddAction(Declare("x", "0.0"));
    ld.AddAction(Declare("y", "0.0"));
    ld.AddAction(Declare("z", "0.0"));
    ld.AddAction(Declare("R", "0.0"));
    ld.AddAction(Declare("P", "0.0"));
    ld.AddAction(Declare("Y", "0.0"));
    ld.AddAction(Declare("model_name", "kobuki"));
    ld.AddAction(Declare("gazebo", "true"));
    ld.AddAction(Include(DescriptionPlan()));
    ld.AddAction(Start(CreateTemplate()));
    ld.AddAction(Start(SpawnBridgeTemplate()));
  }

  /** The names the spawn plan itself declares. */
  const SpawnNames: set<string> := {"x", "y", "z", "R", "P", "Y", "model_name", "gazebo"}

  /** The arguments in force after the six pose declarations. */
  function PoseArgsAfter(given: Args): (r: Args)
    ensures {"x", "y", "z", "R", "P", "Y"} <= r.Keys
  {
    var a1 := Declared(given, "x", "0.0");
    var a2 := Declared(a1, "y", "0.0");
    var a3 := Declared(a2, "z", "0.0");
    var a4 := Declared(a3, "R", "0.0");
    var a5 := Declared(a4, "P", "0.0");
    Declared(a5, "Y", "0.0")
  }

  /** The arguments in force after the eight declarations, applied in order
      over `given`. */
  function SpawnArgsAfter(given: Args): (r: Args)
    ensures SpawnNames <= r.Keys
  {
    Declared(Declared(PoseArgsAfter(given), "model_name", "kobuki"), "gazebo", "true")
  }

  /** The eight declarations start nothing and leave the arguments that
      applying them in order gives. */
  lemma SpawnArgumentsExpand(given: Args)
    ensures Expand(SpawnArguments(), given) == Some(Outcome([], SpawnArgsAfter(given)))
  {
    var d := SpawnArguments();
    var a1 := Declared(given, "x", "0.0");
    var a2 := Declared(a1, "y", "0.0");
    var a3 := Declared(a2, "z", "0.0");
    var a4 := Declared(a3, "R", "0.0");
    var a5 := Declared(a4, "P", "0.0");
    var a6 := Declared(a5, "Y", "0.0");
    var a7 := Declared(a6, "model_name", "kobuki");
    var a8 := Declared(a7, "gazebo", "true");
    assert Expand(d[8..], a8) == Some(Outcome([], a8));
    assert Expand(d[7..], a7) == Expand(d[8..], a8);
    assert Expand(d[6..], a6) == Expand(d[7..], a7);
    assert Expand(d[5..], a5) == Expand(d[6..], a6);
    assert Expand(d[4..], a4) == Expand(d[5..], a5);
    assert Expand(d[3..], a3) == Expand(d[4..], a4);
    assert Expand(d[2..], a2) == Expand(d[3..], a3);
    assert Expand(d[1..], a1) == Expand(d[2..], a2);
    assert Expand(d, given) == Expand(d[1..], a1);
  }

  /** After the six pose declarations every name reads, with "0.0" as the
      fallback, as it did before: each coordinate has the value the caller
      bound, or else "0.0", and nothing else changes. */
  lemma PoseArgsResolve(given: Args)
    ensures forall k :: ValueOr(PoseArgsAfter(given), k, "0.0") == ValueOr(given, k, "0.0")
  {
    var a1 := Declared(given, "x", "0.0");
    var a2 := Declared(a1, "y", "0.0");
    var a3 := Declared(a2, "z", "0.0");
    var a4 := Declared(a3, "R", "0.0");
    var a5 := Declared(a4, "P", "0.0");
    forall k ensures ValueOr(PoseArgsAfter(given), k, "0.0") == ValueOr(given, k, "0.0") {
      DeclaredLookup(given, "x", "0.0", k, "0.0");
      DeclaredLookup(a1, "y", "0.0", k, "0.0");
      DeclaredLookup(a2, "z", "0.0", k, "0.0");
      DeclaredLookup(a3, "R", "0.0", k, "0.0");
      DeclaredLookup(a4, "P", "0.0", k, "0.0");
      DeclaredLookup(a5, "Y", "0.0", k, "0.0");
    }
  }

  /** Resolution of the spawn pose: each coordinate keeps the value the
      caller bound, or else is "0.0". Values pass through as strings. */
  lemma SpawnPoseResolve(given: Args)
    ensures var r := SpawnArgsAfter(given);
      && r["x"] == ValueOr(given, "x", "0.0") && r["y"] == ValueOr(given, "y", "0.0")
      && r["z"] == ValueOr(given, "z", "0.0") && r["R"] == ValueOr(given, "R", "0.0")
      && r["P"] == ValueOr(given, "P", "0.0") && r["Y"] == ValueOr(given, "Y", "0.0")
  {
    PoseArgsResolve(given);
    var p := PoseArgsAfter(given);
    var m := Declared(p, "model_name", "kobuki");
    var r := SpawnArgsAfter(given);
    forall k | k != "model_name" && k != "gazebo"
      ensures ValueOr(r, k, "0.0") == ValueOr(given, k, "0.0")
    {
      DeclaredLookup(p, "model_name", "kobuki", k, "0.0");
      DeclaredLookup(m, "gazebo", "true", k, "0.0");
    }
    assert r["x"] == ValueOr(r, "x", "0.0") && r["y"] == ValueOr(r, "y", "0.0")
        && r["z"] == ValueOr(r, "z", "0.0") && r["R"] == ValueOr(r, "R", "0.0")
        && r["P"] == ValueOr(r, "P", "0.0") && r["Y"] == ValueOr(r, "Y", "0.0");
  }

  /** Resolution of the model name and the gazebo flag: "kobuki" and "true"
      unless the caller bound them. */
  lemma SpawnIdentityResolve(given: Args)
    ensures var r := SpawnArgsAfter(given);
      && r["model_name"] == ValueOr(given, "model_name", "kobuki")
      && r["gazebo"] == ValueOr(given, "gazebo", "true")
  {
  }

  /** The flags of the `create` command line, in order. */
  const CreateFlags: seq<string> := ["-model", "-topic", "-x", "-y", "-z", "-R", "-P", "-Y"]

  /** The arguments `create` reads are bound. */
  predicate CreateBound(a: Args)
  {
    "model_name" in a && "x" in a && "y" in a && "z" in a && "R" in a && "P" in a && "Y" in a
  }

  /** The value that follows each flag of `CreateFlags`. */
  function CreateValues(a: Args): seq<string>
    requires CreateBound(a)
  {
    [a["model_name"], "robot_description", a["x"], a["y"], a["z"], a["R"], a["P"], a["Y"]]
  }

  /** The `create` command line: eight flag/value pairs, each flag directly
      followed by its value. */
  function CreateArguments(a: Args): seq<string>
    requires CreateBound(a)
  {
    ["-model", a["model_name"]] + ["-topic", "robot_description"]
      + ["-x", a["x"]] + ["-y", a["y"]] + ["-z", a["z"]]
      + ["-R", a["R"]] + ["-P", a["P"]] + ["-Y", a["Y"]]
  }

  /** The command line is sixteen words: each flag of `CreateFlags`, in
      order, directly followed by its value. */
  lemma CreateArgumentsPair(a: Args)
    requires CreateBound(a)
    ensures var r := CreateArguments(a);
      && |r| == 2 * |CreateFlags| == 16
      && forall i :: 0 <= i < |CreateFlags| ==> r[2 * i] == CreateFlags[i] && r[2 * i + 1] == CreateValues(a)[i]
  {
  }

  /** The resolved `create` node. */
  function CreateNode(a: Args): Node
    requires CreateBound(a)
  {
    Node("ros_gz_sim", "create", None, None, [], [], CreateArguments(a))
  }

  /** The `create` template resolves to the flag/value command line over
      the current arguments. */
  lemma ResolveCreate(a: Args)
    requires CreateBound(a)
    ensures Resolve(CreateTemplate(), a) == Some(CreateNode(a))
  {
    var x1: seq<seq<Subst>> := [Lit("-model"), [Config("model_name")]];
    PerformAllFlag("-model", Config("model_name"), a);
    var x2 := x1 + [Lit("-topic"), [Text("robot_description")]];
    PerformAllAppendFlag(x1, "-topic", Text("robot_description"), a);
    var x3 := x2 + [Lit("-x"), [Config("x")]];
    PerformAllAppendFlag(x2, "-x", Config("x"), a);
    var x4 := x3 + [Lit("-y"), [Config("y")]];
    PerformAllAppendFlag(x3, "-y", Config("y"), a);
    var x5 := x4 + [Lit("-z"), [Config("z")]];
    PerformAllAppendFlag(x4, "-z", Config("z"), a);
    var x6 := x5 + [Lit("-R"), [Config("R")]];
    PerformAllAppendFlag(x5, "-R", Config("R"), a);
    var x7 := x6 + [Lit("-P"), [Config("P")]];
    PerformAllAppendFlag(x6, "-P", Config("P"), a);
    PerformAllAppendFlag(x7, "-Y", Config("Y"), a);
  }

  /** The spawn plan's unconditional bridge resolves, whatever the
      arguments, to the very node start_bridge returns when gazebo is "true". */
  lemma SpawnBridgeIsTheDescriptionBridge(a: Args)
    ensures Resolve(SpawnBridgeTemplate(), a) == Some(BridgeNode())
    ensures "gazebo" in a && a["gazebo"] == "true" ==> StartBridge(a) == [BridgeNode()]
  {
    var ps := SpawnBridgeTemplate().parameters;
    PerformLit(BridgeConfigFile, a);
    assert ResolveParams(ps[1..], a) == Some([("use_sim_time", BoolParam(true))]) by {
      ResolveOneParam("use_sim_time", BoolExpr(true), a);
      assert ps[1..] == [("use_sim_time", BoolExpr(true))];
    }
    assert ResolveParam(ps[0].1, a) == Some(StrParam(BridgeConfigFile));
    assert ResolveParams(ps, a) == Some([(ps[0].0, StrParam(BridgeConfigFile))] + [("use_sim_time", BoolParam(true))]);
    assert [(ps[0].0, StrParam(BridgeConfigFile))] + [("use_sim_time", BoolParam(true))] == BridgeNode().parameters;
  }

  /** `create` finds the robot under the topic "robot_description", the key of
      the parameter robot_state_publisher publishes. */
  lemma CreateTopicIsDescriptionKey(a: Args)
    requires CreateBound(a)
    ensures CreateArguments(a)[2] == "-topic"
    ensures CreateArguments(a)[3] == RobotStatePublisher().parameters[0].0 == "robot_description"
  {
  }

  /** Declaring the spawn arguments leaves every other name as the caller
      bound it (or unbound). */
  lemma SpawnArgsKeepOthers(given: Args, k: string, fallback: string)
    requires k !in SpawnNames
    ensures k in SpawnArgsAfter(given) <==> k in given
    ensures ValueOr(SpawnArgsAfter(given), k, fallback) == ValueOr(given, k, fallback)
  {
    var a1 := Declared(given, "x", "0.0");
    var a2 := Declared(a1, "y", "0.0");
    var a3 := Declared(a2, "z", "0.0");
    var a4 := Declared(a3, "R", "0.0");
    var a5 := Declared(a4, "P", "0.0");
    var a6 := PoseArgsAfter(given);
    var a7 := Declared(a6, "model_name", "kobuki");
    DeclaredLookup(given, "x", "0.0", k, fallback);
    DeclaredLookup(a1, "y", "0.0", k, fallback);
    DeclaredLookup(a2, "z", "0.0", k, fallback);
    DeclaredLookup(a3, "R", "0.0", k, fallback);
    DeclaredLookup(a4, "P", "0.0", k, fallback);
    DeclaredLookup(a5, "Y", "0.0", k, fallback);
    DeclaredLookup(a6, "model_name", "kobuki", k, fallback);
    DeclaredLookup(a7, "gazebo", "true", k, fallback);
  }

  /** The include forwards no arguments, yet shares the launch arguments: the
      description plan sees gazebo as the spawn plan resolved it ("true" by
      default), and its other arguments as the caller bound them or else its
      own defaults. */
  lemma IncludedDescriptionSees(given: Args)
    ensures var d := DescriptionArgsAfter(SpawnArgsAfter(given));
      && d["gazebo"] == ValueOr(given, "gazebo", "true")
      && d["camera"] == ValueOr(given, "camera", "false")
      && d["lidar"] == ValueOr(given, "lidar", "false")
      && d["structure"] == ValueOr(given, "structure", "true")
      && d["namespace"] == ValueOr(given, "namespace", "")
      && d["description_file"] == ValueOr(given, "description_file", DescriptionFileDefault)
  {
    var s := SpawnArgsAfter(given);
    DescriptionArgumentsResolve(s);
    SpawnIdentityResolve(given);
    SpawnPassesDescriptionArgs(given);
    assert s["gazebo"] == ValueOr(s, "gazebo", "false");
  }

  /** The spawn declarations leave the description's other arguments as the
      caller bound them. */
  lemma SpawnPassesDescriptionArgs(given: Args)
    ensures var s := SpawnArgsAfter(given);
      && ValueOr(s, "camera", "false") == ValueOr(given, "camera", "false")
      && ValueOr(s, "lidar", "false") == ValueOr(given, "lidar", "false")
      && ValueOr(s, "structure", "true") == ValueOr(given, "structure", "true")
      && ValueOr(s, "namespace", "") == ValueOr(given, "namespace", "")
      && ValueOr(s, "description_file", DescriptionFileDefault) == ValueOr(given, "description_file", DescriptionFileDefault)
  {
    SpawnArgsKeepOthers(given, "camera", "false");
    SpawnArgsKeepOthers(given, "lidar", "false");
    SpawnArgsKeepOthers(given, "structure", "true");
    SpawnArgsKeepOthers(given, "namespace", "");
    SpawnArgsKeepOthers(given, "description_file", DescriptionFileDefault);
  }

  /** The description's declarations never overwrite what the spawn plan
      resolved, so `create` reads the spawn plan's own values. */
  lemma DescriptionKeepsSpawnArgs(s: Args)
    requires CreateBound(s)
    ensures CreateBound(DescriptionArgsAfter(s))
    ensures CreateArguments(DescriptionArgsAfter(s)) == CreateArguments(s)
  {
    DescriptionArgumentsExpand(s);
    ExpandKeepsBindings(DescriptionArguments(), s);
  }

  /** An include followed by two nodes: the included plan's nodes, then the
      two nodes resolved where the include left the arguments. */
  lemma ExpandIncludeThenTwo(child: Plan, t1: NodeTemplate, t2: NodeTemplate, args: Args, inner: Outcome, n1: Node, n2: Node)
    requires Expand(child, args) == Some(inner)
    requires Resolve(t1, inner.args) == Some(n1) && Resolve(t2, inner.args) == Some(n2)
    ensures Expand([Include(child), Start(t1), Start(t2)], args) == Some(Outcome(inner.nodes + [n1, n2], inner.args))
  {
    var p := [Include(child), Start(t1), Start(t2)];
    assert p[1..][1..][1..] == [];
    assert Expand(p[1..][1..], inner.args) == Some(Outcome([n2], inner.args)) by {
      assert [n2] + [] == [n2];
    }
    assert Expand(p[1..], inner.args) == Some(Outcome([n1, n2], inner.args)) by {
      assert [n1] + [n2] == [n1, n2];
    }
  }

  /** The three entities after the declarations, against arguments binding
      the spawn names: the description plan's nodes, then `create` with the
      spawn plan's values, then the bridge. */
  lemma SpawnTailExpand(s: Args)
    requires SpawnNames <= s.Keys
    ensures var d := DescriptionArgsAfter(s);
      Expand(SpawnTail(), s) ==
        Some(Outcome([RobotStatePublisherNode(d["namespace"], XacroCommand(d)),
                      JointStatePublisherNode(d["namespace"])]
                     + StartBridge(d) + StartCamera(d) + [CreateNode(s), BridgeNode()], d))
  {
    var d := DescriptionArgsAfter(s);
    DescriptionExpansion(s);
    DescriptionKeepsSpawnArgs(s);
    ResolveCreate(d);
    SpawnBridgeIsTheDescriptionBridge(d);
    ExpandIncludeThenTwo(DescriptionPlan(), CreateTemplate(), SpawnBridgeTemplate(), s,
                         Expand(DescriptionPlan(), s).value, CreateNode(s), BridgeNode());
  }

  /** Expanding the spawn plan starts, in order, what the included
      description plan starts over the spawn plan's resolved arguments, then
      `create` with the spawn plan's pose and model name, then the
      unconditional bridge. It never fails. */
  lemma SpawnExpansion(given: Args)
    ensures var s := SpawnArgsAfter(given);
            var d := DescriptionArgsAfter(s);
      Expand(SpawnPlan(), given) ==
        Some(Outcome([RobotStatePublisherNode(d["namespace"], XacroCommand(d)),
                      JointStatePublisherNode(d["namespace"])]
                     + StartBridge(d) + StartCamera(d) + [CreateNode(s), BridgeNode()], d))
  {
    var s := SpawnArgsAfter(given);
    SpawnArgumentsExpand(given);
    ExpandAfterPrefix(SpawnArguments(), SpawnTail(), given, s);
    SpawnTailExpand(s);
  }

  /** Node count of the spawn plan: the description plan's nodes, with gazebo
      resolving to "true" unless the caller says otherwise, then `create` and
      the unconditional bridge. */
  lemma SpawnNodeCount(given: Args)
    ensures Expand(SpawnPlan(), given).Some?
    ensures var g := ValueOr(given, "gazebo", "true") == "true";
            var c := ValueOr(given, "camera", "false") == "true";
      |Expand(SpawnPlan(), given).value.nodes| == 4 + (if g then 1 else 0) + (if g && c then 2 else 0)
  {
    SpawnExpansion(given);
    IncludedDescriptionSees(given);
  }

  /** The `create` command line with the spawn defaults. */
  const DefaultCreateArguments: seq<string> :=
    ["-model", "kobuki"] + ["-topic", "robot_description"]
      + ["-x", "0.0"] + ["-y", "0.0"] + ["-z", "0.0"]
      + ["-R", "0.0"] + ["-P", "0.0"] + ["-Y", "0.0"]

  /** The xacro command the included description runs with the spawn
      defaults: the description's own defaults, except gazebo:=true. */
  const SpawnXacroCommand: string :=
    "xacro " + DescriptionFileDefault + " lidar:=" + "false" + " camera:=" + "false"
      + " structure:=" + "true" + " gazebo:=" + "true"

  /** The caller overrides none of the arguments either plan declares. */
  predicate NoOverrides(given: Args)
  {
    SpawnNames !! given.Keys && DescriptionNames !! given.Keys
  }

  /** The arguments with no overrides: the spawn defaults, then the
      description defaults under them. */
  lemma SpawnDefaultsResolve(given: Args)
    requires NoOverrides(given)
    ensures var s := SpawnArgsAfter(given);
            var d := DescriptionArgsAfter(s);
      && CreateArguments(s) == DefaultCreateArguments
      && XacroCommand(d) == SpawnXacroCommand
      && d["namespace"] == "" && d["gazebo"] == "true" && d["camera"] == "false"
  {
    SpawnPoseResolve(given);
    SpawnIdentityResolve(given);
    IncludedDescriptionSees(given);
  }

  /** With no overrides the spawn plan starts five nodes: the two publishers
      with gazebo:=true in the xacro command, the bridge that start_bridge adds
      because gazebo resolves to "true", `create` for model kobuki at the
      origin, and the unconditional bridge, identical to the other one. */
  lemma SpawnDefaults(given: Args)
    requires NoOverrides(given)
    ensures var o := Expand(SpawnPlan(), given);
      && o.Some? && |o.value.nodes| == 5
      && o.value.nodes[0] == RobotStatePublisherNode("", SpawnXacroCommand)
      && o.value.nodes[1] == JointStatePublisherNode("")
      && o.value.nodes[2] == BridgeNode() && o.value.nodes[4] == BridgeNode()
      && o.value.nodes[3].package == "ros_gz_sim" && o.value.nodes[3].executable == "create"
      && o.value.nodes[3].arguments == DefaultCreateArguments
  {
    SpawnExpansion(given);
    SpawnDefaultsResolve(given);
    var s := SpawnArgsAfter(given);
    var d := DescriptionArgsAfter(s);
    assert StartBridge(d) == [BridgeNode()] && StartCamera(d) == [];
  }
}

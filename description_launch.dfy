/**
 `generate_launch_description` of kobuki_description.launch.py: six argument
 declarations, the robot_state_publisher fed by the xacro command, the
 joint_state_publisher, then the two opaque composers.
 */
module DescriptionLaunch {
  import opened Wrappers
  import opened Launch
  import opened Composers
  import opened Plans

  /** `os.path.join(kobuki_pkg, 'urdf', 'kobuki.urdf.xacro')`. */
  const DescriptionFileDefault: string := KobukiShare + "/urdf/kobuki.urdf.xacro"

  /** Both TF nodes remap the absolute transform topics into their namespace. */
  const TfRemappings: seq<(string, string)> := [("/tf", "tf"), ("/tf_static", "tf_static")]

  /** The six `DeclareLaunchArgument` actions, in the order they are added. */
  function DescriptionArguments(): Plan
  {
    [Declare("lidar", "false"),
     Declare("camera", "false"),
     Declare("structure", "true"),
     Declare("gazebo", "false"),
     Declare("description_file", DescriptionFileDefault),
     Declare("namespace", "")]
  }

  /** The token list handed to `Command`. */
  function XacroTokens(): seq<Subst>
  {
    [Text("xacro "), Config("description_file")]
      + [Text(" lidar:="), Config("lidar")]
      + [Text(" camera:="), Config("camera")]
      + [Text(" structure:="), Config("structure")]
      + [Text(" gazebo:="), Config("gazebo")]
  }

  /** The arguments the xacro command reads are bound. */
  predicate XacroBound(args: Args)
  {
    && "description_file" in args && "lidar" in args && "camera" in args
    && "structure" in args && "gazebo" in args
  }

  /** The command string handed to xacro, in the fixed token order. */
  function XacroCommand(args: Args): string
    requires XacroBound(args)
  {
    "xacro " + args["description_file"] + " lidar:=" + args["lidar"] + " camera:=" + args["camera"]
      + " structure:=" + args["structure"] + " gazebo:=" + args["gazebo"]
  }

  /** Performing the `Command` token list yields exactly the xacro command, its
      substitutions in the order description_file, lidar, camera, structure,
      gazebo. */
  lemma XacroTokenOrder(args: Args)
    requires XacroBound(args)
    ensures Perform(XacroTokens(), args) == Some(XacroCommand(args))
  {
    var q1 := [Text("xacro "), Config("description_file")];
    PerformPair("xacro ", "description_file", args);
    var q2 := q1 + [Text(" lidar:="), Config("lidar")];
    PerformAppendPair(q1, " lidar:=", "lidar", args);
    var q3 := q2 + [Text(" camera:="), Config("camera")];
    PerformAppendPair(q2, " camera:=", "camera", args);
    var q4 := q3 + [Text(" structure:="), Config("structure")];
    PerformAppendPair(q3, " structure:=", "structure", args);
    PerformAppendPair(q4, " gazebo:=", "gazebo", args);
    assert XacroTokens() == q4 + [Text(" gazebo:="), Config("gazebo")];
  }

  /** The token list cannot be performed when an argument it names is unbound. */
  lemma XacroNeedsItsArguments(args: Args)
    requires !XacroBound(args)
    ensures Perform(XacroTokens(), args) == None
  {
    var t := XacroTokens();
    if "description_file" !in args { assert t[1].Config? && t[1].name !in args; }
    else if "lidar" !in args { assert t[3].Config? && t[3].name !in args; }
    else if "camera" !in args { assert t[5].Config? && t[5].name !in args; }
    else if "structure" !in args { assert t[7].Config? && t[7].name !in args; }
    else { assert t[9].Config? && t[9].name !in args; }
  }

  /** The `robot_state_publisher` node as written. */
  function RobotStatePublisher(): NodeTemplate
  {
    NodeTemplate("robot_state_publisher", "robot_state_publisher", None, Some([Config("namespace")]),
                 [("robot_description", CommandExpr(XacroTokens()))], TfRemappings, [])
  }

  /** The `joint_state_publisher` node as written. */
  function JointStatePublisher(): NodeTemplate
  {
    NodeTemplate("joint_state_publisher", "joint_state_publisher", Some("joint_state_publisher"),
                 Some([Config("namespace")]), [], TfRemappings, [])
  }

  /** The robot_state_publisher once resolved in namespace `ns`, publishing the
      output of `command`. */
  function RobotStatePublisherNode(ns: string, command: string): Node
  {
    Node("robot_state_publisher", "robot_state_publisher", None, Some(ns),
         [("robot_description", CommandOutput(command))], TfRemappings, [])
  }

  /** The joint_state_publisher once resolved in namespace `ns`. */
  function JointStatePublisherNode(ns: string): Node
  {
    Node("joint_state_publisher", "joint_state_publisher", Some("joint_state_publisher"), Some(ns),
         [], TfRemappings, [])
  }

  /** The four entities after the declarations: the two publishers, then the
      two opaque functions. */
  function DescriptionTail(): Plan
  {
    [Start(RobotStatePublisher()), Start(JointStatePublisher()),
     Opaque(StartBridgeFn), Opaque(StartCameraFn)]
  }

  /** The plan `generate_launch_description` returns. */
  function DescriptionPlan(): Plan
  {
    DescriptionArguments() + DescriptionTail()
  }

  /** The order of the entities: the six declarations first, then the two
      publishers, then start_bridge before start_camera. */
  lemma DescriptionPlanShape()
    ensures var p := DescriptionPlan();
      && |p| == 10
      && (forall i :: 0 <= i < 6 ==> p[i].Declare?)
      && p[6] == Start(RobotStatePublisher()) && p[7] == Start(JointStatePublisher())
      && p[8] == Opaque(StartBridgeFn) && p[9] == Opaque(StartCameraFn)
  {
  }

  /** `generate_launch_description`: ten `add_action` calls on a fresh
      `LaunchDescription`. */
  method GenerateLaunchDescription() returns (ld: LaunchDescription)
    ensures fresh(ld)
    ensures ld.entities == DescriptionPlan()
  {
    ld := new LaunchDescription();
    ld.AddAction(Declare("lidar", "false"));
    ld.AddAction(Declare("camera", "false"));
    ld.AddAction(Declare("structure", "true"));
    ld.AddAction(Declare("gazebo", "false"));
    ld.AddAction(Declare("description_file", DescriptionFileDefault));
    ld.AddAction(Declare("namespace", ""));
    ld.AddAction(Start(RobotStatePublisher()));
    ld.AddAction(Start(JointStatePublisher()));
    ld.AddAction(Opaque(StartBridgeFn));
    ld.AddAction(Opaque(StartCameraFn));
  }

  /** The names the description plan declares. */
  const DescriptionNames: set<string> :=
    {"lidar", "camera", "structure", "gazebo", "description_file", "namespace"}

  /** In `r`, each of the six arguments has the value `given` bound, or else
      its default. (That nothing bound in `given` changes and that exactly the
      declared names are added holds of every expansion: see
      `ExpandKeepsBindings`.) */
  predicate ResolvesDescriptionArgs(given: Args, r: Args)
  {
    && DescriptionNames <= r.Keys
    && r["lidar"] == ValueOr(given, "lidar", "false")
    && r["camera"] == ValueOr(given, "camera", "false")
    && r["structure"] == ValueOr(given, "structure", "true")
    && r["gazebo"] == ValueOr(given, "gazebo", "false")
    && r["description_file"] == ValueOr(given, "description_file", DescriptionFileDefault)
    && r["namespace"] == ValueOr(given, "namespace", "")
  }

  /** The arguments in force after the six declarations, applied in order
      over `given`. */
  function DescriptionArgsAfter(given: Args): (r: Args)
    ensures DescriptionNames <= r.Keys
  {
    var a1 := Declared(given, "lidar", "false");
    var a2 := Declared(a1, "camera", "false");
    var a3 := Declared(a2, "structure", "true");
    var a4 := Declared(a3, "gazebo", "false");
    var a5 := Declared(a4, "description_file", DescriptionFileDefault);
    Declared(a5, "namespace", "")
  }

  /** The six declarations start nothing and leave the arguments that applying
      them in order gives. */
  lemma DescriptionArgumentsExpand(given: Args)
    ensures Expand(DescriptionArguments(), given) == Some(Outcome([], DescriptionArgsAfter(given)))
  {
    var d := DescriptionArguments();
    var a1 := Declared(given, "lidar", "false");
    var a2 := Declared(a1, "camera", "false");
    var a3 := Declared(a2, "structure", "true");
    var a4 := Declared(a3, "gazebo", "false");
    var a5 := Declared(a4, "description_file", DescriptionFileDefault);
    var a6 := Declared(a5, "namespace", "");
    assert Expand(d[6..], a6) == Some(Outcome([], a6));
    assert Expand(d[5..], a5) == Expand(d[6..], a6);
    assert Expand(d[4..], a4) == Expand(d[5..], a5);
    assert Expand(d[3..], a3) == Expand(d[4..], a4);
    assert Expand(d[2..], a2) == Expand(d[3..], a3);
    assert Expand(d[1..], a1) == Expand(d[2..], a2);
    assert Expand(d, given) == Expand(d[1..], a1);
  }

  /** Resolution of the description arguments: each keeps the value bound
      before (by the caller or an including plan), or else takes its default. */
  lemma DescriptionArgumentsResolve(given: Args)
    ensures ResolvesDescriptionArgs(given, DescriptionArgsAfter(given))
  {
    var a1 := Declared(given, "lidar", "false");
    var a2 := Declared(a1, "camera", "false");
    var a3 := Declared(a2, "structure", "true");
    var a4 := Declared(a3, "gazebo", "false");
    var a5 := Declared(a4, "description_file", DescriptionFileDefault);
    var r := DescriptionArgsAfter(given);
    forall k, fb | DescriptionFallback(k, fb) ensures ValueOr(r, k, fb) == ValueOr(given, k, fb) {
      DeclaredLookup(given, "lidar", "false", k, fb);
      DeclaredLookup(a1, "camera", "false", k, fb);
      DeclaredLookup(a2, "structure", "true", k, fb);
      DeclaredLookup(a3, "gazebo", "false", k, fb);
      DeclaredLookup(a4, "description_file", DescriptionFileDefault, k, fb);
      DeclaredLookup(a5, "namespace", "", k, fb);
    }
    assert DescriptionFallback("lidar", "false") && DescriptionFallback("camera", "false")
        && DescriptionFallback("structure", "true") && DescriptionFallback("gazebo", "false")
        && DescriptionFallback("description_file", DescriptionFileDefault)
        && DescriptionFallback("namespace", "");
    assert r["lidar"] == ValueOr(r, "lidar", "false") && r["camera"] == ValueOr(r, "camera", "false")
        && r["structure"] == ValueOr(r, "structure", "true") && r["gazebo"] == ValueOr(r, "gazebo", "false")
        && r["description_file"] == ValueOr(r, "description_file", DescriptionFileDefault)
        && r["namespace"] == ValueOr(r, "namespace", "");
  }

  /** `fb` is the default the description plan declares for `k`, if it
      declares `k` at all. */
  predicate DescriptionFallback(k: string, fb: string)
  {
    && (k == "lidar" ==> fb == "false") && (k == "camera" ==> fb == "false")
    && (k == "structure" ==> fb == "true") && (k == "gazebo" ==> fb == "false")
    && (k == "description_file" ==> fb == DescriptionFileDefault) && (k == "namespace" ==> fb == "")
  }

  /** The robot_state_publisher resolves to its namespace argument and the
      xacro command built from the current arguments. */
  lemma ResolveRobotStatePublisher(a: Args)
    requires XacroBound(a) && "namespace" in a
    ensures Resolve(RobotStatePublisher(), a) == Some(RobotStatePublisherNode(a["namespace"], XacroCommand(a)))
  {
    var t := RobotStatePublisher();
    assert PerformOpt(t.namespace, a) == Some(Some(a["namespace"])) by {
      NamespaceResolves(a);
    }
    assert ResolveParams(t.parameters, a) == Some([("robot_description", CommandOutput(XacroCommand(a)))]) by {
      XacroTokenOrder(a);
      assert ResolveParam(CommandExpr(XacroTokens()), a) == Some(CommandOutput(XacroCommand(a)));
      ResolveOneParam("robot_description", CommandExpr(XacroTokens()), a);
    }
    assert PerformAll(t.arguments, a) == Some([]);
  }

  /** `LaunchConfiguration('namespace')` performs to the bound namespace. */
  lemma NamespaceResolves(a: Args)
    requires "namespace" in a
    ensures PerformOpt(Some([Config("namespace")]), a) == Some(Some(a["namespace"]))
  {
    PerformPiece(Config("namespace"), a);
  }

  /** The joint_state_publisher resolves to its namespace argument. */
  lemma ResolveJointStatePublisher(a: Args)
    requires "namespace" in a
    ensures Resolve(JointStatePublisher(), a) == Some(JointStatePublisherNode(a["namespace"]))
  {
    NamespaceResolves(a);
  }

  /** The four actions after the declarations, against resolved arguments:
      the two publishers in order, then what the two composers return. */
  lemma ExpandTail(t1: NodeTemplate, t2: NodeTemplate, n1: Node, n2: Node, a: Args)
    requires Resolve(t1, a) == Some(n1) && Resolve(t2, a) == Some(n2)
    requires BridgeDefined(a) && CameraDefined(a)
    ensures Expand([Start(t1), Start(t2), Opaque(StartBridgeFn), Opaque(StartCameraFn)], a)
      == Some(Outcome([n1, n2] + StartBridge(a) + StartCamera(a), a))
  {
    var tail := [Start(t1), Start(t2), Opaque(StartBridgeFn), Opaque(StartCameraFn)];
    assert Expand(tail[3..], a) == Some(Outcome(StartCamera(a), a)) by {
      assert StartCamera(a) + [] == StartCamera(a);
    }
    assert Expand(tail[2..], a) == Some(Outcome(StartBridge(a) + StartCamera(a), a));
    assert Expand(tail[1..], a) == Some(Outcome([n2] + (StartBridge(a) + StartCamera(a)), a));
    assert [n1] + ([n2] + (StartBridge(a) + StartCamera(a))) == [n1, n2] + StartBridge(a) + StartCamera(a);
  }

  /** The four entities after the declarations, against arguments binding
      the six names: the two publishers in the resolved namespace, then what
      the composers return. */
  lemma DescriptionTailExpand(a: Args)
    requires DescriptionNames <= a.Keys
    ensures Expand(DescriptionTail(), a) ==
      Some(Outcome([RobotStatePublisherNode(a["namespace"], XacroCommand(a)),
                    JointStatePublisherNode(a["namespace"])]
                   + StartBridge(a) + StartCamera(a), a))
  {
    ResolveRobotStatePublisher(a);
    ResolveJointStatePublisher(a);
    ExpandTail(RobotStatePublisher(), JointStatePublisher(),
               RobotStatePublisherNode(a["namespace"], XacroCommand(a)),
               JointStatePublisherNode(a["namespace"]), a);
  }

  /** Expanding the description plan over whatever was bound before starts,
      in order, the robot_state_publisher, the joint_state_publisher (both in
      the resolved namespace), then what start_bridge and start_camera return
      for the resolved arguments. It never fails, and leaves the resolved
      arguments in force. */
  lemma DescriptionExpansion(given: Args)
    ensures var a := DescriptionArgsAfter(given);
      Expand(DescriptionPlan(), given) ==
        Some(Outcome([RobotStatePublisherNode(a["namespace"], XacroCommand(a)),
                      JointStatePublisherNode(a["namespace"])]
                     + StartBridge(a) + StartCamera(a), a))
  {
    var a := DescriptionArgsAfter(given);
    DescriptionArgumentsExpand(given);
    ExpandAfterPrefix(DescriptionArguments(), DescriptionTail(), given, a);
    DescriptionTailExpand(a);
  }

  /** The two TF-side nodes come first, share the namespace argument, and
      both remap /tf then /tf_static into it; only robot_state_publisher
      carries the robot description. */
  lemma TfNodesShareNamespace(given: Args)
    ensures Expand(DescriptionPlan(), given).Some?
    ensures var n := Expand(DescriptionPlan(), given).value.nodes;
      && |n| >= 2
      && n[0].package == "robot_state_publisher" && n[1].package == "joint_state_publisher"
      && n[0].namespace == n[1].namespace == Some(ValueOr(given, "namespace", ""))
      && n[0].remappings == n[1].remappings == [("/tf", "tf"), ("/tf_static", "tf_static")]
      && |n[0].parameters| == 1 && n[0].parameters[0].0 == "robot_description"
      && n[1].parameters == []
  {
    DescriptionExpansion(given);
    DescriptionArgumentsResolve(given);
  }

  /** Node count of the description plan: the two TF-side publishers always,
      one bridge when gazebo resolves to "true", two more image bridges
      when camera does too. */
  lemma DescriptionNodeCount(given: Args)
    ensures Expand(DescriptionPlan(), given).Some?
    ensures var g := ValueOr(given, "gazebo", "false") == "true";
            var c := ValueOr(given, "camera", "false") == "true";
      |Expand(DescriptionPlan(), given).value.nodes| == 2 + (if g then 1 else 0) + (if g && c then 2 else 0)
  {
    DescriptionExpansion(given);
    DescriptionArgumentsResolve(given);
  }

  /** The xacro command the defaults give, token by token. */
  const DefaultXacroCommand: string :=
    "xacro " + DescriptionFileDefault + " lidar:=" + "false" + " camera:=" + "false"
      + " structure:=" + "true" + " gazebo:=" + "false"

  /** With no overrides exactly two nodes start, in the empty namespace, and
      the robot description comes from the all-defaults xacro command. */
  lemma DescriptionDefaults()
    ensures Expand(DescriptionPlan(), map[]) ==
      Some(Outcome([RobotStatePublisherNode("", DefaultXacroCommand), JointStatePublisherNode("")],
                   DescriptionArgsAfter(map[])))
  {
    DescriptionExpansion(map[]);
    DescriptionArgumentsResolve(map[]);
    var a := DescriptionArgsAfter(map[]);
    assert XacroCommand(a) == DefaultXacroCommand;
    assert [RobotStatePublisherNode("", DefaultXacroCommand), JointStatePublisherNode("")] + [] + []
        == [RobotStatePublisherNode("", DefaultXacroCommand), JointStatePublisherNode("")];
  }

  /** `gazebo:=true` alone adds the parameter bridge as a third node. */
  lemma DescriptionWithGazebo()
    ensures var o := Expand(DescriptionPlan(), map["gazebo" := "true"]);
      && o.Some? && |o.value.nodes| == 3
      && o.value.nodes[2] == BridgeNode()
      && o.value.nodes[0].parameters ==
           [("robot_description", CommandOutput("xacro " + DescriptionFileDefault + " lidar:=" + "false"
              + " camera:=" + "false" + " structure:=" + "true" + " gazebo:=" + "true"))]
  {
    var given := map["gazebo" := "true"];
    DescriptionExpansion(given);
    DescriptionArgumentsResolve(given);
    var a := DescriptionArgsAfter(given);
  }

  /** `gazebo:=true camera:=true` starts five nodes: the two publishers, the
      parameter bridge, then the colour and depth image bridges. */
  lemma DescriptionWithGazeboAndCamera()
    ensures var o := Expand(DescriptionPlan(), map["gazebo" := "true", "camera" := "true"]);
      && o.Some? && |o.value.nodes| == 5
      && o.value.nodes[0].package == "robot_state_publisher"
      && o.value.nodes[1].package == "joint_state_publisher"
      && o.value.nodes[2] == BridgeNode()
      && o.value.nodes[3] == ImageBridge("bridge_gz_ros_camera_image", "/rgbd_camera/image")
      && o.value.nodes[4] == ImageBridge("bridge_gz_ros_camera_depth", "/rgbd_camera/depth_image")
  {
    var given := map["gazebo" := "true", "camera" := "true"];
    DescriptionExpansion(given);
    DescriptionArgumentsResolve(given);
  }
}

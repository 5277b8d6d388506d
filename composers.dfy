/**
 The two `OpaqueFunction` bodies of kobuki_description.launch.py: `start_bridge`
 and `start_camera`. Each reads launch arguments from the context and returns
 the nodes to start; the flags enable a node only when they are exactly "true".
 */
module Composers {
  import opened Wrappers
  import opened Launch

  /** The result of `get_package_share_directory('kobuki_description')`; it
      depends on the install layout, so the model keeps it as a fixed string. */
  const KobukiShare: string := "share/kobuki_description"

  /** `os.path.join(kobuki_pkg, 'config/bridge', 'kobuki_bridge.yaml')`. */
  const BridgeConfigFile: string := KobukiShare + "/config/bridge/kobuki_bridge.yaml"

  /** The ros_gz parameter bridge that `start_bridge` returns. */
  function BridgeNode(): Node
  {
    Node("ros_gz_bridge", "parameter_bridge", Some("bridge_ros_gz"), None,
         [("config_file", StrParam(BridgeConfigFile)), ("use_sim_time", BoolParam(true))],
         [], [])
  }

  /** One `image_bridge` node bound to a single simulation-side topic. */
  function ImageBridge(name: string, topic: string): Node
  {
    Node("ros_gz_image", "image_bridge", Some(name), None,
         [("use_sim_time", BoolParam(true))], [], [topic])
  }

  /** The lookups `start_bridge` performs succeed. */
  predicate BridgeDefined(args: Args)
  {
    "gazebo" in args
  }

  /** The lookups `start_camera` performs succeed: `camera` always, `gazebo`
      only when `camera` is "true", since Python's `and` short-circuits. */
  predicate CameraDefined(args: Args)
  {
    "camera" in args && (args["camera"] == "true" ==> "gazebo" in args)
  }

  /** `start_bridge`: the parameter bridge when gazebo is exactly "true",
      nothing otherwise. */
  function StartBridge(args: Args): (r: seq<Node>)
    requires BridgeDefined(args)
    ensures |r| == 1 <==> args["gazebo"] == "true"
    ensures args["gazebo"] != "true" ==> r == []
    ensures |r| == 1 ==> && r[0].package == "ros_gz_bridge"
                         && r[0].executable == "parameter_bridge"
                         && r[0].name == Some("bridge_ros_gz")
                         && r[0].parameters == [("config_file", StrParam(BridgeConfigFile)),
                                                ("use_sim_time", BoolParam(true))]
                         && r[0].namespace == None
                         && r[0].remappings == [] && r[0].arguments == []
  {
    if args["gazebo"] == "true" then [BridgeNode()] else []
  }

  /** `start_camera`: two image bridges, colour image first, when both camera
      and gazebo are exactly "true", nothing otherwise. */
  function StartCamera(args: Args): (r: seq<Node>)
    requires CameraDefined(args)
    ensures |r| == 2 <==> args["camera"] == "true" && args["gazebo"] == "true"
    ensures r == [] <==> !(args["camera"] == "true" && args["gazebo"] == "true")
    ensures |r| == 2 ==> && r[0].arguments == ["/rgbd_camera/image"]
                         && r[1].arguments == ["/rgbd_camera/depth_image"]
                         && r[0].name == Some("bridge_gz_ros_camera_image")
                         && r[1].name == Some("bridge_gz_ros_camera_depth")
    ensures forall i :: 0 <= i < |r| ==> && r[i].package == "ros_gz_image"
                                         && r[i].executable == "image_bridge"
                                         && r[i].namespace == None
                                         && r[i].parameters == [("use_sim_time", BoolParam(true))]
                                         && r[i].remappings == []
  {
    if args["camera"] == "true" && args["gazebo"] == "true" then
      [ImageBridge("bridge_gz_ros_camera_image", "/rgbd_camera/image"),
       ImageBridge("bridge_gz_ros_camera_depth", "/rgbd_camera/depth_image")]
    else []
  }

  /** The function an `OpaqueFunction` action carries. */
  datatype Composer = StartBridgeFn | StartCameraFn

  predicate CanEvaluate(c: Composer, args: Args)
  {
    match c
    case StartBridgeFn => BridgeDefined(args)
    case StartCameraFn => CameraDefined(args)
  }

  /** Calls the composer against the launch arguments in force. */
  function Evaluate(c: Composer, args: Args): (r: seq<Node>)
    requires CanEvaluate(c, args)
    ensures |r| <= 2 && (c.StartBridgeFn? ==> |r| <= 1)
    ensures !("gazebo" in args && args["gazebo"] == "true") ==> r == []
    ensures forall i :: 0 <= i < |r| ==> r[i].namespace == None && r[i].remappings == []
  {
    match c
    case StartBridgeFn => StartBridge(args)
    case StartCameraFn => StartCamera(args)
  }

  /** Unless gazebo is exactly "true", neither composer starts anything,
      whatever camera says. */
  lemma NoSimulationNoBridges(args: Args)
    requires "gazebo" in args && "camera" in args
    requires args["gazebo"] != "true"
    ensures StartBridge(args) == [] && StartCamera(args) == []
  {
  }

  /** Flags compare by exact string equality: spellings such as "True", "1"
      or "yes" enable nothing. */
  lemma OnlyExactTrueEnables(args: Args)
    requires "gazebo" in args && "camera" in args
    requires args["gazebo"] in {"True", "TRUE", "1", "yes", "on", ""}
    ensures StartBridge(args) == [] && StartCamera(args) == []
  {
  }

  /** Both composers read nothing but the two flags: argument maps that agree
      on gazebo and camera give element-wise identical node lists. */
  lemma ComposersReadOnlyFlags(a: Args, b: Args)
    requires "gazebo" in a && "camera" in a && "gazebo" in b && "camera" in b
    requires a["gazebo"] == b["gazebo"] && a["camera"] == b["camera"]
    ensures StartBridge(a) == StartBridge(b) && StartCamera(a) == StartCamera(b)
  {
  }
}

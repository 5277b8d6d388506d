# Kobuki description and spawn launch plans

This project models the launch-plan logic of the two ROS 2 launch files in the
`kobuki_description` package.

- `kobuki_description.launch.py` declares six launch arguments: `lidar`, `camera`, `structure`, `gazebo`, `description_file` and `namespace`. It then starts:
  - `robot_state_publisher`, whose `robot_description` parameter is the output of a `xacro` command built from those arguments;
  - `joint_state_publisher`;
  - two `OpaqueFunction`s. `start_bridge` adds the ros_gz parameter bridge when `gazebo` is exactly `"true"`. `start_camera` adds two image bridges when `camera` and `gazebo` are both exactly `"true"`.
- `spawn.launch.py` declares the spawn pose (`x y z R P Y`), `model_name` and `gazebo`. It then includes the description plan, and starts:
  - `ros_gz_sim create` with a flag/value command line;
  - an unconditional parameter bridge.

The model keeps the launch runtime's semantics that these files depend on:

- **Arguments.** They are one map from names to strings (`Launch.Args`). A `DeclareLaunchArgument` binds its default only when nothing bound the name before: neither the caller nor an earlier declaration (`Plans.Declared`).
- **Substitutions.** A node as written (`Launch.NodeTemplate`) still holds `LaunchConfiguration` and `Command` substitutions. They are resolved against the arguments in force where the node stands (`Launch.Resolve`). A lookup of an unbound name makes resolution fail (`None`).
- **Expansion.** `Plans.Expand` walks a plan in order:
  - declarations update the map;
  - `Node` actions are resolved;
  - `OpaqueFunction`s (`Composers.Composer`) are evaluated against the current map;
  - an `IncludeLaunchDescription` is expanded inline over the same map, so the child sees everything the parent declared.
- **Building the plan.** `generate_launch_description` is a method. It appends to a `LaunchDescription` object (`Plans.LaunchDescription.AddAction`), and is proved to build exactly the plan value `DescriptionPlan()` / `SpawnPlan()`.

Main results:
- Over any caller-supplied arguments, both plans expand without failure to an exact node list (`DescriptionExpansion`, `SpawnExpansion`).
- Node counts follow. The description plan starts 2 nodes, plus 1 with `gazebo:=true`, plus 2 more with `camera:=true` as well (`DescriptionNodeCount`). The spawn plan starts 4, plus 1 unless the caller sets `gazebo` to something other than `"true"` (its default), plus 2 more if `camera` is `"true"` as well (`SpawnNodeCount`).
- The spawn plan's `gazebo` default (`"true"`) reaches the included description plan. With no overrides, the spawn plan therefore starts `start_bridge`'s bridge and also its own unconditional bridge. These two `bridge_ros_gz` nodes are identical (`SpawnDefaults`).

The `create` argument list at `spawn.launch.py:50-61` has sixteen entries: eight flags, each followed by its value.

## Model

| member | source | states |
|---|---|---|
| Launch.Perform | kobuki_description/launch/kobuki_description.launch.py:113-119 | Performing a substitution list succeeds exactly when every `LaunchConfiguration` in it names a bound argument. |
| Launch.PerformConcat | kobuki_description/launch/kobuki_description.launch.py:113-119 | A concatenation of bound lists performs to the concatenation of the two strings, in order. |
| Launch.PerformPair | kobuki_description/launch/kobuki_description.launch.py:113-119 | A literal followed by a bound `LaunchConfiguration` performs to the literal followed by the argument's value. |
| Launch.PerformAppendPair | kobuki_description/launch/kobuki_description.launch.py:113-119 | Appending such a pair to a bound list appends the literal and the value to what the list performs to. |
| Launch.PerformAllEach | kobuki_description/launch/spawn.launch.py:50-61 | An argument list performs exactly when each entry is bound. The i-th resulting word is what the i-th entry performs to. |
| Launch.PerformAllConcat | kobuki_description/launch/spawn.launch.py:50-61 | Performing two performable argument lists one after the other concatenates their words. |
| Launch.PerformAll | kobuki_description/launch/spawn.launch.py:50-61 | A performed argument list has one word per entry. |
| Launch.ResolveParam | kobuki_description/launch/kobuki_description.launch.py:111-120 | A boolean parameter always resolves to itself. A string or command parameter resolves exactly when its substitutions are bound, to their performed text. |
| Launch.ResolveParams | kobuki_description/launch/kobuki_description.launch.py:111-120 | A parameter list resolves exactly when every value does. Keys and order are kept, and each value is the resolved one. |
| Launch.PerformOpt | kobuki_description/launch/kobuki_description.launch.py:110 | An absent namespace stays absent. A present one resolves exactly when it is bound, and then to its performed text. |
| Launch.Resolve | kobuki_description/launch/kobuki_description.launch.py:107-131 | A node resolves exactly when its namespace, parameters and arguments do. Package, executable, name and remappings pass through unchanged. The namespace, parameters and arguments are the resolved ones, so the counts are kept. |
| Composers.StartBridge | kobuki_description/launch/kobuki_description.launch.py:26-47 | Exactly one node when `gazebo` is `"true"`, otherwise none. That node is `ros_gz_bridge`/`parameter_bridge` named `bridge_ros_gz`, with parameters `config_file` then `use_sim_time = true`, no namespace, no remappings and no arguments. |
| Composers.StartCamera | kobuki_description/launch/kobuki_description.launch.py:49-73 | Two nodes exactly when `camera` and `gazebo` are both `"true"`, otherwise none. Both are `ros_gz_image`/`image_bridge` with `use_sim_time = true`, no namespace and no remappings: first `bridge_gz_ros_camera_image` on `/rgbd_camera/image`, then `bridge_gz_ros_camera_depth` on `/rgbd_camera/depth_image`. |
| Composers.Evaluate | kobuki_description/launch/kobuki_description.launch.py:142-143 | Evaluating an `OpaqueFunction` gives at most two nodes, at most one for `start_bridge`, none unless `gazebo` is bound to `"true"`, and none of them with a namespace or remappings. |
| Composers.NoSimulationNoBridges | kobuki_description/launch/kobuki_description.launch.py:26-73 | Unless `gazebo` is `"true"`, both composers return nothing, whatever `camera` is. |
| Composers.OnlyExactTrueEnables | kobuki_description/launch/kobuki_description.launch.py:27-50 | `"True"`, `"TRUE"`, `"1"`, `"yes"`, `"on"` and `""` for `gazebo` enable nothing. |
| Composers.ComposersReadOnlyFlags | kobuki_description/launch/kobuki_description.launch.py:26-73 | Argument maps that agree on `gazebo` and `camera` give identical node lists. |
| Plans.Declared | kobuki_description/launch/kobuki_description.launch.py:79-105 | One `DeclareLaunchArgument`: no contract of its own; `Plans.DeclaredLookup` states what it binds. |
| Plans.Expand | kobuki_description/launch/kobuki_description.launch.py:133-145 | The launch runtime's walk over a plan: no contract of its own; `Plans.ExpandConcat`, `Plans.ExpandKeepsBindings`, `Plans.ExpandAfterPrefix` and `Plans.DeclarationsResolve` state how it behaves. |
| Plans.DeclaredLookup | kobuki_description/launch/kobuki_description.launch.py:79-105 | After one declaration, the declared name reads as the caller bound it, or else as its default. Every other name reads as before, and no other name becomes bound. |
| Plans.ExpandKeepsBindings | kobuki_description/launch/spawn.launch.py:31-44 | Expansion never overwrites a bound argument. Its final map binds exactly the names bound before plus those the plan declares, includes included. |
| Plans.DeclarationsResolve | kobuki_description/launch/kobuki_description.launch.py:79-105 | A run of declarations starts no node. Afterwards a name is bound exactly when it was bound before or is declared. A name bound before keeps its value; any other takes the default of its first declaration. |
| Plans.ExpandConcat | kobuki_description/launch/kobuki_description.launch.py:133-143 | Expanding `p + q` expands `p` and then `q` from the map `p` left, concatenating the node lists. Either failure fails the whole. |
| Plans.ExpandAfterPrefix | kobuki_description/launch/spawn.launch.py:80-88 | After a prefix that starts nothing, the rest expands from the map the prefix left. |
| Plans.LaunchDescription.constructor | kobuki_description/launch/kobuki_description.launch.py:133 | A new launch description holds no actions. |
| Plans.LaunchDescription.AddAction | kobuki_description/launch/kobuki_description.launch.py:134-143 | `add_action` appends one action at the end and changes nothing else. |
| DescriptionLaunch.DescriptionArguments | kobuki_description/launch/kobuki_description.launch.py:79-105 | The six declarations as written: no contract of its own; `DescriptionLaunch.DescriptionArgumentsResolve` states what they bind. |
| DescriptionLaunch.XacroTokens | kobuki_description/launch/kobuki_description.launch.py:113-118 | The `Command` token list as written: no contract of its own; `DescriptionLaunch.XacroTokenOrder` and `DescriptionLaunch.XacroNeedsItsArguments` state what it performs to. |
| DescriptionLaunch.RobotStatePublisher | kobuki_description/launch/kobuki_description.launch.py:107-122 | The `robot_state_publisher` node as written: no contract of its own; `DescriptionLaunch.ResolveRobotStatePublisher` states what it resolves to. |
| DescriptionLaunch.JointStatePublisher | kobuki_description/launch/kobuki_description.launch.py:125-131 | The `joint_state_publisher` node as written: no contract of its own; `DescriptionLaunch.ResolveJointStatePublisher` states what it resolves to. |
| DescriptionLaunch.DescriptionPlan | kobuki_description/launch/kobuki_description.launch.py:133-143 | The launch description as returned: no contract of its own; `DescriptionLaunch.DescriptionPlanShape` and `DescriptionLaunch.DescriptionExpansion` state its shape and its expansion. |
| DescriptionLaunch.XacroTokenOrder | kobuki_description/launch/kobuki_description.launch.py:113-119 | When its five arguments are bound, the `Command` token list performs to `"xacro " + description_file + " lidar:=" + lidar + " camera:=" + camera + " structure:=" + structure + " gazebo:=" + gazebo`, in that order. |
| DescriptionLaunch.XacroNeedsItsArguments | kobuki_description/launch/kobuki_description.launch.py:113-119 | If any of the five arguments is unbound, the token list cannot be performed. |
| DescriptionLaunch.DescriptionPlanShape | kobuki_description/launch/kobuki_description.launch.py:133-143 | The plan has ten entries: six declarations, then `robot_state_publisher`, `joint_state_publisher`, the `start_bridge` function and the `start_camera` function. |
| DescriptionLaunch.GenerateLaunchDescription | kobuki_description/launch/kobuki_description.launch.py:133-145 | The method returns a fresh launch description holding exactly the description plan. |
| DescriptionLaunch.DescriptionArgsAfter | kobuki_description/launch/kobuki_description.launch.py:79-105 | All six description arguments are bound after their declarations. |
| DescriptionLaunch.DescriptionArgumentsExpand | kobuki_description/launch/kobuki_description.launch.py:134-139 | The six declarations start nothing. They leave the map obtained by applying them in source order. |
| DescriptionLaunch.DescriptionArgumentsResolve | kobuki_description/launch/kobuki_description.launch.py:79-105 | Each of `lidar`, `camera`, `structure`, `gazebo`, `description_file`, `namespace` keeps the value bound before, or else takes `false`, `false`, `true`, `false`, the package's `urdf/kobuki.urdf.xacro` or `""` respectively. |
| DescriptionLaunch.ResolveRobotStatePublisher | kobuki_description/launch/kobuki_description.launch.py:107-122 | `robot_state_publisher` resolves into the `namespace` argument. Its single parameter `robot_description` is the xacro command output, and it carries the TF remappings. |
| DescriptionLaunch.ResolveJointStatePublisher | kobuki_description/launch/kobuki_description.launch.py:125-131 | `joint_state_publisher`, named so, resolves into the `namespace` argument with no parameters and the TF remappings. |
| DescriptionLaunch.DescriptionTailExpand | kobuki_description/launch/kobuki_description.launch.py:140-143 | Over bound arguments, the last four entries start the two publishers, then what `start_bridge` returns, then what `start_camera` returns. |
| DescriptionLaunch.DescriptionExpansion | kobuki_description/launch/kobuki_description.launch.py:75-145 | For any caller arguments, the plan expands without failure to `robot_state_publisher`, `joint_state_publisher`, `start_bridge`'s nodes and `start_camera`'s nodes, over the resolved arguments. |
| DescriptionLaunch.TfNodesShareNamespace | kobuki_description/launch/kobuki_description.launch.py:107-131 | The first two nodes are the two publishers. Both are in the caller's namespace (default `""`) and remap `/tf` then `/tf_static`. Only the first carries `robot_description`. |
| DescriptionLaunch.DescriptionNodeCount | kobuki_description/launch/kobuki_description.launch.py:133-143 | The node count is 2, plus 1 if `gazebo` resolves to `"true"`, plus 2 if `camera` does too. |
| DescriptionLaunch.DescriptionDefaults | kobuki_description/launch/kobuki_description.launch.py:79-143 | With no arguments, exactly the two publishers start, in the empty namespace, with the all-defaults xacro command. |
| DescriptionLaunch.DescriptionWithGazebo | kobuki_description/launch/kobuki_description.launch.py:91-143 | `gazebo:=true` alone starts three nodes. The third is the parameter bridge, and the xacro command has `gazebo:=true`. |
| DescriptionLaunch.DescriptionWithGazeboAndCamera | kobuki_description/launch/kobuki_description.launch.py:49-143 | `gazebo:=true camera:=true` starts five nodes: the two publishers, the parameter bridge, the colour image bridge, then the depth image bridge. |
| SpawnLaunch.SpawnArguments | kobuki_description/launch/spawn.launch.py:31-38 | The eight declarations as written: no contract of its own; `SpawnLaunch.SpawnPoseResolve` and `SpawnLaunch.SpawnIdentityResolve` state what they bind. |
| SpawnLaunch.CreateTemplate | kobuki_description/launch/spawn.launch.py:46-62 | The `create` node as written: no contract of its own; `SpawnLaunch.ResolveCreate` states what it resolves to. |
| SpawnLaunch.SpawnBridgeTemplate | kobuki_description/launch/spawn.launch.py:64-77 | The spawn bridge as written: no contract of its own; `SpawnLaunch.SpawnBridgeIsTheDescriptionBridge` states what it resolves to. |
| SpawnLaunch.SpawnPlan | kobuki_description/launch/spawn.launch.py:79-90 | The launch description as returned: no contract of its own; `SpawnLaunch.SpawnPlanShape` and `SpawnLaunch.SpawnExpansion` state its shape and its expansion. |
| SpawnLaunch.SpawnPlanShape | kobuki_description/launch/spawn.launch.py:79-90 | The plan has eleven entries: eight declarations, the include of the description plan, `create`, then the bridge. |
| SpawnLaunch.GenerateLaunchDescription | kobuki_description/launch/spawn.launch.py:79-92 | The method returns a fresh launch description holding exactly the spawn plan. |
| SpawnLaunch.PoseArgsAfter | kobuki_description/launch/spawn.launch.py:31-36 | The six pose names are bound after their declarations. |
| SpawnLaunch.SpawnArgsAfter | kobuki_description/launch/spawn.launch.py:31-38 | All eight spawn names are bound after their declarations. |
| SpawnLaunch.SpawnArgumentsExpand | kobuki_description/launch/spawn.launch.py:80-87 | The eight declarations start nothing. They leave the map obtained by applying them in source order. |
| SpawnLaunch.PoseArgsResolve | kobuki_description/launch/spawn.launch.py:31-36 | Read with `"0.0"` as fallback, every name reads the same after the pose declarations as before. |
| SpawnLaunch.SpawnPoseResolve | kobuki_description/launch/spawn.launch.py:31-36 | Each of `x y z R P Y` is the caller's string, or else `"0.0"`, passed through unparsed. |
| SpawnLaunch.SpawnIdentityResolve | kobuki_description/launch/spawn.launch.py:37-38 | `model_name` is the caller's value or `"kobuki"`. `gazebo` is the caller's value or `"true"`. |
| SpawnLaunch.CreateArgumentsPair | kobuki_description/launch/spawn.launch.py:50-61 | The `create` command line has 16 words. Each of `-model -topic -x -y -z -R -P -Y`, in order, is directly followed by its value. |
| SpawnLaunch.ResolveCreate | kobuki_description/launch/spawn.launch.py:46-62 | When its arguments are bound, the `create` node resolves to `ros_gz_sim`/`create` with exactly that command line. |
| SpawnLaunch.SpawnBridgeIsTheDescriptionBridge | kobuki_description/launch/spawn.launch.py:64-77 | The spawn bridge resolves, whatever the arguments, to the very node `start_bridge` returns when `gazebo` is `"true"`. |
| SpawnLaunch.CreateTopicIsDescriptionKey | kobuki_description/launch/spawn.launch.py:53-54 | `create` reads topic `robot_description`. This is the key of `robot_state_publisher`'s parameter. |
| SpawnLaunch.SpawnArgsKeepOthers | kobuki_description/launch/spawn.launch.py:31-38 | A name the spawn plan does not declare stays bound exactly when the caller bound it, with the same value. |
| SpawnLaunch.SpawnPassesDescriptionArgs | kobuki_description/launch/spawn.launch.py:31-44 | The spawn declarations leave `camera`, `lidar`, `structure`, `namespace` and `description_file` as the caller bound them. |
| SpawnLaunch.IncludedDescriptionSees | kobuki_description/launch/spawn.launch.py:38-44 | The include forwards nothing. The description plan sees `gazebo` as the spawn plan resolved it (`"true"` by default), and its other arguments as the caller bound them or else with its own defaults. |
| SpawnLaunch.DescriptionKeepsSpawnArgs | kobuki_description/launch/spawn.launch.py:40-62 | The included declarations leave the spawn values alone, so `create` reads the spawn plan's own pose and model. |
| SpawnLaunch.SpawnTailExpand | kobuki_description/launch/spawn.launch.py:88-90 | Over bound spawn arguments, the last three entries start the description plan's nodes, then `create`, then the bridge. |
| SpawnLaunch.SpawnExpansion | kobuki_description/launch/spawn.launch.py:27-92 | For any caller arguments, the spawn plan expands without failure to the included plan's nodes, then `create` with the spawn values, then the bridge. |
| SpawnLaunch.SpawnNodeCount | kobuki_description/launch/spawn.launch.py:79-90 | The node count is 4, plus 1 unless the caller sets `gazebo` to something other than `"true"`, plus 2 if `camera` is `"true"` as well. |
| SpawnLaunch.SpawnDefaultsResolve | kobuki_description/launch/spawn.launch.py:31-44 | With no overrides of either plan's arguments, `create` gets `-model kobuki -topic robot_description` and a zero pose. The xacro command has `gazebo:=true` and the other description defaults. |
| SpawnLaunch.SpawnDefaults | kobuki_description/launch/spawn.launch.py:27-92 | With no overrides, five nodes start: the two publishers (empty namespace, `gazebo:=true`), the parameter bridge, `create` with the default command line, and a second, identical parameter bridge. |

## Left out

- The package share directory (`get_package_share_directory`) is the fixed string `share/kobuki_description`, because the real value depends on the install layout. `os.path.join` is a `/`-join of the parts.
- Running `xacro`: a `Command` parameter is kept as the command string it would run (`CommandOutput`), because the process and its output are external. The `ParameterValue(..., value_type=str)` wrapper is therefore not modelled separately.
- Process spawning, `output='screen'` and supervision of nodes by the launch runtime: these are I/O and concurrency.
- The `description` text of each `DeclareLaunchArgument`: it is help text with no effect on resolution or on the nodes started.
- `PythonLaunchDescriptionSource` file loading: the include refers to the description plan value directly.
- `OpaqueFunction` and launch-context internals: an opaque function is a tag (`Composer`) evaluated against the current argument map.
- Errors the launch library raises, such as an unbound `LaunchConfiguration`: expansion yields `None` with no error kind, and both plans are proved never to reach it. Duplicate or unknown argument errors are likewise raised by the library, not by these files.
- The contents of `kobuki_bridge.yaml`, and everything inside Gazebo and the bridges: they are external.
- The numeric meaning of the pose values: they are strings passed through unparsed.
- Namespace normalisation by `launch_ros`: it makes a node's namespace absolute, prefixes any namespace pushed by an enclosing scope, and runs `""` as `/`. The model keeps the raw performed string (`""` by default), because that rewriting is the library's, not these files'.

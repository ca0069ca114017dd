# SmartBin arm control core, modelled in Dafny

This project models SmartBin's garbage-sorting stack in Dafny:

- the driver contract for robot arms;
- the simulated driver `VirtualRobotArm`, with its composite `sort_garbage` and its statistics invariants;
- the `RobotArmController` facade;
- the uArm driver's bookkeeping;
- the pixel-to-arm coordinate gate;
- the frame debouncer and G-code trace of the uArm demo.

It also models the pure cores around them:

- box geometry and greedy non-maximum suppression;
- annotation augmentation and the recursive config merge;
- VOC-to-YOLO conversion, dataset splitting and dataset analysis;
- detection bookkeeping;
- sorting-task creation;
- the task scheduler's lifecycle;
- dotted-path configuration;
- the simulated sensors.

Every command is a pure function from one immutable state to the next. It returns the new state and the command's answer (`Step(arm, ok)` for the drivers). Exceptions become `Result` values (`Failure("ValueError")` and so on), and `Option` stands for Python's `None`.

Whatever the Python code takes from outside the model is a parameter:

- `random.random()` draws;
- device replies from the uArm SDK, where a raising call is given by the text `str(e)` of its exception;
- the homography matrix;
- detector output;
- the order `random.shuffle` produces;
- time stamps;
- task ids.

Dicts whose insertion order is visible become association lists. The configuration tree is `ConfigValue.Value`. Python's own semantics are written out in `PySemantics`:

- the slices `xs[-k:]`;
- `int()` on a float, truncating toward zero;
- `round(v, 2)` rounding half to even;
- `str.split()`, splitting on every character `str.isspace()` accepts, ASCII and Unicode;
- `int()` on a string, for an optional sign and ASCII digits;
- `str.lower` on ASCII;
- `x or default`.

The files follow the repository's modules:

| file | models |
|---|---|
| arm_interface.dfy | src/hardware/robot_arm_interface.py |
| arm_factory.dfy | `create_robot_arm` in the same file |
| virtual_arm.dfy | src/hardware/robot_arm_virtual.py |
| arm_controller.dfy | src/hardware/robot_arm.py |
| uarm_arm.dfy | src/hardware/robot_arm_uarm.py |
| coordinate_transform.dfy | src/hardware/coordinate_transform.py |
| sorting_demo.dfy | uarm_demo/uarm_demo.py (the `GarbageSortingSystem` loop and `ArmServo`) |
| math_utils.dfy | src/utils/math_utils.py |
| data_augmentor.dfy | src/data_processing/data_augmentor.py |
| preprocessor.dfy | src/data_processing/preprocessor.py |
| detector.dfy | src/models/detector.py |
| system_controller.dfy | src/system/controller.py |
| scheduler.dfy | src/system/scheduler.py |
| config_loader.dfy | src/utils/config_loader.py |
| sensors.dfy | src/hardware/sensors.py |
| config_value.dfy, counter.dfy, sequences.dfy, py_semantics.dfy, wrappers.dfy | shared helpers: ordered dicts, `Counter`-style tallies, list comprehensions, Python built-ins |

## Model

| member | source | states |
|---|---|---|
| ArmInterface.StatusValueInjective | src/hardware/robot_arm_interface.py:18-26 | the seven statuses carry seven distinct string values |
| ArmInterface.PositionToDict | src/hardware/robot_arm_interface.py:39-41 | the dict form of a position has exactly the keys x, y and z |
| ArmInterface.PositionFromDict | src/hardware/robot_arm_interface.py:43-46 | reading a dict succeeds exactly when x, y and z are all present (a KeyError otherwise) and takes each coordinate from its key |
| ArmInterface.PositionDictRoundTrip | src/hardware/robot_arm_interface.py:39-46 | `Position.from_dict(p.to_dict()) == p` |
| ArmInterface.PositionDictReadBack | src/hardware/robot_arm_interface.py:39-46 | a dict that reads as a position agrees with that position's dict form on every key of the dict form |
| ArmInterface.JointsToList | src/hardware/robot_arm_interface.py:59-61 | the list form always has six angles |
| ArmInterface.JointsFromList | src/hardware/robot_arm_interface.py:63-68 | `from_list` succeeds exactly on six-element lists (ValueError otherwise), and the result's list form is the input |
| ArmInterface.JointsListRoundTrip | src/hardware/robot_arm_interface.py:59-68 | `JointAngles.from_list(j.to_list()) == j` |
| ArmInterface.NewBase | src/hardware/robot_arm_interface.py:99-109 | a freshly constructed driver is not connected and has status DISCONNECTED |
| ArmInterface.SetSpeed | src/hardware/robot_arm_interface.py:338-351 | the inherited `set_speed` answers true exactly for speeds in [0, 100]; it stores nothing |
| ArmInterface.DefaultHook | src/hardware/robot_arm_interface.py:326-336 | the inherited `calibrate` (like the tool, safety and recording hooks) reports success |
| ArmFactory.CreateRobotArm | src/hardware/robot_arm_interface.py:459-495 | a driver is created exactly when the lower-cased tag is 'virtual', and it is a fresh, disconnected virtual arm; every other tag answers None, including 'ur' and 'kuka', whose driver modules are missing |
| ArmFactory.CreateRobotArmIgnoresCase | src/hardware/robot_arm_interface.py:471-490 | tags that lower-case to the same string create the same driver |
| ArmFactory.CreateRobotArmExamples | src/hardware/robot_arm_interface.py:470-495 | 'Virtual' and 'VIRTUAL' create a driver; 'ur', 'kuka' and 'abb' give None rather than raising |
| VirtualArm.BinIndex | src/hardware/robot_arm_virtual.py:89-101 | a garbage type is known exactly when one of the nine bins carries it as its key, and the index names that bin |
| VirtualArm.BinKeysDistinct | src/hardware/robot_arm_virtual.py:91-101 | the nine bin keys are pairwise distinct |
| VirtualArm.ZeroStatistics | src/hardware/robot_arm_virtual.py:71-79 | every counter and every per-bin count starts at zero, so the per-bin counts add up to the initial number of successful operations |
| VirtualArm.NewArm | src/hardware/robot_arm_virtual.py:48-85 | a new arm is disconnected, at (0, 0, 200) with zero joints, holds nothing, has an empty history and no errors, and already meets the statistics invariants |
| VirtualArm.Connect | src/hardware/robot_arm_virtual.py:105-121 | `connect` always succeeds: connected, IDLE, errors cleared; pose, holding flag, statistics and history unchanged; the invariants are kept |
| VirtualArm.ConnectIdempotent | src/hardware/robot_arm_virtual.py:105-121 | connecting a second time leaves the state of the first connect |
| VirtualArm.Disconnect | src/hardware/robot_arm_virtual.py:123-140 | `disconnect` (which stops a moving arm first) yields not connected, DISCONNECTED and not moving, with pose, statistics, history and errors unchanged |
| VirtualArm.EmergencyStop | src/hardware/robot_arm_virtual.py:183-192 | `emergency_stop` succeeds even when disconnected and leaves the arm IDLE and not moving, with everything else unchanged |
| VirtualArm.ResetErrors | src/hardware/robot_arm_virtual.py:194-204 | `reset_errors` empties the errors and maps ERROR to IDLE, leaving every other status as it was |
| VirtualArm.Home | src/hardware/robot_arm_virtual.py:148-181 | disconnected: false and no change; connected, from any status: at (0, 0, 200) with zero joints, IDLE, not moving, movement count one higher, nothing else counted |
| VirtualArm.MoveToPosition | src/hardware/robot_arm_virtual.py:208-244 | rejected with no change only when disconnected or in ERROR; otherwise it succeeds exactly when the simulated movement at the given speed (50 when None) does not raise, and then the arm is at the target, IDLE, with one more movement and the same errors; when the movement raises, the arm stays put in ERROR, not moving, counts nothing and gains exactly one error message; joints, holding flag and history never change |
| VirtualArm.MoveSpeedOutcomes | src/hardware/robot_arm_virtual.py:525-536 | speed 0 always fails (ZeroDivisionError), even for a move to the current position; a negative speed fails exactly when the target differs from the current position (a negative sleep); a positive speed and the default speed never fail |
| VirtualArm.ForwardKinematics | src/hardware/robot_arm_virtual.py:544-550 | x = 100 + 400·j1/90, y = 300·j2/90, z = 200 + 150·j3/90 |
| VirtualArm.ForwardKinematicsOfZero | src/hardware/robot_arm_virtual.py:544-550 | zero joints map to (100, 0, 200), which is not the home position that `home` pairs with zero joints |
| VirtualArm.MoveToJoints | src/hardware/robot_arm_virtual.py:246-282 | rejected with no change only when disconnected (there is no status check); otherwise the joints are the target, the position is their forward kinematics, IDLE, movement count one higher |
| VirtualArm.GetCurrentPosition | src/hardware/robot_arm_virtual.py:284-288 | None exactly when disconnected, else the current position |
| VirtualArm.GetCurrentJoints | src/hardware/robot_arm_virtual.py:290-294 | None exactly when disconnected, else the current joints |
| VirtualArm.Grab | src/hardware/robot_arm_virtual.py:298-333 | disconnected or already holding: false and no change; otherwise status ends IDLE and the grab succeeds exactly when the draw is below 0.9, then holding, with the parameters' force (50 by default) and grab count one higher; a failed grab counts nothing |
| VirtualArm.Release | src/hardware/robot_arm_virtual.py:335-362 | disconnected or not holding: false and no change; otherwise not holding, IDLE, release count one higher |
| VirtualArm.SortSequence | src/hardware/robot_arm_virtual.py:423-440 | the five inner steps succeed exactly when the arm holds nothing and the grab draw is below 0.9; on success the arm is home, not holding, with one grab, one release and three movements more; the operation counters and history are never touched |
| VirtualArm.CarryToBin | src/hardware/robot_arm_virtual.py:431-440 | after a successful grab the move to the bin, release and home always succeed, adding one release and two movements |
| VirtualArm.Settle | src/hardware/robot_arm_virtual.py:478-481 | the `finally` clause maps every status except IDLE and ERROR to IDLE and changes nothing else |
| VirtualArm.RecordSuccessValid | src/hardware/robot_arm_virtual.py:443-454 | the bookkeeping of a successful sort (total, successful and the bin's count one higher, one 'success' entry) keeps the invariants: total = successful + failed, Σ per-bin = successful, len(history) = total, each bin's count = its entries in the history |
| VirtualArm.RecordSuccessCounts | src/hardware/robot_arm_virtual.py:443-454 | after that bookkeeping each bin's count still equals the number of history entries of its type |
| VirtualArm.SortGarbage | src/hardware/robot_arm_virtual.py:399-481 | rejected with no change when disconnected, for a type outside the nine bins, or when not IDLE; otherwise it succeeds exactly when the arm holds nothing and the grab draw is below 0.9; success leaves the arm home, not holding and IDLE; a failed inner step answers false with counters and history unchanged and status IDLE, not ERROR; the invariants are kept |
| VirtualArm.SortGarbageRecords | src/hardware/robot_arm_virtual.py:415-457 | a successful sort adds one to total, successful, grab and release counts and to the type's bin count, three movements, and appends one 'success' entry naming the type and its bin's position |
| VirtualArm.SortFromIdle | src/hardware/robot_arm_virtual.py:415-481 | past the three guards: success exactly when nothing is held and the draw is below 0.9, always ending IDLE and connected, with the success bookkeeping on success and none on failure |
| VirtualArm.GetOperationHistory | src/hardware/robot_arm_virtual.py:487-489 | for a positive limit, the last min(limit, n) entries; for any other limit, the whole history |
| VirtualArm.ResetStatistics | src/hardware/robot_arm_virtual.py:491-508 | the statistics become the freshly initialised ones (every counter and per-bin count zero) and the history empty, which meets the invariants; every other field of the arm is unchanged |
| VirtualArm.GetStatus | src/hardware/robot_arm_virtual.py:370-384 | the report's connection and holding flags are the arm's, its status is the status's string value, and its position dict and joint list read back as the arm's pose |
| VirtualArm.GetConfiguration | src/hardware/robot_arm_virtual.py:386-395 | the configuration equals the interface's defaults 800 / 5 / 6 / 100 / 50 / 0.1 |
| VirtualArm.GetGarbageBinsInfo | src/hardware/robot_arm_virtual.py:510-521 | one entry per bin in table order, with the bin's key, id, a position dict that reads back as the bin position, and the bin's sorted count |
| VirtualArm.MoveCircularOnVirtual | src/hardware/robot_arm_interface.py:307-324 | the inherited `move_circular` on the virtual driver succeeds exactly when both legs at the given speed succeed, ends at the target after two counted movements, and when the via move fails its outcome is the via move's, because the target move is never issued; at the default speed a failure leaves the arm untouched |
| VirtualArm.MoveLinearOnVirtual | src/hardware/robot_arm_interface.py:292-305 | the inherited `move_linear` is exactly the driver's `move_to_position` at the same speed |
| VirtualArm.DisconnectedRejects | src/hardware/robot_arm_virtual.py:148-153 | while disconnected, home, both moves, grab, release and sort answer false and change nothing, and both pose getters give None |
| VirtualArm.RunPreservesValid | src/hardware/robot_arm_virtual.py:71-79 | the statistics invariants hold after any sequence of commands from a state that meets them |
| VirtualArm.SessionValid | src/hardware/robot_arm_virtual.py:48-85 | the statistics invariants hold after any sequence of commands issued to a new arm |
| ArmController.Capabilities | src/hardware/robot_arm.py:190-196 | every modelled driver has `sort_garbage`; only the virtual one has the statistics, history, reset and bins operations |
| ArmController.CreateInstance | src/hardware/robot_arm.py:59-69 | 'virtual' in any letter case builds a fresh virtual driver, every other tag goes through `create_robot_arm`, which yields nothing for them |
| ArmController.NewController | src/hardware/robot_arm.py:38-55 | the tag is `config['arm_type']`, 'virtual' when absent; construction succeeds exactly when a driver can be created for it (RuntimeError otherwise), keeping tag and configuration |
| ArmController.CreateRobotArmController | src/hardware/robot_arm.py:312-325 | the argument overwrites `config['arm_type']` and becomes the tag; every other configuration key is kept; success exactly for 'virtual' in any case |
| ArmController.IsConnected | src/hardware/robot_arm.py:73-82 | false without an instance, otherwise the driver's own connection test |
| ArmController.Status | src/hardware/robot_arm.py:84-90 | 'disconnected' without an instance, otherwise the string value of the driver's status |
| ArmController.GetStatus | src/hardware/robot_arm.py:153-164 | without an instance: not connected, 'disconnected', a zero position, not holding and exactly one error message; with one: the driver's connection and status |
| ArmController.Forward | src/hardware/robot_arm.py:102-186 | every forwarded command answers false with no change when there is no instance; otherwise the answer and the new driver state are exactly the driver's own (the move passes no speed); tag and configuration never change, and the driver is never dropped |
| ArmController.SortGarbage | src/hardware/robot_arm.py:190-196 | false with no change when the driver has no `sort_garbage`; on the virtual driver exactly that driver's sort |
| ArmController.GrabObject | src/hardware/robot_arm.py:118-143 | false without an instance; with a non-empty target class and a driver that sorts, it raises IndexError exactly when a non-empty position has fewer than 2 items or a non-empty box fewer than 4, and is otherwise exactly `sort_garbage(target_class)` with no raw grab; with no or an empty target class, the raw grab with default parameters |
| ArmController.GetStatistics | src/hardware/robot_arm.py:198-208 | the driver's statistics exactly when it has `get_statistics`, otherwise the zeroed fallback record |
| ArmController.GetOperationHistory | src/hardware/robot_arm.py:210-215 | the driver's history slice when it has the operation, otherwise [] |
| ArmController.ResetStatistics | src/hardware/robot_arm.py:217-223 | false with no change when the driver lacks the operation; otherwise true, and the facade now holds exactly the driver after its own `reset_statistics` (empty history, invariants restored) with tag and configuration unchanged |
| ArmController.GetGarbageBinsInfo | src/hardware/robot_arm.py:225-230 | exactly the virtual driver's nine bin entries when it has the operation, otherwise empty |
| ArmController.SwitchArmType | src/hardware/robot_arm.py:238-277 | the `__dict__` guard before the old driver's `disconnect()` is false for every driver, so the old driver is never disconnected; tag and configuration (merged, with `arm_type` overwritten) change first; success exactly for 'virtual', and then the driver is a fresh, unconnected one; on failure the old driver stays |
| ArmController.FailedSwitchKeepsOldDriver | src/hardware/robot_arm.py:259-273 | a failed switch answers false and keeps the old driver, with the same connection state, while the tag already names the new type |
| ArmController.NoInstanceFallbacks | src/hardware/robot_arm.py:102-230 | without an instance every command answers false, the status reads 'disconnected' and the optional operations give their fallbacks |
| ArmController.UarmFallbacks | src/hardware/robot_arm.py:198-230 | on the uArm driver statistics, history, reset and bins info all fall back |
| ArmController.GetArmTypeInfo | src/hardware/robot_arm.py:334-364 | a case-sensitive lookup: 'virtual', 'ur' and 'kuka' have three features each, only 'ur' and 'kuka' require configuration, with fields host/port and host/port/krl_config; every other tag gets the unknown descriptor |
| ArmController.AbbListedButUnknown | src/hardware/robot_arm.py:330-364 | 'abb' is listed as supported, yet it gets the unknown descriptor and no driver can be created for it |
| UarmArm.NewUarm | src/hardware/robot_arm_uarm.py:45-75 | construction raises ImportError exactly when the uArm library is unavailable; otherwise the driver is not connected, DISCONNECTED, at the origin with zero joints, holds nothing, has no errors, and takes baudrate and speed factor from the configuration with defaults 115200 and 100 |
| UarmArm.BinTarget | src/hardware/robot_arm_uarm.py:78-88 | a garbage type has a target exactly when it is one of the nine keys of the driver's table, and the target is that key's position |
| UarmArm.SameGarbageTypesAsVirtual | src/hardware/robot_arm_uarm.py:78-88 | the uArm table and the simulated driver's bin table have the same nine garbage types |
| UarmArm.ReadPosition | src/hardware/robot_arm_uarm.py:356-370 | None when not connected; a reading of at least three values becomes the cached and returned position; a raising, empty or short reading returns the last cached position |
| UarmArm.ReadJoints | src/hardware/robot_arm_uarm.py:372-393 | None when not connected; three device angles become j1..j3 with j4 = j5 = j6 = 0; a failed or short reading returns the cached joints |
| UarmArm.ReadHolding | src/hardware/robot_arm_uarm.py:460-470 | false when not connected; otherwise the holding flag becomes "pump status is 2", or stays as it was when the read raises |
| UarmArm.Refresh | src/hardware/robot_arm_uarm.py:571-581 | the state refresh changes only the cached position, joints and holding flag |
| UarmArm.ChoosePort | src/hardware/robot_arm_uarm.py:92-132 | a configured non-empty port wins, otherwise the detected one is used |
| UarmArm.Connect | src/hardware/robot_arm_uarm.py:136-175 | success exactly when a port is found, no device call raises and the device answers its info query; success means connected, IDLE, errors cleared; no port: false and no change; a raising call drops the handle and appends exactly `连接失败: <exception text>`; a failed verification changes nothing visible |
| UarmArm.Disconnect | src/hardware/robot_arm_uarm.py:177-195 | without a device exception: no handle, not connected, DISCONNECTED; a raising detach answers false and changes nothing |
| UarmArm.EmergencyStop | src/hardware/robot_arm_uarm.py:242-262 | without a device exception: IDLE and not moving, nothing else changed; a raising call answers false and changes nothing |
| UarmArm.ResetErrors | src/hardware/robot_arm_uarm.py:264-274 | errors cleared, ERROR mapped to IDLE and every other status kept |
| UarmArm.Failed | src/hardware/robot_arm_uarm.py:308-313 | a device exception in a command leaves status ERROR, not moving and exactly one more error message |
| UarmArm.Home | src/hardware/robot_arm_uarm.py:203-240 | false and no change when not connected; otherwise success exactly when no device call raises, ending IDLE and not moving; a raising call gives ERROR with `归位失败: <exception text>` appended |
| UarmArm.ClampSpeed | src/hardware/robot_arm_uarm.py:290-291 | `min(max(speed, 1), 100)` lies in [1, 100], is the speed itself inside that range, and 1 or 100 outside it |
| UarmArm.SpeedCalls | src/hardware/robot_arm_uarm.py:290-291 | a speed factor is sent exactly when the speed is truthy (present and non-zero), and it is clamped into [1, 100] |
| UarmArm.MoveCalls | src/hardware/robot_arm_uarm.py:290-294 | the move ends with one `set_position` call to the target, after at most one clamped speed call |
| UarmArm.JointCalls | src/hardware/robot_arm_uarm.py:327-335 | the joint move ends with servo 0, 1 and 2 set to j1, j2 and j3; j4..j6 never reach the device |
| UarmArm.MoveToPosition | src/hardware/robot_arm_uarm.py:278-313 | false and no change when not connected; otherwise success exactly when no device call raises, then IDLE, not moving and refreshed; a raising call gives ERROR with `移动失败: <exception text>` appended |
| UarmArm.MoveToJoints | src/hardware/robot_arm_uarm.py:315-354 | the same bookkeeping as `move_to_position` for the joint move, the message being `关节移动失败: <exception text>` |
| UarmArm.Grab | src/hardware/robot_arm_uarm.py:397-430 | when connected, success (holding, IDLE) exactly when the pump reports status 2; any other status switches the pump off and answers false with status IDLE; a raising pump call (switching on, reading the status, or switching off after a miss) gives ERROR with `抓取失败: <exception text>` appended |
| UarmArm.Release | src/hardware/robot_arm_uarm.py:432-458 | when connected, success exactly when the pump call does not raise, then not holding and IDLE, whether or not anything was held; a raising pump call gives ERROR with `释放失败: <exception text>` appended |
| UarmArm.SortGarbage | src/hardware/robot_arm_uarm.py:513-553 | rejected with no change when not connected or for a type outside the table; otherwise it only moves to the bin and releases, with no pick, and succeeds exactly when both steps do; a raising move records `移动失败: <exception text>`, a raising release `释放失败: <exception text>` |
| UarmArm.GetConfiguration | src/hardware/robot_arm_uarm.py:500-509 | reach 350, payload 0.5, three degrees of freedom, speed 100, acceleration 50, precision 1 |
| UarmArm.NotConnectedRejects | src/hardware/robot_arm_uarm.py:197-207 | while not connected (even with the flag set but no handle), home, both moves, grab, release and sort answer false and change nothing |
| CoordinateTransform.Apply | src/hardware/coordinate_transform.py:63-68 | the image of (x, y) times the homogeneous coordinate gives the first two rows of H applied to (x, y, 1); a homogeneous coordinate within FLT_EPSILON of zero gives the origin |
| CoordinateTransform.ApplyScaleInvariant | src/hardware/coordinate_transform.py:63-68 | scaling H by a non-zero factor moves no point whose homogeneous coordinate stays on the same side of the FLT_EPSILON cut-off |
| CoordinateTransform.ScaleCrossesCutoff | src/hardware/coordinate_transform.py:63-68 | the cut-off breaks scale invariance: the identity scaled by 10^-8 sends (5, 7) to the origin, while the identity keeps it |
| CoordinateTransform.ApplyIdentity | src/hardware/coordinate_transform.py:63-68 | the identity homography maps every point to itself |
| CoordinateTransform.ConvertCoordinate | src/hardware/coordinate_transform.py:52-68 | converting succeeds exactly when H is known, and then gives the projective image of the point |
| CoordinateTransform.NewTransformer | src/hardware/coordinate_transform.py:21-50 | construction succeeds exactly when the solver returns a matrix; the default corner lists stand in for missing ones, and the centre is the image of (320, 240) |
| CoordinateTransform.ConvertMultiplePoints | src/hardware/coordinate_transform.py:84-108 | an empty list converts to an empty list even without H; otherwise the result exists exactly when H does and agrees point by point, in order, with single conversions |
| CoordinateTransform.UpdateCalibration | src/hardware/coordinate_transform.py:110-139 | the new point lists are kept whatever happens; success exactly when the solver returns a matrix, after which the stored centre is the converted (320, 240); a raising solver keeps the old H and centre; a solver returning no matrix clears H and keeps the old centre |
| CoordinateTransform.GetTransformMatrix | src/hardware/coordinate_transform.py:141-148 | the stored matrix, and an error when there is none |
| CoordinateTransform.ValidateTransform | src/hardware/coordinate_transform.py:159-185 | validation succeeds exactly when the centre of the image can be converted |
| CoordinateTransform.IsPointInWorkspace | src/hardware/coordinate_transform.py:187-210 | true exactly when all four bounds are present and the point lies in their closed rectangle (x in [0, 300] and y in [-150, 150] by default); a dict with all four bounds never raises, and only a dict missing one can raise KeyError |
| CoordinateTransform.MissingBoundOnlySometimesRaises | src/hardware/coordinate_transform.py:209-210 | the chained comparisons stop at the first failure, so a dict holding only `x_min` answers False for a point left of it and raises KeyError for a point right of it |
| CoordinateTransform.GetSafeCoordinate | src/hardware/coordinate_transform.py:212-229 | a point is returned exactly when the converted point lies in the default workspace, and it is the converted point; no H is an error |
| CoordinateTransform.SafeCoordinateInBounds | src/hardware/coordinate_transform.py:212-229 | every safe coordinate satisfies 0 <= x <= 300 and -150 <= y <= 150 |
| SortingDemo.ProcessFrame | uarm_demo/uarm_demo.py:530-561 | only the first detection counts; a frame without detections resets the counter; a pick is requested exactly when a target within one unit of the last one brings the counter to 15, and it names that target and class, after which the counter is 0; the counter always stays below 15 |
| SortingDemo.PicksAreSpaced | uarm_demo/uarm_demo.py:543-561 | over any run of frames, fifteen times the number of picks plus the final counter is at most the number of frames plus the initial counter |
| SortingDemo.FreshRunPicksAtMost | uarm_demo/uarm_demo.py:565-586 | n frames from a fresh start request at most n / 15 picks |
| SortingDemo.RunFramesValid | uarm_demo/uarm_demo.py:543-561 | the counter stays below the threshold, and a positive counter always comes with a stored coordinate |
| SortingDemo.SteadyFramesClimb | uarm_demo/uarm_demo.py:544-548 | repeating the same detection frame adds one to the counter per frame without any pick while below the threshold |
| SortingDemo.FifteenSteadyFramesPickOnce | uarm_demo/uarm_demo.py:459-462 | from a fresh start, 14 identical frames request nothing and 15 request exactly one pick, at the frame's target, leaving the counter at 0 |
| SortingDemo.RunFramesAppend | uarm_demo/uarm_demo.py:565-586 | running two batches of frames one after the other is the same as running them together |
| SortingDemo.EmptyFrameResets | uarm_demo/uarm_demo.py:560-561 | a frame without detections makes the following run behave as if from counter 0 |
| SortingDemo.GetClassificationPosition | uarm_demo/uarm_demo.py:427-445 | ids 0-2 go to the first area, 3-5 to the second, and every id outside 0-5, negative ones included, to the shared hazardous/other area |
| SortingDemo.HazardousSharesOtherPlace | uarm_demo/uarm_demo.py:430-445 | ids 6 and 7 land where unknown ids land |
| SortingDemo.PickTrace | uarm_demo/uarm_demo.py:384-425 | nine commands: hover, descend to the gripping height -8, close, hover, travel to the drop area at hover height, open, hover, then the two-command initialisation |
| SortingDemo.PickTraceGrabsThenReleases | uarm_demo/uarm_demo.py:394-416 | the gripper closes only right after the descent onto the object and opens only above the drop area |
| SortingDemo.SendCommand | uarm_demo/uarm_demo.py:358-370 | a command is written, and true returned, exactly when a serial handle exists and the write does not raise |
| SortingDemo.SendAll | uarm_demo/uarm_demo.py:358-370 | nothing reaches the line without a handle, and everything does when no write raises |
| SortingDemo.SendAllSubsequence | uarm_demo/uarm_demo.py:358-370 | what reaches the line is always an order-preserving selection of what was sent |
| SortingDemo.PickObject | uarm_demo/uarm_demo.py:384-425 | true exactly when a serial handle exists, whatever the writes did; the written commands are a selection of the pick trace, and all of it when no write raises |
| SortingDemo.Before | uarm_demo/uarm_demo.py:283 | `split(sep)[0]` is the longest prefix without the separator |
| SortingDemo.After | uarm_demo/uarm_demo.py:283 | `split(sep)[-1]` is the longest suffix without the separator |
| SortingDemo.CheckPort | uarm_demo/uarm_demo.py:268-292 | on Windows the first listed port, or COM when none is listed; elsewhere the by-id directory followed by one path component when the listing can be read, and COM only when reading it raises |
| SortingDemo.EmptyListingStillNamesAPort | uarm_demo/uarm_demo.py:280-292 | an empty listing yields the bare directory path rather than COM |
| SortingDemo.ConnectToArm | uarm_demo/uarm_demo.py:294-343 | a serial handle exists exactly when the port name is present and non-empty and opening it does not raise |
| MathUtils.Iou | src/utils/math_utils.py:17-53 | zero when the boxes do not overlap (touching edges included); otherwise the IoU times the union is the intersection, unless the union vanishes |
| MathUtils.IouSymmetric | src/utils/math_utils.py:17-53 | the IoU does not depend on the order of the two boxes |
| MathUtils.IouBounds | src/utils/math_utils.py:17-53 | for well-formed boxes the IoU lies in [0, 1] and is positive exactly when they overlap |
| MathUtils.IouOfSelf | src/utils/math_utils.py:17-53 | a box of positive area has IoU 1 with itself |
| MathUtils.BoxArea | src/utils/math_utils.py:166-177 | never negative, zero for a box with no positive extent, and width times height for a well-formed box |
| MathUtils.BoxCenter | src/utils/math_utils.py:152-163 | the centre is equidistant from both edges in each direction |
| MathUtils.XywhToXyxy | src/utils/math_utils.py:180-195 | the corner box has the given width and height |
| MathUtils.XyxyToXywh | src/utils/math_utils.py:198-213 | the centre box records the corner box's width and height |
| MathUtils.CenterCornerRoundTrip | src/utils/math_utils.py:180-213 | converting a centre box to corners and back gives it back |
| MathUtils.CornerCenterRoundTrip | src/utils/math_utils.py:180-213 | converting a corner box to centre form and back gives it back |
| MathUtils.CenterBoxGeometry | src/utils/math_utils.py:152-195 | a converted centre box has the centre it was built from and area width times height |
| MathUtils.NormalizeBox | src/utils/math_utils.py:216-235 | defined exactly when both image sides are non-zero, and then each coordinate times its side gives the pixel coordinate back |
| MathUtils.DenormalizeBox | src/utils/math_utils.py:238-257 | each pixel coordinate divided by its side gives the normalised coordinate |
| MathUtils.NormalizeRoundTrip | src/utils/math_utils.py:216-257 | denormalising a normalised box gives the original box |
| MathUtils.SmoothCoordinates | src/utils/math_utils.py:260-284 | the origin for an empty history and the single point for a one-point history |
| MathUtils.EmaWithin | src/utils/math_utils.py:278-282 | with alpha in [0, 1] the average never leaves an interval holding the start and every later value |
| MathUtils.SmoothWithinHistory | src/utils/math_utils.py:260-284 | with alpha in [0, 1] the smoothed point lies in any rectangle that holds the whole history |
| MathUtils.SmoothExtremes | src/utils/math_utils.py:260-284 | alpha = 0 gives the newest point and alpha = 1 the oldest |
| MathUtils.SumGapsTelescopes | src/utils/math_utils.py:300-303 | the frame gaps add up to the span from the first to the last timestamp |
| MathUtils.CalculateFps | src/utils/math_utils.py:287-308 | zero for fewer than two timestamps or a zero span; otherwise the rate times the span is the number of gaps |
| MathUtils.Candidates | src/utils/math_utils.py:75-76 | exactly the indices whose score reaches the threshold, ascending and without repeats |
| MathUtils.InsertSorted | src/utils/math_utils.py:81-82 | inserting an index into a list in descending-score order keeps it in that order |
| MathUtils.SortByScore | src/utils/math_utils.py:81-82 | the sort is a permutation of its input into descending-score order, ties in index order as Python's stable sort leaves them |
| MathUtils.SortedAheadMeaning | src/utils/math_utils.py:81-82 | a list in that order has no repeats and non-increasing scores |
| MathUtils.Greedy | src/utils/math_utils.py:84-94 | the greedy loop keeps the first element and only elements of its input |
| MathUtils.GreedySpares | src/utils/math_utils.py:84-94 | every kept element spares every element kept after it |
| MathUtils.GreedyKeepsOrder | src/utils/math_utils.py:84-94 | the kept elements stay in any order their input had |
| MathUtils.GreedySuppresses | src/utils/math_utils.py:84-94 | every dropped element was refused by some kept one |
| MathUtils.Suppress | src/utils/math_utils.py:81-94 | the kept indices are distinct candidates in non-increasing score order, and at least one is kept when any candidate exists |
| MathUtils.NonMaxSuppression | src/utils/math_utils.py:56-94 | an empty box or score list gives an empty result; a result holds distinct indices whose scores reach the threshold, in non-increasing score order |
| MathUtils.NonMaxSuppressionFails | src/utils/math_utils.py:72-92 | the call raises an index error exactly when boxes are given, two or more candidates pass the threshold, and one of them has no box |
| MathUtils.GreedyKeepsApart | src/utils/math_utils.py:84-94 | the boxes the greedy loop keeps pairwise have IoU at most the threshold |
| MathUtils.GreedyDropsOverlapping | src/utils/math_utils.py:84-94 | a box is dropped only when some kept box overlaps it beyond the threshold |
| MathUtils.SuppressionResult | src/utils/math_utils.py:76-94 | a successful suppression is the greedy loop run over the candidates in descending-score order |
| MathUtils.NonMaxSuppressionKeepsApart | src/utils/math_utils.py:56-94 | any two kept boxes have IoU at most the threshold |
| MathUtils.NonMaxSuppressionDropsOverlapping | src/utils/math_utils.py:56-94 | a candidate that is not kept overlaps some kept box beyond the threshold |
| MathUtils.LoneCandidateKept | src/utils/math_utils.py:78-94 | a lone candidate is always kept |
| MathUtils.CandidatesHaveBoxes | src/utils/math_utils.py:85-92 | once two candidates exist and the call succeeds, every candidate has a box |
| DataAugmentor.Combine | src/data_processing/data_augmentor.py:113-117 | two dictionaries merge, keeping the keys of both; anything else is overwritten by the user's value |
| DataAugmentor.MergeConfig | src/data_processing/data_augmentor.py:111-117 | the merged keys are exactly the base's keys plus the user's |
| DataAugmentor.MergeLookup | src/data_processing/data_augmentor.py:111-117 | after the merge a key the user set reads back as the user's value combined with the base's, and every other key reads back as in the base |
| DataAugmentor.MergeUnique | src/data_processing/data_augmentor.py:111-117 | merging keeps the base's keys unique |
| DataAugmentor.MergeFreshKeys | src/data_processing/data_augmentor.py:111-117 | user keys the base lacks are appended in the user's order after the base's entries |
| DataAugmentor.InitConfig | src/data_processing/data_augmentor.py:35-109 | the configuration always has every default key, and is exactly the defaults when the user gives none |
| DataAugmentor.ValidOverlaps | src/data_processing/data_augmentor.py:336-338 | a box that passes the validity filter also passes the overlap test that translation and enlarging use |
| DataAugmentor.HorizontalFlip | src/data_processing/data_augmentor.py:382-399 | every centre is mirrored across x = 0.5, everything else and the count unchanged, and a box is valid after exactly when before |
| DataAugmentor.VerticalFlip | src/data_processing/data_augmentor.py:401-418 | the same across y = 0.5 |
| DataAugmentor.FlipsAreInvolutions | src/data_processing/data_augmentor.py:382-418 | each flip undoes itself |
| DataAugmentor.FlipsCommute | src/data_processing/data_augmentor.py:382-418 | the two flips commute |
| DataAugmentor.Translate | src/data_processing/data_augmentor.py:351-380 | the loop's result is the shifted boxes that still overlap the image, in order |
| DataAugmentor.TranslateMeaning | src/data_processing/data_augmentor.py:351-380 | at most as many boxes; each kept box is some input box shifted by (dx, dy) and overlaps the image; every shifted box that overlaps is kept; order is preserved |
| DataAugmentor.TranslateByZero | src/data_processing/data_augmentor.py:351-380 | a zero shift only drops boxes outside the image, so a list of valid boxes is unchanged |
| DataAugmentor.ScaleBox | src/data_processing/data_augmentor.py:306-334 | both branches scale the box about the image centre (0.5, 0.5) by the factor, keeping class id and name |
| DataAugmentor.EnlargeKept | src/data_processing/data_augmentor.py:328-345 | the enlarging loop keeps, in order, exactly the scaled boxes that still overlap the image |
| DataAugmentor.Scale | src/data_processing/data_augmentor.py:290-349 | shrinking keeps every box scaled; enlarging keeps the scaled boxes that still overlap, in order |
| DataAugmentor.ShrinkKeepsValid | src/data_processing/data_augmentor.py:299-319 | shrinking a valid box leaves it valid |
| DataAugmentor.ScaleInverse | src/data_processing/data_augmentor.py:306-334 | scaling by s and then by 1/s gives the box back |
| DataAugmentor.FilterValid | src/data_processing/data_augmentor.py:479-489 | keeps, in order, exactly the boxes whose centre and size lie strictly between 0 and 1 |
| DataAugmentor.FilterValidIdempotent | src/data_processing/data_augmentor.py:479-489 | filtering twice changes nothing, and an all-valid list passes unchanged |
| DataAugmentor.ShouldApply | src/data_processing/data_augmentor.py:224-227 | a missing section never applies; a section that is not a dictionary raises; applying needs a truthy `enabled` |
| DataAugmentor.ShouldApplyProbability | src/data_processing/data_augmentor.py:224-227 | an enabled section applies exactly when the draw is below its probability: always from 1 up, never from 0 down |
| DataAugmentor.DisabledNeverApplies | src/data_processing/data_augmentor.py:224-227 | a section whose `enabled` is falsy never applies, whatever the draw |
| DataAugmentor.DefaultNeverFlipsVertically | src/data_processing/data_augmentor.py:74-77 | with the built-in configuration the vertical flip never runs |
| DataAugmentor.DefaultVerticalFlip | src/data_processing/data_augmentor.py:74-77 | the built-in vertical-flip section is disabled with probability 0.2 |
| DataAugmentor.AugmentationFactor | src/data_processing/data_augmentor.py:135 | a missing factor raises, and the built-in 5 gives five iterations |
| DataAugmentor.Stage | src/data_processing/data_augmentor.py:143-173 | an earlier exception passes through, and a stage that does not apply leaves the annotations alone |
| DataAugmentor.ImageStages | src/data_processing/data_augmentor.py:175-215 | the pixel-only stages never change the annotations and only raise through `_should_apply`; with none of them configured they pass everything through |
| DataAugmentor.Iteration | src/data_processing/data_augmentor.py:135-217 | every annotation an iteration produces is valid |
| DataAugmentor.AugmentLoop | src/data_processing/data_augmentor.py:135-220 | at most one list per iteration, each non-empty and fully valid |
| DataAugmentor.Augment | src/data_processing/data_augmentor.py:119-222 | the original annotations come first, followed by at most `augmentation_factor` augmented lists, each non-empty and fully valid; a missing factor raises |
| DataAugmentor.LoopWithoutTransforms | src/data_processing/data_augmentor.py:135-220 | with no augmentation configured each iteration contributes the valid boxes once, or nothing when there are none |
| Preprocessor.ClassToId | src/data_processing/preprocessor.py:48-49 | a name has an id exactly when it is configured; the id indexes that name, and a repeated name maps to its last position |
| Preprocessor.ClassToIdOfDistinct | src/data_processing/preprocessor.py:48-49 | with distinct class names every name maps back to its own index |
| Preprocessor.ToYoloRoundTrip | src/data_processing/preprocessor.py:103-110 | the pixel corners are recovered from the normalised centre and size, so the conversion loses nothing |
| Preprocessor.ToYoloValid | src/data_processing/preprocessor.py:103-110 | a box inside the image converts to a valid annotation exactly when it is narrower and lower than the image |
| Preprocessor.ParseObjects | src/data_processing/preprocessor.py:88-123 | raises exactly when the image has a zero side and some object has a configured class; each returned annotation's id indexes its class name |
| Preprocessor.ParseStep | src/data_processing/preprocessor.py:92-123 | an unknown object changes nothing; a known one puts its converted box in front and bumps `total_objects` and its `class_` counter |
| Preprocessor.ParseObjectsCounts | src/data_processing/preprocessor.py:121-123 | `total_objects` grows by the number of returned annotations, `class_<n>` by how many of them have class n, and no other counter moves |
| Preprocessor.ParseXmlAnnotation | src/data_processing/preprocessor.py:69-125 | raises exactly as the object loop does; otherwise it returns one annotation per object with a configured class |
| Preprocessor.ParseKeepsKnown | src/data_processing/preprocessor.py:92-95 | exactly the objects with a configured class are kept |
| Preprocessor.SplitAt | src/data_processing/preprocessor.py:286-288 | the three slices concatenate back to the list, with the requested sizes when they fit |
| Preprocessor.SplitDisjoint | src/data_processing/preprocessor.py:286-288 | with distinct file names the three parts share no file |
| Preprocessor.SplitDataset | src/data_processing/preprocessor.py:278-294 | fails exactly for an empty list (the percentage report divides by zero); otherwise train is int(0.7n), val int(0.2n), test the non-empty rest, concatenating back to the shuffled list |
| Preprocessor.LabelFields | src/data_processing/preprocessor.py:209-213 | a label line has five non-empty fields without spaces |
| Preprocessor.LabelFile | src/data_processing/preprocessor.py:209-213 | one line per annotation |
| Preprocessor.LabelLineReadsBack | src/data_processing/preprocessor.py:209-213 | splitting a written line gives five fields, and the first parses back to the class id |
| Preprocessor.PyIndex | src/data_processing/preprocessor.py:391 | indexing succeeds exactly for -len <= i < len, and gives the i-th name for non-negative i |
| Preprocessor.AnalyzeLines | src/data_processing/preprocessor.py:386-393 | the object count grows by exactly as much as the class distribution's total |
| PySemantics.WordsSplitAtUnicodeSpace | src/data_processing/preprocessor.py:388 | `line.strip().split()` separates the fields of a label line at a no-break space or an ideographic space just as at a blank |
| Preprocessor.AnalyzeReadableLines | src/data_processing/preprocessor.py:386-393 | lines that each read back as a class count once each, under that class |
| Preprocessor.WrittenLineReadsAs | src/data_processing/preprocessor.py:209-213 | a written line reads back as its annotation's class when the id indexes the class names |
| Preprocessor.AnalyzeWrittenLabels | src/data_processing/preprocessor.py:386-393 | analysing a label file written from annotations counts each annotation once, under its own class |
| Preprocessor.AnalyzeImages | src/data_processing/preprocessor.py:383-393 | an image without a label file adds no objects, and objects and distribution grow together |
| Preprocessor.AnalyzeSplit | src/data_processing/preprocessor.py:372-393 | a split counts every image, and its class distribution adds up to its object count |
| Preprocessor.AnalyzeSplits | src/data_processing/preprocessor.py:367-398 | missing splits are skipped; the totals are the sums over the recorded splits and the distribution adds up to the total objects |
| Preprocessor.AnalyzeDataset | src/data_processing/preprocessor.py:348-400 | the image and object totals are the sums over the existing splits, and the overall distribution adds up to the object total |
| Preprocessor.DatasetYaml | src/data_processing/preprocessor.py:327-340 | `nc` is the number of class names and `names` lists them in order |
| Detector.CategoryNames | src/models/detector.py:53 | the category names are exactly the keys of the configured `categories` mapping |
| Detector.FirstListing | src/models/detector.py:242-245 | the position of the first category that lists the class, with no earlier category listing it |
| Detector.GarbageCategory | src/models/detector.py:232-245 | the first category (in configuration order) listing the class name, or `unknown` when none does |
| Detector.InitialCounts | src/models/detector.py:188-189 | the category counts start with every configured category and `unknown`, all at 0 |
| Detector.ClassDistribution | src/models/detector.py:247-253 | each class name is counted as often as it occurs among the detections, and the counts sum to the number of detections |
| Detector.ParseResults | src/models/detector.py:176-230 | one detection per raw box with ids 0..n-1, `unknown` for an out-of-range class id; each category count is how many detections carry that category, and counts and distribution both sum to the total |
| Detector.PushFrame | src/models/detector.py:148-152 | the frame-time window holds the last at most 30 readings and ends with the new one |
| Detector.Detect | src/models/detector.py:109-174 | ValueError exactly when no model is loaded; an exception from the model call is re-raised as the same error with nothing recorded; otherwise the model sees the effective thresholds, the frame window is pushed, exactly one history record with the parsed counts is appended, and nothing else in the detector changes |
| Detector.ZeroThresholdFallsBack | src/models/detector.py:130-131 | because of `or`, a confidence threshold of 0.0 is the same as none: the configured one is used |
| Detector.DetectKeepsConsistent | src/models/detector.py:164-168 | every history record's category counts add up to its detection count, and `detect` keeps it so |
| Detector.CategoryTotals | src/models/detector.py:355-358 | each category ends with its starting count plus its count summed over the records; over consistent records the totals grow by exactly the detections summed |
| Detector.ConsistentSuffix | src/models/detector.py:349 | the last 100 records of a consistent history are consistent |
| Detector.Mean | src/models/detector.py:352 | the average times the frame count gives the detection total |
| Detector.GetDetectionStatistics | src/models/detector.py:344-367 | nothing exactly without history; otherwise over the last min(n, 100) records, with the mean detections per frame, and each category total the sum of that category over those records, the totals adding up to the detections |
| Detector.Summarise | src/models/detector.py:350-367 | frames, detections and mean come from the given records; each category total is that category summed over them, and the totals add up to the detections |
| Detector.ResetStatistics | src/models/detector.py:369-373 | afterwards there are no statistics and the frame rate is 0, with thresholds and model untouched |
| Detector.CheckedThreshold | src/models/detector.py:375-389 | a threshold is accepted exactly when it lies in [0, 1], unchanged |
| Detector.SetConfidenceThreshold | src/models/detector.py:375-381 | ValueError exactly outside [0, 1]; otherwise only the confidence threshold changes |
| Detector.SetIouThreshold | src/models/detector.py:383-389 | ValueError exactly outside [0, 1]; otherwise only the IoU threshold changes |
| SystemController.SetState | src/system/controller.py:389-396 | the state becomes the new one; exactly one state-change event (old, new) fires when it differs and none when it is the same, and nothing else changes |
| SystemController.SetStateIdempotent | src/system/controller.py:389-396 | setting the same state twice is setting it once |
| SystemController.SetErrorState | src/system/controller.py:398-405 | the error is recorded with its time as the last error, the state is ERROR, the error event fires last, and the queues are untouched |
| SystemController.UpdateStats | src/system/controller.py:407-413 | the uptime follows the clock; the success rate is sortings over detections (a true division, whose product with the detections gives back the sortings) when there are detections and is left alone otherwise; nothing else changes |
| SystemController.EmergencyStop | src/system/controller.py:489-504 | automatic mode off, both queues empty, state IDLE, statistics untouched; the arm controller, when there is one, is exactly the one after its own `emergency_stop` |
| SystemController.EmergencyStopHaltsVirtualArm | src/system/controller.py:500-502 | a system stop leaves a simulated arm IDLE and not moving |
| SystemController.PickupPosition | src/system/controller.py:313-324 | below 0.33 gives position_1, below 0.66 position_2, otherwise position_3 |
| SystemController.PickupMonotone | src/system/controller.py:313-324 | a point further right never gets an earlier position |
| SystemController.FirstIndexOf | src/system/controller.py:285-289 | where a category first occurs among the detections, with no earlier occurrence |
| SystemController.GroupByCategoryMeaning | src/system/controller.py:284-289 | the grouping loop yields one group per occurring category, in first-appearance order, each holding exactly its category's detections in arrival order |
| SystemController.GroupsAtMostDetections | src/system/controller.py:284-289 | there are never more groups than detections |
| SystemController.BestIndex | src/system/controller.py:297 | `max` by confidence picks a detection no other beats, and the first of equals |
| SystemController.CreateSortingTasks | src/system/controller.py:278-311 | no task targets `unknown`, each holds exactly one detection, and there are no more tasks than detections |
| SystemController.TasksCoverCategories | src/system/controller.py:292-308 | every known category that occurs gets a task |
| SystemController.TasksOrdered | src/system/controller.py:292-308 | tasks follow the order in which their categories first appear, so no category has two tasks |
| SystemController.TasksCarryBest | src/system/controller.py:292-308 | each task carries the best detection of its own category and the strip that detection lies in |
| SystemController.ProcessDetectionTasks | src/system/controller.py:241-276 | an empty queue changes nothing; otherwise the oldest frame is popped; without a ready detector it fails and nothing else changes, except that the `finally` clause would turn a DETECTING state into IDLE; an exception fails it with counters and sorting queue untouched; a result completes it, fires the detection event, queues sorting tasks only for a non-empty result and counts one detection; the state ends IDLE |
| SystemController.LeaveDetecting | src/system/controller.py:274-276 | the `finally` clause: a DETECTING state becomes IDLE with its state-change event, any other state is kept unchanged |
| SystemController.ProcessDetectionKeepsCounters | src/system/controller.py:241-276 | processing a frame never lowers the detection count, never touches the sorting count, and only appends to the sorting queue |
| Scheduler.PrecedesStrict | src/system/scheduler.py:57-59 | `__lt__` (higher priority value first) is irreflexive, asymmetric and transitive |
| Scheduler.NewScheduler | src/system/scheduler.py:65-82 | a new scheduler is stopped, empty and has all counters at zero |
| Scheduler.NewSchedulerValid | src/system/scheduler.py:65-82 | a new scheduler satisfies the bookkeeping invariant |
| Scheduler.Find | src/system/scheduler.py:179 | the table position of a task id, or the table length exactly when no task has that id |
| Scheduler.CountAfterUpdate | src/system/scheduler.py:183-185 | changing one task's status moves each status count by what the old and new status contribute |
| Scheduler.Start | src/system/scheduler.py:89-109 | the scheduler runs afterwards and the answer is true, also when it was already running |
| Scheduler.CancelPending | src/system/scheduler.py:330-341 | exactly the pending tasks become cancelled, none stays pending, and the cancelled counter grows by their number |
| Scheduler.CancelPendingValid | src/system/scheduler.py:330-341 | cancelling the pending tasks keeps the bookkeeping invariant |
| Scheduler.Stop | src/system/scheduler.py:115-134 | a stopped scheduler is left alone; a running one stops with no task left pending |
| Scheduler.SubmitTask | src/system/scheduler.py:139-173 | RuntimeError exactly when not running; otherwise one pending task is added at the end of the table and the queue and the total grows by one |
| Scheduler.SubmitTaskValid | src/system/scheduler.py:139-173 | submitting keeps the bookkeeping invariant: every submitted task is counted once as finished, cancelled, pending or running |
| Scheduler.CancelTask | src/system/scheduler.py:175-198 | true exactly for a known pending task, which becomes cancelled with the cancelled counter one higher; every other case answers false and changes nothing |
| Scheduler.CancelTaskValid | src/system/scheduler.py:175-198 | cancelling keeps the bookkeeping invariant |
| Scheduler.TakeNext | src/system/scheduler.py:278-305 | the worker pops the oldest queued task; a cancelled or removed one is skipped without running, any other becomes running with its start time |
| Scheduler.TakeNextStartsPending | src/system/scheduler.py:286-292 | the task a worker starts was pending |
| Scheduler.TakeNextValid | src/system/scheduler.py:278-305 | starting a task keeps the bookkeeping invariant |
| Scheduler.Finish | src/system/scheduler.py:309-326 | a returned value completes the task with its result and one more completed task; an exception fails it with the message and one more failed task; only that task changes |
| Scheduler.FinishValid | src/system/scheduler.py:309-326 | finishing keeps the bookkeeping invariant |
| Scheduler.WorkerTurn | src/system/scheduler.py:278-328 | a whole worker turn pops one queued id, keeps the invariant and leaves the running count as it was |
| Scheduler.StartedThenFinished | src/system/scheduler.py:300-328 | the started task is running until it finishes, and finishing takes it out of the running count |
| Scheduler.Duration | src/system/scheduler.py:217 | a duration exists exactly when both times are present and non-zero, and it is their difference |
| Scheduler.View | src/system/scheduler.py:207-218 | the status dictionary reports the task's id, name, status and priority values, result, error and duration |
| Scheduler.GetTaskStatus | src/system/scheduler.py:200-218 | None exactly for an unknown id, otherwise that task's view |
| Scheduler.GetAllTasks | src/system/scheduler.py:220-223 | one view per task, the i-th being the view of the i-th task of the table |
| Scheduler.GetRunningTasks | src/system/scheduler.py:225-232 | as many views as running tasks; each is the view of a running task, every running task's view is there, and they keep table order |
| Scheduler.GetPendingTasks | src/system/scheduler.py:234-241 | as many views as pending tasks; each is the view of a pending task, every pending task's view is there, and they keep table order |
| Scheduler.GetStatistics | src/system/scheduler.py:243-253 | running_tasks is recounted from the table and stored; the other counters are reported unchanged |
| Scheduler.StatisticsAccount | src/system/scheduler.py:243-253 | the total equals completed + failed + cancelled + pending + running |
| Scheduler.ClearCompletedTasks | src/system/scheduler.py:255-271 | exactly the pending and running tasks stay, in order; the finished ones join the history, which keeps its 100 most recent entries |
| Scheduler.ClearCompletedTasksValid | src/system/scheduler.py:255-271 | clearing keeps the bookkeeping invariant |
| Scheduler.ClearCompletedTasksTable | src/system/scheduler.py:255-271 | clearing twice removes nothing more |
| ConfigLoader.LoadYaml | src/utils/config_loader.py:38-45 | a missing or unreadable file and a falsy document both load as an empty dictionary; any other document loads as itself |
| ConfigLoader.LoadAll | src/utils/config_loader.py:22-36 | the store holds exactly the model, system and hardware documents, each loaded as above |
| ConfigLoader.GetConfig | src/utils/config_loader.py:47-49 | an unknown type reads as an empty dictionary; a known type reads as its stored document |
| ConfigLoader.GetPath | src/utils/config_loader.py:78-84 | the walk fails as soon as a key is missing or an intermediate value is not a dictionary |
| ConfigLoader.GetValue | src/utils/config_loader.py:63-84 | the value at the dot-separated path, or the default when the walk fails |
| ConfigLoader.UnknownTypeGivesDefault | src/utils/config_loader.py:47-49 | an unknown configuration type gives the default for every path |
| ConfigLoader.SetPath | src/utils/config_loader.py:101-108 | succeeds exactly when every value already on the path is a dictionary; the path then reads back as the new value, and the top-level keys gain at most the first key |
| ConfigLoader.SetPathElsewhere | src/utils/config_loader.py:101-108 | any path that parts ways with the updated one reads the same before and after |
| ConfigLoader.UpdateConfig | src/utils/config_loader.py:86-108 | TypeError exactly when an existing value on the path is not a dictionary; otherwise `get_value` on the path returns the new value, the type is added if new, and every other type is untouched |
| ConfigLoader.UpdateConfigKeepsSiblings | src/utils/config_loader.py:101-108 | sibling keys of the same type keep their values, including next to freshly created intermediates |
| ConfigLoader.DottedPath | src/utils/config_loader.py:76 | a two-segment dotted path splits into its two keys |
| ConfigLoader.GetClasses | src/utils/config_loader.py:128-130 | `classes.names` of the model document, or [] |
| ConfigLoader.GetClassCategories | src/utils/config_loader.py:132-134 | `classes.categories` of the model document, or {} |
| ConfigLoader.GetModelName | src/utils/config_loader.py:136-138 | `model.name`, or 'yolov8n' |
| ConfigLoader.GetDefaultModelPath | src/utils/config_loader.py:140-142 | `model.default_model_path`, or 'models/best.pt' |
| ConfigLoader.GetConfidenceThreshold | src/utils/config_loader.py:144-146 | `model.confidence_threshold`, or 0.25 |
| ConfigLoader.GetWebServerConfig | src/utils/config_loader.py:148-150 | `web_server` of the system document, or {} |
| ConfigLoader.GetCameraConfig | src/utils/config_loader.py:152-154 | `camera` of the hardware document, or {} |
| ConfigLoader.GetRobotArmConfig | src/utils/config_loader.py:156-158 | `robot_arm` of the hardware document, or {} |
| ConfigLoader.EmptyStoreDefaults | src/utils/config_loader.py:128-158 | with no configuration files all eight accessors return their defaults: `[]` for the class names, `{}` for the categories and the three sections, and 'yolov8n', 'models/best.pt' and 0.25 for the model settings |
| Sensors.ClampTo | src/hardware/sensors.py:188 | `max(lo, min(hi, v))` lies in [lo, hi], leaves an in-range value alone and sends an out-of-range one to the nearer end |
| Sensors.GenerateReading | src/hardware/sensors.py:171-211 | a valid reading of the right sensor, unit and time whose value is the clamped noisy value rounded to two decimals, and so stays inside the sensor's range |
| Sensors.ProximityReadsDraw | src/hardware/sensors.py:178-182 | with noise inside the accuracy, the proximity sensor reads under 20 cm exactly when the draws put the object near |
| Sensors.EnvironmentNearCenter | src/hardware/sensors.py:184-193 | an environmental reading lies within a tenth of the range plus the accuracy of the range's centre |
| Sensors.NewController | src/hardware/sensors.py:46-113 | all six sensors registered and enabled, not running, no reading, every history empty |
| Sensors.NewControllerValid | src/hardware/sensors.py:61-113 | a new controller satisfies the invariant: six sensors registered, histories of at most 100, readings inside their ranges |
| Sensors.MonitorStep | src/hardware/sensors.py:145-163 | every enabled sensor gets a fresh reading that becomes its latest and is appended to its history, cut to the 100 most recent; disabled sensors keep both |
| Sensors.MonitorStepValid | src/hardware/sensors.py:145-163 | a monitoring pass keeps the invariant, so no history exceeds 100 |
| Sensors.MonitorStepRecords | src/hardware/sensors.py:156-159 | after a pass an enabled sensor's history ends with its latest reading |
| Sensors.StartMonitoring | src/hardware/sensors.py:115-127 | the loop runs afterwards and the answer is true, also when it was already running |
| Sensors.StopMonitoring | src/hardware/sensors.py:133-138 | the loop is stopped and nothing else changes |
| Sensors.GetReading | src/hardware/sensors.py:213-216 | the latest reading, or None before the first one or for a key the controller does not hold |
| Sensors.GetHistory | src/hardware/sensors.py:223-227 | the last min(k, n) readings for k > 0, the whole history otherwise, and nothing for an unknown key |
| Sensors.IsGarbageDetected | src/hardware/sensors.py:229-234 | true exactly for a valid proximity reading under 20 cm; false without a reading |
| Sensors.DetectionFollowsDraw | src/hardware/sensors.py:229-234 | after a pass with proximity enabled, garbage is detected exactly when the draws put it near |
| Sensors.GetGarbageWeight | src/hardware/sensors.py:236-245 | 0 unless garbage is detected and a valid weight reading exists; then the weight, but at least 10 g |
| Sensors.GetEnvironmentalData | src/hardware/sensors.py:247-259 | each latest value, or 25, 50, 500 and 100 when that sensor has no reading |
| Sensors.EnvironmentInRange | src/hardware/sensors.py:247-259 | on a valid controller every environmental value lies in its sensor's range, defaults included |
| Sensors.GetSensorStatus | src/hardware/sensors.py:285-298 | one entry per sensor in registration order, with its flag and, when read, its value, unit, time and validity; unread sensors are not valid |
| Sensors.SetEnabled | src/hardware/sensors.py:261-283 | false and no change for a key the controller does not hold; otherwise only that flag is set and the answer is true |
| Sensors.SetEnabledValid | src/hardware/sensors.py:261-283 | enabling or disabling keeps the invariant |
| Sensors.DisabledSensorFrozen | src/hardware/sensors.py:152-153 | a disabled sensor keeps its reading and history through a monitoring pass |
| Sensors.EnableDisableRoundTrip | src/hardware/sensors.py:261-283 | disabling and then enabling an enabled sensor restores the controller |
| Sensors.ResetHistory | src/hardware/sensors.py:300-305 | every history is emptied but keeps its entry; the latest readings and flags stay |
| Sensors.ResetHistoryKeepsReadings | src/hardware/sensors.py:300-305 | clearing the history changes no answer based on the latest readings and keeps the invariant |
| CoordinateTransform.GetCalibrationPoints | src/hardware/coordinate_transform.py:150-157 | the stored camera and robot points; as values they cannot be changed through the result |
| ArmController.Attributes | src/hardware/robot_arm_interface.py:99-109 | every driver's instance dict holds the attributes the shared constructor sets, `_is_connected` among them |
| ArmController.DictIsConnected | src/hardware/robot_arm.py:254 | the `__dict__.get('is_connected', False)` test can only pass when that key is in the driver's instance dict |
| ArmController.DictNeverConnected | src/hardware/robot_arm.py:250-256 | both drivers store `_is_connected` and never `is_connected`, so the test fails for every driver, connected or not |

## Notes on the code

The model follows the code where it departs from what its names, comments or docstrings suggest:

- `VirtualRobotArm.sort_garbage`: when an inner step answers false (a missed grab, say), the `finally` block leaves the status IDLE, and the counters and history are unchanged. The ERROR path needs an exception, and no modelled step raises one.
- `checkport` outside Windows falls back to COM only when `popen` raises. An empty listing still yields the bare `/dev/serial/by-id/` path (`SortingDemo.EmptyListingStillNamesAPort`).
- `switch_arm_type` never disconnects the old driver, because `__dict__.get('is_connected')` never finds the `_is_connected` flag (`ArmController.DictNeverConnected`). It never connects the new driver either.
- `get_arm_type_info('abb')` gives the unknown-type descriptor, although `get_supported_arm_types` lists 'abb'.
- `update_calibration` is not atomic. The new points are stored before H is solved, so a failed solve keeps them and clears H.
- `TaskScheduler` uses a FIFO `Queue`, so `Task.__lt__` is never consulted. Tasks run in submission order whatever their priority (`Scheduler.TakeNext`).
- `create_robot_arm('ur')` and `create_robot_arm('kuka')` import modules that the repository does not contain, so they answer None like an unknown tag.
- `ForwardKinematics` of the zero joint angles is (100, 0, 200), not the home position (0, 0, 200).
- The comment on `set_gripper` names M2231, but the code sends M2232.
- `pick_object` answers true whenever a serial handle exists, even if some of its writes failed.
- In `detect`, an explicit threshold of 0.0 is falsy and falls back to the configured threshold.
- The interface documents speeds from 0 to 100, yet the virtual `move_to_position` at speed 0 raises ZeroDivisionError inside its own `try`, even for a move to the current position, and ends in ERROR (`VirtualArm.MoveSpeedOutcomes`).
- The log lines of `grab_object` index `position[1]` and `bbox[3]` of any non-empty list, so a short list raises IndexError out of the facade before the sort starts (`ArmController.GrabObject`).

## Left out

- Threads, locks, workers and callbacks are left out. Each worker turn, monitoring pass and control step is one atomic function, and callbacks become an event log (`SystemController`).
- `uuid4` task ids are left out; ids are parameters assumed fresh.
- A task's function and arguments are left out; an `Outcome` oracle stands for what the call did.
- Sleeps, logging and `print`, file I/O and YAML/JSON/XML parsing and writing are left out. The documents they produce are inputs.
- Image pixels, the pixel-only augmentations (brightness, contrast, colour, noise, blur, sharpen, gamma) and the trigonometry of the rotation augmentation are left out. The rotated annotations are a parameter.
- `calculate_distance`, `calculate_angle`, the length of the virtual arm's simulated delay and its random temperature and load telemetry use square roots, trigonometry or randomness outside the modelled state. Whether the delay raises is modelled.
- The web interface, the cameras, model training and the TensorRT detector are left out. The detector's network is an `infer` parameter.
- The homography solver (`cv2.findHomography`) is left out; H is a given 3x3 matrix.
- The `_check_port` operating-system probe of the uArm driver is left out; its answer is a parameter.
- The uArm `get_status` extras (device info, firmware) are left out.
- `convert_to_yolo_format`'s directory walk and file copying are left out; only the content of each label file is modelled.
- `load_config` and `save_config` of the augmentor only read and write files; the merge they perform is `DataAugmentor.MergeConfig`.
- The sensors' descriptions and the controller's `config` argument are left out, because no operation reads them.
- The demo's `ArmServo.__init__` YAML loading and its `initialize_arm` call are left out; they only do device I/O.
- `get_coordinate` in the coordinate transformer only delegates to `convert_coordinate` and has no model of its own.
- `SystemController.initialize`, `start`, `stop`, `_control_loop`, `_auto_mode_cycle`, `manual_detect`, `load_detection_model` and `get_system_status` are left out; they construct or poll objects outside the model.
- `_execute_sorting` and the arm branch of `_process_sorting_tasks` are left out, because they call arm methods that do not exist in the repository.
- DataAugmentor.Iteration: a missing or malformed parameter entry (`max_angle`, `scale_range` and so on) raises KeyError or TypeError in the code. The model takes the drawn parameters as given, so its contract says nothing about those raises.
- Preprocessor.AnalyzeLines: Python's `int()` also accepts a class id with underscores between digits (`1_0`) or with non-ASCII decimal digits (Arabic-Indic, fullwidth and the like). `ParseInt` reads only an optional sign and ASCII digits, so a label line with such an id is a ValueError in the model, while `analyze_dataset` counts it.
- Preprocessor.SplitDataset: `int(n * 0.7)` is computed on exact reals. IEEE doubles give one less for some n (n = 90 gives 62, not 63), and the model does not reproduce that.
- Sensors.GenerateReading: `round(v, 2)` is modelled on exact reals with round-half-even. The float32/float64 representation error of the stored value is not modelled.
- SortingDemo.SendCommand: the fault flag stands for a `SerialException`. Any other exception propagates out of `send_command` in the code, and the model has no such case.
- Detector.Detect: the detection time and the frame rate are computed on exact reals, not floats.
- MathUtils.CalculateFps: the mean gap is computed on exact reals, not floats.
- CoordinateTransform.Apply: the point and H are converted to float32 and the result is rounded in single precision; the model computes on exact reals and keeps only OpenCV's FLT_EPSILON cut-off.
- CoordinateTransform.ApplyScaleInvariant: scale invariance holds only while the scaling keeps the homogeneous coordinate on the same side of the cut-off (`CoordinateTransform.ScaleCrossesCutoff` shows it failing otherwise), and float rounding is not modelled.
- VirtualArm.MoveToPosition: a distance whose square underflows to zero in floating point, and NaN or infinite speeds, are not modelled; the model treats the distance as positive exactly when the target differs from the current position.

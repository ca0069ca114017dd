/** The facade `RobotArmController`: it owns one driver instance (or none),
    forwards the driver contract to it, gates the simulated driver's extra
    operations on whether the driver has them, and can swap the driver at run
    time. */
module ArmController {
  import opened Wrappers
  import opened PySemantics
  import opened ArmInterface
  import ArmFactory
  import VirtualArm
  import UarmArm

  /** The drivers whose code is part of this model. */
  datatype Driver = VirtualDriver(v: VirtualArm.Arm) | UarmDriver(u: UarmArm.Uarm)

  /** The configuration dict; its values are kept as strings. */
  type Config = map<string, string>

  datatype Controller = Controller(config: Config, armType: string, instance: Option<Driver>)

  /** The optional operations only some drivers define. */
  datatype Capability = SortGarbageOp | StatisticsOp | HistoryOp | ResetStatisticsOp | BinsInfoOp

  /** `hasattr(driver, name)` for the optional operations. */
  function Capabilities(d: Driver): (r: set<Capability>)
    ensures SortGarbageOp in r
  {
    match d
    case VirtualDriver(_) => {SortGarbageOp, StatisticsOp, HistoryOp, ResetStatisticsOp, BinsInfoOp}
    case UarmDriver(_) => {SortGarbageOp}
  }

  predicate Has(c: Controller, op: Capability)
  {
    c.instance.Some? && op in Capabilities(c.instance.value)
  }

  /** `_create_arm_instance`: 'virtual' in any letter case builds the
      simulated driver directly, every other tag goes through the factory. */
  function CreateInstance(armType: string): (r: Option<Driver>)
    ensures r.Some? <==> Lower(armType) == "virtual"
    ensures r.Some? ==> r.value == VirtualDriver(VirtualArm.NewArm())
  {
    if Lower(armType) == "virtual" then Some(VirtualDriver(VirtualArm.NewArm()))
    else match ArmFactory.CreateRobotArm(armType)
      case Some(a) => Some(VirtualDriver(a))
      case None => None
  }

  /** `RobotArmController.__init__`: the tag defaults to 'virtual', and a tag
      without a driver raises RuntimeError. */
  function NewController(config: Config): (r: Result<Controller>)
    ensures var tag := if "arm_type" in config then config["arm_type"] else "virtual";
            && (r.Success? <==> Lower(tag) == "virtual")
            && (r.Success? ==> r.value.armType == tag && r.value.config == config
                               && r.value.instance == Some(VirtualDriver(VirtualArm.NewArm())))
  {
    var tag := if "arm_type" in config then config["arm_type"] else "virtual";
    match CreateInstance(tag)
    case None => Failure("RuntimeError")
    case Some(d) => Success(Controller(config, tag, Some(d)))
  }

  /** `create_robot_arm_controller(arm_type, config)`: the argument overwrites
      any `arm_type` already in the configuration. */
  function CreateRobotArmController(armType: string, config: Config): (r: Result<Controller>)
    ensures r.Success? <==> Lower(armType) == "virtual"
    ensures r.Success? ==> r.value.armType == armType && "arm_type" in r.value.config && r.value.config["arm_type"] == armType
    ensures r.Success? ==> forall k :: k in config && k != "arm_type" ==> k in r.value.config && r.value.config[k] == config[k]
  {
    NewController(config["arm_type" := armType])
  }

  /** The `is_connected` property. */
  function IsConnected(c: Controller): (r: bool)
    ensures c.instance.None? ==> !r
    ensures c.instance.Some? && c.instance.value.VirtualDriver? ==> r == c.instance.value.v.connected
    ensures c.instance.Some? && c.instance.value.UarmDriver? ==> r == UarmArm.IsConnected(c.instance.value.u)
  {
    match c.instance
    case None => false
    case Some(VirtualDriver(a)) => a.connected
    case Some(UarmDriver(u)) => UarmArm.IsConnected(u)
  }

  function DriverStatus(d: Driver): ArmStatus
  {
    match d
    case VirtualDriver(a) => a.status
    case UarmDriver(u) => u.status
  }

  /** The `status` property. */
  function Status(c: Controller): (r: string)
    ensures c.instance.None? ==> r == "disconnected"
    ensures c.instance.Some? ==> r == StatusValue(DriverStatus(c.instance.value))
  {
    match c.instance
    case None => StatusValue(Disconnected)
    case Some(d) => StatusValue(DriverStatus(d))
  }

  /** The keys of `get_status` every driver reports. */
  datatype StatusSummary = StatusSummary(connected: bool, status: string, position: FloatDict, hasObject: bool, errors: seq<string>)

  const NoInstanceMessage := "机械臂实例未创建"

  function GetStatus(c: Controller): (r: StatusSummary)
    ensures c.instance.None? ==> !r.connected && r.status == "disconnected" && !r.hasObject
                                 && r.position == map["x" := 0.0, "y" := 0.0, "z" := 0.0]
                                 && r.errors == [NoInstanceMessage]
    ensures c.instance.Some? ==> r.connected == IsConnected(c) && r.status == Status(c)
  {
    match c.instance
    case None => StatusSummary(false, StatusValue(Disconnected), map["x" := 0.0, "y" := 0.0, "z" := 0.0], false, [NoInstanceMessage])
    case Some(VirtualDriver(a)) =>
      var s := VirtualArm.GetStatus(a);
      StatusSummary(s.connected, s.status, s.currentPosition, s.hasObject, s.errors)
    case Some(UarmDriver(u)) =>
      StatusSummary(UarmArm.IsConnected(u), StatusValue(u.status), PositionToDict(u.position), u.hasObject, u.errors)
  }

  /** Everything a forwarded command may consume: the simulated grab's random
      draw, and the uArm's port detection and device replies; `fault` and
      `laterFault` carry the text of an exception a uArm device call raises. */
  datatype Replies = Replies(
    draw: real, detectedPort: Option<string>, fault: Option<string>, laterFault: Option<string>, verified: bool,
    readback: UarmArm.Readback, pump: UarmArm.GrabReply)

  /** The commands of the driver contract the facade forwards unchanged;
      its `move_to_position` passes no speed, so the driver's default
      applies. */
  datatype ArmCommand =
    | ConnectCmd | DisconnectCmd | HomeCmd | MoveCmd(target: Position)
    | JointsCmd(angles: JointAngles) | RawGrabCmd | ReleaseCmd | StopCmd
    | SetSpeedCmd(speed: real) | CalibrateCmd

  function RunOnVirtual(a: VirtualArm.Arm, cmd: ArmCommand, o: Replies): VirtualArm.Step
  {
    match cmd
    case ConnectCmd => VirtualArm.Connect(a)
    case DisconnectCmd => VirtualArm.Disconnect(a)
    case HomeCmd => VirtualArm.Home(a)
    case MoveCmd(p) => VirtualArm.MoveToPosition(a, p, None)
    case JointsCmd(j) => VirtualArm.MoveToJoints(a, j)
    case RawGrabCmd => VirtualArm.Grab(a, None, o.draw)
    case ReleaseCmd => VirtualArm.Release(a)
    case StopCmd => VirtualArm.EmergencyStop(a)
    case SetSpeedCmd(s) => VirtualArm.Step(a, SetSpeed(s))
    case CalibrateCmd => VirtualArm.Step(a, DefaultHook())
  }

  function RunOnUarm(u: UarmArm.Uarm, cmd: ArmCommand, o: Replies): UarmArm.UStep
  {
    match cmd
    case ConnectCmd => UarmArm.Connect(u, o.detectedPort, o.fault, o.verified, o.readback)
    case DisconnectCmd => UarmArm.Disconnect(u, o.fault)
    case HomeCmd => UarmArm.Home(u, o.fault, o.readback)
    case MoveCmd(p) => UarmArm.MoveToPosition(u, p, o.fault, o.readback)
    case JointsCmd(j) => UarmArm.MoveToJoints(u, j, o.fault, o.readback)
    case RawGrabCmd => UarmArm.Grab(u, o.pump)
    case ReleaseCmd => UarmArm.Release(u, o.fault)
    case StopCmd => UarmArm.EmergencyStop(u, o.fault)
    case SetSpeedCmd(s) => UarmArm.UStep(u, SetSpeed(s))
    case CalibrateCmd => UarmArm.UStep(u, DefaultHook())
  }

  /** A forwarded command: false without an instance, otherwise the driver's
      own answer. Tag and configuration never change. */
  function Forward(c: Controller, cmd: ArmCommand, o: Replies): (r: (Controller, bool))
    ensures c.instance.None? ==> r == (c, false)
    ensures r.0.armType == c.armType && r.0.config == c.config
    ensures r.0.instance.Some? <==> c.instance.Some?
    ensures c.instance.Some? && c.instance.value.VirtualDriver? ==>
              var s := RunOnVirtual(c.instance.value.v, cmd, o);
              r.1 == s.ok && r.0.instance == Some(VirtualDriver(s.arm))
    ensures c.instance.Some? && c.instance.value.UarmDriver? ==>
              var s := RunOnUarm(c.instance.value.u, cmd, o);
              r.1 == s.ok && r.0.instance == Some(UarmDriver(s.arm))
  {
    match c.instance
    case None => (c, false)
    case Some(VirtualDriver(a)) =>
      var s := RunOnVirtual(a, cmd, o);
      (c.(instance := Some(VirtualDriver(s.arm))), s.ok)
    case Some(UarmDriver(u)) =>
      var s := RunOnUarm(u, cmd, o);
      (c.(instance := Some(UarmDriver(s.arm))), s.ok)
  }

  /** The optional `sort_garbage`: the driver's own sort when it has one,
      false otherwise. */
  function SortGarbage(c: Controller, garbageType: string, o: Replies): (r: (Controller, bool))
    ensures !Has(c, SortGarbageOp) ==> r == (c, false)
    ensures c.instance.Some? && c.instance.value.VirtualDriver? ==>
              var s := VirtualArm.SortGarbage(c.instance.value.v, garbageType, o.draw);
              r == (c.(instance := Some(VirtualDriver(s.arm))), s.ok)
    ensures r.0.armType == c.armType && r.0.config == c.config
  {
    match c.instance
    case None => (c, false)
    case Some(VirtualDriver(a)) =>
      var s := VirtualArm.SortGarbage(a, garbageType, o.draw);
      (c.(instance := Some(VirtualDriver(s.arm))), s.ok)
    case Some(UarmDriver(u)) =>
      var s := UarmArm.SortGarbage(u, garbageType, o.fault, o.readback, o.laterFault);
      (c.(instance := Some(UarmDriver(s.arm))), s.ok)
  }

  /** A log argument `xs` that is present and non-empty, so the log line
      runs, but shorter than the `n` items the line indexes: an IndexError. */
  predicate ShortLogArgument(xs: Option<seq<real>>, n: nat)
  {
    xs.Some? && 0 < |xs.value| < n
  }

  /** `grab_object(target_class, confidence, position, bbox)`: with a
      non-empty target class and a driver that sorts, the log lines index
      `position[0..1]` and `bbox[0..3]` of the non-empty lists, and a list
      too short makes the call raise IndexError before anything reaches the
      driver; otherwise it is exactly that driver's sort and the raw grab is
      never issued. With no or an empty target class it is the raw grab with
      default parameters, and the lists are not read. The confidence only
      feeds a log line. */
  function GrabObject(c: Controller, targetClass: Option<string>, position: Option<seq<real>>,
                      bbox: Option<seq<real>>, o: Replies): (r: Result<(Controller, bool)>)
    ensures c.instance.None? ==> r == Success((c, false))
    ensures targetClass.Some? && targetClass.value != "" && Has(c, SortGarbageOp) ==>
              && (r.Failure? <==> ShortLogArgument(position, 2) || ShortLogArgument(bbox, 4))
              && (r.Failure? ==> r.error == "IndexError")
              && (r.Success? ==> r.value == SortGarbage(c, targetClass.value, o))
    ensures (targetClass.None? || targetClass.value == "") ==> r == Success(Forward(c, RawGrabCmd, o))
  {
    if c.instance.None? then Success((c, false))
    else if targetClass.Some? && targetClass.value != "" && Has(c, SortGarbageOp) then
      if ShortLogArgument(position, 2) || ShortLogArgument(bbox, 4) then Failure("IndexError")
      else Success(SortGarbage(c, targetClass.value, o))
    else Success(Forward(c, RawGrabCmd, o))
  }

  /** The answer of `get_statistics`: the driver's record, or the zeroed
      fallback with an explanatory message. */
  datatype StatisticsReport =
    | DriverStatistics(stats: VirtualArm.Statistics)
    | Unsupported(totalOperations: nat, successfulOperations: nat, failedOperations: nat, message: string)

  function GetStatistics(c: Controller): (r: StatisticsReport)
    ensures Has(c, StatisticsOp) <==> r.DriverStatistics?
    ensures r.DriverStatistics? ==> r.stats == c.instance.value.v.statistics
    ensures r.Unsupported? ==> r.totalOperations == 0 && r.successfulOperations == 0 && r.failedOperations == 0
  {
    match c.instance
    case Some(VirtualDriver(a)) => DriverStatistics(VirtualArm.GetStatistics(a))
    case _ => Unsupported(0, 0, 0, "机械臂类型 " + c.armType + " 不支持统计功能")
  }

  function GetOperationHistory(c: Controller, limit: int): (r: seq<VirtualArm.Operation>)
    ensures !Has(c, HistoryOp) ==> r == []
    ensures Has(c, HistoryOp) ==> r == VirtualArm.GetOperationHistory(c.instance.value.v, limit)
  {
    match c.instance
    case Some(VirtualDriver(a)) => VirtualArm.GetOperationHistory(a, limit)
    case _ => []
  }

  function ResetStatistics(c: Controller): (r: (Controller, bool))
    ensures !Has(c, ResetStatisticsOp) ==> r == (c, false)
    ensures Has(c, ResetStatisticsOp) ==> r.1 && r.0.instance.Some? && r.0.instance.value.VirtualDriver?
                                          && r.0.instance.value.v.history == []
                                          && VirtualArm.Valid(r.0.instance.value.v)
    ensures Has(c, ResetStatisticsOp) ==>
              r.0 == c.(instance := Some(VirtualDriver(VirtualArm.ResetStatistics(c.instance.value.v).arm)))
  {
    match c.instance
    case Some(VirtualDriver(a)) =>
      var s := VirtualArm.ResetStatistics(a);
      (c.(instance := Some(VirtualDriver(s.arm))), s.ok)
    case _ => (c, false)
  }

  function GetGarbageBinsInfo(c: Controller): (r: seq<VirtualArm.BinInfo>)
    ensures !Has(c, BinsInfoOp) ==> r == []
    ensures Has(c, BinsInfoOp) ==> |r| == |VirtualArm.Bins|
    ensures Has(c, BinsInfoOp) ==> r == VirtualArm.GetGarbageBinsInfo(c.instance.value.v)
  {
    match c.instance
    case Some(VirtualDriver(a)) => VirtualArm.GetGarbageBinsInfo(a)
    case _ => []
  }

  /** The instance attributes the shared constructor sets. */
  const BaseAttributes: set<string> := {"config", "_is_connected", "current_status", "logger"}

  /** The names in a driver's instance `__dict__`: those its constructor
      chain assigns. No later method assigns a new attribute, so the set
      depends only on the kind of driver. */
  function Attributes(d: Driver): (r: set<string>)
    ensures BaseAttributes <= r
  {
    match d
    case VirtualDriver(_) =>
      BaseAttributes + {"current_position", "current_joints", "home_position", "pickup_position",
                        "has_object", "is_moving", "move_speed", "grab_force", "_lock",
                        "garbage_bins", "statistics", "operation_history", "errors"}
    case UarmDriver(_) =>
      BaseAttributes + {"port", "baudrate", "speed_factor", "arm", "current_position",
                        "current_joints", "has_object", "is_moving", "errors", "garbage_positions"}
  }

  /** `self._arm_instance.__dict__.get('is_connected', False)` in a truth
      test: it can only succeed when the key is in the instance dict. */
  function DictIsConnected(d: Driver): (r: bool)
    ensures r ==> "is_connected" in Attributes(d)
  {
    "is_connected" in Attributes(d)
  }

  /** Both drivers keep their flag under `_is_connected`, so the lookup
      never finds the key and always answers false, even for a connected
      driver. */
  lemma DictNeverConnected(d: Driver)
    ensures "_is_connected" in Attributes(d) && "is_connected" !in Attributes(d)
    ensures !DictIsConnected(d)
  {
  }

  /** `switch_arm_type(new_arm_type, config)`: the tag and the configuration
      change first; the driver is replaced only when the new one can be
      created. The guard in front of the old driver's `disconnect()` never
      holds (`DictIsConnected`), so that driver is left as it was, and the
      new one is not connected. */
  function SwitchArmType(c: Controller, newArmType: string, config: Config): (r: (Controller, bool))
    ensures c.instance.Some? ==> !DictIsConnected(c.instance.value)
    ensures r.0.armType == newArmType && r.0.config == (c.config + config)["arm_type" := newArmType]
    ensures r.1 <==> Lower(newArmType) == "virtual"
    ensures r.1 ==> r.0.instance == Some(VirtualDriver(VirtualArm.NewArm())) && !IsConnected(r.0)
    ensures !r.1 ==> r.0.instance == c.instance
  {
    var c1 := c.(armType := newArmType, config := (c.config + config)["arm_type" := newArmType]);
    match CreateInstance(newArmType)
    case Some(d) => (c1.(instance := Some(d)), true)
    case None => (c1, false)
  }

  /** A failed switch leaves the facade driving the old arm under the new
      tag. */
  lemma FailedSwitchKeepsOldDriver(c: Controller, newArmType: string, config: Config)
    requires Lower(newArmType) != "virtual"
    ensures var (c2, ok) := SwitchArmType(c, newArmType, config);
      !ok && c2.instance == c.instance && c2.armType == newArmType && IsConnected(c2) == IsConnected(c)
  {
  }

  /** Without an instance every forwarded command answers false, the status
      reads 'disconnected' and the optional operations fall back. */
  lemma NoInstanceFallbacks(c: Controller, cmd: ArmCommand, o: Replies, t: string, pos: Option<seq<real>>,
                              box: Option<seq<real>>, limit: int)
    requires c.instance.None?
    ensures Forward(c, cmd, o) == (c, false) && GrabObject(c, Some(t), pos, box, o) == Success((c, false))
    ensures SortGarbage(c, t, o) == (c, false) && ResetStatistics(c) == (c, false)
    ensures GetStatistics(c).Unsupported? && GetOperationHistory(c, limit) == []
    ensures GetGarbageBinsInfo(c) == [] && Status(c) == "disconnected" && !IsConnected(c)
  {
  }

  /** On the uArm driver only `sort_garbage` exists among the optional
      operations. */
  lemma UarmFallbacks(c: Controller, limit: int)
    requires c.instance.Some? && c.instance.value.UarmDriver?
    ensures GetStatistics(c).Unsupported? && GetOperationHistory(c, limit) == []
    ensures ResetStatistics(c) == (c, false) && GetGarbageBinsInfo(c) == []
  {
  }

  function GetSupportedArmTypes(): (r: seq<string>)
  {
    ["virtual", "ur", "kuka", "abb"]
  }

  datatype ArmTypeInfo = ArmTypeInfo(name: string, description: string, features: seq<string>,
                                     configRequired: bool, configFields: seq<string>)

  const UnknownArmType := ArmTypeInfo("未知类型", "不支持的机械臂类型", [], false, [])

  /** `get_arm_type_info`: a case-sensitive lookup in three fixed
      descriptors, with the unknown-type descriptor for every other tag. */
  function GetArmTypeInfo(armType: string): (r: ArmTypeInfo)
    ensures armType !in {"virtual", "ur", "kuka"} ==> r == UnknownArmType
    ensures r.configRequired <==> armType in {"ur", "kuka"}
    ensures armType in {"virtual", "ur", "kuka"} ==> |r.features| == 3
    ensures armType == "ur" ==> r.configFields == ["host", "port"]
    ensures armType == "kuka" ==> r.configFields == ["host", "port", "krl_config"]
  {
    if armType == "virtual" then
      ArmTypeInfo("虚拟机械臂", "用于测试和演示的仿真机械臂", ["垃圾分拣", "统计记录", "操作历史"], false, [])
    else if armType == "ur" then
      ArmTypeInfo("Universal Robots", "UR系列协作机械臂", ["TCP通信", "实时控制", "力控制"], true, ["host", "port"])
    else if armType == "kuka" then
      ArmTypeInfo("KUKA机械臂", "KUKA工业机械臂", ["KRL编程", "高精度", "重载能力"], true, ["host", "port", "krl_config"])
    else UnknownArmType
  }

  /** 'abb' is listed as supported but has no descriptor and no driver. */
  lemma AbbListedButUnknown()
    ensures "abb" in GetSupportedArmTypes()
    ensures GetArmTypeInfo("abb") == UnknownArmType
    ensures CreateInstance("abb").None?
  {
  }
}

/** The uArm driver `UarmRobotArm`: the same status, holding and error
    bookkeeping as the simulated driver, wrapped around an opaque SwiftAPI
    handle. Each device call is answered by an oracle: a command's own calls
    either all return or one of them raises (`fault`, which carries the text
    `str(e)` of the exception, since the driver records it), and the state refresh
    after a command reads position, joints and pump status, each of which may
    raise or return a value. */
module UarmArm {
  import opened Wrappers
  import opened ArmInterface
  import VirtualArm

  /** The answer of one device read. */
  datatype Reading<+T> = Raises | Returns(value: T)

  /** The three reads made by `_update_robot_state`. */
  datatype Readback = Readback(position: Reading<seq<real>>, joints: Reading<seq<real>>, pump: Reading<int>)

  /** Pump status code the device reports while an object is held. */
  const PumpHolding := 2

  /** The configuration keys the driver reads, each possibly absent. */
  datatype UarmConfig = UarmConfig(port: Option<string>, baudrate: Option<int>, speedFactor: Option<real>)

  datatype Uarm = Uarm(
    port: Option<string>, baudrate: int, speedFactor: real,
    handle: bool,      // `self.arm is not None`
    flag: bool,        // `self._is_connected`
    status: ArmStatus, position: Position, joints: JointAngles,
    hasObject: bool, isMoving: bool, errors: seq<string>)

  datatype UStep = UStep(arm: Uarm, ok: bool)

  const DefaultBaudrate := 115200
  const DefaultSpeedFactor := 100.0

  /** `UarmRobotArm.__init__`; `libraryAvailable` says whether the SwiftAPI
      package imported. */
  function NewUarm(config: UarmConfig, libraryAvailable: bool): (r: Result<Uarm>)
    ensures r.Success? <==> libraryAvailable
    ensures r.Success? ==> !IsConnected(r.value) && r.value.status == Disconnected
    ensures r.Success? ==> r.value.baudrate == config.baudrate.GetOr(DefaultBaudrate)
                           && r.value.speedFactor == config.speedFactor.GetOr(DefaultSpeedFactor)
    ensures r.Success? ==> r.value.position == Position(0.0, 0.0, 0.0) && r.value.joints == ZeroJoints
                           && !r.value.hasObject && r.value.errors == []
  {
    if !libraryAvailable then Failure("ImportError")
    else
      var base := NewBase();
      Success(Uarm(config.port, config.baudrate.GetOr(DefaultBaudrate), config.speedFactor.GetOr(DefaultSpeedFactor),
                   false, base.connected, base.status, Position(0.0, 0.0, 0.0), ZeroJoints, false, false, []))
  }

  /** The bin table of this driver, in dict order. */
  const GarbagePositions: seq<(string, Position)> := [
    ("banana", Position(200.0, 50.0, 50.0)),
    ("beverages", Position(200.0, -50.0, 50.0)),
    ("cardboard_box", Position(150.0, 50.0, 50.0)),
    ("chips", Position(150.0, -50.0, 50.0)),
    ("fish_bones", Position(250.0, 50.0, 50.0)),
    ("instant_noodles", Position(250.0, -50.0, 50.0)),
    ("milk_box_type1", Position(180.0, 30.0, 50.0)),
    ("milk_box_type2", Position(180.0, -30.0, 50.0)),
    ("plastic", Position(220.0, 0.0, 50.0))
  ]

  function FindTarget(key: string, from: nat): (r: Option<Position>)
    requires from <= |GarbagePositions|
    ensures r.Some? <==> exists i :: from <= i < |GarbagePositions| && GarbagePositions[i].0 == key
    ensures r.Some? ==> exists i :: from <= i < |GarbagePositions| && GarbagePositions[i] == (key, r.value)
    decreases |GarbagePositions| - from
  {
    if from == |GarbagePositions| then None
    else if GarbagePositions[from].0 == key then Some(GarbagePositions[from].1)
    else FindTarget(key, from + 1)
  }

  /** `self.garbage_positions.get(garbage_type)`. */
  function BinTarget(key: string): (r: Option<Position>)
    ensures r.Some? <==> exists i :: 0 <= i < |GarbagePositions| && GarbagePositions[i].0 == key
    ensures r.Some? ==> exists i :: 0 <= i < |GarbagePositions| && GarbagePositions[i] == (key, r.value)
  {
    FindTarget(key, 0)
  }

  /** Both drivers sort the same nine garbage types, though to different
      places. */
  lemma SameGarbageTypesAsVirtual()
    ensures (set i | 0 <= i < |GarbagePositions| :: GarbagePositions[i].0)
         == (set i | 0 <= i < |VirtualArm.Bins| :: VirtualArm.Bins[i].key)
  {
    var u := set i | 0 <= i < |GarbagePositions| :: GarbagePositions[i].0;
    var v := set i | 0 <= i < |VirtualArm.Bins| :: VirtualArm.Bins[i].key;
    assert forall k :: k in u ==> k in v by {
      forall k | k in u ensures k in v {
        var i :| 0 <= i < |GarbagePositions| && GarbagePositions[i].0 == k;
        assert VirtualArm.Bins[VirtualArm.BinIndex(k).value].key == k;
      }
    }
    assert forall k :: k in v ==> k in u by {
      forall k | k in v ensures k in u {
        var i :| 0 <= i < |VirtualArm.Bins| && VirtualArm.Bins[i].key == k;
        assert FindTarget(k, 0).Some?;
      }
    }
  }

  /** `is_connected`: the flag alone is not enough, a device handle must also
      be present. */
  predicate IsConnected(u: Uarm)
  {
    u.flag && u.handle
  }

  /** The pose and holding flag are the same. */
  predicate SamePose(a: Uarm, b: Uarm)
  {
    a.position == b.position && a.joints == b.joints && a.hasObject == b.hasObject
  }

  /** `get_current_position`: a non-empty reading of at least three values
      replaces the cached position; a failed, empty or short reading (the
      short one raises IndexError inside the same try) keeps it. */
  function ReadPosition(u: Uarm, reading: Reading<seq<real>>): (r: (Uarm, Option<Position>))
    ensures !IsConnected(u) ==> r == (u, None)
    ensures IsConnected(u) && reading.Returns? && |reading.value| >= 3 ==>
              r.1 == Some(Position(reading.value[0], reading.value[1], reading.value[2])) && r.0.position == r.1.value
    ensures IsConnected(u) && (reading.Raises? || |reading.value| < 3) ==> r == (u, Some(u.position))
    ensures r.0 == u.(position := r.0.position)
  {
    if !IsConnected(u) then (u, None)
    else if reading.Returns? && |reading.value| >= 3 then
      var p := Position(reading.value[0], reading.value[1], reading.value[2]);
      (u.(position := p), Some(p))
    else (u, Some(u.position))
  }

  /** `get_current_joints`: the device reports three servo angles; the other
      three joints are padded with zero. */
  function ReadJoints(u: Uarm, reading: Reading<seq<real>>): (r: (Uarm, Option<JointAngles>))
    ensures !IsConnected(u) ==> r == (u, None)
    ensures IsConnected(u) && reading.Returns? && |reading.value| >= 3 ==>
              r.1 == Some(JointAngles(reading.value[0], reading.value[1], reading.value[2], 0.0, 0.0, 0.0))
              && r.0.joints == r.1.value
    ensures IsConnected(u) && (reading.Raises? || |reading.value| < 3) ==> r == (u, Some(u.joints))
    ensures r.0 == u.(joints := r.0.joints)
  {
    if !IsConnected(u) then (u, None)
    else if reading.Returns? && |reading.value| >= 3 then
      var j := JointAngles(reading.value[0], reading.value[1], reading.value[2], 0.0, 0.0, 0.0);
      (u.(joints := j), Some(j))
    else (u, Some(u.joints))
  }

  /** `is_holding_object`: refreshes the holding flag from the pump status
      unless the read raises. */
  function ReadHolding(u: Uarm, reading: Reading<int>): (r: (Uarm, bool))
    ensures !IsConnected(u) ==> r == (u, false)
    ensures IsConnected(u) && reading.Returns? ==> r.1 == (reading.value == PumpHolding) && r.0.hasObject == r.1
    ensures IsConnected(u) && reading.Raises? ==> r == (u, u.hasObject)
    ensures r.0 == u.(hasObject := r.0.hasObject)
  {
    if !IsConnected(u) then (u, false)
    else if reading.Raises? then (u, u.hasObject)
    else (u.(hasObject := reading.value == PumpHolding), reading.value == PumpHolding)
  }

  /** `_update_robot_state`: the three reads in order; each catches its own
      exception. */
  function Refresh(u: Uarm, rb: Readback): (r: Uarm)
    ensures r == u.(position := r.position, joints := r.joints, hasObject := r.hasObject)
  {
    var u1 := ReadPosition(u, rb.position).0;
    var u2 := ReadJoints(u1, rb.joints).0;
    ReadHolding(u2, rb.pump).0
  }

  /** `_check_port`: a configured port wins; otherwise the detected one. */
  function ChoosePort(configured: Option<string>, detected: Option<string>): (r: Option<string>)
    ensures configured.Some? && configured.value != "" ==> r == configured
    ensures (configured.None? || configured.value == "") ==> r == detected
  {
    if configured.Some? && configured.value != "" then configured else detected
  }

  /** `connect`. `detected` is the port found on the machine; `fault` is the
      text of the exception the SwiftAPI constructor or `set_speed_factor`
      raised, if any; `verified` says the
      device answered `get_device_info` with something other than None. */
  function Connect(u: Uarm, detected: Option<string>, fault: Option<string>, verified: bool, rb: Readback): (r: UStep)
    ensures r.ok <==> (var p := ChoosePort(u.port, detected); p.Some? && p.value != "") && fault.None? && verified
    ensures r.ok ==> IsConnected(r.arm) && r.arm.status == Idle && r.arm.errors == []
    ensures (var p := ChoosePort(u.port, detected); p.None? || p.value == "") ==> r == UStep(u, false)
    ensures !r.ok && (var p := ChoosePort(u.port, detected); p.Some? && p.value != "") && fault.Some? ==>
              !r.arm.handle && !IsConnected(r.arm) && r.arm.errors == u.errors + ["连接失败: " + fault.value]
              && r.arm.flag == u.flag && r.arm.status == u.status
    ensures !r.ok && fault.None? ==> r.arm.flag == u.flag && r.arm.status == u.status && r.arm.errors == u.errors
    ensures !r.ok ==> SamePose(u, r.arm)
  {
    var port := ChoosePort(u.port, detected);
    if port.None? || port.value == "" then UStep(u, false)
    else if fault.Some? then UStep(u.(handle := false, errors := u.errors + ["连接失败: " + fault.value]), false)
    else
      var attached := u.(handle := true);
      if !verified then UStep(attached, false)
      else UStep(Refresh(attached.(flag := true, status := Idle, errors := []), rb), true)
  }

  /** `disconnect`; `fault` is the exception `set_servo_detach` raised, which
      only matters while a handle is held and is logged, not recorded. */
  function Disconnect(u: Uarm, fault: Option<string>): (r: UStep)
    ensures r.ok <==> !(u.handle && fault.Some?)
    ensures r.ok ==> !IsConnected(r.arm) && !r.arm.handle && !r.arm.flag && r.arm.status == Disconnected
    ensures !r.ok ==> r.arm == u
    ensures SamePose(u, r.arm) && r.arm.errors == u.errors
  {
    if u.handle && fault.Some? then UStep(u, false)
    else UStep(u.(handle := false, flag := false, status := Disconnected), true)
  }

  /** `emergency_stop`: detach and re-attach the servos when a handle is
      held; a raising device call leaves everything as it was. */
  function EmergencyStop(u: Uarm, fault: Option<string>): (r: UStep)
    ensures r.ok <==> !(u.handle && fault.Some?)
    ensures r.ok ==> r.arm == u.(isMoving := false, status := Idle)
    ensures !r.ok ==> r.arm == u
  {
    if u.handle && fault.Some? then UStep(u, false)
    else UStep(u.(isMoving := false, status := Idle), true)
  }

  function ResetErrors(u: Uarm): (r: UStep)
    ensures r.ok && r.arm.errors == []
    ensures r.arm.status == (if u.status == Error then Idle else u.status)
    ensures SamePose(u, r.arm) && IsConnected(r.arm) == IsConnected(u)
  {
    var cleared := u.(errors := []);
    UStep(if u.status == Error then cleared.(status := Idle) else cleared, true)
  }

  /** The bookkeeping shared by every command whose device call raised:
      status ERROR, not moving, exactly one more error message. */
  function Failed(u: Uarm, what: string): (r: Uarm)
    ensures r.status == Error && !r.isMoving && r.errors == u.errors + [what]
    ensures SamePose(u, r) && IsConnected(r) == IsConnected(u)
  {
    u.(status := Error, isMoving := false, errors := u.errors + [what])
  }

  /** `home`: reset, then move to the waiting point (115, -3, 45); the cached
      pose only changes through the state refresh. */
  function Home(u: Uarm, fault: Option<string>, rb: Readback): (r: UStep)
    ensures !IsConnected(u) ==> r == UStep(u, false)
    ensures IsConnected(u) ==> (r.ok <==> fault.None?)
    ensures IsConnected(u) && fault.Some? ==> r.arm == Failed(u, "归位失败: " + fault.value)
    ensures r.ok ==> r.arm.status == Idle && !r.arm.isMoving && r.arm.errors == u.errors && IsConnected(r.arm)
  {
    if !IsConnected(u) then UStep(u, false)
    else if fault.Some? then UStep(Failed(u, "归位失败: " + fault.value), false)
    else UStep(Refresh(u.(isMoving := false, status := Idle), rb), true)
  }

  /** A device call of the uArm SDK. */
  datatype DeviceCall =
    | SetSpeedFactor(factor: real)
    | SetPosition(x: real, y: real, z: real)
    | SetServoAngle(servo: nat, angle: real)

  /** `min(max(speed, 1), 100)`. */
  function ClampSpeed(speed: real): (r: real)
    ensures 1.0 <= r <= 100.0
    ensures 1.0 <= speed <= 100.0 ==> r == speed
    ensures speed < 1.0 ==> r == 1.0
    ensures speed > 100.0 ==> r == 100.0
  {
    var lower := if speed > 1.0 then speed else 1.0;
    if lower < 100.0 then lower else 100.0
  }

  /** `if speed: set_speed_factor(...)`: None and 0.0 send nothing. */
  function SpeedCalls(speed: Option<real>): (r: seq<DeviceCall>)
    ensures |r| <= 1
    ensures r != [] <==> speed.Some? && speed.value != 0.0
    ensures r != [] ==> r[0].SetSpeedFactor? && 1.0 <= r[0].factor <= 100.0
  {
    if speed.Some? && speed.value != 0.0 then [SetSpeedFactor(ClampSpeed(speed.value))] else []
  }

  /** The device calls `move_to_position` issues, in order. */
  function MoveCalls(p: Position, speed: Option<real>): (r: seq<DeviceCall>)
    ensures |r| >= 1 && r[|r| - 1] == SetPosition(p.x, p.y, p.z)
    ensures forall i :: 0 <= i < |r| && r[i].SetSpeedFactor? ==> 1.0 <= r[i].factor <= 100.0
  {
    SpeedCalls(speed) + [SetPosition(p.x, p.y, p.z)]
  }

  /** The device calls `move_to_joints` issues: only the first three joints
      reach the servos. */
  function JointCalls(j: JointAngles, speed: Option<real>): (r: seq<DeviceCall>)
    ensures |r| >= 3 && r[|r| - 3..] == [SetServoAngle(0, j.j1), SetServoAngle(1, j.j2), SetServoAngle(2, j.j3)]
    ensures forall i :: 0 <= i < |r| && r[i].SetSpeedFactor? ==> 1.0 <= r[i].factor <= 100.0
  {
    SpeedCalls(speed) + [SetServoAngle(0, j.j1), SetServoAngle(1, j.j2), SetServoAngle(2, j.j3)]
  }

  /** `move_to_position`; `fault` is the exception one of `MoveCalls` raised. */
  function MoveToPosition(u: Uarm, p: Position, fault: Option<string>, rb: Readback): (r: UStep)
    ensures !IsConnected(u) ==> r == UStep(u, false)
    ensures IsConnected(u) ==> (r.ok <==> fault.None?)
    ensures IsConnected(u) && fault.Some? ==> r.arm == Failed(u, "移动失败: " + fault.value)
    ensures r.ok ==> r.arm.status == Idle && !r.arm.isMoving && r.arm.errors == u.errors && IsConnected(r.arm)
    ensures r.ok ==> r.arm == Refresh(u.(isMoving := false, status := Idle), rb)
  {
    if !IsConnected(u) then UStep(u, false)
    else if fault.Some? then UStep(Failed(u, "移动失败: " + fault.value), false)
    else UStep(Refresh(u.(isMoving := false, status := Idle), rb), true)
  }

  /** `move_to_joints`; `fault` is the exception one of `JointCalls` raised. */
  function MoveToJoints(u: Uarm, j: JointAngles, fault: Option<string>, rb: Readback): (r: UStep)
    ensures !IsConnected(u) ==> r == UStep(u, false)
    ensures IsConnected(u) ==> (r.ok <==> fault.None?)
    ensures IsConnected(u) && fault.Some? ==> r.arm == Failed(u, "关节移动失败: " + fault.value)
    ensures r.ok ==> r.arm.status == Idle && !r.arm.isMoving && r.arm.errors == u.errors && IsConnected(r.arm)
  {
    if !IsConnected(u) then UStep(u, false)
    else if fault.Some? then UStep(Failed(u, "关节移动失败: " + fault.value), false)
    else UStep(Refresh(u.(isMoving := false, status := Idle), rb), true)
  }

  /** What the pump does during `grab_object`: switching it on or reading its
      status raises (with the exception's text), or the status code is read
      and, when it is not the holding code, switching the pump off may raise. */
  datatype GrabReply = PumpFault(e: string) | PumpStatus(code: int, offFault: Option<string>)

  function Grab(u: Uarm, reply: GrabReply): (r: UStep)
    ensures !IsConnected(u) ==> r == UStep(u, false)
    ensures IsConnected(u) ==> (r.ok <==> reply.PumpStatus? && reply.code == PumpHolding)
    ensures r.ok ==> r.arm.hasObject && r.arm.status == Idle
    ensures IsConnected(u) && reply.PumpStatus? && reply.code != PumpHolding && reply.offFault.None? ==>
              r.arm == u.(status := Idle)
    ensures IsConnected(u) && reply.PumpFault? ==>
              r.arm == u.(status := Error, errors := u.errors + ["抓取失败: " + reply.e])
    ensures IsConnected(u) && reply.PumpStatus? && reply.code != PumpHolding && reply.offFault.Some? ==>
              r.arm == u.(status := Error, errors := u.errors + ["抓取失败: " + reply.offFault.value])
    ensures !r.ok ==> r.arm.hasObject == u.hasObject
  {
    if !IsConnected(u) then UStep(u, false)
    else match reply
      case PumpFault(e) => UStep(u.(status := Error, errors := u.errors + ["抓取失败: " + e]), false)
      case PumpStatus(code, offFault) =>
        if code == PumpHolding then UStep(u.(hasObject := true, status := Idle), true)
        else if offFault.Some? then UStep(u.(status := Error, errors := u.errors + ["抓取失败: " + offFault.value]), false)
        else UStep(u.(status := Idle), false)
  }

  /** `release_object`: unlike the simulated driver it does not require an
      object to be held. */
  function Release(u: Uarm, fault: Option<string>): (r: UStep)
    ensures !IsConnected(u) ==> r == UStep(u, false)
    ensures IsConnected(u) ==> (r.ok <==> fault.None?)
    ensures r.ok ==> !r.arm.hasObject && r.arm.status == Idle && r.arm.errors == u.errors
    ensures IsConnected(u) && fault.Some? ==> r.arm == u.(status := Error, errors := u.errors + ["释放失败: " + fault.value])
    ensures r.arm.position == u.position && IsConnected(r.arm) == IsConnected(u)
  {
    if !IsConnected(u) then UStep(u, false)
    else if fault.Some? then UStep(u.(status := Error, errors := u.errors + ["释放失败: " + fault.value]), false)
    else UStep(u.(hasObject := false, status := Idle), true)
  }

  /** `sort_garbage`: move to the type's bin and release there; nothing is
      picked up first. */
  function SortGarbage(u: Uarm, garbageType: string, moveFault: Option<string>, rb: Readback,
                       releaseFault: Option<string>): (r: UStep)
    ensures !IsConnected(u) || BinTarget(garbageType).None? ==> r == UStep(u, false)
    ensures r.ok <==> IsConnected(u) && BinTarget(garbageType).Some? && moveFault.None? && releaseFault.None?
    ensures r.ok ==> !r.arm.hasObject && r.arm.status == Idle && r.arm.errors == u.errors
    ensures IsConnected(u) && BinTarget(garbageType).Some? && moveFault.Some? ==>
              r.arm == Failed(u, "移动失败: " + moveFault.value)
    ensures IsConnected(u) && BinTarget(garbageType).Some? && moveFault.None? && releaseFault.Some? ==>
              r.arm.status == Error && r.arm.errors == u.errors + ["释放失败: " + releaseFault.value]
  {
    if !IsConnected(u) then UStep(u, false)
    else match BinTarget(garbageType)
      case None => UStep(u, false)
      case Some(target) =>
        var moved := MoveToPosition(u, target, moveFault, rb);
        if !moved.ok then moved
        else Release(moved.arm, releaseFault)
  }

  function GetConfiguration(u: Uarm): (r: ArmConfiguration)
    ensures r.maxReach == 350.0 && r.maxPayload == 0.5 && r.degreesOfFreedom == 3
    ensures r.maxSpeed == 100.0 && r.acceleration == 50.0 && r.precision == 1.0
  {
    ArmConfiguration(350.0, 0.5, 3, 100.0, 50.0, 1.0)
  }

  /** Every motion, grip and sort command answers false and changes nothing
      while the driver is not connected, even with the flag set. */
  lemma NotConnectedRejects(u: Uarm, p: Position, j: JointAngles, f: Option<string>, rb: Readback, g: GrabReply,
                            t: string)
    requires !IsConnected(u)
    ensures Home(u, f, rb) == UStep(u, false) && MoveToPosition(u, p, f, rb) == UStep(u, false)
    ensures MoveToJoints(u, j, f, rb) == UStep(u, false) && Grab(u, g) == UStep(u, false)
    ensures Release(u, f) == UStep(u, false) && SortGarbage(u, t, f, rb, f) == UStep(u, false)
  {
  }
}

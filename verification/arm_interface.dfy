/** The driver contract every robot arm implements: the status enum, the
    position and joint value types with their dict/list forms, the default
    parameter records and the behaviours a driver inherits unless it
    overrides them. */
module ArmInterface {
  import opened Wrappers

  datatype ArmStatus = Idle | Moving | Grabbing | Releasing | Error | Homing | Disconnected

  /** The string value of each status member, as reported by `get_status`. */
  function StatusValue(s: ArmStatus): string
  {
    match s
    case Idle => "idle"
    case Moving => "moving"
    case Grabbing => "grabbing"
    case Releasing => "releasing"
    case Error => "error"
    case Homing => "homing"
    case Disconnected => "disconnected"
  }

  /** Distinct statuses report distinct values. */
  lemma StatusValueInjective(s: ArmStatus, t: ArmStatus)
    ensures StatusValue(s) == StatusValue(t) ==> s == t
  {
  }

  datatype Position = Position(x: real, y: real, z: real)

  /** A Python dict with float values, keyed by field name. */
  type FloatDict = map<string, real>

  /** `Position.to_dict`. */
  function PositionToDict(p: Position): (d: FloatDict)
    ensures d.Keys == {"x", "y", "z"}
  {
    map["x" := p.x, "y" := p.y, "z" := p.z]
  }

  /** `Position.from_dict`: reading a missing key raises KeyError. */
  function PositionFromDict(d: FloatDict): (r: Result<Position>)
    ensures r.Success? <==> "x" in d && "y" in d && "z" in d
    ensures r.Success? ==> r.value.x == d["x"] && r.value.y == d["y"] && r.value.z == d["z"]
  {
    if "x" in d && "y" in d && "z" in d then Success(Position(d["x"], d["y"], d["z"]))
    else Failure("KeyError")
  }

  /** Reading back the dict form of a position gives the position. */
  lemma PositionDictRoundTrip(p: Position)
    ensures PositionFromDict(PositionToDict(p)) == Success(p)
  {
  }

  /** A dict that reads back as a position holds that position's dict form
      under the three keys. */
  lemma PositionDictReadBack(d: FloatDict)
    requires PositionFromDict(d).Success?
    ensures forall k :: k in PositionToDict(PositionFromDict(d).value) ==> k in d && d[k] == PositionToDict(PositionFromDict(d).value)[k]
  {
  }

  datatype JointAngles = JointAngles(j1: real, j2: real, j3: real, j4: real, j5: real, j6: real)

  const ZeroJoints := JointAngles(0.0, 0.0, 0.0, 0.0, 0.0, 0.0)

  /** `JointAngles.to_list`. */
  function JointsToList(j: JointAngles): (r: seq<real>)
    ensures |r| == 6
  {
    [j.j1, j.j2, j.j3, j.j4, j.j5, j.j6]
  }

  /** `JointAngles.from_list`: any length other than six raises ValueError. */
  function JointsFromList(angles: seq<real>): (r: Result<JointAngles>)
    ensures r.Success? <==> |angles| == 6
    ensures r.Success? ==> JointsToList(r.value) == angles
  {
    if |angles| != 6 then Failure("ValueError")
    else Success(JointAngles(angles[0], angles[1], angles[2], angles[3], angles[4], angles[5]))
  }

  lemma JointsListRoundTrip(j: JointAngles)
    ensures JointsFromList(JointsToList(j)) == Success(j)
  {
  }

  datatype GrabParameters = GrabParameters(force: real, speed: real, positionTolerance: real, timeout: real)

  const DefaultGrabParameters := GrabParameters(50.0, 50.0, 2.0, 5.0)

  datatype ArmConfiguration = ArmConfiguration(
    maxReach: real, maxPayload: real, degreesOfFreedom: int,
    maxSpeed: real, acceleration: real, precision: real)

  const DefaultConfiguration := ArmConfiguration(800.0, 5.0, 6, 100.0, 50.0, 0.1)

  /** The connection bookkeeping every driver starts from. */
  datatype Base = Base(connected: bool, status: ArmStatus)

  /** `RobotArmInterface.__init__`. */
  function NewBase(): (b: Base)
    ensures !b.connected && b.status == Disconnected
  {
    Base(false, Disconnected)
  }

  /** The inherited `set_speed`: only the accepted range is checked; nothing
      is stored. */
  function SetSpeed(speed: real): (ok: bool)
    ensures ok ==> 0.0 <= speed <= 100.0
    ensures !ok ==> speed < 0.0 || speed > 100.0
  {
    0.0 <= speed && speed <= 100.0
  }

  /** The inherited `calibrate`, `set_acceleration`, tool, safety and
      recording hooks all report success without acting. */
  function DefaultHook(): (ok: bool)
    ensures ok
  {
    true
  }

  /** A driver's `move_to_position(position, speed)` as a transition on its
      state. */
  type Mover<!S> = (S, Position, Option<real>) -> (S, bool)

  /** The inherited `move_linear`: exactly the driver's own move, at the
      same speed. */
  function MoveLinear<S>(move: Mover<S>, s: S, target: Position, speed: Option<real>): (r: (S, bool))
  {
    move(s, target, speed)
  }

  /** The inherited `move_circular`: the via point first, and the target only
      once the via move succeeded, both at the same speed. */
  function MoveCircular<S>(move: Mover<S>, s: S, via: Position, target: Position, speed: Option<real>): (r: (S, bool))
  {
    var (s1, ok1) := move(s, via, speed);
    if !ok1 then (s1, false) else move(s1, target, speed)
  }
}

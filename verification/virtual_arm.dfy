/** The simulated driver `VirtualRobotArm`: every command is a guard on the
    connection (and sometimes the status or the holding flag) followed by an
    update of the pose, the status and the statistics. Commands are pure
    transitions from one arm state to the next; the grab's random draw is a
    parameter. */
module VirtualArm {
  import opened Wrappers
  import opened PySemantics
  import opened ArmInterface

  datatype GarbageBin = GarbageBin(key: string, id: nat, name: string, binPosition: Position, color: string)

  /** The nine bins in their dict insertion order. */
  const Bins: seq<GarbageBin> := [
    GarbageBin("plastic", 1, "塑料垃圾桶", Position(600.0, 200.0, 50.0), "#3B82F6"),
    GarbageBin("banana", 2, "厨余垃圾桶", Position(600.0, 100.0, 50.0), "#EAB308"),
    GarbageBin("beverages", 3, "饮料瓶回收桶", Position(600.0, 0.0, 50.0), "#10B981"),
    GarbageBin("cardboard_box", 4, "纸盒回收桶", Position(600.0, -100.0, 50.0), "#F59E0B"),
    GarbageBin("chips", 5, "零食垃圾桶", Position(600.0, -200.0, 50.0), "#EF4444"),
    GarbageBin("fish_bones", 6, "厨余垃圾桶2", Position(500.0, 200.0, 50.0), "#8B5CF6"),
    GarbageBin("instant_noodles", 7, "包装垃圾桶", Position(500.0, 100.0, 50.0), "#F97316"),
    GarbageBin("milk_box_type1", 8, "纸盒回收桶1", Position(500.0, 0.0, 50.0), "#06B6D4"),
    GarbageBin("milk_box_type2", 9, "纸盒回收桶2", Position(500.0, -100.0, 50.0), "#84CC16")
  ]

  const HomePosition := Position(0.0, 0.0, 200.0)
  const PickupPosition := Position(400.0, 0.0, 100.0)
  /** `self.move_speed`: set once by the constructor and never reassigned,
      so it is a constant of the driver rather than a field of its state. */
  const DefaultMoveSpeed := 50.0
  const DefaultGrabForce := 50.0
  /** A grab succeeds when `random.random()` falls below this rate. */
  const GrabSuccessRate := 0.9

  function FindBin(key: string, from: nat): (r: Option<nat>)
    requires from <= |Bins|
    ensures r.Some? ==> from <= r.value < |Bins| && Bins[r.value].key == key
    ensures r.None? ==> forall i :: from <= i < |Bins| ==> Bins[i].key != key
    decreases |Bins| - from
  {
    if from == |Bins| then None
    else if Bins[from].key == key then Some(from)
    else FindBin(key, from + 1)
  }

  /** `garbage_type in self.garbage_bins`, giving the bin's position in the
      table. */
  function BinIndex(key: string): (r: Option<nat>)
    ensures r.Some? ==> r.value < |Bins| && Bins[r.value].key == key
    ensures r.None? <==> forall i :: 0 <= i < |Bins| ==> Bins[i].key != key
  {
    FindBin(key, 0)
  }

  /** The bin keys are distinct, so a key names at most one bin. */
  lemma BinKeysDistinct(i: nat, j: nat)
    requires i < |Bins| && j < |Bins| && i != j
    ensures Bins[i].key != Bins[j].key
  {
  }

  /** Per-bin sorted counts, aligned with `Bins`. */
  type BinCounts = s: seq<nat> | |s| == 9 witness [0, 0, 0, 0, 0, 0, 0, 0, 0]

  datatype Statistics = Statistics(
    totalOperations: nat, successfulOperations: nat, failedOperations: nat,
    grabCount: nat, releaseCount: nat, movementCount: nat,
    garbageSorted: BinCounts)

  /** One entry of the operation history (the time stamp is left out). */
  datatype Operation = Operation(garbageType: string, status: string, binPosition: Position)

  datatype Arm = Arm(
    connected: bool, status: ArmStatus,
    position: Position, joints: JointAngles,
    hasObject: bool, isMoving: bool, grabForce: real,
    statistics: Statistics, history: seq<Operation>, errors: seq<string>)

  /** The arm after a command, and the command's boolean answer. */
  datatype Step = Step(arm: Arm, ok: bool)

  function Sum(xs: seq<nat>): nat
  {
    if xs == [] then 0 else xs[0] + Sum(xs[1..])
  }

  lemma {:induction false} SumIncrement(xs: seq<nat>, i: nat)
    requires i < |xs|
    ensures Sum(xs[i := xs[i] + 1]) == Sum(xs) + 1
  {
    if i > 0 {
      assert xs[i := xs[i] + 1][1..] == xs[1..][i - 1 := xs[i] + 1];
      SumIncrement(xs[1..], i - 1);
    }
  }

  lemma {:induction false} SumZero(n: nat)
    ensures Sum(seq(n, _ => 0)) == 0
  {
    if n > 0 {
      assert seq(n, _ => 0)[1..] == seq(n - 1, _ => 0);
      SumZero(n - 1);
    }
  }

  /** How many history entries record the given garbage type. */
  function CountType(h: seq<Operation>, key: string): nat
  {
    if h == [] then 0
    else (if h[|h| - 1].garbageType == key then 1 else 0) + CountType(h[..|h| - 1], key)
  }

  function ZeroStatistics(): (s: Statistics)
    ensures s.totalOperations == 0 && s.successfulOperations == 0 && s.failedOperations == 0
    ensures s.grabCount == 0 && s.releaseCount == 0 && s.movementCount == 0
    ensures forall i :: 0 <= i < 9 ==> s.garbageSorted[i] == 0
    ensures Sum(s.garbageSorted) == 0
  {
    SumZero(9);
    Statistics(0, 0, 0, 0, 0, 0, seq(9, _ => 0))
  }

  /** The statistics invariants: every operation is either successful or
      failed, the per-bin counts add up to the successes and each counts its
      own history entries, and every operation has one history entry naming a
      bin and its position. */
  predicate Valid(a: Arm)
  {
    var st := a.statistics;
    && st.totalOperations == st.successfulOperations + st.failedOperations
    && Sum(st.garbageSorted) == st.successfulOperations
    && |a.history| == st.totalOperations
    && (forall i :: 0 <= i < 9 ==> st.garbageSorted[i] == CountType(a.history, Bins[i].key))
    && (forall i :: 0 <= i < |a.history| ==> BinIndex(a.history[i].garbageType).Some?)
  }

  /** `VirtualRobotArm.__init__`. */
  function NewArm(): (a: Arm)
    ensures !a.connected && a.status == Disconnected
    ensures a.position == HomePosition && a.joints == ZeroJoints
    ensures !a.hasObject && a.history == [] && a.errors == []
    ensures Valid(a)
  {
    Arm(NewBase().connected, NewBase().status, HomePosition, ZeroJoints, false, false,
        DefaultGrabForce, ZeroStatistics(), [], [])
  }

  /** Pose, holding flag and the recorded statistics are the same. */
  predicate SameWork(a: Arm, b: Arm)
  {
    a.position == b.position && a.joints == b.joints && a.hasObject == b.hasObject
    && a.statistics == b.statistics && a.history == b.history
  }

  function Connect(a: Arm): (r: Step)
    ensures r.ok && r.arm.connected && r.arm.status == Idle && r.arm.errors == []
    ensures SameWork(a, r.arm) && r.arm.isMoving == a.isMoving
    ensures Valid(a) ==> Valid(r.arm)
  {
    Step(a.(connected := true, status := Idle, errors := []), true)
  }

  /** Connecting twice is the same as connecting once. */
  lemma ConnectIdempotent(a: Arm)
    ensures Connect(Connect(a).arm) == Connect(a)
  {
  }

  function EmergencyStop(a: Arm): (r: Step)
    ensures r.ok && !r.arm.isMoving && r.arm.status == Idle
    ensures SameWork(a, r.arm) && r.arm.connected == a.connected && r.arm.errors == a.errors
    ensures Valid(a) ==> Valid(r.arm)
  {
    Step(a.(isMoving := false, status := Idle), true)
  }

  function Disconnect(a: Arm): (r: Step)
    ensures r.ok && !r.arm.connected && r.arm.status == Disconnected && !r.arm.isMoving
    ensures SameWork(a, r.arm) && r.arm.errors == a.errors
    ensures Valid(a) ==> Valid(r.arm)
  {
    var stopped := if a.isMoving then EmergencyStop(a).arm else a;
    Step(stopped.(connected := false, status := Disconnected), true)
  }

  function ResetErrors(a: Arm): (r: Step)
    ensures r.ok && r.arm.errors == []
    ensures r.arm.status == (if a.status == Error then Idle else a.status)
    ensures SameWork(a, r.arm) && r.arm.connected == a.connected
    ensures Valid(a) ==> Valid(r.arm)
  {
    var cleared := a.(errors := []);
    Step(if a.status == Error then cleared.(status := Idle) else cleared, true)
  }

  function Home(a: Arm): (r: Step)
    ensures !a.connected ==> r == Step(a, false)
    ensures a.connected ==> r.ok && r.arm.position == HomePosition && r.arm.joints == ZeroJoints
    ensures a.connected ==> r.arm.status == Idle && !r.arm.isMoving
    ensures a.connected ==> r.arm.statistics == a.statistics.(movementCount := a.statistics.movementCount + 1)
    ensures r.arm.hasObject == a.hasObject && r.arm.history == a.history && r.arm.connected == a.connected
    ensures Valid(a) ==> Valid(r.arm)
  {
    if !a.connected then Step(a, false)
    else
      var st := a.statistics;
      Step(a.(position := HomePosition, joints := ZeroJoints, isMoving := false, status := Idle,
              statistics := st.(movementCount := st.movementCount + 1)), true)
  }

  /** `_simulate_movement(target, speed)` raises: `distance / (speed * 10)`
      is a ZeroDivisionError at speed 0, and `time.sleep` refuses the
      negative duration a negative speed gives over a positive distance.
      The Euclidean distance is positive exactly between different points. */
  predicate MovementRaises(from: Position, to: Position, speed: real)
  {
    speed == 0.0 || (speed < 0.0 && from != to)
  }

  /** The message `move_to_position` records for the exception. */
  function MoveFailure(speed: real): (m: string)
  {
    if speed == 0.0 then "移动失败: float division by zero"
    else "移动失败: sleep length must be non-negative"
  }

  /** `move_to_position(position, speed)`; a missing speed means the
      driver's default speed. A simulated movement that raises leaves the
      arm where it was, in ERROR, with one more error message. */
  function MoveToPosition(a: Arm, target: Position, speed: Option<real>): (r: Step)
    ensures !a.connected || a.status == Error ==> r == Step(a, false)
    ensures a.connected && a.status != Error ==>
              (r.ok <==> !MovementRaises(a.position, target, speed.GetOr(DefaultMoveSpeed)))
    ensures r.ok ==> r.arm.position == target && r.arm.status == Idle && !r.arm.isMoving
    ensures r.ok ==> r.arm.statistics == a.statistics.(movementCount := a.statistics.movementCount + 1)
    ensures r.ok ==> r.arm.errors == a.errors
    ensures a.connected && a.status != Error && !r.ok ==>
              && r.arm.status == Error && !r.arm.isMoving && r.arm.position == a.position
              && r.arm.statistics == a.statistics
              && r.arm.errors == a.errors + [MoveFailure(speed.GetOr(DefaultMoveSpeed))]
    ensures r.arm.joints == a.joints && r.arm.hasObject == a.hasObject
    ensures r.arm.history == a.history && r.arm.connected == a.connected
    ensures Valid(a) ==> Valid(r.arm)
  {
    if !a.connected || a.status == Error then Step(a, false)
    else
      var v := speed.GetOr(DefaultMoveSpeed);
      if MovementRaises(a.position, target, v) then
        Step(a.(isMoving := false, status := Error, errors := a.errors + [MoveFailure(v)]), false)
      else
        var st := a.statistics;
        Step(a.(position := target, isMoving := false, status := Idle,
                statistics := st.(movementCount := st.movementCount + 1)), true)
  }

  /** Speed 0 always fails, even for a move to the current position; a
      negative speed fails exactly when the arm has somewhere to go; the
      default speed never fails. */
  lemma MoveSpeedOutcomes(a: Arm, target: Position, speed: real)
    requires a.connected && a.status != Error
    ensures speed == 0.0 ==> !MoveToPosition(a, target, Some(speed)).ok
    ensures speed < 0.0 ==> (MoveToPosition(a, target, Some(speed)).ok <==> target == a.position)
    ensures speed > 0.0 ==> MoveToPosition(a, target, Some(speed)).ok
    ensures MoveToPosition(a, target, None).ok
  {
  }

  /** `_forward_kinematics`: a linear stand-in for the real kinematics. */
  function ForwardKinematics(j: JointAngles): (p: Position)
    ensures p.x == 100.0 + 400.0 * j.j1 / 90.0
    ensures p.y == 300.0 * j.j2 / 90.0
    ensures p.z == 200.0 + 150.0 * j.j3 / 90.0
  {
    Position(400.0 * (j.j1 / 90.0) + 100.0, 300.0 * (j.j2 / 90.0), 200.0 + 150.0 * (j.j3 / 90.0))
  }

  /** The zero pose of the joints lies at (100, 0, 200), not at the home
      position (0, 0, 200) that `home` assigns together with zero joints. */
  lemma ForwardKinematicsOfZero()
    ensures ForwardKinematics(ZeroJoints) == Position(100.0, 0.0, 200.0)
    ensures ForwardKinematics(ZeroJoints) != HomePosition
  {
  }

  /** `move_to_joints`: no status check, unlike `move_to_position`. */
  function MoveToJoints(a: Arm, angles: JointAngles): (r: Step)
    ensures !a.connected ==> r == Step(a, false)
    ensures a.connected ==> r.ok && r.arm.joints == angles && r.arm.position == ForwardKinematics(angles)
    ensures r.ok ==> r.arm.status == Idle && !r.arm.isMoving
    ensures r.ok ==> r.arm.statistics == a.statistics.(movementCount := a.statistics.movementCount + 1)
    ensures r.arm.hasObject == a.hasObject && r.arm.history == a.history && r.arm.connected == a.connected
    ensures Valid(a) ==> Valid(r.arm)
  {
    if !a.connected then Step(a, false)
    else
      var st := a.statistics;
      Step(a.(joints := angles, position := ForwardKinematics(angles), isMoving := false, status := Idle,
              statistics := st.(movementCount := st.movementCount + 1)), true)
  }

  function GetCurrentPosition(a: Arm): (r: Option<Position>)
    ensures r.Some? <==> a.connected
    ensures r.Some? ==> r.value == a.position
  {
    if a.connected then Some(a.position) else None
  }

  function GetCurrentJoints(a: Arm): (r: Option<JointAngles>)
    ensures r.Some? <==> a.connected
    ensures r.Some? ==> r.value == a.joints
  {
    if a.connected then Some(a.joints) else None
  }

  /** `grab_object`. `draw` is the value of `random.random()`; a missing
      parameter record means the defaults. */
  function Grab(a: Arm, params: Option<GrabParameters>, draw: real): (r: Step)
    ensures !a.connected || a.hasObject ==> r == Step(a, false)
    ensures a.connected && !a.hasObject ==> r.arm.status == Idle && (r.ok <==> draw < GrabSuccessRate)
    ensures r.ok ==> r.arm.hasObject && r.arm.grabForce == params.GetOr(DefaultGrabParameters).force
    ensures r.ok ==> r.arm.statistics == a.statistics.(grabCount := a.statistics.grabCount + 1)
    ensures !r.ok ==> r.arm.hasObject == a.hasObject && r.arm.statistics == a.statistics
    ensures r.arm.position == a.position && r.arm.joints == a.joints
    ensures r.arm.history == a.history && r.arm.connected == a.connected
    ensures Valid(a) ==> Valid(r.arm)
  {
    if !a.connected || a.hasObject then Step(a, false)
    else
      var force := params.GetOr(DefaultGrabParameters).force;
      if draw < GrabSuccessRate then
        var st := a.statistics;
        Step(a.(hasObject := true, grabForce := force, status := Idle,
                statistics := st.(grabCount := st.grabCount + 1)), true)
      else Step(a.(status := Idle), false)
  }

  function Release(a: Arm): (r: Step)
    ensures !a.connected || !a.hasObject ==> r == Step(a, false)
    ensures a.connected && a.hasObject ==> r.ok && !r.arm.hasObject && r.arm.status == Idle
    ensures r.ok ==> r.arm.statistics == a.statistics.(releaseCount := a.statistics.releaseCount + 1)
    ensures r.arm.position == a.position && r.arm.joints == a.joints
    ensures r.arm.history == a.history && r.arm.connected == a.connected
    ensures Valid(a) ==> Valid(r.arm)
  {
    if !a.connected || !a.hasObject then Step(a, false)
    else
      var st := a.statistics;
      Step(a.(hasObject := false, status := Idle,
              statistics := st.(releaseCount := st.releaseCount + 1)), true)
  }

  function IsHoldingObject(a: Arm): (r: bool)
  {
    a.hasObject
  }

  /** The five steps of a sort, stopping at the first one that answers
      false. */
  function SortSequence(a: Arm, bin: GarbageBin, draw: real): (r: Step)
    ensures a.connected && a.status != Error ==> (r.ok <==> !a.hasObject && draw < GrabSuccessRate)
    ensures a.connected && a.status != Error ==> r.arm.status == Idle
    ensures r.ok ==> r.arm.position == HomePosition && r.arm.joints == ZeroJoints && !r.arm.hasObject
    ensures r.ok ==> var st := a.statistics;
                     r.arm.statistics == st.(grabCount := st.grabCount + 1,
                                             releaseCount := st.releaseCount + 1,
                                             movementCount := st.movementCount + 3)
    ensures SameRecords(a, r.arm) && r.arm.connected == a.connected
  {
    var s1 := MoveToPosition(a, PickupPosition, None);
    if !s1.ok then s1 else
    var s2 := Grab(s1.arm, None, draw);
    if !s2.ok then s2 else
    CarryToBin(s2.arm, bin)
  }

  /** The steps after a successful grab: to the bin, release, home. */
  function CarryToBin(a: Arm, bin: GarbageBin): (r: Step)
    ensures a.connected && a.status != Error && a.hasObject ==> r.ok
    ensures r.ok ==> r.arm.position == HomePosition && r.arm.joints == ZeroJoints && !r.arm.hasObject
                     && r.arm.status == Idle
    ensures r.ok ==> var st := a.statistics;
                     r.arm.statistics == st.(releaseCount := st.releaseCount + 1,
                                             movementCount := st.movementCount + 2)
    ensures SameRecords(a, r.arm) && r.arm.connected == a.connected
  {
    var s3 := MoveToPosition(a, bin.binPosition, None);
    if !s3.ok then s3 else
    var s4 := Release(s3.arm);
    if !s4.ok then s4 else
    Home(s4.arm)
  }

  /** The operation counters, per-bin counts and history are the same. */
  predicate SameRecords(a: Arm, b: Arm)
  {
    && a.history == b.history
    && a.statistics.totalOperations == b.statistics.totalOperations
    && a.statistics.successfulOperations == b.statistics.successfulOperations
    && a.statistics.failedOperations == b.statistics.failedOperations
    && a.statistics.garbageSorted == b.statistics.garbageSorted
  }

  /** The `finally` clause: any status other than IDLE or ERROR becomes IDLE. */
  function Settle(a: Arm): (r: Arm)
    ensures r.status == (if a.status == Error then Error else Idle)
    ensures r == a.(status := r.status)
  {
    if a.status == Idle || a.status == Error then a else a.(status := Idle)
  }

  /** The bookkeeping of a successful sort. */
  function RecordSuccess(a: Arm, b: nat): (r: Arm)
    requires b < 9
    ensures var st := a.statistics;
            r.statistics == st.(totalOperations := st.totalOperations + 1,
                                successfulOperations := st.successfulOperations + 1,
                                garbageSorted := st.garbageSorted[b := st.garbageSorted[b] + 1])
    ensures r.history == a.history + [Operation(Bins[b].key, "success", Bins[b].binPosition)]
    ensures r == a.(statistics := r.statistics, history := r.history)
  {
    var st := a.statistics;
    a.(statistics := st.(totalOperations := st.totalOperations + 1,
                         successfulOperations := st.successfulOperations + 1,
                         garbageSorted := st.garbageSorted[b := st.garbageSorted[b] + 1]),
       history := a.history + [Operation(Bins[b].key, "success", Bins[b].binPosition)])
  }

  lemma {:induction false} CountTypeAppend(h: seq<Operation>, op: Operation, key: string)
    ensures CountType(h + [op], key) == CountType(h, key) + (if op.garbageType == key then 1 else 0)
  {
    assert (h + [op])[..|h + [op]| - 1] == h;
  }

  lemma RecordSuccessValid(a: Arm, b: nat)
    requires b < 9 && Valid(a)
    ensures Valid(RecordSuccess(a, b))
  {
    SumIncrement(a.statistics.garbageSorted, b);
    RecordSuccessCounts(a, b);
    assert BinIndex(Bins[b].key).Some?;
    AppendKnownType(a.history, Operation(Bins[b].key, "success", Bins[b].binPosition));
  }

  /** After a recorded success every per-bin counter still counts its
      type in the history. */
  lemma RecordSuccessCounts(a: Arm, b: nat)
    requires b < 9 && Valid(a)
    ensures var r := RecordSuccess(a, b);
            forall i | 0 <= i < 9 :: r.statistics.garbageSorted[i] == CountType(r.history, Bins[i].key)
  {
    var r := RecordSuccess(a, b);
    forall i | 0 <= i < 9
      ensures r.statistics.garbageSorted[i] == CountType(r.history, Bins[i].key)
    {
      CountTypeAppend(a.history, Operation(Bins[b].key, "success", Bins[b].binPosition), Bins[i].key);
      if i != b { BinKeysDistinct(i, b); }
    }
  }

  /** Appending an operation of a known type keeps every type known. */
  lemma AppendKnownType(h: seq<Operation>, op: Operation)
    requires forall i :: 0 <= i < |h| ==> BinIndex(h[i].garbageType).Some?
    requires BinIndex(op.garbageType).Some?
    ensures forall i :: 0 <= i < |h + [op]| ==> BinIndex((h + [op])[i].garbageType).Some?
  {
    forall i | 0 <= i < |h + [op]|
      ensures BinIndex((h + [op])[i].garbageType).Some?
    {
      if i < |h| { assert (h + [op])[i] == h[i]; }
    }
  }

  /** The composite `sort_garbage`: move to the pickup point, grab, move to
      the bin, release, go home; any step answering false ends the sort with
      false. */
  function SortGarbage(a: Arm, garbageType: string, draw: real): (r: Step)
    ensures !a.connected || BinIndex(garbageType).None? || a.status != Idle ==> r == Step(a, false)
    ensures r.ok <==> a.connected && BinIndex(garbageType).Some? && a.status == Idle
                      && !a.hasObject && draw < GrabSuccessRate
    ensures r.ok ==> r.arm.position == HomePosition && r.arm.joints == ZeroJoints
                     && !r.arm.hasObject && r.arm.status == Idle
    ensures !r.ok ==> SameRecords(a, r.arm)
    ensures a.connected && BinIndex(garbageType).Some? && a.status == Idle ==> r.arm.status == Idle
    ensures r.arm.connected == a.connected
    ensures Valid(a) ==> Valid(r.arm)
  {
    if !a.connected then Step(a, false)
    else match BinIndex(garbageType)
      case None => Step(a, false)
      case Some(b) =>
        if a.status != Idle then Step(a, false)
        else
          SortFromIdle(a, b, draw)
  }

  /** A successful sort counts one more operation, success, grab, release
      and three movements, credits the bin of its type, and appends a
      success entry naming that bin's position to the history. */
  lemma SortGarbageRecords(a: Arm, garbageType: string, b: nat, draw: real)
    requires BinIndex(garbageType) == Some(b)
    ensures var r := SortGarbage(a, garbageType, draw);
            r.ok ==> var st := a.statistics;
                     && r.arm.statistics == st.(totalOperations := st.totalOperations + 1,
                                                successfulOperations := st.successfulOperations + 1,
                                                grabCount := st.grabCount + 1,
                                                releaseCount := st.releaseCount + 1,
                                                movementCount := st.movementCount + 3,
                                                garbageSorted := st.garbageSorted[b := st.garbageSorted[b] + 1])
                     && r.arm.history == a.history + [Operation(garbageType, "success", Bins[b].binPosition)]
  {
    var r := SortGarbage(a, garbageType, draw);
    if r.ok {
      var s := SortFromIdle(a, b, draw);
      assert r == s;
    }
  }

  /** A sort that passed the three guards. */
  function SortFromIdle(a: Arm, b: nat, draw: real): (r: Step)
    requires a.connected && a.status == Idle && b < 9
    ensures r.ok <==> !a.hasObject && draw < GrabSuccessRate
    ensures r.arm.status == Idle && r.arm.connected
    ensures r.ok ==> r.arm.position == HomePosition && r.arm.joints == ZeroJoints && !r.arm.hasObject
    ensures r.ok ==> var st := a.statistics;
                     r.arm.statistics == st.(totalOperations := st.totalOperations + 1,
                                             successfulOperations := st.successfulOperations + 1,
                                             grabCount := st.grabCount + 1,
                                             releaseCount := st.releaseCount + 1,
                                             movementCount := st.movementCount + 3,
                                             garbageSorted := st.garbageSorted[b := st.garbageSorted[b] + 1])
    ensures r.ok ==> r.arm.history == a.history + [Operation(Bins[b].key, "success", Bins[b].binPosition)]
    ensures !r.ok ==> SameRecords(a, r.arm)
    ensures Valid(a) ==> Valid(r.arm)
  {
    var inner := SortSequence(a.(status := Grabbing), Bins[b], draw);
    if inner.ok then
      RecordSuccessValidIf(inner.arm, b);
      Step(Settle(RecordSuccess(inner.arm, b)), true)
    else Step(Settle(inner.arm), false)
  }

  lemma RecordSuccessValidIf(a: Arm, b: nat)
    requires b < 9
    ensures Valid(a) ==> Valid(RecordSuccess(a, b))
  {
    if Valid(a) { RecordSuccessValid(a, b); }
  }

  function GetStatistics(a: Arm): (r: Statistics)
  {
    a.statistics
  }

  /** `get_operation_history(limit)`: the last `limit` entries, or every
      entry when `limit` is not positive. */
  function GetOperationHistory(a: Arm, limit: int): (r: seq<Operation>)
    ensures limit <= 0 ==> r == a.history
    ensures limit > 0 ==> |r| == (if limit < |a.history| then limit else |a.history|)
    ensures limit > 0 ==> r == a.history[|a.history| - |r|..]
  {
    LastOrAll(a.history, limit)
  }

  /** `reset_statistics`: every counter and every per-bin count back to 0,
      the history emptied, and nothing else touched. */
  function ResetStatistics(a: Arm): (r: Step)
    ensures r.ok && Valid(r.arm) && r.arm.history == []
    ensures r.arm.statistics == ZeroStatistics()
    ensures r.arm.(statistics := a.statistics, history := a.history) == a
  {
    Step(a.(statistics := ZeroStatistics(), history := []), true)
  }

  /** The fields of `get_status` other than the random telemetry. */
  datatype StatusReport = StatusReport(
    connected: bool, status: string, currentPosition: FloatDict, currentJoints: seq<real>,
    isMoving: bool, hasObject: bool, moveSpeed: real, grabForce: real, errors: seq<string>)

  function GetStatus(a: Arm): (r: StatusReport)
    ensures r.connected == a.connected && r.hasObject == a.hasObject
    ensures r.status == StatusValue(a.status)
    ensures PositionFromDict(r.currentPosition) == Success(a.position)
    ensures JointsFromList(r.currentJoints) == Success(a.joints)
  {
    StatusReport(a.connected, StatusValue(a.status), PositionToDict(a.position), JointsToList(a.joints),
                 a.isMoving, a.hasObject, DefaultMoveSpeed, a.grabForce, a.errors)
  }

  function GetConfiguration(a: Arm): (r: ArmConfiguration)
    ensures r == DefaultConfiguration
  {
    ArmConfiguration(800.0, 5.0, 6, 100.0, 50.0, 0.1)
  }

  datatype BinInfo = BinInfo(key: string, id: nat, name: string, position: FloatDict, color: string, sortedCount: nat)

  /** `get_garbage_bins_info`: one entry per bin, in table order, carrying
      that bin's sorted count. */
  function GetGarbageBinsInfo(a: Arm): (r: seq<BinInfo>)
    ensures |r| == |Bins|
    ensures forall i :: 0 <= i < |r| ==>
              && r[i].key == Bins[i].key && r[i].id == Bins[i].id
              && r[i].sortedCount == a.statistics.garbageSorted[i]
              && PositionFromDict(r[i].position) == Success(Bins[i].binPosition)
  {
    seq(9, i requires 0 <= i < 9 => var g := Bins[i];
      BinInfo(g.key, g.id, g.name, PositionToDict(g.binPosition), g.color, a.statistics.garbageSorted[i]))
  }

  /** The driver's own `move_to_position` as a transition. */
  function Mover(): (m: Mover<Arm>)
  {
    (a: Arm, p: Position, speed: Option<real>) => var s := MoveToPosition(a, p, speed); (s.arm, s.ok)
  }

  /** The inherited `move_circular` on this driver: it succeeds exactly when
      both legs at the given speed would, ends at the target after two
      counted moves, and when the via move fails it is the via move's
      outcome, because the target move is never issued. At the default
      speed a failure leaves the arm untouched. */
  lemma MoveCircularOnVirtual(a: Arm, via: Position, target: Position, speed: Option<real>)
    ensures var (b, ok) := MoveCircular(Mover(), a, via, target, speed);
      var v := speed.GetOr(DefaultMoveSpeed);
      && (ok <==> a.connected && a.status != Error
                  && !MovementRaises(a.position, via, v) && !MovementRaises(via, target, v))
      && (ok ==> b.position == target && b.status == Idle
                 && b.statistics.movementCount == a.statistics.movementCount + 2)
      && (!MoveToPosition(a, via, speed).ok ==> b == MoveToPosition(a, via, speed).arm && !ok)
      && (speed.None? && !ok ==> b == a)
  {
  }

  /** The inherited `move_linear` on this driver is its own move at the same
      speed. */
  lemma MoveLinearOnVirtual(a: Arm, target: Position, speed: Option<real>)
    ensures MoveLinear(Mover(), a, target, speed)
            == (MoveToPosition(a, target, speed).arm, MoveToPosition(a, target, speed).ok)
  {
  }

  /** Every command leaves a disconnected arm's pose, statistics and history
      untouched and answers false, except the ones that do not check the
      connection. */
  lemma DisconnectedRejects(a: Arm, p: Position, speed: Option<real>, j: JointAngles, g: Option<GrabParameters>, t: string, draw: real)
    requires !a.connected
    ensures Home(a) == Step(a, false) && MoveToPosition(a, p, speed) == Step(a, false)
    ensures MoveToJoints(a, j) == Step(a, false) && Grab(a, g, draw) == Step(a, false)
    ensures Release(a) == Step(a, false) && SortGarbage(a, t, draw) == Step(a, false)
    ensures GetCurrentPosition(a).None? && GetCurrentJoints(a).None?
  {
  }

  /** One command issued to the driver, with the random draw it consumes. */
  datatype Command =
    | ConnectCmd | DisconnectCmd | HomeCmd | StopCmd | ResetErrorsCmd | ResetStatisticsCmd
    | MoveCmd(target: Position, speed: Option<real>) | JointsCmd(angles: JointAngles)
    | GrabCmd(params: Option<GrabParameters>, draw: real) | ReleaseCmd
    | SortCmd(garbageType: string, sortDraw: real)

  function Execute(a: Arm, c: Command): (r: Step)
  {
    match c
    case ConnectCmd => Connect(a)
    case DisconnectCmd => Disconnect(a)
    case HomeCmd => Home(a)
    case StopCmd => EmergencyStop(a)
    case ResetErrorsCmd => ResetErrors(a)
    case ResetStatisticsCmd => ResetStatistics(a)
    case MoveCmd(p, v) => MoveToPosition(a, p, v)
    case JointsCmd(j) => MoveToJoints(a, j)
    case GrabCmd(g, d) => Grab(a, g, d)
    case ReleaseCmd => Release(a)
    case SortCmd(t, d) => SortGarbage(a, t, d)
  }

  function Run(a: Arm, cmds: seq<Command>): Arm
    decreases cmds
  {
    if cmds == [] then a else Run(Execute(a, cmds[0]).arm, cmds[1..])
  }

  /** The statistics invariants hold after any sequence of commands issued to
      a freshly constructed arm. */
  lemma {:induction false} RunPreservesValid(a: Arm, cmds: seq<Command>)
    requires Valid(a)
    ensures Valid(Run(a, cmds))
    decreases cmds
  {
    if cmds != [] {
      RunPreservesValid(Execute(a, cmds[0]).arm, cmds[1..]);
    }
  }

  lemma SessionValid(cmds: seq<Command>)
    ensures Valid(Run(NewArm(), cmds))
  {
    RunPreservesValid(NewArm(), cmds);
  }
}

/** `SystemController`: the state machine that turns queued camera frames
    into detection results and detection results into sorting tasks. The
    detector's answer for a frame is an oracle; callbacks are recorded as
    an event trace, one event per `_trigger_callbacks` call. */
module SystemController {
  import opened Wrappers
  import opened Sequences
  import opened Detector
  import ArmController
  import ArmInterface

  datatype SystemState = Idle | Detecting | Sorting | Error | Maintenance

  /** One `_trigger_callbacks` call, with the data handed to the callbacks. */
  datatype Event =
    | StateChanged(before: SystemState, after: SystemState)
    | ErrorRaised(message: string)
    | DetectionDone(taskId: string)

  datatype ErrorRecord = ErrorRecord(message: string, timestamp: real)

  datatype Stats = Stats(totalDetections: nat, totalSortings: nat, successRate: real, uptime: real,
                         lastError: Option<ErrorRecord>)

  /** A frame waiting to be analysed; the image is an opaque handle. */
  datatype DetectionTask = DetectionTask(id: string, image: nat, timestamp: real,
                                         results: Option<DetectionResult>, status: string)

  datatype SortingTask = SortingTask(id: string, detections: seq<Detection>, timestamp: real,
                                     pickupPosition: string, targetCategory: string, status: string)

  datatype System = System(state: SystemState, isRunning: bool, autoMode: bool, detectorReady: bool,
                           detectionTasks: seq<DetectionTask>, sortingTasks: seq<SortingTask>,
                           stats: Stats, events: seq<Event>, startTime: real,
                           robotArm: Option<ArmController.Controller>)

  // ------------------------------------------------------------ state

  /** `_set_state`: a change of state fires exactly one state-change
      callback carrying the old and the new state; setting the current
      state again does nothing. */
  function SetState(s: System, next: SystemState): (r: System)
    ensures r.state == next
    ensures r.(state := s.state, events := s.events) == s
    ensures s.state == next ==> r.events == s.events
    ensures s.state != next ==> r.events == s.events + [StateChanged(s.state, next)]
  {
    if s.state == next then s
    else s.(state := next, events := s.events + [StateChanged(s.state, next)])
  }

  /** Setting a state twice is setting it once. */
  lemma SetStateIdempotent(s: System, next: SystemState)
    ensures SetState(SetState(s, next), next) == SetState(s, next)
  {
  }

  /** `_set_error_state`: the error is recorded with its time, the state
      becomes ERROR, and the error callbacks fire last. */
  function SetErrorState(s: System, message: string, now: real): (r: System)
    ensures r.state == Error
    ensures r.stats == s.stats.(lastError := Some(ErrorRecord(message, now)))
    ensures |r.events| > 0 && r.events[|r.events| - 1] == ErrorRaised(message)
    ensures r.detectionTasks == s.detectionTasks && r.sortingTasks == s.sortingTasks
  {
    var s1 := s.(stats := s.stats.(lastError := Some(ErrorRecord(message, now))));
    var s2 := SetState(s1, Error);
    s2.(events := s2.events + [ErrorRaised(message)])
  }

  /** `_update_stats`: the uptime follows the clock; the success rate,
      sortings over detections as a true division, is recomputed only once
      something was detected. */
  function UpdateStats(s: System, now: real): (r: System)
    ensures r.stats.uptime == now - s.startTime
    ensures s.stats.totalDetections > 0 ==>
              r.stats.successRate == Mean(s.stats.totalSortings, s.stats.totalDetections)
    ensures s.stats.totalDetections == 0 ==> r.stats.successRate == s.stats.successRate
    ensures r.stats.(uptime := s.stats.uptime, successRate := s.stats.successRate) == s.stats
    ensures r.(stats := s.stats) == s
  {
    var st := s.stats.(uptime := now - s.startTime);
    if st.totalDetections > 0 then
      s.(stats := st.(successRate := Mean(st.totalSortings, st.totalDetections)))
    else s.(stats := st)
  }

  /** `emergency_stop`: automatic mode off, both queues emptied, the arm
      controller (when there is one) told to stop, state IDLE; counters and
      the error record are kept. `o` is what the arm's driver answers. */
  function EmergencyStop(s: System, o: ArmController.Replies): (r: System)
    ensures !r.autoMode && r.detectionTasks == [] && r.sortingTasks == []
    ensures r.state == Idle
    ensures r.stats == s.stats && r.isRunning == s.isRunning
    ensures s.state == Idle ==> r.events == s.events
    ensures s.robotArm.None? ==> r.robotArm.None?
    ensures s.robotArm.Some? ==>
              r.robotArm == Some(ArmController.Forward(s.robotArm.value, ArmController.StopCmd, o).0)
  {
    var stopped := match s.robotArm
      case None => None
      case Some(c) => Some(ArmController.Forward(c, ArmController.StopCmd, o).0);
    SetState(s.(autoMode := false, detectionTasks := [], sortingTasks := [], robotArm := stopped), Idle)
  }

  /** An emergency stop on a simulated arm always halts it: the driver ends
      IDLE and not moving, whatever it was doing. */
  lemma EmergencyStopHaltsVirtualArm(s: System, o: ArmController.Replies)
    requires s.robotArm.Some? && s.robotArm.value.instance.Some?
    requires s.robotArm.value.instance.value.VirtualDriver?
    ensures var r := EmergencyStop(s, o);
            && r.robotArm.Some? && r.robotArm.value.instance.Some?
            && r.robotArm.value.instance.value.VirtualDriver?
            && r.robotArm.value.instance.value.v.status == ArmInterface.Idle
            && !r.robotArm.value.instance.value.v.isMoving
  {
  }

  // ------------------------------------------------------------ pickup

  /** `_calculate_pickup_position`: the frame is cut into three vertical
      strips at 0.33 and 0.66 of the normalised x coordinate. */
  function PickupPosition(centerX: real): (p: string)
    ensures centerX < 0.33 ==> p == "position_1"
    ensures 0.33 <= centerX < 0.66 ==> p == "position_2"
    ensures 0.66 <= centerX ==> p == "position_3"
  {
    if centerX < 0.33 then "position_1"
    else if centerX < 0.66 then "position_2"
    else "position_3"
  }

  function Strip(p: string): nat
  {
    if p == "position_1" then 1 else if p == "position_2" then 2 else 3
  }

  /** Further right never gives an earlier strip. */
  lemma PickupMonotone(x: real, y: real)
    requires x <= y
    ensures Strip(PickupPosition(x)) <= Strip(PickupPosition(y))
  {
    assert "position_1"[9] != "position_2"[9] && "position_1"[9] != "position_3"[9]
        && "position_2"[9] != "position_3"[9];
  }

  // ------------------------------------------------------------ grouping

  /** Detections grouped under one category, in arrival order. */
  datatype Group = Group(category: string, members: seq<Detection>)

  function InCategory(c: string): Detection -> bool
  {
    (d: Detection) => d.category == c
  }

  /** Where category c first occurs among the detections, |dets| if never. */
  function FirstIndexOf(dets: seq<Detection>, c: string): (k: nat)
    ensures k <= |dets|
    ensures k < |dets| ==> dets[k].category == c
    ensures forall j | 0 <= j < k :: dets[j].category != c
  {
    IndexOf(CategoriesOf(dets), c)
  }

  /** The position of the group for category c, |gs| if there is none:
      the `category not in category_groups` test. */
  function GroupIndex(gs: seq<Group>, c: string): (k: nat)
    ensures k <= |gs|
    ensures k < |gs| ==> gs[k].category == c
    ensures forall j | 0 <= j < k :: gs[j].category != c
  {
    IndexOf(GroupCategories(gs), c)
  }

  function GroupCategories(gs: seq<Group>): (r: seq<string>)
    ensures |r| == |gs| && forall i | 0 <= i < |gs| :: r[i] == gs[i].category
  {
    seq(|gs|, i requires 0 <= i < |gs| => gs[i].category)
  }

  /** One turn of the grouping loop: a known category gets the detection
      appended to its group, a new one opens a group at the end. */
  function AddTo(gs: seq<Group>, d: Detection): seq<Group>
  {
    var k := GroupIndex(gs, d.category);
    if k < |gs| then gs[k := gs[k].(members := gs[k].members + [d])]
    else gs + [Group(d.category, [d])]
  }

  /** The grouping loop of `_create_sorting_tasks`, as a dict filled in
      insertion order. */
  function GroupByCategory(dets: seq<Detection>): seq<Group>
    decreases |dets|
  {
    if dets == [] then []
    else AddTo(GroupByCategory(dets[..|dets| - 1]), dets[|dets| - 1])
  }

  function DifferentCategory(): (Group, Group) -> bool
  {
    (a: Group, b: Group) => a.category != b.category
  }

  function ArrivedEarlier(dets: seq<Detection>): (Group, Group) -> bool
  {
    (a: Group, b: Group) => FirstIndexOf(dets, a.category) < FirstIndexOf(dets, b.category)
  }

  /** What the grouping establishes: one group per category that occurs,
      groups in order of the category's first appearance, and each group
      holding exactly its category's detections in arrival order. */
  ghost predicate GroupedBy(gs: seq<Group>, dets: seq<Detection>)
  {
    GroupsOccur(gs, dets) && GroupsCover(gs, dets) && GroupsHold(gs, dets) && Pairwise(gs, ArrivedEarlier(dets))
  }

  /** Every group's category occurs among the detections. */
  ghost predicate GroupsOccur(gs: seq<Group>, dets: seq<Detection>)
  {
    forall i | 0 <= i < |gs| :: FirstIndexOf(dets, gs[i].category) < |dets|
  }

  /** Every category that occurs has a group. */
  ghost predicate GroupsCover(gs: seq<Group>, dets: seq<Detection>)
  {
    forall c :: GroupIndex(gs, c) < |gs| <==> FirstIndexOf(dets, c) < |dets|
  }

  /** Each group holds exactly its category's detections, in order. */
  ghost predicate GroupsHold(gs: seq<Group>, dets: seq<Detection>)
  {
    forall i | 0 <= i < |gs| :: gs[i].members == Filter(dets, InCategory(gs[i].category))
  }

  /** A category earlier in the list keeps its first position when a
      detection is appended. */
  lemma FirstIndexAppend(dets: seq<Detection>, d: Detection, c: string)
    ensures FirstIndexOf(dets, c) < |dets| ==> FirstIndexOf(dets + [d], c) == FirstIndexOf(dets, c)
    ensures FirstIndexOf(dets, c) == |dets| && d.category == c ==> FirstIndexOf(dets + [d], c) == |dets|
    ensures FirstIndexOf(dets, c) == |dets| && d.category != c ==> FirstIndexOf(dets + [d], c) == |dets| + 1
  {
    assert forall j | 0 <= j < |dets| :: (dets + [d])[j] == dets[j];
    assert (dets + [d])[|dets|] == d;
  }

  /** A category that never occurs has an empty filter. */
  lemma FilterAbsent(dets: seq<Detection>, c: string)
    requires FirstIndexOf(dets, c) == |dets|
    ensures Filter(dets, InCategory(c)) == []
  {
  }

  /** The grouping loop establishes GroupedBy. */
  lemma {:induction false} GroupByCategoryMeaning(dets: seq<Detection>)
    ensures GroupedBy(GroupByCategory(dets), dets)
    decreases |dets|
  {
    if dets != [] {
      var p := dets[..|dets| - 1];
      var d := dets[|dets| - 1];
      assert dets == p + [d];
      GroupByCategoryMeaning(p);
      var gs0 := GroupByCategory(p);
      var gs := GroupByCategory(dets);
      assert gs == AddTo(gs0, d);
      forall c {
        FirstIndexAppend(p, d, c);
      }
      var k := GroupIndex(gs0, d.category);
      if k < |gs0| {
        AppendToGroup(gs0, p, d, k);
      } else {
        OpenGroup(gs0, p, d);
      }
    }
  }

  /** The case of a category already grouped. */
  lemma AppendToGroup(gs0: seq<Group>, p: seq<Detection>, d: Detection, k: nat)
    requires GroupedBy(gs0, p)
    requires k == GroupIndex(gs0, d.category) < |gs0|
    requires forall c :: FirstIndexOf(p, c) < |p| ==> FirstIndexOf(p + [d], c) == FirstIndexOf(p, c)
    ensures GroupedBy(AddTo(gs0, d), p + [d])
  {
    var gs := AddTo(gs0, d);
    assert |gs| == |gs0| && forall i | 0 <= i < |gs| :: gs[i].category == gs0[i].category;
    AppendHold(gs0, p, d, k);
    AppendCover(gs0, gs, p, d);
    AppendOrdered(gs0, gs, p, d);
  }

  lemma AppendHold(gs0: seq<Group>, p: seq<Detection>, d: Detection, k: nat)
    requires GroupsHold(gs0, p) && Pairwise(gs0, ArrivedEarlier(p))
    requires k == GroupIndex(gs0, d.category) < |gs0|
    ensures GroupsHold(AddTo(gs0, d), p + [d])
  {
    var gs := gs0[k := gs0[k].(members := gs0[k].members + [d])];
    assert AddTo(gs0, d) == gs;
    forall i | 0 <= i < |gs0|
      ensures gs[i].members == Filter(p + [d], InCategory(gs[i].category))
    {
      FilterAppend(p, d, InCategory(gs0[i].category));
      if i < k {
        assert ArrivedEarlier(p)(gs0[i], gs0[k]);
      } else if k < i {
        assert ArrivedEarlier(p)(gs0[k], gs0[i]);
      }
    }
  }

  lemma AppendCover(gs0: seq<Group>, gs: seq<Group>, p: seq<Detection>, d: Detection)
    requires GroupsCover(gs0, p)
    requires GroupIndex(gs0, d.category) < |gs0|
    requires |gs| == |gs0| && forall i | 0 <= i < |gs| :: gs[i].category == gs0[i].category
    ensures GroupsCover(gs, p + [d])
  {
    forall c ensures GroupIndex(gs, c) < |gs| <==> FirstIndexOf(p + [d], c) < |p + [d]| {
      GroupIndexSameCategories(gs0, gs, c);
      FirstIndexAppend(p, d, c);
    }
  }

  lemma AppendOrdered(gs0: seq<Group>, gs: seq<Group>, p: seq<Detection>, d: Detection)
    requires GroupsOccur(gs0, p) && Pairwise(gs0, ArrivedEarlier(p))
    requires forall c :: FirstIndexOf(p, c) < |p| ==> FirstIndexOf(p + [d], c) == FirstIndexOf(p, c)
    requires |gs| == |gs0| && forall i | 0 <= i < |gs| :: gs[i].category == gs0[i].category
    ensures GroupsOccur(gs, p + [d]) && Pairwise(gs, ArrivedEarlier(p + [d]))
  {
    forall i, j | 0 <= i < j < |gs| ensures ArrivedEarlier(p + [d])(gs[i], gs[j]) {
      assert ArrivedEarlier(p)(gs0[i], gs0[j]);
    }
  }

  /** The case of a new category: its group goes last. */
  lemma OpenGroup(gs0: seq<Group>, p: seq<Detection>, d: Detection)
    requires GroupedBy(gs0, p)
    requires GroupIndex(gs0, d.category) == |gs0|
    requires forall c :: FirstIndexOf(p, c) < |p| ==> FirstIndexOf(p + [d], c) == FirstIndexOf(p, c)
    ensures GroupedBy(AddTo(gs0, d), p + [d])
  {
    var gs := AddTo(gs0, d);
    assert gs == gs0 + [Group(d.category, [d])];
    assert FirstIndexOf(p, d.category) == |p|;
    FirstIndexAppend(p, d, d.category);
    OpenHold(gs0, p, d);
    OpenCover(gs0, p, d);
    OpenOrdered(gs0, p, d);
  }

  lemma OpenHold(gs0: seq<Group>, p: seq<Detection>, d: Detection)
    requires GroupsHold(gs0, p) && GroupsOccur(gs0, p)
    requires FirstIndexOf(p, d.category) == |p|
    ensures GroupsHold(gs0 + [Group(d.category, [d])], p + [d])
  {
    var gs := gs0 + [Group(d.category, [d])];
    forall i | 0 <= i < |gs|
      ensures gs[i].members == Filter(p + [d], InCategory(gs[i].category))
    {
      FilterAppend(p, d, InCategory(gs[i].category));
      if i == |gs0| {
        FilterAbsent(p, d.category);
      } else {
        assert gs[i] == gs0[i];
      }
    }
  }

  lemma OpenCover(gs0: seq<Group>, p: seq<Detection>, d: Detection)
    requires GroupsCover(gs0, p)
    ensures GroupsCover(gs0 + [Group(d.category, [d])], p + [d])
  {
    forall c ensures GroupIndex(gs0 + [Group(d.category, [d])], c) < |gs0| + 1 <==> FirstIndexOf(p + [d], c) < |p| + 1 {
      GroupIndexExtend(gs0, Group(d.category, [d]), c);
      FirstIndexAppend(p, d, c);
    }
  }

  lemma OpenOrdered(gs0: seq<Group>, p: seq<Detection>, d: Detection)
    requires GroupsOccur(gs0, p) && Pairwise(gs0, ArrivedEarlier(p))
    requires FirstIndexOf(p + [d], d.category) == |p|
    requires forall c :: FirstIndexOf(p, c) < |p| ==> FirstIndexOf(p + [d], c) == FirstIndexOf(p, c)
    ensures GroupsOccur(gs0 + [Group(d.category, [d])], p + [d])
    ensures Pairwise(gs0 + [Group(d.category, [d])], ArrivedEarlier(p + [d]))
  {
    var gs := gs0 + [Group(d.category, [d])];
    forall i | 0 <= i < |gs| ensures FirstIndexOf(p + [d], gs[i].category) < |p + [d]| {
      if i < |gs0| {
        assert gs[i] == gs0[i];
      }
    }
    forall i, j | 0 <= i < j < |gs| ensures ArrivedEarlier(p + [d])(gs[i], gs[j]) {
      assert gs[i] == gs0[i];
      if j < |gs0| {
        assert gs[j] == gs0[j];
        assert ArrivedEarlier(p)(gs0[i], gs0[j]);
      }
    }
  }

  lemma GroupIndexSameCategories(a: seq<Group>, b: seq<Group>, c: string)
    requires |a| == |b| && forall i | 0 <= i < |a| :: a[i].category == b[i].category
    ensures GroupIndex(a, c) == GroupIndex(b, c)
  {
  }

  lemma GroupIndexExtend(gs: seq<Group>, g: Group, c: string)
    ensures GroupIndex(gs + [g], c) < |gs| + 1 <==> GroupIndex(gs, c) < |gs| || g.category == c
  {
    var k := GroupIndex(gs, c);
    var k' := GroupIndex(gs + [g], c);
    if k < |gs| {
      assert (gs + [g])[k] == gs[k];
    }
    assert (gs + [g])[|gs|] == g;
    if k' < |gs| {
      assert (gs + [g])[k'] == gs[k'];
    }
  }

  // ------------------------------------------------------------ sorting tasks

  /** `max(detections, key=confidence)`: the first detection of highest
      confidence, scanning in order and replacing only on a strictly
      higher value. */
  function BestIndex(ds: seq<Detection>): (k: nat)
    requires ds != []
    ensures k < |ds|
    ensures forall j | 0 <= j < |ds| :: ds[j].confidence <= ds[k].confidence
    ensures forall j | 0 <= j < k :: ds[j].confidence < ds[k].confidence
    decreases |ds|
  {
    if |ds| == 1 then 0
    else
      var b := BestIndex(ds[..|ds| - 1]);
      assert forall j | 0 <= j < |ds| - 1 :: ds[..|ds| - 1][j] == ds[j];
      if ds[|ds| - 1].confidence > ds[b].confidence then |ds| - 1 else b
  }

  function Known(): Group -> bool
  {
    (g: Group) => g.category != "unknown"
  }

  /** The sorting task of one group: its best detection, the strip the
      detection lies in, and the group's category as the target. */
  function TaskFor(taskId: string, g: Group, now: real): SortingTask
    requires g.members != []
  {
    var best := g.members[BestIndex(g.members)];
    SortingTask("sort_" + taskId + "_" + g.category, [best], now,
                PickupPosition(best.center.0), g.category, "pending")
  }

  /** `_create_sorting_tasks`: one task per category group, skipping
      "unknown", in the groups' order. */
  function CreateSortingTasks(taskId: string, dets: seq<Detection>, now: real): (tasks: seq<SortingTask>)
    ensures forall i | 0 <= i < |tasks| :: tasks[i].targetCategory != "unknown" && |tasks[i].detections| == 1
    ensures |tasks| <= |dets|
  {
    var known := Filter(GroupByCategory(dets), Known());
    KnownGroups(dets);
    seq(|known|, i requires 0 <= i < |known| => TaskFor(taskId, known[i], now))
  }

  /** The groups kept for sorting are non-empty, and there are no more of
      them than detections. */
  lemma KnownGroups(dets: seq<Detection>)
    ensures var known := Filter(GroupByCategory(dets), Known());
            && |known| <= |dets|
            && forall i | 0 <= i < |known| :: known[i].members != []
  {
    var gs := GroupByCategory(dets);
    GroupByCategoryMeaning(dets);
    GroupsAtMostDetections(gs, dets);
    var known := Filter(gs, Known());
    forall i | 0 <= i < |known| ensures known[i].members != [] {
      var j :| 0 <= j < |gs| && gs[j] == known[i];
      GroupNonEmpty(dets, gs[j].category);
    }
  }

  /** A category that occurs has a non-empty filter. */
  lemma GroupNonEmpty(dets: seq<Detection>, c: string)
    requires FirstIndexOf(dets, c) < |dets|
    ensures Filter(dets, InCategory(c)) != []
  {
    var k := FirstIndexOf(dets, c);
    assert InCategory(c)(dets[k]);
  }

  /** There are no more groups than detections: the groups' first
      positions are distinct positions of the list. */
  lemma GroupsAtMostDetections(gs: seq<Group>, dets: seq<Detection>)
    requires GroupedBy(gs, dets)
    ensures |gs| <= |dets|
  {
    var firsts := seq(|gs|, i requires 0 <= i < |gs| => FirstIndexOf(dets, gs[i].category));
    assert forall i, j | 0 <= i < j < |gs| :: firsts[i] < firsts[j] by {
      forall i, j | 0 <= i < j < |gs| ensures firsts[i] < firsts[j] {
        assert ArrivedEarlier(dets)(gs[i], gs[j]);
      }
    }
    IncreasingBounded(firsts, |dets|);
  }

  lemma {:induction false} IncreasingBounded(xs: seq<nat>, n: nat)
    requires forall i | 0 <= i < |xs| :: xs[i] < n
    requires forall i, j | 0 <= i < j < |xs| :: xs[i] < xs[j]
    ensures |xs| <= n
    decreases n
  {
    if xs != [] {
      var last := xs[|xs| - 1];
      IncreasingBounded(xs[..|xs| - 1], last);
    }
  }

  /** Task j is built from the j-th known group. */
  lemma TasksFromGroups(taskId: string, dets: seq<Detection>, now: real)
    ensures var tasks := CreateSortingTasks(taskId, dets, now);
            var known := Filter(GroupByCategory(dets), Known());
            && |tasks| == |known|
            && forall j | 0 <= j < |tasks| ::
                 && known[j].members != []
                 && tasks[j].targetCategory == known[j].category
                 && tasks[j].detections == [known[j].members[BestIndex(known[j].members)]]
                 && tasks[j].pickupPosition == PickupPosition(known[j].members[BestIndex(known[j].members)].center.0)
  {
    KnownGroups(dets);
  }

  /** Each known group is a group of the grouping, so it is GroupedBy's. */
  lemma KnownGroupsMeaning(dets: seq<Detection>)
    ensures var known := Filter(GroupByCategory(dets), Known());
            forall j | 0 <= j < |known| ::
              && FirstIndexOf(dets, known[j].category) < |dets|
              && known[j].members == Filter(dets, InCategory(known[j].category))
  {
    var gs := GroupByCategory(dets);
    GroupByCategoryMeaning(dets);
    var known := Filter(gs, Known());
    forall j | 0 <= j < |known|
      ensures FirstIndexOf(dets, known[j].category) < |dets|
      ensures known[j].members == Filter(dets, InCategory(known[j].category))
    {
      var g :| 0 <= g < |gs| && gs[g] == known[j];
    }
  }

  /** A known category that occurs has a known group. */
  lemma KnownGroupFor(dets: seq<Detection>, c: string) returns (j: nat)
    requires FirstIndexOf(dets, c) < |dets| && c != "unknown"
    ensures var known := Filter(GroupByCategory(dets), Known());
            j < |known| && known[j].category == c
  {
    var gs := GroupByCategory(dets);
    GroupByCategoryMeaning(dets);
    var known := Filter(gs, Known());
    var g := GroupIndex(gs, c);
    assert Known()(gs[g]);
    assert gs[g] in known;
    j :| 0 <= j < |known| && known[j] == gs[g];
  }

  /** Every known category that occurs gets a task. */
  lemma TasksCoverCategories(taskId: string, dets: seq<Detection>, now: real)
    ensures var tasks := CreateSortingTasks(taskId, dets, now);
            forall i | 0 <= i < |dets| && dets[i].category != "unknown" ::
              exists j :: 0 <= j < |tasks| && tasks[j].targetCategory == dets[i].category
  {
    var tasks := CreateSortingTasks(taskId, dets, now);
    TasksFromGroups(taskId, dets, now);
    forall i | 0 <= i < |dets| && dets[i].category != "unknown"
      ensures exists j :: 0 <= j < |tasks| && tasks[j].targetCategory == dets[i].category
    {
      assert FirstIndexOf(dets, dets[i].category) <= i;
      var j := KnownGroupFor(dets, dets[i].category);
      assert tasks[j].targetCategory == dets[i].category;
    }
  }

  /** Tasks follow the order in which their categories first appear, so no
      category has two tasks. */
  lemma TasksOrdered(taskId: string, dets: seq<Detection>, now: real)
    ensures var tasks := CreateSortingTasks(taskId, dets, now);
            forall i, j | 0 <= i < j < |tasks| ::
              FirstIndexOf(dets, tasks[i].targetCategory) < FirstIndexOf(dets, tasks[j].targetCategory)
  {
    var tasks := CreateSortingTasks(taskId, dets, now);
    var gs := GroupByCategory(dets);
    GroupByCategoryMeaning(dets);
    TasksFromGroups(taskId, dets, now);
    var known := Filter(gs, Known());
    FilterPairwise(gs, Known(), ArrivedEarlier(dets));
    forall i, j | 0 <= i < j < |tasks|
      ensures FirstIndexOf(dets, tasks[i].targetCategory) < FirstIndexOf(dets, tasks[j].targetCategory)
    {
      assert ArrivedEarlier(dets)(known[i], known[j]);
    }
  }

  /** What the created tasks mean, against the detections themselves:
      every task's category occurs, and the task carries the best
      detection of that category and the strip it lies in. */
  lemma TasksCarryBest(taskId: string, dets: seq<Detection>, now: real)
    ensures var tasks := CreateSortingTasks(taskId, dets, now);
            forall j | 0 <= j < |tasks| ::
              var members := Filter(dets, InCategory(tasks[j].targetCategory));
              && FirstIndexOf(dets, tasks[j].targetCategory) < |dets|
              && members != []
              && tasks[j].detections == [members[BestIndex(members)]]
              && tasks[j].pickupPosition == PickupPosition(members[BestIndex(members)].center.0)
  {
    TasksFromGroups(taskId, dets, now);
    KnownGroupsMeaning(dets);
  }

  // ------------------------------------------------------------ detection queue

  /** The `finally` clause of `_process_detection_tasks`: a DETECTING state
      falls back to IDLE, any other state is kept. */
  function LeaveDetecting(s: System): (r: System)
    ensures r.state == (if s.state == Detecting then Idle else s.state)
    ensures r.(state := s.state, events := s.events) == s
    ensures s.state != Detecting ==> r == s
  {
    if s.state == Detecting then SetState(s, Idle) else s
  }

  /** `_process_detection_tasks`: pops the oldest frame. Without a ready
      detector the task fails and only the `finally` clause runs, which
      changes nothing in any state the controller rests in. Otherwise the
      state passes through DETECTING; the detector's answer (Failure
      stands for an exception from `detect`) either fails the task or
      completes it, fires the detection callbacks, queues sorting tasks
      when anything was detected, and counts one detection. The state ends
      IDLE. The popped task is returned alongside, as the caller's
      object would show it. */
  function ProcessDetectionTasks(s: System, answer: Result<DetectionResult>, now: real): (r: (System, Option<DetectionTask>))
    ensures s.detectionTasks == [] <==> r.1.None?
    ensures s.detectionTasks == [] ==> r.0 == s
    ensures s.detectionTasks != [] ==> r.0.detectionTasks == s.detectionTasks[1..] && r.1.value.id == s.detectionTasks[0].id
    ensures s.detectionTasks != [] && !s.detectorReady ==>
              && r.1.value.status == "failed"
              && r.0.(state := s.state, events := s.events) == s.(detectionTasks := s.detectionTasks[1..])
              && r.0.state == (if s.state == Detecting then Idle else s.state)
    ensures s.detectionTasks != [] && !s.detectorReady && s.state != Detecting ==>
              r.0 == s.(detectionTasks := s.detectionTasks[1..])
    ensures s.detectionTasks != [] && s.detectorReady ==> r.0.state == Idle
    ensures s.detectionTasks != [] && s.detectorReady && answer.Failure? ==>
              && r.1.value.status == "failed"
              && r.0.stats == s.stats && r.0.sortingTasks == s.sortingTasks
    ensures s.detectionTasks != [] && s.detectorReady && answer.Success? ==>
              && r.1.value.status == "completed" && r.1.value.results == Some(answer.value)
              && r.0.stats == s.stats.(totalDetections := s.stats.totalDetections + 1)
              && r.0.sortingTasks == s.sortingTasks +
                   (if answer.value.totalDetections > 0
                    then CreateSortingTasks(s.detectionTasks[0].id, answer.value.detections, now) else [])
              && DetectionDone(s.detectionTasks[0].id) in r.0.events
  {
    if s.detectionTasks == [] then (s, None)
    else
      var task := s.detectionTasks[0];
      var s0 := s.(detectionTasks := s.detectionTasks[1..]);
      if !s.detectorReady then (LeaveDetecting(s0), Some(task.(status := "failed")))
      else
        var s1 := SetState(s0, Detecting);
        match answer
        case Failure(_) =>
          (LeaveDetecting(s1), Some(task.(status := "failed")))
        case Success(res) =>
          var done := task.(results := Some(res), status := "completed");
          var s2 := s1.(events := s1.events + [DetectionDone(task.id)]);
          var s3 := if res.totalDetections > 0
                    then s2.(sortingTasks := s2.sortingTasks + CreateSortingTasks(task.id, res.detections, now))
                    else s2;
          var s4 := s3.(stats := s3.stats.(totalDetections := s3.stats.totalDetections + 1));
          (LeaveDetecting(s4), Some(done))
  }

  /** With a ready detector each processed frame leaves the state IDLE and
      fires exactly one detection callback or none (on an exception); the
      counters only ever grow. */
  lemma ProcessDetectionKeepsCounters(s: System, answer: Result<DetectionResult>, now: real)
    ensures var r := ProcessDetectionTasks(s, answer, now).0;
            && r.stats.totalDetections >= s.stats.totalDetections
            && r.stats.totalSortings == s.stats.totalSortings
            && |r.sortingTasks| >= |s.sortingTasks|
            && r.sortingTasks[..|s.sortingTasks|] == s.sortingTasks
  {
  }
}

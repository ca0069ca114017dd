/** The stand-alone Jetson demo: a frame-debounce loop that waits for the
    first detection to stay put for fifteen frames, then drives a serial
    uArm through a fixed G-code pick-and-place trace. Detection, the camera
    and the serial line are outside the model; a frame is the list of
    detections the network returned for it, and the homography is a given
    matrix applied as in `CoordinateTransform`. */
module SortingDemo {
  import opened Wrappers
  import opened PySemantics
  import CoordinateTransform
  import opened Sequences

  /** One detection: its box corners and its class id. */
  datatype Detection = Detection(x1: real, y1: real, x2: real, y2: real, classId: int)

  /** `STABLE_THRESHOLD` */
  const StableThreshold: nat := 15

  /** `stable_count` and the last converted coordinate; `last` is `None`
      until the first detection frame sets `last_x`/`last_y`. */
  datatype Debounce = Debounce(stableCount: nat, last: Option<CoordinateTransform.Point>)

  const InitialDebounce := Debounce(0, None)

  /** A request to `pick_object(x, y, class_id)`. */
  datatype Pick = Pick(x: real, y: real, classId: int)

  datatype FrameOutcome = FrameOutcome(state: Debounce, pick: Option<Pick>)

  function Abs(v: real): real { if v < 0.0 then -v else v }

  /** Within one unit in both coordinates of the previous frame's target. */
  predicate Close(last: Option<CoordinateTransform.Point>, p: CoordinateTransform.Point)
  {
    last.Some? && Abs(p.x - last.value.x) < 1.0 && Abs(p.y - last.value.y) < 1.0
  }

  /** The robot coordinate of a detection: its centre, truncated to whole
      pixels, through the homography. */
  function Target(h: CoordinateTransform.Mat3, d: Detection): (p: CoordinateTransform.Point)
  {
    CoordinateTransform.Apply(h, Trunc((d.x1 + d.x2) / 2.0) as real, Trunc((d.y1 + d.y2) / 2.0) as real)
  }

  /** The state the loop keeps between frames: a counter below the threshold,
      and a stored coordinate whenever the counter is positive. */
  predicate Valid(s: Debounce)
  {
    s.stableCount < StableThreshold && (s.stableCount > 0 ==> s.last.Some?)
  }

  /** The stability half of `process_frame`. Only the first detection counts;
      the counter grows while the target stays within one unit of the
      previous frame's target and restarts at 1 otherwise; when it reaches
      the threshold it is reset and a pick is requested. */
  function ProcessFrame(h: CoordinateTransform.Mat3, s: Debounce, results: seq<Detection>): (r: FrameOutcome)
    ensures r.state.stableCount < StableThreshold
    ensures results == [] ==> r == FrameOutcome(s.(stableCount := 0), None)
    ensures results != [] ==> r.state.last == Some(Target(h, results[0]))
    ensures results != [] && r.pick.None? ==>
              r.state.stableCount == (if s.stableCount > 0 && Close(s.last, Target(h, results[0])) then s.stableCount + 1 else 1)
    ensures r.pick.Some? <==>
              results != [] && s.stableCount + 1 >= StableThreshold && Close(s.last, Target(h, results[0]))
    ensures r.pick.Some? ==>
              r.state.stableCount == 0
              && r.pick.value == Pick(Target(h, results[0]).x, Target(h, results[0]).y, results[0].classId)
    ensures Valid(r.state)
  {
    if results == [] then FrameOutcome(s.(stableCount := 0), None)
    else
      var main := results[0];
      var p := Target(h, main);
      var count := if s.stableCount > 0 && Close(s.last, p) then s.stableCount + 1 else 1;
      if count >= StableThreshold then FrameOutcome(Debounce(0, Some(p)), Some(Pick(p.x, p.y, main.classId)))
      else FrameOutcome(Debounce(count, Some(p)), None)
  }

  /** `run_from_camera` without the camera: the frames in order, collecting
      the picks they request. */
  function RunFrames(h: CoordinateTransform.Mat3, s: Debounce, frames: seq<seq<Detection>>): (r: (Debounce, seq<Pick>))
    decreases |frames|
  {
    if frames == [] then (s, [])
    else
      var o := ProcessFrame(h, s, frames[0]);
      var rest := RunFrames(h, o.state, frames[1..]);
      (rest.0, (if o.pick.Some? then [o.pick.value] else []) + rest.1)
  }

  /** Picks are rationed: every pick costs fifteen frames, so n frames from
      a fresh start request at most n / 15 picks. */
  lemma {:induction false} PicksAreSpaced(h: CoordinateTransform.Mat3, s: Debounce, frames: seq<seq<Detection>>)
    ensures var r := RunFrames(h, s, frames);
            |r.1| * StableThreshold + r.0.stableCount <= |frames| + s.stableCount
    decreases |frames|
  {
    if frames != [] {
      var o := ProcessFrame(h, s, frames[0]);
      PicksAreSpaced(h, o.state, frames[1..]);
    }
  }

  lemma FreshRunPicksAtMost(h: CoordinateTransform.Mat3, frames: seq<seq<Detection>>)
    ensures |RunFrames(h, InitialDebounce, frames).1| <= |frames| / StableThreshold
  {
    PicksAreSpaced(h, InitialDebounce, frames);
  }

  /** The loop's state stays valid frame after frame. */
  lemma {:induction false} RunFramesValid(h: CoordinateTransform.Mat3, s: Debounce, frames: seq<seq<Detection>>)
    requires Valid(s)
    ensures Valid(RunFrames(h, s, frames).0)
    decreases |frames|
  {
    if frames != [] {
      RunFramesValid(h, ProcessFrame(h, s, frames[0]).state, frames[1..]);
    }
  }

  /** While the same frame repeats, the counter climbs by one per frame
      without a pick, as long as it stays below the threshold. */
  lemma {:induction false} SteadyFramesClimb(h: CoordinateTransform.Mat3, s: Debounce, results: seq<Detection>, n: nat)
    requires results != [] && s.stableCount >= 1 && s.last == Some(Target(h, results[0]))
    requires s.stableCount + n < StableThreshold
    ensures RunFrames(h, s, Repeat(results, n)) == (s.(stableCount := s.stableCount + n), [])
    decreases n
  {
    if n > 0 {
      var o := ProcessFrame(h, s, results);
      assert Close(s.last, Target(h, results[0]));
      assert o == FrameOutcome(s.(stableCount := s.stableCount + 1), None);
      var fs := Repeat(results, n);
      assert fs[0] == results && fs[1..] == Repeat(results, n - 1);
      SteadyFramesClimb(h, o.state, results, n - 1);
      assert o.state.(stableCount := o.state.stableCount + (n - 1)) == s.(stableCount := s.stableCount + n);
      var none: seq<Pick> := [];
      assert none + none == none;
    }
  }

  /** Fifteen identical detection frames from a fresh start request exactly
      one pick, on the fifteenth frame, and leave the counter at zero. */
  lemma FifteenSteadyFramesPickOnce(h: CoordinateTransform.Mat3, results: seq<Detection>)
    requires results != []
    ensures var p := Target(h, results[0]);
            RunFrames(h, InitialDebounce, Repeat(results, 14)).1 == []
            && RunFrames(h, InitialDebounce, Repeat(results, 15)) == (Debounce(0, Some(p)), [Pick(p.x, p.y, results[0].classId)])
  {
    var p := Target(h, results[0]);
    var first := ProcessFrame(h, InitialDebounce, results);
    assert first == FrameOutcome(Debounce(1, Some(p)), None);
    var r13 := Repeat(results, 13);
    assert Repeat(results, 14)[0] == results && Repeat(results, 14)[1..] == r13;
    SteadyFramesClimb(h, first.state, results, 13);
    var s14 := Debounce(14, Some(p));
    assert RunFrames(h, first.state, r13) == (s14, []);
    assert Repeat(results, 15)[0] == results && Repeat(results, 15)[1..] == Repeat(results, 14);
    assert Repeat(results, 14) == r13 + [results];
    RunFramesAppend(h, first.state, r13, [results]);
    var last := ProcessFrame(h, s14, results);
    assert last == FrameOutcome(Debounce(0, Some(p)), Some(Pick(p.x, p.y, results[0].classId)));
    var picked := [Pick(p.x, p.y, results[0].classId)];
    assert RunFrames(h, s14, [results]) == (Debounce(0, Some(p)), picked + []);
    assert picked + [] == picked;
    var none: seq<Pick> := [];
    assert none + picked == picked;
    assert RunFrames(h, first.state, Repeat(results, 14)) == (Debounce(0, Some(p)), picked);
    assert RunFrames(h, InitialDebounce, Repeat(results, 15)) == (Debounce(0, Some(p)), none + picked);
  }

  lemma {:induction false} RunFramesAppend(h: CoordinateTransform.Mat3, s: Debounce, a: seq<seq<Detection>>, b: seq<seq<Detection>>)
    ensures var ra := RunFrames(h, s, a);
            var rb := RunFrames(h, ra.0, b);
            RunFrames(h, s, a + b) == (rb.0, ra.1 + rb.1)
    decreases |a|
  {
    if a == [] {
      assert a + b == b;
      assert [] + RunFrames(h, s, b).1 == RunFrames(h, s, b).1;
    } else {
      var o := ProcessFrame(h, s, a[0]);
      var emitted := if o.pick.Some? then [o.pick.value] else [];
      assert (a + b)[0] == a[0];
      assert (a + b)[1..] == a[1..] + b;
      RunFramesAppend(h, o.state, a[1..], b);
      var ra' := RunFrames(h, o.state, a[1..]);
      var rb := RunFrames(h, ra'.0, b);
      assert RunFrames(h, s, a + b) == (rb.0, emitted + (ra'.1 + rb.1));
      assert emitted + (ra'.1 + rb.1) == (emitted + ra'.1) + rb.1;
    }
  }

  /** A frame without detections forgets any progress towards a pick. */
  lemma EmptyFrameResets(h: CoordinateTransform.Mat3, s: Debounce, frames: seq<seq<Detection>>)
    ensures RunFrames(h, s, [[]] + frames) == RunFrames(h, s.(stableCount := 0), frames)
  {
    var fs := [[]] + frames;
    assert fs[0] == [] && fs[1..] == frames;
    var rest := RunFrames(h, s.(stableCount := 0), frames);
    assert RunFrames(h, s, fs) == (rest.0, [] + rest.1);
    assert [] + rest.1 == rest.1;
  }

  // ---------------------------------------------------------------- ArmServo

  datatype Place = Place(x: real, y: real)

  /** The four drop areas of `get_classification_position`; the hazardous
      and the "other" area coincide. */
  const Places: seq<Place> := [Place(20.6, 127.1), Place(99.5, 121.7), Place(189.6, 142.4), Place(189.6, 142.4)]

  /** `get_classification_position`: ids 0–2 go to the first area, 3–5 to
      the second, every other id, negative or too large included, to the
      last one. */
  function GetClassificationPosition(classId: int): (r: Place)
    ensures r in Places
    ensures r == Places[0] <==> 0 <= classId <= 2
    ensures r == Places[1] <==> 3 <= classId <= 5
    ensures r == Places[3] <==> !(0 <= classId <= 5)
  {
    if 0 <= classId <= 2 then Places[0]
    else if 3 <= classId <= 5 then Places[1]
    else if 6 <= classId <= 7 then Places[2]
    else Places[3]
  }

  /** The id groups 6–7 and "everything else" are indistinguishable at the
      arm, although the table lists them as separate areas. */
  lemma HazardousSharesOtherPlace()
    ensures GetClassificationPosition(6) == GetClassificationPosition(8)
    ensures GetClassificationPosition(7) == GetClassificationPosition(-1)
  {
  }

  /** The commands the demo writes to the serial line. */
  datatype GCode =
    | Move(x: real, y: real, z: real, feed: int)   // G0 X.. Y.. Z.. F..
    | Gripper(v: nat)                              // M2232 V..
    | Wrist(v: nat)                                // M2231 V..

  /** `polar_height`, the gripping height. */
  const PolarHeight: real := -8.0

  /** The hover height used for every travel move. */
  const Hover: real := 50.0

  /** `move_to_position` with its default speed. */
  function MoveTo(x: real, y: real, z: real): GCode { Move(x, y, z, 1000) }

  /** `set_gripper`: a truthy state closes (V1), a falsy one opens (V0). */
  function SetGripper(state: bool): GCode { Gripper(if state then 1 else 0) }

  /** `initialize_arm`: the home move and the wrist reset. */
  const InitializeTrace: seq<GCode> := [Move(150.0, 0.0, 90.0, 1000), Wrist(0)]

  /** The commands `pick_object(x, y, class_id)` sends, in order. */
  function PickTrace(x: real, y: real, classId: int): (t: seq<GCode>)
    ensures |t| == 9
    ensures t[7..] == InitializeTrace
    ensures forall i | 0 <= i < 4 && t[i].Move? :: t[i].x == x && t[i].y == y
    ensures forall i | 4 <= i < 7 && t[i].Move? ::
              t[i] == MoveTo(GetClassificationPosition(classId).x, GetClassificationPosition(classId).y, Hover)
    ensures forall i | 0 <= i < 7 && t[i].Move? :: t[i].z == Hover || (i == 1 && t[i].z == PolarHeight)
    ensures [t[2], t[5]] == [Gripper(1), Gripper(0)]
    ensures forall i | 0 <= i < 7 :: t[i].Move? || i == 2 || i == 5
  {
    var bin := GetClassificationPosition(classId);
    [MoveTo(x, y, Hover), MoveTo(x, y, PolarHeight), SetGripper(true), MoveTo(x, y, Hover),
     MoveTo(bin.x, bin.y, Hover), SetGripper(false), MoveTo(bin.x, bin.y, Hover)] + InitializeTrace
  }

  /** The gripper closes exactly once, at the object, and opens exactly once,
      above the drop area. */
  lemma PickTraceGrabsThenReleases(x: real, y: real, classId: int)
    ensures var t := PickTrace(x, y, classId);
            forall i | 0 <= i < |t| && t[i].Gripper? ::
              (i == 2 && t[i].v == 1 && t[i - 1] == MoveTo(x, y, PolarHeight))
              || (i == 5 && t[i].v == 0 && t[i - 1].Move? && t[i - 1].z == Hover)
  {
  }

  /** `send_command`: with no serial handle nothing is written and the result
      is false; otherwise the write is attempted and the result says whether
      it raised. */
  function SendCommand(hasArm: bool, c: GCode, fault: bool): (r: (bool, seq<GCode>))
    ensures r.0 <==> hasArm && !fault
    ensures r.1 == (if r.0 then [c] else [])
  {
    if !hasArm then (false, [])
    else if fault then (false, [])
    else (true, [c])
  }

  /** The commands that reach the line when each is attempted in turn and
      `faults[i]` says the i-th write raised; a missing entry means it did not. */
  function SendAll(hasArm: bool, cs: seq<GCode>, faults: seq<bool>): (w: seq<GCode>)
    ensures |w| <= |cs|
    ensures !hasArm ==> w == []
    ensures hasArm && (forall i | 0 <= i < |faults| :: !faults[i]) ==> w == cs
    decreases |cs|
  {
    if cs == [] then []
    else
      var fault := if faults == [] then false else faults[0];
      SendCommand(hasArm, cs[0], fault).1 + SendAll(hasArm, cs[1..], if faults == [] then [] else faults[1..])
  }

  /** What was written is always an order-preserving selection of what was
      attempted. */
  lemma {:induction false} SendAllSubsequence(hasArm: bool, cs: seq<GCode>, faults: seq<bool>)
    ensures Subsequence(SendAll(hasArm, cs, faults), cs)
    decreases |cs|
  {
    if cs != [] {
      var fault := if faults == [] then false else faults[0];
      var rest := if faults == [] then [] else faults[1..];
      SendAllSubsequence(hasArm, cs[1..], rest);
      var w := SendAll(hasArm, cs, faults);
      if SendCommand(hasArm, cs[0], fault).0 {
        assert w == [cs[0]] + SendAll(hasArm, cs[1..], rest);
        assert w[1..] == SendAll(hasArm, cs[1..], rest);
      } else {
        assert w == SendAll(hasArm, cs[1..], rest);
        if w != [] {
          SubsequenceSkip(w, cs[1..], cs[0]);
        }
      }
    }
  }

  /** `pick_object`: false without a serial handle and nothing sent;
      otherwise true, whatever the individual writes did, after attempting
      the whole trace. */
  function PickObject(hasArm: bool, x: real, y: real, classId: int, faults: seq<bool>): (r: (bool, seq<GCode>))
    ensures r.0 <==> hasArm
    ensures !hasArm ==> r.1 == []
    ensures Subsequence(r.1, PickTrace(x, y, classId))
    ensures hasArm && (forall i | 0 <= i < |faults| :: !faults[i]) ==> r.1 == PickTrace(x, y, classId)
  {
    SendAllSubsequence(hasArm, PickTrace(x, y, classId), faults);
    if !hasArm then (false, []) else (true, SendAll(hasArm, PickTrace(x, y, classId), faults))
  }

  // ---------------------------------------------------------------- checkport

  /** `s.split(sep)[0]`: the text before the first separator. */
  function Before(s: string, sep: char): (r: string)
    ensures sep !in r
    ensures r <= s
    ensures |r| < |s| ==> s[|r|] == sep
  {
    if s == [] || s[0] == sep then [] else [s[0]] + Before(s[1..], sep)
  }

  /** `s.split(sep)[-1]`: the text after the last separator. */
  function After(s: string, sep: char): (r: string)
    ensures sep !in r
    ensures |r| <= |s| && r == s[|s| - |r|..]
    ensures |r| < |s| ==> s[|s| - |r| - 1] == sep
    decreases |s|
  {
    if s == [] || s[|s| - 1] == sep then [] else After(s[..|s| - 1], sep) + [s[|s| - 1]]
  }

  const ByIdDir := "/dev/serial/by-id/"

  /** `checkport(COM)`. On Windows the first listed serial port wins and an
      empty list falls back to COM. Elsewhere the name is the first line of
      `ls /dev/serial/by-id`, trimmed to its last path component, and only a
      raising `popen` (`listing == None`) falls back to COM: an empty listing
      still yields the bare directory path. */
  function CheckPort(windows: bool, comports: seq<string>, listing: Option<string>, com: Option<string>): (r: Option<string>)
    ensures windows ==> r == (if comports == [] then com else Some(comports[0]))
    ensures !windows && listing.Some? ==>
              r.Some? && ByIdDir <= r.value && '/' !in r.value[|ByIdDir|..] && '\n' !in r.value[|ByIdDir|..]
    ensures !windows && listing.None? ==> r == com
  {
    if windows then (if comports == [] then com else Some(comports[0]))
    else if listing.None? then com
    else
      var name := After(Before(listing.value, '\n'), '/');
      assert (ByIdDir + name)[|ByIdDir|..] == name;
      Some(ByIdDir + name)
  }

  /** On Linux an empty directory listing is not detected as "no port". */
  lemma EmptyListingStillNamesAPort(com: Option<string>)
    ensures CheckPort(false, [], Some(""), com) == Some(ByIdDir)
  {
    assert Before("", '\n') == "";
    assert After("", '/') == "";
    assert ByIdDir + "" == ByIdDir;
  }

  /** `connect_to_arm`: no handle for a missing or empty port name; otherwise
      the handle exists iff opening the serial port did not raise. The M114
      probe's reply is only reported. */
  function ConnectToArm(port: Option<string>, opens: bool): (hasArm: bool)
    ensures hasArm <==> port.Some? && port.value != "" && opens
  {
    if port.None? || port.value == "" then false else opens
  }
}

/** `GarbageDetector`: the bookkeeping around one YOLO inference. The model
    itself is an oracle that, given the confidence and IoU thresholds and
    the detection cap, returns raw boxes or raises; the detector names them, sorts
    them into garbage categories, counts them and keeps a frame-time window
    and a detection history. */
module Detector {
  import opened Wrappers
  import opened PySemantics
  import opened Counter
  import opened MathUtils

  /** One entry of `class_categories`: a garbage category and the class
      names that belong to it, in the configuration's order. */
  datatype Category = Category(name: string, classes: seq<string>)

  /** One raw box of the model's output: corners, score and class index
      (`astype(int)` of a non-negative class tensor). */
  datatype RawBox = RawBox(box: Box, score: real, cls: nat)

  datatype Detection = Detection(id: nat, classId: nat, className: string, category: string,
                                 confidence: real, bbox: Box, center: (real, real), area: real)

  datatype DetectionResult = DetectionResult(detections: seq<Detection>, totalDetections: nat,
                                             categoryCounts: Tallies, classDistribution: Tallies)

  /** One `detection_history` record. */
  datatype HistoryEntry = HistoryEntry(timestamp: real, detections: nat, categories: Tallies)

  datatype Detector = Detector(classNames: seq<string>, categories: seq<Category>,
                               confidence: real, iou: real, maxDetections: int, modelLoaded: bool,
                               frameTimes: seq<real>, history: seq<HistoryEntry>)

  const DefaultConfidence: real := 0.25
  const DefaultIou: real := 0.45
  const DefaultMaxDetections: int := 300
  const FrameWindow: nat := 30
  const StatisticsWindow: nat := 100

  function CategoryNames(cats: seq<Category>): (r: set<string>)
    ensures forall i | 0 <= i < |cats| :: cats[i].name in r
    ensures forall k | k in r :: exists i :: 0 <= i < |cats| && cats[i].name == k
    decreases |cats|
  {
    if cats == [] then {}
    else
      assert forall i | 1 <= i < |cats| :: cats[i] == cats[1..][i - 1];
      {cats[0].name} + CategoryNames(cats[1..])
  }

  /** The position of the first category that lists the class name, or
      |cats| when none does. */
  function FirstListing(cats: seq<Category>, className: string): (j: nat)
    ensures j <= |cats|
    ensures j < |cats| ==> className in cats[j].classes
    ensures forall k | 0 <= k < j :: className !in cats[k].classes
    decreases |cats|
  {
    if cats == [] || className in cats[0].classes then 0
    else
      var j := FirstListing(cats[1..], className);
      assert forall k | 1 <= k < j + 1 :: cats[k] == cats[1..][k - 1];
      j + 1
  }

  /** `_get_garbage_category`: the first category listing the class name,
      otherwise "unknown". */
  function GarbageCategory(cats: seq<Category>, className: string): (r: string)
    ensures var j := FirstListing(cats, className);
            r == if j < |cats| then cats[j].name else "unknown"
    ensures r == "unknown" || r in CategoryNames(cats)
    decreases |cats|
  {
    if cats == [] then "unknown"
    else if className in cats[0].classes then cats[0].name
    else GarbageCategory(cats[1..], className)
  }

  /** `class_names[class_id]` for an index in range, "unknown" beyond it. */
  function ClassName(names: seq<string>, cls: nat): string
  {
    if cls < |names| then names[cls] else "unknown"
  }

  function MakeDetection(names: seq<string>, cats: seq<Category>, i: nat, raw: RawBox): Detection
  {
    var name := ClassName(names, raw.cls);
    Detection(i, raw.cls, name, GarbageCategory(cats, name), raw.score, raw.box,
              BoxCenter(raw.box), BoxArea(raw.box))
  }

  function CategoriesOf(dets: seq<Detection>): (r: seq<string>)
    ensures |r| == |dets| && forall i | 0 <= i < |dets| :: r[i] == dets[i].category
  {
    seq(|dets|, i requires 0 <= i < |dets| => dets[i].category)
  }

  function ClassNamesOf(dets: seq<Detection>): (r: seq<string>)
    ensures |r| == |dets| && forall i | 0 <= i < |dets| :: r[i] == dets[i].className
  {
    seq(|dets|, i requires 0 <= i < |dets| => dets[i].className)
  }

  /** `{category: 0 for category in class_categories}` followed by
      `category_counts['unknown'] = 0`. */
  function InitialCounts(cats: seq<Category>): (c: Tallies)
    ensures forall k :: k in KeysOf(c) <==> k in CategoryNames(cats) || k == "unknown"
    ensures forall k :: Get(c, k) == 0
    ensures Total(c) == 0
  {
    var zeros := seq(|cats|, i requires 0 <= i < |cats| => Count(cats[i].name, 0));
    ZerosRead(zeros);
    KeysOfNames(cats, zeros);
    Add(zeros, "unknown", 0)
  }

  lemma {:induction false} ZerosRead(zeros: Tallies)
    requires forall i | 0 <= i < |zeros| :: zeros[i].n == 0
    ensures forall k :: Get(zeros, k) == 0
    ensures Total(zeros) == 0
    decreases |zeros|
  {
    if zeros != [] {
      ZerosRead(zeros[1..]);
    }
  }

  lemma {:induction false} KeysOfNames(cats: seq<Category>, zeros: Tallies)
    requires |zeros| == |cats| && forall i | 0 <= i < |cats| :: zeros[i].key == cats[i].name
    ensures KeysOf(zeros) == CategoryNames(cats)
    decreases |cats|
  {
    if cats != [] {
      KeysOfNames(cats[1..], zeros[1..]);
    }
  }

  /** `_get_class_distribution`: how often each class name was detected,
      in order of first appearance. */
  function ClassDistribution(dets: seq<Detection>): (r: Tallies)
    ensures Total(r) == |dets|
    ensures forall n :: Get(r, n) == Occurrences(ClassNamesOf(dets), n)
  {
    var r := Tally([], ClassNamesOf(dets));
    TallyCounts([], ClassNamesOf(dets), "");
    forall n ensures Get(r, n) == Occurrences(ClassNamesOf(dets), n) {
      TallyCounts([], ClassNamesOf(dets), n);
    }
    r
  }

  /** `_parse_results`: the i-th raw box becomes detection i, named from
      the class list or "unknown", categorised, and counted once under its
      category; every configured category and "unknown" appear in the
      counts even when zero. */
  function ParseResults(names: seq<string>, cats: seq<Category>, raws: seq<RawBox>): (r: DetectionResult)
    ensures |r.detections| == |raws| == r.totalDetections
    ensures forall i | 0 <= i < |raws| ::
              var d := r.detections[i];
              && d.id == i && d.classId == raws[i].cls
              && d.confidence == raws[i].score && d.bbox == raws[i].box
              && (raws[i].cls < |names| ==> d.className == names[raws[i].cls])
              && (raws[i].cls >= |names| ==> d.className == "unknown")
              && d.category == GarbageCategory(cats, d.className)
    ensures Total(r.categoryCounts) == r.totalDetections
    ensures forall k :: Get(r.categoryCounts, k) == Occurrences(CategoriesOf(r.detections), k)
    ensures forall k :: k in KeysOf(r.categoryCounts) <==> k in CategoryNames(cats) || k == "unknown"
    ensures Total(r.classDistribution) == r.totalDetections
  {
    var dets := seq(|raws|, i requires 0 <= i < |raws| => MakeDetection(names, cats, i, raws[i]));
    var init := InitialCounts(cats);
    var counts := Tally(init, CategoriesOf(dets));
    TallyKeys(init, CategoriesOf(dets));
    TallyCounts(init, CategoriesOf(dets), "unknown");
    forall k ensures Get(counts, k) == Occurrences(CategoriesOf(dets), k) {
      TallyCounts(init, CategoriesOf(dets), k);
    }
    DetectionResult(dets, |dets|, counts, ClassDistribution(dets))
  }

  /** `conf_threshold or self.confidence_threshold`: an omitted threshold
      and an explicit 0.0 (falsy) both fall back to the configured one. */
  function Effective(arg: Option<real>, configured: real): real
  {
    match arg
    case None => configured
    case Some(t) => if t != 0.0 then t else configured
  }

  /** `frame_times.append(t)` followed by trimming to the last 30: the
      new time is last, and the window is a suffix of the extended list. */
  function PushFrame(times: seq<real>, t: real): (w: seq<real>)
    ensures |w| == if |times| < FrameWindow then |times| + 1 else FrameWindow
    ensures w == (times + [t])[|times| + 1 - |w|..]
    ensures w[|w| - 1] == t
  {
    var all := times + [t];
    if |all| > FrameWindow then all[|all| - FrameWindow..] else all
  }

  /** The four clock readings of one `detect` call. */
  datatype Clock = Clock(start: real, finish: real, frame: real, stamp: real)

  datatype DetectOutcome = DetectOutcome(detector: Detector, result: DetectionResult,
                                         confUsed: real, iouUsed: real, detectionTime: real, fps: real)

  /** `detect`: ValueError without a model; otherwise the model runs with
      the effective thresholds. An exception from the model call is logged
      and re-raised, so nothing is recorded; otherwise its output is parsed,
      the frame time joins a window of at most 30, and one history record
      is appended. */
  function Detect(d: Detector, conf: Option<real>, iou: Option<real>,
                  infer: (real, real, int) -> Result<seq<RawBox>>, clock: Clock): (r: Result<DetectOutcome>)
    ensures var call := infer(Effective(conf, d.confidence), Effective(iou, d.iou), d.maxDetections);
            r.Failure? <==> !d.modelLoaded || call.Failure?
    ensures !d.modelLoaded ==> r == Failure("ValueError")
    ensures var call := infer(Effective(conf, d.confidence), Effective(iou, d.iou), d.maxDetections);
            d.modelLoaded && call.Failure? ==> r == Failure(call.error)
    ensures r.Success? ==>
              var o := r.value;
              && o.confUsed == Effective(conf, d.confidence)
              && o.iouUsed == Effective(iou, d.iou)
              && o.result == ParseResults(d.classNames, d.categories, infer(o.confUsed, o.iouUsed, d.maxDetections).value)
              && o.detector == d.(frameTimes := o.detector.frameTimes, history := o.detector.history)
              && o.detector.frameTimes == PushFrame(d.frameTimes, clock.frame)
              && o.detector.history == d.history + [HistoryEntry(clock.stamp, o.result.totalDetections, o.result.categoryCounts)]
              && o.fps == CalculateFps(o.detector.frameTimes)
  {
    if !d.modelLoaded then Failure("ValueError")
    else
      var confUsed := Effective(conf, d.confidence);
      var iouUsed := Effective(iou, d.iou);
      match infer(confUsed, iouUsed, d.maxDetections)
      case Failure(e) => Failure(e)
      case Success(raws) =>
        var result := ParseResults(d.classNames, d.categories, raws);
        var window := PushFrame(d.frameTimes, clock.frame);
        var entry := HistoryEntry(clock.stamp, result.totalDetections, result.categoryCounts);
        var d' := d.(frameTimes := window, history := d.history + [entry]);
        Success(DetectOutcome(d', result, confUsed, iouUsed, clock.finish - clock.start, CalculateFps(window)))
  }

  /** Passing 0.0 as the confidence threshold is the same as passing
      nothing: the configured threshold is used. */
  lemma ZeroThresholdFallsBack(d: Detector, iou: Option<real>, infer: (real, real, int) -> Result<seq<RawBox>>, clock: Clock)
    requires d.modelLoaded
    ensures Detect(d, Some(0.0), iou, infer, clock) == Detect(d, None, iou, infer, clock)
    ensures Detect(d, None, iou, infer, clock).Success? ==> Detect(d, None, iou, infer, clock).value.confUsed == d.confidence
  {
  }

  /** Every history record counts its detections once in its category
      counts. */
  predicate Consistent(h: seq<HistoryEntry>)
  {
    forall i | 0 <= i < |h| :: Total(h[i].categories) == h[i].detections
  }

  /** `detect` keeps the history consistent. */
  lemma DetectKeepsConsistent(d: Detector, conf: Option<real>, iou: Option<real>,
                              infer: (real, real, int) -> Result<seq<RawBox>>, clock: Clock)
    requires Consistent(d.history) && Detect(d, conf, iou, infer, clock).Success?
    ensures Consistent(Detect(d, conf, iou, infer, clock).value.detector.history)
  {
    var o := Detect(d, conf, iou, infer, clock).value;
    assert o.detector.history == d.history + [HistoryEntry(clock.stamp, o.result.totalDetections, o.result.categoryCounts)];
  }

  function SumDetections(h: seq<HistoryEntry>): nat
    decreases |h|
  {
    if h == [] then 0 else h[0].detections + SumDetections(h[1..])
  }

  /** One category's counts summed over the records. */
  function CategorySum(h: seq<HistoryEntry>, k: string): int
    decreases |h|
  {
    if h == [] then 0 else Get(h[0].categories, k) + CategorySum(h[1..], k)
  }

  /** The category loop of `get_detection_statistics`: every record's
      counts are added in turn, so each category ends with its own sum over
      the records, and all of them together with the detection total. */
  function CategoryTotals(acc: Tallies, h: seq<HistoryEntry>): (r: Tallies)
    ensures forall k :: Get(r, k) == Get(acc, k) + CategorySum(h, k)
    ensures Consistent(h) ==> Total(r) == Total(acc) + SumDetections(h)
    decreases |h|
  {
    if h == [] then acc
    else
      assert Consistent(h) ==> Consistent(h[1..]) by {
        if Consistent(h) {
          assert forall i | 0 <= i < |h[1..]| :: h[1..][i] == h[i + 1];
        }
      }
      CategoryTotals(Update(acc, h[0].categories), h[1..])
  }

  lemma ConsistentSuffix(h: seq<HistoryEntry>, n: nat)
    requires n <= |h|
    ensures Consistent(h) ==> Consistent(h[n..])
  {
    if Consistent(h) {
      assert forall i | 0 <= i < |h| - n :: h[n..][i] == h[n + i];
    }
  }

  /** `total / n` as Python's true division. */
  function Mean(total: nat, n: nat): (m: real)
    requires n > 0
    ensures m * n as real == total as real
  {
    total as real / n as real
  }

  datatype Statistics = Statistics(totalFramesProcessed: nat, totalDetections: nat, averageDetections: real,
                                   categoryTotals: Tallies, currentFps: real, modelLoaded: bool)

  /** `get_detection_statistics`: None stands for the message-only reply to
      an empty history; otherwise the last (at most) 100 records are
      aggregated. */
  function GetDetectionStatistics(d: Detector): (r: Option<Statistics>)
    ensures r.None? <==> d.history == []
    ensures r.Some? ==> 1 <= r.value.totalFramesProcessed <= StatisticsWindow
    ensures r.Some? ==> r.value.totalFramesProcessed == if |d.history| < StatisticsWindow then |d.history| else StatisticsWindow
    ensures r.Some? ==> r.value.averageDetections == Mean(r.value.totalDetections, r.value.totalFramesProcessed)
    ensures r.Some? ==>
              var s := r.value;
              var recent := d.history[|d.history| - s.totalFramesProcessed..];
              && s.totalDetections == SumDetections(recent)
              && (forall k :: Get(s.categoryTotals, k) == CategorySum(recent, k))
              && (Consistent(d.history) ==> Total(s.categoryTotals) == s.totalDetections)
              && s.currentFps == CalculateFps(d.frameTimes)
              && s.modelLoaded == d.modelLoaded
  {
    if d.history == [] then None
    else
      var recent := KeepLast(d.history, StatisticsWindow);
      ConsistentSuffix(d.history, |d.history| - |recent|);
      var s := Summarise(recent, CalculateFps(d.frameTimes), d.modelLoaded);
      assert recent == d.history[|d.history| - s.totalFramesProcessed..];
      Some(s)
  }

  /** The aggregation over a non-empty window of records. */
  function Summarise(recent: seq<HistoryEntry>, fps: real, loaded: bool): (s: Statistics)
    requires recent != []
    ensures s.totalFramesProcessed == |recent|
    ensures s.totalDetections == SumDetections(recent)
    ensures s.averageDetections == Mean(s.totalDetections, s.totalFramesProcessed)
    ensures forall k :: Get(s.categoryTotals, k) == CategorySum(recent, k)
    ensures Consistent(recent) ==> Total(s.categoryTotals) == s.totalDetections
    ensures s.currentFps == fps && s.modelLoaded == loaded
  {
    var total := SumDetections(recent);
    Statistics(|recent|, total, Mean(total, |recent|), CategoryTotals([], recent), fps, loaded)
  }

  /** `reset_statistics`: afterwards there is nothing to report. */
  function ResetStatistics(d: Detector): (r: Detector)
    ensures GetDetectionStatistics(r).None?
    ensures r.(frameTimes := d.frameTimes, history := d.history) == d
    ensures CalculateFps(r.frameTimes) == 0.0
  {
    d.(frameTimes := [], history := [])
  }

  /** `set_confidence_threshold` and `set_iou_threshold` share one rule:
      a value in [0, 1] is taken, anything else raises ValueError. */
  function CheckedThreshold(t: real): (r: Result<real>)
    ensures r.Success? <==> 0.0 <= t <= 1.0
    ensures r.Success? ==> r.value == t
  {
    if 0.0 <= t <= 1.0 then Success(t) else Failure("ValueError")
  }

  /** `set_confidence_threshold`: on failure the detector is unchanged
      because nothing is returned to replace it. */
  function SetConfidenceThreshold(d: Detector, t: real): (r: Result<Detector>)
    ensures r.Success? <==> 0.0 <= t <= 1.0
    ensures r.Success? ==> r.value == d.(confidence := t)
  {
    match CheckedThreshold(t)
    case Success(v) => Success(d.(confidence := v))
    case Failure(e) => Failure(e)
  }

  function SetIouThreshold(d: Detector, t: real): (r: Result<Detector>)
    ensures r.Success? <==> 0.0 <= t <= 1.0
    ensures r.Success? ==> r.value == d.(iou := t)
  {
    match CheckedThreshold(t)
    case Success(v) => Success(d.(iou := v))
    case Failure(e) => Failure(e)
  }
}

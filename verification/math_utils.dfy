/** `MathUtils`: box geometry, greedy non-maximum suppression, coordinate
    smoothing and frame-rate estimation, on exact reals. */
module MathUtils {
  import opened Wrappers
  import opened Sequences

  /** `[x1, y1, x2, y2]` */
  datatype Box = Box(x1: real, y1: real, x2: real, y2: real)

  /** `[x_center, y_center, width, height]` */
  datatype CenterBox = CenterBox(cx: real, cy: real, w: real, h: real)

  function Max(a: real, b: real): real { if a >= b then a else b }
  function Min(a: real, b: real): real { if a <= b then a else b }

  /** Corners satisfy x1 <= x2 and y1 <= y2. */
  predicate WellFormed(b: Box) { b.x1 <= b.x2 && b.y1 <= b.y2 }

  /** The two boxes share a region of positive area. */
  predicate Overlap(a: Box, b: Box)
  {
    Min(a.x2, b.x2) > Max(a.x1, b.x1) && Min(a.y2, b.y2) > Max(a.y1, b.y1)
  }

  /** `(x2 - x1) * (y2 - y1)` without clamping, as the IoU uses it. */
  function SignedArea(b: Box): real { (b.x2 - b.x1) * (b.y2 - b.y1) }

  function Intersection(a: Box, b: Box): real
  {
    (Min(a.x2, b.x2) - Max(a.x1, b.x1)) * (Min(a.y2, b.y2) - Max(a.y1, b.y1))
  }

  /** `calculate_iou`: zero for boxes that do not overlap (touching edges
      included) and when the union vanishes. */
  function Iou(a: Box, b: Box): (r: real)
    ensures !Overlap(a, b) ==> r == 0.0
    ensures Overlap(a, b) && SignedArea(a) + SignedArea(b) - Intersection(a, b) != 0.0 ==>
              r * (SignedArea(a) + SignedArea(b) - Intersection(a, b)) == Intersection(a, b)
  {
    if !Overlap(a, b) then 0.0
    else
      var union := SignedArea(a) + SignedArea(b) - Intersection(a, b);
      if union == 0.0 then 0.0 else Intersection(a, b) / union
  }

  /** IoU does not depend on the order of its arguments. */
  lemma IouSymmetric(a: Box, b: Box)
    ensures Iou(a, b) == Iou(b, a)
  {
    IntersectionSymmetric(a, b);
    assert Overlap(a, b) == Overlap(b, a);
  }

  lemma IntersectionSymmetric(a: Box, b: Box)
    ensures Intersection(a, b) == Intersection(b, a)
  {
    var dx := Min(a.x2, b.x2) - Max(a.x1, b.x1);
    var dy := Min(a.y2, b.y2) - Max(a.y1, b.y1);
    assert dx == Min(b.x2, a.x2) - Max(b.x1, a.x1);
    assert dy == Min(b.y2, a.y2) - Max(b.y1, a.y1);
  }

  lemma MulMono(a: real, b: real, c: real, d: real)
    requires 0.0 <= a <= c && 0.0 <= b <= d
    ensures a * b <= c * d
  {
    assert (c - a) * b >= 0.0;
    assert c * (d - b) >= 0.0;
  }

  lemma QuotientAtMostOne(n: real, d: real)
    requires 0.0 < n <= d
    ensures 0.0 < n / d <= 1.0
  {
  }

  /** For well-formed boxes the IoU lies in [0, 1] and is positive exactly
      when the boxes overlap. */
  lemma IouBounds(a: Box, b: Box)
    requires WellFormed(a) && WellFormed(b)
    ensures 0.0 <= Iou(a, b) <= 1.0
    ensures Iou(a, b) > 0.0 <==> Overlap(a, b)
  {
    if Overlap(a, b) {
      OverlapIntersection(a, b);
      RatioBounds(Intersection(a, b), SignedArea(a), SignedArea(b));
    }
  }

  /** Overlapping well-formed boxes share a positive area no larger than
      either box. */
  lemma OverlapIntersection(a: Box, b: Box)
    requires WellFormed(a) && WellFormed(b) && Overlap(a, b)
    ensures 0.0 < Intersection(a, b) <= SignedArea(a) && Intersection(a, b) <= SignedArea(b)
  {
    var dx := Min(a.x2, b.x2) - Max(a.x1, b.x1);
    var dy := Min(a.y2, b.y2) - Max(a.y1, b.y1);
    ProductBounds(dx, dy, a.x2 - a.x1, a.y2 - a.y1, b.x2 - b.x1, b.y2 - b.y1,
                  Intersection(a, b), SignedArea(a), SignedArea(b));
  }

  /** A positive rectangle inside two others has an area no larger than
      either. */
  lemma ProductBounds(dx: real, dy: real, wa: real, ha: real, wb: real, hb: real, i: real, sa: real, sb: real)
    requires 0.0 < dx <= wa && 0.0 < dy <= ha && dx <= wb && dy <= hb
    requires i == dx * dy && sa == wa * ha && sb == wb * hb
    ensures 0.0 < i <= sa && i <= sb
  {
    ProductPositive(dx, dy);
    MulMono(dx, dy, wa, ha);
    MulMono(dx, dy, wb, hb);
  }

  lemma ProductPositive(a: real, b: real)
    requires a > 0.0 && b > 0.0
    ensures a * b > 0.0
  {
  }

  /** A positive intersection over the union of two areas that contain it
      lies in (0, 1]. */
  lemma RatioBounds(i: real, sa: real, sb: real)
    requires 0.0 < i <= sa && i <= sb
    ensures sa + sb - i > 0.0 && 0.0 < i / (sa + sb - i) <= 1.0
  {
    QuotientAtMostOne(i, sa + sb - i);
  }

  /** A box of positive area overlaps itself completely. */
  lemma IouOfSelf(b: Box)
    requires b.x1 < b.x2 && b.y1 < b.y2
    ensures Iou(b, b) == 1.0
  {
    var area := SignedArea(b);
    assert Intersection(b, b) == area;
    assert area > 0.0 by {
      assert (b.x2 - b.x1) * (b.y2 - b.y1) > 0.0;
    }
    assert area + area - area == area;
    assert area / area == 1.0;
  }

  /** `box_area`: negative extents count as zero. */
  function BoxArea(b: Box): (r: real)
    ensures r >= 0.0
    ensures b.x2 <= b.x1 || b.y2 <= b.y1 ==> r == 0.0
    ensures WellFormed(b) ==> r == SignedArea(b)
  {
    var w := Max(0.0, b.x2 - b.x1);
    var h := Max(0.0, b.y2 - b.y1);
    assert w * h >= 0.0 by { MulMono(0.0, 0.0, w, h); }
    w * h
  }

  /** `box_center` */
  function BoxCenter(b: Box): (r: (real, real))
    ensures r.0 - b.x1 == b.x2 - r.0 && r.1 - b.y1 == b.y2 - r.1
  {
    ((b.x1 + b.x2) / 2.0, (b.y1 + b.y2) / 2.0)
  }

  /** `xywh_to_xyxy` */
  function XywhToXyxy(c: CenterBox): (b: Box)
    ensures b.x2 - b.x1 == c.w && b.y2 - b.y1 == c.h
  {
    Box(c.cx - c.w / 2.0, c.cy - c.h / 2.0, c.cx + c.w / 2.0, c.cy + c.h / 2.0)
  }

  /** `xyxy_to_xywh` */
  function XyxyToXywh(b: Box): (c: CenterBox)
    ensures c.w == b.x2 - b.x1 && c.h == b.y2 - b.y1
  {
    CenterBox((b.x1 + b.x2) / 2.0, (b.y1 + b.y2) / 2.0, b.x2 - b.x1, b.y2 - b.y1)
  }

  lemma CenterCornerRoundTrip(c: CenterBox)
    ensures XyxyToXywh(XywhToXyxy(c)) == c
  {
  }

  lemma CornerCenterRoundTrip(b: Box)
    ensures XywhToXyxy(XyxyToXywh(b)) == b
  {
  }

  /** The centre of a converted box is the centre it was built from, and its
      area is width × height. */
  lemma CenterBoxGeometry(c: CenterBox)
    requires c.w >= 0.0 && c.h >= 0.0
    ensures BoxCenter(XywhToXyxy(c)) == (c.cx, c.cy)
    ensures BoxArea(XywhToXyxy(c)) == c.w * c.h
  {
  }

  /** `normalize_box`: dividing by a zero image side raises. */
  function NormalizeBox(b: Box, width: int, height: int): (r: Result<Box>)
    ensures r.Success? <==> width != 0 && height != 0
    ensures r.Success? ==>
              && r.value.x1 * width as real == b.x1 && r.value.y1 * height as real == b.y1
              && r.value.x2 * width as real == b.x2 && r.value.y2 * height as real == b.y2
  {
    if width == 0 || height == 0 then Failure("ZeroDivisionError")
    else Success(Box(b.x1 / width as real, b.y1 / height as real, b.x2 / width as real, b.y2 / height as real))
  }

  /** `denormalize_box` */
  function DenormalizeBox(b: Box, width: int, height: int): (r: Box)
    ensures width != 0 && height != 0 ==>
              r.x1 / width as real == b.x1 && r.y1 / height as real == b.y1
              && r.x2 / width as real == b.x2 && r.y2 / height as real == b.y2
  {
    Box(b.x1 * width as real, b.y1 * height as real, b.x2 * width as real, b.y2 * height as real)
  }

  lemma NormalizeRoundTrip(b: Box, width: int, height: int)
    requires width != 0 && height != 0
    ensures NormalizeBox(b, width, height).Success?
    ensures DenormalizeBox(NormalizeBox(b, width, height).value, width, height) == b
  {
  }

  // ----------------------------------------------------- smoothing and rate

  /** The exponential moving average loop of `smooth_coordinates`, on one
      coordinate. */
  function Ema(start: real, xs: seq<real>, alpha: real): real
    decreases |xs|
  {
    if xs == [] then start else Ema(alpha * start + (1.0 - alpha) * xs[0], xs[1..], alpha)
  }

  function Xs(points: seq<(real, real)>): (r: seq<real>)
    ensures |r| == |points| && forall i | 0 <= i < |points| :: r[i] == points[i].0
  {
    seq(|points|, i requires 0 <= i < |points| => points[i].0)
  }

  function Ys(points: seq<(real, real)>): (r: seq<real>)
    ensures |r| == |points| && forall i | 0 <= i < |points| :: r[i] == points[i].1
  {
    seq(|points|, i requires 0 <= i < |points| => points[i].1)
  }

  /** `smooth_coordinates(coords_history, alpha)` */
  function SmoothCoordinates(history: seq<(real, real)>, alpha: real): (r: (real, real))
    ensures history == [] ==> r == (0.0, 0.0)
    ensures |history| == 1 ==> r == history[0]
  {
    if history == [] then (0.0, 0.0)
    else if |history| == 1 then history[0]
    else (Ema(history[0].0, Xs(history[1..]), alpha), Ema(history[0].1, Ys(history[1..]), alpha))
  }


  lemma ProductNonNegative(x: real, y: real)
    requires x >= 0.0 && y >= 0.0
    ensures x * y >= 0.0
  {
  }

  /** A convex combination of two values in [lo, hi] stays in [lo, hi]. */
  lemma Convex(alpha: real, a: real, b: real, lo: real, hi: real)
    requires 0.0 <= alpha <= 1.0 && lo <= a <= hi && lo <= b <= hi
    ensures lo <= alpha * a + (1.0 - alpha) * b <= hi
  {
    var beta := 1.0 - alpha;
    ProductNonNegative(alpha, a - lo);
    ProductNonNegative(beta, b - lo);
    ProductNonNegative(alpha, hi - a);
    ProductNonNegative(beta, hi - b);
    assert alpha * a + beta * b - lo == alpha * (a - lo) + beta * (b - lo);
    assert hi - (alpha * a + beta * b) == alpha * (hi - a) + beta * (hi - b);
  }

  /** Each averaging step is a convex combination, so the average never
      leaves an interval that holds the start and every later value. */
  lemma {:induction false} EmaWithin(start: real, xs: seq<real>, alpha: real, lo: real, hi: real)
    requires 0.0 <= alpha <= 1.0 && lo <= start <= hi
    requires forall i | 0 <= i < |xs| :: lo <= xs[i] <= hi
    ensures lo <= Ema(start, xs, alpha) <= hi
    decreases |xs|
  {
    if xs != [] {
      var next := alpha * start + (1.0 - alpha) * xs[0];
      Convex(alpha, start, xs[0], lo, hi);
      assert forall i | 0 <= i < |xs[1..]| :: lo <= xs[1..][i] <= hi by {
        forall i | 0 <= i < |xs[1..]| ensures lo <= xs[1..][i] <= hi {
          assert xs[1..][i] == xs[i + 1];
        }
      }
      EmaWithin(next, xs[1..], alpha, lo, hi);
    }
  }

  /** With alpha in [0, 1] the smoothed point lies within the bounding box
      of the history. */
  lemma SmoothWithinHistory(history: seq<(real, real)>, alpha: real, loX: real, hiX: real, loY: real, hiY: real)
    requires 0.0 <= alpha <= 1.0 && history != []
    requires forall i | 0 <= i < |history| :: loX <= history[i].0 <= hiX && loY <= history[i].1 <= hiY
    ensures var r := SmoothCoordinates(history, alpha);
            loX <= r.0 <= hiX && loY <= r.1 <= hiY
  {
    if |history| > 1 {
      EmaWithin(history[0].0, Xs(history[1..]), alpha, loX, hiX);
      EmaWithin(history[0].1, Ys(history[1..]), alpha, loY, hiY);
    }
  }

  /** With alpha = 0 the average forgets everything but the newest value. */
  lemma {:induction false} EmaForgetful(start: real, xs: seq<real>)
    requires xs != []
    ensures Ema(start, xs, 0.0) == xs[|xs| - 1]
    decreases |xs|
  {
    if |xs| > 1 {
      EmaForgetful(xs[0], xs[1..]);
    }
  }

  /** With alpha = 1 the average never moves from its start. */
  lemma {:induction false} EmaStubborn(start: real, xs: seq<real>)
    ensures Ema(start, xs, 1.0) == start
    decreases |xs|
  {
    if xs != [] {
      EmaStubborn(start, xs[1..]);
    }
  }

  /** alpha = 0 smooths to the newest point, alpha = 1 to the oldest. */
  lemma SmoothExtremes(history: seq<(real, real)>)
    requires history != []
    ensures SmoothCoordinates(history, 0.0) == history[|history| - 1]
    ensures SmoothCoordinates(history, 1.0) == history[0]
  {
    if |history| > 1 {
      EmaForgetful(history[0].0, Xs(history[1..]));
      EmaForgetful(history[0].1, Ys(history[1..]));
      EmaStubborn(history[0].0, Xs(history[1..]));
      EmaStubborn(history[0].1, Ys(history[1..]));
    }
  }

  /** `sum(frame_times[i] - frame_times[i-1] for i in 1..)` */
  function SumGaps(times: seq<real>): real
    decreases |times|
  {
    if |times| < 2 then 0.0 else (times[1] - times[0]) + SumGaps(times[1..])
  }

  /** The gaps telescope to the span from the first to the last timestamp. */
  lemma {:induction false} SumGapsTelescopes(times: seq<real>)
    requires |times| >= 2
    ensures SumGaps(times) == times[|times| - 1] - times[0]
    decreases |times|
  {
    if |times| > 2 {
      SumGapsTelescopes(times[1..]);
    }
  }

  /** `calculate_fps`: frames per unit time over the whole window, zero for
      fewer than two timestamps or a zero span. */
  function CalculateFps(times: seq<real>): (r: real)
    ensures |times| < 2 ==> r == 0.0
    ensures |times| >= 2 && times[|times| - 1] == times[0] ==> r == 0.0
    ensures |times| >= 2 && times[|times| - 1] != times[0] ==>
              r * (times[|times| - 1] - times[0]) == (|times| - 1) as real
  {
    if |times| < 2 then 0.0
    else
      SumGapsTelescopes(times);
      var mean := SumGaps(times) / (|times| - 1) as real;
      if mean == 0.0 then 0.0
      else
        assert mean * (|times| - 1) as real == times[|times| - 1] - times[0];
        1.0 / mean
  }

  // ------------------------------------------------- non-maximum suppression

  /** `[i for i, score in enumerate(scores) if score >= score_threshold]`,
      starting at index `from`. */
  function Candidates(scores: seq<real>, threshold: real, from: nat): (r: seq<nat>)
    requires from <= |scores|
    ensures forall i | 0 <= i < |r| :: from <= r[i] < |scores| && scores[r[i]] >= threshold
    ensures forall x | x in r :: x < |scores| && scores[x] >= threshold
    ensures forall i | from <= i < |scores| && scores[i] >= threshold :: i in r
    ensures forall i, j | 0 <= i < j < |r| :: r[i] < r[j]
    ensures InRange(scores, r) && Distinct(r)
    decreases |scores| - from
  {
    if from == |scores| then []
    else if scores[from] >= threshold then [from] + Candidates(scores, threshold, from + 1)
    else Candidates(scores, threshold, from + 1)
  }

  /** The order of a descending stable sort on scores: higher score first,
      and among equal scores the lower index first. */
  predicate Ahead(scores: seq<real>, a: nat, b: nat)
  {
    a < |scores| && b < |scores| && (scores[a] > scores[b] || (scores[a] == scores[b] && a < b))
  }

  function AheadIn(scores: seq<real>): (nat, nat) -> bool
  {
    (a: nat, b: nat) => Ahead(scores, a, b)
  }

  predicate InRange(scores: seq<real>, xs: seq<nat>)
  {
    forall i | 0 <= i < |xs| :: xs[i] < |scores|
  }

  /** Insert `x` in front of the first element it is ahead of. */
  function Insert(scores: seq<real>, x: nat, xs: seq<nat>): (r: seq<nat>)
    ensures multiset(r) == multiset(xs) + multiset{x}
    decreases |xs|
  {
    if xs == [] then [x]
    else if Ahead(scores, x, xs[0]) then [x] + xs
    else
      assert xs == [xs[0]] + xs[1..];
      [xs[0]] + Insert(scores, x, xs[1..])
  }

  lemma {:induction false} InsertSorted(scores: seq<real>, x: nat, xs: seq<nat>)
    requires x < |scores| && InRange(scores, xs) && Pairwise(xs, AheadIn(scores)) && x !in xs
    ensures Pairwise(Insert(scores, x, xs), AheadIn(scores))
    decreases |xs|
  {
    if xs == [] {
    } else if Ahead(scores, x, xs[0]) {
      PairwiseCons(xs[0], xs[1..], AheadIn(scores));
      assert [xs[0]] + xs[1..] == xs;
      forall i | 0 <= i < |xs| ensures Ahead(scores, x, xs[i]) {
        if i > 0 {
          PairwiseHead(xs, AheadIn(scores), xs[i]);
        }
      }
      PairwiseCons(x, xs, AheadIn(scores));
    } else {
      var rest := Insert(scores, x, xs[1..]);
      PairwiseCons(xs[0], xs[1..], AheadIn(scores));
      assert [xs[0]] + xs[1..] == xs;
      InsertSorted(scores, x, xs[1..]);
      HeadAheadOfInsert(scores, x, xs);
      PairwiseCons(xs[0], rest, AheadIn(scores));
    }
  }

  /** When `x` is not ahead of the head, the head stays ahead of everything
      inserted after it. */
  lemma HeadAheadOfInsert(scores: seq<real>, x: nat, xs: seq<nat>)
    requires x < |scores| && xs != [] && xs[0] < |scores| && x != xs[0]
    requires Pairwise(xs, AheadIn(scores)) && !Ahead(scores, x, xs[0])
    ensures forall k | 0 <= k < |Insert(scores, x, xs[1..])| :: Ahead(scores, xs[0], Insert(scores, x, xs[1..])[k])
  {
    var rest := Insert(scores, x, xs[1..]);
    forall k | 0 <= k < |rest| ensures Ahead(scores, xs[0], rest[k]) {
      assert rest[k] in multiset(xs[1..]) + multiset{x};
      if rest[k] != x {
        PairwiseHead(xs, AheadIn(scores), rest[k]);
      }
    }
  }

  /** `indices.sort(key=lambda i: scores[i], reverse=True)` on distinct
      indices: a permutation in `Ahead` order. */
  function SortByScore(scores: seq<real>, xs: seq<nat>): (r: seq<nat>)
    requires InRange(scores, xs) && Distinct(xs)
    ensures multiset(r) == multiset(xs)
    ensures InRange(scores, r) && Pairwise(r, AheadIn(scores))
    decreases |xs|
  {
    if xs == [] then []
    else
      var init := xs[..|xs| - 1];
      var x := xs[|xs| - 1];
      assert xs == init + [x];
      var sorted := SortByScore(scores, init);
      assert x !in sorted by {
        assert x !in init;
        assert x in sorted ==> x in multiset(init);
      }
      InsertSorted(scores, x, sorted);
      var r := Insert(scores, x, sorted);
      assert InRange(scores, r) by {
        forall k | 0 <= k < |r| ensures r[k] < |scores| {
          assert r[k] in multiset(xs);
        }
      }
      r
  }

  lemma AheadPairs(scores: seq<real>, xs: seq<nat>)
    requires Pairwise(xs, AheadIn(scores))
    ensures forall i, j | 0 <= i < j < |xs| :: Ahead(scores, xs[i], xs[j])
  {
    forall i, j | 0 <= i < j < |xs| ensures Ahead(scores, xs[i], xs[j]) {
      assert AheadIn(scores)(xs[i], xs[j]);
    }
  }

  /** Indices in `Ahead` order carry non-increasing scores and no
      repetitions. */
  lemma SortedAheadMeaning(scores: seq<real>, xs: seq<nat>)
    requires Pairwise(xs, AheadIn(scores))
    ensures Distinct(xs)
    ensures forall i, j | 0 <= i < j < |xs| :: xs[i] < |scores| && xs[j] < |scores| && scores[xs[i]] >= scores[xs[j]]
  {
    AheadPairs(scores, xs);
  }

  /** The test that spares candidate `y` from the kept `x`. */
  function Spared<T>(ok: (T, T) -> bool, x: T): T -> bool
  {
    y => ok(x, y)
  }

  /** The greedy loop of `non_max_suppression`: keep the head, drop the
      candidates it does not spare, repeat on the rest. */
  function Greedy<T>(xs: seq<T>, ok: (T, T) -> bool): (keep: seq<T>)
    ensures |keep| <= |xs|
    ensures xs != [] ==> keep != [] && keep[0] == xs[0]
    ensures forall i | 0 <= i < |keep| :: keep[i] in xs
    decreases |xs|
  {
    if xs == [] then []
    else [xs[0]] + Greedy(Filter(xs[1..], Spared(ok, xs[0])), ok)
  }

  /** Every kept element spares every element kept after it. */
  lemma {:induction false} GreedySpares<T>(xs: seq<T>, ok: (T, T) -> bool)
    ensures Pairwise(Greedy(xs, ok), ok)
    decreases |xs|
  {
    if xs != [] {
      var surv := Filter(xs[1..], Spared(ok, xs[0]));
      var tail := Greedy(surv, ok);
      GreedySpares(surv, ok);
      assert forall i | 0 <= i < |tail| :: tail[i] in surv;
      PairwiseCons(xs[0], tail, ok);
    }
  }

  /** The greedy loop keeps any order its input was in. */
  lemma {:induction false} GreedyKeepsOrder<T>(xs: seq<T>, ok: (T, T) -> bool, R: (T, T) -> bool)
    requires Pairwise(xs, R)
    ensures Pairwise(Greedy(xs, ok), R)
    decreases |xs|
  {
    if xs != [] {
      PairwiseCons(xs[0], xs[1..], R);
      assert [xs[0]] + xs[1..] == xs;
      var surv := Filter(xs[1..], Spared(ok, xs[0]));
      FilterPairwise(xs[1..], Spared(ok, xs[0]), R);
      GreedyKeepsOrder(surv, ok, R);
      var tail := Greedy(surv, ok);
      forall i | 0 <= i < |tail| ensures R(xs[0], tail[i]) {
        PairwiseHead(xs, R, tail[i]);
      }
      PairwiseCons(xs[0], tail, R);
    }
  }

  /** Every dropped element was refused by some kept element. */
  lemma {:induction false} GreedySuppresses<T>(xs: seq<T>, ok: (T, T) -> bool, x: T)
    requires x in xs && x !in Greedy(xs, ok)
    ensures exists j :: 0 <= j < |Greedy(xs, ok)| && !ok(Greedy(xs, ok)[j], x)
    decreases |xs|
  {
    var surv := Filter(xs[1..], Spared(ok, xs[0]));
    var tail := Greedy(surv, ok);
    var keep := Greedy(xs, ok);
    assert keep == [xs[0]] + tail;
    assert x != xs[0];
    assert x in xs[1..] by {
      var m :| 0 <= m < |xs| && xs[m] == x;
      assert xs[1..][m - 1] == x;
    }
    if ok(xs[0], x) {
      assert Spared(ok, xs[0])(x);
      assert x in surv;
      GreedySuppresses(surv, ok, x);
      var j :| 0 <= j < |tail| && !ok(tail[j], x);
      assert keep[j + 1] == tail[j];
    } else {
      assert keep[0] == xs[0];
    }
  }

  /** Two boxes may both be kept when their IoU stays within the threshold. */
  function Compatible(boxes: seq<Box>, iouThreshold: real): (nat, nat) -> bool
  {
    (i: nat, j: nat) => i < |boxes| && j < |boxes| && Iou(boxes[i], boxes[j]) <= iouThreshold
  }

  /** Sort the candidates and run the greedy loop over them. A single
      candidate is kept without looking at any box. */
  function Suppress(boxes: seq<Box>, scores: seq<real>, candidates: seq<nat>, iouThreshold: real): (keep: seq<nat>)
    requires InRange(scores, candidates) && Distinct(candidates)
    ensures Distinct(keep)
    ensures |keep| <= |candidates| && (candidates != [] ==> keep != [])
    ensures forall i | 0 <= i < |keep| :: keep[i] in candidates
    ensures forall i, j | 0 <= i < j < |keep| :: keep[i] < |scores| && keep[j] < |scores| && scores[keep[i]] >= scores[keep[j]]
  {
    var order := SortByScore(scores, candidates);
    GreedyKeepsOrder<nat>(order, Compatible(boxes, iouThreshold), AheadIn(scores));
    var keep := Greedy<nat>(order, Compatible(boxes, iouThreshold));
    SortedAheadMeaning(scores, keep);
    assert forall i | 0 <= i < |keep| :: keep[i] in multiset(candidates);
    keep
  }

  /** Some index that passes the score threshold has no box. */
  predicate CandidateBeyond(boxes: seq<Box>, scores: seq<real>, scoreThreshold: real)
  {
    exists i :: |boxes| <= i < |scores| && scores[i] >= scoreThreshold
  }

  /** `non_max_suppression`. The candidates are sorted by descending score
      (stably), and the greedy loop looks up `boxes[i]` only once two or more
      candidates exist, so a candidate index past the end of `boxes` raises
      exactly then. */
  function NonMaxSuppression(boxes: seq<Box>, scores: seq<real>, scoreThreshold: real, iouThreshold: real): (r: Result<seq<nat>>)
    ensures boxes == [] || scores == [] ==> r == Success([])
    ensures r.Success? ==>
              var keep := r.value;
              && Distinct(keep)
              && (forall i | 0 <= i < |keep| :: keep[i] < |scores| && scores[keep[i]] >= scoreThreshold)
              && (forall i, j | 0 <= i < j < |keep| :: scores[keep[i]] >= scores[keep[j]])
  {
    if boxes == [] || scores == [] then
      assert scores == [] ==> Candidates(scores, scoreThreshold, 0) == [];
      Success([])
    else
      var candidates := Candidates(scores, scoreThreshold, 0);
      if |candidates| >= 2 && CandidateBeyond(boxes, scores, scoreThreshold) then Failure("IndexError")
      else
        var keep := Suppress(boxes, scores, candidates, iouThreshold);
        assert forall i | 0 <= i < |keep| :: keep[i] in candidates;
        Success(keep)
  }

  /** The call raises `IndexError` exactly when two or more candidates
      pass the score threshold and one of them has no box. */
  lemma NonMaxSuppressionFails(boxes: seq<Box>, scores: seq<real>, scoreThreshold: real, iouThreshold: real)
    ensures NonMaxSuppression(boxes, scores, scoreThreshold, iouThreshold).Failure? <==>
              boxes != [] && |Candidates(scores, scoreThreshold, 0)| >= 2 && CandidateBeyond(boxes, scores, scoreThreshold)
  {
    if scores == [] {
      assert Candidates(scores, scoreThreshold, 0) == [];
    }
  }

  /** The greedy loop keeps boxes that pairwise overlap within the
      threshold. */
  lemma GreedyKeepsApart(boxes: seq<Box>, iouThreshold: real, order: seq<nat>)
    ensures var keep := Greedy<nat>(order, Compatible(boxes, iouThreshold));
            forall i, j | 0 <= i < j < |keep| ::
              keep[i] < |boxes| && keep[j] < |boxes| && Iou(boxes[keep[i]], boxes[keep[j]]) <= iouThreshold
  {
    var ok := Compatible(boxes, iouThreshold);
    var keep := Greedy<nat>(order, ok);
    GreedySpares<nat>(order, ok);
    forall i, j | 0 <= i < j < |keep|
      ensures keep[i] < |boxes| && keep[j] < |boxes| && Iou(boxes[keep[i]], boxes[keep[j]]) <= iouThreshold
    {
      assert ok(keep[i], keep[j]);
    }
  }

  /** Over in-range indices the greedy loop drops a box only when it
      overlaps a kept one beyond the threshold. */
  lemma GreedyDropsOverlapping(boxes: seq<Box>, iouThreshold: real, order: seq<nat>, x: nat)
    requires forall i | 0 <= i < |order| :: order[i] < |boxes|
    requires x in order && x !in Greedy<nat>(order, Compatible(boxes, iouThreshold))
    ensures var keep := Greedy<nat>(order, Compatible(boxes, iouThreshold));
            x < |boxes| && exists j :: 0 <= j < |keep| && keep[j] < |boxes| && Iou(boxes[keep[j]], boxes[x]) > iouThreshold
  {
    var ok := Compatible(boxes, iouThreshold);
    var keep := Greedy<nat>(order, ok);
    GreedySuppresses<nat>(order, ok, x);
    var j :| 0 <= j < |keep| && !ok(keep[j], x);
    assert keep[j] in order;
  }

  lemma SuppressionResult(boxes: seq<Box>, scores: seq<real>, scoreThreshold: real, iouThreshold: real)
    requires boxes != [] && scores != [] && NonMaxSuppression(boxes, scores, scoreThreshold, iouThreshold).Success?
    ensures NonMaxSuppression(boxes, scores, scoreThreshold, iouThreshold).value
            == Greedy<nat>(SortByScore(scores, Candidates(scores, scoreThreshold, 0)), Compatible(boxes, iouThreshold))
  {
  }

  /** The boxes `non_max_suppression` keeps pairwise overlap no more than
      the IoU threshold. */
  lemma NonMaxSuppressionKeepsApart(boxes: seq<Box>, scores: seq<real>, scoreThreshold: real, iouThreshold: real, keep: seq<nat>)
    requires NonMaxSuppression(boxes, scores, scoreThreshold, iouThreshold) == Success(keep)
    ensures forall i, j | 0 <= i < j < |keep| ::
              keep[i] < |boxes| && keep[j] < |boxes| && Iou(boxes[keep[i]], boxes[keep[j]]) <= iouThreshold
  {
    if boxes != [] && scores != [] {
      var candidates := Candidates(scores, scoreThreshold, 0);
      SuppressionResult(boxes, scores, scoreThreshold, iouThreshold);
      var order := SortByScore(scores, candidates);
      GreedyKeepsApart(boxes, iouThreshold, order);
    }
  }

  /** Every index that passes the score threshold but is not kept has a box
      that overlaps some kept box beyond the IoU threshold. */
  lemma NonMaxSuppressionDropsOverlapping(boxes: seq<Box>, scores: seq<real>, scoreThreshold: real, iouThreshold: real,
                                          keep: seq<nat>, x: nat)
    requires NonMaxSuppression(boxes, scores, scoreThreshold, iouThreshold) == Success(keep)
    requires boxes != [] && x < |scores| && scores[x] >= scoreThreshold && x !in keep
    ensures x < |boxes| && exists j :: 0 <= j < |keep| && keep[j] < |boxes| && Iou(boxes[keep[j]], boxes[x]) > iouThreshold
  {
    var candidates := Candidates(scores, scoreThreshold, 0);
    assert x in candidates;
    if |candidates| <= 1 {
      LoneCandidateKept(boxes, scores, scoreThreshold, iouThreshold, keep, x);
      assert false;
    } else {
      SuppressionResult(boxes, scores, scoreThreshold, iouThreshold);
      var order := SortByScore(scores, candidates);
      OrderHasBoxes(boxes, scores, scoreThreshold, iouThreshold, keep, x);
      GreedyDropsOverlapping(boxes, iouThreshold, order, x);
    }
  }

  /** The sorted candidates all have boxes, and hold every candidate. */
  lemma OrderHasBoxes(boxes: seq<Box>, scores: seq<real>, scoreThreshold: real, iouThreshold: real,
                      keep: seq<nat>, x: nat)
    requires NonMaxSuppression(boxes, scores, scoreThreshold, iouThreshold) == Success(keep)
    requires boxes != [] && |Candidates(scores, scoreThreshold, 0)| >= 2 && x in Candidates(scores, scoreThreshold, 0)
    ensures var order := SortByScore(scores, Candidates(scores, scoreThreshold, 0));
            (forall i | 0 <= i < |order| :: order[i] < |boxes|) && x in order
  {
    var candidates := Candidates(scores, scoreThreshold, 0);
    CandidatesHaveBoxes(boxes, scores, scoreThreshold, iouThreshold, keep);
    var order := SortByScore(scores, candidates);
    forall i | 0 <= i < |order| ensures order[i] < |boxes| {
      assert order[i] in multiset(candidates);
    }
    assert x in multiset(order);
  }

  /** With a single candidate there is nothing to suppress it. */
  lemma LoneCandidateKept(boxes: seq<Box>, scores: seq<real>, scoreThreshold: real, iouThreshold: real,
                          keep: seq<nat>, x: nat)
    requires NonMaxSuppression(boxes, scores, scoreThreshold, iouThreshold) == Success(keep)
    requires boxes != [] && x in Candidates(scores, scoreThreshold, 0) && |Candidates(scores, scoreThreshold, 0)| <= 1
    ensures x in keep
  {
    var candidates := Candidates(scores, scoreThreshold, 0);
    assert candidates == [x];
    assert keep == Suppress(boxes, scores, candidates, iouThreshold);
    assert keep != [] && keep[0] in candidates;
  }

  /** Once two candidates exist and the call succeeds, every candidate has
      a box. */
  lemma CandidatesHaveBoxes(boxes: seq<Box>, scores: seq<real>, scoreThreshold: real, iouThreshold: real, keep: seq<nat>)
    requires NonMaxSuppression(boxes, scores, scoreThreshold, iouThreshold) == Success(keep)
    requires boxes != [] && |Candidates(scores, scoreThreshold, 0)| >= 2
    ensures forall x | x in Candidates(scores, scoreThreshold, 0) :: x < |boxes|
  {
    NonMaxSuppressionFails(boxes, scores, scoreThreshold, iouThreshold);
  }
}

/** The viewport tracker as functions on values: the two-state controller,
    the boundary clamp, the sliding-window average, the box selection, one
    record's step and a whole input stream. The class in
    viewport_calculator.dfy is proved against these definitions. */
module Viewport {
  import opened Records

  datatype ViewportState = Tracking | Steady

  /** Consecutive motion-free records after which the tracker settles. */
  const SteadyAfterN: nat := 3

  /** The running best score the box scan starts from (-1e18). */
  const ScoreFloor: real := -1000000000000000000.0

  /** The configuration the tracker reads. `score(box, previousCentre,
      frameWidth, frameHeight)` stands for the floating-point heuristic
      (capped area, distance to the previous centre, bottom-zone penalty);
      only the rule that selects by it is modelled. */
  datatype TrackerConfig = TrackerConfig(
    viewportWidth: nat,
    viewportHeight: nat,
    smoothingWindowSize: nat,
    score: (Box, Point, nat, nat) -> real)

  // ---------------------------------------------------------------------
  // Two-state controller

  /** One evaluation of the transition rule: the new state and no-motion count. */
  function Transition(state: ViewportState, noMotionCount: nat, hasMotion: bool): (r: (ViewportState, nat))
    ensures r.1 == 0 <==> hasMotion
    ensures !hasMotion ==> r.1 == noMotionCount + 1
    ensures r.0 == Tracking <==> hasMotion || (state == Tracking && noMotionCount + 1 < SteadyAfterN)
  {
    if hasMotion then (Tracking, 0)
    else (if noMotionCount + 1 >= SteadyAfterN then Steady else state, noMotionCount + 1)
  }

  /** The controller after `k` consecutive records without motion. */
  function AfterEmpty(state: ViewportState, noMotionCount: nat, k: nat): (ViewportState, nat)
    decreases k
  {
    if k == 0 then (state, noMotionCount)
    else
      var (s, c) := Transition(state, noMotionCount, false);
      AfterEmpty(s, c, k - 1)
  }

  /** A run of empty records only counts up, and turns the state to STEADY
      exactly once the count has reached the threshold; before that the
      state is left as it was. */
  lemma {:induction false} AfterEmptyState(state: ViewportState, noMotionCount: nat, k: nat)
    ensures AfterEmpty(state, noMotionCount, k)
         == (if k > 0 && noMotionCount + k >= SteadyAfterN then Steady else state, noMotionCount + k)
    decreases k
  {
    if k > 0 {
      var (s, c) := Transition(state, noMotionCount, false);
      AfterEmptyState(s, c, k - 1);
    }
  }

  /** Hysteresis: after a record with motion the tracker is TRACKING, and
      it stays so through the next two empty records; the third turns it
      STEADY. */
  lemma MotionThenEmpty(state: ViewportState, noMotionCount: nat, k: nat)
    ensures Transition(state, noMotionCount, true) == (Tracking, 0)
    ensures AfterEmpty(Tracking, 0, k).0 == (if k >= SteadyAfterN then Steady else Tracking)
  {
    AfterEmptyState(Tracking, 0, k);
  }

  // ---------------------------------------------------------------------
  // Boundary clamp

  function Min(a: int, b: int): int { if a <= b then a else b }

  function Max(a: int, b: int): int { if a >= b then a else b }

  /** max(lo, min(v, hi)). */
  function ClampAxis(v: int, lo: int, hi: int): (r: int)
    ensures lo <= r
    ensures lo <= hi ==> r <= hi
    ensures lo <= v <= hi ==> r == v
    ensures lo <= hi && v < lo ==> r == lo
    ensures lo <= hi && hi < v ==> r == hi
    ensures hi < lo ==> r == lo
  {
    Max(lo, Min(v, hi))
  }

  /** The viewport is no larger than the frame on either axis. */
  predicate Fits(cfg: TrackerConfig, frameWidth: nat, frameHeight: nat)
  {
    cfg.viewportWidth <= frameWidth && cfg.viewportHeight <= frameHeight
  }

  /** The centre lies within the clamp bounds on both axes:
      vw//2 <= c.x <= frameWidth - vw//2, and likewise for y. For an even
      viewport size this keeps the viewport's pixels inside the frame; for
      an odd size the last column (or row) may lie one past the frame's
      right (or bottom) edge. */
  predicate InBounds(cfg: TrackerConfig, c: Point, frameWidth: nat, frameHeight: nat)
  {
    && 0 <= c.x - cfg.viewportWidth / 2 && c.x + cfg.viewportWidth / 2 <= frameWidth
    && 0 <= c.y - cfg.viewportHeight / 2 && c.y + cfg.viewportHeight / 2 <= frameHeight
  }

  function ClampViewport(cfg: TrackerConfig, c: Point, frameWidth: nat, frameHeight: nat): (r: Point)
    ensures Fits(cfg, frameWidth, frameHeight) ==> InBounds(cfg, r, frameWidth, frameHeight)
    ensures InBounds(cfg, c, frameWidth, frameHeight) ==> r == c
  {
    Point(ClampAxis(c.x, cfg.viewportWidth / 2, frameWidth - cfg.viewportWidth / 2),
          ClampAxis(c.y, cfg.viewportHeight / 2, frameHeight - cfg.viewportHeight / 2))
  }

  /** Clamping twice is clamping once, also when the viewport is larger
      than the frame and every point clamps to the lower bound. */
  lemma ClampIdempotent(cfg: TrackerConfig, c: Point, frameWidth: nat, frameHeight: nat)
    ensures var r := ClampViewport(cfg, c, frameWidth, frameHeight);
            ClampViewport(cfg, r, frameWidth, frameHeight) == r
  {
  }

  /** The frame midpoint `(w // 2, h // 2)`. */
  function Midpoint(frameWidth: nat, frameHeight: nat): Point
  {
    Point(frameWidth / 2, frameHeight / 2)
  }

  lemma MidpointInBounds(cfg: TrackerConfig, frameWidth: nat, frameHeight: nat)
    requires Fits(cfg, frameWidth, frameHeight)
    ensures InBounds(cfg, Midpoint(frameWidth, frameHeight), frameWidth, frameHeight)
  {
  }

  // ---------------------------------------------------------------------
  // Sliding window

  /** The last `n` elements of `s` (all of them if there are fewer). */
  function Last<T>(s: seq<T>, n: nat): seq<T>
  {
    if |s| <= n then s else s[|s| - n..]
  }

  /** Appending to a deque of maximum length `maxLen`: once it is full the
      oldest entry leaves; with `maxLen == 0` nothing is kept. */
  function Push(window: seq<Point>, p: Point, maxLen: nat): (r: seq<Point>)
    requires |window| <= maxLen
    ensures |r| <= maxLen
    ensures r == Last(window + [p], maxLen)
  {
    if |window| < maxLen then window + [p]
    else if maxLen == 0 then []
    else window[1..] + [p]
  }

  /** Pushing a sequence of values, one after another. */
  function PushAll(window: seq<Point>, ps: seq<Point>, maxLen: nat): (r: seq<Point>)
    requires |window| <= maxLen
    ensures |r| <= maxLen
    decreases |ps|
  {
    if ps == [] then window else PushAll(Push(window, ps[0], maxLen), ps[1..], maxLen)
  }

  lemma LastOfSuffix<T>(v: seq<T>, k: nat, n: nat)
    requires k <= |v| && n <= |v| - k
    ensures Last(v[k..], n) == Last(v, n)
  {
    assert v[k..][|v| - k - n..] == v[|v| - n..];
  }

  lemma LastThenAppend<T>(s: seq<T>, t: seq<T>, n: nat)
    ensures Last(Last(s, n) + t, n) == Last(s + t, n)
  {
    if |s| > n {
      assert s[|s| - n..] + t == (s + t)[|s| - n..];
      LastOfSuffix(s + t, |s| - n, n);
    }
  }

  lemma PushThenAppend(window: seq<Point>, p: Point, rest: seq<Point>, maxLen: nat)
    requires |window| <= maxLen
    ensures Last(Push(window, p, maxLen) + rest, maxLen) == Last(window + ([p] + rest), maxLen)
  {
    LastThenAppend(window + [p], rest, maxLen);
    assert window + [p] + rest == window + ([p] + rest);
  }

  /** The window always holds the most recent pushes, in order: pushing
      `ps` onto `window` leaves the last `maxLen` values of `window + ps`. */
  lemma {:induction false} PushAllKeepsLatest(window: seq<Point>, ps: seq<Point>, maxLen: nat)
    requires |window| <= maxLen
    ensures PushAll(window, ps, maxLen) == Last(window + ps, maxLen)
    decreases |ps|
  {
    if ps != [] {
      PushAllKeepsLatest(Push(window, ps[0], maxLen), ps[1..], maxLen);
      PushThenAppend(window, ps[0], ps[1..], maxLen);
      assert [ps[0]] + ps[1..] == ps;
    }
  }

  // ---------------------------------------------------------------------
  // Moving average

  function Sum(s: seq<int>): int
  {
    if s == [] then 0 else Sum(s[..|s| - 1]) + s[|s| - 1]
  }

  function Xs(window: seq<Point>): (r: seq<int>)
    ensures |r| == |window| && forall i | 0 <= i < |window| :: r[i] == window[i].x
  {
    seq(|window|, i requires 0 <= i < |window| => window[i].x)
  }

  function Ys(window: seq<Point>): (r: seq<int>)
    ensures |r| == |window| && forall i | 0 <= i < |window| :: r[i] == window[i].y
  {
    seq(|window|, i requires 0 <= i < |window| => window[i].y)
  }

  /** Adding one more window entry to the running sums. */
  lemma SumStep(window: seq<Point>, i: nat)
    requires i < |window|
    ensures Sum(Xs(window[..i + 1])) == Sum(Xs(window[..i])) + window[i].x
    ensures Sum(Ys(window[..i + 1])) == Sum(Ys(window[..i])) + window[i].y
  {
    assert Xs(window[..i + 1])[..i] == Xs(window[..i]);
    assert Ys(window[..i + 1])[..i] == Ys(window[..i]);
  }

  /** Division that truncates toward zero, as int() of a quotient does. */
  function TruncDiv(a: int, n: nat): int
    requires n > 0
  {
    if a >= 0 then a / n else -((-a) / n)
  }

  /** The smoothed centre once `raw` has been pushed and the window is
      `window`: `raw` itself while the window holds fewer than two values,
      otherwise the per-axis truncated mean of the window. */
  function Smoothed(window: seq<Point>, raw: Point): (r: Point)
    ensures |window| < 2 ==> r == raw
    ensures (forall i | 0 <= i < |window| :: window[i] == raw) ==> r == raw
  {
    ConstantMean(window, raw);
    if |window| < 2 then raw
    else Point(TruncDiv(Sum(Xs(window)), |window|), TruncDiv(Sum(Ys(window)), |window|))
  }

  /** A sum of `|s|` copies of `v`. */
  lemma {:induction false} SumConstant(s: seq<int>, v: int)
    ensures (forall i | 0 <= i < |s| :: s[i] == v) ==> Sum(s) == |s| * v
  {
    if s != [] {
      SumConstant(s[..|s| - 1], v);
    }
  }

  /** Truncated division undoes multiplication. */
  lemma TruncDivExact(v: int, n: nat)
    requires n > 0
    ensures TruncDiv(n * v, n) == v
  {
    if v >= 0 {
      MulLe(n, 0, v);
      DivExact(v, n);
    } else {
      MulLe(n, 1, -v);
      assert -(n * v) == n * (-v);
      DivExact(-v, n);
    }
  }

  lemma DivExact(w: nat, n: nat)
    requires n > 0
    ensures (n * w) / n == w
  {
    var a := n * w;
    var q := a / n;
    assert a == n * q + a % n;
    assert n * (w - q) == a % n;
    if w - q >= 1 {
      MulLe(n, 1, w - q);
    }
    if w - q <= -1 {
      MulLe(n, w - q, -1);
    }
  }

  /** The mean of a window holding one value repeated is that value. */
  lemma ConstantMean(window: seq<Point>, raw: Point)
    ensures (|window| > 0 && forall i | 0 <= i < |window| :: window[i] == raw) ==>
              TruncDiv(Sum(Xs(window)), |window|) == raw.x && TruncDiv(Sum(Ys(window)), |window|) == raw.y
  {
    if |window| > 0 && forall i | 0 <= i < |window| :: window[i] == raw {
      SumConstant(Xs(window), raw.x);
      SumConstant(Ys(window), raw.y);
      TruncDivExact(raw.x, |window|);
      TruncDivExact(raw.y, |window|);
    }
  }

  lemma MulLe(n: nat, a: int, b: int)
    requires a <= b
    ensures n * a <= n * b
  {
    assert n * b - n * a == n * (b - a);
  }

  lemma {:induction false} SumWithin(s: seq<int>, lo: int, hi: int)
    requires forall i | 0 <= i < |s| :: lo <= s[i] <= hi
    ensures |s| * lo <= Sum(s) <= |s| * hi
  {
    if s != [] {
      var init := s[..|s| - 1];
      SumWithin(init, lo, hi);
      assert |s| * lo == |init| * lo + lo;
      assert |s| * hi == |init| * hi + hi;
    }
  }

  lemma FloorDivWithin(a: nat, n: nat, lo: int, hi: int)
    requires n > 0 && n * lo <= a <= n * hi
    ensures lo <= a / n <= hi
  {
    var q := a / n;
    assert a == n * q + a % n;
    if q < lo {
      MulLe(n, q + 1, lo);
      assert false;
    }
    if q > hi {
      MulLe(n, hi + 1, q);
      assert false;
    }
  }

  /** The integer mean of values in [lo, hi] lies in [lo, hi]. */
  lemma MeanWithin(s: seq<int>, lo: int, hi: int)
    requires |s| > 0
    requires forall i | 0 <= i < |s| :: lo <= s[i] <= hi
    ensures lo <= TruncDiv(Sum(s), |s|) <= hi
  {
    var n := |s|;
    var a := Sum(s);
    SumWithin(s, lo, hi);
    if a >= 0 {
      FloorDivWithin(a, n, lo, hi);
    } else {
      assert n * (-hi) <= -a <= n * (-lo);
      FloorDivWithin(-a, n, -hi, -lo);
    }
  }

  /** Averaging values within the clamp bounds gives a value within them. */
  lemma SmoothedInBounds(cfg: TrackerConfig, window: seq<Point>, raw: Point, frameWidth: nat, frameHeight: nat)
    requires InBounds(cfg, raw, frameWidth, frameHeight)
    requires forall i | 0 <= i < |window| :: InBounds(cfg, window[i], frameWidth, frameHeight)
    ensures InBounds(cfg, Smoothed(window, raw), frameWidth, frameHeight)
  {
    if |window| >= 2 {
      MeanWithin(Xs(window), cfg.viewportWidth / 2, frameWidth - cfg.viewportWidth / 2);
      MeanWithin(Ys(window), cfg.viewportHeight / 2, frameHeight - cfg.viewportHeight / 2);
    }
  }

  /** Every value in a pushed window was in the old window or is the new one. */
  lemma PushFrom(window: seq<Point>, p: Point, maxLen: nat)
    requires |window| <= maxLen
    ensures forall i | 0 <= i < |Push(window, p, maxLen)| ::
              Push(window, p, maxLen)[i] in window + [p]
  {
  }

  /** With a fixed frame size every window value was clamped for that frame,
      so the second clamp after smoothing leaves the smoothed centre as it
      is. */
  lemma SecondClampRedundant(cfg: TrackerConfig, window: seq<Point>, clamped: Point, frameWidth: nat, frameHeight: nat)
    requires |window| <= cfg.smoothingWindowSize
    requires InBounds(cfg, clamped, frameWidth, frameHeight)
    requires forall i | 0 <= i < |window| :: InBounds(cfg, window[i], frameWidth, frameHeight)
    ensures var w := Push(window, clamped, cfg.smoothingWindowSize);
            ClampViewport(cfg, Smoothed(w, clamped), frameWidth, frameHeight) == Smoothed(w, clamped)
  {
    var w := Push(window, clamped, cfg.smoothingWindowSize);
    PushFrom(window, clamped, cfg.smoothingWindowSize);
    forall i | 0 <= i < |w| ensures InBounds(cfg, w[i], frameWidth, frameHeight) {
      var j :| 0 <= j < |window + [clamped]| && (window + [clamped])[j] == w[i];
    }
    SmoothedInBounds(cfg, w, clamped, frameWidth, frameHeight);
  }

  // ---------------------------------------------------------------------
  // Region of interest

  /** The centre of a box, `(x + bw // 2, y + bh // 2)`. */
  function BoxCentre(b: Box): Point
  {
    Point(b.x + b.w / 2, b.y + b.h / 2)
  }

  /** The score of each box against a fixed previous centre and frame. */
  function ScoreAgainst(cfg: TrackerConfig, prev: Point, frameWidth: nat, frameHeight: nat): Box -> real
  {
    b => cfg.score(b, prev, frameWidth, frameHeight)
  }

  /** The scan over the boxes: a box replaces the running best only when
      its score is strictly greater. */
  function SelectBest(boxes: seq<Box>, f: Box -> real, bestScore: real, bestCentre: Point): (r: Point)
    ensures r == bestCentre || exists i | 0 <= i < |boxes| :: r == BoxCentre(boxes[i])
    decreases |boxes|
  {
    if boxes == [] then bestCentre
    else if f(boxes[0]) > bestScore then SelectBest(boxes[1..], f, f(boxes[0]), BoxCentre(boxes[0]))
    else SelectBest(boxes[1..], f, bestScore, bestCentre)
  }

  /** Box `i` is the first one with the highest score, and that score is
      above `floor`. */
  ghost predicate IsFirstMax(boxes: seq<Box>, f: Box -> real, floor: real, i: int)
  {
    && 0 <= i < |boxes|
    && floor < f(boxes[i])
    && (forall j | 0 <= j < i :: f(boxes[j]) < f(boxes[i]))
    && (forall j | i < j < |boxes| :: f(boxes[j]) <= f(boxes[i]))
  }

  lemma {:induction false} SelectBestFirstMax(boxes: seq<Box>, f: Box -> real, best: real, c: Point, i: int)
    requires IsFirstMax(boxes, f, best, i)
    ensures SelectBest(boxes, f, best, c) == BoxCentre(boxes[i])
  {
    if i == 0 {
      SelectBestNoneAbove(boxes[1..], f, f(boxes[0]), BoxCentre(boxes[0]));
    } else if f(boxes[0]) > best {
      SelectBestFirstMax(boxes[1..], f, f(boxes[0]), BoxCentre(boxes[0]), i - 1);
    } else {
      SelectBestFirstMax(boxes[1..], f, best, c, i - 1);
    }
  }

  lemma {:induction false} SelectBestNoneAbove(boxes: seq<Box>, f: Box -> real, best: real, c: Point)
    requires forall j | 0 <= j < |boxes| :: f(boxes[j]) <= best
    ensures SelectBest(boxes, f, best, c) == c
  {
    if boxes != [] {
      SelectBestNoneAbove(boxes[1..], f, best, c);
    }
  }

  lemma {:induction false} FirstMaxExists(boxes: seq<Box>, f: Box -> real, floor: real, j: int)
    requires 0 <= j < |boxes| && floor < f(boxes[j])
    ensures exists i :: IsFirstMax(boxes, f, floor, i)
    decreases |boxes|
  {
    var rest := boxes[1..];
    if exists j' :: 0 <= j' < |rest| && floor < f(rest[j']) {
      var j' :| 0 <= j' < |rest| && floor < f(rest[j']);
      FirstMaxExists(rest, f, floor, j');
      var i' :| IsFirstMax(rest, f, floor, i');
      if f(boxes[0]) >= f(rest[i']) {
        assert IsFirstMax(boxes, f, floor, 0);
      } else {
        assert IsFirstMax(boxes, f, floor, i' + 1);
      }
    } else {
      assert j == 0;
      assert IsFirstMax(boxes, f, floor, 0);
    }
  }

  /** The previous centre, or the frame midpoint when there is none yet. */
  function PreviousOrMidpoint(prev: Option<Point>, frameWidth: nat, frameHeight: nat): Point
  {
    if prev.Some? then prev.value else Midpoint(frameWidth, frameHeight)
  }

  /** The raw region-of-interest centre. */
  function Roi(cfg: TrackerConfig, prev: Option<Point>, boxes: seq<Box>, frameWidth: nat, frameHeight: nat): (r: Point)
    ensures boxes == [] ==> r == PreviousOrMidpoint(prev, frameWidth, frameHeight)
    ensures r == PreviousOrMidpoint(prev, frameWidth, frameHeight) || exists i | 0 <= i < |boxes| :: r == BoxCentre(boxes[i])
  {
    var p := PreviousOrMidpoint(prev, frameWidth, frameHeight);
    if boxes == [] then p else SelectBest(boxes, ScoreAgainst(cfg, p, frameWidth, frameHeight), ScoreFloor, p)
  }

  /** The selection rule: with no boxes, the previous centre (or the
      midpoint); otherwise the centre of the first box whose score is the
      strict maximum so far and not beaten later — so a tie keeps the
      earlier box; and the previous centre if no box scores above -1e18. */
  lemma RoiSelection(cfg: TrackerConfig, prev: Option<Point>, boxes: seq<Box>, frameWidth: nat, frameHeight: nat)
    ensures var p := PreviousOrMidpoint(prev, frameWidth, frameHeight);
            var f := ScoreAgainst(cfg, p, frameWidth, frameHeight);
            var r := Roi(cfg, prev, boxes, frameWidth, frameHeight);
            && (boxes == [] ==> r == p)
            && ((forall j | 0 <= j < |boxes| :: f(boxes[j]) <= ScoreFloor) ==> r == p)
            && ((exists j | 0 <= j < |boxes| :: ScoreFloor < f(boxes[j])) ==>
                  exists i :: IsFirstMax(boxes, f, ScoreFloor, i) && r == BoxCentre(boxes[i]))
  {
    var p := PreviousOrMidpoint(prev, frameWidth, frameHeight);
    var f := ScoreAgainst(cfg, p, frameWidth, frameHeight);
    if forall j | 0 <= j < |boxes| :: f(boxes[j]) <= ScoreFloor {
      SelectBestNoneAbove(boxes, f, ScoreFloor, p);
    }
    if exists j | 0 <= j < |boxes| :: ScoreFloor < f(boxes[j]) {
      var j :| 0 <= j < |boxes| && ScoreFloor < f(boxes[j]);
      FirstMaxExists(boxes, f, ScoreFloor, j);
      var i :| IsFirstMax(boxes, f, ScoreFloor, i);
      SelectBestFirstMax(boxes, f, ScoreFloor, p, i);
    }
  }

  /** Two boxes with the same score: the first one is chosen. */
  lemma TieKeepsFirst(f: Box -> real, b1: Box, b2: Box, c: Point)
    requires f(b1) == f(b2) > ScoreFloor
    ensures SelectBest([b1, b2], f, ScoreFloor, c) == BoxCentre(b1)
  {
    SelectBestFirstMax([b1, b2], f, ScoreFloor, c, 0);
  }

  // ---------------------------------------------------------------------
  // One record, and a stream of them

  datatype TrackerModel = TrackerModel(
    state: ViewportState,
    noMotionCount: nat,
    center: Option<Point>,
    window: seq<Point>)

  /** A fresh tracker: STEADY, count 0, no centre, empty window. */
  function InitialModel(): TrackerModel
  {
    TrackerModel(Steady, 0, None, [])
  }

  predicate WindowFits(cfg: TrackerConfig, s: TrackerModel)
  {
    |s.window| <= cfg.smoothingWindowSize
  }

  /** The output record forwards the input's id, frame and boxes, with the
      configured viewport size. */
  predicate Forwards(cfg: TrackerConfig, d: DetectionData, v: ViewportData)
  {
    && v.frameId == d.frameId
    && v.frame == d.frame
    && v.motionBoxes == d.motionBoxes
    && v.viewportSize == (cfg.viewportWidth, cfg.viewportHeight)
  }

  /** One detection record through the tracker: the new tracker and the
      record it emits. */
  function StepModel(cfg: TrackerConfig, s: TrackerModel, d: DetectionData): (r: (TrackerModel, ViewportData))
    requires WindowFits(cfg, s)
    ensures WindowFits(cfg, r.0)
    ensures Forwards(cfg, d, r.1)
    ensures r.0.center == Some(r.1.viewportCenter)
    ensures (r.0.state, r.0.noMotionCount) == Transition(s.state, s.noMotionCount, |d.motionBoxes| > 0)
    ensures r.0.state == Steady ==>
              r.0.window == [] &&
              r.1.viewportCenter == PreviousOrMidpoint(s.center, d.frame.width, d.frame.height)
    ensures r.0.state == Tracking && Fits(cfg, d.frame.width, d.frame.height) ==>
              InBounds(cfg, r.1.viewportCenter, d.frame.width, d.frame.height)
  {
    var w, h := d.frame.width, d.frame.height;
    var center := Some(PreviousOrMidpoint(s.center, w, h));
    var (state, count) := Transition(s.state, s.noMotionCount, |d.motionBoxes| > 0);
    var size := (cfg.viewportWidth, cfg.viewportHeight);
    if state == Tracking then
      var raw := Roi(cfg, center, d.motionBoxes, w, h);
      var clamped := ClampViewport(cfg, raw, w, h);
      var window := Push(s.window, clamped, cfg.smoothingWindowSize);
      var final := ClampViewport(cfg, Smoothed(window, clamped), w, h);
      (TrackerModel(state, count, Some(final), window),
       ViewportData(d.frameId, d.frame, final, size, d.motionBoxes))
    else
      (TrackerModel(state, count, center, []),
       ViewportData(d.frameId, d.frame, center.value, size, d.motionBoxes))
  }

  /** The tracker keeps its centre and its window within the clamp bounds of one frame size. */
  predicate Settled(cfg: TrackerConfig, s: TrackerModel, frameWidth: nat, frameHeight: nat)
  {
    && (s.center.Some? ==> InBounds(cfg, s.center.value, frameWidth, frameHeight))
    && (forall i | 0 <= i < |s.window| :: InBounds(cfg, s.window[i], frameWidth, frameHeight))
  }

  /** On a frame the viewport fits in, a settled tracker stays settled and
      emits a centre within the clamp bounds, in either state. */
  lemma StepKeepsSettled(cfg: TrackerConfig, s: TrackerModel, d: DetectionData)
    requires WindowFits(cfg, s)
    requires Fits(cfg, d.frame.width, d.frame.height)
    requires Settled(cfg, s, d.frame.width, d.frame.height)
    ensures Settled(cfg, StepModel(cfg, s, d).0, d.frame.width, d.frame.height)
    ensures InBounds(cfg, StepModel(cfg, s, d).1.viewportCenter, d.frame.width, d.frame.height)
  {
    var w, h := d.frame.width, d.frame.height;
    MidpointInBounds(cfg, w, h);
    var center := Some(PreviousOrMidpoint(s.center, w, h));
    var (state, count) := Transition(s.state, s.noMotionCount, |d.motionBoxes| > 0);
    if state == Tracking {
      var clamped := ClampViewport(cfg, Roi(cfg, center, d.motionBoxes, w, h), w, h);
      var window := Push(s.window, clamped, cfg.smoothingWindowSize);
      PushFrom(s.window, clamped, cfg.smoothingWindowSize);
      forall i | 0 <= i < |window| ensures InBounds(cfg, window[i], w, h) {
        var j :| 0 <= j < |s.window + [clamped]| && (s.window + [clamped])[j] == window[i];
      }
    }
  }

  datatype TrackRun = TrackRun(outputs: seq<Option<ViewportData>>, outcome: StageOutcome, last: TrackerModel)

  /** The tracker's run over its input stream: every record yields one
      output record; the sentinel is forwarded once and ends the run. */
  function TrackStream(cfg: TrackerConfig, s: TrackerModel, inputs: seq<Option<DetectionData>>): (r: TrackRun)
    requires WindowFits(cfg, s)
    ensures WindowFits(cfg, r.last)
    decreases |inputs|
  {
    if inputs == [] then TrackRun([], Waiting, s)
    else if inputs[0].None? then TrackRun([None], Finished, s)
    else
      var (s', v) := StepModel(cfg, s, inputs[0].value);
      var rest := TrackStream(cfg, s', inputs[1..]);
      TrackRun([Some(v)] + rest.outputs, rest.outcome, rest.last)
  }

  /** One output per record before the sentinel, forwarding its fields, in
      order; then exactly one sentinel and nothing after it. Without a
      sentinel the stage is still polling. */
  lemma {:induction false} TrackStreamShape(cfg: TrackerConfig, s: TrackerModel, inputs: seq<Option<DetectionData>>)
    requires WindowFits(cfg, s)
    ensures var r := TrackStream(cfg, s, inputs);
            var m := FirstSentinel(inputs);
            && |r.outputs| == (if m < |inputs| then m + 1 else m)
            && (forall i | 0 <= i < m :: r.outputs[i].Some? && Forwards(cfg, inputs[i].value, r.outputs[i].value))
            && (m < |inputs| ==> r.outputs[m] == None && r.outcome == Finished)
            && (m == |inputs| ==> r.outcome == Waiting)
    decreases |inputs|
  {
    if inputs != [] && inputs[0].Some? {
      var (s', v) := StepModel(cfg, s, inputs[0].value);
      var rest := TrackStream(cfg, s', inputs[1..]);
      TrackStreamShape(cfg, s', inputs[1..]);
      var r := TrackStream(cfg, s, inputs);
      assert r.outputs == [Some(v)] + rest.outputs;
      assert FirstSentinel(inputs) == 1 + FirstSentinel(inputs[1..]);
      forall i | 1 <= i < FirstSentinel(inputs)
        ensures r.outputs[i].Some? && Forwards(cfg, inputs[i].value, r.outputs[i].value)
      {
        assert r.outputs[i] == rest.outputs[i - 1] && inputs[i] == inputs[1..][i - 1];
      }
    }
  }

  /** All records carry frames of one size. */
  predicate FramesOfSize(inputs: seq<Option<DetectionData>>, frameWidth: nat, frameHeight: nat)
  {
    forall i | 0 <= i < |inputs| && inputs[i].Some? ::
      inputs[i].value.frame.width == frameWidth && inputs[i].value.frame.height == frameHeight
  }

  lemma FramesOfSizeTail(inputs: seq<Option<DetectionData>>, frameWidth: nat, frameHeight: nat)
    requires inputs != [] && FramesOfSize(inputs, frameWidth, frameHeight)
    ensures FramesOfSize(inputs[1..], frameWidth, frameHeight)
  {
    forall i | 0 <= i < |inputs[1..]| && inputs[1..][i].Some?
      ensures inputs[1..][i].value.frame.width == frameWidth && inputs[1..][i].value.frame.height == frameHeight
    {
      assert inputs[1..][i] == inputs[i + 1];
    }
  }

  /** Frames of one size the viewport fits in: every emitted centre lies
      within the clamp bounds, in TRACKING and in STEADY. */
  lemma {:induction false} TrackStreamInBounds(cfg: TrackerConfig, s: TrackerModel, inputs: seq<Option<DetectionData>>, frameWidth: nat, frameHeight: nat)
    requires WindowFits(cfg, s)
    requires Fits(cfg, frameWidth, frameHeight)
    requires Settled(cfg, s, frameWidth, frameHeight)
    requires FramesOfSize(inputs, frameWidth, frameHeight)
    ensures var outs := TrackStream(cfg, s, inputs).outputs;
            forall i | 0 <= i < |outs| && outs[i].Some? ::
              InBounds(cfg, outs[i].value.viewportCenter, frameWidth, frameHeight)
    decreases |inputs|
  {
    if inputs != [] && inputs[0].Some? {
      var d := inputs[0].value;
      var step := StepModel(cfg, s, d);
      assert d.frame.width == frameWidth && d.frame.height == frameHeight;
      StepKeepsSettled(cfg, s, d);
      FramesOfSizeTail(inputs, frameWidth, frameHeight);
      TrackStreamInBounds(cfg, step.0, inputs[1..], frameWidth, frameHeight);
      var rest := TrackStream(cfg, step.0, inputs[1..]).outputs;
      assert var o := TrackStream(cfg, step.0, inputs[1..]).outputs;
        forall j | 0 <= j < |o| && o[j].Some? :: InBounds(cfg, o[j].value.viewportCenter, frameWidth, frameHeight);
      var outs := TrackStream(cfg, s, inputs).outputs;
      forall i | 0 <= i < |outs| && outs[i].Some?
        ensures InBounds(cfg, outs[i].value.viewportCenter, frameWidth, frameHeight)
      {
        if i > 0 {
          assert outs[i] == rest[i - 1];
        }
      }
    }
  }

  /** Once STEADY, records without motion leave the centre where it is and
      the tracker STEADY. */
  lemma {:induction false} SteadyHoldsPosition(cfg: TrackerConfig, s: TrackerModel, inputs: seq<Option<DetectionData>>)
    requires WindowFits(cfg, s)
    requires s.state == Steady && s.center.Some?
    requires forall i | 0 <= i < |inputs| && inputs[i].Some? :: inputs[i].value.motionBoxes == []
    ensures var r := TrackStream(cfg, s, inputs);
            && r.last.state == Steady && r.last.center == s.center
            && forall i | 0 <= i < |r.outputs| && r.outputs[i].Some? ::
                 r.outputs[i].value.viewportCenter == s.center.value
    decreases |inputs|
  {
    if inputs != [] && inputs[0].Some? {
      var (s', v) := StepModel(cfg, s, inputs[0].value);
      forall i | 0 <= i < |inputs[1..]| && inputs[1..][i].Some?
        ensures inputs[1..][i].value.motionBoxes == []
      {
        assert inputs[1..][i] == inputs[i + 1];
      }
      SteadyHoldsPosition(cfg, s', inputs[1..]);
      var rest := TrackStream(cfg, s', inputs[1..]);
      var r := TrackStream(cfg, s, inputs);
      assert r.outputs == [Some(v)] + rest.outputs;
      forall i | 1 <= i < |r.outputs| && r.outputs[i].Some?
        ensures r.outputs[i].value.viewportCenter == s.center.value
      {
        assert r.outputs[i] == rest.outputs[i - 1];
      }
    }
  }

  /** A fresh tracker's first record: the centre starts at the frame
      midpoint; with no boxes the tracker stays STEADY there with count 1;
      with boxes it turns TRACKING and emits the clamped selection made
      against the midpoint, which is also the first value in its window. */
  lemma FirstRecord(cfg: TrackerConfig, d: DetectionData)
    ensures var (s', v) := StepModel(cfg, InitialModel(), d);
            var w, h := d.frame.width, d.frame.height;
            var mid := Midpoint(w, h);
            var first := ClampViewport(cfg, Roi(cfg, Some(mid), d.motionBoxes, w, h), w, h);
            && (d.motionBoxes == [] ==>
                  s'.state == Steady && s'.noMotionCount == 1 && v.viewportCenter == mid)
            && (d.motionBoxes != [] ==>
                  s'.state == Tracking && s'.noMotionCount == 0 && v.viewportCenter == first &&
                  (cfg.smoothingWindowSize > 0 ==> s'.window == [first]))
  {
    var w, h := d.frame.width, d.frame.height;
    var first := ClampViewport(cfg, Roi(cfg, Some(Midpoint(w, h)), d.motionBoxes, w, h), w, h);
    ClampIdempotent(cfg, Roi(cfg, Some(Midpoint(w, h)), d.motionBoxes, w, h), w, h);
  }
}

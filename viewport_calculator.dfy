/** The viewport-tracking stage as an object whose methods update its
    fields, each proved against the definitions of module Viewport. */
module ViewportCalculator {
  import opened Records
  import opened Viewport

  class ViewportCalculatorProcess {
    const config: TrackerConfig
    var state: ViewportState
    var currentViewportCenter: Option<Point>
    var smoothingBuffer: seq<Point>
    var noMotionCount: nat

    /** The smoothing buffer is a deque bounded by the window size. */
    ghost predicate Valid()
      reads this
    {
      WindowFits(config, Model())
    }

    /** The tracker's fields as a value. */
    ghost function Model(): TrackerModel
      reads this
    {
      TrackerModel(state, noMotionCount, currentViewportCenter, smoothingBuffer)
    }

    /** A fresh tracker: STEADY, no-motion count 0, no centre, empty buffer. */
    constructor (config: TrackerConfig)
      ensures Valid() && this.config == config
      ensures Model() == InitialModel()
    {
      this.config := config;
      state := Steady;
      currentViewportCenter := None;
      smoothingBuffer := [];
      noMotionCount := 0;
    }

    /** The raw region-of-interest centre for one record's boxes. */
    method CalculateRoi(motionBoxes: seq<Box>, frameWidth: nat, frameHeight: nat) returns (center: Point)
      ensures center == Roi(config, currentViewportCenter, motionBoxes, frameWidth, frameHeight)
    {
      var prevCenter := currentViewportCenter;
      if motionBoxes == [] {
        return if prevCenter.Some? then prevCenter.value else Point(frameWidth / 2, frameHeight / 2);
      }
      var prev := if prevCenter.Some? then prevCenter.value else Point(frameWidth / 2, frameHeight / 2);
      ghost var f := ScoreAgainst(config, prev, frameWidth, frameHeight);
      var bestScore := ScoreFloor;
      var bestCenter := prev;
      for i := 0 to |motionBoxes|
        invariant SelectBest(motionBoxes[i..], f, bestScore, bestCenter)
               == SelectBest(motionBoxes, f, ScoreFloor, prev)
      {
        var box := motionBoxes[i];
        assert motionBoxes[i..][1..] == motionBoxes[i + 1..];
        var score := config.score(box, prev, frameWidth, frameHeight);
        if score > bestScore {
          bestScore := score;
          bestCenter := BoxCentre(box);
        }
      }
      center := bestCenter;
    }

    /** The transition rule, applied to the fields. */
    method UpdateState(motionBoxes: seq<Box>)
      modifies this`state, this`noMotionCount
      ensures (state, noMotionCount) == Transition(old(state), old(noMotionCount), |motionBoxes| > 0)
    {
      if |motionBoxes| > 0 {
        noMotionCount := 0;
        state := Tracking;
      } else {
        noMotionCount := noMotionCount + 1;
        if noMotionCount >= SteadyAfterN {
          state := Steady;
        }
      }
    }

    /** Appends to the bounded buffer, then averages it. */
    method SmoothViewport(rawCenter: Point) returns (smoothed: Point)
      requires Valid()
      modifies this`smoothingBuffer
      ensures Valid()
      ensures smoothingBuffer == Push(old(smoothingBuffer), rawCenter, config.smoothingWindowSize)
      ensures smoothed == Smoothed(smoothingBuffer, rawCenter)
    {
      var window := smoothingBuffer;
      if |window| < config.smoothingWindowSize {
        window := window + [rawCenter];
      } else if window != [] {
        window := window[1..] + [rawCenter];
      }
      smoothingBuffer := window;
      if |window| < 2 {
        return rawCenter;
      }
      var sumX, sumY := 0, 0;
      for i := 0 to |window|
        invariant sumX == Sum(Xs(window[..i]))
        invariant sumY == Sum(Ys(window[..i]))
        invariant smoothingBuffer == window
      {
        SumStep(window, i);
        sumX := sumX + window[i].x;
        sumY := sumY + window[i].y;
      }
      assert window[..|window|] == window;
      smoothed := Point(TruncDiv(sumX, |window|), TruncDiv(sumY, |window|));
    }

    /** The body of the run loop for one detection record. */
    method HandleDetection(detection: DetectionData) returns (out: ViewportData)
      requires Valid()
      modifies this
      ensures Valid()
      ensures (Model(), out) == StepModel(config, old(Model()), detection)
    {
      var frameWidth, frameHeight := detection.frame.width, detection.frame.height;
      var viewportSize := (config.viewportWidth, config.viewportHeight);
      if currentViewportCenter.None? {
        currentViewportCenter := Some(Point(frameWidth / 2, frameHeight / 2));
      }
      UpdateState(detection.motionBoxes);
      if state == Steady {
        smoothingBuffer := [];
      }
      if state == Tracking {
        var rawCentre := CalculateRoi(detection.motionBoxes, frameWidth, frameHeight);
        var clampedCentre := ClampViewport(config, rawCentre, frameWidth, frameHeight);
        var smoothedCentre := SmoothViewport(clampedCentre);
        clampedCentre := ClampViewport(config, smoothedCentre, frameWidth, frameHeight);
        currentViewportCenter := Some(clampedCentre);
      }
      out := ViewportData(detection.frameId, detection.frame, currentViewportCenter.value,
                          viewportSize, detection.motionBoxes);
    }

    /** The stage's loop: each `get` takes the next element of `inputs`,
        each successful `put` appends to `outputs`. */
    method Run(inputs: seq<Option<DetectionData>>) returns (outputs: seq<Option<ViewportData>>, outcome: StageOutcome)
      requires Valid()
      modifies this
      ensures Valid()
      ensures TrackRun(outputs, outcome, Model()) == TrackStream(config, old(Model()), inputs)
    {
      outputs := [];
      var i := 0;
      while i < |inputs|
        invariant 0 <= i <= |inputs|
        invariant Valid()
        invariant var rest := TrackStream(config, Model(), inputs[i..]);
                  TrackRun(outputs + rest.outputs, rest.outcome, rest.last)
                  == TrackStream(config, old(Model()), inputs)
      {
        var detectionData := inputs[i];
        if detectionData.None? {
          outputs := outputs + [None];
          outcome := Finished;
          return;
        }
        assert inputs[i..][1..] == inputs[i + 1..];
        var viewportData := HandleDetection(detectionData.value);
        outputs := outputs + [Some(viewportData)];
        i := i + 1;
      }
      outcome := Waiting;
    }
  }
}

/** The motion-detection stage as functions on values: the blur-kernel
    coercion, the contour filter, one frame's detection and a whole input
    stream. The image-library calls are uninterpreted: they are fields of
    a `Vision` value that every definition takes as a parameter. */
module Detection {
  import opened Records

  type Contour = seq<Point>

  /** The image-library operations the stage calls, each named after the
      library function it stands for. Those on whole images may raise. */
  datatype Vision = Vision(
    cvtColor: Image -> Result<Image>,
    gaussianBlur: (Image, int) -> Result<Image>,
    absdiff: (Image, Image) -> Result<Image>,
    threshold: (Image, real) -> Result<Image>,
    dilate: (Image, nat) -> Result<Image>,
    findContours: Image -> Result<seq<Contour>>,
    contourArea: Contour -> real,
    boundingRect: Contour -> Box)

  /** Dilation passes applied to the thresholded difference. */
  const DilateIterations: nat := 3

  datatype DetectorConfig = DetectorConfig(
    detectionThreshold: real,
    minMotionArea: int,
    gaussianBlurSize: int)

  predicate Odd(n: int)
  {
    n % 2 == 1
  }

  /** The blur kernel size actually used: the least odd integer that is at
      least 3 and at least the configured size. */
  function KernelSize(blurSize: int): (k: int)
    ensures Odd(k) && k >= 3 && k >= blurSize
    ensures forall j | j >= 3 && j >= blurSize && Odd(j) :: k <= j
    ensures Odd(blurSize) && blurSize >= 3 ==> k == blurSize
  {
    var atLeast := if blurSize < 3 then 3 else blurSize;
    if Odd(atLeast) then atLeast else atLeast + 1
  }

  /** A contour is kept unless its area is below the minimum. */
  predicate LargeEnough(ops: Vision, minArea: int, c: Contour)
  {
    !(ops.contourArea(c) < minArea as real)
  }

  /** The bounding rectangles of the kept contours, in contour order. */
  function KeptBoxes(ops: Vision, minArea: int, contours: seq<Contour>): (r: seq<Box>)
    ensures |r| <= |contours|
  {
    if contours == [] then []
    else
      var c := contours[|contours| - 1];
      KeptBoxes(ops, minArea, contours[..|contours| - 1])
        + (if LargeEnough(ops, minArea, c) then [ops.boundingRect(c)] else [])
  }

  /** Filtering keeps the contour order: the boxes of a concatenation are
      the boxes of its parts, concatenated. */
  lemma {:induction false} KeptBoxesAppend(ops: Vision, minArea: int, a: seq<Contour>, b: seq<Contour>)
    ensures KeptBoxes(ops, minArea, a + b) == KeptBoxes(ops, minArea, a) + KeptBoxes(ops, minArea, b)
    decreases |b|
  {
    if b != [] {
      assert (a + b)[..|a + b| - 1] == a + b[..|b| - 1];
      KeptBoxesAppend(ops, minArea, a, b[..|b| - 1]);
    } else {
      assert a + b == a;
    }
  }

  /** A box is reported exactly when it is the bounding rectangle of a
      contour whose area is at least the minimum. */
  lemma {:induction false} KeptBoxesExactly(ops: Vision, minArea: int, contours: seq<Contour>)
    ensures forall i | 0 <= i < |contours| && LargeEnough(ops, minArea, contours[i]) ::
              ops.boundingRect(contours[i]) in KeptBoxes(ops, minArea, contours)
    ensures forall b | b in KeptBoxes(ops, minArea, contours) ::
              exists i | 0 <= i < |contours| :: LargeEnough(ops, minArea, contours[i]) && b == ops.boundingRect(contours[i])
    decreases |contours|
  {
    if contours != [] {
      var init := contours[..|contours| - 1];
      KeptBoxesExactly(ops, minArea, init);
      forall b | b in KeptBoxes(ops, minArea, contours)
        ensures exists i | 0 <= i < |contours| :: LargeEnough(ops, minArea, contours[i]) && b == ops.boundingRect(contours[i])
      {
        if b in KeptBoxes(ops, minArea, init) {
          var i :| 0 <= i < |init| && LargeEnough(ops, minArea, init[i]) && b == ops.boundingRect(init[i]);
          assert contours[i] == init[i];
        } else {
          assert LargeEnough(ops, minArea, contours[|contours| - 1]);
        }
      }
      forall i | 0 <= i < |contours| && LargeEnough(ops, minArea, contours[i])
        ensures ops.boundingRect(contours[i]) in KeptBoxes(ops, minArea, contours)
      {
        if i < |init| {
          assert contours[i] == init[i];
        }
      }
    }
  }

  /** When every contour is large enough the boxes are their bounding
      rectangles, one for one. */
  lemma {:induction false} KeptBoxesAll(ops: Vision, minArea: int, contours: seq<Contour>)
    requires forall i | 0 <= i < |contours| :: LargeEnough(ops, minArea, contours[i])
    ensures |KeptBoxes(ops, minArea, contours)| == |contours|
    ensures forall i | 0 <= i < |contours| :: KeptBoxes(ops, minArea, contours)[i] == ops.boundingRect(contours[i])
    decreases |contours|
  {
    if contours != [] {
      var init := contours[..|contours| - 1];
      KeptBoxesAll(ops, minArea, init);
    }
  }

  /** The grey, blurred image a frame is compared by. */
  function Blurred(ops: Vision, k: int, frame: Image): (r: Result<Image>)
    ensures ops.cvtColor(frame).Err? ==> r == Err(ops.cvtColor(frame).error)
    ensures r.Ok? ==> ops.cvtColor(frame).Ok? && ops.gaussianBlur(ops.cvtColor(frame).value, k) == r
  {
    var gray :- ops.cvtColor(frame);
    ops.gaussianBlur(gray, k)
  }

  /** The motion boxes found by differencing two blurred images. */
  function MotionBoxes(ops: Vision, cfg: DetectorConfig, previous: Image, current: Image): (r: Result<seq<Box>>)
    ensures ops.absdiff(previous, current).Err? ==> r == Err(ops.absdiff(previous, current).error)
    ensures r.Ok? ==> forall b | b in r.value :: exists c :: LargeEnough(ops, cfg.minMotionArea, c) && b == ops.boundingRect(c)
  {
    var diff :- ops.absdiff(previous, current);
    var thresh :- ops.threshold(diff, cfg.detectionThreshold);
    var dilated :- ops.dilate(thresh, DilateIterations);
    var contours :- ops.findContours(dilated);
    KeptBoxesExactly(ops, cfg.minMotionArea, contours);
    Ok(KeptBoxes(ops, cfg.minMotionArea, contours))
  }

  /** A detection record and the blurred image that becomes the baseline. */
  datatype Detected = Detected(data: DetectionData, baseline: Image)

  /** One frame through the detector, given the baseline (if any). */
  function DetectFrame(ops: Vision, cfg: DetectorConfig, k: int, baseline: Option<Image>, fd: FrameData): (r: Result<Detected>)
    ensures Blurred(ops, k, fd.frame).Err? ==> r == Err(Blurred(ops, k, fd.frame).error)
    ensures r.Ok? ==> && r.value.data.frameId == fd.frameId && r.value.data.frame == fd.frame
                      && Blurred(ops, k, fd.frame) == Ok(r.value.baseline)
    ensures r.Ok? && baseline.None? ==> r.value.data.motionBoxes == []
    ensures r.Ok? && baseline.Some? ==>
              MotionBoxes(ops, cfg, baseline.value, r.value.baseline) == Ok(r.value.data.motionBoxes)
  {
    var current :- Blurred(ops, k, fd.frame);
    if baseline.None? then
      Ok(Detected(DetectionData(fd.frameId, fd.frame, []), current))
    else
      var boxes :- MotionBoxes(ops, cfg, baseline.value, current);
      Ok(Detected(DetectionData(fd.frameId, fd.frame, boxes), current))
  }

  datatype DetectRun = DetectRun(outputs: seq<Option<DetectionData>>, outcome: StageOutcome)

  /** The detector's run over its input stream. `sentinelAccepted` says
      whether the best-effort sentinel put after an error got through. */
  function DetectStream(ops: Vision, cfg: DetectorConfig, k: int, baseline: Option<Image>,
                        inputs: seq<Option<FrameData>>, sentinelAccepted: bool): (r: DetectRun)
    ensures |r.outputs| <= |inputs|
    ensures r.outcome == Waiting ==> |r.outputs| == |inputs| && forall i | 0 <= i < |inputs| :: inputs[i].Some?
    ensures r.outcome == Finished ==> |r.outputs| > 0 && r.outputs[|r.outputs| - 1] == None
    decreases |inputs|
  {
    if inputs == [] then DetectRun([], Waiting)
    else if inputs[0].None? then DetectRun([None], Finished)
    else
      match DetectFrame(ops, cfg, k, baseline, inputs[0].value)
      case Err(e) => DetectRun(if sentinelAccepted then [None] else [], Failed(e))
      case Ok(det) =>
        var rest := DetectStream(ops, cfg, k, Some(det.baseline), inputs[1..], sentinelAccepted);
        DetectRun([Some(det.data)] + rest.outputs, rest.outcome)
  }

  /** The shape of a run in which the first `m` inputs were frames that
      were detected and emitted, in order, with their id and frame. */
  ghost predicate ShapeAt(inputs: seq<Option<FrameData>>, r: DetectRun, sentinelAccepted: bool, m: nat)
  {
    && m <= |inputs|
    && m <= |r.outputs| <= m + 1
    && (forall i | 0 <= i < m ::
          && inputs[i].Some? && r.outputs[i].Some?
          && r.outputs[i].value.frameId == inputs[i].value.frameId
          && r.outputs[i].value.frame == inputs[i].value.frame)
    && (|r.outputs| == m + 1 ==> r.outputs[m] == None)
    && (r.outcome == Waiting ==> m == |inputs| && |r.outputs| == m)
    && (r.outcome == Finished ==> m < |inputs| && inputs[m] == None && |r.outputs| == m + 1)
    && (r.outcome.Failed? ==> m < |inputs| && inputs[m].Some? && (|r.outputs| == m + 1 <==> sentinelAccepted))
  }

  /** One output per frame, in input order, forwarding id and frame; a
      full queue only delays. The run ends on the sentinel, with exactly one
      sentinel forwarded, or on an error, with one sentinel forwarded if the
      best-effort put got through; nothing is emitted after either. */
  lemma {:induction false} DetectStreamShape(ops: Vision, cfg: DetectorConfig, k: int, baseline: Option<Image>,
                                             inputs: seq<Option<FrameData>>, sentinelAccepted: bool)
    ensures exists m: nat :: ShapeAt(inputs, DetectStream(ops, cfg, k, baseline, inputs, sentinelAccepted), sentinelAccepted, m)
    decreases |inputs|
  {
    var r := DetectStream(ops, cfg, k, baseline, inputs, sentinelAccepted);
    if inputs == [] || inputs[0].None? {
      assert ShapeAt(inputs, r, sentinelAccepted, 0);
    } else {
      match DetectFrame(ops, cfg, k, baseline, inputs[0].value)
      case Err(e) =>
        assert ShapeAt(inputs, r, sentinelAccepted, 0);
      case Ok(det) =>
        var rest := DetectStream(ops, cfg, k, Some(det.baseline), inputs[1..], sentinelAccepted);
        DetectStreamShape(ops, cfg, k, Some(det.baseline), inputs[1..], sentinelAccepted);
        var m': nat :| ShapeAt(inputs[1..], rest, sentinelAccepted, m');
        assert r.outputs == [Some(det.data)] + rest.outputs && r.outcome == rest.outcome;
        forall i | 1 <= i < m' + 1
          ensures inputs[i].Some? && r.outputs[i].Some?
          ensures r.outputs[i].value.frameId == inputs[i].value.frameId
          ensures r.outputs[i].value.frame == inputs[i].value.frame
        {
          assert inputs[i] == inputs[1..][i - 1] && r.outputs[i] == rest.outputs[i - 1];
        }
        assert ShapeAt(inputs, r, sentinelAccepted, m' + 1);
    }
  }

  /** The baseline frame `m` of a run is compared against: the initial
      one for the first frame, otherwise the blurred image of frame `m - 1`. */
  function BaselineAt(ops: Vision, k: int, baseline: Option<Image>, inputs: seq<Option<FrameData>>, m: nat): Option<Image>
    requires m <= |inputs|
  {
    if m == 0 then baseline
    else if inputs[m - 1].Some? && Blurred(ops, k, inputs[m - 1].value.frame).Ok? then
      Some(Blurred(ops, k, inputs[m - 1].value.frame).value)
    else None
  }

  /** Frame `m` is the one that raised `e`: every input before it was a
      frame that was emitted, and processing it against its predecessor's
      blurred image raises `e`. */
  ghost predicate FailedAt(ops: Vision, cfg: DetectorConfig, k: int, baseline: Option<Image>,
                           inputs: seq<Option<FrameData>>, r: DetectRun, m: nat, e: string)
  {
    && m < |inputs| && inputs[m].Some?
    && m <= |r.outputs|
    && (forall i | 0 <= i < m :: inputs[i].Some? && r.outputs[i].Some?)
    && DetectFrame(ops, cfg, k, BaselineAt(ops, k, baseline, inputs, m), inputs[m].value) == Err(e)
  }

  /** A run that fails re-raises the error of the first frame that was not
      emitted, processed against its predecessor's blurred image. */
  lemma {:induction false} DetectStreamError(ops: Vision, cfg: DetectorConfig, k: int, baseline: Option<Image>,
                                             inputs: seq<Option<FrameData>>, sentinelAccepted: bool)
    ensures var r := DetectStream(ops, cfg, k, baseline, inputs, sentinelAccepted);
            r.outcome.Failed? ==> exists m: nat :: FailedAt(ops, cfg, k, baseline, inputs, r, m, r.outcome.error)
    decreases |inputs|
  {
    var r := DetectStream(ops, cfg, k, baseline, inputs, sentinelAccepted);
    if inputs != [] && inputs[0].Some? {
      var first := DetectFrame(ops, cfg, k, baseline, inputs[0].value);
      if first.Err? {
        assert FailedAt(ops, cfg, k, baseline, inputs, r, 0, r.outcome.error);
      } else {
        var b := Some(first.value.baseline);
        var tail := inputs[1..];
        var rest := DetectStream(ops, cfg, k, b, tail, sentinelAccepted);
        DetectStreamError(ops, cfg, k, b, tail, sentinelAccepted);
        if r.outcome.Failed? {
          var m: nat :| FailedAt(ops, cfg, k, b, tail, rest, m, r.outcome.error);
          assert r.outputs == [Some(first.value.data)] + rest.outputs;
          if m > 0 {
            assert tail[m - 1] == inputs[m];
          }
          assert tail[m] == inputs[m + 1];
          assert BaselineAt(ops, k, b, tail, m) == BaselineAt(ops, k, baseline, inputs, m + 1);
          forall i | 0 <= i < m + 1
            ensures inputs[i].Some? && r.outputs[i].Some?
          {
            if i > 0 {
              assert inputs[i] == tail[i - 1] && r.outputs[i] == rest.outputs[i - 1];
            }
          }
          assert FailedAt(ops, cfg, k, baseline, inputs, r, m + 1, r.outcome.error);
        }
      }
    }
  }

  /** The first frame of a stream has no baseline, so no motion boxes. */
  lemma FirstFrameHasNoMotion(ops: Vision, cfg: DetectorConfig, k: int, inputs: seq<Option<FrameData>>, sentinelAccepted: bool)
    ensures var outs := DetectStream(ops, cfg, k, None, inputs, sentinelAccepted).outputs;
            |outs| > 0 && outs[0].Some? ==> outs[0].value.motionBoxes == []
  {
  }

  /** What the head of a run's output is, when it is a record. */
  lemma DetectStreamHead(ops: Vision, cfg: DetectorConfig, k: int, baseline: Option<Image>,
                         inputs: seq<Option<FrameData>>, sentinelAccepted: bool)
    requires var outs := DetectStream(ops, cfg, k, baseline, inputs, sentinelAccepted).outputs;
             |outs| > 0 && outs[0].Some?
    ensures inputs != [] && inputs[0].Some?
    ensures DetectFrame(ops, cfg, k, baseline, inputs[0].value).Ok?
    ensures DetectStream(ops, cfg, k, baseline, inputs, sentinelAccepted).outputs[0]
         == Some(DetectFrame(ops, cfg, k, baseline, inputs[0].value).value.data)
  {
  }

  /** Every frame after the first is differenced against its immediate
      predecessor's blurred image: the baseline is replaced after each
      frame. */
  ghost predicate AgainstPredecessor(ops: Vision, cfg: DetectorConfig, k: int,
                                     inputs: seq<Option<FrameData>>, outs: seq<Option<DetectionData>>)
  {
    forall j | 1 <= j < |outs| && outs[j].Some? ::
      && j < |inputs| && inputs[j - 1].Some? && inputs[j].Some?
      && Blurred(ops, k, inputs[j - 1].value.frame).Ok?
      && Blurred(ops, k, inputs[j].value.frame).Ok?
      && MotionBoxes(ops, cfg, Blurred(ops, k, inputs[j - 1].value.frame).value,
                     Blurred(ops, k, inputs[j].value.frame).value)
         == Ok(outs[j].value.motionBoxes)
  }

  lemma {:induction false} DetectStreamBaseline(ops: Vision, cfg: DetectorConfig, k: int, baseline: Option<Image>,
                                                inputs: seq<Option<FrameData>>, sentinelAccepted: bool)
    ensures AgainstPredecessor(ops, cfg, k, inputs, DetectStream(ops, cfg, k, baseline, inputs, sentinelAccepted).outputs)
    decreases |inputs|
  {
    var outs := DetectStream(ops, cfg, k, baseline, inputs, sentinelAccepted).outputs;
    if inputs != [] && inputs[0].Some? && DetectFrame(ops, cfg, k, baseline, inputs[0].value).Ok? {
      var det := DetectFrame(ops, cfg, k, baseline, inputs[0].value).value;
      var tail := inputs[1..];
      var rest := DetectStream(ops, cfg, k, Some(det.baseline), tail, sentinelAccepted).outputs;
      assert outs == [Some(det.data)] + rest;
      DetectStreamBaseline(ops, cfg, k, Some(det.baseline), tail, sentinelAccepted);
      forall j | 1 <= j < |outs| && outs[j].Some?
        ensures && j < |inputs| && inputs[j - 1].Some? && inputs[j].Some?
                && Blurred(ops, k, inputs[j - 1].value.frame).Ok?
                && Blurred(ops, k, inputs[j].value.frame).Ok?
                && MotionBoxes(ops, cfg, Blurred(ops, k, inputs[j - 1].value.frame).value,
                               Blurred(ops, k, inputs[j].value.frame).value)
                   == Ok(outs[j].value.motionBoxes)
      {
        assert outs[j] == rest[j - 1];
        if j == 1 {
          DetectStreamHead(ops, cfg, k, Some(det.baseline), tail, sentinelAccepted);
          assert tail[0] == inputs[1];
        } else {
          assert tail[j - 2] == inputs[j - 1] && tail[j - 1] == inputs[j];
        }
      }
    }
  }
}

/** The motion-detection stage as the source writes it: statements and
    loops, each proved against the definitions of module Detection. */
module Detector {
  import opened Records
  import opened Detection

  /** The blur kernel coercion, in the order the stage applies it: make
      an even size odd, then raise anything below 3 to 3. */
  method CoerceKernelSize(gaussianBlurSize: int) returns (k: int)
    ensures k == KernelSize(gaussianBlurSize)
  {
    k := gaussianBlurSize;
    if k % 2 == 0 {
      k := k + 1;
    }
    if k < 3 {
      k := 3;
    }
  }

  class DetectionProcess {
    const config: DetectorConfig
    const vision: Vision

    constructor (config: DetectorConfig, vision: Vision)
      ensures this.config == config && this.vision == vision
    {
      this.config := config;
      this.vision := vision;
    }

    /** The body of the run loop for one frame: blur it and, when there is
        a baseline, difference, threshold, dilate and filter the contours. */
    method HandleFrame(k: int, prevFrameGrayBlurred: Option<Image>, frameData: FrameData) returns (r: Result<Detected>)
      ensures r == DetectFrame(vision, config, k, prevFrameGrayBlurred, frameData)
    {
      var currentFrame := frameData.frame;
      var currentFrameGray :- vision.cvtColor(currentFrame);
      var currentFrameGrayBlurred :- vision.gaussianBlur(currentFrameGray, k);
      if prevFrameGrayBlurred.None? {
        return Ok(Detected(DetectionData(frameData.frameId, frameData.frame, []), currentFrameGrayBlurred));
      }
      var diffGray :- vision.absdiff(prevFrameGrayBlurred.value, currentFrameGrayBlurred);
      var thresh :- vision.threshold(diffGray, config.detectionThreshold);
      var dilated :- vision.dilate(thresh, DilateIterations);
      var contours :- vision.findContours(dilated);
      var motionBoxes: seq<Box> := [];
      for i := 0 to |contours|
        invariant motionBoxes == KeptBoxes(vision, config.minMotionArea, contours[..i])
      {
        var contour := contours[i];
        assert contours[..i + 1][..i] == contours[..i];
        if vision.contourArea(contour) < config.minMotionArea as real {
          continue;
        }
        motionBoxes := motionBoxes + [vision.boundingRect(contour)];
      }
      assert contours[..|contours|] == contours;
      r := Ok(Detected(DetectionData(frameData.frameId, frameData.frame, motionBoxes), currentFrameGrayBlurred));
    }

    /** The stage's loop: each `get` takes the next element of `inputs`,
        each successful `put` appends to `outputs`. `sentinelAccepted` is
        whether the best-effort sentinel put after an error succeeds. */
    method Run(inputs: seq<Option<FrameData>>, sentinelAccepted: bool)
      returns (outputs: seq<Option<DetectionData>>, outcome: StageOutcome)
      ensures DetectRun(outputs, outcome)
           == DetectStream(vision, config, KernelSize(config.gaussianBlurSize), None, inputs, sentinelAccepted)
    {
      var k := CoerceKernelSize(config.gaussianBlurSize);
      var prevFrameGrayBlurred: Option<Image> := None;
      outputs := [];
      var i := 0;
      while i < |inputs|
        invariant 0 <= i <= |inputs|
        invariant var rest := DetectStream(vision, config, k, prevFrameGrayBlurred, inputs[i..], sentinelAccepted);
                  DetectRun(outputs + rest.outputs, rest.outcome)
                  == DetectStream(vision, config, k, None, inputs, sentinelAccepted)
      {
        var frameData := inputs[i];
        if frameData.None? {
          outputs := outputs + [None];
          outcome := Finished;
          return;
        }
        var detected := HandleFrame(k, prevFrameGrayBlurred, frameData.value);
        if detected.Err? {
          if sentinelAccepted {
            outputs := outputs + [None];
          }
          outcome := Failed(detected.error);
          return;
        }
        assert inputs[i..][1..] == inputs[i + 1..];
        outputs := outputs + [Some(detected.value.data)];
        prevFrameGrayBlurred := Some(detected.value.baseline);
        i := i + 1;
      }
      outcome := Waiting;
    }
  }
}

# Viewport pipeline: tracker and motion detector

A Dafny model of the two processing stages of a video-viewport pipeline.
One stage detects motion in frames, the other turns the motion boxes into
a smoothly moving crop window. Records flow between the stages as
`FrameData`, `DetectionData` and `ViewportData`
(`pipeline/queue_manager.py:13-39`). A `None` in a stream is the
end-of-stream sentinel.

- `records.dfy` (module `Records`) holds:
  - the three record types;
  - `Point`, `Box` and `Image`;
  - `Option`, and `Result`, which stands for an image-library call that may raise;
  - the `StageOutcome` of a stage's run: `Finished` on the sentinel, `Failed(e)` on an error, `Waiting` while still polling.
- `viewport_model.dfy` (module `Viewport`) is the tracker as functions on values:
  - the TRACKING/STEADY controller with its no-motion counter;
  - the per-axis clamp `max(vp//2, min(v, size - vp//2))`;
  - the bounded smoothing deque and its truncated integer mean;
  - the strict-`>` box scan from -1e18;
  - one record's step;
  - a whole stream.
- `viewport_calculator.dfy` (module `ViewportCalculator`) is the class `ViewportCalculatorProcess`:
  - its fields are `state`, `noMotionCount`, `currentViewportCenter` and `smoothingBuffer`;
  - its methods update those fields as the source does, with the same loops;
  - each method is proved equal to the definitions in `Viewport`.
- `detector_model.dfy` (module `Detection`) is the detector as functions on values:
  - the blur kernel coercion;
  - the contour area filter;
  - one frame's detection against the previous blurred frame;
  - a whole stream, with sentinel and error forwarding.
- `detector.dfy` (module `Detector`) holds the kernel coercion and the class `DetectionProcess`:
  - both are written as statements and loops;
  - both are proved equal to the definitions in `Detection`.

"In bounds" below means within the clamp bounds: `vp//2 <= c <= size - vp//2`
on each axis (`InBounds`). For an even viewport size this keeps the
viewport's pixels inside the frame. For an odd size the bounds let the
viewport's last column (or row) lie one pixel past the right (or bottom)
edge, as the source's clamp does.

The image-library calls are fields of a `Vision` value, so they stay
uninterpreted: `cvtColor`, `GaussianBlur`, `absdiff`, `threshold`, `dilate`,
`findContours`, `contourArea` and `boundingRect`. The floating-point box
score is the field `score` of `TrackerConfig` and is uninterpreted too.

Transport is modelled as follows:
- a stage's input is a sequence;
- each `get` takes its next element;
- each successful `put` appends to the output sequence.

A `get` that times out is retried, and a `put` on a full queue is retried
until it succeeds. Neither drops or duplicates a record, so the model has
no step for them.

Three behaviours of the code worth noting:
- The second clamp at `pipeline/viewport_calculator.py:187` never changes the value. All frames have one size (`pipeline/frame_reader.py:61-63`), and every window value was clamped for that size, so the mean is already within the clamp bounds (`SecondClampRedundant`).
- When the viewport is larger than the frame, the bounds are inverted. The code's `max(lo, min(v, hi))` then yields `lo = vp//2`, and the model does the same (`ClampAxis`).
- The kernel coercion adds 1 to an even size and then raises anything below 3 to 3. The result is the least odd integer that is at least 3 and at least the configured size (`KernelSize`).

## Model

| member | source | states |
|---|---|---|
| ViewportCalculator.ViewportCalculatorProcess.constructor | pipeline/viewport_calculator.py:28-42 | a fresh tracker is STEADY, with no-motion count 0, no current centre and an empty smoothing buffer |
| ViewportCalculator.ViewportCalculatorProcess.UpdateState | pipeline/viewport_calculator.py:104-116 | only state and count change. With boxes they become (TRACKING, 0). Without boxes the count goes up by one and the state turns STEADY once the count reaches 3, otherwise it stays as it was |
| Viewport.Transition | pipeline/viewport_calculator.py:104-116 | reference definition of the transition rule, which `UpdateState`, `AfterEmptyState` and `MotionThenEmpty` are about. The count is 0 exactly when there is motion, and otherwise grows by one. The state is TRACKING exactly when there is motion, or when it was TRACKING and the count is still below 3 |
| Viewport.AfterEmptyState | pipeline/viewport_calculator.py:104-116 | after k empty records the count has grown by k. The state is STEADY exactly when k > 0 and the count reached 3, otherwise it is unchanged |
| Viewport.MotionThenEmpty | pipeline/viewport_calculator.py:110-116 | hysteresis: a record with motion gives (TRACKING, 0). The tracker then needs 3 consecutive empty records to become STEADY |
| Viewport.ClampAxis | pipeline/viewport_calculator.py:144-145 | when lo <= hi the result is in [lo, hi], values inside are unchanged, and values below or above go to lo or hi. When hi < lo the result is lo |
| Viewport.ClampViewport | pipeline/viewport_calculator.py:134-147 | when the viewport fits the frame, the clamped centre is in bounds. A centre already in bounds is unchanged |
| Viewport.ClampIdempotent | pipeline/viewport_calculator.py:139-147 | clamping a clamped centre changes nothing, including when the bounds are inverted |
| Viewport.MidpointInBounds | pipeline/viewport_calculator.py:175-177 | the frame midpoint (w//2, h//2) is in bounds whenever the viewport fits the frame |
| Viewport.Push | pipeline/viewport_calculator.py:123 | appending to the deque keeps at most `smoothing_window_size` values: the most recent ones, in order, with the oldest evicted. With size 0 it keeps nothing |
| Viewport.PushAllKeepsLatest | pipeline/viewport_calculator.py:123 | after any number of appends the buffer is the last N values of everything pushed, in push order |
| ViewportCalculator.ViewportCalculatorProcess.SmoothViewport | pipeline/viewport_calculator.py:118-132 | the buffer becomes the bounded push of the raw centre. The result is the raw centre when fewer than 2 values are held, otherwise the per-axis mean truncated toward zero |
| Viewport.Smoothed | pipeline/viewport_calculator.py:125-131 | reference definition of the smoothed centre, which `SmoothViewport`, `SmoothedInBounds` and `SecondClampRedundant` are about. With fewer than 2 values it is the raw centre, and a window holding only the raw centre averages to it |
| Viewport.MeanWithin | pipeline/viewport_calculator.py:129-131 | the truncated mean of values in [lo, hi] lies in [lo, hi] |
| Viewport.SmoothedInBounds | pipeline/viewport_calculator.py:125-131 | if the raw centre and every buffered value are in bounds, so is the smoothed centre |
| Viewport.SecondClampRedundant | pipeline/viewport_calculator.py:183-188 | when everything already buffered is in bounds, the second clamp of the smoothed centre changes nothing |
| Viewport.SelectBest | pipeline/viewport_calculator.py:75-100 | reference definition of the strict-`>` scan, which `CalculateRoi`'s loop invariant and `SelectBestFirstMax` / `SelectBestNoneAbove` are about. The result is the starting centre or the centre of one of the boxes |
| Viewport.SelectBestFirstMax | pipeline/viewport_calculator.py:75-100 | the scan returns the centre (x + bw//2, y + bh//2) of the first box with the highest score, provided that score is above the starting best |
| Viewport.SelectBestNoneAbove | pipeline/viewport_calculator.py:75-100 | when no box scores strictly above the starting best, the scan returns the starting centre |
| Viewport.Roi | pipeline/viewport_calculator.py:57-100 | reference definition of the region-of-interest centre, which `CalculateRoi` and `RoiSelection` are about. With no boxes it is the previous centre or the midpoint, and otherwise it is that point or the centre of one of the boxes |
| Viewport.RoiSelection | pipeline/viewport_calculator.py:57-100 | with no boxes the result is the previous centre, or (w//2, h//2) when there is none. With no score above -1e18 it is the previous centre. Otherwise it is the centre of the first box whose score beats all earlier ones and is not beaten later |
| Viewport.TieKeepsFirst | pipeline/viewport_calculator.py:98-100 | of two boxes with equal score, the first is chosen |
| ViewportCalculator.ViewportCalculatorProcess.CalculateRoi | pipeline/viewport_calculator.py:44-102 | the scan loop returns the region-of-interest centre that `RoiSelection` characterises |
| Viewport.StepModel | pipeline/viewport_calculator.py:173-196 | one record yields one output. It forwards id, frame and boxes with the configured viewport size. State and count follow the transition rule. In STEADY the buffer is emptied and the centre is kept (the midpoint on the first record). In TRACKING, when the viewport fits the frame, the emitted centre is in bounds. The emitted centre becomes the current centre, and the buffer never exceeds its capacity |
| Viewport.StepKeepsSettled | pipeline/viewport_calculator.py:173-190 | on a frame the viewport fits, a tracker whose centre and buffer are in bounds stays so and emits an in-bounds centre, in either state |
| Viewport.FirstRecord | pipeline/viewport_calculator.py:175-188 | on the first record the centre starts at the midpoint. An empty record leaves the tracker STEADY there with count 1. A record with boxes makes it TRACKING with count 0, it emits the clamped selection made against the midpoint, and, when `smoothing_window_size > 0`, the buffer holds only that centre |
| ViewportCalculator.ViewportCalculatorProcess.HandleDetection | pipeline/viewport_calculator.py:173-202 | the loop body updates the fields and emits exactly what `StepModel` gives for the old fields, and it keeps the buffer within capacity |
| Viewport.TrackStream | pipeline/viewport_calculator.py:158-202 | over a whole input stream the buffer stays within capacity |
| Viewport.TrackStreamShape | pipeline/viewport_calculator.py:158-202 | each record before the first sentinel yields exactly one output, in order, forwarding id, frame, boxes and the viewport size. Then exactly one sentinel is forwarded, nothing follows, and the run is Finished. With no sentinel the stage is still waiting |
| Viewport.TrackStreamInBounds | pipeline/viewport_calculator.py:173-202 | when all frames have one size the viewport fits, every emitted centre is in bounds |
| Viewport.SteadyHoldsPosition | pipeline/viewport_calculator.py:179-190 | a STEADY tracker fed records without motion stays STEADY, and every output carries its held centre |
| ViewportCalculator.ViewportCalculatorProcess.Run | pipeline/viewport_calculator.py:149-202 | the get/put loop produces exactly the outputs, outcome and final fields of `TrackStream` |
| Detection.KernelSize | pipeline/detector.py:38-42 | the kernel size is odd, at least 3 and at least the configured size, and it is the least such value. An odd size of at least 3 is kept |
| Detector.CoerceKernelSize | pipeline/detector.py:38-42 | the statement sequence (make even sizes odd, then raise sizes below 3 to 3) computes `KernelSize` |
| Detection.KeptBoxes | pipeline/detector.py:80-85 | reference definition of the contour filter, which `HandleFrame`'s loop invariant and `KeptBoxesAppend` / `KeptBoxesExactly` / `KeptBoxesAll` are about. It never yields more boxes than there are contours |
| Detection.KeptBoxesAppend | pipeline/detector.py:80-85 | filtering a concatenation gives the two filtered parts concatenated, so contour order is kept |
| Detection.KeptBoxesExactly | pipeline/detector.py:80-85 | the bounding rect of every contour with area >= min_motion_area is reported, and every reported box is the rect of such a contour |
| Detection.KeptBoxesAll | pipeline/detector.py:80-85 | when no contour is too small, the boxes are the contours' bounding rects one for one, in order |
| Detection.Blurred | pipeline/detector.py:60-61 | reference definition of the grey, blurred image. A failing grey conversion is the result's error, and a blurred image exists only when the conversion succeeded and the blur of its result gives it |
| Detection.MotionBoxes | pipeline/detector.py:70-85 | reference definition of differencing, thresholding, dilating and filtering. A failing `absdiff` is the result's error, and every reported box is the bounding rect of a contour whose area is at least `min_motion_area` |
| Detection.DetectFrame | pipeline/detector.py:59-90 | reference definition of one frame, which `HandleFrame`, `DetectStream` and the stream lemmas are about. A failing blur is the result's error. A record forwards id and frame, with the frame's blurred image as the new baseline. It has no boxes without a baseline, and otherwise the boxes of `MotionBoxes` against the baseline |
| Detection.DetectStream | pipeline/detector.py:44-106 | reference definition of the whole detector run, which `Run`, `DetectStreamShape`, `DetectStreamBaseline`, `DetectStreamError` and `FirstFrameHasNoMotion` are about. It never emits more outputs than inputs. Waiting means every input was a frame and was emitted, and Finished means the last output is a sentinel |
| Detector.DetectionProcess.constructor | pipeline/detector.py:18-28 | the stage keeps its configuration and the image operations |
| Detector.DetectionProcess.HandleFrame | pipeline/detector.py:59-90 | one frame, including the contour filter loop, gives exactly `DetectFrame`: its record and new baseline, or the error an image operation raised |
| Detection.FirstFrameHasNoMotion | pipeline/detector.py:62-66 | the first frame of a stream, which has no baseline, is emitted with no motion boxes |
| Detection.DetectStreamHead | pipeline/detector.py:59-94 | when a run's first output is a record, the first input was a frame whose processing succeeded, and the output is that frame's record |
| Detection.DetectStreamBaseline | pipeline/detector.py:70-98 | every emitted record after the first holds the boxes from differencing the previous frame's blurred image against the current one, so the baseline is replaced after every frame |
| Detection.DetectStreamShape | pipeline/detector.py:44-106 | the first m inputs are frames, each yielding one record in order with the same id and frame. On the sentinel exactly one sentinel is forwarded and the run is Finished. On an error nothing more is emitted, one sentinel is forwarded exactly when the best-effort put succeeds, and the run is Failed. With input left over and no sentinel the stage is still waiting |
| Detection.DetectStreamError | pipeline/detector.py:100-106 | the error a failed run re-raises is the one raised by the first frame not emitted, processed against its predecessor's blurred image (or the initial baseline when it is the first frame); every input before it was an emitted frame |
| Detector.DetectionProcess.Run | pipeline/detector.py:30-106 | the get/put loop, with its kernel coercion and baseline update, produces exactly the outputs and outcome of `DetectStream` from no baseline |

## Left out

- The image operations (`pipeline/detector.py:60-61, 70-84`) are foreign library calls. They are uninterpreted, and nothing is proved about pixels or contour geometry. `contourArea` and `boundingRect` are treated as calls that cannot raise; the other six may raise.
- The box score (`pipeline/viewport_calculator.py:62-96`) is float arithmetic: `hypot`, the area cap and the bottom penalty. It is an uninterpreted real-valued function of box, previous centre and frame size, and only the selection rule is modelled.
- Viewport.Smoothed: `int(sum / len)` is modelled as exact division truncated toward zero. Rounding of the float quotient is not modelled.
- Queue timeouts and retries (`pipeline/queue_manager.py`) are not modelled as steps: a `get` is the next input and a successful `put` is an append. A `put` that fails with anything other than `Full` in the normal path is not modelled.
- The tracker's `except` path (`pipeline/viewport_calculator.py:204-210`) is not modelled. In the model no tracker step can raise, since records are typed and the score is a total function. In the source the score can raise: `area / frame_area` (`pipeline/viewport_calculator.py:96`) divides by zero on a zero-area frame with boxes in TRACKING, so the model does not capture that failure or the sentinel forwarded after it. The detector's error path is modelled.
- Detection.DetectStream: whether the best-effort sentinel after an error is accepted is the parameter `sentinelAccepted`, because the queue state that decides it is not modelled.
- A stream that ends without a sentinel ends the model in `Waiting`. The source keeps polling forever.
- Log output (`print`) is not modelled.
- The unused field `prev_frame` (`pipeline/detector.py:28`) and the unused `smoothing_alpha` setting are not modelled.
- Configuration values are typed as the model needs. Viewport sizes and the window size are `nat`. The source's `deque` would raise on a negative window size, and negative sizes are not modelled.
- Only a frame's height and width are inspected. Its channels and pixel layout are passed to the image operations unread.
- Process start, join and termination, `main.py`, `pipeline/frame_reader.py`, `pipeline/output_writer.py` and `config.py` are not part of this model. They cover supervision, video I/O, drawing and INI parsing.

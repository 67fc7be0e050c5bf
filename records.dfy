/** The records carried between pipeline stages, and the small wrapper
    types both stages share. */
module Records {

  datatype Option<+T> = None | Some(value: T)

  /** What a call into the image library yields: its value, or the
      exception it raised (kept as its message). */
  datatype Result<+T> = Ok(value: T) | Err(error: string) {
    predicate IsFailure() {
      Err?
    }

    function PropagateFailure<U>(): Result<U>
      requires Err?
    {
      Err(error)
    }

    function Extract(): T
      requires Ok?
    {
      value
    }
  }

  /** An integer pixel coordinate. */
  datatype Point = Point(x: int, y: int)

  /** An axis-aligned bounding rectangle (x, y, width, height), as the
      image library's boundingRect returns it. */
  datatype Box = Box(x: nat, y: nat, w: nat, h: nat)

  /** A raster buffer; only its shape is inspected by the core, its pixels
      are handed to the image library as they are. */
  datatype Image = Image(height: nat, width: nat, pixels: seq<int>)

  datatype FrameData = FrameData(frameId: int, frame: Image, timestamp: real)

  datatype DetectionData = DetectionData(frameId: int, frame: Image, motionBoxes: seq<Box>)

  datatype ViewportData = ViewportData(
    frameId: int,
    frame: Image,
    viewportCenter: Point,
    viewportSize: (nat, nat),
    motionBoxes: seq<Box>)

  /** How a stage's run ends. */
  datatype StageOutcome =
    | Finished              // got the sentinel, forwarded one, returned
    | Failed(error: string) // a record raised; the error is re-raised
    | Waiting               // the input ran dry with no sentinel: still polling

  /** Index of the first sentinel (None) in a stream, or its length when
      there is none. */
  function FirstSentinel<T>(s: seq<Option<T>>): (m: nat)
    ensures m <= |s|
    ensures forall i | 0 <= i < m :: s[i].Some?
    ensures m < |s| ==> s[m].None?
  {
    if s == [] then 0 else if s[0].None? then 0 else 1 + FirstSentinel(s[1..])
  }
}

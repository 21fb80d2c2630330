/** The detection engine: per camera frame, find the faces, take the largest,
    crop it, re-classify the crop and feed the top emotion into the
    stabiliser, then report the stabilised label with the frame's own
    confidence. The camera read and both classifier calls are inputs. */
module Engine {
  import opened Selection
  import opened Stabilizer
  import opened Text
  import opened Grid
  import Preprocess

  datatype Option<T> = None | Some(value: T)

  /** Result of one `cap.read()`: a failure, or a frame of the given size. */
  datatype CameraRead = ReadFailed | ReadOk(rows: nat, cols: nat)

  /** The inputs of one call: the camera read, the classifier's result on the
      whole frame and its result on the preprocessed crop. */
  datatype FrameInput = FrameInput(read: CameraRead, faces: seq<Detection>, refined: seq<Detection>)

  /** The text part of the result. `Reading` is the stabilised label,
      already capitalised, beside the current frame's confidence. */
  datatype Status =
    | CameraNotStarted
    | CameraError
    | NoFaceDetected
    | FaceError
    | Analyzing
    | Reading(emotion: string, confidence: real)

  /** The fixed messages; a reading is shown as its label and percentage. */
  function Message(s: Status): string
    requires !s.Reading?
  {
    match s
    case CameraNotStarted => "Camera not started"
    case CameraError => "Camera Error"
    case NoFaceDetected => "No Face Detected"
    case FaceError => "Face Error"
    case Analyzing => "Analyzing..."
  }

  /** The frame part of the result: its size and the box (clamped origin,
      classifier's extent) the grid was drawn at, if any. */
  datatype FrameShape = FrameShape(rows: nat, cols: nat, grid: Option<FaceBox>)

  /** Everything one call produces: frame, text and the new history. */
  datatype Outcome = Outcome(frame: Option<FrameShape>, status: Status, history: seq<string>)

  function ClampOrigin(n: int): nat {
    if n < 0 then 0 else n
  }

  /** Where a Python slice bound `i` lands in a sequence of length `n`: a
      negative bound counts from the end, and both are clipped to `[0, n]`. */
  function SliceBound(i: int, n: nat): (b: nat)
    ensures b <= n
  {
    if i < 0 then (if i + n < 0 then 0 else i + n) else if i > n then n else i
  }

  /** Length of the slice `[start:stop]` of a sequence of length `n`. */
  function SliceLen(start: int, stop: int, n: nat): nat {
    var lo, hi := SliceBound(start, n), SliceBound(stop, n);
    if lo < hi then hi - lo else 0
  }

  /** `frame[y:y + h, x:x + w].size` for a frame of `rows` x `cols` pixels. */
  function CropSize(rows: nat, cols: nat, x: nat, y: nat, w: int, h: int): nat {
    SliceLen(y, y + h, rows) * SliceLen(x, x + w, cols) * Preprocess.Channels
  }

  /** For a box of non-negative size the crop has `max(0, min(y + h, rows) - y)`
      rows and likewise for columns, and it is empty exactly when the origin
      lies outside the frame or the box has no width or no height. */
  lemma CropOfProperBox(rows: nat, cols: nat, x: nat, y: nat, w: int, h: int)
    requires w >= 0 && h >= 0
    ensures SliceLen(y, y + h, rows) == if y + h <= rows then (if y <= rows then h else 0)
                                       else (if y <= rows then rows - y else 0)
    ensures SliceLen(x, x + w, cols) == if x + w <= cols then (if x <= cols then w else 0)
                                       else (if x <= cols then cols - x else 0)
    ensures CropSize(rows, cols, x, y, w, h) == 0 <==> x >= cols || y >= rows || w == 0 || h == 0
  {
  }

  /** The box the grid is drawn at: the classifier's box with its origin
      clamped to the frame's top-left corner. */
  function Clamped(b: FaceBox): FaceBox {
    FaceBox(ClampOrigin(b.x), ClampOrigin(b.y), b.w, b.h)
  }

  /** Size of the crop of the selected face. */
  function SelectedCropSize(rows: nat, cols: nat, faces: seq<Detection>): nat
    requires faces != []
  {
    var b := Clamped(faces[SelectFace(faces)].box);
    CropSize(rows, cols, b.x, b.y, b.w, b.h)
  }

  /** The call reaches the refinement result: camera open, read succeeded,
      a face was found, its crop is not empty and the refined list is not. */
  predicate Refines(open: bool, input: FrameInput) {
    && open
    && input.read.ReadOk?
    && input.faces != []
    && SelectedCropSize(input.read.rows, input.read.cols, input.faces) > 0
    && input.refined != []
  }

  /** The label this call adds to history, if any: the refined top emotion,
      when its confidence is above the floor. */
  function AcceptedLabel(open: bool, input: FrameInput): Option<string> {
    if Refines(open, input) && Accepts(TopEmotion(input.refined[0].emotions).1)
    then Some(TopEmotion(input.refined[0].emotions).0)
    else None
  }

  /** `get_frame` as a function of the camera state, the history and the
      call's inputs. */
  function FrameStep(open: bool, history: seq<string>, input: FrameInput): (o: Outcome)
    requires |history| <= Capacity
    // history changes only by the accepted label, and stays bounded
    ensures |o.history| <= Capacity
    ensures o.history == match AcceptedLabel(open, input)
                         case None => history
                         case Some(l) => BoundedAppend(history, l)
    // the early exits
    ensures !open ==> o == Outcome(None, CameraNotStarted, history)
    ensures open && input.read.ReadFailed? ==> o == Outcome(None, CameraError, history)
    ensures o.frame.None? <==> !open || input.read.ReadFailed?
    ensures open && input.read.ReadOk? && input.faces == [] ==>
              o == Outcome(Some(FrameShape(input.read.rows, input.read.cols, None)), NoFaceDetected, history)
    // a face was found: the grid is drawn whatever happens next
    ensures open && input.read.ReadOk? && input.faces != [] ==>
              var k := SelectFace(input.faces);
              o.frame == Some(FrameShape(input.read.rows, input.read.cols, Some(Clamped(input.faces[k].box)))) &&
              (o.status == FaceError <==> SelectedCropSize(input.read.rows, input.read.cols, input.faces) == 0)
    ensures o.status == Analyzing <==>
              open && input.read.ReadOk? && input.faces != [] &&
              SelectedCropSize(input.read.rows, input.read.cols, input.faces) > 0 && input.refined == []
    // a reading: the stabilised label over the new history, this frame's confidence
    ensures o.status.Reading? <==> Refines(open, input)
    ensures o.status.Reading? ==>
              o.status.emotion == Capitalize(StableEmotion(o.history)) &&
              o.status.confidence == TopEmotion(input.refined[0].emotions).1
  {
    if !open then Outcome(None, CameraNotStarted, history)
    else if input.read.ReadFailed? then Outcome(None, CameraError, history)
    else if input.faces == [] then
      Outcome(Some(FrameShape(input.read.rows, input.read.cols, None)), NoFaceDetected, history)
    else
      var box := Clamped(input.faces[SelectFace(input.faces)].box);
      var shape := Some(FrameShape(input.read.rows, input.read.cols, Some(box)));
      if CropSize(input.read.rows, input.read.cols, box.x, box.y, box.w, box.h) == 0 then
        Outcome(shape, FaceError, history)
      else if input.refined == [] then
        Outcome(shape, Analyzing, history)
      else
        var top := TopEmotion(input.refined[0].emotions);
        var history' := if Accepts(top.1) then BoundedAppend(history, top.0) else history;
        Outcome(shape, Reading(Capitalize(StableEmotion(history')), top.1), history')
  }

  /** A rejected frame leaves history as it was; an accepted one adds its
      label as the newest entry. */
  lemma StepAcceptance(open: bool, history: seq<string>, input: FrameInput)
    requires |history| <= Capacity
    requires Refines(open, input)
    ensures var o := FrameStep(open, history, input);
            var top := TopEmotion(input.refined[0].emotions);
            (top.1 <= ConfidenceFloor ==> o.history == history) &&
            (top.1 > ConfidenceFloor ==> o.history == Latest(history + [top.0]))
  {
  }

  /** History after a run of calls with the camera state fixed. */
  function Run(open: bool, history: seq<string>, inputs: seq<FrameInput>): (h: seq<string>)
    requires |history| <= Capacity
    ensures |h| <= Capacity
    decreases |inputs|
  {
    if inputs == [] then history
    else Run(open, FrameStep(open, history, inputs[0]).history, inputs[1..])
  }

  /** The labels a run of calls accepts, in order. */
  function AcceptedLabels(open: bool, inputs: seq<FrameInput>): seq<string>
    decreases |inputs|
  {
    if inputs == [] then []
    else
      (match AcceptedLabel(open, inputs[0]) case None => [] case Some(l) => [l]) +
      AcceptedLabels(open, inputs[1..])
  }

  /** After any run of calls, history is exactly the newest fifteen labels
      accepted (counting what it held before), oldest first: rejected,
      failed and empty frames leave no trace and never clear it. */
  lemma {:induction false} RunKeepsLatestAccepted(open: bool, history: seq<string>, inputs: seq<FrameInput>)
    requires |history| <= Capacity
    ensures Run(open, history, inputs) == Latest(history + AcceptedLabels(open, inputs))
    decreases |inputs|
  {
    RunIsAppendAll(open, history, inputs);
    AppendAllKeepsLatest(history, AcceptedLabels(open, inputs));
  }

  lemma {:induction false} RunIsAppendAll(open: bool, history: seq<string>, inputs: seq<FrameInput>)
    requires |history| <= Capacity
    ensures Run(open, history, inputs) == AppendAll(history, AcceptedLabels(open, inputs))
    decreases |inputs|
  {
    if inputs != [] {
      var next := FrameStep(open, history, inputs[0]).history;
      RunIsAppendAll(open, next, inputs[1..]);
      var rest := AcceptedLabels(open, inputs[1..]);
      match AcceptedLabel(open, inputs[0])
      case None =>
        assert AcceptedLabels(open, inputs) == rest;
      case Some(l) =>
        assert AcceptedLabels(open, inputs) == [l] + rest;
        assert ([l] + rest)[1..] == rest;
    }
  }

  /** With the camera stopped no call changes history. */
  lemma {:induction false} StoppedRunKeepsHistory(history: seq<string>, inputs: seq<FrameInput>)
    requires |history| <= Capacity
    ensures Run(false, history, inputs) == history
    decreases |inputs|
  {
    if inputs != [] {
      StoppedRunKeepsHistory(history, inputs[1..]);
    }
  }

  /** Two faces of areas 100 and 400 and an empty refinement: the larger
      face is framed, the text is "Analyzing..." and history is untouched. */
  lemma ScenarioRefinementEmpty(history: seq<string>, small: Scores, large: Scores)
    requires |history| <= Capacity
    ensures var faces := [Detection(FaceBox(5, 5, 10, 10), small), Detection(FaceBox(40, 30, 20, 20), large)];
            FrameStep(true, history, FrameInput(ReadOk(480, 640), faces, [])) ==
              Outcome(Some(FrameShape(480, 640, Some(FaceBox(40, 30, 20, 20)))), Analyzing, history)
  {
  }

  /** One face, refinement {happy: 0.9, sad: 0.05}, empty history: "happy" is
      accepted and the reading is "Happy" at confidence 0.9. */
  lemma ScenarioHappy(whole: Scores)
    ensures var face := FaceBox(100, 80, 120, 120);
            var scores: Scores := [("happy", 0.9), ("sad", 0.05)];
            var o := FrameStep(true, [], FrameInput(ReadOk(480, 640), [Detection(face, whole)], [Detection(face, scores)]));
            o.status == Reading("Happy", 0.9) && o.history == ["happy"]
  {
  }

  /** The engine: whether the camera is open, and the label history. */
  class EmotionEngine {
    var cameraOpen: bool
    var emotionBuffer: seq<string>

    ghost predicate Valid()
      reads this
    {
      |emotionBuffer| <= Capacity
    }

    constructor ()
      ensures Valid() && !cameraOpen && emotionBuffer == []
    {
      cameraOpen := false;
      emotionBuffer := [];
    }

    method StartCamera()
      modifies this`cameraOpen
      ensures cameraOpen && emotionBuffer == old(emotionBuffer)
    {
      cameraOpen := true;
    }

    method StopCamera()
      modifies this`cameraOpen
      ensures !cameraOpen && emotionBuffer == old(emotionBuffer)
    {
      if cameraOpen {
        cameraOpen := false;
      }
    }

    /** `draw_ai_grid`: the box outline, then the three vertical and the
        three horizontal interior lines. */
    method DrawAiGrid(frame: Frame, x: int, y: int, w: int, h: int)
      modifies frame
      ensures frame.strokes == old(frame.strokes) + GridStrokes(x, y, w, h)
    {
      frame.strokes := frame.strokes + [Rectangle(Point(x, y), Point(x + w, y + h))];
      ghost var afterBox := frame.strokes;
      for i := 1 to 4
        invariant frame.strokes == afterBox + VerticalLines(x, y, w, h)[..i - 1]
      {
        var vx := x + TruncDiv(w * i, 4);
        frame.strokes := frame.strokes + [Line(Point(vx, y), Point(vx, y + h))];
        assert VerticalLines(x, y, w, h)[..i] == VerticalLines(x, y, w, h)[..i - 1] + [VerticalLine(x, y, w, h, i)];
      }
      ghost var afterVertical := frame.strokes;
      for i := 1 to 4
        invariant frame.strokes == afterVertical + HorizontalLines(x, y, w, h)[..i - 1]
      {
        var hy := y + TruncDiv(h * i, 4);
        frame.strokes := frame.strokes + [Line(Point(x, hy), Point(x + w, hy))];
        assert HorizontalLines(x, y, w, h)[..i] == HorizontalLines(x, y, w, h)[..i - 1] + [HorizontalLine(x, y, w, h, i)];
      }
      assert VerticalLines(x, y, w, h)[..3] == VerticalLines(x, y, w, h);
      assert HorizontalLines(x, y, w, h)[..3] == HorizontalLines(x, y, w, h);
    }

    /** `get_frame`: one camera frame through the pipeline. The result is
        `null` where the source returns `None`; a frame is fresh, of the read
        size, and carries the grid strokes exactly when a face was found. */
    method GetFrame(read: CameraRead, faces: seq<Detection>, refined: seq<Detection>)
      returns (frame: Frame?, status: Status)
      requires Valid()
      modifies this`emotionBuffer
      ensures Valid()
      ensures var o := FrameStep(old(cameraOpen), old(emotionBuffer), FrameInput(read, faces, refined));
              && emotionBuffer == o.history
              && status == o.status
              && (frame == null <==> o.frame.None?)
              && (frame != null ==>
                    && fresh(frame)
                    && frame.rows == o.frame.value.rows
                    && frame.cols == o.frame.value.cols
                    && frame.strokes == match o.frame.value.grid
                                        case None => []
                                        case Some(b) => GridStrokes(b.x, b.y, b.w, b.h))
    {
      if !cameraOpen {
        return null, CameraNotStarted;
      }
      if read.ReadFailed? {
        return null, CameraError;
      }
      frame := new Frame(read.rows, read.cols);
      if faces == [] {
        return frame, NoFaceDetected;
      }
      var face := faces[SelectFace(faces)].box;
      var x, y := ClampOrigin(face.x), ClampOrigin(face.y);
      if CropSize(read.rows, read.cols, x, y, face.w, face.h) > 0 {
        if refined != [] {
          var top := TopEmotion(refined[0].emotions);
          var confidence := top.1;
          if Accepts(confidence) {
            emotionBuffer := BoundedAppend(emotionBuffer, top.0);
          }
          status := Reading(Capitalize(StableEmotion(emotionBuffer)), confidence);
        } else {
          status := Analyzing;
        }
      } else {
        status := FaceError;
      }
      DrawAiGrid(frame, x, y, face.w, face.h);
    }
  }
}

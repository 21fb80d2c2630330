# Emotion engine: a Dafny model

This project models the detection engine of a desktop emotion-recognition
application (`EmotionEngine` in `emotion_engine.py`). On every camera frame the
engine:

1. asks a facial-emotion classifier for faces;
2. keeps the largest face;
3. crops the face with its origin clamped to the frame;
4. brightens the crop and classifies it again;
5. adds the top emotion to a 15-slot history when its confidence is above
   0.35;
6. reports the majority label of that history beside the current frame's
   confidence, with a box-and-grid overlay on the frame.

The camera read and the two classifier calls are parameters, so every
operation is deterministic.

Modules, one per component:

- `Selection` (selection.dfy): Python's `max(xs, key=f)`, with the first
  maximal element winning. It is used for the face with the largest `w * h`
  and for the top emotion of a score map. Score maps are non-empty sequences
  of `(label, score)` pairs in dictionary order, with distinct labels.
- `Stabilizer` (stabilizer.dfy): the `deque(maxlen=15)` history as a sequence,
  its bounded append, the 0.35 confidence floor, and the majority vote with
  its `"Detecting..."` sentinel.
- `Text` (text.dfy): `str.capitalize`, restricted to ASCII.
- `Preprocess` (preprocess.dfy): the `convertScaleAbs(alpha=1.2, beta=15)`
  pixel map and the 224 x 224 output shape. On bytes, `saturate(round(1.2 p +
  15))` is computed exactly as `min(255, (6 p + 2) div 5 + 15)`, and
  `Brightness` proves that the two agree.
- `Grid` (grid.dfy): the coordinates that `draw_ai_grid` hands to
  `cv2.rectangle` and `cv2.line`, and a `Frame` class that records those
  strokes.
- `Engine` (engine.dfy):
  - `FrameStep`, a function giving `get_frame`'s outcome from the camera
    state, the history and the call's inputs;
  - `Run`, its iteration over many frames;
  - the `EmotionEngine` class. Its fields are `cameraOpen` (which abstracts
    `self.cap`) and `emotionBuffer`. Its `GetFrame` method updates the
    buffer in place and is proved equal to `FrameStep`.

Notes on the model:

- **Majority-vote ties.** The source takes `max` over a `set`, whose iteration
  order is unspecified. So `StableEmotion` promises only what every order
  gives: a label of the history whose count is not beaten. The recursive
  helper returns the earliest such label, but no contract reveals this.
- **History across camera sessions.** Stopping and restarting the camera does
  not clear the history, and the model keeps it the same way.
- **Crop size.** The crop size follows numpy slice semantics exactly,
  including a negative slice end, which counts from the far edge. For boxes
  with `w, h >= 0`, which are the only ones the classifier produces,
  `CropOfProperBox` shows that a dimension is `max(0, min(y + h, rows) - y)`.
  It also shows that "Face Error" happens exactly when the origin is outside
  the frame or the box has zero width or height.
- **Grid offsets.** `int(w * i / 4)` truncates toward zero. This is modelled
  by `TruncDiv` and is the floor when `w >= 0`.

## Model

| member | source | states |
|---|---|---|
| Selection.FirstArgMax | emotion_engine.py:72 | `max(..., key=...)` returns an element whose key no other element exceeds, and every earlier element has a strictly smaller key (the first maximum) |
| Selection.SelectFace | emotion_engine.py:72 | the selected face has the largest `w*h` of all results; every face before it is strictly smaller |
| Selection.SelectFaceUnique | emotion_engine.py:72 | the area order alone determines the selected face: any index that is maximal and first is the one chosen |
| Selection.SelectSingleFace | emotion_engine.py:70-72 | with a single detected face, that face is the one selected |
| Selection.TopEmotion | emotion_engine.py:87-89 | the top emotion is a key of the score map with a maximal score, the first such in dictionary order, paired with its own score as the confidence |
| Stabilizer.Count | emotion_engine.py:43 | `deque.count` is at most the length and is zero exactly when the label is absent |
| Stabilizer.BoundedAppend | emotion_engine.py:12 | appending to the 15-slot deque keeps exactly the newest 15 labels in arrival order: it never exceeds 15, the new label is last, and a full deque loses its oldest entry |
| Stabilizer.AppendAllKeepsLatest | emotion_engine.py:12 | after any series of appends, the history equals the last 15 of everything appended, in order |
| Stabilizer.SixteenthEvictsFirst | emotion_engine.py:12 | sixteen appends to an empty history evict the first label and keep the other fifteen in order |
| Stabilizer.MostFrequentOf | emotion_engine.py:43 | the chosen candidate is one of the candidates, and no candidate occurs more often in the history |
| Stabilizer.StableEmotion | emotion_engine.py:40-43 | empty history gives "Detecting..."; otherwise the result is a label in the history that no other label outnumbers; if the history does not contain the sentinel, the result is the sentinel exactly when the history is empty |
| Stabilizer.StrictMajorityWins | emotion_engine.py:40-43 | a label that strictly outnumbers every other label is the one the vote returns |
| Stabilizer.MajorityExample | emotion_engine.py:40-43 | for the history [a, a, b, a, b, b, b] the vote is b (four against three) |
| Text.Capitalize | emotion_engine.py:96 | `capitalize` keeps the length, makes the first character non-lower-case and equal to the input's up to case, and lower-cases every later character |
| Text.CapitalizeIdempotent | emotion_engine.py:96 | capitalising twice is the same as capitalising once |
| Text.CapitalizeExamples | emotion_engine.py:96 | "Detecting..." is displayed unchanged and "happy" becomes "Happy" |
| Preprocess.Brightness | emotion_engine.py:53 | the integer pixel map equals `saturate(floor(1.2p + 15 + 0.5))` computed on reals, and is never below 15 |
| Preprocess.BrightnessMonotone | emotion_engine.py:53 | the pixel map keeps the order of channel values |
| Preprocess.BrightnessEnds | emotion_engine.py:53 | 0 maps to 15, and a value saturates at 255 exactly when it is at least 200 |
| Preprocess.PreprocessFace | emotion_engine.py:45-55 | a non-empty crop gives a 224 x 224 x 3 image whose every channel value is the rounded, saturated `1.2p + 15` of the resized value, lies in [15, 255] and keeps the order of the resized values |
| Grid.OffsetIsFloor | emotion_engine.py:32 | for a non-negative extent, the truncated grid offset `int(w*i/4)` is the floor of `w*i/4` |
| Grid.GridInsideBox | emotion_engine.py:24-38 | for a box of non-negative size, seven strokes are drawn; every interior vertical and horizontal line spans the box, lies inside it, and the lines come in order |
| Engine.CropOfProperBox | emotion_engine.py:76-79 | for `w, h >= 0` the crop has `max(0, min(y+h, H) - y)` rows and likewise for columns, and its size is 0 exactly when the clamped origin is outside the frame or `w` or `h` is 0 |
| Engine.FrameStep | emotion_engine.py:57-108 | no camera gives (no frame, "Camera not started") and a failed read gives (no frame, "Camera Error"), both with history untouched; no faces gives the bare frame with "No Face Detected"; otherwise the grid is drawn at the clamped origin with the original `w, h`; "Face Error" happens exactly when the crop is empty and "Analyzing..." exactly when the refinement is empty; history changes only by the bounded append of the accepted label and stays within 15; a reading pairs the capitalised vote over the new history with this frame's confidence |
| Engine.StepAcceptance | emotion_engine.py:91-93 | on the refined path, a confidence at or below 0.35 leaves history as it was, and a confidence above it makes history the newest 15 of the old history plus the top label |
| Engine.RunKeepsLatestAccepted | emotion_engine.py:91-93 | over any series of frames, history is the newest 15 of the earlier history followed by the labels accepted; rejected or failed frames neither add to it nor clear it |
| Engine.RunIsAppendAll | emotion_engine.py:57-108 | running frames through `get_frame` changes history exactly as appending the accepted labels one by one does |
| Engine.StoppedRunKeepsHistory | emotion_engine.py:58-59 | while the camera is stopped, no number of calls changes history |
| Engine.ScenarioRefinementEmpty | emotion_engine.py:70-106 | faces of areas 100 and 400 with an empty refinement: the 400 box is framed, the text is "Analyzing..." and history is unchanged |
| Engine.ScenarioHappy | emotion_engine.py:84-96 | one face with refinement {happy: 0.9, sad: 0.05} and empty history: "happy" is accepted and the reading is "Happy" at 0.9 |
| Engine.EmotionEngine.constructor | emotion_engine.py:7-12 | a new engine has no camera and an empty history |
| Engine.EmotionEngine.StartCamera | emotion_engine.py:14-17 | starting the camera marks it open and leaves history untouched |
| Engine.EmotionEngine.StopCamera | emotion_engine.py:19-22 | stopping the camera marks it closed (a no-op when already closed) and leaves history untouched |
| Engine.EmotionEngine.DrawAiGrid | emotion_engine.py:24-38 | the frame gains exactly the box outline, then three vertical and three horizontal lines at `x + int(w*i/4)` and `y + int(h*i/4)` for i = 1..3 |
| Engine.EmotionEngine.GetFrame | emotion_engine.py:57-108 | the returned frame, text and new buffer are those of `FrameStep` on the old camera state and buffer; a returned frame is fresh, has the read size, and carries the grid strokes exactly when a face was found; the camera state is unchanged |

## Left out

- The classifier (`FER`, emotion_engine.py:8, 68, 84): an opaque foreign model. Its two results are parameters of `GetFrame`. A score map is non-empty by type, because the classifier always scores its fixed label set; an empty map would make the source's `max` raise.
- Camera device I/O (`cv2.VideoCapture`, the resolution hints and `release`, emotion_engine.py:15-17, 21): abstracted as the `cameraOpen` flag and a read result that carries only the frame size.
- `cv2.flip` (emotion_engine.py:65): image-library internals. It keeps the frame size, which is all the model uses.
- `cv2.resize` interpolation (emotion_engine.py:50): `PreprocessFace` takes the resized 224 x 224 image as an input. `GetFrame` does not compute it, because its only use is as the input of the second classifier call, which is itself a parameter.
- Pixel contents of frames and the actual drawing by `cv2.rectangle` and `cv2.line`: only the frame size and the stroke coordinates are kept.
- Text.Capitalize: ASCII only. Python's `capitalize` also maps non-ASCII letters and title-cases the first character.
- Float formatting `%.1f` of the confidence (emotion_engine.py:96): a reading carries the confidence as a `real` beside the label, not the formatted string.
- Floating point: confidences and the 0.35 floor are exact reals, and `w*i/4` is taken as exact. The latter holds for any box below 2^51 pixels.
- Stabilizer.StableEmotion: does not fix the tie-break between equally frequent labels, because the source's set iteration order does not fix one either.
- `main.py`: the Qt window, timer polling, image conversion, freeze-frame display and confidence-bar parsing are presentation and are not part of this model.

/** Picking one element out of the classifier's output: the primary face of a
    frame and the top emotion of a score map. Both are Python's built-in
    `max(xs, key=f)`, which scans left to right and replaces its candidate
    only on a strictly greater key, so the FIRST maximal element wins. */
module Selection {

  /** A face box as the classifier reports it: origin and extent in pixels. */
  datatype FaceBox = FaceBox(x: int, y: int, w: int, h: int)

  /** A score map: the labels in the dictionary's insertion order, each with
      its probability. It is never empty and no label occurs twice. */
  type Scores = s: seq<(string, real)> | ValidScores(s) witness [("neutral", 0.0)]

  predicate ValidScores(s: seq<(string, real)>) {
    |s| > 0 && forall i, j | 0 <= i < j < |s| :: s[i].0 != s[j].0
  }

  /** One entry of the classifier's result list. */
  datatype Detection = Detection(box: FaceBox, emotions: Scores)

  /** Index that `max(s, key=key)` returns: the first element whose key no
      other element exceeds. */
  function FirstArgMax<T>(s: seq<T>, key: T -> real): (k: nat)
    requires |s| > 0
    ensures k < |s|
    ensures forall j :: 0 <= j < |s| ==> key(s[j]) <= key(s[k])
    ensures forall j :: 0 <= j < k ==> key(s[j]) < key(s[k])
  {
    if |s| == 1 then 0
    else
      var k := FirstArgMax(s[..|s| - 1], key);
      if key(s[k]) < key(s[|s| - 1]) then |s| - 1 else k
  }

  function Area(b: FaceBox): int {
    b.w * b.h
  }

  /** The primary face: the largest `w * h`, the first one on a tie. */
  function SelectFace(faces: seq<Detection>): (k: nat)
    requires |faces| > 0
    ensures k < |faces|
    ensures forall j :: 0 <= j < |faces| ==> Area(faces[j].box) <= Area(faces[k].box)
    ensures forall j :: 0 <= j < k ==> Area(faces[j].box) < Area(faces[k].box)
  {
    FirstArgMax(faces, (d: Detection) => Area(d.box) as real)
  }

  /** The top emotion and its confidence: the first label of the score map
      whose score no other label exceeds. */
  function TopEmotion(scores: Scores): (top: (string, real))
    ensures exists k :: 0 <= k < |scores| && scores[k] == top &&
                        forall j :: 0 <= j < k ==> scores[j].1 < top.1
    ensures forall j :: 0 <= j < |scores| ==> scores[j].1 <= top.1
  {
    var k := FirstArgMax(scores, (e: (string, real)) => e.1);
    scores[k]
  }

  /** With one face there is nothing to choose. */
  lemma SelectSingleFace(d: Detection)
    ensures SelectFace([d]) == 0
  {
  }

  /** The face chosen is determined by the areas alone: any index meeting
      the contract of `SelectFace` is the one it returns. */
  lemma SelectFaceUnique(faces: seq<Detection>, k: nat)
    requires k < |faces|
    requires forall j :: 0 <= j < |faces| ==> Area(faces[j].box) <= Area(faces[k].box)
    requires forall j :: 0 <= j < k ==> Area(faces[j].box) < Area(faces[k].box)
    ensures SelectFace(faces) == k
  {
  }
}

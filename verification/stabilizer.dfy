/** The emotion stabiliser: a history of at most fifteen accepted labels,
    oldest first (a `deque(maxlen=15)`), and the majority vote over it. */
module Stabilizer {

  /** Capacity of the history: labels of the last fifteen accepted frames. */
  const Capacity: nat := 15

  /** Confidence floor: only a strictly greater confidence enters history. */
  const ConfidenceFloor: real := 0.35

  /** What the vote yields while the history is empty. */
  const Sentinel: string := "Detecting..."

  predicate Accepts(confidence: real) {
    confidence > ConfidenceFloor
  }

  /** `deque.count`: occurrences of `l` in `s`. */
  function Count(s: seq<string>, l: string): (n: nat)
    ensures n <= |s|
    ensures n == 0 <==> l !in s
  {
    if s == [] then 0
    else (if s[0] == l then 1 else 0) + Count(s[1..], l)
  }

  /** The newest `Capacity` elements of `s`, in their original order. */
  function Latest(s: seq<string>): (r: seq<string>)
    ensures |r| == if |s| < Capacity then |s| else Capacity
  {
    if |s| <= Capacity then s else s[|s| - Capacity..]
  }

  /** `append` on a bounded deque: a full history loses its oldest label. */
  function BoundedAppend(history: seq<string>, l: string): (r: seq<string>)
    requires |history| <= Capacity
    ensures r == Latest(history + [l])
    ensures |r| <= Capacity && r[|r| - 1] == l
  {
    if |history| < Capacity then history + [l] else history[1..] + [l]
  }

  /** The history after appending each of `ls` in turn. */
  function AppendAll(history: seq<string>, ls: seq<string>): (r: seq<string>)
    requires |history| <= Capacity
    ensures |r| <= Capacity
    decreases |ls|
  {
    if ls == [] then history
    else AppendAll(BoundedAppend(history, ls[0]), ls[1..])
  }

  lemma LatestOfLatest(s: seq<string>, l: string)
    ensures Latest(Latest(s) + [l]) == Latest(s + [l])
  {
  }

  /** However many labels are appended, the history holds exactly the newest
      fifteen of everything it has seen, in arrival order. */
  lemma {:induction false} AppendAllKeepsLatest(history: seq<string>, ls: seq<string>)
    requires |history| <= Capacity
    ensures AppendAll(history, ls) == Latest(history + ls)
    decreases |ls|
  {
    if ls == [] {
      assert history + ls == history;
    } else {
      var next := BoundedAppend(history, ls[0]);
      AppendAllKeepsLatest(next, ls[1..]);
      LatestOfLatest(history + [ls[0]], ls[0]);
      calc {
        AppendAll(history, ls);
        Latest(next + ls[1..]);
        { LatestSuffix(history + [ls[0]], ls[1..]); }
        Latest(history + [ls[0]] + ls[1..]);
        { assert history + [ls[0]] + ls[1..] == history + ls; }
        Latest(history + ls);
      }
    }
  }

  /** Trimming to the newest fifteen before appending more changes nothing. */
  lemma LatestSuffix(s: seq<string>, t: seq<string>)
    ensures Latest(Latest(s) + t) == Latest(s + t)
  {
  }

  /** Sixteen accepted labels from an empty history: the first is evicted and
      the other fifteen remain in order. */
  lemma SixteenthEvictsFirst(ls: seq<string>)
    requires |ls| == Capacity + 1
    ensures AppendAll([], ls) == ls[1..]
  {
    AppendAllKeepsLatest([], ls);
    assert [] + ls == ls;
  }

  /** The candidate in `cands` with the most occurrences in `s`; on a tie the
      earliest candidate. */
  function MostFrequentOf(s: seq<string>, cands: seq<string>): (r: string)
    requires |cands| > 0
    ensures r in cands
    ensures forall c :: c in cands ==> Count(s, c) <= Count(s, r)
  {
    if |cands| == 1 then cands[0]
    else
      var best := MostFrequentOf(s, cands[1..]);
      if Count(s, best) <= Count(s, cands[0]) then cands[0] else best
  }

  /** `get_stable_emotion`: the sentinel on an empty history, otherwise a
      label of the history that occurs at least as often as any other. Which
      of several equally frequent labels is returned is not promised (the
      source takes the maximum over a `set`, whose order is unspecified). */
  function StableEmotion(history: seq<string>): (r: string)
    ensures history == [] ==> r == Sentinel
    ensures history != [] ==> r in history && forall l :: Count(history, l) <= Count(history, r)
    ensures Sentinel !in history ==> (r == Sentinel <==> history == [])
  {
    if history == [] then Sentinel else MostFrequentOf(history, history)
  }

  /** A label that beats every other label is the one the vote returns. */
  lemma StrictMajorityWins(history: seq<string>, l: string)
    requires history != []
    requires forall m :: m != l ==> Count(history, m) < Count(history, l)
    ensures StableEmotion(history) == l
  {
  }

  /** History [a, a, b, a, b, b, b]: four b against three a, so the vote
      says b. */
  lemma MajorityExample(a: string, b: string)
    requires a != b
    ensures StableEmotion([a, a, b, a, b, b, b]) == b
  {
    var h := [a, a, b, a, b, b, b];
    ExampleCounts(a, b);
    forall m | m != b
      ensures Count(h, m) < Count(h, b)
    {
      if m != a {
        assert m !in h;
      }
    }
    StrictMajorityWins(h, b);
  }

  lemma ExampleCounts(a: string, b: string)
    requires a != b
    ensures Count([a, a, b, a, b, b, b], b) == 4 && Count([a, a, b, a, b, b, b], a) == 3
  {
    var h := [a, a, b, a, b, b, b];
    assert h[6..] == [b] && h[6..][1..] == [];
    assert h[5..] == [b, b] && h[5..][1..] == h[6..];
    assert h[4..] == [b, b, b] && h[4..][1..] == h[5..];
    assert h[3..] == [a, b, b, b] && h[3..][1..] == h[4..];
    assert h[2..] == [b, a, b, b, b] && h[2..][1..] == h[3..];
    assert h[1..] == [a, b, a, b, b, b] && h[1..][1..] == h[2..];
    assert Count(h[6..], b) == 1 && Count(h[6..], a) == 0;
    assert Count(h[5..], b) == 2 && Count(h[5..], a) == 0;
    assert Count(h[4..], b) == 3 && Count(h[4..], a) == 0;
    assert Count(h[3..], b) == 3 && Count(h[3..], a) == 1;
    assert Count(h[2..], b) == 4 && Count(h[2..], a) == 1;
    assert Count(h[1..], b) == 4 && Count(h[1..], a) == 2;
  }
}

/**
  The left-to-right scan with a strict comparison that the die uses to pick
  its result face: a running best starts at a floor value and face 1, and
  face k + 1 takes over only when its score is strictly greater than the best
  so far, so among equal scores the earliest face wins.
 */
module Selection {

  /** The 1-based index picked so far and the best score seen. */
  datatype Pick = Pick(index: nat, best: real)

  function ScanBest(scores: seq<real>, floor: real): (p: Pick)
    ensures 1 <= p.index <= (if |scores| == 0 then 1 else |scores|)
    ensures p.best >= floor
    ensures forall k :: 0 <= k < |scores| ==> scores[k] <= p.best
    ensures (exists k :: 0 <= k < |scores| && scores[k] > floor) ==>
              p.best == scores[p.index - 1] && forall k :: 0 <= k < p.index - 1 ==> scores[k] < p.best
    ensures (forall k :: 0 <= k < |scores| ==> scores[k] <= floor) ==> p == Pick(1, floor)
    decreases |scores|
  {
    if |scores| == 0 then Pick(1, floor)
    else
      var prev := ScanBest(scores[..|scores| - 1], floor);
      if scores[|scores| - 1] > prev.best then Pick(|scores|, scores[|scores| - 1]) else prev
  }

  /** One more score: the scan of a longer prefix continues the scan of the shorter one. */
  lemma ScanBestSnoc(scores: seq<real>, floor: real, i: nat)
    requires i < |scores|
    ensures ScanBest(scores[..i + 1], floor) ==
      var prev := ScanBest(scores[..i], floor);
      if scores[i] > prev.best then Pick(i + 1, scores[i]) else prev
  {
    assert scores[..i + 1][..i] == scores[..i];
  }

  /**
    The scan picks exactly the first position of a maximal score above the
    floor: any 1-based index i whose score beats the floor, is at least every
    score and is strictly greater than every earlier one is the scan's index.
   */
  lemma ScanBestIsFirstMaximum(scores: seq<real>, floor: real, i: nat)
    requires 1 <= i <= |scores|
    requires scores[i - 1] > floor
    requires forall k :: 0 <= k < |scores| ==> scores[k] <= scores[i - 1]
    requires forall k :: 0 <= k < i - 1 ==> scores[k] < scores[i - 1]
    ensures ScanBest(scores, floor) == Pick(i, scores[i - 1])
  {
  }

  /** Two positions with the same score: the scan never picks the later one. */
  lemma TieGoesToEarlier(scores: seq<real>, floor: real, a: nat, b: nat)
    requires a < b < |scores| && scores[a] == scores[b]
    ensures ScanBest(scores, floor).index != b + 1
  {
  }
}

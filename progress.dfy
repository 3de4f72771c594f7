/**
 * The progress chart's data preparation: each band score of the request is
 * given its 1-based session number, and the (session, score) pairs are what
 * the plotting library draws. Rendering and image encoding are not modelled.
 */
module Progress {
  import opened Wrappers

  /** Python's range(lo, hi): the integers lo, lo + 1, ..., hi - 1, empty when hi <= lo. */
  function Range(lo: int, hi: int): (r: seq<int>)
    ensures |r| == if lo <= hi then hi - lo else 0
    ensures forall i :: 0 <= i < |r| ==> r[i] == lo + i
    decreases hi - lo
  {
    if lo >= hi then [] else [lo] + Range(lo + 1, hi)
  }

  /** list(range(1, len(band_scores) + 1)): one session number per score, counting from 1. */
  function SessionIndices(bandScores: seq<int>): (sessions: seq<int>)
    ensures |sessions| == |bandScores|
    ensures forall i :: 0 <= i < |sessions| ==> sessions[i] == i + 1
  {
    Range(1, |bandScores| + 1)
  }

  /** The band scores of a plot request, [] when the field is absent. */
  function RequestedScores(bandScores: Option<seq<int>>): (scores: seq<int>)
    ensures bandScores.None? ==> scores == []
    ensures bandScores.Some? ==> scores == bandScores.value
  {
    bandScores.GetOr([])
  }

  /**
   * The points plotted for a request: the i-th score is drawn at session i + 1,
   * in the order given, one point per score.
   */
  function ProgressPoints(bandScores: Option<seq<int>>): (points: seq<(int, int)>)
    ensures |points| == |RequestedScores(bandScores)|
    ensures forall i :: 0 <= i < |points| ==> points[i] == (i + 1, RequestedScores(bandScores)[i])
  {
    var scores := RequestedScores(bandScores);
    var sessions := SessionIndices(scores);
    seq(|scores|, i requires 0 <= i < |scores| => (sessions[i], scores[i]))
  }

  /** Sessions are numbered consecutively, so they strictly increase. */
  lemma SessionIndicesIncreasing(bandScores: seq<int>, i: int, j: int)
    requires 0 <= i < j < |bandScores|
    ensures SessionIndices(bandScores)[i] < SessionIndices(bandScores)[j]
  {
  }

  /** Scores 5, 6, 6, 7 give exactly four points, at sessions 1 to 4. */
  lemma FourScoresGiveFourPoints()
    ensures ProgressPoints(Some([5, 6, 6, 7])) == [(1, 5), (2, 6), (3, 6), (4, 7)]
  {
  }

  /** A request without band scores gives no sessions and no points. */
  lemma AbsentScoresGiveNoPoints()
    ensures ProgressPoints(None) == []
  {
  }
}

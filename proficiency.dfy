/**
 * The proficiency classifier of the evaluation service. Sentence segmentation
 * and tokenisation belong to an external NLP library; the classifier receives
 * their result as the token count of each sentence, takes the mean sentence
 * length (0 when there are no sentences) and thresholds it strictly at 15 and 10.
 */
module Proficiency {

  datatype Tier = Beginner | Intermediate | Advanced

  /** The order Beginner < Intermediate < Advanced. */
  function Rank(t: Tier): nat {
    match t
    case Beginner => 0
    case Intermediate => 1
    case Advanced => 2
  }

  /**
   * Total number of tokens over all sentences: no sentence holds more tokens
   * than the total, and the total is 0 exactly when every sentence is empty.
   */
  function TokenTotal(sentenceLengths: seq<nat>): (total: nat)
    ensures forall i :: 0 <= i < |sentenceLengths| ==> sentenceLengths[i] <= total
    ensures total == 0 <==> forall i :: 0 <= i < |sentenceLengths| ==> sentenceLengths[i] == 0
  {
    if sentenceLengths == [] then 0
    else TokenTotal(sentenceLengths[..|sentenceLengths| - 1]) + sentenceLengths[|sentenceLengths| - 1]
  }

  /**
   * The mean sentence length as an exact rational: the average times the
   * number of sentences is the token total, and with no sentences it is 0.
   */
  function AverageSentenceLength(sentenceLengths: seq<nat>): (avg: real)
    ensures |sentenceLengths| > 0 ==> avg * (|sentenceLengths| as real) == TokenTotal(sentenceLengths) as real
    ensures |sentenceLengths| == 0 ==> avg == 0.0
    ensures avg >= 0.0
  {
    if |sentenceLengths| > 0 then TokenTotal(sentenceLengths) as real / |sentenceLengths| as real else 0.0
  }

  /** The if/elif chain over the average: strictly above 15, strictly above 10, otherwise. */
  function TierOf(avg: real): (t: Tier)
    ensures t == Advanced <==> avg > 15.0
    ensures t == Intermediate <==> 10.0 < avg <= 15.0
    ensures t == Beginner <==> avg <= 10.0
  {
    if avg > 15.0 then Advanced
    else if avg > 10.0 then Intermediate
    else Beginner
  }

  /**
   * Comparing a mean against a threshold k is the same as comparing the total
   * against k times the count, when the count is positive.
   */
  lemma AboveThresholdIffCrossMultiplied(avg: real, count: real, total: real, k: real)
    requires count > 0.0 && avg * count == total
    ensures avg > k <==> total > k * count
  {
  }

  /**
   * classify_user_level on the segmenter's output, without real division:
   * the average exceeds a threshold k exactly when the token total exceeds
   * k times the number of sentences. It agrees with thresholding the exact
   * average.
   */
  function ClassifyUserLevel(sentenceLengths: seq<nat>): (t: Tier)
    ensures t == TierOf(AverageSentenceLength(sentenceLengths))
  {
    var n, total := |sentenceLengths|, TokenTotal(sentenceLengths);
    if n == 0 then Beginner
    else
      AboveThresholdIffCrossMultiplied(AverageSentenceLength(sentenceLengths), n as real, total as real, 15.0);
      AboveThresholdIffCrossMultiplied(AverageSentenceLength(sentenceLengths), n as real, total as real, 10.0);
      if total > 15 * n then Advanced
      else if total > 10 * n then Intermediate
      else Beginner
  }

  /** The total over a text is the sum of the totals over any split of its sentences. */
  lemma {:induction false} TokenTotalAppend(first: seq<nat>, rest: seq<nat>)
    ensures TokenTotal(first + rest) == TokenTotal(first) + TokenTotal(rest)
    decreases |rest|
  {
    if rest == [] {
      assert first + rest == first;
    } else {
      var last := |rest| - 1;
      assert (first + rest)[..|first + rest| - 1] == first + rest[..last];
      TokenTotalAppend(first, rest[..last]);
    }
  }

  /** n sentences of the same length. */
  function Uniform(n: nat, length: nat): seq<nat> {
    seq(n, _ => length)
  }

  /** n sentences of length tokens each hold n * length tokens. */
  lemma {:induction false} UniformTokenTotal(n: nat, length: nat)
    ensures TokenTotal(Uniform(n, length)) == n * length
  {
    if n > 0 {
      var sentences := Uniform(n, length);
      assert sentences[..n - 1] == Uniform(n - 1, length);
      UniformTokenTotal(n - 1, length);
      assert TokenTotal(sentences) == TokenTotal(sentences[..n - 1]) + sentences[n - 1];
      assert n * length == (n - 1) * length + length;
    }
  }

  /** A text whose sentences all have the same length is classified by that length. */
  lemma UniformSentencesClassifiedByLength(n: nat, length: nat)
    requires n > 0
    ensures ClassifyUserLevel(Uniform(n, length)) == TierOf(length as real)
  {
    UniformTokenTotal(n, length);
    ScaledComparison(n, length, 15);
    ScaledComparison(n, length, 10);
  }

  /** For a positive count n, n * length exceeds n * k exactly when length exceeds k. */
  lemma ScaledComparison(n: nat, length: nat, k: nat)
    requires n > 0
    ensures n * length > k * n <==> length > k
  {
  }

  /** With no sentences the classifier answers Beginner. */
  lemma NoSentencesIsBeginner()
    ensures ClassifyUserLevel([]) == Beginner
  {
  }

  /** The thresholds are strict: exactly 15 is Intermediate, exactly 10 is Beginner. */
  lemma BoundaryAveragesFallBelow()
    ensures TierOf(15.0) == Intermediate
    ensures TierOf(10.0) == Beginner
    ensures ClassifyUserLevel([15, 15]) == Intermediate
    ensures ClassifyUserLevel([10, 10]) == Beginner
    ensures ClassifyUserLevel([16]) == Advanced
  {
    assert TokenTotal([15, 15]) == 30 by {
      assert [15, 15][..1] == [15];
    }
    assert TokenTotal([10, 10]) == 20 by {
      assert [10, 10][..1] == [10];
    }
    assert TokenTotal([16]) == 16;
  }

  /** A larger average never gives a lower tier. */
  lemma TierMonotone(a: real, b: real)
    requires a <= b
    ensures Rank(TierOf(a)) <= Rank(TierOf(b))
  {
  }

  /** The classifier is monotone in the mean sentence length of its input. */
  lemma ClassifyUserLevelMonotone(shorter: seq<nat>, longer: seq<nat>)
    requires AverageSentenceLength(shorter) <= AverageSentenceLength(longer)
    ensures Rank(ClassifyUserLevel(shorter)) <= Rank(ClassifyUserLevel(longer))
  {
  }
}

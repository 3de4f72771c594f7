/**
 * The evaluate operation of the service: the band score is aggregated from the
 * criteria and looked up in the feedback table, the responses are joined with
 * single spaces and classified by mean sentence length, and the three results
 * are assembled into one record. Absent request fields default to an empty
 * list and an empty criteria map. Sentence segmentation is an external NLP
 * library and appears here as the function parameter `segment`, which maps a
 * text to the token count of each of its sentences.
 */
module Evaluation {
  import opened Wrappers
  import opened Aggregator
  import opened Feedback
  import opened Proficiency

  /** The body of an evaluate request; either field may be missing. */
  datatype EvaluateRequest = EvaluateRequest(userResponses: Option<seq<string>>, criteria: Option<map<string, int>>)

  /** The response record: band_score, feedback and user_level. */
  datatype EvaluationResult = EvaluationResult(bandScore: int, feedback: FeedbackRecord, userLevel: Tier)

  /** The summed length of all the parts. */
  function TotalLength(parts: seq<string>): nat {
    if parts == [] then 0 else |parts[0]| + TotalLength(parts[1..])
  }

  /**
   * " ".join(parts): the parts in order with one space between neighbours.
   * The empty list joins to the empty text, a single part to itself, and the
   * text is as long as the parts together plus one space per gap.
   */
  function JoinWithSpaces(parts: seq<string>): (text: string)
    ensures parts == [] ==> text == ""
    ensures |parts| == 1 ==> text == parts[0]
    ensures parts != [] ==> |text| == TotalLength(parts) + |parts| - 1
    ensures parts != [] ==> text[..|parts[0]|] == parts[0]
  {
    if parts == [] then ""
    else if |parts| == 1 then parts[0]
    else parts[0] + " " + JoinWithSpaces(parts[1..])
  }

  /**
   * Joining adds the last part after one more space: together with the cases
   * of no part and one part, this determines every joined text.
   */
  lemma {:induction false} JoinWithSpacesAppendLast(parts: seq<string>)
    requires |parts| >= 2
    ensures JoinWithSpaces(parts) == JoinWithSpaces(parts[..|parts| - 1]) + " " + parts[|parts| - 1]
  {
    var n := |parts|;
    if n == 2 {
      assert parts[..1] == [parts[0]];
    } else {
      JoinWithSpacesAppendLast(parts[1..]);
      assert parts[1..][..n - 2] == parts[..n - 1][1..];
      assert parts[1..][n - 2] == parts[n - 1];
    }
  }

  /** Joining two responses puts exactly one space between them. */
  lemma JoinTwo(first: string, second: string)
    ensures JoinWithSpaces([first, second]) == first + " " + second
  {
  }

  /**
   * evaluate: the three independent computations combined. The band score is
   * the truncated quarter of the criteria sum, the feedback is that band's
   * table record, or the sentinel exactly when the band is outside 5..8,
   * and the tier thresholds the mean sentence length of the joined responses.
   */
  function Evaluate(request: EvaluateRequest, segment: string -> seq<nat>): (result: EvaluationResult)
    ensures var s := CriteriaSum(request.criteria.GetOr(map[]));
      (0 <= s ==> 4 * result.bandScore <= s < 4 * result.bandScore + 4)
      && (s < 0 ==> 4 * result.bandScore - 4 < s <= 4 * result.bandScore)
    ensures result.bandScore in FeedbackTable ==> result.feedback == FeedbackTable[result.bandScore]
    ensures result.feedback == NotRecognized <==> !(5 <= result.bandScore <= 8)
    ensures result.userLevel == TierOf(AverageSentenceLength(segment(JoinWithSpaces(request.userResponses.GetOr([])))))
  {
    var userResponses := request.userResponses.GetOr([]);
    var criteria := request.criteria.GetOr(map[]);
    var band := BandScore(criteria);
    EvaluationResult(band, GenerateBandFeedback(band), ClassifyUserLevel(segment(JoinWithSpaces(userResponses))))
  }

  /**
   * An empty body evaluates to band 0, the sentinel feedback and Beginner,
   * provided the segmenter finds no sentence in the empty text.
   */
  lemma EmptyRequestEvaluation(segment: string -> seq<nat>)
    requires segment("") == []
    ensures Evaluate(EvaluateRequest(None, None), segment)
      == EvaluationResult(0, NotRecognized, Beginner)
  {
  }

  /**
   * An empty list of responses is classified Beginner, whatever the criteria,
   * when the segmenter finds no token in the empty text.
   */
  lemma EmptyResponsesAreBeginner(criteria: Option<map<string, int>>, segment: string -> seq<nat>)
    requires forall i :: 0 <= i < |segment("")| ==> segment("")[i] == 0
    ensures Evaluate(EvaluateRequest(Some([]), criteria), segment).userLevel == Beginner
  {
  }

  /**
   * The feedback is a table record, not the sentinel, exactly when the four
   * criteria sum to between 20 and 35: the sums whose truncated quarter is 5..8.
   */
  lemma FeedbackRecognizedIffSumInRange(request: EvaluateRequest, segment: string -> seq<nat>)
    ensures var s := CriteriaSum(request.criteria.GetOr(map[]));
      Evaluate(request, segment).feedback != NotRecognized <==> 20 <= s <= 35
  {
  }

  /** Criteria 8, 7, 6 and 7 give band 7 and the band-7 feedback record. */
  lemma ExampleEvaluation(userResponses: Option<seq<string>>, segment: string -> seq<nat>)
    ensures var criteria := map[TaskAchievement := 8, Coherence := 7, LexicalResource := 6, Grammar := 7];
      var result := Evaluate(EvaluateRequest(userResponses, Some(criteria)), segment);
      result.bandScore == 7 && result.feedback == Band7Record
  {
  }
}

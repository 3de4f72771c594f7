/**
 * The criteria aggregator of the evaluation service: four rubric criteria,
 * each defaulting to 0 when absent, are summed, divided by 4 and truncated
 * toward zero to give the integer band score.
 */
module Aggregator {

  /** The four recognized criterion keys of the request's "criteria" object. */
  const TaskAchievement := "TaskAchievement"
  const Coherence := "Coherence"
  const LexicalResource := "LexicalResource"
  const Grammar := "Grammar"
  const RecognizedKeys: set<string> := {TaskAchievement, Coherence, LexicalResource, Grammar}

  /** criteria.get(key, 0): the value under key, or 0 when the key is absent. */
  function CriterionValue(criteria: map<string, int>, key: string): (v: int)
    ensures key in criteria ==> v == criteria[key]
    ensures key !in criteria ==> v == 0
  {
    if key in criteria then criteria[key] else 0
  }

  /**
   * The sum of the four recognized criteria, each absent one counting 0. A map
   * with none of them sums to 0, and one with all four sums their values.
   */
  function CriteriaSum(criteria: map<string, int>): (s: int)
    ensures criteria.Keys !! RecognizedKeys ==> s == 0
    ensures RecognizedKeys <= criteria.Keys ==>
      s == criteria[TaskAchievement] + criteria[Coherence] + criteria[LexicalResource] + criteria[Grammar]
  {
    CriterionValue(criteria, TaskAchievement) + CriterionValue(criteria, Coherence)
    + CriterionValue(criteria, LexicalResource) + CriterionValue(criteria, Grammar)
  }

  /**
   * Division by 4 that rounds toward zero, as Python's int() does to the
   * quotient (Dafny's own / on int is Euclidean). The result is the unique q
   * whose multiple 4 * q lies on the side of a nearer zero, less than 4 away.
   */
  function TruncDiv4(a: int): (q: int)
    ensures 0 <= a ==> 4 * q <= a < 4 * q + 4
    ensures a < 0 ==> 4 * q - 4 < a <= 4 * q
  {
    if a >= 0 then a / 4 else -((-a) / 4)
  }

  /**
   * The band score: int((TaskAchievement + Coherence + LexicalResource + Grammar) / 4).
   * Four times the band is within 4 of the sum, on the side of the sum nearer zero.
   */
  function BandScore(criteria: map<string, int>): (band: int)
    ensures var s := CriteriaSum(criteria);
      (0 <= s ==> 4 * band <= s < 4 * band + 4) && (s < 0 ==> 4 * band - 4 < s <= 4 * band)
  {
    TruncDiv4(CriteriaSum(criteria))
  }

  /** With no criteria at all every value defaults to 0, and so does the band. */
  lemma EmptyCriteriaGiveBandZero()
    ensures BandScore(map[]) == 0
  {
  }

  /** A criterion absent from the map counts exactly as if it were present with 0. */
  lemma AbsentCriterionCountsAsZero(criteria: map<string, int>, key: string)
    requires key !in criteria
    ensures BandScore(criteria[key := 0]) == BandScore(criteria)
  {
  }

  /** A key other than the four criteria has no effect on the sum, whatever its value. */
  lemma CriteriaSumIgnoresOtherKeys(criteria: map<string, int>, key: string, value: int)
    requires key !in RecognizedKeys
    ensures CriteriaSum(criteria[key := value]) == CriteriaSum(criteria)
  {
  }

  /** Raising any criterion never lowers the band score. */
  lemma BandScoreMonotone(lower: map<string, int>, higher: map<string, int>)
    requires CriterionValue(lower, TaskAchievement) <= CriterionValue(higher, TaskAchievement)
    requires CriterionValue(lower, Coherence) <= CriterionValue(higher, Coherence)
    requires CriterionValue(lower, LexicalResource) <= CriterionValue(higher, LexicalResource)
    requires CriterionValue(lower, Grammar) <= CriterionValue(higher, Grammar)
    ensures BandScore(lower) <= BandScore(higher)
  {
  }

  /**
   * When every criterion (absent ones count as 0) lies in lo..hi, so does the
   * band score: no clamping is needed to keep a rubric range.
   */
  lemma BandScoreWithinCriteriaRange(criteria: map<string, int>, lo: int, hi: int)
    requires lo <= CriterionValue(criteria, TaskAchievement) <= hi
    requires lo <= CriterionValue(criteria, Coherence) <= hi
    requires lo <= CriterionValue(criteria, LexicalResource) <= hi
    requires lo <= CriterionValue(criteria, Grammar) <= hi
    ensures lo <= BandScore(criteria) <= hi
  {
  }

  /** A negative sum above -4 truncates to 0, not to -1 as floor division would. */
  lemma NegativeSumTruncatesTowardZero()
    ensures BandScore(map[TaskAchievement := -1]) == 0
    ensures BandScore(map[Grammar := -5]) == -1
  {
  }

  /** Criteria 8, 7, 6 and 7 sum to 28 and give band 7. */
  lemma ExampleCriteriaGiveBandSeven()
    ensures BandScore(map[TaskAchievement := 8, Coherence := 7, LexicalResource := 6, Grammar := 7]) == 7
  {
  }
}

/**
 * The feedback lookup of the evaluation service: a band score selects one of
 * the fixed feedback records for bands 5 to 8, and every other integer selects
 * a sentinel "not recognized" record. The lookup is total.
 */
module Feedback {

  /** The record returned under "feedback": summary, strengths, areas for improvement. */
  datatype FeedbackRecord = FeedbackRecord(summary: string, strengths: string, areasForImprovement: string)

  /**
   * The entry the table holds for each of the bands 5, 6, 7 and 8. The
   * repository ships every entry with the same placeholder text.
   */
  const Band5Record := FeedbackRecord("...", "...", "...")
  const Band6Record := FeedbackRecord("...", "...", "...")
  const Band7Record := FeedbackRecord("...", "...", "...")
  const Band8Record := FeedbackRecord("...", "...", "...")

  /** The default returned for a band the table does not know. */
  const NotRecognized := FeedbackRecord("Band score not recognized.", "N/A", "N/A")

  /** The static table as a dictionary keyed by band score. */
  const FeedbackTable: map<int, FeedbackRecord> :=
    map[5 := Band5Record, 6 := Band6Record, 7 := Band7Record, 8 := Band8Record]

  /** True of the bands that have an entry of their own. */
  predicate IsRecognizedBand(band: int) {
    5 <= band <= 8
  }

  /**
   * generate_band_feedback: a closed match over the four known bands with a
   * default branch. It agrees with a dictionary lookup in FeedbackTable that
   * falls back to NotRecognized, and it yields the sentinel exactly for the
   * bands outside 5..8.
   */
  function GenerateBandFeedback(band: int): (r: FeedbackRecord)
    ensures band in FeedbackTable ==> r == FeedbackTable[band]
    ensures band !in FeedbackTable ==> r == NotRecognized
    ensures r == NotRecognized <==> !IsRecognizedBand(band)
  {
    match band
    case 5 => Band5Record
    case 6 => Band6Record
    case 7 => Band7Record
    case 8 => Band8Record
    case _ => NotRecognized
  }

  /** The table's keys are exactly the recognized bands. */
  lemma TableKeysAreRecognizedBands(band: int)
    ensures band in FeedbackTable <==> IsRecognizedBand(band)
  {
  }

  /** Each band of the table yields its own record. */
  lemma KnownBandsYieldTheirRecords()
    ensures GenerateBandFeedback(5) == Band5Record
    ensures GenerateBandFeedback(6) == Band6Record
    ensures GenerateBandFeedback(7) == Band7Record
    ensures GenerateBandFeedback(8) == Band8Record
  {
  }

  /** Bands 0, 9 and -1 are outside the table and yield the sentinel record. */
  lemma OutOfTableBandsYieldSentinel()
    ensures GenerateBandFeedback(0) == FeedbackRecord("Band score not recognized.", "N/A", "N/A")
    ensures GenerateBandFeedback(9) == NotRecognized
    ensures GenerateBandFeedback(-1) == NotRecognized
  {
  }
}

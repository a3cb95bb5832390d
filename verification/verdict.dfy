/**
 * The score verdict of the prediction page: a rule on a quality score,
 * independent of the trained classifier, returning a label and the colour
 * it is shown in.
 */
module Verdict {
  import opened Outcome

  /** Below 5.0 a Flop, below 7.0 Average, otherwise a Hit; each with its display colour. */
  function ClassifyImdb(score: real): (v: (Label, string))
    ensures v.0 == Flop <==> score < 5.0
    ensures v.0 == Hit <==> score >= 7.0
    ensures v.1 == OutcomeColor(Name(v.0))
  {
    if score < 5.0 then (Flop, "red")
    else if score < 7.0 then (Average, "orange")
    else (Hit, "green")
  }

  /** A higher score never gives a lower verdict. */
  lemma ClassifyImdbMonotone(score1: real, score2: real)
    requires score1 <= score2
    ensures Rank(ClassifyImdb(score1).0) <= Rank(ClassifyImdb(score2).0)
  {
  }

  /** The verdict is never shown in the prediction panel's fallback colour. */
  lemma ClassifyImdbNeverBlue(score: real)
    ensures ClassifyImdb(score).1 != "blue"
  {
    ParseName(ClassifyImdb(score).0);
  }

  /** Both cut-points belong to the band above them. */
  lemma ClassifyImdbExamples()
    ensures ClassifyImdb(4.9) == (Flop, "red")
    ensures ClassifyImdb(5.0) == (Average, "orange")
    ensures ClassifyImdb(6.99) == (Average, "orange")
    ensures ClassifyImdb(7.0) == (Hit, "green")
  {
  }
}

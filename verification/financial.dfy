/**
 * The training-time labeller: a film's financial outcome from its budget and
 * gross revenue.  Budget and gross are exact reals here; the ratio
 * `gross / budget` is formed only when the budget is non-zero.
 */
module Financial {
  import opened Outcome

  /**
   * A zero budget is labelled Average before any division; otherwise the
   * ratio gross / budget is compared with 1.0 and then 2.0.  The contract
   * states the same rule without division, as comparisons of gross with
   * multiples of the budget, for either sign of the budget.
   */
  function Classify(budget: real, gross: real): (l: Label)
    ensures budget == 0.0 ==> l == Average
    ensures budget > 0.0 ==> (l == Flop <==> gross < budget)
    ensures budget > 0.0 ==> (l == Hit <==> gross >= 2.0 * budget)
    ensures budget < 0.0 ==> (l == Flop <==> gross > budget)
    ensures budget < 0.0 ==> (l == Hit <==> gross <= 2.0 * budget)
  {
    if budget == 0.0 then Average
    else
      var ratio := gross / budget;
      RatioVersusMultiple(budget, gross, 1.0);
      RatioVersusMultiple(budget, gross, 2.0);
      if ratio < 1.0 then Flop
      else if ratio < 2.0 then Average
      else Hit
  }

  /** Comparing gross / budget with k is comparing gross with k * budget, flipped for a negative budget. */
  lemma RatioVersusMultiple(budget: real, gross: real, k: real)
    requires budget != 0.0
    ensures budget > 0.0 ==> (gross / budget < k <==> gross < k * budget)
    ensures budget < 0.0 ==> (gross / budget < k <==> gross > k * budget)
  {
    var ratio := gross / budget;
    assert ratio * budget == gross;
    if budget > 0.0 {
      if ratio < k {
        assert (k - ratio) * budget > 0.0;
      } else {
        assert (ratio - k) * budget >= 0.0;
      }
    } else {
      if ratio < k {
        assert (k - ratio) * budget < 0.0;
      } else {
        assert (ratio - k) * budget <= 0.0;
      }
    }
  }

  /** The three ratio bands of a non-zero budget, with their closed lower ends. */
  lemma ClassifyRatioBands(budget: real, gross: real)
    requires budget != 0.0
    ensures Classify(budget, gross) == Flop <==> gross / budget < 1.0
    ensures Classify(budget, gross) == Average <==> 1.0 <= gross / budget < 2.0
    ensures Classify(budget, gross) == Hit <==> gross / budget >= 2.0
  {
    RatioVersusMultiple(budget, gross, 1.0);
    RatioVersusMultiple(budget, gross, 2.0);
  }

  /** A film that exactly recovers its budget is Average; one that exactly doubles it is a Hit. */
  lemma ClassifyBoundaries(budget: real)
    requires budget != 0.0
    ensures Classify(budget, budget) == Average
    ensures Classify(budget, 2.0 * budget) == Hit
  {
  }

  /** With a positive budget, more gross never gives a lower label. */
  lemma ClassifyMonotoneInGross(budget: real, gross1: real, gross2: real)
    requires budget > 0.0
    requires gross1 <= gross2
    ensures Rank(Classify(budget, gross1)) <= Rank(Classify(budget, gross2))
  {
  }

  /** With a non-negative gross, a larger positive budget never gives a higher label. */
  lemma ClassifyAntitoneInBudget(budget1: real, budget2: real, gross: real)
    requires 0.0 < budget1 <= budget2
    requires gross >= 0.0
    ensures Rank(Classify(budget2, gross)) <= Rank(Classify(budget1, gross))
  {
  }

  /** The label of a non-zero budget depends on the ratio alone. */
  lemma ClassifyDependsOnRatio(budget1: real, gross1: real, budget2: real, gross2: real)
    requires budget1 != 0.0 && budget2 != 0.0
    requires gross1 / budget1 == gross2 / budget2
    ensures Classify(budget1, gross1) == Classify(budget2, gross2)
  {
    ClassifyRatioBands(budget1, gross1);
    ClassifyRatioBands(budget2, gross2);
  }

  /** Three films with a ten-million budget: ratios 2.5, 1.0 and 0.5, and a zero-budget film. */
  lemma ClassifyExamples(gross: real)
    ensures Classify(10000000.0, 25000000.0) == Hit
    ensures Classify(10000000.0, 10000000.0) == Average
    ensures Classify(10000000.0, 5000000.0) == Flop
    ensures Classify(0.0, gross) == Average
  {
  }
}

/**
 Promotion confidence and its decay, in exact hundredths: scores are real
 numbers, and `Math.round` rounds halves up.
 */
module Confidence {
  import opened Json

  function Round(x: real): int { (x + 0.5).Floor }

  function Clamp(low: int, high: int, x: int): int {
    if x < low then low else if x > high then high else x
  }

  lemma RoundMonotone(x: real, y: real)
    requires x <= y
    ensures Round(x) <= Round(y)
  {
  }

  // The nearest whole number, the greater one of two.
  lemma RoundNearest(x: real)
    ensures -0.5 < Round(x) as real - x <= 0.5
  {
  }

  // ---- Promotion ------------------------------------------------------------

  // workflowDefinitionPromotionMetadata: 0.7 of the score and 0.3 of the coverage, both out of 100.
  function Promotion(errors: int, score: real, coverage: real): int {
    if errors > 0 then 0 else Clamp(0, 99, Round(score * 0.7 + coverage * 0.3))
  }

  predicate Ready(errors: int, score: real, coverage: real) {
    errors == 0 && score >= 60.0 && coverage >= 50.0
  }

  lemma PromotionMonotone(errors: int, score: real, coverage: real, score': real, coverage': real)
    requires score <= score' && coverage <= coverage'
    ensures Promotion(errors, score, coverage) <= Promotion(errors, score', coverage')
  {
  }

  // Always a confidence; between 0.57 and 0.99 whenever the readiness is.
  lemma PromotionBounds(errors: int, score: real, coverage: real)
    ensures 0 <= Promotion(errors, score, coverage) <= 99
    ensures Ready(errors, score, coverage) ==> 57 <= Promotion(errors, score, coverage)
    ensures errors > 0 ==> Promotion(errors, score, coverage) == 0
  {
  }

  // Both bounds are met.
  lemma PromotionBoundsMet()
    ensures Promotion(0, 60.0, 50.0) == 57 && Promotion(0, 100.0, 100.0) == 99
  {
  }

  // ---- Decay ----------------------------------------------------------------

  function FailurePenalty(attempts: nat, failures: nat): real {
    if attempts == 0 then 0.0
    else
      var share := 100.0 * failures as real / attempts as real;
      if share < 40.0 then share else 40.0
  }

  // Five hundredths when the promotion date is not known.
  function AgePenalty(days: Option<nat>): real {
    match days
    case None => 5.0
    case Some(n) => if n < 25 then n as real else 25.0
  }

  // workflowDefinitionHardeningPreview
  function Decayed(confidence: int, attempts: nat, failures: nat, days: Option<nat>): int {
    var rounded := Round(confidence as real - FailurePenalty(attempts, failures) - AgePenalty(days));
    if rounded < 0 then 0 else rounded
  }

  lemma FailurePenaltyMonotone(attempts: nat, failures: nat, failures': nat)
    requires failures <= failures'
    ensures 0.0 <= FailurePenalty(attempts, failures) <= FailurePenalty(attempts, failures') <= 40.0
  {
  }

  // Decay never raises a confidence, and loses at most 0.65 of it.
  lemma DecayBounds(confidence: nat, attempts: nat, failures: nat, days: Option<nat>)
    ensures 0 <= Decayed(confidence, attempts, failures, days) <= confidence
    ensures Decayed(confidence, attempts, failures, days) >= confidence - 65
  {
  }

  // That much is lost with forty failures in a hundred attempts and twenty-five days;
  // up to there each failure and each day costs one, and an unknown date five.
  lemma DecayMet(confidence: nat, failures: nat, days: nat)
    requires confidence >= 65
    ensures failures >= 40 && days >= 25 ==> Decayed(confidence, 100, failures, Some(days)) == confidence - 65
    ensures failures <= 40 && days <= 25 ==>
            Decayed(confidence, 100, failures, Some(days)) == confidence - failures - days
    ensures failures <= 40 ==> Decayed(confidence, 100, failures, None) == confidence - failures - 5
    ensures Decayed(confidence, 0, failures, Some(0)) == confidence
  {
    assert 100.0 * failures as real / 100.0 == failures as real;
  }

  // Nor does it rise with more failures or more days.
  lemma DecayMonotone(confidence: int, attempts: nat, failures: nat, failures': nat, days: nat, days': nat)
    requires failures <= failures' && days <= days'
    ensures Decayed(confidence, attempts, failures', Some(days')) <= Decayed(confidence, attempts, failures, Some(days))
  {
    FailurePenaltyMonotone(attempts, failures, failures');
    RoundMonotone(confidence as real - FailurePenalty(attempts, failures') - AgePenalty(Some(days')),
                  confidence as real - FailurePenalty(attempts, failures) - AgePenalty(Some(days)));
  }

  // With no failures, the controlled threshold of 0.6 passes for exactly
  // `confidence - 60` days, always from 0.85 on, and never below 0.6.
  lemma ThresholdAge(confidence: int, attempts: nat, days: nat)
    ensures Decayed(confidence, attempts, 0, Some(days)) >= 60 <==>
            if confidence >= 85 then true else if confidence >= 60 then days <= confidence - 60 else false
  {
  }
}

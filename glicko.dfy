/**
 * The discrete parts of the Glicko-2 calculator: the tau range check, the
 * linear conversion between the Glicko scale and the Glicko-2 scale (step 2
 * of Glickman's "Example of the Glicko-2 system"), the short-circuit of a
 * rating period without games, the confidence interval and the RD label.
 * The iterative volatility update itself is not part of this module.
 */
module Glicko {
  import opened Wrappers

  /** Conversion factor between the Glicko and the Glicko-2 scale. */
  const Scale: real := 173.7178
  /** Convergence tolerance of the volatility iteration (only carried, not used here). */
  const Epsilon: real := 0.000001
  /** Centre of the Glicko scale: a rating of 1500 is 0 on the Glicko-2 scale. */
  const Centre: real := 1500.0
  /** The largest RD inactivity can raise a rating to. */
  const MaxRd: real := 350.0
  /** RD-squared added per day without games. */
  const RdIncreasePerDay: real := 0.5

  /** A calculator: its only state is the system constant tau. */
  datatype Calculator = Calculator(tau: real)

  /** A (rating, rd, volatility) result on the Glicko scale. */
  datatype RatingUpdate = RatingUpdate(rating: real, rd: real, volatility: real)

  /** The constructor: a tau outside [0.2, 1.5] is refused (`ValueError`). */
  function NewCalculator(tau: real): (r: Option<Calculator>)
    ensures r.Some? <==> 0.2 <= tau <= 1.5
    ensures r.Some? ==> r.value.tau == tau
  {
    if 0.2 <= tau <= 1.5 then Some(Calculator(tau)) else None
  }

  /** Both endpoints of the tau range and the default 0.5 are accepted; values just outside are not. */
  lemma TauRangeEndpoints()
    ensures NewCalculator(0.2).Some? && NewCalculator(1.5).Some? && NewCalculator(0.5).Some?
    ensures NewCalculator(0.19).None? && NewCalculator(1.51).None?
  {
  }

  /** Glicko scale to Glicko-2 scale: (rating, rd) to (mu, phi). */
  function ToGlicko2(rating: real, rd: real): (r: (real, real))
    ensures r.0 * Scale + Centre == rating
    ensures r.1 * Scale == rd
  {
    ((rating - Centre) / Scale, rd / Scale)
  }

  /** Glicko-2 scale back to the Glicko scale: (mu, phi) to (rating, rd). */
  function FromGlicko2(mu: real, phi: real): (r: (real, real))
    ensures (r.0 - Centre) / Scale == mu
    ensures r.1 / Scale == phi
  {
    (mu * Scale + Centre, phi * Scale)
  }

  /** Converting to the Glicko-2 scale and back returns the original pair. */
  lemma ScaleRoundTrip(rating: real, rd: real)
    ensures var g := ToGlicko2(rating, rd); FromGlicko2(g.0, g.1) == (rating, rd)
  {
  }

  /** Converting from the Glicko-2 scale and back returns the original pair. */
  lemma ScaleRoundTripInverse(mu: real, phi: real)
    ensures var g := FromGlicko2(mu, phi); ToGlicko2(g.0, g.1) == (mu, phi)
  {
  }

  /** The conversion is order-preserving in the rating: the centre maps to 0. */
  lemma ScaleMonotone(r1: real, r2: real, rd: real)
    ensures ToGlicko2(Centre, rd).0 == 0.0
    ensures r1 <= r2 <==> ToGlicko2(r1, rd).0 <= ToGlicko2(r2, rd).0
  {
  }

  /**
   * `update_rating` with an empty opponent list. With `days` > 0 the RD grows
   * to min(350, sqrt(rd^2 + days * 0.5)); the square root is supplied by the
   * caller as `root`, which must be the non-negative root of that sum.
   */
  function UpdateWithoutGames(rating: real, rd: real, volatility: real, days: int, root: real): (r: RatingUpdate)
    requires days > 0 ==> root >= 0.0 && root * root == rd * rd + days as real * RdIncreasePerDay
    ensures r.rating == rating && r.volatility == volatility
    ensures days <= 0 ==> r.rd == rd
    ensures days > 0 ==> r.rd <= MaxRd && r.rd <= root && (r.rd == MaxRd || r.rd == root)
  {
    if days > 0 then
      RatingUpdate(rating, if MaxRd <= root then MaxRd else root, volatility)
    else
      RatingUpdate(rating, rd, volatility)
  }

  /** With no games and no elapsed days the triple is returned unchanged. */
  lemma NoGamesNoDaysUnchanged(rating: real, rd: real, volatility: real, root: real)
    ensures UpdateWithoutGames(rating, rd, volatility, 0, root) == RatingUpdate(rating, rd, volatility)
  {
  }

  /** Inactivity never lowers an RD that is within [0, 350], and caps it at 350. */
  lemma {:induction false} InactivityRaisesRd(rating: real, rd: real, volatility: real, days: int, root: real)
    requires 0.0 <= rd <= MaxRd
    requires days > 0 && root >= 0.0 && root * root == rd * rd + days as real * RdIncreasePerDay
    ensures var n := UpdateWithoutGames(rating, rd, volatility, days, root).rd;
      rd <= n <= MaxRd && (n == rd ==> rd == MaxRd)
  {
    if root < MaxRd {
      assert root * root > rd * rd;
      if root <= rd {
        assert root * root <= rd * root <= rd * rd;
      }
    }
  }

  /** The z-score of a confidence level: 1.645, 1.96 or 2.576, and 1.96 for any other level. */
  function ZScore(confidence: real): (z: real)
    ensures confidence == 0.90 ==> z == 1.645
    ensures confidence == 0.95 ==> z == 1.96
    ensures confidence == 0.99 ==> z == 2.576
    ensures confidence !in {0.90, 0.95, 0.99} ==> z == 1.96
    ensures z > 0.0
  {
    if confidence == 0.90 then 1.645
    else if confidence == 0.99 then 2.576
    else 1.96
  }

  /** `confidence_interval`: the interval of half-width z * rd around the rating. */
  function ConfidenceInterval(rating: real, rd: real, confidence: real): (r: (real, real))
    ensures (r.0 + r.1) / 2.0 == rating
    ensures r.1 - r.0 == 2.0 * ZScore(confidence) * rd
    ensures rd >= 0.0 ==> r.0 <= rating <= r.1
  {
    var margin := ZScore(confidence) * rd;
    (rating - margin, rating + margin)
  }

  /** A wider confidence level never yields a narrower interval. */
  lemma ConfidenceIntervalNested(rating: real, rd: real)
    requires rd >= 0.0
    ensures ConfidenceInterval(rating, rd, 0.99).0 <= ConfidenceInterval(rating, rd, 0.95).0
              <= ConfidenceInterval(rating, rd, 0.90).0
    ensures ConfidenceInterval(rating, rd, 0.90).1 <= ConfidenceInterval(rating, rd, 0.95).1
              <= ConfidenceInterval(rating, rd, 0.99).1
  {
  }

  const VeryConfident: string := "Very Confident"
  const Confident: string := "Confident"
  const ModeratelyConfident: string := "Moderately Confident"
  const Uncertain: string := "Uncertain"

  /** `get_confidence`: the label of an RD, by thresholds 100, 200 and 300. */
  function ConfidenceLabel(rd: real): (r: string)
    ensures r == VeryConfident <==> rd < 100.0
    ensures r == Confident <==> 100.0 <= rd < 200.0
    ensures r == ModeratelyConfident <==> 200.0 <= rd < 300.0
    ensures r == Uncertain <==> 300.0 <= rd
  {
    if rd < 100.0 then VeryConfident
    else if rd < 200.0 then Confident
    else if rd < 300.0 then ModeratelyConfident
    else Uncertain
  }

  /** The documented examples: 50, 200 and 350. */
  lemma ConfidenceLabelExamples()
    ensures ConfidenceLabel(50.0) == VeryConfident
    ensures ConfidenceLabel(200.0) == ModeratelyConfident
    ensures ConfidenceLabel(350.0) == Uncertain
  {
  }

  /** How confident a label is: 3 for the most confident, 0 for uncertain. */
  function LabelRank(s: string): nat
  {
    if s == VeryConfident then 3
    else if s == Confident then 2
    else if s == ModeratelyConfident then 1
    else 0
  }

  /** A smaller RD never gets a less confident label. */
  lemma ConfidenceLabelMonotone(rd1: real, rd2: real)
    requires rd1 <= rd2
    ensures LabelRank(ConfidenceLabel(rd1)) >= LabelRank(ConfidenceLabel(rd2))
  {
  }
}

/** The risk bucket shown next to the churn probability. */
module RiskLevel {

  /** Buckets a churn probability into a (level, indicator) pair. The three
      buckets are half-open intervals, closed below and open above, so every
      probability lands in exactly one of them. */
  function CalculateRiskLevel(probability: real): (r: (string, string))
    ensures r == ("bajo", "🟢") <==> probability < 0.3
    ensures r == ("medio", "🟡") <==> 0.3 <= probability < 0.6
    ensures r == ("alto", "🔴") <==> 0.6 <= probability
  {
    if probability < 0.3 then ("bajo", "🟢")
    else if probability < 0.6 then ("medio", "🟡")
    else ("alto", "🔴")
  }

  /** Position of a level label in the order bajo < medio < alto. */
  function LevelRank(level: string): nat
  {
    if level == "bajo" then 0 else if level == "medio" then 1 else 2
  }

  /** A higher probability never yields a lower bucket. */
  lemma RiskLevelMonotone(p: real, q: real)
    requires p <= q
    ensures LevelRank(CalculateRiskLevel(p).0) <= LevelRank(CalculateRiskLevel(q).0)
  {
  }

  /** The edges of the buckets: 0.3 and 0.6 belong to the upper bucket. */
  lemma RiskLevelBoundaries()
    ensures CalculateRiskLevel(0.29).0 == "bajo"
    ensures CalculateRiskLevel(0.3).0 == "medio"
    ensures CalculateRiskLevel(0.59).0 == "medio"
    ensures CalculateRiskLevel(0.6).0 == "alto"
  {
  }
}

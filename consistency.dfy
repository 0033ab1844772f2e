/** How the three rule tables of the application relate to one another,
    and the two reference records whose key factors are fixed by design. */
module Consistency {
  import opened ChurnData
  import opened RiskLevel
  import opened CustomerInsights
  import opened Narrative

  /** The risk bucket and the narrative's tiers use different edges: the
      bucket is closed below at 0.3 and 0.6, the framing sentence and the
      recommendations are open below at 0.3, 0.5, 0.6 and 0.7. They agree
      everywhere except on the two edges themselves, where the bucket has
      already moved up and the recommendations have not. */
  lemma BucketAndRecommendationTiers(p: real)
    ensures CalculateRiskLevel(p).0 == "alto" <==> RecTierOf(p) == Urgent || p == 0.6
    ensures CalculateRiskLevel(p).0 == "medio" <==> (RecTierOf(p) == Retention && p != 0.6) || p == 0.3
    ensures CalculateRiskLevel(p).0 == "bajo" <==> RecTierOf(p) == Growth && p != 0.3
  {
  }

  /** The edges themselves: at 0.6 the bucket is high but the
      recommendations are the retention set, at 0.3 the bucket is medium
      but the recommendations are the growth set. */
  lemma BucketEdges()
    ensures CalculateRiskLevel(0.6).0 == "alto" && RecTierOf(0.6) == Retention
    ensures CalculateRiskLevel(0.3).0 == "medio" && RecTierOf(0.3) == Growth
  {
  }

  /** A high bucket always comes with an at least moderate-high framing
      sentence, and a low bucket with the low framing sentence. */
  lemma BucketAndFraming(p: real)
    ensures CalculateRiskLevel(p).0 == "alto" ==> FramingTier(p) in {VeryHigh, ModerateHigh}
    ensures CalculateRiskLevel(p).0 == "bajo" ==> FramingTier(p) == LowRisk
    ensures FramingTier(p) == VeryHigh ==> CalculateRiskLevel(p).0 == "alto"
  {
  }

  /** A positive credit or tenure factor of the narrative always sits next
      to the top-tier observation for the same field, and a warning next to
      the bottom tier; for products a warning comes with low usage and a
      positive factor with high engagement. */
  lemma FactorsAgreeWithInsights(c: Customer, lang: Lang)
    ensures Fires(ExcellentCredit, c, lang) ==> CreditTier(c.creditScore) == High
    ensures Fires(LowCredit, c, lang) ==> CreditTier(c.creditScore) == Low
    ensures Fires(LoyalCustomer, c, lang) <==> TenureTier(c.tenure) == High
    ensures Fires(NewCustomer, c, lang) <==> TenureTier(c.tenure) == Low
    ensures Fires(HighEngagement, c, lang) <==> ProductsTier(c.products) == High
    ensures Fires(LowEngagement, c, lang) ==> ProductsTier(c.products) == Low
  {
  }

  /** The strongest record of the form's ranges raises only positive
      factors, one for each of credit, tenure, products and balance, in
      that order, and every observation is in its top tier. */
  lemma {:induction false} StrongestRecord(lang: Lang)
    ensures var c := Customer(850.0, 20.0, 92.0, 300000.0, 0.0, 4.0);
      KeyFactors(c, lang) == [ExcellentCredit, LoyalCustomer, HighEngagement, HighBalance]
      && InsightKeys(c) == [CreditInsight(High), TenureInsight(High), ProductsInsight(High)]
  {
    var c := Customer(850.0, 20.0, 92.0, 300000.0, 0.0, 4.0);
    assert FieldFactors(c) == [ExcellentCredit, LoyalCustomer, HighEngagement, HighBalance];
    FactorsByLanguage(c);
  }

  /** The weakest record fills all four slots with warnings for credit,
      tenure, products and balance, so its young-customer note is dropped
      even in Spanish, although the age rule fires for it. */
  lemma {:induction false} WeakestRecord(lang: Lang)
    ensures var c := Customer(300.0, 1.0, 25.0, 0.0, 0.0, 0.0);
      Fires(YoungCustomer, c, Es)
      && KeyFactors(c, lang) == [LowCredit, NewCustomer, LowEngagement, ZeroBalance]
  {
    var c := Customer(300.0, 1.0, 25.0, 0.0, 0.0, 0.0);
    assert FieldFactors(c) == [LowCredit, NewCustomer, LowEngagement, ZeroBalance];
    FactorsByLanguage(c);
    assert Factors(c, lang)[..4] == FieldFactors(c);
  }
}

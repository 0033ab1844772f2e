/** The rule-based narrative as the application writes it out: the risk
    framing, the collected factors of which the first four are listed, and
    the recommendations. The two language branches of the application run
    the same framing and recommendation rules (only their wording differs),
    so those are written once here; the factor rules differ, because only
    the Spanish branch has the age rule, and are kept per branch. */
module SmartAnalysis {
  import opened ChurnData
  import opened Narrative

  /** Appends the framing sentence of the probability's tier. */
  method WriteFraming(analysis: seq<Line>, probability: real) returns (out: seq<Line>)
    ensures out == analysis + [Framing(FramingTier(probability))]
  {
    if probability > 0.7 {
      out := analysis + [Framing(VeryHigh)];
    } else if probability > 0.5 {
      out := analysis + [Framing(ModerateHigh)];
    } else if probability > 0.3 {
      out := analysis + [Framing(Moderate)];
    } else {
      out := analysis + [Framing(LowRisk)];
    }
  }

  /** Collects the factors of the Spanish branch: credit, tenure,
      products, balance, then age. */
  method CollectFactorsEs(c: Customer) returns (factors: seq<Factor>)
    ensures factors == Factors(c, Es)
  {
    factors := [];
    if c.creditScore < 600.0 {
      factors := factors + [LowCredit];
    } else if c.creditScore >= 750.0 {
      factors := factors + [ExcellentCredit];
    }
    assert factors == Opt(CreditFactor(c.creditScore));
    ghost var credit := factors;
    if c.tenure < 2.0 {
      factors := factors + [NewCustomer];
    } else if c.tenure >= 5.0 {
      factors := factors + [LoyalCustomer];
    }
    assert factors == credit + Opt(TenureFactor(c.tenure));
    ghost var tenure := factors;
    if c.products <= 1.0 {
      factors := factors + [LowEngagement];
    } else if c.products >= 3.0 {
      factors := factors + [HighEngagement];
    }
    assert factors == tenure + Opt(ProductsFactor(c.products));
    ghost var products := factors;
    if c.balance == 0.0 {
      factors := factors + [ZeroBalance];
    } else if c.balance > 100000.0 {
      factors := factors + [HighBalance];
    }
    assert factors == products + Opt(BalanceFactor(c.balance));
    assert factors == FieldFactors(c);
    ghost var shared := factors;
    if c.age < 30.0 {
      factors := factors + [YoungCustomer];
    } else if c.age > 60.0 {
      factors := factors + [OlderCustomer];
    }
    assert factors == shared + Opt(AgeFactor(c.age));
  }

  /** Collects the factors of the English branch: credit, tenure,
      products, balance; there is no age rule. */
  method CollectFactorsEn(c: Customer) returns (factors: seq<Factor>)
    ensures factors == Factors(c, En)
  {
    factors := [];
    if c.creditScore < 600.0 {
      factors := factors + [LowCredit];
    } else if c.creditScore >= 750.0 {
      factors := factors + [ExcellentCredit];
    }
    assert factors == Opt(CreditFactor(c.creditScore));
    ghost var credit := factors;
    if c.tenure < 2.0 {
      factors := factors + [NewCustomer];
    } else if c.tenure >= 5.0 {
      factors := factors + [LoyalCustomer];
    }
    assert factors == credit + Opt(TenureFactor(c.tenure));
    ghost var tenure := factors;
    if c.products <= 1.0 {
      factors := factors + [LowEngagement];
    } else if c.products >= 3.0 {
      factors := factors + [HighEngagement];
    }
    assert factors == tenure + Opt(ProductsFactor(c.products));
    ghost var products := factors;
    if c.balance == 0.0 {
      factors := factors + [ZeroBalance];
    } else if c.balance > 100000.0 {
      factors := factors + [HighBalance];
    }
    assert factors == products + Opt(BalanceFactor(c.balance));
  }

  /** Appends one factor line per factor for the first four factors, in
      list order. */
  method WriteKeyFactors(analysis: seq<Line>, factors: seq<Factor>) returns (out: seq<Line>)
    ensures out == analysis + FactorLines(Prefix(factors, MaxFactors))
  {
    var top := Prefix(factors, MaxFactors);
    out := analysis;
    for i := 0 to |top|
      invariant out == analysis + FactorLines(top[..i])
    {
      assert top[..i + 1][..i] == top[..i];
      out := out + [FactorLine(top[i])];
    }
    assert top[..|top|] == top;
  }

  /** Appends the recommendations of the probability's tier, with the
      conditional item in third place when its condition holds. */
  method WriteRecommendations(analysis: seq<Line>, c: Customer, probability: real)
    returns (out: seq<Line>)
    ensures out == analysis + RecLines(Recommendations(c, probability))
  {
    out := analysis;
    if probability > 0.6 {
      out := out + [RecLine(ImmediateAction)];
      out := out + [RecLine(PersonalizedOffer)];
      if c.products <= 1.0 {
        out := out + [RecLine(CrossSelling)];
      }
      out := out + [RecLine(LoyaltyProgram)];
    } else if probability > 0.3 {
      out := out + [RecLine(ProactiveFollowUp)];
      out := out + [RecLine(ImproveEngagement)];
      if c.balance > 50000.0 {
        out := out + [RecLine(FinancialAdvisory)];
      }
      out := out + [RecLine(Incentives)];
    } else {
      out := out + [RecLine(MaintainSatisfaction)];
      out := out + [RecLine(GrowthOpportunities)];
      out := out + [RecLine(ReferralProgram)];
      out := out + [RecLine(RegularCommunication)];
    }
    assert out[|analysis|..] == RecLines(Recommendations(c, probability));
    assert out == analysis + out[|analysis|..];
  }

  /** Writes the narrative for a record at a churn probability: the risk
      header and framing, the key-factors header and the first four
      factors, the recommendations header and the recommendations. The
      predicted label is accepted and never read, so the narrative depends
      only on the record, the probability and the language. Any language
      code other than "es" takes the English branch, which has no age
      rule. */
  method GetSmartAnalysis(c: Customer, prediction: int, probability: real, langCode: string)
    returns (analysis: seq<Line>)
    ensures analysis == Analysis(c, probability, LangOf(langCode))
  {
    ghost var lang := LangOf(langCode);
    analysis := [RiskHeader];
    analysis := WriteFraming(analysis, probability);
    var factors: seq<Factor>;
    if langCode == "es" {
      factors := CollectFactorsEs(c);
    } else {
      factors := CollectFactorsEn(c);
    }
    analysis := analysis + [FactorsHeader];
    ghost var head := analysis;
    assert head == [RiskHeader, Framing(FramingTier(probability)), FactorsHeader];
    analysis := WriteKeyFactors(analysis, factors);
    ghost var keyLines := FactorLines(KeyFactors(c, lang));
    assert analysis == head + keyLines;
    analysis := analysis + [RecsHeader];
    analysis := WriteRecommendations(analysis, c, probability);
    assert analysis == head + keyLines + [RecsHeader] + RecLines(Recommendations(c, probability));
  }
}

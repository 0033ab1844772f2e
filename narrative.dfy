/** The rule-based churn narrative, as message keys: a risk-framing tier,
    the key factors of the record and the recommendations for the tier.
    The text of every key, per language, is in NarrativeText. */
module Narrative {
  import opened ChurnData

  // ---------------------------------------------------------------------
  // Risk framing
  // ---------------------------------------------------------------------

  /** The four wordings of the opening sentence. */
  datatype RiskTier = VeryHigh | ModerateHigh | Moderate | LowRisk

  /** Tier of the opening sentence: above 0.7 very high, above 0.5
      moderate-high, above 0.3 moderate, otherwise low. The tiers are
      closed above and open below. */
  function FramingTier(probability: real): (t: RiskTier)
    ensures t == VeryHigh <==> 0.7 < probability
    ensures t == ModerateHigh <==> 0.5 < probability <= 0.7
    ensures t == Moderate <==> 0.3 < probability <= 0.5
    ensures t == LowRisk <==> probability <= 0.3
  {
    if probability > 0.7 then VeryHigh
    else if probability > 0.5 then ModerateHigh
    else if probability > 0.3 then Moderate
    else LowRisk
  }

  // ---------------------------------------------------------------------
  // Key factors
  // ---------------------------------------------------------------------

  /** The record fields the factor rules look at, in priority order. */
  datatype Field = CreditField | TenureField | ProductsField | BalanceField | AgeField {
    function Rank(): nat {
      match this
      case CreditField => 0
      case TenureField => 1
      case ProductsField => 2
      case BalanceField => 3
      case AgeField => 4
    }
  }

  datatype FactorKind = Warning | Positive | Informational

  /** One observation about one field. */
  datatype Factor =
    | LowCredit | ExcellentCredit
    | NewCustomer | LoyalCustomer
    | LowEngagement | HighEngagement
    | ZeroBalance | HighBalance
    | YoungCustomer | OlderCustomer
  {
    function Field(): Field {
      match this
      case LowCredit | ExcellentCredit => CreditField
      case NewCustomer | LoyalCustomer => TenureField
      case LowEngagement | HighEngagement => ProductsField
      case ZeroBalance | HighBalance => BalanceField
      case YoungCustomer | OlderCustomer => AgeField
    }

    function Kind(): FactorKind {
      match this
      case LowCredit | NewCustomer | LowEngagement | ZeroBalance => Warning
      case ExcellentCredit | LoyalCustomer | HighEngagement | HighBalance => Positive
      case YoungCustomer | OlderCustomer => Informational
    }
  }

  /** Reference definition: the condition under which a factor is raised.
      The age rule exists only in the Spanish narrative. */
  predicate Fires(f: Factor, c: Customer, lang: Lang)
    ensures Fires(f, c, lang) && f.Field() == AgeField ==> lang == Es
  {
    match f
    case LowCredit => c.creditScore < 600.0
    case ExcellentCredit => c.creditScore >= 750.0
    case NewCustomer => c.tenure < 2.0
    case LoyalCustomer => c.tenure >= 5.0
    case LowEngagement => c.products <= 1.0
    case HighEngagement => c.products >= 3.0
    case ZeroBalance => c.balance == 0.0
    case HighBalance => c.balance > 100000.0
    case YoungCustomer => lang == Es && c.age < 30.0
    case OlderCustomer => lang == Es && c.age > 60.0
  }

  /** The zero or one factor a field contributes. */
  function Opt(o: Option<Factor>): (r: seq<Factor>)
    ensures |r| <= 1
  {
    match o
    case None => []
    case Some(f) => [f]
  }

  lemma OptMembership(o: Option<Factor>, f: Factor)
    ensures f in Opt(o) <==> o == Some(f)
  {
  }

  /** Credit score: below 600 a warning, else from 750 up a positive note. */
  function CreditFactor(creditScore: real): Option<Factor>
  {
    if creditScore < 600.0 then Some(LowCredit)
    else if creditScore >= 750.0 then Some(ExcellentCredit)
    else None
  }

  /** Tenure: under 2 years a warning, else from 5 years a positive note. */
  function TenureFactor(tenure: real): Option<Factor>
  {
    if tenure < 2.0 then Some(NewCustomer)
    else if tenure >= 5.0 then Some(LoyalCustomer)
    else None
  }

  /** Products: at most 1 a warning, else from 3 up a positive note. */
  function ProductsFactor(products: real): Option<Factor>
  {
    if products <= 1.0 then Some(LowEngagement)
    else if products >= 3.0 then Some(HighEngagement)
    else None
  }

  /** Balance: exactly zero a warning, else above 100000 a positive note. */
  function BalanceFactor(balance: real): Option<Factor>
  {
    if balance == 0.0 then Some(ZeroBalance)
    else if balance > 100000.0 then Some(HighBalance)
    else None
  }

  /** Age (Spanish only): under 30 young, else over 60 older. */
  function AgeFactor(age: real): Option<Factor>
  {
    if age < 30.0 then Some(YoungCustomer)
    else if age > 60.0 then Some(OlderCustomer)
    else None
  }

  /** The factors of the four fields both languages look at, in priority
      order credit, tenure, products, balance. */
  function FieldFactors(c: Customer): seq<Factor>
  {
    Opt(CreditFactor(c.creditScore)) + Opt(TenureFactor(c.tenure))
      + Opt(ProductsFactor(c.products)) + Opt(BalanceFactor(c.balance))
  }

  /** Every factor the rules raise for a record, before truncation: the
      four shared fields, then age in Spanish. */
  function Factors(c: Customer, lang: Lang): (r: seq<Factor>)
    ensures FieldFactors(c) <= r && |r| <= |FieldFactors(c)| + 1
    ensures forall i :: |FieldFactors(c)| <= i < |r| ==> lang == Es && r[i].Field() == AgeField
  {
    FieldFactors(c) + (if lang == Es then Opt(AgeFactor(c.age)) else [])
  }

  /** A factor is in the list exactly when its condition holds, and the
      list runs strictly by field priority, so no field contributes twice. */
  lemma FactorsSpec(c: Customer, lang: Lang)
    ensures forall f :: f in Factors(c, lang) <==> Fires(f, c, lang)
    ensures var r := Factors(c, lang);
      forall i, j :: 0 <= i < j < |r| ==> r[i].Field().Rank() < r[j].Field().Rank()
  {
    var g := if lang == Es then Opt(AgeFactor(c.age)) else [];
    var r := Factors(c, lang);
    forall f ensures f in r <==> Fires(f, c, lang) {
      FactorMembership(c, lang, f);
    }
    forall i, j | 0 <= i < j < |r| ensures r[i].Field().Rank() < r[j].Field().Rank() {
      RankAt(c, g, i);
      RankAt(c, g, j);
    }
  }

  /** A factor is raised exactly when its condition holds. */
  lemma FactorMembership(c: Customer, lang: Lang, f: Factor)
    ensures f in FieldFactors(c) + (if lang == Es then Opt(AgeFactor(c.age)) else []) <==> Fires(f, c, lang)
  {
    var a, b, d, e := CreditFactor(c.creditScore), TenureFactor(c.tenure),
      ProductsFactor(c.products), BalanceFactor(c.balance);
    var g := if lang == Es then Opt(AgeFactor(c.age)) else [];
    assert FieldFactors(c) + g == Opt(a) + Opt(b) + Opt(d) + Opt(e) + g;
    OptMembership(a, f);
    OptMembership(b, f);
    OptMembership(d, f);
    OptMembership(e, f);
    OptMembership(AgeFactor(c.age), f);
    assert f in Opt(a) + Opt(b) + Opt(d) + Opt(e) + g <==>
      a == Some(f) || b == Some(f) || d == Some(f) || e == Some(f) || f in g;
    assert f in g <==> lang == Es && AgeFactor(c.age) == Some(f);
  }

  /** The factor at position i of the list comes from the field whose
      contributions span that position. */
  lemma RankAt(c: Customer, g: seq<Factor>, i: nat)
    requires g == [] || g == Opt(AgeFactor(c.age))
    requires i < |FieldFactors(c) + g|
    ensures var a, b, d, e := Opt(CreditFactor(c.creditScore)), Opt(TenureFactor(c.tenure)),
        Opt(ProductsFactor(c.products)), Opt(BalanceFactor(c.balance));
      (FieldFactors(c) + g)[i].Field().Rank() ==
        if i < |a| then 0 else if i < |a + b| then 1 else if i < |a + b + d| then 2
        else if i < |a + b + d + e| then 3 else 4
  {
  }

  /** The first n elements of s, or all of s when it is shorter: the slice
      s[:n] of a list. */
  function Prefix<T>(s: seq<T>, n: nat): (r: seq<T>)
    ensures |r| == if |s| <= n then |s| else n
    ensures r == s[..|r|]
  {
    if |s| <= n then s else s[..n]
  }

  /** Only the first four factors are shown. */
  const MaxFactors: nat := 4

  /** The factors the narrative lists: the first four raised, in priority
      order. */
  function KeyFactors(c: Customer, lang: Lang): (r: seq<Factor>)
    ensures |r| == if |Factors(c, lang)| <= MaxFactors then |Factors(c, lang)| else MaxFactors
    ensures r <= Factors(c, lang)
  {
    Prefix(Factors(c, lang), MaxFactors)
  }

  /** English and Spanish raise the same factors for the four shared
      fields; Spanish then appends its age factor. */
  lemma FactorsByLanguage(c: Customer)
    ensures Factors(c, En) == FieldFactors(c)
    ensures Factors(c, Es) == FieldFactors(c) + Opt(AgeFactor(c.age))
    ensures |FieldFactors(c)| <= 4
  {
  }

  /** The key factors never exceed four, are a prefix of the raised factors
      and so keep their priority order, and hold at most one factor per
      field. */
  lemma KeyFactorsShape(c: Customer, lang: Lang)
    ensures var k := KeyFactors(c, lang);
      |k| <= MaxFactors && k == Factors(c, lang)[..|k|]
      && (forall i, j :: 0 <= i < j < |k| ==> k[i].Field().Rank() < k[j].Field().Rank())
      && (forall i, j :: 0 <= i < |k| && 0 <= j < |k| && k[i].Field() == k[j].Field() ==> i == j)
  {
    FactorsSpec(c, lang);
    var r := Factors(c, lang);
    var k := KeyFactors(c, lang);
    forall i, j | 0 <= i < |k| && 0 <= j < |k| && k[i].Field() == k[j].Field() ensures i == j {
      assert k[i] == r[i] && k[j] == r[j];
    }
  }

  /** A factor of the four shared fields is raised exactly when its
      condition holds and is not a Spanish age factor. */
  lemma SharedFactorMembership(c: Customer, lang: Lang, f: Factor)
    ensures f in FieldFactors(c) <==> Fires(f, c, lang) && f.Field() != AgeField
  {
    FactorsByLanguage(c);
    FactorsSpec(c, En);
  }

  /** Every raised factor of the four shared fields is listed: at most four
      of them fire, so the truncation never drops one. */
  lemma {:induction false} SharedKeyFactor(c: Customer, lang: Lang, f: Factor)
    requires f.Field() != AgeField
    ensures f in KeyFactors(c, lang) <==> Fires(f, c, lang)
  {
    FactorsByLanguage(c);
    SharedFactorMembership(c, lang, f);
    var shared := FieldFactors(c);
    var r := Factors(c, lang);
    var k := KeyFactors(c, lang);
    assert shared == r[..|shared|];
    assert shared == k[..|shared|];
    if Fires(f, c, lang) {
      assert f in shared;
    }
  }

  /** An age factor is listed only in Spanish, and only when its condition
      holds and at most three of the shared fields fired; otherwise the
      four slots are full. English never lists an age factor. */
  lemma {:induction false} AgeKeyFactor(c: Customer, lang: Lang, f: Factor)
    requires f.Field() == AgeField
    ensures f in KeyFactors(c, lang) <==> lang == Es && Fires(f, c, lang) && |FieldFactors(c)| <= 3
  {
    FactorsByLanguage(c);
    SharedFactorMembership(c, lang, f);
    var shared := FieldFactors(c);
    var r := Factors(c, lang);
    var k := KeyFactors(c, lang);
    if lang == En {
      assert r == shared;
    } else if |shared| <= 3 {
      assert k == r;
    } else {
      assert k == shared;
    }
  }

  // ---------------------------------------------------------------------
  // Recommendations
  // ---------------------------------------------------------------------

  /** The three recommendation sets. */
  datatype RecTier = Urgent | Retention | Growth

  /** Above 0.6 urgent, above 0.3 retention, otherwise growth. */
  function RecTierOf(probability: real): (t: RecTier)
    ensures t == Urgent <==> 0.6 < probability
    ensures t == Retention <==> 0.3 < probability <= 0.6
    ensures t == Growth <==> probability <= 0.3
  {
    if probability > 0.6 then Urgent
    else if probability > 0.3 then Retention
    else Growth
  }

  datatype Rec =
    | ImmediateAction | PersonalizedOffer | CrossSelling | LoyaltyProgram
    | ProactiveFollowUp | ImproveEngagement | FinancialAdvisory | Incentives
    | MaintainSatisfaction | GrowthOpportunities | ReferralProgram | RegularCommunication
  {
    /** The set a recommendation belongs to. */
    function Tier(): RecTier {
      match this
      case ImmediateAction | PersonalizedOffer | CrossSelling | LoyaltyProgram => Urgent
      case ProactiveFollowUp | ImproveEngagement | FinancialAdvisory | Incentives => Retention
      case _ => Growth
    }

    /** The two recommendations given only under a condition on the record. */
    predicate Conditional() {
      this == CrossSelling || this == FinancialAdvisory
    }
  }

  /** The recommendations for a record at a probability: three or four of
      them, all from the set of the probability's tier. */
  function Recommendations(c: Customer, probability: real): (r: seq<Rec>)
    ensures 3 <= |r| <= 4
    ensures forall i :: 0 <= i < |r| ==> r[i].Tier() == RecTierOf(probability)
  {
    if probability > 0.6 then
      [ImmediateAction, PersonalizedOffer]
        + (if c.products <= 1.0 then [CrossSelling] else [])
        + [LoyaltyProgram]
    else if probability > 0.3 then
      [ProactiveFollowUp, ImproveEngagement]
        + (if c.balance > 50000.0 then [FinancialAdvisory] else [])
        + [Incentives]
    else
      [MaintainSatisfaction, GrowthOpportunities, ReferralProgram, RegularCommunication]
  }

  /** Cross-selling is recommended exactly to urgent customers with at most
      one product, financial advice exactly to retention customers with a
      balance above 50000; either one then sits in third place, and the
      list has four items exactly when a conditional item is given or the
      tier is growth. */
  lemma RecommendationsConditional(c: Customer, probability: real)
    ensures var r := Recommendations(c, probability);
      (CrossSelling in r <==> probability > 0.6 && c.products <= 1.0)
      && (FinancialAdvisory in r <==> 0.3 < probability <= 0.6 && c.balance > 50000.0)
      && (forall i :: 0 <= i < |r| && r[i].Conditional() ==> i == 2)
      && (|r| == 4 <==> CrossSelling in r || FinancialAdvisory in r || RecTierOf(probability) == Growth)
  {
  }

  /** The fixed items of every tier, in their fixed places around the
      optional third item. */
  lemma RecommendationsFixed(c: Customer, probability: real)
    ensures var r := Recommendations(c, probability);
      match RecTierOf(probability)
      case Urgent => r[0] == ImmediateAction && r[1] == PersonalizedOffer && r[|r| - 1] == LoyaltyProgram
      case Retention => r[0] == ProactiveFollowUp && r[1] == ImproveEngagement && r[|r| - 1] == Incentives
      case Growth => r == [MaintainSatisfaction, GrowthOpportunities, ReferralProgram, RegularCommunication]
  {
  }

  // ---------------------------------------------------------------------
  // The narrative document
  // ---------------------------------------------------------------------

  /** One piece of the narrative, in the order it is written out. */
  datatype Line =
    | RiskHeader
    | Framing(tier: RiskTier)
    | FactorsHeader
    | FactorLine(factor: Factor)
    | RecsHeader
    | RecLine(rec: Rec)

  /** The factor lines of a list of factors, one per factor. */
  function FactorLines(fs: seq<Factor>): (r: seq<Line>)
    ensures |r| == |fs|
    ensures forall i :: 0 <= i < |fs| ==> r[i] == FactorLine(fs[i])
  {
    if fs == [] then [] else FactorLines(fs[..|fs| - 1]) + [FactorLine(fs[|fs| - 1])]
  }

  /** The recommendation lines of a list of recommendations. */
  function RecLines(rs: seq<Rec>): (r: seq<Line>)
    ensures |r| == |rs|
    ensures forall i :: 0 <= i < |rs| ==> r[i] == RecLine(rs[i])
  {
    if rs == [] then [] else RecLines(rs[..|rs| - 1]) + [RecLine(rs[|rs| - 1])]
  }

  /** The whole narrative: risk header and framing sentence, key-factors
      header and the key factors, recommendations header and the
      recommendations. */
  function Analysis(c: Customer, probability: real, lang: Lang): (r: seq<Line>)
    ensures |r| == 4 + |KeyFactors(c, lang)| + |Recommendations(c, probability)|
    ensures r[0] == RiskHeader && r[1] == Framing(FramingTier(probability)) && r[2] == FactorsHeader
    ensures r[3 + |KeyFactors(c, lang)|] == RecsHeader
  {
    [RiskHeader, Framing(FramingTier(probability)), FactorsHeader]
      + FactorLines(KeyFactors(c, lang))
      + [RecsHeader]
      + RecLines(Recommendations(c, probability))
  }

  /** The three sections come in the fixed order, each header exactly once:
      the risk header first, the key-factors header third, the
      recommendations header right after the at most four factor lines;
      the framing line carries the probability's tier. */
  lemma AnalysisSections(c: Customer, probability: real, lang: Lang)
    ensures var a := Analysis(c, probability, lang);
      var n := |KeyFactors(c, lang)|;
      n <= 4 && |a| == 4 + n + |Recommendations(c, probability)|
      && a[1] == Framing(FramingTier(probability))
      && (forall i :: 0 <= i < |a| ==> (a[i] == RiskHeader <==> i == 0))
      && (forall i :: 0 <= i < |a| ==> (a[i] == FactorsHeader <==> i == 2))
      && (forall i :: 0 <= i < |a| ==> (a[i] == RecsHeader <==> i == 3 + n))
  {
    KeyFactorsShape(c, lang);
    var a := Analysis(c, probability, lang);
    var fl := FactorLines(KeyFactors(c, lang));
    var rl := RecLines(Recommendations(c, probability));
    var n := |fl|;
    var head := [RiskHeader, Framing(FramingTier(probability)), FactorsHeader];
    assert a == head + fl + [RecsHeader] + rl;
    forall i | 0 <= i < |a|
      ensures a[i] == (if i < 3 then head[i] else if i < 3 + n then fl[i - 3]
                       else if i == 3 + n then RecsHeader else rl[i - 4 - n])
    {
    }
    forall i | 0 <= i < |a| ensures i != 0 ==> a[i] != RiskHeader {
      if 3 <= i < 3 + n { assert a[i].FactorLine?; }
      if 3 + n < i { assert a[i].RecLine?; }
    }
    forall i | 0 <= i < |a| ensures i != 2 ==> a[i] != FactorsHeader {
      if 3 <= i < 3 + n { assert a[i].FactorLine?; }
      if 3 + n < i { assert a[i].RecLine?; }
    }
    forall i | 0 <= i < |a| ensures i != 3 + n ==> a[i] != RecsHeader {
      if 3 <= i < 3 + n { assert a[i].FactorLine?; }
      if 3 + n < i { assert a[i].RecLine?; }
    }
  }
}

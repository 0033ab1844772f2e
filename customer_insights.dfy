/** The three short profile observations shown beside the prediction:
    one about credit, one about tenure, one about product usage. */
module CustomerInsights {
  import opened ChurnData

  /** The three tiers of every observation, best first. */
  datatype Tier = High | Mid | Low

  /** What an observation says, independent of its language. */
  datatype Insight =
    | CreditInsight(tier: Tier)
    | TenureInsight(tier: Tier)
    | ProductsInsight(tier: Tier)

  /** Credit history: 750 and up is excellent, 650 and up good, below that
      it needs improvement. */
  function CreditTier(creditScore: real): (t: Tier)
    ensures t == High <==> 750.0 <= creditScore
    ensures t == Mid <==> 650.0 <= creditScore < 750.0
    ensures t == Low <==> creditScore < 650.0
  {
    if creditScore >= 750.0 then High
    else if creditScore >= 650.0 then Mid
    else Low
  }

  /** Tenure in years: 5 and up is long-term, 2 and up established, below
      that new. */
  function TenureTier(tenure: real): (t: Tier)
    ensures t == High <==> 5.0 <= tenure
    ensures t == Mid <==> 2.0 <= tenure < 5.0
    ensures t == Low <==> tenure < 2.0
  {
    if tenure >= 5.0 then High
    else if tenure >= 2.0 then Mid
    else Low
  }

  /** Number of products: 3 and up is high engagement, exactly 2 moderate,
      anything else (including a non-integral count below 3) low usage. */
  function ProductsTier(products: real): (t: Tier)
    ensures t == High <==> 3.0 <= products
    ensures t == Mid <==> products == 2.0
    ensures t == Low <==> products < 3.0 && products != 2.0
  {
    if products >= 3.0 then High
    else if products == 2.0 then Mid
    else Low
  }

  /** The observations of a record, in the fixed order credit, tenure,
      products; each chosen by the thresholds of its own field. */
  function InsightKeys(c: Customer): (r: seq<Insight>)
    ensures |r| == 3
    ensures r[0] == CreditInsight(CreditTier(c.creditScore))
    ensures r[1] == TenureInsight(TenureTier(c.tenure))
    ensures r[2] == ProductsInsight(ProductsTier(c.products))
  {
    [CreditInsight(CreditTier(c.creditScore)),
     TenureInsight(TenureTier(c.tenure)),
     ProductsInsight(ProductsTier(c.products))]
  }

  /** The icon that opens an observation, the same in both languages. */
  function InsightMark(i: Insight): string
  {
    match i
    case CreditInsight(High) => "💎"
    case CreditInsight(Mid) => "✅"
    case CreditInsight(Low) => "⚠️"
    case TenureInsight(High) => "🏆"
    case TenureInsight(Mid) => "👍"
    case TenureInsight(Low) => "🆕"
    case ProductsInsight(High) => "🎯"
    case ProductsInsight(Mid) => "📊"
    case ProductsInsight(Low) => "📉"
  }

  /** No two observations share an icon. */
  lemma InsightMarkInjective(a: Insight, b: Insight)
    requires InsightMark(a)[0] == InsightMark(b)[0]
    ensures a == b
  {
  }

  /** The text of an observation in each language: its icon, a space and
      the phrase. */
  function InsightText(lang: Lang, i: Insight): (r: string)
    ensures var m := InsightMark(i); |r| > |m| && r[..|m|] == m
  {
    InsightMark(i) + " " + InsightPhrase(lang, i)
  }

  /** The phrase of an observation, after its icon. */
  function InsightPhrase(lang: Lang, i: Insight): string
  {
    match lang
    case Es => (
      match i
      case CreditInsight(High) => "Excelente historial crediticio"
      case CreditInsight(Mid) => "Buen historial crediticio"
      case CreditInsight(Low) => "Historial crediticio mejorable"
      case TenureInsight(High) => "Cliente de larga data"
      case TenureInsight(Mid) => "Cliente establecido"
      case TenureInsight(Low) => "Cliente relativamente nuevo"
      case ProductsInsight(High) => "Alto compromiso"
      case ProductsInsight(Mid) => "Compromiso moderado"
      case ProductsInsight(Low) => "Bajo uso de productos")
    case En => (
      match i
      case CreditInsight(High) => "Excellent credit history"
      case CreditInsight(Mid) => "Good credit history"
      case CreditInsight(Low) => "Credit history needs improvement"
      case TenureInsight(High) => "Long-term customer"
      case TenureInsight(Mid) => "Established customer"
      case TenureInsight(Low) => "Relatively new customer"
      case ProductsInsight(High) => "High engagement"
      case ProductsInsight(Mid) => "Moderate engagement"
      case ProductsInsight(Low) => "Low product usage")
  }

  /** Within one language no two observations share a text, so the text
      alone tells which field and which tier the rules chose: the icons
      already differ. */
  lemma InsightTextInjective(lang: Lang, a: Insight, b: Insight)
    requires InsightText(lang, a) == InsightText(lang, b)
    ensures a == b
  {
    var ma, mb := InsightMark(a), InsightMark(b);
    assert InsightText(lang, a)[0] == ma[0];
    assert InsightText(lang, b)[0] == mb[0];
    InsightMarkInjective(a, b);
  }

  /** The texts of a list of observations in one language. */
  function Rendered(lang: Lang, keys: seq<Insight>): (r: seq<string>)
    ensures |r| == |keys|
    ensures forall k :: 0 <= k < |keys| ==> r[k] == InsightText(lang, keys[k])
  {
    if keys == [] then [] else [InsightText(lang, keys[0])] + Rendered(lang, keys[1..])
  }

  /** The texts of three observations are the three texts in order. */
  lemma RenderedTriple(lang: Lang, keys: seq<Insight>)
    requires |keys| == 3
    ensures Rendered(lang, keys) == [InsightText(lang, keys[0]), InsightText(lang, keys[1]), InsightText(lang, keys[2])]
  {
  }

  /** The credit chain: appends the credit observation of the record. */
  method AddCreditInsight(insights: seq<string>, c: Customer, lang: Lang) returns (out: seq<string>)
    ensures out == insights + [InsightText(lang, CreditInsight(CreditTier(c.creditScore)))]
  {
    if c.creditScore >= 750.0 {
      out := insights + [InsightText(lang, CreditInsight(High))];
    } else if c.creditScore >= 650.0 {
      out := insights + [InsightText(lang, CreditInsight(Mid))];
    } else {
      out := insights + [InsightText(lang, CreditInsight(Low))];
    }
  }

  /** The tenure chain: appends the tenure observation of the record. */
  method AddTenureInsight(insights: seq<string>, c: Customer, lang: Lang) returns (out: seq<string>)
    ensures out == insights + [InsightText(lang, TenureInsight(TenureTier(c.tenure)))]
  {
    if c.tenure >= 5.0 {
      out := insights + [InsightText(lang, TenureInsight(High))];
    } else if c.tenure >= 2.0 {
      out := insights + [InsightText(lang, TenureInsight(Mid))];
    } else {
      out := insights + [InsightText(lang, TenureInsight(Low))];
    }
  }

  /** The products chain: appends the products observation of the record. */
  method AddProductsInsight(insights: seq<string>, c: Customer, lang: Lang) returns (out: seq<string>)
    ensures out == insights + [InsightText(lang, ProductsInsight(ProductsTier(c.products)))]
  {
    if c.products >= 3.0 {
      out := insights + [InsightText(lang, ProductsInsight(High))];
    } else if c.products == 2.0 {
      out := insights + [InsightText(lang, ProductsInsight(Mid))];
    } else {
      out := insights + [InsightText(lang, ProductsInsight(Low))];
    }
  }

  /** Builds the observation list by running the three chains one after
      the other, in the language the code selects. The application writes
      the same three threshold chains out once per language; they differ
      only in their texts, so the chains are written once here over the
      selected language. The result is the language-independent choice of
      InsightKeys rendered in that language: exactly three entries, credit
      then tenure then products. */
  method GetCustomerInsights(c: Customer, langCode: string) returns (insights: seq<string>)
    ensures |insights| == 3
    ensures insights == Rendered(LangOf(langCode), InsightKeys(c))
  {
    var lang := if langCode == "es" then Es else En;
    insights := [];
    insights := AddCreditInsight(insights, c, lang);
    insights := AddTenureInsight(insights, c, lang);
    insights := AddProductsInsight(insights, c, lang);
    RenderedTriple(lang, InsightKeys(c));
  }
}

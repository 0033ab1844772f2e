/** The wording of the narrative in each language, and the markdown text
    of a whole narrative. */
module NarrativeText {
  import opened ChurnData
  import opened Narrative

  /** The heading of the risk section. */
  function RiskHeaderText(lang: Lang): (r: string)
    ensures |r| > 0
  {
    match lang
    case Es => "## 📊 ANÁLISIS DEL RIESGO\n\n"
    case En => "## 📊 RISK ANALYSIS\n\n"
  }

  /** The opening sentence; percent stands for the probability written as
      a percentage with one decimal. */
  function FramingText(lang: Lang, tier: RiskTier, percent: string): (r: string)
    ensures |r| > 0
  {
    match lang
    case Es =>
      "Este cliente presenta un **riesgo " + (
        match tier
        case VeryHigh => "muy alto"
        case ModerateHigh => "moderado-alto"
        case Moderate => "moderado"
        case LowRisk => "bajo") + " de deserción** (" + percent + "%). "
    case En =>
      "This customer shows **" + (
        match tier
        case VeryHigh => "very high"
        case ModerateHigh => "moderate-high"
        case Moderate => "moderate"
        case LowRisk => "low") + " churn risk** (" + percent + "%). "
  }

  /** The heading of the key-factors section, after a blank line. */
  function FactorsHeaderText(lang: Lang): (r: string)
    ensures |r| > 0
  {
    match lang
    case Es => "\n\n## ⚠️ FACTORES CLAVE\n\n"
    case En => "\n\n## ⚠️ KEY FACTORS\n\n"
  }

  /** The heading of the recommendations section, after a blank line. */
  function RecsHeaderText(lang: Lang): (r: string)
    ensures |r| > 0
  {
    match lang
    case Es => "\n\n## 💡 RECOMENDACIONES\n\n"
    case En => "\n\n## 💡 RECOMMENDATIONS\n\n"
  }

  /** A factor has a wording in a language when that language's branch can
      raise it: the English branch has no age rule and no age wording. */
  predicate HasText(lang: Lang, f: Factor)
  {
    lang == Es || f.Field() != AgeField
  }

  /** The mark that opens the wording of a factor of each kind. */
  function KindMark(k: FactorKind): string
  {
    match k
    case Warning => "⚠️"
    case Positive => "✅"
    case Informational => "ℹ️"
  }

  /** The wording of a factor: the mark of its kind, so every warning
      opens with the warning sign and every positive factor with the check
      mark, then the factor's name in bold and its explanation. */
  function FactorText(lang: Lang, f: Factor): (r: string)
    requires HasText(lang, f)
    ensures var m := KindMark(f.Kind()); |r| > |m| && r[..|m|] == m
  {
    KindMark(f.Kind()) + " " + FactorPhrase(lang, f)
  }

  /** The bold name and explanation of a factor, after its mark. */
  function FactorPhrase(lang: Lang, f: Factor): string
    requires HasText(lang, f)
  {
    match lang
    case Es => (
      match f
      case LowCredit => "**Puntaje crediticio bajo**: Indica posibles problemas financieros"
      case ExcellentCredit => "**Excelente puntaje crediticio**: Factor positivo para la retención"
      case NewCustomer => "**Cliente nuevo**: Menos de 2 años con el banco, mayor riesgo de deserción"
      case LoyalCustomer => "**Cliente leal**: Más de 5 años con el banco, buena señal"
      case LowEngagement => "**Bajo compromiso**: Solo usa 1 producto bancario"
      case HighEngagement => "**Alto compromiso**: Usa múltiples productos del banco"
      case ZeroBalance => "**Saldo cero**: Cuenta sin movimiento, posible inactividad"
      case HighBalance => "**Alto saldo**: Cliente con recursos significativos"
      case YoungCustomer => "**Cliente joven**: Mayor movilidad entre bancos"
      case OlderCustomer => "**Cliente mayor**: Tiende a ser más estable")
    case En => (
      match f
      case LowCredit => "**Low credit score**: Indicates possible financial issues"
      case ExcellentCredit => "**Excellent credit score**: Positive factor for retention"
      case NewCustomer => "**New customer**: Less than 2 years with bank, higher churn risk"
      case LoyalCustomer => "**Loyal customer**: Over 5 years with bank, good sign"
      case LowEngagement => "**Low engagement**: Only using 1 bank product"
      case HighEngagement => "**High engagement**: Using multiple bank products"
      case ZeroBalance => "**Zero balance**: Account without movement, possible inactivity"
      case HighBalance => "**High balance**: Customer with significant resources")
  }

  /** The wording of a recommendation: its name in bold, then what to
      do. */
  function RecText(lang: Lang, r: Rec): (t: string)
    ensures |t| > 2 && t[..2] == "**"
  {
    "**" + RecName(lang, r) + "**: " + RecAdvice(lang, r)
  }

  /** The name of a recommendation. */
  function RecName(lang: Lang, r: Rec): string
  {
    match lang
    case Es => (
      match r
      case ImmediateAction => "Acción inmediata"
      case PersonalizedOffer => "Oferta personalizada"
      case CrossSelling => "Cross-selling"
      case LoyaltyProgram => "Programa de lealtad"
      case ProactiveFollowUp => "Seguimiento proactivo"
      case ImproveEngagement => "Mejorar engagement"
      case FinancialAdvisory => "Asesoría financiera"
      case Incentives => "Incentivos"
      case MaintainSatisfaction => "Mantener satisfacción"
      case GrowthOpportunities => "Oportunidades de crecimiento"
      case ReferralProgram => "Programa de referidos"
      case RegularCommunication => "Comunicación regular")
    case En => (
      match r
      case ImmediateAction => "Immediate action"
      case PersonalizedOffer => "Personalized offer"
      case CrossSelling => "Cross-selling"
      case LoyaltyProgram => "Loyalty program"
      case ProactiveFollowUp => "Proactive follow-up"
      case ImproveEngagement => "Improve engagement"
      case FinancialAdvisory => "Financial advisory"
      case Incentives => "Incentives"
      case MaintainSatisfaction => "Maintain satisfaction"
      case GrowthOpportunities => "Growth opportunities"
      case ReferralProgram => "Referral program"
      case RegularCommunication => "Regular communication")
  }

  /** What a recommendation asks the bank to do. */
  function RecAdvice(lang: Lang, r: Rec): string
  {
    match lang
    case Es => (
      match r
      case ImmediateAction => "Contactar al cliente en las próximas 48 horas"
      case PersonalizedOffer => "Proponer beneficios exclusivos o descuentos"
      case CrossSelling => "Ofrecer productos complementarios con condiciones preferenciales"
      case LoyaltyProgram => "Inscribir en programa VIP con beneficios especiales"
      case ProactiveFollowUp => "Revisar satisfacción del cliente mensualmente"
      case ImproveEngagement => "Enviar comunicaciones personalizadas sobre nuevos servicios"
      case FinancialAdvisory => "Ofrecer consultoría de inversión gratuita"
      case Incentives => "Considerar cashback o puntos por uso de productos"
      case MaintainSatisfaction => "Continuar con el servicio de calidad actual"
      case GrowthOpportunities => "Explorar necesidades adicionales del cliente"
      case ReferralProgram => "Incentivar que recomiende el banco a conocidos"
      case RegularCommunication => "Mantener contacto para fortalecer la relación")
    case En => (
      match r
      case ImmediateAction => "Contact customer within 48 hours"
      case PersonalizedOffer => "Propose exclusive benefits or discounts"
      case CrossSelling => "Offer complementary products with preferential conditions"
      case LoyaltyProgram => "Enroll in VIP program with special benefits"
      case ProactiveFollowUp => "Review customer satisfaction monthly"
      case ImproveEngagement => "Send personalized communications about new services"
      case FinancialAdvisory => "Offer free investment consultation"
      case Incentives => "Consider cashback or points for product usage"
      case MaintainSatisfaction => "Continue with current quality service"
      case GrowthOpportunities => "Explore additional customer needs"
      case ReferralProgram => "Incentivize recommending bank to acquaintances"
      case RegularCommunication => "Maintain contact to strengthen relationship")
  }

  /** A narrative line can be written in a language when it is not an age
      factor in English. */
  predicate Writable(lang: Lang, line: Line)
  {
    line.FactorLine? ==> HasText(lang, line.factor)
  }

  /** The markdown of one line: headers and the framing sentence as they
      are, factors and recommendations as bullet lines. */
  function LineText(lang: Lang, percent: string, line: Line): (r: string)
    requires Writable(lang, line)
    ensures |r| > 0
    ensures line.FactorLine? || line.RecLine? ==> "• " <= r && r[|r| - 1] == '\n'
  {
    match line
    case RiskHeader => RiskHeaderText(lang)
    case Framing(tier) => FramingText(lang, tier, percent)
    case FactorsHeader => FactorsHeaderText(lang)
    case FactorLine(f) => "• " + FactorText(lang, f) + "\n"
    case RecsHeader => RecsHeaderText(lang)
    case RecLine(r) => "• " + RecText(lang, r) + "\n"
  }

  /** The markdown of a sequence of lines, written one after another;
      every line adds text. */
  function Markdown(lang: Lang, percent: string, lines: seq<Line>): (r: string)
    requires forall i :: 0 <= i < |lines| ==> Writable(lang, lines[i])
    ensures lines == [] ==> r == ""
  {
    if lines == [] then ""
    else Markdown(lang, percent, lines[..|lines| - 1]) + LineText(lang, percent, lines[|lines| - 1])
  }

  lemma EmptyAppend(x: string)
    ensures "" + x == x
  {
  }

  lemma AppendAssoc(x: string, y: string, z: string)
    ensures (x + y) + z == x + (y + z)
  {
  }

  /** Writing two pieces one after the other gives the markdown of the
      whole: the narrative text is the concatenation of its sections. */
  lemma {:induction false} MarkdownAppend(lang: Lang, percent: string, a: seq<Line>, b: seq<Line>)
    requires forall i :: 0 <= i < |a| ==> Writable(lang, a[i])
    requires forall i :: 0 <= i < |b| ==> Writable(lang, b[i])
    ensures forall i :: 0 <= i < |a + b| ==> Writable(lang, (a + b)[i])
    ensures Markdown(lang, percent, a + b) == Markdown(lang, percent, a) + Markdown(lang, percent, b)
  {
    assert forall i :: 0 <= i < |a + b| ==> Writable(lang, (a + b)[i]) by {
      forall i | 0 <= i < |a + b| ensures Writable(lang, (a + b)[i]) {
        if i < |a| { assert (a + b)[i] == a[i]; } else { assert (a + b)[i] == b[i - |a|]; }
      }
    }
    if b == [] {
      assert a + b == a;
    } else {
      var b' := b[..|b| - 1];
      var last := b[|b| - 1];
      MarkdownAppend(lang, percent, a, b');
      assert (a + b)[..|a + b| - 1] == a + b';
      assert (a + b)[|a + b| - 1] == last;
      AppendAssoc(Markdown(lang, percent, a), Markdown(lang, percent, b'), LineText(lang, percent, last));
    }
  }

  /** Every line of a narrative has a wording in its own language: the
      English narrative never contains an age factor. */
  lemma AnalysisWritable(c: Customer, probability: real, lang: Lang)
    ensures forall i :: 0 <= i < |Analysis(c, probability, lang)| ==> Writable(lang, Analysis(c, probability, lang)[i])
  {
    var fl := FactorLines(KeyFactors(c, lang));
    var rl := RecLines(Recommendations(c, probability));
    var tier := FramingTier(probability);
    assert Analysis(c, probability, lang) == [RiskHeader, Framing(tier), FactorsHeader] + fl + [RecsHeader] + rl;
    KeyFactorLinesWritable(c, lang);
    assert forall i :: 0 <= i < |rl| ==> Writable(lang, rl[i]);
    SectionsWritable(lang, tier, fl, rl);
  }

  /** The headings and the framing sentence can be written in every
      language, so a narrative is writable when its factor and
      recommendation lines are. */
  lemma SectionsWritable(lang: Lang, tier: RiskTier, fl: seq<Line>, rl: seq<Line>)
    requires forall i :: 0 <= i < |fl| ==> Writable(lang, fl[i])
    requires forall i :: 0 <= i < |rl| ==> Writable(lang, rl[i])
    ensures var a := [RiskHeader, Framing(tier), FactorsHeader] + fl + [RecsHeader] + rl;
      forall i :: 0 <= i < |a| ==> Writable(lang, a[i])
  {
    var a := [RiskHeader, Framing(tier), FactorsHeader] + fl + [RecsHeader] + rl;
    forall i | 0 <= i < |a| ensures Writable(lang, a[i]) {
      if 3 <= i < 3 + |fl| {
        assert a[i] == fl[i - 3];
      } else if 3 + |fl| < i {
        assert a[i] == rl[i - 4 - |fl|];
      }
    }
  }

  lemma AgeFreeEnglish(c: Customer, f: Factor)
    requires f in KeyFactors(c, En)
    ensures f.Field() != AgeField
  {
    if f.Field() == AgeField {
      AgeKeyFactor(c, En, f);
    }
  }

  /** Every key factor line has a wording in its language. */
  lemma KeyFactorLinesWritable(c: Customer, lang: Lang)
    ensures forall i :: 0 <= i < |KeyFactors(c, lang)| ==> Writable(lang, FactorLines(KeyFactors(c, lang))[i])
  {
    var k := KeyFactors(c, lang);
    forall i | 0 <= i < |k| ensures Writable(lang, FactorLines(k)[i]) {
      if lang == En {
        AgeFreeEnglish(c, k[i]);
      }
    }
  }

  /** Writing one more line adds that line's text at the end. */
  lemma MarkdownSnoc(lang: Lang, percent: string, lines: seq<Line>, line: Line)
    requires forall i :: 0 <= i < |lines| ==> Writable(lang, lines[i])
    requires Writable(lang, line)
    ensures forall i :: 0 <= i < |lines + [line]| ==> Writable(lang, (lines + [line])[i])
    ensures Markdown(lang, percent, lines + [line]) == Markdown(lang, percent, lines) + LineText(lang, percent, line)
  {
    assert (lines + [line])[..|lines|] == lines;
  }

  /** The headings and the framing sentence are written as they are. */
  lemma HeadingLines(lang: Lang, percent: string, tier: RiskTier)
    ensures LineText(lang, percent, RiskHeader) == RiskHeaderText(lang)
    ensures LineText(lang, percent, Framing(tier)) == FramingText(lang, tier, percent)
    ensures LineText(lang, percent, FactorsHeader) == FactorsHeaderText(lang)
    ensures LineText(lang, percent, RecsHeader) == RecsHeaderText(lang)
  {
  }

  /** A single line is written as its own text. */
  lemma OneLineMarkdown(lang: Lang, percent: string, line: Line)
    requires Writable(lang, line)
    ensures Markdown(lang, percent, [line]) == LineText(lang, percent, line)
  {
    assert [line][..0] == [];
    EmptyAppend(LineText(lang, percent, line));
  }

  /** The markdown of the opening three lines of a narrative. */
  lemma HeadMarkdown(lang: Lang, percent: string, tier: RiskTier)
    ensures Markdown(lang, percent, [RiskHeader, Framing(tier), FactorsHeader])
      == RiskHeaderText(lang) + FramingText(lang, tier, percent) + FactorsHeaderText(lang)
  {
    OneLineMarkdown(lang, percent, RiskHeader);
    MarkdownSnoc(lang, percent, [RiskHeader], Framing(tier));
    MarkdownSnoc(lang, percent, [RiskHeader] + [Framing(tier)], FactorsHeader);
    assert [RiskHeader] + [Framing(tier)] + [FactorsHeader] == [RiskHeader, Framing(tier), FactorsHeader];
    HeadingLines(lang, percent, tier);
  }

  /** The markdown of the three headings with the framing sentence, a
      list of factor lines and a list of recommendation lines, in the
      order the narrative writes them. */
  lemma SectionsMarkdown(lang: Lang, percent: string, tier: RiskTier, fl: seq<Line>, rl: seq<Line>)
    requires forall i :: 0 <= i < |fl| ==> Writable(lang, fl[i])
    requires forall i :: 0 <= i < |rl| ==> Writable(lang, rl[i])
    ensures var a := [RiskHeader, Framing(tier), FactorsHeader] + fl + [RecsHeader] + rl;
      (forall i :: 0 <= i < |a| ==> Writable(lang, a[i]))
      && Markdown(lang, percent, a) ==
        RiskHeaderText(lang) + FramingText(lang, tier, percent) + FactorsHeaderText(lang)
        + Markdown(lang, percent, fl) + RecsHeaderText(lang) + Markdown(lang, percent, rl)
  {
    var head := [RiskHeader, Framing(tier), FactorsHeader];
    assert forall i :: 0 <= i < |head| ==> Writable(lang, head[i]) by {
      assert head[0] == RiskHeader && head[1] == Framing(tier) && head[2] == FactorsHeader;
    }
    HeadMarkdown(lang, percent, tier);
    MarkdownAppend(lang, percent, head, fl);
    MarkdownSnoc(lang, percent, head + fl, RecsHeader);
    HeadingLines(lang, percent, tier);
    MarkdownAppend(lang, percent, head + fl + [RecsHeader], rl);
  }

  /** The markdown of a narrative is its three headings with the framing
      sentence, the factor bullets and the recommendation bullets written
      in order. */
  lemma AnalysisMarkdownSections(c: Customer, probability: real, percent: string, lang: Lang)
    ensures var a := Analysis(c, probability, lang);
      var fl := FactorLines(KeyFactors(c, lang));
      var rl := RecLines(Recommendations(c, probability));
      (forall i :: 0 <= i < |a| ==> Writable(lang, a[i]))
      && (forall i :: 0 <= i < |fl| ==> Writable(lang, fl[i]))
      && (forall i :: 0 <= i < |rl| ==> Writable(lang, rl[i]))
      && Markdown(lang, percent, a) ==
        RiskHeaderText(lang) + FramingText(lang, FramingTier(probability), percent)
        + FactorsHeaderText(lang) + Markdown(lang, percent, fl)
        + RecsHeaderText(lang) + Markdown(lang, percent, rl)
  {
    var fl := FactorLines(KeyFactors(c, lang));
    var rl := RecLines(Recommendations(c, probability));
    var tier := FramingTier(probability);
    assert Analysis(c, probability, lang) == [RiskHeader, Framing(tier), FactorsHeader] + fl + [RecsHeader] + rl;
    KeyFactorLinesWritable(c, lang);
    assert forall i :: 0 <= i < |fl| ==> Writable(lang, fl[i]);
    assert forall i :: 0 <= i < |rl| ==> Writable(lang, rl[i]);
    SectionsMarkdown(lang, percent, tier, fl, rl);
  }

  /** The markdown the narrative functions return for a record, a
      probability, its formatted percentage and a language code: the risk
      heading and framing sentence, the key-factors heading and its
      bullets, the recommendations heading and its bullets. */
  function AnalysisMarkdown(c: Customer, probability: real, percent: string, langCode: string): (r: string)
    ensures var lang := LangOf(langCode);
      var fl := FactorLines(KeyFactors(c, lang));
      var rl := RecLines(Recommendations(c, probability));
      (forall i :: 0 <= i < |fl| ==> Writable(lang, fl[i]))
      && (forall i :: 0 <= i < |rl| ==> Writable(lang, rl[i]))
      && r == RiskHeaderText(lang) + FramingText(lang, FramingTier(probability), percent)
        + FactorsHeaderText(lang) + Markdown(lang, percent, fl)
        + RecsHeaderText(lang) + Markdown(lang, percent, rl)
  {
    var lang := LangOf(langCode);
    AnalysisMarkdownSections(c, probability, percent, lang);
    Markdown(lang, percent, Analysis(c, probability, lang))
  }
}

/** components/dashboard/ai-insights.tsx: the total potential savings shown
    in the card's badge, the empty state, and the icon and colour of each
    insight type. */
module AIInsightsCard {
  import opened Options
  import opened Folds
  import opened Finance

  /** `insight.potentialSavings || 0`. */
  function SavingsOf(insight: AIInsight): real
  {
    insight.potentialSavings.GetOr(0.0)
  }

  /** `.filter(insight => insight.potentialSavings)`: a value is present and
      non-zero. */
  predicate CarriesSavings(insight: AIInsight)
  {
    insight.potentialSavings.Some? && insight.potentialSavings.value != 0.0
  }

  /** `totalPotentialSavings`. */
  function TotalPotentialSavings(insights: seq<AIInsight>): real
  {
    Sum(Filter(insights, CarriesSavings), SavingsOf)
  }

  /** The badge is drawn when the total is positive. */
  predicate ShowsBadge(insights: seq<AIInsight>)
  {
    TotalPotentialSavings(insights) > 0.0
  }

  /** The empty state is drawn when there are no insights. */
  predicate ShowsEmptyState(insights: seq<AIInsight>)
  {
    |insights| == 0
  }

  /** The filter drops only insights that would add 0: the total is the sum
      of every insight's savings, with an absent value counting as 0. */
  lemma TotalIsAllSavings(insights: seq<AIInsight>)
    ensures TotalPotentialSavings(insights) == Sum(insights, SavingsOf)
  {
    SumMasked(insights, CarriesSavings, SavingsOf, SavingsOf);
  }

  /** With no insights the total is 0, there is no badge and the empty state
      is shown. */
  lemma NoInsights()
    ensures TotalPotentialSavings([]) == 0.0
    ensures !ShowsBadge([]) && ShowsEmptyState([])
  {
  }

  /** When no insight promises a negative saving, the badge is shown iff some
      insight promises a positive one. */
  lemma BadgeIffPositiveSaving(insights: seq<AIInsight>)
    requires forall i :: i in insights ==> SavingsOf(i) >= 0.0
    ensures ShowsBadge(insights) <==> exists i :: i in insights && SavingsOf(i) > 0.0
  {
    TotalIsAllSavings(insights);
    SumPositive(insights, SavingsOf);
  }

  /** The icons of `getInsightIcon`. */
  datatype Icon = AlertTriangle | Lightbulb | Trophy | Target | TrendingUp

  /** The name of an insight type, as the source writes it. */
  function TypeName(kind: InsightType): string
  {
    match kind
    case Warning => "warning"
    case Tip => "tip"
    case Achievement => "achievement"
    case Recommendation => "recommendation"
  }

  /** `getInsightIcon`. */
  function InsightIcon(kind: string): Icon
  {
    if kind == "warning" then AlertTriangle
    else if kind == "tip" then Lightbulb
    else if kind == "achievement" then Trophy
    else if kind == "recommendation" then Target
    else TrendingUp
  }

  /** `getInsightColor`. */
  function InsightColor(kind: string): string
  {
    if kind == "warning" then "border-l-orange-500 bg-orange-50"
    else if kind == "tip" then "border-l-blue-500 bg-blue-50"
    else if kind == "achievement" then "border-l-green-500 bg-green-50"
    else if kind == "recommendation" then "border-l-purple-500 bg-purple-50"
    else "border-l-gray-500 bg-gray-50"
  }

  /** Different insight types get different icons and different colours,
      and none of them gets the fallback style. */
  lemma StylesDistinct(a: InsightType, b: InsightType)
    ensures a != b ==> InsightIcon(TypeName(a)) != InsightIcon(TypeName(b))
    ensures a != b ==> InsightColor(TypeName(a)) != InsightColor(TypeName(b))
    ensures InsightIcon(TypeName(a)) != TrendingUp
    ensures InsightColor(TypeName(a)) != "border-l-gray-500 bg-gray-50"
  {
  }

  /** Any other type name gets the fallback icon and colour. */
  lemma UnknownTypeFallback(kind: string)
    requires forall t: InsightType :: kind != TypeName(t)
    ensures InsightIcon(kind) == TrendingUp
    ensures InsightColor(kind) == "border-l-gray-500 bg-gray-50"
  {
    assert kind != TypeName(Warning) && kind != TypeName(Tip);
    assert kind != TypeName(Achievement) && kind != TypeName(Recommendation);
  }
}

/** The four metric cards of `src/components/MetricsCards.tsx`: a threshold rule per metric that
    rates it excellent, good or in need of improvement, and the icon, colour and bar width each
    rating is drawn with. The metrics are the ones the script reports. */
module MetricsCards {
  import opened Pipeline

  /** A card's rating. */
  datatype Status = Excellent | Good | NeedsImprovement

  /** The rating's text, which the component stores in the card and switches on. */
  function Label(s: Status): string {
    match s
    case Excellent => "excellent"
    case Good => "good"
    case NeedsImprovement => "needs improvement"
  }

  /** How good a rating is: 2 for excellent, 1 for good, 0 otherwise. */
  function Rank(s: Status): nat {
    match s
    case Excellent => 2
    case Good => 1
    case NeedsImprovement => 0
  }

  /** Line 31: the R² rating. */
  function R2Status(r2: real): (s: Status)
    ensures s == Excellent <==> r2 > 0.8
    ensures s == Good <==> 0.6 < r2 <= 0.8
    ensures s == NeedsImprovement <==> r2 <= 0.6
  {
    if r2 > 0.8 then Excellent else if r2 > 0.6 then Good else NeedsImprovement
  }

  /** Line 43: the mean-absolute-error rating. */
  function MaeStatus(mae: real): (s: Status)
    ensures s == Excellent <==> mae < 3.0
    ensures s == Good <==> 3.0 <= mae < 5.0
    ensures s == NeedsImprovement <==> mae >= 5.0
  {
    if mae < 3.0 then Excellent else if mae < 5.0 then Good else NeedsImprovement
  }

  /** Line 55: the root-mean-square-error rating. */
  function RmseStatus(rmse: real): (s: Status)
    ensures s == Excellent <==> rmse < 4.0
    ensures s == Good <==> 4.0 <= rmse < 6.0
    ensures s == NeedsImprovement <==> rmse >= 6.0
  {
    if rmse < 4.0 then Excellent else if rmse < 6.0 then Good else NeedsImprovement
  }

  /** What a card shows as its value: one metric, or the fold mean with its spread. */
  datatype Shown = One(x: real) | PlusMinus(mean: real, spread: real)

  /** The part of a card that depends on the metrics. */
  datatype Card = Card(title: string, shown: Shown, status: Status)

  /** Lines 20-69: the cards, in their order. The cross-validation card shows the standard
      deviation beside the mean but rates the mean alone, on the R² thresholds. */
  function Cards(m: Metrics): (cards: seq<Card>)
    ensures |cards| == 4
  {
    [Card("R² Score", One(m.r2), R2Status(m.r2)),
     Card("Mean Absolute Error", One(m.mae), MaeStatus(m.mae)),
     Card("Root Mean Square Error", One(m.rmse), RmseStatus(m.rmse)),
     Card("Cross-Validation R²", PlusMinus(m.cvR2Mean, m.cvR2Std), R2Status(m.cvR2Mean))]
  }

  /** The icons of lines 71-80. */
  datatype Icon = Award | Zap | TrendingDown

  /** Lines 71-80: the icon for a rating text, with every other text taking the default. */
  function StatusIcon(text: string): (i: Icon)
    ensures i == Award <==> text == "excellent"
    ensures i == Zap <==> text == "good"
  {
    if text == "excellent" then Award
    else if text == "good" then Zap
    else TrendingDown
  }

  /** Lines 82-91: the text colour classes for a rating text, with the same default. */
  function StatusColor(text: string): (c: string)
    ensures c == "text-green-600 dark:text-green-400" <==> text == "excellent"
    ensures c == "text-yellow-600 dark:text-yellow-400" <==> text == "good"
    ensures c == "text-red-600 dark:text-red-400" <==> text != "excellent" && text != "good"
  {
    if text == "excellent" then "text-green-600 dark:text-green-400"
    else if text == "good" then "text-yellow-600 dark:text-yellow-400"
    else "text-red-600 dark:text-red-400"
  }

  /** Line 150: the bar width in percent for a rating text. */
  function BarWidth(text: string): (w: nat)
    ensures w == 100 <==> text == "excellent"
    ensures w == 70 <==> text == "good"
    ensures w == 40 <==> text != "excellent" && text != "good"
  {
    if text == "excellent" then 100 else if text == "good" then 70 else 40
  }

  // ---------------------------------------------------------------------------------------
  // Properties

  /** The three texts differ, so each rating reaches its own branch of every switch. */
  lemma {:induction false} LabelsDistinct(s: Status, u: Status)
    ensures Label(s) == Label(u) <==> s == u
  {
    if s != u {
      assert Label(s)[0] != Label(u)[0];
    }
  }

  /** Each rating is drawn with one icon, one colour and one bar width, and the needs-improvement
      rating is drawn exactly like any text the switches do not know. */
  lemma Drawing(s: Status, other: string)
    requires other != "excellent" && other != "good"
    ensures StatusIcon(Label(s)) == match s case Excellent => Award case Good => Zap case NeedsImprovement => TrendingDown
    ensures BarWidth(Label(s)) == match s case Excellent => 100 case Good => 70 case NeedsImprovement => 40
    ensures StatusColor(Label(NeedsImprovement)) == StatusColor(other) == "text-red-600 dark:text-red-400"
    ensures StatusIcon(Label(NeedsImprovement)) == StatusIcon(other) && BarWidth(Label(NeedsImprovement)) == BarWidth(other)
  {
    LabelsDistinct(s, Excellent);
    LabelsDistinct(s, Good);
  }

  /** A better rating gets a wider bar. */
  lemma WidthFollowsRank(s: Status, u: Status)
    ensures Rank(s) < Rank(u) <==> BarWidth(Label(s)) < BarWidth(Label(u))
  {
    Drawing(s, "");
    Drawing(u, "");
  }

  /** A higher R² never gets a worse rating. */
  lemma R2Monotone(a: real, b: real)
    requires a <= b
    ensures Rank(R2Status(a)) <= Rank(R2Status(b))
  {
  }

  /** A lower error never gets a worse rating. */
  lemma ErrorsMonotone(a: real, b: real)
    requires a <= b
    ensures Rank(MaeStatus(b)) <= Rank(MaeStatus(a))
    ensures Rank(RmseStatus(b)) <= Rank(RmseStatus(a))
  {
  }

  /** The cards never show the mean squared error, and the spread of the fold scores is shown but
      never changes a rating. */
  lemma CardsIgnore(m: Metrics, mse: real, std: real)
    ensures var n := m.(mse := mse, cvR2Std := std);
      && Cards(m.(mse := mse)) == Cards(m)
      && forall i :: 0 <= i < 4 ==> Cards(n)[i].status == Cards(m)[i].status
  {
  }

  /** The cards come in the order R², mean absolute error, root mean square error,
      cross-validation, and each is rated by its own metric's thresholds. */
  lemma CardRatings(m: Metrics)
    ensures var c := Cards(m);
      && c[0].title == "R² Score" && c[1].title == "Mean Absolute Error"
      && c[2].title == "Root Mean Square Error" && c[3].title == "Cross-Validation R²"
      && (c[0].status == Excellent <==> m.r2 > 0.8) && (c[0].status == Good <==> 0.6 < m.r2 <= 0.8)
      && (c[1].status == Excellent <==> m.mae < 3.0) && (c[1].status == Good <==> 3.0 <= m.mae < 5.0)
      && (c[2].status == Excellent <==> m.rmse < 4.0) && (c[2].status == Good <==> 4.0 <= m.rmse < 6.0)
      && (c[3].status == Excellent <==> m.cvR2Mean > 0.8) && (c[3].status == Good <==> 0.6 < m.cvR2Mean <= 0.8)
  {
  }

  /** The values the cards show: the three metrics, then the fold mean with its spread. */
  lemma CardValues(m: Metrics)
    ensures var c := Cards(m);
      && c[0].shown == One(m.r2) && c[1].shown == One(m.mae) && c[2].shown == One(m.rmse)
      && c[3].shown == PlusMinus(m.cvR2Mean, m.cvR2Std)
  {
  }

  /** The cross-validation card is rated exactly as an R² card with the fold mean would be. */
  lemma CrossValidationRatedLikeR2(m: Metrics)
    ensures Cards(m)[3].status == Cards(m.(r2 := m.cvR2Mean))[0].status
  {
  }
}

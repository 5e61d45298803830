/** The status a dashboard card derives from one category's spent, budget
    and remaining amounts: the percentage of the budget used, the over-budget
    flag, the colour tier of the progress bar, the bar's width and the
    "Over by" / "Left" label. Amounts are integer cents; the percentage is an
    exact real. */
module CategoryCard {

  /** The three colours the progress bar can take. */
  datatype Tier = Red | Yellow | Green

  /** The text under the bar: "Over by |remaining|" or "Left: remaining". */
  datatype Label = OverBy(amount: int) | Left(amount: int)

  /** Everything the card shows that is computed from its amounts. */
  datatype Status = Status(
    percentage: real,
    overBudget: bool,
    tier: Tier,
    barWidth: real,
    caption: Label,
    badge: bool)

  /** Share of the budget consumed, in percent; 0 when the budget is not
      positive, so a zero budget never divides. */
  function Percentage(spent: int, budget: int): (p: real)
    ensures budget <= 0 ==> p == 0.0
    ensures budget > 0 ==> p * budget as real == spent as real * 100.0
  {
    if budget > 0 then (spent as real / budget as real) * 100.0 else 0.0
  }

  /** Over budget means strictly negative remaining: a budget spent to the
      cent is not over budget, one cent more is. */
  predicate IsOverBudget(remaining: int)
    ensures remaining == 0 ==> !IsOverBudget(remaining)
    ensures remaining == -1 ==> IsOverBudget(remaining)
  {
    remaining < 0
  }

  /** Red when over budget, otherwise yellow above 80 percent, otherwise green. */
  function BarTier(spent: int, budget: int, remaining: int): (t: Tier)
    ensures t == Red <==> IsOverBudget(remaining)
    ensures t == Yellow <==> !IsOverBudget(remaining) && Percentage(spent, budget) > 80.0
    ensures t == Green <==> !IsOverBudget(remaining) && Percentage(spent, budget) <= 80.0
  {
    if IsOverBudget(remaining) then Red
    else if Percentage(spent, budget) > 80.0 then Yellow
    else Green
  }

  /** Width of the filled part of the bar, in percent: the percentage capped at 100. */
  function BarWidth(spent: int, budget: int): (w: real)
    ensures w <= 100.0
    ensures w <= Percentage(spent, budget)
    ensures w == Percentage(spent, budget) || w == 100.0
  {
    var p := Percentage(spent, budget);
    if p < 100.0 then p else 100.0
  }

  /** The amount text: the overshoot when over budget, what is left otherwise. */
  function AmountLabel(remaining: int): (l: Label)
    ensures l.OverBy? <==> IsOverBudget(remaining)
    ensures l.OverBy? ==> l.amount > 0 && l.amount + remaining == 0
    ensures l.Left? ==> l.amount >= 0 && l.amount == remaining
  {
    if IsOverBudget(remaining) then OverBy(-remaining) else Left(remaining)
  }

  /** The whole status of one card. */
  function CardStatus(spent: int, budget: int, remaining: int): (s: Status)
    ensures s.badge == s.overBudget && s.caption.OverBy? == s.overBudget && (s.tier == Red) == s.overBudget
    ensures s.overBudget <==> remaining < 0
    ensures s.barWidth <= 100.0
    ensures s.percentage == Percentage(spent, budget)
    ensures s.tier == BarTier(spent, budget, remaining)
    ensures s.barWidth == BarWidth(spent, budget)
    ensures s.caption == AmountLabel(remaining)
  {
    Status(Percentage(spent, budget), IsOverBudget(remaining),
           BarTier(spent, budget, remaining), BarWidth(spent, budget),
           AmountLabel(remaining), IsOverBudget(remaining))
  }

  // ---------------------------------------------------------------------
  // Properties of the card when remaining is budget - spent, as the
  // dashboard supplies it.

  /** Multiplying both sides by a positive factor keeps a comparison. */
  lemma ScaleComparison(x: real, c: real, b: real)
    requires b > 0.0
    ensures x > c <==> x * b > c * b
  {
  }

  /** For a positive budget, "more than 80 percent" is the integer comparison
      100 * spent > 80 * budget. */
  lemma PercentageAboveEighty(spent: int, budget: int)
    requires budget > 0
    ensures Percentage(spent, budget) > 80.0 <==> spent * 100 > 80 * budget
  {
    var p, b := Percentage(spent, budget), budget as real;
    ScaleComparison(p, 80.0, b);
    assert p * b == spent as real * 100.0;
    assert (spent * 100) as real == spent as real * 100.0;
    assert (80 * budget) as real == 80.0 * b;
    assert p > 80.0 <==> (spent * 100) as real > (80 * budget) as real;
  }

  /** For a positive budget, the percentage is at most 100 exactly when
      spending does not exceed the budget. */
  lemma PercentageAtMostHundred(spent: int, budget: int)
    requires budget > 0
    ensures Percentage(spent, budget) <= 100.0 <==> spent <= budget
  {
  }

  /** Over budget exactly when spending strictly exceeds the budget, so a
      budget spent to the cent is not over budget. */
  lemma OverBudgetIffOverspent(spent: int, budget: int, remaining: int)
    requires remaining == budget - spent
    ensures IsOverBudget(remaining) <==> spent > budget
    ensures spent == budget ==> !IsOverBudget(remaining)
  {
  }

  /** The tier in integer terms: red when spending exceeds the budget,
      yellow when it is within a positive budget but above 80 percent of it,
      green otherwise; exactly one of them holds. */
  lemma TierByAmounts(spent: int, budget: int, remaining: int)
    requires remaining == budget - spent
    ensures BarTier(spent, budget, remaining) == Red <==> spent > budget
    ensures BarTier(spent, budget, remaining) == Yellow <==>
              0 < budget && spent <= budget && spent * 100 > 80 * budget
    ensures BarTier(spent, budget, remaining) == Green <==>
              spent <= budget && (budget <= 0 || spent * 100 <= 80 * budget)
  {
    if budget > 0 {
      PercentageAboveEighty(spent, budget);
    }
  }

  /** A card within its positive budget draws the bar at exactly the
      percentage; an over-budget card with a positive budget draws it full. */
  lemma BarWidthByAmounts(spent: int, budget: int)
    requires budget > 0
    ensures spent <= budget ==> BarWidth(spent, budget) == Percentage(spent, budget)
    ensures spent >= budget ==> BarWidth(spent, budget) == 100.0
  {
  }

  /** With no negative spending the bar width stays within 0 and 100. */
  lemma BarWidthInRange(spent: int, budget: int)
    requires spent >= 0
    ensures 0.0 <= BarWidth(spent, budget) <= 100.0
  {
  }

  /** The "Over by" amount is what was spent beyond the budget; the "Left"
      amount is what remains of it. */
  lemma LabelByAmounts(spent: int, budget: int, remaining: int)
    requires remaining == budget - spent
    ensures spent > budget ==> AmountLabel(remaining) == OverBy(spent - budget)
    ensures spent <= budget ==> AmountLabel(remaining) == Left(budget - spent)
  {
  }

  /** A zero budget with positive spending shows 0 percent and yet a red,
      over-budget card whose label is the whole amount spent. */
  lemma ZeroBudgetOverspent(spent: int)
    requires spent > 0
    ensures Percentage(spent, 0) == 0.0
    ensures CardStatus(spent, 0, -spent).tier == Red
    ensures CardStatus(spent, 0, -spent).barWidth == 0.0
    ensures CardStatus(spent, 0, -spent).caption == OverBy(spent)
  {
  }
}

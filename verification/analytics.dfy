/** The Analytics screen: this month's and last month's expense totals, their change,
    the ranked category breakdown, the six-month comparison and the insight cards. */
module Analytics {
  import opened Wrappers
  import opened Domain
  import opened Seqs
  import opened Aggregation
  import opened Budget
  import Sorting

  /** One insight card. The texts around the numbers are rendering and left out. */
  datatype Insight =
    | OverBudget(excess: real)
    | ApproachingLimit(used: real)
    | OnTrack(used: real)
    | IncreasedSpending(increase: real)
    | GreatSavings(decrease: real)
    | HighCategory(name: string, amount: real)

  /** Which of the three rules produced a card: budget 0, trend 1, top category 2. */
  function Rule(i: Insight): nat {
    match i
    case OverBudget(_) => 0
    case ApproachingLimit(_) => 0
    case OnTrack(_) => 0
    case IncreasedSpending(_) => 1
    case GreatSavings(_) => 1
    case HighCategory(_, _) => 2
  }

  /** The budget card: present exactly when there is a budget, and of the kind the
      budget band of this month's spending names. */
  function BudgetInsight(user: Option<User>, currentTotal: real): (r: Option<Insight>)
    ensures r.Some? <==> HasBudget(user)
    ensures r.Some? ==> Rule(r.value) == 0
    ensures r.Some? && r.value.OverBudget? ==> r.value.excess == currentTotal - user.value.monthlyBudget
  {
    if !HasBudget(user) then None
    else
      var used := BudgetUsed(user, currentTotal);
      match BandOf(used)
      case Exceeded => Some(OverBudget(currentTotal - user.value.monthlyBudget))
      case Approaching => Some(ApproachingLimit(used))
      case Within => Some(OnTrack(used))
  }

  /** With a positive budget the card says "over" exactly when spending exceeds the
      budget (by a positive excess), "approaching" exactly when it is above four fifths
      of it, and "on track" otherwise. */
  lemma BudgetInsightBands(user: Option<User>, currentTotal: real)
    requires user.Some? && user.value.monthlyBudget > 0.0
    ensures BudgetInsight(user, currentTotal).Some?
    ensures BudgetInsight(user, currentTotal).value.OverBudget? <==> currentTotal > user.value.monthlyBudget
    ensures BudgetInsight(user, currentTotal).value.ApproachingLimit? <==>
              0.8 * user.value.monthlyBudget < currentTotal <= user.value.monthlyBudget
    ensures BudgetInsight(user, currentTotal).value.OnTrack? <==> currentTotal <= 0.8 * user.value.monthlyBudget
    ensures BudgetInsight(user, currentTotal).value.OverBudget? ==> BudgetInsight(user, currentTotal).value.excess > 0.0
  {
    BandOfSpending(user, currentTotal);
  }

  /** The trend card: present only for a change beyond 20 percent either way; an
      increase is reported as it is, a decrease by its magnitude. */
  function TrendInsight(change: real): (r: Option<Insight>)
    ensures r.Some? <==> change > 20.0 || change < -20.0
    ensures r.Some? ==> Rule(r.value) == 1
    ensures r.Some? ==> (r.value.IncreasedSpending? <==> change > 0.0)
    ensures r.Some? && r.value.IncreasedSpending? ==> r.value.increase == change
    ensures r.Some? && r.value.GreatSavings? ==> r.value.decrease == -change && r.value.decrease > 20.0
  {
    if change > 20.0 then Some(IncreasedSpending(change))
    else if change < -20.0 then Some(GreatSavings(-change))
    else None
  }

  /** In terms of the two month totals: no trend card without spending last month;
      otherwise an increase card exactly when this month is more than 1.2 times last
      month, and a savings card exactly when it is below 0.8 times. */
  lemma TrendInsightFromTotals(current: real, previous: real)
    ensures previous <= 0.0 ==> TrendInsight(PercentChange(current, previous)).None?
    ensures previous > 0.0 ==>
              (TrendInsight(PercentChange(current, previous)) == Some(IncreasedSpending(PercentChange(current, previous)))
               <==> current > 1.2 * previous)
    ensures previous > 0.0 ==>
              (TrendInsight(PercentChange(current, previous)).Some?
               && TrendInsight(PercentChange(current, previous)).value.GreatSavings?
               <==> current < 0.8 * previous)
  {
    if previous > 0.0 {
      ChangeThresholds(PercentChange(current, previous), current, previous);
    }
  }

  /** A change of more than 20 percent up or down, read back as a ratio of totals. */
  lemma ChangeThresholds(c: real, current: real, previous: real)
    requires previous > 0.0 && c * previous == (current - previous) * 100.0
    ensures c > 20.0 <==> current > 1.2 * previous
    ensures c < -20.0 <==> current < 0.8 * previous
  {
    ScaleCompare(c, 20.0, previous);
    ScaleCompare(-20.0, c, previous);
  }

  /** The top-category card: the first (largest) row of the ranked breakdown, shown
      when it amounts to more than 30 percent of a budget. Without a budget the
      percentage is taken as 0, so the card never appears. */
  function TopCategoryInsight(user: Option<User>, ranked: seq<Slice>): (r: Option<Insight>)
    ensures !HasBudget(user) || |ranked| == 0 ==> r.None?
    ensures r.Some? ==> Rule(r.value) == 2 && r.value == HighCategory(ranked[0].name, ranked[0].amount)
    ensures HasBudget(user) && user.value.monthlyBudget > 0.0 && |ranked| > 0 ==>
              (r.Some? <==> ranked[0].amount > 0.3 * user.value.monthlyBudget)
    ensures HasBudget(user) && user.value.monthlyBudget < 0.0 && |ranked| > 0 ==>
              (r.Some? <==> ranked[0].amount < 0.3 * user.value.monthlyBudget)
  {
    if |ranked| > 0 then
      var top := ranked[0];
      var percentage :=
        if HasBudget(user) then
          TopPercentage(top.amount, user);
          (top.amount / user.value.monthlyBudget) * 100.0
        else 0.0;
      if percentage > 30.0 then Some(HighCategory(top.name, top.amount)) else None
    else
      None
  }

  lemma TopPercentage(amount: real, user: Option<User>)
    requires HasBudget(user)
    ensures user.value.monthlyBudget > 0.0 ==>
              ((amount / user.value.monthlyBudget) * 100.0 > 30.0 <==> amount > 0.3 * user.value.monthlyBudget)
    ensures user.value.monthlyBudget < 0.0 ==>
              ((amount / user.value.monthlyBudget) * 100.0 > 30.0 <==> amount < 0.3 * user.value.monthlyBudget)
  {
    var b := user.value.monthlyBudget;
    var p := (amount / b) * 100.0;
    assert p * b == amount * 100.0;
    if b > 0.0 {
      ScaleCompare(p, 30.0, b);
    } else {
      ScaleCompare(30.0, p, -b);
    }
  }

  /** The card of a rule, as a list of zero or one cards. */
  function Cards(o: Option<Insight>): (r: seq<Insight>)
    ensures |r| <= 1
    ensures forall x :: x in r <==> o == Some(x)
  {
    if o.Some? then [o.value] else []
  }

  /** The insight list: at most one card per rule, in the order budget, trend, top
      category, and a card is listed exactly when its rule produces it. */
  function Insights(user: Option<User>, currentTotal: real, change: real, ranked: seq<Slice>): (r: seq<Insight>)
    ensures |r| <= 3
    ensures forall i, j :: 0 <= i < j < |r| ==> Rule(r[i]) < Rule(r[j])
    ensures forall x :: x in r <==>
              (Some(x) == BudgetInsight(user, currentTotal)
               || Some(x) == TrendInsight(change)
               || Some(x) == TopCategoryInsight(user, ranked))
  {
    Cards(BudgetInsight(user, currentTotal)) + Cards(TrendInsight(change)) + Cards(TopCategoryInsight(user, ranked))
  }

  /** The figures the screen shows for the month of `today`. */
  datatype Analysis = Analysis(
    currentTotal: real,
    previousTotal: real,
    change: real,
    categories: seq<Slice>,
    monthly: seq<MonthPoint>,
    insights: seq<Insight>)

  /** This month's expense records. */
  function MonthExpenses(ts: seq<Transaction>, year: int, month: int): seq<Transaction> {
    Filter(ts, InMonthP(year, month, Expense))
  }

  function Analyze(user: Option<User>, ts: seq<Transaction>, today: Date): (a: Analysis)
    requires 0 <= today.month < 12
    ensures a.currentTotal == MonthTotal(ts, today.year, today.month, Expense)
    ensures a.previousTotal ==
              MonthTotal(ts, PreviousMonth(today.year, today.month).0, PreviousMonth(today.year, today.month).1, Expense)
    ensures |a.monthly| == 6
    ensures a.monthly[5].amount == a.currentTotal && a.monthly[4].amount == a.previousTotal
    ensures |a.insights| <= 3
    ensures forall k :: 0 <= k < |a.categories| ==> a.categories[k].amount > 0.0
    ensures forall k, l :: 0 <= k < l < |a.categories| ==> a.categories[k].amount >= a.categories[l].amount
    ensures a.change == PercentChange(a.currentTotal, a.previousTotal)
    ensures a.categories == RankedBreakdown(MonthExpenses(ts, today.year, today.month))
    ensures a.monthly == MonthlyTrend(ts, today.year, today.month, 6)
    ensures a.insights == Insights(user, a.currentTotal, a.change, a.categories)
  {
    var y, m := today.year, today.month;
    var prev := PreviousMonth(y, m);
    var monthTs := MonthExpenses(ts, y, m);
    var current := Sum(monthTs);
    var previous := MonthTotal(ts, prev.0, prev.1, Expense);
    var change := PercentChange(current, previous);
    var ranked := RankedBreakdown(monthTs);
    MonthlyTrendEnds(ts, y, m);
    BreakdownContents(monthTs);
    RankedBreakdownOrder(monthTs);
    RankedPositive(monthTs);
    Analysis(current, previous, change, ranked, MonthlyTrend(ts, y, m, 6), Insights(user, current, change, ranked))
  }

  /** The ranked rows are the positive ones, reordered. */
  lemma RankedPositive(monthTs: seq<Transaction>)
    ensures forall k :: 0 <= k < |RankedBreakdown(monthTs)| ==> RankedBreakdown(monthTs)[k].amount > 0.0
  {
    var r := RankedBreakdown(monthTs);
    var b := Breakdown(monthTs);
    BreakdownContents(monthTs);
    forall k | 0 <= k < |r| ensures r[k].amount > 0.0 {
      Sorting.SortedMembers(b, SliceAmount, r[k]);
    }
  }

  /** The top-category card, when shown, names the largest category of the month. */
  lemma TopCategoryIsLargest(user: Option<User>, ts: seq<Transaction>, today: Date)
    requires 0 <= today.month < 12
    ensures var a := Analyze(user, ts, today);
            var top := TopCategoryInsight(user, a.categories);
            top.Some? ==> forall k :: 0 <= k < |a.categories| ==> a.categories[k].amount <= top.value.amount
  {
    var a := Analyze(user, ts, today);
    forall k | 0 < k < |a.categories| ensures a.categories[k].amount <= a.categories[0].amount {
    }
  }

  /** With non-negative amounts, the category rows add up to this month's expense
      total less the records filed under an id outside the category table. */
  lemma CategoriesAddUp(user: Option<User>, ts: seq<Transaction>, today: Date)
    requires 0 <= today.month < 12
    requires NonNegativeAmounts(ts)
    ensures var a := Analyze(user, ts, today);
            SliceSum(a.categories) ==
              a.currentTotal - SumWhere(MonthExpenses(ts, today.year, today.month), Not(KnownIn(CATEGORIES)))
  {
    var monthTs := MonthExpenses(ts, today.year, today.month);
    FilterNonNegative(ts, InMonthP(today.year, today.month, Expense));
    BreakdownSum(monthTs);
  }
}

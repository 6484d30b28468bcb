/** The Dashboard screen: this month's expense and income totals, the balance and its
    label, the budget bar, the unsorted category breakdown, the seven-day trend and the
    five most recent records. */
module Dashboard {
  import opened Wrappers
  import opened Domain
  import opened Seqs
  import opened Aggregation
  import opened Budget
  import Sorting
  import Analytics

  /** The balance label under the balance figure. */
  function BalanceLabel(balance: real): (text: string)
    ensures text == "Healthy balance" <==> balance >= 0.0
    ensures text == "Healthy balance" || text == "Over budget"
  {
    if balance >= 0.0 then "Healthy balance" else "Over budget"
  }

  /** The records sorted newest first (a stable sort on the date), cut to five. */
  function RecentTransactions(ts: seq<Transaction>): (r: seq<Transaction>)
    ensures |r| == if |ts| < 5 then |ts| else 5
    ensures forall i, j :: 0 <= i < j < |r| ==> DayNumber(r[i].date) >= DayNumber(r[j].date)
    ensures forall i :: 0 <= i < |r| ==> r[i] in ts
    ensures multiset(r) <= multiset(ts)
  {
    var s := Sorting.SortDesc(ts, DateKey);
    NewestFirstPrefix(ts, s, if |s| < 5 then |s| else 5);
    Take(s, 5)
  }

  /** A prefix of a newest-first ordering of `ts` is newest first and draws on the
      records of `ts`. */
  lemma NewestFirstPrefix(ts: seq<Transaction>, s: seq<Transaction>, n: nat)
    requires n <= |s| && Sorting.SortedDesc(s, DateKey) && multiset(s) == multiset(ts)
    ensures forall i, j :: 0 <= i < j < n ==> DayNumber(s[i].date) >= DayNumber(s[j].date)
    ensures multiset(s[..n]) <= multiset(ts)
    ensures forall i :: 0 <= i < n ==> s[i] in ts
  {
    forall i, j | 0 <= i < j < n ensures DayNumber(s[i].date) >= DayNumber(s[j].date) {
      assert DateKey(s[i]) >= DateKey(s[j]);
    }
    assert s == s[..n] + s[n..];
    forall i | 0 <= i < n ensures s[i] in ts {
      assert s[i] in multiset(s);
    }
  }

  /** Nothing newer than the last record shown is left out: every record dated after
      it is among the five; and with at most five records all of them are shown. */
  lemma RecentAreNewest(ts: seq<Transaction>)
    ensures |ts| <= 5 ==> multiset(RecentTransactions(ts)) == multiset(ts)
    ensures |ts| > 5 ==>
              forall i :: 0 <= i < |ts| && DayNumber(ts[i].date) > DayNumber(RecentTransactions(ts)[4].date) ==>
                ts[i] in RecentTransactions(ts)
  {
    var s := Sorting.SortDesc(ts, DateKey);
    var r := RecentTransactions(ts);
    assert r == Take(s, 5);
    if |ts| > 5 {
      forall i | 0 <= i < |ts| && DayNumber(ts[i].date) > DayNumber(r[4].date)
        ensures ts[i] in r
      {
        assert ts[i] in multiset(s);
        NewerIsShown(s, ts[i]);
      }
    }
  }

  /** In a newest-first list, a record dated after the fifth is among the first five. */
  lemma NewerIsShown(s: seq<Transaction>, x: Transaction)
    requires |s| > 5 && Sorting.SortedDesc(s, DateKey)
    requires x in s && DayNumber(x.date) > DayNumber(s[4].date)
    ensures x in Take(s, 5)
  {
    var k :| 0 <= k < |s| && s[k] == x;
    assert k >= 5 ==> DateKey(s[4]) >= DateKey(s[k]);
    assert Take(s, 5)[k] == s[k];
  }

  /** What the screen shows for the month of `today`. */
  datatype Overview = Overview(
    totalExpenses: real,
    totalIncome: real,
    balance: real,
    budgetUsed: real,
    band: Band,
    barWidth: real,
    categories: seq<Slice>,
    trend: seq<DayPoint>,
    recent: seq<Transaction>)

  function Summarize(user: Option<User>, ts: seq<Transaction>, today: Date): (o: Overview)
    ensures o.totalExpenses == MonthTotal(ts, today.year, today.month, Expense)
    ensures o.totalIncome == MonthTotal(ts, today.year, today.month, Income)
    ensures BalanceLabel(o.balance) == "Healthy balance" <==> o.totalIncome >= o.totalExpenses
    ensures !HasBudget(user) ==> o.budgetUsed == 0.0 && o.band == Within
    ensures o.barWidth <= 100.0 && (o.band == Exceeded ==> o.barWidth == 100.0)
    ensures forall k :: 0 <= k < |o.categories| ==> o.categories[k].amount > 0.0
    ensures forall k, l :: 0 <= k < l < |o.categories| ==> o.categories[k].index < o.categories[l].index
    ensures |o.trend| == 7 && o.trend[6].day == DayNumber(today)
    ensures |o.recent| == if |ts| < 5 then |ts| else 5
    ensures o.balance == o.totalIncome - o.totalExpenses
    ensures o.budgetUsed == BudgetUsed(user, o.totalExpenses)
    ensures o.band == BandOf(o.budgetUsed) && o.barWidth == BarWidth(o.budgetUsed)
    ensures o.categories == Breakdown(Filter(ts, InMonthP(today.year, today.month, Expense)))
    ensures o.trend == DailyTrend(ts, today, 7)
    ensures o.recent == RecentTransactions(ts)
  {
    var y, m := today.year, today.month;
    var spent := MonthTotal(ts, y, m, Expense);
    var earned := MonthTotal(ts, y, m, Income);
    var used := BudgetUsed(user, spent);
    var monthTs := Filter(ts, InMonthP(y, m, Expense));
    BreakdownContents(monthTs);
    Overview(spent, earned, earned - spent, used, BandOf(used), BarWidth(used),
             Breakdown(monthTs), DailyTrend(ts, today, 7), RecentTransactions(ts))
  }

  /** The Dashboard and Analytics show the same category rows for the month; Analytics
      only reorders them. */
  lemma SameRowsAsAnalytics(user: Option<User>, ts: seq<Transaction>, today: Date)
    requires 0 <= today.month < 12
    ensures multiset(Summarize(user, ts, today).categories) == multiset(Analytics.Analyze(user, ts, today).categories)
    ensures Summarize(user, ts, today).totalExpenses == Analytics.Analyze(user, ts, today).currentTotal
  {
    var monthTs := Filter(ts, InMonthP(today.year, today.month, Expense));
    assert Analytics.Analyze(user, ts, today).categories == RankedBreakdown(monthTs);
    RankedBreakdownOrder(monthTs);
  }
}

/** The records the app works on: transactions (the app calls them expenses, with a
    `type` of expense or income), the fixed category table, the user profile and the
    theme. Dates are calendar dates; their month is 0-based, as `Date.getMonth` reports
    it. */
module Domain {
  import opened Wrappers

  datatype TxType = Expense | Income

  /** The string the app stores in `type`. */
  function TxTypeId(k: TxType): string {
    match k
    case Expense => "expense"
    case Income => "income"
  }

  /** A calendar date; `month` runs 0..11 and `day` 1..31. */
  datatype Date = Date(year: int, month: int, day: int)

  /** Leap years of the Gregorian calendar. */
  predicate IsLeapYear(year: int) {
    year % 4 == 0 && (year % 100 != 0 || year % 400 == 0)
  }

  /** The length of the 0-based `month` of `year`. */
  function DaysInMonth(year: int, month: int): int {
    if month == 1 then (if IsLeapYear(year) then 29 else 28)
    else if month == 3 || month == 5 || month == 8 || month == 10 then 30
    else 31
  }

  /** A date that exists on the calendar. */
  predicate ValidDate(d: Date) {
    0 <= d.month < 12 && 1 <= d.day <= DaysInMonth(d.year, d.month)
  }

  /** The calendar day after `d`. */
  function NextDay(d: Date): (n: Date)
    requires ValidDate(d)
    ensures ValidDate(n)
  {
    if d.day < DaysInMonth(d.year, d.month) then Date(d.year, d.month, d.day + 1)
    else if d.month < 11 then Date(d.year, d.month + 1, 1)
    else Date(d.year + 1, 0, 1)
  }

  /** `a` lies before `b` on the calendar. */
  predicate Before(a: Date, b: Date) {
    a.year < b.year || (a.year == b.year && (a.month < b.month || (a.month == b.month && a.day < b.day)))
  }

  /** A transaction as stored: `kind` is the app's `type` field. */
  datatype Transaction = Transaction(
    id: string,
    amount: real,
    category: string,
    description: string,
    date: Date,
    kind: TxType)

  /** A category of the fixed table; icon and colour are rendering only. */
  datatype Category = Category(id: string, name: string)

  const CATEGORIES: seq<Category> := [
    Category("food", "Food & Dining"),
    Category("transport", "Transport"),
    Category("shopping", "Shopping"),
    Category("entertainment", "Entertainment"),
    Category("bills", "Bills & Utilities"),
    Category("health", "Health"),
    Category("education", "Education"),
    Category("travel", "Travel"),
    Category("savings", "Savings"),
    Category("other", "Other")
  ]

  /** The ids of `cats`, in table order. */
  function CategoryIds(cats: seq<Category>): (ids: seq<string>)
    ensures |ids| == |cats|
    ensures forall i :: 0 <= i < |cats| ==> ids[i] == cats[i].id
  {
    seq(|cats|, i requires 0 <= i < |cats| => cats[i].id)
  }

  /** No id occurs twice in `cats`. */
  predicate DistinctIds(cats: seq<Category>) {
    forall i, j :: 0 <= i < j < |cats| ==> cats[i].id != cats[j].id
  }

  /** The category table has ten entries with pairwise different ids. */
  lemma CategoriesWellFormed()
    ensures |CATEGORIES| == 10
    ensures DistinctIds(CATEGORIES)
  {
  }

  /** `CATEGORIES.find(c => c.id === id)`: the first category with that id. */
  function FindCategory(cats: seq<Category>, id: string): (r: Option<Category>)
    ensures r.Some? <==> id in CategoryIds(cats)
    ensures r.Some? ==> r.value in cats && r.value.id == id
    ensures r.Some? && |cats| > 0 && cats[0].id == id ==> r.value == cats[0]
  {
    if |cats| == 0 then None
    else if cats[0].id == id then Some(cats[0])
    else
      assert CategoryIds(cats) == [cats[0].id] + CategoryIds(cats[1..]);
      FindCategory(cats[1..], id)
  }

  /** In a table without repeated ids, looking up an entry's id finds that entry. */
  lemma {:induction false} FindCategoryAt(cats: seq<Category>, i: nat)
    requires DistinctIds(cats) && i < |cats|
    ensures FindCategory(cats, cats[i].id) == Some(cats[i])
  {
    if i > 0 {
      assert cats[0].id != cats[i].id;
      FindCategoryAt(cats[1..], i - 1);
    }
  }

  datatype Theme = Light | Dark

  /** The user profile; the optional avatar is never set and is left out. */
  datatype User = User(
    id: string,
    name: string,
    email: string,
    monthlyBudget: real,
    selectedCategories: seq<string>,
    onboardingComplete: bool)

  /** The month `(year, month)` as a single running index, so that stepping back `k`
      months is subtracting `k`. Euclidean `/` and `%` by 12 recover year and month
      exactly as `new Date(year, month - k, 1)` normalises an out-of-range month. */
  function MonthIndex(year: int, month: int): int {
    year * 12 + month
  }

  /** Days since 1970-01-01 of a proleptic Gregorian date (days-from-civil). Two records
      fall on the same calendar day, in the sense of `toDateString` equality, when their
      day numbers agree. */
  function DayNumber(d: Date): int {
    var m := d.month + 1;
    var y := if m <= 2 then d.year - 1 else d.year;
    var era := y / 400;
    var yoe := y - era * 400;
    var mp := if m > 2 then m - 3 else m + 9;
    var doy := (153 * mp + 2) / 5 + d.day - 1;
    var doe := yoe * 365 + yoe / 4 - yoe / 100 + doy;
    era * 146097 + doe - 719468
  }

  /** The sort key of a record's date: `new Date(date).getTime()` of an ISO date is
      midnight UTC of that day, so it orders records exactly as the day number does. */
  function DateKey(t: Transaction): real {
    DayNumber(t.date) as real
  }

  /** Day numbers count consecutive days: the epoch is day 0 and the calendar day
      after any date, a month end or New Year's Eve included, is one more. */
  lemma DayNumberConsecutive(d: Date)
    requires ValidDate(d)
    ensures DayNumber(Date(1970, 0, 1)) == 0
    ensures DayNumber(NextDay(d)) == DayNumber(d) + 1
  {
    Epoch();
    if d.day < DaysInMonth(d.year, d.month) {
      NextDayInMonth(d.year, d.month, d.day);
    } else if d.month < 11 {
      NextMonthStep(d);
    } else {
      NextYearStep(d);
    }
  }

  lemma NextMonthStep(d: Date)
    requires ValidDate(d) && d.day == DaysInMonth(d.year, d.month) && d.month < 11
    ensures DayNumber(NextDay(d)) == DayNumber(d) + 1
  {
    assert NextDay(d) == Date(d.year, d.month + 1, 1);
    MonthEnd(d.year, d.month);
  }

  lemma NextYearStep(d: Date)
    requires ValidDate(d) && d.day == DaysInMonth(d.year, d.month) && d.month == 11
    ensures DayNumber(NextDay(d)) == DayNumber(d) + 1
  {
    assert NextDay(d) == Date(d.year + 1, 0, 1) && d == Date(d.year, 11, 31);
    NextYear(d.year);
  }

  /** Day numbers follow the calendar order, so two valid dates share a day number only
      when they are the same date. */
  lemma DayNumberOrder(a: Date, b: Date)
    requires ValidDate(a) && ValidDate(b)
    ensures Before(a, b) <==> DayNumber(a) < DayNumber(b)
    ensures a == b <==> DayNumber(a) == DayNumber(b)
  {
    if Before(a, b) {
      BeforeMeansEarlier(a, b);
    } else if a != b {
      BeforeMeansEarlier(b, a);
    }
  }

  lemma BeforeMeansEarlier(a: Date, b: Date)
    requires ValidDate(a) && ValidDate(b) && Before(a, b)
    ensures DayNumber(a) < DayNumber(b)
  {
    if a.year < b.year {
      WithinYear(a);
      WithinYear(b);
      NewYearsIncrease(a.year, b.year);
    } else if a.month < b.month {
      DayOffset(a.year, a.month, a.day);
      DayOffset(b.year, b.month, b.day);
      DayOffset(a.year, a.month, DaysInMonth(a.year, a.month));
      MonthsIncrease(a.year, a.month, b.month);
    } else {
      DayOffset(a.year, a.month, a.day);
      DayOffset(b.year, b.month, b.day);
    }
  }

  lemma Epoch()
    ensures DayNumber(Date(1970, 0, 1)) == 0
  {
    assert 1969 / 400 == 4 && 1969 - 4 * 400 == 369;
    assert 369 * 365 + 369 / 4 - 369 / 100 + 306 == 135080;
  }

  lemma NextDayInMonth(year: int, month: int, day: int)
    requires 0 <= month < 12
    ensures DayNumber(Date(year, month, day + 1)) == DayNumber(Date(year, month, day)) + 1
  {
    var m := month + 1;
    var mp := if m > 2 then m - 3 else m + 9;
    assert (153 * mp + 2) / 5 + (day + 1) - 1 == (153 * mp + 2) / 5 + day - 1 + 1;
  }

  /** Within a month the day number grows with the day of the month. */
  lemma DayOffset(year: int, month: int, day: int)
    ensures DayNumber(Date(year, month, day)) == DayNumber(Date(year, month, 1)) + day - 1
  {
    var m := month + 1;
    var mp := if m > 2 then m - 3 else m + 9;
    assert (153 * mp + 2) / 5 + day - 1 == (153 * mp + 2) / 5 + 1 - 1 + day - 1;
  }

  lemma NextYear(year: int)
    ensures DayNumber(Date(year + 1, 0, 1)) == DayNumber(Date(year, 11, 31)) + 1
  {
    assert (153 * 10 + 2) / 5 + 1 - 1 == 306;
    assert (153 * 9 + 2) / 5 + 31 - 1 == 305;
  }

  /** The first of the next month follows the last day of a month. */
  lemma MonthEnd(year: int, month: int)
    requires 0 <= month < 11
    ensures DayNumber(Date(year, month + 1, 1)) == DayNumber(Date(year, month, DaysInMonth(year, month))) + 1
  {
    DayOffset(year, month, DaysInMonth(year, month));
    if month == 1 {
      FebruaryLength(year);
    } else {
      var mp := if month + 1 > 2 then month - 2 else month + 10;
      CumulativeStep(mp);
    }
  }

  /** Days of the March-based year before month `mp` (0 is March) grow by the month's
      length from one month to the next. */
  lemma CumulativeStep(mp: int)
    requires 0 <= mp < 11
    ensures (153 * (mp + 1) + 2) / 5 - (153 * mp + 2) / 5
            == if mp == 1 || mp == 3 || mp == 6 || mp == 8 then 30 else 31
  {
    if mp == 0 {} else if mp == 1 {} else if mp == 2 {} else if mp == 3 {} else if mp == 4 {}
    else if mp == 5 {} else if mp == 6 {} else if mp == 7 {} else if mp == 8 {} else if mp == 9 {}
  }

  /** March 1 follows February's last day: February has 29 days in a leap year and 28
      otherwise. */
  lemma FebruaryLength(year: int)
    ensures DayNumber(Date(year, 2, 1)) == DayNumber(Date(year, 1, 1)) + DaysInMonth(year, 1)
  {
    assert (153 * 11 + 2) / 5 == 337;
    assert DayNumber(Date(year, 2, 1)) == MarchYearStart(year) - 719468;
    assert DayNumber(Date(year, 1, 1)) == MarchYearStart(year - 1) + 337 - 719468;
    MarchYearLength(year);
  }

  /** Days from 0000-03-01 to March 1 of `year`, era by era. */
  function MarchYearStart(year: int): int {
    var era := year / 400;
    var yoe := year - era * 400;
    era * 146097 + yoe * 365 + yoe / 4 - yoe / 100
  }

  /** The year from March 1 of `year - 1` has 366 days when `year` is a leap year. */
  lemma MarchYearLength(year: int)
    ensures MarchYearStart(year) - MarchYearStart(year - 1) == if IsLeapYear(year) then 366 else 365
  {
    var e := year / 400;
    var r := year - e * 400;
    LeapByRemainder(year, e, r);
    if r == 0 {
      assert (year - 1) / 400 == e - 1;
      assert (year - 1) - (e - 1) * 400 == 399;
    } else {
      assert (year - 1) / 400 == e;
      assert (year - 1) - e * 400 == r - 1;
      EraYearStep(r);
    }
  }

  /** Leap years repeat every 400 years. */
  lemma LeapByRemainder(year: int, e: int, r: int)
    requires e == year / 400 && r == year - e * 400
    ensures 0 <= r < 400
    ensures IsLeapYear(year) <==> r == 0 || (r % 4 == 0 && r % 100 != 0)
  {
    assert year / 4 == 100 * e + r / 4;
    assert year % 4 == r % 4;
    assert year / 100 == 4 * e + r / 100;
    assert year % 100 == r % 100;
    assert year % 400 == r;
  }

  /** Within an era, a year adds 365 days and one more when it is divisible by 4 but
      not by 100. */
  lemma EraYearStep(r: int)
    requires 1 <= r < 400
    ensures r * 365 + r / 4 - r / 100 - ((r - 1) * 365 + (r - 1) / 4 - (r - 1) / 100)
            == if r % 4 == 0 && r % 100 != 0 then 366 else 365
  {
    assert r / 4 - (r - 1) / 4 == if r % 4 == 0 then 1 else 0;
    assert r / 100 - (r - 1) / 100 == if r % 100 == 0 then 1 else 0;
  }

  /** The last day of a month comes before the first of any later month of that year. */
  lemma {:induction false} MonthsIncrease(year: int, m1: int, m2: int)
    requires 0 <= m1 < m2 < 12
    ensures DayNumber(Date(year, m1, DaysInMonth(year, m1))) < DayNumber(Date(year, m2, 1))
    decreases m2 - m1
  {
    MonthEnd(year, m1);
    if m1 + 1 < m2 {
      DayOffset(year, m1 + 1, DaysInMonth(year, m1 + 1));
      MonthsIncrease(year, m1 + 1, m2);
    }
  }

  /** A valid date lies between New Year's Day and New Year's Eve of its year. */
  lemma WithinYear(d: Date)
    requires ValidDate(d)
    ensures DayNumber(Date(d.year, 0, 1)) <= DayNumber(d) <= DayNumber(Date(d.year, 11, 31))
  {
    AfterNewYearsDay(d);
    BeforeNewYearsEve(d);
  }

  lemma AfterNewYearsDay(d: Date)
    requires ValidDate(d)
    ensures DayNumber(Date(d.year, 0, 1)) <= DayNumber(d)
  {
    DayOffset(d.year, d.month, d.day);
    if d.month > 0 {
      DayOffset(d.year, 0, 31);
      MonthsIncrease(d.year, 0, d.month);
    }
  }

  lemma BeforeNewYearsEve(d: Date)
    requires ValidDate(d)
    ensures DayNumber(d) <= DayNumber(Date(d.year, 11, 31))
  {
    var last := DaysInMonth(d.year, d.month);
    DayOffset(d.year, d.month, d.day);
    DayOffset(d.year, d.month, last);
    if d.month < 11 {
      DayOffset(d.year, 11, 31);
      MonthsIncrease(d.year, d.month, 11);
    }
  }

  /** New Year's Eve comes before New Year's Day of any later year. */
  lemma {:induction false} NewYearsIncrease(y1: int, y2: int)
    requires y1 < y2
    ensures DayNumber(Date(y1, 11, 31)) < DayNumber(Date(y2, 0, 1))
    decreases y2 - y1
  {
    NextYear(y1);
    if y1 + 1 < y2 {
      WithinYear(Date(y1 + 1, 0, 1));
      NewYearsIncrease(y1 + 1, y2);
    }
  }
}

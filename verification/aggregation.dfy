/** The figures Analytics and Dashboard derive from the flat transaction list: sums of
    amounts over filtered records, month totals per type, the month-over-month change,
    the per-category breakdown and the trailing month and day windows. */
module Aggregation {
  import opened Domain
  import opened Seqs
  import Sorting

  /** `reduce((sum, exp) => sum + exp.amount, 0)`. */
  function Sum(ts: seq<Transaction>): real {
    if |ts| == 0 then 0.0 else ts[0].amount + Sum(ts[1..])
  }

  lemma {:induction false} SumAppend(a: seq<Transaction>, b: seq<Transaction>)
    ensures Sum(a + b) == Sum(a) + Sum(b)
  {
    if |a| == 0 {
      assert a + b == b;
    } else {
      assert (a + b)[1..] == a[1..] + b;
      SumAppend(a[1..], b);
    }
  }

  /** The amount total of the records that pass `p`: a filter followed by a reduce. */
  function SumWhere(ts: seq<Transaction>, p: Transaction -> bool): real {
    Sum(Filter(ts, p))
  }

  lemma SumWhereCons(t: Transaction, ts: seq<Transaction>, p: Transaction -> bool)
    ensures SumWhere([t] + ts, p) == (if p(t) then t.amount else 0.0) + SumWhere(ts, p)
  {
    assert ([t] + ts)[1..] == ts;
    SumAppend(if p(t) then [t] else [], Filter(ts, p));
  }

  lemma SumWhereHead(s: seq<Transaction>, p: Transaction -> bool)
    requires |s| > 0
    ensures SumWhere(s, p) == (if p(s[0]) then s[0].amount else 0.0) + SumWhere(s[1..], p)
  {
    assert s == [s[0]] + s[1..];
    SumWhereCons(s[0], s[1..], p);
  }

  lemma SumWhereAppend(a: seq<Transaction>, b: seq<Transaction>, p: Transaction -> bool)
    ensures SumWhere(a + b, p) == SumWhere(a, p) + SumWhere(b, p)
  {
    FilterAppend(a, b, p);
    SumAppend(Filter(a, p), Filter(b, p));
  }

  /** Two predicates that agree on every record give the same total. */
  lemma {:induction false} SumWhereExt(ts: seq<Transaction>, p: Transaction -> bool, q: Transaction -> bool)
    requires forall i :: 0 <= i < |ts| ==> p(ts[i]) == q(ts[i])
    ensures SumWhere(ts, p) == SumWhere(ts, q)
  {
    if |ts| > 0 {
      assert ts == [ts[0]] + ts[1..];
      SumWhereCons(ts[0], ts[1..], p);
      SumWhereCons(ts[0], ts[1..], q);
      SumWhereExt(ts[1..], p, q);
    }
  }

  /** With non-negative amounts, every such total is non-negative. */
  lemma {:induction false} SumWhereNonNegative(ts: seq<Transaction>, p: Transaction -> bool)
    requires NonNegativeAmounts(ts)
    ensures SumWhere(ts, p) >= 0.0
  {
    if |ts| > 0 {
      assert ts == [ts[0]] + ts[1..];
      SumWhereCons(ts[0], ts[1..], p);
      SumWhereNonNegative(ts[1..], p);
    }
  }

  /** No record carries a negative amount. The entry form guarantees a positive amount,
      but records from other paths are not checked. */
  predicate NonNegativeAmounts(ts: seq<Transaction>) {
    |ts| == 0 || (ts[0].amount >= 0.0 && NonNegativeAmounts(ts[1..]))
  }

  /** Selecting records keeps amounts non-negative. */
  lemma {:induction false} FilterNonNegative(ts: seq<Transaction>, p: Transaction -> bool)
    requires NonNegativeAmounts(ts)
    ensures NonNegativeAmounts(Filter(ts, p))
  {
    if |ts| > 0 {
      FilterNonNegative(ts[1..], p);
      var rest := Filter(ts[1..], p);
      if p(ts[0]) {
        var r := Filter(ts, p);
        assert r == [ts[0]] + rest;
        assert r[0] == ts[0] && r[1..] == rest;
        assert ts[0].amount >= 0.0;
      } else {
        assert Filter(ts, p) == rest;
      }
    }
  }

  /** No slice carries a negative amount. */
  predicate NonNegativeSlices(s: seq<Slice>) {
    |s| == 0 || (s[0].amount >= 0.0 && NonNegativeSlices(s[1..]))
  }

  function Or(p: Transaction -> bool, q: Transaction -> bool): Transaction -> bool {
    t => p(t) || q(t)
  }

  function Not(p: Transaction -> bool): Transaction -> bool {
    t => !p(t)
  }

  /** Totals over two disjoint selections add up. */
  lemma {:induction false} SumWhereDisjoint(ts: seq<Transaction>, p: Transaction -> bool, q: Transaction -> bool)
    requires forall i :: 0 <= i < |ts| ==> !(p(ts[i]) && q(ts[i]))
    ensures SumWhere(ts, Or(p, q)) == SumWhere(ts, p) + SumWhere(ts, q)
  {
    if |ts| > 0 {
      assert ts == [ts[0]] + ts[1..];
      SumWhereCons(ts[0], ts[1..], p);
      SumWhereCons(ts[0], ts[1..], q);
      SumWhereCons(ts[0], ts[1..], Or(p, q));
      SumWhereDisjoint(ts[1..], p, q);
    }
  }

  /** A selection and its complement split the whole total. */
  lemma {:induction false} SumWhereComplement(ts: seq<Transaction>, p: Transaction -> bool)
    ensures SumWhere(ts, p) + SumWhere(ts, Not(p)) == Sum(ts)
  {
    if |ts| > 0 {
      assert ts == [ts[0]] + ts[1..];
      SumWhereCons(ts[0], ts[1..], p);
      SumWhereCons(ts[0], ts[1..], Not(p));
      SumWhereComplement(ts[1..], p);
    }
  }

  // ---------------------------------------------------------------------------
  // Month totals

  /** The record is of `kind` and dated in `month` of `year`. */
  predicate InMonth(t: Transaction, year: int, month: int, kind: TxType) {
    t.date.month == month && t.date.year == year && t.kind == kind
  }

  function InMonthP(year: int, month: int, kind: TxType): Transaction -> bool {
    t => InMonth(t, year, month, kind)
  }

  /** Sum of amounts of the `kind` records dated in the given month. */
  function MonthTotal(ts: seq<Transaction>, year: int, month: int, kind: TxType): real {
    SumWhere(ts, InMonthP(year, month, kind))
  }

  /** A month total is characterised record by record: the empty list totals 0, a
      record of the month and type adds its amount wherever it sits in the list, and
      any other record (income when expenses are summed, another month) adds nothing. */
  lemma MonthTotalCharacterised(a: seq<Transaction>, t: Transaction, b: seq<Transaction>,
                                year: int, month: int, kind: TxType)
    ensures MonthTotal([], year, month, kind) == 0.0
    ensures InMonth(t, year, month, kind) ==>
            MonthTotal(a + [t] + b, year, month, kind) == MonthTotal(a + b, year, month, kind) + t.amount
    ensures !InMonth(t, year, month, kind) ==>
            MonthTotal(a + [t] + b, year, month, kind) == MonthTotal(a + b, year, month, kind)
  {
    var p := InMonthP(year, month, kind);
    SumWhereAppend(a + [t], b, p);
    SumWhereAppend(a, [t], p);
    SumWhereAppend(a, b, p);
    SumWhereCons(t, [], p);
    assert [t] + [] == [t];
  }

  /** The month before `(year, month)`: December of the previous year for January,
      otherwise the preceding month of the same year. */
  function PreviousMonth(year: int, month: int): (r: (int, int))
    requires 0 <= month < 12
    ensures 0 <= r.1 < 12
    ensures MonthIndex(r.0, r.1) == MonthIndex(year, month) - 1
  {
    if month == 0 then (year - 1, 11) else (year, month - 1)
  }

  /** The month `k` months before `(year, month)`, normalised like `new Date(y, m - k, 1)`. */
  function MonthsBack(year: int, month: int, k: int): (r: (int, int))
    ensures 0 <= r.1 < 12
    ensures MonthIndex(r.0, r.1) == MonthIndex(year, month) - k
  {
    var idx := MonthIndex(year, month) - k;
    (idx / 12, idx % 12)
  }

  /** Analytics steps back one month in two ways, and they agree. */
  lemma PreviousMonthIsOneBack(year: int, month: int)
    requires 0 <= month < 12
    ensures MonthsBack(year, month, 1) == PreviousMonth(year, month)
  {
    var a := MonthsBack(year, month, 1);
    var b := PreviousMonth(year, month);
    MonthIndexInjective(a.0, a.1, b.0, b.1);
  }

  lemma MonthIndexInjective(y1: int, m1: int, y2: int, m2: int)
    requires 0 <= m1 < 12 && 0 <= m2 < 12
    requires MonthIndex(y1, m1) == MonthIndex(y2, m2)
    ensures y1 == y2 && m1 == m2
  {
    assert (y1 - y2) * 12 == m2 - m1;
  }

  /** Month-over-month change in percent; 0 whenever the previous total is not
      positive, even when the current one is. */
  function PercentChange(current: real, previous: real): (r: real)
    ensures previous <= 0.0 ==> r == 0.0
    ensures previous > 0.0 ==> r * previous == (current - previous) * 100.0
    ensures previous > 0.0 ==> (r > 0.0 <==> current > previous) && (r < 0.0 <==> current < previous)
  {
    if previous > 0.0 then ((current - previous) / previous) * 100.0 else 0.0
  }

  // ---------------------------------------------------------------------------
  // Category breakdown

  /** One row of a category breakdown: its position in the category table, its name
      and the total spent in it. */
  datatype Slice = Slice(index: nat, name: string, amount: real)

  predicate HasCategory(t: Transaction, id: string) {
    t.category == id
  }

  function CategoryP(id: string): Transaction -> bool {
    t => HasCategory(t, id)
  }

  /** One slice per category of `cats`, numbered from `start`, each holding the
      total of the records of `ts` in that category. */
  function SlicesFrom(ts: seq<Transaction>, cats: seq<Category>, start: nat): (r: seq<Slice>)
    ensures |r| == |cats|
    ensures forall i :: 0 <= i < |r| ==>
              r[i] == Slice(start + i, cats[i].name, SumWhere(ts, CategoryP(cats[i].id)))
  {
    if |cats| == 0 then []
    else [Slice(start, cats[0].name, SumWhere(ts, CategoryP(cats[0].id)))] + SlicesFrom(ts, cats[1..], start + 1)
  }

  function SliceSum(s: seq<Slice>): real {
    if |s| == 0 then 0.0 else s[0].amount + SliceSum(s[1..])
  }

  predicate Positive(s: Slice) {
    s.amount > 0.0
  }

  function SliceAmount(s: Slice): real {
    s.amount
  }

  /** `CATEGORIES.map(...).filter(item => item.amount > 0)` over the given records,
      which is the Dashboard breakdown. */
  function Breakdown(monthTs: seq<Transaction>): seq<Slice> {
    Filter(SlicesFrom(monthTs, CATEGORIES, 0), Positive)
  }

  /** The Analytics breakdown: the same rows, sorted by non-increasing amount with a
      stable sort. */
  function RankedBreakdown(monthTs: seq<Transaction>): seq<Slice> {
    Sorting.SortDesc(Breakdown(monthTs), SliceAmount)
  }

  /** The Dashboard breakdown holds exactly the categories with a positive total, each
      with its total, in category-table order. */
  lemma BreakdownContents(monthTs: seq<Transaction>)
    ensures forall k :: 0 <= k < |Breakdown(monthTs)| ==> Breakdown(monthTs)[k].amount > 0.0
    ensures forall k :: 0 <= k < |Breakdown(monthTs)| ==>
              var s := Breakdown(monthTs)[k];
              s.index < |CATEGORIES| && s.name == CATEGORIES[s.index].name
              && s.amount == SumWhere(monthTs, CategoryP(CATEGORIES[s.index].id))
    ensures forall c :: 0 <= c < |CATEGORIES| && SumWhere(monthTs, CategoryP(CATEGORIES[c].id)) > 0.0 ==>
              Slice(c, CATEGORIES[c].name, SumWhere(monthTs, CategoryP(CATEGORIES[c].id))) in Breakdown(monthTs)
    ensures forall k, l :: 0 <= k < l < |Breakdown(monthTs)| ==> Breakdown(monthTs)[k].index < Breakdown(monthTs)[l].index
  {
    PositiveSlices(monthTs, CATEGORIES);
  }

  /** The same facts for any category table. */
  lemma PositiveSlices(ts: seq<Transaction>, cats: seq<Category>)
    ensures var b := Filter(SlicesFrom(ts, cats, 0), Positive);
            forall k :: 0 <= k < |b| ==>
              b[k].amount > 0.0 && b[k].index < |cats| && b[k].name == cats[b[k].index].name
              && b[k].amount == SumWhere(ts, CategoryP(cats[b[k].index].id))
    ensures var b := Filter(SlicesFrom(ts, cats, 0), Positive);
            forall c :: 0 <= c < |cats| && SumWhere(ts, CategoryP(cats[c].id)) > 0.0 ==>
              Slice(c, cats[c].name, SumWhere(ts, CategoryP(cats[c].id))) in b
    ensures IncreasingIndex(Filter(SlicesFrom(ts, cats, 0), Positive))
  {
    var all := SlicesFrom(ts, cats, 0);
    var b := Filter(all, Positive);
    assert forall c :: 0 <= c < |all| ==> all[c].index == c;
    IncreasingIndexFilter(all);
    forall k | 0 <= k < |b|
      ensures b[k].amount > 0.0 && b[k].index < |cats| && b[k].name == cats[b[k].index].name
              && b[k].amount == SumWhere(ts, CategoryP(cats[b[k].index].id))
    {
      assert Positive(b[k]);
      var c :| 0 <= c < |all| && all[c] == b[k];
    }
    forall c | 0 <= c < |cats| && SumWhere(ts, CategoryP(cats[c].id)) > 0.0
      ensures Slice(c, cats[c].name, SumWhere(ts, CategoryP(cats[c].id))) in b
    {
      assert Positive(all[c]);
    }
  }

  predicate IncreasingIndex(s: seq<Slice>) {
    forall k, l :: 0 <= k < l < |s| ==> s[k].index < s[l].index
  }

  lemma {:induction false} IncreasingIndexFilter(s: seq<Slice>)
    requires IncreasingIndex(s)
    ensures IncreasingIndex(Filter(s, Positive))
  {
    if |s| > 0 {
      IncreasingIndexFilter(s[1..]);
      var rest := Filter(s[1..], Positive);
      forall k | 0 <= k < |rest| ensures s[0].index < rest[k].index {
        assert rest[k] in s[1..];
      }
    }
  }

  /** The Analytics breakdown has the Dashboard rows, ordered by non-increasing amount;
      rows with equal amounts keep category-table order. */
  lemma RankedBreakdownOrder(monthTs: seq<Transaction>)
    ensures multiset(RankedBreakdown(monthTs)) == multiset(Breakdown(monthTs))
    ensures forall k, l :: 0 <= k < l < |RankedBreakdown(monthTs)| ==>
              RankedBreakdown(monthTs)[k].amount >= RankedBreakdown(monthTs)[l].amount
    ensures forall k, l ::
              (0 <= k < l < |RankedBreakdown(monthTs)|
               && RankedBreakdown(monthTs)[k].amount == RankedBreakdown(monthTs)[l].amount) ==>
              RankedBreakdown(monthTs)[k].index < RankedBreakdown(monthTs)[l].index
  {
    var b := Breakdown(monthTs);
    var r := RankedBreakdown(monthTs);
    BreakdownContents(monthTs);
    forall k, l | 0 <= k < l < |r| && r[k].amount == r[l].amount
      ensures r[k].index < r[l].index
    {
      var a := r[k].amount;
      var p, q := WithKeyPositions(r, k, l);
      assert Sorting.WithKey(r, SliceAmount, a) == Sorting.WithKey(b, SliceAmount, a);
      WithKeyIncreasing(b, a);
    }
  }

  /** Two elements with the same key keep their relative order in the key's subsequence. */
  lemma {:induction false} WithKeyPositions(s: seq<Slice>, k: nat, l: nat) returns (p: nat, q: nat)
    requires k < l < |s| && s[k].amount == s[l].amount
    ensures p < q < |Sorting.WithKey(s, SliceAmount, s[k].amount)|
    ensures Sorting.WithKey(s, SliceAmount, s[k].amount)[p] == s[k]
    ensures Sorting.WithKey(s, SliceAmount, s[k].amount)[q] == s[l]
  {
    var a := s[k].amount;
    var w := Sorting.WithKey(s, SliceAmount, a);
    var w' := Sorting.WithKey(s[1..], SliceAmount, a);
    if k == 0 {
      q := WithKeyPosition(s[1..], l - 1, a);
      p, q := 0, q + 1;
    } else {
      p, q := WithKeyPositions(s[1..], k - 1, l - 1);
      if SliceAmount(s[0]) == a {
        p, q := p + 1, q + 1;
      }
    }
  }

  lemma {:induction false} WithKeyPosition(s: seq<Slice>, k: nat, a: real) returns (p: nat)
    requires k < |s| && s[k].amount == a
    ensures p < |Sorting.WithKey(s, SliceAmount, a)| && Sorting.WithKey(s, SliceAmount, a)[p] == s[k]
  {
    if k == 0 {
      p := 0;
    } else {
      p := WithKeyPosition(s[1..], k - 1, a);
      if SliceAmount(s[0]) == a {
        p := p + 1;
      }
    }
  }

  /** Selecting one key class keeps indices increasing. */
  lemma {:induction false} WithKeyIncreasing(s: seq<Slice>, a: real)
    requires IncreasingIndex(s)
    ensures IncreasingIndex(Sorting.WithKey(s, SliceAmount, a))
  {
    if |s| > 0 {
      WithKeyIncreasing(s[1..], a);
      var rest := Sorting.WithKey(s[1..], SliceAmount, a);
      WithKeyMembers(s[1..], a);
      forall k | 0 <= k < |rest| ensures s[0].index < rest[k].index {
        assert rest[k] in s[1..];
      }
    }
  }

  lemma {:induction false} WithKeyMembers(s: seq<Slice>, a: real)
    ensures forall k :: 0 <= k < |Sorting.WithKey(s, SliceAmount, a)| ==> Sorting.WithKey(s, SliceAmount, a)[k] in s
  {
    if |s| > 0 {
      WithKeyMembers(s[1..], a);
    }
  }

  // ---------------------------------------------------------------------------
  // Breakdown totals

  /** Records whose category id is one of `cats`. */
  function KnownIn(cats: seq<Category>): Transaction -> bool {
    (t: Transaction) => t.category in CategoryIds(cats)
  }

  lemma {:induction false} SlicesFromSum(ts: seq<Transaction>, cats: seq<Category>, start: nat)
    requires DistinctIds(cats)
    ensures SliceSum(SlicesFrom(ts, cats, start)) == SumWhere(ts, KnownIn(cats))
  {
    if |cats| == 0 {
      FilterDropsAll(ts, KnownIn(cats));
    } else {
      var c := cats[0];
      var rest := cats[1..];
      SlicesFromSum(ts, rest, start + 1);
      assert CategoryIds(cats) == [c.id] + CategoryIds(rest);
      forall i | 0 <= i < |ts| ensures !(CategoryP(c.id)(ts[i]) && KnownIn(rest)(ts[i])) {
        if ts[i].category in CategoryIds(rest) {
          var j :| 0 <= j < |CategoryIds(rest)| && CategoryIds(rest)[j] == ts[i].category;
          assert cats[0].id != cats[j + 1].id;
        }
      }
      SumWhereDisjoint(ts, CategoryP(c.id), KnownIn(rest));
      SumWhereExt(ts, Or(CategoryP(c.id), KnownIn(rest)), KnownIn(cats));
    }
  }

  /** Dropping non-positive rows keeps the total when every row is non-negative. */
  lemma {:induction false} PositiveFilterSum(s: seq<Slice>)
    requires NonNegativeSlices(s)
    ensures SliceSum(Filter(s, Positive)) == SliceSum(s)
  {
    if |s| > 0 {
      PositiveFilterSum(s[1..]);
      SliceSumAppend(if Positive(s[0]) then [s[0]] else [], Filter(s[1..], Positive));
    }
  }

  lemma {:induction false} SliceSumAppend(a: seq<Slice>, b: seq<Slice>)
    ensures SliceSum(a + b) == SliceSum(a) + SliceSum(b)
  {
    if |a| == 0 {
      assert a + b == b;
    } else {
      assert (a + b)[1..] == a[1..] + b;
      SliceSumAppend(a[1..], b);
    }
  }

  lemma {:induction false} InsertSum(x: Slice, s: seq<Slice>)
    requires Sorting.SortedDesc(s, SliceAmount)
    ensures SliceSum(Sorting.Insert(x, s, SliceAmount)) == x.amount + SliceSum(s)
  {
    if |s| == 0 || SliceAmount(x) >= SliceAmount(s[0]) {
      assert ([x] + s)[1..] == s;
    } else {
      var tail := Sorting.Insert(x, s[1..], SliceAmount);
      InsertSum(x, s[1..]);
      assert ([s[0]] + tail)[1..] == tail;
    }
  }

  lemma {:induction false} SortSum(s: seq<Slice>)
    ensures SliceSum(Sorting.SortDesc(s, SliceAmount)) == SliceSum(s)
  {
    if |s| > 0 {
      SortSum(s[1..]);
      InsertSum(s[0], Sorting.SortDesc(s[1..], SliceAmount));
    }
  }

  /** Inserting a record into a sorted list adds its amount to every total it passes. */
  lemma {:induction false} InsertSumWhere(x: Transaction, s: seq<Transaction>, key: Transaction -> real,
                                          p: Transaction -> bool)
    requires Sorting.SortedDesc(s, key)
    ensures SumWhere(Sorting.Insert(x, s, key), p) == (if p(x) then x.amount else 0.0) + SumWhere(s, p)
  {
    if |s| == 0 || key(x) >= key(s[0]) {
      SumWhereCons(x, s, p);
    } else {
      var tail := Sorting.Insert(x, s[1..], key);
      InsertSumWhere(x, s[1..], key, p);
      SumWhereCons(s[0], tail, p);
      assert s == [s[0]] + s[1..];
      SumWhereCons(s[0], s[1..], p);
    }
  }

  /** Sorting records, by any key, changes no total. */
  lemma {:induction false} SortSumWhere(s: seq<Transaction>, key: Transaction -> real, p: Transaction -> bool)
    ensures SumWhere(Sorting.SortDesc(s, key), p) == SumWhere(s, p)
  {
    if |s| > 0 {
      var rest := Sorting.SortDesc(s[1..], key);
      SortSumWhere(s[1..], key, p);
      InsertSumWhere(s[0], rest, key, p);
      SumWhereHead(s, p);
    }
  }

  /** All slices of a category table add up to the total of the records whose
      category is in the table, i.e. the whole total minus the unknown-category part. */
  lemma AllSlicesSum(monthTs: seq<Transaction>, cats: seq<Category>)
    requires DistinctIds(cats)
    ensures SliceSum(SlicesFrom(monthTs, cats, 0)) == Sum(monthTs) - SumWhere(monthTs, Not(KnownIn(cats)))
  {
    SlicesFromSum(monthTs, cats, 0);
    SumWhereComplement(monthTs, KnownIn(cats));
  }

  /** With non-negative amounts no slice is negative, so dropping the zero rows keeps
      the total. */
  lemma DropZeroSlicesSum(monthTs: seq<Transaction>)
    requires NonNegativeAmounts(monthTs)
    ensures SliceSum(Breakdown(monthTs)) == SliceSum(SlicesFrom(monthTs, CATEGORIES, 0))
  {
    SlicesNonNegative(monthTs, CATEGORIES, 0);
    PositiveFilterSum(SlicesFrom(monthTs, CATEGORIES, 0));
  }

  lemma {:induction false} SlicesNonNegative(monthTs: seq<Transaction>, cats: seq<Category>, start: nat)
    requires NonNegativeAmounts(monthTs)
    ensures NonNegativeSlices(SlicesFrom(monthTs, cats, start))
  {
    if |cats| > 0 {
      SumWhereNonNegative(monthTs, CategoryP(cats[0].id));
      SlicesNonNegative(monthTs, cats[1..], start + 1);
    }
  }

  /** With non-negative amounts, the breakdown rows add up to the total of the
      records minus the records whose category id is not in the category table; the
      sorted Analytics rows have the same total. */
  lemma BreakdownSum(monthTs: seq<Transaction>)
    requires NonNegativeAmounts(monthTs)
    ensures SliceSum(Breakdown(monthTs)) == Sum(monthTs) - SumWhere(monthTs, Not(KnownIn(CATEGORIES)))
    ensures SliceSum(RankedBreakdown(monthTs)) == SliceSum(Breakdown(monthTs))
  {
    CategoriesWellFormed();
    AllSlicesSum(monthTs, CATEGORIES);
    DropZeroSlicesSum(monthTs);
    SortSum(Breakdown(monthTs));
  }

  // ---------------------------------------------------------------------------
  // Trailing windows

  datatype MonthPoint = MonthPoint(year: int, month: int, amount: real)

  /** The last `n` months up to and including `(year, month)`, oldest first, each with
      its expense total. */
  function MonthlyTrend(ts: seq<Transaction>, year: int, month: int, n: nat): (r: seq<MonthPoint>)
    ensures |r| == n
    ensures forall i :: 0 <= i < n ==>
              0 <= r[i].month < 12
              && MonthIndex(r[i].year, r[i].month) == MonthIndex(year, month) - (n - 1 - i)
              && r[i].amount == MonthTotal(ts, r[i].year, r[i].month, Expense)
  {
    seq(n, i requires 0 <= i < n => PointBack(ts, year, month, n - 1 - i))
  }

  /** The point of the month `k` months before `(year, month)`. */
  function PointBack(ts: seq<Transaction>, year: int, month: int, k: int): (p: MonthPoint)
    ensures 0 <= p.month < 12
    ensures MonthIndex(p.year, p.month) == MonthIndex(year, month) - k
    ensures p.amount == MonthTotal(ts, p.year, p.month, Expense)
  {
    var ym := MonthsBack(year, month, k);
    MonthPoint(ym.0, ym.1, MonthTotal(ts, ym.0, ym.1, Expense))
  }

  /** In the six-month window the newest point is the current month and the one
      before it is the previous month, so their amounts are the current and previous
      totals; points are strictly increasing in month. */
  lemma MonthlyTrendEnds(ts: seq<Transaction>, year: int, month: int)
    requires 0 <= month < 12
    ensures var r := MonthlyTrend(ts, year, month, 6);
            r[5] == MonthPoint(year, month, MonthTotal(ts, year, month, Expense))
            && (r[4].year, r[4].month) == PreviousMonth(year, month)
            && r[4].amount == MonthTotal(ts, PreviousMonth(year, month).0, PreviousMonth(year, month).1, Expense)
            && forall i, j :: 0 <= i < j < 6 ==> MonthIndex(r[i].year, r[i].month) < MonthIndex(r[j].year, r[j].month)
  {
    var r := MonthlyTrend(ts, year, month, 6);
    MonthIndexInjective(r[5].year, r[5].month, year, month);
    var pm := PreviousMonth(year, month);
    MonthIndexInjective(r[4].year, r[4].month, pm.0, pm.1);
  }

  /** The record is an expense dated on day number `day`. */
  predicate OnDay(t: Transaction, day: int) {
    DayNumber(t.date) == day && t.kind == Expense
  }

  function OnDayP(day: int): Transaction -> bool {
    t => OnDay(t, day)
  }

  datatype DayPoint = DayPoint(day: int, amount: real)

  /** The last `n` days up to and including `today`, oldest first, each with the
      total of expenses on that calendar day. */
  function DailyTrend(ts: seq<Transaction>, today: Date, n: nat): (r: seq<DayPoint>)
    ensures |r| == n
    ensures forall i :: 0 <= i < n ==> r[i].day == DayNumber(today) - (n - 1 - i)
    ensures forall i :: 0 <= i < n ==> r[i].amount == SumWhere(ts, OnDayP(r[i].day))
  {
    seq(n, i requires 0 <= i < n =>
      var d := DayNumber(today) - (n - 1 - i);
      DayPoint(d, SumWhere(ts, OnDayP(d))))
  }

  /** The seven-day window ends today, its days are consecutive, and income never
      counts towards a point. */
  lemma DailyTrendShape(ts: seq<Transaction>, today: Date, t: Transaction, i: nat)
    requires i < 7
    ensures var r := DailyTrend(ts, today, 7);
            r[6].day == DayNumber(today)
            && (i < 6 ==> r[i + 1].day == r[i].day + 1)
            && (t.kind == Income ==> SumWhere(ts + [t], OnDayP(r[i].day)) == r[i].amount)
  {
    var d := DailyTrend(ts, today, 7)[i].day;
    SumWhereAppend(ts, [t], OnDayP(d));
    SumWhereCons(t, [], OnDayP(d));
    assert [t] + [] == [t];
  }
}

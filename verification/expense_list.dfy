/** The Transactions screen: search and filter, newest-first ordering, the total of
    the expense records shown, and the CSV text of the export. Turning a date or an
    amount into text is rendering and enters as the `dateText` and `amountText`
    parameters. */
module ExpenseList {
  import opened Wrappers
  import opened Domain
  import opened Seqs
  import opened Text
  import opened Aggregation
  import Sorting

  // ---------------------------------------------------------------------------
  // Filtering and ordering

  /** The search box and the two drop-downs; "all" switches a drop-down off. */
  datatype ListFilter = ListFilter(query: string, category: string, kind: string)

  /** The filter the screen opens with. */
  const Unfiltered := ListFilter("", "all", "all")

  /** The description contains the query, ignoring case, and each drop-down is off or
      names the record's category or type. */
  predicate Matches(t: Transaction, f: ListFilter) {
    Contains(ToLower(t.description), ToLower(f.query))
    && (f.category == "all" || t.category == f.category)
    && (f.kind == "all" || TxTypeId(t.kind) == f.kind)
  }

  function MatchesP(f: ListFilter): Transaction -> bool {
    t => Matches(t, f)
  }

  /** `filteredExpenses`: the matching records, in store order. */
  function FilterExpenses(ts: seq<Transaction>, f: ListFilter): (r: seq<Transaction>)
    ensures forall i :: 0 <= i < |r| ==> r[i] in ts && Matches(r[i], f)
    ensures forall i :: 0 <= i < |ts| && Matches(ts[i], f) ==> ts[i] in r
    ensures forall x :: multiset(r)[x] == if Matches(x, f) then multiset(ts)[x] else 0
  {
    FilterCounts(ts, f);
    Filter(ts, MatchesP(f))
  }

  /** A matching record is kept as often as it occurs, and a record that does not match
      is dropped every time. */
  lemma {:induction false} FilterCounts(ts: seq<Transaction>, f: ListFilter)
    ensures forall x :: multiset(Filter(ts, MatchesP(f)))[x] == if Matches(x, f) then multiset(ts)[x] else 0
  {
    if |ts| > 0 {
      FilterCounts(ts[1..], f);
      assert ts == [ts[0]] + ts[1..];
    }
  }

  /** The filter keeps store order: filtering two stretches of the list one after the
      other is filtering the whole list. */
  lemma FilterKeepsOrder(a: seq<Transaction>, b: seq<Transaction>, f: ListFilter)
    ensures FilterExpenses(a + b, f) == FilterExpenses(a, f) + FilterExpenses(b, f)
  {
    FilterAppend(a, b, MatchesP(f));
  }

  /** The opening filter shows every record, in store order. */
  lemma UnfilteredShowsAll(ts: seq<Transaction>)
    ensures FilterExpenses(ts, Unfiltered) == ts
  {
    assert ToLower("") == "";
    forall i | 0 <= i < |ts| ensures Matches(ts[i], Unfiltered) {
      ContainsEmpty(ToLower(ts[i].description));
    }
    FilterKeepsAll(ts, MatchesP(Unfiltered));
  }

  /** The type drop-down selects by type: "expense" shows only expenses, "income"
      only income, and any other value except "all" shows nothing. */
  lemma TypeFilterSelects(t: Transaction, f: ListFilter)
    ensures Matches(t, f) && f.kind == "expense" ==> t.kind == Expense
    ensures Matches(t, f) && f.kind == "income" ==> t.kind == Income
    ensures f.kind !in {"all", "expense", "income"} ==> !Matches(t, f)
  {
  }

  /** Upper-casing the query does not change what matches. */
  lemma SearchIgnoresCase(t: Transaction, f: ListFilter)
    ensures Matches(t, f.(query := ToUpper(f.query))) <==> Matches(t, f)
  {
    assert ToLower(ToUpper(f.query)) == ToLower(f.query);
  }

  /** `sortedExpenses`: the filtered records, newest first; records of the same day
      keep their filtered order, since the sort is stable. */
  function SortExpenses(fs: seq<Transaction>): (r: seq<Transaction>)
    ensures multiset(r) == multiset(fs)
    ensures forall i, j :: 0 <= i < j < |r| ==> DayNumber(r[i].date) >= DayNumber(r[j].date)
    ensures forall day :: Sorting.WithKey(r, DateKey, day) == Sorting.WithKey(fs, DateKey, day)
  {
    Sorting.SortDesc(fs, DateKey)
  }

  predicate IsExpense(t: Transaction) {
    t.kind == Expense
  }

  function IsExpenseP(): Transaction -> bool {
    t => IsExpense(t)
  }

  /** `totalAmount`: the amounts of the expense records among the sorted ones. */
  function TotalAmount(sorted: seq<Transaction>): real {
    SumWhere(sorted, IsExpenseP())
  }

  /** The total shown is that of the filtered expense records, whatever their order,
      and is the filtered total less the income among them. */
  lemma TotalAmountOfFiltered(ts: seq<Transaction>, f: ListFilter)
    ensures TotalAmount(SortExpenses(FilterExpenses(ts, f))) == SumWhere(FilterExpenses(ts, f), IsExpenseP())
    ensures TotalAmount(SortExpenses(FilterExpenses(ts, f))) ==
              Sum(FilterExpenses(ts, f)) - SumWhere(FilterExpenses(ts, f), Not(IsExpenseP()))
  {
    var fs := FilterExpenses(ts, f);
    SortSumWhere(fs, DateKey, IsExpenseP());
    SumWhereComplement(fs, IsExpenseP());
  }

  // ---------------------------------------------------------------------------
  // CSV export

  const HEADER: seq<string> := ["Date", "Type", "Category", "Description", "Amount"]

  /** The category column: the table name of a known id (every name is non-empty),
      otherwise the stored id itself. */
  function CategoryCell(id: string): (cell: string)
    ensures FindCategory(CATEGORIES, id).None? ==> cell == id
    ensures FindCategory(CATEGORIES, id).Some? ==> cell == FindCategory(CATEGORIES, id).value.name
  {
    match FindCategory(CATEGORIES, id)
    case None => id
    case Some(c) =>
      CategoryNames();
      if c.name != "" then c.name else id
  }

  /** Every table name is a non-empty single line. */
  lemma CategoryNames()
    ensures forall k :: 0 <= k < |CATEGORIES| ==> |CATEGORIES[k].name| > 0 && '\n' !in CATEGORIES[k].name
  {
    forall k | 0 <= k < |CATEGORIES| ensures |CATEGORIES[k].name| > 0 && '\n' !in CATEGORIES[k].name {
      NameSingleLine(k);
    }
  }

  lemma NameSingleLine(k: nat)
    requires k < |CATEGORIES|
    ensures |CATEGORIES[k].name| > 0 && '\n' !in CATEGORIES[k].name
  {
    var n := CATEGORIES[k].name;
    assert n in ["Food & Dining", "Transport", "Shopping", "Entertainment", "Bills & Utilities", "Health",
                 "Education", "Travel", "Savings", "Other"];
  }

  /** Each table id is shown as its own name; an id outside the table is shown as is. */
  lemma CategoryCellNames(i: nat, id: string)
    requires i < |CATEGORIES|
    ensures CategoryCell(CATEGORIES[i].id) == CATEGORIES[i].name
    ensures id !in CategoryIds(CATEGORIES) ==> CategoryCell(id) == id
  {
    CategoriesWellFormed();
    FindCategoryAt(CATEGORIES, i);
  }

  /** A cell between double quotes, with nothing inside escaped. */
  function Quote(cell: string): (q: string)
    ensures |q| == |cell| + 2 && q[0] == '"' && q[|q| - 1] == '"' && q[1..|q| - 1] == cell
  {
    "\"" + cell + "\""
  }

  function QuoteAll(cells: seq<string>): (r: seq<string>)
    ensures |r| == |cells|
    ensures forall k :: 0 <= k < |cells| ==> r[k] == Quote(cells[k])
  {
    seq(|cells|, k requires 0 <= k < |cells| => Quote(cells[k]))
  }

  /** The five cells of one record, in header order. */
  function Cells(t: Transaction, dateText: Date -> string, amountText: real -> string): seq<string> {
    [dateText(t.date), TxTypeId(t.kind), CategoryCell(t.category), t.description, amountText(t.amount)]
  }

  /** One CSV line per record: its cells quoted and joined by commas. */
  function Row(t: Transaction, dateText: Date -> string, amountText: real -> string): string {
    Join(QuoteAll(Cells(t, dateText, amountText)), ",")
  }

  /** The header line followed by one line per record, in the sorted order. */
  function CsvLines(sorted: seq<Transaction>, dateText: Date -> string, amountText: real -> string): (lines: seq<string>)
    ensures |lines| == 1 + |sorted|
    ensures lines[0] == "Date" + "," + "Type" + "," + "Category" + "," + "Description" + "," + "Amount"
    ensures forall k :: 0 <= k < |sorted| ==> lines[k + 1] == Row(sorted[k], dateText, amountText)
  {
    HeaderLine();
    [Join(HEADER, ",")] + Rows(sorted, dateText, amountText)
  }

  /** One line per record, in the given order. */
  function Rows(sorted: seq<Transaction>, dateText: Date -> string, amountText: real -> string): (rows: seq<string>)
    ensures |rows| == |sorted|
    ensures forall k :: 0 <= k < |sorted| ==> rows[k] == Row(sorted[k], dateText, amountText)
  {
    seq(|sorted|, k requires 0 <= k < |sorted| => Row(sorted[k], dateText, amountText))
  }

  /** The header cells joined by commas. */
  lemma HeaderLine()
    ensures Join(HEADER, ",") == "Date" + "," + "Type" + "," + "Category" + "," + "Description" + "," + "Amount"
  {
    var a: seq<string> := ["Amount"];
    var b := ["Description"] + a;
    var c := ["Category"] + b;
    var d := ["Type"] + c;
    assert HEADER == ["Date"] + d;
    JoinCons("Description", a, ",");
    JoinCons("Category", b, ",");
    JoinCons("Type", c, ",");
    JoinCons("Date", d, ",");
  }

  /** The exported text: the lines joined by line feeds. */
  function Csv(sorted: seq<Transaction>, dateText: Date -> string, amountText: real -> string): string {
    Join(CsvLines(sorted, dateText, amountText), "\n")
  }

  /** No cell of the record holds a line feed. */
  predicate SingleLine(t: Transaction, dateText: Date -> string, amountText: real -> string) {
    '\n' !in dateText(t.date) && '\n' !in t.category && '\n' !in t.description && '\n' !in amountText(t.amount)
  }

  /** When no cell holds a line feed, splitting the export at line feeds gives back
      the header and one line per record, so the export has `1 + |sorted|` lines. */
  lemma CsvLineCount(sorted: seq<Transaction>, dateText: Date -> string, amountText: real -> string)
    requires forall k :: 0 <= k < |sorted| ==> SingleLine(sorted[k], dateText, amountText)
    ensures Split(Csv(sorted, dateText, amountText), '\n') == CsvLines(sorted, dateText, amountText)
    ensures |Split(Csv(sorted, dateText, amountText), '\n')| == 1 + |sorted|
  {
    var lines := CsvLines(sorted, dateText, amountText);
    JoinWithout(HEADER, ",", '\n');
    forall k | 1 <= k < |lines| ensures '\n' !in lines[k] {
      assert SingleLine(sorted[k - 1], dateText, amountText);
      RowSingleLine(sorted[k - 1], dateText, amountText);
    }
    SplitJoin(lines, '\n');
  }

  lemma RowSingleLine(t: Transaction, dateText: Date -> string, amountText: real -> string)
    requires SingleLine(t, dateText, amountText)
    ensures '\n' !in Row(t, dateText, amountText)
  {
    CategoryCellLine(t.category);
    TypeIdSingleLine(t.kind);
    var cells := Cells(t, dateText, amountText);
    FiveSingle(dateText(t.date), TxTypeId(t.kind), CategoryCell(t.category), t.description, amountText(t.amount));
    assert cells == [dateText(t.date), TxTypeId(t.kind), CategoryCell(t.category), t.description, amountText(t.amount)];
    CellsSingleLine(cells);
  }

  lemma FiveSingle(a: string, b: string, c: string, d: string, e: string)
    requires '\n' !in a && '\n' !in b && '\n' !in c && '\n' !in d && '\n' !in e
    ensures forall k :: 0 <= k < 5 ==> '\n' !in [a, b, c, d, e][k]
  {
  }

  /** Quoting and joining single-line cells gives a single line. */
  lemma CellsSingleLine(cells: seq<string>)
    requires forall k :: 0 <= k < |cells| ==> '\n' !in cells[k]
    ensures '\n' !in Join(QuoteAll(cells), ",")
  {
    forall k | 0 <= k < |cells| ensures '\n' !in QuoteAll(cells)[k] {
      QuoteSingleLine(cells[k]);
    }
    JoinWithout(QuoteAll(cells), ",", '\n');
  }

  lemma TypeIdSingleLine(k: TxType)
    ensures '\n' !in TxTypeId(k)
  {
    if k == Expense { assert TxTypeId(k) == "expense"; } else { assert TxTypeId(k) == "income"; }
  }

  lemma QuoteSingleLine(cell: string)
    requires '\n' !in cell
    ensures '\n' !in Quote(cell)
  {
    assert Quote(cell) == ['"'] + cell + ['"'];
  }

  /** A category cell holds a line feed only if the stored id does. */
  lemma CategoryCellLine(id: string)
    requires '\n' !in id
    ensures '\n' !in CategoryCell(id)
  {
    CategoryNames();
  }

  /** Reads one quoted field from the front of `s` the way section 2 of RFC 4180
      defines it: inside the quotes a doubled quote stands for one quote, and a single
      quote closes the field. Yields the field's text and what follows the closing
      quote. */
  function ReadQuoted(s: string): Option<(string, string)> {
    if |s| == 0 || s[0] != '"' then None else ReadQuotedBody(s[1..])
  }

  function ReadQuotedBody(s: string): Option<(string, string)>
    decreases |s|
  {
    if |s| == 0 then None
    else if s[0] == '"' then
      if |s| >= 2 && s[1] == '"' then
        match ReadQuotedBody(s[2..])
        case None => None
        case Some(v) => Some(("\"" + v.0, v.1))
      else Some(("", s[1..]))
    else
      match ReadQuotedBody(s[1..])
      case None => None
      case Some(v) => Some(([s[0]] + v.0, v.1))
  }

  /** A cell without double quotes is read back whole, followed by the rest of the
      line, as long as that rest does not itself open with a quote (in the export it
      opens with a comma or a line feed, or is empty). */
  lemma QuotedCellReadsBack(cell: string, rest: string)
    requires '"' !in cell
    requires |rest| == 0 || rest[0] != '"'
    ensures ReadQuoted(Quote(cell) + rest) == Some((cell, rest))
  {
    assert (Quote(cell) + rest)[1..] == cell + ("\"" + rest);
    BodyReadsBack(cell, rest);
  }

  lemma {:induction false} BodyReadsBack(cell: string, rest: string)
    requires '"' !in cell
    requires |rest| == 0 || rest[0] != '"'
    ensures ReadQuotedBody(cell + ("\"" + rest)) == Some((cell, rest))
  {
    var s := cell + ("\"" + rest);
    if |cell| == 0 {
      assert s == "\"" + rest;
      assert s[1..] == rest;
    } else {
      assert s[0] == cell[0];
      assert s[1..] == cell[1..] + ("\"" + rest);
      BodyReadsBack(cell[1..], rest);
      assert [cell[0]] + cell[1..] == cell;
    }
  }

  /** The export does not escape quotes, so a description holding one is cut short
      when the file is read back: `5" screen` comes back as `5`, and the remainder
      spills into the next field. */
  lemma EmbeddedQuoteIsMisread()
    ensures ReadQuoted(Quote("5\" screen") + ",") == Some(("5", " screen\","))
  {
    var s := Quote("5\" screen") + ",";
    assert s == "\"5\" screen\",";
    assert s[1..] == "5\" screen\",";
    assert s[1..][1..] == "\" screen\",";
    var t := "5\" screen\",";
    var u := "\" screen\",";
    assert t[0] == '5' && t[1..] == u;
    assert u[0] == '"' && u[1] == ' ' && u[1..] == " screen\",";
    assert ReadQuotedBody(u) == Some(("", " screen\","));
    assert ReadQuotedBody(t) == Some((['5'] + "", " screen\","));
    assert ['5'] + "" == "5";
    assert ReadQuotedBody("5\" screen\",") == Some(("5", " screen\","));
  }
}

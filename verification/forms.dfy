/** The checks the forms run before they touch the store, each returning the first
    failing check's message or the values to save, and the small helpers the forms
    share: the initials of a name and the category picker. A number field enters as
    its text together with what `parseFloat` makes of it (nothing for NaN). */
module Forms {
  import opened Wrappers
  import opened Domain
  import opened Seqs
  import opened Text
  import opened Store

  /** A number input: the text typed and the number `parseFloat` reads from it. */
  datatype NumberField = NumberField(text: string, parsed: Option<real>)

  // ---------------------------------------------------------------------------
  // Add / edit transaction

  const AMOUNT_ERROR := "Please enter a valid amount"
  const CATEGORY_ERROR := "Please select a category"
  const DESCRIPTION_ERROR := "Please enter a description"

  /** Something was typed, it reads as a number, and that number is positive. */
  predicate PositiveNumber(f: NumberField) {
    f.text != "" && f.parsed.Some? && f.parsed.value > 0.0
  }

  /** Every character is white space (so `trim()` leaves nothing). */
  predicate Blank(s: string) {
    forall i :: 0 <= i < |s| ==> IsSpace(s[i])
  }

  /** What the transaction form saves: type, amount, category, trimmed description
      and date. */
  datatype Draft = Draft(kind: TxType, amount: real, category: string, description: string, date: Date)

  /** The transaction form's checks, in order: amount, then category, then
      description. */
  function ValidateExpense(kind: TxType, amount: NumberField, category: string, description: string, date: Date): (r: Result<Draft, string>)
    ensures r == Failure(AMOUNT_ERROR) <==> !PositiveNumber(amount)
    ensures r == Failure(CATEGORY_ERROR) <==> PositiveNumber(amount) && category == ""
    ensures r == Failure(DESCRIPTION_ERROR) <==> PositiveNumber(amount) && category != "" && Blank(description)
    ensures r.Success? <==> PositiveNumber(amount) && category != "" && !Blank(description)
    ensures r.Success? ==>
              r.value == Draft(kind, amount.parsed.value, category, Trim(description), date)
              && r.value.amount > 0.0 && r.value.description != ""
  {
    TrimEmptyIff(description);
    if !PositiveNumber(amount) then Failure(AMOUNT_ERROR)
    else if category == "" then Failure(CATEGORY_ERROR)
    else if Trim(description) == "" then Failure(DESCRIPTION_ERROR)
    else Success(Draft(kind, amount.parsed.value, category, Trim(description), date))
  }

  /** What a valid submission does: a new record is added, or the record being edited
      is updated under its own id with every form field. */
  datatype ExpenseAction = AddNew(draft: Draft) | UpdateExisting(id: string, patch: ExpensePatch)

  /** The patch an edit sends: every form field, never the id. */
  function DraftPatch(d: Draft): (p: ExpensePatch)
    ensures p.id.None?
    ensures forall t: Transaction :: MergeExpense(t, p) == Transaction(t.id, d.amount, d.category, d.description, d.date, d.kind)
  {
    ExpensePatch(None, Some(d.amount), Some(d.category), Some(d.description), Some(d.date), Some(d.kind))
  }

  /** `handleSubmit` of the transaction form: with a failed check nothing is sent
      (and the dialog stays open); otherwise exactly one store call, an update of
      the edited record's id in edit mode and an add otherwise. */
  function SubmitExpense(editing: Option<Transaction>, kind: TxType, amount: NumberField, category: string,
                         description: string, date: Date): (r: Result<ExpenseAction, string>)
    ensures r.Failure? <==> ValidateExpense(kind, amount, category, description, date).Failure?
    ensures r.Failure? ==> r.error == ValidateExpense(kind, amount, category, description, date).error
    ensures r.Success? && editing.Some? ==>
              r.value.UpdateExisting? && r.value.id == editing.value.id
              && r.value.patch == DraftPatch(ValidateExpense(kind, amount, category, description, date).value)
    ensures r.Success? && editing.None? ==>
              r.value == AddNew(ValidateExpense(kind, amount, category, description, date).value)
  {
    match ValidateExpense(kind, amount, category, description, date)
    case Failure(e) => Failure(e)
    case Success(d) =>
      if editing.Some? then Success(UpdateExisting(editing.value.id, DraftPatch(d))) else Success(AddNew(d))
  }

  // ---------------------------------------------------------------------------
  // Settings profile

  const NAME_ERROR := "Name is required"
  const BUDGET_ERROR := "Please enter a valid budget"

  /** The profile form: the name first, then the budget, which may be 0 but not
      negative or unreadable. On success the update carries exactly the trimmed name
      and the budget. */
  function ValidateProfile(name: string, budget: NumberField): (r: Result<UserPatch, string>)
    ensures r == Failure(NAME_ERROR) <==> Blank(name)
    ensures r == Failure(BUDGET_ERROR) <==> !Blank(name) && (budget.parsed.None? || budget.parsed.value < 0.0)
    ensures r.Success? ==>
              budget.parsed.Some? && budget.parsed.value >= 0.0
              && r.value == NoChange.(name := Some(Trim(name)), monthlyBudget := Some(budget.parsed.value))
  {
    TrimEmptyIff(name);
    if Trim(name) == "" then Failure(NAME_ERROR)
    else if budget.parsed.None? || budget.parsed.value < 0.0 then Failure(BUDGET_ERROR)
    else Success(NoChange.(name := Some(Trim(name)), monthlyBudget := Some(budget.parsed.value)))
  }

  /** Saving a profile changes the name and budget and nothing else. */
  lemma ProfileSaveTouchesNameAndBudget(user: User, name: string, budget: NumberField)
    requires ValidateProfile(name, budget).Success?
    ensures UpdateUser(Some(user), ValidateProfile(name, budget).value) ==
              Some(user.(name := Trim(name), monthlyBudget := budget.parsed.value))
  {
  }

  // ---------------------------------------------------------------------------
  // Onboarding budget

  const ONBOARDING_BUDGET_ERROR := "Please enter a valid budget amount"

  /** The onboarding budget step accepts only a positive budget. */
  function ValidateOnboardingBudget(budget: NumberField): (r: Result<real, string>)
    ensures r.Failure? <==> !PositiveNumber(budget)
    ensures r.Failure? ==> r.error == ONBOARDING_BUDGET_ERROR
    ensures r.Success? ==> r.value > 0.0 && Some(r.value) == budget.parsed
  {
    if !PositiveNumber(budget) then Failure(ONBOARDING_BUDGET_ERROR) else Success(budget.parsed.value)
  }

  /** A budget of 0 is refused during onboarding but accepted in Settings. */
  lemma ZeroBudgetContrast(name: string)
    requires !Blank(name)
    ensures ValidateOnboardingBudget(NumberField("0", Some(0.0))).Failure?
    ensures ValidateProfile(name, NumberField("0", Some(0.0))).Success?
  {
  }

  // ---------------------------------------------------------------------------
  // Sign-in and password reset

  const FILL_ALL_ERROR := "Please fill in all fields"
  const CREDENTIALS_ERROR := "Invalid credentials"
  const EMAIL_ERROR := "Please enter your email"

  const DEMO_EMAIL := "demo@financeflow.com"

  /** The sign-in form sends the credentials only when both fields are non-empty
      (white space counts as content). */
  function ValidateLogin(email: string, password: string): (r: Result<(string, string), string>)
    ensures r.Failure? <==> email == "" || password == ""
    ensures r.Failure? ==> r.error == FILL_ALL_ERROR
    ensures r.Success? ==> r.value == (email, password)
  {
    if email == "" || password == "" then Failure(FILL_ALL_ERROR) else Success((email, password))
  }

  /** The reset form only needs a non-empty address. */
  function ValidateForgot(email: string): (r: Option<string>)
    ensures r.Some? <==> email == ""
    ensures r.Some? ==> r.value == EMAIL_ERROR
  {
    if email == "" then Some(EMAIL_ERROR) else None
  }

  // ---------------------------------------------------------------------------
  // Initials

  /** A piece of `split(' ')` with at least one character. */
  predicate IsWord(w: string) {
    |w| > 0
  }

  /** The first character of every non-empty word, in order (`n[0]` of an empty word
      is undefined and joins as nothing). */
  function FirstLetters(words: seq<string>): (r: string)
    ensures |r| <= |words|
    ensures |r| == |Filter(words, IsWord)|
    ensures forall i :: 0 <= i < |r| ==> r[i] == Filter(words, IsWord)[i][0]
  {
    if |words| == 0 then ""
    else
      var rest := FirstLetters(words[1..]);
      if IsWord(words[0]) then
        assert Filter(words, IsWord) == [words[0]] + Filter(words[1..], IsWord);
        [words[0][0]] + rest
      else
        assert Filter(words, IsWord) == Filter(words[1..], IsWord);
        rest
  }

  /** `getInitials`: the first letters of the space-separated words, upper-cased,
      at most two of them. */
  function Initials(name: string): (r: string)
    ensures |r| <= 2
    ensures |r| == if |Filter(Split(name, ' '), IsWord)| < 2 then |Filter(Split(name, ' '), IsWord)| else 2
    ensures forall i :: 0 <= i < |r| ==> r[i] == UpperChar(Filter(Split(name, ' '), IsWord)[i][0])
    ensures forall i :: 0 <= i < |r| ==> !('a' <= r[i] <= 'z') && r[i] != ' '
  {
    var words := Split(name, ' ');
    var letters := FirstLetters(words);
    assert forall i :: 0 <= i < |letters| ==> letters[i] != ' ' by {
      forall i | 0 <= i < |letters| ensures letters[i] != ' ' {
        var w := Filter(words, IsWord)[i];
        var k :| 0 <= k < |words| && words[k] == w;
        assert w[0] in words[k];
      }
    }
    UpperHasNoLower(letters);
    Take(ToUpper(letters), 2)
  }

  /** A first and a last name give the upper-cased first letter of each. */
  lemma InitialsOfFullName(first: string, last: string)
    requires |first| > 0 && |last| > 0 && ' ' !in first && ' ' !in last
    ensures Initials(first + " " + last) == [UpperChar(first[0]), UpperChar(last[0])]
  {
    var parts := [first, last];
    assert Join(parts, " ") == first + " " + last by {
      JoinCons(first, [last], " ");
    }
    SplitJoin(parts, ' ');
    assert FirstLetters(parts[1..]) == [last[0]];
  }

  /** The avatar text: the initials of the signed-in user, or "U". A name that does
      not start with a space always shows its own first letter, upper-cased, first. */
  function Avatar(user: Option<User>): (r: string)
    ensures user.None? ==> r == "U"
    ensures user.Some? ==> r == Initials(user.value.name) && |r| <= 2
    ensures user.Some? && |user.value.name| > 0 && user.value.name[0] != ' ' ==>
              |r| >= 1 && r[0] == UpperChar(user.value.name[0])
  {
    if user.Some? then
      FirstWordLeads(user.value.name);
      Initials(user.value.name)
    else "U"
  }

  /** A name that does not start with a space has that first character as the first
      letter of its first word. */
  lemma FirstWordLeads(name: string)
    ensures |name| > 0 && name[0] != ' ' ==>
              |Filter(Split(name, ' '), IsWord)| >= 1 && Filter(Split(name, ' '), IsWord)[0][0] == name[0]
  {
    if |name| > 0 && name[0] != ' ' {
      var words := Split(name, ' ');
      if ' ' in name {
        var i := IndexOf(name, ' ');
        assert words[0] == name[..i];
      }
      assert IsWord(words[0]) && words[0][0] == name[0];
      assert Filter(words, IsWord) == [words[0]] + Filter(words[1..], IsWord);
    }
  }

  // ---------------------------------------------------------------------------
  // Category picker

  /** No id occurs twice. */
  predicate NoDuplicates(s: seq<string>) {
    forall i, j :: 0 <= i < j < |s| ==> s[i] != s[j]
  }

  function IsNot(id: string): string -> bool {
    x => x != id
  }

  /** `toggleCategory`: removes every occurrence of a selected id, or appends an
      unselected one at the end. */
  function ToggleCategory(selected: seq<string>, id: string): (r: seq<string>)
    ensures id in selected ==> id !in r && forall i :: 0 <= i < |selected| && selected[i] != id ==> selected[i] in r
    ensures id in selected ==> forall i :: 0 <= i < |r| ==> r[i] in selected
    ensures id !in selected ==> |r| == |selected| + 1 && r[..|selected|] == selected && r[|selected|] == id
  {
    if id in selected then Filter(selected, IsNot(id)) else selected + [id]
  }

  /** Toggling keeps the selection free of duplicates, and toggling the same id twice
      gives back the same set of ids (the very same list when the id was unselected). */
  lemma ToggleLaws(selected: seq<string>, id: string)
    ensures NoDuplicates(selected) ==> NoDuplicates(ToggleCategory(selected, id))
    ensures forall x :: x in ToggleCategory(ToggleCategory(selected, id), id) <==> x in selected
    ensures id !in selected ==> ToggleCategory(ToggleCategory(selected, id), id) == selected
  {
    if id in selected {
      if NoDuplicates(selected) {
        FilterNoDuplicates(selected, IsNot(id));
      }
    } else {
      var once := selected + [id];
      FilterAppend(selected, [id], IsNot(id));
      FilterKeepsAll(selected, IsNot(id));
      FilterDropsAll([id], IsNot(id));
      assert ToggleCategory(once, id) == selected;
    }
  }

  lemma {:induction false} FilterNoDuplicates(s: seq<string>, p: string -> bool)
    requires NoDuplicates(s)
    ensures NoDuplicates(Filter(s, p))
  {
    if |s| > 0 {
      FilterNoDuplicates(s[1..], p);
      var rest := Filter(s[1..], p);
      assert s[0] !in s[1..];
      assert s[0] !in rest;
    }
  }

  /** The ids saved at the end of onboarding: the selection, or the whole table when
      nothing was picked. */
  function CategoriesToSave(selected: seq<string>): (r: seq<string>)
    ensures |selected| > 0 ==> r == selected
    ensures |selected| == 0 ==> |r| == 10 && r == CategoryIds(CATEGORIES) && NoDuplicates(r)
  {
    CategoriesWellFormed();
    if |selected| > 0 then selected else CategoryIds(CATEGORIES)
  }
}

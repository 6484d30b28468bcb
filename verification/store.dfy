/** The shared store: the transaction list and the user profile, and the operations
    that change them. The database round trip of `addExpense` enters as its outcome:
    the inserted row, or an error. */
module Store {
  import opened Wrappers
  import opened Domain
  import opened Seqs
  import opened Text

  // ---------------------------------------------------------------------------
  // Transactions

  /** Every record whose id is not `id`. */
  function IdIsNot(id: string): Transaction -> bool {
    (t: Transaction) => t.id != id
  }

  /** The ids of `ts`, in list order. */
  function Ids(ts: seq<Transaction>): (ids: seq<string>)
    ensures |ids| == |ts|
    ensures forall i :: 0 <= i < |ts| ==> ids[i] == ts[i].id
  {
    seq(|ts|, i requires 0 <= i < |ts| => ts[i].id)
  }

  /** `deleteExpense(id)`: drops exactly the records carrying `id`, every one of them. */
  function DeleteExpense(ts: seq<Transaction>, id: string): (r: seq<Transaction>)
    ensures forall i :: 0 <= i < |r| ==> r[i].id != id && r[i] in ts
    ensures forall i :: 0 <= i < |ts| && ts[i].id != id ==> ts[i] in r
  {
    Filter(ts, IdIsNot(id))
  }

  /** Deleting works piece by piece, so the records that stay keep their relative order. */
  lemma DeleteKeepsOrder(a: seq<Transaction>, b: seq<Transaction>, id: string)
    ensures DeleteExpense(a + b, id) == DeleteExpense(a, id) + DeleteExpense(b, id)
  {
    FilterAppend(a, b, IdIsNot(id));
  }

  /** Deleting an id no record carries changes nothing; deleting twice is deleting once. */
  lemma DeleteAbsent(ts: seq<Transaction>, id: string)
    ensures id !in Ids(ts) ==> DeleteExpense(ts, id) == ts
    ensures DeleteExpense(DeleteExpense(ts, id), id) == DeleteExpense(ts, id)
  {
    if id !in Ids(ts) {
      assert forall i :: 0 <= i < |ts| ==> Ids(ts)[i] != id;
      FilterKeepsAll(ts, IdIsNot(id));
    }
    var r := DeleteExpense(ts, id);
    FilterKeepsAll(r, IdIsNot(id));
  }

  /** The fields a partial update may carry (`Partial<Expense>`). */
  datatype ExpensePatch = ExpensePatch(
    id: Option<string>,
    amount: Option<real>,
    category: Option<string>,
    description: Option<string>,
    date: Option<Date>,
    kind: Option<TxType>)

  /** `{ ...t, ...patch }`: the patch's fields win, the others are kept. */
  function MergeExpense(t: Transaction, p: ExpensePatch): (r: Transaction)
    ensures p.id.None? ==> r.id == t.id
    ensures p.amount.None? ==> r.amount == t.amount
    ensures p.category.None? ==> r.category == t.category
    ensures p.description.None? ==> r.description == t.description
    ensures p.date.None? ==> r.date == t.date
    ensures p.kind.None? ==> r.kind == t.kind
    ensures p.amount.Some? ==> r.amount == p.amount.value
    ensures p.description.Some? ==> r.description == p.description.value
    ensures p.id.Some? ==> r.id == p.id.value
    ensures p.category.Some? ==> r.category == p.category.value
    ensures p.date.Some? ==> r.date == p.date.value
    ensures p.kind.Some? ==> r.kind == p.kind.value
  {
    Transaction(
      p.id.GetOr(t.id),
      p.amount.GetOr(t.amount),
      p.category.GetOr(t.category),
      p.description.GetOr(t.description),
      p.date.GetOr(t.date),
      p.kind.GetOr(t.kind))
  }

  /** Merging the same patch again changes nothing more. */
  lemma MergeIdempotent(t: Transaction, p: ExpensePatch)
    ensures MergeExpense(MergeExpense(t, p), p) == MergeExpense(t, p)
  {
  }

  /** `updateExpense(id, patch)`: same length and order; the records carrying `id`
      get the patch merged in, every other record stays as it was. */
  function UpdateExpense(ts: seq<Transaction>, id: string, p: ExpensePatch): (r: seq<Transaction>)
    ensures |r| == |ts|
    ensures forall i :: 0 <= i < |ts| && ts[i].id != id ==> r[i] == ts[i]
    ensures forall i :: 0 <= i < |ts| && ts[i].id == id ==> r[i] == MergeExpense(ts[i], p)
  {
    seq(|ts|, i requires 0 <= i < |ts| => if ts[i].id == id then MergeExpense(ts[i], p) else ts[i])
  }

  /** An update that does not touch ids keeps the id list, and an update of an id no
      record carries changes nothing. */
  lemma UpdateKeepsIds(ts: seq<Transaction>, id: string, p: ExpensePatch)
    ensures p.id.None? ==> Ids(UpdateExpense(ts, id, p)) == Ids(ts)
    ensures id !in Ids(ts) ==> UpdateExpense(ts, id, p) == ts
  {
    if id !in Ids(ts) {
      assert forall i :: 0 <= i < |ts| ==> Ids(ts)[i] != id;
    }
  }

  /** `addExpense`: nothing happens without a signed-in user or when the insert
      fails; otherwise the row the database returned goes to the front. */
  function AddExpense(user: Option<User>, ts: seq<Transaction>, inserted: Result<Transaction, string>): (r: seq<Transaction>)
    ensures user.None? || inserted.Failure? ==> r == ts
    ensures user.Some? && inserted.Success? ==> |r| == |ts| + 1 && r[0] == inserted.value && r[1..] == ts
  {
    if user.None? then ts
    else match inserted
      case Failure(_) => ts
      case Success(row) => [row] + ts
  }

  /** Deleting the row just added restores the list, provided its id was new. */
  lemma AddThenDelete(user: Option<User>, ts: seq<Transaction>, row: Transaction)
    requires row.id !in Ids(ts)
    ensures DeleteExpense(AddExpense(user, ts, Success(row)), row.id) == ts
  {
    DeleteAbsent(ts, row.id);
    if user.Some? {
      assert AddExpense(user, ts, Success(row)) == [row] + ts;
      DeleteKeepsOrder([row], ts, row.id);
    }
  }

  // ---------------------------------------------------------------------------
  // Profile and theme

  /** The fields a profile update may carry (`Partial<User>`). */
  datatype UserPatch = UserPatch(
    id: Option<string>,
    name: Option<string>,
    email: Option<string>,
    monthlyBudget: Option<real>,
    selectedCategories: Option<seq<string>>,
    onboardingComplete: Option<bool>)

  const NoChange := UserPatch(None, None, None, None, None, None)

  /** `updateUser(patch)`: nothing without a user; otherwise `{ ...user, ...patch }`. */
  function UpdateUser(user: Option<User>, p: UserPatch): (r: Option<User>)
    ensures user.None? <==> r.None?
    ensures r.Some? ==>
              r.value.id == p.id.GetOr(user.value.id)
              && r.value.name == p.name.GetOr(user.value.name)
              && r.value.email == p.email.GetOr(user.value.email)
              && r.value.monthlyBudget == p.monthlyBudget.GetOr(user.value.monthlyBudget)
              && r.value.selectedCategories == p.selectedCategories.GetOr(user.value.selectedCategories)
              && r.value.onboardingComplete == p.onboardingComplete.GetOr(user.value.onboardingComplete)
  {
    match user
    case None => None
    case Some(u) => Some(User(
      p.id.GetOr(u.id),
      p.name.GetOr(u.name),
      p.email.GetOr(u.email),
      p.monthlyBudget.GetOr(u.monthlyBudget),
      p.selectedCategories.GetOr(u.selectedCategories),
      p.onboardingComplete.GetOr(u.onboardingComplete)))
  }

  /** An empty patch changes nothing, the same patch twice is the patch once, and a
      patch naming only the budget touches only the budget. */
  lemma UpdateUserLaws(user: Option<User>, p: UserPatch, budget: real)
    ensures UpdateUser(user, NoChange) == user
    ensures UpdateUser(UpdateUser(user, p), p) == UpdateUser(user, p)
    ensures user.Some? ==>
              UpdateUser(user, NoChange.(monthlyBudget := Some(budget))) == Some(user.value.(monthlyBudget := budget))
  {
  }

  /** `toggleTheme`. */
  function ToggleTheme(t: Theme): (r: Theme)
    ensures r != t
  {
    if t == Light then Dark else Light
  }

  lemma ToggleThemeTwice(t: Theme)
    ensures ToggleTheme(ToggleTheme(t)) == t
  {
  }

  // ---------------------------------------------------------------------------
  // Signing in

  /** `email?.split("@")[0] || "User"`: the part before the first '@', or "User" when
      that part is empty. */
  function NameFromEmail(email: string): (name: string)
    ensures name != "" && '@' !in name
    ensures name == "User" || (|name| <= |email| && name == email[..|name|] && (|name| == |email| || email[|name|] == '@'))
  {
    var first := Split(email, '@')[0];
    SplitFirst(email, '@');
    if first == "" then "User" else first
  }

  /** The first piece of a split is the prefix before the first separator. */
  lemma SplitFirst(s: string, sep: char)
    ensures var f := Split(s, sep)[0];
            |f| <= |s| && f == s[..|f|] && (|f| == |s| || s[|f|] == sep)
  {
    if sep in s {
      var i := IndexOf(s, sep);
      assert Split(s, sep)[0] == s[..i];
    }
  }

  /** An address without '@' is its own name; otherwise the name stops at the '@'. */
  lemma NameFromEmailCases(local: string, domain: string)
    requires local != "" && '@' !in local
    ensures NameFromEmail(local) == local
    ensures NameFromEmail(local + "@" + domain) == local
    ensures NameFromEmail("@" + domain) == "User"
  {
    var e := local + "@" + domain;
    assert e[|local|] == '@';
    assert e[..|local|] == local;
    assert IndexOf(e, '@') == |local|;
    var f := "@" + domain;
    assert f[0] == '@';
    assert IndexOf(f, '@') == 0;
  }

  /** The profile built after a sign-in or a restored session: the name taken from
      the address, an empty budget and category list, onboarding considered done. */
  function SignedInUser(id: string, email: string): (u: User)
    ensures u.onboardingComplete && u.monthlyBudget == 0.0 && u.selectedCategories == []
    ensures u.id == id && u.email == email && u.name == NameFromEmail(email)
  {
    User(id, NameFromEmail(email), email, 0.0, [], true)
  }

  /** The profile built after a sign-up: the name and address as entered, an empty
      budget, onboarding still to do. */
  function SignedUpUser(id: string, name: string, email: string): (u: User)
    ensures !u.onboardingComplete && u.monthlyBudget == 0.0 && u.selectedCategories == []
    ensures u.id == id && u.name == name && u.email == email
  {
    User(id, name, email, 0.0, [], false)
  }
}

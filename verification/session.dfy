/** The app as one state machine: the shared store (user, transactions, theme, current
    screen, loading flag), the request the authentication service has not answered
    yet, and the local state of the screen on display. Every click, form submission
    and service answer is an `Event`; `Step` is the app's reaction to it. The service's
    answers and the fetched transaction list enter as event parameters. */
module Session {
  import opened Wrappers
  import opened Domain
  import opened Store
  import opened Forms
  import opened Screens
  import opened Text

  /** The transaction dialog. */
  datatype Modal = Closed | Adding | Editing(record: Transaction)

  /** The local state of the screen on display. It is lost whenever another screen
      is rendered, so it starts fresh on every screen change. */
  datatype Ui = Ui(
    error: string,                 // the form's error message (a toast in Settings)
    submitted: bool,               // password reset: the "check your email" view
    selected: seq<string>,         // onboarding: the picked category ids
    pendingDelete: Option<string>, // transaction list: the id awaiting confirmation
    modal: Modal)

  const FRESH_UI := Ui("", false, [], None, Closed)

  /** A sign-in or sign-up sent to the authentication service and not answered yet. */
  datatype AuthRequest = SignIn(email: string, demo: bool) | SignUp(name: string, email: string)

  /** The account the service returns: its id and address. */
  datatype Account = Account(id: string, email: string)

  datatype AppState = AppState(
    user: Option<User>,
    expenses: seq<Transaction>,
    theme: Theme,
    screen: Screen,
    loading: bool,
    pending: Option<AuthRequest>,
    ui: Ui)

  /** A fresh page load: signed out on the sign-in screen, with the stored theme. */
  function Initial(theme: Theme): (st: AppState)
    ensures st.user.None? && st.expenses == [] && st.screen == LoginScreen
    ensures !st.loading && st.pending.None? && st.theme == theme
  {
    AppState(None, [], theme, LoginScreen, false, None, FRESH_UI)
  }

  datatype Event =
    | Click(button: Button)
    | SubmitLogin(email: string, password: string)
    | DemoLogin
    | SubmitSignup(name: string, email: string, password: string)
    | AuthAnswered(outcome: Result<Account, string>, fetched: Option<seq<Transaction>>)
    | SessionRestored(account: Account, fetched: Option<seq<Transaction>>)
    | SignedOut
    | Logout
    | SubmitForgot(email: string)
    | TryAgain
    | SubmitBudget(budget: NumberField)
    | PickCategory(id: string)
    | CompleteOnboarding
    | OpenAdd
    | OpenEdit(record: Transaction)
    | CloseModal
    | SubmitTransaction(kind: TxType, amount: NumberField, category: string, description: string, date: Date,
                        inserted: Result<string, string>)
    | AskDelete(id: string)
    | CancelDelete
    | ConfirmDelete
    | SaveProfile(name: string, budget: NumberField)
    | ToggleThemeClick

  /** `setCurrentScreen`: rendering another screen discards the local state; setting
      the same screen again keeps it. */
  function Goto(st: AppState, s: Screen): (r: AppState)
    ensures r.screen == s
    ensures r.user == st.user && r.expenses == st.expenses && r.theme == st.theme
    ensures r.loading == st.loading && r.pending == st.pending
    ensures r.ui == if s == st.screen then st.ui else FRESH_UI
  {
    if s == st.screen then st else st.(screen := s, ui := FRESH_UI)
  }

  /** The record the database returns for an inserted draft: the draft under the new id. */
  function InsertedRow(d: Draft, inserted: Result<string, string>): (r: Result<Transaction, string>)
    ensures r.Failure? <==> inserted.Failure?
    ensures r.Success? ==>
              r.value == Transaction(inserted.value, d.amount, d.category, d.description, d.date, d.kind)
  {
    match inserted
    case Failure(e) => Failure(e)
    case Success(id) => Success(Transaction(id, d.amount, d.category, d.description, d.date, d.kind))
  }

  /** The events handled by the store's authentication functions. */
  predicate IsAuthEvent(e: Event) {
    e.SubmitLogin? || e.DemoLogin? || e.SubmitSignup? || e.AuthAnswered? || e.SessionRestored?
    || e.SignedOut? || e.Logout?
  }

  /** The events of the budget and category steps of onboarding. */
  predicate IsOnboardingEvent(e: Event) {
    e.SubmitBudget? || e.PickCategory? || e.CompleteOnboarding?
  }

  /** The events of the transaction dialog and the delete confirmation. */
  predicate IsListEvent(e: Event) {
    e.OpenAdd? || e.OpenEdit? || e.CloseModal? || e.SubmitTransaction? || e.AskDelete? || e.CancelDelete?
    || e.ConfirmDelete?
  }

  /** The app's reaction to one event. Events from controls that are not on the
      current screen, or that are disabled, change nothing. */
  function Step(st: AppState, e: Event): (r: AppState)
    ensures Invariant(st) ==> Invariant(r)
    ensures r.theme != st.theme ==> e == ToggleThemeClick
    ensures r.expenses != st.expenses ==>
              e.SubmitTransaction? || e == ConfirmDelete || e.AuthAnswered? || e.SessionRestored?
              || e == SignedOut || e == Logout || e == CompleteOnboarding
    ensures st.user.Some? && r.user.None? ==> e == SignedOut || e == Logout || e == CompleteOnboarding
  {
    if IsAuthEvent(e) then AuthStep(st, e)
    else if IsOnboardingEvent(e) then OnboardingStep(st, e)
    else if IsListEvent(e) then ListStep(st, e)
    else ScreenStep(st, e)
  }

  /** Navigation, the password reset, the profile form and the theme switch. */
  function ScreenStep(st: AppState, e: Event): (r: AppState)
    requires !IsAuthEvent(e) && !IsOnboardingEvent(e) && !IsListEvent(e)
    ensures Invariant(st) ==> Invariant(r)
    ensures r.expenses == st.expenses
    ensures r.theme != st.theme ==> e == ToggleThemeClick
    ensures st.user.Some? ==> r.user.Some?
  {
    match e
    case Click(b) =>
      if Shown(b, st.screen) then
        ButtonsStayInTheirArea(b, st.screen);
        Goto(st, Target(b))
      else st

    case SubmitForgot(email) =>
      if st.screen != ForgotPasswordScreen || st.ui.submitted then st
      else (match ValidateForgot(email)
        case Some(msg) => st.(ui := st.ui.(error := msg))
        case None => st.(ui := st.ui.(error := "", submitted := true)))

    case TryAgain =>
      if st.screen != ForgotPasswordScreen || !st.ui.submitted then st
      else st.(ui := st.ui.(submitted := false))

    case SaveProfile(name, budget) =>
      if st.screen != SettingsScreen then st
      else (match ValidateProfile(name, budget)
        case Failure(msg) => st.(ui := st.ui.(error := msg))
        case Success(p) => st.(user := UpdateUser(st.user, p)))

    case ToggleThemeClick =>
      if !MainScreen(st.screen) then st else st.(theme := ToggleTheme(st.theme))

    case _ => st
  }

  /** Signing in, up and out. A request sets the loading flag until the service
      answers; the sign-in and sign-up buttons are disabled meanwhile. */
  function AuthStep(st: AppState, e: Event): (r: AppState)
    requires IsAuthEvent(e)
    ensures Invariant(st) ==> Invariant(r)
    ensures r.theme == st.theme
    ensures r.expenses != st.expenses ==> e.AuthAnswered? || e.SessionRestored? || e == SignedOut || e == Logout
    ensures st.user.Some? && r.user.None? ==> e == SignedOut || e == Logout
  {
    match e
    case SubmitLogin(email, password) =>
      if st.screen != LoginScreen || st.loading then st
      else (match ValidateLogin(email, password)
        case Failure(msg) => st.(ui := st.ui.(error := msg))
        case Success(_) => st.(loading := true, pending := Some(SignIn(email, false)), ui := st.ui.(error := "")))

    case DemoLogin =>
      if st.screen != LoginScreen || st.loading then st
      else st.(loading := true, pending := Some(SignIn(DEMO_EMAIL, true)))

    case SubmitSignup(name, email, _) =>
      if st.screen != SignupScreen || st.loading then st
      else st.(loading := true, pending := Some(SignUp(name, email)))

    case AuthAnswered(outcome, fetched) =>
      (match st.pending
       case None => st
       case Some(SignIn(_, demo)) =>
         var settled := st.(loading := false, pending := None);
         (match outcome
          case Failure(_) =>
            if st.screen == LoginScreen && !demo then settled.(ui := settled.ui.(error := CREDENTIALS_ERROR))
            else settled
          case Success(a) =>
            Goto(settled.(user := Some(SignedInUser(a.id, a.email)), expenses := fetched.GetOr(st.expenses)),
                 DashboardScreen))
       case Some(SignUp(name, email)) =>
         var settled := st.(loading := false, pending := None);
         (match outcome
          case Failure(_) => settled
          case Success(a) => Goto(settled.(user := Some(SignedUpUser(a.id, name, email))), WelcomeScreen)))

    case SessionRestored(a, fetched) =>
      Goto(st.(user := Some(SignedInUser(a.id, a.email)), expenses := fetched.GetOr(st.expenses)), DashboardScreen)

    case SignedOut =>
      Goto(st.(user := None, expenses := []), LoginScreen)

    case Logout =>
      if st.screen != SettingsScreen then st
      else Goto(st.(user := None, expenses := []), LoginScreen)
  }

  /** The budget and category steps. Completing onboarding with no transactions on
      record reloads the page, which starts the app afresh with the stored theme. */
  function OnboardingStep(st: AppState, e: Event): (r: AppState)
    requires IsOnboardingEvent(e)
    ensures Invariant(st) ==> Invariant(r)
    ensures r.theme == st.theme
    ensures r.expenses != st.expenses || (st.user.Some? && r.user.None?) ==> e == CompleteOnboarding
  {
    match e
    case SubmitBudget(budget) =>
      if st.screen != BudgetScreen then st
      else (match ValidateOnboardingBudget(budget)
        case Failure(msg) => st.(ui := st.ui.(error := msg))
        case Success(amount) =>
          Goto(st.(user := UpdateUser(st.user, NoChange.(monthlyBudget := Some(amount)))), CategoriesScreen))

    case PickCategory(id) =>
      if st.screen != CategoriesScreen then st
      else st.(ui := st.ui.(selected := ToggleCategory(st.ui.selected, id)))

    case CompleteOnboarding =>
      if st.screen != CategoriesScreen then st
      else
        var done := NoChange.(selectedCategories := Some(CategoriesToSave(st.ui.selected)), onboardingComplete := Some(true));
        if |st.expenses| == 0 then Initial(st.theme)
        else Goto(st.(user := UpdateUser(st.user, done)), DashboardScreen)
  }

  /** The transaction dialog (on the Dashboard and the transaction list) and the
      delete confirmation (on the list). Only the list changes in the store. */
  function ListStep(st: AppState, e: Event): (r: AppState)
    requires IsListEvent(e)
    ensures Invariant(st) ==> Invariant(r)
    ensures r.user == st.user && r.theme == st.theme && r.screen == st.screen
    ensures r.expenses != st.expenses ==> e.SubmitTransaction? || e == ConfirmDelete
    ensures e == CloseModal && st.ui.modal == Closed ==> r == st
    ensures e == CloseModal && st.ui.modal != Closed ==> r.ui.modal == Closed && r.ui.error == ""
  {
    match e
    case OpenAdd =>
      if (st.screen != DashboardScreen && st.screen != ExpensesScreen) || st.ui.modal != Closed then st
      else st.(ui := st.ui.(modal := Adding))

    case OpenEdit(t) =>
      if st.screen != ExpensesScreen || st.ui.modal != Closed || t !in st.expenses then st
      else st.(ui := st.ui.(modal := Editing(t)))

    case CloseModal =>
      if st.ui.modal == Closed then st
      else st.(ui := st.ui.(modal := Closed, error := ""))

    case SubmitTransaction(kind, amount, category, description, date, inserted) =>
      if st.ui.modal == Closed then st
      else
        var editing := if st.ui.modal.Editing? then Some(st.ui.modal.record) else None;
        var closed := st.ui.(modal := Closed, error := "");
        (match SubmitExpense(editing, kind, amount, category, description, date)
         case Failure(msg) => st.(ui := st.ui.(error := msg))
         case Success(AddNew(d)) =>
           st.(expenses := AddExpense(st.user, st.expenses, InsertedRow(d, inserted)), ui := closed)
         case Success(UpdateExisting(id, p)) =>
           st.(expenses := UpdateExpense(st.expenses, id, p), ui := closed))

    case AskDelete(id) =>
      if st.screen != ExpensesScreen || id !in Ids(st.expenses) then st
      else st.(ui := st.ui.(pendingDelete := Some(id)))

    case CancelDelete =>
      st.(ui := st.ui.(pendingDelete := None))

    case ConfirmDelete =>
      (match st.ui.pendingDelete
       case None => st
       case Some(id) =>
         if id == "" then st
         else st.(expenses := DeleteExpense(st.expenses, id), ui := st.ui.(pendingDelete := None)))
  }

  /** The events applied one after another. */
  function Run(st: AppState, events: seq<Event>): (r: AppState)
    ensures Invariant(st) ==> Invariant(r)
    decreases |events|
  {
    if |events| == 0 then st
    else Run(Step(st, events[0]), events[1..])
  }

  // ---------------------------------------------------------------------------
  // The invariant

  /** Screens past sign-in always have a user; the loading flag is up exactly while a
      request is out; the dialogs live only on the screens that render them. */
  predicate Invariant(st: AppState) {
    (MainScreen(st.screen) || OnboardingScreen(st.screen) ==> st.user.Some?)
    && (st.loading <==> st.pending.Some?)
    && (st.ui.modal != Closed ==> st.screen == DashboardScreen || st.screen == ExpensesScreen)
    && (st.ui.pendingDelete.Some? ==> st.screen == ExpensesScreen)
  }

  lemma InitialInvariant(theme: Theme)
    ensures Invariant(Initial(theme))
  {
  }

  // ---------------------------------------------------------------------------
  // Signing out

  /** Signing out (the service reporting no session) clears the user and the list and
      shows the sign-in screen, whatever screen was on display; only the theme and a
      request still in flight survive. Signing out from Settings does the same, and the
      service's notice that follows changes nothing more. */
  lemma SignOutClears(st: AppState)
    ensures var r := AuthStep(st, SignedOut);
            r.user.None? && r.expenses == [] && r.screen == LoginScreen && r.theme == st.theme
            && (st.screen != LoginScreen ==> r.ui == FRESH_UI)
    ensures st.screen == SettingsScreen ==>
              AuthStep(st, Logout) == AuthStep(st, SignedOut)
              && AuthStep(AuthStep(st, Logout), SignedOut) == AuthStep(st, Logout)
  {
  }

  // ---------------------------------------------------------------------------
  // Signing in

  /** While a request is out, the sign-in and sign-up buttons do nothing. */
  lemma LoadingGate(st: AppState, email: string, password: string, name: string)
    requires st.loading
    ensures AuthStep(st, SubmitLogin(email, password)) == st
    ensures AuthStep(st, DemoLogin) == st
    ensures AuthStep(st, SubmitSignup(name, email, password)) == st
  {
  }

  /** A sign-in with an empty field sends nothing and shows the fill-in message. */
  lemma EmptyFieldSendsNothing(st: AppState, email: string, password: string)
    requires Invariant(st) && st.screen == LoginScreen && !st.loading
    ensures var r := AuthStep(st, SubmitLogin(email, password));
            (email == "" || password == "") <==> (r.pending.None? && r.ui.error == FILL_ALL_ERROR)
  {
  }

  /** A successful sign-in ends on the dashboard with a profile built from the account,
      onboarding considered done and the fetched list (the old one when the fetch
      failed). */
  lemma SignInSucceeds(st: AppState, email: string, password: string, a: Account, fetched: Option<seq<Transaction>>)
    requires st.screen == LoginScreen && !st.loading
    requires email != "" && password != ""
    ensures var s1 := AuthStep(st, SubmitLogin(email, password));
            s1.loading && s1.pending == Some(SignIn(email, false)) && s1.ui.error == ""
    ensures var r := AuthStep(AuthStep(st, SubmitLogin(email, password)), AuthAnswered(Success(a), fetched));
            r.screen == DashboardScreen && !r.loading && r.pending.None?
            && r.user == Some(SignedInUser(a.id, a.email)) && r.user.value.onboardingComplete
            && r.expenses == fetched.GetOr(st.expenses)
  {
  }

  /** The demo button skips the fill-in check: it sends the demo address with the demo
      flag at once, leaves the form's message alone, and a successful answer opens the
      dashboard signed in to the demo account. */
  lemma DemoLoginSignsIn(st: AppState, a: Account, fetched: Option<seq<Transaction>>)
    requires st.screen == LoginScreen && !st.loading
    ensures var s1 := AuthStep(st, DemoLogin);
            s1.loading && s1.pending == Some(SignIn(DEMO_EMAIL, true)) && s1.ui == st.ui
    ensures var r := AuthStep(AuthStep(st, DemoLogin), AuthAnswered(Success(a), fetched));
            r.screen == DashboardScreen && !r.loading && r.pending.None?
            && r.user == Some(SignedInUser(a.id, a.email))
  {
  }

  /** A refused sign-in stays on the sign-in screen, drops the loading flag, keeps the
      user and shows "Invalid credentials"; a refused demo sign-in shows nothing. */
  lemma SignInRefused(st: AppState, email: string, password: string, msg: string, fetched: Option<seq<Transaction>>)
    requires st.screen == LoginScreen && !st.loading
    requires email != "" && password != ""
    ensures var r := AuthStep(AuthStep(st, SubmitLogin(email, password)), AuthAnswered(Failure(msg), fetched));
            r.screen == LoginScreen && !r.loading && r.pending.None? && r.user == st.user
            && r.expenses == st.expenses && r.ui.error == CREDENTIALS_ERROR
    ensures var r := AuthStep(AuthStep(st, DemoLogin), AuthAnswered(Failure(msg), fetched));
            r.screen == LoginScreen && !r.loading && r.ui.error == st.ui.error
  {
  }

  /** A restored session opens the dashboard with a signed-in profile. */
  lemma RestoreOpensDashboard(st: AppState, a: Account, fetched: Option<seq<Transaction>>)
    ensures var r := AuthStep(st, SessionRestored(a, fetched));
            r.screen == DashboardScreen && r.user == Some(SignedInUser(a.id, a.email))
            && r.user.value.onboardingComplete && r.expenses == fetched.GetOr(st.expenses)
  {
  }

  // ---------------------------------------------------------------------------
  // Signing up and onboarding

  /** A successful sign-up opens the welcome screen with the name and address as
      entered, no budget and onboarding still to do. */
  lemma SignUpSucceeds(st: AppState, name: string, email: string, password: string, a: Account,
                       fetched: Option<seq<Transaction>>)
    requires st.screen == SignupScreen && !st.loading
    ensures var r := AuthStep(AuthStep(st, SubmitSignup(name, email, password)), AuthAnswered(Success(a), fetched));
            r.screen == WelcomeScreen && !r.loading && r.expenses == st.expenses
            && r.user == Some(SignedUpUser(a.id, name, email))
            && r.user.value.monthlyBudget == 0.0 && !r.user.value.onboardingComplete
  {
  }

  /** Onboarding without picking a category: the welcome screen, a positive budget,
      then completion. With transactions on record it ends on the dashboard with the
      budget, every category and onboarding done; with none, the page reloads and the
      app is back on the sign-in screen. */
  lemma OnboardingRun(st: AppState, budget: NumberField)
    requires st.screen == WelcomeScreen && st.user.Some?
    requires PositiveNumber(budget)
    ensures var r := Run(st, [Click(GetStarted), SubmitBudget(budget), CompleteOnboarding]);
            if |st.expenses| > 0 then
              r.screen == DashboardScreen && r.expenses == st.expenses
              && r.user == Some(st.user.value.(monthlyBudget := budget.parsed.value,
                                               selectedCategories := CategoryIds(CATEGORIES),
                                               onboardingComplete := true))
            else
              r == Initial(st.theme)
  {
    var s1 := Step(st, Click(GetStarted));
    assert s1.screen == BudgetScreen && s1.user == st.user;
    var s2 := Step(s1, SubmitBudget(budget));
    assert s2.screen == CategoriesScreen && s2.ui == FRESH_UI;
    assert s2.user == Some(st.user.value.(monthlyBudget := budget.parsed.value));
    var s3 := Step(s2, CompleteOnboarding);
    assert Run(st, [Click(GetStarted), SubmitBudget(budget), CompleteOnboarding]) == Run(s1, [SubmitBudget(budget), CompleteOnboarding]);
    assert Run(s1, [SubmitBudget(budget), CompleteOnboarding]) == Run(s2, [CompleteOnboarding]);
    assert Run(s2, [CompleteOnboarding]) == Run(s3, []);
  }

  /** Picking categories toggles them in the local selection and touches nothing else. */
  lemma PickCategoryToggles(st: AppState, id: string)
    requires st.screen == CategoriesScreen
    ensures var r := OnboardingStep(st, PickCategory(id));
            r.ui.selected == ToggleCategory(st.ui.selected, id) && r.user == st.user && r.screen == st.screen
    ensures OnboardingStep(OnboardingStep(st, PickCategory(id)), PickCategory(id)).ui.selected == ToggleCategory(ToggleCategory(st.ui.selected, id), id)
  {
  }

  // ---------------------------------------------------------------------------
  // Password reset

  /** An empty address shows a message; any other switches to the "check your email"
      view, and "try again" switches back. */
  lemma ForgotFlow(st: AppState, email: string)
    requires st.screen == ForgotPasswordScreen && !st.ui.submitted
    ensures email == "" ==> ScreenStep(st, SubmitForgot(email)).ui == st.ui.(error := EMAIL_ERROR)
    ensures email != "" ==> ScreenStep(st, SubmitForgot(email)).ui.submitted
    ensures email != "" ==> ScreenStep(ScreenStep(st, SubmitForgot(email)), TryAgain).ui == st.ui.(error := "")
  {
  }

  // ---------------------------------------------------------------------------
  // Transactions

  /** Adding through the dialog: an invalid form keeps the dialog open with the
      message and the list unchanged; a valid one closes the dialog and, when the
      insert succeeds, puts the stored row first. */
  lemma AddThroughDialog(st: AppState, kind: TxType, amount: NumberField, category: string, description: string,
                         date: Date, inserted: Result<string, string>)
    requires st.ui.modal == Adding && st.user.Some?
    ensures var v := ValidateExpense(kind, amount, category, description, date);
            var r := ListStep(st, SubmitTransaction(kind, amount, category, description, date, inserted));
            (v.Failure? ==> r.ui.modal == Adding && r.ui.error == v.error && r.expenses == st.expenses)
            && (v.Success? ==> r.ui.modal == Closed)
            && (v.Success? && inserted.Failure? ==> r.expenses == st.expenses)
            && (v.Success? && inserted.Success? ==>
                  r.expenses == [Transaction(inserted.value, amount.parsed.value, category, Trim(description), date, kind)]
                                + st.expenses)
  {
    var e := SubmitTransaction(kind, amount, category, description, date, inserted);
    var v := ValidateExpense(kind, amount, category, description, date);
    var a := SubmitExpense(None, kind, amount, category, description, date);
    if v.Failure? {
      assert a == Failure(v.error);
    } else {
      assert a == Success(AddNew(v.value));
      assert ListStep(st, e).expenses == AddExpense(st.user, st.expenses, InsertedRow(v.value, inserted));
    }
  }

  /** Editing through the dialog rewrites every record with the edited id with the
      form's fields and keeps the list's length, order and ids. */
  lemma EditThroughDialog(st: AppState, t: Transaction, kind: TxType, amount: NumberField, category: string,
                          description: string, date: Date, inserted: Result<string, string>)
    requires st.ui.modal == Editing(t)
    requires ValidateExpense(kind, amount, category, description, date).Success?
    ensures var r := ListStep(st, SubmitTransaction(kind, amount, category, description, date, inserted));
            var d := ValidateExpense(kind, amount, category, description, date).value;
            r.ui.modal == Closed && |r.expenses| == |st.expenses| && Ids(r.expenses) == Ids(st.expenses)
            && forall i :: 0 <= i < |st.expenses| ==>
                 r.expenses[i] == if st.expenses[i].id == t.id
                                  then Transaction(t.id, d.amount, d.category, d.description, d.date, d.kind)
                                  else st.expenses[i]
  {
    var e := SubmitTransaction(kind, amount, category, description, date, inserted);
    var d := ValidateExpense(kind, amount, category, description, date).value;
    var a := SubmitExpense(Some(t), kind, amount, category, description, date);
    assert a == Success(UpdateExisting(t.id, DraftPatch(d)));
    assert ListStep(st, e).expenses == UpdateExpense(st.expenses, t.id, DraftPatch(d));
    UpdateKeepsIds(st.expenses, t.id, DraftPatch(d));
  }

  /** Confirming a delete removes every record with the pending id and closes the
      confirmation; an empty pending id does nothing. */
  lemma ConfirmDeleteRemoves(st: AppState, id: string)
    requires st.ui.pendingDelete == Some(id)
    ensures id != "" ==>
              var r := ListStep(st, ConfirmDelete);
              r.expenses == DeleteExpense(st.expenses, id) && id !in Ids(r.expenses)
              && r.ui.pendingDelete.None? && r.screen == st.screen
    ensures id == "" ==> ListStep(st, ConfirmDelete) == st
  {
  }

  // ---------------------------------------------------------------------------
  // Navigation, profile and theme

  /** A button on screen opens its target and leaves the store alone; one that is
      not on screen does nothing. */
  lemma ClickNavigates(st: AppState, b: Button)
    ensures Shown(b, st.screen) ==>
              var r := ScreenStep(st, Click(b));
              r.screen == Target(b) && r.user == st.user && r.expenses == st.expenses && r.theme == st.theme
    ensures !Shown(b, st.screen) ==> ScreenStep(st, Click(b)) == st
  {
  }

  /** Saving a valid profile in Settings changes only the name and the budget. */
  lemma SaveProfileUpdates(st: AppState, name: string, budget: NumberField)
    requires st.screen == SettingsScreen && st.user.Some?
    requires ValidateProfile(name, budget).Success?
    ensures ScreenStep(st, SaveProfile(name, budget)).user ==
              Some(st.user.value.(name := Trim(name), monthlyBudget := budget.parsed.value))
  {
    var e := SaveProfile(name, budget);
    var p := ValidateProfile(name, budget).value;
    assert ScreenStep(st, e).user == UpdateUser(st.user, p);
    ProfileSaveTouchesNameAndBudget(st.user.value, name, budget);
  }

  /** The theme switch flips the theme on every main screen, and twice is a no-op. */
  lemma ThemeToggles(st: AppState)
    requires MainScreen(st.screen)
    ensures ScreenStep(st, ToggleThemeClick).theme != st.theme
    ensures ScreenStep(ScreenStep(st, ToggleThemeClick), ToggleThemeClick) == st
  {
    ToggleThemeTwice(st.theme);
  }
}

/** The screens of the app, the screen ids the app state stores, the dispatch from an
    id to the screen shown, and the navigation buttons with their targets. */
module Screens {

  datatype Screen =
    | LoginScreen | SignupScreen | ForgotPasswordScreen
    | WelcomeScreen | BudgetScreen | CategoriesScreen
    | DashboardScreen | ExpensesScreen | AnalyticsScreen | SettingsScreen

  /** The `currentScreen` string of each screen. */
  function ScreenId(s: Screen): string {
    match s
    case LoginScreen => "login"
    case SignupScreen => "signup"
    case ForgotPasswordScreen => "forgot-password"
    case WelcomeScreen => "onboarding-welcome"
    case BudgetScreen => "onboarding-budget"
    case CategoriesScreen => "onboarding-categories"
    case DashboardScreen => "dashboard"
    case ExpensesScreen => "expenses"
    case AnalyticsScreen => "analytics"
    case SettingsScreen => "settings"
  }

  const ALL_SCREENS: seq<Screen> := [
    LoginScreen, SignupScreen, ForgotPasswordScreen,
    WelcomeScreen, BudgetScreen, CategoriesScreen,
    DashboardScreen, ExpensesScreen, AnalyticsScreen, SettingsScreen]

  /** The ids the dispatch recognises. */
  predicate KnownId(id: string) {
    id in {"login", "signup", "forgot-password", "onboarding-welcome", "onboarding-budget",
           "onboarding-categories", "dashboard", "expenses", "analytics", "settings"}
  }

  /** `AppContent`: the screen rendered for an id; an unknown id renders the sign-in
      screen. */
  function Dispatch(id: string): (s: Screen)
    ensures KnownId(id) ==> ScreenId(s) == id
    ensures !KnownId(id) ==> s == LoginScreen
  {
    if id == "login" then LoginScreen
    else if id == "signup" then SignupScreen
    else if id == "forgot-password" then ForgotPasswordScreen
    else if id == "onboarding-welcome" then WelcomeScreen
    else if id == "onboarding-budget" then BudgetScreen
    else if id == "onboarding-categories" then CategoriesScreen
    else if id == "dashboard" then DashboardScreen
    else if id == "expenses" then ExpensesScreen
    else if id == "analytics" then AnalyticsScreen
    else if id == "settings" then SettingsScreen
    else LoginScreen
  }

  /** Every screen's id dispatches back to that screen, so no two screens share an id. */
  lemma DispatchRoundTrip(s: Screen)
    ensures KnownId(ScreenId(s))
    ensures Dispatch(ScreenId(s)) == s
  {
  }

  lemma ScreenIdInjective(s: Screen, t: Screen)
    ensures ScreenId(s) == ScreenId(t) <==> s == t
  {
    DispatchRoundTrip(s);
    DispatchRoundTrip(t);
  }

  /** The screens that show the header. */
  predicate MainScreen(s: Screen) {
    s == DashboardScreen || s == ExpensesScreen || s == AnalyticsScreen || s == SettingsScreen
  }

  predicate OnboardingScreen(s: Screen) {
    s == WelcomeScreen || s == BudgetScreen || s == CategoriesScreen
  }

  /** The header's navigation list. */
  const NAV_ITEMS: seq<Screen> := [DashboardScreen, ExpensesScreen, AnalyticsScreen, SettingsScreen]

  /** The navigation items are exactly the main screens, each once. */
  lemma NavItemsAreMainScreens()
    ensures forall s :: s in NAV_ITEMS <==> MainScreen(s)
    ensures forall i, j :: 0 <= i < j < |NAV_ITEMS| ==> NAV_ITEMS[i] != NAV_ITEMS[j]
  {
  }

  /** A navigation item is highlighted when the `activeScreen` string is its id. */
  predicate IsActive(activeScreen: string, item: Screen) {
    activeScreen == ScreenId(item)
  }

  /** On a screen's header the item of that screen, and only it, is highlighted. */
  lemma ActiveIffSameScreen(current: Screen, item: Screen)
    ensures IsActive(ScreenId(current), item) <==> item == current
  {
    ScreenIdInjective(current, item);
  }

  /** The buttons and links that change the screen. */
  datatype Button =
    | NavItem(item: Screen)     // header navigation, desktop and mobile
    | Logo                      // header logo
    | AvatarButton              // header avatar
    | ForgotLink                // sign-in: "Forgot password?"
    | SignupLink                // sign-in: "Sign up"
    | BackToSignIn              // password reset: both back buttons
    | GetStarted                // welcome: continue to the budget step
    | BudgetBack                // budget step: back
    | CategoriesBack            // category step: back
    | ViewAnalytics             // dashboard: to the analytics screen
    | ViewAllTransactions       // dashboard: to the transaction list

  /** Where a button leads. */
  function Target(b: Button): (s: Screen)
    ensures b.NavItem? ==> s == b.item
  {
    match b
    case NavItem(item) => item
    case Logo => DashboardScreen
    case AvatarButton => SettingsScreen
    case ForgotLink => ForgotPasswordScreen
    case SignupLink => SignupScreen
    case BackToSignIn => LoginScreen
    case GetStarted => BudgetScreen
    case BudgetBack => WelcomeScreen
    case CategoriesBack => BudgetScreen
    case ViewAnalytics => AnalyticsScreen
    case ViewAllTransactions => ExpensesScreen
  }

  /** Whether the button is on screen `s`. */
  predicate Shown(b: Button, s: Screen) {
    match b
    case NavItem(item) => MainScreen(s) && item in NAV_ITEMS
    case Logo => MainScreen(s)
    case AvatarButton => MainScreen(s)
    case ForgotLink => s == LoginScreen
    case SignupLink => s == LoginScreen
    case BackToSignIn => s == ForgotPasswordScreen
    case GetStarted => s == WelcomeScreen
    case BudgetBack => s == BudgetScreen
    case CategoriesBack => s == CategoriesScreen
    case ViewAnalytics => s == DashboardScreen
    case ViewAllTransactions => s == DashboardScreen
  }

  /** Buttons on screens that need a signed-in user lead only to such screens, and the
      sign-in screen's links lead only to screens that do not. */
  lemma ButtonsStayInTheirArea(b: Button, s: Screen)
    requires Shown(b, s)
    ensures MainScreen(s) ==> MainScreen(Target(b))
    ensures OnboardingScreen(s) ==> OnboardingScreen(Target(b))
    ensures s == LoginScreen ==> !MainScreen(Target(b)) && !OnboardingScreen(Target(b))
  {
  }
}

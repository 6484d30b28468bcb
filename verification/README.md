# FinanceFlow core in Dafny

FinanceFlow is a personal-finance web app. The user records expenses and income, sets a monthly budget in Indian rupees, and sees these figures:

- this month's totals and balance;
- a budget bar;
- category breakdowns;
- six-month and seven-day trends;
- automatic insights;
- a searchable transaction list with a CSV export.

Sign-in, sign-up and session restore go through a hosted authentication service. New users pass a three-step onboarding (welcome, budget, categories).

This project models the app's logic, not its rendering. The modules are:

- `Domain`: transactions, categories, users, dates as (year, 0-based month, day), day and month indices.
- `Currency`: which branch the rupee formatters take and which prefixes they print.
- `Aggregation`: month totals, the previous month, the percent change, category breakdowns, and the monthly and daily trend windows, with their sum laws.
- `Budget`: the budget-used percentage, the red/yellow/green band and the bar width.
- `Analytics`: the Analytics screen's figures and its three insight rules.
- `Dashboard`: the Dashboard screen's figures, including the five most recent records.
- `ExpenseList`: search and filters, newest-first order, the expense total, and the CSV text.
- `Store`: the shared store operations. These are add, update and delete a transaction, merge a profile update, toggle the theme, and build the profile after sign-in or sign-up.
- `Forms`: every form check, with its messages, its order and what it sends. Also the avatar initials and the onboarding category picker.
- `Screens`: the screen ids, the dispatch from id to screen, and the navigation buttons.
- `Session`: the whole app as a state machine.
  - `Step(state, event)` reacts to clicks, form submissions and answers from the authentication service. It hands each event to one of four handlers: `AuthStep` (sign-in, sign-up, restore, sign-out), `OnboardingStep`, `ListStep` (the transaction dialog and deletes) and `ScreenStep` (navigation, password reset, profile, theme).
  - The flow lemmas are stated about the handler their events go to.
  - Answers from the service and the database enter as event parameters.
  - Lemmas cover each flow (sign-in, sign-up, onboarding, password reset, the transaction dialog, deletes, navigation, sign-out) and an invariant every step keeps.

`Wrappers`, `Seqs`, `Sorting` and `Text` are support modules:

- option and result types;
- filtering;
- a stable descending insertion sort, standing in for `Array.prototype.sort`;
- the JavaScript string functions used (`toLowerCase`, `toUpperCase`, `trim`, `includes`, `split`, `join`).

Amounts are mathematical reals. Two records fall on the same calendar day exactly when their day numbers (days from the civil epoch) agree. Month arithmetic runs on `year * 12 + month` with Euclidean division, which is how `new Date(y, m - k, 1)` normalises months.

Where the model departs from the source:

- The CSV export wraps every cell in double quotes but does not double the quotes inside a cell. The model keeps that behaviour. `ExpenseList.EmbeddedQuoteIsMisread` shows a description containing `"` being read back wrongly by a standard CSV reader (RFC 4180, section 2). `ExpenseList.QuotedCellReadsBack` shows that cells without quotes read back intact.
- The category table (`CATEGORIES`, ten entries) is exported from `src/app/context/AppContext.tsx` (lines 37-48). `Domain.CATEGORIES` restates its ids and names; icons and colours are left out.

## Model

| member | source | states |
|---|---|---|
| Domain.FindCategory | src/app/components/expenses/ExpenseList.tsx:83 | `CATEGORIES.find` by id: found exactly when the id is in the table, and then the entry found carries that id. |
| Domain.FindCategoryAt | src/app/components/expenses/ExpenseList.tsx:83 | In a table without repeated ids, looking up an entry's id returns that entry. |
| Domain.CategoriesWellFormed | src/app/context/AppContext.tsx:37-48 | The category table has ten entries and no id occurs twice. |
| Domain.DayNumberConsecutive | src/app/components/dashboard/Dashboard.tsx:60-64 | Day 0 is 1970-01-01. The calendar day after any valid date has the next day number: within a month, at every month end (February has 29 days exactly in Gregorian leap years), and at New Year. So `setDate(getDate() - k)` is "day number minus k". |
| Domain.DayNumberOrder | src/app/components/dashboard/Dashboard.tsx:80 | On valid dates, one date comes before another exactly when its day number is smaller, and two dates share a day number only when they are equal. So sorting by `getTime()` is sorting by calendar date, and `toDateString` equality is day-number equality. |
| Currency.FlagMattersOnlyForWholes | src/app/utils/currency.ts:14-20 | A fractional amount shows two decimals whatever `showDecimals` says. A whole amount shows the locale default, or two decimals when asked. |
| Currency.FormatWithSign | src/app/utils/currency.ts:25-28 | The sign reads back as the record's kind ('+' income, '-' expense) and the rest is `formatCurrency(amount)` with default decimals. |
| Currency.CompactMagnitude | src/app/utils/currency.ts:34-41 | Exactly one unit. The thresholds are inclusive (≥1e7 Cr, ≥1e5 L, ≥1000 K). Everything else falls through to the full format, negatives included. |
| Currency.FormatCompact | src/app/utils/currency.ts:33-42 | The literal thresholds and suffixes of the source: from 1e7 'Cr' over amount/1e7, from 1e5 'L' over amount/1e5, from 1000 'K' over amount/1000, and `formatCurrency(amount)` below 1000. |
| Currency.CompactReadsBack | src/app/utils/currency.ts:34-39 | From 1000 up, the suffix and the mantissa read back as the amount: mantissa times the unit the suffix names is the amount, and the mantissa is between 1 and 100 for K and L. |
| Currency.UnitsGrowWithAmount | src/app/utils/currency.ts:34-41 | A larger amount never gets a smaller unit. |
| Currency.CompactMantissaRange | src/app/utils/currency.ts:34-39 | The compact mantissa is at least 1. For K and L it stays below 100, so no unit is skipped. |
| Aggregation.MonthTotalCharacterised | src/app/components/analytics/Analytics.tsx:42-56 | A month total is 0 on the empty list. A record of the month and type adds its amount wherever it sits. Income, other months and other years add nothing. |
| Aggregation.PreviousMonth | src/app/components/analytics/Analytics.tsx:39-40 | January's previous month is December of the year before. Otherwise it is month − 1 of the same year. Either way the month index drops by one. |
| Aggregation.MonthsBack | src/app/components/analytics/Analytics.tsx:75-77 | `new Date(y, m - k, 1)`: a valid month whose index is k below the current one. |
| Aggregation.PreviousMonthIsOneBack | src/app/components/analytics/Analytics.tsx:74-77 | The trend window's month one back equals the comparison's previous month. |
| Aggregation.MonthIndexInjective | src/app/components/analytics/Analytics.tsx:74-77 | Distinct valid (year, month) pairs have distinct month indices. |
| Aggregation.PercentChange | src/app/components/analytics/Analytics.tsx:58 | 0 whenever the previous total is not positive, even if the current one is. Otherwise it is (current − previous)/previous·100, positive or negative exactly when spending rose or fell. |
| Aggregation.SlicesFrom | src/app/components/analytics/Analytics.tsx:61-69 | One row per category, in table order, each holding that category's total over the given records. |
| Aggregation.BreakdownContents | src/app/components/dashboard/Dashboard.tsx:49-57 | The Dashboard breakdown holds every category with a positive total and nothing else. Each row carries its category's name and total, and rows stay in category-table order (no sorting). |
| Aggregation.RankedBreakdownOrder | src/app/components/analytics/Analytics.tsx:61-71 | The Analytics breakdown has the same rows as the unsorted one, in non-increasing amount order. Ties keep category-table order because the sort is stable. |
| Aggregation.SlicesFromSum | src/app/components/analytics/Analytics.tsx:61-63 | The rows of a table without repeated ids add up to the total of the records whose category is in the table. |
| Aggregation.AllSlicesSum | src/app/components/analytics/Analytics.tsx:61-63 | The per-category rows add up to the total minus the records whose category id is not in the table. |
| Aggregation.DropZeroSlicesSum | src/app/components/dashboard/Dashboard.tsx:57 | With non-negative amounts, dropping the zero rows does not change the sum. |
| Aggregation.BreakdownSum | src/app/components/analytics/Analytics.tsx:61-71 | Both breakdowns add up to the month's total minus the uncategorised records, and sorting keeps the sum. |
| Aggregation.SortSumWhere | src/app/components/expenses/ExpenseList.tsx:64-66 | Sorting by date keeps every filtered total. |
| Aggregation.MonthlyTrend | src/app/components/analytics/Analytics.tsx:74-90 | Exactly n points, oldest first. Point i is the month (n−1−i) months back, with the expense total of that month. |
| Aggregation.MonthlyTrendEnds | src/app/components/analytics/Analytics.tsx:74-90 | Of the six points, the last is the current month and the one before it is the previous month, each with its expense total. The months strictly increase. |
| Aggregation.DailyTrend | src/app/components/dashboard/Dashboard.tsx:60-76 | Exactly n points, oldest first. Point i is today − (n−1−i), with the total of the expense records dated that day. |
| Aggregation.DailyTrendShape | src/app/components/dashboard/Dashboard.tsx:60-76 | The seventh point is today and consecutive points are consecutive days. An income record changes no point. |
| Budget.BudgetUsed | src/app/components/dashboard/Dashboard.tsx:46 | 0 with no user or a zero budget. Otherwise used·budget = spent·100. |
| Budget.BandOf | src/app/components/dashboard/Dashboard.tsx:177 | Red exactly above 100, yellow exactly in (80, 100], green exactly at or below 80. The three bands are exclusive. |
| Budget.BandMonotone | src/app/components/dashboard/Dashboard.tsx:177 | More spending never moves the band to a less severe one. |
| Budget.BandOfSpending | src/app/components/dashboard/Dashboard.tsx:177 | With a positive budget: red exactly when spending exceeds the budget, yellow exactly above 80% of it, green otherwise. |
| Budget.BarWidth | src/app/components/dashboard/Dashboard.tsx:179 | `min(used, 100)`: never above 100, and exactly 100 when used reaches 100. |
| Budget.BarFullWhenExceeded | src/app/components/dashboard/Dashboard.tsx:177-179 | A red bar is always full, and a bar that is not full is never red. |
| Analytics.BudgetInsight | src/app/components/analytics/Analytics.tsx:96-120 | The budget card appears exactly when the budget is non-zero. It is the first rule, and the over-budget card carries spent − budget. |
| Analytics.BudgetInsightBands | src/app/components/analytics/Analytics.tsx:96-120 | With a positive budget, exactly one card kind. Over means spent > budget, approaching means 80% < spent ≤ budget, on track means spent ≤ 80%. The excess shown is positive. |
| Analytics.TrendInsight | src/app/components/analytics/Analytics.tsx:123-137 | The trend card appears exactly when the change is above 20 or below −20. It says increased exactly when the change is positive, and the decrease shown is −change. |
| Analytics.TrendInsightFromTotals | src/app/components/analytics/Analytics.tsx:123-137 | No trend card without a positive previous total. Otherwise "increased" appears exactly when current > 1.2·previous and "savings" exactly when current < 0.8·previous. |
| Analytics.ChangeThresholds | src/app/components/analytics/Analytics.tsx:123-130 | A change above 20% (below −20%) means current > 1.2·previous (< 0.8·previous). |
| Analytics.TopCategoryInsight | src/app/components/analytics/Analytics.tsx:140-151 | Never without a budget or without rows. When present it names the first row. With a positive budget it appears exactly when that row exceeds 30% of the budget. |
| Analytics.TopPercentage | src/app/components/analytics/Analytics.tsx:142-143 | The "> 30%" test on amount/budget·100, restated against 0.3·budget for either sign of the budget. |
| Analytics.Cards | src/app/components/analytics/Analytics.tsx:93 | A rule that did not fire adds no card, and one that did adds exactly one. |
| Analytics.Insights | src/app/components/analytics/Analytics.tsx:93-151 | At most three cards, in the order budget, trend, top category. A card is present exactly when its rule fires. |
| Analytics.Analyze | src/app/components/analytics/Analytics.tsx:36-151 | The current and previous totals are the month expense totals. The six-point trend ends with those two totals. There are at most three insights. The category rows are positive and non-increasing. |
| Analytics.RankedPositive | src/app/components/analytics/Analytics.tsx:70 | Every ranked row is positive. |
| Analytics.TopCategoryIsLargest | src/app/components/analytics/Analytics.tsx:140-141 | The top-category card names a category at least as large as every other row. |
| Analytics.CategoriesAddUp | src/app/components/analytics/Analytics.tsx:56-71 | With non-negative amounts, the category rows add up to `currentTotal` less the month's expenses in categories outside the table. |
| Dashboard.BalanceLabel | src/app/components/dashboard/Dashboard.tsx:124-134 | "Healthy balance" exactly when the balance is ≥ 0, else "Over budget". |
| Dashboard.RecentTransactions | src/app/components/dashboard/Dashboard.tsx:79-81 | min(5, n) records, newest date first, all drawn from the list without duplication. |
| Dashboard.RecentAreNewest | src/app/components/dashboard/Dashboard.tsx:79-81 | With at most five records all are shown. Otherwise every record dated after the last one shown is among those shown. |
| Dashboard.Summarize | src/app/components/dashboard/Dashboard.tsx:25-81 | The expense and income totals are this month's, filtered by type. The label is healthy exactly when income ≥ expenses. No budget means 0% used and green. The bar is capped at 100 and full when red. Category rows are positive, in table order. The trend has seven days ending today. |
| Dashboard.SameRowsAsAnalytics | src/app/components/dashboard/Dashboard.tsx:49-57 | The Dashboard's category rows are those of Analytics, reordered. The expense total is Analytics' current total. |
| Store.DeleteExpense | src/app/context/AppContext.tsx:269-271 | Every record carrying the id is removed. Every other record stays. |
| Store.DeleteKeepsOrder | src/app/context/AppContext.tsx:269-271 | Deletion distributes over concatenation, so the records kept keep their relative order. |
| Store.DeleteAbsent | src/app/context/AppContext.tsx:269-271 | Deleting an absent id changes nothing, and deleting twice is deleting once. |
| Store.MergeExpense | src/app/context/AppContext.tsx:263-267 | `{...e, ...updates}`: every field the patch sets (id, amount, category, description, date, kind) takes the patch's value, and every field it leaves out is kept. |
| Store.MergeIdempotent | src/app/context/AppContext.tsx:263-267 | Merging the same patch again changes nothing. |
| Store.UpdateExpense | src/app/context/AppContext.tsx:263-267 | Same length and order. Records with the id get the patch merged in, and all others are unchanged. |
| Store.UpdateKeepsIds | src/app/context/AppContext.tsx:263-267 | A patch without an id keeps the id list, and updating an absent id changes nothing. |
| Store.AddExpense | src/app/context/AppContext.tsx:242-260 | No change without a user or on an insert error. Otherwise the returned row is put in front of the old list. |
| Store.AddThenDelete | src/app/context/AppContext.tsx:242-271 | Deleting the row just added, when its id was new, restores the list. |
| Store.UpdateUser | src/app/context/AppContext.tsx:236-240 | No user stays no user. Otherwise each field is the patch's value if given, else the old one. |
| Store.UpdateUserLaws | src/app/context/AppContext.tsx:236-240 | The empty patch is the identity, the same patch twice is the patch once, and a budget-only patch changes only the budget. |
| Store.ToggleTheme | src/app/context/AppContext.tsx:273-275 | The theme always changes. |
| Store.ToggleThemeTwice | src/app/context/AppContext.tsx:273-275 | Toggling twice gives back the original theme. |
| Store.NameFromEmail | src/app/context/AppContext.tsx:181 | A non-empty name without '@'. It is the address's prefix up to its first '@' (or the whole address), or "User" when that prefix is empty. |
| Store.SplitFirst | src/app/context/AppContext.tsx:181 | `split("@")[0]` is the prefix before the first '@', or the whole string. |
| Store.NameFromEmailCases | src/app/context/AppContext.tsx:181 | "alice@x" gives "alice", "alice" gives "alice", and "@x" gives "User". |
| Store.SignedInUser | src/app/context/AppContext.tsx:179-186 | After sign-in or restore: the account's id and address, the derived name, budget 0, no categories, onboarding complete. |
| Store.SignedUpUser | src/app/context/AppContext.tsx:211-218 | After sign-up: the name and address as entered, budget 0, no categories, onboarding not complete. |
| ExpenseList.FilterExpenses | src/app/components/expenses/ExpenseList.tsx:56-61 | A record is shown exactly when its lower-cased description contains the lower-cased query and each drop-down is "all" or equal to its field. A matching record is kept as often as it occurs in the list, and a non-matching one never. |
| ExpenseList.FilterKeepsOrder | src/app/components/expenses/ExpenseList.tsx:56-61 | `filter` keeps store order: filtering a list split in two is filtering each part and joining them. |
| ExpenseList.UnfilteredShowsAll | src/app/components/expenses/ExpenseList.tsx:56-61 | The empty query with both drop-downs at "all" shows the whole list in order. |
| ExpenseList.TypeFilterSelects | src/app/components/expenses/ExpenseList.tsx:59 | The type filter keeps only expenses or only income. Any other value than "all" keeps nothing. |
| ExpenseList.SearchIgnoresCase | src/app/components/expenses/ExpenseList.tsx:57 | Upper-casing the query does not change what matches. |
| ExpenseList.SortExpenses | src/app/components/expenses/ExpenseList.tsx:64-66 | A permutation of the filtered list, newest date first. Records of the same date keep their relative order. |
| ExpenseList.TotalAmountOfFiltered | src/app/components/expenses/ExpenseList.tsx:103-105 | The total is the expense amounts among the filtered records, whatever the order, which is their total minus the income among them. |
| ExpenseList.CategoryCell | src/app/components/expenses/ExpenseList.tsx:83 | The category's name when the id is in the table, else the raw id. |
| ExpenseList.CategoryCellNames | src/app/components/expenses/ExpenseList.tsx:83 | Each table id maps to its own name, and an unknown id maps to itself. |
| ExpenseList.CategoryCellLine | src/app/components/expenses/ExpenseList.tsx:83 | The category cell holds a line feed only if the raw id does. |
| ExpenseList.Quote | src/app/components/expenses/ExpenseList.tsx:90 | A cell is wrapped in one double quote on each side, with its content unchanged (no escaping). |
| ExpenseList.QuoteAll | src/app/components/expenses/ExpenseList.tsx:90 | Every cell of a row is quoted, in order. |
| ExpenseList.CsvLines | src/app/components/expenses/ExpenseList.tsx:78-91 | 1 + n lines. The header is `Date,Type,Category,Description,Amount`, then one line per sorted record: its five quoted cells joined by commas. |
| ExpenseList.HeaderLine | src/app/components/expenses/ExpenseList.tsx:79-89 | The header cells joined by commas give `Date,Type,Category,Description,Amount`. |
| ExpenseList.CsvLineCount | src/app/components/expenses/ExpenseList.tsx:88-91 | When no cell holds a line feed, splitting the export at line feeds gives back exactly the header and the record lines. |
| ExpenseList.QuotedCellReadsBack | src/app/components/expenses/ExpenseList.tsx:90 | An RFC 4180 reader reads a quoted cell without inner quotes back unchanged. |
| ExpenseList.BodyReadsBack | src/app/components/expenses/ExpenseList.tsx:90 | The reader stops at the first quote not followed by another, so the content before it is returned intact. |
| ExpenseList.EmbeddedQuoteIsMisread | src/app/components/expenses/ExpenseList.tsx:90 | A description containing `"` is cut short when read back, because quotes are not doubled. |
| Forms.ValidateExpense | src/app/components/expenses/AddExpenseModal.tsx:40-54 | The checks run in order: amount (missing, unreadable or ≤ 0), then category, then a white-space-only description. The first failure's message wins. On success the draft carries the positive amount and the trimmed description. |
| Forms.DraftPatch | src/app/components/expenses/AddExpenseModal.tsx:56-63 | An edit sends every form field and never the id, so the merged record keeps its id. |
| Forms.SubmitExpense | src/app/components/expenses/AddExpenseModal.tsx:36-77 | A failed check sends nothing. Otherwise exactly one call: an update of the edited record's id in edit mode, an add otherwise. |
| Forms.ValidateProfile | src/app/components/settings/Settings.tsx:42-58 | A blank name is refused first, then an unreadable or negative budget. 0 is accepted. On success the update carries exactly the trimmed name and the budget. |
| Forms.ProfileSaveTouchesNameAndBudget | src/app/components/settings/Settings.tsx:53-56 | A successful save changes only the name and the budget. |
| Forms.ValidateOnboardingBudget | src/app/components/onboarding/OnboardingBudget.tsx:19-23 | A missing, unreadable or non-positive budget is refused with "Please enter a valid budget amount". A positive one is accepted. |
| Forms.ZeroBudgetContrast | src/app/components/onboarding/OnboardingBudget.tsx:20 | A budget of 0 is refused during onboarding but accepted in Settings. |
| Forms.ValidateLogin | src/app/components/auth/Login.tsx:20-23 | An empty address or password gives "Please fill in all fields". Otherwise the credentials pass unchanged. |
| Forms.ValidateForgot | src/app/components/auth/ForgotPassword.tsx:19-22 | Only the empty address is refused, with "Please enter your email". |
| Forms.FirstLetters | src/app/components/settings/Settings.tsx:83-90 | One letter per non-empty word, in order: the i-th letter is the first character of the i-th non-empty word. |
| Forms.Initials | src/app/components/settings/Settings.tsx:83-90 | As many characters as there are non-empty words, at most two; the i-th is the upper-cased first character of the i-th non-empty word; never a lower-case letter or a space. |
| Forms.InitialsOfFullName | src/app/components/layout/Header.tsx:29-36 | "first last" gives the upper-cased first letters of both names. |
| Forms.Avatar | src/app/components/settings/Settings.tsx:110 | "U" without a user. With a user, the initials of the name, and a name that does not start with a space shows its own first character, upper-cased, first. |
| Forms.ToggleCategory | src/app/components/onboarding/OnboardingCategories.tsx:11-17 | A selected id is removed with every occurrence, and the others stay. An unselected id is appended at the end. |
| Forms.ToggleLaws | src/app/components/onboarding/OnboardingCategories.tsx:11-17 | Toggling never introduces duplicates. Toggling twice restores the same set of ids, and the very same list when the id was unselected. |
| Forms.FilterNoDuplicates | src/app/components/onboarding/OnboardingCategories.tsx:14 | Removing ids from a list without duplicates leaves a list without duplicates. |
| Forms.CategoriesToSave | src/app/components/onboarding/OnboardingCategories.tsx:68 | The selection when it is non-empty, else all ten table ids, which are distinct. |
| Screens.Dispatch | src/app/App.tsx:25-54 | Each known id renders its own screen. Any other string renders the sign-in screen. |
| Screens.DispatchRoundTrip | src/app/App.tsx:25-50 | Every screen's id dispatches back to that screen. |
| Screens.ScreenIdInjective | src/app/App.tsx:25-50 | No two screens share an id. |
| Screens.NavItemsAreMainScreens | src/app/components/layout/Header.tsx:22-27 | The navigation items are exactly dashboard, expenses, analytics and settings, each once. |
| Screens.ActiveIffSameScreen | src/app/components/layout/Header.tsx:58 | On a screen's header, the item of that screen and only it is highlighted. |
| Screens.Target | src/app/components/layout/Header.tsx:43-118 | A navigation item leads to its own screen. The logo leads to the dashboard and the avatar to settings. The other buttons lead to the screens their handlers set. |
| Screens.ButtonsStayInTheirArea | src/app/App.tsx:25-54 | Buttons on main screens lead to main screens and buttons on onboarding screens to onboarding screens. The sign-in screen's links lead to neither. |
| Session.Initial | src/app/context/AppContext.tsx:81-85 | A page load starts signed out, with no records, on the sign-in screen, not loading, with the stored theme. |
| Session.Goto | src/app/App.tsx:25-54 | Changing the screen keeps the store and discards the previous screen's local state. Setting the same screen keeps it. |
| Session.InsertedRow | src/app/context/AppContext.tsx:245-259 | The inserted row is the draft under the id the database assigned. An insert error stays an error. |
| Session.Step | src/app/context/AppContext.tsx:133-275 | Every step keeps the invariant: onboarding and main screens have a user, loading is on exactly while a request is out, and dialogs live only on their screens. Only the theme switch changes the theme. Only the transaction, auth and onboarding events change the list. Only sign-out and the reload drop the user. |
| Session.AuthStep | src/app/context/AppContext.tsx:133-229 | Sign-in, sign-up, session restore and sign-out keep the invariant and the theme. Only a service answer, a restore or a sign-out changes the list, and only a sign-out drops the user. |
| Session.OnboardingStep | src/app/components/onboarding/OnboardingCategories.tsx:11-85 | The budget and category steps keep the invariant and the theme. Only completing onboarding (through the reload) can change the list or drop the user. |
| Session.ListStep | src/app/components/expenses/ExpenseList.tsx:48-76 | The dialog and delete events keep the invariant and never change the user, the theme or the screen. Only a submit or a confirmed delete changes the list. Closing the dialog when none is open changes nothing; closing an open one closes it and clears its message. |
| Session.ScreenStep | src/app/components/layout/Header.tsx:43-118 | Navigation, the password reset, the profile form and the theme switch keep the invariant and the list and never drop the user. Only the theme switch changes the theme. |
| Session.Run | src/app/context/AppContext.tsx:133-275 | Any sequence of events keeps the invariant. |
| Session.InitialInvariant | src/app/context/AppContext.tsx:81-85 | The initial state satisfies the invariant. |
| Session.SignOutClears | src/app/context/AppContext.tsx:133-147 | A lost session clears the user and the list and shows the sign-in screen from any screen, keeping the theme. Logout from Settings (lines 224-229) does the same, and the notice that follows changes nothing. |
| Session.LoadingGate | src/app/components/auth/Login.tsx:95-114 | While a request is out, the sign-in, demo and sign-up buttons do nothing. |
| Session.EmptyFieldSendsNothing | src/app/components/auth/Login.tsx:20-23 | An empty field sends no request and shows the fill-in message, and only an empty field does that. |
| Session.SignInSucceeds | src/app/context/AppContext.tsx:164-191 | Submitting sets loading with a pending request. A successful answer ends on the dashboard, not loading, with the signed-in profile (onboarding complete) and the fetched list. |
| Session.SignInRefused | src/app/components/auth/Login.tsx:25-29 | A refused sign-in stays on the sign-in screen with loading off, the user and list unchanged, and "Invalid credentials". A refused demo sign-in shows no message. |
| Session.DemoLoginSignsIn | src/app/components/auth/Login.tsx:32-36 | The demo button needs no filled fields: it sets loading and sends the demo address with the demo flag, leaving the form's message as it was. A successful answer opens the dashboard signed in to the answering account. |
| Session.RestoreOpensDashboard | src/app/context/AppContext.tsx:108-126 | A restored session opens the dashboard with a signed-in profile and the fetched list. |
| Session.SignUpSucceeds | src/app/context/AppContext.tsx:193-222 | A successful sign-up opens the welcome screen with the entered name and address, budget 0 and onboarding not complete. |
| Session.OnboardingRun | src/app/components/onboarding/OnboardingCategories.tsx:67-85 | Welcome, a positive budget, then completion without picks. With records on file it ends on the dashboard with the budget, all ten categories and onboarding complete. Without records the page reloads to the sign-in screen. |
| Session.PickCategoryToggles | src/app/components/onboarding/OnboardingCategories.tsx:11-17 | Picking toggles the id in the local selection and nothing else. |
| Session.ForgotFlow | src/app/components/auth/ForgotPassword.tsx:15-27 | An empty address shows the message and the form stays. Any other address switches to the sent view, and "try again" switches back. |
| Session.AddThroughDialog | src/app/components/expenses/AddExpenseModal.tsx:65-76 | An invalid form keeps the dialog open with its message and the list unchanged. A valid one closes the dialog. A successful insert puts the new row first, and a failed one leaves the list alone. |
| Session.EditThroughDialog | src/app/components/expenses/AddExpenseModal.tsx:56-63 | A valid edit closes the dialog and rewrites exactly the records with the edited id with the form's fields. Length, order and ids are kept. |
| Session.ConfirmDeleteRemoves | src/app/components/expenses/ExpenseList.tsx:72-76 | Confirming removes every record with the pending id and clears it. An empty pending id does nothing. |
| Session.ClickNavigates | src/app/components/layout/Header.tsx:58-62 | A button on screen opens its target and leaves user, list and theme alone. A button not on screen does nothing. |
| Session.SaveProfileUpdates | src/app/components/settings/Settings.tsx:53-56 | A valid save in Settings changes only the user's name and budget. |
| Session.ThemeToggles | src/app/components/layout/Header.tsx:82 | The theme button flips the theme on every main screen, and pressing it twice restores the state. |

## Left out

- The authentication service and database calls (`getSession`, `signInWithPassword`, `signUp`, `signOut`, `onAuthStateChange`, the expense select and insert) are remote and asynchronous. Their answers are event parameters: an account or an error, a fetched list or nothing, a new row id or an error.
- Browser persistence is browser I/O: the stored theme, the `dark` class on the document, and the sample data written before the reload. The reload after onboarding without records is modelled as a return to the initial state with the theme kept. The stored sample data is never read back by the store.
- `generateSampleExpenses` uses randomness and the clock.
- The JSON export, clearing local data in Settings and the CSV file download are file and browser I/O. Only the CSV text is modelled.
- Date parsing, time zones, month and weekday labels, and "today" are library behaviour. Dates are (year, month, day) values and today is a parameter.
- Number rendering (`toLocaleString`, `toFixed`), `parseFloat` and the insight description texts are library behaviour. They enter as parameters: a renderer function, or a parsed `Option<real>` beside the raw text.
- Floating-point rounding: amounts are exact reals.
- Toasts, the one-second delay of the password-reset form and all rendering are presentation.
- Signup.tsx is not part of this model. Sign-up is modelled from the store's `signup`; the sign-up form's own checks and its links are not.
- The Settings profile form's local fields and the Login form's field echo after the demo button are display only.
- Aggregation.BreakdownSum: requires non-negative amounts, because the zero-dropping filter removes negative category totals too.
- Analytics.CategoriesAddUp: requires non-negative amounts, for the same reason.
- Aggregation.DropZeroSlicesSum: requires non-negative amounts, for the same reason.
- Analytics.Analyze: requires a month in 0..11, which `getMonth` always returns.
- Session.InsertedRow: the row the database returns is taken to be the draft under a new id. Server-side defaults and extra columns are not modelled.
- Session.Step: the theme switch and the sign-out button are accepted only on the screens that show them, the header screens and Settings respectively.
- Session.EmptyFieldSendsNothing: assumes the session invariant (no request is pending when loading is off), which every reachable state satisfies.
- ExpenseList.FilterExpenses: `toLowerCase` is modelled on the ASCII letters only. Letters outside ASCII (accented or non-Latin) are compared as they are, where JavaScript would fold their case.
- ExpenseList.SearchIgnoresCase: holds for ASCII case differences only, for the same reason.
- Forms.Initials: `toUpperCase` is modelled on the ASCII letters only. A name starting with a non-ASCII lower-case letter keeps that letter as it is.
- Forms.InitialsOfFullName: the same ASCII-only upper-casing applies.
- Forms.Avatar: the same ASCII-only upper-casing applies.
- Forms.FirstLetters: JavaScript strings index UTF-16 code units. A word starting with a character outside the Basic Multilingual Plane (an emoji, for example) gives its whole character here. The app gives the first half of the surrogate pair.
- Forms.Initials: the same code-unit gap applies to `n[0]` and to `slice(0, 2)`, which counts code units, not characters.
- Forms.InitialsOfFullName: the same code-unit gap applies to names starting outside the Basic Multilingual Plane.
- Forms.Avatar: the same code-unit gap applies.
- Session.ListStep: the database's answer to an insert travels with the submit event. The moment between sending the insert and its answer is not modelled, so no event can arrive in between.
- Session.SignInSucceeds: the browser's own check of the `type="email"` field is not modelled. A browser refuses to submit an address without the `name@domain` shape before the handler runs. The model lets any non-empty address through.
- Session.ForgotFlow: the same browser email check is not modelled, so an address without the `name@domain` shape also reaches the sent view here.

# Personal finance dashboard: a verified model of its rules and state updates

This project models the parts of a React personal-finance dashboard that can be stated
exactly: the logic, not the markup or the network plumbing.

- **Session.** The session provider holds a token in memory and in durable storage, plus the
  user and a loading flag. It changes through password login, Google login, logout and the
  identity fetch. A route gate sits in front of the protected pages.
- **Monthly figures.** The Monthly Expenses, Budget Overview and Income vs Expenses widgets
  show this month's sums, percentages, remainders and threshold colours. Monthly Expenses
  also keeps a ten-minute cache in storage.
- **Spending by Category.** This chart groups expense records by category.
- **Payment Cards.** The card section has input normalisers, per-card animation state, the
  single-default rule and utilisation figures.
- **List and map updates.** Savings goals, the notification bell, the transaction history
  and the settings page all update lists and maps held in component state.
- **Registration.** The form checks that the passwords match and formats the server's
  error messages.

Every network result is an input value:

- `Fetch<T>` (`Ok(payload) | NotOk | Thrown`) is for requests whose status the code checks.
- `Settled<T>` (`Parsed(body) | Failed`) is for requests whose status it does not check.
- Each component's own reply type covers the rest.

Durable storage is a field. A navigation is an output value `Navigate(path, replace)`.
React state is the fields of one class per component, and every handler is a method with a
`modifies this` frame. Each method's `ensures` ties its new state to pure functions, and the
lemmas prove the component's rules about those functions.

Amounts are `real`. Dates arrive pre-parsed as `Date(year, month, day) | InvalidDate`. The
current year, month and day and the clock are inputs.

A JavaScript division whose divisor may be zero is modelled with `Ratio`: finite, +Infinity,
-Infinity or NaN, with JavaScript's comparisons. This applies to card utilisation and to the
savings percentage.

Modules, one per source file:

- `Common`: shared value types, `Filter` and its lemmas.
- `Ledger`: the transaction record with its month and type filters and sums.
- `Auth` and `PrivateRoute`.
- `Expenses`, `Budget`, `Income` and `Reports`.
- `CardDetails`.
- `Savings`, `Notifications`, `TransactionHistory` and `Settings`.
- `Register`.

## Model

| member | source | states |
|---|---|---|
| Common.Filter | src/components/NotificationPanel.jsx:48 | `Array.prototype.filter`: the result holds exactly the kept elements, and is no longer than the input |
| Common.FilterAppend | src/components/Savings.jsx:99 | filtering works piece by piece, so the kept elements stay in their order |
| Common.FilterKeepsAll | src/components/TransactionHistory.jsx:45 | a list whose every element passes the test is left as it is |
| Common.FilterIdempotent | src/components/NotificationPanel.jsx:48 | filtering twice with the same test is filtering once |
| Auth.StoredText | src/context/AuthContext.jsx:48 | `setItem` stores a present token as itself and an absent one as the text "undefined" |
| Auth.LoggedOut | src/context/AuthContext.jsx:104-108 | logout removes the stored token, the in-memory token and the user, and leaves loading |
| Auth.LogoutIdempotent | src/context/AuthContext.jsx:104-108 | logging out twice gives the same state as logging out once |
| Auth.GoogleOutcomeOf | src/context/AuthContext.jsx:82-101 | Google login succeeds iff the body has a truthy `success` and a truthy `token`; on success it passes `user` and `has_bank_account` through, on failure both are absent |
| Auth.AuthProvider.constructor | src/context/AuthContext.jsx:7-11 | the in-memory token starts equal to the persisted one, with no user and loading true |
| Auth.AuthProvider.StartIdentityEffect | src/context/AuthContext.jsx:13-31 | a truthy token starts the identity fetch with loading true; otherwise the user is cleared, loading ends and nothing is fetched |
| Auth.AuthProvider.FinishIdentityFetch | src/context/AuthContext.jsx:21-27 | the parsed body becomes the user and a failure clears it; loading ends false either way and the token is untouched |
| Auth.AuthProvider.Logout | src/context/AuthContext.jsx:104-108 | the new state is the logged-out state, and the token invariant holds |
| Auth.AuthProvider.Login | src/context/AuthContext.jsx:34-66 | the session is cleared first. The result is true iff the credentials are accepted and the identity fetch settles. A refused login leaves the session cleared. An accepted one stores the token in storage and memory. Every intermediate state keeps the in-memory token equal to the stored one |
| Auth.AuthProvider.GoogleLogin | src/context/AuthContext.jsx:68-102 | the session is cleared first. The outcome is the one decided by `GoogleOutcomeOf`. A failure leaves the session cleared. A success stores the token in storage and memory and sets the user only when the body carries one. The token invariant holds at every step |
| PrivateRoute.Decide | src/components/PrivateRoute.jsx:8-16 | a spinner iff loading; the outlet iff not loading and both a truthy token and a user exist; otherwise a replacing redirect to `/login` |
| PrivateRoute.RedirectWithoutIdentity | src/components/PrivateRoute.jsx:16 | a missing or empty token, or a missing user, redirects once loading is over |
| PrivateRoute.RedirectAfterLogout | src/components/PrivateRoute.jsx:16 | after logout, from any state, the gate redirects once loading is over |
| PrivateRoute.LogoutThenGate | src/context/AuthContext.jsx:104-108 | logout followed by the identity effect ends on the login redirect |
| PrivateRoute.FailedLoginThenGate | src/context/AuthContext.jsx:45 | a refused login followed by the identity effect returns false and ends on the login redirect |
| Ledger.ThisMonth | src/components/Income.jsx:28-34 | keeps exactly the records dated in the given month and year |
| Ledger.OfKind | src/components/Income.jsx:36-42 | keeps exactly the records of the given type |
| Ledger.MonthlyOfKind | src/components/Expenses.jsx:56-63 | keeps exactly the records of the given type dated in the given month |
| Ledger.ThisMonthAppend | src/components/Income.jsx:28-34 | the month filter works piece by piece, so the kept records stay in their order |
| Ledger.SumAmountsAppend | src/components/Expenses.jsx:64-67 | the amount sum of two stretches is the sum of their sums |
| Ledger.MonthlyOfKindAppend | src/components/Expenses.jsx:56-63 | the one-pass filter works piece by piece |
| Ledger.OfKindAppend | src/components/Income.jsx:37 | the type filter works piece by piece |
| Ledger.MonthlyOfKindIsTwoFilters | src/components/Income.jsx:28-42 | filtering by type and month in one pass equals filtering by month, then by type |
| Ledger.MonthlyTotalIgnores | src/components/Income.jsx:36-42 | a record of another type or month can be inserted anywhere without changing a monthly total |
| Ledger.KindsPartition | src/components/Income.jsx:36-42 | when every record is an income or an expense, the income sum plus the expense sum is the total |
| Expenses.Restore | src/components/Expenses.jsx:11-28 | the cache is used iff it holds a parsed entry with a truthy timestamp less than 600000 ms old, and then gives back that entry's budget and spending |
| Expenses.RestoreWithinWindow | src/components/Expenses.jsx:18-22 | an entry read back inside the window returns the written figures |
| Expenses.StaleFromTenMinutes | src/components/Expenses.jsx:18 | an entry exactly ten minutes old or older is ignored |
| Expenses.MalformedIgnored | src/components/Expenses.jsx:14-26 | an empty or unparsable slot, or an entry without a timestamp, is ignored |
| Expenses.TotalSpent | src/components/Expenses.jsx:54-67 | with no expense record dated this month, the total is 0 |
| Expenses.StatusColor | src/components/Expenses.jsx:128-132 | red iff the percentage is at least 90, yellow iff it is from 75 up to below 90, green iff below 75 |
| Expenses.ProgressColor | src/components/Expenses.jsx:134-138 | red iff the percentage is at least 90, yellow iff it is from 75 up to below 90, green iff below 75 |
| Expenses.AdviceFor | src/components/Expenses.jsx:205-209 | "close to budget limit" iff the percentage is at least 90, "approaching" iff it is from 75 up to below 90, "on track" iff below 75 |
| Expenses.TotalSpentCounts | src/components/Expenses.jsx:54-67 | a monthly expense record adds exactly its amount wherever it sits; any other record adds nothing |
| Expenses.ColoursMatchAdvice | src/components/Expenses.jsx:128-138 | the status colour, the bar colour and the message change at the same thresholds, 90 and 75 |
| Expenses.Render | src/components/Expenses.jsx:85-126 | the skeleton iff loading, and the set-budget prompt iff the budget is falsy. Otherwise it states the remainder and its "over" flag, the percentage (spent over budget), the bar (the percentage below 100, and exactly 100 from 100 up) and the colours and message. The days remaining are daysInMonth − today + 1, today included. With at least one day left the daily allowance is max(remainder / days, 0), and otherwise it is 0, so it is never negative |
| Expenses.NearLimitExample | src/components/Expenses.jsx:120-121 | 475 spent of 500 is 95% and "close to budget limit" |
| Expenses.ExpensesWidget.Mount | src/components/Expenses.jsx:10-30 | a fresh cache entry sets the figures and ends loading without a fetch; otherwise a fetch is requested and nothing changes |
| Expenses.ExpensesWidget.FetchData | src/components/Expenses.jsx:32-83 | loading ends. A 2xx budget sets the budget, and a 2xx list sets this month's expense total. A fetch that throws nowhere writes the cache with the budget or null, the total or 0, and the time |
| Expenses.FetchThenRemount | src/components/Expenses.jsx:70-77 | a fetch that did not throw, followed by a remount inside the window, shows the same figures without a request |
| Budget.MonthSpent | src/components/Budget.jsx:24-36 | a non-array body gives 0, and so does an array with no record of this month |
| Budget.MonthSpentCounts | src/components/Budget.jsx:24-36 | a record of this month adds exactly its amount to the spent sum wherever it sits; a record of another month adds nothing |
| Budget.Colour | src/components/Budget.jsx:52-56 | red iff the percentage is at least 90, yellow iff it is from 75 up to below 90, green iff below 75 |
| Budget.MessageFor | src/components/Budget.jsx:103-107 | "exceeded" iff the percentage is at least 100, "nearing" iff it is from 75 up to below 100, "within" iff below 75 |
| Budget.PercentUsed | src/components/Budget.jsx:50 | spent over budget times 100 when the budget is truthy, else 0 |
| Budget.MessageMatchesColour | src/components/Budget.jsx:103-107 | "exceeded" is always red, "within" is exactly green, and "nearing" is never green |
| Budget.Render | src/components/Budget.jsx:76-107 | loading iff loading; the no-budget message iff the budget is null; otherwise the percentage, its colour and message, and the bar capped at 100 |
| Budget.BudgetWidget.FetchData | src/components/Budget.jsx:9-43 | loading ends after any outcome. The parsed budget is taken, then this month's sum of an array body (0 for a non-array body). A failure stops the sequence where it happens |
| Income.MonthTotals | src/components/Income.jsx:28-42 | the totals are the income-type and the expense-type sums of this month's records |
| Income.MonthTotalsIgnore | src/components/Income.jsx:28-42 | a record of another type or month changes neither total |
| Income.MonthTotalsPartition | src/components/Income.jsx:36-42 | when the month holds only incomes and expenses, the two totals add up to all of it |
| Income.SpentRatio | src/components/Income.jsx:51 | expenses as a percentage of a positive income, else 0 |
| Income.StatusOf | src/components/Income.jsx:54-59 | "no income" iff income is 0; otherwise "overspending" iff the ratio is above 100, "watch" iff above 80 up to 100, "managing well" iff at most 80 |
| Income.BarColour | src/components/Income.jsx:61-65 | red iff the ratio is above 100, yellow iff above 80 up to 100, green iff at most 80 |
| Income.Balance | src/components/Income.jsx:52 | the balance plus the expenses is the income |
| Income.StatusMatchesBar | src/components/Income.jsx:54-65 | with non-zero income, the message and the bar colour share the strict thresholds 100 and 80; with positive income, "overspending" iff expenses exceed income |
| Income.BarOf | src/components/Income.jsx:109-118 | the bar appears iff income is positive. The ratio shown is the spent ratio up to 150 and 150 above it. The width is at most 100 and exactly 100 above 100. The colour is `BarColour` of the ratio |
| Income.IncomeWidget.Load | src/components/Income.jsx:9-49 | a 2xx sets the two totals and any other outcome keeps them; loading ends either way |
| Reports.TransactionsOf | src/components/Reports.jsx:36-38 | an array body is used as is, an object's `results` list is used as is, and an object without `results` gives no records |
| Reports.IndexOf | src/components/Reports.jsx:55 | finds the first entry of a key, or reports that it is absent |
| Reports.PutAssigns | src/components/Reports.jsx:55 | on an object with distinct keys, after the assignment the key reads the new value, every other key reads what it did, and the keys stay distinct |
| Reports.Categories | src/components/Reports.jsx:58 | the object's keys, each listed once |
| Reports.CategoriesCover | src/components/Reports.jsx:51-56 | every record's category is a key, and every key is some record's category |
| Reports.CategorySumsStepSeen | src/components/Reports.jsx:55 | a record of a category already present adds its amount to that category's entry, which keeps its place; the other entries stay |
| Reports.CategorySumsStepNew | src/components/Reports.jsx:55 | a record of a new category appends one entry holding its amount |
| Reports.CategorySumsStep | src/components/Reports.jsx:55 | one more record is one `categoryTotals[cat] = (categoryTotals[cat] \|\| 0) + amt` step |
| Reports.CategorySumsTotal | src/components/Reports.jsx:48-56 | the category values add up to the total |
| Reports.Aggregate | src/components/Reports.jsx:48-56 | the `forEach` loop builds exactly the per-category sums, and the running total is the sum of all amounts |
| Reports.Format | src/components/Reports.jsx:58-64 | one chart entry per object entry, with its name and value and `percent = value / total * 100` when total > 0, else 0 |
| Reports.FormatPercents | src/components/Reports.jsx:62 | the percentages sum to 100 times the values' sum over the total |
| Reports.ChartData | src/components/Reports.jsx:35-71 | a failed request gives no data; a successful one gives no data iff it holds no expense record |
| Reports.ChartDataSummary | src/components/Reports.jsx:41-60 | each expense category appears in exactly one entry holding that category's sum, and the values add up to the expense total |
| Reports.PercentsAddUp | src/components/Reports.jsx:62 | when the values sum to a positive total, the percentages sum to 100 |
| Reports.ChartPercents | src/components/Reports.jsx:41-66 | with a positive expense total, the chart's percentages sum to 100 |
| Reports.Toggled | src/components/Reports.jsx:143 | the toggle always changes the chart type |
| Reports.ToggleInvolution | src/components/Reports.jsx:143 | toggling twice restores the chart type |
| Reports.ReportsWidget.Load | src/components/Reports.jsx:23-72 | nothing happens without a truthy token; otherwise the data becomes the chart data of the reply |
| Reports.ReportsWidget.ToggleChart | src/components/Reports.jsx:143 | the chart type flips and the data is kept |
| CardDetails.IsJsSpace | src/components/CardDetails.jsx:206 | among ASCII characters, exactly tab, line feed, vertical tab, form feed, carriage return and space; never a digit |
| CardDetails.StripWhitespace | src/components/CardDetails.jsx:206 | removes every JavaScript whitespace character and keeps every other one |
| CardDetails.StripWhitespaceFromInput | src/components/CardDetails.jsx:206 | every character of the result is a character of the input |
| CardDetails.StripWhitespaceAppend | src/components/CardDetails.jsx:206 | the strip works piece by piece, so the other characters keep their order and repetitions |
| CardDetails.Digits | src/components/CardDetails.jsx:211-216 | keeps only the ASCII digits, and all of them |
| CardDetails.DigitsFromInput | src/components/CardDetails.jsx:211-216 | every digit of the result is a character of the input |
| CardDetails.DigitsAppend | src/components/CardDetails.jsx:211-216 | the digit filter works piece by piece, so the digits keep their order and repetitions |
| CardDetails.Trim | src/components/CardDetails.jsx:206 | no whitespace is left at either end |
| CardDetails.TrimSlice | src/components/CardDetails.jsx:206 | the result is one stretch of the input with only whitespace before and after it |
| CardDetails.FormatCardNumber | src/components/CardDetails.jsx:205-207 | the normaliser equals the grouping of the whitespace-free input |
| CardDetails.GroupedLayout | src/components/CardDetails.jsx:206 | in a grouped number a space sits exactly at every fifth position, and every other position holds the digits in order |
| CardDetails.GroupedRemoveSpaces | src/components/CardDetails.jsx:206 | removing the spaces of a grouped number gives back the number |
| CardDetails.CardNumberFormat | src/components/CardDetails.jsx:205-207 | removing spaces from the output gives the input without whitespace. The output is groups of four with single spaces between them, no leading or trailing space, and a last group of 1 to 4 characters |
| CardDetails.FormatExpiry | src/components/CardDetails.jsx:210-212 | the output is the input's digits in order, with one '/' after the second digit exactly when there are at least 3 digits |
| CardDetails.FormatCvc | src/components/CardDetails.jsx:215-217 | the output is the first four digits of the input, or all of them when there are fewer |
| CardDetails.WithInput | src/components/CardDetails.jsx:199-223 | the named field takes its normalised value and no other field changes |
| CardDetails.WithInputIdempotent | src/components/CardDetails.jsx:199-223 | typing the same text twice leaves the form as typing it once |
| CardDetails.SetDefault | src/components/CardDetails.jsx:160-164 | the length and order are kept, `isDefault` holds exactly for the chosen id, and no other field changes |
| CardDetails.SingleDefault | src/components/CardDetails.jsx:160-164 | with distinct ids, the chosen card is the one and only default |
| CardDetails.InitialStates | src/components/CardDetails.jsx:68-90 | one fresh entry per card id |
| CardDetails.Flipped | src/components/CardDetails.jsx:137-145 | negates the flip flag and changes nothing else |
| CardDetails.Toggled3D | src/components/CardDetails.jsx:116-134 | activating sets rotations 10 and 15, scale 1.4, translateZ 80 and glow 1. Deactivating resets them to 0, 0, 1, 0 and 0. Flip, hover and container fields are kept |
| CardDetails.Toggle3DRoundTrip | src/components/CardDetails.jsx:116-134 | activating then deactivating brings a flat card back to exactly its state |
| CardDetails.CardClickTwice | src/components/CardDetails.jsx:116-145 | flipping twice restores the entry; after one 3D toggle the entry alternates between two states |
| CardDetails.Hovered | src/components/CardDetails.jsx:93-114 | sets the hover flag and the shadow, and nothing else |
| CardDetails.ToggleDetails | src/components/CardDetails.jsx:148-152 | negates whether that card's details show, and leaves the other entries |
| CardDetails.ToggleDetailsTwice | src/components/CardDetails.jsx:148-152 | toggling twice shows exactly what showed before |
| CardDetails.Utilization | src/components/CardDetails.jsx:187-189 | finite iff the limit is non-zero, and then utilisation times limit is balance times 100; NaN iff both are zero |
| CardDetails.UtilizationColour | src/components/CardDetails.jsx:192-196 | red iff the utilisation is at least 80, yellow iff at least 60 but not 80, green iff not at least 60, with JavaScript's comparisons on Infinity and NaN |
| CardDetails.UtilizationColourByBalance | src/components/CardDetails.jsx:187-196 | for a positive limit: red iff the balance is at least 80% of the limit, yellow iff it is from 60% up to below 80%, green below 60% |
| CardDetails.ZeroLimitColours | src/components/CardDetails.jsx:187-196 | with a zero limit, a positive balance shows red and any other balance green |
| CardDetails.BarWidth | src/components/CardDetails.jsx:558 | `Math.min(utilization, 100)`: never above 100, exactly 100 from 100 up, and the utilisation itself below |
| CardDetails.TotalBalance | src/components/CardDetails.jsx:243 | the balance sum is not negative when no balance is |
| CardDetails.TotalLimit | src/components/CardDetails.jsx:619 | the limit sum is not negative when no limit is |
| CardDetails.AvailableCredit | src/components/CardDetails.jsx:607 | the available credit is not negative when no card owes more than its limit |
| CardDetails.AvailableIsLimitLessBalance | src/components/CardDetails.jsx:607-619 | available credit is the total limit less the total balance |
| CardDetails.UtilizationSum | src/components/CardDetails.jsx:632 | 0 without cards, and NaN once any card's utilisation is NaN |
| CardDetails.UtilizationSumFinite | src/components/CardDetails.jsx:631-634 | with every limit non-zero the utilisation sum is finite |
| CardDetails.AverageUtilization | src/components/CardDetails.jsx:631-634 | 0 without cards, otherwise the utilisation sum over the number of cards |
| CardDetails.SampleFigures | src/components/CardDetails.jsx:18-45 | the two sample cards owe 3,700.50 of 8,000.00 with 4,299.50 available, and a 50% utilisation is green |
| CardDetails.CardSection.constructor | src/components/CardDetails.jsx:18-66 | two sample cards with fresh animation entries, no details shown, and an empty form |
| CardDetails.CardSection.ClickCard | src/components/CardDetails.jsx:116-145 | that card's entry is flipped and 3D-toggled; nothing else changes |
| CardDetails.CardSection.Hover | src/components/CardDetails.jsx:93-114 | that card's entry takes the hover update; nothing else changes |
| CardDetails.CardSection.ToggleCardDetails | src/components/CardDetails.jsx:148-157 | toggles that card's details and starts its bounce; every other field is kept |
| CardDetails.CardSection.EndBounce | src/components/CardDetails.jsx:156 | the bounce ends and nothing else changes |
| CardDetails.CardSection.SetDefaultCard | src/components/CardDetails.jsx:160-184 | intended behaviour: the chosen card becomes the only default and its entry pulses to 1.05, and every other entry is kept; every other field is kept |
| CardDetails.CardSection.SetDefaultCardAsWritten | src/components/CardDetails.jsx:160-173 | as written: the new `cards` array reruns the initialising effect, so every animation entry is reset; every other field is kept |
| CardDetails.SetDefaultDiscardsStates | src/components/CardDetails.jsx:160-173 | a card that was flipped and raised stays so under the intended update, and is reset under the update as written |
| CardDetails.CardSection.EndPulse | src/components/CardDetails.jsx:175-183 | the card's container scale goes back to 1; every other field is kept |
| CardDetails.CardSection.NewCardInput | src/components/CardDetails.jsx:199-223 | the form takes `WithInput`'s update; every other field is kept |
| CardDetails.CardSection.InputFocus | src/components/CardDetails.jsx:226-231 | only the form's focus changes |
| CardDetails.CardSection.SubmitNewCard | src/components/CardDetails.jsx:350 | only the "Adding new cards is currently disabled." alert is shown |
| Savings.FindGoal | src/components/Savings.jsx:66-68 | a goal with that id with no earlier goal of that id, or none exactly when no goal has it |
| Savings.JustCompleted | src/components/Savings.jsx:71-79 | holds only when the goal is found both before and after, and then iff it was below its target and is now at or above it |
| Savings.CelebrationIsAnEdge | src/components/Savings.jsx:71-79 | the celebration fires only on the passage from below the target to at or above it: never twice in a row, and never for a goal already complete |
| Savings.Without | src/components/Savings.jsx:99 | exactly the goals with another id remain |
| Savings.WithoutKeepsOrder | src/components/Savings.jsx:99 | deletion keeps the other goals in order, and leaves a list without that id as it is |
| Savings.FiguresOf | src/components/Savings.jsx:155-188 | the remainder plus the saved amount is the target. "Goal achieved" holds iff the remainder is ≤ 0. The bar is `Math.min` of the percentage and 100: at most 100, exactly 100 once the target is reached, and the percentage itself while a positive target is not reached. With a positive target, percentage times target is saved times 100 |
| Savings.ContributionError | src/components/Savings.jsx:80-86 | a non-empty message: the server's `error` when there is one, "Failed to add contribution" for a refusal without one, and "Network error" for an unreadable body or a network failure |
| Savings.AddEnabledExactly | src/components/Savings.jsx:210 | the Add button is enabled iff no contribution is being saved and an amount is typed |
| Savings.SavingsWidget.FetchSavings | src/components/Savings.jsx:23-40 | a 2xx body replaces the goals and is returned; otherwise nothing is returned and the goals are kept; loading ends |
| Savings.SavingsWidget.OpenMenu | src/components/Savings.jsx:42-46 | opens that goal's menu with an empty amount and no error; every other field is kept |
| Savings.SavingsWidget.SetContribution | src/components/Savings.jsx:199 | the amount takes the typed text; every other field is kept |
| Savings.SavingsWidget.CloseMenu | src/components/Savings.jsx:215 | the menu closes; every other field is kept |
| Savings.SavingsWidget.AddContribution | src/components/Savings.jsx:48-89 | an accepted contribution closes the menu, clears the amount and refetches. The celebration fires iff `JustCompleted` holds for the goal before and after. A failed refetch shows "Network error". A refusal shows `ContributionError` and keeps the rest |
| Savings.SavingsWidget.CloseCelebration | src/components/Savings.jsx:131 | hides the celebration; every other field is kept |
| Savings.SavingsWidget.DeleteGoal | src/components/Savings.jsx:91-108 | a 2xx removes exactly that goal; a refusal or a network error keeps the list and shows its alert; every other field is kept |
| Savings.SavingsWidget.ClearAlert | src/components/Savings.jsx:102-113 | the alert is cleared; every other field is kept |
| Savings.SavingsWidget.AddGoalClick | src/components/Savings.jsx:110-117 | refused with the two-goal alert from two goals on, otherwise a page load of `/savings-goal`; every other field is kept |
| Notifications.MarkRead | src/components/NotificationPanel.jsx:34-36 | the length and order are kept, `is_read` is set exactly on entries with that id, and no other field changes |
| Notifications.MarkReadIdempotent | src/components/NotificationPanel.jsx:34-36 | marking the same notification twice is marking it once |
| Notifications.Delete | src/components/NotificationPanel.jsx:48 | exactly the entries with another id remain |
| Notifications.DeleteKeepsOrder | src/components/NotificationPanel.jsx:48 | deletion keeps the other entries in order |
| Notifications.Unread | src/components/NotificationPanel.jsx:66 | exactly the unread entries |
| Notifications.UnreadCount | src/components/NotificationPanel.jsx:66 | the badge is 0 iff every entry is read |
| Notifications.UnreadCountAppend | src/components/NotificationPanel.jsx:66 | the badge of two stretches is the sum of their badges |
| Notifications.UnreadCountOne | src/components/NotificationPanel.jsx:66 | one entry counts 1 iff it is unread |
| Notifications.MarkReadAsDelete | src/components/NotificationPanel.jsx:34-66 | marking as read and deleting leave the same unread entries, and neither raises the count |
| Notifications.NotificationPanel.FetchNotifications | src/components/NotificationPanel.jsx:9-26 | nothing is fetched without a truthy token. A JSON body replaces the list, another content type empties it, and a thrown error keeps it |
| Notifications.NotificationPanel.MarkAsRead | src/components/NotificationPanel.jsx:28-40 | once the request settles the list takes `MarkRead`, and the badge does not grow |
| Notifications.NotificationPanel.DeleteNotification | src/components/NotificationPanel.jsx:42-52 | once the request settles the list takes `Delete`, and the badge does not grow |
| Notifications.NotificationPanel.ToggleOpen | src/components/NotificationPanel.jsx:6 | the panel opens or closes |
| TransactionHistory.Label | src/components/TransactionHistory.jsx:102 | the title, else the description, else "Untitled Transaction"; never empty |
| TransactionHistory.Sign | src/components/TransactionHistory.jsx:96 | "+" iff the type is income, else "-" |
| TransactionHistory.Toggled | src/components/TransactionHistory.jsx:51-53 | collapses when that id is expanded, otherwise expands it |
| TransactionHistory.ToggleOpensOneRow | src/components/TransactionHistory.jsx:51-53 | after a toggle the clicked row is open iff it was closed, and no other row is open |
| TransactionHistory.ShowsSkeleton | src/components/TransactionHistory.jsx:55 | the skeleton shows iff the list is empty and there is no truthy token |
| TransactionHistory.WithoutTransaction | src/components/TransactionHistory.jsx:45 | exactly the rows with another id remain |
| TransactionHistory.DeleteKeepsOrder | src/components/TransactionHistory.jsx:45 | deletion keeps the other rows in order |
| TransactionHistory.HistoryList.Load | src/components/TransactionHistory.jsx:12-32 | without a truthy token it navigates to `/login` and fetches nothing. A 2xx array is used as is, and a 2xx object gives its values. Any other outcome keeps the rows |
| TransactionHistory.HistoryList.Delete | src/components/TransactionHistory.jsx:35-49 | a 2xx removes that row; anything else keeps the list |
| TransactionHistory.HistoryList.ToggleExpand | src/components/TransactionHistory.jsx:51-53 | the expanded id takes `Toggled` |
| Settings.EditKey | src/components/Settings.jsx:62 | the entry key is the type, a dash and the id |
| Settings.EditChange | src/components/Settings.jsx:61-69 | sets that field of that entry and leaves the entry's other fields and all other entries |
| Settings.ClearEntry | src/components/Settings.jsx:93-95 | removes only that entry |
| Settings.EditShows | src/components/Settings.jsx:164 | a field shows what was typed into it, and every other field shows what it did |
| Settings.ClearShowsOriginal | src/components/Settings.jsx:164 | after a successful save the fields show the loaded value, or "" |
| Settings.HasProfile | src/components/Settings.jsx:148 | holds only for a loaded profile, and then iff some field is not empty |
| Settings.Displayed | src/components/Settings.jsx:164 | an edited value wins, even an edited empty text; otherwise the loaded value, or "" when there is none |
| Settings.TabChange | src/components/Settings.jsx:53-58 | a no-op for the current tab or during a transition; otherwise the tab changes and a transition starts |
| Settings.OneChangePerTransition | src/components/Settings.jsx:53-58 | a second click before the transition ends is ignored |
| Settings.AccountsRedirect | src/components/Settings.jsx:46-50 | a replacing navigation to `/add-account` iff loading is over and no account is left |
| Settings.WithoutAccount | src/components/Settings.jsx:130 | exactly the accounts whose id is not the one awaiting deletion remain |
| Settings.WithoutNothing | src/components/Settings.jsx:130 | with no account awaiting deletion, every account is kept |
| Settings.OrEmpty | src/components/Settings.jsx:28-35 | a 2xx gives its body and another status the empty value |
| Settings.SettingsPage.constructor | src/components/Settings.jsx:8-17 | what the page starts with |
| Settings.SettingsPage.Load | src/components/Settings.jsx:20-44 | the accounts, then the profile, become the body or the empty value. A thrown error stops there and shows "Failed to load settings data.". Loading ends |
| Settings.SettingsPage.EditField | src/components/Settings.jsx:61-69 | the edit map takes `EditChange`; every other field is kept |
| Settings.SettingsPage.Save | src/components/Settings.jsx:72-117 | a 2xx clears only that entry, shows "Changes saved!" and refreshes the edited list. A refusal keeps the edits and shows "Failed to save changes.". A thrown error shows "Error saving changes.". Loading ends |
| Settings.SettingsPage.ChangeTab | src/components/Settings.jsx:53-57 | the tabs take `TabChange`; every other field is kept |
| Settings.SettingsPage.EndTransition | src/components/Settings.jsx:57 | the transition ends and the tab stays; every other field is kept |
| Settings.SettingsPage.AskDelete | src/components/Settings.jsx:119-121 | the account awaiting deletion is set, or cleared by Cancel; every other field is kept |
| Settings.SettingsPage.ConfirmDelete | src/components/Settings.jsx:123-145 | a 2xx removes the account awaiting deletion, closes the confirmation, shows "Account deleted." and schedules a replacing navigation to `/add-account`. A refusal or a network error keeps the list and shows its alert |
| Register.JoinEnds | src/components/Register.jsx:41-42 | no pieces join to ""; otherwise the join starts with the first piece and ends with the last |
| Register.JoinPrefix | src/components/Register.jsx:42 | the join of the first k pieces, a separator and piece k start the join of all the pieces |
| Register.FormatEntry | src/components/Register.jsx:41 | "field: " followed by the messages joined with ", ", or by the single value |
| Register.FormatEntries | src/components/Register.jsx:40-41 | one formatted entry per error field, in order |
| Register.ErrorMessage | src/components/Register.jsx:38-43 | a non-object body gives "Registration failed"; an object with one entry gives that entry formatted, and with several it starts with the first |
| Register.ErrorMessageLayout | src/components/Register.jsx:38-43 | a non-object body gives "Registration failed". For an object, the message starts with its first entry, and each later entry follows the message of the entries before it and " \| " |
| Register.ErrorMessageStep | src/components/Register.jsx:40-42 | one more entry appends exactly " \| " and that entry formatted, so the message is the formatted entries joined with " \| " and nothing more |
| Register.SingleFieldMessage | src/components/Register.jsx:40-42 | one field with one message reads "field: message" |
| Register.EmptyObjectShowsNothing | src/components/Register.jsx:40-44 | an empty object body gives the empty message, so no error is displayed |
| Register.RegistrationForm | src/components/Register.jsx:22-29 | the four text fields in order, then `profile_picture` only when a file was chosen |
| Register.RegisterForm.Change | src/components/Register.jsx:51-56 | the named field takes the typed value |
| Register.RegisterForm.ChoosePicture | src/components/Register.jsx:112 | the chosen file is kept |
| Register.RegisterForm.Submit | src/components/Register.jsx:15-49 | mismatched passwords show "Passwords do not match" and send nothing. Otherwise the form body is sent. A 2xx navigates to `/login` without touching the error. A refusal shows its formatted message, and an unreadable body or a network failure shows "Network error" |

## Left out

- **Transport.** HTTP, URLs, headers and `Promise.all` are left out. Every response is an
  input value.
- **Timing.** Timers are separate methods that the caller invokes: the bounce, the pulse,
  the alert timeouts, the tab transition and the delayed navigation after an account
  deletion. React's effect scheduling and render order are not modelled.
- **Numbers and formatting.** Floating-point rounding, `parseFloat`, `toFixed`, `Number(...)`
  and `Intl` formatting are left out. Amounts are exact reals, and the properties hold
  before rounding.
- **Dates.** `new Date(...)`, `getMonth` and time zones are left out. Dates arrive
  pre-parsed, and the current date and the clock are inputs.
- **Rendering.** Markup, CSS classes, animations, sounds, the celebration overlay and the
  third-party card, chart and OAuth components are left out.
- Notifications.NotificationPanel: the effect that fetches lists `fetchNotifications`, a
  function created anew on every render, so the source refetches after every render. The
  model offers the fetch as an operation and does not model how often it runs.
- Notifications.NotificationPanel: the click-outside listener that closes the panel is left
  out because it is DOM event wiring.
- Notifications.NotificationPanel.FetchNotifications: the JSON reply is always a list of
  notifications. The source stores any JSON body without checking the status, so a refused
  request with a JSON error object would put that object in the list, and the unread filter
  would then throw. The model does not capture that case.
- Savings.JustCompleted compares `saved` and `target` as numbers. The source compares the
  raw JSON values, which are decimal strings when the server sends strings. The display
  figures convert with `Number(...)`.
- Savings.SavingsWidget.AddContribution: the model does not distinguish a server `error`
  field that is present but empty or falsy from an absent one. Both give the fallback text.
- Ledger.Transaction: a missing category is the empty text. The source keys a record without
  a category under "undefined" (or "null"), a slice apart from a record whose category is
  "". The model merges those slices.
- Reports: `Entries` keeps object keys in insertion order. JavaScript lists integer-like
  keys first in ascending order, and the model does not capture that reordering. The set of
  entries and their values are unaffected.
- Reports.Format: `percent` is a number, not the one-decimal string that `toFixed(1)`
  produces.
- CardDetails.FormatExpiry, CardDetails.FormatCvc and CardDetails.FormatCardNumber: the
  inputs' `maxLength` is enforced by the browser, not by the handler, so it is not modelled.
- CardDetails.InsertSpaces models `.{4}` on text without line terminators. The whitespace
  strip removes those terminators first anyway.
- CardDetails.InsertSpaces counts characters as Unicode scalar values. JavaScript's regular
  expression without the `u` flag counts UTF-16 code units, so the grouping differs on input
  with characters outside the Basic Multilingual Plane. Card numbers are digits.
- CardDetails.CardSection.ClickCard, Hover, SetDefaultCard, SetDefaultCardAsWritten and
  EndPulse require the card's entry to exist. The initialising effect creates one for every
  card id. A handler applied to a missing entry would build an object with only some
  fields, which the record type cannot hold.
- CardDetails: the `focusedCard` and `selectedCard` state is set by nothing in the section,
  so it is not modelled. The add-card dialog's open and close flag is modelled only as a
  field.
- Settings.Edits: an entry the source sets to `undefined` is modelled as removed. Every read
  (`editing[key]?.[field]`) treats the two the same way.
- Settings.SettingsPage.Save handles only the two edit kinds that the page uses: account and
  profile.
- Settings.SettingsPage.AskDelete: an account id of 0 is falsy, so the source would not show
  its confirmation. Ids are not expected to be 0, and the model does not treat 0
  specially.
- Register.RegisterForm.Change covers the form's four named inputs. An input of any other
  name would add a key, which the class does not hold.
- Register: an error body that is an array is given as an object with its indices as keys,
  which is what `Object.entries` makes of it. A nested non-array value appears in its string
  form.
- Auth: the profile returned by the identity endpoint is modelled as a record. The source
  stores whatever JSON the endpoint returns, including an error body.

## Findings

| source | as written | input that shows it | evidently intended | confidence | as-written member | corrected member |
|---|---|---|---|---|---|---|
| src/components/CardDetails.jsx:160-173 | `setDefaultCard` replaces `cards` with a new array. The initialising effect depends on `[cards]`, so it reruns and resets every card's animation entry | Flip and raise card 2, then make card 1 the default: card 2 is flat and unflipped again, and card 1's pulse to 1.05 is overwritten | Only `isDefault` changes, card 1 pulses, and the other entries are kept | medium, not executed | CardDetails.CardSection.SetDefaultCardAsWritten, CardDetails.SetDefaultDiscardsStates | CardDetails.CardSection.SetDefaultCard |

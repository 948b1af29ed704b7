# Expense tracker core in Dafny

This project models the core of a personal expense tracker.

- **The server's in-memory store** (`MemStorage`) keeps users, transactions and budgets in three tables. Each table gets ids from its own counter. The store answers four aggregations over one user's transactions:
  - the dashboard summary: balance, income, expenses and savings rate;
  - the expense breakdown by category;
  - the income-versus-expense series over the last six months;
  - the progress of each budget.
- **The shared schema** defines the record shapes and the insert rules for transactions and budgets, the fixed category list and the login schema.
- **The client's pure logic** covers:
  - the transactions page: filtering, newest-first sorting, the category choices and export;
  - the recent-transactions card: the five newest transactions;
  - the currency sign and the category badges;
  - the budget progress card and the budgets page: progress variant, bar value and status line;
  - the progress bar's colour classes;
  - the login, registration, profile and password forms and the request bodies they send;
  - the avatar initials and display name;
  - the top bar's sidebar toggle.

Modules:

- `Wrappers`: Option and Result.
- `Text`: lower and upper case, split, join.
- `Dedup`: distinct elements in order of first occurrence.
- `Schema`.
- `Aggregates`: the four aggregations, as specification functions and as the loops the store runs.
- `Storage`: the `MemStorage` class.
- `TransactionList`, `TransactionsPage`, `RecentTransactions`, `ProgressBar`, `BudgetDisplay`, `Avatar`, `TopNav`, `AuthForms`, `ProfileForms`.
- `Scenarios`: a worked dashboard example.

Modelling choices:

- Amounts are exact reals.
- A JavaScript `Date` is a time stamp with its calendar year and month, or an invalid date.
- The current month, which the store reads from the clock, is a parameter.

## Model

| member | source | states |
|---|---|---|
| Text.ToLower | client/src/pages/transactions-page.tsx:83 | `toLowerCase` keeps the length, leaves no upper-case letter and changes each character only in case |
| Text.ToUpper | client/src/components/layout/top-nav.tsx:33 | `toUpperCase` keeps the length, leaves no lower-case letter and changes each character only in case |
| Text.Split | client/src/components/layout/top-nav.tsx:33 | `split(' ')` gives at least one piece and no piece holds the separator |
| Text.Join | client/src/components/layout/top-nav.tsx:33 | `join` starts with the first piece, and with separator-free pieces holds exactly one separator between each two pieces |
| Text.SplitCount | client/src/components/layout/top-nav.tsx:33 | splitting gives exactly one more piece than there are separators |
| Text.JoinSplit | client/src/components/layout/top-nav.tsx:33 | joining the pieces of a split with the separator gives back the string |
| Text.SplitJoin | client/src/components/layout/top-nav.tsx:33 | splitting a join of separator-free pieces gives back the pieces |
| Dedup.Distinct | client/src/pages/transactions-page.tsx:123 | `Array.from(new Set(..))` holds exactly the elements of the input, with no repeats |
| Dedup.DistinctFirstOccurrenceOrder | client/src/pages/transactions-page.tsx:123 | the distinct elements come in the order of their first occurrences |
| Schema.ParseTransaction | shared/schema.ts:41-52 | a body is accepted iff every field is present and the date is valid and the amount (if given) is non-negative; a rejected body names exactly the failing fields (a missing description, category or type, a negative amount, an invalid date); a missing amount defaults to 0 |
| Schema.TypeIsFreeText | shared/schema.ts:20 | whether a transaction is accepted never depends on the value of its `type` |
| Schema.ParseBudget | shared/schema.ts:54-58 | accepted iff category and amount are present; each missing one is reported; `period` defaults to "monthly" |
| Schema.CategoriesAreFixed | shared/schema.ts:69-79 | nine distinct categories, "Income" next to last and "Others" last |
| Schema.LoginIssues | shared/schema.ts:81-84 | each login field is reported exactly when it is empty; no issue iff both are non-empty |
| Aggregates.TypeTotal | server/storage.ts:106-112 | the sum for a type (income: `IncomeTotal`, expense: `ExpenseTotal`) is 0 when no transaction has that type, and one transaction of that type gives its amount |
| Aggregates.TypeTotalConcat | server/storage.ts:106-112 | the total of two lists together is the sum of their totals |
| Aggregates.TotalsNonNegative | server/storage.ts:106-112 | with non-negative amounts, income, expenses and any category's spending are non-negative |
| Aggregates.RoundTenth | server/storage.ts:123 | `parseFloat(x.toFixed(1))` has at most one decimal (ten times it is a whole number), lies within 0.05 of `x` and keeps its sign |
| Aggregates.RoundTenthMonotone | server/storage.ts:123 | rounding never reverses the order of two values |
| Aggregates.RoundTenthAboveHundred | server/storage.ts:204 | a rounded value above 100 comes from a value above 100 |
| Aggregates.SavingsRate | server/storage.ts:117 | a value with at most one decimal: 0 without income; otherwise within 0.05 of (income − expenses) / income × 100 |
| Aggregates.Summarize | server/storage.ts:102-125 | income and expenses are the totals of the exact "income" and "expense" types, balance is their difference, and an empty list gives all zeros |
| Aggregates.OtherTypesIgnored | server/storage.ts:106-112 | a transaction of any other type, inserted anywhere, leaves the summary unchanged |
| Aggregates.SavingsRateAtMostHundred | server/storage.ts:117 | with non-negative amounts the savings rate is at most 100 |
| Aggregates.AddTo | server/storage.ts:135 | `dict[c] = (dict[c] \|\| 0) + a` adds `a` under `c` only, appends `c` as a new key only when absent, and keeps keys distinct |
| Aggregates.AddToHead | server/storage.ts:135 | adding to the first entry's key changes that entry's amount and nothing else |
| Aggregates.AddToCons | server/storage.ts:135 | adding to a later key leaves the first entry as it is |
| Aggregates.Tally | server/storage.ts:131-136 | the category dictionary has distinct keys and its values add up to the expense total |
| Aggregates.TallyKeys | server/storage.ts:131-136 | the dictionary's keys are the expense categories, once each, in order of first occurrence |
| Aggregates.TallyEntry | server/storage.ts:131-136 | each dictionary entry is an expense category holding that category's total |
| Aggregates.TallyLookup | server/storage.ts:131-136 | the value under a category is that category's expense total |
| Aggregates.IndexEntries | server/storage.ts:139 | exactly the entries whose key is an array index |
| Aggregates.NamedEntries | server/storage.ts:139 | exactly the other entries, in insertion order |
| Aggregates.PartsPartition | server/storage.ts:139 | the two parts together are the whole dictionary, entry for entry |
| Aggregates.SortAscending | server/storage.ts:139 | array-index keys are listed in ascending numeric order |
| Aggregates.SortByIndex | server/storage.ts:139 | that ordering is a permutation of its input |
| Aggregates.SumPermutation | server/storage.ts:139 | reordering entries keeps their sum |
| Aggregates.DistinctKeysPermutation | server/storage.ts:139 | reordering entries keeps keys distinct |
| Aggregates.IsArrayIndex | server/storage.ts:139 | a key that `Object.entries` lists first is a numeral of 1 to 10 digits with no leading zero |
| Aggregates.DigitsAtLeast | server/storage.ts:139 | a numeral of n digits without leading zero is worth at least 10^(n−1) |
| Aggregates.ObjectEntries | server/storage.ts:139 | `Object.entries` is a permutation of the dictionary, and is insertion order when no key is an array index |
| Aggregates.ExpenseBreakdown | server/storage.ts:127-143 | the `forEach` loop followed by `Object.entries` yields the specified breakdown |
| Aggregates.BreakdownSum | server/storage.ts:127-143 | the breakdown's amounts add up to the summary's expenses |
| Aggregates.BreakdownDistinct | server/storage.ts:127-143 | no category appears twice in the breakdown |
| Aggregates.BreakdownEntries | server/storage.ts:127-143 | each entry is an expense category carrying that category's total |
| Aggregates.BreakdownCovers | server/storage.ts:127-143 | every category with an expense has an entry |
| Aggregates.BreakdownOrder | server/storage.ts:127-143 | when no category name is an array index, entries come in order of first occurrence |
| Aggregates.MonthLabel | server/storage.ts:153 | a short month name has three letters |
| Aggregates.DateLabel | server/storage.ts:166-167 | "Invalid Date" exactly for an invalid date, otherwise the short name of its month |
| Aggregates.MonthLabelsDistinct | server/storage.ts:153 | two months share a short label iff they are the same month; no month has the invalid-date label |
| Aggregates.WindowLabels | server/storage.ts:150-155 | the window has six labels |
| Aggregates.WindowLabelsDistinct | server/storage.ts:150-155 | the six labels are pairwise distinct and the last is the current month's |
| Aggregates.WindowMonth | server/storage.ts:151-152 | the j-th month of the window lies 5 − j months before the current one, modulo 12 |
| Aggregates.MonthWindow | server/storage.ts:148-155 | the loop from i = 5 down to 0 collects the window's labels, oldest first |
| Aggregates.Series | server/storage.ts:157-162 | one entry per label |
| Aggregates.FindMonth | server/storage.ts:170 | `find` returns the first entry with the label, or none exists |
| Aggregates.SeriesStep | server/storage.ts:165-178 | with distinct labels, adding a transaction to the list is one step of the series |
| Aggregates.BookTransaction | server/storage.ts:166-177 | the callback adds the amount to income ("income") or expenses (any other type) of the entry with the transaction's month label, and changes nothing else |
| Aggregates.IncomeVsExpense | server/storage.ts:145-181 | the loop over all transactions yields the specified series |
| Aggregates.IncomeVsExpenseShape | server/storage.ts:145-181 | six entries, labelled by the window months oldest first, ending with the current month, labels distinct |
| Aggregates.YearIgnored | server/storage.ts:167-170 | changing the year of a transaction's date changes nothing: only the month label is compared |
| Aggregates.SameLabelsSameTotals | server/storage.ts:165-178 | lists that agree on amounts, types and month labels give the same monthly totals |
| Aggregates.OutsideWindowDropped | server/storage.ts:170-171 | a transaction whose month is outside the window, or whose date is invalid, changes nothing |
| Aggregates.SpentIn | server/storage.ts:193-195 | the sum is 0 when no transaction is in the category, and one expense in it gives its amount |
| Aggregates.PercentUsed | server/storage.ts:198 | a value with at most one decimal: 0 for a non-positive budget; otherwise within 0.05 of spent / budget × 100 |
| Aggregates.ProgressOf | server/storage.ts:188-207 | an entry carries the budget's category and amount, the category's expense total as spent, remaining = amount − spent, and the percentage used |
| Aggregates.BudgetProgressOf | server/storage.ts:183-210 | one entry per budget, in budget order |
| Aggregates.OverHundredMeansOverspent | server/storage.ts:198-205 | a shown percentage above 100 implies a negative remainder |
| Aggregates.SpentMatchesBreakdown | server/storage.ts:193-195 | a budget's spent amount is its category's breakdown entry, or 0 when the category has no expense |
| Aggregates.NoExpenseNothingSpent | server/storage.ts:193-195 | a category without expenses has spent 0 |
| Storage.TransactionsOf | server/storage.ts:76-80 | exactly the transactions of the user |
| Storage.BudgetsOf | server/storage.ts:89-93 | exactly the budgets of the user |
| Storage.TransactionsOfAppend | server/storage.ts:82-87 | a new row extends its owner's list by that row and leaves other users' lists alone |
| Storage.BudgetsOfAppend | server/storage.ts:95-100 | likewise for budgets |
| Storage.TransactionsOfOrder | server/storage.ts:76-80 | a user's rows keep their insertion order |
| Storage.OtherUsersUnaffected | server/storage.ts:82-87 | a new row of one user changes no other user's summary, breakdown or monthly series |
| Storage.OwnerSummaryStep | server/storage.ts:102-125 | a new row moves its owner's income or expense total by exactly its amount |
| Storage.MemStorage.constructor | server/storage.ts:43-57 | empty tables with every counter at 1 |
| Storage.MemStorage.GetUser | server/storage.ts:59-61 | some user iff a user with that id exists, and then it is that user |
| Storage.MemStorage.GetUserByUsername | server/storage.ts:63-67 | none iff no user has the name; otherwise the first such user in insertion order |
| Storage.MemStorage.CreateUser | server/storage.ts:69-74 | the user is stored under the counter's id, the counter advances, other tables are unchanged |
| Storage.MemStorage.GetTransactionsByUserId | server/storage.ts:76-80 | the user's transactions in insertion order |
| Storage.MemStorage.CreateTransaction | server/storage.ts:82-87 | the transaction is stored under the next id, its owner's list grows by it, other tables are unchanged |
| Storage.MemStorage.GetBudgetsByUserId | server/storage.ts:89-93 | the user's budgets in insertion order |
| Storage.MemStorage.CreateBudget | server/storage.ts:95-100 | the budget is stored under the next id, its owner's list grows by it, other tables are unchanged |
| Storage.MemStorage.GetDashboardSummary | server/storage.ts:102-125 | the summary of the user's transactions |
| Storage.MemStorage.GetExpenseBreakdown | server/storage.ts:127-143 | the breakdown of the user's transactions |
| Storage.MemStorage.GetIncomeVsExpense | server/storage.ts:145-181 | the six-month series of the user's transactions |
| Storage.MemStorage.GetBudgetProgress | server/storage.ts:183-210 | the progress of each of the user's budgets against the user's transactions |
| Storage.IdsUnique | server/storage.ts:70-72 | ids are unique within each table of a well-formed store |
| TransactionList.GetBadgeVariant | client/src/pages/transactions-page.tsx:82-95 | a category gets a named badge iff its lower-cased name is in the badge table, and then that badge; otherwise the default one |
| TransactionList.BadgeIgnoresCase | client/src/components/dashboard/recent-transactions.tsx:31-44 | the badge does not depend on how the category's letters are cased |
| TransactionList.LowerAfterUpper | client/src/components/dashboard/recent-transactions.tsx:32 | lower-casing after upper-casing equals lower-casing |
| TransactionList.CategoryBadge | client/src/pages/transactions-page.tsx:85-94 | the badge of each fixed category ("Dining Out" → dining, "Others" → default) |
| TransactionList.FormatCurrency | client/src/pages/transactions-page.tsx:58-68 | "-" exactly for type "expense", "+" for any other type, followed by the magnitude |
| TransactionList.SignFromTypeOnly | client/src/components/dashboard/recent-transactions.tsx:13-23 | negating the amount changes nothing shown |
| TransactionList.CompareNewestFirst | client/src/pages/transactions-page.tsx:104-118 | 0 when either date is invalid; otherwise negative exactly when the first is newer |
| TransactionList.CompareAntisymmetric | client/src/pages/transactions-page.tsx:104-118 | swapping the arguments negates the comparison |
| TransactionList.InsertNewest | client/src/pages/transactions-page.tsx:104-118 | insertion adds exactly the one transaction |
| TransactionList.SortNewestFirst | client/src/pages/transactions-page.tsx:104-118 | the sort is a permutation |
| TransactionList.InsertStable | client/src/pages/transactions-page.tsx:104-118 | inserting moves the new entry only past strictly newer entries, never past one of equal time |
| TransactionList.SortStable | client/src/pages/transactions-page.tsx:104-118 | with every date valid, transactions of equal time keep their relative order |
| TransactionList.InsertKeepsOrder | client/src/pages/transactions-page.tsx:104-118 | inserting into a newest-first list keeps it newest first |
| TransactionList.SortIsNewestFirst | client/src/pages/transactions-page.tsx:104-118 | with every date valid, the sorted list runs from newest to oldest |
| TransactionList.SortedUnchanged | client/src/pages/transactions-page.tsx:104-118 | a list already newest first is unchanged (ties keep their order) |
| TransactionList.SortIdempotent | client/src/pages/transactions-page.tsx:104-118 | sorting twice equals sorting once |
| TransactionsPage.OrEmpty | client/src/pages/transactions-page.tsx:231 | `filter \|\| ""` is the filter when it is set, else the empty string |
| TransactionsPage.Keeps | client/src/pages/transactions-page.tsx:100-103 | with no active filter (missing or "") a transaction is kept; an active type or category filter that differs from the transaction's drops it |
| TransactionsPage.Kept | client/src/pages/transactions-page.tsx:99-103 | a transaction is kept iff an active type filter equals its type and an active category filter equals its category |
| TransactionsPage.KeptMultiplicity | client/src/pages/transactions-page.tsx:99-103 | each kept transaction appears as often as in the data |
| TransactionsPage.NoFilterKeepsAll | client/src/pages/transactions-page.tsx:37-38 | with no active filter every transaction is kept, in order |
| TransactionsPage.FilteredTransactions | client/src/pages/transactions-page.tsx:98-119 | nothing while there is no data; otherwise a permutation of the kept transactions |
| TransactionsPage.FilteredTransactionsSpec | client/src/pages/transactions-page.tsx:98-119 | the list holds exactly the kept transactions with their multiplicities, and runs newest first when every date is valid |
| TransactionsPage.Categories | client/src/pages/transactions-page.tsx:122-124 | the choices are exactly the categories in the data, with no repeats; empty without data |
| TransactionsPage.CategoriesInFirstOccurrenceOrder | client/src/pages/transactions-page.tsx:122-124 | the choices come in order of first occurrence |
| TransactionsPage.ExportTitle | client/src/pages/transactions-page.tsx:230-232 | "All Transactions" iff neither filter is active; otherwise "Filtered Transactions (", the type filter or "", a space, the category filter or "", and ")" |
| TransactionsPage.OnExport | client/src/pages/transactions-page.tsx:227-247 | nothing is exported iff there is no data or it is empty; otherwise all transactions (not the filtered ones) are exported under the fixed file name |
| TransactionsPage.ExportIgnoresFilters | client/src/pages/transactions-page.tsx:228-234 | the filters never change whether or what is exported |
| RecentTransactions.Recent | client/src/components/dashboard/recent-transactions.tsx:47-51 | nothing without data; otherwise min(5, n) of the data's transactions |
| RecentTransactions.ShownAndDroppedPartition | client/src/components/dashboard/recent-transactions.tsx:47-51 | what is shown and what is left out are together the data, transaction for transaction |
| RecentTransactions.RecentAreNewest | client/src/components/dashboard/recent-transactions.tsx:47-51 | with valid dates the card is newest first and no left-out transaction is newer than a shown one |
| ProgressBar.VariantColour | client/src/components/ui/progress.tsx:10-15 | each variant has a colour class |
| ProgressBar.VariantColoursDistinct | client/src/components/ui/progress.tsx:10-15 | distinct variants have distinct colours |
| ProgressBar.ValueColour | client/src/components/ui/progress.tsx:18-22 | success below 50, primary below 85, warning below 100, danger from 100 |
| ProgressBar.ProgressBarClass | client/src/components/ui/progress.tsx:7-26 | the base classes, a space, then the value's colour for the default variant or the variant's own colour otherwise |
| ProgressBar.ExplicitVariantIgnoresValue | client/src/components/ui/progress.tsx:25 | with an explicit variant the value plays no part |
| ProgressBar.CurrentValue | client/src/components/ui/progress.tsx:36 | a missing value is 0, a present one is itself |
| ProgressBar.RenderIndicator | client/src/components/ui/progress.tsx:47-50 | the indicator's class comes from the variant and the value; its width is the value in percent |
| ProgressBar.WidthNotClamped | client/src/components/ui/progress.tsx:49 | a value above 100 gives a width above 100 percent |
| BudgetDisplay.GetProgressVariant | client/src/components/dashboard/budget-progress.tsx:64-69 | success iff below 50, default iff 50 to 85, warning iff 85 to 100, danger iff from 100 |
| BudgetDisplay.VariantMonotone | client/src/pages/budget-page.tsx:77-82 | spending more never makes the variant less alarming |
| BudgetDisplay.BarValue | client/src/components/dashboard/budget-progress.tsx:182 | the bar's value is at most 100: the percentage, or 100 when it is above |
| BudgetDisplay.VariantMatchesBarBanding | client/src/pages/budget-page.tsx:222-226 | the explicit variant colours the bar exactly as the bar's own banding would colour the shown value |
| BudgetDisplay.StatusTone | client/src/components/dashboard/budget-progress.tsx:84 | success iff below 50, neutral iff 50 to 85, warning from 85 |
| BudgetDisplay.ToneFollowsVariant | client/src/components/dashboard/budget-progress.tsx:84 | below 100 the text tone agrees with the bar's variant |
| BudgetDisplay.CardStatusMessage | client/src/components/dashboard/budget-progress.tsx:72-88 | over budget by abs(remaining) iff above 100 percent; otherwise the percentage in its tone |
| BudgetDisplay.PageStatusMessage | client/src/pages/budget-page.tsx:85-101 | over budget by abs(remaining) iff above 100 percent; otherwise the remainder in its tone |
| BudgetDisplay.ExactlyHundred | client/src/pages/budget-page.tsx:88 | at exactly 100 percent the bar is danger but no over-budget line is shown |
| BudgetDisplay.OverBudgetAmount | client/src/components/dashboard/budget-progress.tsx:75-78 | an over-budget line shows spent − budget, a positive amount |
| BudgetDisplay.BudgetsPageView | client/src/pages/budget-page.tsx:195-251 | a spinner iff loading; a card per budget iff loaded and non-empty; otherwise the empty state |
| Avatar.DisplayName | client/src/components/layout/top-nav.tsx:62-65 | the full name unless it is missing or empty, else the user name |
| Avatar.FirstChars | client/src/components/layout/top-nav.tsx:33 | at most one character per piece |
| Avatar.FirstCharsSpec | client/src/pages/profile-page.tsx:128 | the first characters of the non-empty pieces, in order: one per non-empty piece |
| Avatar.NonEmpty | client/src/components/layout/top-nav.tsx:33 | the non-empty pieces, one per non-empty piece, and no empty one |
| Avatar.FirstCharsSkipsEmpty | client/src/components/layout/top-nav.tsx:33 | empty pieces give no character: the first characters of all pieces are those of the non-empty ones |
| Avatar.Initials | client/src/pages/profile-page.tsx:126-129 | "U" for a missing or empty name; otherwise at most one letter per space-separated piece, with no lower-case letter |
| Avatar.InitialsOfWords | client/src/components/layout/top-nav.tsx:31-34 | a name of single-space-separated words gives one upper-cased initial per word |
| Avatar.ExtraSpacesIgnored | client/src/components/layout/top-nav.tsx:31-34 | the initials of a non-empty name are the upper-cased first characters of its non-empty space-separated pieces, so leading, trailing and doubled spaces add none |
| Avatar.LeadingSpaceIgnored | client/src/components/layout/top-nav.tsx:31-34 | a space in front of a name leaves its initials unchanged |
| Avatar.InitialsExample | client/src/components/layout/top-nav.tsx:31-34 | "a  b " has the initials "AB" |
| TopNav.InitialNav | client/src/components/layout/top-nav.tsx:21 | the sidebar starts closed |
| TopNav.ToggleSidebar | client/src/components/layout/top-nav.tsx:27-29 | the toggle flips the sidebar and nothing else |
| TopNav.ToggleTwice | client/src/components/layout/top-nav.tsx:27-29 | toggling twice restores the state |
| TopNav.OpenAfterOddToggles | client/src/components/layout/top-nav.tsx:21-29 | after n toggles the sidebar is open iff n is odd |
| AuthForms.MatchesUsernamePattern | client/src/pages/auth-page.tsx:28 | non-empty, and every character is a letter, digit or underscore (so no space, hyphen, dot or "@") |
| AuthForms.LengthIssues | client/src/pages/auth-page.tsx:25-27 | too short iff below the minimum, too long iff above the maximum |
| AuthForms.UsernameIssues | client/src/pages/auth-page.tsx:25-28 | no issue iff 3 to 20 characters of letters, digits and underscores |
| AuthForms.PasswordIssues | client/src/pages/auth-page.tsx:29-31 | no issue iff 6 to 50 characters |
| AuthForms.LoginFormIssues | client/src/pages/auth-page.tsx:23-32 | no issue iff both the user-name and password rules hold |
| AuthForms.LoginPayload | client/src/pages/auth-page.tsx:79-82 | the body carries the user name and password |
| AuthForms.SubmitLogin | client/src/pages/auth-page.tsx:79-82 | the form sends iff it has no issue, and then the login body |
| AuthForms.RememberMeNotSent | client/src/pages/auth-page.tsx:80 | "remember me" changes neither whether nor what is sent |
| AuthForms.LoginFormStricterThanServer | shared/schema.ts:81-84 | whatever the login form sends passes the server's login schema |
| AuthForms.RegisterFormIssues | client/src/pages/auth-page.tsx:34-51 | no issue iff every field rule holds and the confirmation equals the password; the mismatch is reported iff they differ |
| AuthForms.RegisterPayload | client/src/pages/auth-page.tsx:84-87 | the body is the new user: name, password and full name |
| AuthForms.SubmitRegister | client/src/pages/auth-page.tsx:84-87 | the form sends iff it has no issue, and then the new-user body |
| AuthForms.ConfirmationNotSent | client/src/pages/auth-page.tsx:85 | a sent registration had a matching confirmation, so dropping it loses nothing |
| ProfileForms.ProfileIssues | client/src/pages/profile-page.tsx:29-32 | the full name is reported iff empty; the e-mail iff present, non-empty and rejected by the e-mail check |
| ProfileForms.EmptyEmailAccepted | client/src/pages/profile-page.tsx:31 | a missing or empty e-mail never blocks the form |
| ProfileForms.PasswordFormIssues | client/src/pages/profile-page.tsx:35-42 | each rule is reported iff it fails; no issue iff current password non-empty, new one at least 8 characters and confirmed |
| ProfileForms.SubmitPassword | client/src/pages/profile-page.tsx:93-99 | the request is sent iff there is no issue, and holds only the current and new passwords |
| ProfileForms.SentPasswordConfirmed | client/src/pages/profile-page.tsx:35-42 | a sent new password has at least 8 characters and was typed twice |
| Scenarios.SampleSummary | server/storage.ts:102-125 | income 1000 with expenses 200 and 50 gives balance 750 and savings rate 75.0 |
| Scenarios.SampleBreakdown | server/storage.ts:127-143 | groceries 200 then dining out 50, in order of first occurrence |
| Scenarios.SampleBudget | server/storage.ts:183-210 | a grocery budget of 150 with 200 spent shows 133.3 percent used and −50 remaining |

## Left out

- JavaScript floating point: amounts are exact reals. `Number(decimal)` on a stored amount is taken as that real, and rounding errors of sums are not modelled. `toFixed(1)` is modelled as rounding the magnitude half away from zero.
- Display formatting is not modelled:
  - `Intl.NumberFormat` currency text;
  - `date-fns` date text;
  - `toFixed(2)` amounts on the budget cards;
  - chart rendering, toasts, dialogs and layout.
  `FormatCurrency` gives the sign and the magnitude only.
- Month labels assume the en-US short month names of `toLocaleString('default', …)`. Other locales are not modelled.
- The calendar that maps a time stamp to its local year and month is not modelled. A date carries its year and month as given. `new Date()` in the income-versus-expense series becomes the `currentMonth` parameter.
- Aggregates.SortByIndex, TransactionList.SortNewestFirst: `Array.prototype.sort` is modelled as a stable insertion sort. With an invalid date the comparator is inconsistent, and the engine's order is not specified; for such lists only the permutation is proved.
- Aggregates.ObjectEntries: keys inherited from `Object.prototype` (e.g. a category named "constructor" or "__proto__") are not modelled. The dictionary is treated as having no inherited entries.
- The session store (`MemoryStore`), Promises and `async`, and the HTTP routes in server/routes.ts are not part of this model. Neither are the PDF export in client/src/lib/export-pdf.ts, React state and query caching.
- `seedData` adds nothing, so the constructor models it as a no-op.
- `toLowerCase`/`toUpperCase` are modelled for ASCII letters only. Other characters are left as they are.
- The budgets page calls `getBadgeVariant` at client/src/pages/budget-page.tsx:206, but that page defines no such function. The resulting runtime error, when a budget card is rendered, is not modelled.
- ProfileForms.ProfileIssues: the e-mail format check of `z.string().email()` is a parameter, not a definition.
- AuthForms.LoginFormIssues, AuthForms.RegisterFormIssues, ProfileForms.PasswordFormIssues: these return the set of failing rules. The message texts are not modelled, and neither is which single message the form shows per field.
- Storage.MemStorage.CreateUser: the user name is not checked for uniqueness, as in the store. The database `unique` constraint of the schema is not enforced by the in-memory store.
- TopNav.ToggleSidebar: React's state update is modelled as a function from state to state. Batching and asynchronous re-rendering are not modelled.
- Schema.ParseBudget: the budget amount is a `decimal` column, which the generated schema validates as text. Any text, such as "abc", is accepted, and `Number(budget.amount)` in server/storage.ts:190 then gives `NaN`. The number the budget page sends (`parseFloat(data.amount)`, client/src/pages/budget-page.tsx:72) is rejected as not being text. The model takes the amount as an already-parsed number and covers neither case.
- AuthForms.LengthIssues: JavaScript measures a string in UTF-16 code units, and the model counts characters. A character outside the Basic Multilingual Plane counts 2 in `min`/`max` and 1 here ("abcd😀" has length 6 there, 5 here).
- AuthForms.PasswordIssues: the same UTF-16 length difference applies to the 6-to-50 bounds.
- AuthForms.RegisterFormIssues: the same UTF-16 length difference applies to every length bound of the form.
- ProfileForms.PasswordFormIssues: the same UTF-16 length difference applies to the 8-character minimum.
- Avatar.Initials: `n[0]` takes the first UTF-16 code unit, so a piece starting with a character outside the Basic Multilingual Plane gives half a surrogate pair there and the whole character here.
- ProgressBar.CurrentValue: `value || 0` is modelled for a missing value. A `NaN` value, which also becomes 0, is not modelled.
- RecentTransactions.Recent: the copy `[...transactions]` before sorting protects the cached query data. With value semantics this holds trivially and is not stated separately.
- The updates sent by the profile form (`updateProfileMutation`) and the server's handling of the password request are not part of this model.

# Lumina Finance — a Dafny model of the ledger, the profile and the screens' figures

Lumina Finance is a small personal-finance tracker that runs in the browser. It keeps two
things:

- a **profile**: name, currency, opening balance, onboarding flag, theme, avatar and
  monthly budget;
- a **ledger** of income and expense records, newest first.

Every screen derives its figures from these two:

- the dashboard's net worth, filtered history and category chips;
- the analytics breakdown by category;
- the budget progress bar and daily allowance.

This project models the store and those derivations in Dafny. It also models the small
form state machines that feed the store: the transaction form, onboarding, and the
settings editor.

Layout, one module per source file:

- `types.dfy` (`Types`): the entities of `types.ts`. A partial profile is a map from
  field to typed value.
- `constants.dfy` (`Constants`): the default profile, the currency table and the two
  category lists.
- `finance_context.dfy` (`FinanceContext`): the profile merge, the initial load, net
  worth and monthly totals as functions. The class `FinanceStore` has the two state
  fields and the four updating operations.
- `analytics.dfy` (`Analytics`): the group-by-category reduce (a method with a loop and
  the function it is proved against), the `Object.entries` order, the descending sort,
  the total, the percentages and the palette.
- `budget_view.dfy` (`BudgetView`): progress, remaining amount, colour tier, low-remaining
  highlight, daily allowance and saving the budget.
- `dashboard.dfy` (`Dashboard`): the currency lookups, the type and category filter, the
  five-record preview, the category chips, and the class `FilterPanel` for the panel state.
- `transaction_modal.dfy` (`TransactionModal`): the class `TransactionForm` and the label
  shown under the category grid.
- `onboarding.dfy` (`Onboarding`): the class `OnboardingForm` and the finishing update.
- `settings.dfy` (`Settings`): the avatar rule, the profile editor, the theme switch, the
  currency choice and the reset, with the class `SettingsScreen`.
- `seqs.dfy` (`Seqs`) and `strings.dfy` (`Strings`): generic helpers. Filter,
  sum, subsequence, a stable insertion sort, JavaScript `trim`, code-point string order
  and the array-index test on object keys.

Values that come from outside the program become parameters:

- the stored profile and ledger;
- the id `crypto.randomUUID` would produce;
- the result of `parseFloat`;
- the answer to `confirm`;
- the current month.

Amounts are `real`. A date is the `YearMonth` it falls in.

Three behaviours are modelled exactly as the code has them:

- `deleteTransaction` removes every record with the id, not just the first.
- The default profile's avatar is the empty string, not absent.
- The analytics percentage has no guard for a zero total.

## Model

| member | source | states |
|---|---|---|
| Types.Get | types.ts:21-29 | reading a profile key yields a value of the type the interface declares for it |
| Types.ProfileExtensionality | types.ts:21-29 | two profiles that agree on every key are equal |
| Constants.CategoriesFor | constants.tsx:50-70 | each type's list has eight entries, and the first ids are 'Food' (expense) and 'Salary' (income) |
| Constants.TableIndex | constants.tsx:18-39 | every currency code has a position in the table that holds that code |
| Constants.InitialProfileDefaults | constants.tsx:72-80 | the default profile is not onboarded, has zero balance and budget, USD, light theme, empty name and '' avatar |
| Constants.Codes | constants.tsx:18-39 | the table's codes, one per entry, in table order |
| Constants.CurrencyTableCoversCodes | constants.tsx:18-39 | the table has 20 entries, USD first, and every currency code appears in it |
| Constants.CurrencyTableDistinct | constants.tsx:18-39 | no code has two entries |
| Constants.CurrencyEntriesNonEmpty | constants.tsx:18-39 | every entry has a non-empty symbol and locale |
| FinanceContext.Merge | context/FinanceContext.tsx:41-43 | after the spread, every key in the patch has the patch's value and every other key keeps its previous value |
| FinanceContext.MergeEmpty | context/FinanceContext.tsx:41-43 | an empty update changes nothing |
| FinanceContext.MergeIdempotent | context/FinanceContext.tsx:41-43 | repeating an update has no further effect |
| FinanceContext.MergeCompose | context/FinanceContext.tsx:41-43 | two updates in a row equal one update with the later keys winning |
| FinanceContext.LoadProfile | context/FinanceContext.tsx:8-16 | with nothing stored the profile is the default; otherwise stored keys win and absent keys take the defaults |
| FinanceContext.LoadLedger | context/FinanceContext.tsx:18-21 | with nothing stored the ledger is empty; otherwise it is the stored list |
| FinanceContext.WithId | context/FinanceContext.tsx:46-49 | the new record is the input with the given id added and every other field copied |
| FinanceContext.Without | context/FinanceContext.tsx:54-56 | the kept records are records of the ledger, none with the id, and there are no more of them |
| FinanceContext.DeleteRemovesAll | context/FinanceContext.tsx:54-56 | after deletion no record has the id, the rest keep their order and multiplicity, and every match is removed |
| FinanceContext.DeleteAbsent | context/FinanceContext.tsx:54-56 | deleting an absent id leaves the ledger unchanged |
| FinanceContext.DeleteIdempotent | context/FinanceContext.tsx:54-56 | deleting an id twice is deleting it once |
| FinanceContext.AddKeepsIdsUnique | context/FinanceContext.tsx:45-52 | prepending a record with a fresh id keeps ids unique |
| FinanceContext.DeleteKeepsIdsUnique | context/FinanceContext.tsx:54-56 | deleting keeps ids unique |
| FinanceContext.FilterPreservesUniqueIds | context/FinanceContext.tsx:54-56 | any filter of a ledger with unique ids has unique ids |
| FinanceContext.TotalOfCons | context/FinanceContext.tsx:66-74 | a prepended record adds its amount to its own type's total only |
| FinanceContext.NetWorth | context/FinanceContext.tsx:66-74 | net worth is the opening balance plus each income minus each expense, summed in one pass |
| FinanceContext.SignedSumIsIncomeMinusExpense | context/FinanceContext.tsx:66-74 | the one-pass signed sum equals total income minus total expense |
| FinanceContext.NetWorthAfterAdd | context/FinanceContext.tsx:66-74 | adding a record moves net worth by its signed amount |
| FinanceContext.NetWorthPermutation | context/FinanceContext.tsx:66-74 | net worth does not depend on the order of the ledger |
| FinanceContext.NetWorthEmpty | context/FinanceContext.tsx:66-74 | on an empty ledger net worth is the opening balance |
| FinanceContext.NetWorthExample | context/FinanceContext.tsx:66-74 | balance 1000 with income 500 and expense 200 gives 1300 |
| FinanceContext.MonthlyStats | context/FinanceContext.tsx:76-95 | income minus expense is the signed sum of this month's records; a ledger with no record this month gives 0 and 0 |
| FinanceContext.MonthlyStatsCons | context/FinanceContext.tsx:76-95 | a prepended record counts towards its type's monthly total exactly when it is dated in the current month |
| FinanceContext.MonthlyStatsEmpty | context/FinanceContext.tsx:76-95 | an empty ledger gives income 0 and expense 0 |
| FinanceContext.MonthlyStatsPermutation | context/FinanceContext.tsx:76-95 | the monthly totals do not depend on the order of the ledger |
| FinanceContext.FinanceStore.constructor | context/FinanceContext.tsx:8-21 | the store starts with the loaded profile and ledger |
| FinanceContext.FinanceStore.UpdateProfile | context/FinanceContext.tsx:41-43 | keys in the patch take its values, all other keys and the ledger stay |
| FinanceContext.FinanceStore.AddTransaction | context/FinanceContext.tsx:45-52 | the new record with its id goes first, the old records follow in order, a fresh id keeps ids unique, the profile stays |
| FinanceContext.FinanceStore.DeleteTransaction | context/FinanceContext.tsx:54-56 | no record keeps the id, the rest keep their order, an absent id changes nothing, the profile stays |
| FinanceContext.FinanceStore.ResetData | context/FinanceContext.tsx:58-62 | the profile is the default and the ledger is empty |
| Analytics.Categories | components/Analytics.tsx:25-32 | the category of each record, position by position |
| Analytics.Dedup | components/Analytics.tsx:25-32 | each category once, and exactly the categories given |
| Analytics.SumInSnoc | components/Analytics.tsx:29-30 | a record added at the end adds its amount and 1 to its own category only |
| Analytics.AddToEffect | components/Analytics.tsx:25-32 | one step of the corrected reduce (own-key test): a new category is appended to the keys with count 1 and its amount, a seen one gains 1 and the amount, every other key is untouched |
| Analytics.GroupAllKeys | components/Analytics.tsx:25-32 | the accumulator's keys are the categories in order of first occurrence |
| Analytics.GroupAllTally | components/Analytics.tsx:25-32 | each accumulator entry holds its category's sum and count |
| Analytics.GroupAllSpec | components/Analytics.tsx:25-32 | the corrected reduce (own-key test) over all records: one key per category, no repeats, each with its category's sum and count |
| Analytics.GroupByCategory | components/Analytics.tsx:25-32 | the reduce loop, with the corrected own-key test, yields the accumulator of `GroupAll`; the code as written is `GroupAllAsWritten` |
| Analytics.ChartData | components/Analytics.tsx:20-41 | the chart data computed with the loop equals `Breakdown`, the corrected breakdown; the code as written is `BreakdownAsWritten` |
| Analytics.EntriesOrder | components/Analytics.tsx:36 | `Object.entries` lists exactly the object's keys, each as often as given |
| Analytics.EntriesOrderKeepsNamedKeys | components/Analytics.tsx:36 | keys that are not array indices keep their insertion order |
| Analytics.EntriesOrderIndicesFirst | components/Analytics.tsx:36 | array-index keys come first, in ascending numeric order |
| Analytics.ToSlices | components/Analytics.tsx:37 | each key becomes a row with its name, summed amount and count |
| Analytics.RowsTallied | components/Analytics.tsx:25-37 | the listed keys are each category once, with its sum and count |
| Analytics.RowsOrder | components/Analytics.tsx:36-37 | the unsorted rows follow the `Object.entries` order of the categories |
| Analytics.SlicesAccurate | components/Analytics.tsx:37 | rows made from tallied keys are accurate and have distinct names |
| Analytics.RowsAccurate | components/Analytics.tsx:25-37 | every row states its category's sum and count, no category has two rows, and every category has one |
| Analytics.SortedRows | components/Analytics.tsx:38 | sorting keeps the rows accurate and complete and orders them non-increasing by value |
| Analytics.DedupCardinality | components/Analytics.tsx:25-37 | the number of distinct categories is the size of the set of categories |
| Analytics.Breakdown | components/Analytics.tsx:20-41 | the corrected chart rows are a reordering of the rows for the shown type's records, sorted non-increasing by value |
| Analytics.BreakdownRows | components/Analytics.tsx:20-41 | only records of the shown type count; each of their categories appears exactly once with its sum and count; rows are non-increasing by value |
| Analytics.BreakdownSize | components/Analytics.tsx:35-37 | no category is dropped: one row per distinct category of the shown type |
| Analytics.SumOverKeysCons | components/Analytics.tsx:25-32 | a prepended record adds its amount and 1 to exactly the key of its category |
| Analytics.SumOverKeysTotal | components/Analytics.tsx:25-32 | over keys covering all categories, the group sums add up to the total and the counts to the number of records |
| Analytics.SlicesCarryGroupSums | components/Analytics.tsx:37 | the rows carry the group sums and counts |
| Analytics.RowsConserve | components/Analytics.tsx:25-37 | the rows' values add up to the sum of all amounts, and their counts to the number of records |
| Analytics.TotalAmount | components/Analytics.tsx:43-45 | no rows give 0, and non-negative rows give a non-negative total |
| Analytics.BreakdownConserves | components/Analytics.tsx:43-45 | the chart total equals the sum of the shown type's amounts, and the counts add up to the number of such records |
| Analytics.BreakdownTiesKeepEntriesOrder | components/Analytics.tsx:38 | the sort is stable: rows of equal value keep their `Object.entries` order |
| Analytics.BreakdownEmpty | components/Analytics.tsx:100 | no records of the shown type give no rows |
| Analytics.SingleRows | components/Analytics.tsx:25-37 | one record groups into one row |
| Analytics.SingleRow | components/Analytics.tsx:20-41 | one record of the shown type makes a one-row chart |
| Analytics.BreakdownExample | components/Analytics.tsx:20-41 | Food 10, Food 5, Transport 20 chart as Transport 20 (one record) then Food 15 (two) |
| Analytics.PercentageAsWritten | components/Analytics.tsx:170 | the share is value times 100 over the total; it is not finite exactly when the total is zero |
| Analytics.PercentageOfZeroTotal | components/Analytics.tsx:170 | a single expense of 0 gives a one-row chart whose percentage is not finite |
| Analytics.Percentage | components/Analytics.tsx:170 | the guarded share: value times 100 over the total, or 0 for a zero total |
| Analytics.SumPercentagesScaled | components/Analytics.tsx:170 | the shares of a non-zero total, scaled back, add up to 100 times the values |
| Analytics.PercentagesSumTo100 | components/Analytics.tsx:43-45 | the rows' shares of the chart total add up to 100 |
| Analytics.PercentageBounds | components/Analytics.tsx:170 | a part of a total is between 0 and 100 percent of it |
| Analytics.RowsNonNegative | components/Analytics.tsx:25-37 | with non-negative amounts every row value is non-negative |
| Analytics.PercentageInRange | components/Analytics.tsx:170 | with non-negative amounts every row's share lies in [0, 100] |
| Analytics.ColorAt | components/Analytics.tsx:118 | a row's colour is always a colour of the type's palette |
| Analytics.Palette | components/Analytics.tsx:16-17 | the expense palette has 7 colours and the income palette 5 |
| Analytics.ColorAtPeriodic | components/Analytics.tsx:118 | colours repeat with the palette's length as period |
| Analytics.Inherited | components/Analytics.tsx:26 | an inherited `Object.prototype` name is never the id of a predefined category |
| Analytics.AddToAsWritten | components/Analytics.tsx:25-32 | one step as written agrees with the corrected step exactly when the category already has an own entry or is not an inherited name |
| Analytics.GroupAllAsWritten | components/Analytics.tsx:25-32 | the reduce as written only lists keys that have an entry |
| Analytics.AsWrittenAgreesWithoutInherited | components/Analytics.tsx:25-32 | when no record's category is an inherited name, the reduce as written equals the corrected one |
| Analytics.BreakdownAsWritten | components/Analytics.tsx:20-41 | the chart as written equals the corrected chart whenever no record's category is an inherited name |
| Analytics.InheritedCategoryDropped | components/Analytics.tsx:26 | as written, an expense in a category named "constructor" is missing from the chart, while the corrected breakdown shows it |
| Strings.TrimStart | components/TransactionModal.tsx:48 | leading whitespace is removed and nothing else |
| Strings.TrimEnd | components/TransactionModal.tsx:48 | trailing whitespace is removed and nothing else |
| Strings.Trim | components/TransactionModal.tsx:48 | the result is a slice of the input without whitespace at either end |
| Strings.TrimEmpty | components/TransactionModal.tsx:48 | the trimmed name is empty exactly when the name is all whitespace |
| Strings.TrimIdempotent | components/TransactionModal.tsx:48 | trimming twice is trimming once |
| Strings.LessTransitive | components/Dashboard.tsx:77 | the default string order of `sort` is transitive |
| Strings.LessTotal | components/Dashboard.tsx:77 | any two different strings are ordered |
| Strings.LessAsymmetric | components/Dashboard.tsx:77 | no two strings precede each other |
| Strings.EntryRank | components/Analytics.tsx:36 | array-index keys rank below all other keys, which rank equal |
| Strings.SortStrings | components/Dashboard.tsx:77 | sorting is a permutation |
| Strings.SortStringsMembers | components/Dashboard.tsx:77 | sorting keeps exactly the strings given |
| Strings.SortStringsAscending | components/Dashboard.tsx:77 | sorting distinct strings orders them strictly ascending |
| Strings.AscendingNoDup | components/Dashboard.tsx:77 | an ascending list has no repeats |
| Dashboard.FindCurrency | components/Dashboard.tsx:24 | the lookup fails exactly when no entry has the code; otherwise it returns an entry with the code |
| Dashboard.CurrencySymbol | components/Dashboard.tsx:23-25 | the symbol is never empty, and is '$' when the code is not in the table |
| Dashboard.CurrencyLocale | components/Dashboard.tsx:27-29 | the locale is never empty, and is 'en-US' when the code is not in the table |
| Dashboard.FindDistinct | components/Dashboard.tsx:24 | in a table with distinct codes the lookup returns the one entry with the code |
| Dashboard.FindsOwnEntry | components/Dashboard.tsx:23-29 | with the shipped table every code finds its own entry, so neither fallback is used |
| Dashboard.EuroSymbol | components/Dashboard.tsx:23-29 | a euro profile shows the euro sign and the de-DE locale |
| Dashboard.Filtered | components/Dashboard.tsx:63-69 | every kept record is in the ledger and matches both the type segment and the category chip; the list is no longer than the ledger |
| Dashboard.FilteredAllIsIdentity | components/Dashboard.tsx:63-69 | with both filters on 'all' the list is unchanged |
| Dashboard.FilteredExact | components/Dashboard.tsx:63-69 | the filtered list is an order-preserving subsequence, and every matching record is kept as often as it occurs |
| Dashboard.Displayed | components/Dashboard.tsx:71 | with the panel closed the list is the first min(5, n) records; with it open, the filtered list |
| Dashboard.ShowViewAll | components/Dashboard.tsx:330 | "View all history" is offered exactly when the panel is closed and the closed preview hides some records |
| Dashboard.Relevant | components/Dashboard.tsx:75 | the records kept are in the ledger and match the type segment; with 'all' it is the whole ledger |
| Dashboard.RelevantMembers | components/Dashboard.tsx:75 | a record is relevant exactly when it is in the ledger and matches the type segment |
| Dashboard.ChipsOfRelevant | components/Dashboard.tsx:74-78 | a chip exists exactly when some relevant record has that category |
| Dashboard.AvailableCategories | components/Dashboard.tsx:74-78 | the chips are strictly ascending and never repeat |
| Dashboard.ChipHasRecord | components/Dashboard.tsx:74-78 | every chip is the category of a record of the selected type |
| Dashboard.RecordHasChip | components/Dashboard.tsx:74-78 | the category of every record of the selected type is a chip |
| Dashboard.AvailableCategoriesExact | components/Dashboard.tsx:74-78 | the chips are exactly the categories of the records of the selected type |
| Dashboard.Highlighted | components/Dashboard.tsx:207 | in every reachable state the Filter button is highlighted exactly when the panel is open |
| Dashboard.ClosedPanelIgnoresFilters | components/Dashboard.tsx:71 | with the panel closed the filters have no effect on the list |
| Dashboard.FilterPanel.constructor | components/Dashboard.tsx:16-21 | the panel starts closed with both filters on 'all' |
| Dashboard.FilterPanel.ClearFilters | components/Dashboard.tsx:80-83 | both filters return to 'all' and the panel stays as it was |
| Dashboard.FilterPanel.Toggle | components/Dashboard.tsx:202-205 | the panel flips, and closing it clears both filters |
| Dashboard.FilterPanel.SelectType | components/Dashboard.tsx:225 | choosing a type segment resets the category to 'all' |
| Dashboard.FilterPanel.SelectCategory | components/Dashboard.tsx:240-252 | choosing a chip sets the category and keeps the type |
| Dashboard.FilterPanel.ViewAll | components/Dashboard.tsx:333 | "View all history" opens the panel and keeps the filters |
| BudgetView.DivMonotone | components/BudgetView.tsx:23 | dividing by the budget keeps the order of expenses |
| BudgetView.DivAtLeast | components/BudgetView.tsx:23 | a ratio reaches k exactly when the expense reaches k times the budget |
| BudgetView.RatioReachesHundred | components/BudgetView.tsx:22-24 | the spent percentage reaches 100 exactly at the budget and 80 at four fifths of it |
| BudgetView.Progress | components/BudgetView.tsx:22-24 | 0 without a positive budget, never above 100, and exactly 100 once the expense reaches the budget |
| BudgetView.Remaining | components/BudgetView.tsx:26 | never negative, and zero exactly when the expense reaches the budget |
| BudgetView.DailySafeSpend | components/BudgetView.tsx:107 | never negative; thirty days of it make up the remaining amount |
| BudgetView.TierOf | components/BudgetView.tsx:88-92 | red from 100, amber from 80 below 100, otherwise normal |
| BudgetView.StatusOf | components/BudgetView.tsx:69 | the status cards appear exactly when the budget is positive |
| BudgetView.DangerIffExhausted | components/BudgetView.tsx:22-26 | the bar is red exactly when nothing remains, which is exactly when the expense reaches the budget |
| BudgetView.WarningBand | components/BudgetView.tsx:88-92 | the bar is amber exactly from 80% up to, but not including, 100% of the budget |
| BudgetView.LowRemaining | components/BudgetView.tsx:80 | with a positive budget the amount is red exactly when it is below a fifth of the budget, and always when nothing remains; without a budget a non-negative amount is not red |
| BudgetView.LowRemainingIff | components/BudgetView.tsx:80 | the remaining amount is red exactly when more than 80% is spent |
| BudgetView.EightyPercentBoundary | components/BudgetView.tsx:80-92 | at exactly 80% spent the bar is amber while the remaining amount is not red |
| BudgetView.ProgressAndRemainingAddUp | components/BudgetView.tsx:22-26 | below the budget, the spent share and the remaining amount make up the whole budget |
| BudgetView.MonotoneInExpense | components/BudgetView.tsx:22-26 | more expense never lowers progress or raises the remaining amount |
| BudgetView.ExpenseNeverFreesBudget | components/BudgetView.tsx:9-26 | recording a non-negative expense never frees budget |
| BudgetView.OverBudgetExample | components/BudgetView.tsx:22-107 | budget 100 with 150 spent: full red bar, nothing left, nothing per day |
| BudgetView.OnTrackExample | components/BudgetView.tsx:22-107 | budget 300 with 60 spent: 20%, normal, 240 left, 8 per day |
| BudgetView.BudgetPatch | components/BudgetView.tsx:13-20 | the update holds only the budget: the parsed number, or 0 when it is not a number |
| BudgetView.SaveChangesOnlyBudget | components/BudgetView.tsx:13-20 | saving changes the budget and nothing else; input that is not a number hides the status cards |
| BudgetView.SaveBudget | components/BudgetView.tsx:13-20 | the store's budget becomes the parsed number or 0, and nothing else changes |
| TransactionModal.DefaultCategory | components/TransactionModal.tsx:30 | the default is the first entry of the type's list: 'Food' or 'Salary' |
| TransactionModal.FindCategory | components/TransactionModal.tsx:223 | the lookup fails exactly when no entry has the id; otherwise it returns an entry with the id |
| TransactionModal.SelectedLabel | components/TransactionModal.tsx:223 | 'Custom' shows the typed name or 'Custom'; an unlisted id shows itself |
| TransactionModal.CategoryListsWellFormed | constants.tsx:50-70 | within each list ids are distinct, none is 'Custom', and every label is non-empty |
| TransactionModal.LabelOfListed | components/TransactionModal.tsx:223 | a predefined category shows its own label |
| TransactionModal.DefaultLabels | components/TransactionModal.tsx:30 | the defaults read "Food & Dining" and "Salary" |
| TransactionModal.SubmittedCategoryOffered | components/TransactionModal.tsx:58-64 | a submitted record's category becomes a dashboard chip for its type |
| TransactionModal.TransactionForm.constructor | components/TransactionModal.tsx:15-24 | the form mounts with empty fields, the given type and no category |
| TransactionModal.TransactionForm.Open | components/TransactionModal.tsx:27-38 | opening sets the type and its default category, and clears amount, note, custom name and custom mode |
| TransactionModal.TransactionForm.ChangeType | components/TransactionModal.tsx:40-45 | the new type's first category, custom mode off, other fields kept |
| TransactionModal.TransactionForm.PickCategory | components/TransactionModal.tsx:190 | a tile selects its id and nothing else changes |
| TransactionModal.TransactionForm.StartCustom | components/TransactionModal.tsx:209 | the '+' tile enters custom mode and nothing else changes |
| TransactionModal.TransactionForm.BackToGrid | components/TransactionModal.tsx:155 | leaves custom mode and nothing else changes |
| TransactionModal.TransactionForm.EditCustomName | components/TransactionModal.tsx:169 | sets the custom name only |
| TransactionModal.TransactionForm.EditAmount | components/TransactionModal.tsx:140 | sets the amount text only |
| TransactionModal.TransactionForm.EditNote | components/TransactionModal.tsx:245 | sets the note only |
| TransactionModal.TransactionForm.EditDate | components/TransactionModal.tsx:236 | sets the date only |
| TransactionModal.TransactionForm.ConfirmCustom | components/TransactionModal.tsx:47-52 | a name that is not blank is selected trimmed and custom mode ends; a blank name changes nothing |
| TransactionModal.TransactionForm.Submit | components/TransactionModal.tsx:54-67 | an empty amount adds nothing; otherwise a record with the form's type, category, note and month goes first in the ledger |
| Onboarding.FinishBlocked | components/Onboarding.tsx:16 | finishing is blocked exactly when the name or the balance text is empty |
| Onboarding.FinishPatch | components/Onboarding.tsx:18-24 | the update holds exactly name, currency, balance, the onboarded flag and the theme |
| Onboarding.FinishSetsProfile | components/Onboarding.tsx:18-24 | finishing sets those five fields, forces onboarded and dark, and keeps budget and avatar |
| Onboarding.FinishFromDefault | components/Onboarding.tsx:18-24 | from the default profile, finishing yields the entered values, no budget, '' avatar and dark theme |
| Onboarding.OnboardingForm.constructor | components/Onboarding.tsx:8-13 | the form starts at step 1 with empty fields and USD; the step is always 1 or 2 |
| Onboarding.OnboardingForm.GetStarted | components/Onboarding.tsx:45 | "Get Started" moves to step 2 and keeps the fields |
| Onboarding.OnboardingForm.EditName | components/Onboarding.tsx:73 | sets the name only |
| Onboarding.OnboardingForm.PickCurrency | components/Onboarding.tsx:83 | sets the currency only |
| Onboarding.OnboardingForm.EditBalance | components/Onboarding.tsx:94 | sets the balance text only |
| Onboarding.OnboardingForm.Finish | components/Onboarding.tsx:15-25 | the update happens exactly when neither the name nor the balance is empty (the button's disabled condition), and sets the profile as above |
| Settings.FirstChar | components/Settings.tsx:56 | the first character of the name, or '' for an empty name |
| Settings.AvatarDisplay | components/Settings.tsx:51-57 | image when longer than 10, glyph when 1 to 10 long, first letter of the name when empty or absent |
| Settings.AvatarOrEmpty | components/Settings.tsx:16 | the avatar, or '' when absent |
| Settings.AvatarRoundTrip | components/Settings.tsx:24-33 | filling the editor from the avatar and storing it back never changes what is displayed |
| Settings.DefaultAvatarIsInitial | components/Dashboard.tsx:91-98 | the default profile shows the (empty) first letter of its name |
| Settings.Toggled | components/Settings.tsx:36 | the switch always changes the theme |
| Settings.ToggledInvolution | components/Settings.tsx:35-37 | switching twice gives the original theme |
| Settings.ProfilePatch | components/Settings.tsx:31 | the update holds exactly the name and the avatar |
| Settings.ThemePatch | components/Settings.tsx:36 | the update holds exactly the theme |
| Settings.CurrencyPatch | components/Settings.tsx:124 | the update holds exactly the currency |
| Settings.SaveChangesOnlyNameAndAvatar | components/Settings.tsx:30-33 | saving changes the name and avatar and nothing else |
| Settings.ToggleChangesOnlyTheme | components/Settings.tsx:35-37 | the switch changes only the theme, and switching twice restores the profile |
| Settings.CurrencyChangesOnlyCurrency | components/Settings.tsx:124 | choosing a currency changes only the currency |
| Settings.EditorRoundTrip | components/Settings.tsx:24-33 | opening the editor and saving untouched changes nothing, except that an absent avatar becomes '' |
| Settings.SettingsScreen.constructor | components/Settings.tsx:12-16 | the editor starts closed, filled from the profile |
| Settings.SettingsScreen.OpenEditProfile | components/Settings.tsx:24-28 | the editor opens with the current name and the avatar or '' |
| Settings.SettingsScreen.EditName | components/Settings.tsx:160 | sets the temporary name only |
| Settings.SettingsScreen.PickAvatar | components/Settings.tsx:171 | sets the temporary avatar only |
| Settings.SettingsScreen.CloseEditor | components/Settings.tsx:148-152 | closes the editor without saving |
| Settings.SettingsScreen.SaveProfile | components/Settings.tsx:30-33 | stores the temporary name and avatar, nothing else, and closes the editor |
| Settings.SettingsScreen.ToggleTheme | components/Settings.tsx:35-37 | the store's theme flips and nothing else changes |
| Settings.SettingsScreen.SelectCurrency | components/Settings.tsx:124 | the store's currency is set and nothing else changes |
| Settings.SettingsScreen.Reset | components/Settings.tsx:18-22 | only a confirmed reset restores the default profile and empties the ledger; otherwise nothing changes |

## Left out

- Persistence in `localStorage` and the JSON round trip are not modelled (context/FinanceContext.tsx:9-20, 33-39, 61-62). The stored profile and ledger are parameters of the store's constructor. `JSON.parse` is unguarded in the source, so corrupt stored data throws; the model has no such case and no fallback.
- The page reload after a reset, the `classList` theme effect and the `useFinance` context plumbing are not modelled. They are side effects with no state the model could observe.
- Dates: parsing, local-time month extraction and ISO-string conversion are not modelled. A record's date is the `YearMonth` it falls in, and the current month is a parameter.
- The generated id: `crypto.randomUUID` is not modelled. The id is a parameter, and uniqueness of ids is proved under the assumption that it is fresh.
- Floating point: amounts are exact reals.
  - `parseFloat` is not modelled. Its result is a parameter, with `None` standing for NaN where the source tests `isNaN`.
  - Rounding and display formatting are not modelled: `toFixed`, `Math.round`, `Intl.NumberFormat`.
  - NaN propagation is not modelled, except for the zero-total percentage, which is modelled as "not finite".
- `BudgetView.Progress`: the `monthlyBudget &&` and `|| 0` guards only matter for NaN, which a real-valued budget cannot be.
- String lengths and order are in code points, while JavaScript uses UTF-16 code units. This affects three things:
  - the avatar's "longer than 10" test for characters outside the Basic Multilingual Plane;
  - the sort order of such category names;
  - `Settings.FirstChar`: `charAt(0)` returns the first UTF-16 unit, which for a name that starts with such a character is half a surrogate pair; the model returns the whole character.
- Presentation is not modelled: JSX, styling, recharts, the icons and `getCategoryIcon` (components/Dashboard.tsx:50-54), the `CurrencySelect` dropdown and `App.tsx` navigation.
- The `AVATARS` glyph list (constants.tsx:42) is not modelled. Any string can be picked.
- The icon of each category and the `flag` column of the currency table are not modelled.
- Balance visibility on the dashboard (components/Dashboard.tsx:17) is not modelled. It is a display toggle.
- The budget screen's text field (`budgetInput`, components/BudgetView.tsx:8) is not modelled. Saving takes the parsed value directly.
- The modal's `onClose` callback is not modelled.
- `Dashboard.FilterPanel.SelectType`: requires the panel to be open, because the segment is only rendered then.
- `Dashboard.FilterPanel.SelectCategory`: requires the panel to be open, for the same reason. The model does not express that the category 'all' is indistinguishable from a custom category literally named "all".
- `Onboarding.OnboardingForm.Finish`: requires the form step, because the finish button is only rendered on step 2 (components/Onboarding.tsx:27-101).
- `Analytics.GroupByCategory` and `Analytics.ChartData` use the corrected own-key test, not the code's `!acc[t.category]`; the code as written is modelled by `Analytics.GroupAllAsWritten` and `Analytics.BreakdownAsWritten` (see Findings).
- `TransactionModal.TransactionForm.PickCategory`: requires the id to be one of the current type's tiles, because only those are rendered.

## Findings

| source | as written | input that shows it | evidently intended | confidence | as-written member | corrected member |
|---|---|---|---|---|---|---|
| components/Analytics.tsx:25-32 | the reducer tests `!acc[t.category]` on a plain object literal, so a category named after a key inherited from `Object.prototype` finds the inherited member, gets no own entry, and is left out of `Object.entries` | one expense of 10 in the custom category "constructor" | every category appears in the chart with its sum and count | not executed | Analytics.InheritedCategoryDropped | Analytics.BreakdownRows |
| components/Analytics.tsx:170 | the percentage divides by `totalAmount` without a guard | one expense of amount 0: the total is 0 and the row shows "NaN%" | a zero total shows 0% | not executed | Analytics.PercentageOfZeroTotal | Analytics.PercentagesSumTo100 |

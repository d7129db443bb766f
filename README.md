# 15days finance core, in Dafny

This project models the financial-record engine of the 15days finance
single-page app, and proves properties of that model. The engine is one
document, described below, together with the hook that reads and changes
it. The model also covers the decision rules the views apply to that
document:

- the next-payday countdown;
- savings-goal progress and the months left to reach a goal;
- the payday notification gate over "seen" markers;
- the dashboard's derived conditions;
- the per-payment savings breakdown;
- the savings-percentage dialog;
- the add-payment form;
- the settings page's goal form and blur handlers.

The document holds:

- the payment days;
- a savings percentage;
- savings goals;
- monthly expenses;
- a user name;
- an optional `numbersVisible` flag.

Money and percentages are exact `real`s. A day of the month is an `int`.

These come in as parameters:

- **Ids.** The new id of an added record is a parameter, standing in for a
  fresh-id source. Lemmas about uniqueness require that it is fresh.
- **The clock.** Today's date comes in as a `CalendarDate`: year, 0-based
  month and day, as `getFullYear`, `getMonth` and `getDate` report them.
- **Input text.** The text of a number input is a string restricted to what
  such an input delivers. `parseInt`, `parseFloat` and `parseFloat(...) || 0`
  are modelled on that text, and `None` stands for `NaN`.

Modules, one per source file:

- `Finance` holds the document types (src/types/finance.ts).
- `FinancialDataHook` holds the derived figures, the list transformations
  and the `FinancialDataStore` class. That class keeps the document and its
  stored copy, and every mutation writes the copy back
  (src/hooks/useFinancialData.ts).
- `NextPaydayCountdown` holds the countdown. `Calendar` supplies the
  Gregorian day arithmetic that stands in for `new Date(y, m + 1, d)`.
- `SavingsGoalCard`, `IndexPage`, `SavingsPerPayday`, `SavingsAdjustModal`,
  `AddPaymentForm` and `ConfigurarPage` follow the view files of the same
  names.
- `NumberText` holds the number parsing and printing those views rely on.

State that the source changes in place is a class:

- the hook's data cell;
- the dashboard's modal state and markers;
- the dialog's percentage;
- the two forms' fields.

A parent hands each view its callbacks. The model records the calls a
view makes in a log field, such as `added` or `calls`. Two methods wire a
view to the store as its parent does: `SlideAndSave` for the savings
dialog, and `ConfigurarPage.AddPaymentFromForm` for the add-payment form on
the settings page. The settings page's own handlers take the store and call
its methods directly.

Three facts about the code that the model keeps:

- `addToGoal` does not reject amounts of zero or below (`FundAcceptsNegative`).
- A stored text that parses is taken as it is, with no check of its fields.
  A stored text that does not parse makes `JSON.parse` throw, and the hook
  fails.
- The default document has no `numbersVisible` field.

## Model

| member | source | states |
|---|---|---|
| FinancialDataHook.FinancialDataStore.constructor | src/hooks/useFinancialData.ts:4-16 | with nothing stored the document is the default (no payments, 15%, no goals, expenses 0, name empty, no `numbersVisible`); a stored document is taken as it is; the copy in storage equals the document |
| FinancialDataHook.SumAmounts | src/hooks/useFinancialData.ts:22 | the sum of the amounts is not negative when no amount is negative (an induction on the list) |
| FinancialDataHook.TotalMonthlyIncome | src/hooks/useFinancialData.ts:22 | no payments give zero income; income is not negative when no amount is |
| FinancialDataHook.TotalSavingsPerPayment | src/hooks/useFinancialData.ts:23 | with a percentage from 0 to 100, the share of a non-negative payment lies between 0 and the payment |
| FinancialDataHook.MonthlySavings | src/hooks/useFinancialData.ts:24 | the per-payment share applied to the whole income; between 0 and the income for a percentage from 0 to 100 |
| FinancialDataHook.AvailableAfterSavings | src/hooks/useFinancialData.ts:25 | the unsaved part of the income, (100 - percentage)% of it, less the expenses, unclamped |
| FinancialDataHook.FinancialDataStore.UpdatePaymentDay | src/hooks/useFinancialData.ts:27-34 | only the payment list changes, to the merge of the patch into entries carrying the id; the change is persisted |
| FinancialDataHook.FinancialDataStore.AddPaymentDay | src/hooks/useFinancialData.ts:36-44 | exactly one record, the input with the new id, is appended after the unchanged earlier entries; total income rises by exactly its amount; persisted |
| FinancialDataHook.FinancialDataStore.RemovePaymentDay | src/hooks/useFinancialData.ts:46-51 | the list becomes the id-filtered list; income falls by the sum of the removed entries; persisted |
| FinancialDataHook.FinancialDataStore.UpdateSavingsPercentage | src/hooks/useFinancialData.ts:53-55 | only the percentage changes, to any value at all (no range check); persisted |
| FinancialDataHook.FinancialDataStore.UpdateMonthlyExpenses | src/hooks/useFinancialData.ts:57-59 | only the expenses change, unchecked; persisted |
| FinancialDataHook.FinancialDataStore.AddToGoal | src/hooks/useFinancialData.ts:61-70 | only the goal list changes, to the clamped funding of the goals with the id; if every goal was within its target, every goal still is; persisted |
| FinancialDataHook.FinancialDataStore.AddSavingsGoal | src/hooks/useFinancialData.ts:72-77 | exactly one goal, the input with the new id, is appended; persisted |
| FinancialDataHook.FinancialDataStore.RemoveSavingsGoal | src/hooks/useFinancialData.ts:79-84 | the goal list becomes the id-filtered list; persisted |
| FinancialDataHook.FinancialDataStore.UpdateUserName | src/hooks/useFinancialData.ts:86-88 | only the name changes, verbatim; persisted |
| FinancialDataHook.ReloadRoundTrip | src/hooks/useFinancialData.ts:13-20 | loading what the effect stored gives back the same document, and the reloaded store is persisted; storage holds the document value itself, so this holds by that abstraction and says nothing about the JSON text |
| FinancialDataHook.SetScalarsTwice | src/hooks/useFinancialData.ts:53-59 | the percentage, expenses and name setters are idempotent, each replaces only its own field, and the result is persisted |
| FinancialDataHook.IncomeAfterAdd | src/hooks/useFinancialData.ts:22 | appending a payment raises the total income by exactly its amount |
| FinancialDataHook.IncomeAfterRemove | src/hooks/useFinancialData.ts:46-51 | removing an id lowers the sum of amounts by the sum of the entries carrying that id |
| FinancialDataHook.IncomeAfterUpdate | src/hooks/useFinancialData.ts:27-34 | an update that supplies no amount leaves the income unchanged |
| FinancialDataHook.RemovePayment | src/hooks/useFinancialData.ts:49 | an entry survives iff it was present and its id differs; an absent id leaves the list unchanged |
| FinancialDataHook.PaymentsWithId | src/hooks/useFinancialData.ts:49 | holds exactly the entries the filter drops |
| FinancialDataHook.RemovePaymentAppend | src/hooks/useFinancialData.ts:49 | removal distributes over concatenation |
| FinancialDataHook.RemovePaymentKeepsOrder | src/hooks/useFinancialData.ts:49 | an entry with another id stays where it was, between the filtered parts before and after it |
| FinancialDataHook.RemovePaymentIdempotent | src/hooks/useFinancialData.ts:46-51 | removing twice equals removing once |
| FinancialDataHook.RemovePaymentKeepsUnique | src/hooks/useFinancialData.ts:46-51 | removal keeps payment ids unique |
| FinancialDataHook.RemoveGoal | src/hooks/useFinancialData.ts:82 | a goal survives iff it was present and its id differs; an absent id leaves the list unchanged |
| FinancialDataHook.RemoveGoalAppend | src/hooks/useFinancialData.ts:82 | goal removal distributes over concatenation |
| FinancialDataHook.RemoveGoalKeepsOrder | src/hooks/useFinancialData.ts:82 | goals with another id keep their order |
| FinancialDataHook.RemoveGoalIdempotent | src/hooks/useFinancialData.ts:79-84 | removing a goal twice equals removing it once |
| FinancialDataHook.Merge | src/hooks/useFinancialData.ts:31 | every field the patch supplies overrides, every other field is kept |
| FinancialDataHook.MergeById | src/hooks/useFinancialData.ts:30-32 | same length; position by position, only entries with the id are merged, the rest are identical |
| FinancialDataHook.MergeKeepsUnique | src/hooks/useFinancialData.ts:27-34 | a patch without an id keeps payment ids unique |
| FinancialDataHook.Fund | src/hooks/useFinancialData.ts:66 | the new amount never exceeds the target, is the sum or the target, and no other field changes |
| FinancialDataHook.FundById | src/hooks/useFinancialData.ts:64-68 | same length; only goals with the id are funded, the others are identical |
| FinancialDataHook.FundIsMin | src/hooks/useFinancialData.ts:66 | the new amount is the sum exactly when the sum does not exceed the target, and otherwise lies below the sum |
| FinancialDataHook.FundNeverDecreases | src/hooks/useFinancialData.ts:66 | a non-negative amount never lowers a goal within its target |
| FinancialDataHook.FundAcceptsNegative | src/hooks/useFinancialData.ts:61-70 | a negative amount is applied, lowering the goal |
| FinancialDataHook.FundKeepsWithinTargets | src/hooks/useFinancialData.ts:61-70 | funding keeps every goal within its target |
| FinancialDataHook.AppendFreshKeepsUniquePayments | src/hooks/useFinancialData.ts:36-44 | appending with a fresh id keeps payment ids unique |
| FinancialDataHook.AppendFreshKeepsUniqueGoals | src/hooks/useFinancialData.ts:72-77 | appending with a fresh id keeps goal ids unique |
| FinancialDataHook.RemoveUndoesFreshAdd | src/hooks/useFinancialData.ts:36-51 | removing the id just added gives back the list before the add |
| FinancialDataHook.RemoveUndoesFreshGoal | src/hooks/useFinancialData.ts:72-84 | removing the goal just added gives back the goals before the add |
| NextPaydayCountdown.InsertByDay | src/components/NextPaydayCountdown.tsx:17 | inserting adds exactly one occurrence of the entry (multiset) |
| NextPaydayCountdown.InsertKeepsSorted | src/components/NextPaydayCountdown.tsx:17 | inserting into a list sorted by day keeps it sorted |
| NextPaydayCountdown.SortByDay | src/components/NextPaydayCountdown.tsx:17 | the copy is sorted by day, a permutation of the input, of the same length |
| NextPaydayCountdown.SameEntries | src/components/NextPaydayCountdown.tsx:17 | the sorted copy has exactly the input's entries |
| NextPaydayCountdown.FindLater | src/components/NextPaydayCountdown.tsx:22 | finds the first entry later than the current day, or none iff every day is at most the current day |
| NextPaydayCountdown.FindLaterIsLeast | src/components/NextPaydayCountdown.tsx:17-22 | on the sorted copy the entry found has the least later day |
| NextPaydayCountdown.Compute | src/components/NextPaydayCountdown.tsx:10-38 | no countdown iff there are no payment days; the chosen payment is a stored one; the payday flag holds iff some stored payment falls today |
| NextPaydayCountdown.HasDay | src/components/NextPaydayCountdown.tsx:36 | `some(p => p.day === currentDay)`: holds iff some entry of the list has that day |
| NextPaydayCountdown.WrapDays | src/components/NextPaydayCountdown.tsx:30-32 | for a month from 0 to 11, the days from today to that day of the next month are the rest of this month plus the day |
| NextPaydayCountdown.LaterBranch | src/components/NextPaydayCountdown.tsx:22-26 | with a later day this month, next is the least later day and the count is that day minus today, at least 1 |
| NextPaydayCountdown.ComputeWrap | src/components/NextPaydayCountdown.tsx:27-30 | with no later day, next is the first entry of the sorted copy and the count is the distance to its day in the next month |
| NextPaydayCountdown.WrapBranch | src/components/NextPaydayCountdown.tsx:27-33 | with no later day, next has the smallest day overall and the count is days-in-month minus today plus that day, across December too |
| NextPaydayCountdown.DaysUntilPositive | src/components/NextPaydayCountdown.tsx:22-33 | on a real date with every stored day at least 1, the count is at least 1 in either branch |
| NextPaydayCountdown.Render | src/components/NextPaydayCountdown.tsx:51-61 | the payday message shows iff the flag holds; otherwise the count and day of next, with "dia" iff the count is 1 |
| Calendar.DaysInMonth | src/components/NextPaydayCountdown.tsx:30 | every month of the Gregorian calendar has 28 to 31 days |
| Calendar.YearLength | src/components/NextPaydayCountdown.tsx:30 | a year has 366 days iff it is a leap year, else 365 |
| Calendar.DayNumber | src/components/NextPaydayCountdown.tsx:30 | `new Date(y, m, d)` as a day count: a month from 0 to 11 counts within year y, and months 12 to 23 roll over into January to December of year y + 1 |
| Calendar.NextMonthDistance | src/components/NextPaydayCountdown.tsx:30-32 | day `d` of the next month, as `Date` rolls it over, lies days-in-month minus `c` plus `d` days after day `c` |
| SavingsGoalCard.IconFor | src/components/SavingsGoalCard.tsx:7-24 | a key outside the map falls back to the target icon, and only "target" or such a key gives it |
| SavingsGoalCard.IconKeysDistinct | src/components/SavingsGoalCard.tsx:7-15 | the seven keys name seven different icons; every key but "target" has an icon other than the target one |
| SavingsGoalCard.IconKeyRoundTrip | src/components/SavingsGoalCard.tsx:7-24 | each of the seven keys is looked up to its own icon: reading the key back from the icon gives the key |
| SavingsGoalCard.Round | src/components/SavingsGoalCard.tsx:25 | `Math.round`: the integer within half of the value, halves upward |
| SavingsGoalCard.Ceil | src/components/SavingsGoalCard.tsx:27 | `Math.ceil`: the least integer not below the value |
| SavingsGoalCard.Percentage | src/components/SavingsGoalCard.tsx:25 | between 0 and 100 while the saved amount is within the target; 0 with nothing saved; 100 when the target is met |
| SavingsGoalCard.Remaining | src/components/SavingsGoalCard.tsx:26 | nothing or less is left iff the saved amount reaches the target; never more than the target while the saved amount is not negative |
| SavingsGoalCard.MonthsToGoal | src/components/SavingsGoalCard.tsx:27 | infinite iff monthly savings are not positive; otherwise the least month count whose savings cover what remains |
| SavingsGoalCard.Label | src/components/SavingsGoalCard.tsx:32-37 | goal reached iff percentage at least 100, then the configure label iff no savings, then the singular label iff one month, else the month count |
| SavingsGoalCard.LabelText | src/components/SavingsGoalCard.tsx:33-36 | `parseInt` of the months text reads its count, of the one-month text 1, and of the reached and configure texts no number |
| SavingsGoalCard.View | src/components/SavingsGoalCard.tsx:23-37 | the card shows the icon, percentage and remaining amount of the goal; reached iff the percentage is at least 100; configure iff unfinished with no savings; a month count is the least whose savings cover what remains |
| SavingsGoalCard.ReachedIffNinetyNineAndAHalf | src/components/SavingsGoalCard.tsx:25-33 | the reached label shows iff 200 times the saved amount is at least 199 times the target |
| SavingsGoalCard.ReachedWinsOverSentinel | src/components/SavingsGoalCard.tsx:33-34 | once the percentage reaches 100 the label is "reached" whatever the savings |
| SavingsGoalCard.NoSavingsShowsConfigure | src/components/SavingsGoalCard.tsx:27-34 | without savings an unfinished goal shows the configure label |
| SavingsGoalCard.ThreeMonthsExample | src/components/SavingsGoalCard.tsx:24-36 | 400 of 1000 saved at 200 a month shows the plane icon, 40%, 600 remaining and 3 months |
| IndexPage.FirstUnseen | src/pages/Index.tsx:40-47 | picks the first payment in stored order that is eligible (day reached, marker unset), and none iff no payment is eligible |
| IndexPage.Eligible | src/pages/Index.tsx:42-46 | an eligible payment is an upcoming chip exactly when its day is today |
| IndexPage.IndexState.constructor | src/pages/Index.tsx:25-27 | the modal starts closed on the first payment, if any, over the stored markers |
| IndexPage.IndexState.CheckUnseenPayments | src/pages/Index.tsx:33-53 | opens the modal on the first unseen payment; with none, nothing changes; markers are never written |
| IndexPage.IndexState.ClosePaydayModal | src/pages/Index.tsx:55-63 | closes the modal and adds the marker for the active payment's day in the current month, if there is an active payment |
| IndexPage.IndexState.SimulatePayday | src/pages/Index.tsx:65-68 | opens the modal on the first payment whatever the markers say |
| IndexPage.SimulateThenClose | src/pages/Index.tsx:55-68 | simulating then closing writes the first payment's marker, and nothing with no payments; the first payment, or none, stays active and the dialog is closed |
| IndexPage.NeverSelectsLaterDay | src/pages/Index.tsx:42 | the gate never picks a payment whose day is still to come, and picks an entry of the list |
| IndexPage.DismissSilencesDay | src/pages/Index.tsx:45-59 | with a day's marker set, no payment on that day is eligible that month, whatever its id |
| IndexPage.OtherMonthUnaffected | src/pages/Index.tsx:45-59 | a marker for another month does not change the gate's choice |
| IndexPage.DismissThenNextMonth | src/pages/Index.tsx:45-59 | a dismissal leaves the gate of any other month exactly as it was |
| IndexPage.FirstAccessIgnoresName | src/pages/Index.tsx:75 | the first-access screen does not depend on the user name |
| IndexPage.IsFirstAccess | src/pages/Index.tsx:75 | on the first-access screen the income, the savings and the balance are all zero |
| IndexPage.DefaultIsFirstAccess | src/pages/Index.tsx:75 | the default document shows the first-access screen |
| IndexPage.AddedPaymentEndsFirstAccess | src/pages/Index.tsx:75 | after adding a payment the first-access screen no longer shows |
| IndexPage.TrendOf | src/pages/Index.tsx:167 | the trend is up iff expenses are below the income left after savings; a zero balance is down |
| IndexPage.PerFortnight | src/pages/Index.tsx:146-149 | the card shows iff there is more than one payment day, with half the income |
| IndexPage.IsUpcoming | src/pages/Index.tsx:241-242 | a chip is upcoming from its day onwards; no contract of its own (see `Eligible` and `TodayIsUpcomingAndEligible`) |
| IndexPage.TodayIsUpcomingAndEligible | src/pages/Index.tsx:242 | a payment dated today is both an upcoming chip and, until dismissed, eligible for the gate |
| IndexPage.ModalSavingsAmount | src/pages/Index.tsx:271 | the modal's savings are the per-payment share of the active payment, or 0 without one |
| SavingsPerPayday.RowLabel | src/components/SavingsPerPayday.tsx:48 | the description when present and non-empty, else "Dia" and the day |
| SavingsPerPayday.Rows | src/components/SavingsPerPayday.tsx:32-33 | one row per payment, in stored order, with its day, label, amount and share |
| SavingsPerPayday.RowsMatchPerPayment | src/components/SavingsPerPayday.tsx:33 | each row's savings equal the hook's per-payment savings for that payment |
| SavingsPerPayday.RowsSumToMonthlySavings | src/components/SavingsPerPayday.tsx:33 | the rows' savings add up to the monthly savings |
| SavingsAdjustModal.Recommend | src/components/SavingsAdjustModal.tsx:29-34 | the four bands below 10, 10 to 15, 15 to 20 and from 20 partition the percentages |
| SavingsAdjustModal.Text | src/components/SavingsAdjustModal.tsx:30-33 | the message of each band; no contract of its own (see `BandsDistinct`) |
| SavingsAdjustModal.Color | src/components/SavingsAdjustModal.tsx:30-33 | the colour of each band; no contract of its own (see `BandsDistinct`) |
| SavingsAdjustModal.BandsDistinct | src/components/SavingsAdjustModal.tsx:29-34 | two different bands show different messages in different colours |
| SavingsAdjustModal.RecommendationMonotone | src/components/SavingsAdjustModal.tsx:29-34 | a higher percentage never gets a lower band |
| SavingsAdjustModal.SavingsPreview | src/components/SavingsAdjustModal.tsx:27 | within the slider range of 0 to 50 the preview of a non-negative income is at most half of it |
| SavingsAdjustModal.PreviewAtStoredPercentage | src/components/SavingsAdjustModal.tsx:27 | at the stored percentage the preview equals the monthly savings |
| SavingsAdjustModal.IsOptimal | src/components/SavingsBox.tsx:23 | the savings box's optimal badge shows iff the dialog's band is "excellent" or higher |
| SavingsAdjustModal.AdjustModalState.constructor | src/components/SavingsAdjustModal.tsx:22 | the local percentage starts at the current one, with no callbacks issued |
| SavingsAdjustModal.AdjustModalState.SlideTo | src/components/SavingsAdjustModal.tsx:84-90 | the slider sets a whole percentage from 0 to 50 and issues nothing |
| SavingsAdjustModal.AdjustModalState.HandleSave | src/components/SavingsAdjustModal.tsx:38-41 | issues save with the local percentage, then close |
| SavingsAdjustModal.AdjustModalState.Dismiss | src/components/SavingsAdjustModal.tsx:52-108 | cancel, the close button and the backdrop issue only close |
| SavingsAdjustModal.SlideAndSave | src/components/SavingsAdjustModal.tsx:38-90 | sliding then saving logs save and close, stores exactly the slider value as the percentage with nothing else changed, writes the copy back, and the dialog keeps that value |
| AddPaymentForm.Submitted | src/components/AddPaymentForm.tsx:22-26 | the record carries the parsed day and amount and a non-empty description, "Pagamento dia" and the typed day when none was given |
| AddPaymentForm.FormState.constructor | src/components/AddPaymentForm.tsx:13-16 | the fields start empty and the form collapsed |
| AddPaymentForm.FormState.Expand | src/components/AddPaymentForm.tsx:44 | expands and keeps the fields |
| AddPaymentForm.FormState.Collapse | src/components/AddPaymentForm.tsx:102 | collapses and keeps the fields |
| AddPaymentForm.FormState.SetDay | src/components/AddPaymentForm.tsx:64 | the day field holds the typed text |
| AddPaymentForm.FormState.SetAmount | src/components/AddPaymentForm.tsx:79 | the amount field holds the typed text |
| AddPaymentForm.FormState.SetDescription | src/components/AddPaymentForm.tsx:93 | the description field holds the typed text |
| AddPaymentForm.FormState.HandleSubmit | src/components/AddPaymentForm.tsx:18-32 | with day or amount empty nothing is issued and nothing changes; otherwise exactly one record is issued and all fields reset, form collapsed |
| AddPaymentForm.DayRangeNotEnforced | src/components/AddPaymentForm.tsx:20-26 | `handleSubmit` does not check the day's range: any whole number in the day field, inside 1..31 or not, is a valid day text, is handed on as that number, and gets "Pagamento dia" and that number as its default description; the input's `min`/`max` are the only guard |
| ConfigurarPage.ChoiceLists | src/pages/Configurar.tsx:19-33 | seven distinct icon keys, the same set the goal card knows, three distinct colours, defaults among them |
| ConfigurarPage.OfferedIconsRender | src/pages/Configurar.tsx:19-27 | an offered icon shows the target icon iff it is "target" |
| ConfigurarPage.NewGoal | src/pages/Configurar.tsx:61-67 | the goal has the parsed target, nothing saved yet, and the chosen name, icon and colour |
| ConfigurarPage.NewGoalWithinTarget | src/pages/Configurar.tsx:61-67 | a goal created with a non-negative target starts within it |
| ConfigurarPage.SettingsState.constructor | src/pages/Configurar.tsx:46-52 | the form starts closed and empty with the default icon and colour; the name is the stored name; the expenses text is one that reads back as the stored figure, as `toString` gives |
| ConfigurarPage.SettingsState.OpenGoalForm | src/pages/Configurar.tsx:234 | the new-goal button shows the form |
| ConfigurarPage.SettingsState.CancelGoalForm | src/pages/Configurar.tsx:299 | cancel hides the form; what was typed stays |
| ConfigurarPage.SettingsState.SetGoalName | src/pages/Configurar.tsx:247 | the goal name field holds the typed text |
| ConfigurarPage.SettingsState.SetGoalTarget | src/pages/Configurar.tsx:258 | the goal target field holds the typed number text |
| ConfigurarPage.SettingsState.SetExpenses | src/pages/Configurar.tsx:171 | the expenses field holds the typed number text; nothing is stored before blur |
| ConfigurarPage.SettingsState.SetUserName | src/pages/Configurar.tsx:130 | the name field holds the typed text; nothing is stored before blur |
| ConfigurarPage.SettingsState.HandleAddGoal | src/pages/Configurar.tsx:57-74 | with name or target empty nothing changes; otherwise one new goal is added to the store and the form resets to its defaults and closes |
| ConfigurarPage.SettingsState.HandleExpensesBlur | src/pages/Configurar.tsx:76-79 | stores the parsed expenses, 0 when the text does not parse |
| ConfigurarPage.SettingsState.HandleUserNameBlur | src/pages/Configurar.tsx:81-83 | stores the name exactly as typed |
| ConfigurarPage.AddPaymentFromForm | src/pages/Configurar.tsx:142 | with day and amount filled in, the form logs its record, resets its fields and collapses, and the store appends the record under the fresh id, persisted; otherwise every field of the form and the store are unchanged |
| ConfigurarPage.SettingsState.SetGoalIcon | src/pages/Configurar.tsx:266 | the icon select holds one of the offered keys |
| ConfigurarPage.SettingsState.SetGoalColor | src/pages/Configurar.tsx:281 | the colour select holds one of the offered colours |
| ConfigurarPage.ExpensesBlurRoundTrip | src/pages/Configurar.tsx:51-79 | an untouched whole-number expenses text stores back the same value; an empty one stores 0 |
| NumberText.ParseIntOfIntToString | src/components/AddPaymentForm.tsx:23 | `parseInt` reads back any integer printed in decimal |
| NumberText.ParseFloatOfIntToString | src/pages/Configurar.tsx:77 | `parseFloat` reads back any integer printed in decimal |
| NumberText.ParseFloatOfNumberText | src/components/AddPaymentForm.tsx:24 | the non-empty text of a number input always parses |
| NumberText.ParseFloatOrZero | src/pages/Configurar.tsx:77 | the parsed value, or 0 when the text does not parse |
| NumberText.ParseFloatNonNegative | src/pages/Configurar.tsx:63 | text without a minus sign never parses to a negative number |
| NumberText.ParseInt | src/components/AddPaymentForm.tsx:23 | `parseInt`: empty text is NaN; a digits-only text reads as its decimal value; a negative result needs a leading minus |
| NumberText.ParseFloat | src/components/AddPaymentForm.tsx:24 | `parseFloat`: empty text is NaN; a digits-only text reads as its decimal value; a negative result needs a leading minus |
| NumberText.IntToString | src/components/SavingsPerPayday.tsx:48 | `${n}`: a minus sign exactly for negative numbers, then at least one digit and nothing else |
| NumberText.ParseIntOfIntToStringThen | src/components/SavingsGoalCard.tsx:36 | `parseInt` reads back an integer printed in decimal even with text after it that starts with no digit |
| NumberText.IntToStringIsIntegralLead | src/components/AddPaymentForm.tsx:58-64 | the printed text of any integer is something the number input delivers and `parseInt` reads |

## Left out

- Rendering, styling, animation, currency formatting and navigation are not
  part of this model.
- The presentation-only files are not part of this model: the header, the
  footer, the finance card, the payment list and the payday dialog.
- Storage I/O and JSON are abstracted. The stored document is an
  `Option<FinancialData>` field. A malformed stored text, which makes
  `JSON.parse` throw, is not modelled.
- The seen markers are a `set` of (year, month, day).
- Ids from `Date.now()` are a parameter. Two records created in the same
  millisecond would share an id; that collision is not modelled.
- Floating-point money is replaced by exact reals. So are JavaScript's
  rounding of sums and shares, `NaN`, and `Infinity` apart from the
  months sentinel.
- The wall clock is a parameter. The countdown is the calendar-day
  distance. The daylight-saving and time-of-day effects of `Math.ceil` over
  millisecond differences are not modelled.
- React's lifecycle is not modelled: effect re-runs, closures, re-renders,
  and the dialog keeping its first `currentPercentage` after the prop
  changes.
- `updatePaymentDay` with a field explicitly set to `undefined` in the
  patch is not modelled. A patch field is either supplied or absent.
- NextPaydayCountdown.SortByDay: stability (equal days keep their order) is
  not stated. The comparator sorts by day only, and no property here
  depends on the order of equal days.
- SavingsGoalCard.View: requires a positive target. With a zero target the
  source divides by zero and shows `NaN`. A negative target is excluded too:
  the goal-target input has no `min`, so "-100" makes a goal, and the card
  then shows a negative percentage and month count. Neither rendering is
  modelled.
- AddPaymentForm.DayRangeNotEnforced: the browser's check of the day
  input's `min`, `max` and step, which blocks the submit of a day such as
  "40", "-3" or "1.5", is not modelled. The lemma is about `handleSubmit`
  alone; only a stored document can carry such a day onward.
- NumberText.ParseFloat: the exponent forms a number input can also
  deliver ("1e3") are not modelled.
- NumberText.IntToString: JavaScript prints numbers from 1e21 upward in
  exponent form, and the model does not. Day and amount texts are typed
  rather than printed.
- ConfigurarPage.SettingsState.constructor: the expenses text is a
  parameter that must read back as the stored figure, standing in for
  `data.monthlyExpenses.toString()`. A figure whose `toString` uses the
  exponent form, from 1e21 upward or below 1e-6, cannot be given.
- SavingsGoalCard.IconFor: `iconMap` is a plain object, so a stored icon key
  that names an inherited property, such as "constructor" or "toString",
  finds that property instead of falling back to the target icon. The model
  lets every key outside the seven fall back. The settings page only offers
  the seven keys, so only a stored document can hold such a key.
- AddPaymentForm.FormState.SetDay: the day text is limited to forms on
  which `parseInt` yields a number. A text such as ".5", which a number
  input accepts and `parseInt` reads as `NaN`, is excluded.
- IndexPage.IsFirstAccess: `!monthlyExpenses` also holds for `NaN`. Only
  0 is modelled.

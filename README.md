# Doctor ledger: a Dafny model of its bookkeeping core

The application keeps two independent books. The **personnel** ledger
records the amounts each doctor brings in and a per-day personnel cost. The
**operational** ledger records deposits and withdrawals. Each ledger has an
initial balance, kept in the `settings` collection. Its days are kept in the
`days` collection. A day has a date string, a list of entries, optional
withdrawals and personnel entries, and a scalar `personnel` cost.

This project models the parts of the application that compute or decide
something:

- **Amount checks.** `validateNumber`, `validateRequired` and
  `sanitizeNumber` together with `parseFloat`, `Number.prototype.toString`
  and the bounds 0 and 999999999 (modules `Validation`, `Records`, `Folds`).
- **The main page.** The running balance, the per-date entries view, saving
  a day's data (merge into the day with the same date, or create a new day)
  and deleting an entry. These work against an in-memory `days` collection
  (modules `MainPage`, `DayStore`).
- **The read-only views.** The day card, the monthly statistics with month
  navigation, and the per-person totals (modules `DayCard`, `MonthlyStats`,
  `Statistics`, `Sorting`).
- **The dialogs.** The day editor, the personnel-cost dialog and the
  single-entry dialog. Each is a class whose fields are the dialog's state
  (modules `AddDayModal`, `EntryForm`, `PersonnelModal`, `EntryModal`).
- **The balance hooks.** The single-ledger balance hook, the two-ledger
  settings hook and the settings page's input filter. They work against an
  in-memory `settings` collection (modules `UseBalance`, `UseSettings`,
  `SettingsPage`, `SettingsStore`).
- **The single-component version of the app** (module `AppOptimized`). It
  loads balances by "last document wins", counts no withdrawals in the
  operational balance, and runs its own entry form and day save.
- **The start-up configuration check** (module `FirebaseConfig`).

Rules for the stores:

- Each store write (`addDoc`, `updateDoc`, `setDoc`, `deleteDoc`) is one
  atomic step. Whether it succeeds is a boolean parameter. A failed write
  changes nothing.
- A missing store object (`db` not initialised) is a `null` collection
  reference.
- A confirmation dialog's answer is a boolean parameter.
- Today's date and the load time are parameters.

The ledger view a page reads is the ledger's documents in store order
(`Of(docs, ledger)`). This follows the reload that comes after every write.

## Model

| member | source | states |
|---|---|---|
| Validation.ValidateRequired | src/utils/validation.js:10-14 | false exactly for null, undefined and text that is blank once trimmed |
| Validation.ValidateNumber | src/utils/validation.js:3-8 | null, undefined and NaN are invalid; a number is valid exactly when it lies within [0, 999999999]; a text exactly when it parses to such a number |
| Validation.ParseFloat | src/utils/validation.js:4 | blank text is NaN; a parsed text starts, after its leading whitespace, with a digit, a sign or a point; only a leading minus gives a negative number |
| Validation.ParseValue | src/utils/validation.js:4 | a number parses to itself, null, undefined and NaN to NaN, and a text as `parseFloat` reads it |
| Validation.TrimEmptyIffBlank | src/utils/validation.js:12 | trimming leaves nothing exactly when the text is all whitespace |
| Validation.SanitizeNumber | src/utils/validation.js:22-27 | the result lies within [0, 999999999]; an unparsable value gives 0; a parsed number below or above the bounds is clamped to that bound |
| Validation.ValidIffSanitizeKeeps | src/utils/validation.js:3-8 | a value is valid exactly when it parses and sanitising leaves the parsed number unchanged |
| Validation.SanitizeIdempotent | src/utils/validation.js:22-27 | sanitising a sanitised amount changes nothing, and a sanitised amount is always valid |
| Validation.ValidateNumberBoundaries | src/utils/constants.js:15-19 | 0 and 999999999 are accepted; -1, 999999999+1 and NaN are rejected; -100 clamps to 0, MAX+100 clamps to MAX, 500.5 is kept, NaN gives 0 |
| Validation.HundredIsValid | src/utils/validation.js:3-8 | the text "100" parses to 100 and is valid |
| Validation.WordsAreNaN | src/utils/validation.js:22-27 | the text "not a number" does not parse, so it sanitises to 0 |
| Validation.NegativeTextClamps | src/utils/validation.js:22-27 | the text "-5" parses to -5 and sanitises to the lower bound 0 |
| Validation.ParseNumberText | src/hooks/useBalance.js:140 | `parseFloat` reads back the `toString` text of any integral number |
| Validation.EditTextRoundTrip | src/hooks/useBalance.js:138-141 | the text of an integral amount within the bounds validates and sanitises back to that amount |
| Validation.OrZero | src/hooks/useBalance.js:46 | falling back to 0: a truthy value is kept; a falsy one becomes the number 0 |
| Validation.FirstNonEmpty | src/components/AddDayModal.jsx:41-43 | falling back from one text to another gives one of the two, and is empty only when both are |
| Records.Of | src/hooks/useDays.js:87-96 | the documents of one ledger are exactly the collection's documents of that type, in store order |
| Records.NewDay | src/hooks/useDays.js:87-96 | a created document carries the payload's date, entries and cost, tagged with the ledger |
| Records.Merge | src/hooks/useDays.js:111-119 | a merging update takes the fields the payload carries and keeps the rest, the ledger type included |
| Records.MergeSpread | src/pages/MainPage.jsx:180-183 | writing back `{...day, entries}` changes only the entries |
| Records.AllEntriesSum | src/components/Statistics.jsx:13-20 | every day's entries flattened in order sum to the per-day entry totals |
| Records.OnDate | src/pages/MainPage.jsx:164-171 | the days on a date are exactly the listed days carrying that date string, in order |
| Folds.SumOverPermutation | src/pages/MainPage.jsx:85-100 | a sum accumulated by addition does not depend on the order of the terms |
| DayStore.DayCollection.Create | src/hooks/useDays.js:87-103 | a successful `addDoc` appends one document of the ledger under a fresh id; a failed one changes nothing |
| DayStore.DayCollection.Update | src/hooks/useDays.js:111-125 | a successful `updateDoc` merges the payload into the document with that id, which must exist; otherwise nothing changes |
| DayStore.DayCollection.Delete | src/hooks/useDays.js:146-148 | a successful `deleteDoc` removes the document with that id, and no document with that id is left |
| DayStore.IndexOfMember | src/pages/MainPage.jsx:178-183 | under unique ids, looking a listed day up by its own id finds that day |
| MainPage.CurrentBalance | src/pages/MainPage.jsx:84-101 | the loop's result is the initial balance plus Σ entries less Σ personnel costs on the personnel tab, and less Σ withdrawals on the operational tab |
| MainPage.PersonnelBalance | src/pages/MainPage.jsx:94-98 | on the personnel tab the days move the balance by Σ entries − Σ personnel; missing lists and costs count as 0 |
| MainPage.OperationalBalance | src/pages/MainPage.jsx:90-93 | on the operational tab the days move the balance by Σ entries − Σ withdrawals; the personnel cost plays no part |
| MainPage.DayDelta | src/pages/MainPage.jsx:87-97 | a day's effect plus its withdrawals (operational) or its personnel cost (personnel) is its entries' total; a day with no lists and no cost has no effect |
| MainPage.BalanceOrderFree | src/pages/MainPage.jsx:85-100 | two views with the same initial balance and the same multiset of days have the same balance |
| MainPage.BalanceReadsActiveOnly | src/pages/MainPage.jsx:51-54 | changing the other ledger's hooks never changes the balance |
| MainPage.PersonnelScenario | src/pages/MainPage.jsx:84-101 | initial balance 1000, a day with 500 and a cost of 200, and a day with 300 give a balance of 1600 |
| MainPage.OperationalScenario | src/pages/MainPage.jsx:84-101 | initial balance 0 and a day with 1000 in and 400 withdrawn give 600 |
| MainPage.FilteredData | src/pages/MainPage.jsx:57-81 | the view is empty with cost 0 on the operational tab; on the personnel tab its entries are the selected date's days' entry lists concatenated in day order, which sum to those days' entry totals, and its cost is the sum of those days' personnel costs |
| MainPage.FilteredDataConcat | src/pages/MainPage.jsx:60-80 | the view of two batches of days is the first batch's view followed by the second's, entries and cost alike |
| MainPage.SumOnDate | src/pages/MainPage.jsx:60-80 | any per-day amount summed over a date's days equals its sum over all days with the other dates counting 0 |
| MainPage.FilteredDataOverAllDays | src/pages/MainPage.jsx:66-76 | the table's entry total and its personnel cost are the sums over every personnel day of that day's entries and cost, counted only on the selected date |
| MainPage.FirstOnDate | src/pages/MainPage.jsx:279-286 | `find` gives the first day with that date string, or none when no day has it |
| MainPage.SaveDay | src/pages/MainPage.jsx:267-296 | in edit mode, success means the write succeeded and the edited day existed, and only that day is merged; otherwise the collection becomes `SaveNew` on success and is unchanged on failure |
| MainPage.SaveNewView | src/pages/MainPage.jsx:279-296 | the saved ledger's days become: the first day on the date gets existing entries followed by the new ones and the payload's other fields, or exactly one new day is appended |
| MainPage.SaveNewOtherLedger | src/pages/MainPage.jsx:279-296 | a save on one ledger leaves the other ledger's days exactly as they were |
| MainPage.SaveInViewUniqueDates | src/pages/MainPage.jsx:288-296 | a save never creates a second day for a date the ledger already has; the list grows by one exactly when the date is new |
| MainPage.SaveInViewDateTotal | src/pages/MainPage.jsx:289-292 | after a save, the entries of the saved date total their old sum plus the new entries' sum |
| MainPage.DeleteTarget | src/pages/MainPage.jsx:174 | only an entry with a non-empty id can be matched by id |
| MainPage.Unmatched | src/pages/MainPage.jsx:176 | the filter keeps exactly the entries without that id, in order |
| MainPage.Decide | src/pages/MainPage.jsx:175-185 | the day holding the entry is removed exactly when nothing is left and its cost is 0, and otherwise written back with the remaining entries |
| MainPage.PlanDelete | src/pages/MainPage.jsx:164-187 | no day means no match, and the day a plan acts on is one of the date's days |
| MainPage.UnmatchedSum | src/pages/MainPage.jsx:176 | what the filter keeps and what it removes sum to the whole list |
| MainPage.PlanDeleteNoMatch | src/pages/MainPage.jsx:173-187 | no day is touched exactly when every day of the date has a list and none holds the entry |
| MainPage.PlanDeleteFinds | src/pages/MainPage.jsx:173-187 | the day acted on is the first one holding the entry; it is removed exactly when nothing is left and its cost is 0, and otherwise keeps the filtered list |
| MainPage.ApplyDelete | src/pages/MainPage.jsx:175-185 | the chosen day is deleted (subject to the second confirmation) or updated with the filtered entries, as the decision says |
| MainPage.DeleteEntry | src/pages/MainPage.jsx:148-187 | without confirmation nothing changes; otherwise the collection and the outcome are those of the plan for the selected date's personnel days |
| DayCard.Label | src/components/DayCard.jsx:124-127 | the total is labelled positive with a "+" exactly when it is ≥ 0, and negative with no prefix otherwise |
| DayCard.FinalTotal | src/components/DayCard.jsx:19-29 | a personnel card shows its deposits alone; a card whose shown lists are absent shows 0 |
| DayCard.CardAndBalance | src/components/DayCard.jsx:19-29 | an operational card shows the day's effect on the balance; a personnel card shows the deposits only, and its effect on the balance is that total less the cost |
| DayCard.OperationalCardsSum | src/components/DayCard.jsx:19-25 | the operational cards add up to the movement of the operational balance |
| MonthlyStats.ParseDate | src/components/MonthlyStats.jsx:36-37 | a date string that reads as a date has the form YYYY-MM-DD with month 1..12 and day 1..31 |
| MonthlyStats.ParseDateText | src/components/MonthlyStats.jsx:36-37 | every date string the app writes reads back as its own date |
| MonthlyStats.Next | src/components/MonthlyStats.jsx:94-98 | the next month is exactly one month on, with December rolling over into January of the next year |
| MonthlyStats.Previous | src/components/MonthlyStats.jsx:88-92 | the previous month is exactly one month back, with January rolling back into December |
| MonthlyStats.NavigationInverse | src/components/MonthlyStats.jsx:88-98 | next then previous, and previous then next, return to the same month |
| MonthlyStats.IsCurrentMonth | src/components/MonthlyStats.jsx:105-113 | true exactly when the selected month and year are today's |
| MonthlyStats.MonthDays | src/components/MonthlyStats.jsx:35-46 | the month's days are exactly the listed days whose date falls in the selected month and year |
| MonthlyStats.InMonth | src/components/MonthlyStats.jsx:35-46 | only a day whose date string reads as a YYYY-MM-DD date falls in a month |
| MonthlyStats.DayInOneMonth | src/components/MonthlyStats.jsx:35-46 | a day with a valid date falls in exactly its own month, and a day with an invalid date in none |
| MonthlyStats.ComputeStats | src/components/MonthlyStats.jsx:30-79 | income is the month's days' entry total; expenses are their personnel-cost entries on the personnel ledger and their withdrawals on the operational one; net = income − expenses; the day count is the number of the month's days |
| MonthlyStats.SumInMonth | src/components/MonthlyStats.jsx:35-68 | any per-day amount summed over the month's days equals its sum over all days with the days of other months counting 0 |
| MonthlyStats.MonthTotalsOverAllDays | src/components/MonthlyStats.jsx:49-68 | income and expenses are sums over every day of the ledger, each day counted only when its date falls in the selected month |
| MonthlyStats.OperationalNetIsBalanceMovement | src/components/MonthlyStats.jsx:49-68 | on the operational ledger the month's net result is the month's share of the balance movement |
| MonthlyStats.CostsIgnored | src/components/MonthlyStats.jsx:55-68 | the scalar personnel cost never changes the statistics, on either ledger |
| MonthlyStats.EmptyMonth | src/components/MonthlyStats.jsx:30-79 | with no days in the month every figure is 0 |
| Statistics.PersonTotals | src/components/Statistics.jsx:10-29 | each name of any entry appears exactly once; each total is the sum of that name's amounts; the list is sorted by total, largest first; it sums to all amounts; it is empty exactly when there are no entries |
| Statistics.TallyDays | src/components/Statistics.jsx:13-20 | the outer loop leaves the dictionary tallying every day's entries |
| Statistics.TallyEntries | src/components/Statistics.jsx:14-19 | the inner loop adds one day's entries to the tally: each name once, in first-seen order, with its running sum |
| Statistics.Listed | src/components/Statistics.jsx:22-23 | the dictionary's entries are distinct names that carry their totals, cover every name, and sum to all amounts |
| Statistics.Reported | src/components/Statistics.jsx:22-24 | sorting keeps all of that and orders the totals from the largest down |
| Statistics.NamesSum | src/components/Statistics.jsx:13-20 | summing each name's total over the names gives the sum of all amounts |
| Sorting.SortDesc | src/App-optimized.js:463-469 | the result is a permutation of the input, ordered non-increasing by the key |
| Sorting.SortDescSorted | src/App-optimized.js:463-469 | sorting a list that is already in order leaves it unchanged, because the sort is stable |
| Sorting.InsertWithKey | src/App-optimized.js:463-469 | an inserted element comes before every element with the same key, since it only passes larger keys |
| Sorting.SortDescStable | src/components/Statistics.jsx:24 | the sort is stable: the elements with any one key come out in the order they went in |
| Sorting.InsertPermutes | src/components/Statistics.jsx:24 | one insertion step adds the element and keeps all the others |
| EntryForm.CheckEntry | src/components/AddDayModal.jsx:67-103 | a blank name or amount is refused, then an invalid amount; an accepted entry carries the trimmed non-empty name and the parsed amount, which lies within the bounds |
| EntryForm.WithoutIndex | src/components/AddDayModal.jsx:105-111 | removing index i deletes exactly that element and keeps the rest in order; an index outside the list removes nothing |
| EntryForm.WithoutIndexSum | src/components/AddDayModal.jsx:55-65 | removing an entry lowers the list's total by its amount |
| AddDayModal.SavePayload | src/components/AddDayModal.jsx:113-191 | income on the personnel ledger warns of a missing amount exactly when it is blank, of an invalid one exactly when it is present but not a valid number, and otherwise saves one doctor entry with cost 0; otherwise empty lists are refused; a personnel cost moves the entries' total into `personnel`; the operational ledger carries its withdrawals |
| AddDayModal.NewDayDelta | src/components/AddDayModal.jsx:113-191 | the day created from a payload moves its ledger's balance by the typed amount, by minus the entries' total, or by the editor's summary balance |
| AddDayModal.SavedDayDelta | src/pages/MainPage.jsx:279-296 | saving a payload moves the page's balance by that amount on a new date; on a date that has a day it moves it by that amount plus the day's personnel cost (personnel ledger) or withdrawals (operational ledger), which the payload overwrites |
| AddDayModal.DepositOverCostDay | src/components/AddDayModal.jsx:136-142 | a deposit of 100 saved on a date whose personnel day holds only a cost of 200 sets that cost to 0, so the balance rises by 300 |
| AddDayModal.OperationTypeIgnoredOnOperational | src/components/AddDayModal.jsx:161-181 | on the operational ledger the operation type makes no difference to the payload |
| AddDayModal.AddDayForm.constructor | src/components/AddDayModal.jsx:41-52 | the form opens with the edited day's date, else the selected date, else today, with the edited day's lists and empty fields |
| AddDayModal.AddDayForm.AddEntry | src/components/AddDayModal.jsx:67-103 | a refused entry changes nothing; an accepted one goes to the withdrawals exactly when the operational withdrawal tab is open, the other list is unchanged, and the name and amount are cleared |
| AddDayModal.AddDayForm.RemoveEntry | src/components/AddDayModal.jsx:105-107 | drops only that deposit, and the summary falls by its amount |
| AddDayModal.AddDayForm.RemoveWithdrawal | src/components/AddDayModal.jsx:109-111 | drops only that withdrawal, and the summary rises by its amount |
| AddDayModal.AddDayForm.Save | src/components/AddDayModal.jsx:113-191 | the result is the payload or warning of `SavePayload`; the form is not changed; an operational day created from it moves the balance by exactly the summary the editor showed |
| AddDayModal.AddDayForm.ModalBalance | src/components/AddDayModal.jsx:54-65 | the summary balance plus the withdrawals' total is the deposits' total; with no withdrawals it is the deposits' total |
| AddDayModal.AddDayForm.Close | src/components/AddDayModal.jsx:193-202 | date, name, amount, both lists and the tab go back to their initial values, and the summary is 0 |
| AddDayModal.AddDayForm.Sync | src/components/AddDayModal.jsx:205-215 | takes the edited day's date and lists, or the selected date and empty lists, keeping the typed name and amount |
| PersonnelModal.CostPayload | src/components/PersonnelModal.jsx:25-65 | a blank amount, then an invalid one, then one not above 0 is refused; the payload is the selected date, no entries, and a cost in (0, 999999999] |
| PersonnelModal.CostLowersBalance | src/components/PersonnelModal.jsx:58-62 | the day created from a saved cost lowers the personnel balance by exactly that cost |
| PersonnelModal.PersonnelForm.Save | src/components/PersonnelModal.jsx:25-65 | the result is `CostPayload`'s; the field is cleared after a payload and kept after a warning |
| PersonnelModal.PersonnelForm.Close | src/components/PersonnelModal.jsx:67-70 | the field is cleared |
| EntryModal.EditText | src/components/EntryModal.jsx:48 | an edited entry's amount shows as empty exactly when it is 0 |
| EntryModal.EntryPayload | src/components/EntryModal.jsx:70-113 | a new entry with a blank name and no doctor is refused, then a blank or invalid amount; the saved amount is the parsed amount within the bounds; the name is trimmed and, for a new entry, falls back to the doctor's; the ids are carried exactly when editing |
| EntryModal.UntouchedEditKeepsEntry | src/components/EntryModal.jsx:45-113 | opening an entry with a whole, positive, in-range amount and saving it untouched keeps its amount, its ids and its trimmed name |
| EntryModal.ZeroAmountEditRefused | src/components/EntryModal.jsx:48 | an entry of amount 0 opens with an empty amount, which saving then refuses |
| EntryModal.EntryDialog.Sync | src/components/EntryModal.jsx:45-61 | fills the edited entry's name, amount text and (when present) date, or today with empty fields |
| EntryModal.EntryDialog.Close | src/components/EntryModal.jsx:63-68 | back to today with empty fields |
| EntryModal.EntryDialog.Save | src/components/EntryModal.jsx:70-113 | the result is `EntryPayload`'s; a save resets the form; a warning leaves it as it was |
| SettingsStore.FirstOfKind | src/hooks/useBalance.js:37-44 | the first document of that type, or none when there is none |
| SettingsStore.FirstBalance | src/hooks/useBalance.js:43-49 | the balance read is the first matching document's `initialBalance`, 0 when that is falsy, and 0 with no document |
| SettingsStore.PutCreatesOnlyWhenMissing | src/hooks/useBalance.js:80-101 | find-or-create adds a document exactly when the type had none, keeps the others in place, and keeps one document per type |
| SettingsStore.PutThenLoad | src/hooks/useBalance.js:80-101 | a load after a write reads back the amount written, and the other ledger's balance as it was |
| SettingsStore.SettingsCollection.Put | src/hooks/useBalance.js:73-101 | a successful write is the find-or-create; a failed one changes nothing |
| UseBalance.BalanceHook.Load | src/hooks/useBalance.js:29-54 | without a store nothing changes; a failed read sets 0; otherwise the balance is the first matching document's value or 0 |
| UseBalance.BalanceHook.Save | src/hooks/useBalance.js:59-125 | succeeds exactly when the input is valid, the store exists and the write succeeds; then the balance is the sanitised input, the edit closes and the box is emptied; otherwise neither the hook nor the store changes |
| UseBalance.BalanceHook.CancelEdit | src/hooks/useBalance.js:130-133 | the edit closes with an empty box; the balance stays |
| UseBalance.BalanceHook.StartEdit | src/hooks/useBalance.js:138-141 | the edit opens holding the balance's text |
| UseBalance.EditUntouchedRoundTrip | src/hooks/useBalance.js:59-141 | starting an edit of a whole, in-range balance and saving it untouched stores the same balance |
| UseBalance.SaveThenLoad | src/hooks/useBalance.js:80-101 | a saved balance is the one the next load reads for that ledger, and the other ledger's stays |
| UseSettings.SettingsHook.Load | src/hooks/useSettings.js:29-71 | personnel is read first, then operational; a ledger without a document keeps its balance; a failed read stops the load; loading ends false |
| UseSettings.SettingsHook.Save | src/hooks/useSettings.js:76-183 | personnel is checked first, then operational, and an invalid value changes nothing; both are written, personnel first; only when both writes succeed do both balances become the sanitised inputs; `saving` ends false on every path past validation |
| UseSettings.SavedDocsLoad | src/hooks/useSettings.js:104-160 | after a complete save the next load reads both amounts; after a failed operational write the store holds the new personnel balance beside the old operational one |
| SettingsPage.NumericDraftIff | src/components/Settings.jsx:43-57 | a value matches `^-?\d*\.?\d*$` exactly when it has only digits, '-' and '.', a '-' only at the front, and at most one '.' |
| SettingsPage.NumberTextIsDraft | src/components/Settings.jsx:29-34 | the model's text of any number (plain digits, an optional minus and point, never an exponent) passes the input filter |
| SettingsPage.SettingsForm.Fill | src/components/Settings.jsx:29-34 | once loading is over the boxes hold the balances' text; while loading they are unchanged |
| SettingsPage.SettingsForm.ChangePersonnel | src/components/Settings.jsx:43-49 | an empty or matching value replaces the personnel box and a rejected one is dropped; the operational box is unchanged |
| SettingsPage.SettingsForm.ChangeOperational | src/components/Settings.jsx:51-57 | the same filter on the operational box only |
| AppOptimized.Normalise | src/App-optimized.js:137-146 | a loaded day keeps its id and type; missing entries are none; a missing date is the load time; the cost is sanitised |
| AppOptimized.LedgerDays | src/App-optimized.js:131-146 | every loaded day is of the ledger with a cost within the bounds, and every document of the ledger is loaded |
| AppOptimized.LedgerDaysFromDocs | src/App-optimized.js:131-146 | every loaded day is the normalisation of a document of the ledger, so the load invents no day |
| AppOptimized.LedgerDaysAppend | src/App-optimized.js:136-146 | one more document adds its normalised day at the end exactly when it is of the ledger |
| AppOptimized.LedgerDaysConcat | src/App-optimized.js:136-146 | the load keeps store order: two batches of documents load as the first batch's days followed by the second's |
| AppOptimized.App.InitialBalance | src/App-optimized.js:75-78 | the initial balance is the active ledger's own |
| AppOptimized.App.SortedDays | src/App-optimized.js:463-469 | the days newest first: ordered by time and a permutation of the loaded days |
| AppOptimized.App.LoadDays | src/App-optimized.js:131-159 | the days are the ledger's normalised documents, newest first; a failed read leaves no days |
| AppOptimized.LastBalance | src/App-optimized.js:109-122 | the balance read from the settings documents is the current one, or a sanitised amount within the bounds; with no document of the ledger it is the current one |
| AppOptimized.LastMatchWins | src/App-optimized.js:109-122 | the last document of a ledger decides its balance |
| AppOptimized.LastAndFirstAgree | src/App-optimized.js:109-122 | with one document per ledger, reading the last match agrees with the hooks' reading of the first |
| AppOptimized.TwoDocumentsDisagree | src/App-optimized.js:109-122 | with two personnel documents of 100 and 200 this version reads 200 where the hooks read 100 |
| AppOptimized.App.LoadBalances | src/App-optimized.js:105-128 | a successful read sets each ledger's balance by the last-match rule; a failed read changes nothing; nothing else changes |
| AppOptimized.App.CurrentBalance | src/App-optimized.js:472-487 | the loop's result is the active ledger's initial balance plus each day's entries less (on the personnel ledger) its cost, whatever the order of the days |
| AppOptimized.BalanceRulesCompared | src/App-optimized.js:472-487 | this version agrees with the main page on the personnel ledger and is higher by exactly the withdrawals on the operational one |
| AppOptimized.App.SaveBalance | src/App-optimized.js:200-263 | succeeds exactly when the input is valid and the write succeeds; the active ledger's balance becomes the sanitised input, the other ledger's is kept; a refusal or failure changes nothing |
| AppOptimized.App.AddEntry | src/App-optimized.js:265-297 | a checked entry is appended, the total grows by its amount, and name and amount are cleared; otherwise nothing changes |
| AppOptimized.App.RemoveEntry | src/App-optimized.js:299-301 | drops only the entry at that position, and the total falls by its amount |
| AppOptimized.DayPersonnel | src/App-optimized.js:324-325 | the stored cost is within the bounds, 0 on the operational ledger, and the parsed input when it is valid on the personnel ledger |
| AppOptimized.PlanSave | src/App-optimized.js:304-348 | a blank date writes nothing, then an empty list writes nothing; otherwise the edited day is updated, or a new one created, with the date, the entries, the cost and the ledger |
| AppOptimized.App.SaveDay | src/App-optimized.js:303-383 | the write is `PlanSave`'s; only a successful write resets the form and closes the dialog; otherwise nothing changes |
| FirebaseConfig.MissingKeys | src/firebaseConfig.js:14-22 | a key is reported exactly when it is required and unset; the analytics key never is |
| FirebaseConfig.MissingKeysOrdered | src/firebaseConfig.js:14-22 | the missing keys come in the required list's order, without repeats |
| FirebaseConfig.ValidateConfig | src/firebaseConfig.js:13-30 | the check passes exactly when every required key is set; a failure's message starts with the fixed prefix |
| FirebaseConfig.MessageNamesMissing | src/firebaseConfig.js:24-29 | splitting the message after the prefix at ", " gives exactly the missing keys' names in order |
| FirebaseConfig.SplitJoin | src/firebaseConfig.js:26 | the comma-separated list splits back into its names |
| FirebaseConfig.KeyNameInjective | src/firebaseConfig.js:2-10 | distinct keys have distinct names |
| FirebaseConfig.StartUp | src/firebaseConfig.js:32-34 | start-up fails exactly in production with a required key missing |

## Left out

- Firestore itself: queries, snapshots, timestamps (`createdAt`, `updatedAt`), `src/api/firebase.js`, and `src/hooks/useDays.js` and `src/hooks/useOperationalEntries.js` beyond the create, update and delete steps above. The stores are in-memory sequences. Each write succeeds or fails as a parameter says.
- The reload after every write, and the loading and silent flags that go with it. The model assumes a page's ledger view is the store's documents of that ledger.
- Sweetalert dialogs, toasts and console logging. A confirmation becomes a boolean parameter, and a warning becomes a result value.
- Rendering and number or date formatting (`formatCurrency`, `toLocaleDateString`). The day card keeps only its sign and prefix.
- `Date` and the clock. Today's date and the load time are parameters. Month navigation is on (year, month) pairs; day-of-month overflow in `setMonth` and the UTC/local skew of `new Date(dateString)` are not modelled. `validateDate` is not part of this model.
- MainPage.CurrentBalance: starts from a numeric initial balance (`LedgerView.initialBalance` is a real). The balance hook keeps the stored value unsanitised (`data.initialBalance || 0`), so in JavaScript a stored text such as "100" is concatenated on the operational tab ("100" + 50 gives "10050") and coerced to a number by the first subtraction on the personnel tab. The model does not capture either coercion.
- Records.Of: keeps the collection's documents in the order they were created. A Firestore query without `orderBy` returns them in document-id order, and the ids that `addDoc` and `doc(collection(...))` give new day and settings documents are random, so the model's "first" and "last" document (`MainPage.FirstOnDate`, `MainPage.PlanDelete`, `SettingsStore.FirstOfKind`, `AppOptimized.LastBalance`) is the first or last created rather than an arbitrary one.
- DayStore.DayCollection.Create: appends the new document at the end with the next id. A real `addDoc` id is random and may sort anywhere among the existing ids.
- Validation.ParseFloat: models decimal prefixes only. It does not model exponents, `Infinity`, hexadecimal or binary floating-point rounding. Amounts are exact reals.
- Validation.NumberText: exact for integral numbers. A fraction is written with at most 17 digits, with no shortest-round-trip rule. So the edit round trips are stated for whole amounts only. Exponent notation is not modelled either: JavaScript writes amounts below 1e-6 (and from 1e21 up) as, say, "1e-7", which the settings input filter rejects.
- The days' date fallback: a day without `dateString` whose date is derived from its timestamp. The date string is the day's date throughout.
- Statistics.PersonTotals: lists names in first-seen order before sorting. The model does not capture JavaScript's rule that integer-like object keys come first.
- MainPage.SaveDay: the merge payload's `withdrawals` replace the day's only when the editor sends them. This follows `updateDoc`, which keeps fields the payload lacks.
- The personnel-cost handler `handleSavePersonnel` of the main page. It is modelled only through the day it creates (`PersonnelModal.CostLowersBalance`).
- `personnelEntries`: no modelled writer sets it. The monthly expenses of the personnel ledger read it as stored.
- AppOptimized.App.SaveDay: represents the `days` write by the request it issues. It does not model the reload that follows, nor the dialog's open and close handlers (`handleOpenModal`, `handleCloseModal`) or `handleDeleteDay`.
- UseSettings.SettingsHook.Save: `saving` is true during the writes. Only its value afterwards is stated.
- `src/hooks/useDateFilters.js`: its helpers are not part of this model.
- Styling-only components, routing, local storage, the service worker and build tooling.

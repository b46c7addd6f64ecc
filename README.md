# Set screen of the kharcha expense tracker, modelled in Dafny

kharcha is a web app for tracking expenses. Users group expenses into named
*sets*, mark expenses as done (settled), and see a running total and what
remains. This project models the logic of the set-detail screen
(`src/components/Set.tsx`). It has no React, styling or PocketBase client.
It covers:

- the two folds `totalExpense` and `totalRemaining`. Amounts are integers,
  for example cents. A missing or zero amount is skipped, as JavaScript
  treats it as falsy;
- the display rules: when the progress bar shows, the width formula, when
  the "Remaining" figure shows, the "expense"/"expenses" heading, and the
  list versus the empty-state message;
- the filter string `set = "<id>"` and the first page of 50 records that
  `getExpenses` keeps;
- the `updateSet` payload `{ ...set, expense: total }`;
- the delete confirmation flag and the `deleteSet` protocol: the set first,
  then one delete per loaded expense, then navigation home.

Calls to the collection store and the router are entries of a call log
(`Protocol.Call`). The store's answer to each call is a parameter of the
handler: an `Option`, where `None` means the call failed, or for the set
delete a `bool` saying whether the store accepted it. The screen is a class,
`SetScreen.Screen`. Its fields are the state the component keeps
(`expenses`, the cached `set` record, `deleteConfirmation`) and the log.
Each handler is a method that changes those fields.

Files: `wrappers.dfy` (Option), `expenses.dfy` (records and totals),
`query.dfy` (filter and page), `records.dfy` (set record and merge),
`protocol.dfy` (call log and the delete/update protocols), `display.dfy`
(rendering rules), `set_screen.dfy` (the screen class and two client flows).

Two details of the code that are easy to misread; the model follows the code:

- `!id` is true, so the handler returns, both for an undefined route id and
  for an empty one (`Protocol.HasId`).
- `getExpenses` itself has no id guard. Only the effect that calls it on id
  change checks the id. Without an id, the template literal produces the
  filter `set = "undefined"` (`Query.IdText`).

## Model

| member | source | states |
|---|---|---|
| Expenses.Total | src/components/Set.tsx:126-134 | the value of `totalExpense`: the sum of every truthy amount; its properties are the lemmas below |
| Expenses.Remaining | src/components/Set.tsx:136-145 | the value of `totalRemaining`: the same sum over the expenses not done |
| Expenses.Pending | src/components/Set.tsx:138-139 | the filtered list is never longer than the loaded list; what it holds is stated by the three lemmas that follow |
| Expenses.FilterMembers | src/components/Set.tsx:138-139 | an expense is in the filtered list iff it is loaded and not done |
| Expenses.PendingMultiset | src/components/Set.tsx:138-139 | the filter keeps every occurrence of an expense that is not done and drops every occurrence of a done one |
| Expenses.FilterAppend | src/components/Set.tsx:138-139 | the filter keeps list order: filtering a concatenation gives the filtered parts in the same order |
| Expenses.TotalExpense | src/components/Set.tsx:126-134 | the loop returns the sum of every truthy amount (`Total`) |
| Expenses.TotalRemaining | src/components/Set.tsx:136-145 | the filtered loop returns the sum over expenses not done, which is the total minus the settled sum |
| Expenses.AllFalsyTotalZero | src/components/Set.tsx:126-134 | the total is 0 when every amount is missing or zero, including the empty list |
| Expenses.TotalPermutation | src/components/Set.tsx:126-134 | the total does not depend on the order of the list: two lists with the same multiset have the same total |
| Expenses.Partition | src/components/Set.tsx:126-145 | total = remaining + sum over done expenses |
| Expenses.NoneDoneRemainingIsTotal | src/components/Set.tsx:136-145 | with no expense done, remaining equals total |
| Expenses.AllDoneNothingRemains | src/components/Set.tsx:136-145 | with every expense done, remaining is 0 |
| Expenses.SumPositive | src/components/Set.tsx:126-134 | with non-negative amounts a sum is non-negative, and it is positive iff some expense has a positive truthy amount |
| Expenses.RemainingAtMostTotal | src/components/Set.tsx:126-145 | with non-negative amounts, 0 <= remaining <= total |
| Expenses.NegativeAmountBreaksBound | src/components/Set.tsx:126-145 | with one settled expense of -5 (the source accepts negative amounts), remaining 0 exceeds total -5, so the bound needs non-negative amounts |
| Query.IdText | src/components/Set.tsx:148 | how the template renders the route id: the id itself, or "undefined" when it is missing |
| Query.FilterQuery | src/components/Set.tsx:148 | the filter is the prefix `set = "`, then the id text, then a closing quote |
| Query.ParseFilter | src/components/Set.tsx:148 | reading a filter back yields a quote-free literal, 8 characters shorter than the filter |
| Query.FilterRoundTrip | src/components/Set.tsx:148 | an id with no double quote reads back from its filter |
| Query.ParseFilterSound | src/components/Set.tsx:148 | whatever reads back as an id is exactly the filter built from that id |
| Query.QuotedIdBreaksFilter | src/components/Set.tsx:148 | an id holding a double quote does not read back, because nothing is escaped |
| Query.FilterInjective | src/components/Set.tsx:148 | equal filters come from equal id texts |
| Query.FilterExample | src/components/Set.tsx:148 | the id abc123 gives exactly `set = "abc123"` |
| Query.FirstPage | src/components/Set.tsx:149-154 | the kept list is the first min(n, 50) matching records, in the store's order |
| Records.Merge | src/components/Set.tsx:111-114 | the payload's `expense` is the new total, and its other fields are the cached record's, or absent when no record is cached |
| Records.MergeIsRecordUpdate | src/components/Set.tsx:111-114 | with a cached record, the payload is that record with only its total replaced |
| Records.MergeOverwrites | src/components/Set.tsx:111-114 | the previously cached total has no effect on the payload |
| Records.MergeSameTotal | src/components/Set.tsx:111-114 | merging the total the record already holds gives the record unchanged |
| Protocol.HasId | src/components/Set.tsx:93 | the `if (!id) return;` guard of `deleteSet`, `updateSet`, `getSet` and the id effect: the id is present and non-empty |
| Protocol.AddPath | src/components/Set.tsx:123 | the add-expense route `/<id>/add` |
| Protocol.DeleteSetCalls | src/components/Set.tsx:91-106 | the calls `deleteSet` issues: none without an id; the set delete; then, only on success, the cascade and the navigation home |
| Protocol.UpdateSetCalls | src/components/Set.tsx:108-115 | the calls `updateSet` issues: none without an id, else one update carrying the merged payload |
| Protocol.CascadeCalls | src/components/Set.tsx:99-101 | one `DeleteExpense` per loaded expense, and the i-th one deletes the i-th expense |
| Protocol.DeleteWithoutId | src/components/Set.tsx:93 | without an id, `deleteSet` issues no call and does not navigate |
| Protocol.DeleteFailureStops | src/components/Set.tsx:94-105 | if the set delete fails, only that call was made: no expense delete, no navigation |
| Protocol.DeleteSuccessOrder | src/components/Set.tsx:94-102 | on success: `DeleteSet(id)` first, then each expense's delete in list order, then `Navigate("/")` last |
| Protocol.CascadeExactlyOnce | src/components/Set.tsx:99-101 | the cascade deletes each id exactly as many times as there are loaded expenses with that id, and issues no other call |
| Protocol.DeleteSuccessCounts | src/components/Set.tsx:91-106 | on success, exactly one set delete, exactly one navigation home, and one expense delete per loaded expense |
| Protocol.DeleteCallsForThisSet | src/components/Set.tsx:91-106 | every call of the delete protocol is of a kind this screen may issue: the set delete names this screen's id, the navigation goes home; expense deletes are not constrained by this lemma |
| Protocol.DeletesOnlyLoaded | src/components/Set.tsx:99-101 | every expense delete of the protocol names the id of a loaded expense |
| Protocol.UpdateSetPayload | src/components/Set.tsx:108-115 | without an id, no call; with an id, one update of that id whose payload has the new total over the cached fields |
| Display.ShowProgress | src/components/Set.tsx:222-224 | the bar's guard: total non-zero, remainder non-zero, and the two different |
| Display.ShowRemaining | src/components/Set.tsx:233 | the "Remaining" guard: remainder different from the total and non-zero |
| Display.Render | src/components/Set.tsx:179-245 | the view of the screen: header or prompt, count and noun, tiles or empty state, the bar under its guard, the "Remaining" figure under its guard, the total |
| Display.ProgressWidth | src/components/Set.tsx:70 | `100 - (100/total)*remaining` is the settled share of the total, in percent |
| Display.HeadingNoun | src/components/Set.tsx:205 | the noun is "expense" exactly when the count is 1, and "expenses" otherwise |
| Display.WidthInRange | src/components/Set.tsx:70 | when 0 < remaining < total, the width is strictly between 0 and 100 |
| Display.WidthExample | src/components/Set.tsx:70 | total 100 with 25 remaining gives width 75 |
| Display.ProgressNeedsRemaining | src/components/Set.tsx:222-233 | the bar shows iff the "Remaining" figure shows and the total is non-zero |
| Display.ProgressShownIff | src/components/Set.tsx:222-224 | with non-negative amounts, the bar shows iff some open expense and some done expense each have a positive amount |
| Display.PendingPositive | src/components/Set.tsx:136-145 | with non-negative amounts, remaining > 0 iff some open expense has a positive amount |
| Display.SettledPositive | src/components/Set.tsx:126-145 | with non-negative amounts, the settled sum > 0 iff some done expense has a positive amount |
| Display.ProgressConsistent | src/components/Set.tsx:222-233 | with non-negative amounts, the bar and the "Remaining" figure show together, and the bar is neither empty nor full |
| Display.RenderList | src/components/Set.tsx:181-219 | the view shows the count, the right noun and the tiles in list order; the empty state shows iff the list is empty; the prompt shows iff confirming |
| Display.ScenarioMixed | src/components/Set.tsx:222-240 | for amounts 10 (open), 5 (done) and 0 (open): total 15, remaining 10, bar shown |
| Display.ScenarioEmpty | src/components/Set.tsx:204-240 | for the empty list: total 0, no bar, no "Remaining" figure, empty state shown |
| SetScreen.Screen.constructor | src/components/Set.tsx:82-84 | a new screen has no expenses, no cached set, no prompt and no calls |
| SetScreen.Screen.GoToHome | src/components/Set.tsx:87-89 | logs one navigation home and changes no state |
| SetScreen.Screen.AddAnExpense | src/components/Set.tsx:122-124 | logs one navigation to `/<id>/add` and changes no state |
| SetScreen.Screen.RequestDelete | src/components/Set.tsx:198 | sets the prompt flag; no call is made, and the list and cached set stay as they were |
| SetScreen.Screen.CancelDelete | src/components/Set.tsx:188 | clears the prompt flag; no call is made, and the list and cached set stay as they were |
| SetScreen.Screen.DeleteSet | src/components/Set.tsx:91-106 | appends exactly `DeleteSetCalls` to the log; the list, cached set and prompt flag are unchanged (the prompt stays on failure) |
| SetScreen.Screen.DeleteLoadedExpenses | src/components/Set.tsx:99-101 | the loop appends exactly `CascadeCalls` of the loaded list and changes nothing else |
| SetScreen.Screen.UpdateSet | src/components/Set.tsx:108-120 | appends the update call (none without an id) and caches the returned record only when the store answers |
| SetScreen.Screen.GetSet | src/components/Set.tsx:157-167 | without an id, no call; with one, fetches the set and caches it if the store answers |
| SetScreen.Screen.GetExpenses | src/components/Set.tsx:147-155 | logs a page-1, 50-per-page list call with the filter; the whole list becomes the first page of the answer, or stays as it was if the call fails |
| SetScreen.Screen.LoadExpensesForId | src/components/Set.tsx:169-172 | the id-change effect fetches only when the id is present |
| SetScreen.Screen.Totals | src/components/Set.tsx:126-145 | returns the total and the remainder of the current list, and persists the total through `updateSet` |
| SetScreen.DeleteFlow | src/components/Set.tsx:181-202 | intent then cancel issues nothing; intent then a successful confirm with two expenses logs exactly set delete, two expense deletes, navigation home |
| SetScreen.DeleteFailsFlow | src/components/Set.tsx:94-105 | a failed confirm logs only the set delete, and the prompt stays shown |

## Left out

- React machinery (`useState`, `useMemo`, `useEffect`, `useCallback`), JSX, styling and the router. The handlers are methods, and navigation is a log entry.
- The busy indicator (`showLoading`/`hideLoading`): it is global UI state outside the screen. Neither `getSet` nor `deleteSet` calls `hideLoading` when its awaited call fails; this is not modelled.
- Asynchrony. Every handler runs to completion in one step. The overlapping `updateSet` calls that each recomputation of the memo can start, and the lost update that follows when their answers land out of order, are not modelled. Neither is the completion order of the fire-and-forget expense deletes.
- The outcome of the individual expense deletes: the source ignores them, so the model does too.
- The pocketbase client: its answers are handler parameters. Record metadata (`created`, `updated`, `collectionId`, `collectionName`, `expand`) is not part of `SetRecord`.
- `console.error` logging on failure. A failed `getList` leaves the list unchanged, since that call has no handler in the source.
- Floating point: amounts are integers, so `NaN` amounts are not considered. The `toFixed(2)` formatting and the decimal text of the heading count are not modelled.
- Display.ProgressWidth: requires a non-zero total. The source evaluates the formula only under the bar's guard, and the guard implies that the total is non-zero.
- `ExpenseTile` (which calls `getExpenses` after its own updates), `../lib/pocketbase`, the types files and `src/style/shared.ts` (styled components only) are not part of this model.

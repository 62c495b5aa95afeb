# Splitly ledger core in Dafny

Splitly is an expense-splitting app. Its backend is a set of Convex handlers
over three record tables: expenses, settlements and groups, plus user
profiles. This project models the ledger arithmetic of the three backend
modules and proves what each handler promises:

- `convex/expenses.js`:
  - `createExpense`: the guard chain, then the insert;
  - `getExpensesBetweenUsers`: the pairwise history and its signed balance;
  - `deleteExpense`: authorization, then the cascade that prunes or deletes
    settlements citing the expense.
- `convex/settlements.js`:
  - `createSettlement`: the guards, the replay of the outstanding net, the
    over-settlement bound, the group check and the insert;
  - `getSettlementData`: the per-counterparty page and the per-member group
    page.
- `convex/dashboard.js`:
  - `getUserBalances`: tally every counterparty, drop negligible nets,
    partition into two lists, sort and total;
  - `getUserGroups`: one balance per group;
  - `getRecentActivity`: take 50, filter, take 20;
  - `getTotalSpent`: sum of personal shares since the start of the year.

Layout:

- `folds.dfy` (`Folds`): sums, filters, prefixes, subsequences, a stable
  descending insertion sort and order-preserving de-duplication, with their
  lemmas.
- `records.dfy` (`Records`): the record datatypes, the error cases each handler
  throws, and the split and name lookups the handlers share.
- `store.dfy` (`Store`): the database as a class `Db` whose tables are
  sequence fields. Its methods insert, delete and patch records in place and
  keep ids unique. Its constructor, which builds an empty ledger over given
  groups and users, is scaffolding for the model and has no counterpart in
  the source.
- `expenses.dfy`, `settlements.dfy`, `dashboard.dfy`: one module per source
  file. Each handler is a method over `Db`. Its loops are proved against a
  specification function built from `Sum` and `Filter`.
- `agreement.dfy` (`Agreement`): lemmas that compare the views with each other.
  The dashboard tally equals the pairwise balance when every participant
  appears at most once in a split list. The group scalar equals the sum of
  the settle-up rows when every party of the group's records is a member.

Amounts are reals. The 0.01 rounding allowance of the source is
`Records.Tolerance` and `Dashboard.Negligible`. Ids are natural numbers. The
caller's id, the server clock and the start of the year are parameters.

The source behaves in several ways that the code does not seem to intend.
The model reproduces this behaviour and states each case as a lemma:

- `createSettlement` replays prior settlements with the opposite sign from every
  read view (`Settlements.ReplayOppositeSign`). As a result, a debt that
  `getExpensesBetweenUsers` shows as settled can be settled again
  (`Settlements.SettledDebtCanBeSettledAgain`).
- The user page of `getSettlementData` also counts settlements with third
  parties (`Settlements.UserPageCountsThirdParties`).
- The dashboard counts every split of a participant, while the pairwise view
  counts only the first. The two disagree on duplicated participants
  (`Agreement.DuplicateSplitsDisagree`).

## Model

| member | source | states |
|---|---|---|
| Records.FindSplit | convex/dashboard.js:27 | the first split of the user: absent exactly when the user has no split; otherwise a split of that user with none of theirs before it |
| Records.FindUnpaidSplit | convex/expenses.js:163 | the first unpaid split of the user: absent exactly when all of the user's splits are paid; otherwise no unpaid split of theirs comes before it |
| Records.UniqueSplitLookups | convex/dashboard.js:27-37 | with unique participants, "first unpaid split" and "first split if unpaid" agree, and both equal the sum of the user's unpaid splits |
| Records.FindGroup | convex/expenses.js:44-45 | a found group is in the table with that id; a missing one means no group has that id |
| Records.NameOrUnknown | convex/dashboard.js:317 | never empty; the user's name when the user exists with a non-empty name, otherwise "Unknown" |
| Records.NameIfKnown | convex/dashboard.js:74 | the stored name (even an empty one) for an existing user, "Unknown" only for a missing one |
| Store.FindExpense | convex/expenses.js:220-223 | a found expense is in the table with that id; a missing one means no expense has that id |
| Store.PatchRelated | convex/expenses.js:253-255 | only the settlement with that id gets the new related-expense list; every other record and the order are unchanged |
| Store.Db.InsertExpense | convex/expenses.js:76-86 | appends the record under a fresh id that no stored expense has; the other tables are unchanged |
| Store.Db.InsertSettlement | convex/settlements.js:142-151 | appends the record under a fresh id that no stored settlement has; the other tables are unchanged |
| Store.Db.RemoveExpense | convex/expenses.js:260 | the expense table loses exactly the records with that id |
| Store.Db.RemoveSettlement | convex/expenses.js:250 | the settlement table loses exactly the records with that id |
| Store.Db.PatchSettlement | convex/expenses.js:253-255 | the settlement table becomes `PatchRelated` of the old one |
| Expenses.CategoryOrOther | convex/expenses.js:80 | a missing or empty category becomes "Other"; any other category is kept |
| Expenses.AdmitExpense | convex/expenses.js:29-87 | admits exactly the drafts that pass every guard and builds the stored record from the draft verbatim, with the caller as creator. Each guard's error is reported in source order: non-positive amount, unknown split type, non-positive split, group checks only with a group, a caller who is neither payer nor in the splits, and a split sum more than 0.01 away from the amount |
| Expenses.CreateExpense | convex/expenses.js:23-90 | succeeds exactly on admissible drafts and appends the admitted record under the next id; on an error the ledger is unchanged; groups and users are never changed |
| Expenses.FoldPairBalance | convex/expenses.js:158-189 | the two loops compute the sum of the pair's expense shares plus the signed sum of the pair's settlements |
| Expenses.GetExpensesBetweenUsers | convex/expenses.js:98-207 | rejects querying oneself and an unknown user; otherwise returns the pair's expenses and settlements, the other user's name and the pairwise balance |
| Expenses.PairExpensesSelection | convex/expenses.js:104-133 | the listed expenses are, as a multiset, the ungrouped expenses paid by one of the pair in which both take part, sorted by date descending |
| Expenses.PairSettlementsSelection | convex/expenses.js:136-155 | the listed settlements are, as a multiset, the ungrouped settlements between exactly the two users in either direction; a settlement is listed iff it is one of those; the list is sorted by date descending |
| Expenses.PairExpenseNetOverTable | convex/expenses.js:158-176 | the expense part of the balance is a sum over the whole expense table: +the other's first unpaid split where I paid, −my first unpaid split where they paid |
| Expenses.PairSettledNetOverTable | convex/expenses.js:179-189 | the settlement part of the balance is a sum over the whole settlement table: +what I paid them, −what they paid me |
| Expenses.PairBalanceAntisymmetric | convex/expenses.js:158-189 | the balance of a with b is minus the balance of b with a |
| Expenses.Pruned | convex/expenses.js:244-246 | the pruned related-expense list is an order-preserving subsequence of the old one that keeps every other id as often as it occurred (duplicates included) and never holds the deleted one |
| Expenses.CascadeMembers | convex/expenses.js:242-257 | a record is in the table after the cascade iff it comes from some old settlement: kept, patched, or dropped |
| Expenses.CascadeEffect | convex/expenses.js:234-257 | settlements that do not cite the expense are kept; those citing other expenses too lose exactly that id; those citing only it are deleted; no remaining settlement cites it; no new ids appear |
| Expenses.PruneOrRemove | convex/expenses.js:248-256 | one loop step: a settlement left with no related expense is deleted, otherwise patched; the table moves to the next cascade state |
| Expenses.DeleteExpense | convex/expenses.js:215-263 | a missing expense and a caller who is neither creator nor payer are errors that leave the ledger unchanged; a found expense deleted by its creator or payer always succeeds; on success the expense is gone and the settlement table is the cascade of the old one |
| Settlements.ReplayExpenseLoop | convex/settlements.js:57-82 | the expense loop adds the receiver's first unpaid split where the payer paid and subtracts the payer's first unpaid split where the receiver paid |
| Settlements.ReplaySettlementLoop | convex/settlements.js:107-117 | the settlement loop subtracts the payer's prior settlements to the receiver and adds the receiver's to the payer |
| Settlements.ReplayNet | convex/settlements.js:36-117 | the replayed net equals the specification `OutstandingNet` over ungrouped expenses and settlements of the pair |
| Settlements.AdmitSettlement | convex/settlements.js:24-151 | admits exactly the admissible drafts and builds the stored record with the server time and the caller as creator. Errors: non-positive amount, payer equal to receiver, a caller outside the pair; once those pass, an ungrouped draft fails with "no outstanding balance" exactly at a zero replayed net and otherwise with "exceeds" above |net| + 0.01; a grouped draft skips the bound and fails with "group not found" or, for a found group, with the membership error when either party is not a member |
| Settlements.CreateSettlement | convex/settlements.js:18-152 | succeeds exactly on admissible drafts and appends the admitted record under the next id; on an error the ledger is unchanged; expenses, groups and users are never changed |
| Settlements.ReplayOppositeSign | convex/settlements.js:107-117 | the admission net is the pairwise expense net MINUS the pairwise settled net, whereas the read views add it |
| Settlements.SettledDebtCanBeSettledAgain | convex/settlements.js:107-127 | a 10.00 debt already settled once shows a zero pairwise balance, a replayed net of −20, and a second 10.00 settlement is admitted |
| Settlements.OwedAndOwing | convex/settlements.js:251-261 | max(0, net) and max(0, −net): both are non-negative, at most one is positive, and their difference is the net |
| Settlements.UserPageExpenseLoop | convex/settlements.js:195-217 | the user-page expense loop sums the pair's unpaid first splits with the page's signs |
| Settlements.UserPageSettlementLoop | convex/settlements.js:235-249 | the user-page settlement loop adds every ungrouped settlement I paid and subtracts every one the other paid, whoever received it |
| Settlements.UserPageBalance | convex/settlements.js:177-249 | the page's two loops compute the specification `UserPageNet` |
| Settlements.UserPageCountsThirdParties | convex/settlements.js:219-249 | the user page's net equals the pairwise balance plus the settlements either party made with third parties |
| Settlements.UserPageMatchesPairWithoutThirdParties | convex/settlements.js:171-262 | with no ungrouped settlements to third parties, the user page and the pairwise balance agree |
| Settlements.InitBalances | convex/settlements.js:279-282 | one zero tally per member other than the caller, keyed in first-seen order, never one for the caller |
| Settlements.ApplySplits | convex/settlements.js:288-294 | each tracked member gains their unpaid split amounts on an expense the caller paid; untracked ids change nothing |
| Settlements.ApplyGroupExpense | convex/settlements.js:286-301 | one expense changes each tracked tally by that member's group-expense term; the key set is unchanged |
| Settlements.ApplyGroupExpenses | convex/settlements.js:285-302 | each tracked tally grows by the sum of that member's expense terms; the key set is unchanged |
| Settlements.ApplyGroupSettlements | convex/settlements.js:310-320 | each tracked tally grows by the caller's settlements with that member, signed by direction; the key set is unchanged |
| Settlements.MemberRows | convex/settlements.js:327-338 | one row per tracked key, in key order, carrying that key's tally |
| Settlements.GroupBalances | convex/settlements.js:279-338 | the group page's rows equal the specification `GroupRows` over the tracked members |
| Settlements.GroupRowsShape | convex/settlements.js:279-338 | a row exists for exactly the members other than the caller, once each; each row's net is the member's net, and the two non-negative halves differ by it |
| Settlements.GetSettlementData | convex/settlements.js:167-354 | an unknown user, a missing group, a caller outside the group and any other entity type are errors; the user page carries the net and its two halves; the group page carries the group's rows |
| Dashboard.TallySplits | convex/dashboard.js:30-34 | each other participant's unpaid split adds to their tally; the caller's own and paid splits add nothing; the key list stays in step with the map |
| Dashboard.TallyExpenses | convex/dashboard.js:25-40 | every counterparty's tally grows by the sum of their expense terms over the considered expenses |
| Dashboard.TallySettlements | convex/dashboard.js:50-60 | a settlement the user paid adds to the receiver's tally; one the user received subtracts from the payer's |
| Dashboard.TallyAll | convex/dashboard.js:12-60 | after both loops over ungrouped records involving the user, each counterparty's tally is the specification `Tally` |
| Dashboard.Partition | convex/dashboard.js:63-86 | the two lists are the specification `Entries` of each side, and the two totals are the sums of the listed amounts |
| Dashboard.EntriesShape | convex/dashboard.js:68-86 | a counterparty is listed on a side iff |net| ≥ 0.01 and the sign matches that side; each entry carries the name or "Unknown" and |net|; no one is listed twice |
| Dashboard.SortedList | convex/dashboard.js:88-89 | sorting keeps the same entries, the same listed users, no duplicates and the same total |
| Dashboard.SideOfTally | convex/dashboard.js:68-89 | a sorted side lists exactly the counterparties whose tally is at least 0.01 on that side, with the absolute tally, descending, with a non-negative total |
| Dashboard.GetUserBalances | convex/dashboard.js:5-100 | both lists hold exactly the counterparties whose net is ≥ 0.01 owed or ≤ −0.01 owing, with amount = |net| and name or "Unknown", once each, by amount descending; the totals are the list sums, both non-negative, and their difference is the total balance |
| Dashboard.GroupBalance | convex/dashboard.js:220-268 | the forEach loops compute the specification `GroupScalar`: others' unpaid splits on what the user paid, minus the user's first split on others' expenses when that split is unpaid, plus or minus the user's group settlements |
| Dashboard.GetUserGroups | convex/dashboard.js:204-280 | returns a summary for exactly the groups the user belongs to, one per group, each with that group's scalar balance |
| Dashboard.LatestExpenses | convex/dashboard.js:293-297 | at most 50 expenses from the table, sorted by date descending; all of them when the table holds at most 50 |
| Dashboard.SameDateNewestFirst | convex/dashboard.js:293-297 | two expenses on the same date come out newest-created first, as the `by_date` index orders ties by creation time |
| Dashboard.RecentExpenses | convex/dashboard.js:293-303 | at most 20 expenses, each involving the user, an order-preserving subsequence of the 50 latest by date, so also date-descending; exactly the first min(20, n) of the n involved ones among those 50 |
| Dashboard.GroupNameOf | convex/dashboard.js:309-313 | null (`NoGroup`) iff the expense is ungrouped; undefined (`MissingGroup`) iff its group is gone; otherwise the name of the found group |
| Dashboard.RecentActivity | convex/dashboard.js:283-324 | one item per selected expense, in order, each involving the user, with the payer name given by `NameOrUnknown` (never empty, "Unknown" for a missing user or empty name) and the group name given by `GroupNameOf` (null iff ungrouped) |
| Dashboard.GetTotalSpent | convex/dashboard.js:103-138 | the loop computes the specification `TotalSpent`: the user's first split amount summed over expenses dated from the start of the year that involve the user |
| Dashboard.TotalSpentOverYear | convex/dashboard.js:118-134 | the involvement filter changes nothing: the total is the user's first split summed over all expenses since the start of the year |
| Dashboard.TotalSpentNonNegative | convex/dashboard.js:125-134 | over admitted expenses (positive split amounts) the total spent is non-negative |
| Agreement.TallyExpenseAt | convex/dashboard.js:25-40 | per expense, the dashboard's contribution to counterparty c equals the pairwise view's, when ungrouped split lists have unique participants |
| Agreement.TallySettlementAt | convex/dashboard.js:50-60 | per settlement, the dashboard's contribution to counterparty c equals the pairwise view's |
| Agreement.DashboardMatchesPair | convex/dashboard.js:23-60 | the dashboard tally for c equals the pairwise balance of `getExpensesBetweenUsers`, when no ungrouped split list repeats a participant |
| Agreement.DuplicateSplitsDisagree | convex/dashboard.js:30-34 | with a participant listed twice, the dashboard counts 20 where the pairwise view counts 10 |
| Agreement.GroupScalarMatchesMembers | convex/dashboard.js:225-268 | the group scalar equals the sum of the per-member nets of the settle-up page, when every payer, split participant and settlement party is a member and split lists have unique participants |

## Left out

- UI files and `convex/debug.js` are not part of this model: they hold no ledger logic.
- Authentication (`getCurrentUser`) is not modelled: the caller's id is a parameter of every handler.
- `getMonthlySpending` is not modelled: it depends on calendar and time zone arithmetic (`Date`). For the same reason the server clock (`Date.now()`) and the start of the year are parameters.
- Floating point: amounts are exact reals, so rounding error in sums and comparisons is not captured.
- Concurrency and transaction isolation: each handler is one atomic step over the `Db` object.
- Logging (`console.log`, the `debugLog` trace array) and fields without ledger meaning (`imageUrl`, email) are dropped from results.
- Result shapes are flattened: the `oweDetails` nesting of `getUserBalances` and the `...group`/`...activity` spreads carry the same data as fields of the result datatypes.
- Ids are natural numbers shared across tables rather than per-table typed ids. JavaScript's `Object.entries` order (integer-like keys first) does not arise for opaque ids. The dashboard's counterparties are listed in first-seen order.
- `Array.prototype.sort` is stable, so equal dates and equal amounts keep their first-seen order; `SortDesc` is a stable descending insertion sort and keeps the same order. It works on values, not in place on an array.
- Tables are kept in creation order, and the `by_date` index is modelled as a stable descending sort of the reversed expense table, so that same-date expenses come newest-created first. Creation times are not modelled as a separate field.
- `createExpense` does not check that split participants are distinct. The comparisons in `Agreement` therefore carry that as a hypothesis.
- Group membership is read as a list of user ids. Adding or removing members is outside these handlers and is not modelled.

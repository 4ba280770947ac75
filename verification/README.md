# Odoo addons: contract lines, ledgers, connectors, jobs

A Dafny model of the parts of this collection of Odoo addons whose behaviour spans
several functions or whole runs, and proofs about it. `dafny verify dfyconfig.toml`
checks everything.

**Contract lines** (`Calendar`, `Recurrence`, `LineConstraints`, `ContractLines`,
`LineModel`, `LineGuards`, `LineRuns`, `LineLinks`, `LineDates`, `LineOutcomes`,
`Suspension`, `StepResults`, `TimelyRuns`, `LineHistory`). A line has an interval of days, a last invoiced day, a next invoice
date, and links to the line before and after it. `ContractLines` gives each step of
the life cycle as a function from table to table or to a fault, with the declared
constraints run on each write; `LineModel` is the class whose methods change the
table in place and meet those functions. Dates are day ordinals, tied to calendar
dates by a proved bijection; `today` is a parameter. The main results are the link
invariant over every run, the tiling of a line by its invoices over every run, the
exact outcome of each step (which step is allowed on which day, in `LineGuards`; which
fields it changes and to what, in `StepResults`), and the conservation of service by a suspension.

**Selecting and searching** (`InvoiceSelection`, `RecurringInvoices`, `StateSearch`). The
one-pass scan over lines, sections and notes against a declarative rule; preparing the
invoices of several contracts and moving their lines on; search domains in prefix
notation against the computed state of a line.

**Reports** (`FiniteSums`, `TrialBalance`, `GroupRollup`, `GeneralLedger`). The four
filters of the trial balance as a partition of the items, the merged totals, the
roll-up over groups, running balances and centralisation. Amounts are integers
(hundredths, say), so sums are exact. A `read_group` call is a parameter that is
required to be the grouping of the items by the stated filter.

**Connectors** (`BackendClasses`, `SheetChunks`, `ImportRows`, `ComponentLookup`). Class
replacement along registration, cutting a sheet into jobs, compacting imported rows,
and the cached component lookup with the choice of one component.

**Jobs** (`JobRetry`). The job object, its stored record, and the counter of attempts
over every run of the runner and its users.

Some claims one would expect of the code are false. Each has its exact condition, and a
lemma or method at an input that fails it:

- Renewing a line by extension does not recompute its next invoice date:
  `LineOutcomes.ExtensionOutcome`, `LineOutcomes.ExtensionExample`.
- The in-progress search domain is narrower than the computed state, and an "in"
  search over an empty list finds every line: `StateSearch.StateDomainMeaning`,
  `StateSearch.SearchFinds`, `StateSearch.RunningLineExample`.
- The group roll-up loses amounts when a group pushes to its parent before one of its
  own children has pushed to it. The order of the pushes is known beforehand, from the
  distances to the populated groups: `GroupRollup.AddsUpIffChildrenRankFirst`,
  `GroupRollup.LatePushExample`.
- The jobs of a sheet miss its last rows when a blank row below the first column is
  followed by a filled one: `SheetChunks.Run`, `SheetChunks.GapExample`.
- Preparing the invoices of several contracts without a date uses the date of the first
  contract that has one for all later contracts: `InvoiceSelection.OwnDateIffSameDate`,
  `InvoiceSelection.EarlierDateExample`.
- A component class loaded after a lookup for it may be missed:
  `ComponentLookup.AlwaysFreshIffHarmless`, `ComponentLookup.LateClassIsMissed`.
- Conflicts of transactions count as attempts, and a job can be past its limit without
  failing: `JobRetry.AtLimitIffConflict`, `JobRetry.ConflictsNeverFail`.

Two differences are stated as exact equations. The final balance of a receivable or
payable account is the sum of its partners plus the part of its initial balance that was
not grouped by partner (`GeneralLedger.AccountIsItsPartners`), and centralised lines lead
to debit less credit, which is the final balance exactly when the balances of the lines
agree with it (`GeneralLedger.CentralRunsToFinal`).

## Model

| member | source | states |
|---|---|---|
| Calendar.CivilRoundTrip | local/Contract/models/contract_line.py:787-806 | day ordinals and valid (year, month, day) dates are in bijection, so the date arithmetic of the lines can be done on ordinals |
| Calendar.MonthStartClosed | local/Contract/models/contract_line.py:787-806 | counting days month by month agrees with the closed form of the Gregorian calendar, for every month before and after year 1 |
| Calendar.AddMonthsInMonth | local/Contract/models/contract_line.py:787-806 | adding months lands in the target month, on the same day or on its last day if it is shorter |
| Calendar.PlusAdvances | local/Contract/models/contract_line.py:787-806 | a relative delta moves every day strictly forward if and only if it counts at least one unit |
| Calendar.PlusMonotone | local/Contract/models/contract_line.py:787-806 | adding a delta never reverses two days, across month-end clamping |
| Calendar.AddMonthsDrift | local/Contract/models/contract_line.py:787-806 | two shifts never land past the combined one, and exactly on it when the day of the month is at most 28 |
| Recurrence.PeriodAdvances | local/Contract/models/contract_line.py:433-484 | the period that starts on a day is not empty if and only if the interval is at least 1, for every rule; how long it is, Recurrence.NextPeriodDay states |
| Recurrence.NextPeriodDay | local/Contract/models/contract_line.py:787-806 | which calendar day the next period starts on, per rule: interval or 7 * interval days on; the same day 1, 3 or 6 times interval months on, or the last day of a shorter month; the same month interval years on; day 1 of the month interval months on under monthlylastday |
| Recurrence.ForcedPeriod | local/Contract/models/contract_line.py:433-484 | a next invoice date set by hand decides where the period ends, pre-paid or post-paid, within the line |
| Recurrence.InvoiceDay | local/Contract/models/contract_line.py:402-430 | a period is invoiced on its first day when pre-paid, on its last under monthlylastday, and otherwise on the day after it, the period cut at the end of the line |
| Recurrence.PeriodMonotone | local/Contract/models/contract_line.py:433-484 | later periods never end earlier |
| Recurrence.ForcedAgreesWithRegular | local/Contract/models/contract_line.py:433-484 | the forced-date branch gives the period end of the regular branch when the date is the computed one: pre-paid or post-paid, trimmed or not, whatever the offset |
| Recurrence.LastDayPeriods | local/Contract/models/contract_line.py:787-806 | under monthlylastday an untrimmed period ends on a last day of a month and the next starts on day 1, interval months on |
| Recurrence.InvoiceDateBounds | local/Contract/models/contract_line.py:402-430 | a next invoice date exists exactly when a next period does; it lies between the first day of the period and the day after its last |
| LineConstraints.ExpandNoneMatches | local/Contract/models/contract_line_constraints.py:35-45 | expanding a row gives exactly the criteria that match it |
| LineConstraints.RowsFollowRule | local/Contract/models/contract_line_constraints.py:54-374 | every row that matches a criteria allows what one closed rule says: rows never compete |
| LineConstraints.RowForMatches | local/Contract/models/contract_line_constraints.py:54-374 | every criteria the rule covers has a row |
| LineConstraints.Add | local/Contract/models/contract_line_constraints.py:48-51 | adding a row adds exactly the criteria that match it and keeps agreement with the rule |
| LineConstraints.BuildTable | local/Contract/models/contract_line_constraints.py:371-374 | filling the dictionary in any row order gives the rule, and nothing outside it |
| LineGuards.GuardsMeaning | local/Contract/models/contract_line.py:302-331 | each of the five steps is allowed if and only if a condition on today, the dates, what is invoiced, the flags, the links and the termination of the contract holds |
| LineGuards.EndedLine | local/Contract/models/contract_line_constraints.py:377-428 | a line that ended may not be canceled or suspended, nor stopped when it has a successor |
| LineGuards.WriteMeaning | local/Contract/models/contract_line.py:333-380 | a write is accepted if and only if, for the fields written, the dates, flags and links of the line fit each other and its neighbours; nothing else changes |
| LineModel.ContractLineModel.WriteRecord | local/Contract/models/contract_line.py:333-380 | writing one record updates the table in place, or leaves it when a constraint on a written field fails |
| LineModel.ContractLineModel.CreateRecord | local/Contract/models/contract_line.py:898-920 | creating a record runs every constraint and uses up a fresh identifier only on success |
| LineModel.ContractLineModel.StopRecord | local/Contract/models/contract_line.py:867-895 | stopping one record does what the specification StopOne says: cancel, shorten with a recomputed date, or clear auto-renew |
| LineModel.ContractLineModel.Stop | local/Contract/models/contract_line.py:857-896 | stop over a record set: refused as a whole unless every record allows it, all or nothing |
| LineModel.ContractLineModel.PlanRecord | local/Contract/models/contract_line.py:942-955 | planning one successor writes the line, its copy and the link, or leaves the table as it was |
| LineModel.ContractLineModel.PlanSuccessor | local/Contract/models/contract_line.py:922-967 | plan_successor over a record set, all or nothing |
| LineModel.ContractLineModel.Delay | local/Contract/models/contract_line.py:808-839 | a delay shifts both dates and recomputes the next invoice date |
| LineModel.ContractLineModel.SuspendRecord | local/Contract/models/contract_line.py:1007-1060 | suspending one record takes the branch its dates ask for: delay, stop, or stop and plan |
| LineModel.ContractLineModel.StopPlanSuccessor | local/Contract/models/contract_line.py:1001-1074 | stop_plan_successor over a record set, all or nothing |
| LineModel.ContractLineModel.Cancel | local/Contract/models/contract_line.py:1076-1094 | cancel frees the predecessors, then marks the lines |
| LineModel.ContractLineModel.Uncancel | local/Contract/models/contract_line.py:1096-1118 | uncancel relinks a free predecessor, clears the mark and writes the given date |
| LineModel.ContractLineModel.RenewRecord | local/Contract/models/contract_line.py:1212-1228 | renewing one record either plans a line for the next period or extends the end |
| LineModel.ContractLineModel.Renew | local/Contract/models/contract_line.py:1230-1252 | renew over a record set, all or nothing |
| LineModel.ContractLineModel.UpdateRecurringNextDate | local/Contract/models/contract_line.py:745-759 | one invoice of each record: the last invoiced day moves to the end of the next period |
| LineModel.ContractLineModel.Unlink | local/Contract/models/contract_line.py:1291-1298 | deletion needs a canceled line or a section or note, and clears the links to what it deletes |
| LineRuns.ForEachKeeps | local/Contract/models/contract_line.py:857-896 | a loop over records keeps every property its body keeps |
| LineLinks.WriteKeeps | local/Contract/models/contract_line.py:365-380 | rewriting a record keeps the link invariant when every change of its dates or flags is declared as written |
| LineLinks.CancelKeeps | local/Contract/models/contract_line.py:1076-1094 | cancel keeps the link invariant |
| LineLinks.PlanKeeps | local/Contract/models/contract_line.py:942-955 | planning a successor keeps the link invariant |
| LineLinks.StopKeeps | local/Contract/models/contract_line.py:857-896 | stop keeps the link invariant |
| LineLinks.DelayKeeps | local/Contract/models/contract_line.py:808-839 | a delay keeps the link invariant |
| LineLinks.SuspendOneKeeps | local/Contract/models/contract_line.py:1007-1060 | a suspension keeps the link invariant |
| LineLinks.UncancelKeeps | local/Contract/models/contract_line.py:1111-1117 | undoing a cancellation keeps the link invariant |
| LineLinks.RenewOneKeeps | local/Contract/models/contract_line.py:1212-1228 | renewing keeps the link invariant, in both forms |
| LineLinks.InvoiceOneKeeps | local/Contract/models/contract_line.py:745-759 | invoicing keeps the link invariant |
| LineLinks.UnlinkKeeps | local/Contract/models/contract_line.py:1291-1298 | deletion keeps the link invariant |
| LineLinks.TerminateKeeps | local/Contract/models/contract.py:554-567 | terminating a contract keeps the link invariant |
| LineLinks.StepKeeps | local/Contract/models/contract_line.py:857-1298 | every step, successful or refused, keeps the link invariant |
| LineLinks.RunKeeps | local/Contract/models/contract_line.py:857-1298 | the link invariant holds after every run of steps on any days: a line that is not canceled is its predecessor's successor, a successor points back and is not canceled, and starts after the line ends |
| LineLinks.ChainsOrdered | local/Contract/models/contract_line.py:365-380 | along a chain of successors of any length each line ends before every later one starts |
| LineLinks.RunFromEmpty | local/Contract/models/contract_line.py:365-380 | from the empty table, after every run: no two lines that are not canceled share a predecessor, and no chain is a cycle |
| LineDates.TimelyMeetsConstraints | local/Contract/models/contract_line.py:575-648 | "next invoice date = the recomputed one" implies every date constraint, and the date is missing exactly when the line is invoiced to its end |
| StepResults.TimelyDate | local/Contract/models/contract_line.py:402-430 | the day a timely line is invoiced next, told in its dates, type and rule; none once it is invoiced to its end |
| LineDates.PeriodToInvoiceIsNextPeriod | local/Contract/models/contract_line.py:707-729 | the period to invoice is the computed next period, non-empty and inside the line |
| LineDates.InvoicedTimely | local/Contract/models/contract_line.py:745-759 | invoicing keeps the relation |
| LineDates.InvoiceSucceeds | local/Contract/models/contract_line.py:745-759 | invoicing a timely line succeeds if and only if it has a next invoice date |
| LineDates.InvoicesTile | local/Contract/models/contract_line.py:745-759 | the periods of any number of invoices tile the line from its first uninvoiced day, contiguous and non-empty, within its end |
| LineDates.TileCoversOnce | local/Contract/models/contract_line.py:745-759 | in a tiling every day of the range is in exactly one period and no other day in any |
| LineDates.InvoicesFinish | local/Contract/models/contract_line.py:745-759 | with an end date finitely many invoices bill up to exactly the end, and then none is due |
| LineDates.LastDayTiling | local/Contract/models/contract_line.py:456-464 | under monthlylastday every period but the first starts on day 1 and every one ends with a month or with the line |
| LineOutcomes.StopOutcome | local/Contract/models/contract_line.py:841-896 | an allowed stop inside a timely line succeeds if and only if it does not fall before the last invoiced day, and leaves it timely |
| LineOutcomes.CancelOutcome | local/Contract/models/contract_line.py:1076-1094 | a cancel succeeds if and only if it is allowed, and frees the predecessor; when it is allowed LineGuards.GuardsMeaning states, and StepResults.CancelResult both together |
| LineOutcomes.PlanOutcome | local/Contract/models/contract_line.py:898-967 | an allowed plan succeeds if and only if the new interval starts after the line, is not reversed, and has an end when it auto-renews |
| LineOutcomes.DelayOutcome | local/Contract/models/contract_line.py:808-839 | a delay is refused if and only if the line was already invoiced |
| LineOutcomes.ExtendOutcome | local/Contract/models/contract_line.py:1223-1228 | renewing by extension succeeds if and only if the new end fits the start, what is invoiced, and the successor |
| LineOutcomes.ExtensionOutcome | local/Contract/models/contract_line.py:1223-1252 | a line without a successor is extended, and keeps its computed date if and only if an invoice is still due and, for a post-paid line, its period was not cut by the old end |
| LineOutcomes.ExtensionKeepsTimely | local/Contract/models/contract_line.py:1223-1228 | the same condition for any later end, when only the end changes |
| LineOutcomes.ExtensionExample | local/Contract/models/contract_line.py:1223-1228 | a fully invoiced pre-paid line renewed by extension has days to invoice and no invoice date |
| LineOutcomes.RenewOutcome | local/Contract/models/contract_line.py:1212-1221 | renewing by a new line succeeds if and only if the line may be stopped, has no successor and renews by at least one unit; the table it leaves |
| LineOutcomes.UncancelOutcome | local/Contract/models/contract_line.py:1096-1118 | undoing a cancellation succeeds if and only if it is allowed, the predecessor can be linked to, and the given date meets the constraints; what it leaves |
| StepResults.InvoiceResult | local/Contract/models/contract_line.py:745-759 | an invoice fails only when the line is invoiced to its end; it moves the last invoiced day to the end of the next period and the next date on, and nothing else |
| StepResults.StopResult | local/Contract/models/contract_line.py:857-896 | a stop succeeds if and only if the line is in force, did not end before today with a successor, and is not invoiced past the new end; which fields change and to what |
| StepResults.EarlyStopResult | local/Contract/models/contract_line.py:867-873 | a stop before the start is a cancel |
| StepResults.CancelResult | local/Contract/models/contract_line.py:1076-1094 | a cancel succeeds if and only if the line is in force, has not ended before today and was never invoiced; it marks the line and frees the predecessor, and nothing else |
| StepResults.UncancelResult | local/Contract/models/contract_line.py:1096-1118 | undoing a cancellation: exactly when it succeeds, in dates, and the two lines it changes |
| StepResults.PlanResult | local/Contract/models/contract_line.py:898-967 | planning: exactly when it succeeds, in dates; the successor is a copy with its own dates, never invoiced, linked both ways |
| StepResults.DelayResult | local/Contract/models/contract_line.py:808-839 | a delay moves both dates and the next invoice date, and nothing else |
| StepResults.SuspendResult | local/Contract/models/contract_line.py:1001-1060 | a suspension: exactly when it succeeds, in dates; what becomes of a line before it, after it, and across it |
| StepResults.RenewResult | local/Contract/models/contract_line.py:1212-1221 | a renewal by a new line: exactly when it succeeds, in dates; the old line is closed and the new one runs for one period of renewal |
| StepResults.ExtendResult | local/Contract/models/contract_line.py:1223-1228 | a renewal by extension moves the end by one period of renewal and nothing else |
| StepResults.UnlinkResult | local/Contract/models/contract_line.py:1291-1298 | deletion needs canceled lines, sections or notes, and clears every link to what is deleted |
| StepResults.TerminateResult | local/Contract/models/contract.py:554-567 | terminating a contract ends by the given day, or cancels, each of its lines that may be stopped, and no step is allowed on it any more |
| StepResults.CancelSetResult | local/Contract/models/contract_line.py:1076-1094 | canceling any lines of any table: when it succeeds, and what becomes of each line |
| StepResults.LateStopResult | local/Contract/models/contract_line.py:867-896 | a stop at or after the end keeps the dates of a line, computed or not |
| StepResults.EditResult | local/Contract/models/contract_line.py:333-380 | a user edit is accepted if and only if what is written leaves dates and links fitting; what is not written stays |
| Suspension.InnerGuards | local/Contract/models/contract_line_constraints.py:54-374 | when a suspension is allowed so is its inner stop, and planning after it, wherever today falls |
| Suspension.SplitOutcome | local/Contract/models/contract_line.py:1018-1060 | suspending a running line succeeds if and only if nothing is invoiced into the suspension and auto-renew has an end |
| Suspension.SuspendOutcome | local/Contract/models/contract_line.py:1001-1060 | exactly when an allowed suspension of a timely line succeeds, and the table it leaves |
| Suspension.SuspensionConserves | local/Contract/models/contract_line.py:1001-1060 | no day of service in the suspension, none changed before it, and the total days of service kept across line and successor |
| Suspension.ServiceDaysCount | local/Contract/models/contract_line.py:1001-1060 | the days of service of a line are as many as the days it covers |
| TimelyRuns.StepTimely | local/Contract/models/contract_line.py:745-1074 | every step that computes its dates keeps all lines timely |
| TimelyRuns.RunTimely | local/Contract/models/contract_line.py:575-648 | after every run of such steps every line meets every date constraint |
| LineHistory.StepFrames | local/Contract/models/contract_line.py:808-1298 | a step other than invoicing keeps the last invoiced day of every line, and the start of every invoiced one |
| LineHistory.StepBilled | local/Contract/models/contract_line.py:745-759 | every step keeps the billed periods of each line a tiling of its invoiced days |
| LineHistory.HistoryTiles | local/Contract/models/contract_line.py:707-759 | over every run, with any steps between the invoices, the billed periods of each line tile it from its start to its last invoiced day: each day billed once, none outside |
| InvoiceSelection.GetLinesToInvoice | local/Contract/models/contract.py:451-478 | the one-pass scan takes exactly the lines the rule names, in order: due lines, sections before one, with-previous notes in a run after one, with-next notes before one |
| InvoiceSelection.GatherStep | local/Contract/models/contract.py:455-477 | one turn of the scan picks exactly what the rule adds with one more line |
| InvoiceSelection.FollowedByDueStep | local/Contract/models/contract.py:455-477 | the next line settles exactly the section or note that is waiting |
| InvoiceSelection.TakenInFields | local/Contract/models/contract.py:451-478 | a line is taken if and only if its next date has come and it is not canceled; a section or note if and only if it follows or precedes such a line as its kind asks |
| RecurringInvoices.PrepareRecurringInvoices | local/Contract/models/contract.py:480-510 | one invoice per contract with a line to take as of the reference date, with exactly those lines; each of them moves on by one period and no other line changes; on an error nothing does, and it occurs if and only if a section or note to take has no next date |
| RecurringInvoices.InvoiceLines | local/Contract/models/contract_line.py:745-759 | invoicing a set of timely lines succeeds if and only if all have a next date, and moves each on once |
| RecurringInvoices.Earliest | local/Contract/models/contract.py:237-245 | the next date of a contract is the earliest of its recurring lines that are not canceled |
| InvoiceSelection.OwnDateIffSameDate | local/Contract/models/contract.py:480-510 | without a given date each contract is invoiced as of its own next date if and only if all contracts from the first dated one on have that date |
| InvoiceSelection.EarlierDateExample | local/Contract/models/contract.py:480-510 | two contracts due on different days: the second is looked at as of the first one's date, when it is not due |
| InvoiceSelection.OneDate | local/Contract/models/contract.py:480-510 | all invoices prepared together bear one date |
| StateSearch.ParseFlatten | local/Contract/models/contract_line.py:257-290 | prefix domains are unambiguous: a written expression is read back, whatever follows |
| StateSearch.StateDomainWrites | local/Contract/models/contract_line.py:187-254 | the domain of each state is one complete expression |
| StateSearch.StateDomainMeaning | local/Contract/models/contract_line.py:187-254 | on ordinary lines the domain of a state holds if and only if the computed state is it, except that in-progress also needs auto-renewal or a notice date still to come |
| StateSearch.DisplayMeaning | local/Contract/models/contract_line.py:187-254 | a section or note has no state, and the domain for no state finds exactly these |
| StateSearch.RunningLineExample | local/Contract/models/contract_line.py:187-254 | a running line without an end and without auto-renewal is in progress, and the domain of no state finds it |
| StateSearch.Join | local/Contract/models/contract_line.py:269-282 | putting an "or" before each further domain gives the disjunction of the listed states |
| StateSearch.SearchState | local/Contract/models/contract_line.py:257-290 | the searched domain is the disjunction of exactly the states asked for, for every operator |
| StateSearch.SearchFinds | local/Contract/models/contract_line.py:257-290 | a search finds exactly the ordinary lines whose computed state was asked for (less the unreachable in-progress ones) if and only if it is not an "in" over an empty list |
| TrialBalance.PartitionIffOrdered | local/account_financial_report/report/trial_balance.py:51-174 | the four date and account filters partition the items if and only if fy_start <= date_from <= date_to + 1 |
| TrialBalance.FiltersAddUp | local/account_financial_report/report/trial_balance.py:51-174 | with the dates in order the four filters add up to all items up to the last day |
| TrialBalance.AccountsAddUp | local/account_financial_report/report/trial_balance.py:225-445 | totals per account add up to the total of the filter |
| TrialBalance.InitialKindsApart | local/account_financial_report/report/trial_balance.py:51-113 | no account has both kinds of initial balance |
| TrialBalance.HiddenInitial | local/account_financial_report/report/trial_balance.py:225-445 | hiding initial groups at zero changes no account |
| TrialBalance.PeriodTotals | local/account_financial_report/report/trial_balance.py:302-314 | the first loop puts each account's period sums in the dictionary |
| TrialBalance.AddInitial | local/account_financial_report/report/trial_balance.py:315-340 | the second loop merges the initial balances: every account ends with its due totals, and every missing one is due nothing |
| TrialBalance.PlInitialBalance | local/account_financial_report/report/trial_balance.py:176-207 | the earnings of earlier fiscal years are the sum of their filter |
| TrialBalance.GetData | local/account_financial_report/report/trial_balance.py:210-445 | the dictionary holds exactly the expected totals of each account, the unaffected-earnings account corrected; what is expected TrialBalance.ExpectedInDates states in dates |
| TrialBalance.ExpectedInDates | local/account_financial_report/report/trial_balance.py:51-445 | a carried account opens with all its items before date_from, another one with those from fy_start on; the unaffected-earnings account also takes the profit-and-loss items before fy_start; period totals are the items from date_from to date_to |
| TrialBalance.EndingsAddUp | local/account_financial_report/report/trial_balance.py:225-445 | the ending balances sum to all items dated up to date_to, whether accounts at zero are hidden or not |
| TrialBalance.EntriesAddUp | local/account_financial_report/report/trial_balance.py:225-445 | items add up entry by entry |
| TrialBalance.BalancedEntriesGiveZero | local/account_financial_report/report/trial_balance.py:225-445 | when every entry balances and is taken whole, the items up to date_to sum to zero |
| TrialBalance.BalancedEndings | local/account_financial_report/report/trial_balance.py:225-445 | when every entry balances and is taken whole, the ending balances sum to zero |
| GroupRollup.HierarchyGroups | local/account_financial_report/report/trial_balance.py:447-513 | the recursion over levels terminates and equals pushing the groups one by one in order of creation |
| GroupRollup.KeysAreAncestors | local/account_financial_report/report/trial_balance.py:447-513 | the groups of the result are exactly the ancestor closure of the populated groups |
| GroupRollup.RankIsFirst | local/account_financial_report/report/trial_balance.py:447-513 | the rank of a group, fewest steps up from a populated group and then the first of those, is the first of all routes to it |
| GroupRollup.PushOrderByRank | local/account_financial_report/report/trial_balance.py:447-513 | the groups that push are those with a rank, in the order of their ranks |
| GroupRollup.AddsUpIffChildrenRankFirst | local/account_financial_report/report/trial_balance.py:451-489 | the roll-up is right for all amounts if and only if every group that has a parent ranks after each of its children |
| GroupRollup.AddsUpInFields | local/account_financial_report/report/trial_balance.py:451-489 | when the roll-up is right, each of the five amounts of a group is its own plus those of its children |
| GroupRollup.LatePushExample | local/account_financial_report/report/trial_balance.py:451-489 | a group listed before its child: what the child holds never reaches the grandparent |
| GroupRollup.LatePushLoses | local/account_financial_report/report/trial_balance.py:451-489 | a late push loses what it brings, for amounts of one everywhere |
| GroupRollup.SameDepthIsOrderly | local/account_financial_report/report/trial_balance.py:447-513 | every group ranks after its children when the populated groups share one depth |
| GroupRollup.NodeIsSubtree | local/account_financial_report/report/trial_balance.py:447-513 | a group that adds up holds the amounts of all groups below it |
| GroupRollup.GroupsData | local/account_financial_report/report/trial_balance.py:515-576 | the first loop credits each account to its group |
| GroupRollup.GroupsHoldTheirAccounts | local/account_financial_report/report/trial_balance.py:515-576 | when every group ranks after its children, each holds exactly the totals of the accounts in and below it |
| GroupRollup.RootsConserve | local/account_financial_report/report/trial_balance.py:447-513 | when every group adds up the roots hold the grand total |
| GroupRollup.RootsHoldEverything | local/account_financial_report/report/trial_balance.py:515-576 | when every group ranks after its children, the roots hold the total of all accounts that have a group |
| GroupRollup.WorkKeepsBalanced | local/account_financial_report/report/trial_balance.py:447-513 | late or not, every group keeps ending = initial + balance and balance = debit - credit |
| GeneralLedger.OpenAccounts | local/account_financial_report/report/general_ledger.py:213-228 | the first loop opens each account with its initial sums |
| GeneralLedger.OpenPartners | local/account_financial_report/report/general_ledger.py:229-260 | the second loop opens each partner with its initial sums, and nothing else changes |
| GeneralLedger.InitialBalanceData | local/account_financial_report/report/general_ledger.py:163-286 | every account opens with its initial balance, plus the earnings of earlier years on the unaffected one |
| GeneralLedger.InitialInFields | local/account_financial_report/report/general_ledger.py:163-286 | an account opens with the sums of its initial lines, the unaffected-earnings account also with the profit-and-loss lines of earlier years |
| GeneralLedger.PeriodMlData | local/account_financial_report/report/general_ledger.py:440-495 | every account and partner ends with what it had plus exactly its own lines, kept in order |
| GeneralLedger.PartnerTotal | local/account_financial_report/report/general_ledger.py:229-260 | the total of a partner adds up the debits, credits and balances of its lines; the lines without a partner are those of partner 0 |
| GeneralLedger.PartnersAddUp | local/account_financial_report/report/general_ledger.py:440-495 | partner totals add up to the account total |
| GeneralLedger.AccountIsItsPartners | local/account_financial_report/report/general_ledger.py:440-495 | the final balance of a split account is the sum over partners plus exactly the part of its initial balance not grouped by partner |
| GeneralLedger.SplitFinal | local/account_financial_report/report/general_ledger.py:440-495 | the same for debit, credit and balance, each by itself |
| GeneralLedger.RecalculateCumulBalance | local/account_financial_report/report/general_ledger.py:510-515 | the in-place loop turns balances into running balances, which GeneralLedger.RunningAt gives line by line |
| GeneralLedger.RunningAt | local/account_financial_report/report/general_ledger.py:510-515 | each listed balance is the start plus all balances up to its line, and the line is otherwise unchanged |
| GeneralLedger.LastRunning | local/account_financial_report/report/general_ledger.py:510-515 | the last running balance is the start plus all balances |
| GeneralLedger.TotalOfPermutation | local/account_financial_report/report/general_ledger.py:538-541 | sorting the lines changes no total |
| GeneralLedger.ReportedLedger | local/account_financial_report/report/general_ledger.py:386-508 | from the grouped initial balances through the lines of the period: every account of the ledger is opened with its initial balance and filled with exactly its lines |
| GeneralLedger.ShowAccount | local/account_financial_report/report/general_ledger.py:517-567 | the listed account: its lines, or those of each partner, by date with running balances |
| GeneralLedger.SortByDate | local/account_financial_report/report/general_ledger.py:538-541 | sorting keeps every line and puts them in the order of their dates |
| GeneralLedger.SortIsStable | local/account_financial_report/report/general_ledger.py:538-541 | lines of one date stay in the order they came in |
| GeneralLedger.ListedInFields | local/account_financial_report/report/general_ledger.py:517-567 | an account without partners lists its own lines, another one those of each partner in turn; in either case by date, stable, each balance replaced by the running one |
| GeneralLedger.RunsToFinal | local/account_financial_report/report/general_ledger.py:517-567 | in the reported ledger an account and each partner have final = initial + lines of the period, and their listed lines run to the final balance |
| GeneralLedger.ShownKeeps | local/account_financial_report/report/general_ledger.py:517-567 | the listed lines, balances overwritten, still have the debits and credits of the lines of the period |
| GeneralLedger.ByPartnerIsAccount | local/account_financial_report/report/general_ledger.py:609-627 | listing partner by partner neither loses nor repeats a line |
| GeneralLedger.CentralizedMl | local/account_financial_report/report/general_ledger.py:569-627 | each journal and month gets exactly the sums of the listed lines, partner by partner when the account is split |
| GeneralLedger.CentralizedInFields | local/account_financial_report/report/general_ledger.py:569-608 | a journal and month has a centralised line if and only if a line has them; it holds the debits and credits of those lines, and their difference as balance |
| GeneralLedger.CentralizationConserves | local/account_financial_report/report/general_ledger.py:569-627 | centralising conserves debit, credit and balance |
| GeneralLedger.CentralRunsToFinal | local/account_financial_report/report/general_ledger.py:686-698 | centralising the listed lines conserves the debits and credits of the period, and running through the centralised lines in any order ends at the final balance if and only if the balance of the period is its debit less its credit |
| GeneralLedger.TotalBalanced | local/account_financial_report/report/general_ledger.py:686-698 | that condition holds when it holds of each line |
| BackendClasses.Backend.RegisterClass | local/connector_amazon-8.0.1.0.1/connector/backend.py:277-307 | registration appends an entry, then adds it to the entries it replaces, and stops halfway at one it does not find; BackendClasses.RegisterMeaning gives the entries it leaves |
| BackendClasses.RegisterMeaning | local/connector_amazon-8.0.1.0.1/connector/backend.py:277-307 | registration fails if and only if a class to replace has no entry or the class would replace itself; otherwise the new entry is listed, the first listed entry of each replaced class gets it as a replacement, and no other entry changes |
| BackendClasses.ReplacedSteps | local/connector_amazon-8.0.1.0.1/connector/backend.py:229-307 | an entry that a registration replaces is not a candidate while the new one is active |
| BackendClasses.RegisterValid | local/connector_amazon-8.0.1.0.1/connector/backend.py:277-307 | replacement lists always point to newer entries, even after a registration that failed halfway |
| BackendClasses.FollowNone | local/connector_amazon-8.0.1.0.1/connector/backend.py:229-252 | no candidate is found if and only if no active entry is reached |
| BackendClasses.FollowExact | local/connector_amazon-8.0.1.0.1/connector/backend.py:229-252 | the recursion terminates and returns exactly the classes of reachable active entries without an active replacement below them |
| BackendClasses.FoundMatches | local/connector_amazon-8.0.1.0.1/connector/backend.py:229-252 | a class that is found matches the query and comes from an entry of an installed module |
| BackendClasses.PlainEntryFound | local/connector_amazon-8.0.1.0.1/connector/backend.py:229-252 | the class of an active listed entry without a replacement is found |
| BackendClasses.GetClassesNearest | local/connector_amazon-8.0.1.0.1/connector/backend.py:229-252 | the answer is that of the nearest backend, parents included, with an active entry |
| BackendClasses.GetClass | local/connector_amazon-8.0.1.0.1/connector/backend.py:254-275 | one class is returned if and only if there is exactly one candidate |
| BackendClasses.NoUnitIffNoneActive | local/connector_amazon-8.0.1.0.1/connector/backend.py:254-275 | the lookup finds nothing if and only if no backend of the chain has an active entry |
| SheetChunks.RealEnd | local/connector_google_spreadsheet/google_spreadsheet.py:231-241 | the end moves to the last row with a value, and one cell is added for each such row |
| SheetChunks.CellsReachEndIffNoGap | local/connector_google_spreadsheet/google_spreadsheet.py:231-241 | the cells keep up with the end if and only if no blank row comes before a filled one |
| SheetChunks.CutMeaning | local/connector_google_spreadsheet/google_spreadsheet.py:243-248 | a cut is allowed after a row if and only if the next row starts a record or none starts further on |
| SheetChunks.CreateJobs | local/connector_google_spreadsheet/google_spreadsheet.py:251-284 | the created jobs tile the data if and only if eof <= header_row + number of cells |
| SheetChunks.TilesUnique | local/connector_google_spreadsheet/google_spreadsheet.py:251-284 | cutting as early as allowed determines the jobs |
| SheetChunks.TilesCover | local/connector_google_spreadsheet/google_spreadsheet.py:251-284 | every row lies in exactly one job, all but the last have at least chunk_size rows, and each later job starts a record or follows the last one |
| SheetChunks.TilesEarly | local/connector_google_spreadsheet/google_spreadsheet.py:251-284 | no job could have ended at an earlier row: it would be too short, or the next row would not start a record |
| SheetChunks.CutFallsShort | local/connector_google_spreadsheet/google_spreadsheet.py:251-284 | complete jobs that stop before the end do not tile |
| SheetChunks.Run | local/connector_google_spreadsheet/google_spreadsheet.py:187-284 | the whole run: refused exactly on bad parameters, an empty header row or an empty data column, and otherwise tiling exactly when a last row is given or there is no gap; with a gap no job reaches the last rows |
| SheetChunks.GapExample | local/connector_google_spreadsheet/google_spreadsheet.py:231-284 | a sheet whose last row is in no job |
| ImportRows.ConvertImportData | local/connector_google_spreadsheet/google_spreadsheet.py:393-424 | keeps exactly the rows to import, in order, with their cells to import; positions increase and lead back; widths match the fields; refused exactly without named fields or with a row too short |
| ImportRows.DropSkip | local/connector_google_spreadsheet/google_spreadsheet.py:395-405 | dropping the first skip column from the projection leaves exactly the columns to import |
| ImportRows.ColumnsUnique | local/connector_google_spreadsheet/google_spreadsheet.py:395-405 | there is one list of columns to import |
| ImportRows.KeptMeaning | local/connector_google_spreadsheet/google_spreadsheet.py:412-421 | the test on the projected row keeps a row if and only if nothing asks to skip it and a cell to import is filled |
| JobRetry.Job.Perform | local/queue_job/job.py:502-526 | an attempt is counted unless it asks to be ignored, and a retryable error becomes a failure exactly at the limit |
| JobRetry.Job.SetPending | local/queue_job/job.py:641-648 | back to pending, with the counter reset only on demand |
| JobRetry.Job.SetStarted | local/queue_job/job.py:655-657 | started, with the date |
| JobRetry.Job.SetDone | local/queue_job/job.py:659-664 | done, with the date, the error cleared and the result replaced if given |
| JobRetry.Job.SetFailed | local/queue_job/job.py:666-669 | failed, with the error |
| JobRetry.Job.Store | local/queue_job/job.py:528-559 | the stored record is the job, an empty result stored as none |
| JobRetry.Job.Load | local/queue_job/job.py:264-316 | the loaded job is the record, empty texts loaded as none |
| JobRetry.Reload | local/queue_job/job.py:264-316 | storing a loaded job gives back its record, but for empty texts |
| JobRetry.Job.GetRetrySeconds | local/queue_job/job.py:674-687 | the wait is what the caller asks for (0 counts as not asking), else the entry with the greatest key not above the counter, else 600 |
| JobRetry.SortedApplies | local/queue_job/job.py:676-684 | the last entry of the sorted pattern not above the counter is the one with the greatest such key |
| JobRetry.DelayUnique | local/queue_job/job.py:674-687 | there is only one such wait |
| JobRetry.Job.Postpone | local/queue_job/job.py:689-700 | postponing sets the time after that wait; a wait of 0 clears it |
| JobRetry.PostponedUntil | local/queue_job/job.py:689-700 | the time a postponed job is next tried, from the wait asked for, the pattern and the counter |
| JobRetry.RunJob | local/queue_job/controllers/main.py:24-120 | one attempt by the runner: what is stored when it starts and when it ends, for every outcome of the function and for conflicts when the start or the end is committed |
| JobRetry.AttemptOutcome | local/queue_job/controllers/main.py:24-120 | the fields of the stored record after one attempt, for each outcome of the function |
| JobRetry.RetryCountsAttempts | local/queue_job/job.py:507-526 | over every run the stored counter is the number of counted attempts since the last reset by a user |
| JobRetry.FailsAtTheLimit | local/queue_job/job.py:511-525 | in every run a retryable error fails the job exactly from the attempt that reaches the limit, and never when it is 0 |
| JobRetry.AtLimitIffConflict | local/queue_job/job.py:511-525 | in every run a job that is neither done nor failed has reached the limit if and only if the attempt that reached it, since the last reset, ended in a conflict of transactions |
| JobRetry.LiveBelowLimit | local/queue_job/job.py:511-525 | in every run without such conflicts a job still to be run has had fewer attempts than the limit |
| JobRetry.RetriesUntilTheLimit | local/queue_job/job.py:511-525 | a function that always asks to be retried is called max_retries times, at least once, or for ever if it is 0 |
| JobRetry.ConflictsNeverFail | local/queue_job/controllers/main.py:84-93 | a job that runs into a conflict every time is counted every time and never fails |
| ComponentLookup.Registry.LoadComponents | local/component/core.py:97-102 | a module is built into the registry once; the cache is not touched |
| ComponentLookup.Registry.Lookup | local/component/core.py:104-164 | the chain of filters with its cache: the cached answer, or the filtered components, kept for later |
| ComponentLookup.FoundMeaning | local/component/core.py:132-164 | a fresh lookup finds each component asked for, once, in the order of registration, and no other |
| ComponentLookup.FoundInFields | local/component/core.py:132-164 | the found components are those that are not abstract and whose collection, usage and models fit the query, generic ones included |
| ComponentLookup.LoadedInFields | local/component/core.py:97-102 | loading a module again does nothing; the first time it adds its new names at the end, gives each component the definition of its last class, and leaves the rest alone |
| ComponentLookup.LookedInFields | local/component/core.py:104-164 | a lookup changes nothing but the cache, and not even that when the query is there |
| ComponentLookup.LookupsAreFresh | local/component/core.py:97-164 | when all loading precedes all lookups every lookup in every run equals the fresh filter, whatever is evicted |
| ComponentLookup.SameFound | local/component/core.py:132-164 | a query finds the same after a change if and only if the same names are asked for and none is new |
| ComponentLookup.CoherentIffHarmless | local/component/core.py:97-104 | after loading, the cache agrees with a fresh filter if and only if the module changes nothing that a cached query asks for |
| ComponentLookup.AlwaysFreshIffHarmless | local/component/core.py:97-164 | in every run the cache agrees at all times if and only if every load is harmless in this sense, and then every lookup is fresh |
| ComponentLookup.LateClassIsMissed | local/component/core.py:97-104 | a class loaded after a query that is still cached is missed, for every query and every class it asks for |
| ComponentLookup.WorkContext.Component | local/component/core.py:349-417 | component narrows the candidates that match: by collection, then by model |
| ComponentLookup.ChoiceIsWinner | local/component/core.py:382-410 | the chosen component is the one that goes before every other candidate; several without such a one is an error, none another |
| ComponentLookup.ChoiceIgnoresOrder | local/component/core.py:382-410 | the choice does not depend on the order of candidates |
| ComponentLookup.ChoiceIgnoresRegistration | local/component/core.py:349-410 | registering the same components in another order does not change the choice |

## Left out

Contract lines:

- The range of dates: a date is any integer day, so no step overflows a year.
- Stored computed fields are recomputed whenever they are read; a stale stored value is not modelled.
- Several constraints that fail together count as one rejection; which message is raised is not modelled.
- `TimelyRuns.RunTimely`: does not cover the date handed to `uncancel`, renewing by extension, or a date or an edit a user forces, because these put a date that was not computed; `LineLinks.RunKeeps` covers all of them.
- `LineOutcomes.StopOutcome`: states the outcome for one record that is not cut before its start; a stop before the start is a cancel, which `LineOutcomes.CancelOutcome` states.
- `Suspension.SuspensionConserves`: states one record and a suspension that does not end before it starts; a reversed one is not a suspension.
- The termination notice date, the first end of an auto-renewed line, and the onchange methods of forms.
- Prices, quantities, markers in names, messages, access rights and wizards.
- `RecurringInvoices.PrepareRecurringInvoices`: states the outcome on tables of timely lines, and for others only that an error undoes everything; sections and notes that are taken are invoiced like lines, as in the code.
- `LineHistory.HistoryTiles`: leaves out, besides the steps that put a date that was not computed, an edit that moves the start of a line already invoiced, because it moves what the billed days are measured from.

Selecting and searching:

- Other search conditions than those of the state domains; how the ORM turns a domain into SQL.
- `StateSearch.StateDomainMeaning`: states ordinary lines only (not a section or note, not reversed, a notice date exactly when there is an end), because other lines are not kept by the code.

Reports:

- Amounts in a foreign currency, rounding, and the partner detail of the trial balance.
- The other way of computing groups, `_get_computed_groups_data`, and the XLSX and HTML output.
- `GeneralLedger.CentralRunsToFinal`: holds for every order of the centralised lines, so the order the code lists them in and their dates are not stated; months of different years share a line, as in the code.
- `GeneralLedger.ShowAccount`: takes the order of the partners as a parameter; in the code it is that of a dictionary.
- `TrialBalance.GetData`: takes the result of each grouping query as a parameter that is required to be the grouping.
- The historical residuals of the aged partner balance and of open items.

Connectors:

- `BackendClasses.GetClassesNearest`: takes a backend and its parents as a finite chain of registries; the lookup of backends by service and version is not modelled.
- Sessions, installed modules, subclassing and `match` are one query that says which entries are active.
- Reading the sheet, the header row and its error column, the arguments of a job, and writing results back.
- Building component classes and their bases; what is known of a class after it is built is a parameter.
- The replacement policy of the cache: any entries may be dropped at any time, including the one just found.
- Looking up a component by name, and the list of many components.

Jobs:

- `JobRetry.RetryCountsAttempts`: takes an attempt as one event, so a user who requeues a job while it is performed acts before or after it.
- Channels, priorities, identity keys, users and companies, and what the runner does to choose a job.
- The part of a second in stored dates.
- `JobRetry.RunJob`: a conflict while the outcome is stored after a postponement, a failure or a job with nothing to do leaves the job as started; in runs that is the event of a runner that dies.
- The runner marks any job as enqueued that its channels hand out; the model enqueues pending jobs only.

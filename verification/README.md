# Ledger compiler, volume registry and presentation order

Three parts of the repository, modelled in Dafny and proved.

**The scenario ledger compiler.** A scenario declares flows with a recognition clock and a
settlement clock. `emit` lowers them to dated double-entry transactions and sorts them by date;
`monthly_summary` folds the stream into month rows; `create_business_events` lowers it once more,
into typed events whose payments discharge invoices. `Calendar` holds the date arithmetic,
`Drivers` the declared flows, `Ledger` the stable sort and the balance measures, `Engine` the
lowering itself. Each loop of the engine is a method proved to build a stream given by a function.
`Journal` says of the scenario's own fields which transactions that stream holds, when, with whom and
between which accounts; `Emission`, `Receivables`, `Deferred`, `Schedules` and `Summary` prove what it
means in account balances. `Events`, `Records` and `OpenInvoices` do the same for the second lowering.
`Basics` and `Sums` hold what the modules share.

The central tool is that sorting a concatenation interleaves the sorted parts
(`Ledger.SortInterleaves`), so that "never negative in any prefix" can be proved flow by flow and
carried to the merged stream (`Ledger.MergeNeverNegative`).

**The volume registry.** `Registry` defines the single-row writes, conditional and unconditional.
`VolumeManager` is the manager's code over them, loop by loop, as a class whose methods update the
two tables and EC2's attachments. `Protocol` interleaves the same accesses of any number of launches,
creations, recoveries, sweeps, detaches, expansions, status syncs, cleanups, and of the allocator's and
the health check's writes to the same rows; what one of them reads and the write it later makes on that
are separate steps, and a detach ends in EC2 some time after EC2 accepts it. `Detach` is one that nothing
interrupts (`Protocol.DetachInOnePiece`), and `Procedures` says what each procedure by itself leaves
behind. Two things are assumed of EC2: a volume has at most one attachment, and EC2 lets it go only when
asked to or when its instance ends. `Growth` is the monitor's size arithmetic and a bound over whole runs.

The runs are held to rules that the code does not enforce. The next section says what happens without
them, and all are exact - what breaks one has a bad continuation - but for two: that detaches go to rows
in use, and that no database is listed twice.

- Guarded runs: a detach goes to a row that is attached or expanding; EC2 lets a volume go before its row
  is written, and an expansion is written, only when that spares the launches that are attaching the
  volume or are yet to; and the late writes (a recovery's put, a new volume's registration, the status
  sync's update, an interrupted detach's, a release of a dead instance's volumes) leave a volume that a
  launch has marked attached as it is. `Protocol` proves agreement with EC2 on that alone.
- `Exclusivity`: besides, late writes, sweeps and expansions spare the row a launch short of its own write
  works on; claims that are used within the stale limit are enough for sweeps. Then no two launches hold
  one volume, and no detach of a row in use meets a launch that is yet to attach it.
- `Routing`: besides, no database is listed twice, detaches wait for routing and edits of a list that is
  routed keep to what is routed there. Then routes are right.
- `DatabaseLists` needs none of these, only that late writes contain what the row lists. Then a database
  stays listed until it is removed.

**The presentation order.** `Presentation` is the recursive walk with its shared seen-set and
counter, over an arbitrary arc graph, cycles and shared children included.

## Where the code differs from what it says

- A negative collection lag dates a payment before its invoice, and the receivables balance then
  dips below zero: it stays non-negative if and only if the lag is not negative or the payment
  falls past the window (`Receivables.UnitNeverNegativeIff`).
- The billing periods cover the window if and only if the phase lies inside it or the cadence is at
  least as long (`Deferred.BillingPartition`); otherwise the last months are never recognised.
- The deferred balance is not always non-negative: with a negative rate it is so if and only if the
  cash of every billing covers the positive rates it goes on to recognise
  (`Deferred.StreamNeverNegativeIff`, with `Deferred.NegativeRateOverdraws` a witness).
- "Exactly one cohort bills each month" holds from offset 1 on; at offset 0 all are primed
  (`Deferred.OneCohortBills`).
- The month-end table is not leap-aware, so 29 February is in no reporting window
  (`Calendar.WindowsTouchIff`).
- A prepaid bought before the window is amortized without its purchase being booked
  (`Schedules.PrepaidWithinCostIff`). Depreciation skips the purchase month, which the schedule
  voids as historical, and runs on past the end of the life (`Schedules.CapexBookedOnceIff`).
- The first-window check of the monthly close fires if and only if the stored annual period does not
  end in the close target's month (`Calendar.WindowDerivationsAgree`).
- A bill payment is split whenever cash is credited at all; the balances survive if and only if it is
  paid wholly from cash (`Events.LowerPreservesIff`, witness `Events.PartCashBillBreaks`).
- `detach_volume` writes its row without a condition. A detach between EC2's acceptance of an attach
  and the launch's own write lets that launch mark the row attached while EC2 has the volume free, and
  this is the only time when a detach is unsafe (`Protocol.DetachIsSafeIff`). Going only to rows that
  are attached or expanding is enough to avoid it, whatever else runs
  (`Protocol.GuardedDetachFindsNoneMidAttach`), provided expansions spare launches that are attaching.
  The monitor does not see to that: it finds a volume by its attachment in EC2 and then writes its row.
  An expansion is safe if and only if the row is in use already or no launch is attaching the volume or
  can yet (`Protocol.ExpandIsSafeIff`). One of a row on which a launch is short of its own write lets
  another share the volume (`Exclusivity.ExpandMidClaimShares`).
- A detach writes the list it read earlier, and its row some time after EC2 has let the volume go. EC2's
  part, like the end of an instance, is safe if and only if no launch is between EC2's acceptance and its
  own write nor, while the row is in use, yet to attach the volume (`Protocol.FreeingIsSafeIff`). When
  the status sync frees the row first, the detach's own write can free it once more from under the next
  claim (`Exclusivity.DetachFreesClaim`).
- A recovery reads that a volume has no row and then puts one without a condition. When two launches
  recover the same volume, or one finds a volume just created, the later put can free a row already
  claimed, which shares the volume with no claim stale (`Exclusivity.SecondPutShares`,
  `Exclusivity.PutMeetsCreation`), or already marked attached, which breaks the agreement
  (`Exclusivity.SecondPutUnmarks`).
- The monitor's status sync writes what it decided on a row scanned earlier. It can free a row claimed
  since (`Exclusivity.SyncFreesClaim`), and its write-back of the scanned list can lose a database
  registered since (`DatabaseLists.SyncLosesList`).
- Such a late write is safe for the agreement if and only if it spares the volumes marked attached
  (`Protocol.LateWriteIsSafeIff`), for exclusivity if and only if it frees no row on which a launch is
  short of its own write (`Exclusivity.StepKeepsApartIff`, for steps of any kind), and for a database if
  and only if it is in the list written (`DatabaseLists.LateWriteKeepsListedIff`).
- A launch writes the list it has read. A listed database stays listed if and only if no cleanup has
  scanned its volume already and every launch about to write the list has read it
  (`DatabaseLists.StaysListedIff`), so the allocator's append, though atomic, is lost on the same terms
  (`DatabaseLists.AppendStaysListedIff`). With nothing to hold detaches, two launches can read one empty
  list (`DatabaseLists.TwoReadersLoseList`).
- The removal of a database is conditional on the row listing it, not, as its comment has it, on the list
  read: it loses what has been added since (`DatabaseLists.RemovalLosesAppend`), and spares another
  database if and only if it has read it or writes nothing (`DatabaseLists.RemovalKeepsListedIff`).
- Routing fails when a volume is detached while its launch is still routing: another launch can
  attach it and route its list, and the first then points entries back at the old instance
  (`Routing.DetachDuringRoutingMisroutes`). Routed entries stay right if and only if a detach comes
  when no launch has a routable entry of the volume left to write (`Routing.DetachKeepsRoutesIff`,
  `Routing.FreeingKeepsRoutesIff`); `Routing.EditKeepsRoutesIff` is the condition for edits of a list.
- A failure after EC2 has accepted an attach puts the row back in the pool with the volume still
  attached, and a released row keeps its last claimer's name (`VolumeManager.Manager.Serve`).
- The sweep assumes no launch still needs a claim older than the limit. A volume can come to be shared
  after a sweep if and only if one does (`Exclusivity.StaleClaimIsSharedIff`).
- Orphan cleanup decides on what its scan returned. A volume that carries a database can be deleted
  with it if and only if a cleanup scanned it before it had any (`DatabaseLists.LosesDatabaseIff`); such
  a run exists from every start with an orphan (`DatabaseLists.CleanupDeletesWhatItScanned`).
- Outside the capped tiers the size is rounded up to ten after the EBS cap, so 16390 GB can be
  asked for where 16384 is the limit (`Growth.UncappedGrowth`).
- The monitor reckons with the filesystem's size unless the device is more than 2 GB larger. A volume
  at its ceiling is therefore asked to expand again in a round above the threshold if and only if its
  filesystem reads 1 or 2 GB less (`Growth.AttemptsIff`), without bound (`Growth.AttemptsUnbounded`);
  a 40 GB volume of the smallest tier that reads 39 is one (`Growth.FullVolumeKeepsAsking`).

## Model

| member | source | states |
|---|---|---|
| Calendar.AddMonthsComposes | examples/_scenario/engine.py:38-41 | month steps add up, for positive and negative steps, and a step and its opposite lead back to the first of the month |
| Calendar.OffsetOfMonthDate | examples/_scenario/engine.py:478-479 | `_offset_of` inverts `month_date` for every offset and every clamped day |
| Calendar.MonthWindowsOrdered | examples/_scenario/engine.py:62-85 | one window per completed month, in order, pairwise disjoint, the last ending on the annual period end |
| Calendar.WindowsAreMonths | examples/_scenario/engine.py:34-52 | each window runs from the first of a month to its last day, the 28th in February |
| Calendar.TrailingYearSpans | examples/_scenario/engine.py:55-85 | the annual window is the last twelve of them, or all when there are fewer; today falls in the month after the last of them |
| Calendar.WindowsTouchIff | examples/_scenario/engine.py:44-52 | two neighbouring windows leave no day between them if and only if the first is not the February of a leap year |
| Calendar.WindowDerivationsAgree | examples/_scenario/runner.py:2070-2085 | the "derivations disagree" error is raised if and only if the stored annual period does not end in the close target's month, so never for a scenario built from the trailing year; there is a window to compare if and only if months >= 2 |
| Calendar.KeyOrdersDates | examples/_scenario/engine.py:452 | the integer the sort uses orders dates exactly as field-by-field comparison does, and only equal dates share one |
| Calendar.AddDaysOrdinal | examples/_scenario/engine.py:236 | adding n days on the real calendar moves the Gregorian ordinal by exactly n, either way |
| Calendar.OrdinalOrders | examples/_scenario/engine.py:236 | ordinals grow strictly with the date, so the date n days on is unique |
| Ledger.SortIsStable | examples/_scenario/engine.py:452 | the stream comes out ordered by date with the same transactions, and those of one day in their old order |
| Ledger.SortInterleaves | examples/_scenario/engine.py:437-453 | sorting two lists together merges the two sorted lists, keeping each in order |
| Ledger.MergeNeverNegative | examples/_scenario/engine.py:437-453 | if two flows alone never take a balance below zero, neither does the sorted merge of both, in any prefix |
| Engine.EmitAccrualRevenue | examples/_scenario/engine.py:208-247 | builds exactly the invoices and in-window payments of one month, customer by customer |
| Engine.ComputeBillingOffsets | examples/_scenario/engine.py:250-259 | returns 0 and then every cadence step below the window's end, starting at the phase if positive |
| Engine.EmitBillingPeriod | examples/_scenario/engine.py:276-308 | builds exactly the billing of one period and its monthly recognitions, nothing when the rates sum to nothing |
| Engine.EmitPrepaidRevenue | examples/_scenario/engine.py:262-309 | builds exactly the billing periods in order, each ending where the next begins |
| Engine.EmitRevenue | examples/_scenario/engine.py:312-322 | builds the stream's accrual or prepaid form, by its collection policy |
| Engine.EmitInventory | examples/_scenario/engine.py:325-352 | builds exactly the month-by-month purchases and consumptions, skipping non-positive ones |
| Engine.EmitExpense | examples/_scenario/engine.py:355-375 | builds exactly the month-by-month expenses, as a bill when a vendor is named |
| Engine.EmitCapex | examples/_scenario/engine.py:378-405 | builds exactly the purchase, when in the window and not in the opening, and the depreciation up to the schedule-owned months |
| Engine.EmitPrepaid | examples/_scenario/engine.py:408-434 | builds exactly the purchase and the amortization of the months the stream owns |
| Engine.Emit | examples/_scenario/engine.py:437-453 | returns the date-sorted merge of the opening and of every flow |
| Journal.EmittedJournal | examples/_scenario/engine.py:437-453 | the stream holds the opening and exactly the transactions that some flow posts, said of each flow's own fields: date, kind, agent, both accounts and amount |
| Journal.EmittedConserves | examples/_scenario/engine.py:437-453 | whatever is measured, the stream amounts to the opening and what each flow measures by itself |
| Journal.EmittedInOrder | examples/_scenario/engine.py:437-453 | no transaction comes before an earlier one, and those of one day come in the order opening, revenue, inventory, expenses, capex, prepaid items |
| Journal.AccrualJournal | examples/_scenario/engine.py:208-247 | per month and customer, the customer's share is invoiced on the invoice day, and paid the policy's days later when that is in the window: receivable against revenue, cash against receivable |
| Journal.PrepaidJournal | examples/_scenario/engine.py:250-309 | cash against deferred on the 1st of each billed month for the rates up to the next billing, the window's last for those past it, and deferred against revenue on the 28th of each covered month of the window |
| Journal.InventoryJournal | examples/_scenario/engine.py:325-352 | purchases from the vendor against cash and consumption against inventory, on their days of each month with a positive amount |
| Journal.ExpenseJournal | examples/_scenario/engine.py:355-375 | the month's positive amount against cash on the given day, as a bill if a vendor is named |
| Journal.CapexJournal | examples/_scenario/engine.py:378-405 | the cost against cash on the 5th of the purchase month, unless in the opening, and the life's part against accumulated depreciation on the last day of each later month up to the close target |
| Journal.PrepaidItemJournal | examples/_scenario/engine.py:408-434 | the cost against cash on the 3rd of the purchase month, and the life's part from the asset on the 27th of each month of the life up to the close target |
| Engine.Validate | examples/_scenario/engine.py:461-470 | true if and only if every transaction's debits equal its credits |
| Emission.PaymentInWindow | examples/_scenario/engine.py:236-237 | a payment that is not past the window end and has a forward lag is dated inside the window |
| Emission.EmittedShape | examples/_scenario/engine.py:437-453 | every emitted transaction not authored in the opening is a balanced pair of legs; with forward lags and a window of at least a month it is dated inside the window |
| Emission.EmittedBalances | examples/_scenario/engine.py:437-470 | `validate` accepts the emitted stream if and only if it accepts the opening |
| Receivables.UnitNeverNegativeIff | examples/_scenario/engine.py:208-247 | an invoice and its payment keep receivables non-negative if and only if the lag is not negative or the payment falls past the window |
| Receivables.ReceivablesNeverNegative | examples/_scenario/engine.py:437-453 | with forward lags and receivables accounts used by accrual streams alone, AR is non-negative in every prefix of the emitted stream |
| Receivables.InvoicesComeFirst | examples/_scenario/engine.py:437-453 | per customer and amount, every prefix has at least as many invoices as payments |
| Receivables.ReceivablesAtEnd | examples/_scenario/engine.py:208-247 | the final AR balance is exactly the sum of the invoices whose payment falls past the window, whatever the lags |
| Receivables.SplitConserves | examples/_scenario/engine.py:199-205 | the n parts sum to the total, all but the first are equal, the first exceeds them by less than n cents, and a positive total has no negative part |
| Receivables.AccrualMonthRecognises | examples/_scenario/engine.py:208-247 | a month's invoices recognise exactly the curve, or nothing when it is not positive |
| Deferred.BillingPartition | examples/_scenario/engine.py:250-259 | the periods start at 0 and follow each other without gap or overlap; they reach the window's end if and only if the phase is inside it or the cadence at least as long |
| Deferred.OnePeriodPerMonth | examples/_scenario/engine.py:275-279 | every billed month lies in exactly one period |
| Deferred.DeferredIsUndelivered | examples/_scenario/engine.py:262-309 | after each month the deferred balance is the sum of the rates of the current billing's undelivered months |
| Deferred.RevenueFollowsCurve | examples/_scenario/engine.py:262-309 | revenue through each month totals the curve over the billed months so far |
| Deferred.DeferredAtEnd | examples/_scenario/engine.py:262-309 | at the end revenue totals the curve and the deferred balance is the last rate for each month billed past the window |
| Deferred.PeriodNeverNegativeIff | examples/_scenario/engine.py:276-308 | one billing keeps the deferred balance non-negative in every prefix if and only if it is skipped or its cash is at least the positive rates of its months in the window |
| Deferred.StreamNeverNegativeIff | examples/_scenario/engine.py:262-309 | a prepaid stream, whatever the signs of its rates, keeps its deferred balance non-negative in every prefix if and only if each of its billings does |
| Deferred.NonNegativeRatesCover | examples/_scenario/engine.py:262-309 | rates that are never negative meet that condition |
| Deferred.NegativeRateOverdraws | examples/_scenario/engine.py:262-309 | a witness: rates 5 and -3 billed together end at -3 |
| Deferred.DeferredNeverNegative | examples/_scenario/engine.py:437-453 | deferred revenue is non-negative in every prefix of the emitted stream, however many streams share the account, when each billing's cash covers what it recognises |
| Deferred.DeferredNeverNegativeIff | examples/_scenario/engine.py:437-453 | for a stream with a deferred account of its own, the account is non-negative in every prefix of the whole emitted stream if and only if each billing is covered |
| Deferred.OneCohortBills | examples/_scenario/engine.py:160-191 | cohort k bills at an offset if and only if the offset is 0 or is k modulo the number of cohorts |
| Deferred.CohortsRecogniseCurve | examples/_scenario/engine.py:155-191 | each month the n cohorts together recognise at most the curve and less than n cents below it |
| Schedules.InventoryBooked | examples/_scenario/engine.py:325-352 | each month inventory moves by purchases less consumption, cost of goods sold by consumption and cash by purchases |
| Schedules.ExpenseBooked | examples/_scenario/engine.py:359-375 | each month the expense account takes the month's positive amount and cash gives it |
| Schedules.PrepaidWithinCostIff | examples/_scenario/engine.py:408-434 | the prepaid's balance stays between 0 and its cost in every prefix if and only if it was bought at offset 0 or later, or the stream amortizes none of it, or a month's share is zero |
| Schedules.ScheduleWindowMonths | examples/_scenario/runner.py:1868-1872 | the window runs from the first day of the start month to the last day of the last month of the life, and covers exactly the life |
| Schedules.PrepaidBookedOnce | examples/_scenario/runner.py:1868-1901 | each month of a prepaid's life is booked by exactly one of the stream and the pending part of its schedule, and no other month by either |
| Schedules.LifeLeavesCents | examples/_scenario/engine.py:408-434 | spread over the life, less than one cent a month is left over, and nothing is overspent |
| Schedules.CapexBookedOnceIff | examples/_scenario/engine.py:378-405 | stream and pending schedule together book a month as the life demands if and only if it is schedule-owned, or inside the life and not the purchase month, or the share is zero; items bought before the window included |
| Schedules.CapexBooked | examples/_scenario/engine.py:378-405 | the asset takes up the cost in the purchase month, when that is in the window and not in the opening, and nothing in any other; cash gives exactly that; accumulated depreciation is credited what the expense is debited, a life's part of the cost in each later month up to the close target |
| Schedules.PrepaidBooked | examples/_scenario/engine.py:408-434 | cash gives up the cost in the purchase month, when in the window; each month of the life up to the close target moves a life's part of it from the asset to the expense |
| Summary.MonthlySummary | examples/_scenario/engine.py:482-537 | row k reports P&L accounts over month k alone and balance sheet accounts over months 0 to k, each on its normal side, as sums over the emitted stream; net income takes off each account of cost of goods sold or expense once |
| Summary.RowMeans | examples/_scenario/engine.py:490-523 | the groups of a row written out on the chart's traits and subclasses, and net income as revenue less the accounts that are cost of goods sold or expense, each once |
| Summary.GroupTotal | examples/_scenario/engine.py:516-517 | summing a group's accounts from a table gives the group's balance over the stream, in whatever order they are taken |
| Summary.BooksArticulate | examples/_scenario/engine.py:482-537 | over balanced transactions debit-normal and credit-normal balances total the same at the end of every month |
| Summary.RowsAccumulate | examples/_scenario/engine.py:482-537 | a balance at month k is the balance at an earlier month plus the activity since |
| Summary.LastRowMissesNothing | examples/_scenario/engine.py:482-537 | with forward lags and an opening inside the window, the last row accounts for every emitted transaction |
| Summary.EmittedBooksArticulate | examples/_scenario/engine.py:482-537 | the emitted books of a balanced opening articulate every month |
| Events.BuildLineItems | examples/_scenario/runner.py:403-418 | yields the resolved lines in order if and only if every code resolves |
| Events.CreateBusinessEvents | examples/_scenario/runner.py:434-632 | posts exactly the events of lowering the transactions one by one, with the per-kind and line tallies; at the first event the ledger refuses it is aborted, with exactly the events before it posted |
| Events.PostTransaction | examples/_scenario/runner.py:488-608 | one transaction leaves the log, the stacks and the skip count as its lowering says, or stops at its first refused event |
| Records.LowerRecords | examples/_scenario/runner.py:480-610 | an invoice is recorded as issued, a payment as received, a known vendor's bill paid from cash and settling no liability as received and paid, anything else as a journal entry, each with the transaction's amount, agent id and lines; what lacks an element or a second line is counted and leaves no event |
| Records.KindsCounted | examples/_scenario/runner.py:456-632 | a load records as many events of each kind as it is given transactions of the kind, and leaves out as many as cannot be recorded |
| Records.PaymentsDischargeLatest | examples/_scenario/runner.py:508-528 | a payment discharges the latest invoice of its customer and amount still open, and none only when none is |
| Events.SplitPreservesIff | examples/_scenario/runner.py:546-594 | a bill received and a bill paid in place of a bill payment keep every balance if and only if its cash credits are its whole amount, or cash and payables are one element, and they carry no debit |
| Events.LowerPreservesIff | examples/_scenario/runner.py:488-608 | lowering one transaction gives every account what the transaction gives it if and only if the transaction, where it is split, is paid from cash |
| Events.PartCashBillBreaks | examples/_scenario/runner.py:421-431 | the witness: an expense of 100 credited 60 to cash and 40 elsewhere is split and takes 100 from cash |
| Events.EventsPreserveBalances | examples/_scenario/runner.py:488-608 | posting the events gives every account the balance the transactions give it, and none is skipped |
| Events.EventsBalance | examples/_scenario/runner.py:546-594 | every posted event balances by itself, both halves of a split bill included |
| Events.DischargeChain | examples/_scenario/runner.py:466-544 | every discharge points at an earlier matching obligation, none is discharged twice, and the stacks hold only open invoices under their own key |
| OpenInvoices.HeightIsOpenCount | examples/_scenario/runner.py:523-544 | under a key whose payments never run ahead the stack is as high as invoices less payments so far |
| OpenInvoices.PaymentFindsInvoice | examples/_scenario/runner.py:528-544 | such a payment finds an invoice to discharge |
| OpenInvoices.IndexAgrees | examples/_scenario/runner.py:466-544 | over any matched stream, amount times stack height over all keys equals the receivables balance after every transaction |
| OpenInvoices.IndexAgreesWithLedger | examples/_scenario/runner.py:466-544 | the same for every emitted stream with forward lags whose invoiced customers are not also prepaid ones |
| OpenInvoices.AccrualPaymentsDischarge | examples/_scenario/runner.py:528-544 | in such a stream every payment of an accrual customer discharges an invoice |
| OpenInvoices.TwoLeggedPaidFromCash | examples/_scenario/runner.py:421-431 | every bill payment of the shape the engine emits is paid wholly from cash, so its split is safe |
| OpenInvoices.EmittedEventsPreserve | examples/_scenario/runner.py:488-608 | end to end, the events of an emitted stream give every account the balance its transactions give it |
| Presentation.BuildTree | examples/_common/databook.py:168-184 | the children map lists each source's presentation arcs in arc order, with the sources and targets seen |
| Presentation.SortChildrenStable | examples/_common/databook.py:183-184 | children of equal order keep their document order, each as often as it occurs |
| Presentation.EdgesAreArcs | examples/_common/databook.py:168-184 | the walk's edges are exactly the presentation arcs |
| Presentation.Walker.Walk | examples/_common/databook.py:190-198 | a walk terminates on any graph, numbers only nodes below its node after all earlier ones, its node last, and keeps the traversal invariant |
| Presentation.Walker.WalkKids | examples/_common/databook.py:195-196 | after the loop every child has been seen, in a forest numbered in arc order |
| Presentation.PresentationOrder | examples/_common/databook.py:158-205 | numbers exactly the nodes reachable from the roots, 0 to n-1 without gap or repeat; a child comes before its parent unless both are on a cycle; depths are path lengths; in a forest the targets of one source's arcs come by the arcs' own orders, a missing one being 0, and of equal ones as listed; roots come by the least order among their own arcs |
| Presentation.SortedBefore | examples/_common/databook.py:179-184 | among the sorted children of a node the target of the arc of smaller order comes first, of equal orders that of the arc listed first |
| Presentation.AcyclicPresentationOrder | examples/_common/databook.py:158-205 | on any acyclic graph every child comes strictly before each of its parents and no node is left out |
| Presentation.AcyclicLeavesNoneOut | examples/_common/databook.py:201-204 | on an acyclic graph the nodes below some root are exactly all nodes of its arcs |
| Growth.CappedGrowth | bin/lambda/graph_volume_monitor.py:1113-1154 | in a capped tier the size never shrinks, never passes the larger of itself and the ceiling, and grows if and only if below the ceiling, by 20 GB or to the ceiling |
| Growth.NewSizeMonotone | bin/lambda/graph_volume_monitor.py:1113-1154 | a larger volume is never given a smaller size |
| Growth.TruncatesTowardZero | bin/lambda/graph_volume_monitor.py:1122-1126 | `int()` drops the fraction on either side of zero |
| Growth.UsageBackUnderTarget | bin/lambda/graph_volume_monitor.py:1122-1133 | unless a cap clips it, the new size brings usage under 60% to within one gigabyte |
| Growth.UncappedGrowth | bin/lambda/graph_volume_monitor.py:1135-1139 | in other tiers the bound is 16390 GB, passing the EBS limit if and only if more than 16380 GB is wanted |
| Growth.NewSizeIsLeast | bin/lambda/graph_volume_monitor.py:1113-1154 | in other tiers the size is the least multiple of ten that gives 20 GB more, half as much again and usage under 60%, or the EBS limit; in a capped one that or 40, 100 or 200 GB, and no change from there on |
| Growth.AttemptsIff | bin/lambda/graph_volume_monitor.py:350-438 | a capped volume is asked to expand if and only if it is used past the threshold and the size reckoned with is below the ceiling; at the ceiling, if and only if the filesystem reads 1 or 2 GB less than the device |
| Growth.RunGoesThrough | bin/lambda/graph_volume_monitor.py:350-438 | a run goes from size to size by single looks: the device's size counts when the filesystem lags it by more than 2 GB, an expansion is asked for past the threshold when a larger size comes out, and the device grows when that is larger than it, too; the run's counts are those of the looks |
| Growth.ExpansionsBounded | bin/lambda/graph_volume_monitor.py:350-438 | over any run of readings, each with its own threshold and filesystem size, a capped volume stays between its start and its ceiling and is enlarged at most once per started 20 GB between them |
| Growth.AttemptsUnbounded | bin/lambda/graph_volume_monitor.py:350-438 | the expansions asked for have no bound: at the ceiling every round past the threshold whose filesystem reads 1 or 2 GB less asks again and changes nothing |
| Growth.FullVolumeKeepsAsking | bin/lambda/graph_volume_monitor.py:350-438 | a witness: 40 GB in the smallest tier, a filesystem of 39 |
| VolumeManager.OrderedVolumeCandidates | bin/lambda/graph_volume_manager.py:655-678 | gives every scanned volume a place of its own, with its databases or, if empty, those asked for: one with a wanted database before one without, one with data before an empty one, otherwise as scanned |
| VolumeManager.CandidatesInPreferenceOrder | bin/lambda/graph_volume_manager.py:655-678 | every scanned volume is returned exactly as often as it was scanned, and none behind one of a worse rank |
| VolumeManager.Manager.ClaimVolume | bin/lambda/graph_volume_manager.py:513-563 | wins if and only if the row was available, and then alone changes that row |
| VolumeManager.Manager.ReleaseClaim | bin/lambda/graph_volume_manager.py:566-590 | frees the row if and only if this instance still holds its claim, otherwise writes nothing |
| VolumeManager.Manager.ClaimFirst | bin/lambda/graph_volume_manager.py:272-281 | claims the first candidate still free and nothing else, and gives up only when none is free |
| VolumeManager.Manager.Serve | bin/lambda/graph_volume_manager.py:263-306 | a served launch changes one row, has the volume in EC2 and its reachable databases routed to it; a failed one leaves every row free as it was but for the claimer's name; with none free nothing is touched |
| VolumeManager.Manager.ReclaimStaleClaims | bin/lambda/graph_volume_manager.py:593-652 | the paginated loop performs exactly the page-by-page sweep under any interference between its accesses, and returns its count |
| VolumeManager.SweepSparesYoungClaims | bin/lambda/graph_volume_manager.py:593-652 | whatever the table was before, a claim no older than the cutoff survives the sweep from the access before which it is made: one there at the start, one made between pages, one re-made between the scan and the write |
| VolumeManager.SweepAlone | bin/lambda/graph_volume_manager.py:593-652 | alone, the sweep frees exactly the stale claims of its zone and tier over all pages, changes nothing else, and returns their number |
| VolumeManager.SweepFreesOldClaims | bin/lambda/graph_volume_manager.py:593-652 | in the rows' fields: exactly the rows of the zone and tier that have been claiming for more than 900 seconds become available without a claim time, and are counted |
| VolumeManager.Manager.UpdateGraphRegistry | bin/lambda/graph_volume_manager.py:424-510 | repoints exactly the reachable entries of the list that exist and do not name a subgraph, `kg` with an underscore; updated, skipped and failed add up to its length |
| VolumeManager.CountsArePlaces | bin/lambda/graph_volume_manager.py:450-510 | updated counts the places of the list whose entry exists, is no subgraph's and is reachable; failed those that are no subgraph's and unreachable |
| VolumeManager.Manager.AttachAndRegister | bin/lambda/graph_volume_manager.py:750-881 | registers if and only if the instance runs, EC2 has the volume free and settles in time; keeps a non-empty database list over the caller's; otherwise writes no row |
| VolumeManager.Manager.DetachVolume | bin/lambda/graph_volume_manager.py:983-1026 | frees the row - available, unattached, detached now, its databases kept - and no other, if and only if EC2 accepted or the detach is forced |
| VolumeManager.Manager.CleanupOrphanedVolumes | bin/lambda/graph_volume_manager.py:1225-1295 | deletes from EC2 exactly the page's volumes that are available without databases, detached for more than 24 hours, attached to none and whose snapshot succeeds, and from the registry those of them whose row can be deleted |
| VolumeManager.Manager.SyncRegistry | bin/lambda/graph_volume_manager.py:1440-1643 | removes, adds and updates exactly the rows out of step with EC2 whose correction does not fail, and writes no other |
| VolumeManager.SyncSettles | bin/lambda/graph_volume_manager.py:1482-1598 | after a sync exactly the volumes whose correction failed are still out of step, and surviving in-flight rows are as they were; with no failure the row set is EC2's and every settled status right |
| VolumeManager.SyncCorrects | bin/lambda/graph_volume_manager.py:1482-1598 | in the fields of rows and volumes: after a sync a settled row is attached if and only if EC2 has the volume attached and available otherwise, an added or updated row names that instance or none, an added one has the volume's zone, tier and databases, an updated one keeps the rest, and rows claiming, expanding, attaching or detaching are left alone |
| VolumeManager.SyncIsIdempotent | bin/lambda/graph_volume_manager.py:1482-1598 | a second sync corrects only what failed before, so after a clean one it corrects nothing and changes nothing |
| VolumeManager.InStepIff | bin/lambda/graph_volume_manager.py:1482-1531 | a table is in step with EC2 if and only if no volume is missing, surplus or mismatched |
| Protocol.RunKeepsAgreement | bin/lambda/graph_volume_manager.py:797-849 | in every state of every guarded run each volume a launch marked attached agrees with EC2, even after a sweep has taken a claim from a live launch, until EC2 is told to let it go or its instance ends |
| Protocol.GuardedDetachFindsNoneMidAttach | bin/lambda/graph_volume_manager.py:983-1026 | in such a state a detach of an attached or expanding row never meets a launch between EC2's acceptance and its own write |
| Protocol.AttachedUntilDetached | bin/lambda/graph_volume_manager.py:566-590 | in such a run what a launch marked attached stays attached to that instance, in the row and in EC2, until it is detached or the instance ends, whatever sweeps and losing releases do |
| Protocol.DetachIsSafeIff | bin/lambda/graph_volume_manager.py:983-1026 | after a detach, whatever its row says, every continuation keeps attached volumes in agreement with EC2 if and only if no launch is between EC2's acceptance and its own write |
| Protocol.DetachMidAttachBreaks | bin/lambda/graph_volume_manager.py:797-849 | the continuation that breaks it: the launch marks the row attached to itself while EC2 has the volume free |
| Protocol.DetachInOnePiece | bin/lambda/graph_volume_manager.py:983-1026 | a detach's read, EC2's acceptance and completion, and its row write in a row are one uninterrupted detach |
| Procedures.LaunchInOnePiece | bin/lambda/graph_volume_manager.py:263-291 | a launch by itself leaves the row attached to its instance with the list it had or the one asked for, and EC2 too |
| Procedures.FailureInOnePiece | bin/lambda/graph_volume_manager.py:566-590 | one that fails before its write leaves the row available and unclaimed, its list kept |
| Procedures.LosingRelease | bin/lambda/graph_volume_manager.py:566-590 | one that created its volume, or whose claim another instance has taken over, gives nothing back |
| Procedures.CreationInOnePiece | bin/lambda/graph_volume_manager.py:884-948 | a new volume is in EC2 before its row, which is attaching, to the instance, with the databases asked for |
| Procedures.RecoveryInOnePiece | bin/lambda/graph_volume_manager.py:334-387 | a recovery of a free volume without a row makes it available and unattached with its tags' zone, tier and database |
| Procedures.RecoverySparesRows | bin/lambda/graph_volume_manager.py:361-362 | and changes nothing when there is a row |
| Procedures.SyncInOnePiece | bin/lambda/graph_volume_monitor.py:1585-1679 | a round of the status sync drops the row of a volume EC2 does not have, frees an attached row that EC2 has attached to none with its list kept, renames the instance of one whose own is gone, and changes nothing else |
| Procedures.ReleaseInOnePiece | robosystems/operations/graph/infrastructure.py:353-386 | a release of a dead instance's volume makes its row available and unattached, detached now, with the list it had |
| Procedures.CleanupInOnePiece | bin/lambda/graph_volume_manager.py:1225-1295 | a cleanup takes an orphan from EC2 first and then its row from the registry, and changes nothing else |
| Procedures.ExpansionInOnePiece | bin/lambda/graph_volume_monitor.py:780-873 | an expansion marks the row expanding and its end brings it back to attached, all else kept; a row not so marked is left alone |
| Procedures.AppendInOnePiece | robosystems/middleware/graph/allocation_manager.py:1304-1319 | a database is added at the end of the list, once |
| Procedures.RemovalInOnePiece | robosystems/middleware/graph/allocation_manager.py:1388-1408 | a removal leaves exactly the other databases in the list |
| Procedures.StepsGoBy | bin/lambda/graph_volume_monitor.py:1583-1640 | what each step goes by: only rows not available are synced, only attached volumes detached, only volumes attached to none recovered and only without a row, only listed databases removed, and from the row they were read from |
| Procedures.TimeAndDeath | bin/lambda/graph_volume_manager.py:593-600 | time can pass and a live launch can die at any moment, with nothing else changed |
| Protocol.FreeingIsSafeIff | bin/lambda/graph_volume_manager.py:1002-1024 | once EC2 accepts a detach whose row is still to be written, or the instance ends, every continuation keeps attached volumes in agreement with EC2 if and only if no launch is between EC2's acceptance and its own write and, while the row is in use, none is yet to attach the volume |
| Protocol.ExpandIsSafeIff | bin/lambda/graph_volume_monitor.py:864-873 | after an expansion every continuation keeps attached volumes in agreement with EC2 if and only if the row was in use already, or no launch is between EC2's acceptance and its own write and one that is yet to attach the volume finds it attached |
| Protocol.LateWriteIsSafeIff | bin/lambda/graph_volume_monitor.py:1600-1664 | after a write decided on earlier reads - a recovery's put, a registration, a write of the status sync, of an interrupted detach or of the health check - every continuation keeps attached volumes in agreement with EC2 if and only if it spares the volumes marked attached |
| DatabaseLists.DatabaseSurvives | bin/lambda/graph_volume_manager.py:828-849 | in every run whose late writes contain what the row lists, whatever else it does, a database that the launches about to write its list have read, on a volume no cleanup has scanned, stays so until it is removed |
| DatabaseLists.StaysListedIff | bin/lambda/graph_volume_manager.py:828-849 | a listed database stays listed, on a volume that exists, in every such continuation if and only if no cleanup has scanned the volume already and every launch about to write its list has read it |
| DatabaseLists.LateWriteKeepsListedIff | bin/lambda/graph_volume_monitor.py:1600-1623 | after a late write a kept database stays listed in every such continuation if and only if it is in the list written |
| DatabaseLists.AppendStaysListedIff | robosystems/middleware/graph/allocation_manager.py:1304-1319 | a database the allocator adds stays listed in every such continuation if and only if no cleanup has scanned the volume already and every launch about to write its list has read it |
| DatabaseLists.RemovalKeepsListedIff | robosystems/middleware/graph/allocation_manager.py:1388-1408 | after the removal of another database a kept one stays listed if and only if the row no longer listed that other one or the list read for the removal has this one |
| DatabaseLists.RemovalLosesAppend | robosystems/middleware/graph/allocation_manager.py:1388-1408 | the witness: a database added between the removal's read and its write is dropped with the one removed |
| DatabaseLists.StepKeepsReadersCurrentIff | bin/lambda/graph_volume_manager.py:828-849 | one step keeps every launch about to write a list current with its row if and only if it adds nothing that such a launch has not read |
| DatabaseLists.ReadersStayCurrent | bin/lambda/graph_volume_manager.py:828-849 | so in every state of every guarded run of such steps they are current |
| DatabaseLists.ReachedStaysListedIff | bin/lambda/graph_volume_manager.py:828-849 | and a database listed in such a state stays listed in every continuation whose late writes contain what the row lists if and only if no cleanup has scanned its volume already |
| DatabaseLists.TwoReadersLoseList | bin/lambda/graph_volume_manager.py:828-849 | a run, with an unguarded detach, in which two launches have read the same empty list and one is about to drop what the other registered |
| DatabaseLists.SyncLosesList | bin/lambda/graph_volume_monitor.py:1574-1623 | the witness: a row scanned as attached and empty, detached, attached with a database, detached again and found free is then freed with the empty list |
| DatabaseLists.LosesDatabaseIff | bin/lambda/graph_volume_manager.py:1230-1276 | a volume can be deleted with a database that every launch about to write its list has read if and only if a cleanup has scanned it already |
| DatabaseLists.CleanupDeletesWhatItScanned | bin/lambda/graph_volume_manager.py:1230-1276 | from any start with an orphan there is a run in which it gains a database after the scan and can be deleted with it |
| Exclusivity.RunKeepsExclusive | bin/lambda/graph_volume_manager.py:513-563 | while late writes, sweeps and expansions spare the launches, every launch short of its write still owns the row it works on - not free, not in use, and its own claim if claimed - no two hold one volume, and a detach of a row in use meets no launch short of its write |
| Exclusivity.LaunchesHoldApart | bin/lambda/graph_volume_manager.py:263-291 | so in every state of every such run the map from launches to the volumes they hold is injective, launches still routing included |
| Exclusivity.StepKeepsApartIff | bin/lambda/graph_volume_manager.py:263-291 | after any step of a guarded run every such continuation keeps launches apart if and only if it makes no row available, and marks none as expanding, on which a launch is short of its own write |
| Exclusivity.SecondPutShares | bin/lambda/graph_volume_manager.py:334-377 | a witness: two recoveries find no row, one puts and claims it, the other's put frees it and a second launch shares the volume with no claim stale |
| Exclusivity.SecondPutUnmarks | bin/lambda/graph_volume_manager.py:334-377 | the same with the first launch already attached: the second put breaks the agreement |
| Exclusivity.PutMeetsCreation | bin/lambda/graph_volume_manager.py:896-938 | a volume created but not yet registered can be recovered, claimed by another launch and so shared |
| Exclusivity.SyncFreesClaim | bin/lambda/graph_volume_monitor.py:1574-1623 | the status sync's late write frees a row claimed since its scan, and a second launch shares the volume |
| Exclusivity.DetachFreesClaim | bin/lambda/graph_volume_manager.py:994-1024 | the witness for an interrupted detach: the status sync frees the row before it does, another launch claims it, and the detach's write frees it again |
| Exclusivity.StaleClaimIsSharedIff | bin/lambda/graph_volume_manager.py:593-652 | a volume can come to be shared after a sweep if and only if a launch short of its write works on a claim of it that is past the limit |
| Exclusivity.FreshClaimsSpareSweeps | bin/lambda/graph_volume_manager.py:593-652 | so while no claim is past the limit every sweep spares the launches |
| Exclusivity.ExpandMidClaimShares | bin/lambda/graph_volume_monitor.py:864-873 | an expansion of a row on which a launch is short of its write lets a guarded detach and a second claim share the volume |
| Protocol.ExpandBreaks | bin/lambda/graph_volume_monitor.py:864-873 | the continuation that breaks the agreement: the launch attaches, a guarded detach frees the volume, and the launch marks it attached |
| Routing.RunKeepsRoutes | bin/lambda/graph_volume_manager.py:424-510 | with disjoint lists, detaches that wait for routing and edits that spare routed lists, routed and partly routed volumes have every entry routed so far pointing at their instance, in every state of every guarded run |
| Routing.AttachedVolumesAreRouted | bin/lambda/graph_volume_manager.py:853-857 | so an entry named by a fully routed volume points at the instance EC2 has it attached to |
| Routing.DetachKeepsRoutesIff | bin/lambda/graph_volume_manager.py:424-510 | after a detach every continuation keeps routed entries right if and only if no launch still has a routable entry of the volume to write |
| Routing.FreeingKeepsRoutesIff | bin/lambda/graph_volume_manager.py:1002-1024 | the same once EC2 accepts a detach whose row is still to be written, or the instance ends |
| Routing.EditKeepsRoutesIff | robosystems/middleware/graph/allocation_manager.py:1304-1408 | after an append or a removal every continuation keeps routed entries right if and only if a list that is routed, or being routed, gains no database routed elsewhere and loses none that a launch still has to route |
| Routing.DetachDuringRoutingMisroutes | bin/lambda/graph_volume_manager.py:424-510 | the witness: a volume detached while routing ends routed, attached to one instance, with its entry pointing at the other |

## Left out

- Transaction descriptions and memo text, `print_summary`, and the authored company data.
- The curve builders `flat`, `ramp`, `step`, `window` and `add`: curves are arbitrary integer maps.
- `date`'s year bounds, and today's date, which is a parameter.
- The ledger is a yes or no to each event in turn, and an event's id is its position in the log; what it does with an event is not modelled.
- The server's reading of a schedule (closed months voided, the rest pending) is taken from the engine's own description of it.
- The chart of accounts is passed as a map from code to trait, subclass and normal side.
- Engine.Emit: inputs on which the original raises or never ends are excluded by `ValidScenario`, and no others: a day below 1 in a month that uses it, a life of zero, a billing cadence that is not positive while billings are due.
- Summary.MonthlySummary: an account missing from the chart raises in the original; `Charted` excludes it.
- Deferred.DeferredIsUndelivered: the closed forms of the balance month by month are for non-negative rates; for others `StreamNeverNegativeIff` says when the balance stays non-negative.
- AWS calls, waiters, retries, sleeps, alerts, metrics, snapshots and performance reconciliation: an attach either succeeds or fails at one of two points.
- `private_ip` in the routing entries, and a launch's lookup of its zone.
- Protocol.RunKeepsAgreement: a detach forced past EC2's refusal, while its volume is marked attached, is not in these runs; `Protocol.LateWriteIsSafeIff` says what its write does.
- Routing.RunKeepsRoutes: no routing write fails; `VolumeManager.Manager.UpdateGraphRegistry` has the failures.
- The direct attach action, `register_volume`, `restore_from_snapshot`, the tier upgrade, `cleanup_stale_volumes` (`robosystems/operations/graph/infrastructure.py:568-690`) and the full registry sync are not steps of the interleaving; the sync is one operation of its own.
- The allocator's and the health check's search for the volume to write: an append, a removal or a release may go to any row it can scan.
- VolumeManager.Manager.CleanupOrphanedVolumes: over one page, with no other writer between its scan and its deletes; `Protocol` has that race, and the stop between deleting a volume and deleting its row.
- Growth.ExpansionsBounded: a filesystem is never larger than its device, EC2's size is known, a device is resized by its next reading or, when asked for no more than it has, left alone; rounds that skip a volume still being modified are not readings.
- VolumeManager.Manager.SyncRegistry: tags parse, and EC2 stays as it was described.
- Growth.UsageBackUnderTarget: usage figures are reals, so floating-point rounding is not modelled; thresholds and limits are at their defaults.
- Presentation.PresentationOrder: an order that is not a number is not modelled.
- Secret rotation, container refresh, the demo mains, the HTTP, GraphQL, RDF rendering and printing code.

// The emitted stream read transaction by transaction: what each flow posts, when, to
// whom and between which accounts, said of the scenario's own fields.

module Journal {
  import opened Basics
  import opened Calendar
  import opened Drivers
  import opened Ledger
  import opened Engine

  // ---------------------------------------------------------------------
  // One posting
  // ---------------------------------------------------------------------

  const MONTH_ENDS := [31, 28, 31, 30, 31, 30, 31, 31, 30, 31, 30, 31]

  /** Months from the first of the window's to the date's. */
  function MonthsIn(d: Date, start: Date): int { 12 * (d.year - start.year) + d.month - start.month }

  /** In month k of the window, on the given day or on the month's last if that is sooner. */
  predicate Dated(d: Date, start: Date, k: int, day: int) {
    MonthsIn(d, start) == k && d.day == if day <= MONTH_ENDS[d.month - 1] then day else MONTH_ENDS[d.month - 1]
  }

  predicate Posts(t: Txn, kind: TxnType, agent: Option<string>, debit: string, credit: string, amount: int) {
    t.kind == kind && t.agent == agent && t.lines == [Line(debit, amount, 0), Line(credit, 0, amount)]
  }

  /** A named vendor is billed; without a name it is a journal entry. */
  predicate Spends(t: Txn, vendor: Option<string>, debit: string, credit: string, amount: int) {
    Posts(t, if vendor in {None, Some("")} then JournalEntry else BillPayment, vendor, debit, credit, amount)
  }

  lemma MonthLengths(month: int)
    requires 1 <= month <= 12
    ensures LastDayOfMonth(month) == MONTH_ENDS[month - 1]
  {
  }

  lemma DatedIs(d: Date, start: Date, k: int, day: int)
    requires day >= 1
    ensures Dated(d, start, k, day) <==> d == MonthDate(start, k, day)
  {
    OffsetOfMonthDate(start, k, day);
    MonthLengths(d.month);
    MonthLengths(MonthDate(start, k, day).month);
    if Dated(d, start, k, day) {
      SameIndexSameMonth(d, MonthDate(start, k, day));
    }
  }

  lemma FlattenHas(parts: seq<seq<Txn>>, k: nat, t: Txn)
    requires k < |parts| && t in parts[k]
    ensures t in Flatten(parts)
  {
    FlattenAround(parts, k);
  }

  // ---------------------------------------------------------------------
  // Accrual revenue
  // ---------------------------------------------------------------------

  function Rate(s: RevenueStream, k: int): int {
    if k in s.monthlyRecognized then s.monthlyRecognized[k] else 0
  }

  /** A customer's share of a month: an equal one, the remainder with the first. */
  function Share(s: RevenueStream, k: int, i: nat): int
    requires i < |s.customers|
  {
    Rate(s, k) / |s.customers| + if i == 0 then Rate(s, k) % |s.customers| else 0
  }

  predicate Invoiced(s: RevenueStream, k: int, i: nat) {
    i < |s.customers| && Rate(s, k) > 0 && Share(s, k, i) > 0
  }

  predicate InvoiceOf(t: Txn, s: RevenueStream, start: Date, k: int, i: nat) {
    && Invoiced(s, k, i) && Dated(t.date, start, k, s.invoiceDay)
    && Posts(t, Invoice, Some(s.customers[i]), s.arAccount, s.revenueAccount, Share(s, k, i))
  }

  /** An invoice of month k falls due after so many days: none, those set for the month, or
      the default. */
  predicate DueAfter(pol: CollectionPolicy, k: int, days: int) {
    && (pol.kind == Immediate ==> days == 0)
    && (pol.kind != Immediate && k in pol.lagDaysByOffset ==> days == pol.lagDaysByOffset[k])
    && (pol.kind != Immediate && k !in pol.lagDaysByOffset ==> days == pol.defaultLagDays)
  }

  /** Not after the last day of the window, which knows no 29 February. */
  predicate ByWindowEnd(d: Date, start: Date, months: int) {
    MonthsIn(d, start) < months - 1 || (MonthsIn(d, start) == months - 1 && d.day <= MONTH_ENDS[d.month - 1])
  }

  predicate PaymentOf(t: Txn, s: RevenueStream, start: Date, months: int, k: int, i: nat)
    requires s.invoiceDay >= 1
  {
    && Invoiced(s, k, i)
    && DueAfter(s.collection, k, Ordinal(t.date) - Ordinal(MonthDate(start, k, s.invoiceDay)))
    && ByWindowEnd(t.date, start, months)
    && Posts(t, Payment, Some(s.customers[i]), s.cashAccount, s.arAccount, Share(s, k, i))
  }

  /** An invoice for each customer's share of each month, and its payment when that falls
      due inside the window. */
  predicate AccrualTxn(t: Txn, s: RevenueStream, start: Date, months: int) {
    exists k, i :: 0 <= k < months && 0 <= i < |s.customers| && s.invoiceDay >= 1
                   && (InvoiceOf(t, s, start, k, i) || PaymentOf(t, s, start, months, k, i))
  }

  lemma ShareIs(s: RevenueStream, k: int, i: nat)
    requires i < |s.customers|
    ensures Split(CurveAt(s.monthlyRecognized, k), |s.customers|)[i] == Share(s, k, i)
  {
    var total, n := Rate(s, k), |s.customers|;
    assert total == total / n * n + total % n;
  }

  lemma DueDateIs(d: Date, s: RevenueStream, start: Date, k: int)
    requires s.invoiceDay >= 1
    ensures DueAfter(s.collection, k, Ordinal(d) - Ordinal(MonthDate(start, k, s.invoiceDay))) <==>
            d == PayDate(s, k, start)
  {
    var due := PayDate(s, k, start);
    AddDaysOrdinal(MonthDate(start, k, s.invoiceDay), LagDays(s.collection, k));
    KeyOrdersDates(d, due);
    if Key(d) < Key(due) {
      OrdinalOrders(d, due);
    } else if Key(due) < Key(d) {
      OrdinalOrders(due, d);
    }
    hide Ordinal;
  }

  lemma WindowEndIs(d: Date, start: Date, months: int)
    ensures ByWindowEnd(d, start, months) <==> !Earlier(MonthDate(start, months - 1, 31), d)
  {
    var end := MonthDate(start, months - 1, 31);
    OffsetOfMonthDate(start, months - 1, 31);
    MonthLengths(end.month);
    MonthLengths(d.month);
    hide MonthDate;
  }

  /** The pair an invoiced share posts. */
  lemma UnitIs(t: Txn, s: RevenueStream, start: Date, months: int, k: int, i: nat)
    requires s.invoiceDay >= 1 && i < |s.customers| && Rate(s, k) > 0
    ensures t in InvoiceAndPayment(s, k, start, MonthDate(start, months - 1, 31), s.customers[i], Share(s, k, i)) <==>
            InvoiceOf(t, s, start, k, i) || PaymentOf(t, s, start, months, k, i)
  {
    DatedIs(t.date, start, k, s.invoiceDay);
    DueDateIs(t.date, s, start, k);
    WindowEndIs(t.date, start, months);
    WindowEndIs(PayDate(s, k, start), start, months);
    hide MonthDate, PayDate, Dated, DueAfter, ByWindowEnd, Earlier, Ordinal, Share;
  }

  lemma AccrualTold(t: Txn, s: RevenueStream, start: Date, months: int)
    requires ValidStream(s, months) && s.collection.kind != Prepaid
    requires t in Flatten(AccrualMonths(s, start, months, MonthDate(start, months - 1, 31)))
    ensures AccrualTxn(t, s, start, months)
  {
    var windowEnd := MonthDate(start, months - 1, 31);
    var all := AccrualMonths(s, start, months, windowEnd);
    var k := FlattenMember(all, t);
    assert UsableDay(CurveAt(s.monthlyRecognized, k), s.invoiceDay) && all[k] == AccrualMonth(s, k, start, windowEnd);
    var i := FlattenMember(AccrualParts(s, Rate(s, k), k, start, windowEnd), t);
    ShareIs(s, k, i);
    UnitIs(t, s, start, months, k, i);
    hide InvoiceOf, PaymentOf, InvoiceAndPayment, MonthDate, Share, Split, Flatten;
  }

  lemma AccrualKept(t: Txn, s: RevenueStream, start: Date, months: int, k: int, i: nat)
    requires ValidStream(s, months) && s.collection.kind != Prepaid
    requires 0 <= k < months && i < |s.customers| && s.invoiceDay >= 1
    requires InvoiceOf(t, s, start, k, i) || PaymentOf(t, s, start, months, k, i)
    ensures t in Flatten(AccrualMonths(s, start, months, MonthDate(start, months - 1, 31)))
  {
    var windowEnd := MonthDate(start, months - 1, 31);
    var all := AccrualMonths(s, start, months, windowEnd);
    assert UsableDay(CurveAt(s.monthlyRecognized, k), s.invoiceDay);
    UnitIs(t, s, start, months, k, i);
    ShareIs(s, k, i);
    hide InvoiceAndPayment, MonthDate, Share, Split, Flatten, PaymentOf, InvoiceOf;
    FlattenHas(AccrualParts(s, Rate(s, k), k, start, windowEnd), i, t);
    assert t in all[k];
    FlattenHas(all, k, t);
  }

  lemma AccrualJournal(t: Txn, s: RevenueStream, start: Date, months: int)
    requires ValidStream(s, months) && s.collection.kind != Prepaid
    ensures t in Revenue(s, start, months, MonthDate(start, months - 1, 31)) <==> AccrualTxn(t, s, start, months)
  {
    if t in Flatten(AccrualMonths(s, start, months, MonthDate(start, months - 1, 31))) {
      AccrualTold(t, s, start, months);
    }
    if AccrualTxn(t, s, start, months) {
      var k, i :| 0 <= k < months && 0 <= i < |s.customers| && s.invoiceDay >= 1
                  && (InvoiceOf(t, s, start, k, i) || PaymentOf(t, s, start, months, k, i));
      AccrualKept(t, s, start, months, k, i);
    }
  }

  // ---------------------------------------------------------------------
  // Prepaid revenue
  // ---------------------------------------------------------------------

  /** The second billing: at the phase, or a cadence after the first. */
  function Second(pol: CollectionPolicy): int { if pol.billPhase >= 1 then pol.billPhase else pol.billEvery }

  /** Billed in month k: the first month, and every cadence from the second billing on. */
  ghost predicate BilledAt(pol: CollectionPolicy, months: int, k: int) {
    k == 0 || (Second(pol) <= k < months && exists j: nat :: k == Second(pol) + j * pol.billEvery)
  }

  /** The first month the billing of month k leaves out. */
  function BilledTo(pol: CollectionPolicy, months: int, k: int): int {
    if k == 0 && Second(pol) < months then Second(pol) else k + pol.billEvery
  }

  /** The rates of months lo to hi, the window's last for those past it. */
  function RatesOver(s: RevenueStream, months: int, lo: int, hi: int): seq<int> {
    seq(Max(hi - lo, 0), j => Rate(s, if lo + j < months then lo + j else months - 1))
  }

  function Prepayment(s: RevenueStream, months: int, lo: int, hi: int): int { SumOf(RatesOver(s, months, lo, hi)) }

  predicate BillingOf(t: Txn, s: RevenueStream, start: Date, months: int, k: int) {
    var cash := Prepayment(s, months, k, BilledTo(s.collection, months, k));
    && cash > 0 && Dated(t.date, start, k, 1)
    && Posts(t, Payment, if |s.customers| == 0 then None else Some(s.customers[0]),
             s.cashAccount, s.deferredAccount, cash)
  }

  predicate RecognitionOf(t: Txn, s: RevenueStream, start: Date, months: int, k: int, m: int) {
    && k <= m < BilledTo(s.collection, months, k) && m < months && Rate(s, m) > 0
    && Prepayment(s, months, k, BilledTo(s.collection, months, k)) > 0
    && Dated(t.date, start, m, 28)
    && Posts(t, JournalEntry, None, s.deferredAccount, s.revenueAccount, Rate(s, m))
  }

  /** Cash for each billing, and the recognition of each month it covers in the window. */
  ghost predicate PrepaidTxn(t: Txn, s: RevenueStream, start: Date, months: int) {
    exists k :: BilledAt(s.collection, months, k)
                && (BillingOf(t, s, start, months, k) || exists m :: RecognitionOf(t, s, start, months, k, m))
  }

  lemma {:induction false} PrepaymentIs(s: RevenueStream, months: int, lo: int, hi: int)
    ensures BilledTotal(s.monthlyRecognized, months, lo, hi) == Prepayment(s, months, lo, hi)
    decreases hi - lo
  {
    if lo < hi {
      PrepaymentIs(s, months, lo + 1, hi);
      var rates := RatesOver(s, months, lo, hi);
      assert rates[0] == Rate(s, if lo + 0 < months then lo + 0 else months - 1);
      assert rates[0] == BilledRate(s.monthlyRecognized, months, lo);
      assert rates[1..] == RatesOver(s, months, lo + 1, hi);
      assert SumOf(rates) == rates[0] + SumOf(rates[1..]);
    }
  }

  lemma {:induction false} CadenceAt(next: int, every: int, months: int, i: nat)
    requires every >= 1 || next >= months
    requires i < |Cadence(next, every, months)|
    ensures Cadence(next, every, months)[i] == next + i * every
    decreases i
  {
    if i > 0 {
      CadenceAt(next + every, every, months, i - 1);
      assert next + every + (i - 1) * every == next + i * every;
    }
  }

  lemma {:induction false} CadenceReaches(next: int, every: int, months: int, j: nat)
    requires every >= 1 || next >= months
    requires next + j * every < months && every >= 1
    ensures j < |Cadence(next, every, months)|
    decreases j
  {
    assert j > 0 ==> next + every + (j - 1) * every == next + j * every;
    assert j * every >= 0 by { Nonnegative(j, every); }
    if j > 0 {
      CadenceReaches(next + every, every, months, j - 1);
    }
  }

  lemma Nonnegative(j: nat, every: int)
    requires every >= 1
    ensures j * every >= 0
  {
  }

  lemma {:induction false} CadenceBelow(next: int, every: int, months: int, i: nat)
    requires every >= 1 || next >= months
    requires i < |Cadence(next, every, months)|
    ensures Cadence(next, every, months)[i] < months
    ensures i + 1 < |Cadence(next, every, months)| || Cadence(next, every, months)[i] + every >= months
    decreases i
  {
    if i > 0 {
      CadenceBelow(next + every, every, months, i - 1);
    }
  }

  /** The offsets the engine bills at, and where each billing ends. */
  lemma OffsetIs(pol: CollectionPolicy, months: int, idx: nat)
    requires pol.billEvery >= 1 || FirstBilling(pol) >= months
    requires idx < |BillingOffsets(pol, months)|
    ensures var k := BillingOffsets(pol, months)[idx];
            && BilledAt(pol, months, k)
            && PeriodEnd(BillingOffsets(pol, months), idx, pol.billEvery) == BilledTo(pol, months, k)
  {
    var c := Cadence(Second(pol), pol.billEvery, months);
    assert BillingOffsets(pol, months) == [0] + c;
    if idx > 0 {
      CadenceAt(Second(pol), pol.billEvery, months, idx - 1);
      CadenceBelow(Second(pol), pol.billEvery, months, idx - 1);
      if idx < |c| {
        CadenceAt(Second(pol), pol.billEvery, months, idx);
        assert (idx - 1) * pol.billEvery + pol.billEvery == idx * pol.billEvery;
      }
      Nonnegative(idx - 1, pol.billEvery);
    }
  }

  lemma OffsetOfBilling(pol: CollectionPolicy, months: int, k: int) returns (idx: nat)
    requires pol.billEvery >= 1 || FirstBilling(pol) >= months
    requires BilledAt(pol, months, k)
    ensures idx < |BillingOffsets(pol, months)| && BillingOffsets(pol, months)[idx] == k
  {
    var next, every := Second(pol), pol.billEvery;
    assert BillingOffsets(pol, months) == [0] + Cadence(next, every, months);
    if k == 0 {
      idx := 0;
    } else {
      var j: nat :| k == next + j * every;
      CadenceReaches(next, every, months, j);
      CadenceAt(next, every, months, j);
      idx := 1 + j;
    }
  }

  lemma PeriodIs(t: Txn, s: RevenueStream, start: Date, months: int, k: int)
    ensures t in BillingPeriod(s, start, months, k, BilledTo(s.collection, months, k)) <==>
            BillingOf(t, s, start, months, k) || exists m :: RecognitionOf(t, s, start, months, k, m)
  {
    var hi := BilledTo(s.collection, months, k);
    PrepaymentIs(s, months, k, hi);
    DatedIs(t.date, start, k, 1);
    var parts := Recognitions(s, start, months, k, hi);
    if t in Flatten(parts) && Prepayment(s, months, k, hi) > 0 {
      var j := FlattenMember(parts, t);
      assert t in Recognition(s, start, months, k + j);
      DatedIs(t.date, start, k + j, 28);
      assert RecognitionOf(t, s, start, months, k, k + j);
    }
    if m :| RecognitionOf(t, s, start, months, k, m) {
      DatedIs(t.date, start, m, 28);
      assert parts[m - k] == Recognition(s, start, months, m);
      FlattenHas(parts, m - k, t);
    }
    hide MonthDate, BilledTotal, Prepayment, Dated;
  }

  lemma PrepaidJournal(t: Txn, s: RevenueStream, start: Date, months: int)
    requires ValidStream(s, months) && s.collection.kind == Prepaid
    ensures t in PrepaidRevenue(s, start, months) <==> PrepaidTxn(t, s, start, months)
  {
    var pol := s.collection;
    var offs := BillingOffsets(pol, months);
    var parts := BillingPeriods(s, start, months, offs);
    if t in Flatten(parts) {
      var idx := FlattenMember(parts, t);
      OffsetIs(pol, months, idx);
      PeriodIs(t, s, start, months, offs[idx]);
    }
    if k :| BilledAt(pol, months, k)
            && (BillingOf(t, s, start, months, k) || exists m :: RecognitionOf(t, s, start, months, k, m)) {
      var idx := OffsetOfBilling(pol, months, k);
      OffsetIs(pol, months, idx);
      PeriodIs(t, s, start, months, k);
      FlattenHas(parts, idx, t);
    }
  }

  // ---------------------------------------------------------------------
  // Inventory, expenses, capex and prepaid items
  // ---------------------------------------------------------------------

  predicate PurchaseOf(t: Txn, c: InventoryCycle, start: Date, k: int) {
    && k in c.monthlyPurchase && c.monthlyPurchase[k] > 0 && Dated(t.date, start, k, c.purchaseDay)
    && Posts(t, BillPayment, Some(c.vendor), c.inventoryAccount, c.cashAccount, c.monthlyPurchase[k])
  }

  predicate ConsumptionOf(t: Txn, c: InventoryCycle, start: Date, k: int) {
    && k in c.monthlyConsumption && c.monthlyConsumption[k] > 0 && Dated(t.date, start, k, c.consumeDay)
    && Posts(t, JournalEntry, None, c.cogsAccount, c.inventoryAccount, c.monthlyConsumption[k])
  }

  predicate InventoryTxn(t: Txn, c: InventoryCycle, start: Date, months: int) {
    exists k :: 0 <= k < months && (PurchaseOf(t, c, start, k) || ConsumptionOf(t, c, start, k))
  }

  predicate ExpenseOf(t: Txn, e: ExpenseRhythm, start: Date, k: int, amount: int) {
    && (e.monthly == Flat(amount)
        || (e.monthly.Varying? && k in e.monthly.curve && e.monthly.curve[k] == amount))
    && amount > 0 && Dated(t.date, start, k, e.day)
    && Spends(t, e.vendor, e.expenseAccount, e.cashAccount, amount)
  }

  ghost predicate ExpenseTxn(t: Txn, e: ExpenseRhythm, start: Date, months: int) {
    exists k, amount :: 0 <= k < months && ExpenseOf(t, e, start, k, amount)
  }

  predicate DepreciationOf(t: Txn, c: CapexItem, start: Date, k: int)
    requires c.lifeMonths != 0
  {
    && (c.inOpening || k > c.purchaseOffset) && Dated(t.date, start, k, 31)
    && Posts(t, JournalEntry, None, c.depExpenseAccount, c.accumDepAccount, FloorDiv(c.cost, c.lifeMonths))
  }

  /** Bought in the window on the 5th, unless in the opening, and written down on every
      month's last day after that, up to the close target. */
  predicate CapexTxn(t: Txn, c: CapexItem, start: Date, months: int)
    requires c.lifeMonths != 0
  {
    || (!c.inOpening && 0 <= c.purchaseOffset < months && Dated(t.date, start, c.purchaseOffset, 5)
        && Spends(t, c.vendor, c.assetAccount, c.cashAccount, c.cost))
    || exists k :: 0 <= k < months - 2 && DepreciationOf(t, c, start, k)
  }

  predicate AmortizationOf(t: Txn, p: PrepaidItem, start: Date, k: int)
    requires p.lifeMonths != 0
  {
    && p.purchaseOffset <= k < p.purchaseOffset + p.lifeMonths && Dated(t.date, start, k, 27)
    && Posts(t, JournalEntry, None, p.expenseAccount, p.prepaidAccount, FloorDiv(p.cost, p.lifeMonths))
  }

  /** Bought in the window on the 3rd, and amortized on the 27th of each month of its life,
      up to the close target. */
  predicate PrepaidItemTxn(t: Txn, p: PrepaidItem, start: Date, months: int)
    requires p.lifeMonths != 0
  {
    || (0 <= p.purchaseOffset < months && Dated(t.date, start, p.purchaseOffset, 3)
        && Spends(t, p.vendor, p.prepaidAccount, p.cashAccount, p.cost))
    || exists k :: 0 <= k < months - 2 && AmortizationOf(t, p, start, k)
  }

  lemma InventoryMonthIs(t: Txn, c: InventoryCycle, start: Date, k: int)
    requires ValidMonth(c, k)
    ensures t in InventoryMonth(c, start, k) <==> PurchaseOf(t, c, start, k) || ConsumptionOf(t, c, start, k)
  {
    if c.purchaseDay >= 1 {
      DatedIs(t.date, start, k, c.purchaseDay);
    }
    if c.consumeDay >= 1 {
      DatedIs(t.date, start, k, c.consumeDay);
    }
    hide MonthDate, Dated;
  }

  lemma InventoryJournal(t: Txn, c: InventoryCycle, start: Date, months: int)
    requires ValidCycle(c, months)
    ensures t in Flatten(InventoryMonths(c, start, months)) <==> InventoryTxn(t, c, start, months)
  {
    var parts := InventoryMonths(c, start, months);
    hide InventoryMonth, PurchaseOf, ConsumptionOf;
    if t in Flatten(parts) {
      var k := FlattenMember(parts, t);
      InventoryMonthIs(t, c, start, k);
    }
    if k :| 0 <= k < months && (PurchaseOf(t, c, start, k) || ConsumptionOf(t, c, start, k)) {
      InventoryMonthIs(t, c, start, k);
      FlattenHas(parts, k, t);
    }
  }

  lemma ExpenseMonthIs(t: Txn, e: ExpenseRhythm, start: Date, k: int)
    requires UsableDay(MonthlyAt(e.monthly, k), e.day)
    ensures t in ExpenseMonth(e, start, k) <==> exists amount :: ExpenseOf(t, e, start, k, amount)
  {
    if e.day >= 1 {
      DatedIs(t.date, start, k, e.day);
    }
    hide MonthDate, Dated;
    if t in ExpenseMonth(e, start, k) {
      assert ExpenseOf(t, e, start, k, MonthlyAt(e.monthly, k));
    }
  }

  lemma ExpenseJournal(t: Txn, e: ExpenseRhythm, start: Date, months: int)
    requires ValidRhythm(e, months)
    ensures t in Flatten(ExpenseMonths(e, start, months)) <==> ExpenseTxn(t, e, start, months)
  {
    var parts := ExpenseMonths(e, start, months);
    hide ExpenseMonth, ExpenseOf;
    if t in Flatten(parts) {
      var k := FlattenMember(parts, t);
      ExpenseMonthIs(t, e, start, k);
    }
    if k, amount :| 0 <= k < months && ExpenseOf(t, e, start, k, amount) {
      ExpenseMonthIs(t, e, start, k);
      FlattenHas(parts, k, t);
    }
  }

  lemma BuysIs(t: Txn, vendor: Option<string>, debit: string, credit: string, amount: int, date: Date)
    ensures t == Entry(date, BillKind(vendor), vendor, debit, credit, amount) <==>
            t.date == date && Spends(t, vendor, debit, credit, amount)
  {
  }

  lemma DepreciationIs(t: Txn, c: CapexItem, start: Date, k: int)
    requires c.lifeMonths != 0
    ensures DepreciationOf(t, c, start, k) <==>
            && (c.inOpening || k > c.purchaseOffset)
            && t == Entry(MonthDate(start, k, 31), JournalEntry, None, c.depExpenseAccount, c.accumDepAccount,
                          FloorDiv(c.cost, c.lifeMonths))
  {
    DatedIs(t.date, start, k, 31);
    hide MonthDate, Dated, FloorDiv;
  }

  lemma DepreciationsAre(t: Txn, c: CapexItem, start: Date, months: int)
    requires c.lifeMonths != 0
    ensures t in Flatten(Depreciations(c, start, months)) <==>
            exists k :: 0 <= k < months - 2 && DepreciationOf(t, c, start, k)
  {
    var first, parts := FirstDepreciation(c), Depreciations(c, start, months);
    hide MonthDate, FloorDiv, DepreciationOf, Entry, Flatten;
    if t in Flatten(parts) {
      var j := FlattenMember(parts, t);
      DepreciationIs(t, c, start, first + j);
    }
    if k :| 0 <= k < months - 2 && DepreciationOf(t, c, start, k) {
      DepreciationIs(t, c, start, k);
      FlattenHas(parts, k - first, t);
    }
  }

  lemma CapexJournal(t: Txn, c: CapexItem, start: Date, months: int)
    requires c.lifeMonths != 0
    ensures t in Capex(c, start, months) <==> CapexTxn(t, c, start, months)
  {
    DatedIs(t.date, start, c.purchaseOffset, 5);
    DepreciationsAre(t, c, start, months);
    hide MonthDate, Dated, DepreciationOf, Depreciations;
    BuysIs(t, c.vendor, c.assetAccount, c.cashAccount, c.cost, MonthDate(start, c.purchaseOffset, 5));
  }

  lemma AmortizationsAre(t: Txn, p: PrepaidItem, start: Date, months: int)
    requires p.lifeMonths != 0
    ensures t in Flatten(Amortizations(p, start, months)) <==>
            exists k :: 0 <= k < months - 2 && AmortizationOf(t, p, start, k)
  {
    var first, parts := AmortizedFrom(p), Amortizations(p, start, months);
    hide MonthDate, Dated, FloorDiv;
    if t in Flatten(parts) {
      var j := FlattenMember(parts, t);
      assert t == Amortization(p, start, first + j);
      DatedIs(t.date, start, first + j, 27);
      assert AmortizationOf(t, p, start, first + j);
    }
    if k :| 0 <= k < months - 2 && AmortizationOf(t, p, start, k) {
      DatedIs(t.date, start, k, 27);
      assert parts[k - first] == [Amortization(p, start, k)];
      FlattenHas(parts, k - first, t);
    }
  }

  lemma PrepaidItemJournal(t: Txn, p: PrepaidItem, start: Date, months: int)
    requires p.lifeMonths != 0
    ensures t in PrepaidStream(p, start, months) <==> PrepaidItemTxn(t, p, start, months)
  {
    DatedIs(t.date, start, p.purchaseOffset, 3);
    AmortizationsAre(t, p, start, months);
    hide MonthDate, Dated, AmortizationOf, Amortizations;
    BuysIs(t, p.vendor, p.prepaidAccount, p.cashAccount, p.cost, MonthDate(start, p.purchaseOffset, 3));
  }

  // ---------------------------------------------------------------------
  // The whole stream
  // ---------------------------------------------------------------------

  ghost predicate RevenueTxn(t: Txn, s: RevenueStream, start: Date, months: int) {
    if s.collection.kind == Prepaid then PrepaidTxn(t, s, start, months) else AccrualTxn(t, s, start, months)
  }

  /** Some flow of the scenario posts the transaction. */
  ghost predicate FlowTxn(t: Txn, sc: Scenario, start: Date)
    requires ValidScenario(sc)
  {
    || (exists s :: s in sc.revenue && RevenueTxn(t, s, start, sc.months))
    || (exists c :: c in sc.inventory && InventoryTxn(t, c, start, sc.months))
    || (exists e :: e in sc.expenses && ExpenseTxn(t, e, start, sc.months))
    || (exists c :: c in sc.capex && CapexTxn(t, c, start, sc.months))
    || (exists p :: p in sc.prepaids && PrepaidItemTxn(t, p, start, sc.months))
  }

  lemma RevenueJournal(t: Txn, s: RevenueStream, start: Date, months: int)
    requires ValidStream(s, months)
    ensures t in Revenue(s, start, months, MonthDate(start, months - 1, 31)) <==> RevenueTxn(t, s, start, months)
  {
    if s.collection.kind == Prepaid {
      PrepaidJournal(t, s, start, months);
    } else {
      AccrualJournal(t, s, start, months);
    }
  }

  /** In one of the flows, wherever it is in the list. */
  lemma FlattenIff(parts: seq<seq<Txn>>, t: Txn)
    ensures t in Flatten(parts) <==> exists i :: 0 <= i < |parts| && t in parts[i]
  {
    if t in Flatten(parts) {
      var i := FlattenMember(parts, t);
    }
    if i :| 0 <= i < |parts| && t in parts[i] {
      FlattenHas(parts, i, t);
    }
  }

  lemma RevenueFlowsAre(t: Txn, sc: Scenario, start: Date)
    requires ValidScenario(sc)
    ensures t in Flatten(RevenueFlows(sc, start)) <==>
            exists s :: s in sc.revenue && RevenueTxn(t, s, start, sc.months)
  {
    var flows := RevenueFlows(sc, start);
    FlattenIff(flows, t);
    forall i | 0 <= i < |flows|
      ensures t in flows[i] <==> RevenueTxn(t, sc.revenue[i], start, sc.months)
    {
      RevenueJournal(t, sc.revenue[i], start, sc.months);
    }
    hide RevenueTxn, Revenue;
  }

  lemma InventoryFlowsAre(t: Txn, sc: Scenario, start: Date)
    requires ValidScenario(sc)
    ensures t in Flatten(InventoryFlows(sc, start)) <==>
            exists x :: x in sc.inventory && InventoryTxn(t, x, start, sc.months)
  {
    var flows := InventoryFlows(sc, start);
    FlattenIff(flows, t);
    hide Flatten, InventoryTxn, InventoryMonths;
    forall i | 0 <= i < |flows|
      ensures t in flows[i] <==> InventoryTxn(t, sc.inventory[i], start, sc.months)
    {
      InventoryJournal(t, sc.inventory[i], start, sc.months);
    }
  }

  lemma ExpenseFlowsAre(t: Txn, sc: Scenario, start: Date)
    requires ValidScenario(sc)
    ensures t in Flatten(ExpenseFlows(sc, start)) <==>
            exists x :: x in sc.expenses && ExpenseTxn(t, x, start, sc.months)
  {
    var flows := ExpenseFlows(sc, start);
    FlattenIff(flows, t);
    hide Flatten, ExpenseTxn, ExpenseMonths;
    forall i | 0 <= i < |flows|
      ensures t in flows[i] <==> ExpenseTxn(t, sc.expenses[i], start, sc.months)
    {
      ExpenseJournal(t, sc.expenses[i], start, sc.months);
    }
  }

  lemma CapexFlowsAre(t: Txn, sc: Scenario, start: Date)
    requires ValidScenario(sc)
    ensures t in Flatten(CapexFlows(sc, start)) <==>
            exists x :: x in sc.capex && CapexTxn(t, x, start, sc.months)
  {
    var flows := CapexFlows(sc, start);
    FlattenIff(flows, t);
    hide Flatten, CapexTxn, Capex;
    forall i | 0 <= i < |flows|
      ensures t in flows[i] <==> CapexTxn(t, sc.capex[i], start, sc.months)
    {
      CapexJournal(t, sc.capex[i], start, sc.months);
    }
  }

  lemma PrepaidFlowsAre(t: Txn, sc: Scenario, start: Date)
    requires ValidScenario(sc)
    ensures t in Flatten(PrepaidFlows(sc, start)) <==>
            exists x :: x in sc.prepaids && PrepaidItemTxn(t, x, start, sc.months)
  {
    var flows := PrepaidFlows(sc, start);
    FlattenIff(flows, t);
    hide Flatten, PrepaidItemTxn, PrepaidStream;
    forall i | 0 <= i < |flows|
      ensures t in flows[i] <==> PrepaidItemTxn(t, sc.prepaids[i], start, sc.months)
    {
      PrepaidItemJournal(t, sc.prepaids[i], start, sc.months);
    }
  }

  /** The stream holds the opening and what the flows post, and nothing else. */
  lemma EmittedJournal(t: Txn, sc: Scenario, start: Date)
    requires ValidScenario(sc)
    ensures t in Emitted(sc, start) <==> t in sc.opening || FlowTxn(t, sc, start)
  {
    SortMembers(Unsorted(sc, start));
    RevenueFlowsAre(t, sc, start);
    InventoryFlowsAre(t, sc, start);
    ExpenseFlowsAre(t, sc, start);
    CapexFlowsAre(t, sc, start);
    PrepaidFlowsAre(t, sc, start);
    hide Sort, Flatten, RevenueFlows, InventoryFlows, ExpenseFlows, CapexFlows, PrepaidFlows, RevenueTxn, InventoryTxn,
      ExpenseTxn, CapexTxn, PrepaidItemTxn;
  }

  /** What each flow measures by itself, summed over the flows of a kind. */
  ghost function RevenueTotal(m: Measure, sc: Scenario, start: Date): int
    requires ValidScenario(sc)
  {
    SumOf(seq(|sc.revenue|, i requires 0 <= i < |sc.revenue| =>
      Total(m, Revenue(sc.revenue[i], start, sc.months, MonthDate(start, sc.months - 1, 31)))))
  }

  ghost function InventoryTotal(m: Measure, sc: Scenario, start: Date): int
    requires ValidScenario(sc)
  {
    SumOf(seq(|sc.inventory|, i requires 0 <= i < |sc.inventory| =>
      Total(m, Flatten(InventoryMonths(sc.inventory[i], start, sc.months)))))
  }

  ghost function ExpenseTotal(m: Measure, sc: Scenario, start: Date): int
    requires ValidScenario(sc)
  {
    SumOf(seq(|sc.expenses|, i requires 0 <= i < |sc.expenses| =>
      Total(m, Flatten(ExpenseMonths(sc.expenses[i], start, sc.months)))))
  }

  ghost function CapexTotal(m: Measure, sc: Scenario, start: Date): int
    requires ValidScenario(sc)
  {
    SumOf(seq(|sc.capex|, i requires 0 <= i < |sc.capex| => Total(m, Capex(sc.capex[i], start, sc.months))))
  }

  ghost function PrepaidTotal(m: Measure, sc: Scenario, start: Date): int
    requires ValidScenario(sc)
  {
    SumOf(seq(|sc.prepaids|, i requires 0 <= i < |sc.prepaids| =>
      Total(m, PrepaidStream(sc.prepaids[i], start, sc.months))))
  }

  lemma RevenueFlowsTotal(m: Measure, sc: Scenario, start: Date)
    requires ValidScenario(sc)
    ensures Total(m, Flatten(RevenueFlows(sc, start))) == RevenueTotal(m, sc, start)
  {
    hide Total, Revenue, MonthDate, Flatten;
    FlattenTotal(m, RevenueFlows(sc, start), seq(|sc.revenue|, i requires 0 <= i < |sc.revenue| =>
      Total(m, Revenue(sc.revenue[i], start, sc.months, MonthDate(start, sc.months - 1, 31)))));
  }

  lemma InventoryFlowsTotal(m: Measure, sc: Scenario, start: Date)
    requires ValidScenario(sc)
    ensures Total(m, Flatten(InventoryFlows(sc, start))) == InventoryTotal(m, sc, start)
  {
    FlattenTotal(m, InventoryFlows(sc, start), seq(|sc.inventory|, i requires 0 <= i < |sc.inventory| =>
      Total(m, Flatten(InventoryMonths(sc.inventory[i], start, sc.months)))));
  }

  lemma ExpenseFlowsTotal(m: Measure, sc: Scenario, start: Date)
    requires ValidScenario(sc)
    ensures Total(m, Flatten(ExpenseFlows(sc, start))) == ExpenseTotal(m, sc, start)
  {
    FlattenTotal(m, ExpenseFlows(sc, start), seq(|sc.expenses|, i requires 0 <= i < |sc.expenses| =>
      Total(m, Flatten(ExpenseMonths(sc.expenses[i], start, sc.months)))));
  }

  lemma CapexFlowsTotal(m: Measure, sc: Scenario, start: Date)
    requires ValidScenario(sc)
    ensures Total(m, Flatten(CapexFlows(sc, start))) == CapexTotal(m, sc, start)
  {
    FlattenTotal(m, CapexFlows(sc, start), seq(|sc.capex|, i requires 0 <= i < |sc.capex| =>
      Total(m, Capex(sc.capex[i], start, sc.months))));
  }

  lemma PrepaidFlowsTotal(m: Measure, sc: Scenario, start: Date)
    requires ValidScenario(sc)
    ensures Total(m, Flatten(PrepaidFlows(sc, start))) == PrepaidTotal(m, sc, start)
  {
    FlattenTotal(m, PrepaidFlows(sc, start), seq(|sc.prepaids|, i requires 0 <= i < |sc.prepaids| =>
      Total(m, PrepaidStream(sc.prepaids[i], start, sc.months))));
  }

  /** Whatever is measured, the stream amounts to the opening and what every flow measures
      by itself: no flow is lost, doubled or changed by the merge. */
  lemma EmittedConserves(m: Measure, sc: Scenario, start: Date)
    requires ValidScenario(sc)
    ensures Total(m, Emitted(sc, start)) ==
            Total(m, sc.opening) + RevenueTotal(m, sc, start) + InventoryTotal(m, sc, start)
            + ExpenseTotal(m, sc, start) + CapexTotal(m, sc, start) + PrepaidTotal(m, sc, start)
  {
    var revenue, inventory := Flatten(RevenueFlows(sc, start)), Flatten(InventoryFlows(sc, start));
    var expenses, capex := Flatten(ExpenseFlows(sc, start)), Flatten(CapexFlows(sc, start));
    var prepaids := Flatten(PrepaidFlows(sc, start));
    RevenueFlowsTotal(m, sc, start);
    InventoryFlowsTotal(m, sc, start);
    ExpenseFlowsTotal(m, sc, start);
    CapexFlowsTotal(m, sc, start);
    PrepaidFlowsTotal(m, sc, start);
    SortTotal(m, Unsorted(sc, start));
    hide Sort, Total, Flatten, RevenueTotal, InventoryTotal, ExpenseTotal, CapexTotal, PrepaidTotal;
    TotalConcat(m, sc.opening + revenue, inventory + expenses + capex + prepaids);
    TotalConcat(m, sc.opening, revenue);
    TotalConcat(m, inventory + expenses + capex, prepaids);
    TotalConcat(m, inventory + expenses, capex);
    TotalConcat(m, inventory, expenses);
  }

  lemma {:induction false} OnDayConcat(d: Date, a: seq<Txn>, b: seq<Txn>)
    ensures OnDay(d, a + b) == OnDay(d, a) + OnDay(d, b)
  {
    if a == [] {
      assert a + b == b;
    } else {
      assert (a + b)[1..] == a[1..] + b;
      OnDayConcat(d, a[1..], b);
    }
  }

  lemma OnDayFour(d: Date, a: seq<Txn>, b: seq<Txn>, c: seq<Txn>, e: seq<Txn>)
    ensures OnDay(d, a + b + c + e) == OnDay(d, a) + OnDay(d, b) + OnDay(d, c) + OnDay(d, e)
  {
    hide OnDay;
    OnDayConcat(d, a + b + c, e);
    OnDayConcat(d, a + b, c);
    OnDayConcat(d, a, b);
  }

  lemma UnsortedOnDay(sc: Scenario, start: Date, d: Date)
    requires ValidScenario(sc)
    ensures OnDay(d, Unsorted(sc, start)) ==
            OnDay(d, sc.opening) + OnDay(d, Flatten(RevenueFlows(sc, start)))
            + (OnDay(d, Flatten(InventoryFlows(sc, start))) + OnDay(d, Flatten(ExpenseFlows(sc, start)))
               + OnDay(d, Flatten(CapexFlows(sc, start))) + OnDay(d, Flatten(PrepaidFlows(sc, start))))
  {
    var revenue := Flatten(RevenueFlows(sc, start));
    var others := OtherFlows(sc, start);
    OnDayFour(d, Flatten(InventoryFlows(sc, start)), Flatten(ExpenseFlows(sc, start)), Flatten(CapexFlows(sc, start)),
              Flatten(PrepaidFlows(sc, start)));
    hide OnDay, Flatten, RevenueFlows, InventoryFlows, ExpenseFlows, CapexFlows, PrepaidFlows, OtherFlows;
    OnDayConcat(d, sc.opening + revenue, others);
    OnDayConcat(d, sc.opening, revenue);
  }

  /** The stream is in date order, and what falls on one day comes in the order of the
      scenario: the opening, revenue, inventory, expenses, capex, prepaid items. */
  lemma EmittedInOrder(sc: Scenario, start: Date, d: Date)
    requires ValidScenario(sc)
    ensures forall i, j :: 0 <= i < j < |Emitted(sc, start)| ==>
              !Earlier(Emitted(sc, start)[j].date, Emitted(sc, start)[i].date)
    ensures OnDay(d, Emitted(sc, start)) ==
            OnDay(d, sc.opening) + OnDay(d, Flatten(RevenueFlows(sc, start)))
            + (OnDay(d, Flatten(InventoryFlows(sc, start))) + OnDay(d, Flatten(ExpenseFlows(sc, start)))
               + OnDay(d, Flatten(CapexFlows(sc, start))) + OnDay(d, Flatten(PrepaidFlows(sc, start))))
  {
    SortIsStable(Unsorted(sc, start));
    UnsortedOnDay(sc, start, d);
    var stream := Emitted(sc, start);
    hide Sort, OnDay, Flatten, Emitted, Unsorted, ValidScenario, RevenueFlows, InventoryFlows, ExpenseFlows, CapexFlows,
      PrepaidFlows;
    forall i, j | 0 <= i < j < |stream|
      ensures !Earlier(stream[j].date, stream[i].date)
    {
      KeyOrdersDates(stream[j].date, stream[i].date);
    }
  }
}

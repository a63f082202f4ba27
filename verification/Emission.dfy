// What holds of every transaction a scenario is lowered to: it has one debit and
// one credit leg of equal amount, and it falls inside the window.

module Emission {
  import opened Basics
  import opened Calendar
  import opened Drivers
  import opened Ledger
  import opened Engine

  predicate IsAccrual(s: RevenueStream) { s.collection.kind != Prepaid }

  /** No collection lag of the window runs backwards. */
  predicate PaysForward(s: RevenueStream, months: int) {
    IsAccrual(s) ==>
      forall offset :: 0 <= offset < months ==> LagDays(s.collection, offset) >= 0
  }

  predicate LagsForward(sc: Scenario) {
    forall s :: s in sc.revenue ==> PaysForward(s, sc.months)
  }

  function RevenueAccounts(s: RevenueStream): set<string> {
    {s.revenueAccount, s.cashAccount, if s.collection.kind == Prepaid then s.deferredAccount else s.arAccount}
  }

  function InventoryAccounts(c: InventoryCycle): set<string> {
    {c.inventoryAccount, c.cogsAccount, c.cashAccount}
  }

  function ExpenseAccounts(e: ExpenseRhythm): set<string> { {e.expenseAccount, e.cashAccount} }

  function CapexAccounts(c: CapexItem): set<string> {
    {c.assetAccount, c.accumDepAccount, c.depExpenseAccount, c.cashAccount}
  }

  function PrepaidAccounts(p: PrepaidItem): set<string> {
    {p.prepaidAccount, p.expenseAccount, p.cashAccount}
  }

  /** Every account a flow other than revenue can post to. */
  function OtherAccounts(sc: Scenario): set<string> {
    (set c, a | c in sc.inventory && a in InventoryAccounts(c) :: a)
    + (set e, a | e in sc.expenses && a in ExpenseAccounts(e) :: a)
    + (set c, a | c in sc.capex && a in CapexAccounts(c) :: a)
    + (set p, a | p in sc.prepaids && a in PrepaidAccounts(p) :: a)
  }

  predicate WellFlowed(t: Txn, start: Date, months: int, accounts: set<string>, forward: bool) {
    && TwoLegged(t)
    && t.lines[0].code in accounts && t.lines[1].code in accounts
    && (forward ==> InWindow(t, start, months))
  }

  /** A payment date lies between its invoice's month and the window's last. */
  lemma PaymentInWindow(s: RevenueStream, offset: int, start: Date, months: int)
    requires s.invoiceDay >= 1 && 0 <= offset < months
    requires LagDays(s.collection, offset) >= 0
    requires !Earlier(MonthDate(start, months - 1, 31), PayDate(s, offset, start))
    ensures 0 <= OffsetOf(PayDate(s, offset, start), start) < months
  {
    OffsetOfMonthDate(start, offset, s.invoiceDay);
    OffsetOfMonthDate(start, months - 1, 31);
    AddDaysOrdinal(MonthDate(start, offset, s.invoiceDay), LagDays(s.collection, offset));
    KeyOrdersDates(MonthDate(start, months - 1, 31), PayDate(s, offset, start));
  }

  lemma AccrualMember(s: RevenueStream, start: Date, months: int, windowEnd: Date, t: Txn)
    returns (offset: int, i: nat)
    requires ValidStream(s, months) && IsAccrual(s)
    requires t in Flatten(AccrualMonths(s, start, months, windowEnd))
    ensures 0 <= offset < months && i < |s.customers| && s.invoiceDay >= 1
    ensures t in InvoiceAndPayment(s, offset, start, windowEnd, s.customers[i],
                                   Split(CurveAt(s.monthlyRecognized, offset), |s.customers|)[i])
  {
    var k := FlattenMember(AccrualMonths(s, start, months, windowEnd), t);
    offset := k;
    var total := CurveAt(s.monthlyRecognized, offset);
    assert UsableDay(total, s.invoiceDay);
    assert t in AccrualMonth(s, offset, start, windowEnd);
    i := FlattenMember(AccrualParts(s, total, offset, start, windowEnd), t);
  }

  lemma AccrualFlowed(s: RevenueStream, start: Date, months: int, t: Txn)
    requires ValidStream(s, months) && IsAccrual(s)
    requires t in Flatten(AccrualMonths(s, start, months, MonthDate(start, months - 1, 31)))
    ensures WellFlowed(t, start, months, RevenueAccounts(s), PaysForward(s, months))
  {
    var windowEnd := MonthDate(start, months - 1, 31);
    var offset, i := AccrualMember(s, start, months, windowEnd, t);
    OffsetOfMonthDate(start, offset, s.invoiceDay);
    if PaysForward(s, months) && !Earlier(windowEnd, PayDate(s, offset, start)) {
      PaymentInWindow(s, offset, start, months);
    }
  }

  lemma BillingMember(s: RevenueStream, start: Date, months: int, lo: int, hi: int, t: Txn) returns (m: int)
    requires t in BillingPeriod(s, start, months, lo, hi)
    ensures lo <= m
    ensures || t == Entry(MonthDate(start, lo, 1), Payment, BillingAgent(s), s.cashAccount, s.deferredAccount,
                          BilledTotal(s.monthlyRecognized, months, lo, hi))
            || (m < months && m < hi && t in Recognition(s, start, months, m))
  {
    m := lo;
    var parts := Recognitions(s, start, months, lo, hi);
    if t in Flatten(parts) {
      var k := FlattenMember(parts, t);
      assert t in Recognition(s, start, months, lo + k);
      m := lo + k;
    }
  }

  lemma {:induction false} CadenceRange(next: int, every: int, months: int)
    requires every >= 1 || next >= months
    ensures forall x :: x in Cadence(next, every, months) ==> next <= x < months
    decreases months - next
  {
    if next < months {
      CadenceRange(next + every, every, months);
    }
  }

  lemma PrepaidRevenueFlowed(s: RevenueStream, start: Date, months: int, t: Txn)
    requires ValidStream(s, months) && s.collection.kind == Prepaid
    requires t in PrepaidRevenue(s, start, months)
    ensures WellFlowed(t, start, months, RevenueAccounts(s), months >= 1)
  {
    var offs := BillingOffsets(s.collection, months);
    var every := s.collection.billEvery;
    var idx := FlattenMember(BillingPeriods(s, start, months, offs), t);
    var m := BillingMember(s, start, months, offs[idx], PeriodEnd(offs, idx, every), t);
    CadenceRange(FirstBilling(s.collection), every, months);
    assert months >= 1 ==> 0 <= offs[idx] < months by {
      assert idx > 0 ==> offs[idx] in Cadence(FirstBilling(s.collection), every, months);
    }
    OffsetOfMonthDate(start, offs[idx], 1);
    OffsetOfMonthDate(start, m, 28);
  }

  lemma RevenueFlowed(s: RevenueStream, start: Date, months: int, t: Txn)
    requires ValidStream(s, months)
    requires t in Revenue(s, start, months, MonthDate(start, months - 1, 31))
    ensures WellFlowed(t, start, months, RevenueAccounts(s), PaysForward(s, months) && months >= 1)
  {
    if s.collection.kind == Prepaid {
      PrepaidRevenueFlowed(s, start, months, t);
    } else {
      AccrualFlowed(s, start, months, t);
    }
  }

  lemma InventoryFlowed(c: InventoryCycle, start: Date, months: int, t: Txn)
    requires ValidCycle(c, months)
    requires t in Flatten(InventoryMonths(c, start, months))
    ensures WellFlowed(t, start, months, InventoryAccounts(c), true) && t.kind in {BillPayment, JournalEntry}
  {
    var k := FlattenMember(InventoryMonths(c, start, months), t);
    assert ValidMonth(c, k);
    assert t in InventoryMonth(c, start, k);
    if c.purchaseDay >= 1 {
      OffsetOfMonthDate(start, k, c.purchaseDay);
    }
    if c.consumeDay >= 1 {
      OffsetOfMonthDate(start, k, c.consumeDay);
    }
  }

  lemma ExpenseFlowed(e: ExpenseRhythm, start: Date, months: int, t: Txn)
    requires ValidRhythm(e, months)
    requires t in Flatten(ExpenseMonths(e, start, months))
    ensures WellFlowed(t, start, months, ExpenseAccounts(e), true) && t.kind in {BillPayment, JournalEntry}
  {
    var k := FlattenMember(ExpenseMonths(e, start, months), t);
    assert UsableDay(MonthlyAt(e.monthly, k), e.day);
    assert t in ExpenseMonth(e, start, k);
    OffsetOfMonthDate(start, k, e.day);
  }

  lemma CapexFlowed(c: CapexItem, start: Date, months: int, t: Txn)
    requires c.lifeMonths != 0 && t in Capex(c, start, months)
    ensures WellFlowed(t, start, months, CapexAccounts(c), true) && t.kind in {BillPayment, JournalEntry}
  {
    if t in CapexPurchase(c, start, months) {
      OffsetOfMonthDate(start, c.purchaseOffset, 5);
    } else {
      var k := FlattenMember(Depreciations(c, start, months), t);
      var month := FirstDepreciation(c) + k;
      assert t == Entry(MonthDate(start, month, 31), JournalEntry, None, c.depExpenseAccount,
                        c.accumDepAccount, FloorDiv(c.cost, c.lifeMonths));
      OffsetOfMonthDate(start, month, 31);
    }
  }

  lemma PrepaidFlowed(p: PrepaidItem, start: Date, months: int, t: Txn)
    requires p.lifeMonths != 0 && t in PrepaidStream(p, start, months)
    ensures WellFlowed(t, start, months, PrepaidAccounts(p), true) && t.kind in {BillPayment, JournalEntry}
  {
    if t in PrepaidPurchase(p, start, months) {
      OffsetOfMonthDate(start, p.purchaseOffset, 3);
    } else {
      var k := FlattenMember(Amortizations(p, start, months), t);
      var month := AmortizedFrom(p) + k;
      assert t == Amortization(p, start, month);
      OffsetOfMonthDate(start, month, 27);
    }
  }

  lemma OtherFlowed(sc: Scenario, start: Date, t: Txn)
    requires ValidScenario(sc) && t in OtherFlows(sc, start)
    ensures WellFlowed(t, start, sc.months, OtherAccounts(sc), true) && t.kind in {BillPayment, JournalEntry}
  {
    if t in Flatten(InventoryFlows(sc, start)) {
      var i := FlattenMember(InventoryFlows(sc, start), t);
      InventoryFlowed(sc.inventory[i], start, sc.months, t);
    } else if t in Flatten(ExpenseFlows(sc, start)) {
      var i := FlattenMember(ExpenseFlows(sc, start), t);
      ExpenseFlowed(sc.expenses[i], start, sc.months, t);
    } else if t in Flatten(CapexFlows(sc, start)) {
      var i := FlattenMember(CapexFlows(sc, start), t);
      CapexFlowed(sc.capex[i], start, sc.months, t);
    } else {
      var i := FlattenMember(PrepaidFlows(sc, start), t);
      PrepaidFlowed(sc.prepaids[i], start, sc.months, t);
    }
  }

  lemma EmittedMember(sc: Scenario, start: Date, t: Txn)
    requires ValidScenario(sc) && t in Emitted(sc, start)
    ensures t in sc.opening || t in Flatten(RevenueFlows(sc, start)) || t in OtherFlows(sc, start)
  {
    hide OtherFlows, RevenueFlows, Flatten, ValidScenario;
    SortMembers(Unsorted(sc, start));
  }

  lemma RevenueFlowsFlowed(sc: Scenario, start: Date, t: Txn)
    requires ValidScenario(sc) && t in Flatten(RevenueFlows(sc, start))
    ensures TwoLegged(t) && (LagsForward(sc) && sc.months >= 1 ==> InWindow(t, start, sc.months))
  {
    var i := FlattenMember(RevenueFlows(sc, start), t);
    RevenueFlowed(sc.revenue[i], start, sc.months, t);
  }

  /** Every emitted transaction is an authored opening one or a balanced two-legged
      entry; with forward lags and a window of at least a month the latter all fall
      inside it. */
  lemma EmittedShape(sc: Scenario, start: Date, t: Txn)
    requires ValidScenario(sc)
    requires t in Emitted(sc, start) && t !in sc.opening
    ensures TwoLegged(t) && Balanced(t)
    ensures LagsForward(sc) && sc.months >= 1 ==> InWindow(t, start, sc.months)
    ensures t.kind in {Invoice, Payment} ==> t in Flatten(RevenueFlows(sc, start))
  {
    hide OtherFlows, RevenueFlows, Flatten, ValidScenario, Emitted, LagsForward;
    EmittedMember(sc, start, t);
    if t in Flatten(RevenueFlows(sc, start)) {
      RevenueFlowsFlowed(sc, start, t);
    } else {
      OtherFlowed(sc, start, t);
    }
    TwoLeggedBalances(t);
  }

  /** So `validate` accepts the emitted stream exactly when it accepts the opening. */
  lemma EmittedBalances(sc: Scenario, start: Date)
    requires ValidScenario(sc)
    ensures (forall t :: t in Emitted(sc, start) ==> Balanced(t)) <==>
            (forall t :: t in sc.opening ==> Balanced(t))
  {
    SortMembers(Unsorted(sc, start));
    forall t | t in Emitted(sc, start) && t !in sc.opening
      ensures Balanced(t)
    {
      EmittedShape(sc, start, t);
    }
    assert forall t :: t in sc.opening ==> t in Emitted(sc, start);
  }
}

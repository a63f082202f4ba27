// The lowering of a scenario's flows to dated double-entry transactions. Each
// flow has a function saying what stream it lowers to, and the engine's own loop
// proved to build that stream.

module Engine {
  import opened Basics
  import opened Calendar
  import opened Drivers
  import opened Ledger

  function Entry(date: Date, kind: TxnType, agent: Option<string>,
                 debitAccount: string, creditAccount: string, amount: int): Txn
  {
    Txn(date, kind, agent, [Line(debitAccount, amount, 0), Line(creditAccount, 0, amount)])
  }

  /** The shape of every transaction the engine itself emits. */
  predicate TwoLegged(t: Txn) {
    && |t.lines| == 2
    && t.lines[0].credit == 0 && t.lines[1].debit == 0
    && t.lines[0].debit == t.lines[1].credit
  }

  predicate InWindow(t: Txn, start: Date, months: int) {
    0 <= OffsetOf(t.date, start) < months
  }

  function Count(n: int): nat { Max(n, 0) }

  // ---------------------------------------------------------------------
  // Accrual revenue: invoice now, cash after the lag
  // ---------------------------------------------------------------------

  /** `total` cents in n parts, the remainder on the first. */
  function Split(total: int, n: int): seq<int> {
    if n <= 0 then []
    else seq(n, i => total / n + if i == 0 then total - total / n * n else 0)
  }

  function LagDays(pol: CollectionPolicy, offset: int): int {
    if pol.kind == Immediate then 0
    else if offset in pol.lagDaysByOffset then pol.lagDaysByOffset[offset]
    else pol.defaultLagDays
  }

  function PayDate(s: RevenueStream, offset: int, start: Date): Date
    requires s.invoiceDay >= 1
  {
    AddDays(MonthDate(start, offset, s.invoiceDay), LagDays(s.collection, offset))
  }

  /** One customer's month: an invoice, and its payment if that falls in the window. */
  function InvoiceAndPayment(s: RevenueStream, offset: int, start: Date, windowEnd: Date,
                             customer: string, amount: int): seq<Txn>
    requires s.invoiceDay >= 1
  {
    if amount <= 0 then []
    else
      var invoice := Entry(MonthDate(start, offset, s.invoiceDay), Invoice, Some(customer),
                           s.arAccount, s.revenueAccount, amount);
      var payDate := PayDate(s, offset, start);
      if Earlier(windowEnd, payDate) then [invoice]
      else [invoice, Entry(payDate, Payment, Some(customer), s.cashAccount, s.arAccount, amount)]
  }

  function AccrualParts(s: RevenueStream, total: int, offset: int, start: Date, windowEnd: Date): seq<seq<Txn>>
    requires s.invoiceDay >= 1
  {
    var amounts := Split(total, |s.customers|);
    seq(|s.customers|, i requires 0 <= i < |s.customers| =>
      InvoiceAndPayment(s, offset, start, windowEnd, s.customers[i], amounts[i]))
  }

  function AccrualMonth(s: RevenueStream, offset: int, start: Date, windowEnd: Date): seq<Txn>
    requires UsableDay(CurveAt(s.monthlyRecognized, offset), s.invoiceDay)
  {
    var total := CurveAt(s.monthlyRecognized, offset);
    if total > 0 then Flatten(AccrualParts(s, total, offset, start, windowEnd)) else []
  }

  function AccrualMonths(s: RevenueStream, start: Date, months: int, windowEnd: Date): seq<seq<Txn>>
    requires ValidStream(s, months) && s.collection.kind != Prepaid
  {
    seq(Count(months), offset requires 0 <= offset < Count(months) => AccrualMonth(s, offset, start, windowEnd))
  }

  method EmitAccrualRevenue(s: RevenueStream, total: int, offset: int, start: Date, windowEnd: Date)
    returns (out: seq<Txn>)
    requires s.invoiceDay >= 1
    ensures out == Flatten(AccrualParts(s, total, offset, start, windowEnd))
  {
    out := [];
    var invoiceDate := MonthDate(start, offset, s.invoiceDay);
    var lag := LagDays(s.collection, offset);
    var amounts := Split(total, |s.customers|);
    ghost var parts := AccrualParts(s, total, offset, start, windowEnd);
    for i := 0 to |s.customers|
      invariant out == Flatten(parts[..i])
    {
      FlattenSnoc(parts, i);
      if amounts[i] > 0 {
        out := out + [Entry(invoiceDate, Invoice, Some(s.customers[i]), s.arAccount, s.revenueAccount, amounts[i])];
        var payDate := AddDays(invoiceDate, lag);
        if !Earlier(windowEnd, payDate) {
          out := out + [Entry(payDate, Payment, Some(s.customers[i]), s.cashAccount, s.arAccount, amounts[i])];
        }
      }
    }
    assert parts[..|s.customers|] == parts;
  }

  // ---------------------------------------------------------------------
  // Prepaid revenue: cash per billing period, recognition month by month
  // ---------------------------------------------------------------------

  function Cadence(next: int, every: int, months: int): seq<int>
    requires every >= 1 || next >= months
    decreases months - next
  {
    if next >= months then [] else [next] + Cadence(next + every, every, months)
  }

  function BillingOffsets(pol: CollectionPolicy, months: int): seq<int>
    requires pol.billEvery >= 1 || FirstBilling(pol) >= months
  {
    [0] + Cadence(FirstBilling(pol), pol.billEvery, months)
  }

  method ComputeBillingOffsets(pol: CollectionPolicy, months: int) returns (offs: seq<int>)
    requires pol.billEvery >= 1 || FirstBilling(pol) >= months
    ensures offs == BillingOffsets(pol, months)
  {
    offs := [0];
    var next := if pol.billPhase > 0 then pol.billPhase else pol.billEvery;
    while next < months
      invariant pol.billEvery >= 1 || next >= months
      invariant BillingOffsets(pol, months) == offs + Cadence(next, pol.billEvery, months)
      decreases months - next
    {
      offs := offs + [next];
      next := next + pol.billEvery;
    }
  }

  function PeriodEnd(offs: seq<int>, idx: nat, every: int): int
    requires idx < |offs|
  {
    if idx + 1 < |offs| then offs[idx + 1] else offs[idx] + every
  }

  /** What one month of service costs: past the window, the last rate holds. */
  function BilledRate(curve: Curve, months: int, m: int): int {
    if m < months then CurveAt(curve, m) else CurveAt(curve, months - 1)
  }

  function BilledTotal(curve: Curve, months: int, lo: int, hi: int): int
    decreases hi - lo
  {
    if hi <= lo then 0 else BilledRate(curve, months, lo) + BilledTotal(curve, months, lo + 1, hi)
  }

  function Recognition(s: RevenueStream, start: Date, months: int, m: int): seq<Txn> {
    var amount := CurveAt(s.monthlyRecognized, m);
    if m >= months || amount <= 0 then []
    else [Entry(MonthDate(start, m, 28), JournalEntry, None, s.deferredAccount, s.revenueAccount, amount)]
  }

  function Recognitions(s: RevenueStream, start: Date, months: int, lo: int, hi: int): seq<seq<Txn>> {
    seq(Count(hi - lo), k => Recognition(s, start, months, lo + k))
  }

  function BillingAgent(s: RevenueStream): Option<string> {
    if s.customers == [] then None else Some(s.customers[0])
  }

  function BillingPeriod(s: RevenueStream, start: Date, months: int, lo: int, hi: int): seq<Txn> {
    var cash := BilledTotal(s.monthlyRecognized, months, lo, hi);
    if cash <= 0 then []
    else [Entry(MonthDate(start, lo, 1), Payment, BillingAgent(s), s.cashAccount, s.deferredAccount, cash)]
         + Flatten(Recognitions(s, start, months, lo, hi))
  }

  function BillingPeriods(s: RevenueStream, start: Date, months: int, offs: seq<int>): seq<seq<Txn>> {
    seq(|offs|, idx requires 0 <= idx < |offs| =>
      BillingPeriod(s, start, months, offs[idx], PeriodEnd(offs, idx, s.collection.billEvery)))
  }

  function PrepaidRevenue(s: RevenueStream, start: Date, months: int): seq<Txn>
    requires ValidStream(s, months) && s.collection.kind == Prepaid
  {
    Flatten(BillingPeriods(s, start, months, BillingOffsets(s.collection, months)))
  }

  method EmitBillingPeriod(s: RevenueStream, start: Date, months: int, lo: int, hi: int)
    returns (out: seq<Txn>)
    ensures out == BillingPeriod(s, start, months, lo, hi)
  {
    out := [];
    var cash := BilledTotal(s.monthlyRecognized, months, lo, hi);
    if cash > 0 {
      var billing := Entry(MonthDate(start, lo, 1), Payment, BillingAgent(s), s.cashAccount, s.deferredAccount, cash);
      out := [billing];
      ghost var parts := Recognitions(s, start, months, lo, hi);
      for k := 0 to Count(hi - lo)
        invariant out == [billing] + Flatten(parts[..k])
      {
        FlattenSnoc(parts, k);
        assert parts[k] == Recognition(s, start, months, lo + k);
        var amount := CurveAt(s.monthlyRecognized, lo + k);
        if lo + k < months && amount > 0 {
          out := out + [Entry(MonthDate(start, lo + k, 28), JournalEntry, None,
                              s.deferredAccount, s.revenueAccount, amount)];
        }
      }
      assert parts[..|parts|] == parts;
    }
  }

  method EmitPrepaidRevenue(s: RevenueStream, start: Date, months: int) returns (out: seq<Txn>)
    requires ValidStream(s, months) && s.collection.kind == Prepaid
    ensures out == PrepaidRevenue(s, start, months)
  {
    out := [];
    var offs := ComputeBillingOffsets(s.collection, months);
    ghost var periods := BillingPeriods(s, start, months, offs);
    for idx := 0 to |offs|
      invariant out == Flatten(periods[..idx])
    {
      FlattenSnoc(periods, idx);
      var next := if idx + 1 < |offs| then offs[idx + 1] else offs[idx] + s.collection.billEvery;
      var period := EmitBillingPeriod(s, start, months, offs[idx], next);
      out := out + period;
    }
    assert periods[..|offs|] == periods;
  }

  function Revenue(s: RevenueStream, start: Date, months: int, windowEnd: Date): seq<Txn>
    requires ValidStream(s, months)
  {
    if s.collection.kind == Prepaid then PrepaidRevenue(s, start, months)
    else Flatten(AccrualMonths(s, start, months, windowEnd))
  }

  method EmitRevenue(s: RevenueStream, start: Date, months: int, windowEnd: Date) returns (out: seq<Txn>)
    requires ValidStream(s, months)
    ensures out == Revenue(s, start, months, windowEnd)
  {
    if s.collection.kind == Prepaid {
      out := EmitPrepaidRevenue(s, start, months);
      return;
    }
    out := [];
    ghost var parts := AccrualMonths(s, start, months, windowEnd);
    for offset := 0 to Count(months)
      invariant out == Flatten(parts[..offset])
    {
      FlattenSnoc(parts, offset);
      var total := CurveAt(s.monthlyRecognized, offset);
      if total > 0 {
        var month := EmitAccrualRevenue(s, total, offset, start, windowEnd);
        out := out + month;
      }
    }
    assert parts[..Count(months)] == parts;
  }

  // ---------------------------------------------------------------------
  // Inventory, expenses
  // ---------------------------------------------------------------------

  function InventoryMonth(c: InventoryCycle, start: Date, offset: int): seq<Txn>
    requires ValidMonth(c, offset)
  {
    var buy := CurveAt(c.monthlyPurchase, offset);
    var use := CurveAt(c.monthlyConsumption, offset);
    (if buy > 0 then
       [Entry(MonthDate(start, offset, c.purchaseDay), BillPayment, Some(c.vendor),
              c.inventoryAccount, c.cashAccount, buy)]
     else [])
    + (if use > 0 then
         [Entry(MonthDate(start, offset, c.consumeDay), JournalEntry, None,
                c.cogsAccount, c.inventoryAccount, use)]
       else [])
  }

  function InventoryMonths(c: InventoryCycle, start: Date, months: int): seq<seq<Txn>>
    requires ValidCycle(c, months)
  {
    seq(Count(months), offset requires 0 <= offset < Count(months) => InventoryMonth(c, start, offset))
  }

  method EmitInventory(c: InventoryCycle, start: Date, months: int) returns (out: seq<Txn>)
    requires ValidCycle(c, months)
    ensures out == Flatten(InventoryMonths(c, start, months))
  {
    out := [];
    ghost var parts := InventoryMonths(c, start, months);
    for offset := 0 to Count(months)
      invariant out == Flatten(parts[..offset])
    {
      FlattenSnoc(parts, offset);
      var buy := CurveAt(c.monthlyPurchase, offset);
      if buy > 0 {
        out := out + [Entry(MonthDate(start, offset, c.purchaseDay), BillPayment, Some(c.vendor),
                            c.inventoryAccount, c.cashAccount, buy)];
      }
      var use := CurveAt(c.monthlyConsumption, offset);
      if use > 0 {
        out := out + [Entry(MonthDate(start, offset, c.consumeDay), JournalEntry, None,
                            c.cogsAccount, c.inventoryAccount, use)];
      }
    }
    assert parts[..Count(months)] == parts;
  }

  // `if exp.vendor`: an empty name counts as no vendor.
  function BillKind(vendor: Option<string>): TxnType {
    if vendor.Some? && vendor.value != "" then BillPayment else JournalEntry
  }

  function ExpenseMonth(e: ExpenseRhythm, start: Date, offset: int): seq<Txn>
    requires UsableDay(MonthlyAt(e.monthly, offset), e.day)
  {
    var amount := MonthlyAt(e.monthly, offset);
    if amount <= 0 then []
    else [Entry(MonthDate(start, offset, e.day), BillKind(e.vendor), e.vendor,
                e.expenseAccount, e.cashAccount, amount)]
  }

  function ExpenseMonths(e: ExpenseRhythm, start: Date, months: int): seq<seq<Txn>>
    requires ValidRhythm(e, months)
  {
    seq(Count(months), offset requires 0 <= offset < Count(months) => ExpenseMonth(e, start, offset))
  }

  method EmitExpense(e: ExpenseRhythm, start: Date, months: int) returns (out: seq<Txn>)
    requires ValidRhythm(e, months)
    ensures out == Flatten(ExpenseMonths(e, start, months))
  {
    out := [];
    ghost var parts := ExpenseMonths(e, start, months);
    for offset := 0 to Count(months)
      invariant out == Flatten(parts[..offset])
    {
      FlattenSnoc(parts, offset);
      var amount := MonthlyAt(e.monthly, offset);
      if amount > 0 {
        out := out + [Entry(MonthDate(start, offset, e.day), BillKind(e.vendor), e.vendor,
                            e.expenseAccount, e.cashAccount, amount)];
      }
    }
    assert parts[..Count(months)] == parts;
  }

  // ---------------------------------------------------------------------
  // Capex and prepaids: bought once, then spread month by month until the
  // schedule block owns the remaining periods
  // ---------------------------------------------------------------------

  function CapexPurchase(c: CapexItem, start: Date, months: int): seq<Txn> {
    if !c.inOpening && 0 <= c.purchaseOffset < months
    then [Entry(MonthDate(start, c.purchaseOffset, 5), BillKind(c.vendor), c.vendor,
                c.assetAccount, c.cashAccount, c.cost)]
    else []
  }

  function FirstDepreciation(c: CapexItem): int {
    Max(if c.inOpening then 0 else c.purchaseOffset + 1, 0)
  }

  function Depreciations(c: CapexItem, start: Date, months: int): seq<seq<Txn>>
    requires c.lifeMonths != 0
  {
    var first := FirstDepreciation(c);
    seq(Count(ScheduleOwnedFrom(months) - first), k =>
      [Entry(MonthDate(start, first + k, 31), JournalEntry, None, c.depExpenseAccount,
             c.accumDepAccount, FloorDiv(c.cost, c.lifeMonths))])
  }

  function Capex(c: CapexItem, start: Date, months: int): seq<Txn>
    requires c.lifeMonths != 0
  {
    CapexPurchase(c, start, months) + Flatten(Depreciations(c, start, months))
  }

  method EmitCapex(c: CapexItem, start: Date, months: int) returns (out: seq<Txn>)
    requires c.lifeMonths != 0
    ensures out == Capex(c, start, months)
  {
    out := [];
    if !c.inOpening && 0 <= c.purchaseOffset < months {
      out := out + [Entry(MonthDate(start, c.purchaseOffset, 5), BillKind(c.vendor), c.vendor,
                          c.assetAccount, c.cashAccount, c.cost)];
    }
    var monthly := FloorDiv(c.cost, c.lifeMonths);
    var first := Max(if c.inOpening then 0 else c.purchaseOffset + 1, 0);
    ghost var parts := Depreciations(c, start, months);
    for k := 0 to Count(ScheduleOwnedFrom(months) - first)
      invariant out == CapexPurchase(c, start, months) + Flatten(parts[..k])
    {
      FlattenSnoc(parts, k);
      out := out + [Entry(MonthDate(start, first + k, 31), JournalEntry, None, c.depExpenseAccount,
                          c.accumDepAccount, monthly)];
    }
    assert parts[..|parts|] == parts;
  }

  function PrepaidPurchase(p: PrepaidItem, start: Date, months: int): seq<Txn> {
    if 0 <= p.purchaseOffset < months
    then [Entry(MonthDate(start, p.purchaseOffset, 3), BillKind(p.vendor), p.vendor,
                p.prepaidAccount, p.cashAccount, p.cost)]
    else []
  }

  /** The months whose amortization the stream books: [first, last). */
  function AmortizedFrom(p: PrepaidItem): int { Max(p.purchaseOffset, 0) }

  function AmortizedTo(p: PrepaidItem, months: int): int {
    Min(p.purchaseOffset + p.lifeMonths, ScheduleOwnedFrom(months))
  }

  function Amortization(p: PrepaidItem, start: Date, m: int): Txn
    requires p.lifeMonths != 0
  {
    Entry(MonthDate(start, m, 27), JournalEntry, None, p.expenseAccount, p.prepaidAccount,
          FloorDiv(p.cost, p.lifeMonths))
  }

  function Amortizations(p: PrepaidItem, start: Date, months: int): seq<seq<Txn>>
    requires p.lifeMonths != 0
  {
    var first := AmortizedFrom(p);
    seq(Count(AmortizedTo(p, months) - first), k => [Amortization(p, start, first + k)])
  }

  function PrepaidStream(p: PrepaidItem, start: Date, months: int): seq<Txn>
    requires p.lifeMonths != 0
  {
    PrepaidPurchase(p, start, months) + Flatten(Amortizations(p, start, months))
  }

  method EmitPrepaid(p: PrepaidItem, start: Date, months: int) returns (out: seq<Txn>)
    requires p.lifeMonths != 0
    ensures out == PrepaidStream(p, start, months)
  {
    out := [];
    if 0 <= p.purchaseOffset < months {
      out := out + [Entry(MonthDate(start, p.purchaseOffset, 3), BillKind(p.vendor), p.vendor,
                          p.prepaidAccount, p.cashAccount, p.cost)];
    }
    var monthly := FloorDiv(p.cost, p.lifeMonths);
    var first := Max(p.purchaseOffset, 0);
    var last := Min(p.purchaseOffset + p.lifeMonths, ScheduleOwnedFrom(months));
    ghost var parts := Amortizations(p, start, months);
    for k := 0 to Count(last - first)
      invariant out == PrepaidPurchase(p, start, months) + Flatten(parts[..k])
    {
      FlattenSnoc(parts, k);
      assert parts[k] == [Amortization(p, start, first + k)];
      out := out + [Entry(MonthDate(start, first + k, 27), JournalEntry, None, p.expenseAccount,
                          p.prepaidAccount, monthly)];
    }
    assert parts[..|parts|] == parts;
  }

  // ---------------------------------------------------------------------
  // The whole scenario
  // ---------------------------------------------------------------------

  function WindowEnd(sc: Scenario, start: Date): Date { MonthDate(start, sc.months - 1, 31) }

  function RevenueFlows(sc: Scenario, start: Date): seq<seq<Txn>>
    requires ValidScenario(sc)
  {
    seq(|sc.revenue|, i requires 0 <= i < |sc.revenue| =>
      Revenue(sc.revenue[i], start, sc.months, WindowEnd(sc, start)))
  }

  function InventoryFlows(sc: Scenario, start: Date): seq<seq<Txn>>
    requires ValidScenario(sc)
  {
    seq(|sc.inventory|, i requires 0 <= i < |sc.inventory| =>
      Flatten(InventoryMonths(sc.inventory[i], start, sc.months)))
  }

  function ExpenseFlows(sc: Scenario, start: Date): seq<seq<Txn>>
    requires ValidScenario(sc)
  {
    seq(|sc.expenses|, i requires 0 <= i < |sc.expenses| =>
      Flatten(ExpenseMonths(sc.expenses[i], start, sc.months)))
  }

  function CapexFlows(sc: Scenario, start: Date): seq<seq<Txn>>
    requires ValidScenario(sc)
  {
    seq(|sc.capex|, i requires 0 <= i < |sc.capex| => Capex(sc.capex[i], start, sc.months))
  }

  function PrepaidFlows(sc: Scenario, start: Date): seq<seq<Txn>>
    requires ValidScenario(sc)
  {
    seq(|sc.prepaids|, i requires 0 <= i < |sc.prepaids| =>
      PrepaidStream(sc.prepaids[i], start, sc.months))
  }

  /** What the flows other than revenue lower to. */
  function OtherFlows(sc: Scenario, start: Date): seq<Txn>
    requires ValidScenario(sc)
  {
    Flatten(InventoryFlows(sc, start)) + Flatten(ExpenseFlows(sc, start))
    + Flatten(CapexFlows(sc, start)) + Flatten(PrepaidFlows(sc, start))
  }

  function Unsorted(sc: Scenario, start: Date): seq<Txn>
    requires ValidScenario(sc)
  {
    sc.opening + Flatten(RevenueFlows(sc, start)) + OtherFlows(sc, start)
  }

  function Emitted(sc: Scenario, start: Date): seq<Txn>
    requires ValidScenario(sc)
  {
    Sort(Unsorted(sc, start))
  }

  method EmitFlows(sc: Scenario, start: Date) returns (out: seq<Txn>)
    requires ValidScenario(sc)
    ensures out == OtherFlows(sc, start)
  {
    out := [];
    ghost var flows := InventoryFlows(sc, start);
    for i := 0 to |sc.inventory|
      invariant out == Flatten(flows[..i])
    {
      var part := EmitInventory(sc.inventory[i], start, sc.months);
      FlattenSnoc(flows, i);
      out := out + part;
    }
    assert flows[..|flows|] == flows;
    ghost var before := out;
    flows := ExpenseFlows(sc, start);
    for i := 0 to |sc.expenses|
      invariant out == before + Flatten(flows[..i])
    {
      var part := EmitExpense(sc.expenses[i], start, sc.months);
      FlattenOnto(before, flows, i, part);
      out := out + part;
    }
    assert flows[..|flows|] == flows;
    before := out;
    flows := CapexFlows(sc, start);
    for i := 0 to |sc.capex|
      invariant out == before + Flatten(flows[..i])
    {
      var part := EmitCapex(sc.capex[i], start, sc.months);
      FlattenOnto(before, flows, i, part);
      out := out + part;
    }
    assert flows[..|flows|] == flows;
    before := out;
    flows := PrepaidFlows(sc, start);
    for i := 0 to |sc.prepaids|
      invariant out == before + Flatten(flows[..i])
    {
      var part := EmitPrepaid(sc.prepaids[i], start, sc.months);
      FlattenOnto(before, flows, i, part);
      out := out + part;
    }
    assert flows[..|flows|] == flows;
  }

  method Emit(sc: Scenario, start: Date) returns (txns: seq<Txn>)
    requires ValidScenario(sc)
    ensures txns == Emitted(sc, start)
  {
    var windowEnd := MonthDate(start, sc.months - 1, 31);
    txns := sc.opening;
    ghost var flows := RevenueFlows(sc, start);
    for i := 0 to |sc.revenue|
      invariant txns == sc.opening + Flatten(flows[..i])
    {
      var part := EmitRevenue(sc.revenue[i], start, sc.months, windowEnd);
      FlattenOnto(sc.opening, flows, i, part);
      txns := txns + part;
    }
    assert flows[..|flows|] == flows;
    var others := EmitFlows(sc, start);
    txns := Sort(txns + others);
  }

  // ---------------------------------------------------------------------
  // Every entry balances
  // ---------------------------------------------------------------------

  /** `validate`: true exactly when every entry balances. */
  method Validate(txns: seq<Txn>) returns (ok: bool)
    ensures ok <==> forall t :: t in txns ==> Balanced(t)
  {
    ok := true;
    for i := 0 to |txns|
      invariant ok <==> forall j :: 0 <= j < i ==> Balanced(txns[j])
    {
      if Debits(txns[i].lines) != Credits(txns[i].lines) {
        ok := false;
      }
    }
  }

  lemma TwoLeggedBalances(t: Txn)
    requires TwoLegged(t)
    ensures Balanced(t) && Debits(t.lines) == t.lines[0].debit
  {
    assert t.lines == [t.lines[0], t.lines[1]];
    assert Debits(t.lines[1..]) == t.lines[1].debit + Debits([]);
    assert Credits(t.lines[1..]) == t.lines[1].credit + Credits([]);
  }

  lemma TwoLeggedNet(codes: set<string>, t: Txn)
    requires TwoLegged(t)
    ensures NetOn(codes, t.lines) ==
            (if t.lines[0].code in codes then t.lines[0].debit else 0)
            - (if t.lines[1].code in codes then t.lines[0].debit else 0)
  {
    assert NetOn(codes, t.lines[1..]) ==
           (if t.lines[1].code in codes then -t.lines[1].credit else 0) + NetOn(codes, t.lines[1..][1..]);
  }
}

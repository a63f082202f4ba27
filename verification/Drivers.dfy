// The scenario vocabulary: declarative flows with a recognition clock and a
// settlement clock, and the dated double-entry tuples they are lowered to.
// Amounts are integer cents; curves are keyed by month offset, missing is 0.

module Drivers {
  import opened Basics
  import opened Calendar

  type Curve = map<int, int>

  function CurveAt(curve: Curve, offset: int): int {
    if offset in curve then curve[offset] else 0
  }

  datatype Line = Line(code: string, debit: int, credit: int)

  // Any other tag in an authored opening behaves as a journal entry.
  datatype TxnType = Invoice | Payment | BillPayment | JournalEntry

  datatype Txn = Txn(date: Date, kind: TxnType, agent: Option<string>, lines: seq<Line>)

  datatype PolicyKind = Immediate | NetTerms | Prepaid

  datatype CollectionPolicy = CollectionPolicy(
    kind: PolicyKind,
    defaultLagDays: int,
    lagDaysByOffset: map<int, int>,
    billEvery: int,
    billPhase: int)

  datatype RevenueStream = RevenueStream(
    customers: seq<string>,
    revenueAccount: string,
    monthlyRecognized: Curve,
    collection: CollectionPolicy,
    arAccount: string,
    deferredAccount: string,
    cashAccount: string,
    invoiceDay: int)

  datatype InventoryCycle = InventoryCycle(
    vendor: string,
    inventoryAccount: string,
    cogsAccount: string,
    monthlyPurchase: Curve,
    monthlyConsumption: Curve,
    cashAccount: string,
    purchaseDay: int,
    consumeDay: int)

  datatype Monthly = Flat(amount: int) | Varying(curve: Curve)

  datatype ExpenseRhythm = ExpenseRhythm(
    expenseAccount: string,
    monthly: Monthly,
    vendor: Option<string>,
    cashAccount: string,
    day: int)

  datatype CapexItem = CapexItem(
    assetAccount: string,
    accumDepAccount: string,
    depExpenseAccount: string,
    cost: int,
    lifeMonths: int,
    purchaseOffset: int,
    vendor: Option<string>,
    cashAccount: string,
    inOpening: bool)

  datatype PrepaidItem = PrepaidItem(
    prepaidAccount: string,
    expenseAccount: string,
    cost: int,
    lifeMonths: int,
    purchaseOffset: int,
    vendor: Option<string>,
    cashAccount: string)

  datatype Scenario = Scenario(
    opening: seq<Txn>,
    revenue: seq<RevenueStream>,
    inventory: seq<InventoryCycle>,
    expenses: seq<ExpenseRhythm>,
    capex: seq<CapexItem>,
    prepaids: seq<PrepaidItem>,
    months: int)

  /** The first billing after the priming one. */
  function FirstBilling(pol: CollectionPolicy): int {
    if pol.billPhase > 0 then pol.billPhase else pol.billEvery
  }

  function MonthlyAt(monthly: Monthly, offset: int): int {
    match monthly
    case Flat(amount) => amount
    case Varying(curve) => CurveAt(curve, offset)
  }

  // What the engine's arithmetic needs of each flow, and no more: `date` refuses a day
  // below 1 in a month that uses it, `//` refuses a zero life, and a billing loop that
  // starts inside the window only ends when its cadence is positive.
  predicate UsableDay(amount: int, day: int) { amount > 0 ==> day >= 1 }

  predicate ValidStream(s: RevenueStream, months: int) {
    if s.collection.kind == Prepaid
    then s.collection.billEvery >= 1 || FirstBilling(s.collection) >= months
    else forall k :: 0 <= k < months ==> UsableDay(CurveAt(s.monthlyRecognized, k), s.invoiceDay)
  }

  predicate ValidMonth(c: InventoryCycle, offset: int) {
    UsableDay(CurveAt(c.monthlyPurchase, offset), c.purchaseDay)
    && UsableDay(CurveAt(c.monthlyConsumption, offset), c.consumeDay)
  }

  predicate ValidCycle(c: InventoryCycle, months: int) {
    forall k :: 0 <= k < months ==> ValidMonth(c, k)
  }

  predicate ValidRhythm(e: ExpenseRhythm, months: int) {
    forall k :: 0 <= k < months ==> UsableDay(MonthlyAt(e.monthly, k), e.day)
  }

  predicate ValidScenario(sc: Scenario) {
    && (forall s :: s in sc.revenue ==> ValidStream(s, sc.months))
    && (forall c :: c in sc.inventory ==> ValidCycle(c, sc.months))
    && (forall e :: e in sc.expenses ==> ValidRhythm(e, sc.months))
    && (forall c :: c in sc.capex ==> c.lifeMonths != 0)
    && (forall p :: p in sc.prepaids ==> p.lifeMonths != 0)
  }

  /** Python's `//`, which floors whatever the sign of the divisor. */
  function FloorDiv(a: int, b: int): int
    requires b != 0
  {
    if b > 0 then a / b else (-a) / (-b)
  }
}

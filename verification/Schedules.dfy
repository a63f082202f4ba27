// Items bought once and spread over their life: the asset balance of a prepaid,
// and which of the transaction stream and the schedule block books each month.

module Schedules {
  import opened Basics
  import opened Calendar
  import opened Drivers
  import opened Ledger
  import opened Engine

  // ---------------------------------------------------------------------
  // The asset balance of a prepaid
  // ---------------------------------------------------------------------

  /** Every prefix of the sorted stream leaves between nothing and the cost. */
  ghost predicate WithinCost(m: Measure, s: seq<Txn>, cost: int) {
    NeverNegative(m, s) && forall n :: 0 <= n <= |s| ==> Total(m, s[..n]) <= cost
  }

  lemma AmortizationWeighs(p: PrepaidItem, start: Date, m: int, codes: set<string>)
    requires p.lifeMonths >= 1 && p.prepaidAccount in codes && p.expenseAccount !in codes
    ensures Weigh(NetDebit(codes), Amortization(p, start, m)) == -FloorDiv(p.cost, p.lifeMonths)
  {
    TwoLeggedNet(codes, Amortization(p, start, m));
  }

  lemma AmortizationTotals(p: PrepaidItem, start: Date, months: int, codes: set<string>)
    requires p.lifeMonths >= 1
    requires p.prepaidAccount in codes && p.expenseAccount !in codes
    ensures var parts := Amortizations(p, start, months);
            var monthly := FloorDiv(p.cost, p.lifeMonths);
            && Total(NetDebit(codes), Flatten(parts)) == |parts| * -monthly
            && (forall t :: t in Flatten(parts) ==>
                  Weigh(NetDebit(codes), t) == -monthly &&
                  Key(MonthDate(start, AmortizedFrom(p), 3)) <= Key(t.date))
  {
    hide FloorDiv, Weigh;
    var m := NetDebit(codes);
    var monthly := FloorDiv(p.cost, p.lifeMonths);
    var parts: seq<seq<Txn>> := Amortizations(p, start, months);
    var totals := seq(|parts|, k => -monthly);
    forall k | 0 <= k < |parts|
      ensures Total(m, parts[k]) == totals[k]
    {
      var t := Amortization(p, start, AmortizedFrom(p) + k);
      assert parts[k] == [t];
      AmortizationWeighs(p, start, AmortizedFrom(p) + k, codes);
      assert [t][1..] == [];
    }
    FlattenTotal(m, parts, totals);
    EqualSum(totals, -monthly);
    forall t | t in Flatten(parts)
      ensures Weigh(m, t) == -monthly
      ensures Key(MonthDate(start, AmortizedFrom(p), 3)) <= Key(t.date)
    {
      var k := FlattenMember(parts, t);
      assert t == Amortization(p, start, AmortizedFrom(p) + k);
      AmortizationWeighs(p, start, AmortizedFrom(p) + k, codes);
      MonthDateMonotone(start, AmortizedFrom(p), 3, AmortizedFrom(p) + k, 27);
    }
  }

  lemma DivNonNegative(a: int, b: int)
    requires a >= 0 && b >= 1
    ensures a / b >= 0 && b * (a / b) <= a < b * (a / b) + b
  {
  }

  lemma MulMonotone(n: int, life: int, monthly: int)
    requires 0 <= n <= life && monthly >= 0
    ensures 0 <= n * monthly <= life * monthly
  {
  }

  lemma AmortizationCount(p: PrepaidItem, start: Date, months: int)
    requires p.lifeMonths >= 1 && p.purchaseOffset >= 0
    ensures |Amortizations(p, start, months)| <= p.lifeMonths
    ensures p.purchaseOffset >= months ==> Amortizations(p, start, months) == []
  {
  }

  lemma BoughtWithinCost(p: PrepaidItem, start: Date, months: int, codes: set<string>)
    requires p.lifeMonths >= 1 && p.cost >= 0 && p.purchaseOffset >= 0
    requires p.prepaidAccount in codes && p.expenseAccount !in codes && p.cashAccount !in codes
    ensures WithinCost(NetDebit(codes), Sort(PrepaidStream(p, start, months)), p.cost)
  {
    var m := NetDebit(codes);
    var parts: seq<seq<Txn>> := Amortizations(p, start, months);
    AmortizationCount(p, start, months);
    if p.purchaseOffset < months {
      var head, rest := PrepaidPurchase(p, start, months)[0], Flatten(parts);
      var monthly := FloorDiv(p.cost, p.lifeMonths);
      AmortizationTotals(p, start, months, codes);
      DivNonNegative(p.cost, p.lifeMonths);
      MulMonotone(|parts|, p.lifeMonths, monthly);
      TwoLeggedNet(codes, head);
      assert Weigh(m, head) == p.cost;
      assert PrepaidStream(p, start, months) == [head] + rest;
      hide Sort, Weigh, Total, Amortizations, PrepaidStream, Flatten;
      assert Total(m, rest) == |parts| * -monthly == -(|parts| * monthly);
      HeadCovers(m, head, rest);
      SortMembers([head] + rest);
    } else {
      assert PrepaidStream(p, start, months) == [];
    }
  }

  lemma UnboughtWithinCostIff(p: PrepaidItem, start: Date, months: int, codes: set<string>)
    requires p.lifeMonths >= 1 && p.cost >= 0 && p.purchaseOffset < 0
    requires p.prepaidAccount in codes && p.expenseAccount !in codes && p.cashAccount !in codes
    ensures WithinCost(NetDebit(codes), Sort(PrepaidStream(p, start, months)), p.cost) <==>
            AmortizedTo(p, months) <= 0 || p.cost < p.lifeMonths
  {
    var parts: seq<seq<Txn>> := Amortizations(p, start, months);
    var rest := Flatten(parts);
    assert PrepaidStream(p, start, months) == rest;
    AmortizationTotals(p, start, months, codes);
    DivNonNegative(p.cost, p.lifeMonths);
    MonthlyZeroIff(p.cost, p.lifeMonths);
    assert rest == [] <==> parts == [] by {
      if parts != [] {
        assert Amortization(p, start, AmortizedFrom(p)) in parts[0];
      }
    }
    hide Sort, Weigh, Total, Flatten;
    UnboughtBalance(NetDebit(codes), rest, FloorDiv(p.cost, p.lifeMonths), p.cost);
  }

  /** The asset stays between zero and its cost in every prefix, except when the
      item was bought before the window and the stream still amortizes it: then the
      purchase is never booked and the balance goes negative at once. */
  lemma PrepaidWithinCostIff(p: PrepaidItem, start: Date, months: int, codes: set<string>)
    requires p.lifeMonths >= 1 && p.cost >= 0
    requires p.prepaidAccount in codes && p.expenseAccount !in codes && p.cashAccount !in codes
    ensures WithinCost(NetDebit(codes), Sort(PrepaidStream(p, start, months)), p.cost) <==>
            p.purchaseOffset >= 0 || AmortizedTo(p, months) <= 0 || p.cost < p.lifeMonths
  {
    if p.purchaseOffset >= 0 {
      BoughtWithinCost(p, start, months, codes);
    } else {
      UnboughtWithinCostIff(p, start, months, codes);
    }
  }

  lemma MonthlyZeroIff(cost: int, life: int)
    requires cost >= 0 && life >= 1
    ensures cost / life == 0 <==> cost < life
  {
  }

  lemma UnboughtBalance(m: Measure, rest: seq<Txn>, monthly: int, cost: int)
    requires monthly >= 0 && cost >= 0
    requires forall t :: t in rest ==> Weigh(m, t) == -monthly
    ensures WithinCost(m, Sort(rest), cost) <==> rest == [] || monthly == 0
  {
    var z := Sort(rest);
    SortMembers(rest);
    assert forall i :: 0 <= i < |z| ==> z[i] in rest;
    forall n | 0 <= n <= |z|
      ensures Total(m, z[..n]) <= 0
      ensures monthly == 0 ==> Total(m, z[..n]) == 0
    {
      DrawnDown(m, z, n);
      if monthly == 0 {
        ZeroTotal(m, z[..n]);
      }
    }
    if rest != [] && monthly > 0 {
      assert z[..1] == [z[0]];
      assert [z[0]][1..] == [];
      assert Total(m, z[..1]) < 0;
    }
  }

  // ---------------------------------------------------------------------
  // The schedule block
  // ---------------------------------------------------------------------

  /** The window create_schedules sends for an item. */
  function ScheduleWindow(demoStart: Date, startOffset: int, lifeMonths: int): (Date, Date) {
    var start := AddMonths(demoStart, startOffset);
    (start, PrevDay(AddMonths(start, lifeMonths)))
  }

  /** The window covers exactly lifeMonths months, from the first day of the start
      month to the last day of its last one. */
  lemma ScheduleWindowMonths(demoStart: Date, startOffset: int, lifeMonths: int)
    ensures var w := ScheduleWindow(demoStart, startOffset, lifeMonths);
            && OffsetOf(w.0, demoStart) == startOffset && w.0.day == 1
            && OffsetOf(w.1, demoStart) == startOffset + lifeMonths - 1
            && w.1.day == DaysInMonth(w.1.year, w.1.month)
  {
  }

  /** The obligation the schedule leaves pending for a month: months before the
      close target are closed when it is created, and are voided as historical. */
  function PendingAmount(demoStart: Date, months: int, startOffset: int, lifeMonths: int, monthly: int, m: int): int {
    var w := ScheduleWindow(demoStart, startOffset, lifeMonths);
    if OffsetOf(w.0, demoStart) <= m <= OffsetOf(w.1, demoStart) && m >= ScheduleOwnedFrom(months)
    then monthly else 0
  }

  /** What the stream books on an account in month m. */
  function BookedIn(s: seq<Txn>, account: string, start: Date, m: int): int {
    Total(During(NetDebit({account}), start, m, m), s)
  }

  /** A flow lowered month by month books in each month what that month's part does. */
  lemma MonthsBooked(parts: seq<seq<Txn>>, account: string, start: Date, first: int, m: int)
    requires forall k :: 0 <= k < |parts| ==> forall t :: t in parts[k] ==> OffsetOf(t.date, start) == first + k
    ensures BookedIn(Flatten(parts), account, start, m) ==
            if first <= m < first + |parts| then Total(NetDebit({account}), parts[m - first]) else 0
  {
    hide Total, OffsetOf;
    var totals := seq(|parts|, k requires 0 <= k < |parts| =>
      if first + k == m then Total(NetDebit({account}), parts[k]) else 0);
    forall k | 0 <= k < |parts|
      ensures Total(During(NetDebit({account}), start, m, m), parts[k]) == totals[k]
    {
      if first + k == m {
        DuringAll(NetDebit({account}), start, m, m, parts[k]);
      } else {
        DuringNone(NetDebit({account}), start, m, m, parts[k]);
      }
    }
    FlattenTotal(During(NetDebit({account}), start, m, m), parts, totals);
    if first <= m < first + |parts| {
      SingleSum(totals, m - first);
    } else {
      ZeroSum(totals);
    }
  }

  lemma SpreadBooked(parts: seq<seq<Txn>>, account: string, start: Date, first: int, amount: int, m: int)
    requires forall k :: 0 <= k < |parts| ==>
               && |parts[k]| == 1
               && OffsetOf(parts[k][0].date, start) == first + k
               && NetOn({account}, parts[k][0].lines) == amount
    ensures BookedIn(Flatten(parts), account, start, m) == if first <= m < first + |parts| then amount else 0
  {
    MonthsBooked(parts, account, start, first, m);
    if first <= m < first + |parts| {
      var part := parts[m - first];
      assert part[1..] == [];
      assert Weigh(NetDebit({account}), part[0]) == amount;
    }
  }

  /** Each month the inventory account takes up what is bought less what is used, cost
      of goods sold exactly what is used, and cash gives up what is bought. */
  lemma InventoryBooked(c: InventoryCycle, start: Date, months: int, m: int)
    requires ValidCycle(c, months) && 0 <= m < months
    requires c.inventoryAccount != c.cashAccount && c.cogsAccount !in {c.inventoryAccount, c.cashAccount}
    ensures var buy := Max(CurveAt(c.monthlyPurchase, m), 0);
            var use := Max(CurveAt(c.monthlyConsumption, m), 0);
            var stream := Flatten(InventoryMonths(c, start, months));
            && BookedIn(stream, c.inventoryAccount, start, m) == buy - use
            && BookedIn(stream, c.cogsAccount, start, m) == use
            && BookedIn(stream, c.cashAccount, start, m) == -buy
  {
    InventoryMonthTotals(c, start, m);
    hide InventoryMonth, InventoryMonths, BookedIn, Flatten, Total;
    InventoryMonthsBook(c, start, months, c.inventoryAccount, m);
    InventoryMonthsBook(c, start, months, c.cogsAccount, m);
    InventoryMonthsBook(c, start, months, c.cashAccount, m);
  }

  lemma InventoryMonthsBook(c: InventoryCycle, start: Date, months: int, account: string, m: int)
    requires ValidCycle(c, months) && 0 <= m < months
    ensures BookedIn(Flatten(InventoryMonths(c, start, months)), account, start, m) ==
            Total(NetDebit({account}), InventoryMonth(c, start, m))
  {
    var parts: seq<seq<Txn>> := InventoryMonths(c, start, months);
    hide InventoryMonth, BookedIn, Flatten, Total, OffsetOf;
    forall k, t | 0 <= k < |parts| && t in parts[k]
      ensures OffsetOf(t.date, start) == k
    {
      InventoryMonthDates(c, start, k);
    }
    MonthsBooked(parts, account, start, 0, m);
  }

  lemma InventoryMonthDates(c: InventoryCycle, start: Date, k: int)
    requires ValidMonth(c, k)
    ensures forall t :: t in InventoryMonth(c, start, k) ==> OffsetOf(t.date, start) == k
  {
    if c.purchaseDay >= 1 {
      OffsetOfMonthDate(start, k, c.purchaseDay);
    }
    if c.consumeDay >= 1 {
      OffsetOfMonthDate(start, k, c.consumeDay);
    }
  }

  lemma InventoryMonthTotals(c: InventoryCycle, start: Date, k: int)
    requires ValidMonth(c, k)
    requires c.inventoryAccount != c.cashAccount && c.cogsAccount !in {c.inventoryAccount, c.cashAccount}
    ensures Total(NetDebit({c.inventoryAccount}), InventoryMonth(c, start, k)) ==
            Max(CurveAt(c.monthlyPurchase, k), 0) - Max(CurveAt(c.monthlyConsumption, k), 0)
    ensures Total(NetDebit({c.cogsAccount}), InventoryMonth(c, start, k)) == Max(CurveAt(c.monthlyConsumption, k), 0)
    ensures Total(NetDebit({c.cashAccount}), InventoryMonth(c, start, k)) == -Max(CurveAt(c.monthlyPurchase, k), 0)
  {
    var month := InventoryMonth(c, start, k);
    forall account | account in {c.inventoryAccount, c.cogsAccount, c.cashAccount}
      ensures Total(NetDebit({account}), month) ==
              (if account == c.inventoryAccount
               then Max(CurveAt(c.monthlyPurchase, k), 0) - Max(CurveAt(c.monthlyConsumption, k), 0)
               else if account == c.cogsAccount then Max(CurveAt(c.monthlyConsumption, k), 0)
               else -Max(CurveAt(c.monthlyPurchase, k), 0))
    {
      SmallTotal(NetDebit({account}), month);
      if |month| > 0 { TwoLeggedNet({account}, month[0]); }
      if |month| > 1 { TwoLeggedNet({account}, month[1]); }
    }
  }

  lemma SmallTotal(m: Measure, s: seq<Txn>)
    requires |s| <= 2
    ensures Total(m, s) == (if |s| > 0 then Weigh(m, s[0]) else 0) + (if |s| > 1 then Weigh(m, s[1]) else 0)
  {
  }

  /** Each month the expense account takes up the month's amount, none when it is not
      positive, and cash gives it up. */
  lemma ExpenseBooked(e: ExpenseRhythm, start: Date, months: int, m: int)
    requires ValidRhythm(e, months) && 0 <= m < months && e.expenseAccount != e.cashAccount
    ensures var amount := Max(MonthlyAt(e.monthly, m), 0);
            var stream := Flatten(ExpenseMonths(e, start, months));
            && BookedIn(stream, e.expenseAccount, start, m) == amount
            && BookedIn(stream, e.cashAccount, start, m) == -amount
  {
    ExpenseMonthsBook(e, start, months, e.expenseAccount, m);
    ExpenseMonthsBook(e, start, months, e.cashAccount, m);
    hide BookedIn, Flatten, ExpenseMonths;
    var month := ExpenseMonth(e, start, m);
    SmallTotal(NetDebit({e.expenseAccount}), month);
    SmallTotal(NetDebit({e.cashAccount}), month);
    if month != [] {
      TwoLeggedNet({e.expenseAccount}, month[0]);
      TwoLeggedNet({e.cashAccount}, month[0]);
    }
  }

  lemma ExpenseMonthsBook(e: ExpenseRhythm, start: Date, months: int, account: string, m: int)
    requires ValidRhythm(e, months) && 0 <= m < months
    ensures BookedIn(Flatten(ExpenseMonths(e, start, months)), account, start, m) ==
            Total(NetDebit({account}), ExpenseMonth(e, start, m))
  {
    var parts: seq<seq<Txn>> := ExpenseMonths(e, start, months);
    hide BookedIn, Flatten, Total, OffsetOf, ExpenseMonth;
    forall k, t | 0 <= k < |parts| && t in parts[k]
      ensures OffsetOf(t.date, start) == k
    {
      ExpenseMonthDates(e, start, k);
    }
    MonthsBooked(parts, account, start, 0, m);
  }

  lemma ExpenseMonthDates(e: ExpenseRhythm, start: Date, k: int)
    requires UsableDay(MonthlyAt(e.monthly, k), e.day)
    ensures forall t :: t in ExpenseMonth(e, start, k) ==> OffsetOf(t.date, start) == k
  {
    if e.day >= 1 {
      OffsetOfMonthDate(start, k, e.day);
    }
  }

  /** Each month of a prepaid's life is booked by exactly one of the stream and the
      pending part of its schedule, and no other month by either. */
  lemma PrepaidBookedOnce(p: PrepaidItem, start: Date, months: int, m: int)
    requires p.lifeMonths >= 1 && m >= 0
    requires p.expenseAccount != p.prepaidAccount && p.expenseAccount != p.cashAccount
    ensures var monthly := FloorDiv(p.cost, p.lifeMonths);
            var inLife := p.purchaseOffset <= m < p.purchaseOffset + p.lifeMonths;
            var booked := BookedIn(PrepaidStream(p, start, months), p.expenseAccount, start, m);
            var pending := PendingAmount(start, months, p.purchaseOffset, p.lifeMonths, monthly, m);
            && booked == (if inLife && m < ScheduleOwnedFrom(months) then monthly else 0)
            && pending == (if inLife && m >= ScheduleOwnedFrom(months) then monthly else 0)
  {
    var monthly := FloorDiv(p.cost, p.lifeMonths);
    var measure := During(NetDebit({p.expenseAccount}), start, m, m);
    var parts: seq<seq<Txn>> := Amortizations(p, start, months);
    forall k | 0 <= k < |parts|
      ensures |parts[k]| == 1
      ensures OffsetOf(parts[k][0].date, start) == AmortizedFrom(p) + k
      ensures NetOn({p.expenseAccount}, parts[k][0].lines) == monthly
    {
      var t := Amortization(p, start, AmortizedFrom(p) + k);
      assert parts[k] == [t];
      OffsetOfMonthDate(start, AmortizedFrom(p) + k, 27);
      TwoLeggedNet({p.expenseAccount}, t);
    }
    SpreadBooked(parts, p.expenseAccount, start, AmortizedFrom(p), monthly, m);
    var purchase := PrepaidPurchase(p, start, months);
    if purchase != [] {
      TwoLeggedNet({p.expenseAccount}, purchase[0]);
      assert Weigh(NetDebit({p.expenseAccount}), purchase[0]) == 0;
      assert purchase[1..] == [];
    }
    TotalConcat(measure, purchase, Flatten(parts));
    ScheduleWindowMonths(start, p.purchaseOffset, p.lifeMonths);
  }

  /** Over its life the item is spread to within lifeMonths cents of its cost. */
  lemma LifeLeavesCents(cost: int, life: int)
    requires life >= 1
    ensures 0 <= cost - life * FloorDiv(cost, life) < life
  {
  }

  /** Depreciation follows its schedule except in two places: the stream skips the
      purchase month, which the schedule voids as historical, and it goes on past
      the end of the life. */
  lemma CapexBookedOnceIff(c: CapexItem, start: Date, months: int, m: int)
    requires c.lifeMonths >= 1 && m >= 0
    requires c.depExpenseAccount !in {c.accumDepAccount, c.assetAccount, c.cashAccount}
    ensures var monthly := FloorDiv(c.cost, c.lifeMonths);
            var from := if c.inOpening then 0 else c.purchaseOffset;
            var booked := BookedIn(Capex(c, start, months), c.depExpenseAccount, start, m);
            var pending := PendingAmount(start, months, from, c.lifeMonths, monthly, m);
            booked + pending == (if from <= m < from + c.lifeMonths then monthly else 0) <==>
            || monthly == 0
            || m >= ScheduleOwnedFrom(months)
            || (m < from + c.lifeMonths && (c.inOpening || m != c.purchaseOffset))
  {
    var monthly := FloorDiv(c.cost, c.lifeMonths);
    var measure := During(NetDebit({c.depExpenseAccount}), start, m, m);
    var parts: seq<seq<Txn>> := Depreciations(c, start, months);
    var first := FirstDepreciation(c);
    forall k | 0 <= k < |parts|
      ensures |parts[k]| == 1
      ensures OffsetOf(parts[k][0].date, start) == first + k
      ensures NetOn({c.depExpenseAccount}, parts[k][0].lines) == monthly
    {
      var t := Entry(MonthDate(start, first + k, 31), JournalEntry, None, c.depExpenseAccount,
                     c.accumDepAccount, monthly);
      assert parts[k] == [t];
      OffsetOfMonthDate(start, first + k, 31);
      TwoLeggedNet({c.depExpenseAccount}, t);
    }
    SpreadBooked(parts, c.depExpenseAccount, start, first, monthly, m);
    var purchase := CapexPurchase(c, start, months);
    if purchase != [] {
      TwoLeggedNet({c.depExpenseAccount}, purchase[0]);
      assert Weigh(NetDebit({c.depExpenseAccount}), purchase[0]) == 0;
      assert purchase[1..] == [];
    }
    TotalConcat(measure, purchase, Flatten(parts));
    ScheduleWindowMonths(start, if c.inOpening then 0 else c.purchaseOffset, c.lifeMonths);
  }

  /** A flow that is bought once and then spread books in a month what the purchase does and
      what the month's entry does. */
  lemma PurchaseBooked(purchase: seq<Txn>, parts: seq<seq<Txn>>, account: string, start: Date, at: int, bought: int,
                       first: int, amount: int, m: int)
    requires |purchase| <= 1
    requires purchase != [] ==>
               OffsetOf(purchase[0].date, start) == at && NetOn({account}, purchase[0].lines) == bought
    requires forall k :: 0 <= k < |parts| ==>
               && |parts[k]| == 1
               && OffsetOf(parts[k][0].date, start) == first + k
               && NetOn({account}, parts[k][0].lines) == amount
    ensures BookedIn(purchase + Flatten(parts), account, start, m) ==
            (if purchase != [] && m == at then bought else 0) + if first <= m < first + |parts| then amount else 0
  {
    SpreadBooked(parts, account, start, first, amount, m);
    var measure := During(NetDebit({account}), start, m, m);
    TotalConcat(measure, purchase, Flatten(parts));
    if purchase != [] {
      assert purchase == [purchase[0]] && purchase[1..] == [];
      assert Weigh(NetDebit({account}), purchase[0]) == NetOn({account}, purchase[0].lines);
    }
  }

  /** What a purchase and one month's entry book on an account. */
  lemma EntryNets(account: string, t: Txn, debit: string, credit: string, amount: int)
    requires t.lines == [Line(debit, amount, 0), Line(credit, 0, amount)]
    ensures NetOn({account}, t.lines) ==
            (if account == debit then amount else 0) - (if account == credit then amount else 0)
  {
    TwoLeggedNet({account}, t);
  }

  lemma CapexBookedOn(c: CapexItem, start: Date, months: int, account: string, m: int)
    requires c.lifeMonths != 0
    ensures var bought := !c.inOpening && 0 <= c.purchaseOffset < months && m == c.purchaseOffset;
            var spread := 0 <= m < months - 2 && (c.inOpening || m > c.purchaseOffset);
            var monthly := FloorDiv(c.cost, c.lifeMonths);
            BookedIn(Capex(c, start, months), account, start, m) ==
              (if bought && account == c.assetAccount then c.cost else 0)
              - (if bought && account == c.cashAccount then c.cost else 0)
              + (if spread && account == c.depExpenseAccount then monthly else 0)
              - (if spread && account == c.accumDepAccount then monthly else 0)
  {
    var monthly := FloorDiv(c.cost, c.lifeMonths);
    var purchase, parts: seq<seq<Txn>> := CapexPurchase(c, start, months), Depreciations(c, start, months);
    var first := FirstDepreciation(c);
    var bought := (if account == c.assetAccount then c.cost else 0) - if account == c.cashAccount then c.cost else 0;
    var amount := (if account == c.depExpenseAccount then monthly else 0)
                  - if account == c.accumDepAccount then monthly else 0;
    if purchase != [] {
      OffsetOfMonthDate(start, c.purchaseOffset, 5);
      EntryNets(account, purchase[0], c.assetAccount, c.cashAccount, c.cost);
    }
    forall k | 0 <= k < |parts|
      ensures |parts[k]| == 1 && OffsetOf(parts[k][0].date, start) == first + k
      ensures NetOn({account}, parts[k][0].lines) == amount
    {
      var t := Entry(MonthDate(start, first + k, 31), JournalEntry, None, c.depExpenseAccount,
                     c.accumDepAccount, monthly);
      assert parts[k] == [t];
      OffsetOfMonthDate(start, first + k, 31);
      EntryNets(account, t, c.depExpenseAccount, c.accumDepAccount, monthly);
    }
    hide NetOn, BookedIn, MonthDate, OffsetOf;
    PurchaseBooked(purchase, parts, account, start, c.purchaseOffset, bought, first, amount, m);
  }

  /** The asset takes up the cost in the month it is bought, when that is in the window and
      not in the opening, and nothing else ever; cash gives up exactly that. Each month after
      it, up to the close target, the expense takes up a life's part of the cost, and
      accumulated depreciation is credited with it. */
  lemma CapexBooked(c: CapexItem, start: Date, months: int, m: int)
    requires c.lifeMonths != 0
    requires c.assetAccount !in {c.cashAccount, c.depExpenseAccount, c.accumDepAccount}
    requires c.cashAccount !in {c.depExpenseAccount, c.accumDepAccount} && c.depExpenseAccount != c.accumDepAccount
    ensures var stream := Capex(c, start, months);
            var cost := if !c.inOpening && m == c.purchaseOffset && 0 <= m < months then c.cost else 0;
            var spread := if 0 <= m < months - 2 && (c.inOpening || m > c.purchaseOffset)
                          then FloorDiv(c.cost, c.lifeMonths) else 0;
            && BookedIn(stream, c.assetAccount, start, m) == cost
            && BookedIn(stream, c.cashAccount, start, m) == -cost
            && BookedIn(stream, c.depExpenseAccount, start, m) == spread
            && BookedIn(stream, c.accumDepAccount, start, m) == -spread
  {
    hide Capex, BookedIn, FloorDiv;
    CapexBookedOn(c, start, months, c.assetAccount, m);
    CapexBookedOn(c, start, months, c.cashAccount, m);
    CapexBookedOn(c, start, months, c.depExpenseAccount, m);
    CapexBookedOn(c, start, months, c.accumDepAccount, m);
  }

  lemma PrepaidBookedOn(p: PrepaidItem, start: Date, months: int, account: string, m: int)
    requires p.lifeMonths != 0
    ensures var bought := 0 <= p.purchaseOffset < months && m == p.purchaseOffset;
            var spread := 0 <= m < months - 2 && p.purchaseOffset <= m < p.purchaseOffset + p.lifeMonths;
            var monthly := FloorDiv(p.cost, p.lifeMonths);
            BookedIn(PrepaidStream(p, start, months), account, start, m) ==
              (if bought && account == p.prepaidAccount then p.cost else 0)
              - (if bought && account == p.cashAccount then p.cost else 0)
              + (if spread && account == p.expenseAccount then monthly else 0)
              - (if spread && account == p.prepaidAccount then monthly else 0)
  {
    var monthly := FloorDiv(p.cost, p.lifeMonths);
    var purchase, parts: seq<seq<Txn>> := PrepaidPurchase(p, start, months), Amortizations(p, start, months);
    var first := AmortizedFrom(p);
    var bought := (if account == p.prepaidAccount then p.cost else 0) - if account == p.cashAccount then p.cost else 0;
    var amount := (if account == p.expenseAccount then monthly else 0)
                  - if account == p.prepaidAccount then monthly else 0;
    if purchase != [] {
      OffsetOfMonthDate(start, p.purchaseOffset, 3);
      EntryNets(account, purchase[0], p.prepaidAccount, p.cashAccount, p.cost);
    }
    forall k | 0 <= k < |parts|
      ensures |parts[k]| == 1 && OffsetOf(parts[k][0].date, start) == first + k
      ensures NetOn({account}, parts[k][0].lines) == amount
    {
      assert parts[k] == [Amortization(p, start, first + k)];
      OffsetOfMonthDate(start, first + k, 27);
      EntryNets(account, parts[k][0], p.expenseAccount, p.prepaidAccount, monthly);
    }
    hide NetOn, BookedIn, MonthDate, OffsetOf;
    PurchaseBooked(purchase, parts, account, start, p.purchaseOffset, bought, first, amount, m);
  }

  /** Each month of the life, up to the close target, moves a life's part of the cost from
      the asset to the expense; cash gives up the cost in the month it is bought in the
      window, and the asset takes it up. */
  lemma PrepaidBooked(p: PrepaidItem, start: Date, months: int, m: int)
    requires p.lifeMonths != 0 && p.prepaidAccount != p.cashAccount
    requires p.expenseAccount !in {p.prepaidAccount, p.cashAccount}
    ensures var stream := PrepaidStream(p, start, months);
            var cost := if m == p.purchaseOffset && 0 <= m < months then p.cost else 0;
            var spread := if 0 <= m < months - 2 && p.purchaseOffset <= m < p.purchaseOffset + p.lifeMonths
                          then FloorDiv(p.cost, p.lifeMonths) else 0;
            && BookedIn(stream, p.cashAccount, start, m) == -cost
            && BookedIn(stream, p.prepaidAccount, start, m) == cost - spread
            && BookedIn(stream, p.expenseAccount, start, m) == spread
  {
    hide PrepaidStream, BookedIn, FloorDiv;
    PrepaidBookedOn(p, start, months, p.cashAccount, m);
    PrepaidBookedOn(p, start, months, p.prepaidAccount, m);
    PrepaidBookedOn(p, start, months, p.expenseAccount, m);
  }
}

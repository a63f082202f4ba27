// Receivables along the emitted stream: per (customer, amount) key no payment
// comes before its invoice, the AR balance never goes negative, and what is left
// at the end is exactly the invoices whose payment falls past the window.

module Receivables {
  import opened Basics
  import opened Calendar
  import opened Drivers
  import opened Ledger
  import opened Engine
  import opened Emission

  /** Only the AR side of accrual streams posts to the given accounts. */
  predicate OnlyReceivables(sc: Scenario, codes: set<string>) {
    && (forall t :: t in sc.opening ==> forall l :: l in t.lines ==> l.code !in codes)
    && (forall s :: s in sc.revenue ==> s.revenueAccount !in codes && s.cashAccount !in codes)
    && (forall s :: s in sc.revenue && !IsAccrual(s) ==> s.deferredAccount !in codes)
    && OtherAccounts(sc) !! codes
  }

  /** Neither the opening nor a prepaid billing is a payment by this customer. */
  predicate OnlyInvoiced(sc: Scenario, customer: string) {
    && (forall t :: t in sc.opening && AgentKey(t) == customer ==> t.kind != Payment)
    && (forall s :: s in sc.revenue && !IsAccrual(s) ==>
          customer != if s.customers == [] then "" else s.customers[0])
  }

  // ---------------------------------------------------------------------
  // One invoice and its payment
  // ---------------------------------------------------------------------

  lemma PairTotals(m: Measure, a: Txn, b: Txn)
    ensures Total(m, [a]) == Weigh(m, a)
    ensures Total(m, [a, b]) == Weigh(m, a) + Weigh(m, b)
    ensures Sort([a]) == [a]
    ensures Sort([a, b]) == if Key(a.date) <= Key(b.date) then [a, b] else [b, a]
  {
    assert [a][1..] == [];
    assert [a, b][1..] == [b];
    assert [b][1..] == [];
    assert Sort([b]) == [b];
  }

  lemma PairNeverNegative(m: Measure, a: Txn, b: Txn)
    requires Key(a.date) <= Key(b.date)
    requires Weigh(m, a) >= 0 && Weigh(m, a) + Weigh(m, b) >= 0
    ensures NeverNegative(m, Sort([a, b]))
  {
    PairTotals(m, a, b);
    forall n | 0 <= n <= 2
      ensures Total(m, [a, b][..n]) >= 0
    {
      assert [a, b][..0] == [] && [a, b][..1] == [a] && [a, b][..2] == [a, b];
    }
  }

  /** What an invoice and its payment weigh, on the AR accounts and per key. */
  lemma UnitWeights(s: RevenueStream, offset: int, start: Date, windowEnd: Date, customer: string,
                    amount: int, codes: set<string>, key: string, keyAmount: int)
    requires s.invoiceDay >= 1 && amount > 0
    requires s.revenueAccount !in codes && s.cashAccount !in codes
    ensures var unit := InvoiceAndPayment(s, offset, start, windowEnd, customer, amount);
            var ar := if s.arAccount in codes then amount else 0;
            var open := if key == customer && keyAmount == amount then 1 else 0;
            && unit[0].date == MonthDate(start, offset, s.invoiceDay)
            && Weigh(NetDebit(codes), unit[0]) == ar
            && Weigh(Open(key, keyAmount), unit[0]) == open
            && (|unit| == 1 <==> Earlier(windowEnd, PayDate(s, offset, start)))
            && (|unit| != 1 ==>
                  && unit == [unit[0], unit[1]]
                  && unit[1].date == PayDate(s, offset, start)
                  && Weigh(NetDebit(codes), unit[1]) == -ar
                  && Weigh(Open(key, keyAmount), unit[1]) == -open)
  {
    var unit := InvoiceAndPayment(s, offset, start, windowEnd, customer, amount);
    TwoLeggedNet(codes, unit[0]);
    TwoLeggedBalances(unit[0]);
    if |unit| != 1 {
      TwoLeggedNet(codes, unit[1]);
      TwoLeggedBalances(unit[1]);
    }
  }

  lemma UnitNeverNegative(s: RevenueStream, offset: int, start: Date, windowEnd: Date, customer: string,
                          amount: int, codes: set<string>, key: string, keyAmount: int)
    requires s.invoiceDay >= 1 && LagDays(s.collection, offset) >= 0
    requires s.revenueAccount !in codes && s.cashAccount !in codes
    ensures var unit := Sort(InvoiceAndPayment(s, offset, start, windowEnd, customer, amount));
            NeverNegative(NetDebit(codes), unit) && NeverNegative(Open(key, keyAmount), unit)
  {
    var unit := InvoiceAndPayment(s, offset, start, windowEnd, customer, amount);
    if amount > 0 {
      UnitWeights(s, offset, start, windowEnd, customer, amount, codes, key, keyAmount);
      AddDaysOrdinal(MonthDate(start, offset, s.invoiceDay), LagDays(s.collection, offset));
      if |unit| == 1 {
        SortNonNegative(NetDebit(codes), unit);
        SortNonNegative(Open(key, keyAmount), unit);
      } else {
        PairNeverNegative(NetDebit(codes), unit[0], unit[1]);
        PairNeverNegative(Open(key, keyAmount), unit[0], unit[1]);
      }
    }
  }

  /** A lag that runs backwards is exactly what lets a payment precede its invoice. */
  lemma UnitNeverNegativeIff(s: RevenueStream, offset: int, start: Date, windowEnd: Date, customer: string,
                             amount: int)
    requires s.invoiceDay >= 1 && amount > 0
    requires s.arAccount != s.revenueAccount && s.arAccount != s.cashAccount
    ensures NeverNegative(NetDebit({s.arAccount}),
                          Sort(InvoiceAndPayment(s, offset, start, windowEnd, customer, amount))) <==>
            LagDays(s.collection, offset) >= 0 || Earlier(windowEnd, PayDate(s, offset, start))
  {
    var codes := {s.arAccount};
    var unit := InvoiceAndPayment(s, offset, start, windowEnd, customer, amount);
    UnitWeights(s, offset, start, windowEnd, customer, amount, codes, customer, amount);
    if LagDays(s.collection, offset) >= 0 {
      UnitNeverNegative(s, offset, start, windowEnd, customer, amount, codes, customer, amount);
    } else if |unit| == 1 {
      SortNonNegative(NetDebit(codes), unit);
    } else {
      AddDaysOrdinal(MonthDate(start, offset, s.invoiceDay), LagDays(s.collection, offset));
      PairTotals(NetDebit(codes), unit[0], unit[1]);
      PairTotals(NetDebit(codes), unit[1], unit[0]);
      assert Sort(unit) == [unit[1], unit[0]];
      assert Sort(unit)[..1] == [unit[1]];
    }
  }

  // ---------------------------------------------------------------------
  // The whole stream
  // ---------------------------------------------------------------------

  lemma AccrualNeverNegative(s: RevenueStream, start: Date, months: int, windowEnd: Date,
                             codes: set<string>, key: string, keyAmount: int)
    requires ValidStream(s, months) && IsAccrual(s) && PaysForward(s, months)
    requires s.revenueAccount !in codes && s.cashAccount !in codes
    ensures NeverNegative(NetDebit(codes), Sort(Flatten(AccrualMonths(s, start, months, windowEnd))))
    ensures NeverNegative(Open(key, keyAmount), Sort(Flatten(AccrualMonths(s, start, months, windowEnd))))
  {
    var parts := AccrualMonths(s, start, months, windowEnd);
    forall offset | 0 <= offset < |parts|
      ensures NeverNegative(NetDebit(codes), Sort(parts[offset]))
      ensures NeverNegative(Open(key, keyAmount), Sort(parts[offset]))
    {
      var total := CurveAt(s.monthlyRecognized, offset);
      if total > 0 {
        var units := AccrualParts(s, total, offset, start, windowEnd);
        forall i | 0 <= i < |units|
          ensures NeverNegative(NetDebit(codes), Sort(units[i]))
          ensures NeverNegative(Open(key, keyAmount), Sort(units[i]))
        {
          UnitNeverNegative(s, offset, start, windowEnd, s.customers[i], Split(total, |s.customers|)[i],
                            codes, key, keyAmount);
        }
        FlattenNeverNegative(NetDebit(codes), units);
        FlattenNeverNegative(Open(key, keyAmount), units);
      }
    }
    FlattenNeverNegative(NetDebit(codes), parts);
    FlattenNeverNegative(Open(key, keyAmount), parts);
  }

  lemma PrepaidRevenueWeights(s: RevenueStream, start: Date, months: int, t: Txn)
    requires ValidStream(s, months) && s.collection.kind == Prepaid
    requires t in PrepaidRevenue(s, start, months)
    ensures forall codes :: RevenueAccounts(s) !! codes ==> Weigh(NetDebit(codes), t) == 0
    ensures t.kind in {Payment, JournalEntry}
    ensures t.kind == Payment ==> t.agent == BillingAgent(s)
  {
    PrepaidRevenueFlowed(s, start, months, t);
    forall codes | RevenueAccounts(s) !! codes
      ensures Weigh(NetDebit(codes), t) == 0
    {
      TwoLeggedNet(codes, t);
    }
    var offs := BillingOffsets(s.collection, months);
    var idx := FlattenMember(BillingPeriods(s, start, months, offs), t);
    var m := BillingMember(s, start, months, offs[idx], PeriodEnd(offs, idx, s.collection.billEvery), t);
  }

  lemma OtherWeights(sc: Scenario, start: Date, codes: set<string>, key: string, keyAmount: int)
    requires ValidScenario(sc) && OtherAccounts(sc) !! codes
    ensures forall t :: t in OtherFlows(sc, start) ==>
              Weigh(NetDebit(codes), t) == 0 && Weigh(Open(key, keyAmount), t) == 0
  {
    forall t | t in OtherFlows(sc, start)
      ensures Weigh(NetDebit(codes), t) == 0 && Weigh(Open(key, keyAmount), t) == 0
    {
      OtherFlowed(sc, start, t);
      TwoLeggedNet(codes, t);
    }
  }

  lemma OpeningWeights(sc: Scenario, codes: set<string>)
    requires OnlyReceivables(sc, codes)
    ensures forall t :: t in sc.opening ==> Weigh(NetDebit(codes), t) == 0
  {
    forall t | t in sc.opening
      ensures Weigh(NetDebit(codes), t) == 0
    {
      OffAccounts(codes, t.lines);
    }
  }

  lemma RevenueNeverNegative(sc: Scenario, start: Date, i: nat, codes: set<string>, key: string, keyAmount: int)
    requires ValidScenario(sc) && LagsForward(sc)
    requires i < |sc.revenue| && OnlyReceivables(sc, codes)
    ensures NeverNegative(NetDebit(codes), Sort(RevenueFlows(sc, start)[i]))
    ensures OnlyInvoiced(sc, key) ==> NeverNegative(Open(key, keyAmount), Sort(RevenueFlows(sc, start)[i]))
  {
    var s := sc.revenue[i];
    var flow := RevenueFlows(sc, start)[i];
    if IsAccrual(s) {
      AccrualNeverNegative(s, start, sc.months, WindowEnd(sc, start), codes, key, keyAmount);
    } else {
      forall t | t in flow
        ensures Weigh(NetDebit(codes), t) == 0
        ensures OnlyInvoiced(sc, key) ==> Weigh(Open(key, keyAmount), t) == 0
      {
        PrepaidRevenueWeights(s, start, sc.months, t);
      }
      SortNonNegative(NetDebit(codes), flow);
      if OnlyInvoiced(sc, key) {
        SortNonNegative(Open(key, keyAmount), flow);
      }
    }
  }

  /** The AR balance never goes negative, at any prefix of the date-sorted stream. */
  lemma ReceivablesNeverNegative(sc: Scenario, start: Date, codes: set<string>)
    requires ValidScenario(sc) && LagsForward(sc) && OnlyReceivables(sc, codes)
    ensures NeverNegative(NetDebit(codes), Emitted(sc, start))
  {
    var m := NetDebit(codes);
    forall i | 0 <= i < |sc.revenue|
      ensures NeverNegative(m, Sort(RevenueFlows(sc, start)[i]))
    {
      RevenueNeverNegative(sc, start, i, codes, "", 0);
    }
    FlattenNeverNegative(m, RevenueFlows(sc, start));
    OpeningWeights(sc, codes);
    SortNonNegative(m, sc.opening);
    OtherWeights(sc, start, codes, "", 0);
    SortNonNegative(m, OtherFlows(sc, start));
    MergeNeverNegative(m, sc.opening, Flatten(RevenueFlows(sc, start)));
    MergeNeverNegative(m, sc.opening + Flatten(RevenueFlows(sc, start)), OtherFlows(sc, start));
  }

  /** In every prefix a customer who is only ever invoiced has at least as many
      invoices of an amount as payments of it. */
  lemma InvoicesComeFirst(sc: Scenario, start: Date, customer: string, amount: int)
    requires ValidScenario(sc) && LagsForward(sc) && OnlyInvoiced(sc, customer)
    ensures NeverNegative(Open(customer, amount), Emitted(sc, start))
  {
    var m := Open(customer, amount);
    forall i | 0 <= i < |sc.revenue|
      ensures NeverNegative(m, Sort(RevenueFlows(sc, start)[i]))
    {
      assert OnlyReceivables(sc, {});
      RevenueNeverNegative(sc, start, i, {}, customer, amount);
    }
    FlattenNeverNegative(m, RevenueFlows(sc, start));
    SortNonNegative(m, sc.opening);
    OtherWeights(sc, start, {}, customer, amount);
    SortNonNegative(m, OtherFlows(sc, start));
    MergeNeverNegative(m, sc.opening, Flatten(RevenueFlows(sc, start)));
    MergeNeverNegative(m, sc.opening + Flatten(RevenueFlows(sc, start)), OtherFlows(sc, start));
  }

  // ---------------------------------------------------------------------
  // What is left at the end
  // ---------------------------------------------------------------------

  /** The invoice stays open when its payment date is past the window. */
  function LeftOpen(s: RevenueStream, offset: int, start: Date, windowEnd: Date, amount: int): int
    requires s.invoiceDay >= 1
  {
    if amount > 0 && Earlier(windowEnd, PayDate(s, offset, start)) then amount else 0
  }

  function OpenMonth(s: RevenueStream, offset: int, start: Date, windowEnd: Date): int
    requires UsableDay(CurveAt(s.monthlyRecognized, offset), s.invoiceDay)
  {
    var total := CurveAt(s.monthlyRecognized, offset);
    var amounts := Split(total, |s.customers|);
    if total > 0
    then SumOf(seq(|s.customers|, i requires 0 <= i < |s.customers| =>
                 LeftOpen(s, offset, start, windowEnd, amounts[i])))
    else 0
  }

  function OpenStream(s: RevenueStream, start: Date, months: int, windowEnd: Date, codes: set<string>): int
    requires ValidStream(s, months)
  {
    if IsAccrual(s) && s.arAccount in codes
    then SumOf(seq(Count(months), offset requires 0 <= offset < Count(months) =>
           OpenMonth(s, offset, start, windowEnd)))
    else 0
  }

  function OpenInvoices(sc: Scenario, start: Date, codes: set<string>): int
    requires ValidScenario(sc)
  {
    SumOf(seq(|sc.revenue|, i requires 0 <= i < |sc.revenue| =>
      OpenStream(sc.revenue[i], start, sc.months, WindowEnd(sc, start), codes)))
  }

  lemma AccrualMonthTotal(s: RevenueStream, offset: int, start: Date, windowEnd: Date, codes: set<string>)
    requires UsableDay(CurveAt(s.monthlyRecognized, offset), s.invoiceDay)
    requires s.revenueAccount !in codes && s.cashAccount !in codes
    ensures Total(NetDebit(codes), AccrualMonth(s, offset, start, windowEnd)) ==
            if s.arAccount in codes then OpenMonth(s, offset, start, windowEnd) else 0
  {
    var total := CurveAt(s.monthlyRecognized, offset);
    if total > 0 {
      var amounts := Split(total, |s.customers|);
      var parts := AccrualParts(s, total, offset, start, windowEnd);
      var totals := seq(|s.customers|, i requires 0 <= i < |s.customers| =>
        if s.arAccount in codes then LeftOpen(s, offset, start, windowEnd, amounts[i]) else 0);
      forall i | 0 <= i < |parts|
        ensures Total(NetDebit(codes), parts[i]) == totals[i]
      {
        var unit := InvoiceAndPayment(s, offset, start, windowEnd, s.customers[i], amounts[i]);
        assert parts[i] == unit;
        if amounts[i] > 0 {
          UnitWeights(s, offset, start, windowEnd, s.customers[i], amounts[i], codes, "", 0);
          if |unit| == 1 {
            assert unit == [unit[0]];
            PairTotals(NetDebit(codes), unit[0], unit[0]);
          } else {
            PairTotals(NetDebit(codes), unit[0], unit[1]);
          }
        }
      }
      FlattenTotal(NetDebit(codes), parts, totals);
      if s.arAccount in codes {
        assert totals == seq(|s.customers|, i requires 0 <= i < |s.customers| =>
          LeftOpen(s, offset, start, windowEnd, amounts[i]));
      } else {
        ZeroSum(totals);
      }
    }
  }

  lemma RevenueTotal(sc: Scenario, start: Date, i: nat, codes: set<string>)
    requires ValidScenario(sc) && i < |sc.revenue| && OnlyReceivables(sc, codes)
    ensures Total(NetDebit(codes), RevenueFlows(sc, start)[i]) ==
            OpenStream(sc.revenue[i], start, sc.months, WindowEnd(sc, start), codes)
  {
    var s := sc.revenue[i];
    var flow := RevenueFlows(sc, start)[i];
    if IsAccrual(s) {
      var parts := AccrualMonths(s, start, sc.months, WindowEnd(sc, start));
      var totals := seq(Count(sc.months), offset requires 0 <= offset < Count(sc.months) =>
        if s.arAccount in codes then OpenMonth(s, offset, start, WindowEnd(sc, start)) else 0);
      forall offset | 0 <= offset < |parts|
        ensures Total(NetDebit(codes), parts[offset]) == totals[offset]
      {
        AccrualMonthTotal(s, offset, start, WindowEnd(sc, start), codes);
      }
      FlattenTotal(NetDebit(codes), parts, totals);
      if s.arAccount in codes {
        assert totals == seq(Count(sc.months), offset requires 0 <= offset < Count(sc.months) =>
          OpenMonth(s, offset, start, WindowEnd(sc, start)));
      } else {
        ZeroSum(totals);
      }
    } else {
      forall t | t in flow
        ensures Weigh(NetDebit(codes), t) == 0
      {
        PrepaidRevenueWeights(s, start, sc.months, t);
      }
      ZeroTotal(NetDebit(codes), flow);
    }
  }

  /** AR at the end is exactly the invoices whose payment falls past the window. */
  lemma ReceivablesAtEnd(sc: Scenario, start: Date, codes: set<string>)
    requires ValidScenario(sc) && OnlyReceivables(sc, codes)
    ensures Total(NetDebit(codes), Emitted(sc, start)) == OpenInvoices(sc, start, codes)
  {
    var m := NetDebit(codes);
    var flows := RevenueFlows(sc, start);
    var totals := seq(|sc.revenue|, i requires 0 <= i < |sc.revenue| =>
      OpenStream(sc.revenue[i], start, sc.months, WindowEnd(sc, start), codes));
    forall i | 0 <= i < |flows|
      ensures Total(m, flows[i]) == totals[i]
    {
      RevenueTotal(sc, start, i, codes);
    }
    FlattenTotal(m, flows, totals);
    OpeningWeights(sc, codes);
    ZeroTotal(m, sc.opening);
    OtherWeights(sc, start, codes, "", 0);
    ZeroTotal(m, OtherFlows(sc, start));
    SortTotal(m, Unsorted(sc, start));
    TotalConcat(m, sc.opening + Flatten(flows), OtherFlows(sc, start));
    TotalConcat(m, sc.opening, Flatten(flows));
  }

  // ---------------------------------------------------------------------
  // The invoices of a month total what the month recognises
  // ---------------------------------------------------------------------

  lemma Remainder(total: int, n: int)
    requires n >= 1
    ensures 0 <= total - total / n * n < n
    ensures total >= 0 ==> total / n >= 0
  {
  }

  lemma OneLess(n: int, base: int)
    ensures (n - 1) * base == base * n - base
  {
  }

  /** The first part and each of the others. */
  lemma SplitParts(total: int, n: int) returns (first: int, base: int)
    requires n >= 1
    ensures |Split(total, n)| == n && Split(total, n)[0] == first
    ensures forall i :: 0 < i < n ==> Split(total, n)[i] == base
    ensures first + (n - 1) * base == total && 0 <= first - base < n
    ensures total > 0 ==> base >= 0
  {
    base := total / n;
    first := base + (total - base * n);
    Remainder(total, n);
    OneLess(n, base);
  }

  /** No cent is lost, all parts but the first are equal, and the first exceeds them by
      less than n cents; a positive amount has no negative part. */
  lemma SplitConserves(total: int, n: int)
    requires n >= 1
    ensures |Split(total, n)| == n && SumOf(Split(total, n)) == total
    ensures forall i, j :: 0 < i < j < n ==> Split(total, n)[i] == Split(total, n)[j]
    ensures forall i :: 0 < i < n ==> 0 <= Split(total, n)[0] - Split(total, n)[i] < n
    ensures total > 0 ==> forall i :: 0 <= i < n ==> Split(total, n)[i] >= 0
  {
    hide Split;
    var first, base := SplitParts(total, n);
    EqualSum(Split(total, n)[1..], base);
  }

  lemma AccrualMonthRecognises(s: RevenueStream, offset: int, start: Date, windowEnd: Date)
    requires UsableDay(CurveAt(s.monthlyRecognized, offset), s.invoiceDay) && s.customers != []
    requires s.revenueAccount != s.arAccount && s.revenueAccount != s.cashAccount
    ensures Total(NetCredit({s.revenueAccount}), AccrualMonth(s, offset, start, windowEnd)) ==
            Max(CurveAt(s.monthlyRecognized, offset), 0)
  {
    var total := CurveAt(s.monthlyRecognized, offset);
    if total > 0 {
      var m := NetCredit({s.revenueAccount});
      var amounts := Split(total, |s.customers|);
      var parts := AccrualParts(s, total, offset, start, windowEnd);
      SplitConserves(total, |s.customers|);
      forall i | 0 <= i < |parts|
        ensures Total(m, parts[i]) == amounts[i]
      {
        var unit := InvoiceAndPayment(s, offset, start, windowEnd, s.customers[i], amounts[i]);
        assert parts[i] == unit;
        if amounts[i] > 0 {
          TwoLeggedNet({s.revenueAccount}, unit[0]);
          if |unit| == 1 {
            assert unit == [unit[0]];
            PairTotals(m, unit[0], unit[0]);
          } else {
            TwoLeggedNet({s.revenueAccount}, unit[1]);
            PairTotals(m, unit[0], unit[1]);
          }
        }
      }
      FlattenTotal(m, parts, amounts);
    }
  }
}

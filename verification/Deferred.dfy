// Deferred revenue: billing periods that partition the window, the exact
// deferred balance after every month, and the phase-shifted cohorts.

module Deferred {
  import opened Basics
  import opened Calendar
  import opened Drivers
  import opened Ledger
  import opened Engine
  import opened Emission

  // ---------------------------------------------------------------------
  // Billing periods
  // ---------------------------------------------------------------------

  /** Where the last billing period ends. */
  function BilledThrough(pol: CollectionPolicy, months: int): int
    requires pol.billEvery >= 1 || FirstBilling(pol) >= months
  {
    var offs := BillingOffsets(pol, months);
    offs[|offs| - 1] + pol.billEvery
  }

  lemma {:induction false} CadenceSteps(next: int, every: int, months: int)
    requires every >= 1 || next >= months
    ensures var c := Cadence(next, every, months);
            && (next < months <==> c != [])
            && (forall i :: 0 <= i < |c| ==> c[i] == next + i * every)
            && (forall i, j :: 0 <= i < j < |c| ==> c[i] < c[j])
            && (c != [] ==> c[0] == next && c[|c| - 1] < months <= c[|c| - 1] + every)
    decreases months - next
  {
    if next < months {
      CadenceSteps(next + every, every, months);
      var c := Cadence(next, every, months);
      forall i | 0 <= i < |c|
        ensures c[i] == next + i * every
      {
        if i > 0 {
          assert c[i] == c[1..][i - 1] == next + every + (i - 1) * every;
        }
      }
    }
  }

  /** The periods start at 0, follow one another without gap or overlap, and end at
      BilledThrough. They reach the end of the window except when the phase lies
      beyond it and the cadence is shorter than it. */
  lemma BillingPartition(pol: CollectionPolicy, months: int)
    requires pol.billEvery >= 1 || FirstBilling(pol) >= months
    requires months >= 1
    ensures var offs := BillingOffsets(pol, months);
            && offs[0] == 0
            && (forall i :: 0 <= i < |offs| ==> 0 <= offs[i] < months)
            && (forall i, j :: 0 <= i < j < |offs| ==> offs[i] < offs[j])
            && (forall i :: 0 <= i < |offs| - 1 ==> PeriodEnd(offs, i, pol.billEvery) == offs[i + 1])
            && PeriodEnd(offs, |offs| - 1, pol.billEvery) == BilledThrough(pol, months)
    ensures BilledThrough(pol, months) >= months <==> pol.billPhase < months || pol.billEvery >= months
  {
    var first := FirstBilling(pol);
    CadenceSteps(first, pol.billEvery, months);
    CadenceRange(first, pol.billEvery, months);
    var offs := BillingOffsets(pol, months);
    var c := Cadence(first, pol.billEvery, months);
    assert forall i :: 0 < i < |offs| ==> offs[i] == c[i - 1];
    if first < months {
      assert first >= 1;
      assert c[0] == first;
      assert offs[|offs| - 1] == c[|c| - 1];
    }
  }

  /** Every month up to BilledThrough lies in exactly one billing period. */
  lemma OnePeriodPerMonth(pol: CollectionPolicy, months: int, m: int) returns (idx: nat)
    requires pol.billEvery >= 1 || FirstBilling(pol) >= months
    requires months >= 1 && 0 <= m < BilledThrough(pol, months)
    ensures var offs := BillingOffsets(pol, months);
            && idx < |offs| && offs[idx] <= m < PeriodEnd(offs, idx, pol.billEvery)
            && forall i :: 0 <= i < |offs| && i != idx ==>
                 !(offs[i] <= m < PeriodEnd(offs, i, pol.billEvery))
  {
    BillingPartition(pol, months);
    var offs := BillingOffsets(pol, months);
    hide BillingOffsets;
    assert forall i :: 0 <= i < |offs| - 1 ==> PeriodEnd(offs, i, pol.billEvery) == offs[i + 1];
    idx := 0;
    while idx + 1 < |offs| && offs[idx + 1] <= m
      invariant idx < |offs| && offs[idx] <= m
    {
      idx := idx + 1;
    }
    forall i | 0 <= i < |offs| && i != idx
      ensures !(offs[i] <= m < PeriodEnd(offs, i, pol.billEvery))
    {
      if i < idx {
        assert PeriodEnd(offs, i, pol.billEvery) == offs[i + 1] <= offs[idx];
      }
    }
  }

  // ---------------------------------------------------------------------
  // Sums of rates
  // ---------------------------------------------------------------------

  predicate NonNegativeRates(curve: Curve, months: int) {
    forall m :: 0 <= m < months ==> CurveAt(curve, m) >= 0
  }

  lemma {:induction false} BilledSplits(curve: Curve, months: int, lo: int, mid: int, hi: int)
    requires lo <= mid <= hi
    ensures BilledTotal(curve, months, lo, hi) ==
            BilledTotal(curve, months, lo, mid) + BilledTotal(curve, months, mid, hi)
    decreases mid - lo
  {
    if lo < mid {
      BilledSplits(curve, months, lo + 1, mid, hi);
    }
  }

  lemma {:induction false} BilledNonNegative(curve: Curve, months: int, lo: int, hi: int)
    requires NonNegativeRates(curve, months) && 0 <= lo && months >= 1
    ensures BilledTotal(curve, months, lo, hi) >= 0
    decreases hi - lo
  {
    if lo < hi {
      BilledNonNegative(curve, months, lo + 1, hi);
    }
  }

  lemma {:induction false} BilledPastWindow(curve: Curve, months: int, lo: int, hi: int)
    requires months <= lo <= hi
    ensures BilledTotal(curve, months, lo, hi) == (hi - lo) * CurveAt(curve, months - 1)
    decreases hi - lo
  {
    if lo < hi {
      BilledPastWindow(curve, months, lo + 1, hi);
      var rate := CurveAt(curve, months - 1);
      assert (hi - (lo + 1)) * rate + rate == (hi - lo) * rate;
    }
  }

  // ---------------------------------------------------------------------
  // One billing period
  // ---------------------------------------------------------------------

  // The two accounts a prepaid stream builds up and the cash it takes are apart.
  predicate DistinctAccounts(s: RevenueStream) {
    s.deferredAccount != s.cashAccount && s.deferredAccount != s.revenueAccount
    && s.revenueAccount != s.cashAccount
  }

  /** The balance of the deferred account at the end of month k, or of revenue. */
  function DeferredBy(s: RevenueStream, start: Date, k: int): Measure {
    During(NetCredit({s.deferredAccount}), start, 0, k)
  }

  function RevenueBy(s: RevenueStream, start: Date, k: int): Measure {
    During(NetCredit({s.revenueAccount}), start, 0, k)
  }

  lemma RecognitionsUnfold(s: RevenueStream, start: Date, months: int, lo: int, hi: int)
    requires lo < hi
    ensures Flatten(Recognitions(s, start, months, lo, hi)) ==
            Recognition(s, start, months, lo) + Flatten(Recognitions(s, start, months, lo + 1, hi))
  {
    assert Recognitions(s, start, months, lo, hi)[1..] == Recognitions(s, start, months, lo + 1, hi);
  }

  lemma RecognitionTotal(s: RevenueStream, start: Date, months: int, m: int, k: int)
    requires DistinctAccounts(s) && NonNegativeRates(s.monthlyRecognized, months)
    requires 0 <= m && k < months
    ensures Total(DeferredBy(s, start, k), Recognition(s, start, months, m)) ==
            if m <= k then -CurveAt(s.monthlyRecognized, m) else 0
    ensures Total(RevenueBy(s, start, k), Recognition(s, start, months, m)) ==
            if m <= k then CurveAt(s.monthlyRecognized, m) else 0
  {
    var r := Recognition(s, start, months, m);
    if r != [] {
      OffsetOfMonthDate(start, m, 28);
      TwoLeggedNet({s.deferredAccount}, r[0]);
      TwoLeggedNet({s.revenueAccount}, r[0]);
      var amount := CurveAt(s.monthlyRecognized, m);
      assert Weigh(NetCredit({s.deferredAccount}), r[0]) == -amount;
      assert Weigh(NetCredit({s.revenueAccount}), r[0]) == amount;
      assert r == [r[0]];
      assert r[1..] == [];
    }
  }

  lemma {:induction false} RecognitionsTotal(s: RevenueStream, start: Date, months: int, lo: int, hi: int, k: int)
    requires DistinctAccounts(s) && NonNegativeRates(s.monthlyRecognized, months)
    requires 0 <= lo && k < months
    ensures Total(DeferredBy(s, start, k), Flatten(Recognitions(s, start, months, lo, hi))) ==
            -BilledTotal(s.monthlyRecognized, months, lo, Min(k + 1, hi))
    ensures Total(RevenueBy(s, start, k), Flatten(Recognitions(s, start, months, lo, hi))) ==
            BilledTotal(s.monthlyRecognized, months, lo, Min(k + 1, hi))
    decreases hi - lo
  {
    if lo < hi {
      RecognitionsUnfold(s, start, months, lo, hi);
      RecognitionsTotal(s, start, months, lo + 1, hi, k);
      RecognitionTotal(s, start, months, lo, k);
      var rest := Flatten(Recognitions(s, start, months, lo + 1, hi));
      TotalConcat(DeferredBy(s, start, k), Recognition(s, start, months, lo), rest);
      TotalConcat(RevenueBy(s, start, k), Recognition(s, start, months, lo), rest);
    }
  }

  /** A billing whose rates sum to nothing has nothing to recognise either. */
  lemma {:induction false} NothingBilled(curve: Curve, months: int, lo: int, hi: int)
    requires NonNegativeRates(curve, months) && 0 <= lo && months >= 1
    requires BilledTotal(curve, months, lo, hi) <= 0
    ensures forall m :: lo <= m < hi ==> BilledRate(curve, months, m) == 0
    ensures forall a, b :: lo <= a <= b <= hi ==> BilledTotal(curve, months, a, b) == 0
  {
    forall a, b | lo <= a <= b <= hi
      ensures BilledTotal(curve, months, a, b) == 0
    {
      BilledSplits(curve, months, lo, a, hi);
      BilledSplits(curve, months, a, b, hi);
      BilledNonNegative(curve, months, lo, a);
      BilledNonNegative(curve, months, a, b);
      BilledNonNegative(curve, months, b, hi);
    }
    forall m | lo <= m < hi
      ensures BilledRate(curve, months, m) == 0
    {
      assert BilledTotal(curve, months, m, m + 1) == BilledRate(curve, months, m);
    }
  }

  /** What one period leaves on the two accounts at the end of month k: the rates of
      its undelivered months once billed, and the rates delivered so far. */
  lemma PeriodTotals(s: RevenueStream, start: Date, months: int, lo: int, hi: int, k: int)
    requires DistinctAccounts(s) && NonNegativeRates(s.monthlyRecognized, months)
    requires 0 <= lo < hi && k < months && months >= 1
    ensures Total(DeferredBy(s, start, k), BillingPeriod(s, start, months, lo, hi)) ==
            if k < lo then 0 else BilledTotal(s.monthlyRecognized, months, k + 1, hi)
    ensures Total(RevenueBy(s, start, k), BillingPeriod(s, start, months, lo, hi)) ==
            BilledTotal(s.monthlyRecognized, months, lo, Min(k + 1, hi))
  {
    var curve := s.monthlyRecognized;
    var cash := BilledTotal(curve, months, lo, hi);
    if cash <= 0 {
      NothingBilled(curve, months, lo, hi);
    } else {
      var billing := Entry(MonthDate(start, lo, 1), Payment, BillingAgent(s), s.cashAccount, s.deferredAccount, cash);
      var rest := Flatten(Recognitions(s, start, months, lo, hi));
      OffsetOfMonthDate(start, lo, 1);
      TwoLeggedNet({s.deferredAccount}, billing);
      TwoLeggedNet({s.revenueAccount}, billing);
      assert Weigh(NetCredit({s.deferredAccount}), billing) == cash;
      assert Weigh(NetCredit({s.revenueAccount}), billing) == 0;
      assert ([billing] + rest)[1..] == rest;
      RecognitionsTotal(s, start, months, lo, hi, k);
      if lo <= k < hi {
        BilledSplits(curve, months, lo, k + 1, hi);
      }
    }
  }

  // ---------------------------------------------------------------------
  // The deferred balance month by month
  // ---------------------------------------------------------------------

  /** The deferred balance after month k is exactly the rates of the months of the
      current billing that are still to be delivered. */
  lemma DeferredIsUndelivered(s: RevenueStream, start: Date, months: int, k: int, idx: nat)
    requires ValidStream(s, months) && s.collection.kind == Prepaid
    requires DistinctAccounts(s) && NonNegativeRates(s.monthlyRecognized, months)
    requires 0 <= k < months && s.collection.billEvery >= 1
    requires var offs := BillingOffsets(s.collection, months);
             idx < |offs| && offs[idx] <= k < PeriodEnd(offs, idx, s.collection.billEvery)
    ensures Total(DeferredBy(s, start, k), PrepaidRevenue(s, start, months)) ==
            BilledTotal(s.monthlyRecognized, months, k + 1,
                        PeriodEnd(BillingOffsets(s.collection, months), idx, s.collection.billEvery))
  {
    var offs := BillingOffsets(s.collection, months);
    var every := s.collection.billEvery;
    BillingPartition(s.collection, months);
    var totals := seq(|offs|, i requires 0 <= i < |offs| =>
      if k < offs[i] then 0 else BilledTotal(s.monthlyRecognized, months, k + 1, PeriodEnd(offs, i, every)));
    var parts := BillingPeriods(s, start, months, offs);
    forall i | 0 <= i < |offs|
      ensures Total(DeferredBy(s, start, k), parts[i]) == totals[i]
      ensures i != idx ==> totals[i] == 0
    {
      PeriodTotals(s, start, months, offs[i], PeriodEnd(offs, i, every), k);
      if i < idx {
        assert offs[i + 1] <= offs[idx];
      } else if i > idx {
        assert offs[idx + 1] <= offs[i];
      }
    }
    FlattenTotal(DeferredBy(s, start, k), parts, totals);
    SingleSum(totals, idx);
  }

  lemma {:induction false} DeliveredSum(curve: Curve, months: int, offs: seq<int>, every: int, k: int,
                                         n: nat, totals: seq<int>)
    requires n <= |offs| == |totals| && every >= 1 && offs != [] && k >= 0
    requires forall i, j :: 0 <= i < j < |offs| ==> offs[i] < offs[j]
    requires forall i :: 0 <= i < |offs| ==>
               totals[i] == BilledTotal(curve, months, offs[i], Min(k + 1, PeriodEnd(offs, i, every)))
    ensures n < |offs| ==>
              SumOf(totals[n..]) ==
              BilledTotal(curve, months, offs[n], Min(k + 1, PeriodEnd(offs, |offs| - 1, every)))
    ensures n == |offs| ==> SumOf(totals[n..]) == 0
    decreases |offs| - n
  {
    if n < |offs| {
      DeliveredSum(curve, months, offs, every, k, n + 1, totals);
      assert totals[n..][1..] == totals[n + 1..];
      if n + 1 < |offs| && offs[n + 1] <= k + 1 {
        BilledSplits(curve, months, offs[n], offs[n + 1], Min(k + 1, PeriodEnd(offs, |offs| - 1, every)));
      }
    }
  }

  /** Revenue recognised through month k totals the curve over the billed months. */
  lemma RevenueFollowsCurve(s: RevenueStream, start: Date, months: int, k: int)
    requires ValidStream(s, months) && s.collection.kind == Prepaid
    requires DistinctAccounts(s) && NonNegativeRates(s.monthlyRecognized, months)
    requires 0 <= k < months && s.collection.billEvery >= 1
    ensures Total(RevenueBy(s, start, k), PrepaidRevenue(s, start, months)) ==
            BilledTotal(s.monthlyRecognized, months, 0, Min(k + 1, BilledThrough(s.collection, months)))
  {
    var offs := BillingOffsets(s.collection, months);
    var every := s.collection.billEvery;
    BillingPartition(s.collection, months);
    var totals := seq(|offs|, i requires 0 <= i < |offs| =>
      BilledTotal(s.monthlyRecognized, months, offs[i], Min(k + 1, PeriodEnd(offs, i, every))));
    var parts := BillingPeriods(s, start, months, offs);
    forall i | 0 <= i < |offs|
      ensures Total(RevenueBy(s, start, k), parts[i]) == totals[i]
    {
      PeriodTotals(s, start, months, offs[i], PeriodEnd(offs, i, every), k);
    }
    FlattenTotal(RevenueBy(s, start, k), parts, totals);
    DeliveredSum(s.monthlyRecognized, months, offs, every, k, 0, totals);
    assert totals[0..] == totals;
  }

  /** At the end the whole curve has been recognised and the deferred balance is the
      last rate for each month billed past the window. */
  lemma DeferredAtEnd(s: RevenueStream, start: Date, months: int)
    requires ValidStream(s, months) && s.collection.kind == Prepaid
    requires DistinctAccounts(s) && NonNegativeRates(s.monthlyRecognized, months)
    requires months >= 1 && s.collection.billEvery >= 1
    requires s.collection.billPhase < months || s.collection.billEvery >= months
    ensures Total(DeferredBy(s, start, months - 1), PrepaidRevenue(s, start, months)) ==
            (BilledThrough(s.collection, months) - months) * CurveAt(s.monthlyRecognized, months - 1)
    ensures Total(RevenueBy(s, start, months - 1), PrepaidRevenue(s, start, months)) ==
            BilledTotal(s.monthlyRecognized, months, 0, months)
  {
    hide PrepaidRevenue, DeferredBy, RevenueBy, NonNegativeRates, DistinctAccounts;
    BillingPartition(s.collection, months);
    var through := BilledThrough(s.collection, months);
    var idx := |BillingOffsets(s.collection, months)| - 1;
    DeferredIsUndelivered(s, start, months, months - 1, idx);
    BilledPastWindow(s.monthlyRecognized, months, months, through);
    RevenueFollowsCurve(s, start, months, months - 1);
  }

  // ---------------------------------------------------------------------
  // In every prefix: which rates keep deferred revenue from going negative
  // ---------------------------------------------------------------------

  /** What the months of a period recognise: the positive rates inside the window. */
  function RecognisedTotal(curve: Curve, months: int, lo: int, hi: int): int
    decreases hi - lo
  {
    if hi <= lo then 0
    else (if lo < months then Max(CurveAt(curve, lo), 0) else 0) + RecognisedTotal(curve, months, lo + 1, hi)
  }

  /** The cash of a billing covers what its months recognise; a billing that comes to
      nothing is skipped, its months with it. */
  predicate Covers(curve: Curve, months: int, lo: int, hi: int) {
    BilledTotal(curve, months, lo, hi) <= 0
    || BilledTotal(curve, months, lo, hi) >= RecognisedTotal(curve, months, lo, hi)
  }

  predicate CoveredStream(s: RevenueStream, months: int)
    requires ValidStream(s, months) && s.collection.kind == Prepaid
  {
    var offs := BillingOffsets(s.collection, months);
    forall i :: 0 <= i < |offs| ==>
      Covers(s.monthlyRecognized, months, offs[i], PeriodEnd(offs, i, s.collection.billEvery))
  }

  lemma {:induction false} RecognisedAtLeastBilled(curve: Curve, months: int, lo: int, hi: int)
    requires hi <= months
    ensures BilledTotal(curve, months, lo, hi) <= RecognisedTotal(curve, months, lo, hi)
    decreases hi - lo
  {
    if lo < hi {
      RecognisedAtLeastBilled(curve, months, lo + 1, hi);
    }
  }

  lemma {:induction false} RatesCover(curve: Curve, months: int, lo: int, hi: int)
    requires NonNegativeRates(curve, months) && 0 <= lo && months >= 1
    ensures BilledTotal(curve, months, lo, hi) >= RecognisedTotal(curve, months, lo, hi)
    decreases hi - lo
  {
    if lo < hi {
      RatesCover(curve, months, lo + 1, hi);
    }
  }

  /** Rates that are never negative are always covered. */
  lemma NonNegativeRatesCover(s: RevenueStream, months: int)
    requires ValidStream(s, months) && s.collection.kind == Prepaid && months >= 1
    requires NonNegativeRates(s.monthlyRecognized, months)
    ensures CoveredStream(s, months)
  {
    var offs := BillingOffsets(s.collection, months);
    BillingPartition(s.collection, months);
    forall i | 0 <= i < |offs|
      ensures Covers(s.monthlyRecognized, months, offs[i], PeriodEnd(offs, i, s.collection.billEvery))
    {
      RatesCover(s.monthlyRecognized, months, offs[i], PeriodEnd(offs, i, s.collection.billEvery));
    }
  }

  lemma {:induction false} RecognitionsDraw(s: RevenueStream, start: Date, months: int, lo: int, hi: int,
                                            codes: set<string>)
    requires s.revenueAccount !in codes
    ensures Total(NetCredit(codes), Flatten(Recognitions(s, start, months, lo, hi))) ==
            if s.deferredAccount in codes then -RecognisedTotal(s.monthlyRecognized, months, lo, hi) else 0
    decreases hi - lo
  {
    if lo < hi {
      var r := Recognition(s, start, months, lo);
      RecognitionsUnfold(s, start, months, lo, hi);
      RecognitionsDraw(s, start, months, lo + 1, hi, codes);
      TotalConcat(NetCredit(codes), r, Flatten(Recognitions(s, start, months, lo + 1, hi)));
      if r != [] {
        TwoLeggedNet(codes, r[0]);
        assert Weigh(NetCredit(codes), r[0]) ==
               if s.deferredAccount in codes then -CurveAt(s.monthlyRecognized, lo) else 0;
        assert r[1..] == [];
      }
    }
  }

  lemma BillingWeighs(s: RevenueStream, start: Date, months: int, lo: int, hi: int, codes: set<string>)
    requires s.revenueAccount !in codes && s.cashAccount !in codes
    requires BilledTotal(s.monthlyRecognized, months, lo, hi) > 0
    ensures var period := BillingPeriod(s, start, months, lo, hi);
            var rest := Flatten(Recognitions(s, start, months, lo, hi));
            && period == [period[0]] + rest
            && OffsetOf(period[0].date, start) == lo
            && Weigh(NetCredit(codes), period[0]) ==
               (if s.deferredAccount in codes then BilledTotal(s.monthlyRecognized, months, lo, hi) else 0)
            && forall t :: t in rest ==>
                 Key(period[0].date) <= Key(t.date) && Weigh(NetCredit(codes), t) <= 0
                 && lo <= OffsetOf(t.date, start) < hi
  {
    var period := BillingPeriod(s, start, months, lo, hi);
    var parts := Recognitions(s, start, months, lo, hi);
    OffsetOfMonthDate(start, lo, 1);
    TwoLeggedNet(codes, period[0]);
    forall t | t in Flatten(parts)
      ensures Key(period[0].date) <= Key(t.date) && Weigh(NetCredit(codes), t) <= 0
      ensures lo <= OffsetOf(t.date, start) < hi
    {
      var k := FlattenMember(parts, t);
      assert t in Recognition(s, start, months, lo + k);
      MonthDateMonotone(start, lo, 1, lo + k, 28);
      OffsetOfMonthDate(start, lo + k, 28);
      TwoLeggedNet(codes, t);
    }
  }

  /** What a period leaves behind once it is over. */
  lemma PeriodLeaves(s: RevenueStream, start: Date, months: int, lo: int, hi: int, codes: set<string>)
    requires s.revenueAccount !in codes && s.cashAccount !in codes && s.deferredAccount in codes
    ensures var cash := BilledTotal(s.monthlyRecognized, months, lo, hi);
            Total(NetCredit(codes), BillingPeriod(s, start, months, lo, hi)) ==
            if cash <= 0 then 0 else cash - RecognisedTotal(s.monthlyRecognized, months, lo, hi)
    ensures forall t :: t in BillingPeriod(s, start, months, lo, hi) ==> lo <= OffsetOf(t.date, start) < hi
  {
    var cash := BilledTotal(s.monthlyRecognized, months, lo, hi);
    if cash > 0 {
      BillingWeighs(s, start, months, lo, hi, codes);
      RecognitionsDraw(s, start, months, lo, hi, codes);
      hide BillingPeriod, Recognitions, Weigh;
      var period := BillingPeriod(s, start, months, lo, hi);
      assert period[1..] == Flatten(Recognitions(s, start, months, lo, hi));
      assert lo < hi;
    }
  }

  /** One billing keeps the balance non-negative in every prefix if and only if its cash
      covers what its months recognise. */
  lemma PeriodNeverNegativeIff(s: RevenueStream, start: Date, months: int, lo: int, hi: int, codes: set<string>)
    requires s.revenueAccount !in codes && s.cashAccount !in codes
    ensures NeverNegative(NetCredit(codes), Sort(BillingPeriod(s, start, months, lo, hi))) <==>
            s.deferredAccount !in codes || Covers(s.monthlyRecognized, months, lo, hi)
  {
    var m := NetCredit(codes);
    if BilledTotal(s.monthlyRecognized, months, lo, hi) > 0 {
      BillingWeighs(s, start, months, lo, hi, codes);
      RecognitionsDraw(s, start, months, lo, hi, codes);
      hide BillingPeriod, Recognitions, Weigh, Sort;
      HeadCovers(m, BillingPeriod(s, start, months, lo, hi)[0], Flatten(Recognitions(s, start, months, lo, hi)));
    } else {
      SortNonNegative(m, BillingPeriod(s, start, months, lo, hi));
    }
  }

  lemma OffsetsFromZero(pol: CollectionPolicy, months: int)
    requires pol.billEvery >= 1 || FirstBilling(pol) >= months
    ensures var offs := BillingOffsets(pol, months);
            && (forall i :: 0 <= i < |offs| ==> offs[i] >= 0)
            && (forall i :: 0 < i < |offs| ==> offs[i] < months)
            && (forall i, j :: 0 <= i < j < |offs| ==> PeriodEnd(offs, i, pol.billEvery) <= offs[j])
            && (|offs| > 1 ==> forall i :: 0 <= i < |offs| ==> offs[i] < PeriodEnd(offs, i, pol.billEvery))
  {
    CadenceSteps(FirstBilling(pol), pol.billEvery, months);
    CadenceRange(FirstBilling(pol), pol.billEvery, months);
    var offs, c := BillingOffsets(pol, months), Cadence(FirstBilling(pol), pol.billEvery, months);
    assert forall i :: 0 < i < |offs| ==> offs[i] == c[i - 1] && c[i - 1] in c;
  }

  lemma {:induction false} NegativeSum(xs: seq<int>, p: nat)
    requires p < |xs| && xs[p] < 0
    requires forall i :: 0 <= i < |xs| ==> xs[i] <= 0
    ensures SumOf(xs) < 0
  {
    if p > 0 {
      NegativeSum(xs[1..], p - 1);
    } else if |xs| > 1 {
      NonPositiveSum(xs[1..]);
    }
  }

  lemma {:induction false} NonPositiveSum(xs: seq<int>)
    requires forall i :: 0 <= i < |xs| ==> xs[i] <= 0
    ensures SumOf(xs) <= 0
  {
    if xs != [] {
      NonPositiveSum(xs[1..]);
    }
  }

  function Leaves(curve: Curve, months: int, lo: int, hi: int): int {
    var cash := BilledTotal(curve, months, lo, hi);
    if cash <= 0 then 0 else cash - RecognisedTotal(curve, months, lo, hi)
  }

  lemma LeavesNothing(curve: Curve, months: int, lo: int, hi: int)
    requires hi <= months
    ensures Leaves(curve, months, lo, hi) <= 0
  {
    RecognisedAtLeastBilled(curve, months, lo, hi);
  }

  lemma PeriodThrough(s: RevenueStream, start: Date, months: int, lo: int, hi: int, k: int)
    requires DistinctAccounts(s) && 0 <= lo && (hi <= k + 1 || k < lo)
    ensures Total(DeferredBy(s, start, k), BillingPeriod(s, start, months, lo, hi)) ==
            if hi <= k + 1 then Leaves(s.monthlyRecognized, months, lo, hi) else 0
  {
    PeriodLeaves(s, start, months, lo, hi, {s.deferredAccount});
    hide BillingPeriod, Total;
    var period := BillingPeriod(s, start, months, lo, hi);
    if hi <= k + 1 {
      DuringAll(NetCredit({s.deferredAccount}), start, 0, k, period);
    } else {
      DuringNone(NetCredit({s.deferredAccount}), start, 0, k, period);
    }
  }

  lemma PeriodPlace(pol: CollectionPolicy, months: int, p: nat, i: nat)
    requires pol.billEvery >= 1 || FirstBilling(pol) >= months
    requires p < |BillingOffsets(pol, months)| && i < |BillingOffsets(pol, months)|
    ensures var offs := BillingOffsets(pol, months);
            var end, last := PeriodEnd(offs, i, pol.billEvery), PeriodEnd(offs, p, pol.billEvery);
            && offs[i] >= 0
            && (i < p ==> end < last && end <= months)
            && (i > p ==> last <= offs[i] < end)
  {
    OffsetsFromZero(pol, months);
    hide BillingOffsets, PeriodEnd;
  }

  /** Nothing is left behind by a period before p, and nothing of one after it is dated
      before p ends. */
  lemma PeriodUpTo(s: RevenueStream, start: Date, months: int, p: nat, i: nat)
    requires ValidStream(s, months) && s.collection.kind == Prepaid && DistinctAccounts(s)
    requires p < |BillingOffsets(s.collection, months)| && i < |BillingOffsets(s.collection, months)|
    ensures var offs, every := BillingOffsets(s.collection, months), s.collection.billEvery;
            var hi := PeriodEnd(offs, i, every);
            && Total(DeferredBy(s, start, PeriodEnd(offs, p, every) - 1),
                     BillingPeriod(s, start, months, offs[i], hi)) ==
               (if i <= p then Leaves(s.monthlyRecognized, months, offs[i], hi) else 0)
            && (i < p ==> Leaves(s.monthlyRecognized, months, offs[i], hi) <= 0)
  {
    var offs, every := BillingOffsets(s.collection, months), s.collection.billEvery;
    PeriodPlace(s.collection, months, p, i);
    hide BillingOffsets, BillingPeriod, PeriodEnd, Total, DeferredBy, Leaves, DistinctAccounts;
    PeriodThrough(s, start, months, offs[i], PeriodEnd(offs, i, every), PeriodEnd(offs, p, every) - 1);
    if i < p {
      LeavesNothing(s.monthlyRecognized, months, offs[i], PeriodEnd(offs, i, every));
    }
  }

  /** So through the end of a period that is not covered the balance is below zero. */
  lemma UncoveredPeriodOverdraws(s: RevenueStream, start: Date, months: int, p: nat)
    requires ValidStream(s, months) && s.collection.kind == Prepaid && DistinctAccounts(s)
    requires var offs := BillingOffsets(s.collection, months);
             p < |offs| && !Covers(s.monthlyRecognized, months, offs[p], PeriodEnd(offs, p, s.collection.billEvery))
    ensures var k := PeriodEnd(BillingOffsets(s.collection, months), p, s.collection.billEvery) - 1;
            Total(DeferredBy(s, start, k), PrepaidRevenue(s, start, months)) < 0
  {
    var offs, every := BillingOffsets(s.collection, months), s.collection.billEvery;
    var k := PeriodEnd(offs, p, every) - 1;
    var parts := BillingPeriods(s, start, months, offs);
    var totals := seq(|offs|, i requires 0 <= i < |offs| =>
      if i <= p then Leaves(s.monthlyRecognized, months, offs[i], PeriodEnd(offs, i, every)) else 0);
    assert totals[p] < 0;
    hide BillingOffsets, BillingPeriod, Total, Flatten, DeferredBy, Leaves, PeriodEnd, Covers;
    forall i | 0 <= i < |parts|
      ensures Total(DeferredBy(s, start, k), parts[i]) == totals[i]
      ensures totals[i] <= 0
    {
      PeriodUpTo(s, start, months, p, i);
    }
    FlattenTotal(DeferredBy(s, start, k), parts, totals);
    NegativeSum(totals, p);
  }

  lemma PrepaidOffsets(s: RevenueStream, start: Date, months: int)
    requires ValidStream(s, months) && s.collection.kind == Prepaid && DistinctAccounts(s)
    ensures forall t :: t in PrepaidRevenue(s, start, months) ==> OffsetOf(t.date, start) >= 0
  {
    var offs, every := BillingOffsets(s.collection, months), s.collection.billEvery;
    OffsetsFromZero(s.collection, months);
    forall t | t in PrepaidRevenue(s, start, months)
      ensures OffsetOf(t.date, start) >= 0
    {
      var i := FlattenMember(BillingPeriods(s, start, months, offs), t);
      PeriodLeaves(s, start, months, offs[i], PeriodEnd(offs, i, every), {s.deferredAccount});
    }
  }

  lemma CoveredNeverNegative(s: RevenueStream, start: Date, months: int, codes: set<string>)
    requires ValidStream(s, months) && s.collection.kind == Prepaid
    requires s.revenueAccount !in codes && s.cashAccount !in codes
    requires s.deferredAccount in codes ==> CoveredStream(s, months)
    ensures NeverNegative(NetCredit(codes), Sort(PrepaidRevenue(s, start, months)))
  {
    var offs := BillingOffsets(s.collection, months);
    var parts := BillingPeriods(s, start, months, offs);
    forall i | 0 <= i < |parts|
      ensures NeverNegative(NetCredit(codes), Sort(parts[i]))
    {
      PeriodNeverNegativeIff(s, start, months, offs[i], PeriodEnd(offs, i, s.collection.billEvery), codes);
    }
    FlattenNeverNegative(NetCredit(codes), parts);
  }

  /** Exactly which rates a prepaid stream can have: its deferred balance is non-negative
      in every prefix if and only if each billing's cash covers what it recognises. */
  lemma StreamNeverNegativeIff(s: RevenueStream, start: Date, months: int)
    requires ValidStream(s, months) && s.collection.kind == Prepaid && DistinctAccounts(s)
    ensures NeverNegative(NetCredit({s.deferredAccount}), Sort(PrepaidRevenue(s, start, months))) <==>
            CoveredStream(s, months)
  {
    if CoveredStream(s, months) {
      CoveredNeverNegative(s, start, months, {s.deferredAccount});
    } else {
      var offs, every := BillingOffsets(s.collection, months), s.collection.billEvery;
      var p :| 0 <= p < |offs| && !Covers(s.monthlyRecognized, months, offs[p], PeriodEnd(offs, p, every));
      UncoveredPeriodOverdraws(s, start, months, p);
      PrepaidOffsets(s, start, months);
      hide PrepaidRevenue, Sort, NeverNegative, Total;
      DipsAtMonthEnd(NetCredit({s.deferredAccount}), start, PeriodEnd(offs, p, every) - 1,
                     PrepaidRevenue(s, start, months));
    }
  }

  /** A witness: two months at 5 then -3, billed together, take 2 in cash and
      recognise 5. */
  lemma NegativeRateOverdraws(start: Date, s: RevenueStream)
    requires s.collection.kind == Prepaid && s.collection.billPhase == 0 && s.collection.billEvery == 2
    requires DistinctAccounts(s) && s.monthlyRecognized == map[0 := 5, 1 := -3]
    ensures Total(NetCredit({s.deferredAccount}), PrepaidRevenue(s, start, 2)) == -3
    ensures !NeverNegative(NetCredit({s.deferredAccount}), Sort(PrepaidRevenue(s, start, 2)))
  {
    var curve := s.monthlyRecognized;
    assert BillingOffsets(s.collection, 2) == [0];
    assert BilledTotal(curve, 2, 1, 2) == -3 + BilledTotal(curve, 2, 2, 2);
    assert RecognisedTotal(curve, 2, 1, 2) == 0 + RecognisedTotal(curve, 2, 2, 2);
    assert BilledTotal(curve, 2, 0, 2) == 2 && RecognisedTotal(curve, 2, 0, 2) == 5;
    assert !Covers(curve, 2, 0, PeriodEnd([0], 0, 2));
    StreamNeverNegativeIff(s, start, 2);
    PeriodLeaves(s, start, 2, 0, 2, {s.deferredAccount});
    var parts := BillingPeriods(s, start, 2, [0]);
    assert parts[1..] == [];
    assert Flatten(parts) == parts[0] + Flatten([]);
    assert PrepaidRevenue(s, start, 2) == BillingPeriod(s, start, 2, 0, 2);
  }

  // ---------------------------------------------------------------------
  // The whole scenario
  // ---------------------------------------------------------------------

  /** Only the deferred side of covered prepaid streams posts to the given accounts. */
  predicate OnlyDeferred(sc: Scenario, codes: set<string>)
    requires ValidScenario(sc)
  {
    && (forall t :: t in sc.opening ==> forall l :: l in t.lines ==> l.code !in codes)
    && (forall s :: s in sc.revenue ==> s.revenueAccount !in codes && s.cashAccount !in codes)
    && (forall s :: s in sc.revenue && s.collection.kind != Prepaid ==> s.arAccount !in codes)
    && (forall s :: s in sc.revenue && s.collection.kind == Prepaid && s.deferredAccount in codes ==>
          CoveredStream(s, sc.months))
    && OtherAccounts(sc) !! codes
  }

  lemma OffFlow(sc: Scenario, start: Date, i: nat, codes: set<string>)
    requires ValidScenario(sc) && i < |sc.revenue| && RevenueAccounts(sc.revenue[i]) !! codes
    ensures forall t :: t in RevenueFlows(sc, start)[i] ==> Weigh(NetCredit(codes), t) == 0
  {
    forall t | t in RevenueFlows(sc, start)[i]
      ensures Weigh(NetCredit(codes), t) == 0
    {
      RevenueFlowed(sc.revenue[i], start, sc.months, t);
      TwoLeggedNet(codes, t);
    }
  }

  lemma OffOthers(sc: Scenario, start: Date, codes: set<string>)
    requires ValidScenario(sc) && OtherAccounts(sc) !! codes
    requires forall t :: t in sc.opening ==> forall l :: l in t.lines ==> l.code !in codes
    ensures forall t :: t in OtherFlows(sc, start) || t in sc.opening ==> Weigh(NetCredit(codes), t) == 0
  {
    forall t | t in sc.opening
      ensures Weigh(NetCredit(codes), t) == 0
    {
      OffAccounts(codes, t.lines);
    }
    forall t | t in OtherFlows(sc, start)
      ensures Weigh(NetCredit(codes), t) == 0
    {
      OtherFlowed(sc, start, t);
      TwoLeggedNet(codes, t);
    }
  }

  /** The whole stream is the opening, the revenue flows and the rest; where only revenue
      posts to the accounts, only revenue decides. */
  lemma RevenueDecides(sc: Scenario, start: Date, codes: set<string>)
    requires ValidScenario(sc) && OtherAccounts(sc) !! codes
    requires forall t :: t in sc.opening ==> forall l :: l in t.lines ==> l.code !in codes
    ensures NeverNegative(NetCredit(codes), Emitted(sc, start)) <==>
            NeverNegative(NetCredit(codes), Sort(Flatten(RevenueFlows(sc, start))))
  {
    var m := NetCredit(codes);
    OffOthers(sc, start, codes);
    var revenue := Flatten(RevenueFlows(sc, start));
    NeutralMerge(m, sc.opening, revenue);
    NeutralMerge(m, OtherFlows(sc, start), sc.opening + revenue);
  }

  /** Over the whole scenario, deferred revenue is never negative in any prefix of
      the date-sorted stream, however many covered streams share the account. */
  lemma DeferredNeverNegative(sc: Scenario, start: Date, codes: set<string>)
    requires ValidScenario(sc) && OnlyDeferred(sc, codes)
    ensures NeverNegative(NetCredit(codes), Emitted(sc, start))
  {
    var m := NetCredit(codes);
    var flows := RevenueFlows(sc, start);
    forall i | 0 <= i < |flows|
      ensures NeverNegative(m, Sort(flows[i]))
    {
      var s := sc.revenue[i];
      assert s in sc.revenue;
      if s.collection.kind == Prepaid {
        CoveredNeverNegative(s, start, sc.months, codes);
      } else {
        OffFlow(sc, start, i, codes);
        SortNonNegative(m, flows[i]);
      }
    }
    FlattenNeverNegative(m, flows);
    RevenueDecides(sc, start, codes);
  }

  /** No flow but stream i, and nothing in the opening, posts to its deferred account. */
  predicate OwnAccount(sc: Scenario, i: nat)
    requires i < |sc.revenue|
  {
    var account := sc.revenue[i].deferredAccount;
    && DistinctAccounts(sc.revenue[i]) && account !in OtherAccounts(sc)
    && (forall t :: t in sc.opening ==> forall l :: l in t.lines ==> l.code != account)
    && (forall j :: 0 <= j < |sc.revenue| && j != i ==> account !in RevenueAccounts(sc.revenue[j]))
  }

  lemma OffFlows(sc: Scenario, start: Date, lo: nat, hi: nat, codes: set<string>)
    requires ValidScenario(sc) && lo <= hi <= |sc.revenue|
    requires forall j :: lo <= j < hi ==> RevenueAccounts(sc.revenue[j]) !! codes
    ensures forall t :: t in Flatten(RevenueFlows(sc, start)[lo..hi]) ==> Weigh(NetCredit(codes), t) == 0
  {
    hide Weigh, RevenueAccounts, Flatten;
    var part := RevenueFlows(sc, start)[lo..hi];
    forall t | t in Flatten(part)
      ensures Weigh(NetCredit(codes), t) == 0
    {
      var j := FlattenMember(part, t);
      OffFlow(sc, start, lo + j, codes);
    }
  }

  lemma OwnFlowDecides(sc: Scenario, start: Date, i: nat)
    requires ValidScenario(sc) && i < |sc.revenue| && OwnAccount(sc, i)
    ensures var m := NetCredit({sc.revenue[i].deferredAccount});
            var flows := RevenueFlows(sc, start);
            NeverNegative(m, Sort(Flatten(flows))) <==> NeverNegative(m, Sort(flows[i]))
  {
    var codes := {sc.revenue[i].deferredAccount};
    var flows := RevenueFlows(sc, start);
    OffFlows(sc, start, 0, i, codes);
    OffFlows(sc, start, i + 1, |sc.revenue|, codes);
    assert |flows| == |sc.revenue|;
    hide Weigh, Sort, RevenueFlows, Flatten, NeverNegative, ValidScenario, OwnAccount;
    assert flows[0..i] == flows[..i] && flows[i + 1..|flows|] == flows[i + 1..];
    FlattenAround(flows, i);
    NeutralMerge(NetCredit(codes), Flatten(flows[i + 1..]), Flatten(flows[..i]) + flows[i]);
    NeutralMerge(NetCredit(codes), Flatten(flows[..i]), flows[i]);
  }

  /** And for a stream with a deferred account of its own, exactly then. */
  lemma DeferredNeverNegativeIff(sc: Scenario, start: Date, i: nat)
    requires ValidScenario(sc) && i < |sc.revenue| && OwnAccount(sc, i)
    requires sc.revenue[i].collection.kind == Prepaid
    ensures NeverNegative(NetCredit({sc.revenue[i].deferredAccount}), Emitted(sc, start)) <==>
            CoveredStream(sc.revenue[i], sc.months)
  {
    RevenueDecides(sc, start, {sc.revenue[i].deferredAccount});
    OwnFlowDecides(sc, start, i);
    StreamNeverNegativeIff(sc.revenue[i], start, sc.months);
    assert RevenueFlows(sc, start)[i] == PrepaidRevenue(sc.revenue[i], start, sc.months);
  }

  // ---------------------------------------------------------------------
  // Phase-shifted cohorts
  // ---------------------------------------------------------------------

  function Scale(curve: Curve, num: int, den: int): Curve
    requires den != 0
  {
    map off | off in curve :: FloorDiv(curve[off] * num, den)
  }

  function StaggeredPrepaid(customers: seq<string>, revenueAccount: string, monthlyRecognized: Curve,
                            cohorts: int, deferredAccount: string, cashAccount: string): seq<RevenueStream>
  {
    seq(Count(cohorts), k requires 0 <= k < Count(cohorts) =>
      RevenueStream(if customers == [] then [] else [customers[k % |customers|]],
                    revenueAccount, Scale(monthlyRecognized, 1, cohorts),
                    CollectionPolicy(Prepaid, 30, map[], cohorts, k),
                    "1100", deferredAccount, cashAccount, 12))
  }

  lemma ModStep(a: int, n: int)
    requires n >= 1
    ensures (a - n) % n == a % n
  {
    var q := a / n;
    var r := a % n;
    assert a == q * n + r;
    assert a - n == (q - 1) * n + r;
    DivModUnique(a - n, n, q - 1, r);
  }

  lemma {:induction false} CadenceMember(next: int, every: int, months: int, x: int)
    requires every >= 1
    ensures x in Cadence(next, every, months) <==> next <= x < months && (x - next) % every == 0
    decreases months - next
  {
    if next < months {
      CadenceMember(next + every, every, months, x);
      ModStep(x - next, every);
      if next < x < next + every {
        DivModUnique(x - next, every, 0, x - next);
      }
      DivModUnique(0, every, 0, 0);
    }
  }

  /** All cohorts are primed at offset 0; after that exactly cohort (offset mod n) bills. */
  lemma OneCohortBills(customers: seq<string>, revenueAccount: string, curve: Curve, n: int,
                       deferredAccount: string, cashAccount: string, months: int, off: int, k: int)
    requires n >= 1 && 0 <= k < n && 0 <= off < months
    ensures var cohort := StaggeredPrepaid(customers, revenueAccount, curve, n, deferredAccount, cashAccount)[k];
            off in BillingOffsets(cohort.collection, months) <==> off == 0 || off % n == k
  {
    var first := if k > 0 then k else n;
    CadenceMember(first, n, months, off);
    if off > 0 {
      PhaseCongruence(off, n, k);
    }
  }

  lemma PhaseCongruence(off: int, n: int, k: int)
    requires n >= 1 && 0 <= k < n && off > 0
    ensures var first := if k > 0 then k else n;
            first <= off && (off - first) % n == 0 <==> off % n == k
  {
    var first := if k > 0 then k else n;
    var q := off / n;
    assert off == q * n + off % n;
    if off < first {
      DivModUnique(off, n, 0, off);
    } else if off % n == k {
      var p := if k > 0 then q else q - 1;
      assert off - first == p * n;
      DivModUnique(off - first, n, p, 0);
    } else if (off - first) % n == 0 {
      var p := (off - first) / n;
      assert off - first == p * n;
      DivModUnique(off, n, if k > 0 then p else p + 1, k);
    }
  }

  function CohortRates(cohorts: seq<RevenueStream>, m: int): seq<int> {
    seq(|cohorts|, k requires 0 <= k < |cohorts| => CurveAt(cohorts[k].monthlyRecognized, m))
  }

  /** Together the cohorts recognise at most the curve, and less than n cents below it. */
  lemma CohortsRecogniseCurve(customers: seq<string>, revenueAccount: string, curve: Curve, n: int,
                              deferredAccount: string, cashAccount: string, m: int)
    requires n >= 1
    ensures var cohorts := StaggeredPrepaid(customers, revenueAccount, curve, n, deferredAccount, cashAccount);
            CurveAt(curve, m) - n < SumOf(CohortRates(cohorts, m)) <= CurveAt(curve, m)
  {
    var cohorts := StaggeredPrepaid(customers, revenueAccount, curve, n, deferredAccount, cashAccount);
    var v := CurveAt(curve, m);
    assert v == n * (v / n) + v % n;
    assert 0 / n == 0;
    assert CurveAt(Scale(curve, 1, n), m) == v / n;
    EqualSum(CohortRates(cohorts, m), v / n);
  }
}

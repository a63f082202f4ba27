// The open-invoice index against the ledger: while the emitted stream is lowered
// to events, what the stacks hold is worth exactly the receivables balance, and
// every payment of an invoiced customer finds an invoice to discharge.

module OpenInvoices {
  import opened Calendar
  import opened Drivers
  import opened Ledger
  import opened Engine
  import opened Emission
  import opened Receivables
  import opened Sums
  import opened Events

  function KeyOf(t: Txn): InvoiceKey { (AgentKey(t), Debits(t.lines)) }

  function Height(b: Books, key: InvoiceKey): nat { |Stack(b.index, key)| }

  /** The worth of the index: amount times stack height, over all keys. */
  ghost function IndexValue(index: map<InvoiceKey, seq<nat>>): int {
    MapSum(map key | key in index :: key.1 * |index[key]|)
  }

  lemma IndexValueStep(index: map<InvoiceKey, seq<nat>>, key: InvoiceKey, stack: seq<nat>)
    ensures IndexValue(index[key := stack]) == IndexValue(index) + key.1 * (|stack| - |Stack(index, key)|)
  {
    var index' := index[key := stack];
    var worth := map k | k in index :: k.1 * |index[k]|;
    assert (map k | k in index' :: k.1 * |index'[k]|) == worth[key := key.1 * |stack|];
    MapSumUpdate(worth, key, key.1 * |stack|);
    assert key.1 * (|stack| - |Stack(index, key)|) == key.1 * |stack| - key.1 * |Stack(index, key)|;
  }

  lemma LowerIndex(b: Books, t: Txn, look: Lookups)
    requires Posts(t, look)
    ensures var key := KeyOf(t);
            var stack := Stack(b.index, key);
            Lower(b, t, look).index ==
            if t.kind == Invoice then b.index[key := stack + [|b.events|]]
            else if t.kind == Payment && stack != [] then b.index[key := stack[..|stack| - 1]]
            else b.index
  {
  }

  lemma PushValue(index: map<InvoiceKey, seq<nat>>, key: InvoiceKey, id: nat)
    ensures IndexValue(index[key := Stack(index, key) + [id]]) == IndexValue(index) + key.1
  {
    IndexValueStep(index, key, Stack(index, key) + [id]);
  }

  lemma PopValue(index: map<InvoiceKey, seq<nat>>, key: InvoiceKey)
    requires Stack(index, key) != []
    ensures IndexValue(index[key := Stack(index, key)[..|Stack(index, key)| - 1]]) == IndexValue(index) - key.1
  {
    IndexValueStep(index, key, Stack(index, key)[..|Stack(index, key)| - 1]);
  }

  /** Lowering one transaction moves the worth of the index by its amount. */
  lemma LowerIndexValue(b: Books, t: Txn, look: Lookups)
    requires Posts(t, look)
    ensures IndexValue(Lower(b, t, look).index) ==
            IndexValue(b.index) + if t.kind == Invoice then Debits(t.lines)
                                  else if t.kind == Payment && Height(b, KeyOf(t)) > 0 then -Debits(t.lines)
                                  else 0
  {
    LowerIndex(b, t, look);
    if t.kind == Invoice {
      PushValue(b.index, KeyOf(t), |b.events|);
    } else if t.kind == Payment && Height(b, KeyOf(t)) > 0 {
      PopValue(b.index, KeyOf(t));
    }
  }

  /** How one transaction moves the stacks. */
  lemma LowerHeight(b: Books, t: Txn, look: Lookups, key: InvoiceKey)
    requires Posts(t, look)
    ensures Height(Lower(b, t, look), key) ==
            Height(b, key) + if key != KeyOf(t) then 0
                             else if t.kind == Invoice then 1
                             else if t.kind == Payment && Height(b, key) > 0 then -1
                             else 0
  {
  }

  lemma LowerAllSnoc(txns: seq<Txn>, n: nat, look: Lookups)
    requires n < |txns|
    ensures LowerAll(txns[..n + 1], look) == Lower(LowerAll(txns[..n], look), txns[n], look)
  {
    assert txns[..n + 1][..n] == txns[..n];
  }

  /** Under a key whose payments never run ahead, the stack is as high as invoices
      less payments so far. */
  lemma {:induction false} HeightIsOpenCount(txns: seq<Txn>, n: nat, look: Lookups, key: InvoiceKey)
    requires n <= |txns| && NeverNegative(Open(key.0, key.1), txns)
    requires forall t :: t in txns ==> Posts(t, look)
    ensures Height(LowerAll(txns[..n], look), key) == Total(Open(key.0, key.1), txns[..n])
  {
    if n > 0 {
      hide Lower, LowerAll, Posts, Stack;
      var m := Open(key.0, key.1);
      assert Total(m, txns[..n]) >= 0;
      HeightIsOpenCount(txns, n - 1, look, key);
      hide NeverNegative;
      LowerAllSnoc(txns, n - 1, look);
      TotalSnoc(m, txns, n - 1);
      assert Posts(txns[n - 1], look);
      LowerHeight(LowerAll(txns[..n - 1], look), txns[n - 1], look, key);
    }
  }

  /** A customer who is never invoiced never has a stack. */
  lemma {:induction false} NeverInvoicedNoStack(txns: seq<Txn>, n: nat, look: Lookups, key: InvoiceKey)
    requires n <= |txns|
    requires forall t :: t in txns ==> Posts(t, look) && (t.kind == Invoice ==> AgentKey(t) != key.0)
    ensures Height(LowerAll(txns[..n], look), key) == 0
  {
    if n > 0 {
      NeverInvoicedNoStack(txns, n - 1, look, key);
      LowerAllSnoc(txns, n - 1, look);
      assert Posts(txns[n - 1], look);
      LowerHeight(LowerAll(txns[..n - 1], look), txns[n - 1], look, key);
    }
  }

  /** Invoices raise the receivables by their amount; payments either settle one, and
      never run ahead under their key, or concern a customer who is never invoiced;
      nothing else touches them. */
  ghost predicate Matched(txns: seq<Txn>, t: Txn, codes: set<string>) {
    match t.kind
    case Invoice => NetOn(codes, t.lines) == Debits(t.lines)
    case Payment =>
      || (NetOn(codes, t.lines) == -Debits(t.lines) && NeverNegative(Open(AgentKey(t), Debits(t.lines)), txns))
      || (NetOn(codes, t.lines) == 0 && forall u :: u in txns && u.kind == Invoice ==> AgentKey(u) != AgentKey(t))
    case _ => NetOn(codes, t.lines) == 0
  }

  /** A payment that never runs ahead finds an invoice of its key to discharge. */
  lemma PaymentFindsInvoice(txns: seq<Txn>, n: nat, look: Lookups)
    requires n < |txns| && txns[n].kind == Payment
    requires NeverNegative(Open(AgentKey(txns[n]), Debits(txns[n].lines)), txns)
    requires forall t :: t in txns ==> Posts(t, look)
    ensures var b := LowerAll(txns[..n], look);
            var after := LowerAll(txns[..n + 1], look).events;
            && Stack(b.index, KeyOf(txns[n])) != []
            && |after| == |b.events| + 1
            && after[|b.events|].discharges.Some?
  {
    var key := KeyOf(txns[n]);
    HeightIsOpenCount(txns, n, look, key);
    LowerAllSnoc(txns, n, look);
    TotalSnoc(Open(key.0, key.1), txns, n);
    assert Posts(txns[n], look);
    assert Total(Open(key.0, key.1), txns[..n + 1]) >= 0;
  }

  lemma MatchedStep(txns: seq<Txn>, n: nat, look: Lookups, codes: set<string>)
    requires n < |txns| && Matched(txns, txns[n], codes)
    requires forall t :: t in txns ==> Posts(t, look)
    ensures IndexValue(LowerAll(txns[..n + 1], look).index) ==
            IndexValue(LowerAll(txns[..n], look).index) + NetOn(codes, txns[n].lines)
  {
    hide Lower, LowerAll, IndexValue, Stack;
    var t := txns[n];
    assert Posts(t, look);
    LowerAllSnoc(txns, n, look);
    LowerIndexValue(LowerAll(txns[..n], look), t, look);
    if t.kind == Payment {
      if NetOn(codes, t.lines) == -Debits(t.lines) && NeverNegative(Open(AgentKey(t), Debits(t.lines)), txns) {
        PaymentFindsInvoice(txns, n, look);
        assert Height(LowerAll(txns[..n], look), KeyOf(t)) > 0;
      } else {
        NeverInvoicedNoStack(txns, n, look, KeyOf(t));
      }
    }
  }

  lemma {:induction false} IndexAgrees(txns: seq<Txn>, n: nat, look: Lookups, codes: set<string>)
    requires n <= |txns|
    requires forall t :: t in txns ==> Posts(t, look) && Matched(txns, t, codes)
    ensures IndexValue(LowerAll(txns[..n], look).index) == Total(NetDebit(codes), txns[..n])
  {
    if n > 0 {
      hide Lower, LowerAll, Posts, Matched, IndexValue;
      IndexAgrees(txns, n - 1, look, codes);
      TotalSnoc(NetDebit(codes), txns, n - 1);
      assert Posts(txns[n - 1], look) && Matched(txns, txns[n - 1], codes);
      MatchedStep(txns, n - 1, look, codes);
    }
  }

  // ---------------------------------------------------------------------
  // The emitted stream
  // ---------------------------------------------------------------------

  /** The receivables accounts are used by accrual streams alone, the opening raises
      no invoice and takes no payment, and no prepaid customer is also invoiced. */
  predicate InvoicesApart(sc: Scenario, codes: set<string>) {
    && OnlyReceivables(sc, codes)
    && (forall s :: s in sc.revenue && IsAccrual(s) ==> s.arAccount in codes)
    && (forall t :: t in sc.opening ==> t.kind != Invoice && t.kind != Payment)
    && (forall s, c :: s in sc.revenue && IsAccrual(s) && c in s.customers ==> OnlyInvoiced(sc, c))
  }

  /** An emitted invoice or payment is a unit of an accrual stream or a prepaid billing. */
  lemma CollectionMember(sc: Scenario, start: Date, t: Txn) returns (s: RevenueStream)
    requires ValidScenario(sc)
    requires forall u :: u in sc.opening ==> u.kind != Invoice && u.kind != Payment
    requires t in Emitted(sc, start) && t.kind in {Invoice, Payment}
    ensures s in sc.revenue
    ensures IsAccrual(s) ==> t in Flatten(AccrualMonths(s, start, sc.months, WindowEnd(sc, start)))
    ensures !IsAccrual(s) ==> t.kind == Payment && t.agent == BillingAgent(s) && TwoLegged(t)
                              && t in PrepaidRevenue(s, start, sc.months)
  {
    EmittedShape(sc, start, t);
    var i := FlattenMember(RevenueFlows(sc, start), t);
    s := sc.revenue[i];
    if !IsAccrual(s) {
      PrepaidRevenueWeights(s, start, sc.months, t);
    }
  }

  lemma AccrualMatches(s: RevenueStream, start: Date, months: int, windowEnd: Date, codes: set<string>, t: Txn)
    requires ValidStream(s, months) && IsAccrual(s) && s.arAccount in codes
    requires s.revenueAccount !in codes && s.cashAccount !in codes
    requires t in Flatten(AccrualMonths(s, start, months, windowEnd))
    ensures t.agent.Some? && t.agent.value in s.customers
    ensures t.kind in {Invoice, Payment}
    ensures NetOn(codes, t.lines) == if t.kind == Invoice then Debits(t.lines) else -Debits(t.lines)
  {
    var offset, i := AccrualMember(s, start, months, windowEnd, t);
    TwoLeggedNet(codes, t);
    TwoLeggedBalances(t);
  }

  lemma CollectionMatches(sc: Scenario, start: Date, codes: set<string>, t: Txn)
    requires ValidScenario(sc) && LagsForward(sc) && InvoicesApart(sc, codes)
    requires t in Emitted(sc, start) && t.kind in {Invoice, Payment}
    ensures Matched(Emitted(sc, start), t, codes)
  {
    var s := CollectionMember(sc, start, t);
    if IsAccrual(s) {
      AccrualMatches(s, start, sc.months, WindowEnd(sc, start), codes, t);
      assert OnlyInvoiced(sc, t.agent.value);
      hide Emitted, NeverNegative, NetOn, Debits;
      InvoicesComeFirst(sc, start, t.agent.value, Debits(t.lines));
    } else {
      PrepaidRevenueWeights(s, start, sc.months, t);
      assert Weigh(NetDebit(codes), t) == 0;
      hide Emitted, NeverNegative, NetOn, Debits, PrepaidRevenue;
      forall u | u in Emitted(sc, start) && u.kind == Invoice
        ensures AgentKey(u) != AgentKey(t)
      {
        InvoicedApart(sc, start, codes, u);
        assert OnlyInvoiced(sc, AgentKey(u));
      }
    }
  }

  lemma InvoicedApart(sc: Scenario, start: Date, codes: set<string>, u: Txn)
    requires ValidScenario(sc) && InvoicesApart(sc, codes)
    requires u in Emitted(sc, start) && u.kind == Invoice
    ensures OnlyInvoiced(sc, AgentKey(u))
  {
    var s := CollectionMember(sc, start, u);
    AccrualMatches(s, start, sc.months, WindowEnd(sc, start), codes, u);
  }

  lemma EmittedMatches(sc: Scenario, start: Date, codes: set<string>, t: Txn)
    requires ValidScenario(sc) && LagsForward(sc) && InvoicesApart(sc, codes)
    requires t in Emitted(sc, start)
    ensures Matched(Emitted(sc, start), t, codes)
  {
    if t.kind in {Invoice, Payment} {
      CollectionMatches(sc, start, codes, t);
    } else {
      SortMembers(Unsorted(sc, start));
      OpeningWeights(sc, codes);
      OtherWeights(sc, start, codes, "", 0);
      if t in Flatten(RevenueFlows(sc, start)) {
        RevenueJournalOff(sc, start, codes, t);
      }
      assert Weigh(NetDebit(codes), t) == 0;
    }
  }

  lemma RevenueJournalOff(sc: Scenario, start: Date, codes: set<string>, t: Txn)
    requires ValidScenario(sc) && InvoicesApart(sc, codes)
    requires t in Flatten(RevenueFlows(sc, start)) && t.kind !in {Invoice, Payment}
    ensures Weigh(NetDebit(codes), t) == 0
  {
    var i := FlattenMember(RevenueFlows(sc, start), t);
    var s := sc.revenue[i];
    if IsAccrual(s) {
      AccrualMatches(s, start, sc.months, WindowEnd(sc, start), codes, t);
    } else {
      PrepaidRevenueWeights(s, start, sc.months, t);
    }
  }

  /** After every transaction of the emitted stream, the index is worth exactly the
      receivables balance. */
  lemma IndexAgreesWithLedger(sc: Scenario, start: Date, codes: set<string>, look: Lookups, n: nat)
    requires ValidScenario(sc) && LagsForward(sc) && InvoicesApart(sc, codes)
    requires forall t :: t in Emitted(sc, start) ==> Posts(t, look)
    requires n <= |Emitted(sc, start)|
    ensures IndexValue(LowerAll(Emitted(sc, start)[..n], look).index) ==
            Total(NetDebit(codes), Emitted(sc, start)[..n])
  {
    var txns := Emitted(sc, start);
    forall t | t in txns
      ensures Posts(t, look) && Matched(txns, t, codes)
    {
      EmittedMatches(sc, start, codes, t);
    }
    IndexAgrees(txns, n, look, codes);
  }

  /** Every payment of an accrual stream discharges an invoice. */
  lemma AccrualPaymentsDischarge(sc: Scenario, start: Date, codes: set<string>, look: Lookups, n: nat)
    requires ValidScenario(sc) && LagsForward(sc) && InvoicesApart(sc, codes)
    requires forall t :: t in Emitted(sc, start) ==> Posts(t, look)
    requires n < |Emitted(sc, start)| && Emitted(sc, start)[n].kind == Payment
    requires exists s, c :: s in sc.revenue && IsAccrual(s) && c in s.customers &&
                            c == AgentKey(Emitted(sc, start)[n])
    ensures var before := LowerAll(Emitted(sc, start)[..n], look).events;
            var after := LowerAll(Emitted(sc, start)[..n + 1], look).events;
            |after| == |before| + 1 && after[|before|].discharges.Some?
  {
    var txns := Emitted(sc, start);
    var t := txns[n];
    assert OnlyInvoiced(sc, AgentKey(t));
    InvoicesComeFirst(sc, start, AgentKey(t), Debits(t.lines));
    PaymentFindsInvoice(txns, n, look);
  }

  // ---------------------------------------------------------------------
  // Balances of the emitted stream
  // ---------------------------------------------------------------------

  /** The bill payments the engine emits are all paid from cash, so splitting them is
      always safe. */
  lemma TwoLeggedPaidFromCash(t: Txn, look: Lookups)
    requires TwoLegged(t) && Posts(t, look)
    ensures PaidFromCash(t, look)
  {
    TwoLeggedBalances(t);
    if Splits(t, look) {
      var cash := look.elements[CASH_CODE];
      var items := ItemsOf(t.lines, look.elements);
      assert t.lines == [t.lines[0], t.lines[1]];
      assert t.lines[1..] == [t.lines[1]] && t.lines[1..][1..] == [];
      assert items[1..] == ItemsOf(t.lines[1..], look.elements);
      assert items[1..][1..] == [];
      var l :| l in t.lines && l.code == CASH_CODE && l.credit > 0;
      assert l == t.lines[1];
      assert items[0] == Item(look.elements[t.lines[0].code], t.lines[0].debit, 0);
      assert items[1] == Item(cash, 0, t.lines[1].credit);
      assert MovedCredits(items, cash) == MovedCredits(items[1..], cash);
      assert MovedDebits(items, cash) == MovedDebits(items[1..], cash);
      assert MovedCredits(items[1..], cash) == t.lines[1].credit + MovedCredits([], cash);
    }
  }

  /** End to end: the events of an emitted stream give every account the balance its
      transactions give it, provided the opening's own bills are paid from cash. */
  lemma EmittedEventsPreserve(sc: Scenario, start: Date, look: Lookups, e: string)
    requires ValidScenario(sc)
    requires forall t :: t in Emitted(sc, start) ==> Posts(t, look)
    requires forall t :: t in sc.opening && Posts(t, look) ==> PaidFromCash(t, look)
    ensures EventsNet(LowerAll(Emitted(sc, start), look).events, e) == TxnsNet(Emitted(sc, start), look, e)
  {
    forall t | t in Emitted(sc, start)
      ensures Posts(t, look) && PaidFromCash(t, look)
    {
      if t !in sc.opening {
        EmittedShape(sc, start, t);
        TwoLeggedPaidFromCash(t, look);
      }
    }
    EventsPreserveBalances(Emitted(sc, start), look, e);
  }
}

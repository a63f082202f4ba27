// What each transaction is recorded as, said of its own kind, agent and lines, and how
// many events of each kind a load records.

module Records {
  import opened Basics
  import opened Drivers
  import opened Ledger
  import opened Events

  /** It has two lines, and every account has an element. */
  predicate Recordable(t: Txn, look: Lookups) {
    |t.lines| > 1 && forall i :: 0 <= i < |t.lines| ==> look.elements.Keys >= {t.lines[i].code}
                                                        && |look.elements[t.lines[i].code]| > 0
  }

  /** The agent's name is known. */
  predicate KnownAgent(t: Txn, look: Lookups) {
    t.agent != None && t.agent != Some("") && t.agent.value in look.agents
  }

  /** A known vendor is paid from cash for something other than a liability: those have the
      codes that begin with 2. */
  predicate VendorBill(t: Txn, look: Lookups) {
    && t.kind == BillPayment && KnownAgent(t, look) && {"1000", "2000"} <= look.elements.Keys
    && (exists i :: 0 <= i < |t.lines| && t.lines[i].code == "1000" && t.lines[i].credit > 0)
    && forall i :: 0 <= i < |t.lines| && t.lines[i].debit > 0 ==> |t.lines[i].code| == 0 || t.lines[i].code[0] != '2'
  }

  /** The event carries the transaction's amount and agent. */
  predicate Carries(x: Event, t: Txn, look: Lookups) {
    && x.amount == Debits(t.lines) && (x.agentId.Some? <==> KnownAgent(t, look))
    && (KnownAgent(t, look) ==> x.agentId.value == look.agents[t.agent.value])
    && (t.agent.Some? ==> x.party == t.agent.value) && (t.agent.None? ==> x.party == "")
  }

  /** The items are the lines, account for account. */
  predicate Itemizes(items: seq<Item>, lines: seq<Line>, look: Lookups) {
    |items| == |lines| &&
    forall i :: 0 <= i < |lines| ==>
      lines[i].code in look.elements
      && items[i] == Item(look.elements[lines[i].code], lines[i].debit, lines[i].credit)
  }

  /** The same, but that what is credited to cash is credited to payables. */
  predicate BillsPayables(items: seq<Item>, lines: seq<Line>, look: Lookups)
    requires {"1000", "2000"} <= look.elements.Keys
  {
    |items| == |lines| &&
    forall i :: 0 <= i < |lines| ==>
      lines[i].code in look.elements &&
      if look.elements[lines[i].code] == look.elements["1000"] && lines[i].credit > 0
      then items[i] == Item(look.elements["2000"], 0, lines[i].credit)
      else items[i] == Item(look.elements[lines[i].code], lines[i].debit, lines[i].credit)
  }

  lemma {:induction false} ItemsItemize(lines: seq<Line>, look: Lookups, ap: string, cash: string)
    requires forall l :: l in lines ==> Resolves(l.code, look.elements)
    ensures Itemizes(ItemsOf(lines, look.elements), lines, look)
    ensures {"1000", "2000"} <= look.elements.Keys && cash == look.elements["1000"] && ap == look.elements["2000"] ==>
              BillsPayables(BillItems(ItemsOf(lines, look.elements), ap, cash), lines, look)
  {
    if lines != [] {
      ItemsItemize(lines[1..], look, ap, cash);
      var items := ItemsOf(lines, look.elements);
      assert items[1..] == ItemsOf(lines[1..], look.elements);
      assert BillItems(items, ap, cash)[1..] == BillItems(items[1..], ap, cash);
      assert forall i :: 0 < i < |lines| ==> lines[i] == lines[1..][i - 1];
      assert forall i :: 0 < i < |items| ==> items[i] == items[1..][i - 1];
    }
  }

  lemma ClassesAre(t: Txn, look: Lookups)
    ensures Posts(t, look) <==> Recordable(t, look)
    ensures Splits(t, look) <==> VendorBill(t, look)
    ensures AgentId(t, look) == if KnownAgent(t, look) then Some(look.agents[t.agent.value]) else None
  {
    if Recordable(t, look) {
      forall l | l in t.lines
        ensures Resolves(l.code, look.elements)
      {
        var i :| 0 <= i < |t.lines| && t.lines[i] == l;
      }
    }
    assert forall l :: l in t.lines <==> exists i :: 0 <= i < |t.lines| && t.lines[i] == l;
    assert forall l: Line :: "2" <= l.code <==> |l.code| > 0 && l.code[0] == '2';
  }

  /** The kind of event, or the first of the two, that the transaction is recorded as. */
  predicate RecordedAs(t: Txn, look: Lookups, kind: EventKind) {
    Recordable(t, look) &&
    match kind
    case InvoiceIssued => t.kind == Invoice
    case PaymentReceived => t.kind == Payment
    case BillReceived => VendorBill(t, look)
    case BillPaid => VendorBill(t, look)
    case JournalEntryRecorded => t.kind in {BillPayment, JournalEntry} && !VendorBill(t, look)
  }

  /** An invoice is recorded as issued, a payment as received, a vendor bill as received and
      paid, anything else as a journal entry; each event carries the transaction's amount,
      agent and lines. What cannot be recorded is counted and leaves no event. */
  lemma LowerRecords(b: Books, t: Txn, look: Lookups)
    ensures !Recordable(t, look) ==> Lower(b, t, look) == b.(unmapped := b.unmapped + 1)
    ensures Recordable(t, look) ==>
              var after := Lower(b, t, look);
              var n := |b.events|;
              && after.unmapped == b.unmapped && b.events <= after.events
              && |after.events| == n + (if VendorBill(t, look) then 2 else 1)
              && Carries(after.events[n], t, look)
              && (t.kind == Invoice ==> after.events[n].kind == InvoiceIssued)
              && (t.kind == Payment ==> after.events[n].kind == PaymentReceived)
              && (t.kind in {BillPayment, JournalEntry} && !VendorBill(t, look) ==>
                    after.events[n].kind == JournalEntryRecorded)
              && (!VendorBill(t, look) ==> Itemizes(after.events[n].items, t.lines, look))
              && (VendorBill(t, look) ==>
                    && after.events[n].kind == BillReceived && BillsPayables(after.events[n].items, t.lines, look)
                    && after.events[n + 1].kind == BillPaid && Carries(after.events[n + 1], t, look)
                    && after.events[n + 1].items == [Item(look.elements["2000"], Debits(t.lines), 0),
                                                     Item(look.elements["1000"], 0, Debits(t.lines))])
  {
    ClassesAre(t, look);
    if Posts(t, look) {
      var ap := if AP_CODE in look.elements then look.elements[AP_CODE] else "";
      var cash := if CASH_CODE in look.elements then look.elements[CASH_CODE] else "";
      ItemsItemize(t.lines, look, ap, cash);
      hide Recordable, AgentId, ItemsOf, BillItems, Itemizes, BillsPayables, Debits, CanSplitBillPayment;
    }
  }

  function CountAs(txns: seq<Txn>, look: Lookups, kind: EventKind): nat {
    if txns == [] then 0
    else CountAs(txns[..|txns| - 1], look, kind) + if RecordedAs(txns[|txns| - 1], look, kind) then 1 else 0
  }

  function CountLeftOut(txns: seq<Txn>, look: Lookups): nat {
    if txns == [] then 0
    else CountLeftOut(txns[..|txns| - 1], look) + if Recordable(txns[|txns| - 1], look) then 0 else 1
  }

  lemma LowerCounts(b: Books, t: Txn, look: Lookups, kind: EventKind)
    ensures CountOf(Lower(b, t, look).events, kind) ==
            CountOf(b.events, kind) + if RecordedAs(t, look, kind) then 1 else 0
  {
    LowerRecords(b, t, look);
    var after := Lower(b, t, look);
    hide Lower, Recordable, Carries, Itemizes, BillsPayables;
    if Recordable(t, look) {
      var added := after.events[|b.events|..];
      assert after.events == b.events + added;
      CountConcat(b.events, added, kind);
      if |added| == 2 {
        assert added[0].kind == BillReceived && added[1].kind == BillPaid;
        assert added[..1] == [added[0]] && added[..1][..0] == [];
        assert CountOf(added[..1], kind) == if added[0].kind == kind then 1 else 0;
      } else {
        assert added[..0] == [];
      }
    }
  }

  /** The load records as many events of each kind as it is given transactions of the kind,
      and leaves out as many as cannot be recorded. */
  lemma {:induction false} KindsCounted(txns: seq<Txn>, look: Lookups, kind: EventKind)
    ensures CountOf(LowerAll(txns, look).events, kind) == CountAs(txns, look, kind)
    ensures LowerAll(txns, look).unmapped == CountLeftOut(txns, look)
  {
    if txns != [] {
      var t, rest := txns[|txns| - 1], txns[..|txns| - 1];
      KindsCounted(rest, look, kind);
      LowerCounts(LowerAll(rest, look), t, look, kind);
      LowerRecords(LowerAll(rest, look), t, look);
      hide Lower, Recordable, RecordedAs, CountOf;
    }
  }

  lemma {:induction false} CountConcat(a: seq<Event>, b: seq<Event>, kind: EventKind)
    ensures CountOf(a + b, kind) == CountOf(a, kind) + CountOf(b, kind)
    decreases |b|
  {
    if b == [] {
      assert a + b == a;
    } else {
      assert (a + b)[..|a + b| - 1] == a + b[..|b| - 1];
      CountConcat(a, b[..|b| - 1], kind);
    }
  }

  // ---------------------------------------------------------------------
  // Which invoice a payment discharges
  // ---------------------------------------------------------------------

  predicate SameKey(x: Event, y: Event) { x.party == y.party && x.amount == y.amount }

  predicate DischargedBy(events: seq<Event>, k: nat, j: nat)
    requires j <= |events|
  {
    exists x :: 0 <= x < j && events[x].discharges == Some(k)
  }

  /** A payment discharges the latest invoice of its customer and amount that is still open,
      and none only when none is open. */
  predicate DischargesLatest(events: seq<Event>, j: nat)
    requires j < |events|
  {
    forall k :: 0 <= k < j && events[k].kind == InvoiceIssued && SameKey(events[k], events[j])
                && (events[j].discharges.None? || events[j].discharges.value < k) ==>
      DischargedBy(events, k, j)
  }

  /** The stacks hold every open invoice, the latest on top. */
  ghost predicate StacksComplete(b: Books) {
    && (forall k :: 0 <= k < |b.events| && b.events[k].kind == InvoiceIssued
                    && k !in Stack(b.index, (b.events[k].party, b.events[k].amount)) ==>
          DischargedBy(b.events, k, |b.events|))
    && (forall key, i, j :: key in b.index && 0 <= i < j < |b.index[key]| ==> b.index[key][i] < b.index[key][j])
    && (forall key, i :: key in b.index && 0 <= i < |b.index[key]| ==> b.index[key][i] < |b.events|)
  }

  lemma DischargedStays(events: seq<Event>, more: seq<Event>, k: nat)
    requires DischargedBy(events, k, |events|)
    ensures DischargedBy(events + more, k, |events + more|) && DischargedBy(events + more, k, |events|)
  {
    var x :| 0 <= x < |events| && events[x].discharges == Some(k);
    assert (events + more)[x].discharges == Some(k);
  }

  lemma AppendStays(b: Books, more: seq<Event>)
    requires StacksComplete(b) && forall x :: x in more ==> x.kind != InvoiceIssued
    ensures StacksComplete(b.(events := b.events + more))
  {
    var after := b.(events := b.events + more);
    forall k | 0 <= k < |after.events| && after.events[k].kind == InvoiceIssued
               && k !in Stack(b.index, (after.events[k].party, after.events[k].amount))
      ensures DischargedBy(after.events, k, |after.events|)
    {
      assert forall i :: |b.events| <= i < |after.events| ==> after.events[i] in more;
      DischargedStays(b.events, more, k);
    }
  }

  lemma PushStays(b: Books, x: Event)
    requires StacksComplete(b) && x.kind == InvoiceIssued
    ensures var key := (x.party, x.amount);
            StacksComplete(b.(events := b.events + [x], index := b.index[key := Stack(b.index, key) + [|b.events|]]))
  {
    var key := (x.party, x.amount);
    var after := b.(events := b.events + [x], index := b.index[key := Stack(b.index, key) + [|b.events|]]);
    forall k | 0 <= k < |after.events| && after.events[k].kind == InvoiceIssued
               && k !in Stack(after.index, (after.events[k].party, after.events[k].amount))
      ensures DischargedBy(after.events, k, |after.events|)
    {
      assert after.index[key][|after.index[key]| - 1] == |b.events|;
      assert forall i :: 0 <= i < |Stack(b.index, key)| ==> after.index[key][i] == Stack(b.index, key)[i];
      DischargedStays(b.events, [x], k);
    }
  }

  lemma PopStays(b: Books, key: InvoiceKey, x: Event)
    requires StacksComplete(b) && key in b.index && b.index[key] != [] && x.kind == PaymentReceived
    requires x.discharges == Some(b.index[key][|b.index[key]| - 1])
    ensures StacksComplete(b.(events := b.events + [x], index := b.index[key := b.index[key][..|b.index[key]| - 1]]))
  {
    var stack := b.index[key];
    var top := stack[|stack| - 1];
    var after := b.(events := b.events + [x], index := b.index[key := stack[..|stack| - 1]]);
    forall k | 0 <= k < |after.events| && after.events[k].kind == InvoiceIssued
               && k !in Stack(after.index, (after.events[k].party, after.events[k].amount))
      ensures DischargedBy(after.events, k, |after.events|)
    {
      if k == top {
        assert after.events[|b.events|].discharges == Some(k);
      } else {
        assert stack == stack[..|stack| - 1] + [top];
        DischargedStays(b.events, [x], k);
      }
    }
  }

  lemma TopIsLatest(b: Books, key: InvoiceKey)
    requires StacksComplete(b)
    ensures var stack := Stack(b.index, key); forall k :: k in stack ==> k <= stack[|stack| - 1]
  {
  }

  /** A payment meets its stack: what is above the invoice it takes, or anything when it
      takes none, has been discharged. */
  lemma PaymentTakesLatest(b: Books, x: Event)
    requires StacksComplete(b)
    requires var stack := Stack(b.index, (x.party, x.amount));
             x.discharges == if stack == [] then None else Some(stack[|stack| - 1])
    ensures DischargesLatest(b.events + [x], |b.events|)
  {
    var events, stack := b.events + [x], Stack(b.index, (x.party, x.amount));
    forall k | 0 <= k < |b.events| && events[k].kind == InvoiceIssued && SameKey(events[k], x)
               && (x.discharges.None? || x.discharges.value < k)
      ensures DischargedBy(events, k, |b.events|)
    {
      TopIsLatest(b, (x.party, x.amount));
      DischargedStays(b.events, [x], k);
    }
  }

  lemma LowerKeepsStacks(b: Books, t: Txn, look: Lookups)
    requires StacksComplete(b)
    ensures StacksComplete(Lower(b, t, look))
    ensures t.kind == Payment && Posts(t, look) ==> DischargesLatest(Lower(b, t, look).events, |b.events|)
  {
    if Posts(t, look) {
      var after := Lower(b, t, look);
      var x := after.events[|b.events|];
      var key := (AgentKey(t), Debits(t.lines));
      if t.kind == Invoice {
        PushStays(b, x);
      } else if t.kind == Payment {
        PaymentTakesLatest(b, x);
        if Stack(b.index, key) != [] {
          PopStays(b, key, x);
        } else {
          AppendStays(b, [x]);
        }
      } else if Splits(t, look) {
        AppendStays(b, [x, after.events[|b.events| + 1]]);
      } else {
        AppendStays(b, [x]);
      }
    }
  }

  lemma LatestStays(events: seq<Event>, more: seq<Event>, j: nat)
    requires j < |events| && DischargesLatest(events, j)
    ensures DischargesLatest(events + more, j)
  {
    var all := events + more;
    forall k | 0 <= k < j && all[k].kind == InvoiceIssued && SameKey(all[k], all[j])
               && (all[j].discharges.None? || all[j].discharges.value < k)
      ensures DischargedBy(all, k, j)
    {
      assert all[k] == events[k] && all[j] == events[j] && DischargedBy(events, k, j);
      var x :| 0 <= x < j && events[x].discharges == Some(k);
      assert all[x] == events[x];
    }
  }

  /** Every payment of a load discharges the latest invoice of its customer and amount that
      is open by then, and none only when none is. */
  lemma {:induction false} PaymentsDischargeLatest(txns: seq<Txn>, look: Lookups)
    ensures StacksComplete(LowerAll(txns, look))
    ensures var events := LowerAll(txns, look).events;
            forall j :: 0 <= j < |events| && events[j].kind == PaymentReceived ==> DischargesLatest(events, j)
  {
    if txns != [] {
      var t, rest := txns[|txns| - 1], txns[..|txns| - 1];
      PaymentsDischargeLatest(rest, look);
      var b := LowerAll(rest, look);
      LowerKeepsStacks(b, t, look);
      LowerRecords(b, t, look);
      ClassesAre(t, look);
      var events := LowerAll(txns, look).events;
      hide LowerAll, Lower, StacksComplete, DischargesLatest, Recordable, Posts, Itemizes, BillsPayables, Carries;
      forall j | 0 <= j < |events| && events[j].kind == PaymentReceived
        ensures DischargesLatest(events, j)
      {
        if j < |b.events| {
          assert events == b.events + events[|b.events|..] && events[j] == b.events[j];
          LatestStays(b.events, events[|b.events|..], j);
        }
      }
    }
  }
}

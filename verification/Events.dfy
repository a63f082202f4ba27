// The second lowering: transactions to typed business events, with payments
// discharging invoices through an index of open-invoice stacks, and vendor bills
// split into a bill received and a bill paid. An event's id is its position in
// the log, the order the ledger accepted it in.

module Events {
  import opened Basics
  import opened Drivers
  import opened Ledger

  const CASH_CODE := "1000"
  const AP_CODE := "2000"

  datatype EventKind = InvoiceIssued | PaymentReceived | BillReceived | BillPaid | JournalEntryRecorded

  datatype Item = Item(element: string, debit: int, credit: int)

  // `party` is the name half of the invoice index key; the ledger itself only
  // receives the resolved agent id.
  datatype Event = Event(
    kind: EventKind, party: string, agentId: Option<string>, amount: int,
    items: seq<Item>, discharges: Option<nat>)

  type InvoiceKey = (string, int)

  datatype Books = Books(events: seq<Event>, index: map<InvoiceKey, seq<nat>>, unmapped: nat)

  // Code to element id, and agent name to agent id.
  datatype Lookups = Lookups(elements: map<string, string>, agents: map<string, string>)

  // ---------------------------------------------------------------------
  // One transaction
  // ---------------------------------------------------------------------

  predicate Resolves(code: string, elements: map<string, string>) {
    code in elements && elements[code] != ""
  }

  /** The transaction becomes an event: every account resolves and it has two lines. */
  predicate Posts(t: Txn, look: Lookups) {
    |t.lines| >= 2 && forall l :: l in t.lines ==> Resolves(l.code, look.elements)
  }

  function ItemsOf(lines: seq<Line>, elements: map<string, string>): seq<Item>
    requires forall l :: l in lines ==> Resolves(l.code, elements)
  {
    if lines == [] then []
    else
      assert Resolves(lines[0].code, elements);
      [Item(elements[lines[0].code], lines[0].debit, lines[0].credit)] + ItemsOf(lines[1..], elements)
  }

  method BuildLineItems(lines: seq<Line>, elements: map<string, string>) returns (items: Option<seq<Item>>)
    ensures items.Some? <==> forall l :: l in lines ==> Resolves(l.code, elements)
    ensures items.Some? ==> items.value == ItemsOf(lines, elements)
  {
    var out: seq<Item> := [];
    for i := 0 to |lines|
      invariant forall l :: l in lines[..i] ==> Resolves(l.code, elements)
      invariant out == ItemsOf(lines[..i], elements)
    {
      if lines[i].code !in elements || elements[lines[i].code] == "" {
        return None;
      }
      out := out + [Item(elements[lines[i].code], lines[i].debit, lines[i].credit)];
      assert lines[..i + 1] == lines[..i] + [lines[i]];
      ItemsSnoc(lines[..i], lines[i], elements);
    }
    assert lines[..|lines|] == lines;
    items := Some(out);
  }

  lemma {:induction false} ItemsSnoc(lines: seq<Line>, l: Line, elements: map<string, string>)
    requires forall x :: x in lines ==> Resolves(x.code, elements)
    requires Resolves(l.code, elements)
    ensures ItemsOf(lines + [l], elements) ==
            ItemsOf(lines, elements) + [Item(elements[l.code], l.debit, l.credit)]
  {
    if lines != [] {
      assert (lines + [l])[1..] == lines[1..] + [l];
      ItemsSnoc(lines[1..], l, elements);
    }
  }

  /** A vendor purchase: cash is credited and no liability is debited. */
  predicate CanSplitBillPayment(lines: seq<Line>) {
    && (exists l :: l in lines && l.code == CASH_CODE && l.credit > 0)
    && !(exists l :: l in lines && "2" <= l.code && l.debit > 0)
  }

  function AgentId(t: Txn, look: Lookups): Option<string> {
    if t.agent.Some? && t.agent.value != "" && t.agent.value in look.agents
    then Some(look.agents[t.agent.value]) else None
  }

  predicate Splits(t: Txn, look: Lookups) {
    && t.kind == BillPayment && AgentId(t, look).Some?
    && AP_CODE in look.elements && CASH_CODE in look.elements
    && CanSplitBillPayment(t.lines)
  }

  /** The bill's lines: what was credited to cash is credited to payables instead. */
  function BillItems(items: seq<Item>, ap: string, cash: string): seq<Item> {
    if items == [] then []
    else [if items[0].element == cash && items[0].credit > 0 then Item(ap, 0, items[0].credit) else items[0]]
         + BillItems(items[1..], ap, cash)
  }

  function Stack(index: map<InvoiceKey, seq<nat>>, key: InvoiceKey): seq<nat> {
    if key in index then index[key] else []
  }

  function Lower(b: Books, t: Txn, look: Lookups): Books {
    if !Posts(t, look) then b.(unmapped := b.unmapped + 1)
    else
      var items := ItemsOf(t.lines, look.elements);
      var amount := Debits(t.lines);
      var key := (AgentKey(t), amount);
      var agent := AgentId(t, look);
      var id := |b.events|;
      var stack := Stack(b.index, key);
      if t.kind == Invoice then
        b.(events := b.events + [Event(InvoiceIssued, key.0, agent, amount, items, None)],
           index := b.index[key := stack + [id]])
      else if t.kind == Payment then
        if stack != [] then
          b.(events := b.events + [Event(PaymentReceived, key.0, agent, amount, items, Some(stack[|stack| - 1]))],
             index := b.index[key := stack[..|stack| - 1]])
        else b.(events := b.events + [Event(PaymentReceived, key.0, agent, amount, items, None)])
      else if Splits(t, look) then
        var ap := look.elements[AP_CODE];
        var cash := look.elements[CASH_CODE];
        b.(events := b.events
             + [Event(BillReceived, key.0, agent, amount, BillItems(items, ap, cash), None),
                Event(BillPaid, key.0, agent, amount, [Item(ap, amount, 0), Item(cash, 0, amount)], Some(id))])
      else
        b.(events := b.events + [Event(JournalEntryRecorded, key.0, agent, amount, items, None)])
  }

  const EMPTY_BOOKS := Books([], map[], 0)

  function LowerAll(txns: seq<Txn>, look: Lookups): Books {
    if txns == [] then EMPTY_BOOKS
    else Lower(LowerAll(txns[..|txns| - 1], look), txns[|txns| - 1], look)
  }

  // ---------------------------------------------------------------------
  // Posting
  // ---------------------------------------------------------------------

  function CountOf(events: seq<Event>, kind: EventKind): nat {
    if events == [] then 0
    else CountOf(events[..|events| - 1], kind) + if events[|events| - 1].kind == kind then 1 else 0
  }

  function ItemCount(events: seq<Event>): nat {
    if events == [] then 0 else ItemCount(events[..|events| - 1]) + |events[|events| - 1].items|
  }

  // What the ledger has taken so far, and the tallies kept beside it.
  datatype Log = Log(events: seq<Event>, counts: map<EventKind, nat>, lineItems: nat) {
    ghost predicate Tallied() {
      && lineItems == ItemCount(events)
      && forall kind :: kind in counts && counts[kind] == CountOf(events, kind)
    }
  }

  /** `create_event_block` and the tallies after it: the ledger takes the event or
      refuses it, and then nothing changes. */
  method Post(log: Log, x: Event, accepts: nat -> bool) returns (ok: bool, after: Log)
    requires log.Tallied()
    ensures ok == accepts(|log.events|)
    ensures after.Tallied() && after.events == if ok then log.events + [x] else log.events
  {
    ok, after := accepts(|log.events|), log;
    if ok {
      assert (log.events + [x])[..|log.events|] == log.events;
      after := Log(log.events + [x], log.counts[x.kind := log.counts[x.kind] + 1], log.lineItems + |x.items|);
    }
  }

  /** The log is the accepted beginning of the full lowering, and complete unless the
      run was aborted at the first event the ledger refuses. */
  ghost predicate PostedUpTo(log: Log, full: seq<Event>, accepts: nat -> bool, aborted: bool) {
    && log.Tallied() && log.events <= full
    && (forall k :: 0 <= k < |log.events| ==> accepts(k))
    && (aborted ==> |log.events| < |full| && !accepts(|log.events|))
    && (!aborted ==> log.events == full)
  }

  lemma NothingPosted()
    ensures NO_EVENTS.Tallied()
  {
    forall kind: EventKind
      ensures kind in NO_EVENTS.counts && NO_EVENTS.counts[kind] == 0
    {
      match kind {
        case InvoiceIssued =>
        case PaymentReceived =>
        case BillReceived =>
        case BillPaid =>
        case JournalEntryRecorded =>
      }
    }
  }

  lemma LowerExtends(b: Books, t: Txn, look: Lookups)
    ensures b.events <= Lower(b, t, look).events
  {
  }

  lemma {:induction false} LowerAllGrows(txns: seq<Txn>, n: nat, look: Lookups)
    requires n <= |txns|
    ensures LowerAll(txns[..n], look).events <= LowerAll(txns, look).events
    decreases |txns| - n
  {
    if n < |txns| {
      assert txns[..n + 1][..n] == txns[..n];
      LowerExtends(LowerAll(txns[..n], look), txns[n], look);
      LowerAllGrows(txns, n + 1, look);
    } else {
      assert txns[..n] == txns;
    }
  }

  const NO_EVENTS := Log([], map[InvoiceIssued := 0, PaymentReceived := 0, BillReceived := 0, BillPaid := 0,
                                 JournalEntryRecorded := 0], 0)

  /** One transaction: its events are posted in turn, until one is refused. */
  method PostTransaction(t: Txn, look: Lookups, accepts: nat -> bool, log0: Log, index0: map<InvoiceKey, seq<nat>>,
                         unmapped0: nat)
    returns (log: Log, index: map<InvoiceKey, seq<nat>>, unmapped: nat, ok: bool)
    requires PostedUpTo(log0, log0.events, accepts, false)
    ensures PostedUpTo(log, Lower(Books(log0.events, index0, unmapped0), t, look).events, accepts, !ok)
    ensures ok ==> Books(log.events, index, unmapped) == Lower(Books(log0.events, index0, unmapped0), t, look)
  {
    hide ItemsOf, Resolves, BillItems, AgentId, AgentKey, Debits, CanSplitBillPayment, Log.Tallied;
    log, index, unmapped, ok := log0, index0, unmapped0, true;
    var built := BuildLineItems(t.lines, look.elements);
    if built == None || |t.lines| < 2 {
      unmapped := unmapped + 1;
      return;
    }
    var items := built.value;
    var agent := AgentId(t, look);
    var amount := Debits(t.lines);
    var key := (AgentKey(t), amount);
    var id := |log.events|;
    if t.kind == Invoice {
      ok, log := Post(log, Event(InvoiceIssued, key.0, agent, amount, items, None), accepts);
      if ok {
        index := index[key := Stack(index, key) + [id]];
      }
    } else if t.kind == Payment {
      var discharged: Option<nat> := None;
      if key in index && index[key] != [] {
        var open := index[key];
        discharged := Some(open[|open| - 1]);
        index := index[key := open[..|open| - 1]];
      }
      ok, log := Post(log, Event(PaymentReceived, key.0, agent, amount, items, discharged), accepts);
    } else if t.kind == BillPayment && agent.Some? && AP_CODE in look.elements && CASH_CODE in look.elements
              && CanSplitBillPayment(t.lines) {
      var ap := look.elements[AP_CODE];
      var cash := look.elements[CASH_CODE];
      ok, log := Post(log, Event(BillReceived, key.0, agent, amount, BillItems(items, ap, cash), None), accepts);
      if ok {
        ok, log := Post(log, Event(BillPaid, key.0, agent, amount,
                                   [Item(ap, amount, 0), Item(cash, 0, amount)], Some(id)), accepts);
      }
    } else {
      ok, log := Post(log, Event(JournalEntryRecorded, key.0, agent, amount, items, None), accepts);
    }
  }

  /** The whole load. The run is aborted at the first event the ledger refuses, and has
      then posted exactly the events before it: a bill received may be left unpaid, an
      invoice undischarged, but nothing is skipped or out of order. */
  method CreateBusinessEvents(txns: seq<Txn>, look: Lookups, accepts: nat -> bool)
    returns (log: Log, invoiceIndex: map<InvoiceKey, seq<nat>>, unmapped: nat, aborted: bool)
    ensures PostedUpTo(log, LowerAll(txns, look).events, accepts, aborted)
    ensures !aborted ==> Books(log.events, invoiceIndex, unmapped) == LowerAll(txns, look)
  {
    log, invoiceIndex, unmapped, aborted := NO_EVENTS, map[], 0, false;
    NothingPosted();
    for i := 0 to |txns|
      invariant Books(log.events, invoiceIndex, unmapped) == LowerAll(txns[..i], look)
      invariant PostedUpTo(log, log.events, accepts, false)
    {
      assert txns[..i + 1][..i] == txns[..i];
      assert LowerAll(txns[..i + 1], look) == Lower(LowerAll(txns[..i], look), txns[i], look);
      LowerAllGrows(txns, i + 1, look);
      hide LowerAll, Lower, Log.Tallied;
      var ok;
      log, invoiceIndex, unmapped, ok := PostTransaction(txns[i], look, accepts, log, invoiceIndex, unmapped);
      if !ok {
        aborted := true;
        return;
      }
    }
    assert txns[..|txns|] == txns;
  }

  // ---------------------------------------------------------------------
  // The lowering preserves every balance
  // ---------------------------------------------------------------------

  function ItemNet(items: seq<Item>, e: string): int {
    if items == [] then 0
    else (if items[0].element == e then items[0].debit - items[0].credit else 0) + ItemNet(items[1..], e)
  }

  /** What the transactions post to an element, and what the events do. */
  function TxnsNet(txns: seq<Txn>, look: Lookups, e: string): int
    requires forall t :: t in txns ==> Posts(t, look)
  {
    if txns == [] then 0
    else
      assert Posts(txns[|txns| - 1], look);
      TxnsNet(txns[..|txns| - 1], look, e) + ItemNet(ItemsOf(txns[|txns| - 1].lines, look.elements), e)
  }

  function EventsNet(events: seq<Event>, e: string): int {
    if events == [] then 0 else EventsNet(events[..|events| - 1], e) + ItemNet(events[|events| - 1].items, e)
  }

  // The credits moved from cash to payables, and any debits on the same lines.
  function MovedCredits(items: seq<Item>, cash: string): int {
    if items == [] then 0
    else (if items[0].element == cash && items[0].credit > 0 then items[0].credit else 0)
         + MovedCredits(items[1..], cash)
  }

  function MovedDebits(items: seq<Item>, cash: string): int {
    if items == [] then 0
    else (if items[0].element == cash && items[0].credit > 0 then items[0].debit else 0)
         + MovedDebits(items[1..], cash)
  }

  lemma {:induction false} BillItemsNet(items: seq<Item>, ap: string, cash: string, e: string)
    ensures ItemNet(BillItems(items, ap, cash), e) ==
            ItemNet(items, e)
            + (if e == cash then MovedCredits(items, cash) - MovedDebits(items, cash) else 0)
            - (if e == ap then MovedCredits(items, cash) else 0)
  {
    if items != [] {
      BillItemsNet(items[1..], ap, cash, e);
      assert BillItems(items, ap, cash)[1..] == BillItems(items[1..], ap, cash);
    }
  }

  function BillPair(items: seq<Item>, amount: int, ap: string, cash: string): seq<Item> {
    BillItems(items, ap, cash) + [Item(ap, amount, 0), Item(cash, 0, amount)]
  }

  lemma {:induction false} ItemNetConcat(a: seq<Item>, b: seq<Item>, e: string)
    ensures ItemNet(a + b, e) == ItemNet(a, e) + ItemNet(b, e)
  {
    if a == [] {
      assert a + b == b;
    } else {
      assert (a + b)[1..] == a[1..] + b;
      ItemNetConcat(a[1..], b, e);
    }
  }

  lemma BillPairNet(items: seq<Item>, amount: int, ap: string, cash: string, e: string)
    ensures ItemNet(BillPair(items, amount, ap, cash), e) ==
            ItemNet(items, e)
            + (if e == cash then MovedCredits(items, cash) - MovedDebits(items, cash) - amount else 0)
            + (if e == ap then amount - MovedCredits(items, cash) else 0)
  {
    var paid := [Item(ap, amount, 0), Item(cash, 0, amount)];
    BillItemsNet(items, ap, cash, e);
    ItemNetConcat(BillItems(items, ap, cash), paid, e);
    assert paid[1..] == [Item(cash, 0, amount)];
    assert paid[1..][1..] == [];
    assert ItemNet(paid, e) == (if e == ap then amount else 0) + ItemNet(paid[1..], e);
    assert ItemNet(paid[1..], e) == (if e == cash then -amount else 0) + ItemNet([], e);
  }

  /** Splitting a bill payment leaves every balance as it was exactly when what it
      credits to cash is its whole amount, or payables and cash are one element, and no
      cash credit carries a debit. A bill part-paid in cash is not. */
  lemma SplitPreservesIff(items: seq<Item>, amount: int, ap: string, cash: string)
    ensures (forall e :: ItemNet(BillPair(items, amount, ap, cash), e) == ItemNet(items, e)) <==>
            (MovedCredits(items, cash) == amount || ap == cash) && MovedDebits(items, cash) == 0
  {
    if (MovedCredits(items, cash) == amount || ap == cash) && MovedDebits(items, cash) == 0 {
      forall e
        ensures ItemNet(BillPair(items, amount, ap, cash), e) == ItemNet(items, e)
      {
        BillPairNet(items, amount, ap, cash, e);
      }
    } else {
      BillPairNet(items, amount, ap, cash, ap);
      BillPairNet(items, amount, ap, cash, cash);
    }
  }

  /** A bill payment that is split pays all of its amount from cash. */
  predicate PaidFromCash(t: Txn, look: Lookups)
    requires Posts(t, look)
  {
    Splits(t, look) ==>
      var items := ItemsOf(t.lines, look.elements);
      var ap, cash := look.elements[AP_CODE], look.elements[CASH_CODE];
      (MovedCredits(items, cash) == Debits(t.lines) || ap == cash) && MovedDebits(items, cash) == 0
  }

  lemma EventsNetSnoc(events: seq<Event>, x: Event, e: string)
    ensures EventsNet(events + [x], e) == EventsNet(events, e) + ItemNet(x.items, e)
  {
  }

  /** What the events of one transaction post, whatever came before. */
  lemma LowerNet(b: Books, t: Txn, look: Lookups, e: string)
    requires Posts(t, look)
    ensures var items := ItemsOf(t.lines, look.elements);
            EventsNet(Lower(b, t, look).events, e) ==
            EventsNet(b.events, e)
            + if Splits(t, look)
              then ItemNet(BillPair(items, Debits(t.lines), look.elements[AP_CODE], look.elements[CASH_CODE]), e)
              else ItemNet(items, e)
  {
    var after := Lower(b, t, look).events;
    if Splits(t, look) {
      var bill := after[|b.events|];
      var paid := after[|b.events| + 1];
      assert after == b.events + [bill] + [paid];
      EventsNetSnoc(b.events, bill, e);
      EventsNetSnoc(b.events + [bill], paid, e);
      ItemNetConcat(bill.items, paid.items, e);
    } else {
      EventsNetSnoc(b.events, after[|b.events|], e);
    }
  }

  /** Lowering one transaction gives every account what the transaction gives it if and
      only if the transaction, where it is split, is paid from cash. */
  lemma LowerPreservesIff(b: Books, t: Txn, look: Lookups)
    requires Posts(t, look)
    ensures (forall e :: EventsNet(Lower(b, t, look).events, e) ==
                         EventsNet(b.events, e) + ItemNet(ItemsOf(t.lines, look.elements), e)) <==>
            PaidFromCash(t, look)
  {
    hide Lower, EventsNet, ItemNet, ItemsOf, BillPair;
    var items := ItemsOf(t.lines, look.elements);
    var before, after := b.events, Lower(b, t, look).events;
    if Splits(t, look) {
      var pair := BillPair(items, Debits(t.lines), look.elements[AP_CODE], look.elements[CASH_CODE]);
      SplitPreservesIff(items, Debits(t.lines), look.elements[AP_CODE], look.elements[CASH_CODE]);
      forall e
        ensures EventsNet(after, e) == EventsNet(before, e) + ItemNet(pair, e)
      {
        LowerNet(b, t, look, e);
      }
      if !PaidFromCash(t, look) {
        var e :| ItemNet(pair, e) != ItemNet(items, e);
        assert EventsNet(after, e) != EventsNet(before, e) + ItemNet(items, e);
      }
    } else {
      forall e
        ensures EventsNet(after, e) == EventsNet(before, e) + ItemNet(items, e)
      {
        LowerNet(b, t, look, e);
      }
    }
  }

  /** The witness: an expense of 100 paid 60 from cash and 40 from elsewhere balances,
      is split, and takes 100 from cash. */
  lemma PartCashBillBreaks(b: Books, t: Txn, look: Lookups, expense: string, other: string)
    requires t.kind == BillPayment && AgentId(t, look).Some? && Posts(t, look)
    requires t.lines == [Line(expense, 100, 0), Line(CASH_CODE, 0, 60), Line(other, 0, 40)] && !("2" <= expense)
    requires AP_CODE in look.elements
    requires look.elements[CASH_CODE] !in
             {look.elements[expense], look.elements[other], look.elements[AP_CODE]}
    ensures Balanced(t) && Splits(t, look)
    ensures var cash := look.elements[CASH_CODE];
            && ItemNet(ItemsOf(t.lines, look.elements), cash) == -60
            && EventsNet(Lower(b, t, look).events, cash) == EventsNet(b.events, cash) - 100
  {
    var cash := look.elements[CASH_CODE];
    var a, b', c := Line(expense, 100, 0), Line(CASH_CODE, 0, 60), Line(other, 0, 40);
    assert b' in t.lines;
    ThreeLines(a, b', c, look.elements);
    ThreeItems(Item(look.elements[expense], 100, 0), Item(cash, 0, 60), Item(look.elements[other], 0, 40), cash);
    BillPairNet(ItemsOf(t.lines, look.elements), 100, look.elements[AP_CODE], cash, cash);
    LowerNet(b, t, look, cash);
  }

  lemma ThreeLines(a: Line, b: Line, c: Line, elements: map<string, string>)
    requires Resolves(a.code, elements) && Resolves(b.code, elements) && Resolves(c.code, elements)
    ensures Debits([a, b, c]) == a.debit + b.debit + c.debit
    ensures Credits([a, b, c]) == a.credit + b.credit + c.credit
    ensures ItemsOf([a, b, c], elements) ==
            [Item(elements[a.code], a.debit, a.credit), Item(elements[b.code], b.debit, b.credit),
             Item(elements[c.code], c.debit, c.credit)]
  {
    assert [a, b, c][1..] == [b, c] && [b, c][1..] == [c] && [c][1..] == [];
    assert Debits([c]) == c.debit + Debits([]) && Credits([c]) == c.credit + Credits([]);
    assert Debits([b, c]) == b.debit + c.debit && Credits([b, c]) == b.credit + c.credit;
    assert ItemsOf([c], elements) == [Item(elements[c.code], c.debit, c.credit)] + ItemsOf([], elements);
    assert ItemsOf([b, c], elements) == [Item(elements[b.code], b.debit, b.credit)] + ItemsOf([c], elements);
  }

  lemma ThreeItems(a: Item, b: Item, c: Item, cash: string)
    requires b.element == cash && a.element != cash && c.element != cash
    ensures ItemNet([a, b, c], cash) == b.debit - b.credit
    ensures b.credit > 0 ==> MovedCredits([a, b, c], cash) == b.credit && MovedDebits([a, b, c], cash) == b.debit
  {
    assert [a, b, c][1..] == [b, c] && [b, c][1..] == [c] && [c][1..] == [];
    assert ItemNet([c], cash) == 0 + ItemNet([], cash);
    assert MovedCredits([c], cash) == 0 + MovedCredits([], cash);
    assert MovedDebits([c], cash) == 0 + MovedDebits([], cash);
    assert ItemNet([b, c], cash) == b.debit - b.credit;
  }

  /** Posting the events gives every account the balance the transactions give it. */
  lemma {:induction false} EventsPreserveBalances(txns: seq<Txn>, look: Lookups, e: string)
    requires forall t :: t in txns ==> Posts(t, look) && PaidFromCash(t, look)
    ensures EventsNet(LowerAll(txns, look).events, e) == TxnsNet(txns, look, e)
    ensures LowerAll(txns, look).unmapped == 0
  {
    if txns != [] {
      EventsPreserveBalances(txns[..|txns| - 1], look, e);
      LowerPreservesIff(LowerAll(txns[..|txns| - 1], look), txns[|txns| - 1], look);
    }
  }

  function ItemsDebit(items: seq<Item>): int {
    if items == [] then 0 else items[0].debit + ItemsDebit(items[1..])
  }

  function ItemsCredit(items: seq<Item>): int {
    if items == [] then 0 else items[0].credit + ItemsCredit(items[1..])
  }

  lemma {:induction false} ItemsBalance(lines: seq<Line>, elements: map<string, string>, ap: string, cash: string)
    requires forall l :: l in lines ==> Resolves(l.code, elements)
    ensures var items := ItemsOf(lines, elements);
            && ItemsDebit(items) == Debits(lines) && ItemsCredit(items) == Credits(lines)
            && ItemsDebit(BillItems(items, ap, cash)) == Debits(lines) - MovedDebits(items, cash)
            && ItemsCredit(BillItems(items, ap, cash)) == Credits(lines)
  {
    if lines != [] {
      ItemsBalance(lines[1..], elements, ap, cash);
      var items := ItemsOf(lines, elements);
      assert items[1..] == ItemsOf(lines[1..], elements);
      assert BillItems(items, ap, cash)[1..] == BillItems(items[1..], ap, cash);
    }
  }

  predicate SelfBalanced(x: Event) { ItemsDebit(x.items) == ItemsCredit(x.items) }

  lemma LowerBalances(b: Books, t: Txn, look: Lookups)
    requires Balanced(t) && (Posts(t, look) ==> PaidFromCash(t, look))
    ensures var after := Lower(b, t, look).events;
            |b.events| <= |after| && after[..|b.events|] == b.events
            && forall i :: |b.events| <= i < |after| ==> SelfBalanced(after[i])
  {
    if Posts(t, look) {
      var ap := if AP_CODE in look.elements then look.elements[AP_CODE] else "";
      var cash := if CASH_CODE in look.elements then look.elements[CASH_CODE] else "";
      ItemsBalance(t.lines, look.elements, ap, cash);
      var amount := Debits(t.lines);
      var paid := [Item(ap, amount, 0), Item(cash, 0, amount)];
      assert paid[1..] == [Item(cash, 0, amount)] && paid[1..][1..] == [];
      assert ItemsDebit(paid) == amount + ItemsDebit(paid[1..]);
      assert ItemsCredit(paid) == ItemsCredit(paid[1..]);
      assert ItemsDebit(paid[1..]) == 0 + ItemsDebit([]);
      assert ItemsCredit(paid[1..]) == amount + ItemsCredit([]);
      var after := Lower(b, t, look).events;
      assert SelfBalanced(after[|b.events|]);
    }
  }

  /** Every event posted for balanced transactions balances by itself, both halves of
      a split bill included. */
  lemma {:induction false} EventsBalance(txns: seq<Txn>, look: Lookups)
    requires forall t :: t in txns ==> Balanced(t) && (Posts(t, look) ==> PaidFromCash(t, look))
    ensures forall i :: 0 <= i < |LowerAll(txns, look).events| ==> SelfBalanced(LowerAll(txns, look).events[i])
  {
    if txns != [] {
      var b := LowerAll(txns[..|txns| - 1], look);
      EventsBalance(txns[..|txns| - 1], look);
      assert txns[|txns| - 1] in txns;
      LowerBalances(b, txns[|txns| - 1], look);
      var after := LowerAll(txns, look).events;
      forall i | 0 <= i < |after|
        ensures SelfBalanced(after[i])
      {
        if i < |b.events| {
          assert after[i] == after[..|b.events|][i] == b.events[i];
        }
      }
    }
  }

  // ---------------------------------------------------------------------
  // The discharge chain
  // ---------------------------------------------------------------------

  /** An event discharges an earlier obligation of its own kind: a payment an invoice
      of the same customer and amount, a bill paid the bill received just before it. */
  predicate ValidDischarge(events: seq<Event>, j: nat)
    requires j < |events| && events[j].discharges.Some?
  {
    var i := events[j].discharges.value;
    && i < j
    && events[i].party == events[j].party && events[i].amount == events[j].amount
    && ((events[j].kind == PaymentReceived && events[i].kind == InvoiceIssued)
        || (events[j].kind == BillPaid && events[i].kind == BillReceived && i == j - 1))
  }

  /** No obligation is discharged twice. */
  predicate DischargedOnce(events: seq<Event>) {
    forall i, j :: 0 <= i < j < |events| && events[i].discharges.Some? && events[j].discharges.Some?
      ==> events[i].discharges.value != events[j].discharges.value
  }

  /** The index holds open invoices under their own keys, each once. */
  ghost predicate IndexHoldsOpen(b: Books) {
    && (forall key, i {:trigger b.index[key][i]} :: key in b.index && 0 <= i < |b.index[key]| ==>
          var id := b.index[key][i];
          id < |b.events| && b.events[id].kind == InvoiceIssued
          && b.events[id].party == key.0 && b.events[id].amount == key.1)
    && (forall key, i, j {:trigger b.index[key][i], b.index[key][j]} ::
          key in b.index && 0 <= i < j < |b.index[key]| ==> b.index[key][i] != b.index[key][j])
    && (forall key, i, x {:trigger b.index[key][i], b.events[x]} ::
          key in b.index && 0 <= i < |b.index[key]| && 0 <= x < |b.events| && b.events[x].discharges.Some? ==>
          b.events[x].discharges.value != b.index[key][i])
  }

  ghost predicate ChainSound(b: Books) {
    && IndexHoldsOpen(b) && DischargedOnce(b.events)
    && forall j :: 0 <= j < |b.events| && b.events[j].discharges.Some? ==> ValidDischarge(b.events, j)
  }

  lemma AppendKeepsChain(b: Books, x: Event)
    requires ChainSound(b) && x.discharges == None
    ensures ChainSound(b.(events := b.events + [x]))
  {
  }

  lemma PushKeepsChain(b: Books, x: Event)
    requires ChainSound(b) && x.kind == InvoiceIssued && x.discharges == None
    ensures var key := (x.party, x.amount);
            ChainSound(b.(events := b.events + [x], index := b.index[key := Stack(b.index, key) + [|b.events|]]))
  {
  }

  lemma PopKeepsChain(b: Books, key: InvoiceKey, x: Event)
    requires ChainSound(b) && key in b.index && b.index[key] != []
    requires x.kind == PaymentReceived && x.party == key.0 && x.amount == key.1
    requires x.discharges == Some(b.index[key][|b.index[key]| - 1])
    ensures ChainSound(b.(events := b.events + [x], index := b.index[key := b.index[key][..|b.index[key]| - 1]]))
  {
  }

  lemma BillKeepsChain(b: Books, bill: Event, paid: Event)
    requires ChainSound(b) && bill.kind == BillReceived && bill.discharges == None
    requires paid.kind == BillPaid && paid.discharges == Some(|b.events|)
    requires bill.party == paid.party && bill.amount == paid.amount
    ensures ChainSound(b.(events := b.events + [bill, paid]))
  {
  }

  lemma LowerKeepsChain(b: Books, t: Txn, look: Lookups)
    requires ChainSound(b)
    ensures ChainSound(Lower(b, t, look))
  {
    if Posts(t, look) {
      var after := Lower(b, t, look);
      var x := after.events[|b.events|];
      var key := (AgentKey(t), Debits(t.lines));
      if t.kind == Invoice {
        PushKeepsChain(b, x);
      } else if t.kind == Payment && Stack(b.index, key) != [] {
        PopKeepsChain(b, key, x);
      } else if t.kind != Payment && Splits(t, look) {
        BillKeepsChain(b, x, after.events[|b.events| + 1]);
      } else {
        AppendKeepsChain(b, x);
      }
    }
  }

  /** Whatever the transactions, every discharge points at an earlier matching
      obligation and none is discharged twice. */
  lemma {:induction false} DischargeChain(txns: seq<Txn>, look: Lookups)
    ensures ChainSound(LowerAll(txns, look))
  {
    if txns != [] {
      DischargeChain(txns[..|txns| - 1], look);
      LowerKeepsChain(LowerAll(txns[..|txns| - 1], look), txns[|txns| - 1], look);
    }
  }
}

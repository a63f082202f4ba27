// The monthly P&L-versus-cash table: every row is a prefix fold of the emitted
// stream, the books articulate every month, and the last row misses nothing.

module Summary {
  import opened Calendar
  import opened Drivers
  import opened Ledger
  import opened Engine
  import opened Emission

  datatype AccountMeta = AccountMeta(accountTrait: string, sub: string, debitNormal: bool)

  type Chart = map<string, AccountMeta>

  datatype Row = Row(
    offset: int, year: int, month: int,
    revenue: int, cogs: int, grossProfit: int, opex: int, netIncome: int,
    cash: int, ar: int, inventory: int, deferredRev: int)

  function Subclass(meta: Chart, sub: string): set<string> {
    set c | c in meta && meta[c].sub == sub
  }

  function RevenueCodes(meta: Chart): set<string> {
    set c | c in meta && meta[c].accountTrait == "revenue"
  }

  function ExpenseCodes(meta: Chart): set<string> {
    (set c | c in meta && meta[c].accountTrait == "expense") - Subclass(meta, "cost_of_goods_sold")
  }

  function DebitNormal(meta: Chart): set<string> { set c | c in meta && meta[c].debitNormal }

  function Get(balances: map<string, int>, code: string): int {
    if code in balances then balances[code] else 0
  }

  function Signed(meta: Chart, code: string, debit: int, credit: int): int
    requires code in meta
  {
    if meta[code].debitNormal then debit - credit else credit - debit
  }

  /** A group of accounts over months lo..hi, each on its normal side. */
  function GroupOver(meta: Chart, group: set<string>, txns: seq<Txn>, start: Date, lo: int, hi: int): int {
    Total(During(NetDebit(group * DebitNormal(meta)), start, lo, hi), txns)
    + Total(During(NetCredit(group - DebitNormal(meta)), start, lo, hi), txns)
  }

  // The chart of accounts knows every account posted to inside the window.
  predicate Charted(meta: Chart, txns: seq<Txn>, start: Date, months: int) {
    forall t :: t in txns && InWindow(t, start, months) ==> forall l :: l in t.lines ==> l.code in meta
  }

  // ---------------------------------------------------------------------
  // Measures over sets of accounts
  // ---------------------------------------------------------------------

  lemma {:induction false} NetOnSplits(a: set<string>, b: set<string>, lines: seq<Line>)
    requires a !! b
    ensures NetOn(a + b, lines) == NetOn(a, lines) + NetOn(b, lines)
  {
    if lines != [] {
      NetOnSplits(a, b, lines[1..]);
    }
  }

  lemma {:induction false} NetOnSnoc(codes: set<string>, lines: seq<Line>, i: nat)
    requires i < |lines|
    ensures NetOn(codes, lines[..i + 1]) == NetOn(codes, lines[..i]) + NetOn(codes, [lines[i]])
    decreases i
  {
    if i > 0 {
      NetOnSnoc(codes, lines[1..], i - 1);
      assert lines[1..][..i] == lines[..i + 1][1..];
      assert lines[1..][..i - 1] == lines[..i][1..];
    } else {
      assert lines[..1] == [lines[0]];
    }
  }

  lemma {:induction false} TotalSplits(a: set<string>, b: set<string>, start: Date, lo: int, hi: int, s: seq<Txn>)
    requires a !! b
    ensures Total(During(NetDebit(a + b), start, lo, hi), s) ==
            Total(During(NetDebit(a), start, lo, hi), s) + Total(During(NetDebit(b), start, lo, hi), s)
    ensures Total(During(NetCredit(a), start, lo, hi), s) == -Total(During(NetDebit(a), start, lo, hi), s)
    ensures Total(During(NetDebit({}), start, lo, hi), s) == 0
  {
    if s != [] {
      TotalSplits(a, b, start, lo, hi, s[1..]);
      NetOnSplits(a, b, s[0].lines);
      OffAccounts({}, s[0].lines);
      assert Weigh(NetDebit(a + b), s[0]) == Weigh(NetDebit(a), s[0]) + Weigh(NetDebit(b), s[0]);
      assert Weigh(NetCredit(a), s[0]) == -Weigh(NetDebit(a), s[0]);
      assert Weigh(NetDebit({}), s[0]) == 0;
    }
  }

  /** Pulling one account out of a group. */
  lemma GroupSplits(meta: Chart, group: set<string>, c: string, txns: seq<Txn>, start: Date, lo: int, hi: int)
    requires c in group && c in meta
    ensures GroupOver(meta, group, txns, start, lo, hi) ==
            Signed(meta, c, Total(During(NetDebit({c}), start, lo, hi), txns), 0)
            + GroupOver(meta, group - {c}, txns, start, lo, hi)
  {
    var d := DebitNormal(meta);
    var rest := group - {c};
    if c in d {
      assert group * d == {c} + rest * d && group - d == rest - d;
      TotalSplits({c}, rest * d, start, lo, hi, txns);
    } else {
      assert group - d == {c} + (rest - d) && group * d == rest * d;
      TotalSplits({c}, rest - d, start, lo, hi, txns);
      TotalSplits(group - d, {}, start, lo, hi, txns);
      TotalSplits(rest - d, {}, start, lo, hi, txns);
    }
  }

  lemma {:induction false} MonthsAdd(m: Measure, start: Date, lo: int, mid: int, hi: int, s: seq<Txn>)
    requires lo <= mid <= hi
    ensures Total(During(m, start, lo, hi), s) ==
            Total(During(m, start, lo, mid - 1), s) + Total(During(m, start, mid, hi), s)
  {
    if s != [] {
      MonthsAdd(m, start, lo, mid, hi, s[1..]);
    }
  }

  // ---------------------------------------------------------------------
  // The fold
  // ---------------------------------------------------------------------

  method PostLines(meta: Chart, lines: seq<Line>, period: map<string, int>, balance: map<string, int>)
    returns (period': map<string, int>, balance': map<string, int>)
    requires forall l :: l in lines ==> l.code in meta
    ensures forall c :: c in meta ==>
              && Get(period', c) == Get(period, c) + Signed(meta, c, NetOn({c}, lines), 0)
              && Get(balance', c) == Get(balance, c) + Signed(meta, c, NetOn({c}, lines), 0)
  {
    period', balance' := period, balance;
    for i := 0 to |lines|
      invariant forall c :: c in meta ==>
                  && Get(period', c) == Get(period, c) + Signed(meta, c, NetOn({c}, lines[..i]), 0)
                  && Get(balance', c) == Get(balance, c) + Signed(meta, c, NetOn({c}, lines[..i]), 0)
    {
      var l := lines[i];
      var amount := Signed(meta, l.code, l.debit, l.credit);
      period' := period'[l.code := Get(period', l.code) + amount];
      balance' := balance'[l.code := Get(balance', l.code) + amount];
      forall c | c in meta
        ensures NetOn({c}, lines[..i + 1]) ==
                NetOn({c}, lines[..i]) + if c == l.code then l.debit - l.credit else 0
      {
        NetOnSnoc({c}, lines, i);
        assert [l][1..] == [];
      }
    }
    assert lines[..|lines|] == lines;
  }

  method PostMonth(meta: Chart, txns: seq<Txn>, start: Date, months: int, off: int, balance: map<string, int>)
    returns (period: map<string, int>, balance': map<string, int>)
    requires Charted(meta, txns, start, months) && 0 <= off < months
    ensures forall c :: c in meta ==>
              var activity := Signed(meta, c, Total(During(NetDebit({c}), start, off, off), txns), 0);
              Get(period, c) == activity && Get(balance', c) == Get(balance, c) + activity
  {
    period, balance' := map[], balance;
    for i := 0 to |txns|
      invariant forall c :: c in meta ==>
                  var activity := Signed(meta, c, Total(During(NetDebit({c}), start, off, off), txns[..i]), 0);
                  Get(period, c) == activity && Get(balance', c) == Get(balance, c) + activity
    {
      var t := txns[i];
      forall c | c in meta
        ensures Total(During(NetDebit({c}), start, off, off), txns[..i + 1]) ==
                Total(During(NetDebit({c}), start, off, off), txns[..i])
                + if OffsetOf(t.date, start) == off then NetOn({c}, t.lines) else 0
      {
        TotalSnoc(During(NetDebit({c}), start, off, off), txns, i);
        assert Weigh(NetDebit({c}), t) == NetOn({c}, t.lines);
      }
      if OffsetOf(t.date, start) == off {
        assert InWindow(t, start, months);
        period, balance' := PostLines(meta, t.lines, period, balance');
      }
    }
    assert txns[..|txns|] == txns;
  }

  method GroupTotal(meta: Chart, group: set<string>, src: map<string, int>,
                    ghost txns: seq<Txn>, ghost start: Date, ghost lo: int, ghost hi: int)
    returns (total: int)
    requires group <= meta.Keys
    requires forall c :: c in meta ==>
               Get(src, c) == Signed(meta, c, Total(During(NetDebit({c}), start, lo, hi), txns), 0)
    ensures total == GroupOver(meta, group, txns, start, lo, hi)
  {
    total := 0;
    var rest := group;
    while rest != {}
      invariant rest <= group
      invariant total + GroupOver(meta, rest, txns, start, lo, hi) == GroupOver(meta, group, txns, start, lo, hi)
      decreases rest
    {
      var c :| c in rest;
      GroupSplits(meta, rest, c, txns, start, lo, hi);
      total := total + Get(src, c);
      rest := rest - {c};
    }
    assert rest * DebitNormal(meta) == {} && rest - DebitNormal(meta) == {};
    TotalSplits({}, {}, start, lo, hi, txns);
  }

  /** Row k as a reader understands it: P&L accounts over month k alone, balance
      sheet accounts over every month so far. */
  predicate RowIs(row: Row, meta: Chart, txns: seq<Txn>, start: Date, k: int) {
    && row.offset == k && 1 <= row.month <= 12
    && OffsetOf(YMD(row.year, row.month, 1), start) == k
    && row.revenue == GroupOver(meta, RevenueCodes(meta), txns, start, k, k)
    && row.cogs == GroupOver(meta, Subclass(meta, "cost_of_goods_sold"), txns, start, k, k)
    && row.opex == GroupOver(meta, ExpenseCodes(meta), txns, start, k, k)
    && row.grossProfit == row.revenue - row.cogs
    && row.netIncome == row.revenue - row.cogs - row.opex
    && row.cash == GroupOver(meta, Subclass(meta, "cash_and_equivalents"), txns, start, 0, k)
    && row.ar == GroupOver(meta, Subclass(meta, "accounts_receivable"), txns, start, 0, k)
    && row.inventory == GroupOver(meta, Subclass(meta, "inventory"), txns, start, 0, k)
    && row.deferredRev == GroupOver(meta, Subclass(meta, "deferred_revenue"), txns, start, 0, k)
  }

  method SummaryRow(meta: Chart, txns: seq<Txn>, start: Date, off: int,
                    period: map<string, int>, balance: map<string, int>)
    returns (row: Row)
    requires forall c :: c in meta ==>
               && Get(period, c) == Signed(meta, c, Total(During(NetDebit({c}), start, off, off), txns), 0)
               && Get(balance, c) == Signed(meta, c, Total(During(NetDebit({c}), start, 0, off), txns), 0)
    ensures RowIs(row, meta, txns, start, off)
  {
    var revenue := GroupTotal(meta, RevenueCodes(meta), period, txns, start, off, off);
    var cogs := GroupTotal(meta, Subclass(meta, "cost_of_goods_sold"), period, txns, start, off, off);
    var opex := GroupTotal(meta, ExpenseCodes(meta), period, txns, start, off, off);
    var cash := GroupTotal(meta, Subclass(meta, "cash_and_equivalents"), balance, txns, start, 0, off);
    var ar := GroupTotal(meta, Subclass(meta, "accounts_receivable"), balance, txns, start, 0, off);
    var inventory := GroupTotal(meta, Subclass(meta, "inventory"), balance, txns, start, 0, off);
    var deferredRev := GroupTotal(meta, Subclass(meta, "deferred_revenue"), balance, txns, start, 0, off);
    var month := MonthDate(start, off, 1);
    OffsetOfMonthDate(start, off, 1);
    row := Row(off, month.year, month.month, revenue, cogs, revenue - cogs, opex, revenue - cogs - opex,
               cash, ar, inventory, deferredRev);
  }

  // ---- What a row says of the chart ----

  /** The activity of some accounts over months lo..hi: what debit-normal ones take up and
      credit-normal ones give. */
  function Activity(meta: Chart, accounts: set<string>, txns: seq<Txn>, start: Date, lo: int, hi: int): int
    requires accounts <= meta.Keys
  {
    var debit := set c | c in accounts && meta[c].debitNormal;
    var credit := set c | c in accounts && !meta[c].debitNormal;
    Total(During(NetDebit(debit), start, lo, hi), txns) - Total(During(NetDebit(credit), start, lo, hi), txns)
  }

  /** Row k over the chart itself: profit and loss of month k alone, balances over every
      month so far, and every account counted once in net income, whether it is cost of
      goods sold, an expense or both. */
  predicate RowReads(row: Row, meta: Chart, txns: seq<Txn>, start: Date, k: int) {
    var revenue := set c | c in meta && meta[c].accountTrait == "revenue";
    var sold := set c | c in meta && meta[c].sub == "cost_of_goods_sold";
    var expense := set c | c in meta && meta[c].accountTrait == "expense";
    var other := set c | c in expense && c !in sold;
    var cash := set c | c in meta && meta[c].sub == "cash_and_equivalents";
    var receivable := set c | c in meta && meta[c].sub == "accounts_receivable";
    var inventory := set c | c in meta && meta[c].sub == "inventory";
    var deferred := set c | c in meta && meta[c].sub == "deferred_revenue";
    && row.offset == k && 12 * row.year + row.month == 12 * start.year + start.month + k && 1 <= row.month <= 12
    && row.revenue == Activity(meta, revenue, txns, start, k, k)
    && row.cogs == Activity(meta, sold, txns, start, k, k)
    && row.grossProfit + row.cogs == row.revenue
    && row.opex == Activity(meta, other, txns, start, k, k)
    && row.netIncome == row.revenue - Activity(meta, sold + expense, txns, start, k, k)
    && row.cash == Activity(meta, cash, txns, start, 0, k)
    && row.ar == Activity(meta, receivable, txns, start, 0, k)
    && row.inventory == Activity(meta, inventory, txns, start, 0, k)
    && row.deferredRev == Activity(meta, deferred, txns, start, 0, k)
  }

  lemma ActivityIs(meta: Chart, accounts: set<string>, txns: seq<Txn>, start: Date, lo: int, hi: int)
    requires accounts <= meta.Keys
    ensures GroupOver(meta, accounts, txns, start, lo, hi) == Activity(meta, accounts, txns, start, lo, hi)
  {
    assert (set c | c in accounts && meta[c].debitNormal) == accounts * DebitNormal(meta);
    assert (set c | c in accounts && !meta[c].debitNormal) == accounts - DebitNormal(meta);
    TotalSplits(accounts - DebitNormal(meta), {}, start, lo, hi, txns);
  }

  lemma ActivityAdds(meta: Chart, a: set<string>, b: set<string>, txns: seq<Txn>, start: Date, lo: int, hi: int)
    requires a <= meta.Keys && b <= meta.Keys && a !! b
    ensures Activity(meta, a + b, txns, start, lo, hi) ==
            Activity(meta, a, txns, start, lo, hi) + Activity(meta, b, txns, start, lo, hi)
  {
    var da, db := (set c | c in a && meta[c].debitNormal), (set c | c in b && meta[c].debitNormal);
    var ca, cb := (set c | c in a && !meta[c].debitNormal), (set c | c in b && !meta[c].debitNormal);
    assert (set c | c in a + b && meta[c].debitNormal) == da + db;
    assert (set c | c in a + b && !meta[c].debitNormal) == ca + cb;
    TotalSplits(da, db, start, lo, hi, txns);
    TotalSplits(ca, cb, start, lo, hi, txns);
  }

  lemma RowMeans(row: Row, meta: Chart, txns: seq<Txn>, start: Date, k: int)
    requires RowIs(row, meta, txns, start, k)
    ensures RowReads(row, meta, txns, start, k)
  {
    var revenue := set c | c in meta && meta[c].accountTrait == "revenue";
    var sold := set c | c in meta && meta[c].sub == "cost_of_goods_sold";
    var expense := set c | c in meta && meta[c].accountTrait == "expense";
    var other := set c | c in expense && c !in sold;
    assert ExpenseCodes(meta) == other && sold + expense == sold + other;
    hide Activity, GroupOver;
    ActivityAdds(meta, sold, other, txns, start, k, k);
    ActivityIs(meta, revenue, txns, start, k, k);
    ActivityIs(meta, sold, txns, start, k, k);
    ActivityIs(meta, other, txns, start, k, k);
    ActivityIs(meta, Subclass(meta, "cash_and_equivalents"), txns, start, 0, k);
    ActivityIs(meta, Subclass(meta, "accounts_receivable"), txns, start, 0, k);
    ActivityIs(meta, Subclass(meta, "inventory"), txns, start, 0, k);
    ActivityIs(meta, Subclass(meta, "deferred_revenue"), txns, start, 0, k);
  }

  method MonthlySummary(sc: Scenario, meta: Chart, start: Date) returns (rows: seq<Row>)
    requires ValidScenario(sc)
    requires Charted(meta, Emitted(sc, start), start, sc.months)
    ensures |rows| == Count(sc.months)
    ensures forall k :: 0 <= k < |rows| ==>
              RowIs(rows[k], meta, Emitted(sc, start), start, k)
              && RowReads(rows[k], meta, Emitted(sc, start), start, k)
  {
    hide RowReads, RowIs, Charted, Emitted, ValidScenario, Total;
    var txns := Emit(sc, start);
    rows := [];
    var balance: map<string, int> := map[];
    forall c | c in meta
      ensures Total(During(NetDebit({c}), start, 0, -1), txns) == 0
    {
      DuringNone(NetDebit({c}), start, 0, -1, txns);
    }
    for off := 0 to Count(sc.months)
      invariant |rows| == off
      invariant forall k :: 0 <= k < off ==>
                  RowIs(rows[k], meta, txns, start, k) && RowReads(rows[k], meta, txns, start, k)
      invariant forall c :: c in meta ==>
                  Get(balance, c) == Signed(meta, c, Total(During(NetDebit({c}), start, 0, off - 1), txns), 0)
    {
      var period;
      period, balance := PostMonth(meta, txns, start, sc.months, off, balance);
      forall c | c in meta
        ensures Total(During(NetDebit({c}), start, 0, off), txns) ==
                Total(During(NetDebit({c}), start, 0, off - 1), txns)
                + Total(During(NetDebit({c}), start, off, off), txns)
      {
        MonthsAdd(NetDebit({c}), start, 0, off, off, txns);
      }
      var row := SummaryRow(meta, txns, start, off, period, balance);
      RowMeans(row, meta, txns, start, off);
      rows := rows + [row];
    }
  }

  // ---------------------------------------------------------------------
  // Articulation
  // ---------------------------------------------------------------------

  lemma {:induction false} AllAccountsNet(codes: set<string>, lines: seq<Line>)
    requires forall l :: l in lines ==> l.code in codes
    ensures NetOn(codes, lines) == Debits(lines) - Credits(lines)
  {
    if lines != [] {
      AllAccountsNet(codes, lines[1..]);
    }
  }

  lemma {:induction false} BalancedNets(meta: Chart, s: seq<Txn>, start: Date, k: int)
    requires forall t :: t in s && InWindow(t, start, k + 1) ==>
               Balanced(t) && forall l :: l in t.lines ==> l.code in meta
    ensures Total(During(NetDebit(meta.Keys), start, 0, k), s) == 0
  {
    if s != [] {
      BalancedNets(meta, s[1..], start, k);
      if InWindow(s[0], start, k + 1) {
        AllAccountsNet(meta.Keys, s[0].lines);
        assert Weigh(NetDebit(meta.Keys), s[0]) == 0;
      }
    }
  }

  /** At the end of every month the debit-normal and the credit-normal balances of
      the whole chart total the same. */
  lemma BooksArticulate(meta: Chart, txns: seq<Txn>, start: Date, months: int, k: int)
    requires Charted(meta, txns, start, months) && 0 <= k < months
    requires forall t :: t in txns && InWindow(t, start, months) ==> Balanced(t)
    ensures GroupOver(meta, DebitNormal(meta), txns, start, 0, k) ==
            GroupOver(meta, meta.Keys - DebitNormal(meta), txns, start, 0, k)
  {
    var d := DebitNormal(meta);
    var c := meta.Keys - d;
    BalancedNets(meta, txns, start, k);
    assert meta.Keys == d + c;
    TotalSplits(d, c, start, 0, k, txns);
    TotalSplits(c, {}, start, 0, k, txns);
    assert d * d == d && d - d == {} && c * d == {} && c - d == c;
    TotalSplits({}, {}, start, 0, k, txns);
  }

  /** Any balance at month k is the balance at an earlier month plus the activity since,
      so the P&L rows of a span add up to its balance change. */
  lemma RowsAccumulate(meta: Chart, group: set<string>, txns: seq<Txn>, start: Date, j: int, k: int)
    requires 0 <= j <= k
    ensures GroupOver(meta, group, txns, start, 0, k) ==
            GroupOver(meta, group, txns, start, 0, j - 1) + GroupOver(meta, group, txns, start, j, k)
  {
    MonthsAdd(NetDebit(group * DebitNormal(meta)), start, 0, j, k, txns);
    MonthsAdd(NetCredit(group - DebitNormal(meta)), start, 0, j, k, txns);
  }

  /** The last row accounts for every emitted transaction: with forward lags and an
      opening inside the window, nothing is dated outside it. */
  lemma LastRowMissesNothing(sc: Scenario, start: Date, m: Measure)
    requires ValidScenario(sc) && sc.months >= 1 && LagsForward(sc)
    requires forall t :: t in sc.opening ==> InWindow(t, start, sc.months)
    ensures forall t :: t in Emitted(sc, start) ==> InWindow(t, start, sc.months)
    ensures Total(During(m, start, 0, sc.months - 1), Emitted(sc, start)) == Total(m, Emitted(sc, start))
  {
    forall t | t in Emitted(sc, start)
      ensures InWindow(t, start, sc.months)
    {
      if t !in sc.opening {
        EmittedShape(sc, start, t);
      }
    }
    DuringAll(m, start, 0, sc.months - 1, Emitted(sc, start));
  }

  /** So the emitted books of a scenario with a balanced opening articulate every month. */
  lemma EmittedBooksArticulate(sc: Scenario, meta: Chart, start: Date, k: int)
    requires ValidScenario(sc) && 0 <= k < sc.months
    requires Charted(meta, Emitted(sc, start), start, sc.months)
    requires forall t :: t in sc.opening ==> Balanced(t)
    ensures GroupOver(meta, DebitNormal(meta), Emitted(sc, start), start, 0, k) ==
            GroupOver(meta, meta.Keys - DebitNormal(meta), Emitted(sc, start), start, 0, k)
  {
    EmittedBalances(sc, start);
    BooksArticulate(meta, Emitted(sc, start), start, sc.months, k);
  }
}

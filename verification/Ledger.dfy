// Measures over transaction lists, the stable sort by date, and how a sorted
// merge of two lists splits into prefixes of its parts.

module Ledger {
  import opened Calendar
  import opened Drivers

  // ---------------------------------------------------------------------
  // Lines and balances
  // ---------------------------------------------------------------------

  function Debits(lines: seq<Line>): int {
    if lines == [] then 0 else lines[0].debit + Debits(lines[1..])
  }

  function Credits(lines: seq<Line>): int {
    if lines == [] then 0 else lines[0].credit + Credits(lines[1..])
  }

  /** Debits less credits of the lines on the given accounts. */
  function NetOn(codes: set<string>, lines: seq<Line>): int {
    if lines == [] then 0
    else (if lines[0].code in codes then lines[0].debit - lines[0].credit else 0)
         + NetOn(codes, lines[1..])
  }

  predicate Balanced(t: Txn) { Debits(t.lines) == Credits(t.lines) }

  /** `agent_name or ""`, the customer half of an invoice key. */
  function AgentKey(t: Txn): string { if t.agent.Some? then t.agent.value else "" }

  // What is measured along a stream: the balance of a set of accounts, debit or
  // credit normal, how many invoices of one (customer, amount) key are open, or
  // any of these over the months lo..hi only.
  datatype Measure =
    | NetDebit(codes: set<string>)
    | NetCredit(codes: set<string>)
    | Open(customer: string, amount: int)
    | During(what: Measure, start: Date, lo: int, hi: int)

  function Weigh(m: Measure, t: Txn): int {
    match m
    case NetDebit(codes) => NetOn(codes, t.lines)
    case NetCredit(codes) => -NetOn(codes, t.lines)
    case Open(customer, amount) =>
      if AgentKey(t) != customer || Debits(t.lines) != amount then 0
      else if t.kind == Invoice then 1
      else if t.kind == Payment then -1
      else 0
    case During(what, start, lo, hi) =>
      if lo <= OffsetOf(t.date, start) <= hi then Weigh(what, t) else 0
  }

  function Total(m: Measure, s: seq<Txn>): int {
    if s == [] then 0 else Weigh(m, s[0]) + Total(m, s[1..])
  }

  lemma {:induction false} TotalConcat(m: Measure, a: seq<Txn>, b: seq<Txn>)
    ensures Total(m, a + b) == Total(m, a) + Total(m, b)
  {
    if a == [] {
      assert a + b == b;
    } else {
      assert (a + b)[1..] == a[1..] + b;
      TotalConcat(m, a[1..], b);
    }
  }

  lemma TotalSnoc(m: Measure, s: seq<Txn>, n: nat)
    requires n < |s|
    ensures Total(m, s[..n + 1]) == Total(m, s[..n]) + Weigh(m, s[n])
  {
    assert s[..n + 1] == s[..n] + [s[n]];
    TotalConcat(m, s[..n], [s[n]]);
  }

  /** The measure never dips below zero along the list. */
  ghost predicate NeverNegative(m: Measure, s: seq<Txn>) {
    forall n :: 0 <= n <= |s| ==> Total(m, s[..n]) >= 0
  }

  // ---------------------------------------------------------------------
  // The stable sort by date
  // ---------------------------------------------------------------------

  function Insert(t: Txn, s: seq<Txn>): seq<Txn> {
    if s == [] || Key(t.date) <= Key(s[0].date) then [t] + s
    else [s[0]] + Insert(t, s[1..])
  }

  /** `txns.sort(key=lambda t: t[0])`; SortIsStable says what that means. */
  function Sort(s: seq<Txn>): seq<Txn> {
    if s == [] then [] else Insert(s[0], Sort(s[1..]))
  }

  predicate Sorted(s: seq<Txn>) {
    forall i, j :: 0 <= i < j < |s| ==> Key(s[i].date) <= Key(s[j].date)
  }

  /** The transactions of one day, in list order. */
  function OnDay(d: Date, s: seq<Txn>): seq<Txn> {
    if s == [] then []
    else (if s[0].date == d then [s[0]] else []) + OnDay(d, s[1..])
  }

  lemma {:induction false} InsertSorted(t: Txn, s: seq<Txn>)
    requires Sorted(s)
    ensures Sorted(Insert(t, s))
    ensures |Insert(t, s)| == |s| + 1
    ensures forall x :: x in Insert(t, s) <==> x == t || x in s
  {
    if s != [] && Key(t.date) > Key(s[0].date) {
      InsertSorted(t, s[1..]);
      var r := Insert(t, s[1..]);
      assert Insert(t, s) == [s[0]] + r;
      assert s == [s[0]] + s[1..];
      hide Insert, Key;
      forall j | 0 <= j < |r|
        ensures Key(s[0].date) <= Key(r[j].date)
      {
        assert r[j] in r;
      }
    }
  }

  lemma {:induction false} InsertOnDay(t: Txn, s: seq<Txn>, d: Date)
    requires Sorted(s)
    ensures OnDay(d, Insert(t, s)) == OnDay(d, [t]) + OnDay(d, s)
  {
    if s != [] && Key(t.date) > Key(s[0].date) {
      InsertOnDay(t, s[1..], d);
      assert ([s[0]] + Insert(t, s[1..]))[1..] == Insert(t, s[1..]);
    } else {
      assert ([t] + s)[1..] == s;
    }
  }

  lemma {:induction false} SortMembers(s: seq<Txn>)
    ensures Sorted(Sort(s)) && |Sort(s)| == |s|
    ensures forall x :: x in Sort(s) <==> x in s
  {
    if s != [] {
      SortMembers(s[1..]);
      InsertSorted(s[0], Sort(s[1..]));
      assert s == [s[0]] + s[1..];
    }
  }

  lemma {:induction false} SortOnDay(s: seq<Txn>, d: Date)
    ensures OnDay(d, Sort(s)) == OnDay(d, s)
  {
    if s != [] {
      SortOnDay(s[1..], d);
      SortMembers(s[1..]);
      InsertOnDay(s[0], Sort(s[1..]), d);
    }
  }

  /** Sorted by date, the same transactions, and those of one day in their old order. */
  lemma SortIsStable(s: seq<Txn>)
    ensures Sorted(Sort(s)) && |Sort(s)| == |s|
    ensures forall x :: x in Sort(s) <==> x in s
    ensures forall d :: OnDay(d, Sort(s)) == OnDay(d, s)
  {
    SortMembers(s);
    forall d
      ensures OnDay(d, Sort(s)) == OnDay(d, s)
    {
      SortOnDay(s, d);
    }
  }

  lemma {:induction false} InsertTotal(m: Measure, t: Txn, s: seq<Txn>)
    ensures Total(m, Insert(t, s)) == Weigh(m, t) + Total(m, s)
  {
    if s != [] && Key(t.date) > Key(s[0].date) {
      InsertTotal(m, t, s[1..]);
      assert ([s[0]] + Insert(t, s[1..]))[1..] == Insert(t, s[1..]);
    } else {
      assert ([t] + s)[1..] == s;
    }
  }

  lemma {:induction false} SortTotal(m: Measure, s: seq<Txn>)
    ensures Total(m, Sort(s)) == Total(m, s)
  {
    if s != [] {
      SortTotal(m, s[1..]);
      InsertTotal(m, s[0], Sort(s[1..]));
    }
  }

  // ---------------------------------------------------------------------
  // Sorting a concatenation interleaves the sorted parts
  // ---------------------------------------------------------------------

  /** z is a and b merged, each kept in order. */
  ghost predicate Interleaves(z: seq<Txn>, a: seq<Txn>, b: seq<Txn>) {
    if z == [] then a == [] && b == []
    else
      || (a != [] && a[0] == z[0] && Interleaves(z[1..], a[1..], b))
      || (b != [] && b[0] == z[0] && Interleaves(z[1..], a, b[1..]))
  }

  lemma {:induction false} InterleavedIsIn(z: seq<Txn>, a: seq<Txn>, b: seq<Txn>)
    requires Interleaves(z, a, b)
    ensures forall x :: x in a ==> x in z
    ensures |z| == |a| + |b|
  {
    if z != [] {
      if a != [] && a[0] == z[0] && Interleaves(z[1..], a[1..], b) {
        InterleavedIsIn(z[1..], a[1..], b);
        assert a == [a[0]] + a[1..];
      } else {
        InterleavedIsIn(z[1..], a, b[1..]);
      }
    }
  }

  lemma {:induction false} InterleavesNothing(b: seq<Txn>)
    ensures Interleaves(b, [], b)
  {
    if b != [] {
      InterleavesNothing(b[1..]);
    }
  }

  lemma {:induction false} InsertInterleaves(t: Txn, z: seq<Txn>, a: seq<Txn>, b: seq<Txn>)
    requires Interleaves(z, a, b) && Sorted(z)
    ensures Interleaves(Insert(t, z), Insert(t, a), b)
  {
    if z == [] || Key(t.date) <= Key(z[0].date) {
      InterleavedIsIn(z, a, b);
      assert Insert(t, z)[1..] == z;
      if a != [] {
        assert a[0] in z;
        assert Insert(t, a)[1..] == a;
      }
    } else if a != [] && a[0] == z[0] && Interleaves(z[1..], a[1..], b) {
      InsertInterleaves(t, z[1..], a[1..], b);
      assert Insert(t, z)[1..] == Insert(t, z[1..]);
      assert Insert(t, a)[1..] == Insert(t, a[1..]);
    } else {
      InsertInterleaves(t, z[1..], a, b[1..]);
      assert Insert(t, z)[1..] == Insert(t, z[1..]);
    }
  }

  lemma {:induction false} SortInterleaves(a: seq<Txn>, b: seq<Txn>)
    ensures Interleaves(Sort(a + b), Sort(a), Sort(b))
  {
    if a == [] {
      assert a + b == b;
      InterleavesNothing(Sort(b));
    } else {
      assert (a + b)[1..] == a[1..] + b;
      SortInterleaves(a[1..], b);
      SortMembers(a[1..] + b);
      InsertInterleaves(a[0], Sort(a[1..] + b), Sort(a[1..]), Sort(b));
    }
  }

  lemma PrefixStep(m: Measure, s: seq<Txn>, n: nat)
    requires 0 < n <= |s|
    ensures Total(m, s[..n]) == Weigh(m, s[0]) + Total(m, s[1..][..n - 1])
  {
    assert s[..n][1..] == s[1..][..n - 1];
  }

  /** Every prefix of a merge is a prefix of each part, put together. */
  lemma {:induction false} PrefixSplits(m: Measure, z: seq<Txn>, a: seq<Txn>, b: seq<Txn>, n: nat)
    returns (i: nat, j: nat)
    requires Interleaves(z, a, b) && n <= |z|
    ensures i <= |a| && j <= |b| && i + j == n
    ensures Total(m, z[..n]) == Total(m, a[..i]) + Total(m, b[..j])
  {
    if n == 0 {
      i, j := 0, 0;
    } else {
      PrefixStep(m, z, n);
      if a != [] && a[0] == z[0] && Interleaves(z[1..], a[1..], b) {
        i, j := PrefixSplits(m, z[1..], a[1..], b, n - 1);
        i := i + 1;
        PrefixStep(m, a, i);
      } else {
        i, j := PrefixSplits(m, z[1..], a, b[1..], n - 1);
        j := j + 1;
        PrefixStep(m, b, j);
      }
    }
  }

  /** Merging two streams that never dip below zero gives one that does not either. */
  lemma MergeNeverNegative(m: Measure, a: seq<Txn>, b: seq<Txn>)
    requires NeverNegative(m, Sort(a)) && NeverNegative(m, Sort(b))
    ensures NeverNegative(m, Sort(a + b))
  {
    SortInterleaves(a, b);
    forall n | 0 <= n <= |Sort(a + b)|
      ensures Total(m, Sort(a + b)[..n]) >= 0
    {
      var i, j := PrefixSplits(m, Sort(a + b), Sort(a), Sort(b), n);
    }
  }

  lemma {:induction false} InterleavesSwaps(z: seq<Txn>, a: seq<Txn>, b: seq<Txn>)
    requires Interleaves(z, a, b)
    ensures Interleaves(z, b, a)
  {
    if z != [] {
      if a != [] && a[0] == z[0] && Interleaves(z[1..], a[1..], b) {
        InterleavesSwaps(z[1..], a[1..], b);
      } else {
        InterleavesSwaps(z[1..], a, b[1..]);
      }
    }
  }

  /** Merged with transactions that weigh nothing, a part's every prefix total recurs. */
  lemma {:induction false} PrefixOfPart(m: Measure, z: seq<Txn>, a: seq<Txn>, b: seq<Txn>, j: nat) returns (n: nat)
    requires Interleaves(z, a, b) && j <= |b|
    requires forall t :: t in a ==> Weigh(m, t) == 0
    ensures n <= |z| && Total(m, z[..n]) == Total(m, b[..j])
  {
    hide Weigh;
    if j == 0 {
      n := 0;
    } else if a != [] && a[0] == z[0] && Interleaves(z[1..], a[1..], b) {
      n := PrefixOfPart(m, z[1..], a[1..], b, j);
      n := n + 1;
      PrefixStep(m, z, n);
    } else {
      n := PrefixOfPart(m, z[1..], a, b[1..], j - 1);
      n := n + 1;
      PrefixStep(m, z, n);
      PrefixStep(m, b, j);
    }
  }

  /** Transactions that weigh nothing make no difference to the sign. */
  lemma NeutralMerge(m: Measure, a: seq<Txn>, b: seq<Txn>)
    requires forall t :: t in a ==> Weigh(m, t) == 0
    ensures NeverNegative(m, Sort(a + b)) <==> NeverNegative(m, Sort(b))
    ensures NeverNegative(m, Sort(b + a)) <==> NeverNegative(m, Sort(b))
  {
    hide Weigh, Sort, Interleaves;
    SortNonNegative(m, a);
    SortMembers(a);
    if NeverNegative(m, Sort(b)) {
      MergeNeverNegative(m, a, b);
      MergeNeverNegative(m, b, a);
    } else {
      var j :| 0 <= j <= |Sort(b)| && Total(m, Sort(b)[..j]) < 0;
      SortInterleaves(a, b);
      var n := PrefixOfPart(m, Sort(a + b), Sort(a), Sort(b), j);
      SortInterleaves(b, a);
      InterleavesSwaps(Sort(b + a), Sort(b), Sort(a));
      n := PrefixOfPart(m, Sort(b + a), Sort(a), Sort(b), j);
    }
  }

  lemma {:induction false} NonNegativeTotal(m: Measure, s: seq<Txn>)
    requires forall t :: t in s ==> Weigh(m, t) >= 0
    ensures Total(m, s) >= 0
  {
    if s != [] {
      NonNegativeTotal(m, s[1..]);
    }
  }

  lemma SortNonNegative(m: Measure, s: seq<Txn>)
    requires forall t :: t in s ==> Weigh(m, t) >= 0
    ensures NeverNegative(m, Sort(s))
  {
    SortMembers(s);
    forall n | 0 <= n <= |Sort(s)|
      ensures Total(m, Sort(s)[..n]) >= 0
    {
      assert forall t :: t in Sort(s)[..n] ==> t in Sort(s);
      NonNegativeTotal(m, Sort(s)[..n]);
    }
  }

  // ---------------------------------------------------------------------
  // Streams built piece by piece
  // ---------------------------------------------------------------------

  function Flatten(parts: seq<seq<Txn>>): seq<Txn> {
    if parts == [] then [] else parts[0] + Flatten(parts[1..])
  }

  lemma {:induction false} FlattenConcat(a: seq<seq<Txn>>, b: seq<seq<Txn>>)
    ensures Flatten(a + b) == Flatten(a) + Flatten(b)
  {
    if a == [] {
      assert a + b == b;
    } else {
      assert (a + b)[1..] == a[1..] + b;
      FlattenConcat(a[1..], b);
    }
  }

  lemma FlattenSnoc(parts: seq<seq<Txn>>, n: nat)
    requires n < |parts|
    ensures Flatten(parts[..n + 1]) == Flatten(parts[..n]) + parts[n]
  {
    assert parts[..n + 1] == parts[..n] + [parts[n]];
    FlattenConcat(parts[..n], [parts[n]]);
    assert Flatten([parts[n]]) == parts[n] + [];
  }

  lemma FlattenAround(parts: seq<seq<Txn>>, i: nat)
    requires i < |parts|
    ensures Flatten(parts) == Flatten(parts[..i]) + parts[i] + Flatten(parts[i + 1..])
  {
    hide Flatten;
    var head, tail := parts[..i + 1], parts[i + 1..];
    FlattenSnoc(parts, i);
    FlattenConcat(head, tail);
    assert head + tail == parts;
  }

  /** One more piece appended to a stream that began with `base`. */
  lemma FlattenOnto(base: seq<Txn>, parts: seq<seq<Txn>>, n: nat, part: seq<Txn>)
    requires n < |parts| && parts[n] == part
    ensures base + Flatten(parts[..n + 1]) == base + Flatten(parts[..n]) + part
  {
    FlattenSnoc(parts, n);
    assert base + (Flatten(parts[..n]) + part) == base + Flatten(parts[..n]) + part;
  }

  lemma {:induction false} FlattenMember(parts: seq<seq<Txn>>, t: Txn) returns (k: nat)
    requires t in Flatten(parts)
    ensures k < |parts| && t in parts[k]
  {
    if t in parts[0] {
      k := 0;
    } else {
      k := FlattenMember(parts[1..], t);
      k := k + 1;
    }
  }

  lemma {:induction false} FlattenNeverNegative(m: Measure, parts: seq<seq<Txn>>)
    requires forall k :: 0 <= k < |parts| ==> NeverNegative(m, Sort(parts[k]))
    ensures NeverNegative(m, Sort(Flatten(parts)))
  {
    if parts != [] {
      FlattenNeverNegative(m, parts[1..]);
      MergeNeverNegative(m, parts[0], Flatten(parts[1..]));
    }
  }

  lemma {:induction false} OffAccounts(codes: set<string>, lines: seq<Line>)
    requires forall l :: l in lines ==> l.code !in codes
    ensures NetOn(codes, lines) == 0
  {
    if lines != [] {
      OffAccounts(codes, lines[1..]);
    }
  }

  lemma {:induction false} ZeroTotal(m: Measure, s: seq<Txn>)
    requires forall t :: t in s ==> Weigh(m, t) == 0
    ensures Total(m, s) == 0
  {
    if s != [] {
      ZeroTotal(m, s[1..]);
    }
  }

  function SumOf(xs: seq<int>): int {
    if xs == [] then 0 else xs[0] + SumOf(xs[1..])
  }

  lemma {:induction false} ZeroSum(xs: seq<int>)
    requires forall i :: 0 <= i < |xs| ==> xs[i] == 0
    ensures SumOf(xs) == 0
  {
    if xs != [] {
      ZeroSum(xs[1..]);
    }
  }

  lemma {:induction false} EqualSum(xs: seq<int>, x: int)
    requires forall i :: 0 <= i < |xs| ==> xs[i] == x
    ensures SumOf(xs) == |xs| * x
  {
    if xs != [] {
      EqualSum(xs[1..], x);
    }
  }

  lemma {:induction false} SingleSum(xs: seq<int>, j: nat)
    requires j < |xs|
    requires forall i :: 0 <= i < |xs| && i != j ==> xs[i] == 0
    ensures SumOf(xs) == xs[j]
  {
    if j == 0 {
      ZeroSum(xs[1..]);
    } else {
      SingleSum(xs[1..], j - 1);
    }
  }

  lemma {:induction false} FlattenTotal(m: Measure, parts: seq<seq<Txn>>, totals: seq<int>)
    requires |parts| == |totals|
    requires forall k :: 0 <= k < |parts| ==> Total(m, parts[k]) == totals[k]
    ensures Total(m, Flatten(parts)) == SumOf(totals)
  {
    if parts != [] {
      FlattenTotal(m, parts[1..], totals[1..]);
      TotalConcat(m, parts[0], Flatten(parts[1..]));
    }
  }

  // ---------------------------------------------------------------------
  // Measures over a span of months
  // ---------------------------------------------------------------------

  lemma {:induction false} DuringAll(m: Measure, start: Date, lo: int, hi: int, s: seq<Txn>)
    requires forall t :: t in s ==> lo <= OffsetOf(t.date, start) <= hi
    ensures Total(During(m, start, lo, hi), s) == Total(m, s)
  {
    if s != [] {
      DuringAll(m, start, lo, hi, s[1..]);
      assert s[0] in s;
      assert Weigh(During(m, start, lo, hi), s[0]) == Weigh(m, s[0]);
    }
  }

  lemma DuringNone(m: Measure, start: Date, lo: int, hi: int, s: seq<Txn>)
    requires forall t :: t in s ==> !(lo <= OffsetOf(t.date, start) <= hi)
    ensures Total(During(m, start, lo, hi), s) == 0
  {
    ZeroTotal(During(m, start, lo, hi), s);
  }

  /** In a sorted list of nothing before the start, the months up to k are a prefix. */
  lemma {:induction false} MonthsArePrefix(m: Measure, start: Date, k: int, z: seq<Txn>) returns (n: nat)
    requires Sorted(z) && forall t :: t in z ==> OffsetOf(t.date, start) >= 0
    ensures n <= |z| && Total(m, z[..n]) == Total(During(m, start, 0, k), z)
  {
    if z == [] || OffsetOf(z[0].date, start) > k {
      n := 0;
      DuringNone(m, start, 0, k, z);
    } else {
      assert z[0] in z;
      assert Weigh(During(m, start, 0, k), z[0]) == Weigh(m, z[0]);
      n := MonthsArePrefix(m, start, k, z[1..]);
      hide Weigh, Sorted, OffsetOf;
      n := n + 1;
      PrefixStep(m, z, n);
    }
  }

  /** A balance below zero at the end of some month is a prefix below zero. */
  lemma DipsAtMonthEnd(m: Measure, start: Date, k: int, s: seq<Txn>)
    requires forall t :: t in s ==> OffsetOf(t.date, start) >= 0
    requires Total(During(m, start, 0, k), s) < 0
    ensures !NeverNegative(m, Sort(s))
  {
    SortTotal(During(m, start, 0, k), s);
    SortMembers(s);
    var n := MonthsArePrefix(m, start, k, Sort(s));
  }

  // ---------------------------------------------------------------------
  // Money put in once, then drawn down
  // ---------------------------------------------------------------------

  lemma {:induction false} DrawnDown(m: Measure, s: seq<Txn>, n: nat)
    requires n <= |s|
    requires forall i :: 0 <= i < |s| ==> Weigh(m, s[i]) <= 0
    ensures Total(m, s) <= Total(m, s[..n]) <= 0
  {
    if s != [] {
      if n == 0 {
        DrawnDown(m, s[1..], 0);
        assert s[1..][..0] == s[..0];
      } else {
        DrawnDown(m, s[1..], n - 1);
        assert s[..n][1..] == s[1..][..n - 1];
      }
    }
  }

  lemma HeadFirst(head: Txn, rest: seq<Txn>)
    requires forall t :: t in rest ==> Key(head.date) <= Key(t.date)
    ensures Sort([head] + rest) == [head] + Sort(rest)
  {
    assert ([head] + rest)[1..] == rest;
    SortMembers(rest);
    assert rest != [] ==> Sort(rest)[0] in rest;
  }

  lemma HeadPrefix(m: Measure, head: Txn, s: seq<Txn>, n: nat)
    requires n <= |s|
    requires forall i :: 0 <= i < |s| ==> Weigh(m, s[i]) <= 0
    ensures Weigh(m, head) + Total(m, s) <= Total(m, ([head] + s)[..n + 1]) <= Weigh(m, head)
    ensures Total(m, [head] + s) == Weigh(m, head) + Total(m, s)
  {
    DrawnDown(m, s, n);
    assert ([head] + s)[..n + 1] == [head] + s[..n];
    assert ([head] + s[..n])[1..] == s[..n];
    assert ([head] + s)[1..] == s;
  }

  lemma HeadBounds(m: Measure, head: Txn, s: seq<Txn>)
    requires forall i :: 0 <= i < |s| ==> Weigh(m, s[i]) <= 0
    requires Weigh(m, head) >= 0
    ensures forall n :: 0 <= n <= 1 + |s| ==> Total(m, ([head] + s)[..n]) <= Weigh(m, head)
    ensures Weigh(m, head) + Total(m, s) >= 0 <==> NeverNegative(m, [head] + s)
  {
    hide Weigh;
    var z := [head] + s;
    forall n | 0 <= n <= |z|
      ensures n > 0 ==> Weigh(m, head) + Total(m, s) <= Total(m, z[..n]) <= Weigh(m, head)
      ensures n == 0 ==> Total(m, z[..n]) == 0
    {
      if n > 0 {
        HeadPrefix(m, head, s, n - 1);
      }
    }
    HeadPrefix(m, head, s, 0);
    assert z[..|z|] == z;
  }

  /** A first-dated amount with everything else drawn from it: the balance stays
      below that amount in every prefix, and above zero exactly when the amount
      covers all that is drawn. */
  lemma HeadCovers(m: Measure, head: Txn, rest: seq<Txn>)
    requires forall t :: t in rest ==> Key(head.date) <= Key(t.date) && Weigh(m, t) <= 0
    requires Weigh(m, head) >= 0
    ensures |Sort([head] + rest)| == 1 + |rest|
    ensures forall n :: 0 <= n <= 1 + |rest| ==> Total(m, Sort([head] + rest)[..n]) <= Weigh(m, head)
    ensures Weigh(m, head) + Total(m, rest) >= 0 <==> NeverNegative(m, Sort([head] + rest))
  {
    HeadFirst(head, rest);
    hide Sort, Weigh, Total;
    SortMembers(rest);
    SortTotal(m, rest);
    var s := Sort(rest);
    assert forall i :: 0 <= i < |s| ==> s[i] in rest;
    HeadBounds(m, head, s);
  }
}

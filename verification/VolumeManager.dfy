// The volume manager's operations over its two tables and EC2, loop by loop. What
// other invocations do in between is the subject of Protocol; here it enters the
// sweep as an arbitrary interference, and elsewhere as an arbitrary table.

module VolumeManager {
  import opened Basics
  import opened Registry

  // ---------------------------------------------------------------------
  // Candidate order
  // ---------------------------------------------------------------------

  // A volume the scan returned with the databases its row lists, or to register.
  datatype Candidate = Candidate(volume: Volume, databases: seq<Database>)

  /** 0: carries one of the wanted databases; 1: carries data; 2: empty. */
  function Rank(c: Candidate, wanted: seq<Database>): int {
    if exists db :: db in wanted && db in c.databases then 0
    else if c.databases != [] then 1
    else 2
  }

  /** An empty volume is registered with what the launch asked for. */
  function Registered(c: Candidate, wanted: seq<Database>): Candidate {
    if Rank(c, wanted) == 2 then c.(databases := wanted) else c
  }

  /** The candidates of one rank, in scan order, as they will be registered. */
  function OfRank(volumes: seq<Candidate>, wanted: seq<Database>, rank: int): seq<Candidate> {
    if volumes == [] then []
    else
      var c := volumes[|volumes| - 1];
      OfRank(volumes[..|volumes| - 1], wanted, rank) + if Rank(c, wanted) == rank then [Registered(c, wanted)] else []
  }

  /** The volume carries one of the wanted databases. */
  predicate Wanted(c: Candidate, wanted: seq<Database>) {
    exists i, j :: 0 <= i < |wanted| && 0 <= j < |c.databases| && wanted[i] == c.databases[j]
  }

  /** One volume is to be tried before another: it has a wanted database and the other has
      not, or it has some, the other none. */
  predicate Preferred(c: Candidate, d: Candidate, wanted: seq<Database>) {
    !Wanted(d, wanted) && (Wanted(c, wanted) || (|c.databases| > 0 && |d.databases| == 0))
  }

  /** Every scanned volume has a place of its own, with its databases or, if it has none,
      those asked for; preferred ones come first, others as they were scanned. */
  ghost predicate Arranged(volumes: seq<Candidate>, wanted: seq<Database>, order: seq<Candidate>, place: seq<nat>) {
    && |order| == |volumes| == |place|
    && (forall p :: 0 <= p < |place| ==>
          place[p] < |order| && order[place[p]].volume == volumes[p].volume
          && order[place[p]].databases == if |volumes[p].databases| > 0 then volumes[p].databases else wanted)
    && (forall p, q :: 0 <= p < |place| && 0 <= q < |place| && Preferred(volumes[p], volumes[q], wanted) ==>
          place[p] < place[q])
    && (forall p, q :: 0 <= p < q < |place| && !Preferred(volumes[q], volumes[p], wanted) ==> place[p] < place[q])
  }

  lemma RankIs(c: Candidate, wanted: seq<Database>)
    ensures Rank(c, wanted) == if Wanted(c, wanted) then 0 else if |c.databases| > 0 then 1 else 2
  {
    if db :| db in wanted && db in c.databases {
      var i :| 0 <= i < |wanted| && wanted[i] == db;
      var j :| 0 <= j < |c.databases| && c.databases[j] == db;
    }
    if i, j :| 0 <= i < |wanted| && 0 <= j < |c.databases| && wanted[i] == c.databases[j] {
      assert wanted[i] in wanted && wanted[i] in c.databases;
    }
  }

  lemma {:induction false} OfRankPlace(volumes: seq<Candidate>, wanted: seq<Database>, p: nat)
    requires p < |volumes|
    ensures var rank := Rank(volumes[p], wanted);
            var k := |OfRank(volumes[..p], wanted, rank)|;
            k < |OfRank(volumes, wanted, rank)| && OfRank(volumes, wanted, rank)[k] == Registered(volumes[p], wanted)
    ensures forall rank :: |OfRank(volumes[..p], wanted, rank)| <= |OfRank(volumes, wanted, rank)|
  {
    var last := |volumes| - 1;
    if p < last {
      OfRankPlace(volumes[..last], wanted, p);
      assert volumes[..last][..p] == volumes[..p];
    }
  }

  /** Where the p-th scanned volume goes: behind all of better rank, and those of its own
      scanned before it. */
  function Place(volumes: seq<Candidate>, wanted: seq<Database>, p: nat): nat
    requires p < |volumes|
  {
    var rank := Rank(volumes[p], wanted);
    (if rank >= 1 then |OfRank(volumes, wanted, 0)| else 0) + (if rank == 2 then |OfRank(volumes, wanted, 1)| else 0)
    + |OfRank(volumes[..p], wanted, rank)|
  }

  lemma PlaceHolds(volumes: seq<Candidate>, wanted: seq<Database>, order: seq<Candidate>, p: nat)
    requires order == OfRank(volumes, wanted, 0) + OfRank(volumes, wanted, 1) + OfRank(volumes, wanted, 2)
    requires p < |volumes|
    ensures var k := Place(volumes, wanted, p);
            && k < |order| && order[k].volume == volumes[p].volume
            && order[k].databases == if |volumes[p].databases| > 0 then volumes[p].databases else wanted
  {
    RankIs(volumes[p], wanted);
    OfRankPlace(volumes, wanted, p);
    hide OfRank;
    assert order[Place(volumes, wanted, p)] == Registered(volumes[p], wanted);
  }

  lemma PlacesOrdered(volumes: seq<Candidate>, wanted: seq<Database>, p: nat, q: nat)
    requires p < |volumes| && q < |volumes|
    requires Rank(volumes[p], wanted) < Rank(volumes[q], wanted)
             || (Rank(volumes[p], wanted) == Rank(volumes[q], wanted) && p < q)
    ensures Place(volumes, wanted, p) < Place(volumes, wanted, q)
  {
    OfRankPlace(volumes, wanted, p);
    if p < q {
      OfRankPlace(volumes[..q], wanted, p);
      assert volumes[..q][..p] == volumes[..p];
    }
    hide OfRank;
  }

  lemma Arrange(volumes: seq<Candidate>, wanted: seq<Database>, order: seq<Candidate>) returns (place: seq<nat>)
    requires order == OfRank(volumes, wanted, 0) + OfRank(volumes, wanted, 1) + OfRank(volumes, wanted, 2)
    ensures Arranged(volumes, wanted, order, place)
  {
    OfRankCounts(volumes, wanted);
    place := seq(|volumes|, p requires 0 <= p < |volumes| => Place(volumes, wanted, p));
    forall p | 0 <= p < |volumes|
      ensures place[p] < |order| && order[place[p]].volume == volumes[p].volume
      ensures order[place[p]].databases == if |volumes[p].databases| > 0 then volumes[p].databases else wanted
    {
      PlaceHolds(volumes, wanted, order, p);
    }
    forall p, q | 0 <= p < |volumes| && 0 <= q < |volumes|
                  && (Preferred(volumes[p], volumes[q], wanted)
                      || (p < q && !Preferred(volumes[q], volumes[p], wanted)))
      ensures place[p] < place[q]
    {
      RankIs(volumes[p], wanted);
      RankIs(volumes[q], wanted);
      PlacesOrdered(volumes, wanted, p, q);
    }
  }

  method OrderedVolumeCandidates(volumes: seq<Candidate>, wanted: seq<Database>)
    returns (order: seq<Candidate>, ghost place: seq<nat>)
    ensures order == OfRank(volumes, wanted, 0) + OfRank(volumes, wanted, 1) + OfRank(volumes, wanted, 2)
    ensures Arranged(volumes, wanted, order, place)
  {
    var matching, withData, empty: seq<Candidate> := [], [], [];
    for i := 0 to |volumes|
      invariant matching == OfRank(volumes[..i], wanted, 0)
      invariant withData == OfRank(volumes[..i], wanted, 1)
      invariant empty == OfRank(volumes[..i], wanted, 2)
    {
      assert volumes[..i + 1][..i] == volumes[..i];
      var c := volumes[i];
      if exists db :: db in wanted && db in c.databases {
        matching := matching + [c];
      } else if c.databases != [] {
        withData := withData + [c];
      } else {
        empty := empty + [Candidate(c.volume, wanted)];
      }
    }
    assert volumes[..|volumes|] == volumes;
    order := matching + withData + empty;
    place := Arrange(volumes, wanted, order);
  }

  lemma {:induction false} OfRankMembers(volumes: seq<Candidate>, wanted: seq<Database>, rank: int)
    ensures forall x :: x in OfRank(volumes, wanted, rank) <==>
              exists c :: c in volumes && Rank(c, wanted) == rank && x == Registered(c, wanted)
  {
    if volumes != [] {
      var last := |volumes| - 1;
      OfRankMembers(volumes[..last], wanted, rank);
      assert volumes == volumes[..last] + [volumes[last]];
    }
  }

  lemma {:induction false} OfRankCounts(volumes: seq<Candidate>, wanted: seq<Database>)
    ensures |OfRank(volumes, wanted, 0)| + |OfRank(volumes, wanted, 1)| + |OfRank(volumes, wanted, 2)| == |volumes|
  {
    if volumes != [] {
      OfRankCounts(volumes[..|volumes| - 1], wanted);
    }
  }

  /** The entry is some scanned candidate of that rank, as it will be registered. */
  ghost predicate Ranked(x: Candidate, volumes: seq<Candidate>, wanted: seq<Database>, rank: int) {
    exists c :: c in volumes && x == Registered(c, wanted) && Rank(c, wanted) == rank
  }

  /** The scanned candidates as they will be registered, in scan order. */
  function RegisteredAll(volumes: seq<Candidate>, wanted: seq<Database>): seq<Candidate> {
    if volumes == [] then []
    else RegisteredAll(volumes[..|volumes| - 1], wanted) + [Registered(volumes[|volumes| - 1], wanted)]
  }

  lemma {:induction false} OfRankMultiset(volumes: seq<Candidate>, wanted: seq<Database>)
    ensures multiset(RegisteredAll(volumes, wanted)) ==
            multiset(OfRank(volumes, wanted, 0)) + multiset(OfRank(volumes, wanted, 1))
            + multiset(OfRank(volumes, wanted, 2))
  {
    if volumes != [] {
      OfRankMultiset(volumes[..|volumes| - 1], wanted);
    }
  }

  /** Every candidate is tried as often as it was scanned, and a better one is never behind
      a worse. */
  lemma CandidatesInPreferenceOrder(volumes: seq<Candidate>, wanted: seq<Database>, order: seq<Candidate>)
    returns (a: nat, b: nat)
    requires order == OfRank(volumes, wanted, 0) + OfRank(volumes, wanted, 1) + OfRank(volumes, wanted, 2)
    ensures multiset(order) == multiset(RegisteredAll(volumes, wanted)) && |order| == |volumes|
    ensures forall c :: c in volumes ==> Registered(c, wanted) in order
    ensures a <= b <= |order|
    ensures forall i :: 0 <= i < |order| ==>
              Ranked(order[i], volumes, wanted, if i < a then 0 else if i < b then 1 else 2)
  {
    OfRankMultiset(volumes, wanted);
    OfRankCounts(volumes, wanted);
    OfRankMembers(volumes, wanted, 0);
    OfRankMembers(volumes, wanted, 1);
    OfRankMembers(volumes, wanted, 2);
    a, b := |OfRank(volumes, wanted, 0)|, |volumes| - |OfRank(volumes, wanted, 2)|;
    hide OfRank, Registered, RegisteredAll;
    forall i | 0 <= i < |order|
      ensures Ranked(order[i], volumes, wanted, if i < a then 0 else if i < b then 1 else 2)
    {
      if i < a {
        assert order[i] in OfRank(volumes, wanted, 0);
      } else if i < b {
        assert order[i] in OfRank(volumes, wanted, 1);
      } else {
        assert order[i] in OfRank(volumes, wanted, 2);
      }
    }
    forall c | c in volumes
      ensures Registered(c, wanted) in order
    {
      assert Registered(c, wanted) in OfRank(volumes, wanted, Rank(c, wanted));
    }
  }

  // ---------------------------------------------------------------------
  // The stale-claim sweep
  // ---------------------------------------------------------------------

  // What other invocations do to the table before the k-th access of the sweep.
  type Interference = (nat, Rows) -> Rows

  predicate InPool(rows: Rows, v: Volume, az: string, tier: string, cutoff: int) {
    StaleClaim(rows, v, cutoff) && rows[v].az == az && rows[v].tier == tier
  }

  /** What a page of the scan returns. */
  function PageItems(rows: Rows, page: seq<Volume>, az: string, tier: string, cutoff: int): seq<Volume> {
    if page == [] then []
    else (if InPool(rows, page[0], az, tier, cutoff) then [page[0]] else [])
         + PageItems(rows, page[1..], az, tier, cutoff)
  }

  // The table, how many rows were freed, and how many accesses were made.
  datatype Swept = Swept(rows: Rows, reclaimed: nat, accesses: nat)

  function SweepItems(s: Swept, items: seq<Volume>, cutoff: int, env: Interference): Swept
    decreases |items|
  {
    if items == [] then s
    else
      var rows := env(s.accesses, s.rows);
      var next := Swept(SweepWrite(rows, items[0], cutoff),
                        s.reclaimed + if StaleClaim(rows, items[0], cutoff) then 1 else 0, s.accesses + 1);
      SweepItems(next, items[1..], cutoff, env)
  }

  function SweepPages(s: Swept, pages: seq<seq<Volume>>, az: string, tier: string, cutoff: int,
                      env: Interference): Swept
    decreases |pages|
  {
    if pages == [] then s
    else
      var rows := env(s.accesses, s.rows);
      var scanned := Swept(rows, s.reclaimed, s.accesses + 1);
      SweepPages(SweepItems(scanned, PageItems(rows, pages[0], az, tier, cutoff), cutoff, env),
                 pages[1..], az, tier, cutoff, env)
  }

  // A young claim of v, made by another launch just before the sweep's access `at` and
  // kept by it from then on: before that access v may be in any state.
  ghost predicate ClaimedAt(env: Interference, at: nat, v: Volume, row: Row, cutoff: int) {
    && row.status == Claiming && row.claimedAt.Some? && row.claimedAt.value >= cutoff
    && (forall r :: v in env(at, r) && env(at, r)[v] == row)
    && (forall k, r :: k > at && v in r && r[v] == row ==> v in env(k, r) && env(k, r)[v] == row)
  }

  ghost predicate SparedBy(s: Swept, at: nat, v: Volume, row: Row) {
    s.accesses > at ==> v in s.rows && s.rows[v] == row
  }

  lemma {:induction false} SweepSparesYoungItems(s: Swept, items: seq<Volume>, cutoff: int, env: Interference,
                                                 at: nat, v: Volume, row: Row)
    requires ClaimedAt(env, at, v, row, cutoff) && SparedBy(s, at, v, row)
    ensures SparedBy(SweepItems(s, items, cutoff, env), at, v, row)
    decreases |items|
  {
    if items != [] {
      var rows := env(s.accesses, s.rows);
      var next := Swept(SweepWrite(rows, items[0], cutoff),
                        s.reclaimed + if StaleClaim(rows, items[0], cutoff) then 1 else 0, s.accesses + 1);
      SweepSparesYoungItems(next, items[1..], cutoff, env, at, v, row);
    }
  }

  /** Whatever else happens to the table, a claim no older than the cutoff survives the
      sweep from the access before which it is made: one that was there at the start, one
      made between two pages, and one re-made between the scan that found the volume
      stale and the write that would have freed it. */
  lemma {:induction false} SweepSparesYoungClaims(s: Swept, pages: seq<seq<Volume>>, az: string, tier: string,
                                                  cutoff: int, env: Interference, at: nat, v: Volume, row: Row)
    requires ClaimedAt(env, at, v, row, cutoff) && SparedBy(s, at, v, row)
    ensures SparedBy(SweepPages(s, pages, az, tier, cutoff, env), at, v, row)
    decreases |pages|
  {
    if pages != [] {
      var rows := env(s.accesses, s.rows);
      var scanned := Swept(rows, s.reclaimed, s.accesses + 1);
      var items := PageItems(rows, pages[0], az, tier, cutoff);
      SweepSparesYoungItems(scanned, items, cutoff, env, at, v, row);
      SweepSparesYoungClaims(SweepItems(scanned, items, cutoff, env), pages[1..], az, tier, cutoff, env, at, v, row);
    }
  }

  // ---- Alone on the table ----

  predicate Distinct(volumes: seq<Volume>) {
    forall i, j :: 0 <= i < j < |volumes| ==> volumes[i] != volumes[j]
  }

  function Concat(pages: seq<seq<Volume>>): seq<Volume> {
    if pages == [] then [] else pages[0] + Concat(pages[1..])
  }

  function Freed(row: Row): Row { row.(status := Available, claimedAt := None) }

  /** The rows after the given volumes' stale claims are freed, others as before. */
  ghost predicate FreesExactly(before: Rows, after: Rows, freed: set<Volume>) {
    && after.Keys == before.Keys
    && forall v :: v in before ==> after[v] == if v in freed then Freed(before[v]) else before[v]
  }

  function PoolOf(rows: Rows, volumes: seq<Volume>, az: string, tier: string, cutoff: int): set<Volume> {
    set v | v in volumes && InPool(rows, v, az, tier, cutoff)
  }

  lemma {:induction false} PageItemsAre(rows: Rows, page: seq<Volume>, az: string, tier: string, cutoff: int)
    ensures forall v :: v in PageItems(rows, page, az, tier, cutoff) <==> v in page && InPool(rows, v, az, tier, cutoff)
    ensures Distinct(page) ==>
              var items := PageItems(rows, page, az, tier, cutoff);
              Distinct(items) && |items| == |PoolOf(rows, page, az, tier, cutoff)|
  {
    if page != [] {
      PageItemsAre(rows, page[1..], az, tier, cutoff);
      assert page == [page[0]] + page[1..];
      var rest := PoolOf(rows, page[1..], az, tier, cutoff);
      if InPool(rows, page[0], az, tier, cutoff) {
        assert PoolOf(rows, page, az, tier, cutoff) == rest + {page[0]};
      } else {
        assert PoolOf(rows, page, az, tier, cutoff) == rest;
      }
    }
  }

  lemma {:induction false} SweepItemsAlone(s: Swept, items: seq<Volume>, cutoff: int, env: Interference)
    requires forall k, r :: env(k, r) == r
    requires forall v :: v in items ==> StaleClaim(s.rows, v, cutoff)
    requires Distinct(items)
    ensures var after := SweepItems(s, items, cutoff, env);
            && FreesExactly(s.rows, after.rows, set v | v in items)
            && after.reclaimed == s.reclaimed + |items|
    decreases |items|
  {
    if items != [] {
      assert StaleClaim(s.rows, items[0], cutoff);
      var next := Swept(SweepWrite(s.rows, items[0], cutoff), s.reclaimed + 1, s.accesses + 1);
      forall v | v in items[1..]
        ensures StaleClaim(next.rows, v, cutoff)
      {
        assert StaleClaim(s.rows, v, cutoff);
      }
      SweepItemsAlone(next, items[1..], cutoff, env);
      assert items == [items[0]] + items[1..];
    }
  }

  lemma PoolElsewhere(before: Rows, after: Rows, freed: set<Volume>, others: seq<Volume>,
                      az: string, tier: string, cutoff: int)
    requires FreesExactly(before, after, freed) && forall v :: v in others ==> v !in freed
    ensures PoolOf(after, others, az, tier, cutoff) == PoolOf(before, others, az, tier, cutoff)
  {
  }

  lemma DistinctParts(a: seq<Volume>, b: seq<Volume>)
    requires Distinct(a + b)
    ensures Distinct(a) && Distinct(b) && forall v :: v in a ==> v !in b
  {
    forall i, j | 0 <= i < j < |a|
      ensures a[i] != a[j]
    {
      assert (a + b)[i] != (a + b)[j];
    }
    forall i, j | 0 <= i < j < |b|
      ensures b[i] != b[j]
    {
      assert (a + b)[|a| + i] != (a + b)[|a| + j];
    }
    forall i, j | 0 <= i < |a| && 0 <= j < |b|
      ensures a[i] != b[j]
    {
      assert (a + b)[i] != (a + b)[|a| + j];
    }
  }

  lemma SweepPageAlone(s: Swept, page: seq<Volume>, az: string, tier: string, cutoff: int, env: Interference)
    requires forall k, r :: env(k, r) == r
    requires Distinct(page)
    ensures var pool := PoolOf(s.rows, page, az, tier, cutoff);
            var after := SweepItems(s, PageItems(s.rows, page, az, tier, cutoff), cutoff, env);
            FreesExactly(s.rows, after.rows, pool) && after.reclaimed == s.reclaimed + |pool|
  {
    hide Distinct, PageItems, SweepItems;
    var items := PageItems(s.rows, page, az, tier, cutoff);
    PageItemsAre(s.rows, page, az, tier, cutoff);
    SweepItemsAlone(s, items, cutoff, env);
    assert PoolOf(s.rows, page, az, tier, cutoff) == set v | v in items;
  }

  lemma FreesCompose(before: Rows, mid: Rows, after: Rows, first: set<Volume>, second: set<Volume>)
    requires FreesExactly(before, mid, first) && FreesExactly(mid, after, second) && first !! second
    ensures FreesExactly(before, after, first + second)
  {
  }

  lemma PoolSplits(rows: Rows, page: seq<Volume>, others: seq<Volume>, az: string, tier: string, cutoff: int)
    requires forall v :: v in page ==> v !in others
    ensures var first, second := PoolOf(rows, page, az, tier, cutoff), PoolOf(rows, others, az, tier, cutoff);
            PoolOf(rows, page + others, az, tier, cutoff) == first + second && first !! second
            && |PoolOf(rows, page + others, az, tier, cutoff)| == |first| + |second|
  {
    hide InPool;
    var first, second := PoolOf(rows, page, az, tier, cutoff), PoolOf(rows, others, az, tier, cutoff);
    assert PoolOf(rows, page + others, az, tier, cutoff) == first + second;
  }

  /** Alone on the table, the paginated sweep frees exactly the stale claims of its AZ
      and tier and returns their number. */
  lemma {:induction false} SweepAlone(s: Swept, pages: seq<seq<Volume>>, az: string, tier: string, cutoff: int,
                                      env: Interference)
    requires forall k, r :: env(k, r) == r
    requires Distinct(Concat(pages))
    ensures var after := SweepPages(s, pages, az, tier, cutoff, env);
            var pool := PoolOf(s.rows, Concat(pages), az, tier, cutoff);
            FreesExactly(s.rows, after.rows, pool) && after.reclaimed == s.reclaimed + |pool|
    decreases |pages|
  {
    if pages != [] {
      var page, others := pages[0], Concat(pages[1..]);
      DistinctParts(page, others);
      hide Distinct, PageItems, SweepItems, PoolOf, FreesExactly;
      var scanned := Swept(s.rows, s.reclaimed, s.accesses + 1);
      SweepPageAlone(scanned, page, az, tier, cutoff, env);
      var mid := SweepItems(scanned, PageItems(s.rows, page, az, tier, cutoff), cutoff, env);
      SweepAlone(mid, pages[1..], az, tier, cutoff, env);
      var first, second := PoolOf(s.rows, page, az, tier, cutoff), PoolOf(s.rows, others, az, tier, cutoff);
      PoolIsOf(s.rows, page, az, tier, cutoff);
      PoolElsewhere(s.rows, mid.rows, first, others, az, tier, cutoff);
      PoolSplits(s.rows, page, others, az, tier, cutoff);
      FreesCompose(s.rows, mid.rows, SweepPages(s, pages, az, tier, cutoff, env).rows, first, second);
    } else {
      assert PoolOf(s.rows, [], az, tier, cutoff) == {};
    }
  }

  /** In the fields of the rows: alone on the table, a sweep makes available exactly the rows
      of its zone and tier that have been claiming for more than a quarter of an hour,
      leaves the rest of them and every other row as it was, and returns their number. */
  lemma SweepFreesOldClaims(rows: Rows, pages: seq<seq<Volume>>, az: string, tier: string, now: int,
                            env: Interference)
    requires forall k, r :: env(k, r) == r
    requires Distinct(Concat(pages))
    ensures var after := SweepPages(Swept(rows, 0, 0), pages, az, tier, now - STALE_CLAIM_SECONDS, env);
            var due := set v | v in Concat(pages) && v in rows && rows[v].status == Claiming
                               && rows[v].claimedAt.Some? && now - rows[v].claimedAt.value > 900
                               && rows[v].az == az && rows[v].tier == tier;
            && after.reclaimed == |due| && after.rows.Keys == rows.Keys
            && forall v :: v in rows ==>
                 if v in due
                 then && after.rows[v].status == Available && after.rows[v].claimedAt == None
                      && after.rows[v].(status := Claiming, claimedAt := rows[v].claimedAt) == rows[v]
                 else after.rows[v] == rows[v]
  {
    var cutoff := now - STALE_CLAIM_SECONDS;
    SweepAlone(Swept(rows, 0, 0), pages, az, tier, cutoff, env);
    var due := set v | v in Concat(pages) && v in rows && rows[v].status == Claiming
                       && rows[v].claimedAt.Some? && now - rows[v].claimedAt.value > 900
                       && rows[v].az == az && rows[v].tier == tier;
    assert due == PoolOf(rows, Concat(pages), az, tier, cutoff);
    hide Distinct, SweepPages;
  }

  lemma PoolIsOf(rows: Rows, volumes: seq<Volume>, az: string, tier: string, cutoff: int)
    ensures forall v :: v in PoolOf(rows, volumes, az, tier, cutoff) ==> v in volumes
  {
  }

  // ---------------------------------------------------------------------
  // Routing counts
  // ---------------------------------------------------------------------

  /** How many entries of the list are repointed, and how many fail to be. */
  function Repointed(routes: Routes, databases: seq<Database>, failing: set<Database>): nat {
    if databases == [] then 0
    else
      var db := databases[|databases| - 1];
      Repointed(routes, databases[..|databases| - 1], failing)
      + if Routable(routes, db) && db !in failing then 1 else 0
  }

  function Unreachable(databases: seq<Database>, failing: set<Database>): nat {
    if databases == [] then 0
    else
      var db := databases[|databases| - 1];
      Unreachable(databases[..|databases| - 1], failing) + if !IsSubgraph(db) && db in failing then 1 else 0
  }

  /** `kg` in front and an underscore anywhere. */
  predicate NamesSubgraph(db: Database) {
    |db| >= 2 && db[0] == 'k' && db[1] == 'g' && exists i :: 0 <= i < |db| && db[i] == '_'
  }

  lemma SubgraphNames()
    ensures forall db :: IsSubgraph(db) <==> NamesSubgraph(db)
  {
  }

  /** The places of a list whose entry is in the set. */
  function Places(databases: seq<Database>, chosen: set<Database>): set<int> {
    set k | 0 <= k < |databases| && databases[k] in chosen
  }

  lemma PlacesSnoc(databases: seq<Database>, last: Database, chosen: set<Database>)
    ensures |Places(databases + [last], chosen)| == |Places(databases, chosen)| + if last in chosen then 1 else 0
  {
    var before, n := Places(databases, chosen), |databases|;
    assert Places(databases + [last], chosen) == if last in chosen then before + {n} else before;
  }

  lemma {:induction false} RepointedPlaces(routes: Routes, databases: seq<Database>, failing: set<Database>,
                                           chosen: set<Database>)
    requires forall db :: db in databases ==> (db in chosen <==> Routable(routes, db) && db !in failing)
    ensures Repointed(routes, databases, failing) == |Places(databases, chosen)|
  {
    if databases != [] {
      var rest, last := databases[..|databases| - 1], databases[|databases| - 1];
      RepointedPlaces(routes, rest, failing, chosen);
      hide Routable;
      PlacesSnoc(rest, last, chosen);
      assert databases == rest + [last];
    }
  }

  lemma {:induction false} UnreachablePlaces(databases: seq<Database>, failing: set<Database>, chosen: set<Database>)
    requires forall db :: db in databases ==> (db in chosen <==> !IsSubgraph(db) && db in failing)
    ensures Unreachable(databases, failing) == |Places(databases, chosen)|
  {
    if databases != [] {
      var rest, last := databases[..|databases| - 1], databases[|databases| - 1];
      UnreachablePlaces(rest, failing, chosen);
      hide IsSubgraph;
      PlacesSnoc(rest, last, chosen);
      assert databases == rest + [last];
    }
  }

  /** Updated are the places of the list whose entry exists, is no subgraph's and does not
      fail; failed those that are no subgraph's and fail. */
  lemma CountsArePlaces(routes: Routes, databases: seq<Database>, failing: set<Database>)
    ensures var good := set db | db in databases && db in routes && !NamesSubgraph(db) && db !in failing;
            var bad := set db | db in databases && !NamesSubgraph(db) && db in failing;
            && Repointed(routes, databases, failing) == |Places(databases, good)|
            && Unreachable(databases, failing) == |Places(databases, bad)|
  {
    SubgraphNames();
    hide NamesSubgraph, IsSubgraph;
    RepointedPlaces(routes, databases, failing,
                    set db | db in databases && db in routes && !NamesSubgraph(db) && db !in failing);
    UnreachablePlaces(databases, failing, set db | db in databases && !NamesSubgraph(db) && db in failing);
  }

  lemma PrefixStep(routes: Routes, databases: seq<Database>, failing: set<Database>, k: nat)
    requires k < |databases|
    ensures forall db :: db in databases[..k + 1] <==> db in databases[..k] || db == databases[k]
    ensures Repointed(routes, databases[..k + 1], failing) == Repointed(routes, databases[..k], failing)
              + if Routable(routes, databases[k]) && databases[k] !in failing then 1 else 0
    ensures Unreachable(databases[..k + 1], failing) == Unreachable(databases[..k], failing)
              + if !IsSubgraph(databases[k]) && databases[k] in failing then 1 else 0
  {
    hide IsSubgraph;
    assert databases[..k + 1] == databases[..k] + [databases[k]];
    assert databases[..k + 1][..k] == databases[..k];
  }

  // ---------------------------------------------------------------------
  // Registry against EC2
  // ---------------------------------------------------------------------

  // A managed EC2 volume: its attachment and what its tags say.
  datatype Managed = Managed(attachedTo: Option<Instance>, az: string, tier: string, databases: seq<Database>)

  type Fleet = map<Volume, Managed>

  function ActualStatus(m: Managed): Status { if m.attachedTo.Some? then Attached else Available }

  function ActualInstance(m: Managed): Instance {
    if m.attachedTo.Some? then m.attachedTo.value else UNATTACHED
  }

  predicate InFlight(row: Row) { row.status in {Claiming, Expanding, Attaching, Detaching} }

  predicate Mismatched(rows: Rows, fleet: Fleet, v: Volume) {
    v in rows && v in fleet && !InFlight(rows[v]) && rows[v].status != ActualStatus(fleet[v])
  }

  function Rebuilt(m: Managed): Row {
    Row(ActualStatus(m), ActualInstance(m), m.az, m.tier, m.databases, None, None)
  }

  function Corrected(row: Row, m: Managed): Row {
    row.(status := ActualStatus(m), instance := ActualInstance(m))
  }

  /** The table and the fleet tell the same story: the same volumes, each settled row
      with its actual status. */
  ghost predicate InStep(rows: Rows, fleet: Fleet) {
    && rows.Keys == fleet.Keys
    && forall v :: v in rows && !InFlight(rows[v]) ==> rows[v].status == ActualStatus(fleet[v])
  }

  /** A sync has something to correct for the volume. */
  predicate OutOfStep(rows: Rows, fleet: Fleet, v: Volume) {
    (v in rows && v !in fleet) || (v in fleet && v !in rows) || Mismatched(rows, fleet, v)
  }

  /** A table is in step with the fleet exactly when a sync has nothing to correct. */
  lemma InStepIff(rows: Rows, fleet: Fleet)
    ensures InStep(rows, fleet) <==> forall v :: !OutOfStep(rows, fleet, v)
  {
    if forall v :: !OutOfStep(rows, fleet, v) {
      forall v
        ensures v in rows <==> v in fleet
        ensures v in rows && !InFlight(rows[v]) ==> rows[v].status == ActualStatus(fleet[v])
      {
        assert !OutOfStep(rows, fleet, v);
      }
    }
  }

  /** What a sync reports and leaves behind, when the corrections of `failing` raise. */
  ghost predicate Synced(before: Rows, fleet: Fleet, failing: set<Volume>, removed: set<Volume>,
                         added: set<Volume>, updated: set<Volume>, after: Rows) {
    && removed == before.Keys - fleet.Keys - failing && added == fleet.Keys - before.Keys - failing
    && (updated == set v | v in before && Mismatched(before, fleet, v) && v !in failing)
    && after.Keys == before.Keys - removed + added
    && forall v :: v in after ==>
         after[v] == if v in added then Rebuilt(fleet[v])
                     else if v in updated then Corrected(before[v], fleet[v])
                     else before[v]
  }

  /** After a sync exactly the volumes whose correction failed are still out of step, and
      surviving rows in flight are as they were. With no failure the table is in step. */
  lemma SyncSettles(before: Rows, fleet: Fleet, failing: set<Volume>, removed: set<Volume>, added: set<Volume>,
                    updated: set<Volume>, after: Rows)
    requires Synced(before, fleet, failing, removed, added, updated, after)
    ensures forall v :: OutOfStep(after, fleet, v) <==> OutOfStep(before, fleet, v) && v in failing
    ensures forall v :: v in before && v in fleet && InFlight(before[v]) ==> v in after && after[v] == before[v]
    ensures failing == {} ==> InStep(after, fleet)
  {
    InStepIff(after, fleet);
  }

  /** A second sync against the same fleet corrects only what failed before, so after a
      clean one it corrects nothing. */
  lemma SyncIsIdempotent(before: Rows, fleet: Fleet, failing: set<Volume>, removed: set<Volume>, added: set<Volume>,
                         updated: set<Volume>, once: Rows, failing': set<Volume>, removed': set<Volume>,
                         added': set<Volume>, updated': set<Volume>, twice: Rows)
    requires Synced(before, fleet, failing, removed, added, updated, once)
    requires Synced(once, fleet, failing', removed', added', updated', twice)
    ensures removed' + added' + updated' <= failing
    ensures failing == {} ==> removed' == {} && added' == {} && updated' == {} && twice == once
  {
    SyncSettles(before, fleet, failing, removed, added, updated, once);
    forall v | v in removed' + added' + updated'
      ensures v in failing
    {
      assert OutOfStep(once, fleet, v);
    }
  }

  /** The row says of the volume what EC2 does: attached, and to which instance, or available
      and to none. */
  predicate SaysAsEc2(row: Row, m: Managed) {
    && (m.attachedTo != None ==> row.status == Attached && Some(row.instance) == m.attachedTo)
    && (m.attachedTo == None ==> row.status == Available && row.instance == "unattached")
  }

  /** The row is between two states, which is for others to settle. */
  predicate BetweenStates(row: Row) {
    row.status == Claiming || row.status == Expanding || row.status == Attaching || row.status == Detaching
  }

  /** In the fields of rows and volumes: after a sync a row of a volume that EC2 does not have
      is gone; a volume without a row has one with its zone, tier and databases; a row whose
      status is wrong, unless it is between two states, says as EC2 does, and keeps the rest;
      and every other row is as it was. Only what failed is left. */
  lemma SyncCorrects(before: Rows, fleet: Fleet, failing: set<Volume>, removed: set<Volume>, added: set<Volume>,
                     updated: set<Volume>, after: Rows, v: Volume)
    requires Synced(before, fleet, failing, removed, added, updated, after)
    ensures v in failing ==> v !in removed + added + updated
    ensures v in after <==> (v in before && (v in fleet || v in failing)) || (v in fleet && v !in failing)
    ensures v in removed <==> v in before && v !in after
    ensures v in added <==> v in after && v !in before
    ensures v in added ==>
              && SaysAsEc2(after[v], fleet[v]) && after[v].az == fleet[v].az && after[v].tier == fleet[v].tier
              && after[v].databases == fleet[v].databases
              && after[v].claimedAt == None && after[v].lastDetached == None
    ensures v in updated <==>
              v in before && v in fleet && v !in failing && !BetweenStates(before[v])
              && before[v].status != if fleet[v].attachedTo == None then Available else Attached
    ensures v in updated ==>
              SaysAsEc2(after[v], fleet[v])
              && after[v].(status := before[v].status, instance := before[v].instance) == before[v]
    ensures v in after && v !in added && v !in updated ==> after[v] == before[v]
    ensures v in after && v in fleet && !BetweenStates(after[v]) && v !in failing ==>
              (after[v].status == Attached <==> fleet[v].attachedTo != None)
              && (after[v].status == Available <==> fleet[v].attachedTo == None)
  {
  }

  /** The volumes of a page that a cleanup deletes from EC2. */
  function Deletable(rows: Rows, ec2: Attachments, page: seq<Volume>, now: int, noSnapshot: set<Volume>): set<Volume> {
    set v | v in page && Orphaned(rows, v, now) && v !in noSnapshot && v in ec2 && ec2[v] == None
  }

  datatype Outcome =
    | NoneFree
    | Failed(candidate: Candidate)
    | Served(candidate: Candidate)

  /** The first candidate whose row is still available. */
  ghost predicate FirstFree(rows: Rows, candidates: seq<Candidate>, c: Candidate) {
    exists k :: 0 <= k < |candidates| && candidates[k] == c && Claimable(rows, c.volume)
                && forall j :: 0 <= j < k ==> !Claimable(rows, candidates[j].volume)
  }

  class Manager {
    var rows: Rows
    var ec2: Attachments
    var routes: Routes

    method ClaimVolume(v: Volume, i: Instance, now: int) returns (won: bool)
      modifies this`rows
      ensures rows == ClaimWrite(old(rows), v, i, now)
      ensures won <==> v in old(rows) && old(rows)[v].status == Available
      ensures won ==> rows == old(rows)[v := old(rows)[v].(status := Claiming, instance := i, claimedAt := Some(now))]
      ensures !won ==> rows == old(rows)
    {
      won := v in rows && rows[v].status == Available;
      if won {
        rows := rows[v := rows[v].(status := Claiming, instance := i, claimedAt := Some(now))];
      }
    }

    method ReleaseClaim(v: Volume, i: Instance)
      modifies this`rows
      ensures rows == ReleaseWrite(old(rows), v, i)
      ensures rows - {v} == old(rows) - {v} && rows.Keys == old(rows).Keys
      ensures v in rows && (old(rows)[v].status != Claiming || old(rows)[v].instance != i) ==> rows == old(rows)
      ensures v in rows && old(rows)[v].status == Claiming && old(rows)[v].instance == i ==>
                rows[v].status == Available && rows[v].claimedAt == None && rows[v].instance == i
                && rows[v].databases == old(rows)[v].databases
    {
      if v in rows && rows[v].status == Claiming && rows[v].instance == i {
        rows := rows[v := rows[v].(status := Available, claimedAt := None)];
      }
    }

    /** The launch's loop over its candidates: it claims the first one still free and
        nothing else; with none free it creates a volume instead. */
    method ClaimFirst(candidates: seq<Candidate>, i: Instance, now: int) returns (won: Option<Candidate>)
      modifies this`rows
      ensures won.None? ==> rows == old(rows) && forall c :: c in candidates ==> !Claimable(rows, c.volume)
      ensures won.Some? ==> FirstFree(old(rows), candidates, won.value)
                            && rows == ClaimWrite(old(rows), won.value.volume, i, now)
    {
      for k := 0 to |candidates|
        invariant rows == old(rows)
        invariant forall j :: 0 <= j < k ==> !Claimable(rows, candidates[j].volume)
      {
        var taken := ClaimVolume(candidates[k].volume, i, now);
        if taken {
          return Some(candidates[k]);
        }
      }
      won := None;
    }

    method ReclaimStaleClaims(az: string, tier: string, now: int, pages: seq<seq<Volume>>, env: Interference)
      returns (reclaimed: nat)
      modifies this`rows
      ensures rows == SweepPages(Swept(old(rows), 0, 0), pages, az, tier, now - STALE_CLAIM_SECONDS, env).rows
      ensures reclaimed ==
              SweepPages(Swept(old(rows), 0, 0), pages, az, tier, now - STALE_CLAIM_SECONDS, env).reclaimed
    {
      var cutoff := now - STALE_CLAIM_SECONDS;
      var accesses: nat := 0;
      reclaimed := 0;
      ghost var all := SweepPages(Swept(old(rows), 0, 0), pages, az, tier, cutoff, env);
      for p := 0 to |pages|
        invariant SweepPages(Swept(rows, reclaimed, accesses), pages[p..], az, tier, cutoff, env) == all
      {
        rows := env(accesses, rows);
        accesses := accesses + 1;
        var items := PageItems(rows, pages[p], az, tier, cutoff);
        ghost var swept := SweepItems(Swept(rows, reclaimed, accesses), items, cutoff, env);
        assert pages[p..][1..] == pages[p + 1..];
        for k := 0 to |items|
          invariant SweepItems(Swept(rows, reclaimed, accesses), items[k..], cutoff, env) == swept
        {
          assert items[k..][1..] == items[k + 1..];
          rows := env(accesses, rows);
          accesses := accesses + 1;
          var v := items[k];
          if v in rows && rows[v].status == Claiming && rows[v].claimedAt.Some? && rows[v].claimedAt.value < cutoff {
            rows := rows[v := rows[v].(status := Available, claimedAt := None)];
            reclaimed := reclaimed + 1;
          }
        }
      }
    }

    /** `update_graph_registry_for_instance`; `failing` are the entries whose read or
        write raises. Every entry of the list is counted exactly once. */
    method UpdateGraphRegistry(i: Instance, databases: seq<Database>, failing: set<Database>)
      returns (updated: nat, skipped: nat, failed: nat)
      modifies this`routes
      ensures updated + skipped + failed == |databases|
      ensures updated == Repointed(old(routes), databases, failing) && failed == Unreachable(databases, failing)
      ensures routes.Keys == old(routes).Keys
      ensures forall db :: db in routes ==>
                routes[db] == if db in databases && !NamesSubgraph(db) && db !in failing then i else old(routes)[db]
    {
      SubgraphNames();
      assert Repointed(old(routes), [], failing) == 0 && Unreachable([], failing) == 0;
      hide IsSubgraph, Repointed, Unreachable;
      updated, skipped, failed := 0, 0, 0;
      for k := 0 to |databases|
        invariant updated + skipped + failed == k
        invariant updated == Repointed(old(routes), databases[..k], failing)
        invariant failed == Unreachable(databases[..k], failing)
        invariant routes.Keys == old(routes).Keys
        invariant forall db :: db in routes ==>
                    routes[db] == if db in databases[..k] && !IsSubgraph(db) && db !in failing
                                  then i else old(routes)[db]
      {
        var db := databases[k];
        PrefixStep(old(routes), databases, failing, k);
        if IsSubgraph(db) {
          skipped := skipped + 1;
        } else if db in failing {
          failed := failed + 1;
        } else if db !in routes {
          skipped := skipped + 1;
        } else {
          routes := routes[db := i];
          updated := updated + 1;
        }
      }
      assert databases[..|databases|] == databases;
    }

    /** `attach_and_register_volume`. `running`: the instance came up; `settled`: EC2
        reported the volume in use in time; `failing`: entries whose routing raises. A
        failure after EC2 has accepted leaves the volume attached there and the row as
        it was. */
    method AttachAndRegister(v: Volume, i: Instance, caller: seq<Database>, running: bool, settled: bool,
                             failing: set<Database>)
      returns (registered: Option<seq<Database>>)
      modifies this
      ensures registered.Some? <==> running && settled && v in old(ec2) && old(ec2)[v] == None
      ensures registered.Some? ==>
                && registered.value == FinalDatabases(old(rows), v, caller)
                && rows == AttachWrite(old(rows), v, i, registered.value)
                && ec2 == old(ec2)[v := Some(i)]
                && routes.Keys == old(routes).Keys
                && forall db :: db in routes ==>
                     routes[db] == if db in registered.value && !IsSubgraph(db) && db !in failing
                                   then i else old(routes)[db]
      ensures registered.None? ==>
                && rows == old(rows) && routes == old(routes)
                && ec2 == if running && v in old(ec2) && old(ec2)[v] == None then old(ec2)[v := Some(i)] else old(ec2)
    {
      if !running {
        return None;
      }
      if v !in ec2 || ec2[v] != None {
        return None;
      }
      ec2 := ec2[v := Some(i)];
      if !settled {
        return None;
      }
      var current := RowOf(rows, v);
      var final := if current.databases != [] then current.databases else caller;
      rows := rows[v := current.(status := Attached, instance := i, databases := final)];
      var updated, skipped, failed := UpdateGraphRegistry(i, final, failing);
      registered := Some(final);
    }

    /** The whole launch over its candidates. With none free nothing is touched and it
        goes on to create a volume. A failed attach leaves every row as it was, but for
        the name of the last claimer on the one it claimed. A served launch changes
        that one row, and has the volume. */
    method Serve(candidates: seq<Candidate>, i: Instance, now: int, running: bool, settled: bool,
                 failing: set<Database>)
      returns (outcome: Outcome)
      modifies this
      ensures outcome.NoneFree? ==>
                && rows == old(rows) && ec2 == old(ec2) && routes == old(routes)
                && forall c :: c in candidates ==> !Claimable(rows, c.volume)
      ensures !outcome.NoneFree? ==>
                FirstFree(old(rows), candidates, outcome.candidate)
      ensures outcome.Failed? ==>
                var v := outcome.candidate.volume;
                && rows == old(rows)[v := old(rows)[v].(instance := i, claimedAt := None)]
                && routes == old(routes)
                && var accepted := running && v in old(ec2) && old(ec2)[v] == None;
                && !(accepted && settled)
                && ec2 == if accepted then old(ec2)[v := Some(i)] else old(ec2)
      ensures outcome.Served? ==>
                var v := outcome.candidate.volume;
                var lists := old(rows)[v].databases;
                var final := if lists != [] then lists else outcome.candidate.databases;
                && rows == old(rows)[v := old(rows)[v].(status := Attached, instance := i, databases := final,
                                                         claimedAt := Some(now))]
                && v in old(ec2) && old(ec2)[v] == None && ec2 == old(ec2)[v := Some(i)]
                && routes.Keys == old(routes).Keys
                && forall db :: db in final && Routable(routes, db) && db !in failing ==> routes[db] == i
    {
      var won := ClaimFirst(candidates, i, now);
      if won.None? {
        return NoneFree;
      }
      var c := won.value;
      assert FirstFree(old(rows), candidates, c);
      var registered := AttachAndRegister(c.volume, i, c.databases, running, settled, failing);
      if registered.None? {
        ReleaseClaim(c.volume, i);
        outcome := Failed(c);
      } else {
        outcome := Served(c);
      }
    }

    /** `detach_volume`; `accepted`: EC2 took the request. A refusal stops it, unless
        forced. The databases list is preserved. */
    method DetachVolume(v: Volume, now: int, accepted: bool, force: bool) returns (ok: bool)
      modifies this`rows, this`ec2
      ensures ok <==> accepted || force
      ensures rows == if ok then DetachWrite(old(rows), v, now) else old(rows)
      ensures ok ==>
                && v in rows && rows - {v} == old(rows) - {v}
                && rows[v].status == Available && rows[v].instance == "unattached" && rows[v].lastDetached == Some(now)
                && rows[v].databases == RowOf(old(rows), v).databases
      ensures ec2 == if accepted && v in old(ec2) then old(ec2)[v := None] else old(ec2)
    {
      var item := RowOf(rows, v);
      if accepted {
        if v in ec2 {
          ec2 := ec2[v := None];
        }
      } else if !force {
        return false;
      }
      rows := rows[v := item.(status := Available, instance := UNATTACHED, lastDetached := Some(now),
                              databases := item.databases)];
      ok := true;
    }

    /** `cleanup_orphaned_volumes` over the page its scan returned. `noSnapshot` and
        `rowStays` are the volumes whose snapshot or whose row's deletion raises: the
        former stay, of the latter the volume is gone and the row is left. Otherwise it
        deletes exactly the page's orphans that EC2 lets go of; no volume carrying
        databases is touched. */
    method CleanupOrphanedVolumes(page: seq<Volume>, now: int, noSnapshot: set<Volume>, rowStays: set<Volume>)
      returns (orphaned: seq<Volume>)
      modifies this`rows, this`ec2
      ensures ec2 == old(ec2) - Deletable(old(rows), old(ec2), page, now, noSnapshot)
      ensures forall v :: v in old(ec2) && v !in ec2 <==>
                && v in page && v in old(rows) && old(rows)[v].status == Available && |old(rows)[v].databases| == 0
                && old(rows)[v].lastDetached.Some? && now - old(rows)[v].lastDetached.value > 24 * 60 * 60
                && v in old(ec2) && old(ec2)[v] == None && v !in noSnapshot
      ensures rows == old(rows) - (set v | v in orphaned)
      ensures forall v :: v in orphaned <==>
                v in Deletable(old(rows), old(ec2), page, now, noSnapshot) && v !in rowStays
      ensures forall v :: v in old(rows) && old(rows)[v].databases != [] ==>
                && v in rows && rows[v] == old(rows)[v]
                && (v in ec2 <==> v in old(ec2)) && (v in ec2 ==> ec2[v] == old(ec2)[v])
    {
      orphaned := [];
      for k := 0 to |page|
        invariant ec2 == old(ec2) - Deletable(old(rows), old(ec2), page[..k], now, noSnapshot)
        invariant rows == old(rows) - (set v | v in orphaned)
        invariant forall v :: v in orphaned <==>
                    v in Deletable(old(rows), old(ec2), page[..k], now, noSnapshot) && v !in rowStays
      {
        var v := page[k];
        assert page[..k + 1] == page[..k] + [v];
        ghost var before := Deletable(old(rows), old(ec2), page[..k], now, noSnapshot);
        assert Deletable(old(rows), old(ec2), page[..k + 1], now, noSnapshot) ==
               before + Deletable(old(rows), old(ec2), [v], now, noSnapshot);
        if Orphaned(rows, v, now) && v !in noSnapshot && v in ec2 && ec2[v] == None {
          ec2 := ec2 - {v};
          if v !in rowStays {
            rows := rows - {v};
            orphaned := orphaned + [v];
          }
        }
      }
      assert page[..|page|] == page;
    }

    // The three loops of corrections; those of `failing` raise and are skipped.
    method RemoveEntries(stale: set<Volume>, failing: set<Volume>) returns (removed: set<Volume>)
      modifies this`rows
      ensures removed == stale - failing && rows == old(rows) - removed
    {
      removed := {};
      var rest := stale;
      while rest != {}
        invariant rest <= stale && removed == stale - rest - failing && rows == old(rows) - removed
        decreases rest
      {
        var v :| v in rest;
        rest := rest - {v};
        if v !in failing {
          rows := rows - {v};
          removed := removed + {v};
        }
      }
    }

    method AddEntries(missing: set<Volume>, failing: set<Volume>, fleet: Fleet) returns (added: set<Volume>)
      requires missing <= fleet.Keys && missing !! rows.Keys
      modifies this`rows
      ensures added == missing - failing && rows.Keys == old(rows).Keys + added
      ensures forall v :: v in rows ==> rows[v] == if v in added then Rebuilt(fleet[v]) else old(rows)[v]
    {
      added := {};
      var rest := missing;
      while rest != {}
        invariant rest <= missing && added == missing - rest - failing && rows.Keys == old(rows).Keys + added
        invariant forall v :: v in rows ==> rows[v] == if v in added then Rebuilt(fleet[v]) else old(rows)[v]
        decreases rest
      {
        var v :| v in rest;
        rest := rest - {v};
        if v !in failing {
          rows := rows[v := Rebuilt(fleet[v])];
          added := added + {v};
        }
      }
    }

    method UpdateEntries(mismatched: set<Volume>, failing: set<Volume>, fleet: Fleet) returns (updated: set<Volume>)
      requires mismatched <= fleet.Keys && mismatched <= rows.Keys
      modifies this`rows
      ensures updated == mismatched - failing && rows.Keys == old(rows).Keys
      ensures forall v :: v in rows ==>
                rows[v] == if v in updated then Corrected(old(rows)[v], fleet[v]) else old(rows)[v]
    {
      updated := {};
      var rest := mismatched;
      while rest != {}
        invariant rest <= mismatched && updated == mismatched - rest - failing && rows.Keys == old(rows).Keys
        invariant forall v :: v in rows ==>
                    rows[v] == if v in updated then Corrected(old(rows)[v], fleet[v]) else old(rows)[v]
        decreases rest
      {
        var v :| v in rest;
        rest := rest - {v};
        if v !in failing {
          rows := rows[v := rows[v].(status := ActualStatus(fleet[v]), instance := ActualInstance(fleet[v]))];
          updated := updated + {v};
        }
      }
    }

    /** `sync_registry_with_ec2`; `failing` are the volumes whose correction raises. The
        three lists are exactly the other corrections, and nothing else is written. */
    method SyncRegistry(fleet: Fleet, failing: set<Volume>)
      returns (removed: set<Volume>, added: set<Volume>, updated: set<Volume>)
      modifies this`rows
      ensures Synced(old(rows), fleet, failing, removed, added, updated, rows)
    {
      var toRemove := rows.Keys - fleet.Keys;
      var toUpdate := set v | v in rows && Mismatched(rows, fleet, v);
      var toAdd := fleet.Keys - rows.Keys;
      removed := RemoveEntries(toRemove, failing);
      added := AddEntries(toAdd, failing, fleet);
      updated := UpdateEntries(toUpdate, failing, fleet);
    }
  }
}

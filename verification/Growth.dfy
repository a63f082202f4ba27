// The volume monitor's growth arithmetic, at its default settings, over real
// usage figures: `int()` truncates toward zero.

module Growth {
  import opened Basics

  const EXPANSION_FACTOR := 1.5
  const TARGET_USAGE := 0.6
  const MIN_EXPANSION_GB := 20
  const MAX_VOLUME_SIZE_GB := 16384
  const FILESYSTEM_TOLERANCE_GB := 2
  const TIER_CEILING_MULTIPLIER := 2.0
  const TIER_STORAGE_LIMITS_GB: map<string, int> :=
    map["ladybug-standard" := 20, "ladybug-large" := 50, "ladybug-xlarge" := 100]

  function Truncate(x: real): int { if x >= 0.0 then x.Floor else -((-x).Floor) }

  lemma TruncatesTowardZero(x: real)
    ensures Truncate(-x) == -Truncate(x) && (x >= 0.0 ==> Truncate(x) as real <= x < (Truncate(x) + 1) as real)
  {
  }

  function RoundUp10(n: int): int { (n + 9) / 10 * 10 }

  function Ceiling(tier: string): int
    requires tier in TIER_STORAGE_LIMITS_GB
  {
    Truncate(TIER_STORAGE_LIMITS_GB[tier] as real * TIER_CEILING_MULTIPLIER)
  }

  function Portion(size: int, share: real): real { size as real * share }

  /** The size wanted before any cap. */
  function WantedSize(current: int, usage: real): int {
    var required := Truncate(Portion(current, usage) / TARGET_USAGE);
    var expanded := Truncate(Portion(current, EXPANSION_FACTOR));
    Max(Max(required, expanded), current + MIN_EXPANSION_GB)
  }

  /** `calculate_new_volume_size`. */
  function NewSize(current: int, usage: real, tier: string): int {
    var rounded := RoundUp10(Min(WantedSize(current, usage), MAX_VOLUME_SIZE_GB));
    if tier !in TIER_STORAGE_LIMITS_GB then rounded
    else if current >= Ceiling(tier) then current
    else Min(rounded, Ceiling(tier))
  }

  lemma RoundUp10Bounds(n: int)
    ensures n <= RoundUp10(n) <= n + 9 && RoundUp10(n) % 10 == 0
    ensures forall m :: m <= n ==> RoundUp10(m) <= RoundUp10(n)
  {
  }

  /** In a capped tier a volume never shrinks, never passes its ceiling, and grows
      exactly when it is below it: by 20 GB or to the ceiling. */
  lemma CappedGrowth(current: int, usage: real, tier: string)
    requires tier in TIER_STORAGE_LIMITS_GB
    ensures current <= NewSize(current, usage, tier) <= Max(current, Ceiling(tier))
    ensures NewSize(current, usage, tier) > current <==> current < Ceiling(tier)
    ensures current < Ceiling(tier) ==>
              NewSize(current, usage, tier) >= Min(current + MIN_EXPANSION_GB, Ceiling(tier))
  {
  }

  lemma TruncateMonotone(x: real, y: real)
    requires x <= y
    ensures Truncate(x) <= Truncate(y)
  {
  }

  lemma PortionMonotone(a: int, b: int, share: real)
    requires a <= b && share >= 0.0
    ensures Portion(a, share) <= Portion(b, share)
    ensures a >= 0 ==> Portion(a, share) >= 0.0
  {
    assert (b - a) as real * share >= 0.0;
    assert b as real * share == a as real * share + (b - a) as real * share;
  }

  lemma RequiredMonotone(x: real, y: real)
    requires x <= y
    ensures Truncate(x / TARGET_USAGE) <= Truncate(y / TARGET_USAGE)
  {
    hide Truncate;
    TruncateMonotone(x / TARGET_USAGE, y / TARGET_USAGE);
  }

  lemma WantedSizeMonotone(a: int, b: int, usage: real)
    requires a <= b && usage >= 0.0
    ensures WantedSize(a, usage) <= WantedSize(b, usage)
  {
    PortionMonotone(a, b, usage);
    PortionMonotone(a, b, EXPANSION_FACTOR);
    hide Truncate, Portion;
    RequiredMonotone(Portion(a, usage), Portion(b, usage));
    TruncateMonotone(Portion(a, EXPANSION_FACTOR), Portion(b, EXPANSION_FACTOR));
  }

  /** A larger volume is never given a smaller size, in any tier. */
  lemma NewSizeMonotone(a: int, b: int, usage: real, tier: string)
    requires a <= b && usage >= 0.0
    ensures NewSize(a, usage, tier) <= NewSize(b, usage, tier)
  {
    hide WantedSize, RoundUp10, Ceiling;
    WantedSizeMonotone(a, b, usage);
    RoundUp10Bounds(Min(WantedSize(b, usage), MAX_VOLUME_SIZE_GB));
  }

  /** When neither cap clips it, the new size brings usage back under 60%, to within
      the gigabyte that truncation costs. */
  lemma UsageBackUnderTarget(current: int, usage: real, tier: string)
    requires current >= 0 && usage >= 0.0
    requires WantedSize(current, usage) <= MAX_VOLUME_SIZE_GB
    requires tier in TIER_STORAGE_LIMITS_GB ==>
               current < Ceiling(tier) && RoundUp10(WantedSize(current, usage)) <= Ceiling(tier)
    ensures Portion(current, usage) < TARGET_USAGE * (NewSize(current, usage, tier) + 1) as real
  {
    PortionMonotone(current, current, usage);
    hide Portion;
    var required := Truncate(Portion(current, usage) / TARGET_USAGE);
    RoundUp10Bounds(WantedSize(current, usage));
    assert Portion(current, usage) / TARGET_USAGE < (required + 1) as real;
    assert required <= NewSize(current, usage, tier);
  }

  /** In an uncapped tier the bound is the EBS limit rounded up to 10, because the
      rounding comes after the limit: a size above the limit itself is asked for
      exactly when more than 16380 GB is wanted. */
  lemma UncappedGrowth(current: int, usage: real, tier: string)
    requires tier !in TIER_STORAGE_LIMITS_GB
    ensures NewSize(current, usage, tier) <= RoundUp10(MAX_VOLUME_SIZE_GB) == 16390
    ensures NewSize(current, usage, tier) > MAX_VOLUME_SIZE_GB <==> WantedSize(current, usage) > 16380
    ensures NewSize(current, usage, tier) > current <==> current < 16390
  {
  }

  lemma TruncateAtMost(x: real, k: int)
    requires x >= 0.0
    ensures Truncate(x) <= k <==> x < (k + 1) as real
  {
  }

  /** What a size has to be: 20 GB more, at least half as much again, and enough to have the
      volume less than 60% used - the last two to within a gigabyte - or the limit of EBS. */
  predicate Suffices(k: int, current: int, usage: real) {
    || 16384 <= k
    || (current + 20 <= k && 3 * current < 2 * (k + 1) && current as real * usage < 0.6 * (k + 1) as real)
  }

  lemma WantedSuffices(k: int, current: int, usage: real)
    requires current >= 0 && usage >= 0.0
    ensures Min(WantedSize(current, usage), MAX_VOLUME_SIZE_GB) <= k <==> Suffices(k, current, usage)
  {
    var used, grown := Portion(current, usage), Portion(current, EXPANSION_FACTOR);
    PortionMonotone(current, current, usage);
    PortionMonotone(current, current, EXPANSION_FACTOR);
    TruncateAtMost(used / TARGET_USAGE, k);
    TruncateAtMost(grown, k);
    assert used / TARGET_USAGE < (k + 1) as real <==> used < 0.6 * (k + 1) as real;
    assert grown < (k + 1) as real <==> 3 * current < 2 * (k + 1);
    hide Truncate;
  }

  /** In an uncapped tier the new size is the least multiple of ten that suffices. In a capped
      one it is that or the ceiling of the tier - 40, 100 or 200 GB - whichever is less, and a
      volume at the ceiling or above keeps its size. */
  lemma NewSizeIsLeast(current: int, usage: real, tier: string, k: int)
    requires current >= 0 && usage >= 0.0
    ensures var ceiling := if tier == "ladybug-standard" then 40 else if tier == "ladybug-large" then 100
                           else if tier == "ladybug-xlarge" then 200 else 0;
            var size := NewSize(current, usage, tier);
            && (ceiling == 0 ==> size % 10 == 0 && (k % 10 == 0 ==> (size <= k <==> Suffices(k, current, usage))))
            && (0 < ceiling <= current ==> size == current)
            && (ceiling > current ==>
                  && size % 10 == 0
                  && (k % 10 == 0 ==> (size <= k <==> ceiling <= k || Suffices(k, current, usage))))
  {
    WantedSuffices(k, current, usage);
    RoundUp10Least(Min(WantedSize(current, usage), MAX_VOLUME_SIZE_GB), k);
    Ceilings(tier);
    hide WantedSize, RoundUp10, Ceiling, Suffices;
  }

  lemma RoundUp10Least(n: int, k: int)
    ensures RoundUp10(n) % 10 == 0 && (k % 10 == 0 ==> (RoundUp10(n) <= k <==> n <= k))
  {
  }

  lemma Ceilings(tier: string)
    ensures tier in TIER_STORAGE_LIMITS_GB <==> tier in {"ladybug-standard", "ladybug-large", "ladybug-xlarge"}
    ensures tier in TIER_STORAGE_LIMITS_GB ==>
              Ceiling(tier) == if tier == "ladybug-standard" then 40 else if tier == "ladybug-large" then 100 else 200
  {
  }

  // ---------------------------------------------------------------------
  // Whole runs
  // ---------------------------------------------------------------------

  // One look at a volume: its usage, the threshold that look applies - the monitor has one
  // for its regular rounds and a lower one when told to expand at once - and the size of
  // the filesystem, which is reported a little below that of the device it fills.
  datatype Reading = Reading(usage: real, threshold: real, filesystem: int)

  /** The size the monitor reckons with: the filesystem's, unless it lags the device. */
  function CurrentSize(size: int, r: Reading): int {
    if size - r.filesystem > FILESYSTEM_TOLERANCE_GB then size else r.filesystem
  }

  /** The look asks EC2 for an expansion. */
  predicate Attempts(size: int, r: Reading, tier: string) {
    r.usage > r.threshold && NewSize(CurrentSize(size, r), r.usage, tier) > CurrentSize(size, r)
  }

  /** The device afterwards; EC2 never makes one smaller. */
  function SizeAfter(size: int, r: Reading, tier: string): int {
    if Attempts(size, r, tier) then Max(size, NewSize(CurrentSize(size, r), r.usage, tier)) else size
  }

  /** When a capped volume is asked to expand: exactly when it is used past the threshold
      and the size reckoned with is below the ceiling. */
  lemma AttemptsIff(size: int, r: Reading, tier: string)
    requires tier in TIER_STORAGE_LIMITS_GB
    ensures Attempts(size, r, tier) <==> r.usage > r.threshold && CurrentSize(size, r) < Ceiling(tier)
    ensures size == Ceiling(tier) ==>
              (Attempts(size, r, tier) <==>
               r.usage > r.threshold && 1 <= size - r.filesystem <= 2)
  {
    CappedGrowth(CurrentSize(size, r), r.usage, tier);
  }

  // The size in the end, the expansions asked for, and those that enlarged the device.
  datatype History = History(size: int, attempts: nat, raises: nat)

  function Run(size: int, readings: seq<Reading>, tier: string): History
    decreases |readings|
  {
    if readings == [] then History(size, 0, 0)
    else
      var next := SizeAfter(size, readings[0], tier);
      var rest := Run(next, readings[1..], tier);
      History(rest.size, rest.attempts + (if Attempts(size, readings[0], tier) then 1 else 0),
              rest.raises + if next > size then 1 else 0)
  }

  /** No look finds a filesystem larger than its device. */
  predicate Plausible(size: int, readings: seq<Reading>, tier: string)
    decreases |readings|
  {
    readings == [] ||
    (readings[0].filesystem <= size && Plausible(SizeAfter(size, readings[0], tier), readings[1..], tier))
  }

  lemma StepsLeft(ceiling: int, size: int, next: int)
    requires size < next <= ceiling && ceiling % 10 == 0 && next % 10 == 0
    requires next == ceiling || next >= size + 18
    ensures (ceiling - next + 19) / 20 + 1 <= (ceiling - size + 19) / 20
  {
  }

  lemma CeilingIsRound(tier: string)
    requires tier in TIER_STORAGE_LIMITS_GB
    ensures Ceiling(tier) % 10 == 0
  {
  }

  /** A look that enlarges a capped device takes it to its ceiling, or up by at least 18 GB
      and to a multiple of ten. */
  lemma RaisedSize(size: int, r: Reading, tier: string)
    requires tier in TIER_STORAGE_LIMITS_GB && r.filesystem <= size
    ensures var next := SizeAfter(size, r, tier);
            && size <= next <= Max(size, Ceiling(tier))
            && (next > size ==> next % 10 == 0 && (next == Ceiling(tier) || next >= size + 18))
  {
    var current := CurrentSize(size, r);
    CappedGrowth(current, r.usage, tier);
    CeilingIsRound(tier);
    RoundUp10Bounds(Min(WantedSize(current, r.usage), MAX_VOLUME_SIZE_GB));
    hide WantedSize, RoundUp10, Ceiling;
  }

  /** However long the run and whatever its thresholds and filesystem sizes, a capped volume
      ends between its start and its ceiling, after being enlarged at most once per started
      20 GB between the two. */
  lemma {:induction false} ExpansionsBounded(size: int, readings: seq<Reading>, tier: string)
    requires tier in TIER_STORAGE_LIMITS_GB && Plausible(size, readings, tier)
    ensures size <= Run(size, readings, tier).size <= Max(size, Ceiling(tier))
    ensures Run(size, readings, tier).raises <= (Max(Ceiling(tier) - size, 0) + 19) / 20
    decreases |readings|
  {
    if readings != [] {
      hide SizeAfter, Ceiling, Attempts;
      var next := SizeAfter(size, readings[0], tier);
      RaisedSize(size, readings[0], tier);
      CeilingIsRound(tier);
      ExpansionsBounded(next, readings[1..], tier);
      if next > size {
        StepsLeft(Ceiling(tier), size, next);
      }
    }
  }

  /** The expansions asked for have no such bound: at the ceiling, with a filesystem
      reported within the tolerance below it, every look past the threshold asks again. */
  lemma {:induction false} AttemptsUnbounded(readings: seq<Reading>, tier: string)
    requires tier in TIER_STORAGE_LIMITS_GB
    requires forall k :: 0 <= k < |readings| ==>
               readings[k].usage > readings[k].threshold
               && 0 < Ceiling(tier) - readings[k].filesystem <= FILESYSTEM_TOLERANCE_GB
    ensures Run(Ceiling(tier), readings, tier) == History(Ceiling(tier), |readings|, 0)
  {
    if readings != [] {
      AttemptsIff(Ceiling(tier), readings[0], tier);
      RaisedSize(Ceiling(tier), readings[0], tier);
      hide Attempts, Ceiling;
      AttemptsUnbounded(readings[1..], tier);
    }
  }

  /** A 40 GB volume of the smallest tier whose filesystem reads 39 is one. */
  lemma FullVolumeKeepsAsking(readings: seq<Reading>)
    requires forall k :: 0 <= k < |readings| ==> readings[k] == Reading(0.85, 0.8, 39)
    ensures Run(40, readings, "ladybug-standard") == History(40, |readings|, 0)
  {
    AttemptsUnbounded(readings, "ladybug-standard");
  }

  // ---- The run as the sizes it goes through ----

  function CountTrue(xs: seq<bool>): nat { if xs == [] then 0 else (if xs[0] then 1 else 0) + CountTrue(xs[1..]) }

  /** One look: the size reckoned with is the device's if the filesystem lags it by more than
      2 GB; an expansion is asked for past the threshold when the size worked out from it is
      larger; and the device is enlarged when that is larger than it, too. */
  predicate LooksAt(size: int, next: int, asked: bool, raised: bool, r: Reading, tier: string) {
    var reckoned := if size > r.filesystem + 2 then size else r.filesystem;
    var worked := NewSize(reckoned, r.usage, tier);
    && (asked <==> r.usage > r.threshold && worked > reckoned)
    && (raised <==> asked && worked > size)
    && next == if raised then worked else size
  }

  /** A run goes from size to size by such looks, and its history is theirs. */
  lemma {:induction false} RunGoesThrough(size: int, readings: seq<Reading>, tier: string)
    returns (sizes: seq<int>, asked: seq<bool>, raised: seq<bool>)
    ensures |sizes| == |readings| + 1 && |asked| == |raised| == |readings| && sizes[0] == size
    ensures forall k :: 0 <= k < |readings| ==>
              LooksAt(sizes[k], sizes[k + 1], asked[k], raised[k], readings[k], tier)
    ensures Run(size, readings, tier) == History(sizes[|readings|], CountTrue(asked), CountTrue(raised))
    decreases |readings|
  {
    if readings == [] {
      sizes, asked, raised := [size], [], [];
    } else {
      var r := readings[0];
      var next := SizeAfter(size, r, tier);
      sizes, asked, raised := RunGoesThrough(next, readings[1..], tier);
      assert LooksAt(size, next, Attempts(size, r, tier), next > size, r, tier);
      hide NewSize, Attempts, SizeAfter, LooksAt;
      sizes, asked, raised := [size] + sizes, [Attempts(size, r, tier)] + asked, [next > size] + raised;
      forall k | 0 <= k < |readings|
        ensures LooksAt(sizes[k], sizes[k + 1], asked[k], raised[k], readings[k], tier)
      {
        assert k > 0 ==> readings[k] == readings[1..][k - 1];
      }
    }
  }
}

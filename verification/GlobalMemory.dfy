/** Division of physical memory over the resident workers: `retainedGrowthReserve` and
    `selectGlobalActiveLimits`. Byte counts are integers and the pressure fractions are exact. */
module GlobalMemory {

  import opened Common

  datatype Pressure = Normal | Warning | Critical
  datatype Mode = Auto | Fixed
  datatype Worker = Worker(key: string, mode: Mode, requestedMax: int, backendCeiling: int,
                           hardwareCeiling: int, modelCeiling: int, retainedCeiling: int,
                           perActiveReserveBytes: int, residentBytes: int, retainedBytes: int,
                           retainedBudgetBytes: int, recentRetainedGrowthBytes: int,
                           growthMinimumBytes: Option<int>, growthReservePercent: Option<int>)

  datatype Input = Input(physicalMemoryBytes: nat, osReserveBytes: int, pressure: Pressure, workers: seq<Worker>)

  datatype Plan = Plan(key: string, selectedMax: int)

  const MIB := 1024 * 1024

  function Max(a: int, b: int): int { if a >= b then a else b }
  function Min(a: int, b: int): int { if a <= b then a else b }
  function GetOr(o: Option<int>, default: int): int { if o.Some? then o.value else default }

  function RetainedGrowthReserve(w: Worker): int {
    var remaining := Max(0, w.retainedBudgetBytes - w.retainedBytes);
    var percent := Max(0, Min(100, GetOr(w.growthReservePercent, 10)));
    var fraction := (remaining / 100) * percent;
    Min(remaining, Max(w.recentRetainedGrowthBytes, Max(GetOr(w.growthMinimumBytes, 64 * MIB), fraction)))
  }

  function ResidentTotal(workers: seq<Worker>): int {
    if workers == [] then 0
    else ResidentTotal(workers[..|workers| - 1]) + Max(workers[|workers| - 1].residentBytes, workers[|workers| - 1].retainedBytes)
  }

  /** The growth reserves by key, as a map keeps them: a later worker with the same key overwrites. */
  function GrowthByKey(workers: seq<Worker>): map<string, int> {
    if workers == [] then map[]
    else
      var last := workers[|workers| - 1];
      GrowthByKey(workers[..|workers| - 1])[last.key := RetainedGrowthReserve(last)]
  }

  /** The keys of that map in insertion order. */
  function GrowthKeys(workers: seq<Worker>): seq<string> {
    if workers == [] then []
    else
      var (before, key) := (GrowthKeys(workers[..|workers| - 1]), workers[|workers| - 1].key);
      if key in before then before else before + [key]
  }

  function SumAt(growth: map<string, int>, keys: seq<string>): int
    requires forall k | k in keys :: k in growth
  {
    if keys == [] then 0 else SumAt(growth, keys[..|keys| - 1]) + growth[keys[|keys| - 1]]
  }

  lemma {:induction false} KeysAreGrowth(workers: seq<Worker>)
    ensures forall k :: k in GrowthKeys(workers) <==> k in GrowthByKey(workers)
    ensures forall k :: k in GrowthKeys(workers) <==> exists i | 0 <= i < |workers| :: workers[i].key == k
  {
    if workers != [] {
      var n := |workers| - 1;
      KeysAreGrowth(workers[..n]);
      forall k ensures k in GrowthKeys(workers) <==> exists i | 0 <= i < |workers| :: workers[i].key == k {
        if k in GrowthKeys(workers[..n]) {
          var i :| 0 <= i < n && workers[..n][i].key == k;
          assert workers[i].key == k;
        }
        if i :| 0 <= i < n && workers[i].key == k { assert workers[..n][i].key == k; }
      }
    }
  }

  function GrowthTotal(workers: seq<Worker>): int {
    KeysAreGrowth(workers);
    SumAt(GrowthByKey(workers), GrowthKeys(workers))
  }

  /** A tenth under critical pressure, a twentieth under warning, rounded down. */
  function PressureReserve(input: Input): (r: int)
    ensures input.pressure.Critical? ==> 10 * r <= input.physicalMemoryBytes < 10 * r + 10
    ensures input.pressure.Warning? ==> 20 * r <= input.physicalMemoryBytes < 20 * r + 20
    ensures input.pressure.Normal? ==> r == 0
  {
    match input.pressure
    case Critical => input.physicalMemoryBytes / 10
    case Warning => input.physicalMemoryBytes / 20
    case Normal => 0
  }

  /** What is left for active work before clamping at zero. */
  function UnclampedPool(input: Input): int {
    input.physicalMemoryBytes - input.osReserveBytes - PressureReserve(input)
      - ResidentTotal(input.workers) - GrowthTotal(input.workers)
  }

  function Share(input: Input): int
    requires input.workers != []
  {
    Max(0, UnclampedPool(input)) / |input.workers|
  }

  function SelectedMax(w: Worker, share: int): int {
    var memoryCeiling := Max(1, share / Max(1, w.perActiveReserveBytes));
    var safeCeiling := Max(1, Min(w.backendCeiling, Min(w.hardwareCeiling,
      Min(w.modelCeiling, Min(w.retainedCeiling, memoryCeiling)))));
    if w.mode.Fixed? then Min(w.requestedMax, safeCeiling) else Min(8, safeCeiling)
  }

  function SelectGlobalActiveLimits(input: Input): (plans: seq<Plan>)
    ensures |plans| == |input.workers| && forall i | 0 <= i < |plans| :: plans[i].key == input.workers[i].key
  {
    if input.workers == [] then []
    else
      var share := Share(input);
      seq(|input.workers|, i requires 0 <= i < |input.workers| =>
        Plan(input.workers[i].key, SelectedMax(input.workers[i], share)))
  }

  // ---------------------------------------------------------------- the reserves

  function Sum(workers: seq<Worker>, of: Worker -> int): int {
    if workers == [] then 0 else Sum(workers[..|workers| - 1], of) + of(workers[|workers| - 1])
  }

  /** What counts as resident covers what the workers hold and what they retain, and no more than both. */
  lemma {:induction false} ResidentCoversBoth(workers: seq<Worker>)
    requires forall w | w in workers :: w.residentBytes >= 0 && w.retainedBytes >= 0
    ensures ResidentTotal(workers) >= Sum(workers, (w: Worker) => w.residentBytes)
    ensures ResidentTotal(workers) >= Sum(workers, (w: Worker) => w.retainedBytes)
    ensures ResidentTotal(workers) <= Sum(workers, (w: Worker) => w.residentBytes + w.retainedBytes)
  {
    if workers != [] {
      assert workers[|workers| - 1] in workers;
      ResidentCoversBoth(workers[..|workers| - 1]);
    }
  }

  /** What is left of a worker's budget bounds its reserve; within that it is the largest of its recent growth, its
      minimum and its percentage, and nothing else. */
  lemma {:induction false} ReserveIsEnough(w: Worker)
    ensures var (r, left) := (RetainedGrowthReserve(w), w.retainedBudgetBytes - w.retainedBytes);
      var (minimum, percent) := (GetOr(w.growthMinimumBytes, 64 * MIB), GetOr(w.growthReservePercent, 10));
      && (left <= 0 ==> r <= 0) && (left > 0 ==> r <= left)
      && (left > r ==> r >= w.recentRetainedGrowthBytes && r >= minimum && (0 <= percent <= 100 ==> r >= left / 100 * percent))
      && (left > r > 0 ==>
        || r == w.recentRetainedGrowthBytes || r == minimum || r == left / 100 * percent || (percent > 100 && r == left / 100 * 100))
      && (w.growthMinimumBytes.None? && left > r ==> r >= 64 * MIB)
  {
    var percent := GetOr(w.growthReservePercent, 10);
    if percent < 0 { assert Max(0, Min(100, percent)) == 0; }
  }

  // ---------------------------------------------------------------- the bound

  ghost predicate DistinctKeys(workers: seq<Worker>) {
    forall i, j | 0 <= i < j < |workers| :: workers[i].key != workers[j].key
  }

  function EachGrowth(workers: seq<Worker>): int {
    if workers == [] then 0
    else EachGrowth(workers[..|workers| - 1]) + RetainedGrowthReserve(workers[|workers| - 1])
  }

  lemma {:induction false} SumAtAgrees(a: map<string, int>, b: map<string, int>, keys: seq<string>)
    requires forall k | k in keys :: k in a && k in b && a[k] == b[k]
    ensures SumAt(a, keys) == SumAt(b, keys)
  {
    if keys != [] { SumAtAgrees(a, b, keys[..|keys| - 1]); }
  }

  /** What later workers with the same key have overwritten. */
  function Overwritten(workers: seq<Worker>): int {
    if workers == [] then 0
    else
      var (before, key) := (workers[..|workers| - 1], workers[|workers| - 1].key);
      Overwritten(before) + if key in GrowthByKey(before) then GrowthByKey(before)[key] else 0
  }

  lemma {:induction false} ReserveIsNatural(w: Worker)
    ensures RetainedGrowthReserve(w) >= 0
  {
  }

  lemma {:induction false} SumAfterUpdate(growth: map<string, int>, keys: seq<string>, key: string, x: int)
    requires AllDifferent(keys)
    requires (forall k | k in keys :: k in growth) && key in keys
    ensures SumAt(growth[key := x], keys) == SumAt(growth, keys) - growth[key] + x
  {
    var (before, last) := (keys[..|keys| - 1], keys[|keys| - 1]);
    assert keys == before + [last];
    if last == key {
      SumAtAgrees(growth, growth[key := x], before);
    } else {
      SumAfterUpdate(growth, before, key, x);
    }
  }

  ghost predicate AllDifferent(keys: seq<string>) { forall i, j | 0 <= i < j < |keys| :: keys[i] != keys[j] }

  lemma {:induction false} KeysAreDistinct(workers: seq<Worker>)
    ensures AllDifferent(GrowthKeys(workers))
  {
    if workers != [] {
      var (before, key) := (GrowthKeys(workers[..|workers| - 1]), workers[|workers| - 1].key);
      KeysAreDistinct(workers[..|workers| - 1]);
      if key !in before { OneMoreKey(before, key); }
    }
  }

  lemma {:induction false} OneMoreKey(keys: seq<string>, key: string)
    requires AllDifferent(keys) && key !in keys
    ensures AllDifferent(keys + [key])
  {
  }

  lemma {:induction false} TotalAfterOneMore(before: seq<Worker>, w: Worker)
    ensures var (all, lost) := (before + [w], if w.key in GrowthByKey(before) then GrowthByKey(before)[w.key] else 0);
      GrowthTotal(all) == GrowthTotal(before) - lost + RetainedGrowthReserve(w)
  {
    var all := before + [w];
    var keys := GrowthKeys(before);
    assert all[..|all| - 1] == before;
    KeysAreGrowth(before);
    KeysAreGrowth(all);
    KeysAreDistinct(before);
    if w.key in keys {
      SumAfterUpdate(GrowthByKey(before), keys, w.key, RetainedGrowthReserve(w));
    } else {
      assert (keys + [w.key])[..|keys|] == keys;
      SumAtAgrees(GrowthByKey(before), GrowthByKey(all), keys);
    }
  }

  /** The total is what every worker asks for, without what was overwritten. */
  lemma {:induction false} TotalWithoutOverwritten(workers: seq<Worker>)
    ensures EachGrowth(workers) == GrowthTotal(workers) + Overwritten(workers)
  {
    if workers != [] {
      var n := |workers| - 1;
      TotalWithoutOverwritten(workers[..n]);
      TotalAfterOneMore(workers[..n], workers[n]);
      assert workers[..n] + [workers[n]] == workers;
    }
  }

  /** Another worker comes after this one under the same key. */
  predicate Shadowed(workers: seq<Worker>, i: nat) {
    exists j :: i < j < |workers| && workers[j].key == workers[i].key
  }

  predicate NothingToLose(workers: seq<Worker>) {
    forall i: nat | i < |workers| && Shadowed(workers, i) :: RetainedGrowthReserve(workers[i]) == 0
  }

  /** The entry under a key is that of the last worker with this key. */
  lemma {:induction false} LastOfKey(workers: seq<Worker>, key: string) returns (i: nat)
    requires key in GrowthByKey(workers)
    ensures i < |workers| && workers[i].key == key && !Shadowed(workers, i)
    ensures GrowthByKey(workers)[key] == RetainedGrowthReserve(workers[i])
  {
    var n := |workers| - 1;
    i := n;
    if workers[n].key != key { i := LastOfKey(workers[..n], key); }
  }

  lemma {:induction false} ShadowedSooner(workers: seq<Worker>, i: nat)
    requires workers != [] && i < |workers| - 1
    ensures var n := |workers| - 1; Shadowed(workers, i) <==> Shadowed(workers[..n], i) || workers[n].key == workers[i].key
  {
    var n := |workers| - 1;
    if j :| i < j < n && workers[..n][j].key == workers[..n][i].key { assert workers[j].key == workers[i].key; }
    if j :| i < j < |workers| && workers[j].key == workers[i].key {
      if j < n { assert workers[..n][j].key == workers[..n][i].key; }
    }
  }

  lemma {:induction false} OverwrittenIsNatural(workers: seq<Worker>)
    ensures Overwritten(workers) >= 0
  {
    if workers != [] {
      var (before, key) := (workers[..|workers| - 1], workers[|workers| - 1].key);
      OverwrittenIsNatural(before);
      if key in GrowthByKey(before) {
        var i := LastOfKey(before, key);
        ReserveIsNatural(before[i]);
      }
    }
  }

  lemma {:induction false} NothingOverwritten(workers: seq<Worker>)
    ensures Overwritten(workers) == 0 <==> NothingToLose(workers)
  {
    if workers != [] {
      var n := |workers| - 1;
      var before := workers[..n];
      OverwrittenIsNatural(before);
      NothingOverwritten(before);
      forall i: nat | i < n
        ensures Shadowed(workers, i) <==> Shadowed(before, i) || workers[n].key == workers[i].key
      {
        ShadowedSooner(workers, i);
      }
      assert NothingToLose(workers) ==> NothingToLose(before) by {
        forall i: nat | i < n && Shadowed(before, i) && NothingToLose(workers) ensures RetainedGrowthReserve(before[i]) == 0 {
          assert Shadowed(workers, i);
        }
      }
      if workers[n].key in GrowthByKey(before) {
        LostWithTheLast(workers);
      } else {
        NewKeyLosesNothing(workers);
      }
    }
  }

  lemma {:induction false} LostWithTheLast(workers: seq<Worker>)
    requires workers != [] && workers[|workers| - 1].key in GrowthByKey(workers[..|workers| - 1])
    ensures var (before, key) := (workers[..|workers| - 1], workers[|workers| - 1].key);
      && GrowthByKey(before)[key] >= 0
      && (NothingToLose(before) && GrowthByKey(before)[key] == 0 <==> NothingToLose(workers))
  {
    var n := |workers| - 1;
    var (before, key) := (workers[..n], workers[n].key);
    var l := LastOfKey(before, key);
    ReserveIsNatural(before[l]);
    assert workers[n].key == workers[l].key && Shadowed(workers, l);
    forall i: nat | i < n
      ensures Shadowed(workers, i) <==> Shadowed(before, i) || i == l
    {
      ShadowedSooner(workers, i);
      if workers[i].key == key && i != l {
        assert i > l ==> before[i].key == before[l].key;
        assert i < l ==> before[l].key == before[i].key;
      }
    }
    if NothingToLose(workers) {
      forall i: nat | i < n && Shadowed(before, i) ensures RetainedGrowthReserve(before[i]) == 0 {
        assert Shadowed(workers, i);
      }
    }
    assert !Shadowed(workers, n);
  }

  lemma {:induction false} NewKeyLosesNothing(workers: seq<Worker>)
    requires workers != [] && workers[|workers| - 1].key !in GrowthByKey(workers[..|workers| - 1])
    ensures NothingToLose(workers) <==> NothingToLose(workers[..|workers| - 1])
  {
    var n := |workers| - 1;
    var before := workers[..n];
    KeysAreGrowth(before);
    forall i: nat | i < n ensures Shadowed(workers, i) <==> Shadowed(before, i) {
      ShadowedSooner(workers, i);
      assert before[i].key in GrowthKeys(before);
    }
    assert !Shadowed(workers, n);
    if NothingToLose(workers) {
      forall i: nat | i < n && Shadowed(before, i) ensures RetainedGrowthReserve(before[i]) == 0 {
        assert Shadowed(workers, i);
      }
    }
  }

  /** Every worker's growth is reserved if and only if whoever shares a key with a later worker has nothing
      to reserve; with different keys there is no such worker. */
  lemma {:induction false} GrowthCountedOnce(workers: seq<Worker>)
    ensures GrowthTotal(workers) <= EachGrowth(workers)
    ensures GrowthTotal(workers) == EachGrowth(workers) <==> NothingToLose(workers)
    ensures DistinctKeys(workers) ==> NothingToLose(workers)
  {
    TotalWithoutOverwritten(workers);
    OverwrittenIsNatural(workers);
    NothingOverwritten(workers);
  }

  /** Bytes that the selected limits allow to be in active use. */
  function ActiveBytes(workers: seq<Worker>, share: int): int {
    if workers == [] then 0
    else
      var last := workers[|workers| - 1];
      ActiveBytes(workers[..|workers| - 1], share) + SelectedMax(last, share) * last.perActiveReserveBytes
  }

  /** A worker stays within its share exactly when the share covers one reserve, since below that the limit
      is still clamped up to one, or when it asks for no slot at all. */
  lemma {:induction false} WithinShareIff(w: Worker, share: nat)
    ensures SelectedMax(w, share) >= 1 <==> (w.mode.Fixed? ==> w.requestedMax >= 1)
    ensures SelectedMax(w, share) * Max(1, w.perActiveReserveBytes) <= share
       <==> share >= Max(1, w.perActiveReserveBytes) || (w.mode.Fixed? && w.requestedMax < 1)
  {
    if w.mode.Fixed? && w.requestedMax < 1 {
      MulMonotone(SelectedMax(w, share), 0, Max(1, w.perActiveReserveBytes));
      return;
    }
    var reserve := Max(1, w.perActiveReserveBytes);
    var fit := share / reserve;
    assert fit * reserve <= share;
    if share >= reserve {
      assert fit >= 1 by { DivAtLeastOne(share, reserve); }
      MulMonotone(SelectedMax(w, share), fit, reserve);
    } else {
      MulMonotone(1, SelectedMax(w, share), reserve);
    }
  }

  lemma {:induction false} DivAtLeastOne(a: nat, b: nat)
    requires 0 < b <= a
    ensures a / b >= 1
  {
  }

  lemma {:induction false} MulMonotone(a: int, b: int, c: nat)
    requires a <= b
    ensures a * c <= b * c
  {
  }

  /** The fair share pays for one active request of the worker. */
  predicate Covers(share: int, w: Worker) {
    w.perActiveReserveBytes >= 0 && share >= Max(1, w.perActiveReserveBytes)
  }

  lemma {:induction false} DivTimes(a: nat, b: nat)
    requires b > 0
    ensures a / b * b <= a
  {
  }

  /** No more slots than the share holds, or one. */
  lemma {:induction false} MemoryBounds(w: Worker, share: nat)
    ensures SelectedMax(w, share) <= Max(1, share / Max(1, w.perActiveReserveBytes))
  {
  }

  lemma {:induction false} WithinShare(w: Worker, share: nat)
    requires Covers(share, w)
    ensures SelectedMax(w, share) * w.perActiveReserveBytes <= share
  {
    hide SelectedMax;
    var (reserve, n) := (w.perActiveReserveBytes, SelectedMax(w, share));
    if reserve == 0 {
      assert n * reserve == 0;
    } else {
      DivAtLeastOne(share, reserve);
      MemoryBounds(w, share);
      MulMonotone(n, share / reserve, reserve);
      DivTimes(share, reserve);
    }
  }

  /** A limit that is no more than asked for, and, if it is more than one, within every ceiling and the share. */
  predicate Allowed(w: Worker, share: nat, n: int) {
    && n <= (if w.mode.Fixed? then w.requestedMax else 8)
    && (n <= 1 || (n <= w.backendCeiling && n <= w.hardwareCeiling && n <= w.modelCeiling && n <= w.retainedCeiling
      && n * Max(1, w.perActiveReserveBytes) <= share))
  }

  lemma {:induction false} FitsIff(n: nat, reserve: nat, share: nat)
    requires reserve > 0
    ensures n * reserve <= share <==> n <= share / reserve
  {
    var fit := share / reserve;
    DivTimes(share, reserve);
    if n <= fit { MulMonotone(n, fit, reserve); } else { MulMonotone(fit + 1, n, reserve); }
    assert (fit + 1) * reserve == fit * reserve + reserve;
  }

  /** A worker gets the largest limit that is allowed. */
  lemma {:induction false} SelectedIsLargest(w: Worker, share: nat, n: int)
    ensures Allowed(w, share, SelectedMax(w, share))
    ensures n > SelectedMax(w, share) ==> !Allowed(w, share, n)
  {
    var (reserve, most) := (Max(1, w.perActiveReserveBytes), SelectedMax(w, share));
    if most > 1 { FitsIff(most, reserve, share); }
    if n > 1 { FitsIff(n, reserve, share); }
  }

  lemma {:induction false} OneMore(n: nat, share: nat)
    ensures (n + 1) * share == n * share + share
  {
  }

  lemma {:induction false} ActiveWithinShares(workers: seq<Worker>, share: nat)
    requires forall w | w in workers :: Covers(share, w)
    ensures ActiveBytes(workers, share) <= |workers| * share
  {
    if workers != [] {
      var n := |workers| - 1;
      assert workers[n] in workers;
      ActiveWithinShares(workers[..n], share);
      WithinShare(workers[n], share);
      OneMore(n, share);
    }
  }

  /** The global bound: with every worker's growth reserved, as different keys ensure, a pool that did not
      have to be clamped, and a share that covers one reserve of every worker, active memory at the selected
      limits fits in physical memory together with resident, growth, pressure and system reserves. */
  lemma {:induction false} LimitsFitInMemory(input: Input)
    requires input.workers != [] && NothingToLose(input.workers) && UnclampedPool(input) >= 0
    requires forall w | w in input.workers :: Covers(Share(input), w)
    ensures ActiveBytes(input.workers, Share(input)) + ResidentTotal(input.workers) + EachGrowth(input.workers)
      + PressureReserve(input) + input.osReserveBytes <= input.physicalMemoryBytes
  {
    PoolWithoutReserves(input);
    ShareOfPool(input);
    ActiveFits(input.workers, Share(input), UnclampedPool(input));
  }

  lemma {:induction false} PoolWithoutReserves(input: Input)
    requires NothingToLose(input.workers)
    ensures UnclampedPool(input) + ResidentTotal(input.workers) + EachGrowth(input.workers)
      + PressureReserve(input) + input.osReserveBytes == input.physicalMemoryBytes
  {
    GrowthCountedOnce(input.workers);
  }

  lemma {:induction false} ShareOfPool(input: Input)
    requires input.workers != [] && UnclampedPool(input) >= 0
    ensures Share(input) >= 0 && Share(input) == UnclampedPool(input) / |input.workers|
  {
  }

  lemma {:induction false} ActiveFits(workers: seq<Worker>, share: nat, pool: nat)
    requires workers != [] && share == pool / |workers| && forall w | w in workers :: Covers(share, w)
    ensures ActiveBytes(workers, share) <= pool
  {
    ActiveWithinShares(workers, share);
    ShareSplits(pool, |workers|);
  }

  lemma {:induction false} ShareSplits(pool: nat, n: nat)
    requires n > 0
    ensures n * (pool / n) <= pool
  {
  }

  /** Two workers under one key: their growth is reserved once, and the limits no longer fit. The registry
      never asks for such limits, since it keeps its workers in a map by key. */
  lemma {:induction false} SharedKeyOverruns() returns (input: Input)
    ensures input.workers != [] && UnclampedPool(input) >= 0
    ensures forall w | w in input.workers :: Covers(Share(input), w)
    ensures ActiveBytes(input.workers, Share(input)) + ResidentTotal(input.workers) + EachGrowth(input.workers)
      + PressureReserve(input) + input.osReserveBytes > input.physicalMemoryBytes
  {
    var w := Worker("m", Fixed, 1, 8, 8, 8, 8, 35, 0, 0, 30, 30, Some(30), None);
    var one, two := [w], [w, w];
    input := Input(100, 0, Pressure.Normal, two);
    assert one[..0] == [] && two[..1] == one;
    assert RetainedGrowthReserve(w) == 30;
    assert GrowthKeys(one[..0]) == [] && GrowthKeys(one) == ["m"] && GrowthKeys(two) == ["m"];
    assert ["m"][..0] == [];
    assert GrowthByKey(two)["m"] == 30;
    assert SumAt(GrowthByKey(two), ["m"]) == SumAt(GrowthByKey(two), ["m"][..0]) + 30;
    assert SelectedMax(w, 35) == 1 && [] + [w] == one && one + [w] == two;
    OneMoreWorker([], w, 35);
    OneMoreWorker(one, w, 35);
    assert EachGrowth(two) == 60 && ResidentTotal(two) == 0 && ActiveBytes(two, 35) == 70;
    assert UnclampedPool(input) == 70 && Share(input) == 35;
  }

  lemma {:induction false} OneMoreWorker(workers: seq<Worker>, w: Worker, share: int)
    ensures ActiveBytes(workers + [w], share) == ActiveBytes(workers, share) + SelectedMax(w, share) * w.perActiveReserveBytes
    ensures EachGrowth(workers + [w]) == EachGrowth(workers) + RetainedGrowthReserve(w)
    ensures ResidentTotal(workers + [w]) == ResidentTotal(workers) + Max(w.residentBytes, w.retainedBytes)
  {
    assert (workers + [w])[..|workers|] == workers;
  }

  function Level(p: Pressure): nat { match p case Normal => 0 case Warning => 1 case Critical => 2 }

  lemma {:induction false} DivMonotone(a: nat, b: nat, c: nat)
    requires a <= b && c > 0
    ensures a / c <= b / c
  {
    if a / c > b / c {
      MulMonotone(b / c + 1, a / c, c);
    }
  }

  lemma {:induction false} LargerShareNeverLowers(w: Worker, a: nat, b: nat)
    requires a <= b
    ensures SelectedMax(w, a) <= SelectedMax(w, b)
  {
    DivMonotone(a, b, Max(1, w.perActiveReserveBytes));
  }

  /** More memory pressure never raises the limit of any worker. */
  lemma {:induction false} PressureNeverRaises(input: Input, pressure: Pressure, i: nat)
    requires Level(input.pressure) <= Level(pressure) && i < |input.workers|
    ensures SelectGlobalActiveLimits(input.(pressure := pressure))[i].selectedMax
         <= SelectGlobalActiveLimits(input)[i].selectedMax
  {
    hide ResidentTotal, GrowthTotal, SelectedMax;
    var higher := input.(pressure := pressure);
    assert PressureReserve(input) <= PressureReserve(higher);
    DivMonotone(Max(0, UnclampedPool(higher)), Max(0, UnclampedPool(input)), |input.workers|);
    LargerShareNeverLowers(input.workers[i], Share(higher), Share(input));
  }
}

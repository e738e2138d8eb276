/** The plan by which `init_vols` shares the fixed particle budget among the seed volumes of a
    preset: one contiguous slot range per cuboid, sized in proportion to its volume, the last
    cuboid taking whatever remains. */
module Seeding {
  import opened Common

  /** An entry of a preset. `Cube` is a `CubeVolume` (minimum corner, extents, material);
      `Shaped` is any other object that carries a `volume` attribute; `Shapeless` is an object
      without one. */
  datatype VolumeSpec =
    | Cube(minimum: Vec3, size: Vec3, material: int)
    | Shaped(vol: real)
    | Shapeless
  {
    predicate HasVolume() {
      !Shapeless?
    }

    /** The `volume` attribute: the product of the extents for a cuboid. */
    function Volume(): real
      requires HasVolume()
    {
      if Cube? then size.x * size.y * size.z else vol
    }
  }

  /** Why `init_vols` stops: an entry without a `volume` attribute (met while summing, before any
      slot is seeded), an entry that is not a cuboid, or a cuboid met while the total volume is
      zero (the division by the total fails). */
  datatype InitError = MissingVolume | NotACube | ZeroTotalVolume

  /** Slots `[first, last)` are seeded from the cuboid `minimum`, `size`, `material`. */
  datatype Range = Range(first: int, last: int, minimum: Vec3, size: Vec3, material: int)

  /** The ranges seeded, in order, and the error that ended the seeding, if any. */
  datatype Plan = Plan(ranges: seq<Range>, error: Option<InitError>)

  predicate AllHaveVolume(vols: seq<VolumeSpec>) {
    forall j :: 0 <= j < |vols| ==> vols[j].HasVolume()
  }

  predicate NonNegativeVolumes(vols: seq<VolumeSpec>) {
    forall j :: 0 <= j < |vols| && vols[j].HasVolume() ==> vols[j].Volume() >= 0.0
  }

  /** Volume of the first `n` entries, summed in order. */
  function PrefixVolume(vols: seq<VolumeSpec>, n: nat): real
    requires n <= |vols| && forall j :: 0 <= j < n ==> vols[j].HasVolume()
  {
    if n == 0 then 0.0 else PrefixVolume(vols, n - 1) + vols[n - 1].Volume()
  }

  function TotalVolume(vols: seq<VolumeSpec>): real
    requires AllHaveVolume(vols)
  {
    PrefixVolume(vols, |vols|)
  }

  /** `par_count` of entry `i` when seeding resumes at slot `nextP`: `int(volume / total * N)`,
      or, for the last entry, every remaining slot. */
  function ParCount(vols: seq<VolumeSpec>, total: real, i: nat, nextP: int): (c: int)
    requires i < |vols| && vols[i].HasVolume() && total != 0.0
    ensures i == |vols| - 1 ==> nextP + c == NParticles
    ensures i < |vols| - 1 && vols[i].Volume() / total >= 0.0 ==>
      c == (vols[i].Volume() / total * NParticles as real).Floor
  {
    if i == |vols| - 1 then NParticles - nextP
    else Trunc(vols[i].Volume() / total * NParticles as real)
  }

  /** The seeding loop from entry `i` on, with `nextP` slots already handed out. */
  function PlanFrom(vols: seq<VolumeSpec>, total: real, i: nat, nextP: int): (p: Plan)
    requires i <= |vols|
    ensures |p.ranges| <= |vols| - i
    ensures p.error.None? <==> |p.ranges| == |vols| - i
    ensures p.error != Some(MissingVolume)
    ensures |p.ranges| > 0 ==> p.ranges[0].first == nextP
    decreases |vols| - i
  {
    if i == |vols| then Plan([], None)
    else
      match vols[i]
      case Cube(lo, size, m) =>
        if total == 0.0 then Plan([], Some(ZeroTotalVolume))
        else
          var count := ParCount(vols, total, i, nextP);
          var rest := PlanFrom(vols, total, i + 1, nextP + count);
          Plan([Range(nextP, nextP + count, lo, size, m)] + rest.ranges, rest.error)
      case _ => Plan([], Some(NotACube))
  }

  /** What `init_vols` does with a preset: sum the volumes, then seed entry by entry. */
  function InitPlan(vols: seq<VolumeSpec>): (p: Plan)
    ensures |p.ranges| <= |vols|
    ensures p.error.None? <==> |p.ranges| == |vols|
    ensures p.error == Some(MissingVolume) <==> !AllHaveVolume(vols)
    ensures |p.ranges| > 0 ==> p.ranges[0].first == 0
  {
    if AllHaveVolume(vols) then PlanFrom(vols, TotalVolume(vols), 0, 0)
    else Plan([], Some(MissingVolume))
  }

  /** Entry `e` stops the seeding loop when the total volume is `total`. */
  predicate Fails(e: VolumeSpec, total: real) {
    !e.Cube? || total == 0.0
  }

  /** The loop ends in an error exactly when some remaining entry fails. */
  lemma {:induction false} PlanErrorIff(vols: seq<VolumeSpec>, total: real, i: nat, nextP: int)
    requires i <= |vols| && AllHaveVolume(vols)
    ensures PlanFrom(vols, total, i, nextP).error.Some? <==>
            exists j :: i <= j < |vols| && Fails(vols[j], total)
    decreases |vols| - i
  {
    if i < |vols| && vols[i].Cube? && total != 0.0 {
      PlanErrorIff(vols, total, i + 1, nextP + ParCount(vols, total, i, nextP));
      if exists j :: i <= j < |vols| && Fails(vols[j], total) {
        var j :| i <= j < |vols| && Fails(vols[j], total);
        assert j != i;
      }
    }
  }

  /** The first failing entry `b` decides the error, and every entry before it was seeded. */
  lemma {:induction false} PlanStopsAtFirstFailure(vols: seq<VolumeSpec>, total: real, i: nat, nextP: int, b: nat)
    requires i <= b < |vols| && AllHaveVolume(vols)
    requires Fails(vols[b], total)
    requires forall j :: i <= j < b ==> !Fails(vols[j], total)
    ensures |PlanFrom(vols, total, i, nextP).ranges| == b - i
    ensures PlanFrom(vols, total, i, nextP).error ==
            Some(if vols[b].Cube? then ZeroTotalVolume else NotACube)
    decreases b - i
  {
    if i < b {
      assert !Fails(vols[i], total);
      PlanStopsAtFirstFailure(vols, total, i + 1, nextP + ParCount(vols, total, i, nextP), b);
    }
  }

  /** A preset with an entry lacking a `volume` attribute fails before seeding anything. */
  lemma MissingVolumeSeedsNothing(vols: seq<VolumeSpec>, j: nat)
    requires j < |vols| && vols[j].Shapeless?
    ensures InitPlan(vols) == Plan([], Some(MissingVolume))
  {
    assert !vols[j].HasVolume();
  }

  /** A non-cuboid entry with a `volume` attribute, preceded only by cuboids of positive total
      volume, raises after every earlier cuboid has been seeded. */
  lemma NonCubeRaises(vols: seq<VolumeSpec>, b: nat)
    requires AllHaveVolume(vols) && TotalVolume(vols) != 0.0
    requires b < |vols| && !vols[b].Cube?
    requires forall j :: 0 <= j < b ==> vols[j].Cube?
    ensures InitPlan(vols).error == Some(NotACube)
    ensures |InitPlan(vols).ranges| == b
  {
    PlanStopsAtFirstFailure(vols, TotalVolume(vols), 0, 0, b);
  }

  lemma {:induction false} PrefixBounds(vols: seq<VolumeSpec>, n: nat)
    requires AllHaveVolume(vols) && NonNegativeVolumes(vols) && n <= |vols|
    ensures 0.0 <= PrefixVolume(vols, n) <= TotalVolume(vols)
    decreases |vols| - n
  {
    if n < |vols| {
      assert vols[n].Volume() >= 0.0;
      PrefixNonNegative(vols, n);
      PrefixBounds(vols, n + 1);
    } else {
      PrefixNonNegative(vols, n);
    }
  }

  lemma {:induction false} PrefixNonNegative(vols: seq<VolumeSpec>, n: nat)
    requires AllHaveVolume(vols) && NonNegativeVolumes(vols) && n <= |vols|
    ensures 0.0 <= PrefixVolume(vols, n)
  {
    if n > 0 {
      PrefixNonNegative(vols, n - 1);
    }
  }

  /** A proportional share is a non-negative count and never exceeds its exact share. */
  lemma CountBound(v: real, total: real, c: int)
    requires v >= 0.0 && total > 0.0
    requires c == Trunc(v / total * NParticles as real)
    ensures 0 <= c && c as real * total <= v * NParticles as real
  {
    var q := v / total;
    assert q * total == v;
    assert 0.0 <= q * NParticles as real;
    assert c as real <= q * NParticles as real;
    assert c as real * total <= q * NParticles as real * total;
  }

  lemma Accumulate(a: real, c: real, total: real, p: real, v: real)
    requires a * total <= NParticles as real * p
    requires c * total <= v * NParticles as real
    ensures (a + c) * total <= NParticles as real * (p + v)
  {
  }

  lemma AtMostBudget(a: real, total: real, p: real)
    requires total > 0.0 && p <= total
    requires a * total <= NParticles as real * p
    ensures a <= NParticles as real
  {
    assert (a - NParticles as real) * total <= 0.0;
  }

  /** Ranges laid end to end: each begins where the previous one ends. */
  predicate Chained(ranges: seq<Range>) {
    forall r :: 0 <= r < |ranges| - 1 ==> ranges[r].last == ranges[r + 1].first
  }

  /** Range `rg` carries the corner, extents and material of the cuboid `e`. */
  predicate SeededFrom(rg: Range, e: VolumeSpec) {
    e.Cube? && rg.minimum == e.minimum && rg.size == e.size && rg.material == e.material
  }

  /** The facts the seeding loop keeps about plan `p`, produced from entry `i` on with `nextP`
      slots already handed out: at most one range per remaining entry, the ranges laid end to
      end from `nextP` inside the budget, each carrying its cuboid, each non-last count the
      floor of the proportional share, and a loop that completes ends exactly at `N`. */
  predicate Bounded(p: Plan, vols: seq<VolumeSpec>, total: real, i: nat, nextP: int)
    requires AllHaveVolume(vols)
  {
    && i <= |vols|
    && |p.ranges| <= |vols| - i
    && (|p.ranges| > 0 ==> p.ranges[0].first == nextP)
    && Chained(p.ranges)
    && (forall r :: 0 <= r < |p.ranges| ==> 0 <= p.ranges[r].first <= p.ranges[r].last <= NParticles)
    && (forall r :: 0 <= r < |p.ranges| ==> SeededFrom(p.ranges[r], vols[i + r]))
    && (forall r :: 0 <= r < |p.ranges| && i + r < |vols| - 1 && total != 0.0 ==>
          p.ranges[r].last - p.ranges[r].first == (vols[i + r].Volume() / total * NParticles as real).Floor)
    && (p.error.None? && i < |vols| ==>
          |p.ranges| == |vols| - i && p.ranges[|p.ranges| - 1].last == NParticles)
  }

  /** One cuboid in front of a plan that keeps the facts gives a plan that keeps them. */
  lemma BoundedCons(vols: seq<VolumeSpec>, total: real, i: nat, nextP: int, count: int, rest: Plan, p: Plan)
    requires AllHaveVolume(vols) && i < |vols| && vols[i].Cube? && total != 0.0
    requires p == Plan([Range(nextP, nextP + count, vols[i].minimum, vols[i].size, vols[i].material)] + rest.ranges, rest.error)
    requires 0 <= nextP <= nextP + count <= NParticles
    requires i < |vols| - 1 ==> count == (vols[i].Volume() / total * NParticles as real).Floor
    requires i == |vols| - 1 ==> rest == Plan([], None) && nextP + count == NParticles
    requires Bounded(rest, vols, total, i + 1, nextP + count)
    ensures Bounded(p, vols, total, i, nextP)
  {
    forall r | 0 < r < |p.ranges|
      ensures p.ranges[r] == rest.ranges[r - 1] && i + r == (i + 1) + (r - 1)
    {
    }
  }

  /** The last cuboid takes every remaining slot, a non-negative count. */
  lemma LastStepBudget(vols: seq<VolumeSpec>, total: real, nextP: int)
    requires AllHaveVolume(vols) && NonNegativeVolumes(vols) && total == TotalVolume(vols)
    requires |vols| > 0 && total != 0.0 && 0 <= nextP
    requires nextP as real * total <= NParticles as real * PrefixVolume(vols, |vols| - 1)
    ensures nextP <= NParticles
  {
    var i := |vols| - 1;
    PrefixNonNegative(vols, i);
    assert vols[i].Volume() >= 0.0;
    AtMostBudget(nextP as real, total, PrefixVolume(vols, i));
  }

  /** A non-last cuboid takes the floor of its proportional share, which stays inside the
      budget and keeps `next_p * total` within `N` times the volume seen so far. */
  lemma ShareStepBudget(vols: seq<VolumeSpec>, total: real, i: nat, nextP: int)
    requires AllHaveVolume(vols) && NonNegativeVolumes(vols) && total == TotalVolume(vols)
    requires i < |vols| - 1 && total != 0.0 && 0 <= nextP
    requires nextP as real * total <= NParticles as real * PrefixVolume(vols, i)
    ensures var count := Trunc(vols[i].Volume() / total * NParticles as real);
      && 0 <= count && nextP + count <= NParticles
      && count == (vols[i].Volume() / total * NParticles as real).Floor
      && (nextP + count) as real * total <= NParticles as real * PrefixVolume(vols, i + 1)
  {
    PrefixBounds(vols, i + 1);
    var v := vols[i].Volume();
    assert v >= 0.0;
    var count := Trunc(v / total * NParticles as real);
    CountBound(v, total, count);
    Accumulate(nextP as real, count as real, total, PrefixVolume(vols, i), v);
    AtMostBudget((nextP + count) as real, total, PrefixVolume(vols, i + 1));
  }

  /** One turn of the seeding loop keeps the facts of `Bounded`, given that the rest of the
      loop keeps them. */
  lemma StepBounded(vols: seq<VolumeSpec>, total: real, i: nat, nextP: int)
    requires AllHaveVolume(vols) && NonNegativeVolumes(vols) && total == TotalVolume(vols)
    requires i < |vols| && vols[i].Cube? && total != 0.0 && 0 <= nextP
    requires nextP as real * total <= NParticles as real * PrefixVolume(vols, i)
    requires i < |vols| - 1 ==>
      Bounded(PlanFrom(vols, total, i + 1, nextP + ParCount(vols, total, i, nextP)), vols, total, i + 1,
              nextP + ParCount(vols, total, i, nextP))
    ensures Bounded(PlanFrom(vols, total, i, nextP), vols, total, i, nextP)
  {
    var count := ParCount(vols, total, i, nextP);
    var rest := PlanFrom(vols, total, i + 1, nextP + count);
    if i == |vols| - 1 {
      LastStepBudget(vols, total, nextP);
      assert rest == Plan([], None);
    } else {
      ShareStepBudget(vols, total, i, nextP);
    }
    BoundedCons(vols, total, i, nextP, count, rest, PlanFrom(vols, total, i, nextP));
  }

  /** Invariant of the seeding loop: while `next_p * total` stays within `N` times the volume
      seen so far, the plan from entry `i` on keeps the facts of `Bounded`. */
  lemma {:induction false} PlanFromBounded(vols: seq<VolumeSpec>, total: real, i: nat, nextP: int)
    requires AllHaveVolume(vols) && NonNegativeVolumes(vols) && total == TotalVolume(vols)
    requires i <= |vols| && 0 <= nextP
    requires nextP as real * total <= NParticles as real * PrefixVolume(vols, i)
    ensures Bounded(PlanFrom(vols, total, i, nextP), vols, total, i, nextP)
    decreases |vols| - i
  {
    if i < |vols| && vols[i].Cube? && total != 0.0 {
      if i < |vols| - 1 {
        ShareStepBudget(vols, total, i, nextP);
        PlanFromBounded(vols, total, i + 1, nextP + ParCount(vols, total, i, nextP));
      }
      StepBounded(vols, total, i, nextP);
    }
  }

  /** The ranges of a whole preset stay inside the particle budget. */
  lemma PlanBounded(vols: seq<VolumeSpec>)
    requires AllHaveVolume(vols) && NonNegativeVolumes(vols)
    ensures Bounded(InitPlan(vols), vols, TotalVolume(vols), 0, 0)
  {
    PlanFromBounded(vols, TotalVolume(vols), 0, 0);
  }

  /** Every range of a preset's plan lies inside the particle budget. */
  lemma RangeInBudget(vols: seq<VolumeSpec>, r: nat)
    requires AllHaveVolume(vols) && NonNegativeVolumes(vols)
    requires r < |InitPlan(vols).ranges|
    ensures 0 <= InitPlan(vols).ranges[r].first <= InitPlan(vols).ranges[r].last <= NParticles
  {
    PlanBounded(vols);
  }

  /** Every non-empty range lies inside the particle budget: `init_cube_vol` writes only slots
      that exist. */
  predicate InBudget(ranges: seq<Range>) {
    forall r :: 0 <= r < |ranges| && ranges[r].first < ranges[r].last ==>
      0 <= ranges[r].first && ranges[r].last <= NParticles
  }

  /** A preset with non-negative volumes hands `init_cube_vol` only ranges inside the budget. */
  lemma NonNegativeVolumesInBudget(vols: seq<VolumeSpec>)
    requires NonNegativeVolumes(vols)
    ensures InBudget(InitPlan(vols).ranges)
  {
    if AllHaveVolume(vols) {
      forall r | 0 <= r < |InitPlan(vols).ranges| {
        RangeInBudget(vols, r);
      }
    }
  }

  /** A negative volume before the last entry can push a later range below slot 0: with volumes
      -1, 1, 1 the first count is `-N`, so the second cuboid is handed `[-N, 0)`. */
  lemma NegativeVolumeLeavesBudget(lo: Vec3, m: int)
    ensures var one := Vec3(1.0, 1.0, 1.0);
      var vols := [Cube(lo, Vec3(-1.0, 1.0, 1.0), m), Cube(lo, one, m), Cube(lo, one, m)];
      && InitPlan(vols).error == None
      && InitPlan(vols).ranges[1] == Range(-NParticles, 0, lo, one, m)
      && !InBudget(InitPlan(vols).ranges)
  {
    var one := Vec3(1.0, 1.0, 1.0);
    var vols := [Cube(lo, Vec3(-1.0, 1.0, 1.0), m), Cube(lo, one, m), Cube(lo, one, m)];
    assert AllHaveVolume(vols);
    assert PrefixVolume(vols, 1) == -1.0;
    assert PrefixVolume(vols, 2) == 0.0;
    assert TotalVolume(vols) == 1.0;
    assert ParCount(vols, 1.0, 0, 0) == -NParticles;
    assert ParCount(vols, 1.0, 1, -NParticles) == NParticles;
    assert ParCount(vols, 1.0, 2, 0) == NParticles;
    assert PlanFrom(vols, 1.0, 3, NParticles) == Plan([], None);
    var last := PlanFrom(vols, 1.0, 2, 0);
    assert last == Plan([Range(0, NParticles, lo, one, m)], None);
    var rest := PlanFrom(vols, 1.0, 1, -NParticles);
    assert rest == Plan([Range(-NParticles, 0, lo, one, m)] + last.ranges, None);
    assert InitPlan(vols) == Plan([Range(0, -NParticles, lo, Vec3(-1.0, 1.0, 1.0), m)] + rest.ranges, None);
    assert InitPlan(vols).ranges[1].first < InitPlan(vols).ranges[1].last;
  }

  /** Seeding cuboid `i` moves its range from the part of the plan still to run to the ranges
      already seeded. */
  lemma PlanStep(vols: seq<VolumeSpec>, total: real, i: nat, nextP: int, done: seq<Range>)
    requires AllHaveVolume(vols) && total == TotalVolume(vols)
    requires i < |vols| && vols[i].Cube? && total != 0.0
    requires InitPlan(vols) ==
      Plan(done + PlanFrom(vols, total, i, nextP).ranges, PlanFrom(vols, total, i, nextP).error)
    ensures var count := ParCount(vols, total, i, nextP);
      var rg := Range(nextP, nextP + count, vols[i].minimum, vols[i].size, vols[i].material);
      var rest := PlanFrom(vols, total, i + 1, nextP + count);
      && InitPlan(vols) == Plan((done + [rg]) + rest.ranges, rest.error)
      && |done| < |InitPlan(vols).ranges| && InitPlan(vols).ranges[|done|] == rg
  {
    var count := ParCount(vols, total, i, nextP);
    var rg := Range(nextP, nextP + count, vols[i].minimum, vols[i].size, vols[i].material);
    var rest := PlanFrom(vols, total, i + 1, nextP + count);
    assert done + ([rg] + rest.ranges) == (done + [rg]) + rest.ranges;
  }

  /** When the loop runs out of entries or meets a failing one, the ranges already seeded are
      the whole plan. */
  lemma PlanEnds(vols: seq<VolumeSpec>, total: real, i: nat, nextP: int, done: seq<Range>)
    requires AllHaveVolume(vols) && total == TotalVolume(vols)
    requires i <= |vols| && (i == |vols| || Fails(vols[i], total))
    requires InitPlan(vols) ==
      Plan(done + PlanFrom(vols, total, i, nextP).ranges, PlanFrom(vols, total, i, nextP).error)
    ensures InitPlan(vols).ranges == done
    ensures InitPlan(vols).error ==
      (if i == |vols| then None else Some(if vols[i].Cube? then ZeroTotalVolume else NotACube))
  {
    assert done + [] == done;
  }

  /** `ranges` tile `[lo, hi)`: laid end to end from `lo` to `hi`, none reversed. */
  predicate Tiles(ranges: seq<Range>, lo: int, hi: int) {
    && |ranges| > 0
    && ranges[0].first == lo
    && ranges[|ranges| - 1].last == hi
    && Chained(ranges)
    && forall r :: 0 <= r < |ranges| ==> ranges[r].first <= ranges[r].last
  }

  /** A preset of cuboids with positive total volume seeds without error, one range per
      cuboid in order, the ranges tiling `[0, N)`, each non-last count the floor of its
      proportional share. */
  lemma PlanTiles(vols: seq<VolumeSpec>)
    requires |vols| > 0 && forall j :: 0 <= j < |vols| ==> vols[j].Cube?
    requires NonNegativeVolumes(vols) && TotalVolume(vols) > 0.0
    ensures InitPlan(vols).error == None
    ensures |InitPlan(vols).ranges| == |vols|
    ensures Tiles(InitPlan(vols).ranges, 0, NParticles)
    ensures forall r :: 0 <= r < |vols| ==> SeededFrom(InitPlan(vols).ranges[r], vols[r])
    ensures forall r :: 0 <= r < |vols| - 1 ==>
      InitPlan(vols).ranges[r].last - InitPlan(vols).ranges[r].first ==
      (vols[r].Volume() / TotalVolume(vols) * NParticles as real).Floor
  {
    var total := TotalVolume(vols);
    PlanErrorIff(vols, total, 0, 0);
    PlanFromBounded(vols, total, 0, 0);
  }

  predicate Covers(rg: Range, p: int) {
    rg.first <= p < rg.last
  }

  /** The range that seeded slot `p` last, if any: later ranges overwrite earlier ones. */
  function Owner(ranges: seq<Range>, p: int): (o: Option<nat>)
    ensures o.Some? ==>
      && o.value < |ranges| && Covers(ranges[o.value], p)
      && forall r :: o.value < r < |ranges| ==> !Covers(ranges[r], p)
    ensures o.None? ==> forall r :: 0 <= r < |ranges| ==> !Covers(ranges[r], p)
  {
    if |ranges| == 0 then None
    else if Covers(ranges[|ranges| - 1], p) then Some(|ranges| - 1)
    else Owner(ranges[..|ranges| - 1], p)
  }

  lemma {:induction false} ChainOrdered(ranges: seq<Range>, a: nat, b: nat)
    requires Chained(ranges) && forall r :: 0 <= r < |ranges| ==> ranges[r].first <= ranges[r].last
    requires a < b < |ranges|
    ensures ranges[a].last <= ranges[b].first
    decreases b - a
  {
    if a + 1 < b {
      ChainOrdered(ranges, a + 1, b);
    }
  }

  lemma {:induction false} TilingCovers(ranges: seq<Range>, lo: int, hi: int, p: int)
    requires Tiles(ranges, lo, hi) && lo <= p < hi
    ensures exists r :: 0 <= r < |ranges| && Covers(ranges[r], p)
    decreases |ranges|
  {
    var n := |ranges| - 1;
    if !Covers(ranges[n], p) {
      assert n > 0;
      var front := ranges[..n];
      assert Tiles(front, lo, ranges[n].first);
      TilingCovers(front, lo, ranges[n].first, p);
      var r :| 0 <= r < |front| && Covers(front[r], p);
      assert Covers(ranges[r], p);
    }
  }

  /** In a tiling every slot of `[lo, hi)` lies in exactly one range. */
  lemma TilingCoversOnce(ranges: seq<Range>, lo: int, hi: int, p: int)
    requires Tiles(ranges, lo, hi) && lo <= p < hi
    ensures Owner(ranges, p).Some?
    ensures forall r :: 0 <= r < |ranges| && Covers(ranges[r], p) ==> r == Owner(ranges, p).value
  {
    TilingCovers(ranges, lo, hi, p);
    var o := Owner(ranges, p).value;
    forall r | 0 <= r < |ranges| && Covers(ranges[r], p)
      ensures r == o
    {
      if r < o {
        ChainOrdered(ranges, r, o);
      }
    }
  }

  /** Seeding a preset of cuboids with positive total volume hands every slot to exactly one
      cuboid. */
  lemma EverySlotSeededOnce(vols: seq<VolumeSpec>, p: int)
    requires |vols| > 0 && forall j :: 0 <= j < |vols| ==> vols[j].Cube?
    requires NonNegativeVolumes(vols) && TotalVolume(vols) > 0.0
    requires 0 <= p < NParticles
    ensures Owner(InitPlan(vols).ranges, p).Some?
    ensures forall r :: 0 <= r < |InitPlan(vols).ranges| && Covers(InitPlan(vols).ranges[r], p) ==>
      r == Owner(InitPlan(vols).ranges, p).value
  {
    PlanTiles(vols);
    TilingCoversOnce(InitPlan(vols).ranges, 0, NParticles, p);
  }
}

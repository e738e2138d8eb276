/** The Taichi fields of the solver and the kernels that update them in place: grid zero-out,
    the mass scatter and plasticity of P2G, the grid momentum step, and the particle
    initialisation and colouring kernels. Taichi's parallel loops run here as sequential loops. */
module Simulation {
  import opened Common
  import opened Kernel
  import opened Grid
  import opened Plasticity
  import opened Scatter
  import opened Seeding

  const AbyssVec: Vec3 := Vec3(Abyss, Abyss, Abyss)

  /** Position of a particle seeded in a cuboid: `sample * size + minimum`, component-wise, where
      `sample` stands for the three draws of `ti.random()`. */
  function Place(sample: Vec3, minimum: Vec3, size: Vec3): (r: Vec3)
    ensures 0.0 <= sample.x <= 1.0 && size.x >= 0.0 ==> minimum.x <= r.x <= minimum.x + size.x
    ensures 0.0 <= sample.y <= 1.0 && size.y >= 0.0 ==> minimum.y <= r.y <= minimum.y + size.y
    ensures 0.0 <= sample.z <= 1.0 && size.z >= 0.0 ==> minimum.z <= r.z <= minimum.z + size.z
  {
    ScaleWithin(sample.x, size.x);
    ScaleWithin(sample.y, size.y);
    ScaleWithin(sample.z, size.z);
    Vec3(sample.x * size.x + minimum.x, sample.y * size.y + minimum.y, sample.z * size.z + minimum.z)
  }

  lemma ScaleWithin(t: real, s: real)
    ensures 0.0 <= t <= 1.0 && s >= 0.0 ==> 0.0 <= t * s <= s
  {
    if 0.0 <= t <= 1.0 && s >= 0.0 {
      assert t * s <= 1.0 * s;
    }
  }

  /** The body of `substep_grid` for one node `I` of positive mass `m` and momentum `p`:
      momentum to velocity, gravity on y, then the six boundary tests in order. */
  method NodeStep(I: Index3, m: real, p: Vec3, gravity: real) returns (u: Vec3)
    requires m > 0.0
    ensures u == NodeUpdate(I, m, p, gravity)
  {
    u := Vec3((1.0 / m) * p.x, (1.0 / m) * p.y, (1.0 / m) * p.z);
    u := u.(y := u.y + Dt * gravity);
    ghost var free := u;
    assert free == FreeVelocity(m, p, gravity);
    if I.i < Bound && u.x < 0.0 { u := u.(x := 0.0); }
    if I.i > NGrid - Bound && u.x > 0.0 { u := u.(x := 0.0); }
    assert u == free.(x := ClampAxis(I.i, free.x));
    if I.j < Bound && u.y < 0.0 { u := u.(y := 0.0); }
    if I.j > NGrid - Bound && u.y > 0.0 { u := u.(y := 0.0); }
    assert u == free.(x := ClampAxis(I.i, free.x), y := ClampAxis(I.j, free.y));
    if I.k < Bound && u.z < 0.0 { u := u.(z := 0.0); }
    if I.k > NGrid - Bound && u.z > 0.0 { u := u.(z := 0.0); }
    assert u == Vec3(ClampAxis(I.i, free.x), ClampAxis(I.j, free.y), ClampAxis(I.k, free.z));
  }

  /** The loop `for v in vols: total_vol += v.volume`, which fails on an entry without a
      `volume` attribute. */
  method SumVolumes(vols: seq<VolumeSpec>) returns (total: Option<real>)
    ensures total.Some? <==> AllHaveVolume(vols)
    ensures total.Some? ==> total.value == TotalVolume(vols)
  {
    var sum := 0.0;
    for i := 0 to |vols|
      invariant forall j :: 0 <= j < i ==> vols[j].HasVolume()
      invariant sum == PrefixVolume(vols, i)
    {
      if vols[i].Shapeless? {
        return None;
      }
      sum := sum + vols[i].Volume();
    }
    return Some(sum);
  }

  /** `Jp` of a particle after P2G: plasticity runs for particles in use that are not water. */
  function JpAfterP2G(used: int, material: int, sig: seq<real>, jp: real): real
    requires used != 0 && material != Water ==> Divisible(material, sig)
  {
    if used != 0 && material != Water then JpAfter(material, sig, jp) else jp
  }

  /** The particle and grid fields. Grid fields are stored flat, node `I` at `Idx(I)`. */
  class Fields {
    const x: array<Vec3>
    const v: array<Vec3>
    const C: array<Mat3>
    const F: array<Mat3>
    const Jp: array<real>
    const materials: array<int>
    const isUsed: array<int>
    const colors: array<Rgba>
    const gridV: array<Vec3>
    const gridM: array<real>

    predicate Valid() {
      && x.Length == NParticles && v.Length == NParticles
      && C.Length == NParticles && F.Length == NParticles
      && Jp.Length == NParticles && materials.Length == NParticles
      && isUsed.Length == NParticles && colors.Length == NParticles
      && gridV.Length == Cells && gridM.Length == Cells
      && x != v && x != gridV && v != gridV && C != F && Jp != gridM && materials != isUsed
    }

    /** Taichi fields start zero-filled. */
    constructor ()
      ensures Valid()
      ensures forall p :: 0 <= p < NParticles ==>
        && x[p] == ZeroVec && v[p] == ZeroVec && C[p] == ZeroMat && F[p] == ZeroMat
        && Jp[p] == 0.0 && materials[p] == 0 && isUsed[p] == 0 && colors[p] == Rgba(0.0, 0.0, 0.0, 0.0)
      ensures forall c :: 0 <= c < Cells ==> gridV[c] == ZeroVec && gridM[c] == 0.0
    {
      x := new Vec3[NParticles](_ => ZeroVec);
      v := new Vec3[NParticles](_ => ZeroVec);
      C := new Mat3[NParticles](_ => ZeroMat);
      F := new Mat3[NParticles](_ => ZeroMat);
      Jp := new real[NParticles](_ => 0.0);
      materials := new int[NParticles](_ => 0);
      isUsed := new int[NParticles](_ => 0);
      colors := new Rgba[NParticles](_ => Rgba(0.0, 0.0, 0.0, 0.0));
      gridV := new Vec3[Cells](_ => ZeroVec);
      gridM := new real[Cells](_ => 0.0);
    }

    /** `substep_zero_out`: every node gets mass 0 and velocity (0, 0, 0). */
    method ZeroOut()
      requires Valid()
      modifies gridV, gridM
      ensures forall c :: 0 <= c < Cells ==> gridV[c] == ZeroVec && gridM[c] == 0.0
      ensures Sum(gridM[..]) == 0.0
    {
      for c := 0 to Cells
        invariant forall d :: 0 <= d < c ==> gridV[d] == ZeroVec && gridM[d] == 0.0
      {
        gridV[c] := ZeroVec;
        gridM[c] := 0.0;
      }
      SumZeros(gridM[..]);
    }

    /** `grid_m[n] += d`, the atomic add of the scatter. */
    method AddMass(n: int, d: real)
      requires Valid() && 0 <= n < Cells
      modifies gridM
      ensures gridM[..] == old(gridM[..])[n := old(gridM[n]) + d]
    {
      gridM[n] := gridM[n] + d;
    }

    /** The mass adds of stencil row `(i, j)`: nodes `base + (i, j, 0..2)`. */
    method ScatterRow(s: Stencil, i: nat, j: nat)
      requires Valid() && StencilInGrid(s) && i < 3 && j < 3
      modifies gridM
      ensures gridM[..] == DepositK(old(gridM[..]), s, i, j, 3)
    {
      ghost var g := gridM[..];
      var w := KernelWeights(s.fx);
      for k := 0 to 3
        invariant gridM[..] == DepositK(g, s, i, j, k)
      {
        var n := Idx(Node(s, i, j, k));
        AddAtSlot(gridM[..], s, i, j, k, n);
        AddMass(n, Weight(w, i, j, k) * PMass);
      }
    }

    /** The mass adds of stencil plane `i`: nodes `base + (i, 0..2, 0..2)`. */
    method ScatterPlane(s: Stencil, i: nat)
      requires Valid() && StencilInGrid(s) && i < 3
      modifies gridM
      ensures gridM[..] == DepositJ(old(gridM[..]), s, i, 3)
    {
      ghost var g := gridM[..];
      for j := 0 to 3
        invariant gridM[..] == DepositJ(g, s, i, j)
      {
        ScatterRow(s, i, j);
      }
    }

    /** The 27 mass adds of one particle with stencil `s`, in the order of `ndrange(3, 3, 3)`. */
    method ScatterMass(s: Stencil)
      requires Valid() && StencilInGrid(s)
      modifies gridM
      ensures gridM[..] == Deposit(old(gridM[..]), s)
    {
      ghost var g := gridM[..];
      for i := 0 to 3
        invariant gridM[..] == DepositI(g, s, i)
      {
        ScatterPlane(s, i);
      }
    }

    /** `substep_p2g` restricted to plasticity and mass: each particle in use runs the
        plasticity loop on its singular values `sigma[p]` unless it is water, then scatters its
        mass. */
    method SubstepP2G(sigma: seq<seq<real>>)
      requires Valid() && |sigma| == NParticles
      requires UsedInGrid(x[..], isUsed[..])
      requires forall p :: 0 <= p < NParticles && isUsed[p] != 0 && materials[p] != Water ==>
        |sigma[p]| == 3 && Divisible(materials[p], sigma[p])
      modifies gridM, Jp
      ensures gridM[..] == Scattered(old(gridM[..]), x[..], isUsed[..], NParticles)
      ensures Sum(gridM[..]) == Sum(old(gridM[..])) + PMass * UsedCount(isUsed[..]) as real
      ensures forall p :: 0 <= p < NParticles ==>
        Jp[p] == JpAfterP2G(isUsed[p], materials[p], sigma[p], old(Jp[p]))
    {
      ghost var g := gridM[..];
      for p := 0 to NParticles
        invariant gridM[..] == Scattered(g, x[..], isUsed[..], p)
        invariant forall q :: 0 <= q < p ==> Jp[q] == JpAfterP2G(isUsed[q], materials[q], sigma[q], old(Jp[q]))
        invariant forall q :: p <= q < NParticles ==> Jp[q] == old(Jp[q])
      {
        if isUsed[p] != 0 {
          var s := Locate(x[p]);
          if materials[p] != Water {
            var newSig, newJp, J := PlasticityUpdate(materials[p], sigma[p], Jp[p]);
            Jp[p] := newJp;
          }
          ScatterMass(s);
        }
      }
      ScatteredTotal(g, x[..], isUsed[..], NParticles);
      assert isUsed[..][..NParticles] == isUsed[..];
    }

    /** `substep_grid`: a node with positive mass turns its momentum into velocity, receives
        gravity on y, and has each outward component zeroed in the boundary bands. */
    method SubstepGrid(gravity: real)
      requires Valid()
      modifies gridV
      ensures forall c :: 0 <= c < Cells ==>
        gridV[c] == NodeUpdate(Coord(c), gridM[c], old(gridV[c]), gravity)
    {
      for c := 0 to Cells
        invariant forall d :: 0 <= d < c ==> gridV[d] == NodeUpdate(Coord(d), gridM[d], old(gridV[d]), gravity)
        invariant forall d :: c <= d < Cells ==> gridV[d] == old(gridV[d])
      {
        if gridM[c] > 0.0 {
          var u := NodeStep(Coord(c), gridM[c], gridV[c], gravity);
          gridV[c] := u;
        }
      }
    }

    /** Slot `p` in the state `set_all_unused` leaves it in. */
    predicate Parked(p: int)
      requires Valid() && 0 <= p < NParticles
      reads isUsed, x, Jp, F, C, v
    {
      isUsed[p] == 0 && x[p] == AbyssVec && Jp[p] == 1.0 && F[p] == Identity && C[p] == ZeroMat && v[p] == ZeroVec
    }

    /** `set_all_unused`: every slot unused, parked in the abyss, with `Jp = 1`, `F = I`,
        `C = 0` and `v = 0`. Materials and colours are kept. */
    method SetAllUnused()
      requires Valid()
      modifies isUsed, x, Jp, F, C, v
      ensures forall p :: 0 <= p < NParticles ==> Parked(p)
    {
      for p := 0 to NParticles
        invariant forall q :: 0 <= q < p ==>
          isUsed[q] == 0 && x[q] == AbyssVec && Jp[q] == 1.0 && F[q] == Identity && C[q] == ZeroMat && v[q] == ZeroVec
      {
        isUsed[p] := 0;
        x[p] := AbyssVec;
        Jp[p] := 1.0;
        F[p] := Identity;
        C[p] := ZeroMat;
        v[p] := ZeroVec;
      }
    }

    /** Slot `p` freshly seeded from the cuboid `minimum`, `size`, `material` with draws `sample`. */
    predicate SeededSlot(p: int, minimum: Vec3, size: Vec3, material: int, sample: Vec3)
      requires Valid() && 0 <= p < NParticles
      reads x, Jp, F, v, materials, isUsed
    {
      && x[p] == Place(sample, minimum, size) && Jp[p] == 1.0 && F[p] == Identity && v[p] == ZeroVec
      && materials[p] == material && isUsed[p] == 1
    }

    /** `init_cube_vol`: slots `[first, last)` are seeded from the cuboid; every other slot,
        and `C` everywhere, is left as it was. */
    method InitCubeVol(first: int, last: int, minimum: Vec3, size: Vec3, material: int, samples: seq<Vec3>)
      requires Valid() && |samples| == NParticles
      requires first < last ==> 0 <= first && last <= NParticles
      modifies x, Jp, F, v, materials, isUsed
      ensures forall p :: 0 <= p < NParticles && first <= p < last ==>
        SeededSlot(p, minimum, size, material, samples[p])
      ensures forall p :: 0 <= p < NParticles && !(first <= p < last) ==>
        && x[p] == old(x[p]) && Jp[p] == old(Jp[p]) && F[p] == old(F[p]) && v[p] == old(v[p])
        && materials[p] == old(materials[p]) && isUsed[p] == old(isUsed[p])
    {
      if first < last {
        for i := first to last
          invariant forall p :: first <= p < i ==> SeededSlot(p, minimum, size, material, samples[p])
          invariant forall p :: 0 <= p < NParticles && !(first <= p < i) ==>
            && x[p] == old(x[p]) && Jp[p] == old(Jp[p]) && F[p] == old(F[p]) && v[p] == old(v[p])
            && materials[p] == old(materials[p]) && isUsed[p] == old(isUsed[p])
        {
          x[i] := Place(samples[i], minimum, size);
          Jp[i] := 1.0;
          F[i] := Identity;
          v[i] := ZeroVec;
          materials[i] := material;
          isUsed[i] := 1;
        }
      }
    }

    /** Slot `p` after the ranges `ranges` have been seeded, in order, on top of
        `set_all_unused`: the range that seeded it last decides its position and material; a slot
        no range reached stays parked with its old material. */
    predicate SlotAfter(p: int, ranges: seq<Range>, samples: seq<Vec3>, oldMaterial: int)
      requires Valid() && 0 <= p < NParticles && |samples| == NParticles
      reads isUsed, x, Jp, F, C, v, materials
    {
      && Jp[p] == 1.0 && F[p] == Identity && C[p] == ZeroMat && v[p] == ZeroVec
      && match Owner(ranges, p)
         case Some(r) =>
           x[p] == Place(samples[p], ranges[r].minimum, ranges[r].size)
           && materials[p] == ranges[r].material && isUsed[p] == 1
         case None =>
           x[p] == AbyssVec && materials[p] == oldMaterial && isUsed[p] == 0
    }

    /** Seeding one more range `rg` on top of the ranges `done` leaves every slot as the ranges
        `done + [rg]` describe. */
    method SeedRange(ghost done: seq<Range>, rg: Range, samples: seq<Vec3>, ghost oldMaterials: seq<int>)
      requires Valid() && |samples| == NParticles && |oldMaterials| == NParticles
      requires rg.first < rg.last ==> 0 <= rg.first && rg.last <= NParticles
      requires forall p :: 0 <= p < NParticles ==> SlotAfter(p, done, samples, oldMaterials[p])
      modifies x, Jp, F, v, materials, isUsed
      ensures forall p :: 0 <= p < NParticles ==> SlotAfter(p, done + [rg], samples, oldMaterials[p])
    {
      InitCubeVol(rg.first, rg.last, rg.minimum, rg.size, rg.material, samples);
      forall p | 0 <= p < NParticles
        ensures SlotAfter(p, done + [rg], samples, oldMaterials[p])
      {
        assert (done + [rg])[..|done|] == done;
      }
    }

    /** One turn of the seeding loop of `init_vols` for the cuboid `i`, with `nextP` slots
        handed out so far: `par_count` is its share of the budget (every remaining slot for the
        last entry), and `init_cube_vol` seeds the range `rg` of that many slots. */
    method SeedCuboid(vols: seq<VolumeSpec>, samples: seq<Vec3>, total: real, i: nat, nextP: int,
                      ghost done: seq<Range>, ghost oldMaterials: seq<int>) returns (rg: Range)
      requires Valid() && |samples| == NParticles && |oldMaterials| == NParticles
      requires AllHaveVolume(vols) && total == TotalVolume(vols)
      requires i < |vols| && vols[i].Cube? && total != 0.0
      requires InBudget(InitPlan(vols).ranges)
      requires InitPlan(vols) ==
        Plan(done + PlanFrom(vols, total, i, nextP).ranges, PlanFrom(vols, total, i, nextP).error)
      requires forall p :: 0 <= p < NParticles ==> SlotAfter(p, done, samples, oldMaterials[p])
      modifies x, Jp, F, v, materials, isUsed
      ensures rg == Range(nextP, nextP + ParCount(vols, total, i, nextP), vols[i].minimum, vols[i].size, vols[i].material)
      ensures InitPlan(vols) ==
        Plan((done + [rg]) + PlanFrom(vols, total, i + 1, rg.last).ranges, PlanFrom(vols, total, i + 1, rg.last).error)
      ensures forall p :: 0 <= p < NParticles ==> SlotAfter(p, done + [rg], samples, oldMaterials[p])
    {
      var parCount := Trunc(vols[i].Volume() / total * NParticles as real);
      if i == |vols| - 1 {
        parCount := NParticles - nextP;
      }
      assert parCount == ParCount(vols, total, i, nextP);
      rg := Range(nextP, nextP + parCount, vols[i].minimum, vols[i].size, vols[i].material);
      PlanStep(vols, total, i, nextP, done);
      assert InitPlan(vols).ranges[|done|] == rg;
      SeedRange(done, rg, samples, oldMaterials);
    }

    /** `init_vols`: park every slot, sum the volumes, then seed one range per cuboid as
        `InitPlan` lays them out, stopping at the first entry that raises. `samples[p]` stands
        for the random draws of slot `p`. */
    method InitVols(vols: seq<VolumeSpec>, samples: seq<Vec3>) returns (err: Option<InitError>)
      requires Valid() && |samples| == NParticles
      requires InBudget(InitPlan(vols).ranges)
      modifies isUsed, x, Jp, F, C, v, materials
      ensures err == InitPlan(vols).error
      ensures forall p :: 0 <= p < NParticles ==> SlotAfter(p, InitPlan(vols).ranges, samples, old(materials[p]))
    {
      ghost var oldMaterials := materials[..];
      SetAllUnused();
      forall p | 0 <= p < NParticles
        ensures SlotAfter(p, [], samples, oldMaterials[p])
      {
        assert Parked(p);
      }
      var summed := SumVolumes(vols);
      if summed.None? {
        assert InitPlan(vols).ranges == [];
        return Some(MissingVolume);
      }
      var total := summed.value;
      var nextP := 0;
      ghost var done: seq<Range> := [];
      for i := 0 to |vols|
        invariant total == TotalVolume(vols)
        invariant InitPlan(vols) ==
          Plan(done + PlanFrom(vols, total, i, nextP).ranges, PlanFrom(vols, total, i, nextP).error)
        invariant forall p :: 0 <= p < NParticles ==> SlotAfter(p, done, samples, oldMaterials[p])
      {
        if !vols[i].Cube? {
          PlanEnds(vols, total, i, nextP, done);
          return Some(NotACube);
        }
        if total == 0.0 {
          PlanEnds(vols, total, i, nextP, done);
          return Some(ZeroTotalVolume);
        }
        var rg := SeedCuboid(vols, samples, total, i, nextP, done, oldMaterials);
        done := done + [rg];
        nextP := rg.last;
      }
      PlanEnds(vols, total, |vols|, nextP, done);
      return None;
    }

    /** `set_color_by_material`: each particle takes the colour of its material, opaque. */
    method SetColorByMaterial(matColor: seq<Vec3>)
      requires Valid()
      requires forall p :: 0 <= p < NParticles ==> 0 <= materials[p] < |matColor|
      modifies colors
      ensures forall p :: 0 <= p < NParticles ==>
        var rgb := matColor[materials[p]]; colors[p] == Rgba(rgb.x, rgb.y, rgb.z, 1.0)
    {
      for i := 0 to NParticles
        invariant forall p :: 0 <= p < i ==>
          var rgb := matColor[materials[p]]; colors[p] == Rgba(rgb.x, rgb.y, rgb.z, 1.0)
      {
        var mat := materials[i];
        colors[i] := Rgba(matColor[mat].x, matColor[mat].y, matColor[mat].z, 1.0);
      }
    }
  }
}

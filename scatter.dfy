/** The mass half of the particle-to-grid transfer as functions on the flattened `grid_m`: one
    particle deposits `weight * p_mass` on each of its 27 stencil nodes, and a sweep over the
    particles deposits for every particle whose `is_used` flag is set. */
module Scatter {
  import opened Common
  import opened Kernel
  import opened Grid

  /** The nodes `base + {0,1,2}^3` all lie inside the grid. */
  predicate StencilInGrid(s: Stencil) {
    && 0 <= s.base.i && s.base.i + 2 < NGrid
    && 0 <= s.base.j && s.base.j + 2 < NGrid
    && 0 <= s.base.k && s.base.k + 2 < NGrid
  }

  /** The stencil node `pos = base + offset` for offset `(i, j, k)`. */
  function Node(s: Stencil, i: nat, j: nat, k: nat): Index3 {
    Index3(s.base.i + i, s.base.j + j, s.base.k + k)
  }

  /** `grid_m[base + (i, j, k)] += weight * p_mass`. */
  function AddAt(g: seq<real>, s: Stencil, i: nat, j: nat, k: nat): (r: seq<real>)
    requires |g| == Cells && StencilInGrid(s) && i < 3 && j < 3 && k < 3
    ensures |r| == Cells
  {
    CoordOfIdx(Node(s, i, j, k));
    var n := Idx(Node(s, i, j, k));
    g[n := g[n] + Weight(KernelWeights(s.fx), i, j, k) * PMass]
  }

  /** `AddAt` raises exactly the slot `n` of node `base + (i, j, k)` by its weight times `p_mass`. */
  lemma AddAtSlot(g: seq<real>, s: Stencil, i: nat, j: nat, k: nat, n: int)
    requires |g| == Cells && StencilInGrid(s) && i < 3 && j < 3 && k < 3
    requires n == Idx(Node(s, i, j, k))
    ensures 0 <= n < Cells
    ensures AddAt(g, s, i, j, k) == g[n := g[n] + Weight(KernelWeights(s.fx), i, j, k) * PMass]
  {
    CoordOfIdx(Node(s, i, j, k));
  }

  /** The first `n` values of `k` for fixed `(i, j)`. */
  function DepositK(g: seq<real>, s: Stencil, i: nat, j: nat, n: nat): (r: seq<real>)
    requires |g| == Cells && StencilInGrid(s) && i < 3 && j < 3 && n <= 3
    ensures |r| == Cells
  {
    if n == 0 then g else AddAt(DepositK(g, s, i, j, n - 1), s, i, j, n - 1)
  }

  /** The first `n` rows `j` for fixed `i`. */
  function DepositJ(g: seq<real>, s: Stencil, i: nat, n: nat): (r: seq<real>)
    requires |g| == Cells && StencilInGrid(s) && i < 3 && n <= 3
    ensures |r| == Cells
  {
    if n == 0 then g else DepositK(DepositJ(g, s, i, n - 1), s, i, n - 1, 3)
  }

  /** The first `n` planes `i`. */
  function DepositI(g: seq<real>, s: Stencil, n: nat): (r: seq<real>)
    requires |g| == Cells && StencilInGrid(s) && n <= 3
    ensures |r| == Cells
  {
    if n == 0 then g else DepositJ(DepositI(g, s, n - 1), s, n - 1, 3)
  }

  /** The grid masses after one particle's scatter, in the order of `ti.ndrange(3, 3, 3)`. */
  function Deposit(g: seq<real>, s: Stencil): (r: seq<real>)
    requires |g| == Cells && StencilInGrid(s)
    ensures |r| == Cells
  {
    DepositI(g, s, 3)
  }

  lemma {:induction false} DepositKTotal(g: seq<real>, s: Stencil, i: nat, j: nat, n: nat)
    requires |g| == Cells && StencilInGrid(s) && i < 3 && j < 3 && n <= 3
    ensures Sum(DepositK(g, s, i, j, n)) == Sum(g) + PMass * SumK(KernelWeights(s.fx), i, j, n)
  {
    if n > 0 {
      DepositKTotal(g, s, i, j, n - 1);
      var h := DepositK(g, s, i, j, n - 1);
      CoordOfIdx(Node(s, i, j, n - 1));
      SumUpdate(h, Idx(Node(s, i, j, n - 1)), Weight(KernelWeights(s.fx), i, j, n - 1) * PMass);
    }
  }

  lemma {:induction false} DepositJTotal(g: seq<real>, s: Stencil, i: nat, n: nat)
    requires |g| == Cells && StencilInGrid(s) && i < 3 && n <= 3
    ensures Sum(DepositJ(g, s, i, n)) == Sum(g) + PMass * SumJ(KernelWeights(s.fx), i, n)
  {
    if n > 0 {
      DepositJTotal(g, s, i, n - 1);
      DepositKTotal(DepositJ(g, s, i, n - 1), s, i, n - 1, 3);
    }
  }

  lemma {:induction false} DepositITotal(g: seq<real>, s: Stencil, n: nat)
    requires |g| == Cells && StencilInGrid(s) && n <= 3
    ensures Sum(DepositI(g, s, n)) == Sum(g) + PMass * SumI(KernelWeights(s.fx), n)
  {
    if n > 0 {
      DepositITotal(g, s, n - 1);
      DepositJTotal(DepositI(g, s, n - 1), s, n - 1, 3);
    }
  }

  /** One particle's scatter adds exactly `p_mass` to the total grid mass. */
  lemma DepositTotal(g: seq<real>, s: Stencil)
    requires |g| == Cells && StencilInGrid(s)
    ensures Sum(Deposit(g, s)) == Sum(g) + PMass
  {
    DepositITotal(g, s, 3);
    StencilWeightsSumToOne(s.fx);
  }

  /** The kernel weight the stencil `s` gives node `c`: `w[i][0] * w[j][1] * w[k][2]` for
      `c = base + (i, j, k)`, and zero for a node outside the stencil. */
  function NodeWeight(s: Stencil, c: Index3): real {
    var di, dj, dk := c.i - s.base.i, c.j - s.base.j, c.k - s.base.k;
    if 0 <= di < 3 && 0 <= dj < 3 && 0 <= dk < 3 then Weight(KernelWeights(s.fx), di, dj, dk)
    else 0.0
  }

  /** Node `c` lies in the part `[iLo, iHi) x [jLo, jHi) x [kLo, kHi)` of the stencil. */
  predicate InBox(s: Stencil, c: Index3, iLo: int, iHi: int, jLo: int, jHi: int, kLo: int, kHi: int) {
    && s.base.i + iLo <= c.i < s.base.i + iHi
    && s.base.j + jLo <= c.j < s.base.j + jHi
    && s.base.k + kLo <= c.k < s.base.k + kHi
  }

  lemma {:induction false} DepositKAt(g: seq<real>, s: Stencil, i: nat, j: nat, n: nat, c: int)
    requires |g| == Cells && StencilInGrid(s) && i < 3 && j < 3 && n <= 3 && 0 <= c < Cells
    ensures DepositK(g, s, i, j, n)[c] ==
      g[c] + (if InBox(s, Coord(c), i, i + 1, j, j + 1, 0, n) then PMass * NodeWeight(s, Coord(c)) else 0.0)
  {
    if n > 0 {
      DepositKAt(g, s, i, j, n - 1, c);
      var node := Node(s, i, j, n - 1);
      AddAtSlot(DepositK(g, s, i, j, n - 1), s, i, j, n - 1, Idx(node));
      CoordOfIdx(node);
      IdxOfCoord(c);
      if c == Idx(node) {
        assert Coord(c) == node;
      } else {
        assert Coord(c) != node;
      }
    }
  }

  lemma {:induction false} DepositJAt(g: seq<real>, s: Stencil, i: nat, n: nat, c: int)
    requires |g| == Cells && StencilInGrid(s) && i < 3 && n <= 3 && 0 <= c < Cells
    ensures DepositJ(g, s, i, n)[c] ==
      g[c] + (if InBox(s, Coord(c), i, i + 1, 0, n, 0, 3) then PMass * NodeWeight(s, Coord(c)) else 0.0)
  {
    if n > 0 {
      DepositJAt(g, s, i, n - 1, c);
      DepositKAt(DepositJ(g, s, i, n - 1), s, i, n - 1, 3, c);
    }
  }

  lemma {:induction false} DepositIAt(g: seq<real>, s: Stencil, n: nat, c: int)
    requires |g| == Cells && StencilInGrid(s) && n <= 3 && 0 <= c < Cells
    ensures DepositI(g, s, n)[c] ==
      g[c] + (if InBox(s, Coord(c), 0, n, 0, 3, 0, 3) then PMass * NodeWeight(s, Coord(c)) else 0.0)
  {
    if n > 0 {
      DepositIAt(g, s, n - 1, c);
      DepositJAt(DepositI(g, s, n - 1), s, n - 1, 3, c);
    }
  }

  /** One particle's scatter adds `weight * p_mass` to each of its 27 stencil nodes and leaves
      every other node as it was; on the kernel's range no node loses mass. */
  lemma DepositAt(g: seq<real>, s: Stencil, c: int)
    requires |g| == Cells && StencilInGrid(s) && 0 <= c < Cells
    ensures Deposit(g, s)[c] == g[c] + PMass * NodeWeight(s, Coord(c))
    ensures !InBox(s, Coord(c), 0, 3, 0, 3, 0, 3) ==> Deposit(g, s)[c] == g[c]
    ensures 0.5 <= s.fx.x <= 1.5 && 0.5 <= s.fx.y <= 1.5 && 0.5 <= s.fx.z <= 1.5 ==> Deposit(g, s)[c] >= g[c]
  {
    DepositIAt(g, s, 3, c);
    var d := Coord(c);
    if InBox(s, d, 0, 3, 0, 3, 0, 3) && 0.5 <= s.fx.x <= 1.5 && 0.5 <= s.fx.y <= 1.5 && 0.5 <= s.fx.z <= 1.5 {
      StencilWeightsNonNegative(s.fx, d.i - s.base.i, d.j - s.base.j, d.k - s.base.k);
    }
  }

  /** Every particle flagged in use has its whole stencil inside the grid. */
  predicate UsedInGrid(xs: seq<Vec3>, used: seq<int>) {
    |xs| == |used| && forall p :: 0 <= p < |xs| && used[p] != 0 ==> StencilInGrid(Locate(xs[p]))
  }

  /** The grid masses after the sweep `for p in x: if is_used[p]: ...` has visited the first `n`
      particles. */
  function Scattered(g: seq<real>, xs: seq<Vec3>, used: seq<int>, n: nat): (r: seq<real>)
    requires |g| == Cells && UsedInGrid(xs, used) && n <= |xs|
    ensures |r| == Cells
  {
    if n == 0 then g
    else
      var h := Scattered(g, xs, used, n - 1);
      if used[n - 1] != 0 then Deposit(h, Locate(xs[n - 1])) else h
  }

  /** Number of slots whose `is_used` flag is set. */
  function UsedCount(used: seq<int>): nat {
    if |used| == 0 then 0
    else UsedCount(used[..|used| - 1]) + (if used[|used| - 1] != 0 then 1 else 0)
  }

  /** Kernel weight node `c` receives from the first `n` particles in use. */
  function NodeMass(xs: seq<Vec3>, used: seq<int>, c: Index3, n: nat): real
    requires |xs| == |used| && n <= |xs|
  {
    if n == 0 then 0.0
    else NodeMass(xs, used, c, n - 1) + (if used[n - 1] != 0 then NodeWeight(Locate(xs[n - 1]), c) else 0.0)
  }

  /** The sweep adds exactly `p_mass` to the total grid mass for every particle in use, and
      nothing for the others. */
  lemma {:induction false} ScatteredTotal(g: seq<real>, xs: seq<Vec3>, used: seq<int>, n: nat)
    requires |g| == Cells && UsedInGrid(xs, used) && n <= |xs|
    ensures Sum(Scattered(g, xs, used, n)) == Sum(g) + PMass * UsedCount(used[..n]) as real
  {
    if n > 0 {
      ScatteredTotal(g, xs, used, n - 1);
      assert used[..n][..n - 1] == used[..n - 1];
      if used[n - 1] != 0 {
        DepositTotal(Scattered(g, xs, used, n - 1), Locate(xs[n - 1]));
      }
    }
  }

  /** After the sweep, node `c` holds its old mass plus `p_mass` times the kernel weights the
      particles in use give it. */
  lemma {:induction false} ScatteredAt(g: seq<real>, xs: seq<Vec3>, used: seq<int>, n: nat, c: int)
    requires |g| == Cells && UsedInGrid(xs, used) && n <= |xs| && 0 <= c < Cells
    ensures Scattered(g, xs, used, n)[c] == g[c] + PMass * NodeMass(xs, used, Coord(c), n)
  {
    if n > 0 {
      ScatteredAt(g, xs, used, n - 1, c);
      if used[n - 1] != 0 {
        DepositAt(Scattered(g, xs, used, n - 1), Locate(xs[n - 1]), c);
      }
    }
  }
}

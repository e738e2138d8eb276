/** Addressing of the n_grid^3 background grid and the per-node momentum step with gravity
    and the box boundary condition. */
module Grid {
  import opened Common

  /** A coordinate addresses a node of the grid: every component in [0, n_grid). */
  predicate InGrid(c: Index3) {
    0 <= c.i < NGrid && 0 <= c.j < NGrid && 0 <= c.k < NGrid
  }

  /** Row-major position of node `c` in the flattened grid storage. */
  function Idx(c: Index3): int {
    (c.i * NGrid + c.j) * NGrid + c.k
  }

  /** The coordinate `I` of the node stored at flat position `n`. */
  function Coord(n: int): Index3 {
    Index3(n / (NGrid * NGrid), (n / NGrid) % NGrid, n % NGrid)
  }

  /** Every node has a storage slot, and the slot gives the node back. */
  lemma CoordOfIdx(c: Index3)
    requires InGrid(c)
    ensures 0 <= Idx(c) < Cells && Coord(Idx(c)) == c
  {
    var n := Idx(c);
    assert n == c.i * 16384 + c.j * 128 + c.k;
    assert 0 <= c.j * 128 + c.k < 16384;
    assert n / 16384 == c.i;
    assert n / 128 == c.i * 128 + c.j;
    assert (n / 128) % 128 == c.j;
    assert n % 128 == c.k;
  }

  /** Every storage slot holds a node, and the node is stored at that slot. */
  lemma IdxOfCoord(n: int)
    requires 0 <= n < Cells
    ensures InGrid(Coord(n)) && Idx(Coord(n)) == n
  {
    var q := n / 128;
    assert n == q * 128 + n % 128;
    assert q == (q / 128) * 128 + q % 128;
    assert n / 16384 == q / 128;
  }

  /** The boundary rule along one axis for a node at coordinate `ia` with velocity component
      `va`: in the lower band (`ia < bound`) a component pointing down the axis is zeroed, and
      then in the upper band (`ia > n_grid - bound`) a component pointing up the axis is zeroed.
      Inward-pointing components are kept. */
  function ClampAxis(ia: int, va: real): (r: real)
    ensures ia < Bound ==> r >= 0.0
    ensures ia > NGrid - Bound ==> r <= 0.0
    ensures r != va ==> r == 0.0
    ensures r == va <==> !((ia < Bound && va < 0.0) || (ia > NGrid - Bound && va > 0.0))
  {
    var v1 := if ia < Bound && va < 0.0 then 0.0 else va;
    if ia > NGrid - Bound && v1 > 0.0 then 0.0 else v1
  }

  /** Velocity of a massive node before the boundary rule: momentum times `1 / m`, then
      `dt * gravity` added to the y component. */
  function FreeVelocity(m: real, p: Vec3, gravity: real): (u: Vec3)
    requires m > 0.0
    ensures m * u.x == p.x && m * u.z == p.z && m * (u.y - Dt * gravity) == p.y
  {
    var inv := 1.0 / m;
    Vec3(inv * p.x, inv * p.y + Dt * gravity, inv * p.z)
  }

  /** The momentum step of one node with coordinate `c`, mass `m` and accumulated momentum `p`. */
  function NodeUpdate(c: Index3, m: real, p: Vec3, gravity: real): (r: Vec3)
    ensures m <= 0.0 ==> r == p
    ensures m > 0.0 ==> forall a :: 0 <= a < 3 ==>
      && (c.Get(a) < Bound ==> r.Get(a) >= 0.0)
      && (c.Get(a) > NGrid - Bound ==> r.Get(a) <= 0.0)
      && (r.Get(a) == FreeVelocity(m, p, gravity).Get(a) || r.Get(a) == 0.0)
      && (!((c.Get(a) < Bound && FreeVelocity(m, p, gravity).Get(a) < 0.0) ||
            (c.Get(a) > NGrid - Bound && FreeVelocity(m, p, gravity).Get(a) > 0.0))
          ==> r.Get(a) == FreeVelocity(m, p, gravity).Get(a))
  {
    if m > 0.0 then
      var u := FreeVelocity(m, p, gravity);
      Vec3(ClampAxis(c.i, u.x), ClampAxis(c.j, u.y), ClampAxis(c.k, u.z))
    else
      p
  }

  /** The upper band is one cell narrower than the lower one: the node at n_grid - bound keeps an
      outward velocity, while the node at bound - 1 loses it. */
  lemma UpperBandIsNarrower(va: real)
    requires va > 0.0
    ensures ClampAxis(NGrid - Bound, va) == va
    ensures ClampAxis(NGrid - Bound + 1, va) == 0.0
    ensures ClampAxis(Bound - 1, -va) == 0.0
    ensures ClampAxis(Bound, -va) == -va
  {
  }
}

/** Values, constants and exact arithmetic shared by every stage of the solver.
    Floating point is replaced by Dafny's exact `real` throughout. */
module Common {

  datatype Option<T> = None | Some(value: T)

  /** A 3-D real vector: a position, a velocity, or one weight per axis. */
  datatype Vec3 = Vec3(x: real, y: real, z: real) {
    /** Component `a` (0 = x, 1 = y, 2 = z). */
    function Get(a: nat): real
      requires a < 3
    {
      if a == 0 then x else if a == 1 then y else z
    }
  }

  const ZeroVec: Vec3 := Vec3(0.0, 0.0, 0.0)

  /** A 3x3 real matrix stored by rows (deformation gradient F, APIC matrix C). */
  datatype Mat3 = Mat3(r0: Vec3, r1: Vec3, r2: Vec3)

  const Identity: Mat3 := Mat3(Vec3(1.0, 0.0, 0.0), Vec3(0.0, 1.0, 0.0), Vec3(0.0, 0.0, 1.0))
  const ZeroMat: Mat3 := Mat3(ZeroVec, ZeroVec, ZeroVec)

  /** An integer 3-vector: a grid coordinate or a stencil base. */
  datatype Index3 = Index3(i: int, j: int, k: int) {
    function Get(a: nat): int
      requires a < 3
    {
      if a == 0 then i else if a == 1 then j else k
    }
  }

  /** A particle colour, red/green/blue/alpha. */
  datatype Rgba = Rgba(r: real, g: real, b: real, a: real)

  // Discretisation constants, with quality = 4.
  const NGrid: int := 128              // n_grid = 32 * quality
  const Cells: int := 2097152          // n_grid ** 3 grid nodes
  const NParticles: int := 524288      // n_particles = 8192 * quality ** 3
  const Dt: real := 0.0001             // dt = 1e-4
  const InvDx: real := 128.0           // inv_dx = 1 / dx = n_grid
  const PVol: real := 1.0 / 65536.0    // p_vol = (dx * 0.5) ** 2
  const PMass: real := PVol            // p_mass = p_vol * p_rho, p_rho = 1
  const Bound: int := 3                // boundary thickness in cells

  // Material identifiers.
  const Water: int := 0
  const Jelly: int := 1
  const Snow: int := 2

  /** Coordinate at which unused particles are parked, far outside the domain. */
  const Abyss: real := 533799.0

  /** Conversion of a real to an integer as Taichi's `.cast(int)` and Python's `int()` do it:
      truncation toward zero, which is the floor only for non-negative arguments. */
  function Trunc(r: real): (t: int)
    ensures 0.0 <= r ==> t == r.Floor
    ensures 0.0 <= r ==> t as real <= r < t as real + 1.0
    ensures r < 0.0 ==> t as real - 1.0 < r <= t as real
  {
    if r >= 0.0 then r.Floor else -((-r).Floor)
  }

  /** Sum of a sequence of reals, accumulated left to right. */
  function Sum(s: seq<real>): real
  {
    if |s| == 0 then 0.0 else Sum(s[..|s| - 1]) + s[|s| - 1]
  }

  /** Adding `d` to one entry adds `d` to the sum, wherever the entry is. */
  lemma {:induction false} SumUpdate(s: seq<real>, i: int, d: real)
    requires 0 <= i < |s|
    ensures Sum(s[i := s[i] + d]) == Sum(s) + d
  {
    var n := |s| - 1;
    var t := s[i := s[i] + d];
    if i == n {
      assert t[..n] == s[..n];
    } else {
      assert t[..n] == s[..n][i := s[i] + d];
      SumUpdate(s[..n], i, d);
    }
  }

  /** A sequence of zeros sums to zero. */
  lemma {:induction false} SumZeros(s: seq<real>)
    requires forall i :: 0 <= i < |s| ==> s[i] == 0.0
    ensures Sum(s) == 0.0
  {
    if |s| > 0 {
      SumZeros(s[..|s| - 1]);
    }
  }
}

/** Points in 3-space and the row-major flattening that the pose tensors of
    shape (1, n, 3) go through when they are reshaped to (1, 3n) and back. */
module Geometry {

  datatype Vec3 = Vec3(x: real, y: real, z: real)

  function Add(a: Vec3, b: Vec3): Vec3
  {
    Vec3(a.x + b.x, a.y + b.y, a.z + b.z)
  }

  function Sub(a: Vec3, b: Vec3): Vec3
  {
    Vec3(a.x - b.x, a.y - b.y, a.z - b.z)
  }

  /** A product of two reals, kept behind a function so that the solver
      treats it as one term while the sign lemmas below are applied. */
  function Product(a: real, b: real): real
  {
    a * b
  }

  lemma ProductOfPositives(a: real, b: real)
    requires a > 0.0 && b > 0.0
    ensures Product(a, b) > 0.0
  {
  }

  lemma ProductOfNegatives(a: real, b: real)
    requires a < 0.0 && b < 0.0
    ensures Product(a, b) > 0.0
  {
    assert Product(a, b) == Product(-a, -b);
    ProductOfPositives(-a, -b);
  }

  /** The square of one coordinate difference, `d ** 2`. */
  function Square(r: real): (q: real)
    ensures q >= 0.0
    ensures q == 0.0 <==> r == 0.0
  {
    SelfProductSign(r);
    Product(r, r)
  }

  lemma SelfProductSign(r: real)
    ensures Product(r, r) >= 0.0
    ensures r != 0.0 ==> Product(r, r) > 0.0
  {
    if r > 0.0 {
      ProductOfPositives(r, r);
    } else if r < 0.0 {
      ProductOfNegatives(r, r);
    }
  }

  /** Sum of the three squared components, `((a - b) ** 2).sum()` for one row. */
  function SquaredDistance(a: Vec3, b: Vec3): (d: real)
    ensures d >= 0.0
  {
    Square(a.x - b.x) + Square(a.y - b.y) + Square(a.z - b.z)
  }

  /** The squared distance vanishes exactly when the two points coincide. */
  lemma SquaredDistanceZeroIff(a: Vec3, b: Vec3)
    ensures SquaredDistance(a, b) == 0.0 <==> a == b
  {
  }

  /** A tensor of shape (n, 3) filled with zeros. */
  function ZeroPoints(n: nat): (r: seq<Vec3>)
    ensures |r| == n
    ensures forall k | 0 <= k < n :: r[k] == Vec3(0.0, 0.0, 0.0)
  {
    seq(n, _ => Vec3(0.0, 0.0, 0.0))
  }

  /** A flat vector of n zeros. */
  function Zeros(n: nat): (r: seq<real>)
    ensures |r| == n
    ensures forall k | 0 <= k < n :: r[k] == 0.0
  {
    seq(n, _ => 0.0)
  }

  /** `reshape(-1)` of an (n, 3) tensor: the rows laid end to end. */
  function Flatten(ps: seq<Vec3>): seq<real>
  {
    if ps == [] then [] else Flatten(ps[..|ps| - 1]) + [ps[|ps| - 1].x, ps[|ps| - 1].y, ps[|ps| - 1].z]
  }

  /** `reshape(-1, 3)` of a flat vector whose length is a multiple of three. */
  function Unflatten(v: seq<real>): seq<Vec3>
    requires |v| % 3 == 0
  {
    if v == [] then [] else Unflatten(v[..|v| - 3]) + [Vec3(v[|v| - 3], v[|v| - 2], v[|v| - 1])]
  }

  lemma {:induction false} FlattenLength(ps: seq<Vec3>)
    ensures |Flatten(ps)| == 3 * |ps|
    ensures |Flatten(ps)| % 3 == 0
  {
    if ps != [] {
      FlattenLength(ps[..|ps| - 1]);
    }
  }

  /** Row k of the points sits at positions 3k, 3k+1, 3k+2 of the flat vector. */
  lemma {:induction false} FlattenAt(ps: seq<Vec3>, k: nat)
    requires k < |ps|
    ensures |Flatten(ps)| == 3 * |ps|
    ensures Flatten(ps)[3 * k] == ps[k].x
    ensures Flatten(ps)[3 * k + 1] == ps[k].y
    ensures Flatten(ps)[3 * k + 2] == ps[k].z
  {
    FlattenLength(ps);
    var front := ps[..|ps| - 1];
    FlattenLength(front);
    if k < |ps| - 1 {
      FlattenAt(front, k);
    }
  }

  /** Reshaping to (1, 3n) and back to (1, n, 3) gives the same rows. */
  lemma {:induction false} UnflattenFlatten(ps: seq<Vec3>)
    ensures |Flatten(ps)| == 3 * |ps|
    ensures Unflatten(Flatten(ps)) == ps
  {
    FlattenLength(ps);
    if ps != [] {
      var front := ps[..|ps| - 1];
      UnflattenFlatten(front);
      var v := Flatten(ps);
      assert v[..|v| - 3] == Flatten(front);
    }
  }

  lemma {:induction false} UnflattenLength(v: seq<real>)
    requires |v| % 3 == 0
    ensures 3 * |Unflatten(v)| == |v|
  {
    if v != [] {
      UnflattenLength(v[..|v| - 3]);
    }
  }

  /** Flattening zero rows gives the zero vector, so `torch.zeros(1, 23, 3)`
      and `torch.zeros(1, 69)` hold the same numbers. */
  lemma {:induction false} FlattenZeroPoints(n: nat)
    ensures Flatten(ZeroPoints(n)) == Zeros(3 * n)
  {
    FlattenLength(ZeroPoints(n));
    forall k | 0 <= k < 3 * n
      ensures Flatten(ZeroPoints(n))[k] == 0.0
    {
      FlattenAt(ZeroPoints(n), k / 3);
    }
  }
}

/**
 * Exact real arithmetic on the two kinds of vector the navigators use:
 * planar positions and displacements (`Vec2`), and neural activity patterns
 * (one real per neuron, `seq<real>`), combined element-wise as numpy does.
 */
module Vectors {

  datatype Vec2 = Vec2(x: real, y: real)

  const Origin: Vec2 := Vec2(0.0, 0.0)

  function Plus(p: Vec2, q: Vec2): Vec2 { Vec2(p.x + q.x, p.y + q.y) }

  function Minus(p: Vec2, q: Vec2): Vec2 { Vec2(p.x - q.x, p.y - q.y) }

  function Times(p: Vec2, k: real): Vec2 { Vec2(p.x * k, p.y * k) }

  /** `np.zeros(n)` */
  function Zeros(n: nat): (z: seq<real>)
    ensures |z| == n && forall i :: 0 <= i < n ==> z[i] == 0.0
  {
    seq(n, _ => 0.0)
  }

  /** Element-wise `a + b` */
  function Add(a: seq<real>, b: seq<real>): (r: seq<real>)
    requires |a| == |b|
    ensures |r| == |a| && forall i :: 0 <= i < |a| ==> r[i] == a[i] + b[i]
  {
    seq(|a|, i requires 0 <= i < |a| => a[i] + b[i])
  }

  /** Element-wise `a - b` */
  function Sub(a: seq<real>, b: seq<real>): (r: seq<real>)
    requires |a| == |b|
    ensures |r| == |a| && forall i :: 0 <= i < |a| ==> r[i] == a[i] - b[i]
  {
    seq(|a|, i requires 0 <= i < |a| => a[i] - b[i])
  }

  /** `a * k` for a scalar k */
  function Scale(a: seq<real>, k: real): (r: seq<real>)
    ensures |r| == |a| && forall i :: 0 <= i < |a| ==> r[i] == a[i] * k
  {
    seq(|a|, i requires 0 <= i < |a| => a[i] * k)
  }

  /** The square of `np.linalg.norm(a)`: the sum of the squared entries. */
  function SqNorm(a: seq<real>): real
  {
    if a == [] then 0.0 else SqNorm(a[..|a| - 1]) + a[|a| - 1] * a[|a| - 1]
  }

}

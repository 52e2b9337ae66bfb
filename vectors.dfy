/** Elementwise vector arithmetic on `seq<real>`, the numpy operations the integrator uses. */
module Vectors {

  /** `np.zeros(n)`. */
  function Zeros(n: nat): (z: seq<real>)
    ensures |z| == n
    ensures forall i :: 0 <= i < n ==> z[i] == 0.0
  {
    seq(n, _ => 0.0)
  }

  /** Elementwise sum of two vectors of equal length. */
  function Add(a: seq<real>, b: seq<real>): (c: seq<real>)
    requires |a| == |b|
    ensures |c| == |a|
    ensures forall i :: 0 <= i < |a| ==> c[i] == a[i] + b[i]
  {
    seq(|a|, i requires 0 <= i < |a| => a[i] + b[i])
  }

  /** A scalar times a vector (`np.multiply(k, a)`). */
  function Scale(k: real, a: seq<real>): (c: seq<real>)
    ensures |c| == |a|
    ensures forall i :: 0 <= i < |a| ==> c[i] == k * a[i]
  {
    seq(|a|, i requires 0 <= i < |a| => k * a[i])
  }
}

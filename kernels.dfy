/** The eight timed vector kernels. Each makes one linear pass over its
    buffers and returns the wall-clock time it measured for that pass; the
    clock reading is the parameter `elapsed`. The per-element effect is the
    kernel's documented arithmetic contract, stated as a function of the
    buffers' contents. */
module Kernels {

  /** n copies of x: what init leaves in its buffer, and the initial
      contents of the buffers. */
  function Repeat<T>(n: nat, x: T): (r: seq<T>)
    ensures |r| == n && forall i :: 0 <= i < n ==> r[i] == x
  {
    seq(n, _ => x)
  }

  /** Element-wise x[i] * s: what update leaves in a. */
  function Scaled(x: seq<real>, s: real): (r: seq<real>)
    ensures |r| == |x| && forall i :: 0 <= i < |x| ==> r[i] == x[i] * s
  {
    seq(|x|, i requires 0 <= i < |x| => x[i] * s)
  }

  /** Element-wise y[i] + s * z[i]: what triad leaves in a. */
  function TriadOf(y: seq<real>, z: seq<real>, s: real): (r: seq<real>)
    requires |y| == |z|
    ensures |r| == |y| && forall i :: 0 <= i < |y| ==> r[i] == y[i] + s * z[i]
  {
    seq(|y|, i requires 0 <= i < |y| => y[i] + s * z[i])
  }

  /** Element-wise x[i] + y[i] * z[i]: what striad (x = b) and sdaxpy (x = a) leave in a. */
  function FusedOf(x: seq<real>, y: seq<real>, z: seq<real>): (r: seq<real>)
    requires |x| == |y| == |z|
    ensures |r| == |x| && forall i :: 0 <= i < |x| ==> r[i] == x[i] + y[i] * z[i]
  {
    seq(|x|, i requires 0 <= i < |x| => x[i] + y[i] * z[i])
  }

  /** init: b[i] = scalar. */
  method Init(b: array<real>, scalar: real, elapsed: real) returns (t: real)
    requires 0.0 <= elapsed
    modifies b
    ensures 0.0 <= t && t == elapsed
    ensures b[..] == Repeat(b.Length, scalar)
  {
    for i := 0 to b.Length
      invariant forall m :: 0 <= m < i ==> b[m] == scalar
    {
      b[i] := scalar;
    }
    t := elapsed;
  }

  /** sum: reduces a. The total is not handed back; like the kernel the
      harness guards against, it is stored into a[10], and no other element
      of a changes. */
  method Sum(a: array<real>, elapsed: real) returns (t: real)
    requires 10 < a.Length
    requires 0.0 <= elapsed
    modifies a
    ensures 0.0 <= t && t == elapsed
    ensures forall i :: 0 <= i < a.Length && i != 10 ==> a[i] == old(a[i])
  {
    var total := 0.0;
    for i := 0 to a.Length
    {
      total := total + a[i];
    }
    a[10] := total;
    t := elapsed;
  }

  /** copy: c[i] = a[i]. */
  method Copy(c: array<real>, a: array<real>, elapsed: real) returns (t: real)
    requires c != a && c.Length == a.Length
    requires 0.0 <= elapsed
    modifies c
    ensures 0.0 <= t && t == elapsed
    ensures c[..] == a[..]
  {
    for i := 0 to c.Length
      invariant forall m :: 0 <= m < i ==> c[m] == a[m]
    {
      c[i] := a[i];
    }
    t := elapsed;
  }

  /** update: a[i] = a[i] * scalar. */
  method Update(a: array<real>, scalar: real, elapsed: real) returns (t: real)
    requires 0.0 <= elapsed
    modifies a
    ensures 0.0 <= t && t == elapsed
    ensures a[..] == Scaled(old(a[..]), scalar)
  {
    for i := 0 to a.Length
      invariant forall m :: 0 <= m < i ==> a[m] == old(a[m]) * scalar
      invariant forall m :: i <= m < a.Length ==> a[m] == old(a[m])
    {
      a[i] := a[i] * scalar;
    }
    assert forall m :: 0 <= m < a.Length ==> a[..][m] == old(a[..])[m] * scalar;
    t := elapsed;
  }

  /** triad: a[i] = b[i] + scalar * c[i]. */
  method Triad(a: array<real>, b: array<real>, c: array<real>, scalar: real, elapsed: real) returns (t: real)
    requires a != b && a != c
    requires a.Length == b.Length == c.Length
    requires 0.0 <= elapsed
    modifies a
    ensures 0.0 <= t && t == elapsed
    ensures a[..] == TriadOf(b[..], c[..], scalar)
  {
    for i := 0 to a.Length
      invariant forall m :: 0 <= m < i ==> a[m] == b[m] + scalar * c[m]
    {
      a[i] := b[i] + scalar * c[i];
    }
    assert forall m :: 0 <= m < a.Length ==> a[..][m] == b[..][m] + scalar * c[..][m];
    t := elapsed;
  }

  /** daxpy: a[i] = a[i] + scalar * b[i]. */
  method Daxpy(a: array<real>, b: array<real>, scalar: real, elapsed: real) returns (t: real)
    requires a != b && a.Length == b.Length
    requires 0.0 <= elapsed
    modifies a
    ensures 0.0 <= t && t == elapsed
    ensures a[..] == TriadOf(old(a[..]), b[..], scalar)
  {
    for i := 0 to a.Length
      invariant forall m :: 0 <= m < i ==> a[m] == old(a[m]) + scalar * b[m]
      invariant forall m :: i <= m < a.Length ==> a[m] == old(a[m])
    {
      a[i] := a[i] + scalar * b[i];
    }
    assert forall m :: 0 <= m < a.Length ==> a[..][m] == old(a[..])[m] + scalar * b[..][m];
    t := elapsed;
  }

  /** striad: a[i] = b[i] + c[i] * d[i]. */
  method STriad(a: array<real>, b: array<real>, c: array<real>, d: array<real>, elapsed: real) returns (t: real)
    requires a != b && a != c && a != d
    requires a.Length == b.Length == c.Length == d.Length
    requires 0.0 <= elapsed
    modifies a
    ensures 0.0 <= t && t == elapsed
    ensures a[..] == FusedOf(b[..], c[..], d[..])
  {
    for i := 0 to a.Length
      invariant forall m :: 0 <= m < i ==> a[m] == b[m] + c[m] * d[m]
    {
      a[i] := b[i] + c[i] * d[i];
    }
    assert forall m :: 0 <= m < a.Length ==> a[..][m] == b[..][m] + c[..][m] * d[..][m];
    t := elapsed;
  }

  /** sdaxpy: a[i] = a[i] + b[i] * c[i]. */
  method SDaxpy(a: array<real>, b: array<real>, c: array<real>, elapsed: real) returns (t: real)
    requires a != b && a != c
    requires a.Length == b.Length == c.Length
    requires 0.0 <= elapsed
    modifies a
    ensures 0.0 <= t && t == elapsed
    ensures a[..] == FusedOf(old(a[..]), b[..], c[..])
  {
    for i := 0 to a.Length
      invariant forall m :: 0 <= m < i ==> a[m] == old(a[m]) + b[m] * c[m]
      invariant forall m :: i <= m < a.Length ==> a[m] == old(a[m])
    {
      a[i] := a[i] + b[i] * c[i];
    }
    assert forall m :: 0 <= m < a.Length ==> a[..][m] == old(a[..])[m] + b[..][m] * c[..][m];
    assert a[..] == FusedOf(old(a[..]), b[..], c[..]);
    t := elapsed;
  }
}

/** The validator's scalar trackers: one value per buffer, pushed through the
    same arithmetic the kernel sequence applies to every element. */
module Recurrence {
  import opened Config

  /** One value per buffer, in the order a, b, c, d. */
  datatype Quad = Quad(a: real, b: real, c: real, d: real)

  /** The initial buffer contents, and the trackers' seeds. */
  const Seed: Quad := Quad(2.0, 2.0, 0.5, 1.0)

  /** One repetition of the kernel sequence on one element, kernel by kernel:
      init, copy, update, triad, daxpy, striad, sdaxpy (sum changes nothing).
      Striad overwrites a, so only its and sdaxpy's contributions survive. */
  function Step(q: Quad, s: real): (r: Quad)
    ensures r == Quad(s + q.a * q.d + s * q.a, s, q.a, q.d)
  {
    var b := s;              // init
    var c := q.a;            // copy
    var a1 := q.a * s;       // update
    var a2 := b + s * c;     // triad
    var a3 := a2 + s * b;    // daxpy
    var a4 := b + c * q.d;   // striad
    var a5 := a4 + b * c;    // sdaxpy
    Quad(a5, b, c, q.d)
  }

  /** The trackers after k repetitions: d never changes, and from the first
      repetition on b holds the scalar. */
  function Iterate(q: Quad, s: real, k: nat): (r: Quad)
    ensures r.d == q.d
    ensures k > 0 ==> r.b == s
  {
    if k == 0 then q else Step(Iterate(q, s, k - 1), s)
  }

  /** 4 to the power k. */
  function Pow4(k: nat): real
  {
    if k == 0 then 1.0 else 4.0 * Pow4(k - 1)
  }

  /** The trackers after k repetitions from the seeds with scalar 3, in
      closed form: a = 3*4^k - 1, d stays 1, and after the first repetition
      b = 3 and c = 3*4^(k-1) - 1 (the previous a). */
  function ClosedForm(k: nat): Quad
  {
    if k == 0 then Seed
    else Quad(3.0 * Pow4(k) - 1.0, SCALAR, 3.0 * Pow4(k - 1) - 1.0, 1.0)
  }

  /** The recurrence the kernels induce agrees with the closed form at every k. */
  lemma {:induction false} IterateClosedForm(k: nat)
    ensures Iterate(Seed, SCALAR, k) == ClosedForm(k)
  {
    if k > 0 {
      IterateClosedForm(k - 1);
    }
  }

  /** Multiplies each tracker by N: the expected sum over N identical
      elements. No elements sum to zero, one element to its own value. */
  function Scale(q: Quad, n: nat): (r: Quad)
    ensures n == 0 ==> r == Quad(0.0, 0.0, 0.0, 0.0)
    ensures n == 1 ==> r == q
  {
    Quad(q.a * n as real, q.b * n as real, q.c * n as real, q.d * n as real)
  }

  /** The expected sums after NTIMES repetitions of the reference run:
      (3*4^10 - 1)N, 3N, (3*4^9 - 1)N and N. */
  function Expected(n: nat): (r: Quad)
    ensures r == Quad(3145727.0 * n as real, 3.0 * n as real, 786431.0 * n as real, n as real)
  {
    Scale(ClosedForm(NTIMES), n)
  }
}

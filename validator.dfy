/** The validator: expected sums from the tracker recurrence, observed sums
    of the buffers, and the verdict that names the first buffer whose
    relative error exceeds the tolerance. */
module Validator {
  import opened Config
  import opened Recurrence
  import opened Stats

  /** Outcome of the validation: success, or the first buffer that failed. */
  datatype Verdict = Validates | FailedOn(buffer: Operand)

  /** The ABS macro: the argument itself when it is not negative, its negation otherwise. */
  function Abs(x: real): (r: real)
    ensures 0.0 <= r && (r == x || r == -x)
  {
    if x >= 0.0 then x else -x
  }

  /** The test ABS(expected - observed) / observed > epsilon as double
      arithmetic decides it. A zero observed sum makes the quotient +inf
      when the difference is non-zero (the test fails) and NaN when it is
      zero (the comparison is false). Only a non-negative observed sum that
      differs from the expected one can fail. */
  predicate Exceeds(expected: real, observed: real)
    ensures Exceeds(expected, observed) ==> 0.0 <= observed && expected != observed
  {
    if observed == 0.0 then expected != 0.0
    else Abs(expected - observed) / observed > EPSILON
  }

  /** For a positive observed sum the test is |expected - observed| > epsilon * observed. */
  lemma ExceedsScaled(expected: real, observed: real)
    requires observed > 0.0
    ensures Exceeds(expected, observed) <==> Abs(expected - observed) > EPSILON * observed
  {
    var q := Abs(expected - observed) / observed;
    assert q * observed == Abs(expected - observed);
    assert (q - EPSILON) * observed == Abs(expected - observed) - EPSILON * observed;
  }

  /** The value a Quad holds for one buffer. */
  function Component(q: Quad, x: Operand): real
  {
    match x
    case A => q.a
    case B => q.b
    case C => q.c
    case D => q.d
  }

  /** Position of a buffer in the order a, b, c, d in which they are checked. */
  function Rank(x: Operand): nat
  {
    match x
    case A => 0
    case B => 1
    case C => 2
    case D => 3
  }

  /** Whether one buffer fails the relative-error test. */
  predicate Fails(expected: Quad, observed: Quad, x: Operand)
  {
    Exceeds(Component(expected, x), Component(observed, x))
  }

  /** The if/else-if chain over a, b, c, d: a buffer it names does fail. */
  function Judge(expected: Quad, observed: Quad): (v: Verdict)
    ensures v.FailedOn? ==> Fails(expected, observed, v.buffer)
  {
    if Exceeds(expected.a, observed.a) then FailedOn(A)
    else if Exceeds(expected.b, observed.b) then FailedOn(B)
    else if Exceeds(expected.c, observed.c) then FailedOn(C)
    else if Exceeds(expected.d, observed.d) then FailedOn(D)
    else Validates
  }

  /** The chain names buffer x exactly when x fails and every buffer checked
      before it passes. */
  lemma JudgeFirstFailure(expected: Quad, observed: Quad, x: Operand)
    ensures Judge(expected, observed) == FailedOn(x) <==>
      Fails(expected, observed, x) &&
      forall y: Operand :: Rank(y) < Rank(x) ==> !Fails(expected, observed, y)
  {
    if Judge(expected, observed) == FailedOn(x) {
      forall y: Operand | Rank(y) < Rank(x)
        ensures !Fails(expected, observed, y)
      {
        match y
        case A =>
        case B =>
        case C =>
        case D =>
      }
    }
    if Fails(expected, observed, x) &&
       forall y: Operand :: Rank(y) < Rank(x) ==> !Fails(expected, observed, y)
    {
      assert Rank(A) < Rank(x) ==> !Fails(expected, observed, A);
      assert Rank(B) < Rank(x) ==> !Fails(expected, observed, B);
      assert Rank(C) < Rank(x) ==> !Fails(expected, observed, C);
    }
  }

  /** The chain reports success exactly when no buffer fails. */
  lemma JudgeValidates(expected: Quad, observed: Quad)
    ensures Judge(expected, observed) == Validates <==>
      forall x: Operand :: !Fails(expected, observed, x)
  {
    if Judge(expected, observed) == Validates {
      forall x: Operand
        ensures !Fails(expected, observed, x)
      {
        match x
        case A =>
        case B =>
        case C =>
        case D =>
      }
    }
    assert (!Fails(expected, observed, A) && !Fails(expected, observed, B) &&
            !Fails(expected, observed, C) && !Fails(expected, observed, D))
      ==> Judge(expected, observed) == Validates;
  }

  /** Observed sums equal to the expected ones validate. */
  lemma JudgeExact(q: Quad)
    ensures Judge(q, q) == Validates
  {
  }

  /** The plain element sums of each buffer: the value the test compares
      for buffer x is the sum of buffer x. ObservedAppend and
      Harness.UniformSums state what these sums are. */
  function Observed(a: seq<real>, b: seq<real>, c: seq<real>, d: seq<real>): Quad
  {
    Quad(Total(a), Total(b), Total(c), Total(d))
  }

  /** One more element in every buffer adds that element to each observed
      sum: the step the summing loop takes per index. */
  lemma ObservedAppend(a: seq<real>, b: seq<real>, c: seq<real>, d: seq<real>, e: Quad)
    ensures Observed(a + [e.a], b + [e.b], c + [e.c], d + [e.d])
         == Quad(Observed(a, b, c, d).a + e.a, Observed(a, b, c, d).b + e.b,
                 Observed(a, b, c, d).c + e.c, Observed(a, b, c, d).d + e.d)
  {
    assert (a + [e.a])[..|a|] == a && (b + [e.b])[..|b|] == b;
    assert (c + [e.c])[..|c|] == c && (d + [e.d])[..|d|] == d;
  }

  /** check: recompute the trackers, scale them by N, sum the buffers and
      compare. */
  method Check(a: array<real>, b: array<real>, c: array<real>, d: array<real>, n: nat) returns (v: Verdict)
    requires n <= a.Length && n <= b.Length && n <= c.Length && n <= d.Length
    ensures v == Judge(Expected(n), Observed(a[..n], b[..n], c[..n], d[..n]))
  {
    var aj, bj, cj, dj := 2.0, 2.0, 0.5, 1.0;
    var scalar := 3.0;
    for k := 0 to NTIMES
      invariant Quad(aj, bj, cj, dj) == ClosedForm(k)
    {
      bj := scalar;
      cj := aj;
      aj := aj * scalar;
      aj := bj + scalar * cj;
      aj := aj + scalar * bj;
      aj := bj + cj * dj;
      aj := aj + bj * cj;
    }
    aj := aj * n as real;
    bj := bj * n as real;
    cj := cj * n as real;
    dj := dj * n as real;
    assert Quad(aj, bj, cj, dj) == Expected(n);

    var asum, bsum, csum, dsum := 0.0, 0.0, 0.0, 0.0;
    for i := 0 to n
      invariant asum == Total(a[..i]) && bsum == Total(b[..i])
      invariant csum == Total(c[..i]) && dsum == Total(d[..i])
    {
      assert a[..i + 1][..i] == a[..i] && b[..i + 1][..i] == b[..i];
      assert c[..i + 1][..i] == c[..i] && d[..i + 1][..i] == d[..i];
      asum := asum + a[i];
      bsum := bsum + b[i];
      csum := csum + c[i];
      dsum := dsum + d[i];
    }
    assert Quad(asum, bsum, csum, dsum) == Observed(a[..n], b[..n], c[..n], d[..n]);
    v := Judge(Quad(aj, bj, cj, dj), Quad(asum, bsum, csum, dsum));
  }
}

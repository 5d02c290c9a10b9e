/** The benchmark driver: buffer initialisation, the timing loop over the
    kernel sequence, the statistics aggregation, the report rows and the
    final validation. */
module Harness {
  import opened Config
  import opened Recurrence
  import opened Stats
  import opened Validator
  import Kernels

  /** Four distinct buffers of n elements each. */
  predicate Buffers(a: array<real>, b: array<real>, c: array<real>, d: array<real>, n: nat)
  {
    a.Length == n && b.Length == n && c.Length == n && d.Length == n &&
    a != b && a != c && a != d && b != c && b != d && c != d
  }

  /** The four buffers' values, index by index. */
  function Contents(a: array<real>, b: array<real>, c: array<real>, d: array<real>): (r: seq<Quad>)
    reads a, b, c, d
    requires a.Length == b.Length == c.Length == d.Length
    ensures |r| == a.Length
    ensures forall i :: 0 <= i < a.Length ==> r[i] == Quad(a[i], b[i], c[i], d[i])
  {
    seq(a.Length, i requires 0 <= i < a.Length reads a, b, c, d => Quad(a[i], b[i], c[i], d[i]))
  }

  /** One tracker step applied to every element independently. */
  function StepAll(qs: seq<Quad>, s: real): (r: seq<Quad>)
    ensures |r| == |qs| && forall i :: 0 <= i < |qs| ==> r[i] == Step(qs[i], s)
  {
    seq(|qs|, i requires 0 <= i < |qs| => Step(qs[i], s))
  }

  /** k repetitions applied to every element. */
  function IterateAll(qs: seq<Quad>, s: real, k: nat): seq<Quad>
  {
    if k == 0 then qs else StepAll(IterateAll(qs, s, k - 1), s)
  }

  /** Element by element, k repetitions over the whole buffers are the tracker recurrence. */
  lemma {:induction false} IterateAllPointwise(qs: seq<Quad>, s: real, k: nat)
    ensures |IterateAll(qs, s, k)| == |qs|
    ensures forall i :: 0 <= i < |qs| ==> IterateAll(qs, s, k)[i] == Iterate(qs[i], s, k)
  {
    if k > 0 {
      IterateAllPointwise(qs, s, k - 1);
    }
  }

  /** Buffers that start uniform at the seeds are uniform at the closed form after k repetitions. */
  lemma UniformRun(n: nat, k: nat)
    ensures IterateAll(Kernels.Repeat(n, Seed), SCALAR, k) == Kernels.Repeat(n, ClosedForm(k))
  {
    IterateAllPointwise(Kernels.Repeat(n, Seed), SCALAR, k);
    forall i | 0 <= i < n
      ensures IterateAll(Kernels.Repeat(n, Seed), SCALAR, k)[i] == ClosedForm(k)
    {
      IterateClosedForm(k);
    }
  }

  /** Clock readings the kernels report, indexed [kernel][repetition]: each
      is a non-negative duration. */
  predicate WellFormedTimings(elapsed: seq<seq<real>>)
  {
    |elapsed| == NUMBENCH &&
    forall j :: 0 <= j < NUMBENCH ==>
      |elapsed[j]| == NTIMES && forall k :: 0 <= k < NTIMES ==> 0.0 <= elapsed[j][k]
  }

  /** Fills every element of the four buffers with its initial constant
      (sequentially; the source fills them with a parallel loop). */
  method InitArrays(a: array<real>, b: array<real>, c: array<real>, d: array<real>)
    requires Buffers(a, b, c, d, a.Length)
    modifies a, b, c, d
    ensures Contents(a, b, c, d) == Kernels.Repeat(a.Length, Seed)
  {
    for i := 0 to a.Length
      invariant forall m :: 0 <= m < i ==> a[m] == 2.0 && b[m] == 2.0 && c[m] == 0.5 && d[m] == 1.0
    {
      a[i] := 2.0;
      b[i] := 2.0;
      c[i] := 0.5;
      d[i] := 1.0;
    }
  }

  /** The sum kernel with a[10] saved before and written back after it:
      whatever the kernel leaves at that index, a is unchanged afterwards. */
  method GuardedSum(a: array<real>, elapsed: real) returns (t: real)
    requires 10 < a.Length
    requires 0.0 <= elapsed
    modifies a
    ensures t == elapsed
    ensures a[..] == old(a[..])
  {
    var tmp := a[10];
    t := Kernels.Sum(a, elapsed);
    a[10] := tmp;
  }

  /** One repetition of the kernel sequence, recording each kernel's reported
      time in column k: every index of the buffers takes one tracker step. */
  method Repetition(a: array<real>, b: array<real>, c: array<real>, d: array<real>,
                    times: array2<real>, k: nat, scalar: real, elapsed: seq<seq<real>>)
    requires Buffers(a, b, c, d, a.Length) && 10 < a.Length
    requires times.Length0 == NUMBENCH && k < times.Length1 == NTIMES
    requires WellFormedTimings(elapsed)
    modifies a, b, c, d, times
    ensures forall j, m :: 0 <= j < NUMBENCH && 0 <= m < NTIMES ==>
      times[j, m] == if m == k then elapsed[j][k] else old(times[j, m])
    ensures b[..] == Kernels.Repeat(a.Length, scalar)
    ensures c[..] == old(a[..]) && d[..] == old(d[..])
    ensures a[..] == Kernels.FusedOf(Kernels.FusedOf(b[..], c[..], d[..]), b[..], c[..])
    ensures Contents(a, b, c, d) == StepAll(old(Contents(a, b, c, d)), scalar)
  {
    ghost var a0, d0 := a[..], d[..];
    times[Ord(Init), k] := Kernels.Init(b, scalar, elapsed[Ord(Init)][k]);
    times[Ord(Sum), k] := GuardedSum(a, elapsed[Ord(Sum)][k]);
    times[Ord(Copy), k] := Kernels.Copy(c, a, elapsed[Ord(Copy)][k]);
    times[Ord(Update), k] := Kernels.Update(a, scalar, elapsed[Ord(Update)][k]);
    times[Ord(Triad), k] := Kernels.Triad(a, b, c, scalar, elapsed[Ord(Triad)][k]);
    times[Ord(Daxpy), k] := Kernels.Daxpy(a, b, scalar, elapsed[Ord(Daxpy)][k]);
    times[Ord(STriad), k] := Kernels.STriad(a, b, c, d, elapsed[Ord(STriad)][k]);
    times[Ord(SDaxpy), k] := Kernels.SDaxpy(a, b, c, elapsed[Ord(SDaxpy)][k]);
    ElementStep(a0, old(b[..]), old(c[..]), d0, a[..], b[..], c[..], d[..], scalar);
    forall i | 0 <= i < a.Length
      ensures Contents(a, b, c, d)[i] == StepAll(old(Contents(a, b, c, d)), scalar)[i]
    {
      assert a[i] == a[..][i] && b[i] == b[..][i] && c[i] == c[..][i] && d[i] == d[..][i];
      assert old(a[i]) == a0[i] && old(b[i]) == old(b[..])[i] && old(c[i]) == old(c[..])[i] && old(d[i]) == d0[i];
    }
  }

  /** Per element, the buffer contents one repetition leaves are one tracker step. */
  lemma ElementStep(a0: seq<real>, b0: seq<real>, c0: seq<real>, d0: seq<real>,
                    a1: seq<real>, b1: seq<real>, c1: seq<real>, d1: seq<real>, s: real)
    requires |a0| == |b0| == |c0| == |d0| == |a1| == |b1| == |c1| == |d1|
    requires b1 == Kernels.Repeat(|a0|, s) && c1 == a0 && d1 == d0
    requires a1 == Kernels.FusedOf(Kernels.FusedOf(b1, c1, d1), b1, c1)
    ensures forall i :: 0 <= i < |a0| ==>
      Quad(a1[i], b1[i], c1[i], d1[i]) == Step(Quad(a0[i], b0[i], c0[i], d0[i]), s)
  {
    forall i | 0 <= i < |a0|
      ensures Quad(a1[i], b1[i], c1[i], d1[i]) == Step(Quad(a0[i], b0[i], c0[i], d0[i]), s)
    {
      assert Kernels.FusedOf(b1, c1, d1)[i] == s + a0[i] * d0[i];
    }
  }

  /** NTIMES repetitions of the kernel sequence. The timing table ends up
      holding every reported time, and every index of the buffers evolves by
      the tracker recurrence, independently of the others. */
  method TimingLoop(a: array<real>, b: array<real>, c: array<real>, d: array<real>,
                    times: array2<real>, scalar: real, elapsed: seq<seq<real>>)
    requires Buffers(a, b, c, d, a.Length) && 10 < a.Length
    requires times.Length0 == NUMBENCH && times.Length1 == NTIMES
    requires WellFormedTimings(elapsed)
    modifies a, b, c, d, times
    ensures forall j, k :: 0 <= j < NUMBENCH && 0 <= k < NTIMES ==> times[j, k] == elapsed[j][k]
    ensures Contents(a, b, c, d) == IterateAll(old(Contents(a, b, c, d)), scalar, NTIMES)
  {
    for k := 0 to NTIMES
      invariant forall j, m :: 0 <= j < NUMBENCH && 0 <= m < k ==> times[j, m] == elapsed[j][m]
      invariant Contents(a, b, c, d) == IterateAll(old(Contents(a, b, c, d)), scalar, k)
    {
      Repetition(a, b, c, d, times, k, scalar, elapsed);
    }
  }

  /** Resets the accumulators: sums and maxima to 0, minima to FLT_MAX. */
  method InitStats(avg: array<real>, mx: array<real>, mn: array<real>)
    requires avg.Length == NUMBENCH && mx.Length == NUMBENCH && mn.Length == NUMBENCH
    requires avg != mx && avg != mn && mx != mn
    modifies avg, mx, mn
    ensures forall j :: 0 <= j < NUMBENCH ==> avg[j] == 0.0 && mx[j] == 0.0 && mn[j] == FLT_MAX
  {
    for i := 0 to NUMBENCH
      invariant forall j :: 0 <= j < i ==> avg[j] == 0.0 && mx[j] == 0.0 && mn[j] == FLT_MAX
    {
      avg[i] := 0.0;
      mx[i] := 0.0;
      mn[i] := FLT_MAX;
    }
  }

  /** One kernel's row of the timing table. */
  function Row(times: array2<real>, j: nat): (r: seq<real>)
    reads times
    requires j < times.Length0
    ensures |r| == times.Length1
    ensures forall k :: 0 <= k < times.Length1 ==> r[k] == times[j, k]
  {
    seq(times.Length1, k requires 0 <= k < times.Length1 reads times => times[j, k])
  }

  /** Accumulates, per kernel, the sum, MIN and MAX of the repetitions after
      the warm-up into the three accumulators. */
  method Aggregate(times: array2<real>, avg: array<real>, mn: array<real>, mx: array<real>)
    requires times.Length0 == NUMBENCH && times.Length1 == NTIMES
    requires avg.Length == NUMBENCH && mn.Length == NUMBENCH && mx.Length == NUMBENCH
    requires avg != mx && avg != mn && mx != mn
    modifies avg, mn, mx
    ensures forall j :: 0 <= j < NUMBENCH ==>
      avg[j] == old(avg[j]) + Total(Row(times, j)[1..]) &&
      mn[j] == MinFold(old(mn[j]), Row(times, j)[1..]) &&
      mx[j] == MaxFold(old(mx[j]), Row(times, j)[1..])
  {
    for j := 0 to NUMBENCH
      invariant forall i :: 0 <= i < j ==>
        avg[i] == old(avg[i]) + Total(Row(times, i)[1..]) &&
        mn[i] == MinFold(old(mn[i]), Row(times, i)[1..]) &&
        mx[i] == MaxFold(old(mx[i]), Row(times, i)[1..])
      invariant forall i :: j <= i < NUMBENCH ==>
        avg[i] == old(avg[i]) && mn[i] == old(mn[i]) && mx[i] == old(mx[i])
    {
      ghost var row := Row(times, j);
      ghost var avg0, mn0, mx0 := avg[..], mn[..], mx[..];
      for k := 1 to NTIMES
        invariant avg[j] == avg0[j] + Total(row[1..k])
        invariant mn[j] == MinFold(mn0[j], row[1..k])
        invariant mx[j] == MaxFold(mx0[j], row[1..k])
        invariant forall i :: 0 <= i < NUMBENCH && i != j ==>
          avg[i] == avg0[i] && mn[i] == mn0[i] && mx[i] == mx0[i]
      {
        assert row[1..k + 1][..k - 1] == row[1..k];
        avg[j] := avg[j] + times[j, k];
        mn[j] := Min(mn[j], times[j, k]);
        mx[j] := Max(mx[j], times[j, k]);
      }
      assert row[1..NTIMES] == row[1..];
    }
  }

  /** One line of the report. */
  datatype ReportRow = ReportRow(name: string, rate: Rate, avg: real, min: real, max: real)

  /** The report loop: turns each sum into the average over the NTIMES-1
      counted repetitions, in place, and produces the kernel's line. */
  method Report(avg: array<real>, mn: array<real>, mx: array<real>, bytes: seq<nat>, labels: seq<string>)
    returns (rows: seq<ReportRow>)
    requires avg.Length == NUMBENCH && mn.Length == NUMBENCH && mx.Length == NUMBENCH
    requires avg != mn && avg != mx
    requires |bytes| == NUMBENCH && |labels| == NUMBENCH
    modifies avg
    ensures forall j :: 0 <= j < NUMBENCH ==> avg[j] == old(avg[j]) / (NTIMES - 1) as real
    ensures |rows| == NUMBENCH
    ensures forall j :: 0 <= j < NUMBENCH ==>
      rows[j] == ReportRow(labels[j], Bandwidth(bytes[j], mn[j]), avg[j], mn[j], mx[j])
  {
    rows := [];
    for j := 0 to NUMBENCH
      invariant |rows| == j
      invariant forall i :: 0 <= i < j ==> avg[i] == old(avg[i]) / (NTIMES - 1) as real
      invariant forall i :: j <= i < NUMBENCH ==> avg[i] == old(avg[i])
      invariant forall i :: 0 <= i < j ==>
        rows[i] == ReportRow(labels[i], Bandwidth(bytes[i], mn[i]), avg[i], mn[i], mx[i])
    {
      avg[j] := avg[j] / (NTIMES - 1) as real;
      rows := rows + [ReportRow(labels[j], Bandwidth(bytes[j], mn[j]), avg[j], mn[j], mx[j])];
    }
  }

  /** The line the report shows for the kernel at position j, given its
      timings and the problem size: its times are ordered minimum, average,
      maximum, and it shows a number of MB/s exactly when the minimum is not zero. */
  function Line(j: nat, n: nat, row: seq<real>): (r: ReportRow)
    requires j < NUMBENCH && |row| >= 2
    ensures r.min <= r.avg <= r.max
    ensures r.rate.MBs? <==> r.min != 0.0
  {
    SummaryOrdered(row);
    var s := Summarize(row);
    ReportRow(LabelTable()[j], Bandwidth(BytesTable(n)[j], s.min), s.avg, s.min, s.max)
  }

  /** A report line ignores the warm-up timing: replacing it changes nothing in the line. */
  lemma LineWarmupIgnored(j: nat, n: nat, row: seq<real>, x: real)
    requires j < NUMBENCH && |row| >= 2
    ensures Line(j, n, row[0 := x]) == Line(j, n, row)
  {
    WarmupIgnored(row, x);
  }

  /** The statistics phase: reset the accumulators, fold the timing table
      into them and produce the report lines. Each line is the summary of
      that kernel's row with the warm-up excluded. */
  method Statistics(times: array2<real>, n: nat) returns (rows: seq<ReportRow>)
    requires times.Length0 == NUMBENCH && times.Length1 == NTIMES
    ensures |rows| == NUMBENCH
    ensures forall j :: 0 <= j < NUMBENCH ==> rows[j] == Line(j, n, Row(times, j))
  {
    var avg := new real[NUMBENCH];
    var mx := new real[NUMBENCH];
    var mn := new real[NUMBENCH];
    InitStats(avg, mx, mn);
    Aggregate(times, avg, mn, mx);
    rows := Report(avg, mn, mx, BytesTable(n), LabelTable());
    forall j | 0 <= j < NUMBENCH
      ensures rows[j] == Line(j, n, Row(times, j))
    {
      assert 0.0 + Total(Row(times, j)[1..]) == Total(Row(times, j)[1..]);
    }
  }

  /** The whole run for problem size n: every report line is the summary of
      the kernel's own timings with the warm-up excluded, and in exact
      arithmetic the validation always succeeds. */
  method Benchmark(n: nat, elapsed: seq<seq<real>>) returns (rows: seq<ReportRow>, verdict: Verdict)
    requires 10 < n
    requires WellFormedTimings(elapsed)
    ensures |rows| == NUMBENCH
    ensures forall j :: 0 <= j < NUMBENCH ==> rows[j] == Line(j, n, elapsed[j])
    ensures verdict == Validates
  {
    var a := new real[n];
    var b := new real[n];
    var c := new real[n];
    var d := new real[n];
    var times := new real[NUMBENCH, NTIMES];

    InitArrays(a, b, c, d);
    TimingLoop(a, b, c, d, times, SCALAR, elapsed);
    ghost var reps := NTIMES;
    UniformRun(n, reps);
    assert Contents(a, b, c, d) == Kernels.Repeat(n, ClosedForm(reps));
    rows := Statistics(times, n);
    verdict := Check(a, b, c, d, n);

    forall j | 0 <= j < NUMBENCH
      ensures rows[j] == Line(j, n, elapsed[j])
    {
      assert Row(times, j) == elapsed[j];
    }
    UniformSums(a, b, c, d, n, ClosedForm(reps));
    JudgeExact(Expected(n));
  }

  /** Buffers whose elements all hold the same values q sum to q scaled by n. */
  lemma UniformSums(a: array<real>, b: array<real>, c: array<real>, d: array<real>, n: nat, q: Quad)
    requires Buffers(a, b, c, d, n)
    requires Contents(a, b, c, d) == Kernels.Repeat(n, q)
    ensures Observed(a[..n], b[..n], c[..n], d[..n]) == Scale(q, n)
  {
    forall i | 0 <= i < n
      ensures a[..n][i] == q.a && b[..n][i] == q.b && c[..n][i] == q.c && d[..n][i] == q.d
    {
      assert Contents(a, b, c, d)[i] == q;
    }
    TotalConstant(a[..n], q.a);
    TotalConstant(b[..n], q.b);
    TotalConstant(c[..n], q.c);
    TotalConstant(d[..n], q.d);
  }
}

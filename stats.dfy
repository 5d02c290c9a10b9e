/** Reduction of one kernel's timings to average, minimum and maximum with
    the warm-up repetition excluded, and the bandwidth derived from the
    minimum. */
module Stats {
  import opened Config

  /** The MIN macro: the smaller argument; on a tie the second is chosen. */
  function Min(x: real, y: real): (r: real)
    ensures r <= x && r <= y && (r == x || r == y)
  {
    if x < y then x else y
  }

  /** The MAX macro: the larger argument; on a tie the second is chosen. */
  function Max(x: real, y: real): (r: real)
    ensures x <= r && y <= r && (r == x || r == y)
  {
    if x > y then x else y
  }

  /** Running sum of s, accumulated left to right from 0. */
  function Total(s: seq<real>): real
  {
    if |s| == 0 then 0.0 else Total(s[..|s| - 1]) + s[|s| - 1]
  }

  /** Running minimum of s, started from m and updated left to right with
      MIN: it is below its start and below every element. */
  function MinFold(m: real, s: seq<real>): (r: real)
    ensures r <= m
    ensures forall i :: 0 <= i < |s| ==> r <= s[i]
  {
    if |s| == 0 then m else Min(MinFold(m, s[..|s| - 1]), s[|s| - 1])
  }

  /** Running maximum of s, started from m and updated left to right with
      MAX: it is above its start and above every element. */
  function MaxFold(m: real, s: seq<real>): (r: real)
    ensures m <= r
    ensures forall i :: 0 <= i < |s| ==> s[i] <= r
  {
    if |s| == 0 then m else Max(MaxFold(m, s[..|s| - 1]), s[|s| - 1])
  }

  /** The running minimum is its start or one of the elements. */
  lemma {:induction false} MinFoldAttained(m: real, s: seq<real>)
    ensures MinFold(m, s) == m || exists i :: 0 <= i < |s| && MinFold(m, s) == s[i]
  {
    if |s| > 0 {
      var init := s[..|s| - 1];
      MinFoldAttained(m, init);
      if MinFold(m, init) != m && MinFold(m, s) != s[|s| - 1] {
        var i :| 0 <= i < |init| && MinFold(m, init) == init[i];
        assert MinFold(m, s) == s[i];
      }
    }
  }

  /** The running maximum is its start or one of the elements. */
  lemma {:induction false} MaxFoldAttained(m: real, s: seq<real>)
    ensures MaxFold(m, s) == m || exists i :: 0 <= i < |s| && MaxFold(m, s) == s[i]
  {
    if |s| > 0 {
      var init := s[..|s| - 1];
      MaxFoldAttained(m, init);
      if MaxFold(m, init) != m && MaxFold(m, s) != s[|s| - 1] {
        var i :| 0 <= i < |init| && MaxFold(m, init) == init[i];
        assert MaxFold(m, s) == s[i];
      }
    }
  }

  /** A sum of |s| elements that all lie in [lo, hi] lies in [|s|*lo, |s|*hi]. */
  lemma {:induction false} TotalBounds(s: seq<real>, lo: real, hi: real)
    requires forall i :: 0 <= i < |s| ==> lo <= s[i] <= hi
    ensures |s| as real * lo <= Total(s) <= |s| as real * hi
  {
    if |s| > 0 {
      var init := s[..|s| - 1];
      TotalBounds(init, lo, hi);
      assert Total(s) == Total(init) + s[|s| - 1];
      assert |s| as real * lo == |init| as real * lo + lo;
      assert |s| as real * hi == |init| as real * hi + hi;
    }
  }

  /** A sum of |s| copies of v is |s|*v. */
  lemma {:induction false} TotalConstant(s: seq<real>, v: real)
    requires forall i :: 0 <= i < |s| ==> s[i] == v
    ensures Total(s) == |s| as real * v
  {
    if |s| > 0 {
      TotalConstant(s[..|s| - 1], v);
    }
  }

  /** Average, minimum and maximum of one kernel's timings. */
  datatype Summary = Summary(avg: real, min: real, max: real)

  /** The statistics of one row times[j][0..NTIMES): sum, MIN from FLT_MAX
      and MAX from 0 over the repetitions after the warm-up, the sum divided
      by their number. */
  function Summarize(row: seq<real>): (r: Summary)
    requires |row| >= 2
    ensures r.min <= row[1] <= r.max
  {
    var warm := row[1..];
    Summary(Total(warm) / (|row| - 1) as real, MinFold(FLT_MAX, warm), MaxFold(0.0, warm))
  }

  /** Every timing after the warm-up lies between the minimum and the maximum. */
  lemma SummaryBounds(row: seq<real>)
    requires |row| >= 2
    ensures forall k :: 1 <= k < |row| ==> Summarize(row).min <= row[k] <= Summarize(row).max
  {
    forall k | 1 <= k < |row|
      ensures Summarize(row).min <= row[k] <= Summarize(row).max
    {
      assert row[k] == row[1..][k - 1];
    }
  }

  /** Timings in [0, FLT_MAX) after the warm-up. */
  predicate InRange(row: seq<real>)
  {
    forall k :: 1 <= k < |row| ==> 0.0 <= row[k] < FLT_MAX
  }

  /** With timings in [0, FLT_MAX), the minimum and the maximum are each one
      of the timings after the warm-up: neither start value survives. */
  lemma SummaryAttained(row: seq<real>)
    requires |row| >= 2 && InRange(row)
    ensures exists k :: 1 <= k < |row| && Summarize(row).min == row[k]
    ensures exists k :: 1 <= k < |row| && Summarize(row).max == row[k]
  {
    var warm := row[1..];
    MinFoldAttained(FLT_MAX, warm);
    MaxFoldAttained(0.0, warm);
    assert warm[0] == row[1];
    if MinFold(FLT_MAX, warm) != FLT_MAX {
      var i :| 0 <= i < |warm| && MinFold(FLT_MAX, warm) == warm[i];
      assert Summarize(row).min == row[i + 1];
    }
    if MaxFold(0.0, warm) == 0.0 {
      assert Summarize(row).max == row[1];
    } else {
      var i :| 0 <= i < |warm| && MaxFold(0.0, warm) == warm[i];
      assert Summarize(row).max == row[i + 1];
    }
  }

  /** Once there is a repetition after the warm-up, minimum <= average <= maximum. */
  lemma SummaryOrdered(row: seq<real>)
    requires |row| >= 2
    ensures Summarize(row).min <= Summarize(row).avg <= Summarize(row).max
  {
    var warm := row[1..];
    var s := Summarize(row);
    SummaryBounds(row);
    forall i | 0 <= i < |warm|
      ensures s.min <= warm[i] <= s.max
    {
      assert warm[i] == row[i + 1];
    }
    MeanBetween(warm, s.min, s.max);
  }

  /** The mean of a non-empty sequence whose elements lie in [lo, hi] lies in [lo, hi]. */
  lemma MeanBetween(s: seq<real>, lo: real, hi: real)
    requires |s| > 0
    requires forall i :: 0 <= i < |s| ==> lo <= s[i] <= hi
    ensures lo <= Total(s) / |s| as real <= hi
  {
    TotalBounds(s, lo, hi);
    QuotientBetween(Total(s), |s| as real, lo, hi);
  }

  /** If len*lo <= t <= len*hi with len > 0, then lo <= t/len <= hi. */
  lemma QuotientBetween(t: real, len: real, lo: real, hi: real)
    requires 0.0 < len
    requires len * lo <= t <= len * hi
    ensures lo <= t / len <= hi
  {
    var q := t / len;
    assert (q - lo) * len == t - len * lo;
    assert (hi - q) * len == len * hi - t;
  }

  /** The warm-up timing takes no part: replacing it changes no statistic. */
  lemma WarmupIgnored(row: seq<real>, x: real)
    requires |row| >= 2
    ensures Summarize(row[0 := x]) == Summarize(row)
  {
    assert row[0 := x][1..] == row[1..];
  }

  /** A warm-up of 100 and timings 1, 2, 3 give average 2, minimum 1, maximum 3. */
  lemma SummaryExample()
    ensures Summarize([100.0, 1.0, 2.0, 3.0]) == Summary(2.0, 1.0, 3.0)
  {
    var warm := [1.0, 2.0, 3.0];
    assert [100.0, 1.0, 2.0, 3.0][1..] == warm;
    assert warm[..2] == [1.0, 2.0] && warm[..2][..1] == [1.0] && [1.0][..0] == [];
    assert Total(warm) == 6.0;
    assert MinFold(FLT_MAX, warm) == 1.0;
    assert MaxFold(0.0, warm) == 3.0;
  }

  /** A reported rate: a number of MB/s, or what the division by a zero
      minimum time gives in double arithmetic. */
  datatype Rate = MBs(value: real) | Infinity | NotANumber

  /** Bandwidth from the minimum time: 1e-6 * bytes / minimum. */
  function Bandwidth(bytes: nat, minTime: real): (r: Rate)
    ensures r.MBs? <==> minTime != 0.0
    ensures r.MBs? ==> r.value * minTime == 0.000001 * bytes as real
    ensures r == Infinity <==> minTime == 0.0 && bytes > 0
  {
    if minTime != 0.0 then MBs(0.000001 * bytes as real / minTime)
    else if bytes > 0 then Infinity
    else NotANumber
  }

  /** A longer minimum time never reports a higher bandwidth. */
  lemma BandwidthAntitone(bytes: nat, t1: real, t2: real)
    requires 0.0 < t1 <= t2
    ensures Bandwidth(bytes, t2).value <= Bandwidth(bytes, t1).value
  {
    var x := 0.000001 * bytes as real;
    var r1, r2 := x / t1, x / t2;
    assert r1 * t1 == x && r2 * t2 == x;
    assert 0.0 <= r2;
    assert r2 * t1 <= r2 * t2;
    assert (r1 - r2) * t1 >= 0.0;
  }

  /** 8,000,000 bytes in 0.01 s is 800 MB/s. */
  lemma BandwidthExample()
    ensures Bandwidth(8000000, 0.01) == MBs(800.0)
  {
  }
}

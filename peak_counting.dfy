/** countIntensityPeaks: how many (known line, observed peak) pairs have
    overlapping intensity ranges, and the normalised score derived from it. */
module PeakCounting {

  /** A value from the line table that may be NaN. */
  datatype Reading = Value(x: real) | NaN

  /** One known gamma line of an isotope: intensity and its uncertainty. */
  datatype KnownLine = KnownLine(intensity: Reading, uncertainty: Reading)

  /** NaN is read as 0. */
  function Zeroed(r: Reading): real {
    match r
    case Value(x) => x
    case NaN => 0.0
  }

  /** The closed ranges [c-u, c+u] and [o-ou, o+ou] overlap. */
  predicate Overlaps(c: real, u: real, o: real, ou: real) {
    o - ou <= c + u && o + ou >= c - u
  }

  /** Only lines whose NaN-zeroed intensity is positive are compared. */
  predicate Compared(line: KnownLine) {
    Zeroed(line.intensity) > 0.0
  }

  predicate Hit(line: KnownLine, obs: seq<real>, unc: seq<real>, i: nat)
    requires i < |obs| <= |unc|
  {
    Compared(line) &&
    Overlaps(Zeroed(line.intensity), Zeroed(line.uncertainty), obs[i], unc[i])
  }

  /** Observed peaks among the first n that the line hits. */
  function RowHits(line: KnownLine, obs: seq<real>, unc: seq<real>, n: nat): nat
    requires n <= |obs| <= |unc|
  {
    if n == 0 then 0
    else RowHits(line, obs, unc, n - 1) + (if Hit(line, obs, unc, n - 1) then 1 else 0)
  }

  /** Matches contributed by the first m known lines. */
  function Matches(lines: seq<KnownLine>, obs: seq<real>, unc: seq<real>, m: nat): nat
    requires m <= |lines| && |obs| <= |unc|
  {
    if m == 0 then 0
    else Matches(lines, obs, unc, m - 1) + RowHits(lines[m - 1], obs, unc, |obs|)
  }

  /** The reference definition: every matching (line index, peak index) pair. */
  function MatchingPairs(lines: seq<KnownLine>, obs: seq<real>, unc: seq<real>): set<(nat, nat)>
    requires |obs| <= |unc|
  {
    set k: nat, i: nat | k < |lines| && i < |obs| && Hit(lines[k], obs, unc, i) :: (k, i)
  }

  /** countIntensityPeaks, loop for loop. */
  method CountIntensityPeaks(lines: seq<KnownLine>, obs: seq<real>, unc: seq<real>)
    returns (count: nat)
    requires |obs| <= |unc|
    ensures count == Matches(lines, obs, unc, |lines|)
  {
    count := 0;
    var k := 0;
    while k < |lines|
      invariant k <= |lines|
      invariant count == Matches(lines, obs, unc, k)
    {
      var c := Zeroed(lines[k].intensity);
      var u := Zeroed(lines[k].uncertainty);
      if c > 0.0 {
        var i := 0;
        while i < |obs|
          invariant i <= |obs|
          invariant count == Matches(lines, obs, unc, k) + RowHits(lines[k], obs, unc, i)
        {
          if obs[i] - unc[i] <= c + u && obs[i] + unc[i] >= c - u {
            count := count + 1;
          }
          i := i + 1;
        }
      } else {
        assert RowHits(lines[k], obs, unc, |obs|) == 0 by { NotComparedNoHits(lines[k], obs, unc, |obs|); }
      }
      k := k + 1;
    }
  }

  lemma {:induction false} NotComparedNoHits(line: KnownLine, obs: seq<real>, unc: seq<real>, n: nat)
    requires n <= |obs| <= |unc| && !Compared(line)
    ensures RowHits(line, obs, unc, n) == 0
  {
    if n > 0 { NotComparedNoHits(line, obs, unc, n - 1); }
  }

  function RowPairs(line: KnownLine, k: nat, obs: seq<real>, unc: seq<real>, n: nat): set<(nat, nat)>
    requires n <= |obs| <= |unc|
  {
    set i: nat | i < n && Hit(line, obs, unc, i) :: (k, i)
  }

  lemma {:induction false} RowPairsCount(line: KnownLine, k: nat, obs: seq<real>, unc: seq<real>, n: nat)
    requires n <= |obs| <= |unc|
    ensures |RowPairs(line, k, obs, unc, n)| == RowHits(line, obs, unc, n)
  {
    if n > 0 {
      RowPairsCount(line, k, obs, unc, n - 1);
      var before := RowPairs(line, k, obs, unc, n - 1);
      if Hit(line, obs, unc, n - 1) {
        assert RowPairs(line, k, obs, unc, n) == before + {(k, n - 1)};
        assert (k, n - 1) !in before;
      } else {
        assert RowPairs(line, k, obs, unc, n) == before;
      }
    }
  }

  function PrefixPairs(lines: seq<KnownLine>, obs: seq<real>, unc: seq<real>, m: nat): set<(nat, nat)>
    requires m <= |lines| && |obs| <= |unc|
  {
    set k: nat, i: nat | k < m && i < |obs| && Hit(lines[k], obs, unc, i) :: (k, i)
  }

  lemma {:induction false} PrefixPairsCount(lines: seq<KnownLine>, obs: seq<real>, unc: seq<real>, m: nat)
    requires m <= |lines| && |obs| <= |unc|
    ensures |PrefixPairs(lines, obs, unc, m)| == Matches(lines, obs, unc, m)
  {
    if m > 0 {
      PrefixPairsCount(lines, obs, unc, m - 1);
      var before := PrefixPairs(lines, obs, unc, m - 1);
      var row := RowPairs(lines[m - 1], m - 1, obs, unc, |obs|);
      RowPairsCount(lines[m - 1], m - 1, obs, unc, |obs|);
      assert PrefixPairs(lines, obs, unc, m) == before + row;
      assert before * row == {} by {
        forall p | p in row ensures p !in before { }
      }
    }
  }

  /** The count the loops compute is the number of matching pairs. */
  lemma MatchesArePairs(lines: seq<KnownLine>, obs: seq<real>, unc: seq<real>)
    requires |obs| <= |unc|
    ensures Matches(lines, obs, unc, |lines|) == |MatchingPairs(lines, obs, unc)|
  {
    PrefixPairsCount(lines, obs, unc, |lines|);
    assert PrefixPairs(lines, obs, unc, |lines|) == MatchingPairs(lines, obs, unc);
  }

  lemma {:induction false} RowHitsAtMost(line: KnownLine, obs: seq<real>, unc: seq<real>, n: nat)
    requires n <= |obs| <= |unc|
    ensures RowHits(line, obs, unc, n) <= n
  {
    if n > 0 { RowHitsAtMost(line, obs, unc, n - 1); }
  }

  /** Each line is counted at most once per observed peak. */
  lemma {:induction false} MatchesAtMost(lines: seq<KnownLine>, obs: seq<real>, unc: seq<real>, m: nat)
    requires m <= |lines| && |obs| <= |unc|
    ensures Matches(lines, obs, unc, m) <= m * |obs|
  {
    if m > 0 {
      MatchesAtMost(lines, obs, unc, m - 1);
      RowHitsAtMost(lines[m - 1], obs, unc, |obs|);
      assert (m - 1) * |obs| + |obs| == m * |obs|;
    }
  }

  /** The normalised score `1.0*counts/len(intensities)`. */
  function Score(lines: seq<KnownLine>, obs: seq<real>, unc: seq<real>): (r: real)
    requires |lines| > 0 && |obs| <= |unc|
    ensures 0.0 <= r <= |obs| as real
  {
    var count := Matches(lines, obs, unc, |lines|);
    MatchesAtMost(lines, obs, unc, |lines|);
    assert count as real <= |lines| as real * |obs| as real;
    QuotientBound(count as real, |lines| as real, |obs| as real);
    count as real / |lines| as real
  }

  lemma QuotientBound(x: real, n: real, bound: real)
    requires 0.0 <= x <= n * bound && n > 0.0
    ensures 0.0 <= x / n <= bound
  {
    var q := x / n;
    assert q * n == x;
    if q > bound {
      assert q * n > bound * n;
    }
  }

  /** The score is not capped at 1: one line overlapping two observed peaks
      scores 2. */
  lemma ScoreCanExceedOne()
    ensures Score([KnownLine(Value(1.0), Value(0.0))], [1.0, 1.0], [0.0, 0.0]) == 2.0
  {
    var lines := [KnownLine(Value(1.0), Value(0.0))];
    assert Hit(lines[0], [1.0, 1.0], [0.0, 0.0], 0);
    assert Hit(lines[0], [1.0, 1.0], [0.0, 0.0], 1);
    assert RowHits(lines[0], [1.0, 1.0], [0.0, 0.0], 2) == 2;
  }
}

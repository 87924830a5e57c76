/**
 * The row sampler `find_avg_point_on_line`: scan one row of the binary edge
 * image, collect every column whose pixel is 255 and return their mean, or
 * the sentinel -1 when there is none.
 *
 * The image is indexed `img[row][column]`, matching `Point(column, row)` in
 * the source. The scan loop runs `i < stop - start + 3`, so the columns read
 * are start .. stop + 2, two past the nominal bound.
 */
module EdgeSampler {

  /** One 8-bit pixel of the edge image. */
  type Pixel = x: int | 0 <= x < 256

  /** The edge image, row by row. */
  type Image = seq<seq<Pixel>>

  const EDGE: int := 255

  /** The value returned when a row holds no edge pixel. */
  const ABSENT: real := -1.0

  /** The edge columns of `row` in lo .. hi, in increasing order. */
  function EdgeColumns(row: seq<Pixel>, lo: int, hi: int): seq<int>
    requires lo <= hi ==> 0 <= lo && hi < |row|
    decreases if hi < lo then 0 else hi - lo + 1
  {
    if hi < lo then []
    else EdgeColumns(row, lo, hi - 1) + (if row[hi] == EDGE then [hi] else [])
  }

  function Sum(s: seq<int>): int
  {
    if s == [] then 0 else Sum(s[..|s| - 1]) + s[|s| - 1]
  }

  /** The value the sampler promises: the mean edge column, or ABSENT. */
  function SampleMean(row: seq<Pixel>, lo: int, hi: int): real
    requires lo <= hi ==> 0 <= lo && hi < |row|
  {
    var cols := EdgeColumns(row, lo, hi);
    if |cols| == 0 then ABSENT else Sum(cols) as real / |cols| as real
  }

  /** EdgeColumns holds exactly the edge columns of the range, increasing and without repeats. */
  lemma {:induction false} EdgeColumnsExact(row: seq<Pixel>, lo: int, hi: int)
    requires lo <= hi ==> 0 <= lo && hi < |row|
    ensures forall x :: x in EdgeColumns(row, lo, hi) <==> lo <= x <= hi && row[x] == EDGE
    ensures forall i, j :: 0 <= i < j < |EdgeColumns(row, lo, hi)| ==>
      EdgeColumns(row, lo, hi)[i] < EdgeColumns(row, lo, hi)[j]
    decreases if hi < lo then 0 else hi - lo + 1
  {
    if lo <= hi {
      EdgeColumnsExact(row, lo, hi - 1);
      var prefix := EdgeColumns(row, lo, hi - 1);
      assert forall i :: 0 <= i < |prefix| ==> prefix[i] < hi by {
        forall i | 0 <= i < |prefix| ensures prefix[i] < hi {
          assert prefix[i] in prefix;
        }
      }
    }
  }

  /** A range without edge pixels has no edge columns. */
  lemma {:induction false} EdgeColumnsNone(row: seq<Pixel>, lo: int, hi: int)
    requires lo <= hi ==> 0 <= lo && hi < |row|
    requires forall x :: lo <= x <= hi ==> row[x] != EDGE
    ensures EdgeColumns(row, lo, hi) == []
    decreases if hi < lo then 0 else hi - lo + 1
  {
    if lo <= hi {
      EdgeColumnsNone(row, lo, hi - 1);
    }
  }

  /** A range whose only edge pixel is at column c has the edge columns [c]. */
  lemma {:induction false} EdgeColumnsSingle(row: seq<Pixel>, lo: int, hi: int, c: int)
    requires 0 <= lo <= c <= hi < |row|
    requires forall x :: lo <= x <= hi ==> (row[x] == EDGE <==> x == c)
    ensures EdgeColumns(row, lo, hi) == [c]
    decreases hi - c
  {
    if hi == c {
      EdgeColumnsNone(row, lo, c - 1);
    } else {
      EdgeColumnsSingle(row, lo, hi - 1, c);
    }
  }

  lemma {:induction false} SumBounds(s: seq<int>, lo: int, hi: int)
    requires forall i :: 0 <= i < |s| ==> lo <= s[i] <= hi
    ensures |s| * lo <= Sum(s) <= |s| * hi
  {
    if s != [] {
      var n := |s| - 1;
      var init := s[..n];
      assert forall i :: 0 <= i < |init| ==> init[i] == s[i];
      SumBounds(init, lo, hi);
      assert Sum(s) == Sum(init) + s[n];
      assert |s| * lo == n * lo + lo;
      assert |s| * hi == n * hi + hi;
    }
  }

  lemma DivBounds(sum: int, n: int, lo: int, hi: int)
    requires 0 < n && n * lo <= sum <= n * hi
    ensures lo as real <= sum as real / n as real <= hi as real
  {
    var q := sum as real / n as real;
    assert q - lo as real == (sum as real - n as real * lo as real) / n as real;
    assert hi as real - q == (n as real * hi as real - sum as real) / n as real;
  }

  /** The sampler's result is ABSENT exactly when the range holds no edge pixel. */
  lemma SampleMeanAbsent(row: seq<Pixel>, lo: int, hi: int)
    requires lo <= hi ==> 0 <= lo && hi < |row|
    ensures SampleMean(row, lo, hi) == ABSENT <==> forall x :: lo <= x <= hi ==> row[x] != EDGE
  {
    EdgeColumnsExact(row, lo, hi);
    var cols := EdgeColumns(row, lo, hi);
    if |cols| != 0 {
      assert cols[0] in cols;
      SampleMeanWithin(row, lo, hi);
    }
  }

  /** A found mean lies inside the scanned range. */
  lemma SampleMeanWithin(row: seq<Pixel>, lo: int, hi: int)
    requires lo <= hi ==> 0 <= lo && hi < |row|
    requires 0 < |EdgeColumns(row, lo, hi)|
    ensures lo as real <= SampleMean(row, lo, hi) <= hi as real
  {
    var cols := EdgeColumns(row, lo, hi);
    EdgeColumnsExact(row, lo, hi);
    assert forall i :: 0 <= i < |cols| ==> lo <= cols[i] <= hi by {
      forall i | 0 <= i < |cols| ensures lo <= cols[i] <= hi {
        assert cols[i] in cols;
      }
    }
    SumBounds(cols, lo, hi);
    DivBounds(Sum(cols), |cols|, lo, hi);
  }

  /** A row with a single edge pixel in the range samples exactly that column. */
  lemma SampleMeanSingle(row: seq<Pixel>, lo: int, hi: int, c: int)
    requires 0 <= lo <= c <= hi < |row|
    requires forall x :: lo <= x <= hi ==> (row[x] == EDGE <==> x == c)
    ensures SampleMean(row, lo, hi) == c as real
  {
    EdgeColumnsSingle(row, lo, hi, c);
    assert Sum([c]) == c;
  }

  /**
   * `find_avg_point_on_line`: the scan of row `lineY`. The source draws
   * diagnostic markers depending on its debug level; those are left out.
   */
  method FindAvgPointOnLine(img: Image, lineY: int, lineStart: int, lineStop: int) returns (ret: real)
    requires 0 <= lineY < |img|
    requires lineStart <= lineStop + 2 ==> 0 <= lineStart && lineStop + 2 < |img[lineY]|
    ensures ret == SampleMean(img[lineY], lineStart, lineStop + 2)
    ensures ret == ABSENT <==> forall x :: lineStart <= x <= lineStop + 2 ==> img[lineY][x] != EDGE
    ensures ret != ABSENT ==> lineStart as real <= ret <= (lineStop + 2) as real
  {
    var row := img[lineY];
    var v: seq<int> := [];
    ret := ABSENT;
    var i := 0;
    while i < lineStop - lineStart + 3
      invariant 0 <= i
      invariant 0 < i ==> lineStart + i - 1 <= lineStop + 2
      invariant v == EdgeColumns(row, lineStart, lineStart + i - 1)
      decreases lineStop - lineStart + 3 - i
    {
      if row[i + lineStart] == EDGE {
        v := v + [i + lineStart];
      }
      i := i + 1;
    }
    if lineStart <= lineStop + 2 {
      assert lineStart + i - 1 == lineStop + 2;
    } else {
      EdgeColumnsNone(row, lineStart, lineStop + 2);
    }
    if |v| > 0 {
      ret := Sum(v) as real / |v| as real;
      SampleMeanWithin(row, lineStart, lineStop + 2);
    }
    SampleMeanAbsent(row, lineStart, lineStop + 2);
  }
}

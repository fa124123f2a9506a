/** Sampling of tabulated distributions (ImportanceSampling): the binary search of a cumulative distribution
    function, the sizes of the image-based-light tables, and the row a second search reads from the conditional
    table. Distribution values are reals; float rounding is not modelled. */
module ImportanceSampling {
  import opened BasicTypes

  /** The index SampleDistributionFunction leaves behind when no entry reaches the key: (uint)-1. */
  const NoIndex: uint32 := 0xFFFF_FFFF

  /** The largest count for which the int32 arithmetic of the search (count - 1 as the first high, low + high before
      the halving) cannot wrap. */
  const MaxSearchCount: int := 0x4000_0000

  /** A cumulative distribution function: entries never decrease. */
  predicate NonDecreasing(d: seq<real>)
  {
    forall i, j :: 0 <= i < j < |d| ==> d[i] <= d[j]
  }

  /** The reference definition of the sample: scanning from the front, the first index whose entry is at least the
      key, or |d| when none is. */
  function FirstAtLeast(d: seq<real>, key: real): (r: nat)
    ensures r <= |d|
    ensures forall j :: 0 <= j < r ==> d[j] < key
    ensures r < |d| ==> d[r] >= key
  {
    if d == [] then 0
    else if d[0] >= key then 0
    else 1 + FirstAtLeast(d[1..], key)
  }

  /** The probability of sample i: the step of the cumulative distribution at i, which for i = 0 is the first entry. */
  function SamplePdf(d: seq<real>, i: nat): real
    requires i < |d|
  {
    if i > 0 then d[i] - d[i - 1] else d[i]
  }

  /** FirstAtLeast is the only index with entries below the key before it and an entry at least the key at it (or
      the end). */
  lemma {:induction false} FirstAtLeastUnique(d: seq<real>, key: real, i: nat)
    requires i <= |d|
    requires forall j :: 0 <= j < i ==> d[j] < key
    requires i < |d| ==> d[i] >= key
    ensures FirstAtLeast(d, key) == i
  {
    if d != [] && i > 0 {
      assert d[0] < key;
      forall j | 0 <= j < i - 1
        ensures d[1..][j] < key
      {
        assert d[1..][j] == d[j + 1];
      }
      if i - 1 < |d[1..]| {
        assert d[1..][i - 1] == d[i];
      }
      FirstAtLeastUnique(d[1..], key, i - 1);
    }
  }

  /** On a cumulative distribution some entry reaches the key exactly when the last one does: the condition under
      which the search's assertion holds. */
  lemma FoundIffLastReaches(d: seq<real>, key: real)
    requires NonDecreasing(d)
    ensures FirstAtLeast(d, key) < |d| <==> (|d| > 0 && d[|d| - 1] >= key)
  {
    var r := FirstAtLeast(d, key);
    if r < |d| && r < |d| - 1 {
      assert d[r] <= d[|d| - 1];
    }
  }

  /** On a cumulative distribution the sample moves no earlier as the key grows. */
  lemma FirstAtLeastMonotone(d: seq<real>, key1: real, key2: real)
    requires NonDecreasing(d) && key1 <= key2
    ensures FirstAtLeast(d, key1) <= FirstAtLeast(d, key2)
  {
  }

  /** SampleDistributionFunction: binary search of the first count entries for the first one at least random01.
      When one is found, index is its position and pdf its SamplePdf; otherwise index stays NoIndex and pdf keeps the
      caller's value. Every probed position lies within the first count entries. */
  method SampleDistributionFunction(distribution: seq<real>, count: uint32, random01: real, pdfIn: real)
    returns (index: uint32, pdf: real, ghost probed: seq<int>)
    requires count as int <= |distribution| && count as int <= MaxSearchCount
    requires NonDecreasing(distribution[..count])
    ensures FirstAtLeast(distribution[..count], random01) < count as int ==>
              index as int == FirstAtLeast(distribution[..count], random01)
              && pdf == SamplePdf(distribution[..count], index as nat)
    ensures FirstAtLeast(distribution[..count], random01) == count as int ==> index == NoIndex && pdf == pdfIn
    ensures forall k :: 0 <= k < |probed| ==> 0 <= probed[k] < count as int
  {
    ghost var d := distribution[..count];
    index := NoIndex;
    pdf := pdfIn;
    probed := [];
    var low: int := 0;
    var high: int := count as int - 1;
    while low <= high
      invariant 0 <= low <= high + 1 <= count as int
      invariant forall j :: 0 <= j < low ==> d[j] < random01
      invariant forall j :: high < j < count as int ==> d[j] >= random01
      invariant index == NoIndex ==> high == count as int - 1 && pdf == pdfIn
      invariant index != NoIndex ==> index as int == high + 1 && index as int < count as int
                                     && pdf == SamplePdf(d, index as nat)
      invariant forall k :: 0 <= k < |probed| ==> 0 <= probed[k] < count as int
      decreases high - low
    {
      var mid := (low + high) / 2;
      probed := probed + [mid];
      if distribution[mid] >= random01 {
        index := mid as uint32;
        pdf := if mid > 0 then distribution[mid] - distribution[mid - 1] else distribution[mid];
        high := mid - 1;
        forall j | high < j < count as int
          ensures d[j] >= random01
        {
          assert d[mid] <= d[j];
        }
      } else {
        low := mid + 1;
        forall j | 0 <= j < low
          ensures d[j] < random01
        {
          assert d[j] <= d[mid];
        }
      }
    }
    FirstAtLeastUnique(d, random01, low);
  }

  /** CalculateMarginalDensityFunctionCount: one marginal entry per row. */
  function MarginalDensityFunctionCount(width: uint32, height: uint32): uint32
  {
    height
  }

  /** CalculateConditionalDensityFunctionsCount: one conditional entry per texel, as a uint32 product. */
  function ConditionalDensityFunctionsCount(width: uint32, height: uint32): uint32
  {
    (width * height) % UINT32_LIMIT
  }

  /** The start of row y of the conditional table, as the uint32 product y * width. */
  function RowStart(y: uint32, width: uint32): uint32
  {
    (y * width) % UINT32_LIMIT
  }

  /** While the texel count fits a uint32, the conditional table is exactly height rows of width entries each, laid
      one after the other, and the marginal table has one entry per row: row y < height starts where row y - 1 ends
      and ends within the table, and the last row ends at the table's end. */
  lemma RowsTileConditionalTable(width: uint32, height: uint32, y: uint32)
    requires width as int * height as int < UINT32_LIMIT && y < height
    ensures MarginalDensityFunctionCount(width, height) == height
    ensures RowStart(y, width) as int == y as int * width as int
    ensures RowStart(y, width) as int + width as int <= ConditionalDensityFunctionsCount(width, height) as int
    ensures y > 0 ==> RowStart(y, width) == RowStart(y - 1, width) + width
    ensures y == height - 1 ==> RowStart(y, width) as int + width as int == ConditionalDensityFunctionsCount(width, height) as int
  {
    var w, h, n := width as int, height as int, y as int;
    RowBound(w, h, n);
    NoWrap(w * h);
    NoWrap(n * w);
    if n > 0 {
      RowBound(w, h, n - 1);
      NoWrap((n - 1) * w);
      assert (n - 1) * w + w == n * w;
    }
  }

  /** Row n < h of an h-row table of width w starts at n * w and ends by w * h. */
  lemma RowBound(w: nat, h: nat, n: nat)
    requires n < h
    ensures 0 <= n * w && n * w + w <= w * h
    ensures n == h - 1 ==> n * w + w == w * h
  {
    assert n * w + w == (n + 1) * w;
    MulLeftMonotone(n + 1, h, w);
  }

  lemma MulLeftMonotone(a: int, b: int, c: nat)
    requires a <= b
    ensures a * c <= b * c
  {
  }

  lemma NoWrap(x: int)
    requires 0 <= x < UINT32_LIMIT
    ensures x % UINT32_LIMIT == x
  {
  }

  /** The discrete part of Ibl: search the marginal table over height entries for row y, then search row y of the
      conditional table (width entries starting at y * width) for column x; mdf and cdf are the two samples' pdfs.
      The source asserts that the marginal search succeeds, so the marginal table's last entry reaches r0. mdfIn and
      cdfIn are whatever the two uninitialised locals hold before the searches. */
  method IblSample(marginal: seq<real>, conditional: seq<real>, width: uint32, height: uint32, r0: real, r1: real,
                   mdfIn: real, cdfIn: real)
    returns (x: uint32, y: uint32, mdf: real, cdf: real)
    requires width as int * height as int < UINT32_LIMIT && width as int <= MaxSearchCount && height as int <= MaxSearchCount
    requires height as int <= |marginal| && ConditionalDensityFunctionsCount(width, height) as int <= |conditional|
    requires NonDecreasing(marginal[..height])
    requires height > 0 && marginal[height - 1] >= r0
    requires forall row: uint32 :: row < height && RowStart(row, width) as int + width as int <= |conditional| ==>
               NonDecreasing(Row(conditional, row, width))
    ensures y as int == FirstAtLeast(marginal[..height], r0) && y < height
    ensures mdf == SamplePdf(marginal[..height], y as nat)
    ensures RowStart(y, width) as int + width as int <= |conditional|
    ensures FirstAtLeast(Row(conditional, y, width), r1) < width as int ==>
              x as int == FirstAtLeast(Row(conditional, y, width), r1) && cdf == SamplePdf(Row(conditional, y, width), x as nat)
    ensures FirstAtLeast(Row(conditional, y, width), r1) == width as int ==> x == NoIndex && cdf == cdfIn
  {
    FoundIffLastReaches(marginal[..height], r0);
    ghost var probedRows;
    y, mdf, probedRows := SampleDistributionFunction(marginal, height, r0, mdfIn);
    RowsTileConditionalTable(width, height, y);
    var row := conditional[RowStart(y, width)..];
    assert row[..width] == Row(conditional, y, width);
    ghost var probedColumns;
    x, cdf, probedColumns := SampleDistributionFunction(row, width, r1, cdfIn);
  }

  /** Row y of the conditional table: width entries starting at y * width. */
  function Row(conditional: seq<real>, y: uint32, width: uint32): seq<real>
    requires RowStart(y, width) as int + width as int <= |conditional|
  {
    conditional[RowStart(y, width)..RowStart(y, width) as int + width as int]
  }
}

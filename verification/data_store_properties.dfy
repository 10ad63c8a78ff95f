/** What the raster store promises: the three rejection paths, the rotation,
    the published axes and metadata, the coordinate lookup and the statistics. */
module DataStoreProperties {
  import opened Wrappers
  import opened DataStore
  import RealSort

  // ---------------------------------------------------------------------------
  // Validation
  // ---------------------------------------------------------------------------

  /** The three guards of `datatransform` leave the store as it was. */
  lemma RejectedGridLeavesStore(s: Store)
    requires
      || s.raw.None? || s.raw.value.data.NoArray?
      || (s.raw.value.data.Nested? &&
          (1 + |s.raw.value.data.rest| != Rows || |s.raw.value.data.first| != Cols))
      || (s.raw.value.data.Flat? && |s.raw.value.data.cells| != CellCount)
    ensures DataTransform(s) == s
  {
  }

  /** A 2-D payload passes the shape guard on its row count and the length of
      its first row alone: later rows are never measured. */
  lemma ShapeGuardReadsFirstRowOnly(raw: RawGrid)
    requires raw.data.Nested?
    requires 1 + |raw.data.rest| == Rows && |raw.data.first| == Cols
    ensures Transform(Some(raw)) != ShapeMismatch
    ensures Transform(Some(raw)).Published? <==>
              forall k :: 0 <= k < |raw.data.rest| ==> raw.data.rest[k].Cells?
  {
  }

  // ---------------------------------------------------------------------------
  // Flattening and rotation
  // ---------------------------------------------------------------------------

  /** Every row is an array of exactly one grid width. */
  ghost predicate Rectangular(rows: seq<Row>) {
    forall k :: 0 <= k < |rows| ==> rows[k].Cells? && |rows[k].cells| == Cols
  }

  /** Row-major flattening of rectangular rows puts row i, column c at
      `Index(i, c)`. */
  lemma {:induction false} FlattenRectangular(rows: seq<Row>)
    requires Rectangular(rows)
    ensures FlattenRows(rows).Some?
    ensures |FlattenRows(rows).value| == |rows| * Cols
    ensures forall i, c :: 0 <= i < |rows| && 0 <= c < Cols ==>
              FlattenRows(rows).value[Index(i, c)] == rows[i].cells[c]
  {
    if |rows| > 0 {
      var tail := rows[1..];
      assert Rectangular(tail);
      FlattenRectangular(tail);
      var f := FlattenRows(rows).value;
      assert f == rows[0].cells + FlattenRows(tail).value;
      var g := FlattenRows(tail).value;
      forall i, c | 0 <= i < |rows| && 0 <= c < Cols
        ensures f[Index(i, c)] == rows[i].cells[c]
      {
        if i == 0 {
          assert Index(i, c) == c;
        } else {
          assert Index(i, c) == Cols + Index(i - 1, c);
          assert f[Index(i, c)] == g[Index(i - 1, c)];
          assert tail[i - 1] == rows[i];
        }
      }
    }
  }

  /** Row i of a 2-D payload. */
  function RowOf(first: seq<Value>, rest: seq<Row>, i: nat): seq<Value>
    requires 0 < i ==> i - 1 < |rest| && rest[i - 1].Cells?
  {
    if i == 0 then first else rest[i - 1].cells
  }

  /** The rotation round trip for a well-formed 720 x 1440 nested grid: cell
      (i, j) of the published raster is `raw[i][(j + 720) mod 1440]`. */
  lemma NestedGridRotation(raw: RawGrid)
    requires raw.data.Nested?
    requires 1 + |raw.data.rest| == Rows && |raw.data.first| == Cols
    requires Rectangular(raw.data.rest)
    ensures Transform(Some(raw)).Published?
    ensures forall i, j :: 0 <= i < Rows && 0 <= j < Cols ==>
              Transform(Some(raw)).raster.data[Index(i, j)] ==
              RowOf(raw.data.first, raw.data.rest, i)[(j + HalfTurn) % Cols]
  {
    var first, rest := raw.data.first, raw.data.rest;
    FlattenRectangular(rest);
    var flat := first + FlattenRows(rest).value;
    assert Flattened(raw.data) == Some(flat);
    forall i, j | 0 <= i < Rows && 0 <= j < Cols
      ensures Transform(Some(raw)).raster.data[Index(i, j)] == RowOf(first, rest, i)[(j + HalfTurn) % Cols]
    {
      var c := (j + HalfTurn) % Cols;
      IndexSplit(i, c);
      FlatCellOfRows(first, rest, i, c);
    }
  }

  /** In the concatenation of a first row and rectangular further rows, row i,
      column c sits at `Index(i, c)`. */
  lemma FlatCellOfRows(first: seq<Value>, rest: seq<Row>, i: int, c: int)
    requires |first| == Cols && Rectangular(rest)
    requires FlattenRows(rest).Some? && |FlattenRows(rest).value| == |rest| * Cols
    requires forall i', c' :: 0 <= i' < |rest| && 0 <= c' < Cols ==>
               FlattenRows(rest).value[Index(i', c')] == rest[i'].cells[c']
    requires 0 <= i <= |rest| && 0 <= c < Cols
    ensures Index(i, c) < |first + FlattenRows(rest).value|
    ensures (first + FlattenRows(rest).value)[Index(i, c)] == RowOf(first, rest, i)[c]
  {
    if i > 0 {
      assert Index(i, c) == Cols + Index(i - 1, c);
    }
  }

  /** The rotation for a flat grid of 720 * 1440 values. */
  lemma FlatGridRotation(raw: RawGrid)
    requires raw.data.Flat? && |raw.data.cells| == CellCount
    ensures Transform(Some(raw)).Published?
    ensures forall i, j :: 0 <= i < Rows && 0 <= j < Cols ==>
              Transform(Some(raw)).raster.data[Index(i, j)] ==
              raw.data.cells[Index(i, (j + HalfTurn) % Cols)]
  {
    var data := Transform(Some(raw)).raster.data;
    forall i, j | 0 <= i < Rows && 0 <= j < Cols
      ensures data[Index(i, j)] == raw.data.cells[Index(i, (j + HalfTurn) % Cols)]
    {
      IndexSplit(i, (j + HalfTurn) % Cols);
    }
  }

  /** Shifting by half a row twice is the identity: the rotation is its own
      inverse on a full grid. */
  lemma RotateInvolution(flat: seq<Value>)
    requires |flat| == CellCount
    ensures Rotate(Rotate(flat)) == flat
  {
    var twice := Rotate(Rotate(flat));
    forall k | 0 <= k < CellCount
      ensures twice[k] == flat[k]
    {
      IndexOf(k);
      RotateTwiceAt(flat, k / Cols, k % Cols);
    }
  }

  lemma RotateTwiceAt(flat: seq<Value>, i: int, j: int)
    requires |flat| == CellCount
    requires 0 <= i < Rows && 0 <= j < Cols
    ensures Rotate(Rotate(flat))[Index(i, j)] == flat[Index(i, j)]
  {
    var once := Rotate(flat);
    var j' := (j + HalfTurn) % Cols;
    HalfTurnTwice(j);
    IndexSplit(i, j');
    IndexSplit(i, j);
    assert Rotate(once)[Index(i, j)] == At(once, Index(i, j'));
    assert once[Index(i, j')] == At(flat, Index(i, j));
  }

  lemma HalfTurnTwice(j: int)
    requires 0 <= j < Cols
    ensures ((j + HalfTurn) % Cols + HalfTurn) % Cols == j
  {
  }

  // ---------------------------------------------------------------------------
  // The published record
  // ---------------------------------------------------------------------------

  /** The axes, shape, extent, origin, cell size, name and parameters of a
      published raster. */
  lemma PublishedRecord(raw: RawGrid)
    requires Transform(Some(raw)).Published?
    ensures var m := Transform(Some(raw)).raster;
      && Canonical(m)
      && m.extent == Extent(-180.0, -89.75, 179.75, 90.0)
      && |m.info.latitudes| == Rows && |m.info.longitudes| == Cols
      && (forall i :: 0 <= i < Rows ==> m.info.latitudes[i] == 90.0 - 0.25 * (i as real))
      && (forall j :: 0 <= j < Cols ==> m.info.longitudes[j] == -180.0 + 0.25 * (j as real))
      && (forall i, i' :: 0 <= i < i' < Rows ==> m.info.latitudes[i] > m.info.latitudes[i'])
      && (forall j, j' :: 0 <= j < j' < Cols ==> m.info.longitudes[j] < m.info.longitudes[j'])
      && m.name == (if raw.name.None? || raw.name.value == "" then "surf_2t" else raw.name.value)
      && m.params == raw.params
  {
  }

  /** Layer view and renderer size of a store after a successful transform. */
  lemma PublishedLayer(s: Store)
    requires Transform(s.raw).Published?
    ensures FullRasterLayer(DataTransform(s)).Some?
    ensures |FullRasterLayer(DataTransform(s)).value.values| == CellCount
    ensures CesiumSize(DataTransform(s)) == Some((1440, 720))
  {
  }

  /** After transforming a rectangular 2-D grid, the cell lookup reads the
      raw grid through the rotation. */
  lemma CellLookupAfterTransform(s: Store, i: int, j: int)
    requires s.raw.Some? && s.raw.value.data.Nested?
    requires 1 + |s.raw.value.data.rest| == Rows && |s.raw.value.data.first| == Cols
    requires Rectangular(s.raw.value.data.rest)
    requires 0 <= i < Rows && 0 <= j < Cols
    ensures ValueAtCell(DataTransform(s), i, j) ==
            Some(RowOf(s.raw.value.data.first, s.raw.value.data.rest, i)[(j + HalfTurn) % Cols])
  {
    NestedGridRotation(s.raw.value);
    PublishedRecord(s.raw.value);
    CellOfCanonical(DataTransform(s), i, j);
  }

  /** On a canonical raster every in-range cell is found at its row-major index. */
  lemma CellOfCanonical(s: Store, i: int, j: int)
    requires s.derived.Some? && Canonical(s.derived.value)
    requires 0 <= i < Rows && 0 <= j < Cols
    ensures ValueAtCell(s, i, j) == Some(s.derived.value.data[Index(i, j)])
  {
    IndexSplit(i, j);
  }

  // ---------------------------------------------------------------------------
  // Coordinate lookup
  // ---------------------------------------------------------------------------

  lemma FloorOfInt(n: int)
    ensures (n as real).Floor == n
  {
  }

  /** At a grid node the coordinate lookup returns exactly that node's cell. */
  lemma CoordinateAtGridNode(s: Store, i: int, j: int)
    requires s.derived.Some? && Canonical(s.derived.value)
    requires 0 <= i < Rows && 0 <= j < Cols
    ensures ValueAtCoordinate(s, 90.0 - 0.25 * (i as real), -180.0 + 0.25 * (j as real))
            == ValueAtCell(s, i, j)
    ensures ValueAtCell(s, i, j).Some?
  {
    var lat, lon := 90.0 - 0.25 * (i as real), -180.0 + 0.25 * (j as real);
    assert (90.0 - lat) / CellDeg == i as real;
    FloorOfInt(i);
    assert Trunc((lon + 180.0) / 360.0) == 0;
    assert NormalizeLon(lon) == lon;
    assert (lon - -180.0) / CellDeg == j as real;
    FloorOfInt(j);
  }

  /** Latitudes at or south of -90, or north of 90, fall off the grid. */
  lemma CoordinateOutsideLatitudes(s: Store, lat: real, lon: real)
    requires s.derived.Some? && Canonical(s.derived.value)
    requires lat <= -90.0 || lat > 90.0
    ensures ValueAtCoordinate(s, lat, lon).None?
  {
  }

  /** Within the latitude band every longitude in [-180, 180) finds a cell. */
  lemma CoordinateInsideGrid(s: Store, lat: real, lon: real)
    requires s.derived.Some? && Canonical(s.derived.value)
    requires -90.0 < lat <= 90.0 && -180.0 <= lon < 180.0
    ensures ValueAtCoordinate(s, lat, lon).Some?
  {
    assert Trunc((lon + 180.0) / 360.0) == 0;
  }

  /** The truncating remainder still wraps every longitude east of -180 by a
      full turn. */
  lemma NormalizeWrapsEast(lon: real)
    requires lon >= -180.0
    ensures NormalizeLon(lon + 360.0) == NormalizeLon(lon)
    ensures -180.0 <= NormalizeLon(lon) < 180.0
  {
    var x := lon + 180.0;
    assert (x + 360.0) / 360.0 == x / 360.0 + 1.0;
    assert Trunc((x + 360.0) / 360.0) == Trunc(x / 360.0) + 1;
  }

  /** `getValueAtCoordinate(lat, lon) == getValueAtCoordinate(lat, lon + 360)`
      for every longitude east of -180, on any store. */
  lemma CoordinateWrapsEast(s: Store, lat: real, lon: real)
    requires lon >= -180.0
    ensures ValueAtCoordinate(s, lat, lon) == ValueAtCoordinate(s, lat, lon + 360.0)
  {
    NormalizeWrapsEast(lon);
  }

  /** West of -180 the truncating remainder keeps the longitude below -180,
      so the lookup falls off the grid, except where `lon + 180` is a whole
      number of turns, which normalises to -180 itself. */
  lemma CoordinateWestOfGrid(s: Store, lat: real, lon: real)
    requires s.derived.Some? && Canonical(s.derived.value)
    requires lon < -180.0
    requires ((lon + 180.0) / 360.0).Floor as real != (lon + 180.0) / 360.0
    ensures NormalizeLon(lon) < -180.0
    ensures ValueAtCoordinate(s, lat, lon).None?
  {
    var y := (lon + 180.0) / 360.0;
    var t := Trunc(y);
    assert y.Floor == t - 1;
    assert t as real != y;
  }

  /** The counterexample: -200 degrees is 160 degrees, yet as written it is
      looked up at -200, west of the grid. */
  lemma TruncatedWrapMissesWest(s: Store)
    requires s.derived.Some? && Canonical(s.derived.value)
    ensures NormalizeLon(-200.0) == -200.0
    ensures ValueAtCoordinate(s, 0.0, -200.0).None?
    ensures ValueAtCoordinate(s, 0.0, 160.0).Some?
  {
    assert Trunc(-20.0 / 360.0) == 0;
    CoordinateInsideGrid(s, 0.0, 160.0);
  }

  /** The wrapped normalisation agrees with the written one east of -180 and
      wraps every longitude by a full turn. */
  lemma WrappedNormalisation(lon: real)
    ensures lon >= -180.0 ==> NormalizeLonWrapped(lon) == NormalizeLon(lon)
    ensures NormalizeLonWrapped(lon + 360.0) == NormalizeLonWrapped(lon)
  {
    var x := lon + 180.0;
    assert (x + 360.0) / 360.0 == x / 360.0 + 1.0;
    assert ((x + 360.0) / 360.0).Floor == (x / 360.0).Floor + 1;
  }

  /** With the wrapped normalisation, the lookup is periodic in longitude
      everywhere and agrees with the written lookup east of -180. */
  lemma WrappedCoordinateLookup(s: Store, lat: real, lon: real)
    ensures ValueAtCoordinateWrapped(s, lat, lon) == ValueAtCoordinateWrapped(s, lat, lon + 360.0)
    ensures lon >= -180.0 ==> ValueAtCoordinateWrapped(s, lat, lon) == ValueAtCoordinate(s, lat, lon)
  {
    WrappedNormalisation(lon);
  }

  /** West of the grid the wrapped lookup finds the cell one turn east. */
  lemma WrappedCoordinateWestOfGrid(s: Store, lat: real)
    requires s.derived.Some? && Canonical(s.derived.value)
    requires -90.0 < lat <= 90.0
    ensures ValueAtCoordinateWrapped(s, lat, -200.0) == ValueAtCoordinate(s, lat, 160.0)
    ensures ValueAtCoordinateWrapped(s, lat, -200.0).Some?
  {
    WrappedNormalisation(-200.0);
    WrappedCoordinateLookup(s, lat, 160.0);
    CoordinateInsideGrid(s, lat, 160.0);
  }

  // ---------------------------------------------------------------------------
  // Statistics
  // ---------------------------------------------------------------------------

  /** The summary statistics describe the valid values: count, extremes that
      occur in the grid and bound every valid value, a median between them, a
      non-negative range and a mean inside it. */
  lemma StatisticsSummarise(s: Store)
    requires Statistics(s).Some?
    ensures var st := Statistics(s).value;
      var data := s.derived.value.data;
      && st.count == |Numbers(data)| > 0
      && st.min <= st.median <= st.max
      && st.range == st.max - st.min >= 0.0
      && st.min <= st.mean <= st.max
      && Num(st.min) in data && Num(st.max) in data && Num(st.median) in data
      && (forall k :: 0 <= k < |data| && data[k].Num? ==> st.min <= data[k].x <= st.max)
  {
    var data := s.derived.value.data;
    var valid := RealSort.Sort(Numbers(data));
    var n := |valid|;
    assert Statistics(s).value == Summarise(valid);
    SummaryOfSorted(valid);
    SortedValuesOccur(data, valid, 0);
    SortedValuesOccur(data, valid, n / 2);
    SortedValuesOccur(data, valid, n - 1);
    ExtremesBound(data, valid);
  }

  /** The order facts of a summary of a sorted sequence. */
  lemma SummaryOfSorted(valid: seq<real>)
    requires RealSort.Sorted(valid) && |valid| > 0
    ensures var st := Summarise(valid);
      && st.min == valid[0] && st.max == valid[|valid| - 1] && st.median == valid[|valid| / 2]
      && st.min <= st.median <= st.max
      && st.range == st.max - st.min >= 0.0
      && st.min <= st.mean <= st.max
  {
    RealSort.SortedEnds(valid, |valid| / 2);
    MeanOfSorted(valid);
  }

  /** The mean of a non-empty sorted sequence lies between its ends. */
  lemma MeanOfSorted(valid: seq<real>)
    requires RealSort.Sorted(valid) && |valid| > 0
    ensures valid[0] <= RealSort.Sum(valid) / (|valid| as real) <= valid[|valid| - 1]
  {
    var n := |valid|;
    forall k | 0 <= k < n ensures valid[0] <= valid[k] <= valid[n - 1] {
      RealSort.SortedEnds(valid, k);
    }
    RealSort.SumBounds(valid, valid[0], valid[n - 1]);
    MeanBetween(RealSort.Sum(valid), n, valid[0], valid[n - 1]);
  }

  /** Each sorted valid value is a number stored in the grid. */
  lemma SortedValuesOccur(data: seq<Value>, valid: seq<real>, p: int)
    requires multiset(valid) == multiset(Numbers(data))
    requires 0 <= p < |valid|
    ensures Num(valid[p]) in data
  {
    assert valid[p] in multiset(valid);
    assert multiset(data)[Num(valid[p])] > 0;
  }

  /** Every number stored in the grid lies between the sorted ends. */
  lemma ExtremesBound(data: seq<Value>, valid: seq<real>)
    requires RealSort.Sorted(valid) && multiset(valid) == multiset(Numbers(data)) && |valid| > 0
    ensures forall k :: 0 <= k < |data| && data[k].Num? ==> valid[0] <= data[k].x <= valid[|valid| - 1]
  {
    forall k | 0 <= k < |data| && data[k].Num?
      ensures valid[0] <= data[k].x <= valid[|valid| - 1]
    {
      assert data[k] in multiset(data);
      assert multiset(valid)[data[k].x] > 0;
      assert data[k].x in valid;
      var p :| 0 <= p < |valid| && valid[p] == data[k].x;
      RealSort.SortedEnds(valid, p);
    }
  }

  lemma MeanBetween(sum: real, n: nat, lo: real, hi: real)
    requires n > 0
    requires (n as real) * lo <= sum <= (n as real) * hi
    ensures lo <= sum / (n as real) <= hi
  {
  }

  /** Every element of a constant sequence is that constant; its sum is n * v. */
  lemma {:induction false} ConstantSum(s: seq<real>, v: real)
    requires forall k :: 0 <= k < |s| ==> s[k] == v
    ensures RealSort.Sum(s) == (|s| as real) * v
  {
    if |s| > 0 {
      ConstantSum(s[1..], v);
    }
  }

  /** A grid holding one value everywhere has that value as min, max, median
      and mean, and a zero range. */
  lemma StatisticsOfConstantGrid(s: Store, v: real)
    requires s.derived.Some? && |s.derived.value.data| > 0
    requires forall k :: 0 <= k < |s.derived.value.data| ==> s.derived.value.data[k] == Num(v)
    ensures Statistics(s) == Some(Stats(|s.derived.value.data|, v, v, v, v, 0.0))
  {
    var data := s.derived.value.data;
    var nums := Numbers(data);
    NumbersOfConstant(data, v);
    var valid := RealSort.Sort(nums);
    PermutationOfConstant(nums, valid, v);
    SummariseConstant(valid, v);
  }

  /** A permutation of a constant sequence is that same constant sequence. */
  lemma PermutationOfConstant(a: seq<real>, b: seq<real>, v: real)
    requires forall k :: 0 <= k < |a| ==> a[k] == v
    requires multiset(b) == multiset(a) && |b| == |a|
    ensures forall k :: 0 <= k < |b| ==> b[k] == v
  {
    forall k | 0 <= k < |b| ensures b[k] == v {
      assert b[k] in multiset(a);
    }
  }

  /** The summary of a constant sequence. */
  lemma SummariseConstant(valid: seq<real>, v: real)
    requires |valid| > 0
    requires forall k :: 0 <= k < |valid| ==> valid[k] == v
    ensures Summarise(valid) == Stats(|valid|, v, v, v, v, 0.0)
  {
    ConstantSum(valid, v);
    assert RealSort.Sum(valid) / (|valid| as real) == v;
  }

  /** The valid values of a constant grid are that value, once per cell. */
  lemma {:induction false} NumbersOfConstant(data: seq<Value>, v: real)
    requires forall k :: 0 <= k < |data| ==> data[k] == Num(v)
    ensures |Numbers(data)| == |data|
    ensures forall k :: 0 <= k < |Numbers(data)| ==> Numbers(data)[k] == v
  {
    if |data| > 0 {
      NumbersOfConstant(data[1..], v);
    }
  }

  // ---------------------------------------------------------------------------
  // Reset
  // ---------------------------------------------------------------------------

  /** After a reset the raw grid is kept and every query reports no data. */
  lemma ResetEmptiesQueries(s: Store, row: int, col: int, lat: real, lon: real)
    ensures ResetMapDataPoint(s).raw == s.raw
    ensures FullRasterLayer(ResetMapDataPoint(s)).None?
    ensures Statistics(ResetMapDataPoint(s)).None?
    ensures ValueAtCell(ResetMapDataPoint(s), row, col).None?
    ensures ValueAtCoordinate(ResetMapDataPoint(s), lat, lon).None?
    ensures CesiumSize(ResetMapDataPoint(s)).None?
  {
  }
}

/** The raster store: one raw global grid and the canonical, longitude-rotated
    raster derived from it, with the pure queries that read that raster.
    The store is a value; every action returns the next store. */
module DataStore {
  import opened Wrappers
  import RealSort

  // ---------------------------------------------------------------------------
  // Grid geometry (fixed by the transform, not by the data)
  // ---------------------------------------------------------------------------

  const Rows: nat := 720
  const Cols: nat := 1440
  const CellCount: nat := Rows * Cols
  /** Half a row: the circular shift that turns 0..359.75 into -180..179.75. */
  const HalfTurn: nat := Cols / 2
  const CellDeg: real := 0.25
  const DefaultName: string := "surf_2t"

  /** Row-major position of cell (i, j) in a flat grid. */
  function Index(i: int, j: int): int {
    i * Cols + j
  }

  // ---------------------------------------------------------------------------
  // Data model
  // ---------------------------------------------------------------------------

  /** A grid value as JavaScript holds it. */
  datatype Value = Undefined | Null | NaN | Num(x: real)

  /** An element of a 2-D payload after the first: an array, or a scalar that
      the spread in the flattening loop cannot iterate. */
  datatype Row = Cells(cells: seq<Value>) | NonIterable(v: Value)

  /** The `data` field of the raw grid. `NoArray`: absent, falsy or not an array.
      `Flat`: an array whose elements are scalars. `Nested`: an array whose
      first element is itself an array (the 2-D branch). */
  datatype Payload =
    | NoArray
    | Flat(cells: seq<Value>)
    | Nested(first: seq<Value>, rest: seq<Row>)

  /** Producer parameters are carried through opaquely. */
  type Metadata = map<string, string>

  datatype RawGrid = RawGrid(name: Option<string>, data: Payload, params: Option<Metadata>)

  type Positive = x: real | x > 0.0 witness 1.0

  datatype Extent = Extent(west: real, south: real, east: real, north: real)

  datatype RasterInfo = RasterInfo(
    cellLat: Positive, cellLon: Positive,
    originLat: real, originLon: real,
    latitudes: seq<real>, longitudes: seq<real>)

  /** The published `mapDataPoint` record; `rows`/`cols` are its `shape`. */
  datatype Raster = Raster(
    name: string, data: seq<Value>, rows: nat, cols: nat,
    params: Option<Metadata>, extent: Extent, info: RasterInfo)

  /** `raw` is `rawData` (None for `null`); `derived` is `mapDataPoint`, None while
      all of its fields are null. */
  datatype Store = Store(raw: Option<RawGrid>, derived: Option<Raster>)

  /** Why a transform published nothing, or what it published. */
  datatype Outcome =
    | NoData
    | ShapeMismatch
    | LengthMismatch
    | SpreadError
    | Published(raster: Raster)

  // ---------------------------------------------------------------------------
  // Actions
  // ---------------------------------------------------------------------------

  /** Clears the derived raster back to its all-null shape. */
  function ResetMapDataPoint(s: Store): (r: Store)
    ensures r.raw == s.raw
    ensures r.derived.None?
  {
    s.(derived := None)
  }

  /** Stores the raw grid verbatim; nothing is derived yet. */
  function SetRawData(s: Store, raw: Option<RawGrid>): (r: Store)
    ensures r.raw == raw && r.derived == s.derived
  {
    s.(raw := raw)
  }

  /** Concatenates the rows after the first; a non-iterable row makes the spread
      throw, which is `None`. */
  function FlattenRows(rows: seq<Row>): (r: Option<seq<Value>>)
    ensures r.None? <==> exists k :: 0 <= k < |rows| && rows[k].NonIterable?
  {
    if |rows| == 0 then Some([])
    else match rows[0]
      case NonIterable(_) => None
      case Cells(c) =>
        match FlattenRows(rows[1..])
        case None => assert rows[1..][0] == rows[1]; None
        case Some(tail) =>
          assert forall k :: 1 <= k < |rows| ==> rows[k] == rows[1..][k - 1];
          Some(c + tail)
  }

  /** Reads a flat grid; past its end JavaScript yields `undefined`. */
  function At(flat: seq<Value>, k: nat): Value {
    if k < |flat| then flat[k] else Undefined
  }

  /** The flat index the rotation reads for output position `k`. */
  function SourceIndex(k: nat): nat {
    (k / Cols) * Cols + (k % Cols + HalfTurn) % Cols
  }

  lemma IndexSplit(i: int, j: int)
    requires 0 <= i < Rows && 0 <= j < Cols
    ensures 0 <= Index(i, j) < CellCount
    ensures Index(i, j) / Cols == i && Index(i, j) % Cols == j
  {
  }

  lemma IndexOf(k: int)
    requires 0 <= k < CellCount
    ensures 0 <= k / Cols < Rows && 0 <= k % Cols < Cols
    ensures k == Index(k / Cols, k % Cols)
  {
  }

  /** Rotates every row left by half its width. */
  function Rotate(flat: seq<Value>): (r: seq<Value>)
    ensures |r| == CellCount
    ensures forall i, j :: 0 <= i < Rows && 0 <= j < Cols ==>
              r[Index(i, j)] == At(flat, Index(i, (j + HalfTurn) % Cols))
  {
    var r := seq(CellCount, k requires 0 <= k < CellCount => At(flat, SourceIndex(k)));
    assert forall i, j :: 0 <= i < Rows && 0 <= j < Cols ==>
             r[Index(i, j)] == At(flat, Index(i, (j + HalfTurn) % Cols)) by {
      forall i, j | 0 <= i < Rows && 0 <= j < Cols
        ensures r[Index(i, j)] == At(flat, Index(i, (j + HalfTurn) % Cols))
      {
        IndexSplit(i, j);
      }
    }
    r
  }

  function Latitudes(): (r: seq<real>)
    ensures |r| == Rows
  {
    seq(Rows, i requires 0 <= i < Rows => 90.0 - (i as real) * CellDeg)
  }

  function Longitudes(): (r: seq<real>)
    ensures |r| == Cols
  {
    seq(Cols, j requires 0 <= j < Cols => -180.0 + (j as real) * CellDeg)
  }

  const GlobalExtent := Extent(-180.0, -89.75, 179.75, 90.0)

  /** The record published from a validated flat grid. */
  function Build(raw: RawGrid, flat: seq<Value>): (r: Raster)
    ensures |r.data| == CellCount
  {
    Raster(
      name := if raw.name.None? || raw.name.value == "" then DefaultName else raw.name.value,
      data := Rotate(flat),
      rows := Rows, cols := Cols,
      params := raw.params,
      extent := GlobalExtent,
      info := RasterInfo(CellDeg, CellDeg, 90.0, -180.0, Latitudes(), Longitudes()))
  }

  /** The flat grid a payload yields once its shape has been accepted. */
  function Flattened(p: Payload): Option<seq<Value>> {
    match p
    case NoArray => None
    case Flat(cells) => Some(cells)
    case Nested(first, rest) =>
      match FlattenRows(rest)
      case None => None
      case Some(tail) => Some(first + tail)
  }

  /** The validation and derivation of `datatransform`, as a pure function of
      the raw grid. */
  function Transform(raw: Option<RawGrid>): (o: Outcome)
    ensures o == NoData <==> raw.None? || raw.value.data.NoArray?
    ensures o == ShapeMismatch <==>
              raw.Some? && raw.value.data.Nested? &&
              (1 + |raw.value.data.rest| != Rows || |raw.value.data.first| != Cols)
    ensures o == LengthMismatch <==>
              raw.Some? && raw.value.data.Flat? && |raw.value.data.cells| != CellCount
    ensures o.Published? ==>
              && raw.Some?
              && Flattened(raw.value.data).Some?
              && var flat := Flattened(raw.value.data).value;
              && |o.raster.data| == CellCount
              && forall i, j :: 0 <= i < Rows && 0 <= j < Cols ==>
                   o.raster.data[Index(i, j)] == At(flat, Index(i, (j + HalfTurn) % Cols))
  {
    if raw.None? then NoData
    else match raw.value.data
      case NoArray => NoData
      case Nested(first, rest) =>
        if 1 + |rest| != Rows || |first| != Cols then ShapeMismatch
        else
          (match FlattenRows(rest)
           case None => SpreadError
           case Some(tail) => Published(Build(raw.value, first + tail)))
      case Flat(cells) =>
        if |cells| != CellCount then LengthMismatch
        else Published(Build(raw.value, cells))
  }

  /** `datatransform`: replaces the derived raster only when the transform
      publishes one. */
  function DataTransform(s: Store): (r: Store)
    ensures r.raw == s.raw
    ensures !Transform(s.raw).Published? ==> r == s
    ensures Transform(s.raw).Published? ==> r.derived == Some(Transform(s.raw).raster)
  {
    match Transform(s.raw)
    case Published(raster) => s.(derived := Some(raster))
    case _ => s
  }

  // ---------------------------------------------------------------------------
  // Queries
  // ---------------------------------------------------------------------------

  datatype Layer = Layer(
    name: string, values: seq<Value>, rows: nat, cols: nat,
    extent: Extent, info: RasterInfo, metadata: Option<Metadata>)

  /** `getFullRasterLayer`: a view of the published raster, or None. */
  function FullRasterLayer(s: Store): (r: Option<Layer>)
    ensures r.Some? <==> s.derived.Some?
    ensures r.Some? ==> r.value.values == s.derived.value.data &&
                        (r.value.rows, r.value.cols) == (s.derived.value.rows, s.derived.value.cols)
    ensures r.Some? ==> r.value.name == s.derived.value.name && r.value.extent == s.derived.value.extent &&
                        r.value.info == s.derived.value.info && r.value.metadata == s.derived.value.params
  {
    match s.derived
    case None => None
    case Some(m) => Some(Layer(m.name, m.data, m.rows, m.cols, m.extent, m.info, m.params))
  }

  /** The `width`/`height` fields of `getCesiumRasterData`. */
  function CesiumSize(s: Store): (r: Option<(nat, nat)>)
    ensures r.Some? <==> FullRasterLayer(s).Some?
    ensures r.Some? ==> r.value == (FullRasterLayer(s).value.cols, FullRasterLayer(s).value.rows)
  {
    match FullRasterLayer(s)
    case None => None
    case Some(layer) => Some((layer.cols, layer.rows))
  }

  /** `getValueAtRasterCell`: None for no data or a cell outside the shape. */
  function ValueAtCell(s: Store, row: int, col: int): (r: Option<Value>)
    ensures r.Some? <==> s.derived.Some? && 0 <= row < s.derived.value.rows && 0 <= col < s.derived.value.cols
    ensures r.Some? ==> r.value == At(s.derived.value.data, row * s.derived.value.cols + col)
  {
    match s.derived
    case None => None
    case Some(m) =>
      if row < 0 || col < 0 || row >= m.rows || col >= m.cols then None
      else Some(At(m.data, row * m.cols + col))
  }

  /** JavaScript's `Math.trunc`: rounds toward zero. */
  function Trunc(y: real): (r: int)
    ensures y >= 0.0 ==> r as real <= y < r as real + 1.0
    ensures y < 0.0 ==> r as real - 1.0 < y <= r as real
  {
    if y >= 0.0 then y.Floor else -((-y).Floor)
  }

  /** JavaScript's `x % 360`: the remainder takes the sign of the dividend. */
  function JsRem360(x: real): (r: real)
    ensures x >= 0.0 ==> 0.0 <= r < 360.0
    ensures x < 0.0 ==> -360.0 < r <= 0.0
    ensures ((x - r) / 360.0).Floor as real == (x - r) / 360.0
  {
    x - 360.0 * (Trunc(x / 360.0) as real)
  }

  /** `((lon + 180) % 360) - 180`, as written: east of -180 it lands in
      [-180, 180), west of it it stays at or below -180. */
  function NormalizeLon(lon: real): (r: real)
    ensures lon >= -180.0 ==> -180.0 <= r < 180.0
    ensures lon < -180.0 ==> r <= -180.0
    ensures -180.0 <= lon < 180.0 ==> r == lon
    ensures ((lon - r) / 360.0).Floor as real == (lon - r) / 360.0
  {
    JsRem360(lon + 180.0) - 180.0
  }

  /** The geometry every published raster has. */
  ghost predicate Canonical(m: Raster) {
    && m.rows == Rows && m.cols == Cols
    && |m.data| == CellCount
    && m.info.cellLat == CellDeg && m.info.cellLon == CellDeg
    && m.info.originLat == 90.0 && m.info.originLon == -180.0
  }

  /** The cell lookup for an already normalised longitude: floor division of
      the offsets from the origin by the cell size. On a published raster it
      finds a cell exactly for latitudes in (-90, 90] and longitudes in
      [-180, 180). */
  function LookupNormalised(s: Store, lat: real, lon: real): (r: Option<Value>)
    ensures s.derived.None? ==> r.None?
    ensures s.derived.Some? && Canonical(s.derived.value) ==>
              (r.Some? <==> -90.0 < lat <= 90.0 && -180.0 <= lon < 180.0)
  {
    match s.derived
    case None => None
    case Some(m) =>
      var row := ((m.info.originLat - lat) / m.info.cellLat).Floor;
      var col := ((lon - m.info.originLon) / m.info.cellLon).Floor;
      ValueAtCell(s, row, col)
  }

  /** `getValueAtCoordinate`, as written: truncating normalisation of the
      longitude, then the cell lookup. East of -180 a published raster answers
      exactly for latitudes in (-90, 90]. */
  function ValueAtCoordinate(s: Store, lat: real, lon: real): (r: Option<Value>)
    ensures s.derived.None? ==> r.None?
    ensures s.derived.Some? && Canonical(s.derived.value) && lon >= -180.0 ==>
              (r.Some? <==> -90.0 < lat <= 90.0)
  {
    if s.derived.None? then None else LookupNormalised(s, lat, NormalizeLon(lon))
  }

  /** Floored remainder modulo 360: always in [0, 360), a whole number of
      turns away from `x`. */
  function FlooredRem360(x: real): (r: real)
    ensures 0.0 <= r < 360.0
    ensures ((x - r) / 360.0).Floor as real == (x - r) / 360.0
  {
    x - 360.0 * ((x / 360.0).Floor as real)
  }

  /** The longitude normalisation the code's comment describes: into
      [-180, 180) for every input. */
  function NormalizeLonWrapped(lon: real): (r: real)
    ensures -180.0 <= r < 180.0
    ensures -180.0 <= lon < 180.0 ==> r == lon
    ensures ((lon - r) / 360.0).Floor as real == (lon - r) / 360.0
  {
    FlooredRem360(lon + 180.0) - 180.0
  }

  /** `getValueAtCoordinate` with the wrapped normalisation: a published
      raster answers for every longitude exactly when the latitude is in
      (-90, 90]. */
  function ValueAtCoordinateWrapped(s: Store, lat: real, lon: real): (r: Option<Value>)
    ensures s.derived.None? ==> r.None?
    ensures s.derived.Some? && Canonical(s.derived.value) ==> (r.Some? <==> -90.0 < lat <= 90.0)
  {
    if s.derived.None? then None else LookupNormalised(s, lat, NormalizeLonWrapped(lon))
  }

  // ---------------------------------------------------------------------------
  // Statistics
  // ---------------------------------------------------------------------------

  datatype Stats = Stats(count: nat, min: real, max: real, mean: real, median: real, range: real)

  /** The values that are neither null/undefined nor NaN, in grid order. */
  function Numbers(data: seq<Value>): (r: seq<real>)
    ensures forall x :: multiset(r)[x] == multiset(data)[Num(x)]
    ensures |r| <= |data|
  {
    if |data| == 0 then []
    else
      assert data == [data[0]] + data[1..];
      match data[0]
      case Num(x) => [x] + Numbers(data[1..])
      case _ => Numbers(data[1..])
  }

  /** The summary of a non-empty ascending sequence of valid values. */
  function Summarise(valid: seq<real>): (st: Stats)
    requires |valid| > 0
    ensures st.count == |valid|
  {
    var n := |valid|;
    Stats(
      count := n,
      min := valid[0],
      max := valid[n - 1],
      mean := RealSort.Sum(valid) / (n as real),
      median := valid[n / 2],
      range := valid[n - 1] - valid[0])
  }

  /** `getRasterStatistics`: None when there is no data or no valid value. */
  function Statistics(s: Store): (r: Option<Stats>)
    ensures r.None? <==> s.derived.None? || |Numbers(s.derived.value.data)| == 0
    ensures r.Some? ==> r == Some(Summarise(RealSort.Sort(Numbers(s.derived.value.data))))
  {
    match s.derived
    case None => None
    case Some(m) =>
      var valid := RealSort.Sort(Numbers(m.data));
      if |valid| == 0 then None else Some(Summarise(valid))
  }
}

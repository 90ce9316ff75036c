/**
 * The pure parts of backend/app/services/data_processor.py: tiling a 2-D array into square
 * segments and assembling the input record of the model service.
 */
module DataProcessor {
  import opened Wrappers

  /** A two-dimensional numpy array of `height` rows and `width` columns. */
  datatype Grid = Grid(height: nat, width: nat, cells: seq<seq<real>>)

  predicate Rectangular(g: Grid)
  {
    |g.cells| == g.height && forall r :: 0 <= r < |g.cells| ==> |g.cells[r]| == g.width
  }

  /** One tile: its cells, its `(x, y)` position and its `(rows, columns)` shape. */
  datatype Segment = Segment(data: seq<seq<real>>, position: (int, int), shape: (int, int))

  /** The `ValueError` `range` raises for a zero step. */
  const ZeroStep := "range() arg 3 must not be zero"

  function Min(a: int, b: int): int
  {
    if a <= b then a else b
  }

  /** The number of values `range(0, a, s)` yields for a positive step: `ceil(a / s)`. */
  function CeilDiv(a: nat, s: nat): nat
    requires s > 0
  {
    (a + s - 1) / s
  }

  /** The length numpy gives `v[start:start + s]` on an axis of length `n`. */
  function SliceLen(start: nat, s: nat, n: nat): nat
  {
    if start >= n then 0 else Min(s, n - start)
  }

  /** `data[y:y+s, x:x+s]` */
  function Slice(g: Grid, y: nat, x: nat, s: nat): (r: seq<seq<real>>)
    requires Rectangular(g)
    ensures |r| == SliceLen(y, s, g.height)
    ensures forall a :: 0 <= a < |r| ==> |r[a]| == SliceLen(x, s, g.width)
    ensures forall a, b :: 0 <= a < |r| && 0 <= b < |r[a]| ==>
              y + a < g.height && x + b < g.width && r[a][b] == g.cells[y + a][x + b]
  {
    var rows := SliceLen(y, s, g.height);
    var cols := SliceLen(x, s, g.width);
    seq(rows, a requires 0 <= a < rows => if cols == 0 then [] else g.cells[y + a][x .. x + cols])
  }

  /** The tile whose top-left cell is row `y`, column `x`. */
  function SegmentFrom(g: Grid, s: nat, y: nat, x: nat): Segment
    requires Rectangular(g)
  {
    Segment(Slice(g, y, x, s), (x, y), (SliceLen(y, s, g.height), SliceLen(x, s, g.width)))
  }

  /**
   * The inner loop from column `x` on, for the rows starting at `y`. The loop keeps only
   * non-empty slices, but every slice it reaches is non-empty (`TilesAreNonEmpty`).
   */
  function RowTiles(g: Grid, s: nat, y: nat, x: nat): seq<Segment>
    requires Rectangular(g) && s > 0
    decreases g.width - x
  {
    if x >= g.width then [] else [SegmentFrom(g, s, y, x)] + RowTiles(g, s, y, x + s)
  }

  /** The outer loop from row `y` on. */
  function Tiles(g: Grid, s: nat, y: nat): seq<Segment>
    requires Rectangular(g) && s > 0
    decreases g.height - y
  {
    if y >= g.height then [] else RowTiles(g, s, y, 0) + Tiles(g, s, y + s)
  }

  /**
   * `segment_global_data(data, segment_size)`: the nested `range` loops, y outer and x inner,
   * keeping each non-empty slice. A zero step raises and a negative step yields no tiles.
   */
  method SegmentGlobalData(g: Grid, s: int) returns (r: Result<seq<Segment>, string>)
    requires Rectangular(g)
    ensures s == 0 ==> r == Failure(ZeroStep)
    ensures s < 0 ==> r == Success([])
    ensures s > 0 ==> r == Success(Tiles(g, s, 0))
  {
    if s == 0 {
      return Failure(ZeroStep);
    }
    if s < 0 {
      return Success([]);
    }
    var segments: seq<Segment> := [];
    var y := 0;
    while y < g.height
      invariant segments + Tiles(g, s, y) == Tiles(g, s, 0)
      decreases g.height - y
    {
      var x := 0;
      TilesUnfold(g, s, y);
      while x < g.width
        invariant segments + RowTiles(g, s, y, x) + Tiles(g, s, y + s) == Tiles(g, s, 0)
        decreases g.width - x
      {
        var segment := SegmentFrom(g, s, y, x);
        TilesAreNonEmpty(g, s, y, x);
        if Size(segment) > 0 {
          RowTilesUnfold(g, s, y, x);
          AppendStep(segments, segment, RowTiles(g, s, y, x + s), Tiles(g, s, y + s));
          segments := segments + [segment];
        } else {
          assert false;
        }
        x := x + s;
      }
      assert RowTiles(g, s, y, x) == [];
      y := y + s;
    }
    assert Tiles(g, s, y) == [];
    assert segments + [] == segments;
    r := Success(segments);
  }

  /** `segment.size`: the number of cells of a tile. */
  function Size(t: Segment): int
  {
    t.shape.0 * t.shape.1
  }

  /** The inner loop's first pass from column `x`: one tile, then the rest of the row. */
  lemma RowTilesUnfold(g: Grid, s: nat, y: nat, x: nat)
    requires Rectangular(g) && s > 0 && x < g.width
    ensures RowTiles(g, s, y, x) == [SegmentFrom(g, s, y, x)] + RowTiles(g, s, y, x + s)
  {
  }

  lemma AppendStep<T>(done: seq<T>, t: T, row: seq<T>, rest: seq<T>)
    ensures done + ([t] + row) + rest == (done + [t]) + row + rest
  {
  }

  /** Row of tiles from block column `c` on: one tile per remaining block column. */
  lemma {:induction false} RowTilesLength(g: Grid, s: nat, y: nat, c: nat)
    requires Rectangular(g) && s > 0 && c <= CeilDiv(g.width, s)
    ensures |RowTiles(g, s, y, c * s)| == CeilDiv(g.width, s) - c
    decreases CeilDiv(g.width, s) - c
  {
    BelowCeil(c, g.width, s);
    if c < CeilDiv(g.width, s) {
      MulStep(c, s);
      RowTilesLength(g, s, y, c + 1);
    }
  }

  /** The j-th tile of the row from block column `c` on is the one the loop reaches at column `(c + j) * s`. */
  lemma {:induction false} RowTilesAt(g: Grid, s: nat, y: nat, c: nat, j: nat)
    requires Rectangular(g) && s > 0 && c + j < CeilDiv(g.width, s)
    ensures j < |RowTiles(g, s, y, c * s)| && RowTiles(g, s, y, c * s)[j] == SegmentFrom(g, s, y, (c + j) * s)
    decreases j
  {
    BelowCeil(c, g.width, s);
    MulStep(c, s);
    if j > 0 {
      RowTilesAt(g, s, y, c + 1, j - 1);
      assert c + 1 + (j - 1) == c + j;
    }
  }

  /** The outer loop's first pass: one full row of tiles, then the tiles from the next row on. */
  lemma TilesUnfold(g: Grid, s: nat, y: nat)
    requires Rectangular(g) && s > 0 && y < g.height
    ensures Tiles(g, s, y) == RowTiles(g, s, y, 0) + Tiles(g, s, y + s)
    ensures |RowTiles(g, s, y, 0)| == CeilDiv(g.width, s)
  {
    RowTilesLength(g, s, y, 0);
    assert 0 * s == 0;
  }

  /** The tile in block row `q` and block column `c`. */
  function Block(g: Grid, s: nat, q: nat, c: nat): Segment
    requires Rectangular(g)
  {
    SegmentFrom(g, s, q * s, c * s)
  }

  /** The row-major index of block `(q, c)` in rows of `nx` blocks. */
  function BlockIndex(q: nat, c: nat, nx: nat): nat
  {
    q * nx + c
  }

  /** From block row `q0` on there are `ceil(w / s)` tiles for each remaining block row. */
  lemma {:induction false} TilesLength(g: Grid, s: nat, q0: nat)
    requires Rectangular(g) && s > 0 && q0 <= CeilDiv(g.height, s)
    ensures |Tiles(g, s, q0 * s)| == (CeilDiv(g.height, s) - q0) * CeilDiv(g.width, s)
    decreases CeilDiv(g.height, s) - q0
  {
    var ny := CeilDiv(g.height, s);
    var nx := CeilDiv(g.width, s);
    BelowCeil(q0, g.height, s);
    if q0 < ny {
      var y0 := Product(q0, s);
      MulStep(q0, s);
      TilesUnfold(g, s, y0);
      TilesLength(g, s, q0 + 1);
      var rows := ny - q0 - 1;
      MulStep(rows, nx);
      assert |Tiles(g, s, y0)| == nx + rows * nx == (rows + 1) * nx;
    }
  }

  /**
   * Among the tiles from block row `q0` on, block `(q, c)` sits at index
   * `(q - q0) * ceil(w / s) + c`: the tiles come in row-major order.
   */
  lemma {:induction false} TilesAt(g: Grid, s: nat, q0: nat, q: nat, c: nat)
    requires Rectangular(g) && s > 0 && q0 <= q < CeilDiv(g.height, s) && c < CeilDiv(g.width, s)
    ensures BlockIndex(q - q0, c, CeilDiv(g.width, s)) < |Tiles(g, s, q0 * s)|
    ensures Tiles(g, s, q0 * s)[BlockIndex(q - q0, c, CeilDiv(g.width, s))] == Block(g, s, q, c)
    decreases q - q0
  {
    if q > q0 {
      TilesAt(g, s, q0 + 1, q, c);
    }
    TilesIndexStep(g, s, q0, q, c);
  }

  /** One step of `TilesAt`: block `(q, c)` is in the first row of tiles or in the rest. */
  lemma TilesIndexStep(g: Grid, s: nat, q0: nat, q: nat, c: nat)
    requires Rectangular(g) && s > 0 && q0 <= q < CeilDiv(g.height, s) && c < CeilDiv(g.width, s)
    requires q > q0 ==>
               BlockIndex(q - (q0 + 1), c, CeilDiv(g.width, s)) < |Tiles(g, s, (q0 + 1) * s)|
               && Tiles(g, s, (q0 + 1) * s)[BlockIndex(q - (q0 + 1), c, CeilDiv(g.width, s))] == Block(g, s, q, c)
    ensures BlockIndex(q - q0, c, CeilDiv(g.width, s)) < |Tiles(g, s, q0 * s)|
    ensures Tiles(g, s, q0 * s)[BlockIndex(q - q0, c, CeilDiv(g.width, s))] == Block(g, s, q, c)
  {
    var nx := CeilDiv(g.width, s);
    BelowCeil(q0, g.height, s);
    var y0 := Product(q0, s);
    if q == q0 {
      FirstRowIndex(g, s, y0, c);
      BlockIndexFirst(c, nx);
    } else {
      var k' := BlockIndex(q - (q0 + 1), c, nx);
      MulStep(q0, s);
      LaterRowIndex(g, s, y0, k');
      BlockIndexNext(q - (q0 + 1), c, nx);
    }
  }

  /** The first `ceil(w / s)` tiles from row `y` are that row's tiles. */
  lemma FirstRowIndex(g: Grid, s: nat, y: nat, c: nat)
    requires Rectangular(g) && s > 0 && y < g.height && c < CeilDiv(g.width, s)
    ensures c < |Tiles(g, s, y)| && Tiles(g, s, y)[c] == SegmentFrom(g, s, y, c * s)
  {
    TilesUnfold(g, s, y);
    RowTilesAt(g, s, y, 0, c);
    assert 0 * s == 0;
  }

  /** After the first `ceil(w / s)` tiles from row `y` come the tiles from row `y + s` on. */
  lemma LaterRowIndex(g: Grid, s: nat, y: nat, k: nat)
    requires Rectangular(g) && s > 0 && y < g.height && k < |Tiles(g, s, y + s)|
    ensures CeilDiv(g.width, s) + k < |Tiles(g, s, y)|
    ensures Tiles(g, s, y)[CeilDiv(g.width, s) + k] == Tiles(g, s, y + s)[k]
  {
    TilesUnfold(g, s, y);
  }

  /**
   * For a positive step the tiling has `ceil(h / s) * ceil(w / s)` tiles, block `(q, c)` at
   * index `q * ceil(w / s) + c`, which is the tile at position `(c * s, q * s)`.
   */
  lemma TilesRowMajor(g: Grid, s: nat)
    requires Rectangular(g) && s > 0
    ensures |Tiles(g, s, 0)| == CeilDiv(g.height, s) * CeilDiv(g.width, s)
    ensures forall q, c :: 0 <= q < CeilDiv(g.height, s) && 0 <= c < CeilDiv(g.width, s) ==>
              BlockIndex(q, c, CeilDiv(g.width, s)) < |Tiles(g, s, 0)|
              && Tiles(g, s, 0)[BlockIndex(q, c, CeilDiv(g.width, s))] == Block(g, s, q, c)
  {
    TilesLength(g, s, 0);
    assert 0 * s == 0;
    forall q, c | 0 <= q < CeilDiv(g.height, s) && 0 <= c < CeilDiv(g.width, s)
      ensures BlockIndex(q, c, CeilDiv(g.width, s)) < |Tiles(g, s, 0)|
      ensures Tiles(g, s, 0)[BlockIndex(q, c, CeilDiv(g.width, s))] == Block(g, s, q, c)
    {
      TilesAt(g, s, 0, q, c);
    }
  }

  /** `a * s` as a natural number. */
  function Product(a: nat, s: nat): (p: nat)
    ensures p == a * s
  {
    a * s
  }

  lemma BlockIndexFirst(c: nat, nx: nat)
    ensures BlockIndex(0, c, nx) == c
  {
  }

  lemma BlockIndexNext(p: nat, c: nat, nx: nat)
    ensures BlockIndex(p + 1, c, nx) == nx + BlockIndex(p, c, nx)
  {
    MulStep(p, nx);
  }

  lemma MulStep(a: int, s: int)
    ensures (a + 1) * s == a * s + s
  {
  }

  lemma MulPositive(a: int, b: int)
    requires a >= 1 && b >= 1
    ensures a * b >= 1
  {
  }

  /** A smaller factor gives a product at least one step smaller. */
  lemma MulStrict(a: int, b: int, s: nat)
    ensures a < b ==> a * s + s <= b * s
  {
    if a < b {
      var d := b - a;
      Distribute(a, d, s);
      NonnegativeMul(d - 1, s);
      MulStep(d - 1, s);
    }
  }

  lemma Distribute(a: int, d: int, s: int)
    ensures (a + d) * s == a * s + d * s
  {
  }

  lemma NonnegativeMul(x: nat, y: nat)
    ensures x * y >= 0
  {
  }

  /** `q < ceil(a / s)` exactly when the value `q * s` is still inside `range(0, a, s)`. */
  lemma BelowCeil(q: nat, a: nat, s: nat)
    requires s > 0
    ensures q < CeilDiv(a, s) <==> q * s < a
  {
    var c := CeilDiv(a, s);
    var m := (a + s - 1) % s;
    assert a + s - 1 == c * s + m;
    MulStep(c - 1, s);
    MulStrict(q, c, s);
    MulStrict(c - 1, q, s);
  }

  /** The block row holding coordinate `i` is `i / s`, and no other. */
  lemma BlockOf(i: nat, s: nat, q: nat)
    requires s > 0
    ensures q * s <= i < q * s + s <==> q == i / s
  {
    var p := i / s;
    assert i == p * s + i % s;
    MulStrict(q, p, s);
    MulStrict(p, q, s);
  }

  /** Tile `t` covers the cell in row `i`, column `j`. */
  predicate Covers(t: Segment, i: int, j: int)
  {
    t.position.1 <= i < t.position.1 + t.shape.0 && t.position.0 <= j < t.position.0 + t.shape.1
  }

  /**
   * The tiles partition the array: each cell lies in exactly one tile, the one in block row
   * `i / s` and block column `j / s`.
   */
  lemma CoverExactlyOnce(g: Grid, s: nat, i: nat, j: nat)
    requires Rectangular(g) && s > 0 && i < g.height && j < g.width
    ensures i / s < CeilDiv(g.height, s) && j / s < CeilDiv(g.width, s)
    ensures forall q, c :: 0 <= q < CeilDiv(g.height, s) && 0 <= c < CeilDiv(g.width, s) ==>
              (Covers(Block(g, s, q, c), i, j) <==> q == i / s && c == j / s)
  {
    BlockOf(i, s, i / s);
    BlockOf(j, s, j / s);
    BelowCeil(i / s, g.height, s);
    BelowCeil(j / s, g.width, s);
    forall q, c | 0 <= q < CeilDiv(g.height, s) && 0 <= c < CeilDiv(g.width, s)
      ensures Covers(Block(g, s, q, c), i, j) <==> q == i / s && c == j / s
    {
      BlockOf(i, s, q);
      BlockOf(j, s, c);
      BelowCeil(q, g.height, s);
      BelowCeil(c, g.width, s);
    }
  }

  /** Offset `(a, b)` inside block `(q, c)` holds the array's cell at row `q * s + a`, column `c * s + b`. */
  lemma BlockCell(g: Grid, s: nat, q: nat, c: nat, a: nat, b: nat)
    requires Rectangular(g) && a < s && b < s && q * s + a < g.height && c * s + b < g.width
    ensures a < |Block(g, s, q, c).data| && b < |Block(g, s, q, c).data[a]|
    ensures Block(g, s, q, c).data[a][b] == g.cells[q * s + a][c * s + b]
  {
    var y := Product(q, s);
    var x := Product(c, s);
    var d := Slice(g, y, x, s);
    assert |d| == SliceLen(y, s, g.height) > a;
    assert |d[a]| == SliceLen(x, s, g.width) > b;
  }

  /** The `if segment.size > 0` guard never drops a tile the loops reach. */
  lemma TilesAreNonEmpty(g: Grid, s: nat, y: nat, x: nat)
    requires Rectangular(g) && s > 0 && y < g.height && x < g.width
    ensures Size(SegmentFrom(g, s, y, x)) >= 1
  {
    var t := SegmentFrom(g, s, y, x);
    MulPositive(t.shape.0, t.shape.1);
  }

  const UrbanExpansionKey := "urban_expansion"
  const TemperatureKey := "temperature"
  const PrecipitationKey := "precipitation"
  const HistoricalYieldsKey := "historical_yields"

  /**
   * `prepare_model_input(...)`: the four inputs, unchanged, under four fixed keys; a missing
   * historical dataset is stored as `None`.
   */
  function PrepareModelInput<D>(urban: D, temperature: D, precipitation: D, historicalYields: Option<D>)
    : (r: map<string, Option<D>>)
    ensures r.Keys == {UrbanExpansionKey, TemperatureKey, PrecipitationKey, HistoricalYieldsKey}
    ensures r[UrbanExpansionKey] == Some(urban) && r[TemperatureKey] == Some(temperature)
    ensures r[PrecipitationKey] == Some(precipitation) && r[HistoricalYieldsKey] == historicalYields
  {
    map[UrbanExpansionKey := Some(urban), TemperatureKey := Some(temperature),
        PrecipitationKey := Some(precipitation), HistoricalYieldsKey := historicalYields]
  }
}

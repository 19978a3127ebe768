/** The prediction grid: a raster of points over a bounding box around New
    York City, each labelled with the borough whose centroid is nearest in
    plain (latitude, longitude) degrees. */
module NycGrid {
  import opened Boroughs

  /** The bounding box, in degrees. */
  const NORTH: real := 40.91553
  const SOUTH: real := 40.49612
  const EAST: real := -73.70018
  const WEST: real := -74.25909

  /** The default spacing between grid points, in degrees. */
  const RESOLUTION: real := 0.01

  datatype GridPoint = GridPoint(lat: real, lon: real, borough: string)

  /** The smallest integer at least `x`. */
  function Ceil(x: real): (c: int)
    ensures x <= c as real < x + 1.0
  {
    if x.Floor as real == x then x.Floor else x.Floor + 1
  }

  /** The number of values `np.arange(start, stop, step)` yields: the least
      count `n` for which `start + n * step` reaches `stop`. */
  function ArangeLength(start: real, stop: real, step: real): (n: nat)
    requires step > 0.0
    ensures start + n as real * step >= stop
    ensures n > 0 ==> start + (n - 1) as real * step < stop
  {
    var x := (stop - start) / step;
    assert x * step == stop - start;
    if x <= 0.0 then 0
    else
      var c := Ceil(x);
      assert c as real * step >= x * step by {
        ScaleReal(x, c as real, step);
      }
      assert (c - 1) as real * step < x * step by {
        ScaleRealStrict((c - 1) as real, x, step);
      }
      assert start + (c - 1) as real * step < stop;
      c
  }

  /** Scaling by a positive step keeps the order of two reals. */
  lemma ScaleReal(a: real, b: real, step: real)
    requires a <= b && step > 0.0
    ensures a * step <= b * step
  {
    assert b * step - a * step == (b - a) * step;
  }

  /** Scaling by a positive step keeps a strict order of two reals. */
  lemma ScaleRealStrict(a: real, b: real, step: real)
    requires a < b && step > 0.0
    ensures a * step < b * step
  {
    assert b * step - a * step == (b - a) * step;
  }

  /** A larger index gives a larger value: the arange is increasing. */
  lemma ScaleMonotone(i: nat, j: nat, step: real)
    requires i <= j && step > 0.0
    ensures i as real * step <= j as real * step
  {
  }

  /** Value `i` of the arange lies in [start, stop). */
  lemma ArangeBounds(start: real, stop: real, step: real, i: nat)
    requires step > 0.0 && i < ArangeLength(start, stop, step)
    ensures start <= start + i as real * step < stop
  {
    var n := ArangeLength(start, stop, step);
    assert 0.0 <= i as real * step by {
      ScaleMonotone(0, i, step);
    }
    assert i as real * step <= (n - 1) as real * step by {
      ScaleMonotone(i, n - 1, step);
    }
  }

  /** `np.arange(start, stop, step)` for a positive step. */
  function Arange(start: real, stop: real, step: real): (a: seq<real>)
    requires step > 0.0
    ensures |a| == ArangeLength(start, stop, step)
    ensures forall i :: 0 <= i < |a| ==> a[i] == start + i as real * step
    ensures forall i :: 0 <= i < |a| ==> start <= a[i] < stop
    ensures start + |a| as real * step >= stop
  {
    var n := ArangeLength(start, stop, step);
    var a := seq(n, i requires 0 <= i < n => start + i as real * step);
    forall i | 0 <= i < n
      ensures start <= a[i] < stop
    {
      ArangeBounds(start, stop, step, i);
    }
    a
  }

  /** `np.meshgrid(xs, ys)`: two arrays of |ys| rows and |xs| columns; the
      first repeats `xs` along every row, the second `ys` down every column. */
  function Meshgrid(xs: seq<real>, ys: seq<real>): (m: (seq<seq<real>>, seq<seq<real>>))
    ensures |m.0| == |ys| && |m.1| == |ys|
    ensures forall i :: 0 <= i < |ys| ==> |m.0[i]| == |xs| && |m.1[i]| == |xs|
    ensures forall i, j :: 0 <= i < |ys| && 0 <= j < |xs| ==> m.0[i][j] == xs[j] && m.1[i][j] == ys[i]
  {
    (seq(|ys|, _ => xs), seq(|ys|, i requires 0 <= i < |ys| => seq(|xs|, _ => ys[i])))
  }

  /** Every row of `m` has `width` entries. */
  predicate Rectangular<T>(m: seq<seq<T>>, width: nat)
  {
    forall i :: 0 <= i < |m| ==> |m[i]| == width
  }

  /** `.flatten()`: the rows one after another (row-major order). */
  function Flatten<T>(m: seq<seq<T>>): seq<T>
  {
    if m == [] then [] else m[0] + Flatten(m[1..])
  }

  /** Multiplying by a positive factor keeps the order. */
  lemma {:induction false} MulMonotone(w: int, a: int, b: int)
    requires w > 0 && a <= b
    ensures w * a <= w * b
    decreases b - a
  {
    if a < b {
      MulMonotone(w, a, b - 1);
      assert w * b == w * (b - 1) + w;
    }
  }

  /** An index below `h * w` has its row below `h`. */
  lemma DivBelow(k: int, w: int, h: int)
    requires w > 0 && 0 <= k < h * w
    ensures 0 <= k / w < h
  {
    var q := k / w;
    assert k == w * q + k % w;
    if q >= h {
      MulMonotone(w, h, q);
    }
  }

  /** A flattened rectangle of width `w` has `w` entries per row. */
  lemma {:induction false} FlattenLength<T>(m: seq<seq<T>>, w: nat)
    requires Rectangular(m, w)
    ensures |Flatten(m)| == |m| * w
  {
    if m != [] {
      FlattenLength(m[1..], w);
      assert |m| * w == w + |m[1..]| * w;
    }
  }

  /** Entry `i * w + j` of a flattened rectangle of width `w` is row `i`,
      column `j`. */
  lemma {:induction false} FlattenAt<T>(m: seq<seq<T>>, w: nat, i: nat, j: nat)
    requires Rectangular(m, w) && i < |m| && j < w
    ensures |Flatten(m)| == |m| * w
    ensures i * w + j < |Flatten(m)| && Flatten(m)[i * w + j] == m[i][j]
    decreases i
  {
    FlattenLength(m, w);
    assert Flatten(m) == m[0] + Flatten(m[1..]);
    if i > 0 {
      FlattenAt(m[1..], w, i - 1, j);
      assert i * w + j == w + ((i - 1) * w + j);
    }
  }

  /** Index `k` of a rectangle of height `h` and width `w` is row `k / w`,
      column `k % w`. */
  lemma RowColumn(k: int, w: int, h: int)
    requires w > 0 && 0 <= k < h * w
    ensures 0 <= k / w < h && 0 <= k % w < w && k == (k / w) * w + k % w
  {
    DivBelow(k, w, h);
  }

  /** The key `min` uses: squared distance in degrees, with no projection. */
  function PlanarKey(p: Coord, c: Coord): (d: real)
    ensures d >= 0.0
  {
    (p.0 - c.0) * (p.0 - c.0) + (p.1 - c.1) * (p.1 - c.1)
  }

  /** The coordinates of the flattened mesh of `lats` by `lons`, in order. */
  function GridCoords(lats: seq<real>, lons: seq<real>): (pts: seq<Coord>)
    requires |lons| > 0
    ensures |pts| == |lats| * |lons|
    ensures forall k :: 0 <= k < |pts| ==>
      0 <= k / |lons| < |lats| && pts[k] == (lats[k / |lons|], lons[k % |lons|])
  {
    var mesh := Meshgrid(lons, lats);
    FlattenLength(mesh.0, |lons|);
    FlattenLength(mesh.1, |lons|);
    var latFlat := Flatten(mesh.1);
    var lonFlat := Flatten(mesh.0);
    forall k | 0 <= k < |latFlat|
      ensures 0 <= k / |lons| < |lats|
      ensures latFlat[k] == lats[k / |lons|] && lonFlat[k] == lons[k % |lons|]
    {
      RowColumn(k, |lons|, |lats|);
      FlattenAt(mesh.0, |lons|, k / |lons|, k % |lons|);
      FlattenAt(mesh.1, |lons|, k / |lons|, k % |lons|);
    }
    seq(|latFlat|, k requires 0 <= k < |latFlat| => (latFlat[k], lonFlat[k]))
  }

  /** `generate_nyc_grid(resolution)`: latitude rows from south to north,
      longitude columns from west to east, flattened row by row, each point
      labelled with its nearest borough centroid. */
  function GenerateNycGrid(resolution: real): (g: seq<GridPoint>)
    requires resolution > 0.0
    ensures var lats := Arange(SOUTH, NORTH, resolution);
            var lons := Arange(WEST, EAST, resolution);
            |lons| > 0 && |g| == |lats| * |lons| &&
            forall k :: 0 <= k < |g| ==>
              0 <= k / |lons| < |lats| && g[k].lat == lats[k / |lons|] && g[k].lon == lons[k % |lons|]
    ensures forall k :: 0 <= k < |g| ==> SOUTH <= g[k].lat < NORTH && WEST <= g[k].lon < EAST
    ensures forall k :: 0 <= k < |g| ==> g[k].borough == NearestBorough((g[k].lat, g[k].lon), PlanarKey)
  {
    var lats := Arange(SOUTH, NORTH, resolution);
    var lons := Arange(WEST, EAST, resolution);
    assert |lons| > 0;
    var pts := GridCoords(lats, lons);
    seq(|pts|, k requires 0 <= k < |pts| => GridPoint(pts[k].0, pts[k].1, NearestBorough(pts[k], PlanarKey)))
  }

  /** The grid built once, at the default resolution. */
  const NYC_GRID: seq<GridPoint> := GenerateNycGrid(RESOLUTION)

  /** `get_nyc_grid()`: the grid at 0.01 degrees, 42 latitude rows of 56
      points each. */
  function GetNycGrid(): (g: seq<GridPoint>)
    ensures |g| == 42 * 56
    ensures forall k :: 0 <= k < |g| ==>
      g[k].lat == SOUTH + (k / 56) as real * RESOLUTION && g[k].lon == WEST + (k % 56) as real * RESOLUTION
    ensures forall k :: 0 <= k < |g| ==> g[k].borough == NearestBorough((g[k].lat, g[k].lon), PlanarKey)
    ensures forall k :: 0 <= k < |g| ==> SOUTH <= g[k].lat < NORTH && WEST <= g[k].lon < EAST
  {
    assert ArangeLength(SOUTH, NORTH, RESOLUTION) == 42;
    assert ArangeLength(WEST, EAST, RESOLUTION) == 56;
    NYC_GRID
  }
}

/**
 * The uniform spatial grid of spaceio/utils/performance.ts: space objects are
 * filed in square cells keyed by the floor of their coordinates divided by
 * the cell size, and a neighbourhood query collects the cells around a point.
 */
module SpatialGrids {
  import opened Numerics
  import opened SpaceObjects

  type Cell = (int, int)

  /** The cell a point falls in: the floors of its coordinates divided by the cell size. */
  function CellOf(x: real, y: real, cellSize: real): Cell
    requires cellSize != 0.0
  {
    (Floor(x / cellSize), Floor(y / cellSize))
  }

  /** An insertion since the last clear: the object and the position it was filed at. */
  datatype Filing = Filing(obj: SpaceObject, x: real, y: real)

  /** The objects filed under cell c, in insertion order. */
  function Bucket(log: seq<Filing>, cellSize: real, c: Cell): (b: seq<SpaceObject>)
    requires cellSize != 0.0
    ensures |b| <= |log|
  {
    if log == [] then []
    else
      var last := log[|log| - 1];
      Bucket(log[..|log| - 1], cellSize, c) + if CellOf(last.x, last.y, cellSize) == c then [last.obj] else []
  }

  /** A bucket holds exactly the objects filed under its cell. */
  lemma {:induction false} BucketMembers(log: seq<Filing>, cellSize: real, c: Cell, o: SpaceObject)
    requires cellSize != 0.0
    ensures o in Bucket(log, cellSize, c) <==>
      exists j :: 0 <= j < |log| && log[j].obj == o && CellOf(log[j].x, log[j].y, cellSize) == c
  {
    if log != [] {
      var init := log[..|log| - 1];
      BucketMembers(init, cellSize, c, o);
      if o in Bucket(init, cellSize, c) {
        var j :| 0 <= j < |init| && init[j].obj == o && CellOf(init[j].x, init[j].y, cellSize) == c;
        assert log[j] == init[j];
      }
      if exists j :: 0 <= j < |log| && log[j].obj == o && CellOf(log[j].x, log[j].y, cellSize) == c {
        var j :| 0 <= j < |log| && log[j].obj == o && CellOf(log[j].x, log[j].y, cellSize) == c;
        if j < |init| {
          assert init[j] == log[j];
        }
      }
    }
  }

  /** The objects of cell c: the map's entry, or none when the cell has none (`if (cell)`). */
  function CellAt(grid: map<Cell, seq<SpaceObject>>, c: Cell): seq<SpaceObject>
  {
    if c in grid then grid[c] else []
  }

  /** The number of cells a window of cell radius r spans on each axis. */
  function Width(r: int): nat
  {
    if r < 0 then 0 else 2 * r + 1
  }

  /** The cells (a, cy - r), ..., (a, cy - r + m - 1) concatenated: the inner loop over dy. */
  function Strip(grid: map<Cell, seq<SpaceObject>>, a: int, cy: int, r: int, m: nat): seq<SpaceObject>
  {
    if m == 0 then [] else Strip(grid, a, cy, r, m - 1) + CellAt(grid, (a, cy - r + m - 1))
  }

  /** The strips of columns cx - r, ..., cx - r + n - 1 concatenated: the outer loop over dx. */
  function Block(grid: map<Cell, seq<SpaceObject>>, cx: int, cy: int, r: int, n: nat): seq<SpaceObject>
  {
    if n == 0 then [] else Block(grid, cx, cy, r, n - 1) + Strip(grid, cx - r + n - 1, cy, r, Width(r))
  }

  /** What getNearby collects around cell (cx, cy) for cell radius r. */
  function Nearby(grid: map<Cell, seq<SpaceObject>>, cx: int, cy: int, r: int): seq<SpaceObject>
  {
    Block(grid, cx, cy, r, Width(r))
  }

  /** o is filed in cell (a, b). */
  predicate InCell(grid: map<Cell, seq<SpaceObject>>, a: int, b: int, o: SpaceObject)
  {
    o in CellAt(grid, (a, b))
  }

  lemma {:induction false} StripMembers(grid: map<Cell, seq<SpaceObject>>, a: int, cy: int, r: int, m: nat,
                                        o: SpaceObject)
    ensures o in Strip(grid, a, cy, r, m) <==> exists b :: cy - r <= b < cy - r + m && InCell(grid, a, b, o)
  {
    if m > 0 {
      StripMembers(grid, a, cy, r, m - 1, o);
      if InCell(grid, a, cy - r + m - 1, o) {
        assert cy - r <= cy - r + m - 1 < cy - r + m;
      }
    }
  }

  lemma {:induction false} BlockMembers(grid: map<Cell, seq<SpaceObject>>, cx: int, cy: int, r: int, n: nat,
                                        o: SpaceObject)
    ensures o in Block(grid, cx, cy, r, n) <==>
      exists a, b :: cx - r <= a < cx - r + n && cy - r <= b < cy - r + Width(r) && InCell(grid, a, b, o)
  {
    if n > 0 {
      BlockMembers(grid, cx, cy, r, n - 1, o);
      StripMembers(grid, cx - r + n - 1, cy, r, Width(r), o);
      if exists a, b :: cx - r <= a < cx - r + n && cy - r <= b < cy - r + Width(r) && InCell(grid, a, b, o) {
        var a, b :| cx - r <= a < cx - r + n && cy - r <= b < cy - r + Width(r) && InCell(grid, a, b, o);
        if a == cx - r + n - 1 {
          assert o in Strip(grid, cx - r + n - 1, cy, r, Width(r));
        }
      }
    }
  }

  /** getNearby returns exactly the objects of the cells within r of (cx, cy) on both axes. */
  lemma NearbyMembers(grid: map<Cell, seq<SpaceObject>>, cx: int, cy: int, r: int, o: SpaceObject)
    ensures o in Nearby(grid, cx, cy, r) <==>
      exists a, b :: cx - r <= a <= cx + r && cy - r <= b <= cy + r && InCell(grid, a, b, o)
  {
    BlockMembers(grid, cx, cy, r, Width(r), o);
  }

  /** Two reals within e of each other have floors within ceil(e) of each other. */
  lemma FloorGap(u: real, v: real, e: real)
    requires -e <= u - v <= e
    ensures -Ceil(e) <= Floor(u) - Floor(v) <= Ceil(e)
  {
    var fu, fv, k := Floor(u), Floor(v), Ceil(e);
    assert fu as real - fv as real < (k + 1) as real;
    assert fv as real - fu as real < (k + 1) as real;
  }

  /** Two points within d of each other on an axis have cells within ceil(d / size) of each other. */
  lemma CloseCells(p: real, q: real, d: real, cellSize: real)
    requires 0.0 < cellSize && -d <= p - q <= d
    ensures -Ceil(d / cellSize) <= Floor(p / cellSize) - Floor(q / cellSize) <= Ceil(d / cellSize)
  {
    assert p / cellSize - q / cellSize == (p - q) / cellSize;
    assert -(d / cellSize) <= (p - q) / cellSize <= d / cellSize by {
      assert (p - q) / cellSize + d / cellSize == (p - q + d) / cellSize;
      assert d / cellSize - (p - q) / cellSize == (d - (p - q)) / cellSize;
    }
    FloorGap(p / cellSize, q / cellSize, d / cellSize);
  }

  /** The filing f lies in a cell within ceil(radius / cellSize) of the cell of (x, y) on both axes. */
  predicate Filed(f: Filing, cellSize: real, x: real, y: real, radius: real)
    requires cellSize != 0.0
  {
    var c := CellOf(f.x, f.y, cellSize);
    var r := Ceil(radius / cellSize);
    Floor(x / cellSize) - r <= c.0 <= Floor(x / cellSize) + r && Floor(y / cellSize) - r <= c.1 <= Floor(y / cellSize) + r
  }

  /**
   * When every cell holds the objects filed under it, a neighbourhood holds
   * exactly the objects filed in its window of cells, and so every object
   * filed within radius of the point on both axes.
   */
  lemma NearbyFiled(grid: map<Cell, seq<SpaceObject>>, log: seq<Filing>, cellSize: real,
                    x: real, y: real, radius: real)
    requires 0.0 < cellSize && forall c :: CellAt(grid, c) == Bucket(log, cellSize, c)
    ensures var nearby := Nearby(grid, Floor(x / cellSize), Floor(y / cellSize), Ceil(radius / cellSize));
      && (forall o :: o in nearby <==>
           exists j :: 0 <= j < |log| && log[j].obj == o && Filed(log[j], cellSize, x, y, radius))
      && (forall j :: 0 <= j < |log| && -radius <= log[j].x - x <= radius && -radius <= log[j].y - y <= radius
           ==> log[j].obj in nearby)
  {
    var cx, cy := Floor(x / cellSize), Floor(y / cellSize);
    var r := Ceil(radius / cellSize);
    var nearby := Nearby(grid, cx, cy, r);
    forall o
      ensures o in nearby <==> exists j :: 0 <= j < |log| && log[j].obj == o && Filed(log[j], cellSize, x, y, radius)
    {
      NearbyMembers(grid, cx, cy, r, o);
      if o in nearby {
        var a, b :| cx - r <= a <= cx + r && cy - r <= b <= cy + r && InCell(grid, a, b, o);
        BucketMembers(log, cellSize, (a, b), o);
      }
      if exists j :: 0 <= j < |log| && log[j].obj == o && Filed(log[j], cellSize, x, y, radius) {
        var j :| 0 <= j < |log| && log[j].obj == o && Filed(log[j], cellSize, x, y, radius);
        var cell := CellOf(log[j].x, log[j].y, cellSize);
        BucketMembers(log, cellSize, cell, o);
        assert InCell(grid, cell.0, cell.1, o);
      }
    }
    forall j | 0 <= j < |log| && -radius <= log[j].x - x <= radius && -radius <= log[j].y - y <= radius
      ensures log[j].obj in nearby
    {
      CloseCells(log[j].x, x, radius, cellSize);
      CloseCells(log[j].y, y, radius, cellSize);
      var cell := CellOf(log[j].x, log[j].y, cellSize);
      assert Filed(log[j], cellSize, x, y, radius);
    }
  }

  class SpatialGrid {
    const cellSize: real
    var grid: map<Cell, seq<SpaceObject>>
    /** The objects inserted since the last clear, with the positions they were filed at. */
    ghost var log: seq<Filing>

    /** Every cell holds exactly the objects filed under it, in insertion order. */
    ghost predicate Valid()
      reads this
    {
      0.0 < cellSize && forall c {:trigger Bucket(log, cellSize, c)} :: CellAt(grid, c) == Bucket(log, cellSize, c)
    }

    /** new SpatialGrid(cellSize): an empty grid. */
    constructor (cellSize: real)
      requires 0.0 < cellSize
      ensures Valid() && this.cellSize == cellSize && grid == map[] && log == []
    {
      this.cellSize := cellSize;
      grid := map[];
      log := [];
    }

    /** clear: every cell is emptied. */
    method Clear()
      requires Valid()
      modifies this`grid, this`log
      ensures Valid() && grid == map[] && log == []
    {
      grid := map[];
      log := [];
    }

    /** insert: obj is appended to the cell its current position falls in. */
    method Insert(obj: SpaceObject)
      requires Valid()
      modifies this`grid, this`log
      ensures Valid()
      ensures log == old(log) + [Filing(obj, obj.x, obj.y)]
      ensures var c := CellOf(obj.x, obj.y, cellSize);
        grid == old(grid)[c := CellAt(old(grid), c) + [obj]]
    {
      var key := (Floor(obj.x / cellSize), Floor(obj.y / cellSize));
      if key !in grid {
        grid := grid[key := []];
      }
      grid := grid[key := grid[key] + [obj]];
      log := log + [Filing(obj, obj.x, obj.y)];
      forall c
        ensures CellAt(grid, c) == Bucket(log, cellSize, c)
      {
        assert log[..|log| - 1] == old(log);
      }
    }

    /**
     * getNearby: the objects of every cell within ceil(radius / cellSize)
     * of the query point's cell on both axes, column by column. These are
     * exactly the objects inserted since the last clear whose cell is in
     * that window; every one of them filed within radius of the point on
     * both axes is among them.
     */
    method GetNearby(x: real, y: real, radius: real) returns (nearby: seq<SpaceObject>)
      requires Valid()
      ensures nearby == Nearby(grid, Floor(x / cellSize), Floor(y / cellSize), Ceil(radius / cellSize))
      ensures forall o :: o in nearby <==>
        exists j :: 0 <= j < |log| && log[j].obj == o && Filed(log[j], cellSize, x, y, radius)
      ensures forall j :: 0 <= j < |log| && -radius <= log[j].x - x <= radius && -radius <= log[j].y - y <= radius ==>
                log[j].obj in nearby
    {
      nearby := ScanWindow(Floor(x / cellSize), Floor(y / cellSize), Ceil(radius / cellSize));
      NearbyFiled(grid, log, cellSize, x, y, radius);
    }

    /**
     * The nested loops of getNearby: the cells from (centerX - cellRadius,
     * centerY - cellRadius) to (centerX + cellRadius, centerY + cellRadius),
     * column by column, each cell's objects pushed in the order they were
     * inserted.
     */
    method ScanWindow(centerX: int, centerY: int, cellRadius: int) returns (nearby: seq<SpaceObject>)
      ensures nearby == Nearby(grid, centerX, centerY, cellRadius)
    {
      nearby := [];
      var dx := -cellRadius;
      while dx <= cellRadius
        invariant -cellRadius <= dx && dx + cellRadius <= Width(cellRadius)
        invariant nearby == Block(grid, centerX, centerY, cellRadius, dx + cellRadius)
      {
        var dy := -cellRadius;
        while dy <= cellRadius
          invariant -cellRadius <= dy <= cellRadius + 1
          invariant nearby == Block(grid, centerX, centerY, cellRadius, dx + cellRadius)
            + Strip(grid, centerX + dx, centerY, cellRadius, dy + cellRadius)
        {
          var key := (centerX + dx, centerY + dy);
          if key in grid {
            nearby := nearby + grid[key];
          }
          dy := dy + 1;
        }
        assert Block(grid, centerX, centerY, cellRadius, dx + 1 + cellRadius)
          == Block(grid, centerX, centerY, cellRadius, dx + cellRadius)
          + Strip(grid, centerX + dx, centerY, cellRadius, dy + cellRadius);
        dx := dx + 1;
      }
    }
  }
}

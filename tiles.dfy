/** From a level's character grid to world rectangles: the solid blocks
    derived on every tick of play, and the water and pickup rectangles built
    when a level starts. Each tile symbol is looked up in one table, Place. */
module Tiles {
  import opened Geometry

  /** Which rectangles a scan collects. Pickups take their size from their
      image, so it is carried here. */
  datatype Layer = Solid | Water | Pickup(symbol: char, width: real, height: real)

  /** Does `tile` produce a rectangle on `layer`? */
  predicate Emits(layer: Layer, tile: char)
  {
    match layer
    case Solid => tile == '1' || tile == '2' || tile == '3'
    case Water => tile == 'W'
    case Pickup(s, _, _) => tile == s
  }

  /** The rectangles (none or one) that the tile at (row, col) produces on
      `layer`. A grass tile '1' is a block shortened by the grass lip; '2'
      and '3' fill their cell; water fills its cell; a pickup sits 10 units
      below its cell's top edge. Every other symbol produces nothing. */
  function Place(layer: Layer, tile: char, row: nat, col: nat): seq<Rect>
  {
    var x, y := (col * TILE_SIZE) as real, (row * TILE_SIZE) as real;
    match layer
    case Solid =>
      if tile == '1' then
        [Rect(x, y + GRASS_TOP_OFFSET as real, TILE_SIZE as real, (TILE_SIZE - GRASS_TOP_OFFSET) as real)]
      else if tile == '2' || tile == '3' then
        [Rect(x, y, TILE_SIZE as real, TILE_SIZE as real)]
      else []
    case Water =>
      if tile == 'W' then [Rect(x, y, TILE_SIZE as real, TILE_SIZE as real)] else []
    case Pickup(s, w, h) =>
      if tile == s then [Rect(x, y + 10.0, w, h)] else []
  }

  /** The rectangles of one row, left to right. */
  function RowScan(layer: Layer, row: string, y: nat): seq<Rect>
    decreases |row|
  {
    if |row| == 0 then []
    else RowScan(layer, row[..|row| - 1], y) + Place(layer, row[|row| - 1], y, |row| - 1)
  }

  /** The rectangles of a whole grid, row by row from the top. */
  function Scan(layer: Layer, tilemap: seq<string>): seq<Rect>
    decreases |tilemap|
  {
    if |tilemap| == 0 then []
    else Scan(layer, tilemap[..|tilemap| - 1]) + RowScan(layer, tilemap[|tilemap| - 1], |tilemap| - 1)
  }

  /** How many of the symbols counted in `ms` produce a rectangle on `layer`. */
  function SymbolCount(layer: Layer, ms: multiset<char>): nat
  {
    match layer
    case Solid => ms['1'] + ms['2'] + ms['3']
    case Water => ms['W']
    case Pickup(s, _, _) => ms[s]
  }

  /** The number of tiles of the grid that produce a rectangle on `layer`,
      counted through the multiset of each row's symbols. */
  function TileCount(layer: Layer, tilemap: seq<string>): nat
    decreases |tilemap|
  {
    if |tilemap| == 0 then 0
    else TileCount(layer, tilemap[..|tilemap| - 1]) + SymbolCount(layer, multiset(tilemap[|tilemap| - 1]))
  }

  lemma RowScanStep(layer: Layer, row: string, x: nat, y: nat)
    requires x < |row|
    ensures RowScan(layer, row[..x + 1], y) == RowScan(layer, row[..x], y) + Place(layer, row[x], y, x)
  {
    assert row[..x + 1][..x] == row[..x];
  }

  lemma ScanStep(layer: Layer, tilemap: seq<string>, y: nat)
    requires y < |tilemap|
    ensures Scan(layer, tilemap[..y + 1]) == Scan(layer, tilemap[..y]) + RowScan(layer, tilemap[y], y)
  {
    assert tilemap[..y + 1][..y] == tilemap[..y];
  }

  lemma PlaceSize(layer: Layer, tile: char, row: nat, col: nat)
    ensures |Place(layer, tile, row, col)| == SymbolCount(layer, multiset{tile})
    ensures |Place(layer, tile, row, col)| == (if Emits(layer, tile) then 1 else 0)
  {
  }

  /** Counting symbols distributes over the union of multisets. */
  lemma SymbolCountAdds(layer: Layer, a: multiset<char>, b: multiset<char>)
    ensures SymbolCount(layer, a + b) == SymbolCount(layer, a) + SymbolCount(layer, b)
  {
  }

  lemma {:induction false} RowScanCount(layer: Layer, row: string, y: nat)
    ensures |RowScan(layer, row, y)| == SymbolCount(layer, multiset(row))
    decreases |row|
  {
    if |row| > 0 {
      var n := |row| - 1;
      RowScanCount(layer, row[..n], y);
      PlaceSize(layer, row[n], y, n);
      assert multiset(row) == multiset(row[..n]) + multiset{row[n]} by {
        assert row == row[..n] + [row[n]];
      }
      SymbolCountAdds(layer, multiset(row[..n]), multiset{row[n]});
    }
  }

  /** Exactly one rectangle per producing tile: the scan's length is the
      number of tiles whose symbol the layer collects. */
  lemma {:induction false} ScanCount(layer: Layer, tilemap: seq<string>)
    ensures |Scan(layer, tilemap)| == TileCount(layer, tilemap)
    decreases |tilemap|
  {
    if |tilemap| > 0 {
      var n := |tilemap| - 1;
      ScanCount(layer, tilemap[..n]);
      RowScanCount(layer, tilemap[n], n);
    }
  }

  /** Every tile that the layer collects contributes its rectangle to the
      scan of its row. */
  lemma {:induction false} RowScanContains(layer: Layer, row: string, y: nat, x: nat)
    requires x < |row| && Emits(layer, row[x])
    ensures Place(layer, row[x], y, x) != [] && Place(layer, row[x], y, x)[0] in RowScan(layer, row, y)
    decreases |row|
  {
    var n := |row| - 1;
    if x < n {
      RowScanContains(layer, row[..n], y, x);
      assert row[..n][x] == row[x];
    }
  }

  /** Every tile that the layer collects contributes its rectangle to the
      scan of the whole grid. */
  lemma {:induction false} ScanContains(layer: Layer, tilemap: seq<string>, y: nat, x: nat)
    requires y < |tilemap| && x < |tilemap[y]| && Emits(layer, tilemap[y][x])
    ensures Place(layer, tilemap[y][x], y, x) != [] && Place(layer, tilemap[y][x], y, x)[0] in Scan(layer, tilemap)
    decreases |tilemap|
  {
    var n := |tilemap| - 1;
    if y < n {
      ScanContains(layer, tilemap[..n], y, x);
      assert tilemap[..n][y] == tilemap[y];
    } else {
      RowScanContains(layer, tilemap[y], y, x);
    }
  }

  /** Every rectangle of a row's scan comes from one of the row's tiles. */
  lemma {:induction false} RowScanOrigin(layer: Layer, row: string, y: nat, r: Rect) returns (x: nat)
    requires r in RowScan(layer, row, y)
    ensures x < |row| && r in Place(layer, row[x], y, x)
    decreases |row|
  {
    var n := |row| - 1;
    if r in RowScan(layer, row[..n], y) {
      x := RowScanOrigin(layer, row[..n], y, r);
      assert row[..n][x] == row[x];
    } else {
      x := n;
    }
  }

  /** Every rectangle of the grid's scan comes from one of its tiles. */
  lemma {:induction false} ScanOrigin(layer: Layer, tilemap: seq<string>, r: Rect) returns (y: nat, x: nat)
    requires r in Scan(layer, tilemap)
    ensures y < |tilemap| && x < |tilemap[y]| && r in Place(layer, tilemap[y][x], y, x)
    decreases |tilemap|
  {
    var n := |tilemap| - 1;
    if r in Scan(layer, tilemap[..n]) {
      y, x := ScanOrigin(layer, tilemap[..n], r);
      assert tilemap[..n][y] == tilemap[y];
    } else {
      y := n;
      x := RowScanOrigin(layer, tilemap[n], n, r);
    }
  }

  /** A grass tile '1' at (y, x) yields the block (x*60, y*60 + 15, 60, 45):
      its cell shortened by the grass lip. */
  lemma GrassTileYieldsBlock(tilemap: seq<string>, y: nat, x: nat)
    requires y < |tilemap| && x < |tilemap[y]| && tilemap[y][x] == '1'
    ensures Rect((x * 60) as real, (y * 60 + 15) as real, 60.0, 45.0) in Scan(Solid, tilemap)
  {
    ScanContains(Solid, tilemap, y, x);
  }

  /** A '2' or '3' tile at (y, x) yields its full cell (x*60, y*60, 60, 60). */
  lemma FullTileYieldsBlock(tilemap: seq<string>, y: nat, x: nat)
    requires y < |tilemap| && x < |tilemap[y]| && (tilemap[y][x] == '2' || tilemap[y][x] == '3')
    ensures Rect((x * 60) as real, (y * 60) as real, 60.0, 60.0) in Scan(Solid, tilemap)
  {
    ScanContains(Solid, tilemap, y, x);
  }

  /** Conversely, every block is the collider of some solid tile: no other
      symbol yields geometry. */
  lemma BlocksComeFromSolidTiles(tilemap: seq<string>, b: Rect)
    requires b in Scan(Solid, tilemap)
    ensures IsGridBlock(tilemap, b)
  {
    var y, x := ScanOrigin(Solid, tilemap, b);
    assert BlockOfCell(tilemap, y, x, b);
  }

  /** `b` is the collider of the solid tile at (y, x): on the grid, 60
      wide, ending at the cell's bottom edge, and starting 15 below the
      cell's top exactly for a grass tile. */
  ghost predicate BlockOfCell(tilemap: seq<string>, y: nat, x: nat, b: Rect)
  {
    y < |tilemap| && x < |tilemap[y]| && (tilemap[y][x] == '1' || tilemap[y][x] == '2' || tilemap[y][x] == '3') &&
    b.x == (x * 60) as real && b.width == 60.0 && b.y + b.height == ((y + 1) * 60) as real &&
    (if tilemap[y][x] == '1' then b.y == (y * 60 + 15) as real else b.y == (y * 60) as real)
  }

  ghost predicate IsGridBlock(tilemap: seq<string>, b: Rect)
  {
    exists y: nat, x: nat :: BlockOfCell(tilemap, y, x, b)
  }

  /** The block derivation done at the start of every tick of play: a
      nested loop over the grid that pushes one rectangle per solid tile. */
  method DeriveBlocks(tilemap: seq<string>) returns (blocks: seq<Rect>)
    ensures blocks == Scan(Solid, tilemap)
  {
    blocks := [];
    for y := 0 to |tilemap|
      invariant blocks == Scan(Solid, tilemap[..y])
    {
      var row := tilemap[y];
      for x := 0 to |row|
        invariant blocks == Scan(Solid, tilemap[..y]) + RowScan(Solid, row[..x], y)
      {
        RowScanStep(Solid, row, x, y);
        var tile := row[x];
        if tile == '1' {
          blocks := blocks + [Rect((x * TILE_SIZE) as real, (y * TILE_SIZE + GRASS_TOP_OFFSET) as real,
                                   TILE_SIZE as real, (TILE_SIZE - GRASS_TOP_OFFSET) as real)];
        } else if tile == '2' || tile == '3' {
          blocks := blocks + [Rect((x * TILE_SIZE) as real, (y * TILE_SIZE) as real,
                                   TILE_SIZE as real, TILE_SIZE as real)];
        }
      }
      assert row[..|row|] == row;
      ScanStep(Solid, tilemap, y);
    }
    assert tilemap[..|tilemap|] == tilemap;
  }

  /** Image sizes of the three pickups. */
  datatype PickupSizes = PickupSizes(toastW: real, toastH: real, cookieW: real, cookieH: real,
                                     chocoW: real, chocoH: real)
  {
    function Toast(): Layer { Pickup('T', toastW, toastH) }
    function Cookie(): Layer { Pickup('C', cookieW, cookieH) }
    function Chocolate(): Layer { Pickup('H', chocoW, chocoH) }
  }

  /** One cell of the level-start parse: what each of the four scans gains. */
  lemma ParseStep(row: string, x: nat, y: nat, sizes: PickupSizes)
    requires x < |row|
    ensures var cell := Rect((x * 60) as real, (y * 60) as real, 60.0, 60.0);
            RowScan(Water, row[..x + 1], y) == RowScan(Water, row[..x], y) + (if row[x] == 'W' then [cell] else [])
    ensures var at := Rect((x * 60) as real, (y * 60) as real + 10.0, sizes.toastW, sizes.toastH);
            RowScan(sizes.Toast(), row[..x + 1], y) == RowScan(sizes.Toast(), row[..x], y) + (if row[x] == 'T' then [at] else [])
    ensures var at := Rect((x * 60) as real, (y * 60) as real + 10.0, sizes.cookieW, sizes.cookieH);
            RowScan(sizes.Cookie(), row[..x + 1], y) == RowScan(sizes.Cookie(), row[..x], y) + (if row[x] == 'C' then [at] else [])
    ensures var at := Rect((x * 60) as real, (y * 60) as real + 10.0, sizes.chocoW, sizes.chocoH);
            RowScan(sizes.Chocolate(), row[..x + 1], y) == RowScan(sizes.Chocolate(), row[..x], y) + (if row[x] == 'H' then [at] else [])
  {
    RowScanStep(Water, row, x, y);
    RowScanStep(sizes.Toast(), row, x, y);
    RowScanStep(sizes.Cookie(), row, x, y);
    RowScanStep(sizes.Chocolate(), row, x, y);
  }

  /** The tilemap parse of a level start: one pass over the grid that
      pushes a water, toast, cookie or chocolate rectangle for each 'W',
      'T', 'C' or 'H' tile. */
  method ParseTilemap(tilemap: seq<string>, sizes: PickupSizes)
    returns (waters: seq<Rect>, toasts: seq<Rect>, cookies: seq<Rect>, chocolates: seq<Rect>)
    ensures waters == Scan(Water, tilemap)
    ensures toasts == Scan(sizes.Toast(), tilemap)
    ensures cookies == Scan(sizes.Cookie(), tilemap)
    ensures chocolates == Scan(sizes.Chocolate(), tilemap)
  {
    waters, toasts, cookies, chocolates := [], [], [], [];
    for y := 0 to |tilemap|
      invariant waters == Scan(Water, tilemap[..y])
      invariant toasts == Scan(sizes.Toast(), tilemap[..y])
      invariant cookies == Scan(sizes.Cookie(), tilemap[..y])
      invariant chocolates == Scan(sizes.Chocolate(), tilemap[..y])
    {
      var row := tilemap[y];
      // this row's rectangles, appended once the row is done
      var w, t, c, h := [], [], [], [];
      for x := 0 to |row|
        invariant w == RowScan(Water, row[..x], y)
        invariant t == RowScan(sizes.Toast(), row[..x], y)
        invariant c == RowScan(sizes.Cookie(), row[..x], y)
        invariant h == RowScan(sizes.Chocolate(), row[..x], y)
      {
        ParseStep(row, x, y, sizes);
        var tile := row[x];
        var worldX, worldY := (x * TILE_SIZE) as real, (y * TILE_SIZE) as real;
        if tile == 'W' {
          w := w + [Rect(worldX, worldY, TILE_SIZE as real, TILE_SIZE as real)];
        } else if tile == 'T' {
          t := t + [Rect(worldX, worldY + 10.0, sizes.toastW, sizes.toastH)];
        } else if tile == 'C' {
          c := c + [Rect(worldX, worldY + 10.0, sizes.cookieW, sizes.cookieH)];
        } else if tile == 'H' {
          h := h + [Rect(worldX, worldY + 10.0, sizes.chocoW, sizes.chocoH)];
        }
      }
      assert row[..|row|] == row;
      waters, toasts, cookies, chocolates := waters + w, toasts + t, cookies + c, chocolates + h;
      ScanStep(Water, tilemap, y);
      ScanStep(sizes.Toast(), tilemap, y);
      ScanStep(sizes.Cookie(), tilemap, y);
      ScanStep(sizes.Chocolate(), tilemap, y);
    }
    assert tilemap[..|tilemap|] == tilemap;
  }
}

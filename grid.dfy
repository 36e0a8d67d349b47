/**
 * The tile grid of src/grid.cpp: a `sizeX` x `sizeY` row-major matrix of
 * 16-bit tile types, written only through a bounds-checked Place, read
 * through a checked GetTile, built empty or with a solid border, and
 * saved to / loaded from a level document `{width, height, tiles}`.
 */
module Grids {
  import opened Common

  /** The tile type NewDefault uses for the border */
  const BorderKind: u16 := 6

  /** A tile; the source's field `type` is called `kind` here (`type` is a Dafny keyword) */
  datatype Tile = Tile(kind: u16)

  /** `m` has `height` rows of `width` tiles each */
  ghost predicate Shaped<T>(m: seq<seq<T>>, width: nat, height: nat) {
    |m| == height && forall y :: 0 <= y < height ==> |m[y]| == width
  }

  /** Two matrices of the same shape that agree on every cell are equal */
  lemma {:induction false} ShapedEqual<T>(a: seq<seq<T>>, b: seq<seq<T>>, width: nat, height: nat)
    requires Shaped(a, width, height) && Shaped(b, width, height)
    requires forall y, x :: 0 <= y < height && 0 <= x < width ==> a[y][x] == b[y][x]
    ensures a == b
  {
    forall y | 0 <= y < height
      ensures a[y] == b[y]
    {
      assert forall x :: 0 <= x < width ==> a[y][x] == b[y][x];
    }
  }

  /** The whole value of a grid: its two dimensions and its tile matrix */
  datatype Snapshot = Snapshot(sizeX: u16, sizeY: u16, tiles: seq<seq<Tile>>) {
    ghost predicate Valid() {
      Shaped(tiles, sizeX, sizeY)
    }

    predicate InRange(x: int, y: int) {
      0 <= x < sizeX && 0 <= y < sizeY
    }

    /** The effect of Grid::Place on the grid's value */
    function Placed(x: u16, y: u16, kind: u16): (r: Snapshot)
      requires Valid()
      ensures r.Valid() && r.sizeX == sizeX && r.sizeY == sizeY
      ensures InRange(x, y) ==> r.tiles[y][x] == Tile(kind)
      ensures forall j, i :: 0 <= j < sizeY && 0 <= i < sizeX && (i != x || j != y) ==>
                r.tiles[j][i] == tiles[j][i]
      ensures !InRange(x, y) ==> r == this
    {
      if x < sizeX && y < sizeY then this.(tiles := tiles[y := tiles[y][x := Tile(kind)]])
      else this
    }
  }

  /** The level document: what the JSON file holds once converted (width, height, tile-type rows) */
  datatype LevelDocument = LevelDocument(width: nat, height: nat, tiles: seq<seq<u16>>)

  /** A stored level file: a document, or content that does not parse or convert */
  datatype LevelFile = Document(doc: LevelDocument) | Corrupt

  /** The file system as far as levels are concerned: path to file content */
  type FileStore = map<string, LevelFile>

  /** The file a level name is stored under */
  function LevelPath(name: string): (path: string)
    ensures |path| == |name| + 12
    ensures path[7..7 + |name|] == name
  {
    "levels/" + name + ".json"
  }

  /** Distinct level names are stored in distinct files */
  lemma LevelPathInjective(a: string, b: string)
    requires LevelPath(a) == LevelPath(b)
    ensures a == b
  {
  }

  /**
   * A document LoadFromFile can convert: its dimensions fit the grid's
   * 16-bit sizes, and every cell the copy loop reads exists (the loop
   * indexes tiles_data[y][x] without a check).
   */
  ghost predicate Readable(doc: LevelDocument) {
    && doc.width < 0x1_0000 && doc.height < 0x1_0000
    && |doc.tiles| >= doc.height
    && forall y :: 0 <= y < doc.height ==> |doc.tiles[y]| >= doc.width
  }

  /** Whatever is stored under `path` can be loaded without undefined behaviour */
  ghost predicate Loadable(files: FileStore, path: string) {
    path in files && files[path].Document? ==> Readable(files[path].doc)
  }

  /** The document that SaveToFile writes for a grid value */
  function ToDocument(s: Snapshot): (doc: LevelDocument)
    requires s.Valid()
    ensures doc.width == s.sizeX && doc.height == s.sizeY
    ensures Shaped(doc.tiles, s.sizeX, s.sizeY)
    ensures forall y, x :: 0 <= y < s.sizeY && 0 <= x < s.sizeX ==>
              doc.tiles[y][x] == s.tiles[y][x].kind
  {
    LevelDocument(s.sizeX, s.sizeY,
      seq(s.sizeY as int, y requires 0 <= y < s.sizeY =>
        seq(s.sizeX as int, x requires 0 <= x < s.sizeX => s.tiles[y][x].kind)))
  }

  /** The grid value that LoadFromFile builds from a readable document */
  function FromDocument(doc: LevelDocument): (s: Snapshot)
    requires Readable(doc)
    ensures s.Valid() && s.sizeX == doc.width && s.sizeY == doc.height
    ensures forall y, x :: 0 <= y < doc.height && 0 <= x < doc.width ==>
              s.tiles[y][x] == Tile(doc.tiles[y][x])
  {
    Snapshot(doc.width, doc.height,
      seq(doc.height, y requires 0 <= y < doc.height =>
        seq(doc.width, x requires 0 <= x < doc.width => Tile(doc.tiles[y][x]))))
  }

  /** Loading the document that saving produced gives back the same grid value */
  lemma {:induction false} DocumentRoundTrip(s: Snapshot)
    requires s.Valid()
    ensures Readable(ToDocument(s))
    ensures FromDocument(ToDocument(s)) == s
  {
    var t := FromDocument(ToDocument(s));
    ShapedEqual(t.tiles, s.tiles, s.sizeX, s.sizeY);
  }

  /** Saving after loading gives back the part of the document the grid covers */
  lemma {:induction false} DocumentCrop(doc: LevelDocument)
    requires Readable(doc)
    ensures ToDocument(FromDocument(doc)).width == doc.width
    ensures ToDocument(FromDocument(doc)).height == doc.height
    ensures ToDocument(FromDocument(doc)).tiles ==
              seq(doc.height, y requires 0 <= y < doc.height => doc.tiles[y][..doc.width])
  {
    var back := ToDocument(FromDocument(doc)).tiles;
    var crop := seq(doc.height, y requires 0 <= y < doc.height => doc.tiles[y][..doc.width]);
    ShapedEqual(back, crop, doc.width, doc.height);
  }

  /** Grid (src/grid.cpp): the tile matrix is a field the methods update in place */
  class Grid {
    var sizeX: u16
    var sizeY: u16
    var tiles: seq<seq<Tile>>

    function Snap(): Snapshot
      reads this
    {
      Snapshot(sizeX, sizeY, tiles)
    }

    ghost predicate Valid()
      reads this
    {
      Snap().Valid()
    }

    predicate InRange(x: int, y: int)
      reads this
    {
      0 <= x < sizeX && 0 <= y < sizeY
    }

    /** Grid(width, height): every tile value-initialised to type 0 */
    constructor (width: nat, height: nat)
      requires width < 0x1_0000 && height < 0x1_0000
      ensures Valid() && sizeX == width && sizeY == height
      ensures forall y, x :: 0 <= y < height && 0 <= x < width ==> tiles[y][x] == Tile(0)
    {
      sizeX := width;
      sizeY := height;
      tiles := seq(height, _ => seq(width, _ => Tile(0)));
    }

    /** Writes `kind` into cell (x, y) if it is on the grid; otherwise does nothing */
    method Place(x: u16, y: u16, kind: u16)
      requires Valid()
      modifies this`tiles
      ensures Valid()
      ensures Snap() == old(Snap()).Placed(x, y, kind)
    {
      if 0 <= x && x < sizeX && 0 <= y && y < sizeY {
        tiles := tiles[y := tiles[y][x := Tile(kind)]];
      }
    }

    /** The tile at (x, y); reading off the grid is an error (`at()` throws), so callers must stay in range */
    function GetTile(x: u16, y: u16): (t: Tile)
      reads this
      requires Valid() && InRange(x, y)
      ensures t == Snap().tiles[y][x]
    {
      tiles[y][x]
    }

    /** Copy assignment `grid = other`: this grid takes the other's whole value */
    method Assign(other: Grid)
      requires other.Valid()
      modifies this
      ensures Valid() && Snap() == old(other.Snap())
    {
      sizeX, sizeY, tiles := other.sizeX, other.sizeY, other.tiles;
    }

    /**
     * A grid of the given size whose border cells (x = 0, y = 0,
     * x = width - 1, y = height - 1) hold type 6 and whose interior is empty.
     * `width - 1` is passed to Place as a uint16_t, so a zero width wraps
     * to 65535 and the corresponding loop writes nothing.
     */
    static method NewDefault(width: u16, height: u16) returns (grid: Grid)
      ensures fresh(grid)
      ensures grid.Valid() && grid.sizeX == width && grid.sizeY == height
      ensures forall y, x :: 0 <= y < height && 0 <= x < width ==>
                grid.tiles[y][x] == Tile(if OnBorder(x, y, width, height) then BorderKind else 0)
    {
      grid := new Grid(width, height);
      var lastX: u16 := (width as int - 1) % 0x1_0000;
      var lastY: u16 := (height as int - 1) % 0x1_0000;
      for y := 0 to height
        invariant BorderStage(grid.Snap(), width, height, y, 0, 0, 0)
      {
        grid.Place(0, y, BorderKind);
      }
      for x := 0 to width
        invariant BorderStage(grid.Snap(), width, height, height, x, 0, 0)
      {
        grid.Place(x, 0, BorderKind);
      }
      for y := 0 to height
        invariant BorderStage(grid.Snap(), width, height, height, width, y, 0)
      {
        grid.Place(lastX, y, BorderKind);
      }
      for x := 0 to width
        invariant BorderStage(grid.Snap(), width, height, height, width, height, x)
      {
        grid.Place(x, lastY, BorderKind);
      }
    }

    /**
     * Writes the level document to "levels/<name>.json". The document is
     * built row by row, one tile type at a time, as the source's push_back
     * loops do.
     */
    method SaveToFile(name: string, files: FileStore) returns (files': FileStore)
      requires Valid()
      ensures files' == files[LevelPath(name) := Document(ToDocument(Snap()))]
    {
      var rows: seq<seq<u16>> := [];
      for y := 0 to |tiles|
        invariant |rows| == y
        invariant forall j :: 0 <= j < y ==> |rows[j]| == sizeX
        invariant forall j, i :: 0 <= j < y && 0 <= i < sizeX ==> rows[j][i] == tiles[j][i].kind
      {
        var row: seq<u16> := [];
        for x := 0 to |tiles[y]|
          invariant |row| == x
          invariant forall i :: 0 <= i < x ==> row[i] == tiles[y][i].kind
        {
          row := row + [tiles[y][x].kind];
        }
        rows := rows + [row];
      }
      var doc := LevelDocument(sizeX, sizeY, rows);
      ShapedEqual(doc.tiles, ToDocument(Snap()).tiles, sizeX, sizeY);
      files' := files[LevelPath(name) := Document(doc)];
    }

    /**
     * Reads "levels/<name>.json". A missing, unparsable or unconvertible
     * file yields None and no grid; otherwise a new grid of the document's
     * size is filled cell by cell from the document's rows.
     */
    static method LoadFromFile(name: string, files: FileStore) returns (r: Option<Grid>)
      requires Loadable(files, LevelPath(name))
      ensures r.None? <==> !(LevelPath(name) in files && files[LevelPath(name)].Document?)
      ensures r.Some? ==> r.value.Valid() && r.value.Snap() == FromDocument(files[LevelPath(name)].doc)
      ensures r.Some? ==> fresh(r.value)
    {
      var path := LevelPath(name);
      if path !in files || files[path].Corrupt? {
        return None;
      }
      var doc := files[path].doc;
      var grid := new Grid(doc.width, doc.height);
      for y := 0 to grid.sizeY
        invariant grid.Valid() && grid.sizeX == doc.width && grid.sizeY == doc.height
        invariant forall j, i :: 0 <= j < doc.height && 0 <= i < doc.width ==>
                    grid.tiles[j][i] == if j < y then Tile(doc.tiles[j][i]) else Tile(0)
      {
        for x := 0 to grid.sizeX
          invariant grid.Valid() && grid.sizeX == doc.width && grid.sizeY == doc.height
          invariant forall j, i :: 0 <= j < doc.height && 0 <= i < doc.width ==>
                      grid.tiles[j][i] == if j < y || (j == y && i < x) then Tile(doc.tiles[j][i]) else Tile(0)
        {
          grid.tiles := grid.tiles[y := grid.tiles[y][x := Tile(doc.tiles[y][x])]];
        }
      }
      ShapedEqual(grid.tiles, FromDocument(doc).tiles, doc.width, doc.height);
      r := Some(grid);
    }
  }

  /**
   * NewDefault part-way: the left column is marked in its first `left`
   * rows, the top row in its first `top` columns, the right column in its
   * first `right` rows and the bottom row in its first `bottom` columns;
   * every other cell is still 0.
   */
  ghost predicate BorderStage(s: Snapshot, width: int, height: int, left: int, top: int, right: int, bottom: int) {
    && s.Valid() && s.sizeX == width && s.sizeY == height
    && forall j, i :: 0 <= j < height && 0 <= i < width ==>
         s.tiles[j][i] == Tile(if (i == 0 && j < left) || (j == 0 && i < top)
                                  || (i == width - 1 && j < right) || (j == height - 1 && i < bottom)
                               then BorderKind else 0)
  }

  /** Cell (x, y) lies on the outermost ring of a width x height grid */
  predicate OnBorder(x: int, y: int, width: int, height: int) {
    x == 0 || y == 0 || x == width - 1 || y == height - 1
  }

  /** Reading a cell right after placing a tile there gives that tile back */
  method PlaceThenGetTile(grid: Grid, x: u16, y: u16, kind: u16) returns (t: Tile)
    requires grid.Valid() && grid.InRange(x, y)
    modifies grid
    ensures grid.Valid() && t == Tile(kind)
  {
    grid.Place(x, y, kind);
    t := grid.GetTile(x, y);
  }

  /** Saving a grid and loading it back under the same name gives a grid with the same value */
  method SaveThenLoad(grid: Grid, name: string, files: FileStore) returns (loaded: Option<Grid>)
    requires grid.Valid()
    ensures loaded.Some? && loaded.value.Valid() && loaded.value.Snap() == grid.Snap()
  {
    var saved := grid.SaveToFile(name, files);
    DocumentRoundTrip(grid.Snap());
    loaded := Grid.LoadFromFile(name, saved);
  }

  /** A 10 x 10 default grid with a type-3 tile placed at (5, 5) */
  method DefaultGridScenario() returns (centre: Tile, corner: Tile)
    ensures centre == Tile(3) && corner == Tile(BorderKind)
  {
    var grid := Grid.NewDefault(10, 10);
    grid.Place(5, 5, 3);
    centre := grid.GetTile(5, 5);
    corner := grid.GetTile(0, 0);
  }
}

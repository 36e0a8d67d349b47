/**
 * The game state of src/game.cpp and its per-frame update: the exit
 * confirmation flags, level load/save on F5/F6, the tile selector and
 * painting, the free-flying player, the camera, and the range of grid
 * cells RenderGrid visits.
 */
module Game {
  import opened Common
  import opened Grids
  import Cameras

  const WindowWidth: u16 := 800
  const WindowHeight: u16 := 600
  const TileResolution: nat := 8
  const TileCount: u32 := 8
  const GridSizeX: u16 := 64
  const GridSizeY: u16 := 64

  // ---------------------------------------------------------------- player

  /** The editor player: a position moved in place by a per-frame offset */
  class PlayerState {
    var position: Vector2
    var size: Vector2
    var moveSpeed: real

    constructor New(position: Vector2, size: Vector2, moveSpeed: real)
      ensures this.position == position && this.size == size && this.moveSpeed == moveSpeed
    {
      this.position := position;
      this.size := size;
      this.moveSpeed := moveSpeed;
    }

    /** Shifts the position by `offset`; size and speed are not touched */
    method MoveBy(offset: Vector2)
      modifies this`position
      ensures position == Vector2(old(position.x) + offset.x, old(position.y) + offset.y)
    {
      position := position.(x := position.x + offset.x);
      position := position.(y := position.y + offset.y);
    }

    /** The centre of the player's square: equally far from its left and right, top and bottom edges */
    function GetCenter(): (c: Vector2)
      reads this
      ensures c.x - position.x == position.x + size.x - c.x
      ensures c.y - position.y == position.y + size.y - c.y
    {
      Vector2(position.x + size.x / 2.0, position.y + size.y / 2.0)
    }

    /** One frame of free movement at `moveSpeed` in the direction the held keys give */
    method Update(input: Input, deltaTime: real)
      modifies this`position
      ensures var o := MoveOffset(input.held.right, input.held.left, input.held.up, input.held.down,
                                  moveSpeed, deltaTime);
              position == Vector2(old(position.x) + o.x, old(position.y) + o.y)
    {
      var offset := MoveOffset(input.held.right, input.held.left, input.held.up, input.held.down,
                               moveSpeed, deltaTime);
      MoveBy(offset);
    }
  }

  // ---------------------------------------------------------- tile selector

  /** `tile_place_type++` on a 32-bit unsigned integer */
  function SpaceStep(t: u32, space: bool): (r: u32)
    ensures space && t + 1 < 0x1_0000_0000 ==> r == t + 1
    ensures space && t == 0xFFFF_FFFF ==> r == 0
    ensures !space ==> r == t
  {
    if space then (t + 1) % 0x1_0000_0000 else t
  }

  /** The wheel changes the selection only while Ctrl is not held (Ctrl + wheel zooms) */
  predicate WheelSelects(input: Input) {
    input.mouseWheel != 0.0 && !input.held.ctrl
  }

  /**
   * `tile_place_type += mouse_wheel` converts the float sum back to an
   * unsigned integer, which is defined only when the truncated sum
   * is representable.
   */
  ghost predicate SelectionDefined(t: u32, input: Input) {
    WheelSelects(input) ==>
      -1.0 < SpaceStep(t, input.pressed.space) as real + input.mouseWheel < 4294967296.0
  }

  /** The selection after the space press and the wheel, before wrapping */
  function RawSelection(t: u32, input: Input): (r: u32)
    requires SelectionDefined(t, input)
    ensures !WheelSelects(input) ==> r == SpaceStep(t, input.pressed.space)
  {
    var stepped := SpaceStep(t, input.pressed.space);
    if WheelSelects(input) then Truncate(stepped as real + input.mouseWheel) else stepped
  }

  /**
   * Wraps a selection into the tile types 1 .. TILE_COUNT - 1. This is not
   * a modulus: anything at or above TILE_COUNT becomes 1, and 0 becomes
   * TILE_COUNT - 1.
   */
  function WrapSelection(t: u32): (r: u32)
    ensures 1 <= r < TileCount
    ensures 1 <= t < TileCount ==> r == t
    ensures t >= TileCount ==> r == 1
    ensures t == 0 ==> r == TileCount - 1
  {
    if t >= TileCount then 1 else if t == 0 then TileCount - 1 else t
  }

  /** The selection after one frame of UpdateTilePlacing: always a placeable tile type */
  function NextSelection(t: u32, input: Input): (r: u32)
    requires SelectionDefined(t, input)
    ensures 1 <= r < TileCount
  {
    WrapSelection(RawSelection(t, input))
  }

  /**
   * From a valid selection, a single step (a space press, or one wheel
   * notch without Ctrl) moves cyclically through the tile types.
   */
  lemma SelectionSingleStepCycles(t: u32, input: Input)
    requires 1 <= t < TileCount
    requires (input.pressed.space && !WheelSelects(input))
          || (!input.pressed.space && WheelSelects(input) && (input.mouseWheel == 1.0 || input.mouseWheel == -1.0))
    ensures SelectionDefined(t, input)
    ensures var step := if input.pressed.space then 1 else input.mouseWheel.Floor;
            NextSelection(t, input) == 1 + (t - 1 + step) % (TileCount - 1)
  {
  }

  /** A space press and a wheel notch in the same frame from the last type give 1, not 2 */
  lemma SelectionWrapIsNotModular(input: Input)
    requires input.pressed.space && WheelSelects(input) && input.mouseWheel == 1.0
    ensures SelectionDefined(TileCount - 1, input)
    ensures NextSelection(TileCount - 1, input) == 1
  {
  }

  /**
   * The grid after painting at the cursor cell: the left button places the
   * selected type, then the right button places 0, both through the
   * bounds-checked Place.
   */
  function Painted(s: Snapshot, cursorX: u16, cursorY: u16, held: Held, selection: u16): (r: Snapshot)
    requires s.Valid()
    ensures r.Valid() && r.sizeX == s.sizeX && r.sizeY == s.sizeY
    ensures s.InRange(cursorX, cursorY) ==>
              r.tiles[cursorY][cursorX] ==
                (if held.rmb then Tile(0) else if held.lmb then Tile(selection) else s.tiles[cursorY][cursorX])
    ensures forall j, i :: 0 <= j < s.sizeY && 0 <= i < s.sizeX && (i != cursorX || j != cursorY) ==>
              r.tiles[j][i] == s.tiles[j][i]
    ensures !s.InRange(cursorX, cursorY) ==> r == s
  {
    var afterLeft := if held.lmb then s.Placed(cursorX, cursorY, selection) else s;
    if held.rmb then afterLeft.Placed(cursorX, cursorY, 0) else afterLeft
  }

  // ------------------------------------------------------------ load / save

  /** The grid after UpdateLevel: replaced by the loaded level only on F5 with a loadable file */
  function LoadedLevel(s: Snapshot, pressed: Pressed, levelName: string, files: FileStore): (r: Snapshot)
    requires s.Valid()
    requires pressed.f5 ==> Loadable(files, LevelPath(levelName))
    ensures r.Valid()
    ensures !pressed.f5 ==> r == s
    ensures pressed.f5 && LevelPath(levelName) in files && files[LevelPath(levelName)].Document? ==>
              r == FromDocument(files[LevelPath(levelName)].doc)
    ensures pressed.f5 && !(LevelPath(levelName) in files && files[LevelPath(levelName)].Document?) ==>
              r == s
  {
    var path := LevelPath(levelName);
    if pressed.f5 && path in files && files[path].Document? then FromDocument(files[path].doc) else s
  }

  /** The files after UpdateLevel: a save happens only on F6 without F5 and with a non-empty name */
  function SavedFiles(s: Snapshot, pressed: Pressed, levelName: string, files: FileStore): (r: FileStore)
    requires s.Valid()
    ensures pressed.f5 || !pressed.f6 || levelName == "" ==> r == files
    ensures !pressed.f5 && pressed.f6 && levelName != "" ==>
              r == files[LevelPath(levelName) := Document(ToDocument(s))]
  {
    if !pressed.f5 && pressed.f6 && levelName != "" then files[LevelPath(levelName) := Document(ToDocument(s))]
    else files
  }

  /**
   * F5 loads the level named `levelName` and replaces the grid only if
   * the load succeeded; otherwise F6 saves the grid under that name unless
   * the name is empty. The name stands for the line read from the console.
   */
  method UpdateLevel(input: Input, grid: Grid, levelName: string, files: FileStore) returns (files': FileStore)
    requires grid.Valid()
    requires input.pressed.f5 ==> Loadable(files, LevelPath(levelName))
    modifies grid
    ensures grid.Valid()
    ensures grid.Snap() == LoadedLevel(old(grid.Snap()), input.pressed, levelName, files)
    ensures files' == SavedFiles(old(grid.Snap()), input.pressed, levelName, files)
  {
    files' := files;
    if input.pressed.f5 {
      var newGrid := Grid.LoadFromFile(levelName, files);
      if newGrid.Some? {
        grid.Assign(newGrid.value);
      }
    } else if input.pressed.f6 {
      if levelName == "" {
        // "Level not saved."
      } else {
        files' := grid.SaveToFile(levelName, files);
      }
    }
  }

  // ------------------------------------------------------------ exit flags

  /** The two flags of the exit confirmation screen */
  datatype ExitFlags = ExitFlags(requested: bool, exiting: bool)

  /**
   * One frame of the exit confirmation: closing the window or Escape
   * requests exit; while requested, `y` confirms and `n` withdraws the
   * request. Confirmation is final.
   */
  function NextExitFlags(f: ExitFlags, windowShouldClose: bool, pressed: Pressed): (r: ExitFlags)
    ensures f.exiting ==> r.exiting
    ensures r.exiting && !f.exiting ==> pressed.y && (f.requested || windowShouldClose || pressed.escape)
    ensures !f.exiting && pressed.y && (f.requested || windowShouldClose || pressed.escape) ==> r.exiting
    ensures r.requested <==> (f.requested || windowShouldClose || pressed.escape) && !pressed.n
  {
    var requested := f.requested || windowShouldClose || pressed.escape;
    if requested then ExitFlags(!pressed.n && requested, f.exiting || pressed.y)
    else ExitFlags(requested, f.exiting)
  }

  /** What one frame contributes to the exit flags */
  datatype Frame = Frame(windowShouldClose: bool, pressed: Pressed)

  /** The exit flags after a sequence of frames */
  function FlagsAfter(f: ExitFlags, frames: seq<Frame>): ExitFlags
    decreases |frames|
  {
    if frames == [] then f
    else
      var last := frames[|frames| - 1];
      NextExitFlags(FlagsAfter(f, frames[..|frames| - 1]), last.windowShouldClose, last.pressed)
  }

  /** Once the game is exiting it stays exiting, whatever the later frames hold */
  lemma {:induction false} ExitingIsFinal(f: ExitFlags, frames: seq<Frame>)
    requires f.exiting
    ensures FlagsAfter(f, frames).exiting
    decreases |frames|
  {
    if frames != [] {
      ExitingIsFinal(f, frames[..|frames| - 1]);
    }
  }

  /**
   * The game only starts exiting in a frame where `y` was pressed while
   * an exit was requested (earlier, or by that frame's Escape or close).
   */
  lemma {:induction false} ExitNeedsConfirmation(f: ExitFlags, frames: seq<Frame>)
    requires !f.exiting && FlagsAfter(f, frames).exiting
    ensures exists i :: 0 <= i < |frames| && frames[i].pressed.y &&
              (FlagsAfter(f, frames[..i]).requested || frames[i].windowShouldClose || frames[i].pressed.escape)
    decreases |frames|
  {
    var n := |frames| - 1;
    var before := FlagsAfter(f, frames[..n]);
    if before.exiting {
      ExitNeedsConfirmation(f, frames[..n]);
      var i :| 0 <= i < n && frames[..n][i].pressed.y &&
               (FlagsAfter(f, frames[..n][..i]).requested || frames[..n][i].windowShouldClose || frames[..n][i].pressed.escape);
      assert frames[..n][..i] == frames[..i];
      assert frames[..n][i] == frames[i];
    } else {
      assert frames[n].pressed.y;
    }
  }

  // ------------------------------------------------------------ rendering

  /** The cell range RenderGrid visits: columns startX .. endX - 1, rows startY .. endY - 1 */
  datatype IndexRange = IndexRange(startX: int, startY: int, endX: int, endY: int)

  /** The float-to-int conversions of the range computation are defined */
  ghost predicate RangeDefined(bounds: Rectangle, tileResolution: nat) {
    var res := tileResolution as real;
    && tileResolution > 0
    && FitsInt32(bounds.x / res) && FitsInt32(bounds.y / res)
    && FitsInt32((bounds.x + bounds.width) / res + 1.0)
    && FitsInt32((bounds.y + bounds.height) / res + 1.0)
  }

  function Max(a: int, b: int): int { if a < b then b else a }
  function Min(a: int, b: int): int { if a < b then a else b }

  /** The clamped index range of RenderGrid for the camera bounds: it never leaves the grid */
  function VisibleRange(bounds: Rectangle, tileResolution: nat, sizeX: u16, sizeY: u16): (r: IndexRange)
    requires RangeDefined(bounds, tileResolution)
    ensures 0 <= r.startX && 0 <= r.startY && r.endX <= sizeX && r.endY <= sizeY
  {
    var res := tileResolution as real;
    IndexRange(Max(0, Truncate(bounds.x / res)),
               Max(0, Truncate(bounds.y / res)),
               Min(sizeX, Truncate((bounds.x + bounds.width) / res + 1.0)),
               Min(sizeY, Truncate((bounds.y + bounds.height) / res + 1.0)))
  }

  /** One axis of the range computation covers every cell that overlaps [lo, hi] on that axis */
  lemma AxisCovers(lo: real, hi: real, res: real, cell: int, size: int)
    requires res > 0.0 && 0 <= cell < size
    requires lo < (cell + 1) as real * res && cell as real * res < hi
    ensures Max(0, Truncate(lo / res)) <= cell < Min(size, Truncate(hi / res + 1.0))
  {
    var q := lo / res;
    assert q * res == lo;
    assert q < (cell + 1) as real;
    var p := hi / res;
    assert p * res == hi;
    assert p > cell as real;
  }

  /** Every grid cell whose square overlaps the camera bounds is inside the visited range */
  lemma VisibleRangeCovers(bounds: Rectangle, tileResolution: nat, sizeX: u16, sizeY: u16, x: int, y: int)
    requires RangeDefined(bounds, tileResolution)
    requires 0 <= x < sizeX && 0 <= y < sizeY
    requires bounds.x < (x + 1) as real * tileResolution as real
    requires x as real * tileResolution as real < bounds.x + bounds.width
    requires bounds.y < (y + 1) as real * tileResolution as real
    requires y as real * tileResolution as real < bounds.y + bounds.height
    ensures var r := VisibleRange(bounds, tileResolution, sizeX, sizeY);
            r.startX <= x < r.endX && r.startY <= y < r.endY
  {
    var res := tileResolution as real;
    AxisCovers(bounds.x, bounds.x + bounds.width, res, x, sizeX);
    AxisCovers(bounds.y, bounds.y + bounds.height, res, y, sizeY);
  }

  /** One DrawTexture call of RenderGrid: the texture of tile type `kind` at cell (x, y) */
  datatype TileDraw = TileDraw(x: int, y: int, kind: u16)

  /** The draws of row y, columns startX .. endX - 1, in order */
  function RowDraws(s: Snapshot, y: int, startX: int, endX: int): seq<TileDraw>
    requires s.Valid() && 0 <= y < s.sizeY && 0 <= startX && endX <= s.sizeX
    decreases endX - startX
  {
    if endX <= startX then []
    else RowDraws(s, y, startX, endX - 1) + [TileDraw(endX - 1, y, s.tiles[y][endX - 1].kind)]
  }

  /** The draws of a whole range, row by row */
  function RangeDraws(s: Snapshot, r: IndexRange): seq<TileDraw>
    requires s.Valid() && 0 <= r.startX && 0 <= r.startY && r.endX <= s.sizeX && r.endY <= s.sizeY
    decreases r.endY - r.startY
  {
    if r.endY <= r.startY then []
    else RangeDraws(s, r.(endY := r.endY - 1)) + RowDraws(s, r.endY - 1, r.startX, r.endX)
  }

  lemma {:induction false} RowDrawsAt(s: Snapshot, y: int, startX: int, endX: int, x: int)
    requires s.Valid() && 0 <= y < s.sizeY && 0 <= startX && endX <= s.sizeX
    requires startX <= x < endX
    ensures |RowDraws(s, y, startX, endX)| == endX - startX
    ensures RowDraws(s, y, startX, endX)[x - startX] == TileDraw(x, y, s.tiles[y][x].kind)
    decreases endX - startX
  {
    RowDrawsLength(s, y, startX, endX - 1);
    if x < endX - 1 {
      RowDrawsAt(s, y, startX, endX - 1, x);
    }
  }

  lemma {:induction false} RowDrawsLength(s: Snapshot, y: int, startX: int, endX: int)
    requires s.Valid() && 0 <= y < s.sizeY && 0 <= startX && endX <= s.sizeX
    ensures |RowDraws(s, y, startX, endX)| == Max(0, endX - startX)
    decreases endX - startX
  {
    if endX > startX {
      RowDrawsLength(s, y, startX, endX - 1);
    }
  }

  lemma {:induction false} RangeDrawsLength(s: Snapshot, r: IndexRange)
    requires s.Valid() && 0 <= r.startX && 0 <= r.startY && r.endX <= s.sizeX && r.endY <= s.sizeY
    ensures |RangeDraws(s, r)| == Max(0, r.endY - r.startY) * Max(0, r.endX - r.startX)
    decreases r.endY - r.startY
  {
    if r.endY > r.startY {
      RangeDrawsLength(s, r.(endY := r.endY - 1));
      RowDrawsLength(s, r.endY - 1, r.startX, r.endX);
    }
  }

  /**
   * The draws of a range visit every cell of it exactly where a row-major
   * walk puts it, each with the grid's tile type at that cell.
   */
  lemma {:induction false} RangeDrawsAt(s: Snapshot, r: IndexRange, x: int, y: int)
    requires s.Valid() && 0 <= r.startX && 0 <= r.startY && r.endX <= s.sizeX && r.endY <= s.sizeY
    requires r.startX <= x < r.endX && r.startY <= y < r.endY
    ensures var width := r.endX - r.startX;
            var k := (y - r.startY) * width + (x - r.startX);
            0 <= k < |RangeDraws(s, r)| && RangeDraws(s, r)[k] == TileDraw(x, y, s.tiles[y][x].kind)
    decreases r.endY - r.startY
  {
    var width := r.endX - r.startX;
    var prev := r.(endY := r.endY - 1);
    RangeDrawsLength(s, prev);
    RowDrawsAt(s, r.endY - 1, r.startX, r.endX, x);
    var rows := r.endY - 1 - r.startY;
    assert |RangeDraws(s, prev)| == rows * width;
    if y < r.endY - 1 {
      RangeDrawsAt(s, prev, x, y);
    } else {
      assert (y - r.startY) * width == rows * width;
    }
  }

  /**
   * RenderGrid's index computation and loops, with the inner loop's
   * column compared as a signed integer: the draws are those of the
   * clamped visible range, so every GetTile call it makes is on the grid.
   */
  method RenderGrid(grid: Grid, bounds: Rectangle, tileResolution: nat) returns (draws: seq<TileDraw>)
    requires grid.Valid() && RangeDefined(bounds, tileResolution)
    ensures draws == RangeDraws(grid.Snap(), VisibleRange(bounds, tileResolution, grid.sizeX, grid.sizeY))
  {
    var res := tileResolution as real;
    var startX := Truncate(bounds.x / res);
    var startY := Truncate(bounds.y / res);
    var endX := Truncate((bounds.x + bounds.width) / res + 1.0);
    var endY := Truncate((bounds.y + bounds.height) / res + 1.0);

    startX := Max(0, startX);
    startY := Max(0, startY);
    endX := Min(grid.sizeX as int, endX);
    endY := Min(grid.sizeY as int, endY);

    draws := DrawRange(grid, IndexRange(startX, startY, endX, endY));
  }

  /** The two loops of RenderGrid over a clamped range: one draw per cell, row by row */
  method DrawRange(grid: Grid, r: IndexRange) returns (draws: seq<TileDraw>)
    requires grid.Valid() && 0 <= r.startX && 0 <= r.startY && r.endX <= grid.sizeX && r.endY <= grid.sizeY
    ensures draws == RangeDraws(grid.Snap(), r)
  {
    ghost var s := grid.Snap();
    draws := [];
    var y := r.startY;
    while y < r.endY
      invariant y == r.startY || r.startY < y <= r.endY
      invariant draws == RangeDraws(s, r.(endY := Min(y, grid.sizeY as int)))
    {
      assert Min(y, grid.sizeY as int) == y;
      var x := r.startX;
      while x < r.endX
        invariant x == r.startX || r.startX < x <= r.endX
        invariant draws == RangeDraws(s, r.(endY := y)) + RowDraws(s, y, r.startX, Min(x, grid.sizeX as int))
      {
        assert Min(x, grid.sizeX as int) == x;
        draws := draws + [TileDraw(x, y, grid.GetTile(x, y).kind)];
        x := x + 1;
      }
      assert RowDraws(s, y, r.startX, Min(x, grid.sizeX as int)) == RowDraws(s, y, r.startX, r.endX);
      y := y + 1;
    }
  }

  /** The inner loop of RenderGrid as written compares an unsigned column with `end_x`, converting it to unsigned */
  function UnsignedColumnLimit(endX: int): (n: u32)
    ensures 0 <= endX < 0x1_0000_0000 ==> n == endX
    ensures -0x1_0000_0000 <= endX < 0 ==> n == endX + 0x1_0000_0000
  {
    endX % 0x1_0000_0000
  }

  /**
   * As written, with the camera centred at (-300, 0) at the default zoom
   * of 2, the vertical range of the 64 x 64 grid is not empty and `end_x`
   * is negative; converted to unsigned it lets the column loop run on to
   * x = 64 = size_x, where GetTile's `at()` throws.
   */
  lemma RenderGridColumnOverrun(camera: Cameras.CenteredCamera)
    requires camera.Valid() && camera.center == Vector2(-300.0, 0.0) && camera.zoom == Cameras.DefaultZoom
    ensures RangeDefined(camera.GetBounds(WindowWidth, WindowHeight), TileResolution)
    ensures var r := VisibleRange(camera.GetBounds(WindowWidth, WindowHeight), TileResolution, GridSizeX, GridSizeY);
            && r.startY < r.endY
            && r.startX <= GridSizeX as int < UnsignedColumnLimit(r.endX)
  {
  }

  // ------------------------------------------------------------ game state

  /** GameState: everything one frame updates */
  class GameState {
    var deltaTime: real
    var input: Input
    var exitRequested: bool
    var exiting: bool
    var grid: Grid
    var tilePlaceType: u32
    var player: PlayerState
    var camera: Cameras.CenteredCamera

    ghost predicate Valid()
      reads this, grid, camera
    {
      grid.Valid() && camera.Valid()
    }

    function Flags(): ExitFlags
      reads this
    {
      ExitFlags(exitRequested, exiting)
    }

    /** `GameState state{}`: the default 64 x 64 bordered grid, selection 1, player at the origin, default camera */
    constructor ()
      ensures Valid() && fresh(grid) && fresh(player) && fresh(camera)
      ensures deltaTime == 0.0 && input == NoInput
      ensures !exitRequested && !exiting && tilePlaceType == 1
      ensures grid.sizeX == GridSizeX && grid.sizeY == GridSizeY
      ensures forall y, x :: 0 <= y < GridSizeY && 0 <= x < GridSizeX ==>
                grid.tiles[y][x] == Tile(if OnBorder(x, y, GridSizeX, GridSizeY) then BorderKind else 0)
      ensures player.position == Vector2(0.0, 0.0) && player.size == Vector2(8.0, 8.0) && player.moveSpeed == 400.0
      ensures camera.center == Vector2(0.0, 0.0) && camera.zoom == Cameras.DefaultZoom && camera.rotation == 0.0
    {
      var g := Grid.NewDefault(GridSizeX, GridSizeY);
      var p := new PlayerState.New(Vector2(0.0, 0.0), Vector2(8.0, 8.0), 400.0);
      var c := new Cameras.CenteredCamera();
      deltaTime := 0.0;
      input := NoInput;
      exitRequested := false;
      exiting := false;
      grid := g;
      tilePlaceType := 1;
      player := p;
      camera := c;
    }

    /**
     * Tile selection and painting for one frame. The cursor cell stands for
     * the mouse position converted to grid coordinates.
     */
    method UpdateTilePlacing(cursorX: u16, cursorY: u16)
      requires Valid() && SelectionDefined(tilePlaceType, input)
      modifies this`tilePlaceType, grid
      ensures Valid()
      ensures tilePlaceType == NextSelection(old(tilePlaceType), input)
      ensures grid.Snap() == Painted(old(grid.Snap()), cursorX, cursorY, input.held, tilePlaceType)
    {
      UpdateSelection();
      if input.held.lmb {
        grid.Place(cursorX, cursorY, tilePlaceType);
      }
      if input.held.rmb {
        grid.Place(cursorX, cursorY, 0);
      }
    }

    /** The selection part of UpdateTilePlacing: space steps, the wheel adds, then the result wraps */
    method UpdateSelection()
      requires SelectionDefined(tilePlaceType, input)
      modifies this`tilePlaceType
      ensures tilePlaceType == NextSelection(old(tilePlaceType), input)
    {
      if input.pressed.space {
        tilePlaceType := (tilePlaceType + 1) % 0x1_0000_0000;
      }
      if input.mouseWheel != 0.0 && !input.held.ctrl {
        tilePlaceType := Truncate(tilePlaceType as real + input.mouseWheel);
      }
      if tilePlaceType >= TileCount {
        tilePlaceType := 1;
      } else if tilePlaceType == 0 {
        tilePlaceType := TileCount - 1;
      }
    }

    /** The exit confirmation part of a frame, on this frame's input */
    method UpdateExitFlags(windowShouldClose: bool)
      modifies this`exitRequested, this`exiting
      ensures Flags() == NextExitFlags(old(Flags()), windowShouldClose, input.pressed)
    {
      if windowShouldClose || input.pressed.escape {
        exitRequested := true;
      }
      if exitRequested {
        if input.pressed.y {
          exiting := true;
        }
        if input.pressed.n {
          exitRequested := false;
        }
      }
    }

    /**
     * One frame of the game. The window's close request, the console line
     * read for a level name, the file system, the cursor cell and the zoom
     * step are supplied by the caller.
     */
    method Update(frameTime: real, captured: Input, windowShouldClose: bool, cursorX: u16, cursorY: u16,
                  levelName: string, files: FileStore, scaleZoom: (real, real) -> real) returns (files': FileStore)
      requires Valid()
      requires captured.pressed.f5 ==> Loadable(files, LevelPath(levelName))
      requires SelectionDefined(tilePlaceType, captured)
      modifies this, grid, player, camera
      ensures Valid() && grid == old(grid) && player == old(player) && camera == old(camera)
      ensures deltaTime == frameTime && input == captured
      ensures Flags() == NextExitFlags(old(Flags()), windowShouldClose, captured.pressed)
      ensures files' == SavedFiles(old(grid.Snap()), captured.pressed, levelName, files)
      ensures tilePlaceType == NextSelection(old(tilePlaceType), captured)
      ensures grid.Snap() == Painted(LoadedLevel(old(grid.Snap()), captured.pressed, levelName, files),
                                     cursorX, cursorY, captured.held, tilePlaceType)
      ensures var o := MoveOffset(captured.held.right, captured.held.left, captured.held.up, captured.held.down,
                                  old(player.moveSpeed), frameTime);
              player.position == Vector2(old(player.position.x) + o.x, old(player.position.y) + o.y)
      ensures player.size == old(player.size) && player.moveSpeed == old(player.moveSpeed)
      ensures camera.center == player.GetCenter()
      ensures camera.zoom == Cameras.NextZoom(old(camera.zoom), captured.mouseWheel, captured.held.ctrl, scaleZoom)
      ensures camera.offset == old(camera.offset) && camera.rotation == old(camera.rotation)
    {
      deltaTime := frameTime;
      input := captured;
      UpdateExitFlags(windowShouldClose);

      files' := UpdateLevel(input, grid, levelName, files);
      UpdateTilePlacing(cursorX, cursorY);

      player.Update(input, deltaTime);

      camera.Update(player.GetCenter(), input, WindowWidth, WindowHeight, scaleZoom);
    }
  }
}

/**
 * The earlier single-file prototype of src/main.cpp: a fixed-size grid
 * whose Place and GetTile are unchecked (`std::array::at` throws out of
 * range), a value-returning player state, and a camera that follows the
 * player and zooms on the mouse wheel without Ctrl.
 */
module Prototype {
  import opened Common
  import Cameras

  const BorderKind: u32 := 6

  /** The prototype's tile: an `unsigned int` type */
  datatype Tile = Tile(kind: u32)

  /** `Grid<rows, cols>`: a rows x cols `std::array` of tiles, indexed [y, x] */
  class FixedGrid {
    const rows: nat
    const cols: nat
    const tiles: array2<Tile>

    ghost predicate Valid()
      reads this
    {
      tiles.Length0 == rows && tiles.Length1 == cols
    }

    /** A grid whose cells hold whatever the uninitialised array holds */
    constructor (rows: nat, cols: nat)
      ensures Valid() && fresh(tiles)
      ensures this.rows == rows && this.cols == cols
    {
      this.rows := rows;
      this.cols := cols;
      tiles := new Tile[rows, cols];
    }

    /** Unchecked placement: the cell must exist; exactly that cell changes */
    method Place(x: u32, y: u32, kind: u32)
      requires Valid() && x < cols && y < rows
      modifies tiles
      ensures tiles[y, x] == Tile(kind)
      ensures forall j, i :: 0 <= j < rows && 0 <= i < cols && (j != y || i != x) ==>
                tiles[j, i] == old(tiles[j, i])
    {
      tiles[y, x] := Tile(kind);
    }

    /** Unchecked lookup: the cell must exist */
    function GetTile(x: u32, y: u32): (t: Tile)
      reads this, tiles
      requires Valid() && x < cols && y < rows
      ensures t == tiles[y, x]
    {
      tiles[y, x]
    }

    /** The cell (x, y) lies on the outermost row or column */
    predicate OnBorder(x: int, y: int)
      reads this
    {
      x == 0 || y == 0 || x == cols - 1 || y == rows - 1
    }

    /**
     * `Grid::NewDefault`: every border cell gets type 6. The interior is
     * left as the uninitialised array holds it, so nothing is said about
     * it. A grid with rows but no columns (or the reverse) makes the first
     * Place throw, so both are zero or both positive.
     */
    static method NewDefault(rows: nat, cols: nat) returns (grid: FixedGrid)
      requires rows < 0x1_0000_0000 && cols < 0x1_0000_0000
      requires (rows == 0) == (cols == 0)
      ensures fresh(grid) && fresh(grid.tiles) && grid.Valid()
      ensures grid.rows == rows && grid.cols == cols
      ensures forall y, x :: 0 <= y < rows && 0 <= x < cols && grid.OnBorder(x, y) ==>
                grid.tiles[y, x] == Tile(BorderKind)
    {
      grid := new FixedGrid(rows, cols);
      var lastCol: int := cols - 1;
      var lastRow: int := rows - 1;
      for y := 0 to rows
        invariant forall j :: 0 <= j < y ==> grid.tiles[j, 0] == Tile(BorderKind)
      {
        grid.Place(0, y, BorderKind);
      }
      for x := 0 to cols
        invariant forall j :: 0 <= j < rows ==> grid.tiles[j, 0] == Tile(BorderKind)
        invariant forall i :: 0 <= i < x ==> grid.tiles[0, i] == Tile(BorderKind)
      {
        grid.Place(x, 0, BorderKind);
      }
      for y := 0 to rows
        invariant forall j :: 0 <= j < rows ==> grid.tiles[j, 0] == Tile(BorderKind)
        invariant forall i :: 0 <= i < cols ==> grid.tiles[0, i] == Tile(BorderKind)
        invariant forall j :: 0 <= j < y ==> grid.tiles[j, lastCol] == Tile(BorderKind)
      {
        grid.Place(lastCol, y, BorderKind);
      }
      for x := 0 to cols
        invariant forall j :: 0 <= j < rows ==> grid.tiles[j, 0] == Tile(BorderKind)
        invariant forall i :: 0 <= i < cols ==> grid.tiles[0, i] == Tile(BorderKind)
        invariant forall j :: 0 <= j < rows ==> grid.tiles[j, lastCol] == Tile(BorderKind)
        invariant forall i :: 0 <= i < x ==> grid.tiles[lastRow, i] == Tile(BorderKind)
      {
        grid.Place(x, lastRow, BorderKind);
      }
    }
  }

  /** An in-range Place followed by GetTile at the same cell reads back the placed type */
  method PlaceThenGetTile(grid: FixedGrid, x: u32, y: u32, kind: u32) returns (t: Tile)
    requires grid.Valid() && x < grid.cols && y < grid.rows
    modifies grid.tiles
    ensures t == Tile(kind)
  {
    grid.Place(x, y, kind);
    t := grid.GetTile(x, y);
  }

  /** The prototype's input: only the four movement keys */
  datatype Keys = Keys(right: bool, left: bool, up: bool, down: bool)

  /** `Player::State`: a value; moving returns a new state and leaves the receiver as it was */
  datatype PlayerState = PlayerState(position: Vector2, size: Vector2, moveSpeed: real)
  {
    /** The state moved by `offset`; size and speed are carried over */
    function MoveBy(offset: Vector2): (r: PlayerState)
      ensures r.position.x - position.x == offset.x && r.position.y - position.y == offset.y
      ensures r.size == size && r.moveSpeed == moveSpeed
    {
      PlayerState(Vector2(position.x + offset.x, position.y + offset.y), size, moveSpeed)
    }

    /** The centre of the player's square: equally far from opposite edges */
    function GetCenter(): (c: Vector2)
      ensures c.x - position.x == position.x + size.x - c.x
      ensures c.y - position.y == position.y + size.y - c.y
    {
      Vector2(position.x + size.x / 2.0, position.y + size.y / 2.0)
    }

    /**
     * One frame of movement: each axis moves by at most speed * dt, in the
     * direction of the key held alone on that axis (up is negative y), and
     * not at all when both or neither key of the axis is held.
     */
    function Update(keys: Keys, deltaTime: real): (r: PlayerState)
      ensures r.size == size && r.moveSpeed == moveSpeed
      ensures keys.right == keys.left ==> r.position.x == position.x
      ensures keys.right && !keys.left ==> r.position.x == position.x + moveSpeed * deltaTime
      ensures keys.left && !keys.right ==> r.position.x == position.x - moveSpeed * deltaTime
      ensures keys.up == keys.down ==> r.position.y == position.y
      ensures keys.up && !keys.down ==> r.position.y == position.y - moveSpeed * deltaTime
      ensures keys.down && !keys.up ==> r.position.y == position.y + moveSpeed * deltaTime
    {
      MoveBy(MoveOffset(keys.right, keys.left, keys.up, keys.down, moveSpeed, deltaTime))
    }
  }

  /** `Player::State::New`: size and speed default to 8 x 8 and 400 */
  function NewPlayer(position: Vector2, size: Vector2 := Vector2(8.0, 8.0), moveSpeed: real := 400.0): (p: PlayerState)
    ensures p.position == position && p.size == size && p.moveSpeed == moveSpeed
  {
    PlayerState(position, size, moveSpeed)
  }

  /** Two moves add up: moving by a then b is moving by a + b */
  lemma MoveByComposes(p: PlayerState, a: Vector2, b: Vector2)
    ensures p.MoveBy(a).MoveBy(b) == p.MoveBy(Vector2(a.x + b.x, a.y + b.y))
  {
  }

  /** Holding right for one frame and left for an equally long frame returns the player to where it started */
  lemma OppositeFramesCancel(p: PlayerState, deltaTime: real)
    ensures p.Update(Keys(true, false, false, false), deltaTime).Update(Keys(false, true, false, false), deltaTime) == p
  {
  }

  /** `Camera::State`: a raylib camera whose zoom is always in [1/8, 64] */
  class CameraState {
    var offset: Vector2
    var target: Vector2
    var rotation: real
    var zoom: real

    ghost predicate Valid()
      reads this
    {
      Cameras.MinZoom <= zoom <= Cameras.MaxZoom
    }

    constructor ()
      ensures Valid()
      ensures offset == Vector2(0.0, 0.0) && target == Vector2(0.0, 0.0)
      ensures rotation == 0.0 && zoom == Cameras.DefaultZoom
    {
      offset := Vector2(0.0, 0.0);
      target := Vector2(0.0, 0.0);
      rotation := 0.0;
      zoom := Cameras.DefaultZoom;
    }

    /** The raylib camera with the state's fields */
    function ToCamera2D(): (c: Cameras.Camera2D)
      reads this
      ensures c.offset == offset && c.target == target && c.rotation == rotation && c.zoom == zoom
    {
      Cameras.Camera2D(offset, target, rotation, zoom)
    }

    /**
     * Log-scaled zoom on any wheel movement. Zooming into the mouse is
     * switched off, so offset and target stay where they are.
     */
    method SetZoom(mouseWheelInput: real, scaleZoom: (real, real) -> real)
      requires Valid()
      modifies this`zoom
      ensures Valid()
      ensures zoom == Cameras.NextZoom(old(zoom), mouseWheelInput, true, scaleZoom)
    {
      if mouseWheelInput != 0.0 {
        var scale := Cameras.ZoomSpeed * mouseWheelInput;
        zoom := Clamp(scaleZoom(zoom, scale), Cameras.MinZoom, Cameras.MaxZoom);
      }
    }

    /** The player's centre becomes the target and is drawn in the middle of the window */
    method FollowPlayer(playerCenter: Vector2, windowWidth: real, windowHeight: real)
      modifies this`target, this`offset
      ensures target == playerCenter && offset == Vector2(windowWidth / 2.0, windowHeight / 2.0)
      ensures Cameras.WorldToScreen(ToCamera2D(), playerCenter) == Vector2(windowWidth / 2.0, windowHeight / 2.0)
    {
      target := playerCenter;
      offset := Vector2(windowWidth / 2.0, windowHeight / 2.0);
    }

    /** One frame: follow the player, then zoom */
    method Update(playerCenter: Vector2, mouseWheelInput: real, windowWidth: real, windowHeight: real,
                  scaleZoom: (real, real) -> real)
      requires Valid()
      modifies this
      ensures Valid() && rotation == old(rotation)
      ensures target == playerCenter && offset == Vector2(windowWidth / 2.0, windowHeight / 2.0)
      ensures zoom == Cameras.NextZoom(old(zoom), mouseWheelInput, true, scaleZoom)
    {
      FollowPlayer(playerCenter, windowWidth, windowHeight);
      SetZoom(mouseWheelInput, scaleZoom);
    }
  }

  /**
   * The prototype's frame update: the player moves by the held keys and
   * the camera follows its new centre and zooms on the wheel. Returns the
   * new player state.
   */
  method UpdateFrame(player: PlayerState, camera: CameraState, keys: Keys, wheel: real, deltaTime: real,
                     scaleZoom: (real, real) -> real) returns (player': PlayerState)
    requires camera.Valid()
    modifies camera
    ensures camera.Valid()
    ensures player' == player.Update(keys, deltaTime)
    ensures camera.target == player'.GetCenter()
    ensures camera.offset == Vector2(400.0, 300.0)
    ensures camera.zoom == Cameras.NextZoom(old(camera.zoom), wheel, true, scaleZoom)
    ensures camera.rotation == old(camera.rotation)
  {
    player' := player.Update(keys, deltaTime);
    camera.Update(player'.GetCenter(), wheel, 800.0, 600.0, scaleZoom);
  }
}

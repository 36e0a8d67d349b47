# cave-slave in Dafny

This is a model of the core of *cave-slave*, a small raylib tile-map editor
and platformer written in C++. It covers these parts:

- **The tile grid** (`src/grid.cpp`). A `size_x` x `size_y` matrix of 16-bit tile types.
  - `Place` is bounds-checked and `GetTile` is checked.
  - `NewDefault` builds a grid with a solid type-6 border.
  - A grid can be saved to the level document `{width, height, tiles}` under `levels/<name>.json` and loaded back.
- **The player** (`src/player.cpp`).
  - In play mode it walks with the horizontal speed clamped to 200, jumps at -200 and falls under gravity up to 600.
  - In editor mode it free-flies at up to 400 per axis.
  - Its sprite moves by velocity times frame time, and it faces the way it last walked.
- **The centred camera** (`src/camera.cpp`).
  - It follows the player's centre and shows it at the middle of the window.
  - It zooms in log steps on Ctrl + wheel, with the zoom clamped to [1/8, 64].
  - It reports the world rectangle it shows.
- **The game state and its frame update** (`src/game.cpp`):
  - the exit confirmation flags (Escape or window close asks; `y` confirms; `n` withdraws);
  - F5 load and F6 save of the level;
  - the tile selector (space and wheel, wrapped into 1..7) and painting with the mouse buttons;
  - the free-flying editor player;
  - the camera;
  - the range of cells `RenderGrid` visits.
- **The earlier prototype** (`src/main.cpp`):
  - a fixed-size template grid whose `Place`/`GetTile` do not check bounds (`std::array::at` throws);
  - a value-returning player state;
  - a camera that follows the player and zooms on any wheel movement.

Modules follow the source files: `Common` holds the shared value types and numeric helpers, then come `Grids`, `Players`, `Cameras`, `Game` and `Prototype`.

Entities the source updates in place are classes whose methods modify their fields: `Grid`, `Player`, `CenteredCamera`, `Game.PlayerState`, `GameState`, the prototype's `FixedGrid` (over an `array2`) and `CameraState`. Values are datatypes: tiles, documents, `Snapshot` (the value of a grid), the prototype's player state, exit flags, and draws.

How the model represents the parts it does not execute:

- **Floats and conversions.** Floats are exact reals. A float-to-integer conversion truncates toward zero (`Common.Truncate`). Where the source's conversion would be undefined, the model requires it to be defined.
- **Unsigned arithmetic.** The unsigned `tile_place_type++` wraps modulo 2^32.
- **The file system.** It is a map from path to stored file. A stored file is a converted document or `Corrupt`, which stands for any file that fails to parse or convert.
- **Values supplied by the caller:**
  - the line read from the console for a level name;
  - the window's close request;
  - the frame time;
  - the cursor's grid cell;
  - the `expf(logf(zoom) + scale)` zoom step, passed as a function about which nothing is assumed.

The model follows the code in these places, where the code does less or other than a reader might expect:

- Grids of width or height 0 are accepted, although a level is meant to have a positive width and height.
- `LoadFromFile` does not check the tile matrix's shape, so a malformed file does not fail safely. The model requires a matrix that covers the grid.
- `CenteredCamera::Update` never writes the camera's `offset` field, so it keeps its initial value. The half-window offset only appears in the `Camera2D` that `GetCamera2D` builds.
- There is no collision handling: the player moves through tiles.

## Model

| member | source | states |
|---|---|---|
| Common.Clamp | src/player.cpp:13 | `std::clamp`: the result lies in [lo, hi]; it is v when v is in range, lo below and hi above |
| Common.Axis | src/player.cpp:63-64 | The key axis is -1, 0 or 1. It is positive exactly when only the positive key is held and negative exactly when only the negative key is held |
| Common.MoveOffset | src/game.cpp:36-42 | The free-move offset is 0 on an axis whose keys are both or neither held, otherwise ±speed·dt; up gives negative y |
| Common.Truncate | src/game.cpp:191-194 | Float-to-int conversion rounds toward zero: floor bounds for non-negative values, ceiling bounds for negative ones |
| Grids.Snapshot.Placed | src/grid.cpp:17-23 | Placing in range sets exactly that cell and keeps shape and size. Out of range it changes nothing |
| Grids.LevelPath | src/grid.cpp:57 | The file path is `levels/` + name + `.json`; the name sits at offset 7 |
| Grids.LevelPathInjective | src/grid.cpp:86 | Distinct level names give distinct path strings |
| Grids.ToDocument | src/grid.cpp:59-71 | The saved document has width = size_x, height = size_y, and `tiles[y][x]` = the type of cell (x, y), in a matrix of exactly that shape |
| Grids.FromDocument | src/grid.cpp:91-98 | A loaded grid has the document's size, and each cell's type is the document's entry for it |
| Grids.DocumentRoundTrip | src/grid.cpp:54-100 | Loading the saved document gives back the same grid value, and that document is always loadable |
| Grids.DocumentCrop | src/grid.cpp:94-98 | Saving a loaded grid reproduces the document cropped to width x height: entries outside it are dropped |
| Grids.Grid.constructor | src/grid.cpp:9-15 | A new grid has the requested size and every tile is type 0 |
| Grids.Grid.Place | src/grid.cpp:17-23 | The grid's new value is `Placed` of its old value |
| Grids.Grid.GetTile | src/grid.cpp:25-28 | Reads the cell. Reading off the grid throws (`at()`), so callers must stay in range |
| Grids.Grid.Assign | src/game.cpp:148 | Copy assignment: the grid takes the other grid's whole value |
| Grids.Grid.NewDefault | src/grid.cpp:31-52 | Border cells (x = 0, y = 0, x = w-1, y = h-1) are type 6 and all others 0. A zero size wraps `w - 1` to 65535, so that loop writes nothing |
| Grids.Grid.SaveToFile | src/grid.cpp:54-80 | The file at the level path now holds this grid's document; every other file is unchanged |
| Grids.Grid.LoadFromFile | src/grid.cpp:82-105 | No grid exactly when the file is missing or corrupt. Otherwise a fresh grid equal to `FromDocument` of the stored document |
| Grids.PlaceThenGetTile | src/grid.cpp:17-28 | An in-range Place followed by GetTile at the same cell returns the placed type |
| Grids.SaveThenLoad | src/grid.cpp:54-105 | Saving a grid, then loading it by the same name, succeeds and yields the same value |
| Grids.DefaultGridScenario | src/grid.cpp:31-52 | On a 10 x 10 default grid, Place(5, 5, 3) reads back 3 and the corner reads 6 |
| Players.Player.New | src/player.cpp:43-54 | The sprite sits at the origin with the player's size, faces right, and has zero velocity |
| Players.Player.Move | src/player.cpp:11-18 | Horizontal velocity is the clamped input times speed, within ±200. A jump press sets vertical velocity to -200; otherwise it is kept |
| Players.Player.FreeMove | src/player.cpp:20-26 | The old velocity is discarded. Both components follow the clamped input (y is negated), each within ±400 |
| Players.Player.ApplyVelocity | src/player.cpp:28-31 | The sprite corner moves by velocity·dt; extent, facing and velocity are unchanged |
| Players.Player.ApplyGravity | src/player.cpp:33-36 | Vertical velocity grows by gravity·dt and is capped at 600; horizontal velocity is unchanged |
| Players.Player.GetCenter | src/player.cpp:39-41 | The centre is equally far from the rectangle's opposite edges |
| Players.Player.Update | src/player.cpp:56-87 | Play mode: facing follows the lone horizontal key, velocity is walked, jumped and fallen. Editor mode: facing is unchanged and velocity is flown. Both modes then move the sprite once by the new velocity |
| Players.Fall | src/player.cpp:33-36 | The capped fall speed is at most 600 and equals the sum whenever that is within the cap |
| Cameras.NextZoom | src/camera.cpp:26-34 | The zoom changes only on wheel movement with Ctrl held; it then lands in [1/8, 64] |
| Cameras.ZoomStaysInRange | src/camera.cpp:31 | Over any sequence of frames, a zoom that starts in [1/8, 64] stays there |
| Cameras.ZoomIgnoresWheelWithoutCtrl | src/camera.cpp:27 | Frames without Ctrl never change the zoom |
| Cameras.CenteredCamera.constructor | src/camera.h:11-15 | Default camera: centre and offset at the origin, no rotation, zoom 2 |
| Cameras.CenteredCamera.GetCamera2D | src/camera.cpp:6-13 | The raylib camera targets the centre and draws it at the middle of the window |
| Cameras.CenteredCamera.GetBounds | src/camera.cpp:15-24 | The bounds measure window size / zoom and are centred on the camera centre |
| Cameras.CenteredCamera.UpdateZoom | src/camera.cpp:26-34 | The new zoom is `NextZoom` of the old one, so the zoom always stays clamped |
| Cameras.CenteredCamera.UpdatePosition | src/camera.cpp:36-38 | The centre becomes the player's centre |
| Cameras.CenteredCamera.Update | src/camera.cpp:40-43 | Follows the player, then zooms |
| Cameras.BoundsAreVisibleRegion | src/camera.cpp:6-24 | A world point lies in GetBounds exactly when its screen position under GetCamera2D lies in the window |
| Game.PlayerState.New | src/game.cpp:22-29 | The new player state holds the given position, size and speed |
| Game.PlayerState.MoveBy | src/game.cpp:12-16 | The position is shifted by the offset |
| Game.PlayerState.GetCenter | src/game.cpp:18-20 | The centre is equally far from the square's opposite edges |
| Game.PlayerState.Update | src/game.cpp:31-46 | The player moves by the free-move offset of the held keys at its speed |
| Game.SpaceStep | src/game.cpp:116-118 | A space press adds one, wrapping 0xFFFFFFFF to 0; otherwise the selection is unchanged |
| Game.RawSelection | src/game.cpp:116-122 | Without a wheel notch (or with Ctrl held) the selection is only the space step |
| Game.WrapSelection | src/game.cpp:124-128 | The result is in 1..7: values ≥ 8 become 1, 0 becomes 7, and 1..7 are kept |
| Game.NextSelection | src/game.cpp:115-128 | After one frame the selection is always a placeable tile type, 1..7 |
| Game.SelectionSingleStepCycles | src/game.cpp:116-128 | From a valid selection, one space press or one wheel notch steps cyclically through 1..7 |
| Game.SelectionWrapIsNotModular | src/game.cpp:116-128 | From 7, space plus a +1 notch gives 1, not 2: the wrap is a reset, not a modulus |
| Game.Painted | src/game.cpp:130-137 | The cursor cell gets the selection under the left button and 0 under the right button (right wins); other cells are unchanged; off the grid nothing changes |
| Game.LoadedLevel | src/game.cpp:142-149 | On F5, the grid becomes the stored level when the file holds a document; a missing or corrupt file leaves the grid as it was |
| Game.SavedFiles | src/game.cpp:150-159 | A save happens only on F6 without F5 and with a non-empty name, and it writes that level's file |
| Game.UpdateLevel | src/game.cpp:141-160 | The grid becomes `LoadedLevel` and the files become `SavedFiles` |
| Game.NextExitFlags | src/game.cpp:166-177 | Exiting is never undone. It is set only by `y` while exit is requested. The request holds exactly when asked (or already asked) and `n` is not pressed |
| Game.ExitingIsFinal | src/game.cpp:170-173 | Once exiting, the game stays exiting over any later frames |
| Game.ExitNeedsConfirmation | src/game.cpp:166-177 | If the game starts exiting, some frame pressed `y` while an exit was requested |
| Game.VisibleRange | src/game.cpp:191-199 | The clamped index range never leaves the grid |
| Game.VisibleRangeCovers | src/game.cpp:191-199 | Every grid cell whose square overlaps the camera bounds is inside the range |
| Game.RowDrawsAt | src/game.cpp:203-208 | One row's draws are one per column, in order, each with that cell's type |
| Game.RowDrawsLength | src/game.cpp:203-208 | One row draws one tile per column of the range |
| Game.RangeDrawsLength | src/game.cpp:201-209 | A range draws rows × columns tiles |
| Game.RangeDrawsAt | src/game.cpp:201-209 | The draws visit every cell of the range once, in row-major order, with its tile type |
| Game.RenderGrid | src/game.cpp:190-211 | With the column compared as a signed integer, the draws are exactly those of the clamped visible range, so every GetTile is on the grid |
| Game.DrawRange | src/game.cpp:201-209 | The two loops emit exactly the range's draws |
| Game.UnsignedColumnLimit | src/game.cpp:203 | Comparing with an `unsigned` column converts `end_x` modulo 2^32, so a negative bound becomes huge |
| Game.RenderGridColumnOverrun | src/game.cpp:190-205 | With the camera centred at (-300, 0) and zoom 2, the row range is non-empty, and the as-written column bound lets x reach 64 = size_x |
| Game.GameState.constructor | src/game.h:99-108 | The initial state: no exit flags, a 64 x 64 bordered grid, selection 1, an 8 x 8 player at the origin with speed 400, and the default camera |
| Game.GameState.UpdateTilePlacing | src/game.cpp:115-139 | The selection becomes `NextSelection` and the grid becomes `Painted` at the cursor cell |
| Game.GameState.UpdateSelection | src/game.cpp:116-128 | The selection becomes `NextSelection` of the old one under this frame's input |
| Game.GameState.UpdateExitFlags | src/game.cpp:166-177 | The flags become `NextExitFlags` of the old ones |
| Game.GameState.Update | src/game.cpp:162-186 | One frame updates, in order, the exit flags, the level load/save, the selection and painting, the player move and the camera zoom; the camera follows the moved player's centre |
| Prototype.FixedGrid.constructor | src/main.cpp:53-55 | The grid is a rows x cols array |
| Prototype.FixedGrid.Place | src/main.cpp:57-59 | Exactly cell (x, y) gets the type. The cell must exist: `at()` throws otherwise |
| Prototype.FixedGrid.GetTile | src/main.cpp:61-63 | Reads the cell, which must exist |
| Prototype.FixedGrid.NewDefault | src/main.cpp:65-85 | Every border cell is type 6. Nothing is claimed about the uninitialised interior. Rows and columns are both zero or both positive |
| Prototype.PlaceThenGetTile | src/main.cpp:57-63 | Place followed by GetTile at the same cell returns the placed type |
| Prototype.PlayerState.MoveBy | src/main.cpp:111-114 | The new state is the old position plus the offset; size and speed are carried over |
| Prototype.PlayerState.GetCenter | src/main.cpp:116-118 | The centre is equally far from the square's opposite edges |
| Prototype.PlayerState.Update | src/main.cpp:126-142 | Each axis moves ±speed·dt toward the lone held key of that axis (up is negative y), or not at all |
| Prototype.NewPlayer | src/main.cpp:119-124 | A player at the given position with the given size and speed, which default to 8 x 8 and 400 when omitted |
| Prototype.MoveByComposes | src/main.cpp:111-114 | Moving by a and then b equals moving by a + b |
| Prototype.OppositeFramesCancel | src/main.cpp:126-142 | A frame of right followed by an equal frame of left returns the player to the same state |
| Prototype.CameraState.constructor | src/main.cpp:151-155 | Offset and target at the origin, no rotation, zoom 2 |
| Prototype.CameraState.ToCamera2D | src/main.cpp:157-159 | The raylib camera carries the state's four fields |
| Prototype.CameraState.SetZoom | src/main.cpp:161-183 | Any wheel movement zooms, clamped to [1/8, 64]. Offset and target are untouched because zooming into the mouse is off |
| Prototype.CameraState.FollowPlayer | src/main.cpp:185-188 | The target is the player's centre, the offset is half the window, so the player is drawn at the window's middle |
| Prototype.CameraState.Update | src/main.cpp:190-193 | Follows the player, then zooms; rotation is unchanged |
| Prototype.UpdateFrame | src/main.cpp:248-257 | The player moves by the keys, and the camera then follows its new centre with the window's half size as offset and zooms on the wheel |

## Left out

- Collision resolution (`CheckCollision`, `ResolveCollision`, `SetVelocity`, `ApplyVelocityFree`, `max_horizontal_speed`): these are declared in `src/player.h` but have no implementation in the source.
- Rendering and assets: drawing, textures, `RenderTileGhost`, `RenderTilePreview`, `RenderPlayer`, `RenderExitScreen`, `Render`, `Sprite::Draw`, `GetTileTextures`/`InitTileTextures`, and the prototype's full-grid `RenderGrid`. These are calls into raylib. For `RenderGrid` in `src/game.cpp`, only the cells it visits are modelled.
- Game.RenderGrid: the `tile_textures.at(type)` lookup is not modelled, so a tile type of 8 or more, which would throw there, is not caught.
- Window and loop bootstrap (`Init`, `InitAssets`, `Run`, `main`) and `Input::Capture`: these are raylib calls. The frame's input is a parameter.
- `GetMouseGridPosition` and the float-to-`uint16_t` conversion of its result: these depend on raylib's screen-to-world mapping. Painting takes the cursor's grid cell as 16-bit coordinates.
- JSON text, the nlohmann library, file streams, console prompts and `std::cin`: a level file is a converted document or `Corrupt`, and the level name is a parameter.
- Grids.Grid.SaveToFile: it always stores the document. The source writes nothing when the file cannot be opened.
- Grids.Grid.LoadFromFile: documents whose width or height does not fit 16 bits, and matrices too small for the copy loop, are excluded by the precondition. The source truncates such sizes into `size_x`/`size_y` and indexes without a check.
- Cameras.NextZoom: `expf`/`logf` and IEEE single-precision rounding are not modelled. The zoom step is an arbitrary function, so only the clamping is proved.
- Game.RawSelection: the float addition `tile_place_type += mouse_wheel` is exact here. Single-precision rounding of selections above 2^24 is not modelled.
- Game.SelectionDefined: the game requires the float-to-unsigned conversion of the wheel sum to be defined, that is, the sum must be above -1 and below 2^32. The source leaves other values undefined.
- Grids.LevelPath: path normalisation (`.` and `..` components) and case-insensitive file systems are not modelled, so two different names that open the same file on disk are two keys of the file store.
- Prototype.MoveByComposes: holds for exact real arithmetic only; single-precision addition of position and offset is not associative, so the float program can differ in the last bit.
- Prototype.OppositeFramesCancel: holds for exact real arithmetic only; in single precision, adding and then subtracting speed * dt need not restore the position exactly.
- Players.Player.New: velocity starts at zero, as the designated initializer value-initialises it. The texture is not modelled.
- The zoom-into-mouse branch of the prototype's `SetZoom` is not modelled: it is switched off by a constant (`ZOOM_INTO_MOUSE = false`).
- Headers (`src/*.h`) are used only for types, defaults and constants. `src/player.h` and `src/camera.h` declare interfaces that differ from the implementations; the model follows the implementations.

## Findings

| source | as written | input that shows it | evidently intended | confidence | as-written member | corrected member |
|---|---|---|---|---|---|---|
| src/game.cpp:203 | The inner loop `for (unsigned int x = start_x; x < end_x; x++)` compares an unsigned column with the signed `end_x`. A negative `end_x` is converted to a value near 2^32, so the loop runs past the grid and `GetTile(size_x, y)` throws from `at()` | Camera centred at (-300, 0), zoom 2, window 800 x 600, tile size 8, 64 x 64 grid. `start_x` = 0 and `end_x` = -11; the row range 0..18 is non-empty | Visit no column when `end_x` ≤ `start_x`, comparing the column as a signed `int` like the row loop | not executed | Game.RenderGridColumnOverrun | Game.RenderGrid |

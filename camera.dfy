/**
 * The centred camera of src/camera.cpp: it follows the player's centre,
 * zooms in log steps on Ctrl + mouse wheel with the zoom clamped to
 * [1/8, 64], and reports the world rectangle it shows.
 *
 * `expf(logf(zoom) + scale)` is not modelled: the zoom step is a function
 * parameter `scaleZoom(zoom, scale)` about which nothing is assumed.
 */
module Cameras {
  import opened Common

  const MinZoom := 1.0 / 8.0
  const MaxZoom := 64.0
  const DefaultZoom := 2.0
  /** Zoom change per unit of mouse wheel, in the log domain */
  const ZoomSpeed := 0.2

  /** raylib's Camera2D: screen offset, world target, rotation in degrees, zoom */
  datatype Camera2D = Camera2D(offset: Vector2, target: Vector2, rotation: real, zoom: real)

  /**
   * raylib's world-to-screen mapping for an unrotated camera: the target is
   * drawn at the offset and distances are scaled by the zoom.
   */
  function WorldToScreen(camera: Camera2D, p: Vector2): Vector2 {
    Vector2((p.x - camera.target.x) * camera.zoom + camera.offset.x,
            (p.y - camera.target.y) * camera.zoom + camera.offset.y)
  }

  /** The zoom after one frame's wheel input: it changes only on wheel movement with Ctrl held, and then lands in [1/8, 64] */
  function NextZoom(zoom: real, wheel: real, ctrl: bool, scaleZoom: (real, real) -> real): (z: real)
    ensures !(wheel != 0.0 && ctrl) ==> z == zoom
    ensures wheel != 0.0 && ctrl ==> MinZoom <= z <= MaxZoom
  {
    if wheel != 0.0 && ctrl then Clamp(scaleZoom(zoom, ZoomSpeed * wheel), MinZoom, MaxZoom)
    else zoom
  }

  /** The zoom after a sequence of frames' inputs */
  function ZoomAfter(zoom: real, inputs: seq<Input>, scaleZoom: (real, real) -> real): real
    decreases |inputs|
  {
    if inputs == [] then zoom
    else ZoomAfter(NextZoom(zoom, inputs[0].mouseWheel, inputs[0].held.ctrl, scaleZoom), inputs[1..], scaleZoom)
  }

  /** Starting from any zoom in range, the zoom stays in [1/8, 64] over any input sequence */
  lemma {:induction false} ZoomStaysInRange(zoom: real, inputs: seq<Input>, scaleZoom: (real, real) -> real)
    requires MinZoom <= zoom <= MaxZoom
    ensures MinZoom <= ZoomAfter(zoom, inputs, scaleZoom) <= MaxZoom
    decreases |inputs|
  {
    if inputs != [] {
      ZoomStaysInRange(NextZoom(zoom, inputs[0].mouseWheel, inputs[0].held.ctrl, scaleZoom), inputs[1..], scaleZoom);
    }
  }

  /** Frames without Ctrl held never change the zoom, whatever the wheel does */
  lemma {:induction false} ZoomIgnoresWheelWithoutCtrl(zoom: real, inputs: seq<Input>, scaleZoom: (real, real) -> real)
    requires forall i :: 0 <= i < |inputs| ==> !inputs[i].held.ctrl
    ensures ZoomAfter(zoom, inputs, scaleZoom) == zoom
    decreases |inputs|
  {
    if inputs != [] {
      ZoomIgnoresWheelWithoutCtrl(zoom, inputs[1..], scaleZoom);
    }
  }

  class CenteredCamera {
    var center: Vector2
    var offset: Vector2
    var rotation: real
    var zoom: real

    /** The zoom is always clamped and the camera is never rotated */
    ghost predicate Valid()
      reads this
    {
      MinZoom <= zoom <= MaxZoom && rotation == 0.0
    }

    /** The default member initialisers */
    constructor ()
      ensures Valid()
      ensures center == Vector2(0.0, 0.0) && offset == Vector2(0.0, 0.0)
      ensures rotation == 0.0 && zoom == DefaultZoom
    {
      center := Vector2(0.0, 0.0);
      offset := Vector2(0.0, 0.0);
      rotation := 0.0;
      zoom := DefaultZoom;
    }

    /** The raylib camera for a window: the camera's centre is shown in the middle of the window */
    function GetCamera2D(windowWidth: u16, windowHeight: u16): (c: Camera2D)
      reads this
      ensures c.target == center && c.rotation == rotation && c.zoom == zoom
      ensures WorldToScreen(c, center) == Vector2(windowWidth as real / 2.0, windowHeight as real / 2.0)
    {
      Camera2D(Vector2(windowWidth as real / 2.0, windowHeight as real / 2.0), center, rotation, zoom)
    }

    /** The world rectangle the camera shows: window size divided by zoom, centred on the camera's centre */
    function GetBounds(windowWidth: u16, windowHeight: u16): (r: Rectangle)
      reads this
      requires Valid()
      ensures r.width * zoom == windowWidth as real && r.height * zoom == windowHeight as real
      ensures r.x + r.width / 2.0 == center.x && r.y + r.height / 2.0 == center.y
    {
      var halfWidth := windowWidth as real / (2.0 * zoom);
      var halfHeight := windowHeight as real / (2.0 * zoom);
      Rectangle(center.x - halfWidth, center.y - halfHeight, halfWidth * 2.0, halfHeight * 2.0)
    }

    /** Log-scaled zoom on Ctrl + wheel, clamped to [1/8, 64] */
    method UpdateZoom(mouseWheelInput: real, ctrlHeld: bool, windowWidth: u16, windowHeight: u16,
                      scaleZoom: (real, real) -> real)
      requires Valid()
      modifies this`zoom
      ensures Valid()
      ensures zoom == NextZoom(old(zoom), mouseWheelInput, ctrlHeld, scaleZoom)
    {
      if mouseWheelInput != 0.0 && ctrlHeld {
        var scale := ZoomSpeed * mouseWheelInput;
        zoom := Clamp(scaleZoom(zoom, scale), MinZoom, MaxZoom);
      }
    }

    /** The camera centre jumps to the player's centre; nothing else changes */
    method UpdatePosition(playerCenter: Vector2, windowWidth: real, windowHeight: real)
      modifies this`center
      ensures center == playerCenter
    {
      center := playerCenter;
    }

    /** One frame: follow the player, then apply the wheel zoom */
    method Update(playerCenter: Vector2, input: Input, windowWidth: u16, windowHeight: u16,
                  scaleZoom: (real, real) -> real)
      requires Valid()
      modifies this`center, this`zoom
      ensures Valid()
      ensures center == playerCenter
      ensures zoom == NextZoom(old(zoom), input.mouseWheel, input.held.ctrl, scaleZoom)
    {
      UpdatePosition(playerCenter, windowWidth as real, windowHeight as real);
      UpdateZoom(input.mouseWheel, input.held.ctrl, windowWidth, windowHeight, scaleZoom);
    }
  }

  /**
   * The bounds are exactly the part of the world that the camera maps onto
   * the window: a point lies in GetBounds iff its screen position lies in
   * [0, width] x [0, height].
   */
  lemma BoundsAreVisibleRegion(camera: CenteredCamera, windowWidth: u16, windowHeight: u16, p: Vector2)
    requires camera.Valid()
    ensures var b := camera.GetBounds(windowWidth, windowHeight);
            var s := WorldToScreen(camera.GetCamera2D(windowWidth, windowHeight), p);
            && (b.x <= p.x <= b.x + b.width <==> 0.0 <= s.x <= windowWidth as real)
            && (b.y <= p.y <= b.y + b.height <==> 0.0 <= s.y <= windowHeight as real)
  {
  }
}

/**
 * Shared vocabulary of the game: fixed-width integers, the raylib value
 * types the core uses (Vector2, Rectangle), the per-frame input snapshot,
 * and the small numeric helpers (std::clamp, float-to-integer conversion).
 * Floats are modelled as exact reals.
 */
module Common {

  /** uint16_t */
  type u16 = x: int | 0 <= x < 0x1_0000
  /** uint32_t (the game's `unsigned int`) */
  type u32 = x: int | 0 <= x < 0x1_0000_0000

  datatype Option<T> = None | Some(value: T)

  /** raylib's Vector2 */
  datatype Vector2 = Vector2(x: real, y: real)

  /** raylib's Rectangle: top-left corner and extent */
  datatype Rectangle = Rectangle(x: real, y: real, width: real, height: real)

  /** Keys held down this frame (Input::Held) */
  datatype Held = Held(ctrl: bool, right: bool, left: bool, up: bool, down: bool,
                       space: bool, lmb: bool, rmb: bool)

  /** Keys pressed this frame (Input::Pressed) */
  datatype Pressed = Pressed(space: bool, escape: bool, y: bool, n: bool,
                             f4: bool, f5: bool, f6: bool)

  /** The per-frame input snapshot that Input::Capture returns */
  datatype Input = Input(mousePosition: Vector2, mouseWheel: real, held: Held, pressed: Pressed)

  /** The value-initialised input of a freshly constructed game state */
  const NoInput := Input(Vector2(0.0, 0.0), 0.0,
                         Held(false, false, false, false, false, false, false, false),
                         Pressed(false, false, false, false, false, false, false))

  /** Facing of a sprite; the source encodes RIGHT as 1 and LEFT as -1 */
  datatype Direction = Right | Left

  datatype GameMode = Editor | Play

  /** A drawable sprite: where it is drawn and which way it faces (the texture is not modelled) */
  datatype Sprite = Sprite(destRect: Rectangle, direction: Direction)

  /** std::clamp(v, lo, hi) */
  function Clamp(v: real, lo: real, hi: real): (r: real)
    requires lo <= hi
    ensures lo <= r <= hi
    ensures lo <= v <= hi ==> r == v
    ensures v < lo ==> r == lo
    ensures hi < v ==> r == hi
  {
    if v < lo then lo else if hi < v then hi else v
  }

  /**
   * The input axis `(positive ? 1 : 0) - (negative ? 1 : 0)` used for both
   * the horizontal (right/left) and the vertical (up/down) direction.
   */
  function Axis(positive: bool, negative: bool): (a: real)
    ensures a == -1.0 || a == 0.0 || a == 1.0
    ensures a > 0.0 <==> positive && !negative
    ensures a < 0.0 <==> negative && !positive
  {
    (if positive then 1.0 else 0.0) - (if negative then 1.0 else 0.0)
  }

  /**
   * The per-frame displacement of a free-moving player:
   * `(horizontal * speed * dt, -vertical * speed * dt)`, where right/left
   * give the horizontal axis and up/down the vertical one. Up is negative y.
   */
  function MoveOffset(right: bool, left: bool, up: bool, down: bool, speed: real, deltaTime: real): (o: Vector2)
    ensures right == left ==> o.x == 0.0
    ensures right && !left ==> o.x == speed * deltaTime
    ensures left && !right ==> o.x == -(speed * deltaTime)
    ensures up == down ==> o.y == 0.0
    ensures up && !down ==> o.y == -(speed * deltaTime)
    ensures down && !up ==> o.y == speed * deltaTime
  {
    Vector2(Axis(right, left) * speed * deltaTime, -Axis(up, down) * speed * deltaTime)
  }

  /**
   * Conversion of a float to an integer type: the fractional part is
   * discarded, rounding toward zero (not toward minus infinity).
   */
  function Truncate(r: real): (n: int)
    ensures r >= 0.0 ==> n as real <= r < n as real + 1.0
    ensures r < 0.0 ==> n as real - 1.0 < r <= n as real
  {
    if r >= 0.0 then r.Floor else -((-r).Floor)
  }

  /** A float whose truncation is representable as a 32-bit `int` */
  predicate FitsInt32(r: real) {
    -2147483649.0 < r < 2147483648.0
  }
}

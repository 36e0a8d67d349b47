/**
 * The player of src/player.cpp: a sprite rectangle, a velocity and a
 * facing direction, updated in place once per frame. In play mode the
 * horizontal speed is clamped to 200, a jump sets the vertical speed to
 * -200 and gravity accelerates the fall up to 600; in editor mode the
 * player free-flies at up to 400 in each direction.
 */
module Players {
  import opened Common

  const MaxWalkSpeed := 200.0
  const JumpSpeed := -200.0
  const MaxFallSpeed := 600.0
  const MaxFlySpeed := 400.0

  class Player {
    var sprite: Sprite
    var velocity: Vector2
    var size: Vector2
    var speedFactor: real

    /** The drawn rectangle always has the player's size as its extent */
    ghost predicate Valid()
      reads this
    {
      sprite.destRect.width == size.x && sprite.destRect.height == size.y
    }

    /**
     * Player::New: the sprite is drawn at the origin with the given extent
     * and faces right (the Sprite default); the velocity starts at zero.
     */
    constructor New(size: Vector2, moveSpeed: real)
      ensures Valid()
      ensures sprite == Sprite(Rectangle(0.0, 0.0, size.x, size.y), Right)
      ensures velocity == Vector2(0.0, 0.0)
      ensures this.size == size && speedFactor == moveSpeed
    {
      sprite := Sprite(Rectangle(0.0, 0.0, size.x, size.y), Right);
      velocity := Vector2(0.0, 0.0);
      this.size := size;
      speedFactor := moveSpeed;
    }

    /** Walking: horizontal speed set from the input and clamped; a jump press sets the vertical speed */
    method Move(horizontal: real, spacePressed: bool)
      modifies this`velocity
      ensures velocity.x == Clamp(horizontal * speedFactor, -MaxWalkSpeed, MaxWalkSpeed)
      ensures -MaxWalkSpeed <= velocity.x <= MaxWalkSpeed
      ensures velocity.y == if spacePressed then JumpSpeed else old(velocity.y)
    {
      velocity := velocity.(x := 0.0);
      velocity := velocity.(x := velocity.x + Clamp(horizontal * speedFactor, -MaxWalkSpeed, MaxWalkSpeed));
      if spacePressed {
        velocity := velocity.(y := JumpSpeed);
      }
    }

    /** Free flight: the previous velocity is discarded and both components follow the input, clamped */
    method FreeMove(horizontal: real, vertical: real)
      modifies this`velocity
      ensures velocity.x == Clamp(horizontal * speedFactor, -MaxFlySpeed, MaxFlySpeed)
      ensures velocity.y == -Clamp(vertical * speedFactor, -MaxFlySpeed, MaxFlySpeed)
      ensures -MaxFlySpeed <= velocity.x <= MaxFlySpeed && -MaxFlySpeed <= velocity.y <= MaxFlySpeed
    {
      velocity := Vector2(0.0, 0.0);
      velocity := velocity.(x := velocity.x + Clamp(horizontal * speedFactor, -MaxFlySpeed, MaxFlySpeed));
      velocity := velocity.(y := velocity.y + -1.0 * Clamp(vertical * speedFactor, -MaxFlySpeed, MaxFlySpeed));
    }

    /** Moves the sprite by velocity * delta_time; its extent, facing and the velocity stay as they are */
    method ApplyVelocity(deltaTime: real)
      requires Valid()
      modifies this`sprite
      ensures Valid()
      ensures sprite.destRect == Displaced(old(sprite.destRect), velocity, deltaTime)
      ensures sprite.direction == old(sprite.direction)
    {
      sprite := sprite.(destRect := sprite.destRect.(x := sprite.destRect.x + velocity.x * deltaTime));
      sprite := sprite.(destRect := sprite.destRect.(y := sprite.destRect.y + velocity.y * deltaTime));
    }

    /** Gravity: the vertical speed grows by gravity * delta_time but never exceeds the fall cap */
    method ApplyGravity(gravity: real, deltaTime: real)
      modifies this`velocity
      ensures velocity.x == old(velocity.x)
      ensures velocity.y <= MaxFallSpeed
      ensures old(velocity.y) + gravity * deltaTime <= MaxFallSpeed ==>
                velocity.y == old(velocity.y) + gravity * deltaTime
      ensures old(velocity.y) + gravity * deltaTime > MaxFallSpeed ==> velocity.y == MaxFallSpeed
    {
      velocity := velocity.(y := velocity.y + gravity * deltaTime);
      if velocity.y > MaxFallSpeed {
        velocity := velocity.(y := MaxFallSpeed);
      }
    }

    /** The centre of the player's rectangle: equally far from its left and right, top and bottom edges */
    function GetCenter(): (c: Vector2)
      reads this
      requires Valid()
      ensures c.x - sprite.destRect.x == sprite.destRect.x + sprite.destRect.width - c.x
      ensures c.y - sprite.destRect.y == sprite.destRect.y + sprite.destRect.height - c.y
    {
      Vector2(sprite.destRect.x + size.x / 2.0, sprite.destRect.y + size.y / 2.0)
    }

    /**
     * One frame of player movement. In PLAY mode the facing follows the
     * horizontal keys, then Move and ApplyGravity update the velocity; in
     * EDITOR mode FreeMove replaces the velocity and the facing and gravity
     * are left alone. Both modes end with exactly one ApplyVelocity.
     */
    method Update(mode: GameMode, input: Input, gravity: real, deltaTime: real)
      requires Valid()
      modifies this`sprite, this`velocity
      ensures Valid()
      ensures mode == Play ==>
        && (input.held.left && !input.held.right ==> sprite.direction == Left)
        && (input.held.right && !input.held.left ==> sprite.direction == Right)
        && (input.held.left == input.held.right ==> sprite.direction == old(sprite.direction))
        && velocity.x == Clamp(Axis(input.held.right, input.held.left) * speedFactor, -MaxWalkSpeed, MaxWalkSpeed)
        && velocity.y == Fall(if input.pressed.space then JumpSpeed else old(velocity.y), gravity * deltaTime)
      ensures mode == Editor ==>
        && sprite.direction == old(sprite.direction)
        && velocity.x == Clamp(Axis(input.held.right, input.held.left) * speedFactor, -MaxFlySpeed, MaxFlySpeed)
        && velocity.y == -Clamp(Axis(input.held.up, input.held.down) * speedFactor, -MaxFlySpeed, MaxFlySpeed)
      ensures sprite.destRect == Displaced(old(sprite.destRect), velocity, deltaTime)
    {
      var horizontal := Axis(input.held.right, input.held.left);
      var vertical := Axis(input.held.up, input.held.down);
      match mode {
        case Play =>
          if horizontal < 0.0 {
            sprite := sprite.(direction := Left);
          }
          if horizontal > 0.0 {
            sprite := sprite.(direction := Right);
          }
          Move(horizontal, input.pressed.space);
          ApplyGravity(gravity, deltaTime);
        case Editor =>
          FreeMove(horizontal, vertical);
      }
      ApplyVelocity(deltaTime);
    }
  }

  /** A rectangle moved by `velocity` for `deltaTime`: the corner shifts, the extent stays */
  function Displaced(r: Rectangle, velocity: Vector2, deltaTime: real): Rectangle {
    r.(x := r.x + velocity.x * deltaTime, y := r.y + velocity.y * deltaTime)
  }

  /** The vertical speed after gravity adds `increase`: the sum, capped at the fall limit */
  function Fall(vy: real, increase: real): (r: real)
    ensures r <= MaxFallSpeed
    ensures vy + increase <= MaxFallSpeed ==> r == vy + increase
    ensures r == vy + increase || r == MaxFallSpeed
  {
    if vy + increase > MaxFallSpeed then MaxFallSpeed else vy + increase
  }
}

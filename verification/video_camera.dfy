/**
  The fly-through camera of video_mesh.py: walking inside a square of
  walls, gravity down to the video plane, jumping, and free flight.
  The raylib helpers it calls (normalise, rotate about the up axis,
  `update_camera_pro`) are parameters.
 */
module VideoCamera {
  import opened Vectors

  const Width: real := 640.0
  const Height: real := 480.0
  const Gravity: real := 200.0
  const PlayerSize: real := 10.0
  const DudeSpeed: real := 80.0

  /** `plane_height = -HEIGHT/2`: the height of the video plane. */
  const PlaneHeight: real := -Height / 2.0

  /** `WIDTH/2`: the walls stand at x and z equal to plus or minus this. */
  const HalfWidth: real := Width / 2.0

  const UnitX := Vec3(1.0, 0.0, 0.0)
  const UnitZ := Vec3(0.0, 0.0, 1.0)

  /** `project(a, b)`: the component of `a` along `b`, `b*(a.b)/(b.b)`. */
  function Project(a: Vec3, b: Vec3): Vec3
    requires Dot(b, b) != 0.0
  {
    Scale(b, Dot(a, b) / Dot(b, b))
  }

  /** The projection is a multiple of `b`, and what it leaves of `a` is perpendicular to `b`. */
  lemma ProjectIsComponent(a: Vec3, b: Vec3)
    requires Dot(b, b) != 0.0
    ensures exists k :: Project(a, b) == Scale(b, k)
    ensures Dot(Sub(a, Project(a, b)), b) == 0.0
  {
    var k := Dot(a, b) / Dot(b, b);
    assert Project(a, b) == Scale(b, k);
    assert Dot(Sub(a, Scale(b, k)), b) == Dot(a, b) - k * Dot(b, b);
  }

  /** Projecting onto an axis keeps that coordinate and zeroes the other two. */
  lemma ProjectOntoAxes(a: Vec3)
    ensures Project(a, UnitZ) == Vec3(0.0, 0.0, a.z)
    ensures Project(a, UnitX) == Vec3(a.x, 0.0, 0.0)
  {
  }

  predicate InsideX(p: Vec3) {
    -HalfWidth <= p.x <= HalfWidth
  }

  predicate InsideZ(p: Vec3) {
    -HalfWidth <= p.z <= HalfWidth
  }

  /**
    The wall test as video_mesh.py writes it: a step leaving the x range
    loses its x (and y) part; only otherwise is a step leaving the z range
    cut down to its x part.
   */
  function WallClampAsWritten(position: Vec3, dr: Vec3): (d: Vec3)
    ensures InsideX(Add(position, dr)) && InsideZ(Add(position, dr)) ==> d == dr
    ensures InsideX(position) ==> InsideX(Add(position, d))
  {
    var next := Add(position, dr);
    if !InsideX(next) then Project(dr, UnitZ)
    else if !InsideZ(next) then Project(dr, UnitX)
    else dr
  }

  /** The rules of the wall test, case by case. */
  lemma WallClampAsWrittenRules(position: Vec3, dr: Vec3)
    ensures var next, r := Add(position, dr), WallClampAsWritten(position, dr);
      (!InsideX(next) ==> r == Vec3(0.0, 0.0, dr.z))
      && (InsideX(next) && !InsideZ(next) ==> r == Vec3(dr.x, 0.0, 0.0))
      && (InsideX(next) && InsideZ(next) ==> r == dr)
  {
    ProjectOntoAxes(dr);
  }

  /**
    At a corner the `elif` lets the player through a wall: from the corner
    (320, 0, 320) a step (1, 0, 1) leaves the x range, so only its x part is
    removed, and the z part carries the player to z = 321.
   */
  lemma WallClampCornerEscape()
    ensures var position := Vec3(HalfWidth, 0.0, HalfWidth);
      InsideX(position) && InsideZ(position)
      && !InsideZ(Add(position, WallClampAsWritten(position, Vec3(1.0, 0.0, 1.0))))
  {
    var position, dr := Vec3(HalfWidth, 0.0, HalfWidth), Vec3(1.0, 0.0, 1.0);
    WallClampAsWrittenRules(position, dr);
  }

  /** The wall test with both walls checked independently. */
  function WallClamp(position: Vec3, dr: Vec3): (r: Vec3)
    ensures InsideX(Add(position, dr)) && InsideZ(Add(position, dr)) ==> r == dr
  {
    var next := Add(position, dr);
    var dr1 := if !InsideX(next) then Project(dr, UnitZ) else dr;
    if !InsideZ(Add(position, dr1)) then Project(dr1, UnitX) else dr1
  }

  /**
    The corrected clamp gives the step the source gives, except for a step
    that leaves the x range and whose remaining z part still leaves the z
    range: the corner case of the `elif`.
   */
  lemma WallClampMatchesOffCorner(position: Vec3, dr: Vec3)
    requires !(!InsideX(Add(position, dr)) && !InsideZ(Add(position, Vec3(0.0, 0.0, dr.z))))
    ensures WallClamp(position, dr) == WallClampAsWritten(position, dr)
  {
    ProjectOntoAxes(dr);
    var dz := Project(dr, UnitZ);
    ProjectOntoAxes(dz);
  }

  /** A player inside the walls stays inside them, whatever the step. */
  lemma WallClampKeepsInside(position: Vec3, dr: Vec3)
    requires InsideX(position) && InsideZ(position)
    ensures InsideX(Add(position, WallClamp(position, dr))) && InsideZ(Add(position, WallClamp(position, dr)))
  {
    ProjectOntoAxes(dr);
    var next := Add(position, dr);
    var dr1 := if !InsideX(next) then Project(dr, UnitZ) else dr;
    ProjectOntoAxes(dr1);
  }

  // ---------------------------------------------------------------------
  // One frame

  /** The camera and the vertical speed the loop keeps between frames. */
  datatype CamState = CamState(position: Vec3, target: Vec3, yVelocity: real)

  /** The input read in a frame; `captured` is the mouse state. */
  datatype Input = Input(shift: bool, forward: bool, back: bool, left: bool, right: bool,
                         space: bool, ctrl: bool, captured: bool, mouse: Vec2)

  /**
    The raylib calls: the forward direction from position and target, the
    right direction from the forward one, and the target after
    `update_camera_pro` turns the camera by `rot` without moving it.
   */
  datatype Env = Env(forwardOf: (Vec3, Vec3) -> Vec3, rightOf: Vec3 -> Vec3, turn: (Vec3, Vec3, Vec3) -> Vec3)

  function KeyAxis(plus: bool, minus: bool): real {
    (if plus then 1.0 else 0.0) - (if minus then 1.0 else 0.0)
  }

  /** `dr`: forward times the W/S input plus right times the D/A input, at 80 or 160 per second. */
  function Step(s: CamState, input: Input, env: Env, dt: real): Vec3 {
    var forwardDir := env.forwardOf(s.position, s.target);
    var speed := Speed(input.shift);
    Along(forwardDir, env.rightOf(forwardDir),
          KeyAxis(input.forward, input.back) * speed * dt, KeyAxis(input.right, input.left) * speed * dt)
  }

  /** `DUDE_SPEED`, doubled while SHIFT is held. */
  function Speed(shift: bool): real {
    if shift then DudeSpeed * 2.0 else DudeSpeed
  }

  /** `dx` along the forward direction plus `dy` along the right one. */
  function Along(forwardDir: Vec3, rightDir: Vec3, dx: real, dy: real): Vec3 {
    Add(Scale(forwardDir, dx), Scale(rightDir, dy))
  }

  /** The mouse turn, only while the mouse is captured. */
  function Rotation(input: Input): Vec3 {
    if input.captured then Vec3(input.mouse.x * 0.1, input.mouse.y * 0.1, 0.0) else Zero3
  }

  /** Lines 105-118: the clamped step moves position and target together, then the camera turns. */
  function MoveHorizontal(s: CamState, input: Input, env: Env, dt: real): (r: CamState)
    ensures r.position == Add(s.position, WallClamp(s.position, Step(s, input, env, dt)))
    ensures r.yVelocity == s.yVelocity
    ensures InsideX(s.position) && InsideZ(s.position) ==> InsideX(r.position) && InsideZ(r.position)
  {
    var dr := WallClamp(s.position, Step(s, input, env, dt));
    var position, target := Add(s.position, dr), Add(s.target, dr);
    assert InsideX(s.position) && InsideZ(s.position) ==> InsideX(position) && InsideZ(position) by {
      if InsideX(s.position) && InsideZ(s.position) {
        WallClampKeepsInside(s.position, Step(s, input, env, dt));
      }
    }
    CamState(position, env.turn(position, target, Rotation(input)), s.yVelocity)
  }

  /** Raises position and target by the same amount. */
  function Lift(s: CamState, dy: real): CamState {
    s.(position := Add(s.position, Up(dy)), target := Add(s.target, Up(dy)))
  }

  /** `new_y - PLAYER_SIZE - 0.01 < plane_height`: close enough to the plane to jump. */
  predicate CanJump(newY: real) {
    newY - PlayerSize - 0.01 < PlaneHeight
  }

  /** The height after gravity: the integrated height, lifted back onto the plane if below it. */
  function Landed(newY: real): real {
    if newY - PlayerSize < PlaneHeight then PlaneHeight + PlayerSize else newY
  }

  /** Line 120-123: no vertical speed in flight, one gravity step down otherwise. */
  function FallVelocity(s: CamState, canFly: bool, dt: real): real {
    if canFly then 0.0 else s.yVelocity - Gravity * dt
  }

  /** Line 125: the height the vertical speed carries the player to. */
  function NewY(s: CamState, canFly: bool, dt: real): real {
    s.position.y + FallVelocity(s, canFly, dt) * dt
  }

  /** Lines 128-134: the new height, clamped onto the plane (where the speed drops to 0), applied to both points. */
  function Settle(s: CamState, canFly: bool, dt: real): (r: CamState)
    ensures r.position.y >= PlaneHeight + PlayerSize
    ensures r.position.x == s.position.x && r.position.z == s.position.z
    ensures Sub(r.target, r.position) == Sub(s.target, s.position)
  {
    var newY := NewY(s, canFly, dt);
    Lift(s, Landed(newY) - s.position.y)
      .(yVelocity := if newY - PlayerSize < PlaneHeight then 0.0 else FallVelocity(s, canFly, dt))
  }

  /** Lines 136-141: SPACE jumps from near the plane, or climbs while flying. */
  function Boost(s: CamState, jump: bool, canFly: bool, space: bool, dt: real): (r: CamState)
    ensures r.yVelocity != s.yVelocity ==> space && jump && !canFly && r.yVelocity == Gravity
    ensures !canFly ==> r.position == s.position && r.target == s.target
    ensures 0.0 <= dt ==> r.position.y >= s.position.y
  {
    if space && jump && !canFly then s.(yVelocity := Gravity)
    else if space && canFly then Lift(s, Gravity * dt)
    else s
  }

  /** Lines 143-145: CTRL while flying descends at half speed. */
  function Descend(s: CamState, down: bool, dt: real): CamState {
    if down then Lift(s, -(Gravity / 2.0 * dt)) else s
  }

  /** Lines 120-145: gravity or flight, the ground clamp, jumping, and flying up and down. */
  function MoveVertical(s: CamState, canFly: bool, space: bool, ctrl: bool, dt: real): (r: CamState)
    ensures canFly ==> r.yVelocity == 0.0
    ensures !canFly ==> r.position.y >= PlaneHeight + PlayerSize
    ensures r.position.x == s.position.x && r.position.z == s.position.z
  {
    var jump := CanJump(NewY(s, canFly, dt));
    Descend(Boost(Settle(s, canFly, dt), jump, canFly, space, dt), canFly && ctrl, dt)
  }

  /** One pass of the movement part of the main loop. */
  function Frame(s: CamState, input: Input, env: Env, canFly: bool, dt: real): (r: CamState)
    ensures InsideX(s.position) && InsideZ(s.position) ==> InsideX(r.position) && InsideZ(r.position)
    ensures !canFly ==> r.position.y >= PlaneHeight + PlayerSize
  {
    MoveVertical(MoveHorizontal(s, input, env, dt), canFly, input.space, input.ctrl, dt)
  }

  /** The vertical part moves position and target by the same amount, and only along y. */
  lemma VerticalKeepsOffset(s: CamState, canFly: bool, space: bool, ctrl: bool, dt: real)
    ensures var r := MoveVertical(s, canFly, space, ctrl, dt);
      Sub(r.target, r.position) == Sub(s.target, s.position)
      && r.position.x == s.position.x && r.position.z == s.position.z
  {
  }

  /**
    Unless the player flies down with CTRL, the frame ends with the feet
    on or above the video plane.
   */
  lemma VerticalAbovePlane(s: CamState, canFly: bool, space: bool, ctrl: bool, dt: real)
    requires 0.0 <= dt && !(canFly && ctrl)
    ensures MoveVertical(s, canFly, space, ctrl, dt).position.y >= PlaneHeight + PlayerSize
  {
    if canFly && space {
      ProductNonNegativeGravity(dt);
    }
  }

  lemma ProductNonNegativeGravity(dt: real)
    requires 0.0 <= dt
    ensures 0.0 <= Gravity * dt
  {
  }

  /**
    The vertical speed after a frame: zero in flight; the jump speed when
    SPACE is down near the plane; zero after landing on the plane; one
    gravity step lower otherwise.
   */
  lemma VerticalVelocity(s: CamState, canFly: bool, space: bool, ctrl: bool, dt: real)
    ensures var r := MoveVertical(s, canFly, space, ctrl, dt);
      var newY := s.position.y + (s.yVelocity - Gravity * dt) * dt;
      r.yVelocity == (if canFly then 0.0
                      else if space && CanJump(newY) then Gravity
                      else if newY - PlayerSize < PlaneHeight then 0.0
                      else s.yVelocity - Gravity * dt)
  {
  }

  /** A jump (speed set to GRAVITY) needs SPACE, no flight, and the integrated height near the plane. */
  lemma JumpNeedsGround(s: CamState, canFly: bool, space: bool, ctrl: bool, dt: real)
    requires s.yVelocity - Gravity * dt != Gravity
    ensures var r := MoveVertical(s, canFly, space, ctrl, dt);
      r.yVelocity == Gravity ==>
        space && !canFly && CanJump(s.position.y + (s.yVelocity - Gravity * dt) * dt)
  {
  }

  /** The camera of the loop, updated in place each frame. */
  class FlyCamera {
    var position: Vec3
    var target: Vec3
    var yVelocity: real

    function State(): CamState
      reads this
    {
      CamState(position, target, yVelocity)
    }

    /** The start of `main`: at the origin, looking down -z, at rest. */
    constructor ()
      ensures State() == CamState(Zero3, Vec3(0.0, 0.0, -1.0), 0.0)
    {
      position, target, yVelocity := Zero3, Vec3(0.0, 0.0, -1.0), 0.0;
    }

    /** Lines 85-145 of video_mesh.py, with the fly toggle's current value. */
    method Move(input: Input, env: Env, canFly: bool, dt: real)
      modifies this
      ensures State() == Frame(old(State()), input, env, canFly, dt)
    {
      MoveAcross(input, env, dt);
      MoveUpDown(canFly, input.space, input.ctrl, dt);
    }

    /** Lines 93-118: speed, turn, step, wall test, and the camera update. */
    method MoveAcross(input: Input, env: Env, dt: real)
      modifies this
      ensures State() == MoveHorizontal(old(State()), input, env, dt)
    {
      var dr := Step(State(), input, env, dt);
      dr := WallClamp(position, dr);
      Shift(dr, Rotation(input), env);
    }

    /** Lines 116-118: position and target move by `dr`, then `update_camera_pro` turns the camera by `rot`. */
    method Shift(dr: Vec3, rot: Vec3, env: Env)
      modifies this
      ensures position == Add(old(position), dr)
      ensures target == env.turn(position, Add(old(target), dr), rot)
      ensures yVelocity == old(yVelocity)
    {
      position := Add(position, dr);
      target := Add(target, dr);
      target := env.turn(position, target, rot);
    }

    /** Lines 120-145: gravity, the plane clamp, the jump and flight. */
    method MoveUpDown(canFly: bool, space: bool, ctrl: bool, dt: real)
      modifies this
      ensures State() == MoveVertical(old(State()), canFly, space, ctrl, dt)
    {
      var jump := Fall(canFly, dt);
      if space {
        if jump && !canFly {
          yVelocity := Gravity;
        } else if canFly {
          position := position.(y := position.y + Gravity * dt);
          target := target.(y := target.y + Gravity * dt);
        }
      }
      if canFly && ctrl {
        position := position.(y := position.y - Gravity / 2.0 * dt);
        target := target.(y := target.y - Gravity / 2.0 * dt);
      }
    }

    /** Lines 120-134: gravity, integration, the plane clamp; reports whether a jump is allowed. */
    method Fall(canFly: bool, dt: real) returns (jump: bool)
      modifies this
      ensures State() == Settle(old(State()), canFly, dt)
      ensures jump == CanJump(NewY(old(State()), canFly, dt))
    {
      if canFly {
        yVelocity := 0.0;
      } else {
        yVelocity := yVelocity - Gravity * dt;
      }
      var newY := position.y + yVelocity * dt;
      jump := newY - PlayerSize - 0.01 < PlaneHeight;
      if newY - PlayerSize < PlaneHeight {
        newY := PlaneHeight + PlayerSize;
        yVelocity := 0.0;
      }
      var diff := newY - position.y;
      position := position.(y := newY);
      target := target.(y := target.y + diff);
    }
  }
}

/**
  The first-person player of terrain/main.c and terrain/jan_terrain.c:
  horizontal movement blocked by placed blocks, the ground snap against the
  terrain mesh, gravity, jumping and the jump-force toggle.
 */
module PlayerControl {
  import opened Vectors
  import HeightQuery
  import Blocks

  /** `GRAVITY` of both files. */
  const Gravity: real := 100.0

  /** `JUMP`: the jump force toggles between this and three times this. */
  const Jump: int := 60

  /** The leniency subtracted from the feet before comparing with the ground. */
  const Epsilon: real := 1.0

  /**
    The keys and mouse movement one frame reads. `space` stands for two
    different reads: `IsKeyDown(KEY_SPACE)` in terrain/main.c, so holding
    SPACE jumps on every frame with floor, and `IsKeyPressed(KEY_SPACE)` in
    terrain/jan_terrain.c, so only the frame of the press jumps.
   */
  datatype Keys = Keys(shift: bool, forward: bool, back: bool, left: bool, right: bool,
                       space: bool, togglePressed: bool, mouse: Vec2)

  /**
    The raylib calls the step makes, as parameters: `UpdateCameraPro`
    (position, target, movement, rotation to new position and target),
    `GetCameraForward`/`GetCameraRight` (of position and target),
    the inverse model transform into terrain space, and
    `CheckCollisionBoxSphere`.
   */
  datatype Env = Env(update: (Vec3, Vec3, Vec3, Vec3) -> (Vec3, Vec3),
                     forwardOf: (Vec3, Vec3) -> Vec3,
                     rightOf: (Vec3, Vec3) -> Vec3,
                     toLocal: Vec3 -> Vec3,
                     touches: (Box, Vec3, real) -> bool)

  /** What the step reads from the terrain record: the mesh buffer and its extent. */
  datatype Terrain = Terrain(vertices: seq<real>, width: int, length: int, resolution: real)

  /** The player's state: camera position and target, vertical speed, and the `jump_force` global. */
  datatype Body = Body(position: Vec3, target: Vec3, velY: real, jumpForce: int)

  /** `IsKeyDown(a) - IsKeyDown(b)`. */
  function KeyAxis(plus: bool, minus: bool): (r: real)
    ensures -1.0 <= r <= 1.0
    ensures plus && !minus ==> r == 1.0
    ensures minus && !plus ==> r == -1.0
    ensures plus == minus ==> r == 0.0
  {
    (if plus then 1.0 else 0.0) - (if minus then 1.0 else 0.0)
  }

  /** `J` flips the jump force between `JUMP` and `3*JUMP`. */
  function ToggleJump(force: int): int {
    if force == Jump then Jump * 3 else Jump
  }

  predicate JumpForceValid(force: int) {
    force == Jump || force == Jump * 3
  }

  /** The toggle keeps the force one of its two values and always changes it. */
  lemma ToggleJumpFlips(force: int)
    requires JumpForceValid(force)
    ensures JumpForceValid(ToggleJump(force)) && ToggleJump(force) != force
    ensures ToggleJump(ToggleJump(force)) == force
  {
  }

  /** `player_move_position`: position and camera target move together. */
  function MoveBody(b: Body, move: Vec3): (r: Body)
    ensures Sub(r.target, r.position) == Sub(b.target, b.position)
    ensures r.velY == b.velY && r.jumpForce == b.jumpForce
  {
    AddKeepsOffset(b.position, b.target, move);
    b.(position := Add(b.position, move), target := Add(b.target, move))
  }

  // ---------------------------------------------------------------------
  // Block collision (terrain/main.c)

  function FeetPoint(pos: Vec3, height: real, velY: real, dt: real): Vec3 {
    Add(Sub(pos, Up(height)), Up(velY * dt))
  }

  function HeadPoint(pos: Vec3, height: real): Vec3 {
    Add(pos, Up(height / 2.0))
  }

  function BodyPoint(pos: Vec3, height: real): Vec3 {
    Sub(pos, Up(height / 2.0))
  }

  /** The horizontal move in world space: forward times `dr.x` plus right times `dr.y`. */
  function MoveVector(env: Env, pos: Vec3, target: Vec3, dr: Vec3): Vec3 {
    Add(Scale(env.forwardOf(pos, target), dr.x), Scale(env.rightOf(pos, target), dr.y))
  }

  /** An active block under the feet (next frame) or around the head gives floor. */
  predicate Supports(env: Env, b: Blocks.Block, pos: Vec3, height: real, velY: real, dt: real) {
    b.active
    && (env.touches(b.bounds, FeetPoint(pos, height, velY, dt), 0.1)
        || env.touches(b.bounds, HeadPoint(pos, height), 0.1))
  }

  /** An active block the body sphere is clear of now but would hit after the move. */
  predicate StepBlocked(env: Env, b: Blocks.Block, pos: Vec3, target: Vec3, height: real, dr: Vec3) {
    b.active
    && !env.touches(b.bounds, BodyPoint(pos, height), height / 2.0)
    && env.touches(b.bounds, Add(BodyPoint(pos, height), MoveVector(env, pos, target, dr)), height / 2.0)
  }

  /**
    The block loop from block `i` on: whether some visited block gives
    floor, and the move left after it (zero once a block stops the step,
    which also ends the loop).
   */
  function ScanFrom(env: Env, blocks: seq<Blocks.Block>, i: int, pos: Vec3, target: Vec3,
                    height: real, velY: real, dt: real, dr: Vec3): (r: (bool, Vec3))
    requires 0 <= i <= |blocks|
    ensures r.1 == dr || r.1 == Zero3
    ensures r.0 ==> i < |blocks|
    decreases |blocks| - i
  {
    if i == |blocks| then (false, dr)
    else if !blocks[i].active then ScanFrom(env, blocks, i + 1, pos, target, height, velY, dt, dr)
    else
      var support := Supports(env, blocks[i], pos, height, velY, dt);
      if StepBlocked(env, blocks[i], pos, target, height, dr) then (support, Zero3)
      else
        var rest := ScanFrom(env, blocks, i + 1, pos, target, height, velY, dt, dr);
        (support || rest.0, rest.1)
  }

  /**
    The move survives the block loop exactly when no block from `i` on
    stops it; a stopped move is zero.
   */
  lemma {:induction false} ScanStopsOnlyAtBlock(env: Env, blocks: seq<Blocks.Block>, i: int, pos: Vec3,
                                                target: Vec3, height: real, velY: real, dt: real, dr: Vec3)
    requires 0 <= i <= |blocks|
    ensures var r := ScanFrom(env, blocks, i, pos, target, height, velY, dt, dr);
      (exists k :: i <= k < |blocks| && StepBlocked(env, blocks[k], pos, target, height, dr)) ==> r.1 == Zero3
    ensures var r := ScanFrom(env, blocks, i, pos, target, height, velY, dt, dr);
      (forall k :: i <= k < |blocks| ==> !StepBlocked(env, blocks[k], pos, target, height, dr)) ==> r.1 == dr
    decreases |blocks| - i
  {
    if i < |blocks| {
      ScanStopsOnlyAtBlock(env, blocks, i + 1, pos, target, height, velY, dt, dr);
    }
  }

  /** Floor from blocks needs an active block that supports the player. */
  lemma {:induction false} ScanFloorNeedsSupport(env: Env, blocks: seq<Blocks.Block>, i: int, pos: Vec3,
                                                 target: Vec3, height: real, velY: real, dt: real, dr: Vec3)
    requires 0 <= i <= |blocks|
    ensures ScanFrom(env, blocks, i, pos, target, height, velY, dt, dr).0 ==>
      exists k :: i <= k < |blocks| && Supports(env, blocks[k], pos, height, velY, dt)
    decreases |blocks| - i
  {
    if i < |blocks| {
      ScanFloorNeedsSupport(env, blocks, i + 1, pos, target, height, velY, dt, dr);
    }
  }

  // ---------------------------------------------------------------------
  // The vertical part of a frame

  /** The feet (less the leniency) are at or below the ground under the player. */
  predicate OnGround(local: Vec3, height: real, meshY: real) {
    meshY != -1.0 && local.y - height - Epsilon <= meshY
  }

  /** The feet are at or below the ground: the player is lifted onto it. */
  predicate Sunk(local: Vec3, height: real, meshY: real) {
    meshY != -1.0 && local.y - height <= meshY
  }

  /** A lift onto the ground always counts as standing on it. */
  lemma SunkIsOnGround(local: Vec3, height: real, meshY: real)
    ensures Sunk(local, height, meshY) ==> OnGround(local, height, meshY)
  {
  }

  /** Moves the body vertically so that its position is at height `y`. */
  function LiftTo(b: Body, y: real): (r: Body)
    ensures r.position == b.position.(y := y)
  {
    MoveBody(b, Up(y - b.position.y))
  }

  /** Standing stops vertical motion; otherwise gravity acts for `dt`. */
  function RestOrFall(b: Body, floor: bool, dt: real): Body {
    if floor then b.(velY := 0.0) else b.(velY := b.velY - Gravity * dt)
  }

  function ToggleStep(b: Body, toggle: bool): Body {
    if toggle then b.(jumpForce := ToggleJump(b.jumpForce)) else b
  }

  function JumpStep(b: Body, jump: bool): Body {
    if jump then b.(velY := b.jumpForce as real) else b
  }

  /** The closing `player_move_position` by the vertical speed times `dt`. */
  function Drop(b: Body, dt: real): Body {
    MoveBody(b, Up(b.velY * dt))
  }

  /** The ground snap of terrain/main.c, which also takes 100 off the vertical speed. */
  function SnapMain(b: Body, height: real, local: Vec3, meshY: real): Body {
    if Sunk(local, height, meshY) then LiftTo(b.(velY := b.velY - 100.0), meshY + height) else b
  }

  /**
    terrain/main.c lines 261-288 on a body whose camera already moved: the
    ground snap, floor or gravity, the toggle, the jump, and the vertical
    move. Returns the new body and `floor`.
   */
  function SettleMain(b: Body, height: real, local: Vec3, meshY: real, blockFloor: bool, dt: real,
                      space: bool, toggle: bool): (r: (Body, bool))
    ensures r.0.position.x == b.position.x && r.0.position.z == b.position.z
    ensures Sub(r.0.target, r.0.position) == Sub(b.target, b.position)
    ensures !r.1 ==> r.0.velY == b.velY - Gravity * dt
  {
    var floor := blockFloor || OnGround(local, height, meshY);
    var b1 := SnapMain(b, height, local, meshY);
    (Drop(JumpStep(ToggleStep(RestOrFall(b1, floor, dt), toggle), floor && space), dt), floor)
  }

  /**
    What a frame does to the vertical speed: zero on the floor (the jump
    force if SPACE is down), otherwise one step of gravity. The `-100` of
    the ground snap never survives, because a snap always means floor.
   */
  lemma SettleMainVelocity(b: Body, height: real, local: Vec3, meshY: real, blockFloor: bool, dt: real,
                           space: bool, toggle: bool)
    ensures var (r, floor) := SettleMain(b, height, local, meshY, blockFloor, dt, space, toggle);
      floor == (blockFloor || OnGround(local, height, meshY))
      && r.velY == (if floor && space then r.jumpForce as real else if floor then 0.0 else b.velY - Gravity * dt)
  {
    SunkIsOnGround(local, height, meshY);
  }

  /** The jump force stays one of its two values and flips exactly on a J press. */
  lemma SettleMainJumpForce(b: Body, height: real, local: Vec3, meshY: real, blockFloor: bool, dt: real,
                            space: bool, toggle: bool)
    requires JumpForceValid(b.jumpForce)
    ensures var r := SettleMain(b, height, local, meshY, blockFloor, dt, space, toggle).0;
      JumpForceValid(r.jumpForce) && (r.jumpForce == b.jumpForce <==> !toggle)
  {
    ToggleJumpFlips(b.jumpForce);
  }

  /**
    Where the frame leaves the player: lifted onto the ground if sunk, then
    moved by the new vertical speed; x, z and the camera offset unchanged.
   */
  lemma SettleMainPosition(b: Body, height: real, local: Vec3, meshY: real, blockFloor: bool, dt: real,
                           space: bool, toggle: bool)
    ensures var r := SettleMain(b, height, local, meshY, blockFloor, dt, space, toggle).0;
      r.position.x == b.position.x && r.position.z == b.position.z
      && r.position.y == (if Sunk(local, height, meshY) then meshY + height else b.position.y) + r.velY * dt
      && Sub(r.target, r.position) == Sub(b.target, b.position)
  {
  }

  /**
    terrain/jan_terrain.c lines 124-146: floor only from the ground; the
    snap also zeroes the speed, gravity acts otherwise (even within the
    leniency band), then the toggle, the jump and the vertical move.
   */
  function SettleAverage(b: Body, height: real, local: Vec3, meshY: real, dt: real,
                         space: bool, toggle: bool): (r: (Body, bool))
    ensures r.0.position.x == b.position.x && r.0.position.z == b.position.z
    ensures Sub(r.0.target, r.0.position) == Sub(b.target, b.position)
    ensures r.1 ==> meshY != -1.0
  {
    var floor := OnGround(local, height, meshY);
    var b1 := if Sunk(local, height, meshY) then LiftTo(b, meshY + height).(velY := 0.0)
              else b.(velY := b.velY - Gravity * dt);
    (Drop(JumpStep(ToggleStep(b1, toggle), floor && space), dt), floor)
  }

  /**
    The jan_terrain step: floor exactly when a ground height was found and
    the feet are within the leniency of it; a jump only from the floor;
    otherwise a sunk player stops and a floating one accelerates down.
   */
  lemma SettleAverageRules(b: Body, height: real, local: Vec3, meshY: real, dt: real, space: bool, toggle: bool)
    requires JumpForceValid(b.jumpForce)
    ensures var (r, floor) := SettleAverage(b, height, local, meshY, dt, space, toggle);
      (floor <==> meshY != -1.0 && local.y - height - Epsilon <= meshY)
      && JumpForceValid(r.jumpForce)
      && r.velY == (if floor && space then r.jumpForce as real
                    else if Sunk(local, height, meshY) then 0.0
                    else b.velY - Gravity * dt)
      && r.position.y == (if Sunk(local, height, meshY) then meshY + height else b.position.y) + r.velY * dt
      && Sub(r.target, r.position) == Sub(b.target, b.position)
  {
    ToggleJumpFlips(b.jumpForce);
  }

  // ---------------------------------------------------------------------
  // Whole frames

  /** `(int)(terrain->width * terrain->resolution)` and the same for length. */
  function Cols(t: Terrain): int {
    TruncToInt(t.width as real * t.resolution)
  }

  function Rows(t: Terrain): int {
    TruncToInt(t.length as real * t.resolution)
  }

  /** A mesh the barycentric query can read anywhere: covering buffer, proper triangles. */
  ghost predicate TerrainReady(t: Terrain) {
    0.0 < t.resolution
    && HeightQuery.BufferCovers(t.vertices, Rows(t), Cols(t))
    && forall cx, cz :: HeightQuery.InGrid(cx, cz, Rows(t), Cols(t)) ==>
         HeightQuery.ProperCell(t.vertices, HeightQuery.CornerBase(cx, cz, Cols(t)))
  }

  function Speed(keys: Keys, dudeSpeed: real): real {
    if keys.shift then dudeSpeed * 4.0 else dudeSpeed
  }

  function Rotation(keys: Keys): Vec3 {
    Vec3(keys.mouse.x * 0.1, keys.mouse.y * 0.1, 0.0)
  }

  /** `dr`: forward/back along x, right/left along y, each `speed*dt`. */
  function Movement(keys: Keys, dudeSpeed: real, dt: real): Vec3 {
    var speed := Speed(keys, dudeSpeed);
    Vec3(KeyAxis(keys.forward, keys.back) * speed * dt, KeyAxis(keys.right, keys.left) * speed * dt, 0.0)
  }

  /** The terrain height under a point, as terrain/main.c asks for it. */
  function GroundUnder(t: Terrain, local: Vec3): real
    requires TerrainReady(t)
  {
    var cell := 1.0 / t.resolution;
    var cx, cz := HeightQuery.CellOf(local.x, cell), HeightQuery.CellOf(local.z, cell);
    assert HeightQuery.InGrid(cx, cz, Rows(t), Cols(t)) ==>
      HeightQuery.ProperCell(t.vertices, HeightQuery.CornerBase(cx, cz, Cols(t)));
    HeightQuery.TerrainHeightBarycentric(local.x, local.z, t.vertices, Rows(t), Cols(t), cell)
  }

  /** One `move_player` call of terrain/main.c on the player's state. */
  ghost function MainFrame(env: Env, t: Terrain, blocks: seq<Blocks.Block>, b: Body, height: real,
                           keys: Keys, dt: real, dudeSpeed: real): (r: (Body, bool))
    requires TerrainReady(t)
    ensures JumpForceValid(b.jumpForce) ==>
      JumpForceValid(r.0.jumpForce) && (r.0.jumpForce == b.jumpForce <==> !keys.togglePressed)
    ensures !r.1 ==> r.0.velY == b.velY - Gravity * dt
  {
    var scan := ScanFrom(env, blocks, 0, b.position, b.target, height, b.velY, dt, Movement(keys, dudeSpeed, dt));
    var cam := env.update(b.position, b.target, scan.1, Rotation(keys));
    var local := env.toLocal(cam.0);
    SettleMain(b.(position := cam.0, target := cam.1), height, local, GroundUnder(t, local), scan.0, dt,
               keys.space, keys.togglePressed)
  }

  /** One `move_player` call of terrain/jan_terrain.c: unit cells, average heights, no blocks. */
  function AverageFrame(env: Env, t: Terrain, b: Body, height: real, keys: Keys, dt: real,
                        dudeSpeed: real): (r: (Body, bool))
    requires HeightQuery.BufferCovers(t.vertices, t.length, t.width)
    ensures JumpForceValid(b.jumpForce) ==>
      JumpForceValid(r.0.jumpForce) && (r.0.jumpForce == b.jumpForce <==> !keys.togglePressed)
  {
    var cam := env.update(b.position, b.target, Movement(keys, dudeSpeed, dt), Rotation(keys));
    var local := env.toLocal(cam.0);
    var meshY := HeightQuery.TerrainHeightAverage(local.x, local.z, t.vertices, t.length, t.width, 1.0);
    SettleAverage(b.(position := cam.0, target := cam.1), height, local, meshY, dt, keys.space, keys.togglePressed)
  }

  /**
    Across a whole terrain/main.c frame the jump force stays one of its two
    values, and the vertical speed is zero or the jump force on the floor
    and one gravity step lower otherwise.
   */
  lemma MainFrameInvariants(env: Env, t: Terrain, blocks: seq<Blocks.Block>, b: Body, height: real,
                            keys: Keys, dt: real, dudeSpeed: real)
    requires TerrainReady(t) && JumpForceValid(b.jumpForce)
    ensures var (r, floor) := MainFrame(env, t, blocks, b, height, keys, dt, dudeSpeed);
      JumpForceValid(r.jumpForce)
      && r.velY == (if floor && keys.space then r.jumpForce as real else if floor then 0.0 else b.velY - Gravity * dt)
  {
    var scan := ScanFrom(env, blocks, 0, b.position, b.target, height, b.velY, dt, Movement(keys, dudeSpeed, dt));
    var cam := env.update(b.position, b.target, scan.1, Rotation(keys));
    var local := env.toLocal(cam.0);
    var b0 := b.(position := cam.0, target := cam.1);
    SettleMainVelocity(b0, height, local, GroundUnder(t, local), scan.0, dt, keys.space, keys.togglePressed);
    SettleMainJumpForce(b0, height, local, GroundUnder(t, local), scan.0, dt, keys.space, keys.togglePressed);
  }

  // ---------------------------------------------------------------------
  // The player object

  /**
    The `Player` record with the camera it points into: `position` and
    `target` are the camera's fields, and `jumpForce` is the file's
    `jump_force` global.
   */
  class Player {
    const height: real
    var position: Vec3
    var target: Vec3
    var velY: real
    var jumpForce: int

    ghost predicate Valid()
      reads this
    {
      JumpForceValid(jumpForce)
    }

    function State(): Body
      reads this
    {
      Body(position, target, velY, jumpForce)
    }

    constructor (height: real, position: Vec3, target: Vec3)
      ensures Valid() && this.height == height
      ensures State() == Body(position, target, 0.0, Jump)
    {
      this.height := height;
      this.position, this.target := position, target;
      velY, jumpForce := 0.0, Jump;
    }

    /** `player_move_position`. */
    method MovePosition(move: Vec3)
      modifies this
      ensures State() == MoveBody(old(State()), move)
    {
      position := Add(position, move);
      target := Add(target, move);
    }

    /** The block loop of `move_player`, stopping at the first block that blocks the step. */
    method ScanBlocks(env: Env, blocks: seq<Blocks.Block>, dt: real, dr0: Vec3) returns (floor: bool, dr: Vec3)
      ensures (floor, dr) == ScanFrom(env, blocks, 0, position, target, height, velY, dt, dr0)
    {
      floor, dr := false, dr0;
      var i := 0;
      while i < |blocks|
        invariant 0 <= i <= |blocks| && dr == dr0
        invariant var rest := ScanFrom(env, blocks, i, position, target, height, velY, dt, dr0);
          (floor || rest.0, rest.1) == ScanFrom(env, blocks, 0, position, target, height, velY, dt, dr0)
      {
        if !blocks[i].active {
          i := i + 1;
          continue;
        }
        var feetPos := Add(Sub(position, Up(height)), Up(velY * dt));
        if env.touches(blocks[i].bounds, feetPos, 0.1) {
          floor := true;
        }
        if env.touches(blocks[i].bounds, Add(position, Up(height / 2.0)), 0.1) {
          floor := true;
        }
        var moveVec := Add(Scale(env.forwardOf(position, target), dr.x), Scale(env.rightOf(position, target), dr.y));
        var playerPoint := Sub(position, Up(height / 2.0));
        var collisionCur := env.touches(blocks[i].bounds, playerPoint, height / 2.0);
        var collisionStep := env.touches(blocks[i].bounds, Add(playerPoint, moveVec), height / 2.0);
        if !collisionCur && collisionStep {
          dr := Zero3;
          break;
        }
        i := i + 1;
      }
    }

    /** terrain/main.c lines 261-288, once the camera has moved. */
    method SettleMainStep(local: Vec3, meshY: real, blockFloor: bool, dt: real, space: bool, toggle: bool)
      returns (floor: bool)
      modifies this
      ensures (State(), floor) == SettleMain(old(State()), height, local, meshY, blockFloor, dt, space, toggle)
    {
      floor := blockFloor;
      if meshY != -1.0 {
        floor := floor || local.y - height - Epsilon <= meshY;
        if local.y - height <= meshY {
          var yMove := meshY + height - position.y;
          velY := velY - 100.0;
          MovePosition(Up(yMove));
        }
      }
      assert State() == SnapMain(old(State()), height, local, meshY);
      ghost var b1 := State();
      if floor {
        velY := 0.0;
      } else {
        velY := velY - Gravity * dt;
      }
      assert State() == RestOrFall(b1, floor, dt);
      EndOfFrame(floor, dt, space, toggle);
    }

    /** terrain/jan_terrain.c lines 124-146, once the camera has moved. */
    method SettleAverageStep(local: Vec3, meshY: real, dt: real, space: bool, toggle: bool) returns (floor: bool)
      modifies this
      ensures (State(), floor) == SettleAverage(old(State()), height, local, meshY, dt, space, toggle)
    {
      floor := meshY != -1.0 && local.y - height - Epsilon <= meshY;
      if meshY != -1.0 && local.y - height <= meshY {
        var yMove := meshY + height - position.y;
        MovePosition(Up(yMove));
        velY := 0.0;
      } else {
        velY := velY - Gravity * dt;
      }
      EndOfFrame(floor, dt, space, toggle);
    }

    /** The toggle, the jump and the vertical move that close both frames. */
    method EndOfFrame(floor: bool, dt: real, space: bool, toggle: bool)
      modifies this
      ensures State() == Drop(JumpStep(ToggleStep(old(State()), toggle), floor && space), dt)
    {
      if toggle {
        jumpForce := ToggleJump(jumpForce);
      }
      ghost var b := State();
      if floor && space {
        velY := jumpForce as real;
      }
      assert State() == JumpStep(b, floor && space);
      MovePosition(Up(velY * dt));
    }

    /** `move_player` of terrain/main.c. */
    method MoveMain(env: Env, t: Terrain, blocks: seq<Blocks.Block>, keys: Keys, dt: real, dudeSpeed: real)
      returns (floor: bool)
      requires Valid() && TerrainReady(t)
      modifies this
      ensures Valid()
      ensures (State(), floor) == MainFrame(env, t, blocks, old(State()), height, keys, dt, dudeSpeed)
    {
      MainFrameInvariants(env, t, blocks, State(), height, keys, dt, dudeSpeed);
      var blockFloor, dr := ScanBlocks(env, blocks, dt, Movement(keys, dudeSpeed, dt));
      var cam := env.update(position, target, dr, Rotation(keys));
      position, target := cam.0, cam.1;
      var playerPos := env.toLocal(position);
      var meshY := GroundUnder(t, playerPos);
      floor := SettleMainStep(playerPos, meshY, blockFloor, dt, keys.space, keys.togglePressed);
    }

    /** `move_player` of terrain/jan_terrain.c. */
    method MoveAverage(env: Env, t: Terrain, keys: Keys, dt: real, dudeSpeed: real) returns (floor: bool)
      requires Valid() && HeightQuery.BufferCovers(t.vertices, t.length, t.width)
      modifies this
      ensures Valid()
      ensures (State(), floor) == AverageFrame(env, t, old(State()), height, keys, dt, dudeSpeed)
    {
      var cam := env.update(position, target, Movement(keys, dudeSpeed, dt), Rotation(keys));
      position, target := cam.0, cam.1;
      var playerPos := env.toLocal(position);
      var meshHeight := HeightQuery.TerrainHeightAverage(playerPos.x, playerPos.z, t.vertices, t.length, t.width, 1.0);
      ghost var moved := State();
      floor := SettleAverageStep(playerPos, meshHeight, dt, keys.space, keys.togglePressed);
      SettleAverageRules(moved, height, playerPos, meshHeight, dt, keys.space, keys.togglePressed);
    }
  }
}

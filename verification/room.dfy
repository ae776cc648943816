/**
  The tile room of src/main.c: the 20-by-20 `room` table, `draw_room`'s
  mapping from table entries to textured wall cubes, and the choice of
  turn in `player_movement`.
 */
module Room {
  import opened Vectors
  import opened Grid

  /** `TILE_SIZE`. */
  const TileSize: int := 10

  /** The side of the table. */
  const RoomSize: int := 20

  /** The `room` table: 0 is floor, 1 and 2 are the two wall textures. */
  const RoomTable: seq<seq<int>> := [
    [1,1,1,1,1,1,1,1,1,1,1,1,1,1,1,1,1,1,1,1],
    [1,0,0,0,0,0,0,0,0,0,0,0,0,0,0,0,0,0,0,1],
    [1,0,0,0,0,0,0,0,0,0,0,0,0,0,0,0,0,0,0,1],
    [1,0,0,0,0,0,0,0,0,0,0,0,0,0,0,0,0,0,0,1],
    [1,0,0,0,0,0,0,0,0,0,0,0,0,0,0,0,0,0,0,1],
    [1,0,0,0,0,0,0,0,0,0,0,0,0,0,0,0,0,0,0,1],
    [1,0,0,0,0,0,0,1,1,1,1,1,1,0,0,0,0,0,0,1],
    [1,0,0,0,0,0,0,1,0,0,0,0,1,0,0,0,0,0,0,1],
    [1,0,0,0,0,0,0,1,0,0,0,0,1,0,0,0,0,0,0,1],
    [1,0,0,0,0,0,0,1,0,0,0,0,1,0,0,0,0,0,0,1],
    [1,0,0,0,0,0,0,1,0,0,0,0,1,0,0,0,0,0,0,1],
    [1,0,0,0,0,0,0,1,0,0,0,0,1,0,0,0,0,0,0,1],
    [1,0,0,0,0,0,0,1,1,2,2,1,1,0,0,0,0,0,0,1],
    [1,0,0,0,0,0,0,0,0,0,0,0,0,0,0,0,0,0,0,1],
    [1,0,0,0,0,0,0,0,0,0,0,0,0,0,0,0,0,0,0,1],
    [1,0,0,0,0,0,0,0,0,0,0,0,0,0,0,0,0,0,0,1],
    [1,0,0,0,0,0,0,0,0,0,0,0,0,0,0,0,0,0,0,1],
    [1,0,0,0,0,0,0,0,0,0,0,0,0,0,0,0,0,0,0,1],
    [1,0,0,0,0,0,0,0,0,0,0,0,0,0,0,0,0,0,0,1],
    [1,1,1,1,1,1,1,1,1,1,1,1,1,1,1,1,1,1,1,1]
  ]

  /** A table of `rows` rows of `cols` entries each. */
  predicate IsTable(t: seq<seq<int>>, rows: int, cols: int) {
    |t| == rows && forall r :: 0 <= r < rows ==> |t[r]| == cols
  }

  /** The table is square, every entry is floor or one of two walls, and the border is all wall 1. */
  lemma RoomTableShape()
    ensures IsTable(RoomTable, RoomSize, RoomSize)
    ensures forall r, c :: 0 <= r < RoomSize && 0 <= c < RoomSize ==> 0 <= RoomTable[r][c] <= 2
    ensures forall k :: 0 <= k < RoomSize ==>
      RoomTable[0][k] == RoomTable[RoomSize - 1][k] == RoomTable[k][0] == RoomTable[k][RoomSize - 1] == 1
  {
    forall r | 0 <= r < RoomSize
      ensures |RoomTable[r]| == RoomSize
      ensures RoomTable[r][0] == RoomTable[r][RoomSize - 1] == 1
      ensures forall c :: 0 <= c < RoomSize ==> 0 <= RoomTable[r][c] <= 2
    {
      RowShape(r);
    }
  }

  lemma RowShape(r: int)
    requires 0 <= r < RoomSize
    ensures |RoomTable[r]| == RoomSize
    ensures RoomTable[r][0] == RoomTable[r][RoomSize - 1] == 1
    ensures forall c :: 0 <= c < RoomSize ==> 0 <= RoomTable[r][c] <= 2
    ensures r == 0 || r == RoomSize - 1 ==> forall c :: 0 <= c < RoomSize ==> RoomTable[r][c] == 1
  {
  }

  // ---------------------------------------------------------------------
  // Walls

  /** A `draw_textured_cube` call: texture index and centre (the size is always 10 by 4 by 10). */
  datatype Wall = Wall(texture: int, center: Vec3)

  /**
    The wall of table cell (r, c), i.e. loop counters i = r + 1 and
    j = c + 1: centred at `top_left + (j*TILE - TILE/2, i*TILE - TILE/2)`
    at height 2, textured with entry minus one.
   */
  function WallAt(entry: int, r: int, c: int, topLeft: Vec2): (w: Wall)
    ensures w.texture == entry - 1
    ensures topLeft.x + (c * TileSize) as real < w.center.x < topLeft.x + ((c + 1) * TileSize) as real
    ensures topLeft.y + (r * TileSize) as real < w.center.z < topLeft.y + ((r + 1) * TileSize) as real
  {
    var offX := (c + 1) * TileSize - TileSize / 2;
    var offZ := (r + 1) * TileSize - TileSize / 2;
    Wall(entry - 1, Vec3(topLeft.x + offX as real, 2.0, topLeft.y + offZ as real))
  }

  /** The wall centre is the midpoint of its tile, whose corner is `top_left + TILE*(c, r)`. */
  lemma WallAtTileCentre(entry: int, r: int, c: int, topLeft: Vec2)
    ensures var w := WallAt(entry, r, c, topLeft);
      var left, top := topLeft.x + (c * TileSize) as real, topLeft.y + (r * TileSize) as real;
      2.0 * w.center.x == left + (left + TileSize as real)
      && 2.0 * w.center.z == top + (top + TileSize as real)
      && w.center.y == 2.0
  {
  }

  /** The number of cells `draw_room` visits: none when either loop is empty. */
  function Cells(width: int, length: int): (n: int)
    ensures 0 <= n
    ensures 0 < n ==> 0 < width && 0 < length && n == width * length
  {
    if width <= 0 || length <= 0 then 0 else width * length
  }

  /** How the scan ends: having drawn `walls`, or stopped by `exit(1)` on an unknown wall type. */
  datatype Outcome = Outcome(walls: seq<Wall>, exited: bool)

  /**
    `draw_room`'s walls from scan position `k` on; position `k` is table
    cell (k / width, k % width), visited row by row.
   */
  function WallsFrom(room: seq<seq<int>>, textureCount: int, width: int, length: int, topLeft: Vec2, k: int): (o: Outcome)
    requires IsTable(room, RoomSize, RoomSize) && width <= RoomSize && length <= RoomSize
    requires 0 <= k <= Cells(width, length)
    ensures |o.walls| <= Cells(width, length) - k
    ensures forall n :: 0 <= n < |o.walls| ==> 0 <= o.walls[n].texture < textureCount
    decreases Cells(width, length) - k
  {
    if k == Cells(width, length) then Outcome([], false)
    else
      var entry := EntryAt(room, width, length, k);
      if entry <= 0 then WallsFrom(room, textureCount, width, length, topLeft, k + 1)
      else if entry > textureCount then Outcome([], true)
      else
        var rest := WallsFrom(room, textureCount, width, length, topLeft, k + 1);
        Outcome([WallAt(entry, k / width, k % width, topLeft)] + rest.walls, rest.exited)
  }

  /** The table entry at scan position `k`. */
  function EntryAt(room: seq<seq<int>>, width: int, length: int, k: int): int
    requires IsTable(room, RoomSize, RoomSize) && width <= RoomSize && length <= RoomSize
    requires 0 <= k < Cells(width, length)
  {
    ScanPosition(k, width, length);
    room[k / width][k % width]
  }

  /** The scan exits exactly when some entry from `k` on names a texture that does not exist. */
  lemma {:induction false} ExitIffUnknownWall(room: seq<seq<int>>, textureCount: int, width: int, length: int,
                                             topLeft: Vec2, k: int)
    requires IsTable(room, RoomSize, RoomSize) && width <= RoomSize && length <= RoomSize
    requires 0 <= textureCount && 0 <= k <= Cells(width, length)
    ensures WallsFrom(room, textureCount, width, length, topLeft, k).exited <==>
      exists m :: k <= m < Cells(width, length) && EntryAt(room, width, length, m) > textureCount
    decreases Cells(width, length) - k
  {
    if k < Cells(width, length) {
      ExitIffUnknownWall(room, textureCount, width, length, topLeft, k + 1);
      if EntryAt(room, width, length, k) > textureCount {
        assert EntryAt(room, width, length, k) > 0;
      }
    }
  }

  /** A wall with an existing texture, lying inside the room. */
  predicate WallValid(w: Wall, textureCount: int, width: int, length: int, topLeft: Vec2) {
    0 <= w.texture < textureCount && InsideRoom(w, width, length, topLeft)
  }

  /**
    Every wall drawn has a texture index in `[0, texture_count)` and lies
    inside the room's `TILE*width` by `TILE*length` rectangle, half a tile
    in from its edges.
   */
  lemma {:induction false} WallsInsideRoom(room: seq<seq<int>>, textureCount: int, width: int, length: int,
                                          topLeft: Vec2, k: int)
    requires IsTable(room, RoomSize, RoomSize) && width <= RoomSize && length <= RoomSize
    requires 0 <= k <= Cells(width, length)
    ensures AllValid(WallsFrom(room, textureCount, width, length, topLeft, k).walls, textureCount, width, length, topLeft)
    decreases Cells(width, length) - k
  {
    if k < Cells(width, length) {
      WallsInsideRoom(room, textureCount, width, length, topLeft, k + 1);
      var entry := EntryAt(room, width, length, k);
      var rest := WallsFrom(room, textureCount, width, length, topLeft, k + 1).walls;
      if 0 < entry <= textureCount {
        var w := WallAt(entry, k / width, k % width, topLeft);
        ScanWallValid(entry, k, textureCount, width, length, topLeft);
        assert WallsFrom(room, textureCount, width, length, topLeft, k).walls == [w] + rest;
        ConsValid(w, rest, textureCount, width, length, topLeft);
      } else if entry <= 0 {
        assert WallsFrom(room, textureCount, width, length, topLeft, k).walls == rest;
      } else {
        assert WallsFrom(room, textureCount, width, length, topLeft, k).walls == [];
      }
    }
  }

  lemma ScanWallValid(entry: int, k: int, textureCount: int, width: int, length: int, topLeft: Vec2)
    requires 0 <= k < Cells(width, length) && 0 < entry <= textureCount
    ensures WallValid(WallAt(entry, k / width, k % width, topLeft), textureCount, width, length, topLeft)
  {
    ScanPosition(k, width, length);
    WallAtInside(entry, k / width, k % width, width, length, topLeft);
  }

  /** Every wall of the sequence is valid. */
  predicate AllValid(walls: seq<Wall>, textureCount: int, width: int, length: int, topLeft: Vec2) {
    forall n :: 0 <= n < |walls| ==> WallValid(walls[n], textureCount, width, length, topLeft)
  }

  lemma ConsValid(w: Wall, rest: seq<Wall>, textureCount: int, width: int, length: int, topLeft: Vec2)
    requires WallValid(w, textureCount, width, length, topLeft)
    requires AllValid(rest, textureCount, width, length, topLeft)
    ensures AllValid([w] + rest, textureCount, width, length, topLeft)
  {
    forall n | 0 <= n < |[w] + rest|
      ensures WallValid(([w] + rest)[n], textureCount, width, length, topLeft)
    {
      if n > 0 {
        assert ([w] + rest)[n] == rest[n - 1];
      }
    }
  }

  /** Half a tile inside the `TILE*width` by `TILE*length` rectangle, at height 2. */
  predicate InsideRoom(w: Wall, width: int, length: int, topLeft: Vec2) {
    topLeft.x + 5.0 <= w.center.x <= topLeft.x + (TileSize * width - 5) as real
    && topLeft.y + 5.0 <= w.center.z <= topLeft.y + (TileSize * length - 5) as real
    && w.center.y == 2.0
  }

  lemma WallAtInside(entry: int, r: int, c: int, width: int, length: int, topLeft: Vec2)
    requires 0 <= r < length && 0 <= c < width
    ensures InsideRoom(WallAt(entry, r, c, topLeft), width, length, topLeft)
    ensures WallAt(entry, r, c, topLeft).texture == entry - 1
  {
    MulMono(c + 1, width, TileSize);
    MulMono(r + 1, length, TileSize);
  }

  /** With two wall textures the table of src/main.c never makes `draw_room` exit. */
  lemma RoomNeverExits(topLeft: Vec2)
    ensures !WallsFrom(RoomTable, 2, RoomSize, RoomSize, topLeft, 0).exited
  {
    RoomTableShape();
    ExitIffUnknownWall(RoomTable, 2, RoomSize, RoomSize, topLeft, 0);
    forall m | 0 <= m < Cells(RoomSize, RoomSize)
      ensures EntryAt(RoomTable, RoomSize, RoomSize, m) <= 2
    {
      ScanPosition(m, RoomSize, RoomSize);
    }
  }

  /**
    `draw_room`: visits rows i = 1..length and columns j = 1..width, and
    draws a wall for every positive entry; an entry above `texture_count`
    ends the program.
   */
  method DrawRoom(room: seq<seq<int>>, textureCount: int, width: int, length: int, topLeft: Vec2)
    returns (walls: seq<Wall>, exited: bool)
    requires width <= RoomSize && length <= RoomSize && IsTable(room, RoomSize, RoomSize)
    ensures Outcome(walls, exited) == WallsFrom(room, textureCount, width, length, topLeft, 0)
  {
    walls, exited := [], false;
    ghost var start := 0;
    var i := 1;
    while i <= length
      invariant 1 <= i && (i - 1 <= length || length < 1)
      invariant width <= 0 ==> walls == [] && !exited
      invariant 0 < width ==> start == (i - 1) * width && 0 <= start <= Cells(width, length)
      invariant 0 < width ==>
        var rest := WallsFrom(room, textureCount, width, length, topLeft, start);
        Outcome(walls + rest.walls, rest.exited) == WallsFrom(room, textureCount, width, length, topLeft, 0)
    {
      if 0 < width {
        RowStart(i, width, length);
      }
      walls, exited := DrawRow(room, textureCount, width, length, topLeft, i, start, walls);
      if exited {
        return;
      }
      i := i + 1;
      start := start + width;
    }
    if 0 < width && 0 < length {
      assert i - 1 == length;
      assert Cells(width, length) == width * length == length * width;
    }
  }

  /** Row `i` starts at scan position `(i-1)*width` and ends where row `i + 1` starts. */
  lemma RowStart(i: int, width: int, length: int)
    requires 0 < width && 1 <= i <= length
    ensures 0 <= (i - 1) * width && (i - 1) * width + width == i * width <= Cells(width, length)
  {
    MulMono(i, length, width);
  }

  /** The inner loop of `draw_room` over row `i`, which starts at scan position `start`. */
  method DrawRow(room: seq<seq<int>>, textureCount: int, width: int, length: int, topLeft: Vec2, i: int,
                 ghost start: int, drawn: seq<Wall>)
    returns (walls: seq<Wall>, exited: bool)
    requires width <= RoomSize && length <= RoomSize && IsTable(room, RoomSize, RoomSize)
    requires 1 <= i <= length
    requires 0 < width ==> start == (i - 1) * width && 0 <= start && start + width <= Cells(width, length)
    ensures width <= 0 ==> walls == drawn && !exited
    ensures 0 < width ==>
      var before := WallsFrom(room, textureCount, width, length, topLeft, start);
      if exited then Outcome(walls, true) == Outcome(drawn + before.walls, before.exited)
      else
        var after := WallsFrom(room, textureCount, width, length, topLeft, start + width);
        Outcome(walls + after.walls, after.exited) == Outcome(drawn + before.walls, before.exited)
  {
    walls, exited := drawn, false;
    var j := 1;
    while j <= width
      invariant 1 <= j && (j <= width + 1 || width < 1) && !exited
      invariant width < 1 ==> walls == drawn
      invariant 0 < width ==>
        var rest := WallsFrom(room, textureCount, width, length, topLeft, start + j - 1);
        var before := WallsFrom(room, textureCount, width, length, topLeft, start);
        Outcome(walls + rest.walls, rest.exited) == Outcome(drawn + before.walls, before.exited)
    {
      CellCoordinates(j - 1, i - 1, width, length);
      ghost var k := start + j - 1;
      assert k == Cell(j - 1, i - 1, width, length);
      assert EntryAt(room, width, length, k) == room[i - 1][j - 1];
      ghost var next := WallsFrom(room, textureCount, width, length, topLeft, k + 1);
      if room[i - 1][j - 1] > 0 {
        var wallType := room[i - 1][j - 1];
        if wallType > textureCount {
          exited := true;
          return;
        }
        var w := WallAt(wallType, i - 1, j - 1, topLeft);
        assert WallsFrom(room, textureCount, width, length, topLeft, k).walls == [w] + next.walls;
        assert walls + ([w] + next.walls) == (walls + [w]) + next.walls;
        walls := walls + [w];
      }
      j := j + 1;
    }
  }

  // ---------------------------------------------------------------------
  // Turning

  /** `MOUSE_SENS` and `TURN_SPEED`. */
  const MouseSens: real := 0.1
  const TurnSpeed: real := 250.0

  function Abs(x: real): real {
    if x < 0.0 then -x else x
  }

  /**
    The turn of `player_movement`: whichever of the mouse turn and the key
    turn is larger in magnitude, the key turn on a tie.
   */
  function TurnRotation(mouseDeltaX: real, keyAxis: real, dt: real): (rotation: real)
    ensures var mouse, key := mouseDeltaX * MouseSens, keyAxis * TurnSpeed * dt;
      (rotation == mouse || rotation == key)
      && Abs(rotation) >= Abs(mouse) && Abs(rotation) >= Abs(key)
      && (Abs(mouse) <= Abs(key) ==> rotation == key)
  {
    var mouseMove := mouseDeltaX * MouseSens;
    var keyMove := keyAxis * TurnSpeed * dt;
    if Abs(mouseMove) > Abs(keyMove) then mouseMove else keyMove
  }
}

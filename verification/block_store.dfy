/**
  The placeable blocks of terrain/main.c: a fixed array of 1024 blocks
  filled from the front, removal by clearing the `active` flag, and the
  per-frame choice of the block the view ray points at.
 */
module Blocks {
  import opened Vectors
  import opened Images
  import HeightQuery

  /** `BLOCK_SIZE`: the edge of the cube mesh drawn for each block. */
  const BlockSize: int := 5

  /** Length of `Texture block_textures[2]`, which the draw loop indexes by a block's texture. */
  const TextureCount: int := 2

  /** Length of `Block blocks[1024]`. */
  const Capacity: int := 1024

  datatype Block = Block(pos: Vec3, bounds: Box, textureId: int, active: bool)

  /** `BLOCK_SIZE / 2` is integer division in C: the collision half-extent is 2, not 2.5. */
  function HalfExtent(): (h: real)
    ensures h == 2.0
  {
    (BlockSize / 2) as real
  }

  /** The block placed at `c`: its box spans `HalfExtent()` either side of `c` on every axis. */
  function NewBlock(c: Vec3, texture: int): (b: Block)
    ensures b.pos == c && b.textureId == texture && b.active
    ensures b.bounds.min == Sub(c, Vec3(HalfExtent(), HalfExtent(), HalfExtent()))
    ensures b.bounds.max == Add(c, Vec3(HalfExtent(), HalfExtent(), HalfExtent()))
  {
    var h := HalfExtent();
    Block(c, Box(Sub(c, Vec3(h, h, h)), Add(c, Vec3(h, h, h))), texture, true)
  }

  /**
    A new block's box is centred on its position and 4 units wide on each
    axis, one unit narrower than the 5-unit cube drawn there.
   */
  lemma NewBlockBoxCentred(c: Vec3, texture: int)
    ensures var b := NewBlock(c, texture).bounds;
      Scale(Add(b.min, b.max), 0.5) == c
      && b.max.x - b.min.x == b.max.y - b.min.y == b.max.z - b.min.z == (BlockSize - 1) as real
  {
  }

  /** What a ray hit: nothing yet. */
  const NoCollision := RayCollision(false, 0.0, Zero3, Zero3)

  /** Where a new block goes when the ray hits block face: 2.5 out along the face normal. */
  function BesideFace(hit: RayCollision): Vec3 {
    Add(Scale(hit.normal, 2.5), hit.point)
  }

  /**
    The texture keys: 1 picks texture 0, otherwise 2 picks texture 1. A
    valid texture index stays valid, so `block_textures[texture_id]` in the
    draw loop stays inside its two entries.
   */
  function SelectTexture(current: int, keyOne: bool, keyTwo: bool): (t: int)
    ensures 0 <= current < TextureCount ==> 0 <= t < TextureCount
    ensures keyOne ==> t == 0
    ensures !keyOne && keyTwo ==> t == 1
    ensures !keyOne && !keyTwo ==> t == current
  {
    if keyOne then 0 else if keyTwo then 1 else current
  }

  /** The block is still there and the ray hits its box. */
  predicate Targeted(b: Block, ray: Ray, collide: (Ray, Box) -> RayCollision) {
    b.active && collide(ray, b.bounds).hit
  }

  /** Distance from the player to where the ray meets the block's box. */
  function TargetDistance(b: Block, ray: Ray, player: Vec3, collide: (Ray, Box) -> RayCollision,
                          distance: (Vec3, Vec3) -> real): real
  {
    distance(player, collide(ray, b.bounds).point)
  }

  // ---------------------------------------------------------------------
  // The placement as written

  datatype Option<T> = None | Some(value: T)

  /**
    `blocks[count++] = ...` with no capacity check: the slot written is
    `count`, which is only inside the array while `count` is below its
    length; `None` stands for the out-of-bounds write.
   */
  function PlaceAsWritten(slots: seq<Block>, count: int, b: Block): (r: Option<(seq<Block>, int)>)
    ensures r.None? <==> !(0 <= count < |slots|)
    ensures r.Some? ==> r.value.0 == slots[count := b] && r.value.1 == count + 1
  {
    if 0 <= count < |slots| then Some((slots[count := b], count + 1)) else None
  }

  /** `n` left clicks with a hit, each placing `b`, from `count`. */
  function PlaceManyAsWritten(slots: seq<Block>, count: int, b: Block, n: nat): (r: Option<(seq<Block>, int)>)
    ensures r.Some? <==> n == 0 || (0 <= count && count + n <= |slots|)
    ensures r.Some? ==> r.value.1 == count + n && |r.value.0| == |slots|
    decreases n
  {
    if n == 0 then Some((slots, count))
    else match PlaceAsWritten(slots, count, b)
      case None => None
      case Some(s) => PlaceManyAsWritten(s.0, s.1, b, n - 1)
  }

  /** Each unchecked placement that stays in bounds adds one to the count and keeps the length. */
  lemma {:induction false} PlaceManyCounts(slots: seq<Block>, count: int, b: Block, n: nat)
    requires 0 <= count && count + n <= |slots|
    ensures PlaceManyAsWritten(slots, count, b, n).Some?
    ensures PlaceManyAsWritten(slots, count, b, n).value.1 == count + n
    ensures |PlaceManyAsWritten(slots, count, b, n).value.0| == |slots|
    decreases n
  {
    if n > 0 {
      PlaceManyCounts(slots[count := b], count + 1, b, n - 1);
    }
  }

  /**
    Nothing stops a player from clicking 1025 times: after 1024 placements
    the count is 1024 and the next one writes one past the end of
    `blocks[1024]`.
   */
  lemma UncheckedPlacementOverflows(slots: seq<Block>, b: Block)
    requires |slots| == Capacity
    ensures PlaceManyAsWritten(slots, 0, b, Capacity).Some?
    ensures PlaceManyAsWritten(slots, 0, b, Capacity).value.1 == Capacity
    ensures PlaceManyAsWritten(slots, 0, b, Capacity + 1).None?
  {
    PlaceManyCounts(slots, 0, b, Capacity);
    var s := PlaceManyAsWritten(slots, 0, b, Capacity).value;
    PlaceManyUnfold(slots, 0, b, Capacity);
    assert PlaceAsWritten(s.0, s.1, b).None?;
  }

  /** One more placement after `n` is a placement on the state those `n` left. */
  lemma {:induction false} PlaceManyUnfold(slots: seq<Block>, count: int, b: Block, n: nat)
    requires PlaceManyAsWritten(slots, count, b, n).Some?
    ensures var s := PlaceManyAsWritten(slots, count, b, n).value;
      PlaceManyAsWritten(slots, count, b, n + 1) == PlaceAsWritten(s.0, s.1, b)
    decreases n
  {
    if n > 0 {
      var s := PlaceAsWritten(slots, count, b).value;
      PlaceManyUnfold(s.0, s.1, b, n - 1);
    }
  }

  // ---------------------------------------------------------------------
  // The store

  /** The `blocks` array and `count` of terrain/main.c's main loop. */
  class BlockStore {
    var blocks: array<Block>
    var count: int

    ghost predicate Valid()
      reads this
    {
      blocks.Length == Capacity && 0 <= count <= Capacity
    }

    /** The blocks placed so far, removed ones included. */
    function Placed(): seq<Block>
      reads this, blocks
      requires Valid()
    {
      blocks[..count]
    }

    constructor ()
      ensures Valid() && count == 0 && fresh(blocks)
    {
      blocks := new Block[Capacity](_ => Block(Zero3, Box(Zero3, Zero3), 0, false));
      count := 0;
    }

    /**
      Left click with a target: the new block goes into slot `count` and
      `count` grows by one. The capacity check is the correction recorded
      in the README: with the array full, nothing is placed.
     */
    method Place(collision: Vec3, texture: int) returns (placed: bool)
      requires Valid()
      modifies this, blocks
      ensures Valid() && blocks == old(blocks)
      ensures placed <==> old(count) < Capacity
      ensures placed ==> count == old(count) + 1 && Placed() == old(Placed()) + [NewBlock(collision, texture)]
      ensures !placed ==> count == old(count) && Placed() == old(Placed())
    {
      placed := count < Capacity;
      if placed {
        blocks[count] := NewBlock(collision, texture);
        count := count + 1;
        assert Placed() == old(Placed()) + [NewBlock(collision, texture)];
      }
    }

    /** Right click on a block: only its `active` flag is cleared. */
    method Remove(index: int)
      requires Valid() && 0 <= index < count
      modifies blocks
      ensures Valid() && count == old(count)
      ensures Placed() == old(Placed())[index := old(Placed())[index].(active := false)]
    {
      blocks[index] := blocks[index].(active := false);
    }

    /** Block `j` is still there and the ray hits its box. */
    predicate HitBy(j: int, ray: Ray, collide: (Ray, Box) -> RayCollision)
      reads this, blocks
      requires 0 <= j < blocks.Length
    {
      Targeted(blocks[j], ray, collide)
    }

    /** Distance from the player to where the ray meets block `j`. */
    function HitDistance(j: int, ray: Ray, player: Vec3, collide: (Ray, Box) -> RayCollision,
                         distance: (Vec3, Vec3) -> real): real
      reads this, blocks
      requires 0 <= j < blocks.Length
    {
      TargetDistance(blocks[j], ray, player, collide, distance)
    }

    /**
      The nearest-hit loop: among the active blocks the ray hits, the one
      whose hit point is closest to the player, the earliest on a tie.
     */
    method SelectNearest(ray: Ray, player: Vec3, collide: (Ray, Box) -> RayCollision,
                         distance: (Vec3, Vec3) -> real)
      returns (collided: bool, closest: RayCollision, index: int)
      requires Valid()
      ensures collided <==> exists j :: 0 <= j < count && HitBy(j, ray, collide)
      ensures !collided ==> index == -1 && closest == NoCollision
      ensures collided ==> 0 <= index < count && HitBy(index, ray, collide)
      ensures collided ==> closest == collide(ray, blocks[index].bounds)
      ensures collided ==> forall j :: 0 <= j < count && HitBy(j, ray, collide) ==>
        HitDistance(index, ray, player, collide, distance) <= HitDistance(j, ray, player, collide, distance)
      ensures collided ==> forall j :: 0 <= j < index && HitBy(j, ray, collide) ==>
        HitDistance(index, ray, player, collide, distance) < HitDistance(j, ray, player, collide, distance)
    {
      collided, closest, index := false, NoCollision, -1;
      var i := 0;
      while i < count
        invariant 0 <= i <= count
        invariant collided <==> exists j :: 0 <= j < i && HitBy(j, ray, collide)
        invariant !collided ==> index == -1 && closest == NoCollision
        invariant collided ==> 0 <= index < i && HitBy(index, ray, collide)
        invariant collided ==> closest == collide(ray, blocks[index].bounds)
        invariant collided ==> forall j :: 0 <= j < i && HitBy(j, ray, collide) ==>
          HitDistance(index, ray, player, collide, distance) <= HitDistance(j, ray, player, collide, distance)
        invariant collided ==> forall j :: 0 <= j < index && HitBy(j, ray, collide) ==>
          HitDistance(index, ray, player, collide, distance) < HitDistance(j, ray, player, collide, distance)
      {
        if blocks[i].active {
          var rayCol := collide(ray, blocks[i].bounds);
          if rayCol.hit {
            assert HitBy(i, ray, collide);
            if !collided {
              collided, closest, index := true, rayCol, i;
            } else {
              var v1 := distance(player, closest.point);
              var v2 := distance(player, rayCol.point);
              if v2 < v1 {
                closest, index := rayCol, i;
              }
            }
          }
        }
        i := i + 1;
      }
    }

    /**
      The block part of one frame of terrain/main.c: pick the target (the
      nearest block face, otherwise the terrain under the view ray, lifted
      by 2), then place a block there on a left click or remove the
      targeted block on a right click.
     */
    method Interact(ray: Ray, player: Vec3, collide: (Ray, Box) -> RayCollision,
                    distance: (Vec3, Vec3) -> real, hm: Image, maxHeight: int, res: real,
                    origin: Vec3, normalize: Vec3 -> Vec3, leftClick: bool, rightClick: bool,
                    texture: int)
      returns (collided: bool, collision: Vec3, index: int, ghost steps: int)
      requires Valid() && WellFormed(hm)
      modifies this, blocks
      ensures Valid() && blocks == old(blocks) && count >= old(count)
      // the target block: the nearest active block the ray hits, the earliest on a tie
      ensures index != -1 <==> exists j :: 0 <= j < old(count) && Targeted(old(Placed())[j], ray, collide)
      ensures index != -1 ==> collided && 0 <= index < old(count) && Targeted(old(Placed())[index], ray, collide)
      ensures index != -1 ==> forall j :: 0 <= j < old(count) && Targeted(old(Placed())[j], ray, collide) ==>
        TargetDistance(old(Placed())[index], ray, player, collide, distance)
          <= TargetDistance(old(Placed())[j], ray, player, collide, distance)
      ensures index != -1 ==> forall j :: 0 <= j < index && Targeted(old(Placed())[j], ray, collide) ==>
        TargetDistance(old(Placed())[index], ray, player, collide, distance)
          < TargetDistance(old(Placed())[j], ray, player, collide, distance)
      // with a target block, the new block goes beside the face the ray hits
      ensures index != -1 ==> collision == BesideFace(collide(ray, old(Placed())[index].bounds))
      // otherwise the target is the first terrain sample under the view ray, lifted by 2
      ensures index == -1 && collided ==> 0 <= steps < 20 * hm.width
      ensures index == -1 && collided ==>
        var p := HeightQuery.MarchPoint(ray, normalize(ray.direction), steps);
        HeightQuery.Hits(p, hm, maxHeight, res, origin) && collision == p.(y := p.y + 2.0)
      ensures index == -1 && collided ==> forall m :: 0 <= m < steps ==>
        !HeightQuery.Hits(HeightQuery.MarchPoint(ray, normalize(ray.direction), m), hm, maxHeight, res, origin)
      ensures index == -1 && !collided ==> forall m :: 0 <= m < 20 * hm.width ==>
        !HeightQuery.Hits(HeightQuery.MarchPoint(ray, normalize(ray.direction), m), hm, maxHeight, res, origin)
      // then a left click places, a right click removes
      ensures leftClick && collided && old(count) < Capacity ==>
        Placed() == old(Placed()) + [NewBlock(collision, texture)]
      ensures !(leftClick && collided && old(count) < Capacity) && !(collided && index != -1 && rightClick && !leftClick) ==>
        Placed() == old(Placed())
      ensures collided && index != -1 && rightClick && !leftClick ==>
        Placed() == old(Placed())[index := old(Placed())[index].(active := false)]
    {
      var closest;
      collided, closest, index := SelectNearest(ray, player, collide, distance);
      ghost var before := Placed();
      assert before == old(Placed());
      assert forall j :: 0 <= j < count ==>
        HitBy(j, ray, collide) == Targeted(before[j], ray, collide)
        && HitDistance(j, ray, player, collide, distance) == TargetDistance(before[j], ray, player, collide, distance);
      assert index != -1 <==> exists j :: 0 <= j < count && Targeted(before[j], ray, collide) by {
        if index == -1 {
          forall j | 0 <= j < count
            ensures !Targeted(before[j], ray, collide)
          {
            assert !HitBy(j, ray, collide);
          }
        } else {
          assert HitBy(index, ray, collide);
        }
      }
      steps := 0;
      if collided {
        collision := BesideFace(closest);
      } else {
        collided, collision, steps := HeightQuery.RaycastHeightmap(ray, hm, maxHeight, res, origin, normalize);
        if collided {
          collision := collision.(y := collision.y + 2.0);
        }
      }
      if leftClick && collided {
        var placed := Place(collision, texture);
      } else if collided && index != -1 && rightClick {
        Remove(index);
      }
    }
  }
}

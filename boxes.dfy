/** The falling-box registry: SpawnBox, MoveBoxes, BoxesCollide and BoxesCollideGround.
    The source keeps the boxes in a global, append-only singly linked list; here a BoxList
    object owns them as a sequence in spawn order. MoveBoxes, BoxesCollide and
    BoxesCollideGround walk the list with `while (iter->next != NULL)`, so they never
    touch the box that is currently last; the model keeps that. */
module Boxes {
  import opened Config
  import opened Geometry

  /** struct Box without its colour and its link. Speed is in units per tick, downwards. */
  datatype Box = Box(rect: Rect, speed: int)

  /** The values SpawnBox draws with GetRandomValue: a speed in tenths of a pixel per tick,
      a width and a height in pixels, and a left edge in pixels. */
  datatype SpawnDraw = SpawnDraw(speedTenths: int, widthPx: int, heightPx: int, xPx: int)

  /** The ranges GetRandomValue is asked for. */
  predicate ValidDraw(d: SpawnDraw) {
    && BoxMinSpeed <= d.speedTenths <= BoxMaxSpeed
    && BoxMinSizePx <= d.widthPx <= BoxMaxSizePx
    && BoxMinSizePx <= d.heightPx <= BoxMaxSizePx
    && 0 <= d.xPx <= ScreenWidthPx - d.widthPx
  }

  /** The box SpawnBox creates above a player whose top edge is at playerY. */
  function NewBox(playerY: int, d: SpawnDraw): (b: Box)
    requires ValidDraw(d)
    ensures b.rect.y == playerY - 3 * ScreenHeight
    ensures 0 <= b.rect.x && b.rect.x + b.rect.width <= ScreenWidth
    ensures BoxMinSizePx * Px <= b.rect.width <= BoxMaxSizePx * Px
    ensures BoxMinSizePx * Px <= b.rect.height <= BoxMaxSizePx * Px
    ensures b.speed == 1_000 || b.speed == 2_000 || b.speed == 3_000
  {
    Box(Rect(d.xPx * Px, playerY - ScreenHeight * 3, d.widthPx * Px, d.heightPx * Px),
        d.speedTenths * (Px / 10))
  }

  /** The invariant every box keeps: its size is as drawn and its speed is not negative. */
  predicate WellFormed(b: Box) {
    && BoxMinSizePx * Px <= b.rect.width <= BoxMaxSizePx * Px
    && BoxMinSizePx * Px <= b.rect.height <= BoxMaxSizePx * Px
    && b.speed >= 0
  }

  predicate AllWellFormed(bs: seq<Box>) {
    forall i :: 0 <= i < |bs| ==> WellFormed(bs[i])
  }

  /** The set of speeds present in bs. */
  function Speeds(bs: seq<Box>): set<int> {
    set b | b in bs :: b.speed
  }

  // ---------------------------------------------------------------- MoveBoxes

  /** What MoveBoxes does to the list: every box but the last falls by its speed. */
  function Moved(bs: seq<Box>): seq<Box> {
    if |bs| <= 1 then bs
    else [bs[0].(rect := bs[0].rect.(y := bs[0].rect.y + bs[0].speed))] + Moved(bs[1..])
  }

  lemma {:induction false} MovedAt(bs: seq<Box>)
    ensures |Moved(bs)| == |bs|
    ensures forall i :: 0 <= i < |bs| - 1 ==>
      Moved(bs)[i] == bs[i].(rect := bs[i].rect.(y := bs[i].rect.y + bs[i].speed))
    ensures |bs| > 0 ==> Moved(bs)[|bs| - 1] == bs[|bs| - 1]
  {
    if |bs| > 1 {
      MovedAt(bs[1..]);
      assert forall i :: 1 <= i < |bs| ==> Moved(bs)[i] == Moved(bs[1..])[i - 1];
    }
  }

  // ---------------------------------------------------------------- BoxesCollideGround

  /** What BoxesCollideGround does: every box but the last that overlaps the ground stops. */
  function Grounded(bs: seq<Box>, ground: Rect): seq<Box> {
    if |bs| <= 1 then bs
    else [if Overlaps(bs[0].rect, ground) then bs[0].(speed := 0) else bs[0]]
         + Grounded(bs[1..], ground)
  }

  lemma {:induction false} GroundedAt(bs: seq<Box>, ground: Rect)
    ensures |Grounded(bs, ground)| == |bs|
    ensures forall i :: 0 <= i < |bs| ==> Grounded(bs, ground)[i].rect == bs[i].rect
    ensures forall i :: 0 <= i < |bs| ==>
      Grounded(bs, ground)[i].speed ==
        if i < |bs| - 1 && Overlaps(bs[i].rect, ground) then 0 else bs[i].speed
  {
    if |bs| > 1 {
      GroundedAt(bs[1..], ground);
      assert forall i :: 1 <= i < |bs| ==> Grounded(bs, ground)[i] == Grounded(bs[1..], ground)[i - 1];
    }
  }

  /** Stopping the grounded boxes a second time changes nothing. */
  lemma {:induction false} GroundedIdempotent(bs: seq<Box>, ground: Rect)
    ensures Grounded(Grounded(bs, ground), ground) == Grounded(bs, ground)
  {
    var once := Grounded(bs, ground);
    GroundedAt(bs, ground);
    GroundedAt(once, ground);
    assert forall i :: 0 <= i < |bs| ==> Grounded(once, ground)[i] == once[i];
  }

  // ---------------------------------------------------------------- BoxesCollide

  /** r is bs with no rectangle moved, no speed raised and no speed that was not already
      among bs's speeds. */
  predicate SlowedFrom(r: seq<Box>, bs: seq<Box>) {
    && |r| == |bs|
    && (forall k :: 0 <= k < |bs| ==> r[k].rect == bs[k].rect && r[k].speed <= bs[k].speed)
    && Speeds(r) <= Speeds(bs)
  }

  lemma SlowedFromTransitive(a: seq<Box>, b: seq<Box>, c: seq<Box>)
    requires SlowedFrom(b, a) && SlowedFrom(c, b)
    ensures SlowedFrom(c, a)
  {
  }

  /** One comparison of BoxesCollide: if boxes i and j are distinct and overlap, the faster
      one takes the speed of the slower. */
  function ClampPair(bs: seq<Box>, i: int, j: int): (r: seq<Box>)
    requires 0 <= i < |bs| && 0 <= j < |bs|
    ensures |r| == |bs|
    ensures Overlaps(bs[i].rect, bs[j].rect) && i != j ==>
      r[i].speed == r[j].speed == Min(bs[i].speed, bs[j].speed)
  {
    if Overlaps(bs[i].rect, bs[j].rect) && i != j then
      if bs[i].speed > bs[j].speed then bs[i := bs[i].(speed := bs[j].speed)]
      else bs[j := bs[j].(speed := bs[i].speed)]
    else bs
  }

  /** The frame of one comparison: no rectangle moves and no speed rises, and any other box
      is untouched. The last clause repeats ClampPair's own contract (the pair's new speed) so
      that one call states the whole comparison. */
  lemma ClampPairSpec(bs: seq<Box>, i: int, j: int)
    requires 0 <= i < |bs| && 0 <= j < |bs|
    ensures SlowedFrom(ClampPair(bs, i, j), bs)
    ensures forall k :: 0 <= k < |bs| && k != i && k != j ==> ClampPair(bs, i, j)[k] == bs[k]
    ensures Overlaps(bs[i].rect, bs[j].rect) && i != j ==>
      && ClampPair(bs, i, j)[i].speed == ClampPair(bs, i, j)[j].speed
      && ClampPair(bs, i, j)[i].speed == Min(bs[i].speed, bs[j].speed)
  {
  }

  /** The inner loop of BoxesCollide for box i, from box j up to (not including) the last box. */
  function InnerPass(bs: seq<Box>, i: int, j: int): (r: seq<Box>)
    requires 0 <= i < |bs| && 0 <= j
    ensures |r| == |bs|
    ensures i < |bs| - 1 ==> r[|bs| - 1] == bs[|bs| - 1]
    decreases |bs| - j
  {
    if j >= |bs| - 1 then bs else InnerPass(ClampPair(bs, i, j), i, j + 1)
  }

  lemma {:induction false} InnerPassSpec(bs: seq<Box>, i: int, j: int)
    requires 0 <= i < |bs| - 1 && 0 <= j
    ensures SlowedFrom(InnerPass(bs, i, j), bs)
    decreases |bs| - j
  {
    if j < |bs| - 1 {
      var c := ClampPair(bs, i, j);
      ClampPairSpec(bs, i, j);
      InnerPassSpec(c, i, j + 1);
      SlowedFromTransitive(bs, c, InnerPass(c, i, j + 1));
    }
  }

  /** The outer loop of BoxesCollide, from box i up to (not including) the last box. */
  function OuterPass(bs: seq<Box>, i: int): (r: seq<Box>)
    requires 0 <= i
    ensures |r| == |bs|
    ensures |bs| > 0 ==> r[|bs| - 1] == bs[|bs| - 1]
    decreases |bs| - i
  {
    if i >= |bs| - 1 then bs else OuterPass(InnerPass(bs, i, 0), i + 1)
  }

  lemma {:induction false} OuterPassSpec(bs: seq<Box>, i: int)
    requires 0 <= i
    ensures SlowedFrom(OuterPass(bs, i), bs)
    decreases |bs| - i
  {
    if i < |bs| - 1 {
      var c := InnerPass(bs, i, 0);
      InnerPassSpec(bs, i, 0);
      OuterPassSpec(c, i + 1);
      SlowedFromTransitive(bs, c, OuterPass(c, i + 1));
    }
  }

  /** What BoxesCollide does to the list. */
  function Collided(bs: seq<Box>): (r: seq<Box>)
    ensures |r| == |bs|
  {
    OuterPass(bs, 0)
  }

  /** BoxesCollide moves no rectangle, raises no speed, leaves only speeds that some box
      already had, and does not touch the last box. */
  lemma CollidedSpec(bs: seq<Box>)
    ensures SlowedFrom(Collided(bs), bs)
    ensures forall k :: 0 <= k < |bs| ==> Collided(bs)[k].speed in Speeds(bs)
    ensures |bs| > 0 ==> Collided(bs)[|bs| - 1] == bs[|bs| - 1]
  {
    var r := Collided(bs);
    OuterPassSpec(bs, 0);
    assert forall k :: 0 <= k < |r| ==> r[k] in r;
  }

  /** Once the inner loop for box i reaches box j (j0 <= j), an overlapping pair i, j ends it
      no faster than the slower of the two. */
  lemma {:induction false} InnerPassClamps(bs: seq<Box>, i: int, j: int, j0: int)
    requires 0 <= i < |bs| - 1 && 0 <= j0 <= j < |bs| - 1 && i != j
    requires Overlaps(bs[i].rect, bs[j].rect)
    ensures InnerPass(bs, i, j0)[i].speed <= Min(bs[i].speed, bs[j].speed)
    ensures InnerPass(bs, i, j0)[j].speed <= Min(bs[i].speed, bs[j].speed)
    decreases j - j0
  {
    var c := ClampPair(bs, i, j0);
    ClampPairSpec(bs, i, j0);
    if j0 == j {
      InnerPassSpec(c, i, j + 1);
    } else {
      InnerPassClamps(c, i, j, j0 + 1);
    }
  }

  /** Once the outer loop reaches box i (i0 <= i), every pair i, j with j before the last box
      that overlaps ends it no faster than the slower of the two. */
  lemma {:induction false} OuterPassClamps(bs: seq<Box>, i: int, j: int, i0: int)
    requires 0 <= i0 <= i < |bs| - 1 && 0 <= j < |bs| - 1 && i != j
    requires Overlaps(bs[i].rect, bs[j].rect)
    ensures OuterPass(bs, i0)[i].speed <= Min(bs[i].speed, bs[j].speed)
    ensures OuterPass(bs, i0)[j].speed <= Min(bs[i].speed, bs[j].speed)
    decreases i - i0
  {
    var c := InnerPass(bs, i0, 0);
    InnerPassSpec(bs, i0, 0);
    if i0 == i {
      InnerPassClamps(bs, i, j, 0);
      OuterPassSpec(c, i + 1);
    } else {
      OuterPassClamps(c, i, j, i0 + 1);
    }
  }

  /** BoxesCollide slows overlapping boxes: two distinct overlapping boxes, neither of them the
      last, both end no faster than the slower of the two was. (Not always equal: a later
      comparison can slow one of them further.) */
  lemma CollidedSlowsOverlapping(bs: seq<Box>)
    ensures forall i, j ::
      0 <= i < |bs| - 1 && 0 <= j < |bs| - 1 && i != j && Overlaps(bs[i].rect, bs[j].rect) ==>
        && Collided(bs)[i].speed <= Min(bs[i].speed, bs[j].speed)
        && Collided(bs)[j].speed <= Min(bs[i].speed, bs[j].speed)
  {
    forall i, j | 0 <= i < |bs| - 1 && 0 <= j < |bs| - 1 && i != j && Overlaps(bs[i].rect, bs[j].rect)
      ensures Collided(bs)[i].speed <= Min(bs[i].speed, bs[j].speed)
      ensures Collided(bs)[j].speed <= Min(bs[i].speed, bs[j].speed)
    {
      OuterPassClamps(bs, i, j, 0);
    }
  }

  /** A box that overlaps no other box before the last is never written by the inner loop. */
  lemma {:induction false} InnerPassKeeps(bs: seq<Box>, i: int, j0: int, k: int)
    requires 0 <= i < |bs| - 1 && 0 <= j0 && 0 <= k < |bs|
    requires forall j :: 0 <= j < |bs| - 1 && j != k ==> !Overlaps(bs[k].rect, bs[j].rect)
    ensures InnerPass(bs, i, j0)[k] == bs[k]
    decreases |bs| - j0
  {
    if j0 < |bs| - 1 {
      var c := ClampPair(bs, i, j0);
      ClampPairSpec(bs, i, j0);
      OverlapsSymmetric(bs[i].rect, bs[k].rect);
      assert c[k] == bs[k];
      assert forall j :: 0 <= j < |bs| ==> c[j].rect == bs[j].rect;
      InnerPassKeeps(c, i, j0 + 1, k);
    }
  }

  /** The same for the outer loop. */
  lemma {:induction false} OuterPassKeeps(bs: seq<Box>, i0: int, k: int)
    requires 0 <= i0 && 0 <= k < |bs|
    requires forall j :: 0 <= j < |bs| - 1 && j != k ==> !Overlaps(bs[k].rect, bs[j].rect)
    ensures OuterPass(bs, i0)[k] == bs[k]
    decreases |bs| - i0
  {
    if i0 < |bs| - 1 {
      var c := InnerPass(bs, i0, 0);
      InnerPassSpec(bs, i0, 0);
      InnerPassKeeps(bs, i0, 0, k);
      assert forall j :: 0 <= j < |bs| ==> c[j].rect == bs[j].rect;
      OuterPassKeeps(c, i0 + 1, k);
    }
  }

  /** BoxesCollide only writes a speed for an overlapping pair: a box that overlaps no other
      box before the last leaves it exactly as it was. */
  lemma CollidedKeepsIsolated(bs: seq<Box>, k: int)
    requires 0 <= k < |bs|
    requires forall j :: 0 <= j < |bs| - 1 && j != k ==> !Overlaps(bs[k].rect, bs[j].rect)
    ensures Collided(bs)[k] == bs[k]
  {
    OuterPassKeeps(bs, 0, k);
  }

  /** Three chained boxes at speeds 3, 2 and 1, followed by a fourth, far-away last box that
      the pass skips: one pass does not spread the smallest speed, so boxes 0 and 1 overlap
      yet end it at different speeds. (With the third box last, it would never be compared,
      and boxes 0 and 1 would both end at 2.) */
  lemma CollidedMayLeaveOverlapUneven()
    ensures var bs := [Box(Rect(0, 0, 10, 10), 3), Box(Rect(5, 0, 10, 10), 2),
                       Box(Rect(12, 0, 10, 10), 1), Box(Rect(1000, 1000, 10, 10), 0)];
      && Overlaps(bs[0].rect, bs[1].rect)
      && Collided(bs)[0].speed == 2 && Collided(bs)[1].speed == 1
  {
  }

  /** BoxesCollide keeps every box well formed: sizes are untouched and each speed is one
      that was already there. */
  lemma CollidedKeepsWellFormed(bs: seq<Box>)
    requires AllWellFormed(bs)
    ensures AllWellFormed(Collided(bs))
  {
    var c := Collided(bs);
    CollidedSpec(bs);
    forall k | 0 <= k < |c| ensures WellFormed(c[k]) {
      assert c[k].speed in Speeds(bs);
      var m :| 0 <= m < |bs| && bs[m].speed == c[k].speed;
      assert WellFormed(bs[m]);
    }
  }

  /** The three per-tick box operations keep every box well formed. */
  lemma DynamicsKeepWellFormed(bs: seq<Box>, ground: Rect)
    requires AllWellFormed(bs)
    ensures AllWellFormed(Moved(Grounded(Collided(bs), ground)))
  {
    var c := Collided(bs);
    CollidedKeepsWellFormed(bs);
    var g := Grounded(c, ground);
    GroundedAt(c, ground);
    assert AllWellFormed(g);
    MovedAt(g);
  }

  /** The global `boxes` list. */
  class BoxList {
    var boxes: seq<Box>

    ghost predicate Valid()
      reads this
    {
      AllWellFormed(boxes)
    }

    constructor ()
      ensures Valid() && boxes == []
    {
      boxes := [];
    }

    /** Appends a new box at the tail (the list walk to the tail is the pointer plumbing of
        an append). */
    method SpawnBox(playerY: int, d: SpawnDraw)
      requires Valid() && ValidDraw(d)
      modifies this
      ensures Valid()
      ensures boxes == old(boxes) + [NewBox(playerY, d)]
    {
      boxes := boxes + [NewBox(playerY, d)];
    }

    method MoveBoxes()
      requires Valid()
      modifies this
      ensures Valid()
      ensures boxes == Moved(old(boxes))
    {
      if |boxes| == 0 {
        return;
      }
      ghost var before := boxes;
      var i := 0;
      while i + 1 < |boxes|
        invariant 0 <= i < |boxes| == |before|
        invariant forall k :: 0 <= k < i ==>
          boxes[k] == before[k].(rect := before[k].rect.(y := before[k].rect.y + before[k].speed))
        invariant forall k :: i <= k < |boxes| ==> boxes[k] == before[k]
      {
        var b := boxes[i];
        boxes := boxes[i := b.(rect := b.rect.(y := b.rect.y + b.speed))];
        i := i + 1;
      }
      MovedAt(before);
    }

    /** The inner walk of BoxesCollide for box i: compare it with every box before the last.
        An internal phase of BoxesCollide: its ensures gives the whole new list, and
        BoxesCollide restores Valid() afterwards, so the class invariant is not carried here. */
    method CollideWith(i: int)
      requires 0 <= i < |boxes| - 1
      modifies this
      ensures boxes == InnerPass(old(boxes), i, 0)
    {
      var j := 0;
      while j + 1 < |boxes|
        invariant 0 <= j < |boxes| == |old(boxes)|
        invariant InnerPass(boxes, i, j) == InnerPass(old(boxes), i, 0)
      {
        ghost var previous := boxes;
        if Overlaps(boxes[i].rect, boxes[j].rect) && i != j {
          if boxes[i].speed > boxes[j].speed {
            boxes := boxes[i := boxes[i].(speed := boxes[j].speed)];
          } else {
            boxes := boxes[j := boxes[j].(speed := boxes[i].speed)];
          }
        }
        assert boxes == ClampPair(previous, i, j);
        j := j + 1;
      }
    }

    method BoxesCollide()
      requires Valid()
      modifies this
      ensures Valid()
      ensures boxes == Collided(old(boxes))
    {
      if |boxes| == 0 {
        return;
      }
      ghost var before := boxes;
      var i := 0;
      while i + 1 < |boxes|
        invariant 0 <= i < |boxes|
        invariant OuterPass(boxes, i) == Collided(before)
      {
        CollideWith(i);
        i := i + 1;
      }
      CollidedKeepsWellFormed(before);
    }

    method BoxesCollideGround(ground: Rect)
      requires Valid()
      modifies this
      ensures Valid()
      ensures boxes == Grounded(old(boxes), ground)
    {
      if |boxes| == 0 {
        return;
      }
      ghost var before := boxes;
      var i := 0;
      while i + 1 < |boxes|
        invariant 0 <= i < |boxes| == |before|
        invariant forall k :: 0 <= k < |boxes| ==> boxes[k].rect == before[k].rect
        invariant forall k :: 0 <= k < i ==>
          boxes[k].speed == if Overlaps(before[k].rect, ground) then 0 else before[k].speed
        invariant forall k :: i <= k < |boxes| ==> boxes[k] == before[k]
      {
        if Overlaps(boxes[i].rect, ground) {
          boxes := boxes[i := boxes[i].(speed := 0)];
        }
        i := i + 1;
      }
      GroundedAt(before, ground);
    }
  }
}

/** The player-versus-world part of a tick: the pre-move probe that pushes the player down out
    of boxes, the ground push-out, the collision-side classification and the per-box
    push-out loop with its jump and game-over rules. */
module Collision {
  import opened Config
  import opened Geometry
  import opened Boxes

  /** Everything a tick reads and writes: `player`, `playerMovement` (vx, vy), `canJump`,
      `colDir`, `gameOver`, `score` and the box list. */
  datatype World = World(
    player: Rect, vx: int, vy: int,
    canJump: bool, colDir: Direction, gameOver: bool,
    score: int, boxes: seq<Box>)

  // ---------------------------------------------------------------- pre-move probe

  /** The probe's running state: the world and `boxCollidePlayer`. */
  datatype Probe = Probe(world: World, hit: bool)

  /** src/test.c:135-139 for one box: while the player overlaps it, push the player down by
      0.1 px, stop its vertical motion and record the hit. */
  function SinkOne(w: World, hit: bool, b: Rect): (r: Probe)
    ensures !Overlaps(r.world.player, b)
    ensures r.hit <==> hit || Overlaps(w.player, b)
    ensures !Overlaps(w.player, b) ==> r == Probe(w, hit)
    ensures Overlaps(w.player, b) ==>
      r.world == w.(player := r.world.player, vy := 0) && Along(w.player, r.world.player, Down)
  {
    PushOutClears(w.player, b, Down, CoarseNudge);
    PushOutAlong(w.player, b, Down, CoarseNudge);
    if Overlaps(w.player, b) then
      Probe(w.(player := PushOut(w.player, b, Down, CoarseNudge), vy := 0), true)
    else
      Probe(w, hit)
  }

  /** The loop at src/test.c:134-140 over every box, the last one included. */
  function SinkAll(w: World, hit: bool, bs: seq<Box>): Probe
    decreases |bs|
  {
    if bs == [] then Probe(w, hit)
    else
      var p := SinkOne(w, hit, bs[0].rect);
      SinkAll(p.world, p.hit, bs[1..])
  }

  /** The probe only pushes the player down; it reports a hit exactly when it moved the
      player (or a hit was already recorded), and then vertical motion has stopped; the
      player ends clear of the last box it checked. */
  lemma {:induction false} SinkAllSpec(w: World, hit: bool, bs: seq<Box>)
    ensures var r := SinkAll(w, hit, bs).world;
      && r == w.(player := r.player, vy := r.vy)
      && r.player == w.player.(y := r.player.y) && r.player.y >= w.player.y
      && (SinkAll(w, hit, bs).hit <==> hit || r.player.y > w.player.y)
      && (r.player.y > w.player.y ==> r.vy == 0)
      && (r.player.y == w.player.y ==> r.vy == w.vy)
      && (bs != [] ==> !Overlaps(r.player, bs[|bs| - 1].rect))
    decreases |bs|
  {
    if bs != [] {
      var p := SinkOne(w, hit, bs[0].rect);
      PushOutAlong(w.player, bs[0].rect, Down, CoarseNudge);
      SinkAllSpec(p.world, p.hit, bs[1..]);
      if |bs| == 1 {
        PushOutClears(w.player, bs[0].rect, Down, CoarseNudge);
      } else {
        assert bs[1..][|bs[1..]| - 1] == bs[|bs| - 1];
      }
    }
  }

  // ---------------------------------------------------------------- ground

  /** src/test.c:153-162: a player overlapping the ground is nudged up 0.01 px at a time until
      clear, stops falling, may jump, and is tagged Down. */
  function GroundContact(w: World, ground: Rect): World {
    if Overlaps(w.player, ground) then
      w.(player := PushOut(w.player, ground, Up, FineNudge), vy := 0, canJump := true, colDir := Down)
    else
      w
  }

  lemma GroundContactSpec(w: World, ground: Rect)
    ensures !Overlaps(GroundContact(w, ground).player, ground)
    ensures !Overlaps(w.player, ground) ==> GroundContact(w, ground) == w
    ensures Overlaps(w.player, ground) ==>
      var r := GroundContact(w, ground);
      && r == w.(player := r.player, vy := 0, canJump := true, colDir := Down)
      && r.player == w.player.(y := r.player.y) && r.player.y < w.player.y
      && Overlaps(r.player.(y := r.player.y + FineNudge), ground)
  {
    PushOutClears(w.player, ground, Up, FineNudge);
    PushOutAlong(w.player, ground, Up, FineNudge);
    if Overlaps(w.player, ground) {
      PushOutFirstClear(w.player, ground, Up, FineNudge);
    }
  }

  // ---------------------------------------------------------------- boxes

  /** src/test.c:168-181: which side of box b the player hit. Undo this tick's horizontal
      displacement: if that clears the overlap the hit was horizontal (Left when moving right,
      Right otherwise), else vertical (Up when falling, Down otherwise). The tag is the way the
      player will be pushed out. */
  function Side(p: Rect, vx: int, vy: int, b: Rect): (d: Direction)
    ensures (d == Left || d == Right) <==> !Overlaps(p.(x := p.x - vx), b)
    ensures Overlaps(p, b) && d == Left ==> vx > 0
    ensures Overlaps(p, b) && d == Right ==> vx < 0
    ensures d == Up ==> vy > 0
    ensures d == Down ==> vy <= 0
  {
    if !Overlaps(p.(x := p.x - vx), b) then
      if vx > 0 then Left else Right
    else
      if vy > 0 then Up else Down
  }

  /** The nudge length of the push-out loop for a side (src/test.c:188-201). */
  function NudgeFor(d: Direction): int {
    if d == Up || d == Down then FineNudge else CoarseNudge
  }

  predicate Vertical(d: Direction) {
    d == Up || d == Down
  }

  /** A world after the box loop, with the sides it resolved, in order. */
  datatype Resolution = Resolution(world: World, sides: seq<Direction>)

  /** src/test.c:166-213 for one box: classify, push out, update the flags. */
  function ResolveOne(w: World, hit: bool, b: Rect): (r: Resolution)
    ensures |r.sides| <= 1
    ensures r.sides == [] <==> !Overlaps(w.player, b)
    ensures !Overlaps(r.world.player, b)
  {
    if !Overlaps(w.player, b) then Resolution(w, [])
    else
      var d := Side(w.player, w.vx, w.vy, b);
      PushOutClears(w.player, b, d, NudgeFor(d));
      Resolution(
        w.(player := PushOut(w.player, b, d, NudgeFor(d)),
           vy := if Vertical(d) then 0 else w.vy,
           colDir := d,
           canJump := w.canJump || d != Down,
           gameOver := w.gameOver || (hit && d == Down)),
        [d])
  }

  /** The loop at src/test.c:165-214 over every box, the last one included; `hit` is
      `boxCollidePlayer` as the pre-move probe left it. */
  function ResolveAll(w: World, hit: bool, bs: seq<Box>): Resolution
    decreases |bs|
  {
    if bs == [] then Resolution(w, [])
    else
      var first := ResolveOne(w, hit, bs[0].rect);
      var rest := ResolveAll(first.world, hit, bs[1..]);
      Resolution(rest.world, first.sides + rest.sides)
  }

  predicate SomeNotDown(sides: seq<Direction>) {
    exists i :: 0 <= i < |sides| && sides[i] != Down
  }

  predicate SomeVertical(sides: seq<Direction>) {
    exists i :: 0 <= i < |sides| && Vertical(sides[i])
  }

  lemma SidesConcat(a: seq<Direction>, b: seq<Direction>)
    ensures SomeNotDown(a + b) <==> SomeNotDown(a) || SomeNotDown(b)
    ensures SomeVertical(a + b) <==> SomeVertical(a) || SomeVertical(b)
    ensures Down in a + b <==> Down in a || Down in b
  {
    var s := a + b;
    if SomeNotDown(a) {
      var i :| 0 <= i < |a| && a[i] != Down;
      assert s[i] == a[i];
    }
    if SomeVertical(a) {
      var i :| 0 <= i < |a| && Vertical(a[i]);
      assert s[i] == a[i];
    }
    if SomeNotDown(b) {
      var i :| 0 <= i < |b| && b[i] != Down;
      assert s[|a| + i] == b[i];
    }
    if SomeVertical(b) {
      var i :| 0 <= i < |b| && Vertical(b[i]);
      assert s[|a| + i] == b[i];
    }
    if SomeNotDown(s) {
      var i :| 0 <= i < |s| && s[i] != Down;
      if i >= |a| { assert b[i - |a|] == s[i]; } else { assert a[i] == s[i]; }
    }
    if SomeVertical(s) {
      var i :| 0 <= i < |s| && Vertical(s[i]);
      if i >= |a| { assert b[i - |a|] == s[i]; } else { assert a[i] == s[i]; }
    }
  }

  /** One box: no overlap changes nothing; an overlap records its side, ends clear of the box,
      and sets the flags as the side says. */
  lemma ResolveOneSpec(w: World, hit: bool, b: Rect)
    ensures var r := ResolveOne(w, hit, b);
      && (!Overlaps(w.player, b) ==> r == Resolution(w, []))
      && (Overlaps(w.player, b) ==>
            && r.sides == [r.world.colDir]
            && !Overlaps(r.world.player, b)
            && Along(w.player, r.world.player, r.world.colDir)
            && r.world == w.(player := r.world.player, vy := r.world.vy, canJump := r.world.canJump,
                             colDir := r.world.colDir, gameOver := r.world.gameOver)
            && (r.world.gameOver <==> w.gameOver || (hit && r.world.colDir == Down))
            && (r.world.canJump <==> w.canJump || r.world.colDir != Down)
            && r.world.vy == if Vertical(r.world.colDir) then 0 else w.vy)
  {
    if Overlaps(w.player, b) {
      var d := Side(w.player, w.vx, w.vy, b);
      PushOutClears(w.player, b, d, NudgeFor(d));
      PushOutAlong(w.player, b, d, NudgeFor(d));
    }
  }

  /** The box loop resolves at most one side per box, changes only the player, vy and the flags,
      changes nothing when no box was hit, leaves colDir at the last side resolved, and leaves
      the player clear of the last box. */
  lemma {:induction false} ResolveAllFrame(w: World, hit: bool, bs: seq<Box>)
    ensures var r := ResolveAll(w, hit, bs);
      && |r.sides| <= |bs|
      && r.world.player.width == w.player.width && r.world.player.height == w.player.height
      && r.world == w.(player := r.world.player, vy := r.world.vy, canJump := r.world.canJump,
                       colDir := r.world.colDir, gameOver := r.world.gameOver)
      && (r.sides == [] ==> r.world == w)
      && (r.sides != [] ==> r.world.colDir == r.sides[|r.sides| - 1])
      && (bs != [] ==> !Overlaps(r.world.player, bs[|bs| - 1].rect))
    decreases |bs|
  {
    if bs != [] {
      var first := ResolveOne(w, hit, bs[0].rect);
      ResolveOneSpec(w, hit, bs[0].rect);
      ResolveAllFrame(first.world, hit, bs[1..]);
      if |bs| > 1 {
        assert bs[1..][|bs[1..]| - 1] == bs[|bs| - 1];
      }
    }
  }

  /** The flags after the box loop: gameOver is set exactly when a hit was recorded and some box
      was resolved Down; canJump is set exactly when some box was resolved other than Down;
      vertical motion stops exactly when some box was resolved Up or Down. */
  lemma {:induction false} ResolveAllFlags(w: World, hit: bool, bs: seq<Box>)
    ensures var r := ResolveAll(w, hit, bs);
      && (r.world.gameOver <==> w.gameOver || (hit && Down in r.sides))
      && (r.world.canJump <==> w.canJump || SomeNotDown(r.sides))
      && r.world.vy == if SomeVertical(r.sides) then 0 else w.vy
    decreases |bs|
  {
    if bs != [] {
      var first := ResolveOne(w, hit, bs[0].rect);
      var rest := ResolveAll(first.world, hit, bs[1..]);
      ResolveOneSpec(w, hit, bs[0].rect);
      ResolveAllFlags(first.world, hit, bs[1..]);
      SidesConcat(first.sides, rest.sides);
      if first.sides != [] {
        assert SomeNotDown(first.sides) <==> first.sides[0] != Down;
        assert SomeVertical(first.sides) <==> Vertical(first.sides[0]);
      }
    }
  }
}

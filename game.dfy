/** One physics tick of the game loop in main (src/test.c:88-239), as a specification function
    Tick with its lemmas, and as the imperative Game.Step that updates the state in place. */
module Game {
  import opened Config
  import opened Geometry
  import opened Boxes
  import opened Kinematics
  import opened Collision

  datatype Option<T> = None | Some(value: T)

  /** What a tick reads from outside: the A, D and W keys, and, when the spawn timer has
      fired, the random values for the new box. */
  datatype Input = Input(left: bool, right: bool, jump: bool, spawn: Option<SpawnDraw>)

  predicate ValidInput(inp: Input) {
    inp.spawn.Some? ==> ValidDraw(inp.spawn.value)
  }

  /** The ground rectangle set up in main. */
  function GroundRect(): Rect {
    Rect(0, (ScreenHeightPx - 50) * Px, ScreenWidth, ScreenHeight)
  }

  /** The shapes a tick keeps: the player's size and every box's size and non-negative speed. */
  predicate WorldValid(w: World) {
    && w.player.width == PlayerWidth && w.player.height == PlayerHeight
    && AllWellFormed(w.boxes)
  }

  // ---------------------------------------------------------------- jump

  /** src/test.c:217-225: with the W key held and canJump set, the player jumps; a jump off a
      wall (colDir Right or Left) also kicks it horizontally by twice the jump speed. */
  function Jump(w: World, jump: bool): (r: World)
    ensures !(jump && w.canJump) ==> r == w
    ensures jump && w.canJump ==> r == w.(vx := r.vx, vy := -PlayerJumpSpeed)
    ensures jump && w.canJump && w.colDir == Right ==> r.vx == w.vx + 2 * PlayerJumpSpeed
    ensures jump && w.canJump && w.colDir == Left ==> r.vx == w.vx - 2 * PlayerJumpSpeed
    ensures jump && w.canJump && Vertical(w.colDir) ==> r.vx == w.vx
  {
    if jump && w.canJump then
      var vx := if w.colDir == Right then w.vx + PlayerJumpSpeed * 2
                else if w.colDir == Left then w.vx - PlayerJumpSpeed * 2
                else w.vx;
      w.(vy := 0 - PlayerJumpSpeed, vx := vx)
    else
      w
  }

  // ---------------------------------------------------------------- score

  /** How far the player's bottom edge is above the ground's top, in units. */
  function Height(p: Rect, ground: Rect): int {
    ground.y - (p.y + p.height)
  }

  /** C's conversion of a pixel count (here given in units) to int: truncation toward zero. */
  function TruncPx(h: int): (r: int)
    ensures h >= 0 ==> r * Px <= h < (r + 1) * Px
    ensures h < 0 ==> (r - 1) * Px < h <= r * Px
  {
    if h >= 0 then h / Px else -((-h) / Px)
  }

  /** src/test.c:228-230: the score is replaced when the height, in pixels, exceeds it. */
  function NextScore(score: int, h: int): (r: int)
    ensures r == Max(score, TruncPx(h))
  {
    if h > score * Px then TruncPx(h) else score
  }

  // ---------------------------------------------------------------- one tick

  /** The intermediate states of a tick, in the order the source produces them. */
  datatype Trace = Trace(
    settled: World,          // after spawning, velocity updates and the three box operations
    probe: Probe,            // after the pre-move probe (its hit is boxCollidePlayer)
    clamped: World,          // after integration and the screen clamp
    grounded: World,         // after the ground push-out
    resolution: Resolution,  // after the per-box loop
    after: World)            // after the jump and the score

  /** src/test.c:90-127: reset canJump, spawn a box when the timer fired (src/test.c:94-97),
      then gravity, the keys and friction. */
  function Prepare(w: World, inp: Input): (r: World)
    requires ValidInput(inp)
    ensures r == w.(canJump := false, vy := w.vy + Gravity, vx := r.vx, boxes := r.boxes)
    ensures Abs(r.vx) <= Max(Abs(w.vx), PlayerMaxSpeed + PlayerAccel)
    ensures |r.boxes| == |w.boxes| + (if inp.spawn.Some? then 1 else 0)
    ensures r.boxes[..|w.boxes|] == w.boxes
    ensures inp.spawn.Some? ==> r.boxes[|w.boxes|] == NewBox(w.player.y, inp.spawn.value)
    ensures AllWellFormed(w.boxes) ==> AllWellFormed(r.boxes)
  {
    var boxes := if inp.spawn.Some? then w.boxes + [NewBox(w.player.y, inp.spawn.value)] else w.boxes;
    w.(canJump := false, boxes := boxes, vy := w.vy + Gravity,
       vx := Friction(Accelerate(w.vx, inp.left, inp.right)))
  }

  /** src/test.c:129-132: BoxesCollide, BoxesCollideGround, MoveBoxes. */
  function Settle(w: World, ground: Rect): (r: World)
    ensures r == w.(boxes := r.boxes)
    ensures |r.boxes| == |w.boxes|
    ensures |w.boxes| > 0 ==> r.boxes[|w.boxes| - 1] == w.boxes[|w.boxes| - 1]
  {
    GroundedAt(Collided(w.boxes), ground);
    MovedAt(Grounded(Collided(w.boxes), ground));
    w.(boxes := Moved(Grounded(Collided(w.boxes), ground)))
  }

  /** src/test.c:142-150: integrate, then clamp to the screen. */
  function Advance(w: World): (r: World)
    ensures r == w.(player := r.player)
    ensures r.player == w.player.(x := r.player.x, y := w.player.y + w.vy)
    ensures 0 <= w.player.width <= ScreenWidth ==>
      0 <= r.player.x && r.player.x + r.player.width <= ScreenWidth
    ensures 0 <= w.player.x + w.vx && w.player.x + w.vx + w.player.width <= ScreenWidth ==>
      r.player.x == w.player.x + w.vx
  {
    w.(player := ClampX(w.player.(x := w.player.x + w.vx, y := w.player.y + w.vy)))
  }

  /** After the box operations, no later phase of a tick changes the box list. */
  function TickTrace(w: World, ground: Rect, inp: Input): (t: Trace)
    requires ValidInput(inp)
    ensures t.after.boxes == t.clamped.boxes == t.settled.boxes
  {
    var settled := Settle(Prepare(w, inp), ground);
    var probe := SinkAll(settled, false, settled.boxes);
    SinkAllSpec(settled, false, settled.boxes);
    var clamped := Advance(probe.world);
    var grounded := GroundContact(clamped, ground);
    var resolution := ResolveAll(grounded, probe.hit, grounded.boxes);
    ResolveAllFrame(grounded, probe.hit, grounded.boxes);
    var jumped := Jump(resolution.world, inp.jump);
    var after := jumped.(score := NextScore(jumped.score, Height(jumped.player, ground)));
    Trace(settled, probe, clamped, grounded, resolution, after)
  }

  /** One pass of the game loop: nothing happens once the game is over (the loop has exited). */
  function Tick(w: World, ground: Rect, inp: Input): (r: World)
    requires ValidInput(inp)
    ensures w.gameOver ==> r == w
    ensures |r.boxes| == |w.boxes| + (if inp.spawn.Some? && !w.gameOver then 1 else 0)
    ensures !w.gameOver && inp.spawn.Some? ==> r.boxes[|w.boxes|] == NewBox(w.player.y, inp.spawn.value)
    ensures !w.gameOver && inp.spawn.None? && |w.boxes| > 0 ==>
      r.boxes[|w.boxes| - 1] == w.boxes[|w.boxes| - 1]
  {
    if w.gameOver then w else TickTrace(w, ground, inp).after
  }

  /** The score is a running maximum: it never decreases, and after a tick it is the larger of
      the old score and the player's height in whole pixels. */
  lemma TickScore(w: World, ground: Rect, inp: Input)
    requires ValidInput(inp)
    ensures Tick(w, ground, inp).score >= w.score
    ensures !w.gameOver ==>
      Tick(w, ground, inp).score == Max(w.score, TruncPx(Height(Tick(w, ground, inp).player, ground)))
  {
    if !w.gameOver {
      var t := TickTrace(w, ground, inp);
      ResolveAllFrame(t.grounded, t.probe.hit, t.grounded.boxes);
      SinkAllSpec(t.settled, false, t.settled.boxes);
    }
  }

  /** The game ends exactly when the pre-move probe found the player inside a box and the box
      loop then resolved some box Down: the player is pinned between a box and what is below. */
  lemma TickGameOver(w: World, ground: Rect, inp: Input)
    requires ValidInput(inp) && !w.gameOver
    ensures var t := TickTrace(w, ground, inp);
      Tick(w, ground, inp).gameOver <==> t.probe.hit && Down in t.resolution.sides
  {
    var t := TickTrace(w, ground, inp);
    SinkAllSpec(t.settled, false, t.settled.boxes);
    ResolveAllFlags(t.grounded, t.probe.hit, t.grounded.boxes);
  }

  /** canJump after a tick: the player touched the ground, or some box was resolved on a side
      other than Down. A jump then sets vy to -PlayerJumpSpeed. */
  lemma TickCanJump(w: World, ground: Rect, inp: Input)
    requires ValidInput(inp) && !w.gameOver
    ensures var t := TickTrace(w, ground, inp);
      && (Tick(w, ground, inp).canJump <==>
            Overlaps(t.clamped.player, ground) || SomeNotDown(t.resolution.sides))
      && (inp.jump && Tick(w, ground, inp).canJump ==> Tick(w, ground, inp).vy == -PlayerJumpSpeed)
  {
    var t := TickTrace(w, ground, inp);
    SinkAllSpec(t.settled, false, t.settled.boxes);
    ResolveAllFlags(t.grounded, t.probe.hit, t.grounded.boxes);
  }

  /** Right after the clamp the player is inside the screen, and right after the ground
      push-out it no longer overlaps the ground. */
  lemma TickBounds(w: World, ground: Rect, inp: Input)
    requires ValidInput(inp) && WorldValid(w)
    ensures var t := TickTrace(w, ground, inp);
      && 0 <= t.clamped.player.x && t.clamped.player.x + PlayerWidth <= ScreenWidth
      && !Overlaps(t.grounded.player, ground)
  {
    var t := TickTrace(w, ground, inp);
    SinkAllSpec(t.settled, false, t.settled.boxes);
    GroundContactSpec(t.clamped, ground);
  }

  /** The box operations of a tick keep every box well formed; a spawn adds one box. */
  lemma SettleKeepsValid(w: World, ground: Rect, inp: Input)
    requires ValidInput(inp) && WorldValid(w)
    ensures var s := Settle(Prepare(w, inp), ground);
      && WorldValid(s)
      && |s.boxes| == |w.boxes| + (if inp.spawn.Some? then 1 else 0)
  {
    var p := Prepare(w, inp);
    assert AllWellFormed(p.boxes);
    DynamicsKeepWellFormed(p.boxes, ground);
    GroundedAt(Collided(p.boxes), ground);
    MovedAt(Grounded(Collided(p.boxes), ground));
  }

  /** A tick keeps the player's size and every box well formed, and adds at most the one
      spawned box. */
  lemma TickKeepsValid(w: World, ground: Rect, inp: Input)
    requires ValidInput(inp) && WorldValid(w)
    ensures WorldValid(Tick(w, ground, inp))
    ensures |Tick(w, ground, inp).boxes| == |w.boxes| + (if inp.spawn.Some? && !w.gameOver then 1 else 0)
  {
    if !w.gameOver {
      var t := TickTrace(w, ground, inp);
      SettleKeepsValid(w, ground, inp);
      SinkAllSpec(t.settled, false, t.settled.boxes);
      assert WorldValid(t.probe.world);
      assert WorldValid(t.clamped);
      GroundContactSpec(t.clamped, ground);
      assert WorldValid(t.grounded);
      ResolveAllFrame(t.grounded, t.probe.hit, t.grounded.boxes);
      assert WorldValid(t.resolution.world);
    }
  }

  /** A wall jump kicks the player the way the wall pushed it out: after a box is resolved
      Right the player moved right and a jump raises vx; after Left it moved left and a jump
      lowers vx. */
  lemma WallKickAwayFromBox(w: World, hit: bool, b: Rect)
    requires Overlaps(w.player, b)
    ensures var r := ResolveOne(w, hit, b).world;
      && (r.colDir == Right ==> w.vx < 0 && r.player.x > w.player.x && Jump(r, true).vx > r.vx)
      && (r.colDir == Left ==> w.vx > 0 && r.player.x < w.player.x && Jump(r, true).vx < r.vx)
  {
    ResolveOneSpec(w, hit, b);
    var d := Side(w.player, w.vx, w.vy, b);
    PushOutAlong(w.player, b, d, NudgeFor(d));
  }

  /** A player standing still on the ground with no key held, no box, no spawn and the game
      running: gravity sinks it 0.0005 px into the ground, the 0.01 px nudge lifts it out, so
      it ends 0.0095 px above where it stood, at rest, tagged Down and able to jump. */
  lemma TickAtRest(w: World)
    requires !w.gameOver && w.boxes == []
    requires w.vx == 0 && w.vy == 0
    requires w.player == Rect(w.player.x, GroundRect().y - PlayerHeight, PlayerWidth, PlayerHeight)
    requires 0 <= w.player.x <= ScreenWidth - PlayerWidth
    ensures var r := Tick(w, GroundRect(), Input(false, false, false, None));
      && r.player == w.player.(y := w.player.y - (FineNudge - Gravity))
      && r.vx == 0 && r.vy == 0 && r.canJump && r.colDir == Down
      && r.score == Max(w.score, 0)
  {
    var ground := GroundRect();
    var t := TickTrace(w, ground, Input(false, false, false, None));
    var sunk := w.player.(y := w.player.y + Gravity);
    assert t.clamped.player == sunk;
    assert Overlaps(sunk, ground);
    var lifted := Move(sunk, Up, FineNudge);
    assert !Overlaps(lifted, ground);
    assert PushOut(sunk, ground, Up, FineNudge) == lifted;
  }

  /** The state main keeps across iterations of its loop. The box list is the global `boxes`. */
  class Game {
    var player: Rect
    var vx: int
    var vy: int
    var canJump: bool
    var colDir: Direction
    var gameOver: bool
    var score: int
    const ground: Rect
    const registry: BoxList

    function State(): World
      reads this, registry
    {
      World(player, vx, vy, canJump, colDir, gameOver, score, registry.boxes)
    }

    ghost predicate Valid()
      reads this, registry
    {
      ground == GroundRect() && WorldValid(State())
    }

    /** The set-up in main (src/test.c:56-86). colDir starts uninitialised in the source and is
        never read before a tick sets it; Down stands for that value here. */
    constructor ()
      ensures Valid() && fresh(registry)
      ensures State() == World(Rect(213 * Px, 510 * Px, PlayerWidth, PlayerHeight),
                               0, 0, false, Down, false, 0, [])
    {
      ground := GroundRect();
      player := Rect(ScreenWidth / 2 - PlayerWidth / 2, ScreenHeight - 50 * Px - PlayerHeight,
                     PlayerWidth, PlayerHeight);
      vx, vy := 0, 0;
      canJump, colDir, gameOver := false, Down, false;
      score := 0;
      registry := new BoxList();
    }

    /** The pre-move probe (src/test.c:134-140): push the player down out of every box it is
        inside, stopping its vertical motion; returns boxCollidePlayer.
        An internal phase of Step: its ensures gives the whole new state, and Step restores
        Valid() afterwards, so the class invariant is not carried here. */
    method ProbeBoxes(bs: seq<Box>) returns (hit: bool)
      modifies this
      ensures Probe(State(), hit) == SinkAll(old(State()), false, bs)
    {
      hit := false;
      var i := 0;
      while i < |bs|
        invariant 0 <= i <= |bs| && registry.boxes == old(registry.boxes)
        invariant SinkAll(State(), hit, bs[i..]) == SinkAll(old(State()), false, bs)
      {
        ghost var before, hitBefore := State(), hit;
        var moved;
        player, moved := NudgeOut(player, bs[i].rect, Down, CoarseNudge);
        if moved {
          vy := 0;
          hit := true;
        }
        assert bs[i..][1..] == bs[i + 1..];
        assert Probe(State(), hit) == SinkOne(before, hitBefore, bs[i].rect);
        i := i + 1;
      }
    }

    /** The per-box loop (src/test.c:165-214): for every box the player overlaps, classify the
        side, push the player out that way, and update vy, canJump, colDir and gameOver.
        An internal phase of Step: its ensures gives the whole new state, and Step restores
        Valid() afterwards, so the class invariant is not carried here. */
    method ResolveBoxes(bs: seq<Box>, hit: bool)
      modifies this
      ensures State() == ResolveAll(old(State()), hit, bs).world
    {
      var i := 0;
      while i < |bs|
        invariant 0 <= i <= |bs| && registry.boxes == old(registry.boxes)
        invariant ResolveAll(State(), hit, bs[i..]).world == ResolveAll(old(State()), hit, bs).world
      {
        ghost var before := State();
        var b := bs[i].rect;
        if Overlaps(player, b) {
          colDir := Side(player, vx, vy, b);
          var moved;
          player, moved := NudgeOut(player, b, colDir, NudgeFor(colDir));
          if Vertical(colDir) {
            vy := 0;
          }
          if colDir != Down {
            canJump := true;
          }
          if hit && colDir == Down {
            gameOver := true;
          }
        }
        assert bs[i..][1..] == bs[i + 1..];
        assert State() == ResolveOne(before, hit, b).world;
        i := i + 1;
      }
    }

    /** src/test.c:152-162: push the player up out of the ground.
        An internal phase of Step: its ensures gives the whole new state, and Step restores
        Valid() afterwards, so the class invariant is not carried here. */
    method LandOnGround()
      modifies this
      ensures State() == GroundContact(old(State()), ground)
    {
      if Overlaps(player, ground) {
        var moved;
        player, moved := NudgeOut(player, ground, Up, FineNudge);
        vy := 0;
        canJump := true;
        colDir := Down;
      }
    }

    /** src/test.c:216-230: the jump, then the running-maximum score.
        An internal phase of Step: its ensures gives the whole new state, and Step restores
        Valid() afterwards, so the class invariant is not carried here. */
    method JumpAndScore(jump: bool)
      modifies this
      ensures var j := Jump(old(State()), jump);
        State() == j.(score := NextScore(j.score, Height(j.player, ground)))
    {
      if jump && canJump {
        vy := 0;
        vy := vy - PlayerJumpSpeed;
        if colDir == Right {
          vx := vx + PlayerJumpSpeed * 2;
        } else if colDir == Left {
          vx := vx - PlayerJumpSpeed * 2;
        }
      }
      if ground.y - (player.y + player.height) > score * Px {
        score := TruncPx(ground.y - (player.y + player.height));
      }
    }

    /** src/test.c:90-132: reset canJump, spawn a box when the timer fired, apply gravity, the
        keys and friction, then BoxesCollide, BoxesCollideGround and MoveBoxes. */
    method PrepareAndSettle(inp: Input)
      requires Valid() && ValidInput(inp)
      modifies this, registry
      ensures State() == Settle(Prepare(old(State()), inp), ground)
    {
      ghost var start := State();
      canJump := false;
      if inp.spawn.Some? {
        registry.SpawnBox(player.y, inp.spawn.value);
      }

      vy := vy + Gravity;
      vx := Accelerate(vx, inp.left, inp.right);
      vx := Friction(vx);
      assert State() == Prepare(start, inp);

      registry.BoxesCollide();
      registry.BoxesCollideGround(ground);
      registry.MoveBoxes();
    }

    /** One pass of main's loop with the physics gate open. */
    method Step(inp: Input)
      requires Valid() && ValidInput(inp)
      modifies this, registry
      ensures Valid()
      ensures State() == Tick(old(State()), ground, inp)
      ensures score >= old(score)
      ensures old(gameOver) ==> State() == old(State())
    {
      if gameOver {
        return;
      }
      ghost var start := State();
      ghost var t := TickTrace(start, ground, inp);

      PrepareAndSettle(inp);
      assert State() == t.settled;

      var hit := ProbeBoxes(registry.boxes);
      assert State() == t.probe.world && hit == t.probe.hit;

      player := player.(x := player.x + vx, y := player.y + vy);
      player := ClampX(player);
      assert State() == t.clamped;

      LandOnGround();
      assert State() == t.grounded;

      ResolveBoxes(registry.boxes, hit);
      assert State() == t.resolution.world;

      JumpAndScore(inp.jump);
      assert State() == t.after;
      assert t.after == Tick(start, ground, inp);
      TickKeepsValid(start, ground, inp);
      TickScore(start, ground, inp);
    }
  }
}

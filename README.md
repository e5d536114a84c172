# Avalanche-clone physics core in Dafny

A model of the physics in `src/test.c`, a small raylib platformer. A player rectangle
falls under gravity, is steered with the A and D keys, jumps with W, and dodges or
climbs boxes that fall from above. The game ends when a falling box pins the player
against what lies below it. The score is the greatest height, in whole pixels, the
player has reached above the ground.

The model covers two parts:

- The falling-box registry: `SpawnBox`, `MoveBoxes`, `BoxesCollide` and
  `BoxesCollideGround`. The source keeps the boxes in a global, append-only singly
  linked list. Here a `BoxList` object owns them as a sequence in spawn order, and the
  methods update it in place with the same loops.
- One physics tick of `main`'s loop: gravity, key-gated acceleration, friction, the box
  operations, the pre-move probe, integration, the screen clamp, the ground push-out,
  the per-box collision-side classification and push-out, the `canJump` and `gameOver`
  rules, the jump with its wall kick, and the running-maximum score. `Game.Step` does
  this in place on a `Game` object. The pure function `Tick` specifies it, phase by
  phase, and the lemmas state what a tick promises.

Positions and speeds are integers in fixed-point units of 1/10000 px (`Config.Px`).
Every constant the physics uses is a whole number of units: gravity 5, friction 10,
acceleration 20, maximum speed 3000, jump speed 3500, the 0.01 px and 0.1 px nudges 100
and 1000, and box speeds 1000 to 3000. So the nudge loops terminate by an integer measure.

Modules, in dependency order: `Config` (constants), `Geometry` (rectangles, the overlap
test, the nudge loop), `Boxes` (the registry), `Kinematics` (acceleration, friction,
clamp), `Collision` (probe, ground, side classification, box loop), `Game` (jump, score,
the tick and the `Game` class).

Rectangle overlap is raylib's `CheckCollisionRecs`, whose source is not part of this
model. `Geometry.Overlaps` is the strict axis-aligned test it performs: rectangles that
only share an edge do not collide.

Behaviour of the code that the model keeps as written:

- `MoveBoxes`, `BoxesCollide` and `BoxesCollideGround` loop while `iter->next != NULL`.
  They never touch the box that is currently last, so the newest box hangs still until
  the next spawn. The probe and the per-box loop in `main` visit every box.
- `BoxesCollide` is one in-place pass over ordered pairs. Two distinct overlapping
  boxes, neither of them the last, each end the pass no faster than the slower of the
  two was (`Boxes.CollidedSlowsOverlapping`). In a chain of touching boxes the minimum
  speed does not always spread in one tick, so two overlapping boxes can end a tick with
  different speeds (`Boxes.CollidedMayLeaveOverlapUneven`). A box that overlaps no other
  box before the last keeps its speed (`Boxes.CollidedKeepsIsolated`).
- After a wall contact tagged `LEFT` (player moving right into a box's left face), a
  jump lowers vx by twice the jump speed, so the kick points away from the wall. `RIGHT`
  raises it (`Game.WallKickAwayFromBox`).
- The screen bound on x holds right after the clamp (`Game.TickBounds`). The horizontal
  push-out out of a box comes later in the tick and is not bounded by the screen, so
  the player can end a tick partly outside it. Pushes out of several boxes add up, so
  the overshoot is not limited to one 0.1 px step. The model states no bound on it.
- `gameOver` needs `boxCollidePlayer`, which only the pre-move probe sets. Touching the
  ground does not set it.
- The score is compared as a float and stored through a float-to-int conversion, which
  truncates toward zero (`Game.TruncPx`).

## Model

| member | source | states |
|---|---|---|
| `Geometry.OverlapsSymmetric` | src/test.c:322 | The overlap test does not depend on the order of its two rectangles. |
| `Geometry.PushOutClears` | src/test.c:185-205 | A nudge loop always ends with the player clear of the obstacle. |
| `Geometry.PushOutAlong` | src/test.c:135-139 | A nudge loop moves the player only along its direction, only that way, and only when it started overlapping. |
| `Geometry.PushOutFirstClear` | src/test.c:155-157 | A nudge loop stops at the first clear position: one nudge back still overlaps. |
| `Geometry.NudgeOut` | src/test.c:185-205 | The `while (CheckCollisionRecs(...))` nudge loop computes `PushOut`, ends clear of the obstacle, and reports whether its body ran. |
| `Boxes.NewBox` | src/test.c:265-274 | A spawned box starts three screen heights above the player. It lies within the screen width, its sides are 30 to 200 px, and its speed is 0.1, 0.2 or 0.3 px per tick. |
| `Boxes.BoxList.constructor` | src/test.c:39 | The list starts empty. |
| `Boxes.BoxList.SpawnBox` | src/test.c:276-284 | The list grows by exactly the new box, at the tail. Earlier boxes are unchanged and every box stays well formed. |
| `Boxes.MovedAt` | src/test.c:299-309 | `MoveBoxes` adds each box's speed to its y, except for the last box, which is unchanged. Nothing else changes. |
| `Boxes.BoxList.MoveBoxes` | src/test.c:299-309 | The list walk leaves the list as `Moved` of the old list, and every box stays well formed. |
| `Boxes.GroundedAt` | src/test.c:334-346 | `BoxesCollideGround` sets speed to 0 on exactly the non-last boxes that overlap the ground. No rectangle and no other speed changes. |
| `Boxes.GroundedIdempotent` | src/test.c:334-346 | Applying `BoxesCollideGround` twice gives the same list as applying it once. |
| `Boxes.BoxList.BoxesCollideGround` | src/test.c:334-346 | The list walk leaves the list as `Grounded` of the old list, and every box stays well formed. |
| `Boxes.ClampPair` | src/test.c:322-327 | One comparison keeps the list's length. When boxes i and j are distinct and overlap, both end at the smaller of their two speeds. |
| `Boxes.ClampPairSpec` | src/test.c:322-327 | One comparison gives two distinct overlapping boxes the smaller of their two speeds. It moves no rectangle, raises no speed and touches no other box. |
| `Boxes.InnerPass` | src/test.c:321-329 | The inner loop for a box before the last keeps the list's length and never touches the last box. |
| `Boxes.InnerPassClamps` | src/test.c:321-329 | Once the inner loop for box i reaches an overlapping box j, it leaves both no faster than the slower of the two. |
| `Boxes.InnerPassSpec` | src/test.c:321-329 | The inner loop moves no rectangle, raises no speed and introduces no new speed. |
| `Boxes.OuterPass` | src/test.c:319-331 | The outer loop keeps the list's length and never touches the last box. |
| `Boxes.OuterPassClamps` | src/test.c:319-331 | Once the outer loop reaches box i, every overlapping pair i, j ends it no faster than the slower of the two. Both boxes must come before the last. |
| `Boxes.OuterPassSpec` | src/test.c:319-331 | The outer loop moves no rectangle, raises no speed and introduces no new speed. |
| `Boxes.CollidedSpec` | src/test.c:311-332 | `BoxesCollide` never raises a speed or moves a rectangle. Every resulting speed is one some box had before, and the last box is untouched. `Boxes.CollidedKeepsIsolated` states the rest of the frame. |
| `Boxes.InnerPassKeeps` | src/test.c:321-329 | The inner loop never writes a box that overlaps no other box before the last. |
| `Boxes.OuterPassKeeps` | src/test.c:319-331 | The outer loop never writes a box that overlaps no other box before the last. |
| `Boxes.CollidedKeepsIsolated` | src/test.c:322-326 | A speed is written only for an overlapping pair: a box that overlaps no other box before the last leaves `BoxesCollide` unchanged. |
| `Boxes.CollidedMayLeaveOverlapUneven` | src/test.c:311-332 | Three chained boxes at speeds 3, 2 and 1 are followed by a fourth, far-away last box that the pass skips. Boxes 0 and 1 overlap yet end the pass at speeds 2 and 1. |
| `Boxes.CollidedSlowsOverlapping` | src/test.c:311-332 | `BoxesCollide` slows overlapping boxes: two distinct overlapping boxes, neither of them the last, each end no faster than the slower of the two was. |
| `Boxes.BoxList.CollideWith` | src/test.c:321-329 | The inner list walk for box i leaves the list as `InnerPass` of the old list from position 0. |
| `Boxes.BoxList.BoxesCollide` | src/test.c:311-332 | The nested list walks leave the list as `Collided` of the old list, and every box stays well formed. |
| `Boxes.CollidedKeepsWellFormed` | src/test.c:311-332 | After `BoxesCollide` every box still has its drawn size and a non-negative speed. |
| `Boxes.DynamicsKeepWellFormed` | src/test.c:129-132 | The three box operations of a tick keep every box well formed. |
| `Kinematics.Accelerate` | src/test.c:102-112 | A held key changes vx by at most one acceleration step towards its side, and only while vx is below the maximum speed. Vx already at or above the maximum is unchanged. |
| `Kinematics.Friction` | src/test.c:114-127 | Friction never raises vx in absolute value and never flips its sign. It lowers the absolute value by exactly the friction constant, or to 0 when vx is no larger than that constant. |
| `Kinematics.ClampX` | src/test.c:145-150 | Only x changes. A rectangle no wider than the screen ends inside it, and one already inside does not move. |
| `Collision.SinkOne` | src/test.c:135-139 | For one box, the player ends clear of it. If it overlapped, the player moved only down, vy is 0 and the hit is recorded. Otherwise nothing changes. |
| `Collision.SinkAllSpec` | src/test.c:133-140 | The pre-move probe only pushes the player down. It reports a hit exactly when it moved the player, in which case vy is 0, and the player ends clear of the last box. |
| `Collision.GroundContactSpec` | src/test.c:152-162 | After the ground step the player does not overlap the ground. If it did before, only y changed, and the player rose to the first clear position. Vy is then 0, canJump is set and colDir is Down. |
| `Collision.Side` | src/test.c:167-181 | The hit is horizontal exactly when undoing this tick's x motion clears the overlap. LEFT needs rightward motion and RIGHT leftward. UP needs falling, and DOWN means not falling. |
| `Collision.ResolveOne` | src/test.c:166-213 | One box resolves at most one side, resolves one exactly when the player overlaps it, and leaves the player clear of it. |
| `Collision.ResolveOneSpec` | src/test.c:166-213 | One overlapping box records its side and pushes the player clear of it along that side. Vy is zeroed for UP and DOWN. CanJump is set unless the side is DOWN, and gameOver is set when the side is DOWN after a probe hit. |
| `Collision.ResolveAllFrame` | src/test.c:164-214 | The box loop resolves at most one side per box and changes only the player's position, vy and the flags. ColDir ends as the last side resolved, and the player ends clear of the last box. |
| `Collision.ResolveAllFlags` | src/test.c:207-212 | After the box loop, gameOver is set exactly when the probe hit and some box was resolved DOWN. CanJump is set exactly when some box was resolved another way. Vy is 0 exactly when some box was resolved UP or DOWN. |
| `Game.Jump` | src/test.c:216-225 | Jump and canJump together set vy to minus the jump speed. RIGHT adds twice the jump speed to vx, LEFT subtracts it, and other tags leave vx alone. Otherwise nothing changes. |
| `Game.TruncPx` | src/test.c:229 | Converting a height to whole pixels truncates toward zero. |
| `Game.NextScore` | src/test.c:227-230 | The new score is the maximum of the old score and the current height in whole pixels. |
| `Game.Prepare` | src/test.c:90-127 | Before the box operations, canJump is reset and gravity is added to vy. Vx stays within the maximum speed plus one acceleration step unless it was already faster. The list only grows by the spawned box, at the tail, and stays well formed. The player, colDir, gameOver and the score are unchanged. |
| `Game.Settle` | src/test.c:129-132 | The three box operations change only the box list. They keep its length and leave its newest box untouched. |
| `Game.Advance` | src/test.c:142-150 | Integration and the clamp change only the player. Y moves by vy, the size stays, the player ends inside the screen, and x moves by exactly vx when that stays inside. |
| `Game.TickTrace` | src/test.c:88-230 | After the box operations, no later phase of the tick changes the box list. |
| `Game.Tick` | src/test.c:88-239 | Nothing changes once the game is over. Otherwise the list grows by exactly the spawned box. A box spawned this tick ends it untouched, as `NewBox` made it. Without a spawn, the newest box does not move. |
| `Game.TickScore` | src/test.c:227-230 | A tick never lowers the score. After a tick the score is the running maximum of the player's height. |
| `Game.TickGameOver` | src/test.c:210-211 | A tick ends the game exactly when the pre-move probe found the player inside a box and a box was then resolved DOWN. |
| `Game.TickCanJump` | src/test.c:160-225 | After a tick, canJump holds exactly when the player touched the ground or a box was resolved other than DOWN. A jump then leaves vy at minus the jump speed. |
| `Game.TickBounds` | src/test.c:145-162 | Right after the clamp the player is within the screen. Right after the ground step it does not overlap the ground. |
| `Game.SettleKeepsValid` | src/test.c:94-132 | Spawning and the box operations keep every box well formed and add exactly the spawned box. |
| `Game.TickKeepsValid` | src/test.c:93-239 | A tick keeps the player's size and every box well formed, and adds at most the one spawned box. |
| `Game.WallKickAwayFromBox` | src/test.c:196-223 | After a RIGHT or LEFT box contact, the push-out and a following jump's kick both go the same way, away from the box. |
| `Game.TickAtRest` | src/test.c:99-162 | With no boxes, no spawn and the game running, a player standing still on the ground with no key held ends a tick 0.0095 px higher. It is then at rest, tagged DOWN and able to jump. |
| `Game.Game.constructor` | src/test.c:56-86 | This is the initial state of `main`: the player is centred and standing on the ground, motionless, with no boxes, score 0 and the game not over. |
| `Game.Game.PrepareAndSettle` | src/test.c:90-132 | Spawning, the velocity updates and the three box operations leave the state as `Settle` of `Prepare` says. |
| `Game.Game.ProbeBoxes` | src/test.c:134-140 | The probe loop leaves the state and `boxCollidePlayer` as `SinkAll` says. |
| `Game.Game.LandOnGround` | src/test.c:152-162 | The ground block leaves the state as `GroundContact` says. |
| `Game.Game.ResolveBoxes` | src/test.c:165-214 | The per-box loop leaves the state as `ResolveAll` says. |
| `Game.Game.JumpAndScore` | src/test.c:216-230 | The jump and score blocks leave the state as `Jump`, then `NextScore`, say. |
| `Game.Game.Step` | src/test.c:88-230 | One tick updates the state to `Tick` of the old state. It keeps the invariants and never lowers the score. Once the game is over, it changes nothing. |

## Left out

- Window lifecycle, drawing and text: `InitWindow`, the render block, `DrawBoxes` and the wait loop after game over. These are raylib I/O with nothing to state.
- The wall-clock gate and the spawn timer (`GetTime`). One `Step` is one tick with the gate open (`1 / 60` is integer division, so the gate only asks that time has advanced). Whether the spawn timer fired, and the values `GetRandomValue` returns, arrive as `Input.spawn`. Their ranges are stated as `ValidDraw`.
- The keys (`IsKeyDown`) arrive as the booleans `Input.left`, `Input.right` and `Input.jump`.
- Box colour, which is cosmetic.
- `MemAlloc`, the `next` pointers and the walk to the tail in `SpawnBox`. These are replaced by an owned sequence, and appending to it is the effect of that walk.
- Camera damping (src/test.c:232-235). This is float lag arithmetic that nothing else reads.
- IEEE-754 rounding. The model is exact fixed point at 1/10000 px. It does not capture a float step that is lost at large magnitudes, nor `player.x -= vx; ... player.x += vx` failing to restore x exactly.
- The initial value of `colDir`, which is uninitialised in the source. No tick reads it before setting it, and the constructor uses DOWN.

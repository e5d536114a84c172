/** The player's horizontal velocity rules and the screen clamp: pure arithmetic on one tick. */
module Kinematics {
  import opened Config
  import opened Geometry

  /** The A and D keys (src/test.c:103-112): each held key pushes vx by PlayerAccel towards its
      side, but only while |vx| is below PlayerMaxSpeed; D is tested after A has acted. */
  function Accelerate(vx: int, left: bool, right: bool): (r: int)
    ensures Abs(vx) >= PlayerMaxSpeed ==> r == vx
    ensures Abs(vx) < PlayerMaxSpeed ==> Abs(r) < PlayerMaxSpeed + PlayerAccel
    ensures !left && !right ==> r == vx
    ensures left && !right ==> (r == vx - PlayerAccel <==> Abs(vx) < PlayerMaxSpeed)
    ensures left && !right ==> r == vx || r == vx - PlayerAccel
    ensures right && !left ==> (r == vx + PlayerAccel <==> Abs(vx) < PlayerMaxSpeed)
    ensures right && !left ==> r == vx || r == vx + PlayerAccel
    ensures left && right ==> r == vx || r == vx - PlayerAccel
  {
    var afterLeft := if left && Abs(vx) < PlayerMaxSpeed then vx - PlayerAccel else vx;
    if right && Abs(afterLeft) < PlayerMaxSpeed then afterLeft + PlayerAccel else afterLeft
  }

  /** Friction (src/test.c:115-127): vx moves PlayerFriction towards zero, stopping at zero. */
  function Friction(vx: int): (r: int)
    ensures Abs(r) <= Abs(vx)
    ensures (vx >= 0 ==> r >= 0) && (vx <= 0 ==> r <= 0)
    ensures Abs(vx) - Abs(r) <= PlayerFriction
    ensures Abs(vx) <= PlayerFriction ==> r == 0
    ensures Abs(vx) >= PlayerFriction ==> Abs(r) == Abs(vx) - PlayerFriction
  {
    if vx > 0 then
      if vx < PlayerFriction then 0 else vx - PlayerFriction
    else if vx < 0 then
      if vx > -PlayerFriction then 0 else vx + PlayerFriction
    else
      vx
  }

  /** The screen clamp (src/test.c:146-150): only x changes; a rectangle no wider than the
      screen ends inside it, and one already inside stays where it is. */
  function ClampX(p: Rect): (r: Rect)
    ensures r == p.(x := r.x)
    ensures 0 <= p.width <= ScreenWidth ==> 0 <= r.x && r.x + r.width <= ScreenWidth
    ensures 0 <= p.x && p.x + p.width <= ScreenWidth ==> r == p
    ensures p.x < 0 ==> r.x == 0
    ensures p.x >= 0 && p.x + p.width > ScreenWidth ==> r.x + r.width == ScreenWidth
  {
    if p.x < 0 then p.(x := 0)
    else if p.x + p.width > ScreenWidth then p.(x := ScreenWidth - p.width)
    else p
  }
}

/** Rectangles, raylib's overlap test, and the nudge loops that push one rectangle out of another. */
module Geometry {
  /** An axis-aligned rectangle (raylib's Rectangle) in fixed-point units; y grows downward. */
  datatype Rect = Rect(x: int, y: int, width: int, height: int)

  /** raylib's CheckCollisionRecs, whose source is not part of this model: the strict
      axis-aligned overlap test, so rectangles that only share an edge do not collide. */
  predicate Overlaps(a: Rect, b: Rect) {
    && a.x < b.x + b.width && b.x < a.x + a.width
    && a.y < b.y + b.height && b.y < a.y + a.height
  }

  lemma OverlapsSymmetric(a: Rect, b: Rect)
    ensures Overlaps(a, b) <==> Overlaps(b, a)
  {
  }

  /** enum Direction. As a collision tag it names the side the player is pushed out to,
      and the push-out loop moves the player that way: Up and Down move y, Left and Right move x. */
  datatype Direction = Right | Left | Up | Down

  /** p moved by `step` units towards d (a negative step moves it the other way). */
  function Move(p: Rect, d: Direction, step: int): Rect {
    match d
    case Right => p.(x := p.x + step)
    case Left => p.(x := p.x - step)
    case Up => p.(y := p.y - step)
    case Down => p.(y := p.y + step)
  }

  /** How far p still reaches into o when seen from direction d; positive while they overlap. */
  function Depth(p: Rect, o: Rect, d: Direction): int {
    match d
    case Right => o.x + o.width - p.x
    case Left => p.x + p.width - o.x
    case Up => p.y + p.height - o.y
    case Down => o.y + o.height - p.y
  }

  /** The effect of `while (CheckCollisionRecs(p, o)) p moves step towards d`. */
  function PushOut(p: Rect, o: Rect, d: Direction, step: int): Rect
    requires step > 0
    decreases if Overlaps(p, o) then Depth(p, o, d) else 0
  {
    if Overlaps(p, o) then PushOut(Move(p, d, step), o, d, step) else p
  }

  /** r is p moved some distance (possibly none) towards d, on d's axis only. */
  predicate Along(p: Rect, r: Rect, d: Direction) {
    match d
    case Right => r == p.(x := r.x) && r.x >= p.x
    case Left => r == p.(x := r.x) && r.x <= p.x
    case Up => r == p.(y := r.y) && r.y <= p.y
    case Down => r == p.(y := r.y) && r.y >= p.y
  }

  /** Pushing out ends clear of the obstacle. */
  lemma {:induction false} PushOutClears(p: Rect, o: Rect, d: Direction, step: int)
    requires step > 0
    ensures !Overlaps(PushOut(p, o, d, step), o)
    decreases if Overlaps(p, o) then Depth(p, o, d) else 0
  {
    if Overlaps(p, o) {
      PushOutClears(Move(p, d, step), o, d, step);
    }
  }

  /** Pushing out moves the rectangle only along d, moves it when and only when it overlapped,
      and changes nothing when it did not. */
  lemma {:induction false} PushOutAlong(p: Rect, o: Rect, d: Direction, step: int)
    requires step > 0
    ensures Along(p, PushOut(p, o, d, step), d)
    ensures Overlaps(p, o) <==> PushOut(p, o, d, step) != p
    decreases if Overlaps(p, o) then Depth(p, o, d) else 0
  {
    if Overlaps(p, o) {
      PushOutAlong(Move(p, d, step), o, d, step);
    }
  }

  /** The loop stops at the first clear position: one nudge back still overlaps. */
  lemma {:induction false} PushOutFirstClear(p: Rect, o: Rect, d: Direction, step: int)
    requires step > 0 && Overlaps(p, o)
    ensures Overlaps(Move(PushOut(p, o, d, step), d, -step), o)
    decreases Depth(p, o, d)
  {
    var q := Move(p, d, step);
    if Overlaps(q, o) {
      PushOutFirstClear(q, o, d, step);
    } else {
      assert Move(q, d, -step) == p;
    }
  }

  /** The nudge loop itself: moves p by `step` towards d while it overlaps o.
      `moved` reports whether the loop body ran at least once. */
  method NudgeOut(p: Rect, o: Rect, d: Direction, step: int) returns (r: Rect, moved: bool)
    requires step > 0
    ensures r == PushOut(p, o, d, step)
    ensures !Overlaps(r, o)
    ensures moved <==> Overlaps(p, o)
  {
    r, moved := p, false;
    while Overlaps(r, o)
      invariant PushOut(r, o, d, step) == PushOut(p, o, d, step)
      invariant !moved ==> r == p
      invariant moved ==> Overlaps(p, o)
      decreases if Overlaps(r, o) then Depth(r, o, d) else 0
    {
      r := Move(r, d, step);
      moved := true;
    }
  }
}

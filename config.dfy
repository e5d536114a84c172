/** The game's tuning constants (the #defines at the top of src/test.c), in fixed-point units.
    One pixel is Px units, so every constant the physics uses (gravity 0.0005 px,
    friction 0.001 px, the 0.01 px and 0.1 px nudges, ...) is a whole number of units. */
module Config {
  /** Fixed-point units per pixel. */
  const Px: int := 10_000

  const ScreenWidthPx: int := 450
  const ScreenHeightPx: int := 600
  const ScreenWidth: int := ScreenWidthPx * Px
  const ScreenHeight: int := ScreenHeightPx * Px

  const PlayerWidth: int := 24 * Px
  const PlayerHeight: int := 40 * Px
  /** 0.3 px per tick */
  const PlayerMaxSpeed: int := 3_000
  /** 0.002 px per tick, per tick */
  const PlayerAccel: int := 20
  /** 0.35 px per tick */
  const PlayerJumpSpeed: int := 3_500
  /** 0.001 px per tick, per tick */
  const PlayerFriction: int := 10
  /** 0.0005 px per tick, per tick */
  const Gravity: int := 5

  /** Box speeds are drawn in tenths of a pixel per tick. */
  const BoxMinSpeed: int := 1
  const BoxMaxSpeed: int := 3
  /** Box sides are drawn in whole pixels. */
  const BoxMinSizePx: int := 30
  const BoxMaxSizePx: int := 200

  /** The push-out loops move the player 0.01 px (vertical) or 0.1 px (horizontal, and
      the downward push of the pre-move probe) per iteration. */
  const FineNudge: int := 100
  const CoarseNudge: int := 1_000

  function Abs(v: int): nat {
    if v < 0 then -v else v
  }

  function Max(a: int, b: int): int {
    if a < b then b else a
  }

  function Min(a: int, b: int): int {
    if a < b then a else b
  }
}

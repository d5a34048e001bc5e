/**
 * Dropping a planet: where the pointer may be, where a drop lands, which
 * planet comes next, and the body a drop adds.
 */
module Drop {
  import opened Types
  import opened Constants
  import opened Labels
  import opened Bodies

  /** Height at which a dropped planet appears. */
  const DROP_Y: real := 50.0
  /** The pointer stays this far from either edge. */
  const POINTER_MARGIN: int := 10

  function Min(a: real, b: real): real {
    if a <= b then a else b
  }

  function Max(a: real, b: real): real {
    if a >= b then a else b
  }

  /**
   * The drop position: the pointer x clamped between the walls,
   * `max(WALL_THICKNESS, min(GAME_WIDTH - WALL_THICKNESS, x))`.
   */
  function DropX(mouseX: real): (x: real)
    ensures WALL_THICKNESS as real <= x <= (GAME_WIDTH - WALL_THICKNESS) as real
    ensures WALL_THICKNESS as real <= mouseX <= (GAME_WIDTH - WALL_THICKNESS) as real ==> x == mouseX
    ensures mouseX < WALL_THICKNESS as real ==> x == WALL_THICKNESS as real
    ensures mouseX > (GAME_WIDTH - WALL_THICKNESS) as real ==> x == (GAME_WIDTH - WALL_THICKNESS) as real
  {
    Max(WALL_THICKNESS as real, Min((GAME_WIDTH - WALL_THICKNESS) as real, mouseX))
  }

  /** The pointer x in playfield units, clamped to [10, GAME_WIDTH - 10]. */
  function PointerX(relativeX: real): (x: real)
    ensures POINTER_MARGIN as real <= x <= (GAME_WIDTH - POINTER_MARGIN) as real
    ensures POINTER_MARGIN as real <= relativeX <= (GAME_WIDTH - POINTER_MARGIN) as real ==> x == relativeX
    ensures relativeX < POINTER_MARGIN as real ==> x == POINTER_MARGIN as real
    ensures relativeX > (GAME_WIDTH - POINTER_MARGIN) as real ==> x == (GAME_WIDTH - POINTER_MARGIN) as real
  {
    Max(POINTER_MARGIN as real, Min((GAME_WIDTH - POINTER_MARGIN) as real, relativeX))
  }

  /** Clamping twice changes nothing more than clamping once. */
  lemma ClampsIdempotent(v: real)
    ensures DropX(DropX(v)) == DropX(v)
    ensures PointerX(PointerX(v)) == PointerX(v)
    ensures DropX(PointerX(v)) == DropX(v)
  {
  }

  /** `Math.floor(Math.random() * 4)`: the planet after a drop. */
  function NextSpawnIndex(roll: real): (k: nat)
    requires 0.0 <= roll < 1.0
    ensures k <= MAX_SPAWN_INDEX
  {
    (roll * 4.0).Floor
  }

  /** Each of the four spawnable ranks can come next. */
  lemma EverySpawnIndexPossible(k: nat)
    requires k <= MAX_SPAWN_INDEX
    ensures exists roll: real :: 0.0 <= roll < 1.0 && NextSpawnIndex(roll) == k
  {
    var roll := k as real / 4.0;
    assert roll * 4.0 == k as real;
    assert NextSpawnIndex(roll) == k;
  }

  /** A drop goes ahead only while playing, with an engine, and off cooldown. */
  predicate DropAllowed(gameState: GameState, hasEngine: bool, canDrop: bool)
    ensures DropAllowed(gameState, hasEngine, canDrop) ==> gameState == PLAYING
    ensures !hasEngine || !canDrop ==> !DropAllowed(gameState, hasEngine, canDrop)
  {
    gameState == PLAYING && hasEngine && canDrop
  }

  /**
   * The body a drop adds: the next planet, at the clamped pointer x and the
   * drop height, stamped with the drop time.
   */
  function DroppedBody(id: BodyId, index: nat, mouseX: real, now: int): (b: Body)
    requires index < |PLANETS|
    ensures b.id == id && RankOf(b) == Some(index) && RankInRange(b)
    ensures b.x == DropX(mouseX) && b.y == DROP_Y
    ensures WALL_THICKNESS as real <= b.x <= (GAME_WIDTH - WALL_THICKNESS) as real
    ensures b.createdAt == Some(now) && !b.isStatic && b.shape == Circle(PLANETS[index].radius)
  {
    var b := Body(id, NatToString(index), Circle(PLANETS[index].radius), false, Some(now), DropX(mouseX), DROP_Y, 0.0);
    RankLabelReadsBack(b, index);
    b
  }
}

/**
 * The game-over check the canvas runs before engine updates: a counter that
 * lets the check through on every eleventh update, and a scan of the bodies
 * that stops at the first one resting above the dead line.
 */
module GameOver {
  import opened Types
  import opened Constants
  import opened Bodies

  /** The counter must exceed this before a scan runs. */
  const CHECK_AFTER: nat := 10
  /** New bodies are exempt for this many milliseconds. */
  const GRACE_MS: int := 1000
  /** A body slower than this counts as resting. */
  const REST_SPEED: real := 0.2

  /**
   * One `beforeUpdate`: the counter goes up by one; once it exceeds ten it
   * is reset to zero and the scan runs. Returns the new counter and whether
   * the scan runs.
   */
  function Tick(timer: nat): (r: (nat, bool))
    ensures r.1 <==> timer >= CHECK_AFTER
    ensures r.1 ==> r.0 == 0
    ensures !r.1 ==> r.0 == timer + 1 && r.0 <= CHECK_AFTER
  {
    if timer + 1 > CHECK_AFTER then (0, true) else (timer + 1, false)
  }

  /** The counter after n updates of a fresh engine. */
  function CounterAfter(n: nat): nat {
    if n == 0 then 0 else Tick(CounterAfter(n - 1)).0
  }

  /** Whether the n-th update (counting from 1) of a fresh engine runs the scan. */
  predicate ScansOn(n: nat)
    requires n >= 1
  {
    Tick(CounterAfter(n - 1)).1
  }

  /** The scan runs on updates 11, 22, 33, ... and on no others. */
  lemma {:induction false} ScanEveryEleventhUpdate(n: nat)
    ensures CounterAfter(n) == n % (CHECK_AFTER + 1)
    ensures n >= 1 ==> (ScansOn(n) <==> n % (CHECK_AFTER + 1) == 0)
  {
    if n >= 1 {
      ScanEveryEleventhUpdate(n - 1);
    }
  }

  /** Created less than a second ago (a body stamped with time 0 never is). */
  predicate InGrace(b: Body, now: int)
    ensures InGrace(b, now) ==> b.createdAt.Some? && now < b.createdAt.value + GRACE_MS
    ensures b.createdAt == None || b.createdAt == Some(0) ==> !InGrace(b, now)
  {
    b.createdAt.Some? && b.createdAt.value != 0 && now - b.createdAt.value < GRACE_MS
  }

  /** A body that ends the round: a dynamic planet out of its grace period, above the line and resting. */
  predicate EndsRound(b: Body, now: int)
    ensures EndsRound(b, now) ==> b.bodyLabel != WALL_LABEL && !b.isStatic && !InGrace(b, now)
    ensures EndsRound(b, now) ==> b.y < DEAD_LINE_Y as real && b.speed < REST_SPEED
  {
    b.bodyLabel != WALL_LABEL && !b.isStatic && !InGrace(b, now) &&
    b.y < DEAD_LINE_Y as real && b.speed < REST_SPEED
  }

  /**
   * The scan: walks the bodies in the engine's order, skips walls, static
   * bodies and bodies in their grace period, and stops at the first body
   * above the dead line that is resting. `at` is where it stopped.
   */
  method Scan(bodies: seq<Body>, now: int) returns (over: bool, at: nat)
    ensures over <==> exists i :: 0 <= i < |bodies| && EndsRound(bodies[i], now)
    ensures over ==> at < |bodies| && EndsRound(bodies[at], now)
    ensures over ==> forall j :: 0 <= j < at ==> !EndsRound(bodies[j], now)
  {
    over, at := false, 0;
    while at < |bodies|
      invariant 0 <= at <= |bodies|
      invariant forall j :: 0 <= j < at ==> !EndsRound(bodies[j], now)
    {
      var body := bodies[at];
      if body.bodyLabel != WALL_LABEL && !body.isStatic {
        if body.createdAt.Some? && body.createdAt.value != 0 && now - body.createdAt.value < GRACE_MS {
          at := at + 1;
          continue;
        }
        if body.y < DEAD_LINE_Y as real && body.speed < REST_SPEED {
          over := true;
          break;
        }
      }
      at := at + 1;
    }
  }

  /**
   * A body stamped at a non-zero time cannot end the round within a second
   * of it, wherever it is and however slowly it moves; walls and static
   * bodies never can.
   */
  lemma GracePeriod(b: Body, now: int)
    ensures b.createdAt.Some? && b.createdAt.value != 0 && now < b.createdAt.value + GRACE_MS ==> !EndsRound(b, now)
    ensures b.bodyLabel == WALL_LABEL || b.isStatic ==> !EndsRound(b, now)
  {
  }
}

/**
 * The physics world as the game sees it: bodies keyed by the physics engine's
 * body id. The engine itself (motion, contacts) is outside the model; where
 * the game reads a body's current position or speed, that reading is an
 * input carried by a `Body` value.
 */
module Bodies {
  import opened Types
  import opened Constants
  import opened Labels

  type BodyId = nat

  datatype Shape = Circle(radius: nat) | Rectangle(width: nat, height: nat)

  /**
   * A body: its id, its label, its shape, whether it is static, the creation
   * time stamped in its plugin data (absent on walls), and its position and
   * speed as last read from the engine.
   */
  datatype Body = Body(
    id: BodyId,
    bodyLabel: string,
    shape: Shape,
    isStatic: bool,
    createdAt: Option<int>,
    x: real,
    y: real,
    speed: real)

  const WALL_LABEL: string := "Wall"

  /** The engine's view of one contact: the two bodies, as they are now. */
  datatype Pair = Pair(bodyA: Body, bodyB: Body)

  /** The rank a body's label parses to, NaN (`None`) for a wall. */
  function RankOf(b: Body): Option<int> {
    ParseInt(b.bodyLabel)
  }

  /** Any rank a body's label parses to names an entry of the planet table. */
  predicate RankInRange(b: Body) {
    RankOf(b).Some? ==> 0 <= RankOf(b).value < |PLANETS|
  }

  /**
   * The world the game builds: every body is stored under its own id, every
   * id was handed out before `nextId`, and every label is a wall or a rank.
   */
  predicate ValidWorld(bodies: map<BodyId, Body>, nextId: nat) {
    forall id :: id in bodies ==> bodies[id].id == id && id < nextId && RankInRange(bodies[id])
  }

  /** b is the world's body of that id (position and speed may have moved on). */
  predicate InWorld(bodies: map<BodyId, Body>, b: Body) {
    b.id in bodies &&
    var w := bodies[b.id];
    w.bodyLabel == b.bodyLabel && w.shape == b.shape && w.isStatic == b.isStatic && w.createdAt == b.createdAt
  }

  /**
   * A reading of the whole world, in the engine's order (`Composite.allBodies`):
   * every entry is a body of the world, every body of the world appears, and
   * none appears twice.
   */
  predicate AllBodiesOf(bodies: map<BodyId, Body>, snapshot: seq<Body>) {
    && (forall k :: 0 <= k < |snapshot| ==> InWorld(bodies, snapshot[k]))
    && (forall id :: id in bodies ==> exists k :: 0 <= k < |snapshot| && snapshot[k].id == id)
    && (forall j, k :: 0 <= j < k < |snapshot| ==> snapshot[j].id != snapshot[k].id)
  }

  /** A reading of the whole world is empty exactly when the world is. */
  lemma ReadingOfEmptyWorld(bodies: map<BodyId, Body>, snapshot: seq<Body>)
    requires AllBodiesOf(bodies, snapshot)
    ensures snapshot == [] <==> bodies == map[]
  {
    if bodies != map[] {
      var id :| id in bodies;
      var k :| 0 <= k < |snapshot| && snapshot[k].id == id;
    }
    if snapshot != [] {
      assert InWorld(bodies, snapshot[0]);
    }
  }

  /** A planet body of rank r carries a label that reads back as r. */
  lemma RankLabelReadsBack(b: Body, r: nat)
    requires r < |PLANETS| && b.bodyLabel == NatToString(r)
    ensures RankOf(b) == Some(r) && RankInRange(b)
  {
    ParseIntOfNatToString(r);
  }

  /** A wall has no rank. */
  lemma WallHasNoRank(b: Body)
    requires b.bodyLabel == WALL_LABEL
    ensures RankOf(b) == None && RankInRange(b)
  {
    WallIsNaN();
  }
}

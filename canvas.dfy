/**
 * The game canvas: the state it keeps between events (the world, the
 * engine's id counter, the game-over counter, the drop cooldown flag and the
 * pointer position) and the handlers that change it. Callbacks into the
 * application shell are returned as `App.Event` values, in the order the
 * canvas makes them.
 */
module GameCanvas {
  import opened Types
  import opened Constants
  import opened Labels
  import opened Bodies
  import opened Merge
  import opened GameOver
  import opened Drop
  import App

  /** The three static walls `initGame` adds, with ids first, first + 1, first + 2. */
  function Walls(first: BodyId): (w: map<BodyId, Body>)
    ensures w.Keys == {first, first + 1, first + 2}
    ensures forall id :: id in w ==> w[id].id == id && w[id].isStatic && w[id].bodyLabel == WALL_LABEL && w[id].createdAt == None
  {
    map[
      first := Body(first, WALL_LABEL, Rectangle(GAME_WIDTH as nat, WALL_THICKNESS as nat), true, None,
                    (GAME_WIDTH / 2) as real, (GAME_HEIGHT as real) + (WALL_THICKNESS as real) / 2.0, 0.0),
      first + 1 := Body(first + 1, WALL_LABEL, Rectangle(WALL_THICKNESS as nat, (GAME_HEIGHT * 2) as nat), true, None,
                        0.0 - (WALL_THICKNESS as real) / 2.0, (GAME_HEIGHT / 2) as real, 0.0),
      first + 2 := Body(first + 2, WALL_LABEL, Rectangle(WALL_THICKNESS as nat, (GAME_HEIGHT * 2) as nat), true, None,
                        (GAME_WIDTH as real) + (WALL_THICKNESS as real) / 2.0, (GAME_HEIGHT / 2) as real, 0.0)
    ]
  }

  /** A fresh world holds only walls, so no label in it has a rank. */
  lemma WallsValid(first: BodyId)
    ensures ValidWorld(Walls(first), first + 3)
    ensures forall id :: id in Walls(first) ==> RankOf(Walls(first)[id]) == None
  {
    forall id | id in Walls(first)
      ensures RankOf(Walls(first)[id]) == None
    {
      WallHasNoRank(Walls(first)[id]);
    }
  }

  class Canvas {
    /** The engine's world, by body id. */
    var bodies: map<BodyId, Body>
    /** The id the engine hands to the next body it creates. */
    var nextBodyId: nat
    /** Whether an engine has been created. */
    var hasEngine: bool
    /** The engine's `enabled` flag, cleared when the round ends. */
    var engineEnabled: bool
    /** Updates since the last game-over scan. */
    var gameOverCheckTimer: nat
    /** Cleared by a drop, set again by the cooldown timer. */
    var canDrop: bool
    /** The pointer's x in playfield units. */
    var mouseX: real

    ghost predicate Valid()
      reads this
    {
      ValidWorld(bodies, nextBodyId) &&
      gameOverCheckTimer <= CHECK_AFTER &&
      POINTER_MARGIN as real <= mouseX <= (GAME_WIDTH - POINTER_MARGIN) as real
    }

    /** Mounting: no engine yet, drops allowed, pointer in the middle. */
    constructor ()
      ensures Valid()
      ensures bodies == map[] && nextBodyId == 0 && !hasEngine && !engineEnabled
      ensures gameOverCheckTimer == 0 && canDrop && mouseX == (GAME_WIDTH / 2) as real
    {
      bodies := map[];
      nextBodyId := 0;
      hasEngine := false;
      engineEnabled := false;
      gameOverCheckTimer := 0;
      canDrop := true;
      mouseX := (GAME_WIDTH / 2) as real;
    }

    /**
     * `initGame`: drop the old world, create an engine whose world holds
     * only the three walls, and restart the game-over counter. The drop
     * cooldown flag and the pointer are left as they are.
     */
    method InitGame()
      requires Valid()
      modifies this
      ensures Valid()
      ensures bodies == Walls(old(nextBodyId)) && nextBodyId == old(nextBodyId) + 3
      ensures hasEngine && engineEnabled && gameOverCheckTimer == 0
      ensures canDrop == old(canDrop) && mouseX == old(mouseX)
    {
      var first := nextBodyId;
      bodies := Walls(first);
      nextBodyId := first + 3;
      WallsValid(first);
      hasEngine := true;
      engineEnabled := true;
      gameOverCheckTimer := 0;
    }

    /**
     * The effect on the game state: the world is rebuilt only on the way
     * back to the menu. A restart (GAME_OVER to PLAYING) keeps every body.
     */
    method GameStateChanged(gameState: GameState)
      requires Valid()
      modifies this
      ensures Valid()
      ensures gameState == MENU ==> bodies == Walls(old(nextBodyId)) && nextBodyId == old(nextBodyId) + 3 && gameOverCheckTimer == 0
      ensures gameState == MENU ==> hasEngine && engineEnabled
      ensures gameState != MENU ==> bodies == old(bodies) && nextBodyId == old(nextBodyId) && gameOverCheckTimer == old(gameOverCheckTimer)
      ensures gameState != MENU ==> hasEngine == old(hasEngine) && engineEnabled == old(engineEnabled)
      ensures canDrop == old(canDrop) && mouseX == old(mouseX)
    {
      if gameState == MENU {
        InitGame();
      }
    }

    /**
     * The collision-start handler: walks the batch of contacts in order and
     * merges as `Merge.Resolve` says, returning the score and win callbacks
     * it makes.
     */
    method CollisionStart(pairs: seq<Pair>, now: int) returns (events: seq<App.Event>)
      requires Valid() && BatchFrom(bodies, pairs)
      modifies this`bodies, this`nextBodyId
      ensures Valid()
      ensures var t := Resolve(Begin(old(bodies), old(nextBodyId)), pairs, now);
        bodies == t.bodies && nextBodyId == t.nextBodyId && events == t.events
    {
      ghost var w0, n0 := bodies, nextBodyId;
      var bodiesToRemove: set<BodyId> := {};
      ghost var merges: seq<MergeRecord> := [];
      events := [];
      var i := 0;
      assert pairs[..i] == [];
      while i < |pairs|
        invariant 0 <= i <= |pairs|
        invariant Ranked(pairs[..i])
        invariant Batch(bodies, nextBodyId, bodiesToRemove, merges, events) == Resolve(Begin(w0, n0), pairs[..i], now)
      {
        ResolveOneMore(Begin(w0, n0), pairs, i, now);
        assert FromWorld(w0, pairs[i]);
        bodiesToRemove, merges, events := MergePair(pairs[i], now, bodiesToRemove, merges, events);
        i := i + 1;
      }
      assert pairs[..i] == pairs;
      ResolveInv(w0, n0, pairs, now);
    }

    /**
     * The handler's treatment of one contact, given the ids claimed so far
     * in the batch and the callbacks made so far: merges the two bodies when
     * their labels read as the same rank and neither is claimed yet.
     */
    method MergePair(pair: Pair, now: int, bodiesToRemove: set<BodyId>, ghost merges: seq<MergeRecord>, events: seq<App.Event>)
      returns (removed: set<BodyId>, ghost merged: seq<MergeRecord>, emitted: seq<App.Event>)
      requires RankInRange(pair.bodyA) && RankInRange(pair.bodyB)
      modifies this`bodies, this`nextBodyId
      ensures Batch(bodies, nextBodyId, removed, merged, emitted) ==
        Step(Batch(old(bodies), old(nextBodyId), bodiesToRemove, merges, events), pair, now)
    {
      ghost var before := Batch(bodies, nextBodyId, bodiesToRemove, merges, events);
      removed, merged, emitted := bodiesToRemove, merges, events;
      var idA := ParseInt(pair.bodyA.bodyLabel);
      var idB := ParseInt(pair.bodyB.bodyLabel);
      if !(idA.Some? && idB.Some? && idA.value == idB.value) {
        assert !Takes(before, pair);
        return;
      }
      if pair.bodyA.id in removed || pair.bodyB.id in removed {
        assert !Takes(before, pair);
        return;
      }
      assert Takes(before, pair);
      removed := removed + {pair.bodyA.id, pair.bodyB.id};
      bodies := bodies - {pair.bodyA.id, pair.bodyB.id};
      var midX := (pair.bodyA.x + pair.bodyB.x) / 2.0;
      var midY := (pair.bodyA.y + pair.bodyB.y) / 2.0;
      var nextId := idA.value + 1;
      if nextId < |PLANETS| {
        var planetData := PLANETS[nextId];
        var newBody := Body(nextBodyId, NatToString(nextId), Circle(planetData.radius), false, Some(now), midX, midY, 0.0);
        assert newBody == MergedBody(before.nextBodyId, idA.value, pair, now);
        StepSpawning(before, pair, now);
        ghost var target := Step(before, pair, now);
        nextBodyId := nextBodyId + 1;
        bodies := bodies[newBody.id := newBody];
        emitted := emitted + [App.AddScore(PLANETS[idA.value].score * 2)];
        if planetData.name == BLACK_HOLE {
          emitted := emitted + [App.AddScore(5000), App.GameWin];
        } else {
          assert emitted == emitted + [];
        }
        merged := merged + [MergeRecord(pair, idA.value, Some(newBody))];
        assert bodies == target.bodies && nextBodyId == target.nextBodyId && removed == target.claimed;
        assert merged == target.merges && emitted == target.events;
      } else {
        StepAtTop(before, pair, now);
        merged := merged + [MergeRecord(pair, idA.value, None)];
      }
    }

    /**
     * The before-update handler: counts the update, and on every eleventh
     * scans the readings of all the world's bodies; the first body that ends
     * the round makes the game-over callback and disables the engine.
     */
    method BeforeUpdate(snapshot: seq<Body>, now: int) returns (events: seq<App.Event>)
      requires Valid()
      requires AllBodiesOf(bodies, snapshot)
      modifies this`gameOverCheckTimer, this`engineEnabled
      ensures Valid()
      ensures gameOverCheckTimer == Tick(old(gameOverCheckTimer)).0
      ensures var fired := Tick(old(gameOverCheckTimer)).1 && exists k :: 0 <= k < |snapshot| && EndsRound(snapshot[k], now);
        events == (if fired then [App.GameOver] else []) && engineEnabled == (old(engineEnabled) && !fired)
    {
      events := [];
      gameOverCheckTimer := gameOverCheckTimer + 1;
      if gameOverCheckTimer > CHECK_AFTER {
        gameOverCheckTimer := 0;
        var over, _ := Scan(snapshot, now);
        if over {
          events := [App.GameOver];
          engineEnabled := false;
        }
      }
    }

    /**
     * The click handler: while playing, with an engine and off cooldown, adds
     * the next planet at the clamped pointer x, starts the cooldown and picks
     * the following planet; otherwise does nothing.
     */
    method HandleDrop(gameState: GameState, nextPlanetIndex: nat, roll: real, now: int) returns (events: seq<App.Event>)
      requires Valid() && 0.0 <= roll < 1.0
      requires DropAllowed(gameState, hasEngine, canDrop) ==> nextPlanetIndex < |PLANETS|
      modifies this`bodies, this`nextBodyId, this`canDrop
      ensures Valid()
      ensures DropAllowed(gameState, hasEngine, old(canDrop)) ==>
        bodies == old(bodies)[old(nextBodyId) := DroppedBody(old(nextBodyId), nextPlanetIndex, mouseX, now)] &&
        nextBodyId == old(nextBodyId) + 1 && !canDrop &&
        events == [App.SetNextPlanetIndex(NextSpawnIndex(roll))]
      ensures !DropAllowed(gameState, hasEngine, old(canDrop)) ==>
        bodies == old(bodies) && nextBodyId == old(nextBodyId) && canDrop == old(canDrop) && events == []
    {
      if gameState != PLAYING || !hasEngine || !canDrop {
        return [];
      }
      canDrop := false;
      var x := DropX(mouseX);
      var planetData := PLANETS[nextPlanetIndex];
      var body := Body(nextBodyId, NatToString(nextPlanetIndex), Circle(planetData.radius), false, Some(now), x, DROP_Y, 0.0);
      assert body == DroppedBody(nextBodyId, nextPlanetIndex, mouseX, now);
      bodies := bodies[body.id := body];
      nextBodyId := nextBodyId + 1;
      var newNextIndex := NextSpawnIndex(roll);
      events := [App.SetNextPlanetIndex(newNextIndex)];
    }

    /** The 600 ms drop cooldown timer firing. */
    method DropCooldownElapsed()
      modifies this`canDrop
      ensures canDrop
    {
      canDrop := true;
    }

    /** The pointer-move handler: the pointer x, clamped to the playfield. */
    method HandleMouseMove(relativeX: real)
      requires Valid()
      modifies this`mouseX
      ensures Valid() && mouseX == PointerX(relativeX)
    {
      mouseX := PointerX(relativeX);
    }
  }
}

# Blackhole-panic (Cosmic Merge) in Dafny

A model of the game logic of Blackhole-panic, a browser game in which the
player drops planets into a box. Two touching planets of the same rank merge
into one planet of the next rank at their midpoint and score points; two Neutron
Stars make a Black Hole, which wins the game. The round ends when a planet
comes to rest above the dead line.

The model covers:

- the planet table and the playfield constants (`Constants`);
- the way a body's label is written (`Number.prototype.toString`) and read
  back (`parseInt`) (`Labels`);
- the application shell's round state and its handlers: start, restart,
  game over, win and the win banner timer (`App`, with the class
  `App.AppState`);
- the canvas (`GameCanvas.Canvas`): building the world, the collision-start
  merge handler, the before-update game-over check, the drop handler with its
  cooldown, and the pointer handler. The merge rule is specified once as the
  functions `Merge.Step` and `Merge.Resolve`. The canvas's handler is proved
  to compute exactly that, and the game's promises are proved about the
  specification: equal ranks only, each body at most once per batch, body
  counts, score and win.

The physics engine is not modelled. What the game reads from it becomes an
input. The contact pairs of one collision-start event are a `seq<Pair>`. A
`Body` value carries a body's position and speed as read at that moment. The
list of all bodies at a before-update is a `seq<Body>` holding a reading of
every body of the world, each once, in the engine's order
(`Bodies.AllBodiesOf`). The clock (`Date.now()`) is a parameter `now`. `Math.random()` is a
parameter `roll` in [0, 1). The calls the canvas makes into the shell
(`setScore`, `onGameWin`, `onGameOver`, `setNextPlanetIndex`) are returned as
`App.Event` values, in call order. `App.Run` gives their effect on the shell.

Two behaviours follow the code, whatever the screens say:

- The game-over screen reads "Tap screen to return to Title", but its click
  handler calls `restartGame`, which goes straight to `PLAYING`. The world is
  only rebuilt when the screen returns to `MENU`, so a restart keeps every body
  of the finished round. `GameCanvas.Canvas.GameStateChanged` states this.
- A win does not change the screen. Play continues and the banner is hidden
  again 5 s later.

## Model

| member | source | states |
|---|---|---|
| Constants.TableShape | constants.ts:10-22 | the table has 11 ranks and each entry's id is its index |
| Constants.RadiusStrictlyIncreasing | constants.ts:10-22 | a higher rank always has a strictly larger radius |
| Constants.ScoreIsPowerOfTwo | constants.ts:10-22 | rank i scores 2^(i+1), so each rank is worth twice the one below |
| Constants.BlackHoleIsLast | constants.ts:10-22 | the name "Black Hole" belongs to the top rank (10) and to no other |
| Constants.OnlySaturnHasRing | constants.ts:10-22 | exactly rank 4 (Saturn) has a ring; an absent flag reads as false |
| Constants.Geometry | constants.ts:5-24 | the walls leave room between them, the dead line lies inside the box, and the largest spawnable rank is a table entry |
| Labels.NatToString | components/GameCanvas.tsx:153 | a number's decimal text is non-empty and all digits |
| Labels.ParseInt | components/GameCanvas.tsx:133-134 | `parseInt` gives NaN exactly when no digit follows the optional sign; without a minus sign the value is non-negative |
| Labels.ParseIntOfNatToString | components/GameCanvas.tsx:133-153 | a label written with `toString` reads back as the same rank |
| Labels.NatToStringInjective | components/GameCanvas.tsx:153 | different ranks get different labels |
| Labels.WallIsNaN | components/GameCanvas.tsx:106-119 | the wall label "Wall" reads as NaN |
| Bodies.RankLabelReadsBack | components/GameCanvas.tsx:133-153 | a body labelled with rank r's text has rank r, which is a table entry |
| Bodies.ReadingOfEmptyWorld | components/GameCanvas.tsx:182 | a reading of all bodies leaves none out: it is empty only when the world is |
| Bodies.WallHasNoRank | components/GameCanvas.tsx:106-119 | a wall has no rank |
| App.Apply | App.tsx:13-37 | no handler moves to the menu; start and restart give playing, score 0, banner hidden, first planet below 3; every other handler keeps or raises the score |
| App.Offered | components/UIOverlay.tsx:55-81 | the Start button shows only on the menu and the Restart click only on game over, so neither is offered during play |
| App.FirstPlanetIndex | App.tsx:16 | the first planet of a round is one of the three lowest ranks |
| App.EveryFirstIndexPossible | App.tsx:16 | each of those three ranks can open a round |
| App.CanvasEventsEffect | App.tsx:9-37 | the canvas's score and win callbacks add exactly their points, show the banner on a win and change nothing else |
| App.StartMatchesRestart | App.tsx:13-25 | start and restart leave the same state from any state: playing, score 0, banner hidden, first planet at most rank 2 |
| App.ScoreOnlyGrows | App.tsx:13-37 | without a start or restart, the score rises by exactly the points added and never falls |
| App.ScreenKeptWithoutTransitions | App.tsx:13-37 | only start, restart and game over change the screen; the next planet changes only through a next-planet event |
| App.MenuNeverReentered | App.tsx:13-29 | no handler returns to the menu once it has been left |
| App.StartAcceptedOnce | components/UIOverlay.tsx:55-81 | with Start offered only on the menu and Restart only on game over, Start is accepted at most once |
| App.NextPlanetStaysSpawnable | App.tsx:13-25 | the next planet stays among ranks 0..3 as long as every next-planet event picks one of them |
| App.AppState.constructor | App.tsx:8-11 | the first render is menu, score 0, next planet 0, no banner |
| App.AppState.StartGame | App.tsx:13-18 | new state is the effect of a start |
| App.AppState.RestartGame | App.tsx:20-25 | new state is the effect of a restart |
| App.AppState.HandleGameOver | App.tsx:27-29 | only the screen changes, to game over |
| App.AppState.HandleGameWin | App.tsx:31-33 | only the banner flag changes, to shown |
| App.AppState.HideWinBanner | App.tsx:34-36 | the banner timer hides the banner and changes nothing else |
| App.AppState.AddToScore | App.tsx:9 | the score functional update adds its points and changes nothing else |
| App.AppState.SetNextPlanet | App.tsx:10 | the next-planet setter changes only the next planet |
| App.AppState.Dispatch | App.tsx:7-37 | delivering callbacks one by one has the effect of `App.Run` on them |
| Merge.MergedBody | components/GameCanvas.tsx:145-156 | a merge adds a dynamic body of the next rank, with that rank's radius, at the midpoint, stamped with the merge time |
| Merge.Step | components/GameCanvas.tsx:129-173 | one pair: a merge exactly when both labels read as the same number and neither body is claimed yet, claiming both and recording one merge; otherwise nothing changes |
| Merge.Resolve | components/GameCanvas.tsx:125-174 | the whole batch, pair by pair in order: at most one merge per pair, earlier merges kept |
| Merge.MergeScoreMatchesRule | components/GameCanvas.tsx:160-168 | the handler's award is twice the rank's score, plus 5000 exactly when the Black Hole forms (rank 9) |
| Merge.MergeEventsWorth | components/GameCanvas.tsx:158-170 | one merge's callbacks are worth 2^(r+2) (Black Hole: 2^11 + 5000) and signal a win exactly on forming the Black Hole |
| Merge.ResolveInv | components/GameCanvas.tsx:125-174 | after every prefix of a batch: the world stays valid, claims match merges, each body is in at most one merge, every record is a proper merge, counts and score match |
| Merge.ResolveGrows | components/GameCanvas.tsx:125-174 | claims only grow, earlier merges are kept, and every new merge is of one of the batch's pairs |
| Merge.ResolveMaximal | components/GameCanvas.tsx:129-141 | every pair of equal ranks in the batch either merged or met a body already claimed |
| Merge.MergeOnlyEqualRanks | components/GameCanvas.tsx:133-141 | every merge joins two bodies of the batch whose labels read as the same rank; walls never merge |
| Merge.AtMostOneMergePerBody | components/GameCanvas.tsx:138-141 | no body takes part in two merges of one batch, and the two bodies of a merge differ |
| Merge.BatchWorld | components/GameCanvas.tsx:143-157 | after a batch: merged bodies gone, one new body per merge below the top, others unchanged; body count = before − 2·merges + merges below the top |
| Merge.SpawnedBodies | components/GameCanvas.tsx:148-157 | each merge below the top adds a body of the next rank at the midpoint, stamped with the merge time, that is in the world after the batch; a top-rank merge adds nothing |
| Merge.BatchScore | components/GameCanvas.tsx:158-170 | a batch raises the score by the sum of the merges' reference gains and shows the win banner exactly when a Black Hole formed |
| GameOver.Tick | components/GameCanvas.tsx:179-181 | the counter rises by one; once it exceeds 10 it resets to 0 and the scan runs |
| GameOver.ScanEveryEleventhUpdate | components/GameCanvas.tsx:177-181 | from a fresh engine the scan runs on updates 11, 22, 33, … and on no others |
| GameOver.InGrace | components/GameCanvas.tsx:187 | a body is in its grace period only when it has a non-zero creation stamp less than 1000 ms old; walls (no stamp) never are |
| GameOver.EndsRound | components/GameCanvas.tsx:185-191 | a body ends the round only when it is not a wall, not static, out of its grace period, above the dead line and slower than 0.2 |
| GameOver.Scan | components/GameCanvas.tsx:182-197 | reports game over exactly when some body ends the round, and stops at the first such body |
| GameOver.GracePeriod | components/GameCanvas.tsx:185-190 | a body stamped at a non-zero time cannot end the round within 1000 ms; walls and static bodies never can |
| Drop.DropX | components/GameCanvas.tsx:455 | the drop x is the pointer x clamped to [50, 350], unchanged inside it |
| Drop.PointerX | components/GameCanvas.tsx:486 | the pointer x is clamped to [10, 390], unchanged inside it |
| Drop.ClampsIdempotent | components/GameCanvas.tsx:455-486 | clamping again changes nothing; clamping the pointer first does not change the drop x |
| Drop.NextSpawnIndex | components/GameCanvas.tsx:469 | the next planet is one of ranks 0..3 |
| Drop.EverySpawnIndexPossible | components/GameCanvas.tsx:469 | each of ranks 0..3 can come next |
| Drop.DropAllowed | components/GameCanvas.tsx:451 | a drop goes ahead only while playing; without an engine or during the cooldown it never does |
| Drop.DroppedBody | components/GameCanvas.tsx:455-464 | a drop adds a dynamic body of the next planet's rank and radius at the clamped pointer x (between the walls) and height 50, stamped with the drop time |
| GameCanvas.Walls | components/GameCanvas.tsx:106-122 | a new world holds three static walls labelled "Wall" under three consecutive ids |
| GameCanvas.WallsValid | components/GameCanvas.tsx:106-122 | that world is valid and no body in it has a rank |
| GameCanvas.Canvas.constructor | components/GameCanvas.tsx:28-38 | on mount: no engine, drops allowed, pointer at x 200 |
| GameCanvas.Canvas.InitGame | components/GameCanvas.tsx:82-177 | the world is replaced by the three walls, a fresh engine is enabled and the counter restarts; cooldown and pointer are kept |
| GameCanvas.Canvas.GameStateChanged | components/GameCanvas.tsx:490-494 | on entering the menu the world becomes the three walls and a fresh engine is enabled; on any other screen, a restart included, every body, the engine flags and the counter stay |
| GameCanvas.Canvas.CollisionStart | components/GameCanvas.tsx:125-174 | the new world, next id and callbacks are exactly `Merge.Resolve` of the batch |
| GameCanvas.Canvas.MergePair | components/GameCanvas.tsx:129-173 | one pair's handling is exactly `Merge.Step` |
| GameCanvas.Canvas.BeforeUpdate | components/GameCanvas.tsx:178-199 | given a reading of every world body, the counter follows `Tick`; game over is signalled and the engine disabled exactly when the scan runs and some body ends the round |
| GameCanvas.Canvas.HandleDrop | components/GameCanvas.tsx:450-475 | only while playing, with an engine and off cooldown: adds the dropped body under a fresh id, starts the cooldown and picks a next planet in 0..3; otherwise nothing changes |
| GameCanvas.Canvas.DropCooldownElapsed | components/GameCanvas.tsx:472-474 | the 600 ms timer allows drops again |
| GameCanvas.Canvas.HandleMouseMove | components/GameCanvas.tsx:478-487 | the pointer becomes the clamped x and nothing else changes |

## Left out

- The physics engine (Matter.js) is not modelled: motion, contact detection, sleeping, restitution, friction and density. Contacts and body readings are inputs.
- What the engine's `enabled` flag does to stepping is not modelled; `GameCanvas.Canvas.BeforeUpdate` only records the flag.
- Drawing, the render loop, particles and sound are not modelled, nor the evolution chart and the overlay's layout. Of the overlay, only the Start and Restart guards are kept, in `App.Offered`.
- Timers are not modelled as time. The 600 ms drop cooldown and the 5000 ms banner timer are the operations `GameCanvas.Canvas.DropCooldownElapsed` and `App.AppState.HideWinBanner`, which may come at any point.
- React plumbing is not modelled: state batching, the `latestProps` ref, effect scheduling, and the guard on an unmounted canvas element.
- Labels.ParseInt: leading whitespace, `0x` prefixes and digits beyond the safe-integer range are not modelled. Every label the game writes is a small decimal number or "Wall".
- Labels.ParseInt: a label reading as a negative number has no rank; `Bodies.ValidWorld` excludes such labels.
- One clock reading per collision event: every body a batch of merges adds is stamped with the same `now`, where the source reads `Date.now()` once per merge.
- Positions, speeds and coordinates are exact reals, not IEEE doubles.
- Body ids are natural numbers under one counter. The source's string set of ids is a `set<BodyId>`.
- The pointer's conversion from screen to playfield units (bounding box and scale) is not modelled. `GameCanvas.Canvas.HandleMouseMove` takes the converted x.
- Engine teardown on unmount is not modelled.

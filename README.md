# Merge game: tier table, merge resolver and spawner

This project models the game logic of a small browser merge game built on the
Matter.js physics engine. Balls of six tiers fall into a box. When two balls of
the same tier touch, they merge into one ball of the next tier. The player
aims a static preview ball along a drop line and releases it with a click.

The model has five modules:

- `Balls` holds the tier table (`ballTypes`: names `type1`..`type6`, sizes 10 to
  35), a body record, the ball factory `createBall`, the tier lookup `findIndex`
  and the random tier draw `Math.floor(Math.random() * ballTypes.length)`.
- `Merge` holds the `collisionStart` handler as functions on a `Scene`.
  `bodies` maps each id to the record of every body created so far. `world` is
  the set of ids in the physics world. `nextId` is the engine's id counter.
  A body removed from the world keeps its record, just as a removed JavaScript
  object keeps its properties. `WorldMap` gives the world as a map from id to
  record.
- `Spawner` holds the game state (the scene plus the tracked `previewBall`),
  the start-up scene, and the `mousemove` and `mousedown` handlers as
  functions. It also holds the invariant that the handlers keep.
- `Game` holds the class `MergeGame`. The global state is its fields, and the
  handlers are methods that update them in place. `CollisionStart` runs a loop
  over the pairs. The three handlers are proved equal to their `Spawner`
  functions, `ResolveCollision` to `Merge.ResolvePair`, and the constructor to
  `Spawner.Setup`. The engine primitives `Add`, `Remove`, `SetPosition` and
  `SetStatic` state their field updates directly.
- `Scenarios` holds concrete collision batches.

Body tags follow the source. The tag is the tier's name (`ballType`), not an
index, and the tier index is recovered with `findIndex` (-1 for an unknown
name). A tag counts only when it is truthy in JavaScript, so an empty-string
tag counts as no tag. `Math.random()` is a parameter `u` with `0 <= u < 1`.
The pointer's canvas x coordinate is a parameter `mouseX`. Coordinates are
`real`, so the midpoint is exact.

Behaviour of the code that the model reproduces:

- A pair is decided from the two bodies' tags alone (script.js:59). Whether the
  bodies are still in the world is never checked. A ball consumed by an earlier
  pair of the same batch therefore merges again when it shows up in a later
  pair, and a second merged ball appears. See `Merge.RepeatedPairMergesTwice`
  and `Scenarios.ConsumedBallMergesAgain`.
- `mousedown` with no tracked preview still creates and tracks a new preview,
  because script.js:112-118 lie outside the `if`.
- `createBall` does not set the static flag, so a merged ball is dynamic. A
  preview is static because its caller sets `isStatic = true`.
- The tracked preview is a tagged ball, so a collision can merge it away. It
  then stays tracked while out of the world. `Spawner.Invariant` therefore
  promises that the preview is a known, static ball of some tier and that
  every other ball is dynamic, but not that the preview is in the world.

## Model

| member | source | states |
|---|---|---|
| `Balls.CreateBall` | script.js:31-40 | the new body is at (x, y), is tagged with the tier's name, has the given radius and the tier's fill colour, and is not static; it counts as tagged exactly when the name is non-empty |
| `Balls.CreatedBallHasTier` | script.js:31-50 | a ball made for tier k of the table, with that tier's size, is tagged, resolves to tier k, and is a well-formed ball of its tier |
| `Balls.Boundary` | script.js:24-28 | ground and walls are static, untagged bodies at their given centres |
| `Balls.TierIndex` | script.js:61 | a tagged body's tier index is -1 exactly when no tier has its name; otherwise it is in the table and that tier has the body's name |
| `Balls.FindIndex` | script.js:61 | the result is -1 exactly when no tier has the name; otherwise it is the first index whose tier has that name |
| `Balls.TierNamesResolve` | script.js:43-50 | each tier's name resolves back to its own index (the six names are distinct) |
| `Balls.SizesIncrease` | script.js:43-50 | tier sizes are positive and strictly increasing with the index |
| `Balls.RandomTypeIndex` | script.js:113 | the drawn index lies in [0, 6) and equals floor(6u) |
| `Balls.RandomTypeIndexInterval` | script.js:113 | index k is drawn exactly when k/6 <= u < (k+1)/6, so all six tiers have intervals of equal width |
| `Balls.EveryTierCanBeDrawn` | script.js:113-114 | every tier, the last one included, is drawn for some u |
| `Merge.Merges` | script.js:59-66 | a merging pair consists of two tagged balls of the same tier index, and that index is below the last tier |
| `Merge.MergedBall` | script.js:68-76 | the replacement ball is tagged with tier index current + 1, is a well-formed ball of that tier with its size as radius, sits at the midpoint of the two positions, and is dynamic |
| `Merge.NextIndex` | script.js:63-68 | the merged tier index is the current index plus one and lies within the table |
| `Merge.ResolvePair` | script.js:56-78 | one pair keeps the scene valid, creates no id below the counter, and leaves every existing body's record as it was |
| `Merge.ResolvePairs` | script.js:53-80 | a batch, taken in order, keeps the scene valid and never alters an existing body's record |
| `Merge.ResolvePairsSnoc` | script.js:55 | a batch extended by one pair runs that pair after the rest of the batch |
| `Merge.TwoPairBatch` | script.js:55 | a two-pair batch runs its first pair, then its second |
| `Merge.ResolvePairChangesIff` | script.js:59-66 | a pair changes the scene if and only if both bodies carry the same truthy tag and that tag is not the last tier |
| `Merge.NoMergeCases` | script.js:59-66 | a pair with an untagged body (ground, wall), a pair of different tags, and a pair of two last-tier balls all leave the scene unchanged |
| `Merge.MergeEffect` | script.js:61-77 | a merge removes both colliding ids from the world and adds exactly one fresh id; the new ball has tier index current + 1 (within the table), that tier's size as radius, the midpoint of the two positions, and is dynamic; no other body is touched |
| `Merge.MergeWorldMap` | script.js:72-77 | as a map from id to record, the world after a merge is the old world without the two colliding ids, plus the merged ball under the fresh id |
| `Merge.MergeCounts` | script.js:72-77 | for two distinct balls in the world, a merge lowers the world's body count and its ball count by exactly one |
| `Merge.ResolvePairPreserves` | script.js:68-76 | after one pair, every tagged body is still a ball of a table tier with that tier's radius |
| `Merge.ResolvePairsPreserves` | script.js:53-80 | after a whole batch, every tagged body is still a ball of a table tier with that tier's radius |
| `Merge.BoundariesSurvive` | script.js:59 | an untagged body in the world (ground, wall) is still in the world after any batch |
| `Merge.BatchAddsDynamicBalls` | script.js:53-80 | every body a batch creates is a tagged, dynamic ball |
| `Merge.DecisionIgnoresMembership` | script.js:59 | whether a pair merges depends only on the two bodies' records, not on whether they are still in the world |
| `Merge.RepeatedPairMergesTwice` | script.js:55-77 | a merging pair that occurs twice in one batch merges twice: both balls go, and two identical next-tier balls with consecutive fresh ids appear |
| `Spawner.Setup` | script.js:139-144 | the start-up state tracks id 3 as the preview, a static tagged ball, with the world holding ids 0 to 3 and every other body untagged |
| `Spawner.MouseMove` | script.js:93-100 | the move keeps the tracked id, the world, the id counter and the known ids, and a tracked preview ends at (mouseX, 50) |
| `Spawner.Released` | script.js:104-111 | a tracked preview becomes dynamic at (mouseX, 50) with its tag and radius kept; every other record is unchanged |
| `Spawner.NewPreview` | script.js:113-117 | the new preview is a static, well-formed ball of tier floor(6u) at (300, 50) |
| `Spawner.MouseDown` | script.js:103-119 | the click adds exactly one fresh id to the world and tracks it, and that body is the new preview |
| `Spawner.CollisionStart` | script.js:53-80 | a batch keeps the tracked id and the tracked preview's record |
| `Spawner.SetupFacts` | script.js:139-144 | at start-up the world holds exactly four bodies: three untagged boundaries and one ball, the tracked preview, which is tier 0, radius 10, static, at (300, 50); the invariant holds |
| `Spawner.MouseMoveEffect` | script.js:93-100 | with a preview, only that body's position changes, to (mouseX, 50); its tag, radius, colour and static flag are kept and the world is unchanged; with no preview nothing changes |
| `Spawner.MouseMoveLastWins` | script.js:97-99 | two moves in a row end as a single move to the second position |
| `Spawner.MouseDownEffect` | script.js:103-119 | the old preview becomes dynamic at (mouseX, 50) with its tag and radius kept; exactly one fresh body joins the world; it is a static, tracked preview of tier floor(6u) with that tier's radius at (300, 50); no other body changes |
| `Spawner.MouseDownAddsOneBall` | script.js:113-118 | a click adds exactly one ball to the world's balls |
| `Spawner.MouseMoveKeepsInvariant` | script.js:93-100 | `mousemove` keeps the invariant |
| `Spawner.MouseDownKeepsInvariant` | script.js:103-119 | `mousedown` keeps the invariant: the released preview becomes an ordinary dynamic ball and the new preview is the only static one |
| `Spawner.CollisionStartKeepsInvariant` | script.js:53-80 | `collisionStart` keeps the invariant: merged balls are dynamic well-formed balls and the preview's record is kept |
| `Spawner.InvariantPreserved` | script.js:53-144 | start-up establishes, and each handler keeps, the invariant: every tagged body is a well-formed tier ball, exactly one tracked preview exists, a static tagged ball, and every other ball is dynamic |
| `Game.MergeGame.constructor` | script.js:139-144 | the new game's state is the start-up state: three boundaries, then the tier-0 static preview |
| `Game.MergeGame.Add` | script.js:77 | `World.add` puts the body in the world; the model assigns its id, the next one, at this point; nothing else changes |
| `Game.MergeGame.SetPosition` | script.js:98 | `Matter.Body.setPosition` changes only that body's position; the world, the id counter and the tracked id are kept |
| `Game.MergeGame.SetStatic` | script.js:106 | `Matter.Body.setStatic` changes only that body's static flag; the world, the id counter and the tracked id are kept |
| `Game.MergeGame.Remove` | script.js:72-73 | `World.remove` takes the id out of the world (a no-op when it is absent) and keeps its record |
| `Game.MergeGame.ResolveCollision` | script.js:56-78 | the in-place update for one pair equals `Merge.ResolvePair` of the old scene, and the tracked preview is kept |
| `Game.MergeGame.CollisionStart` | script.js:53-80 | the loop over the pairs leaves the state equal to `Spawner.CollisionStart` of the old state, and the invariant still holds |
| `Game.MergeGame.MouseMove` | script.js:93-100 | the new state equals `Spawner.MouseMove` of the old state, and the invariant still holds |
| `Game.MergeGame.MouseDown` | script.js:103-119 | the new state equals `Spawner.MouseDown` of the old state, and the invariant still holds |
| `Scenarios.FirstTierPairMerges` | script.js:69-76 | two tier-0 balls at (100, 100) and (110, 100) become one tier-1 ball of radius 15 at (105, 100); only the ground and the new ball remain |
| `Scenarios.LastTierAndGroundPairsAreNoOps` | script.js:59-66 | a pair of two tier-5 balls and a ball-ground pair leave the scene unchanged |
| `Scenarios.ConsumedBallMergesAgain` | script.js:55-77 | a tier-0 ball touching two others in one batch merges in both pairs: all three leave and two tier-1 balls appear |

## Left out

- Physics: the Matter.js engine, engine stepping, gravity, collision detection and body integration (script.js:2-10, 83). Collision batches are an input sequence of id pairs. Balls that leave the play area in the engine are not modelled.
- Rendering: `Render.create`/`Render.run` and the `afterRender` aim line (script.js:13-21, 86, 122-136). These only draw and keep no state. Fill colours are kept only as a field of the body record.
- DOM plumbing: the event listeners, `getBoundingClientRect` and `event.clientX` (script.js:93-95, 103, 108). The resulting canvas x is the parameter `mouseX`.
- `Math.random` (script.js:113) is a parameter `u` in [0, 1), not a probability distribution. The model proves only that the six tiers get intervals of equal width.
- Boundary geometry: the width and height of ground and walls (script.js:24-28). Only their centres and their lack of a tag are modelled.
- Static flag: `isStatic` is a plain flag. Matter.js's mass and inertia bookkeeping in `setStatic`, and the difference between `setStatic` and assigning `isStatic = true` directly (script.js:117, 143), are not modelled.
- Body ids: Matter.js's global id counter is the scene's `nextId`. Matter.js gives a body its id when the body is constructed (script.js:24-26, 32). The model gives it when the body is added to the world. The two agree here because every created body is added straight away (script.js:28, 76-77, 116-118, 142-144). The engine's other bodies and ids are not modelled.

# Merge-fruit game rules in Dafny

This project models the game rules of a Unity "merge the fruit" puzzle. Fruits of increasing tier fall into a container. Two touching fruits of the same tier merge into one fruit of the next tier, give up their score, and push their neighbours away. An adaptive probability table picks the tier of the next fruit to drop. A strip near the top ends the game once a fruit has stayed in it too long. A score label counts up towards the total.

Modules, following the scripts:

| module | file | models |
|---|---|---|
| `Wrappers` | wrappers.dfy | `Option` (a reference that may be null), `Max` |
| `FruitRecords` | fruit_records.dfy | `Vec3`, the serialised fields of a fruit prefab, the `FruitData` asset |
| `SpawnRules` | spawn_rules.dfy | the logic of FruitSpawner.cs: band selection, boosts, normalisation, sampling, the merge clamp, the trajectory segment count |
| `MergeForces` | merge_forces.dfy | the logic of Fruit.cs: collision gate, instance-ID tie-break, impulse magnitudes of `ApplyPushForce` |
| `ScoreDisplay` | score_display.dfy | UIManager.cs: the count-up coroutine as a state machine, and the `UIManager` class |
| `Board` | board.dfy | GameManager.cs: the counters as a value, traces of drops and merges, and the `GameManager` class |
| `DeadLineMonitor` | dead_line.dfy | DeadLine.cs: the dwell timer and the latching game-over flag, and the `DeadLine` class |
| `FruitObjects` | fruit_objects.dfy | the `Fruit` and `FruitSpawner` classes and their methods that change state |

Fruit types are tier indices, with Cherry = 0. Floats are reals. A float computation that would produce NaN (a zero weight sum) is `None`.

Everything the engine supplies is a parameter:

- the random draw;
- the frame time;
- the number of live fruits;
- instance IDs of new objects;
- the prefab lookup;
- the colliders an overlap query returns, with their distances;
- the hits of the downward raycast.

The methods of `UIManager`, `DeadLine.OnTriggerStay2D`, `DeadLine.OnTriggerExit2D`, `GameManager.IncrementNoMerge` and `ApplyPushForce` are proved against pure functions of the old state: `Advance`/`Frames`/`ScoreUpdate`, `Step`, `Apply` and `Impulses`. The lemmas beside those functions state the properties. The methods of `Fruit` and `FruitSpawner`, `DeadLine.GameOver` and the other `GameManager` methods state their new state field by field.

Some behaviour of the code differs from what a reader might expect; the model follows the code:

- **Tie-break.** In `Merge` the fruit with the smaller instance ID returns, so the one with the larger ID acts (Fruit.cs:114). One might expect the smaller ID to act.
- **Merge participants and the push.** `ApplyPushForce` skips only the acting fruit's own body. The other merging fruit is still pushed.
- **Missing prefab.** A merge whose next tier has no prefab still awards the score and destroys both fruits (Fruit.cs:119-128). The push and the spawn are skipped (Fruit.cs:133-134, FruitSpawner.cs:202-203).
- **Dead-line timer.** `OnTriggerStay2D` runs once per overlapping fruit, so the timer grows by the frame time once for each fruit in the strip. Any fruit leaving resets it, even while others remain. The strip also ignores the fruit's `canCheckGameOver` grace flag.
- **No admitting band.** The working weights are all zero. Unless a boost fires, the float code then samples Cherry through NaN; the model gives the same answer through `None`. When a boost fires, the boosted entries alone make up the distribution.

## Model

| member | source | states |
|---|---|---|
| FruitRecords.Midpoint | Assets/Scripts/Fruit/Fruit.cs:116 | the merge point is equidistant from both fruits on every axis |
| SpawnRules.CopyFirstBand | Assets/Scripts/Fruit/FruitSpawner.cs:256-266 | the in-place band loop with Array.Copy leaves the buffer equal to the first admitting band's weights |
| SpawnRules.BandSelection | Assets/Scripts/Fruit/FruitSpawner.cs:258-265 | if band k is the first whose threshold admits maxLevel, its first min(5, length) weights are copied, later bands are ignored, and the entries not copied stay 0 |
| SpawnRules.NoBandSelected | Assets/Scripts/Fruit/FruitSpawner.cs:256-266 | with no admitting band the working vector is all zeros |
| SpawnRules.BoostCrowded | Assets/Scripts/Fruit/FruitSpawner.cs:268-276 | the emergency step adds 0.7·boost to tier 0 and 0.3·boost to tier 1, and scales tiers 2..4 by 0.85, in place |
| SpawnRules.BoostStagnant | Assets/Scripts/Fruit/FruitSpawner.cs:278-285 | the no-merge step adds the boost to tier 0 and scales tiers 1..4 by 0.8, in place |
| SpawnRules.Rescale | Assets/Scripts/Fruit/FruitSpawner.cs:288-293 | every entry is multiplied by the inverse sum, in place |
| SpawnRules.GetProbabilities | Assets/Scripts/Fruit/FruitSpawner.cs:252-296 | the array procedure returns [1,0,0,0,0] without a configuration; otherwise it returns the normalised adjusted weights, and None for a zero sum |
| SpawnRules.NormaliseSumsToOne | Assets/Scripts/Fruit/FruitSpawner.cs:287-295 | normalisation fails exactly when the sum is 0; otherwise the weights sum to 1 and each is its original share of the sum (proportions kept) |
| SpawnRules.UnitShare | Assets/Scripts/Fruit/FruitSpawner.cs:288-293 | a nonnegative part of a positive sum, times the inverse sum, lies in [0, 1] |
| SpawnRules.NormalisedWithinUnit | Assets/Scripts/Fruit/FruitSpawner.cs:287-295 | nonnegative weights with a positive sum normalise into [0, 1] |
| SpawnRules.ProbabilitiesSumToOne | Assets/Scripts/Fruit/FruitSpawner.cs:252-296 | the distribution is defined exactly when there is no configuration or the adjusted sum is nonzero, and then it sums to 1 |
| SpawnRules.SampleFruitType | Assets/Scripts/Fruit/FruitSpawner.cs:237-249 | the cumulative loop returns the tier the sampling function selects, Cherry for a NaN distribution |
| SpawnRules.GetRandomFruitType | Assets/Scripts/Fruit/FruitSpawner.cs:229-250 | the chosen tier is the sample of the computed distribution at the draw, and always in 0..4 |
| SpawnRules.SearchFromIsLeast | Assets/Scripts/Fruit/FruitSpawner.cs:240-249 | the walk from tier i returns the least tier at or after i whose cumulative weight reaches the draw, else Cherry |
| SpawnRules.SampleIsLeastIndex | Assets/Scripts/Fruit/FruitSpawner.cs:238-249 | sampling returns the least i with r <= w0+…+wi, and Cherry when there is none |
| SpawnRules.SampleInRange | Assets/Scripts/Fruit/FruitSpawner.cs:240-249 | the sampled tier is always in 0..4 |
| SpawnRules.CumulativeMonotone | Assets/Scripts/Fruit/FruitSpawner.cs:242 | with nonnegative weights the running sum never decreases |
| SpawnRules.SampleInterval | Assets/Scripts/Fruit/FruitSpawner.cs:240-247 | with nonnegative weights, tier i is chosen for every draw in (cumulative(i-1), cumulative(i)] |
| SpawnRules.CumulativeIsTotal | Assets/Scripts/Fruit/FruitSpawner.cs:237-249 | the last running sum is the total weight |
| SpawnRules.NormalisedDrawIsMatched | Assets/Scripts/Fruit/FruitSpawner.cs:237-249 | on a distribution summing to 1, a draw of at most 1 is matched by the walk, so the Cherry fallback is reached only through NaN |
| SpawnRules.ShareIncreases | Assets/Scripts/Fruit/FruitSpawner.cs:287-293 | a share x/(x+y) strictly grows when x grows and y strictly shrinks |
| SpawnRules.NormalisedShare | Assets/Scripts/Fruit/FruitSpawner.cs:287-293 | Cherry's normalised entry, and tiers 0 and 1 together, are their shares of the sum |
| SpawnRules.EmergencyRaisesSmallTierMass | Assets/Scripts/Fruit/FruitSpawner.cs:268-293 | crossing emergencyFruitCount strictly raises the combined chance of tiers 0 and 1, other inputs fixed |
| SpawnRules.NoMergeRaisesCherryShare | Assets/Scripts/Fruit/FruitSpawner.cs:278-293 | crossing noMergeThreshold strictly raises Cherry's chance, other inputs fixed |
| SpawnRules.EmergencyScenario | Assets/Scripts/Fruit/FruitSpawner.cs:268-276 | base [0.4,0.3,0.15,0.1,0.05], boost 0.3 and 25 fruits against 20 give [0.61,0.39,0.1275,0.085,0.0425] before normalisation |
| SpawnRules.ClampMergePosition | Assets/Scripts/Fruit/FruitSpawner.cs:214-222 | x lies in [-halfWidth+r, halfWidth-r] when r <= halfWidth, y and z are unchanged, a point already inside is unchanged, and x is the input or one of the two bounds |
| SpawnRules.ClosestHit | Assets/Scripts/Fruit/FruitSpawner.cs:105-122 | a hit is found exactly when some hit other than the held fruit is nearer than 20; the distance is that of such a hit and no such hit is nearer; otherwise the distance is 20 |
| SpawnRules.DashPositions | Assets/Scripts/Fruit/FruitSpawner.cs:128-143 | the final point count is 2·((segments+1)/2) (0 for negative segments); points are written at 0, 1, 2, … and all below the 2·segments the line was sized to |
| SpawnRules.UpdateTrajectory | Assets/Scripts/Fruit/FruitSpawner.cs:101-144 | a hit is found exactly when some non-self hit is nearer than 20, and the distance is then the nearest such hit's (20 otherwise); segments is the floor of that distance times the extension multiplier (or of 20) over 0.15; the point count is as for DashPositions |
| MergeForces.ExactlyOneMerge | Assets/Scripts/Fruit/Fruit.cs:97-114 | the gate is symmetric; for distinct instance IDs, the two callbacks of one contact merge exactly once when the gate passes and never otherwise, and the acting side has the larger ID |
| MergeForces.QueryRadius | Assets/Scripts/Fruit/Fruit.cs:142-143 | the query radius is at least the explosion radius and at least twice the new radius |
| MergeForces.ExplosionInsideQuery | Assets/Scripts/Fruit/Fruit.cs:142-168 | every body that receives the explosion term lies inside the query radius |
| MergeForces.TotalForce | Assets/Scripts/Fruit/Fruit.cs:155-168 | the two fading terms of the loop body add up to the force magnitude |
| MergeForces.ApplyPushForce | Assets/Scripts/Fruit/Fruit.cs:131-195 | nothing when the next tier has no prefab; otherwise the query radius and exactly the impulses of the colliders, in order |
| MergeForces.FadingTermBounds | Assets/Scripts/Fruit/Fruit.cs:158-168 | inside its reach a fading term lies in [0, strength] |
| MergeForces.TermBounds | Assets/Scripts/Fruit/Fruit.cs:155-168 | each term is nonzero only inside its reach and lies in [0, strength]; their sum lies in [0, push + explosion] |
| MergeForces.UpwardHalf | Assets/Scripts/Fruit/Fruit.cs:170-179 | a target above the merge point gets exactly half what the same force gives a target at or below it |
| MergeForces.ImpulsesComeFromReceivers | Assets/Scripts/Fruit/Fruit.cs:147-192 | every impulse goes to a collider with a body other than the acting fruit's and a positive force, with the scaled magnitude |
| MergeForces.ReceiversGetImpulse | Assets/Scripts/Fruit/Fruit.cs:147-192 | every such collider gets its impulse |
| MergeForces.ImpulseMagnitudeBounds | Assets/Scripts/Fruit/Fruit.cs:155-191 | with nonnegative strengths each impulse is positive (no zero impulse) and at most 1.2·(push + explosion) |
| ScoreDisplay.Ceil | Assets/Scripts/Managers/UIManager.cs:48 | Mathf.CeilToInt: the least integer at or above x |
| ScoreDisplay.Increment | Assets/Scripts/Managers/UIManager.cs:47-48 | the step is at least 1 and at least the frame's share of the gap, and within 1 of that share when the share exceeds 1 |
| ScoreDisplay.Advance | Assets/Scripts/Managers/UIManager.cs:47-50 | one loop pass strictly raises the shown score and never past the target |
| ScoreDisplay.ScoreUpdateAsWritten | Assets/Scripts/Managers/UIManager.cs:33-41 | as written: the target is set, the shown score never falls, a count-up runs exactly when one ran or there is something to count, and the handle becomes stale exactly when it was stale or a new count-up had nothing to count |
| ScoreDisplay.ScoreUpdate | Assets/Scripts/Managers/UIManager.cs:33-41 | as intended: the same, except that the update never makes the handle stale |
| ScoreDisplay.UpdateKeepsLive | Assets/Scripts/Managers/UIManager.cs:33-41 | an update sets the target, keeps a pending count-up running, and the shown score neither falls nor passes max(old shown, target) |
| ScoreDisplay.ResumeKeepsLive | Assets/Scripts/Managers/UIManager.cs:45-56 | a frame keeps the display live and the target fixed, never lowers the shown score or passes the target, and raises it while it is below |
| ScoreDisplay.FramesKeepLive | Assets/Scripts/Managers/UIManager.cs:45-56 | the same over any number of frames |
| ScoreDisplay.CatchesUp | Assets/Scripts/Managers/UIManager.cs:45-56 | a live display reaches its target within as many frames as the gap, whatever the frame times |
| ScoreDisplay.CountUpFinishes | Assets/Scripts/Managers/UIManager.cs:45-56 | one frame more than the gap leaves the display on the target with the handle cleared |
| ScoreDisplay.IdleStays | Assets/Scripts/Managers/UIManager.cs:43-57 | with no coroutine running, frames change nothing |
| ScoreDisplay.StaleFreezes | Assets/Scripts/Managers/UIManager.cs:37-39 | as written, a stale handle is never replaced, so the shown score never moves again |
| ScoreDisplay.ZeroPointUpdateFreezesDisplay | Assets/Scripts/Managers/UIManager.cs:33-57 | as written, an update to 0 on a fresh display followed by one to 5 leaves the label at 0 forever; the intended update shows 5 within five frames |
| ScoreDisplay.UIManager.constructor | Assets/Scripts/Managers/UIManager.cs:10-14 | the display starts at 0, with target 0 and no coroutine |
| ScoreDisplay.UIManager.StepCountUp | Assets/Scripts/Managers/UIManager.cs:47-51 | one pass of the loop body moves the display as Advance does, nothing else |
| ScoreDisplay.UIManager.UpdateScoreUI | Assets/Scripts/Managers/UIManager.cs:33-41 | the new state is the intended update of the old one (target set; count-up started only when none runs) |
| ScoreDisplay.UIManager.CountUpScore | Assets/Scripts/Managers/UIManager.cs:43-57 | the frame loop leaves the state the frames function gives |
| Board.GameManager.GetFruitData | Assets/Scripts/Managers/GameManager.cs:25-42 | data comes back exactly when the table exists, the index is in [0, length) and the slot is not null, and it is that slot |
| Board.GameManager.GetFruitDataCount | Assets/Scripts/Managers/GameManager.cs:44-47 | the table length, 0 when there is no table |
| Board.GameManager.constructor | Assets/Scripts/Managers/GameManager.cs:9-11 | score, max level and no-merge count start at 0 |
| Board.GameManager.AddScore | Assets/Scripts/Managers/GameManager.cs:49-53 | score rises by exactly the points, no other counter changes, and the label is updated with the new total |
| Board.GameManager.UpdateMaxLevel | Assets/Scripts/Managers/GameManager.cs:60-66 | max level becomes max(old, level) |
| Board.GameManager.IncrementNoMerge | Assets/Scripts/Managers/GameManager.cs:73-76 | the no-merge count rises by exactly 1, nothing else changes |
| Board.GameManager.ResetNoMerge | Assets/Scripts/Managers/GameManager.cs:78-81 | the no-merge count becomes 0, nothing else changes |
| Board.MergedPointsSnoc | Assets/Scripts/Managers/GameManager.cs:49-53 | appending an event adds its merge points, if any |
| Board.RunCounts | Assets/Scripts/Managers/GameManager.cs:49-81 | after any trace the score is the start plus every merge's points; the no-merge count is the number of drops since the last merge, or start plus all drops when there was no merge |
| Board.NoMergeAllDrops | Assets/Scripts/Managers/GameManager.cs:73-81 | in a trace without merges every event is a trailing drop |
| Board.RunMaxLevel | Assets/Scripts/Managers/GameManager.cs:60-66 | the max level never decreases, covers every merged tier, and is the start or one merged tier |
| Board.TwoCherriesExample | Assets/Scripts/Managers/GameManager.cs:49-81 | two drops, a one-point Cherry merge and one more drop give score 1, max level 1, no-merge count 1 |
| DeadLineMonitor.StepFacts | Assets/Scripts/DeadLine.cs:20-43 | the game ends exactly when a fruit stays long enough while it is running; stays change nothing once over; a fruit exit resets the timer and keeps the flag; other colliders change nothing |
| DeadLineMonitor.GameOverLatches | Assets/Scripts/DeadLine.cs:20-47 | no sequence of callbacks clears game over |
| DeadLineMonitor.GameOverAtMostOnce | Assets/Scripts/DeadLine.cs:20-49 | GameOver runs at most once in any run, never once over, and exactly once when a running game ends |
| DeadLineMonitor.RunKeepsArmed | Assets/Scripts/DeadLine.cs:20-43 | for a positive delay, while the game runs the timer stays below the delay |
| DeadLineMonitor.StayingFruitEndsGame | Assets/Scripts/DeadLine.cs:24-32 | with no exit, the game ends exactly when the timer plus the staying time reaches the delay; until then the timer is that sum |
| DeadLineMonitor.DeadLine.constructor | Assets/Scripts/DeadLine.cs:9-10 | timer 0, not over |
| DeadLineMonitor.DeadLine.OnTriggerStay2D | Assets/Scripts/DeadLine.cs:20-34 | the new state is the stay step of the old one |
| DeadLineMonitor.DeadLine.OnTriggerExit2D | Assets/Scripts/DeadLine.cs:36-43 | the new state is the exit step of the old one |
| DeadLineMonitor.DeadLine.GameOver | Assets/Scripts/DeadLine.cs:45-47 | the flag is set, the timer is untouched |
| FruitObjects.Fruit.constructor | Assets/Scripts/Fruit/Fruit.cs:6-18 | a new fruit carries the prefab's serialised fields and starts with both flags false |
| FruitObjects.Fruit.SetFruitType | Assets/Scripts/Fruit/Fruit.cs:37-40 | only the type changes |
| FruitObjects.Fruit.EnablePhysics | Assets/Scripts/Fruit/Fruit.cs:72-77 | the fruit can merge at once; only canMerge changes |
| FruitObjects.Fruit.EnableGameOverCheck | Assets/Scripts/Fruit/Fruit.cs:79-82 | only canCheckGameOver changes, to true |
| FruitObjects.Fruit.DisablePhysics | Assets/Scripts/Fruit/Fruit.cs:84-90 | both flags become false, nothing else changes |
| FruitObjects.Fruit.Merge | Assets/Scripts/Fruit/Fruit.cs:112-129 | the smaller ID changes nothing. The larger ID awards its pre-merge score to the manager and label, raises max level to type+1 and resets the no-merge count. It then yields the neighbours' impulses, spawns a next-tier fruit clamped at the midpoint (canMerge true, canCheckGameOver false) when the prefab exists, and destroys both inputs |
| FruitObjects.Fruit.OnCollisionEnter2D | Assets/Scripts/Fruit/Fruit.cs:97-110 | the merge effects happen exactly when the gate passes and this side acts; otherwise nothing changes |
| FruitObjects.FruitSpawner.constructor | Assets/Scripts/Fruit/FruitSpawner.cs:8-24 | the slot is empty, radius 0, next type Cherry, configuration fixed |
| FruitObjects.FruitSpawner.GetRandomFruitType | Assets/Scripts/Fruit/FruitSpawner.cs:229-250 | the tier sampled from the manager's counters, in 0..4 |
| FruitObjects.FruitSpawner.SpawnNextFruit | Assets/Scripts/Fruit/FruitSpawner.cs:176-189 | without a prefab nothing changes. Otherwise a new held fruit of the announced prefab stands at the spawn point with both flags false and fills the slot, the radius is taken from it, and a new next type is drawn |
| FruitObjects.FruitSpawner.Start | Assets/Scripts/Fruit/FruitSpawner.cs:49-53 | the first type is drawn with the live count before the spawn; without its prefab only that type is stored. Otherwise the spawn is as in SpawnNextFruit: a new held fruit with the given ID, both flags false, not destroyed, at the spawn point, radius taken; then the next type is drawn with the live count after the spawn |
| FruitObjects.FruitSpawner.DropFruit | Assets/Scripts/Fruit/FruitSpawner.cs:191-198 | the held fruit can merge, the slot is empty, the radius is 0 and the no-merge count rises by exactly 1 |
| FruitObjects.FruitSpawner.SpawnMergedFruit | Assets/Scripts/Fruit/FruitSpawner.cs:200-213 | nothing without a prefab; otherwise a new fruit of that prefab at the clamped position, able to merge and not yet counted for game over |

## Findings

| source | as written | input that shows it | evidently intended | confidence | as-written member | corrected member |
|---|---|---|---|---|---|---|
| Assets/Scripts/Managers/UIManager.cs:37-56 | StartCoroutine runs CountUpScore up to its first yield before returning. When there is nothing to count, the body finishes and clears countUpCoroutine. If StartCoroutine returns a handle for that finished routine, the handle is then stored in the field, and the field is never null again, so no later score change starts a count-up. | a score update that does not exceed the shown score while no count-up runs, e.g. AddScore(0) from a merge of fruits whose score field is 0, then a merge worth 5 | a count-up that finishes at once leaves the field null, and later scores are counted up | not executed; medium (rests on StartCoroutine returning a handle for a coroutine that already ended) | ScoreDisplay.ScoreUpdateAsWritten, shown by ScoreDisplay.ZeroPointUpdateFreezesDisplay and ScoreDisplay.StaleFreezes | ScoreDisplay.ScoreUpdate, with ScoreDisplay.UpdateKeepsLive, ScoreDisplay.CatchesUp and ScoreDisplay.CountUpFinishes; ScoreDisplay.UIManager.UpdateScoreUI follows it |

## Left out

- Input polling, camera conversion, dragging (FruitSpawner.Update), and `LineRenderer` drawing: engine and input plumbing. Only the trajectory's hit scan, segment count and point count are modelled.
- `Instantiate`, `Destroy`, `GetComponent`, `FindObjectsByType`, `OverlapCircleAll`, `RaycastNonAlloc` and `AddForce`: foreign engine calls. Their results are parameters (fresh objects with given IDs, the live count, the colliders, the hits), and `Destroy` is a `destroyed` flag. Rigidbody settings (body type, mass, damping, velocity) are not modelled.
- Direction of the impulses (normalisation, the 1.5 horizontal stretch and the halving of upward components): vector maths with square roots. An impulse is a body and a scalar magnitude.
- IEEE float effects (rounding, infinities), and 32-bit wrap-around of the score and of `CeilToInt`/`FloorToInt`: weights, distances and times are reals and integers are unbounded. A zero weight sum, which yields NaN in floats, is `None`.
- `Random.Range`, `Time.deltaTime`, `Time.timeScale`: the draw and the frame time are parameters. Setting the time scale to 0 on game over is not modelled.
- `Invoke` delays: `EnableGameOverCheck` and the spawn after a drop are separate methods the environment calls later. The spawnDelay and the 2-second grace period are not modelled.
- JSON loading of the probability configuration: the spawner takes the parsed configuration (or None).
- `Debug.Log`, `Debug.LogError`, the score text and the Awake singletons: I/O. The getters `GetScore`, `GetCurrentMaxLevel`, `GetConsecutiveNoMerge` and the fruit's `Get…` accessors are plain field reads in the model. FruitData.cs appears only as a record; FruitPrefabData.cs is not modelled, because the prefab lookup is a parameter.
- `GameManager.GetFruitPrefab` and `UIManager.UpdateNextFruitUI` are called by the scripts but are not part of this model. The prefab lookup is a parameter, and the next-fruit preview is not modelled. DeadLine.cs:48 reads GameManager's private `score` field only for a log line.
- Collisions where both sides are the same fruit are excluded (`other != this`); the engine never reports them.
- FruitObjects.Fruit.OnCollisionEnter2D: the acting fruit's own body is identified by its instance ID.
- ScoreDisplay.UIManager.UpdateScoreUI: follows the corrected update described under Findings, not the code as written (`ScoreDisplay.ScoreUpdateAsWritten` models that).

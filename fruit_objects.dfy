/**
 * The objects of the game: Fruit (Fruit.cs) and FruitSpawner
 * (FruitSpawner.cs).  They live in one module because each calls the
 * other: a merging fruit asks the spawner for the merged fruit, and the
 * spawner creates and drops fruits.
 *
 * GameManager.GetFruitPrefab is not part of this model; every method that
 * needs a prefab takes the lookup as a parameter (None for a missing
 * prefab).  Instance IDs of new objects, the number of live fruits, the
 * random draw, the frame time and what the physics engine reports (the
 * colliders around a merge point, the hits below the held fruit) are
 * parameters too.
 */
module FruitObjects {
  import opened Wrappers
  import opened FruitRecords
  import opened SpawnRules
  import opened MergeForces
  import opened ScoreDisplay
  import opened Board

  class Fruit {
    const instanceId: int
    var fruitType: int
    const radius: real
    const score: int
    const pushStrength: real
    const explosionRadiusMultiplier: real
    const explosionForce: real
    const mass: real
    var position: Vec3
    var canMerge: bool
    var canCheckGameOver: bool
    /** Destroy has been called on the fruit's game object. */
    var destroyed: bool

    /** The serialised fields, as they are on the prefab this fruit was made from. */
    function Prefab(): FruitPrefab
      reads this
    {
      FruitPrefab(fruitType, radius, score, pushStrength, explosionRadiusMultiplier, explosionForce, mass)
    }

    /** Instantiate: the prefab's serialised fields are copied and both flags start false. */
    constructor (instanceId: int, prefab: FruitPrefab, position: Vec3)
      ensures this.instanceId == instanceId && Prefab() == prefab && this.position == position
      ensures !canMerge && !canCheckGameOver && !destroyed
    {
      this.instanceId := instanceId;
      fruitType := prefab.fruitType;
      radius := prefab.radius;
      score := prefab.score;
      pushStrength := prefab.pushStrength;
      explosionRadiusMultiplier := prefab.explosionRadiusMultiplier;
      explosionForce := prefab.explosionForce;
      mass := prefab.mass;
      this.position := position;
      canMerge := false;
      canCheckGameOver := false;
      destroyed := false;
    }

    method SetFruitType(t: int)
      modifies this`fruitType
      ensures fruitType == t
    {
      fruitType := t;
    }

    /** The fruit falls and may merge; the game-over check follows later (EnableGameOverCheck). */
    method EnablePhysics()
      modifies this`canMerge
      ensures canMerge
    {
      canMerge := true;
    }

    method EnableGameOverCheck()
      modifies this`canCheckGameOver
      ensures canCheckGameOver
    {
      canCheckGameOver := true;
    }

    /** The held fruit: neither merging nor counted for game over. */
    method DisablePhysics()
      modifies this`canMerge, this`canCheckGameOver
      ensures !canMerge && !canCheckGameOver
    {
      canMerge := false;
      canCheckGameOver := false;
    }

    /** The checks OnCollisionEnter2D makes before calling Merge. */
    predicate MergeGate(other: Fruit, fruitDataCount: int)
      reads this, other
    {
      CollisionGate(canMerge, true, other.canMerge, fruitType, other.fruitType, fruitDataCount)
    }

    /**
     * What a merge started by this fruit against other has done: the
     * manager scored this fruit's points, raised the highest tier to the
     * next type and cleared the drop counter; the label was told the new
     * score; the neighbours got their impulses; the merged fruit stands
     * clamped inside the walls at the midpoint, falling and able to merge;
     * and both merging fruits are destroyed.
     */
    twostate predicate MergedInto(other: Fruit, gm: GameManager, containerHalfWidth: real,
                                  new next: Option<FruitPrefab>, colliders: seq<Neighbour>, newId: int, deltaTime: real,
                                  impulses: seq<Impulse>, new merged: Fruit?)
      requires Measured(colliders)
      reads this, other, gm, gm.ui, merged
    {
      var center := Midpoint(old(position), old(other.position));
      && gm.State() == Apply(old(gm.State()), Merged(score, old(fruitType) + 1))
      && gm.ui.State() == ScoreUpdate(old(gm.ui.State()), gm.score, deltaTime, gm.ui.countUpSpeed)
      && impulses == (if next.None? then [] else Impulses(next.value, center.y, instanceId, colliders))
      && (next.None? ==> merged == null)
      && (next.Some? ==>
            && merged != null && fresh(merged)
            && merged.instanceId == newId && merged.Prefab() == next.value
            && merged.position == ClampMergePosition(center, next.value.radius, containerHalfWidth)
            && merged.canMerge && !merged.canCheckGameOver && !merged.destroyed)
      && destroyed && other.destroyed
    }

    /** Merge: the fruit with the smaller instance ID leaves the merge to the other one. */
    method Merge(other: Fruit, gm: GameManager, spawner: FruitSpawner, prefabOf: int -> Option<FruitPrefab>,
                 colliders: seq<Neighbour>, newId: int, deltaTime: real)
      returns (impulses: seq<Impulse>, merged: Fruit?)
      requires other != this && Measured(colliders)
      modifies this`destroyed, other`destroyed, gm`score, gm`currentMaxLevel, gm`consecutiveNoMerge, gm.ui
      ensures !MergeActs(instanceId, other.instanceId) ==>
        impulses == [] && merged == null && unchanged(this, other, gm, gm.ui)
      ensures MergeActs(instanceId, other.instanceId) ==>
        MergedInto(other, gm, spawner.containerHalfWidth, prefabOf(old(fruitType) + 1), colliders, newId, deltaTime, impulses, merged)
    {
      if instanceId < other.instanceId {
        return [], null;
      }
      var mergePosition := Midpoint(position, other.position);
      var nextType := fruitType + 1;

      gm.AddScore(score, deltaTime);
      gm.UpdateMaxLevel(nextType);
      gm.ResetNoMerge();

      var queryRadius;
      queryRadius, impulses := ApplyPushForce(mergePosition, prefabOf(nextType), instanceId, colliders);

      merged := spawner.SpawnMergedFruit(prefabOf, nextType, mergePosition, newId);

      other.destroyed := true;
      destroyed := true;
    }

    /** The collision callback: merge only when the gate lets the contact through. */
    method OnCollisionEnter2D(other: Fruit?, gm: GameManager, spawner: FruitSpawner,
                              prefabOf: int -> Option<FruitPrefab>, colliders: seq<Neighbour>, newId: int, deltaTime: real)
      returns (impulses: seq<Impulse>, merged: Fruit?)
      requires other != this && Measured(colliders)
      modifies this`destroyed, {other}`destroyed, gm`score, gm`currentMaxLevel, gm`consecutiveNoMerge, gm.ui
      ensures var merging := other != null && old(MergeGate(other, gm.GetFruitDataCount()))
                             && MergeActs(instanceId, other.instanceId);
        && (!merging ==> impulses == [] && merged == null && unchanged(this, gm, gm.ui)
                         && (other != null ==> unchanged(other)))
        && (merging ==>
              MergedInto(other, gm, spawner.containerHalfWidth, prefabOf(old(fruitType) + 1), colliders, newId, deltaTime, impulses, merged))
    {
      impulses, merged := [], null;
      if !canMerge {
        return;
      }
      if other != null && other.canMerge && other.fruitType == fruitType {
        var nextIndex := fruitType + 1;
        if nextIndex < gm.GetFruitDataCount() {
          impulses, merged := Merge(other, gm, spawner, prefabOf, colliders, newId, deltaTime);
        }
      }
    }
  }

  class FruitSpawner {
    /** The position of spawnPoint. */
    const spawnPoint: Vec3
    const containerHalfWidth: real
    /** The parsed probability asset; None when none was assigned. */
    const probabilityConfig: Option<SpawnProbabilityConfig>

    var currentFruit: Fruit?
    var nextFruitType: int
    var currentFruitRadius: real

    /** Awake, with the probability configuration already loaded. */
    constructor (spawnPoint: Vec3, containerHalfWidth: real, probabilityConfig: Option<SpawnProbabilityConfig>)
      ensures this.spawnPoint == spawnPoint
      ensures this.containerHalfWidth == containerHalfWidth
      ensures this.probabilityConfig == probabilityConfig
      ensures currentFruit == null && nextFruitType == Cherry && currentFruitRadius == 0.0
    {
      this.spawnPoint := spawnPoint;
      this.containerHalfWidth := containerHalfWidth;
      this.probabilityConfig := probabilityConfig;
      currentFruit := null;
      nextFruitType := Cherry;
      currentFruitRadius := 0.0;
    }

    /** GetRandomFruitType with the manager's counters, the live fruit count and the draw from [0, 1]. */
    method GetRandomFruitType(gm: GameManager, activeFruits: int, randomValue: real) returns (t: int)
      ensures t == SampleIndex(Probabilities(probabilityConfig, gm.currentMaxLevel, activeFruits, gm.consecutiveNoMerge),
                               randomValue)
      ensures 0 <= t < SpawnTiers
    {
      t := SpawnRules.GetRandomFruitType(probabilityConfig, gm.currentMaxLevel, activeFruits, gm.consecutiveNoMerge,
                                         randomValue);
    }

    /**
     * SpawnNextFruit: the announced fruit appears at the spawn point, held
     * (physics off), and a new next type is drawn; with no prefab for the
     * announced type nothing happens.  activeFruits is the live count at
     * that draw, which already includes the new fruit.
     */
    method SpawnNextFruit(gm: GameManager, prefabOf: int -> Option<FruitPrefab>, newId: int,
                          activeFruits: int, randomValue: real)
      modifies this`currentFruit, this`currentFruitRadius, this`nextFruitType
      ensures prefabOf(old(nextFruitType)).None? ==> unchanged(this)
      ensures prefabOf(old(nextFruitType)).Some? ==>
        && currentFruit != null && fresh(currentFruit)
        && currentFruit.instanceId == newId && currentFruit.Prefab() == prefabOf(old(nextFruitType)).value
        && currentFruit.position == spawnPoint
        && !currentFruit.canMerge && !currentFruit.canCheckGameOver && !currentFruit.destroyed
        && currentFruitRadius == currentFruit.radius
        && nextFruitType == SampleIndex(Probabilities(probabilityConfig, gm.currentMaxLevel, activeFruits,
                                                      gm.consecutiveNoMerge), randomValue)
    {
      var prefab := prefabOf(nextFruitType);
      if prefab.None? {
        return;
      }
      var fruit := new Fruit(newId, prefab.value, spawnPoint);
      fruit.DisablePhysics();
      currentFruit := fruit;
      currentFruitRadius := fruit.radius;
      nextFruitType := GetRandomFruitType(gm, activeFruits, randomValue);
    }

    /**
     * Start: draw the first type, then spawn it (which draws the one
     * announced after it).  The first draw sees activeBefore live fruits;
     * the second comes after the new fruit is instantiated and sees
     * activeAfter, which counts it.
     */
    method Start(gm: GameManager, prefabOf: int -> Option<FruitPrefab>, newId: int,
                 activeBefore: int, activeAfter: int, firstDraw: real, secondDraw: real)
      modifies this`currentFruit, this`currentFruitRadius, this`nextFruitType
      ensures var first := SampleIndex(Probabilities(probabilityConfig, gm.currentMaxLevel, activeBefore,
                                                     gm.consecutiveNoMerge), firstDraw);
        && (prefabOf(first).None? ==>
              nextFruitType == first && currentFruit == old(currentFruit) && currentFruitRadius == old(currentFruitRadius))
        && (prefabOf(first).Some? ==>
              && currentFruit != null && fresh(currentFruit)
              && currentFruit.instanceId == newId && currentFruit.Prefab() == prefabOf(first).value
              && currentFruit.position == spawnPoint
              && !currentFruit.canMerge && !currentFruit.canCheckGameOver && !currentFruit.destroyed
              && currentFruitRadius == currentFruit.radius
              && nextFruitType == SampleIndex(Probabilities(probabilityConfig, gm.currentMaxLevel, activeAfter,
                                                            gm.consecutiveNoMerge), secondDraw))
    {
      nextFruitType := GetRandomFruitType(gm, activeBefore, firstDraw);
      SpawnNextFruit(gm, prefabOf, newId, activeAfter, secondDraw);
    }

    /**
     * DropFruit: the held fruit starts falling and may merge, the spawner
     * holds nothing, and one more drop without a merge is counted.  The
     * next spawn is left to a later SpawnNextFruit call.
     */
    method DropFruit(gm: GameManager)
      requires currentFruit != null
      modifies this`currentFruit, this`currentFruitRadius, currentFruit`canMerge, gm`consecutiveNoMerge
      ensures old(currentFruit).canMerge
      ensures currentFruit == null && currentFruitRadius == 0.0
      ensures gm.State() == Apply(old(gm.State()), Dropped)
    {
      currentFruit.EnablePhysics();
      currentFruit := null;
      currentFruitRadius := 0.0;
      gm.IncrementNoMerge();
    }

    /**
     * SpawnMergedFruit: the fruit of the next tier at the merge point,
     * moved inside the walls, falling and able to merge; nothing when the
     * tier has no prefab.
     */
    method SpawnMergedFruit(prefabOf: int -> Option<FruitPrefab>, fruitType: int, position: Vec3, newId: int)
      returns (fruit: Fruit?)
      ensures prefabOf(fruitType).None? ==> fruit == null
      ensures prefabOf(fruitType).Some? ==>
        && fruit != null && fresh(fruit)
        && fruit.instanceId == newId && fruit.Prefab() == prefabOf(fruitType).value
        && fruit.position == ClampMergePosition(position, prefabOf(fruitType).value.radius, containerHalfWidth)
        && fruit.canMerge && !fruit.canCheckGameOver && !fruit.destroyed
    {
      var prefab := prefabOf(fruitType);
      if prefab.None? {
        return null;
      }
      fruit := new Fruit(newId, prefab.value, position);
      var newRadius := fruit.radius;
      fruit.position := ClampMergePosition(position, newRadius, containerHalfWidth);
      fruit.EnablePhysics();
    }
  }
}

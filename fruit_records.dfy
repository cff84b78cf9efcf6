/**
 * The plain records the game's components share: a position, the serialised
 * fields of a fruit prefab, and the per-tier FruitData asset.
 *
 * Fruit types are tier indices: Cherry is 0 and each merge produces the next
 * index.
 */
module FruitRecords {

  const Cherry: int := 0

  /** A Unity Vector3 over the reals. */
  datatype Vec3 = Vec3(x: real, y: real, z: real)

  /** (a + b) / 2, the point halfway between two positions. */
  function Midpoint(a: Vec3, b: Vec3): (m: Vec3)
    ensures m.x - a.x == b.x - m.x
    ensures m.y - a.y == b.y - m.y
    ensures m.z - a.z == b.z - m.z
  {
    Vec3((a.x + b.x) / 2.0, (a.y + b.y) / 2.0, (a.z + b.z) / 2.0)
  }

  /**
   * The serialised fields of the Fruit component on a prefab; Instantiate
   * copies them into every fruit made from it.
   */
  datatype FruitPrefab = FruitPrefab(
    fruitType: int,
    radius: real,
    score: int,
    pushStrength: real,
    explosionRadiusMultiplier: real,
    explosionForce: real,
    mass: real)

  /** The FruitData asset; its colour is not modelled. */
  datatype FruitData = FruitData(
    fruitType: int,
    radius: real,
    score: int,
    mass: real,
    pushStrength: real)
}

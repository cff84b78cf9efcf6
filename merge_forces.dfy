/**
 * The value-level rules of Fruit.cs: the collision gate that decides whether
 * two touching fruits merge, the instance-ID tie-break that makes exactly
 * one of the two collision callbacks act, and the magnitude of the impulse
 * ApplyPushForce gives each neighbour.
 *
 * Directions (normalised vectors, needing square roots) are not modelled:
 * an impulse is the body it goes to and its scalar magnitude.  Distances
 * come from the physics engine as inputs.
 */
module MergeForces {
  import opened Wrappers
  import opened FruitRecords

  // ---------------------------------------------------------------------
  // Collision gate and tie-break
  // ---------------------------------------------------------------------

  /**
   * The checks of OnCollisionEnter2D: this fruit may merge, the other
   * collider is a fruit that may merge, both have the same type, and a next
   * type exists in the FruitData table.
   */
  predicate CollisionGate(selfCanMerge: bool, otherIsFruit: bool, otherCanMerge: bool,
                          selfType: int, otherType: int, fruitDataCount: int)
  {
    selfCanMerge && otherIsFruit && otherCanMerge && otherType == selfType && selfType + 1 < fruitDataCount
  }

  /** The first line of Merge: the side with the smaller instance ID returns. */
  predicate MergeActs(selfId: int, otherId: int)
  {
    !(selfId < otherId)
  }

  /** What one fruit's collision callback looks at. */
  datatype PieceView = PieceView(instanceId: int, fruitType: int, canMerge: bool)

  /** The callback of self, touching other, performs a merge. */
  predicate Merges(self: PieceView, other: PieceView, fruitDataCount: int)
  {
    && CollisionGate(self.canMerge, true, other.canMerge, self.fruitType, other.fruitType, fruitDataCount)
    && MergeActs(self.instanceId, other.instanceId)
  }

  /**
   * When the engine reports one contact to both fruits, the merge happens
   * exactly once if the gate passes and never otherwise; the acting side
   * is the one with the larger instance ID.
   */
  lemma ExactlyOneMerge(a: PieceView, b: PieceView, fruitDataCount: int)
    requires a.instanceId != b.instanceId
    ensures CollisionGate(a.canMerge, true, b.canMerge, a.fruitType, b.fruitType, fruitDataCount)
        <==> CollisionGate(b.canMerge, true, a.canMerge, b.fruitType, a.fruitType, fruitDataCount)
    ensures (Merges(a, b, fruitDataCount) || Merges(b, a, fruitDataCount))
        <==> CollisionGate(a.canMerge, true, b.canMerge, a.fruitType, b.fruitType, fruitDataCount)
    ensures !(Merges(a, b, fruitDataCount) && Merges(b, a, fruitDataCount))
    ensures Merges(a, b, fruitDataCount) ==> a.instanceId > b.instanceId
  {
  }

  // ---------------------------------------------------------------------
  // Impulse magnitudes
  // ---------------------------------------------------------------------

  /**
   * One collider returned by the overlap query around the merge point:
   * the instance ID of its Rigidbody2D (None when it has none), the height
   * of its transform, its distance from the merge point and the
   * half-width of its bounds.
   */
  datatype Neighbour = Neighbour(body: Option<int>, y: real, distance: real, extentX: real)

  /** An impulse request: the body and the scalar size of the impulse. */
  datatype Impulse = Impulse(body: int, magnitude: real)

  /** Distances from the physics engine are never negative. */
  predicate Measured(ns: seq<Neighbour>)
  {
    forall i :: 0 <= i < |ns| ==> ns[i].distance >= 0.0
  }

  /** The overlap push: full strength at the centre, fading to zero at requiredSpace. */
  function PushTerm(distance: real, requiredSpace: real, strength: real): real
    requires distance >= 0.0
  {
    if distance < requiredSpace then strength * (1.0 - distance / requiredSpace) else 0.0
  }

  /** The explosion term: full force at the centre, fading to zero at the explosion radius. */
  function ExplosionTerm(distance: real, explosionRadius: real, force: real): real
    requires distance >= 0.0
  {
    if distance < explosionRadius then force * (1.0 - distance / explosionRadius) else 0.0
  }

  function ExplosionRadius(next: FruitPrefab): real
  {
    next.radius * next.explosionRadiusMultiplier
  }

  /** The radius handed to the overlap query: Mathf.Max(newRadius * 2, explosionRadius). */
  function QueryRadius(next: FruitPrefab): (q: real)
    ensures q >= ExplosionRadius(next) && q >= next.radius * 2.0
  {
    MaxReal(next.radius * 2.0, ExplosionRadius(next))
  }

  /** totalForce before the up/down scaling, with the next tier's parameters. */
  function ForceMagnitude(next: FruitPrefab, n: Neighbour): real
    requires n.distance >= 0.0
  {
    PushTerm(n.distance, next.radius + n.extentX, next.pushStrength)
    + ExplosionTerm(n.distance, ExplosionRadius(next), next.explosionForce)
  }

  /** The vertical asymmetry: 0.6 for a target above the merge point, 1.2 otherwise. */
  function Scaled(total: real, targetY: real, centerY: real): real
  {
    if targetY > centerY then total * 0.6 else total * 1.2
  }

  /** A collider gets an impulse: it has a body, that body is not the acting fruit's, and the force is positive. */
  predicate Receives(next: FruitPrefab, selfBody: int, n: Neighbour)
    requires n.distance >= 0.0
  {
    n.body.Some? && n.body.value != selfBody && ForceMagnitude(next, n) > 0.0
  }

  function ImpulseFor(next: FruitPrefab, centerY: real, selfBody: int, n: Neighbour): seq<Impulse>
    requires n.distance >= 0.0
  {
    if Receives(next, selfBody, n)
    then [Impulse(n.body.value, Scaled(ForceMagnitude(next, n), n.y, centerY))]
    else []
  }

  /** The impulses for the colliders, in the order the query returned them. */
  function Impulses(next: FruitPrefab, centerY: real, selfBody: int, ns: seq<Neighbour>): seq<Impulse>
    requires Measured(ns)
  {
    if ns == [] then []
    else Impulses(next, centerY, selfBody, ns[..|ns| - 1]) + ImpulseFor(next, centerY, selfBody, ns[|ns| - 1])
  }

  /** The two fading terms of ApplyPushForce's loop body, added up. */
  method TotalForce(next: FruitPrefab, explosionRadius: real, col: Neighbour) returns (totalForce: real)
    requires col.distance >= 0.0 && explosionRadius == ExplosionRadius(next)
    ensures totalForce == ForceMagnitude(next, col)
  {
    var distance := col.distance;
    totalForce := 0.0;
    var requiredSpace := next.radius + col.extentX;
    if distance < requiredSpace {
      var overlapRatio := 1.0 - distance / requiredSpace;
      totalForce := totalForce + next.pushStrength * overlapRatio;
    }
    if distance < explosionRadius {
      var explosionRatio := 1.0 - distance / explosionRadius;
      totalForce := totalForce + next.explosionForce * explosionRatio;
    }
  }

  /**
   * ApplyPushForce without the engine: the radius of the overlap query and
   * the impulses for the colliders it returned; nothing when the next tier
   * has no prefab.
   */
  method ApplyPushForce(center: Vec3, nextPrefab: Option<FruitPrefab>, selfBody: int, colliders: seq<Neighbour>)
    returns (queryRadius: Option<real>, impulses: seq<Impulse>)
    requires Measured(colliders)
    ensures nextPrefab.None? ==> queryRadius.None? && impulses == []
    ensures nextPrefab.Some? ==> queryRadius == Some(QueryRadius(nextPrefab.value))
    ensures nextPrefab.Some? ==> impulses == Impulses(nextPrefab.value, center.y, selfBody, colliders)
  {
    if nextPrefab.None? {
      return None, [];
    }
    var next := nextPrefab.value;
    var explosionRadius := next.radius * next.explosionRadiusMultiplier;
    var maxRadius := MaxReal(next.radius * 2.0, explosionRadius);
    queryRadius := Some(maxRadius);

    impulses := [];
    for k := 0 to |colliders|
      invariant impulses == Impulses(next, center.y, selfBody, colliders[..k])
    {
      var col := colliders[k];
      assert colliders[..k + 1][..k] == colliders[..k];
      if col.body.Some? && col.body.value != selfBody {
        var totalForce := TotalForce(next, explosionRadius, col);
        if totalForce > 0.0 {
          if col.y > center.y {
            totalForce := totalForce * 0.6;
          } else {
            totalForce := totalForce * 1.2;
          }
          impulses := impulses + [Impulse(col.body.value, totalForce)];
        }
      }
    }
    assert colliders[..|colliders|] == colliders;
  }

  // ---------------------------------------------------------------------
  // Properties of the force model
  // ---------------------------------------------------------------------

  lemma FadingTermBounds(distance: real, reach: real, strength: real)
    requires distance >= 0.0 && strength >= 0.0 && distance < reach
    ensures 0.0 <= strength * (1.0 - distance / reach) <= strength
  {
    var ratio := distance / reach;
    assert ratio * reach == distance;
    assert 0.0 <= ratio <= 1.0;
    assert strength * (1.0 - ratio) <= strength * 1.0 by {
      assert strength * ratio >= 0.0;
    }
    assert strength * (1.0 - ratio) >= 0.0;
  }

  /**
   * Each term is present only inside its own reach, and for nonnegative
   * strengths lies between zero and the strength.
   */
  lemma TermBounds(next: FruitPrefab, n: Neighbour)
    requires n.distance >= 0.0 && next.pushStrength >= 0.0 && next.explosionForce >= 0.0
    ensures var push := PushTerm(n.distance, next.radius + n.extentX, next.pushStrength);
      && (push != 0.0 ==> n.distance < next.radius + n.extentX)
      && 0.0 <= push <= next.pushStrength
    ensures var blast := ExplosionTerm(n.distance, ExplosionRadius(next), next.explosionForce);
      && (blast != 0.0 ==> n.distance < ExplosionRadius(next))
      && 0.0 <= blast <= next.explosionForce
    ensures 0.0 <= ForceMagnitude(next, n) <= next.pushStrength + next.explosionForce
  {
    if n.distance < next.radius + n.extentX {
      FadingTermBounds(n.distance, next.radius + n.extentX, next.pushStrength);
    }
    if n.distance < ExplosionRadius(next) {
      FadingTermBounds(n.distance, ExplosionRadius(next), next.explosionForce);
    }
  }

  /**
   * Every body the explosion term reaches lies within the query radius,
   * so the query cannot miss one.
   */
  lemma ExplosionInsideQuery(next: FruitPrefab, n: Neighbour)
    requires n.distance >= 0.0
    requires ExplosionTerm(n.distance, ExplosionRadius(next), next.explosionForce) != 0.0
    ensures n.distance < QueryRadius(next)
  {
  }

  /** A target above the merge point gets half of what the same force gives a target below it. */
  lemma UpwardHalf(total: real, above: real, below: real, centerY: real)
    requires above > centerY && below <= centerY
    ensures Scaled(total, above, centerY) * 2.0 == Scaled(total, below, centerY)
    ensures total > 0.0 ==> 0.0 < Scaled(total, above, centerY) < Scaled(total, below, centerY)
  {
  }

  /** imp is the impulse n receives. */
  predicate IsImpulseOf(next: FruitPrefab, centerY: real, selfBody: int, n: Neighbour, imp: Impulse)
    requires n.distance >= 0.0
  {
    Receives(next, selfBody, n) && imp == Impulse(n.body.value, Scaled(ForceMagnitude(next, n), n.y, centerY))
  }

  /**
   * Every impulse goes to a collider that receives one (it has a body other
   * than the acting fruit's and a positive force), with the scaled
   * magnitude; so no impulse of size zero is ever applied.
   */
  lemma {:induction false} ImpulsesComeFromReceivers(next: FruitPrefab, centerY: real, selfBody: int, ns: seq<Neighbour>)
    requires Measured(ns)
    ensures forall m :: 0 <= m < |Impulses(next, centerY, selfBody, ns)| ==>
      exists k :: 0 <= k < |ns| && IsImpulseOf(next, centerY, selfBody, ns[k], Impulses(next, centerY, selfBody, ns)[m])
  {
    if ns != [] {
      var init := ns[..|ns| - 1];
      ImpulsesComeFromReceivers(next, centerY, selfBody, init);
      var rest := Impulses(next, centerY, selfBody, init);
      var imps := Impulses(next, centerY, selfBody, ns);
      forall m | 0 <= m < |imps|
        ensures exists k :: 0 <= k < |ns| && IsImpulseOf(next, centerY, selfBody, ns[k], imps[m])
      {
        if m < |rest| {
          var k :| 0 <= k < |init| && IsImpulseOf(next, centerY, selfBody, init[k], rest[m]);
          assert init[k] == ns[k];
          assert imps[m] == rest[m];
        } else {
          assert IsImpulseOf(next, centerY, selfBody, ns[|ns| - 1], imps[m]);
        }
      }
      assert forall m :: 0 <= m < |imps| ==>
        exists k :: 0 <= k < |ns| && IsImpulseOf(next, centerY, selfBody, ns[k], imps[m]);
    } else {
      assert Impulses(next, centerY, selfBody, ns) == [];
    }
  }

  /** Conversely, every collider that receives an impulse gets one, with the scaled magnitude. */
  lemma {:induction false} ReceiversGetImpulse(next: FruitPrefab, centerY: real, selfBody: int, ns: seq<Neighbour>, k: int)
    requires Measured(ns) && 0 <= k < |ns| && Receives(next, selfBody, ns[k])
    ensures Impulse(ns[k].body.value, Scaled(ForceMagnitude(next, ns[k]), ns[k].y, centerY))
            in Impulses(next, centerY, selfBody, ns)
  {
    var init := ns[..|ns| - 1];
    if k < |ns| - 1 {
      assert init[k] == ns[k];
      ReceiversGetImpulse(next, centerY, selfBody, init, k);
    }
  }

  /** With nonnegative strengths every impulse is positive and at most 1.2 times the two strengths together. */
  lemma {:induction false} ImpulseMagnitudeBounds(next: FruitPrefab, centerY: real, selfBody: int, ns: seq<Neighbour>)
    requires Measured(ns) && next.pushStrength >= 0.0 && next.explosionForce >= 0.0
    ensures forall imp :: imp in Impulses(next, centerY, selfBody, ns) ==>
      0.0 < imp.magnitude <= 1.2 * (next.pushStrength + next.explosionForce)
  {
    ImpulsesComeFromReceivers(next, centerY, selfBody, ns);
    var imps := Impulses(next, centerY, selfBody, ns);
    forall imp | imp in imps
      ensures 0.0 < imp.magnitude <= 1.2 * (next.pushStrength + next.explosionForce)
    {
      var m :| 0 <= m < |imps| && imps[m] == imp;
      var k :| 0 <= k < |ns| && IsImpulseOf(next, centerY, selfBody, ns[k], imps[m]);
      TermBounds(next, ns[k]);
    }
  }
}

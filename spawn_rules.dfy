/**
 * The decision logic of FruitSpawner: which tier to spawn next (band
 * selection, the emergency and no-merge boosts, normalisation, sampling),
 * where a merged fruit may appear, and how many points the dashed
 * trajectory line gets.
 *
 * Weights are reals; the random draw is a parameter.  A zero weight sum,
 * which in single-precision floats turns every weight into NaN (or an
 * infinity), is represented by None.
 */
module SpawnRules {
  import opened Wrappers
  import opened FruitRecords

  /** Number of tiers the spawner can produce (Cherry .. index 4). */
  const SpawnTiers: nat := 5

  /** One band of the probability configuration. */
  datatype ProbabilitySet = ProbabilitySet(maxLevelThreshold: int, probabilities: seq<real>)

  /** The JSON-loaded spawn configuration. */
  datatype SpawnProbabilityConfig = SpawnProbabilityConfig(
    probabilitySets: seq<ProbabilitySet>,
    emergencyFruitCount: int,
    emergencyBoost: real,
    noMergeThreshold: int,
    noMergeBoost: real)

  // ---------------------------------------------------------------------
  // Building the weight vector
  // ---------------------------------------------------------------------

  /** A zeroed five-entry buffer after copying min(5, |p|) leading entries of p into it. */
  function CopyWeights(p: seq<real>): (w: seq<real>)
    ensures |w| == SpawnTiers
  {
    seq(SpawnTiers, i requires 0 <= i < SpawnTiers => if i < |p| then p[i] else 0.0)
  }

  /** The weights of the first band whose threshold is at least maxLevel; zeros when none is. */
  function BandWeights(sets: seq<ProbabilitySet>, maxLevel: int): (w: seq<real>)
    ensures |w| == SpawnTiers
  {
    if sets == [] then CopyWeights([])
    else if maxLevel <= sets[0].maxLevelThreshold then CopyWeights(sets[0].probabilities)
    else BandWeights(sets[1..], maxLevel)
  }

  /** Band k is the first band whose threshold admits maxLevel. */
  predicate IsFirstBand(sets: seq<ProbabilitySet>, maxLevel: int, k: int)
  {
    && 0 <= k < |sets|
    && maxLevel <= sets[k].maxLevelThreshold
    && forall j :: 0 <= j < k ==> sets[j].maxLevelThreshold < maxLevel
  }

  /** Crowded board: 0.7 of the boost to Cherry, 0.3 to tier 1, tiers 2..4 scaled by 0.85. */
  function EmergencyAdjust(w: seq<real>, boost: real): seq<real>
    requires |w| == SpawnTiers
  {
    [w[0] + boost * 0.7, w[1] + boost * 0.3, w[2] * 0.85, w[3] * 0.85, w[4] * 0.85]
  }

  /** Stagnation: the whole boost to Cherry, tiers 1..4 scaled by 0.8. */
  function NoMergeAdjust(w: seq<real>, boost: real): seq<real>
    requires |w| == SpawnTiers
  {
    [w[0] + boost, w[1] * 0.8, w[2] * 0.8, w[3] * 0.8, w[4] * 0.8]
  }

  function Total(w: seq<real>): real
    requires |w| == SpawnTiers
  {
    w[0] + w[1] + w[2] + w[3] + w[4]
  }

  /** The weights before normalisation: band, then the emergency step, then the no-merge step. */
  function Adjusted(c: SpawnProbabilityConfig, maxLevel: int, activeFruits: int, noMergeCount: int): (w: seq<real>)
    ensures |w| == SpawnTiers
  {
    var band := BandWeights(c.probabilitySets, maxLevel);
    var crowded := if activeFruits >= c.emergencyFruitCount then EmergencyAdjust(band, c.emergencyBoost) else band;
    if noMergeCount >= c.noMergeThreshold then NoMergeAdjust(crowded, c.noMergeBoost) else crowded
  }

  function Scale(w: seq<real>, k: real): seq<real>
    requires |w| == SpawnTiers
  {
    [w[0] * k, w[1] * k, w[2] * k, w[3] * k, w[4] * k]
  }

  /** Each weight multiplied by 1/sum; None when the sum is zero (the float code yields NaN there). */
  function Normalise(w: seq<real>): Option<seq<real>>
    requires |w| == SpawnTiers
  {
    var sum := Total(w);
    if sum == 0.0 then None
    else Some(Scale(w, 1.0 / sum))
  }

  /** The distribution GetProbabilities returns; all weight on Cherry when no configuration is loaded. */
  function Probabilities(config: Option<SpawnProbabilityConfig>, maxLevel: int, activeFruits: int, noMergeCount: int): (p: Option<seq<real>>)
    ensures p.Some? ==> |p.value| == SpawnTiers
  {
    match config
    case None => Some([1.0, 0.0, 0.0, 0.0, 0.0])
    case Some(c) => Normalise(Adjusted(c, maxLevel, activeFruits, noMergeCount))
  }

  /** The band loop of GetProbabilities: Array.Copy of the first admitting band into the zeroed buffer. */
  method CopyFirstBand(probs: array<real>, sets: seq<ProbabilitySet>, maxLevel: int)
    requires probs.Length == SpawnTiers && probs[..] == CopyWeights([])
    modifies probs
    ensures probs[..] == BandWeights(sets, maxLevel)
  {
    var k := 0;
    while k < |sets|
      invariant 0 <= k <= |sets|
      invariant probs[..] == CopyWeights([])
      invariant BandWeights(sets[k..], maxLevel) == BandWeights(sets, maxLevel)
    {
      var band := sets[k];
      if maxLevel <= band.maxLevelThreshold {
        var copyLength := if probs.Length < |band.probabilities| then probs.Length else |band.probabilities|;
        forall j | 0 <= j < copyLength {
          probs[j] := band.probabilities[j];
        }
        assert probs[..] == CopyWeights(band.probabilities);
        return;
      }
      assert sets[k..][1..] == sets[k + 1..];
      k := k + 1;
    }
  }

  /** The emergency step of GetProbabilities, in place. */
  method BoostCrowded(probs: array<real>, boost: real)
    requires probs.Length == SpawnTiers
    modifies probs
    ensures probs[..] == EmergencyAdjust(old(probs[..]), boost)
  {
    probs[0] := probs[0] + boost * 0.7;
    probs[1] := probs[1] + boost * 0.3;
    probs[2] := probs[2] * 0.85;
    probs[3] := probs[3] * 0.85;
    probs[4] := probs[4] * 0.85;
  }

  /** The no-merge step of GetProbabilities, in place. */
  method BoostStagnant(probs: array<real>, boost: real)
    requires probs.Length == SpawnTiers
    modifies probs
    ensures probs[..] == NoMergeAdjust(old(probs[..]), boost)
  {
    probs[0] := probs[0] + boost;
    probs[1] := probs[1] * 0.8;
    probs[2] := probs[2] * 0.8;
    probs[3] := probs[3] * 0.8;
    probs[4] := probs[4] * 0.8;
  }

  /** The final rescaling of GetProbabilities, in place. */
  method Rescale(probs: array<real>, invSum: real)
    requires probs.Length == SpawnTiers
    modifies probs
    ensures probs[..] == Scale(old(probs[..]), invSum)
  {
    ghost var before := probs[..];
    probs[0] := probs[0] * invSum;
    probs[1] := probs[1] * invSum;
    probs[2] := probs[2] * invSum;
    probs[3] := probs[3] * invSum;
    probs[4] := probs[4] * invSum;
    ghost var scaled := Scale(before, invSum);
    assert probs[..][0] == scaled[0] && probs[..][1] == scaled[1] && probs[..][2] == scaled[2];
    assert probs[..][3] == scaled[3] && probs[..][4] == scaled[4];
  }

  /**
   * GetProbabilities: fills a five-entry buffer from the first matching band,
   * boosts it in place and rescales it by the inverse of its sum.
   */
  method GetProbabilities(config: Option<SpawnProbabilityConfig>, maxLevel: int, activeFruits: int, noMergeCount: int)
    returns (probabilities: Option<seq<real>>)
    ensures probabilities == Probabilities(config, maxLevel, activeFruits, noMergeCount)
  {
    if config.None? {
      return Some([1.0, 0.0, 0.0, 0.0, 0.0]);
    }
    var c := config.value;
    var probs := new real[SpawnTiers](_ => 0.0);
    CopyFirstBand(probs, c.probabilitySets, maxLevel);
    if activeFruits >= c.emergencyFruitCount {
      BoostCrowded(probs, c.emergencyBoost);
    }
    if noMergeCount >= c.noMergeThreshold {
      BoostStagnant(probs, c.noMergeBoost);
    }
    assert probs[..] == Adjusted(c, maxLevel, activeFruits, noMergeCount);

    var sum := probs[0] + probs[1] + probs[2] + probs[3] + probs[4];
    if sum == 0.0 {
      return None;
    }
    Rescale(probs, 1.0 / sum);
    probabilities := Some(probs[..]);
  }

  // ---------------------------------------------------------------------
  // Sampling
  // ---------------------------------------------------------------------

  /** Weight of tiers 0..i together. */
  function Cumulative(w: seq<real>, i: nat): real
    requires i < |w|
  {
    if i == 0 then w[0] else Cumulative(w, i - 1) + w[i]
  }

  /** The cumulative walk from tier i on; Cherry when the draw is never reached. */
  function SearchFrom(w: seq<real>, r: real, i: nat): int
    requires |w| == SpawnTiers && i <= SpawnTiers
    decreases SpawnTiers - i
  {
    if i == SpawnTiers then Cherry
    else if r <= Cumulative(w, i) then i
    else SearchFrom(w, r, i + 1)
  }

  /** The tier that the draw r selects; NaN weights (None) match nothing and give Cherry. */
  function SampleIndex(p: Option<seq<real>>, r: real): int
    requires p.Some? ==> |p.value| == SpawnTiers
  {
    match p
    case None => Cherry
    case Some(w) => SearchFrom(w, r, 0)
  }

  /** The loop of GetRandomFruitType, after the weights are computed and the draw is made. */
  method SampleFruitType(probabilities: Option<seq<real>>, randomValue: real) returns (t: int)
    requires probabilities.Some? ==> |probabilities.value| == SpawnTiers
    ensures t == SampleIndex(probabilities, randomValue)
  {
    if probabilities.None? {
      // every comparison with NaN is false: the loop runs through to the fallback
      return Cherry;
    }
    var p := probabilities.value;
    var cumulative := 0.0;
    for i := 0 to SpawnTiers
      invariant i == 0 ==> cumulative == 0.0
      invariant i > 0 ==> cumulative == Cumulative(p, i - 1)
      invariant SearchFrom(p, randomValue, i) == SampleIndex(probabilities, randomValue)
    {
      cumulative := cumulative + p[i];
      if randomValue <= cumulative {
        return i;
      }
    }
    return Cherry;
  }

  /** GetRandomFruitType with the board signals and the random draw as inputs. */
  method GetRandomFruitType(config: Option<SpawnProbabilityConfig>, maxLevel: int, activeFruits: int,
                            noMergeCount: int, randomValue: real) returns (t: int)
    ensures t == SampleIndex(Probabilities(config, maxLevel, activeFruits, noMergeCount), randomValue)
    ensures 0 <= t < SpawnTiers
  {
    var probabilities := GetProbabilities(config, maxLevel, activeFruits, noMergeCount);
    t := SampleFruitType(probabilities, randomValue);
    SampleInRange(probabilities, randomValue);
  }

  // ---------------------------------------------------------------------
  // Properties of band selection
  // ---------------------------------------------------------------------

  /** The first admitting band is copied entry by entry, the entries it lacks stay zero. */
  lemma {:induction false} BandSelection(sets: seq<ProbabilitySet>, maxLevel: int, k: int)
    requires IsFirstBand(sets, maxLevel, k)
    ensures BandWeights(sets, maxLevel) == CopyWeights(sets[k].probabilities)
    ensures forall i :: 0 <= i < SpawnTiers ==>
      BandWeights(sets, maxLevel)[i] == if i < |sets[k].probabilities| then sets[k].probabilities[i] else 0.0
  {
    if k > 0 {
      assert sets[0].maxLevelThreshold < maxLevel;
      assert forall j :: 0 <= j < k - 1 ==> sets[1..][j] == sets[j + 1];
      BandSelection(sets[1..], maxLevel, k - 1);
    }
  }

  /** With no admitting band the working vector is all zeros. */
  lemma {:induction false} NoBandSelected(sets: seq<ProbabilitySet>, maxLevel: int)
    requires forall k :: 0 <= k < |sets| ==> sets[k].maxLevelThreshold < maxLevel
    ensures forall i :: 0 <= i < SpawnTiers ==> BandWeights(sets, maxLevel)[i] == 0.0
  {
    if sets != [] {
      assert forall j :: 0 <= j < |sets| - 1 ==> sets[1..][j] == sets[j + 1];
      NoBandSelected(sets[1..], maxLevel);
    }
  }

  // ---------------------------------------------------------------------
  // Properties of normalisation
  // ---------------------------------------------------------------------

  /** A nonzero sum normalises to weights that sum to one, each its original share of the sum. */
  lemma NormaliseSumsToOne(w: seq<real>)
    requires |w| == SpawnTiers
    ensures Normalise(w).None? <==> Total(w) == 0.0
    ensures Normalise(w).Some? ==> |Normalise(w).value| == SpawnTiers && Total(Normalise(w).value) == 1.0
    ensures Normalise(w).Some? ==>
      forall i :: 0 <= i < SpawnTiers ==> Normalise(w).value[i] * Total(w) == w[i]
  {
    var s := Total(w);
    if s != 0.0 {
      var inv := 1.0 / s;
      var n := Normalise(w).value;
      assert s * inv == 1.0;
      assert Total(n) == s * inv;
      forall i | 0 <= i < SpawnTiers
        ensures n[i] * s == w[i]
      {
        assert n[i] == w[i] * inv;
        assert w[i] * inv * s == w[i] * (s * inv);
      }
    }
  }

  lemma UnitShare(a: real, s: real)
    requires 0.0 <= a <= s && s > 0.0
    ensures 0.0 <= a * (1.0 / s) <= 1.0
  {
    var inv := 1.0 / s;
    assert s * inv == 1.0;
    MulMonotone(0.0, a, inv);
    MulMonotone(a, s, inv);
  }

  /** Nonnegative weights with a positive sum normalise into [0, 1]. */
  lemma NormalisedWithinUnit(w: seq<real>)
    requires |w| == SpawnTiers && NonNegative(w) && Total(w) > 0.0
    ensures Normalise(w).Some? && NonNegative(Normalise(w).value)
    ensures forall i :: 0 <= i < SpawnTiers ==> Normalise(w).value[i] <= 1.0
  {
    var s := Total(w);
    var n := Scale(w, 1.0 / s);
    assert Normalise(w) == Some(n);
    forall i | 0 <= i < SpawnTiers
      ensures 0.0 <= n[i] <= 1.0
    {
      assert n[i] == w[i] * (1.0 / s);
      assert w[0] >= 0.0 && w[1] >= 0.0 && w[2] >= 0.0 && w[3] >= 0.0 && w[4] >= 0.0;
      UnitShare(w[i], s);
    }
  }

  /** The returned distribution is defined and sums to one exactly when the pre-normalisation sum is nonzero. */
  lemma ProbabilitiesSumToOne(config: Option<SpawnProbabilityConfig>, maxLevel: int, activeFruits: int, noMergeCount: int)
    ensures Probabilities(config, maxLevel, activeFruits, noMergeCount).Some? <==>
      (config.None? || Total(Adjusted(config.value, maxLevel, activeFruits, noMergeCount)) != 0.0)
    ensures Probabilities(config, maxLevel, activeFruits, noMergeCount).Some? ==>
      Total(Probabilities(config, maxLevel, activeFruits, noMergeCount).value) == 1.0
  {
    if config.Some? {
      NormaliseSumsToOne(Adjusted(config.value, maxLevel, activeFruits, noMergeCount));
    }
  }

  // ---------------------------------------------------------------------
  // Properties of sampling
  // ---------------------------------------------------------------------

  lemma {:induction false} SearchFromIsLeast(w: seq<real>, r: real, i: nat)
    requires |w| == SpawnTiers && i <= SpawnTiers
    requires forall j :: 0 <= j < i ==> r > Cumulative(w, j)
    ensures var t := SearchFrom(w, r, i);
      && 0 <= t < SpawnTiers
      && (forall j :: 0 <= j < t ==> r > Cumulative(w, j))
      && ((exists j :: 0 <= j < SpawnTiers && r <= Cumulative(w, j)) ==> r <= Cumulative(w, t))
      && ((forall j :: 0 <= j < SpawnTiers ==> r > Cumulative(w, j)) ==> t == Cherry)
    decreases SpawnTiers - i
  {
    if i < SpawnTiers && r > Cumulative(w, i) {
      SearchFromIsLeast(w, r, i + 1);
    }
  }

  /**
   * Sampling returns the least tier whose cumulative weight reaches the draw,
   * and Cherry when no tier does.
   */
  lemma SampleIsLeastIndex(w: seq<real>, r: real)
    requires |w| == SpawnTiers
    ensures var t := SampleIndex(Some(w), r);
      && 0 <= t < SpawnTiers
      && (forall j :: 0 <= j < t ==> r > Cumulative(w, j))
      && ((exists j :: 0 <= j < SpawnTiers && r <= Cumulative(w, j)) ==> r <= Cumulative(w, t))
      && ((forall j :: 0 <= j < SpawnTiers ==> r > Cumulative(w, j)) ==> t == Cherry)
  {
    SearchFromIsLeast(w, r, 0);
  }

  /** The sampled tier is always a spawnable tier. */
  lemma SampleInRange(p: Option<seq<real>>, r: real)
    requires p.Some? ==> |p.value| == SpawnTiers
    ensures 0 <= SampleIndex(p, r) < SpawnTiers
  {
    if p.Some? {
      SampleIsLeastIndex(p.value, r);
    }
  }

  lemma {:induction false} CumulativeMonotone(w: seq<real>, i: nat, k: nat)
    requires i <= k < |w| && NonNegative(w)
    ensures Cumulative(w, i) <= Cumulative(w, k)
    decreases k
  {
    if i < k {
      CumulativeMonotone(w, i, k - 1);
    }
  }

  /**
   * With nonnegative weights, tier i is chosen exactly for the draws in
   * (Cumulative(w, i - 1), Cumulative(w, i)], an interval of length w[i].
   */
  lemma SampleInterval(w: seq<real>, r: real, i: nat)
    requires |w| == SpawnTiers && NonNegative(w) && i < SpawnTiers
    requires i > 0 ==> Cumulative(w, i - 1) < r
    requires r <= Cumulative(w, i)
    ensures SampleIndex(Some(w), r) == i
  {
    SampleIsLeastIndex(w, r);
    var t := SampleIndex(Some(w), r);
    if t < i {
      CumulativeMonotone(w, t, i - 1);
    }
  }

  lemma CumulativeIsTotal(w: seq<real>)
    requires |w| == SpawnTiers
    ensures Cumulative(w, SpawnTiers - 1) == Total(w)
  {
    assert Cumulative(w, 1) == w[0] + w[1];
    assert Cumulative(w, 2) == w[0] + w[1] + w[2];
    assert Cumulative(w, 3) == w[0] + w[1] + w[2] + w[3];
  }

  /**
   * On a normalised distribution, a draw of at most 1 is matched by the
   * cumulative walk: the Cherry fallback is only reached through NaN.
   */
  lemma NormalisedDrawIsMatched(p: seq<real>, r: real)
    requires |p| == SpawnTiers && Total(p) == 1.0 && r <= 1.0
    ensures r <= Cumulative(p, SampleIndex(Some(p), r))
  {
    CumulativeIsTotal(p);
    SampleIsLeastIndex(p, r);
  }

  // ---------------------------------------------------------------------
  // Effect of the boosts on the distribution
  // ---------------------------------------------------------------------

  lemma MulStrict(a: real, b: real, c: real)
    requires a < b && c > 0.0
    ensures a * c < b * c
  {
    assert (b - a) * c > 0.0;
  }

  lemma MulMonotone(a: real, b: real, c: real)
    requires a <= b && c >= 0.0
    ensures a * c <= b * c
  {
    assert (b - a) * c >= 0.0;
  }

  /** The share x of x + y grows when x grows and y strictly shrinks. */
  lemma ShareIncreases(x: real, y: real, x': real, y': real)
    requires 0.0 <= x <= x' && 0.0 < x' && 0.0 <= y' < y
    ensures x * (1.0 / (x + y)) < x' * (1.0 / (x' + y'))
  {
    var d, d' := x + y, x' + y';
    var inv, inv' := 1.0 / d, 1.0 / d';
    assert d * inv == 1.0 && d' * inv' == 1.0;
    assert inv > 0.0 && inv' > 0.0;
    assert x * y' < x' * y by {
      if x > 0.0 {
        MulStrict(y', y, x);
        MulMonotone(x, x', y);
      } else {
        assert x' * y > 0.0;
      }
    }
    assert x * d' < x' * d;
    MulStrict(x * d', x' * d, inv * inv');
    assert x * d' * (inv * inv') == (x * inv) * (d' * inv');
    assert x' * d * (inv * inv') == (x' * inv') * (d * inv);
  }

  /** Cherry's entry, and tiers 0 and 1 together, of the normalised vector, as shares of the sum. */
  lemma NormalisedShare(w: seq<real>)
    requires |w| == SpawnTiers && Total(w) != 0.0
    ensures Normalise(w).Some?
    ensures Normalise(w).value[0] == w[0] * (1.0 / Total(w))
    ensures Normalise(w).value[0] + Normalise(w).value[1] == (w[0] + w[1]) * (1.0 / Total(w))
  {
  }

  /**
   * A crowded board moves probability mass onto Cherry and tier 1: holding
   * the other signals fixed, crossing emergencyFruitCount strictly raises the
   * combined chance of tiers 0 and 1, whether or not the no-merge step fires.
   */
  lemma EmergencyRaisesSmallTierMass(c: SpawnProbabilityConfig, maxLevel: int, calmFruits: int,
                                     crowdedFruits: int, noMergeCount: int)
    requires calmFruits < c.emergencyFruitCount <= crowdedFruits
    requires NonNegative(BandWeights(c.probabilitySets, maxLevel))
    requires c.emergencyBoost >= 0.0 && c.noMergeBoost >= 0.0
    requires var b := BandWeights(c.probabilitySets, maxLevel); b[2] + b[3] + b[4] > 0.0
    requires var b := BandWeights(c.probabilitySets, maxLevel); c.emergencyBoost > 0.0 || b[0] + b[1] > 0.0
    ensures Probabilities(Some(c), maxLevel, calmFruits, noMergeCount).Some?
    ensures Probabilities(Some(c), maxLevel, crowdedFruits, noMergeCount).Some?
    ensures var calm := Probabilities(Some(c), maxLevel, calmFruits, noMergeCount).value;
            var crowded := Probabilities(Some(c), maxLevel, crowdedFruits, noMergeCount).value;
            calm[0] + calm[1] < crowded[0] + crowded[1]
  {
    var b := BandWeights(c.probabilitySets, maxLevel);
    var a := Adjusted(c, maxLevel, calmFruits, noMergeCount);
    var a' := Adjusted(c, maxLevel, crowdedFruits, noMergeCount);
    var x, y := a[0] + a[1], a[2] + a[3] + a[4];
    var x', y' := a'[0] + a'[1], a'[2] + a'[3] + a'[4];
    if noMergeCount >= c.noMergeThreshold {
      assert x' == x + c.emergencyBoost * 0.94;
      assert y == (b[2] + b[3] + b[4]) * 0.8;
    } else {
      assert x' == x + c.emergencyBoost;
      assert y == b[2] + b[3] + b[4];
    }
    assert y' == y * 0.85;
    assert Total(a) == x + y && Total(a') == x' + y';
    NormalisedShare(a);
    NormalisedShare(a');
    ShareIncreases(x, y, x', y');
  }

  /**
   * A run of drops without a merge moves probability onto Cherry: crossing
   * noMergeThreshold strictly raises Cherry's chance, whether or not the
   * emergency step fires.
   */
  lemma NoMergeRaisesCherryShare(c: SpawnProbabilityConfig, maxLevel: int, activeFruits: int,
                                 freshCount: int, staleCount: int)
    requires freshCount < c.noMergeThreshold <= staleCount
    requires NonNegative(BandWeights(c.probabilitySets, maxLevel))
    requires c.emergencyBoost >= 0.0 && c.noMergeBoost > 0.0
    requires var b := BandWeights(c.probabilitySets, maxLevel); b[1] + b[2] + b[3] + b[4] > 0.0
    ensures Probabilities(Some(c), maxLevel, activeFruits, freshCount).Some?
    ensures Probabilities(Some(c), maxLevel, activeFruits, staleCount).Some?
    ensures Probabilities(Some(c), maxLevel, activeFruits, freshCount).value[0]
          < Probabilities(Some(c), maxLevel, activeFruits, staleCount).value[0]
  {
    var b := BandWeights(c.probabilitySets, maxLevel);
    var a := Adjusted(c, maxLevel, activeFruits, freshCount);
    var a' := Adjusted(c, maxLevel, activeFruits, staleCount);
    var x, y := a[0], a[1] + a[2] + a[3] + a[4];
    var x', y' := a'[0], a'[1] + a'[2] + a'[3] + a'[4];
    assert x' == x + c.noMergeBoost;
    assert y' == y * 0.8;
    assert y >= (b[1] + b[2] + b[3] + b[4]) * 0.85;
    assert Total(a) == x + y && Total(a') == x' + y';
    NormalisedShare(a);
    NormalisedShare(a');
    ShareIncreases(x, y, x', y');
  }

  /** The crowded-board example: base [0.4, 0.3, 0.15, 0.1, 0.05], boost 0.3, 25 fruits against a limit of 20. */
  lemma EmergencyScenario()
    ensures Adjusted(SpawnProbabilityConfig([ProbabilitySet(10, [0.4, 0.3, 0.15, 0.1, 0.05])], 20, 0.3, 100, 0.5), 0, 25, 0)
         == [0.61, 0.39, 0.1275, 0.085, 0.0425]
  {
    var c := SpawnProbabilityConfig([ProbabilitySet(10, [0.4, 0.3, 0.15, 0.1, 0.05])], 20, 0.3, 100, 0.5);
    BandSelection(c.probabilitySets, 0, 0);
  }

  // ---------------------------------------------------------------------
  // Placement of a merged fruit
  // ---------------------------------------------------------------------

  /** Unity's Mathf.Clamp: the lower bound wins below it, the upper bound above it. */
  function Clamp(value: real, min: real, max: real): real
  {
    if value < min then min else if value > max then max else value
  }

  /** ClampMergePosition: keeps a merged fruit of radius newRadius inside the container walls. */
  function ClampMergePosition(position: Vec3, newRadius: real, containerHalfWidth: real): (p: Vec3)
    ensures p.y == position.y && p.z == position.z
    ensures newRadius <= containerHalfWidth ==>
      -containerHalfWidth + newRadius <= p.x <= containerHalfWidth - newRadius
    ensures -containerHalfWidth + newRadius <= position.x <= containerHalfWidth - newRadius ==> p == position
    ensures p.x == position.x || p.x == -containerHalfWidth + newRadius || p.x == containerHalfWidth - newRadius
  {
    position.(x := Clamp(position.x, -containerHalfWidth + newRadius, containerHalfWidth - newRadius))
  }

  // ---------------------------------------------------------------------
  // Trajectory line
  // ---------------------------------------------------------------------

  const SegmentLength: real := 0.15
  const MaxRayDistance: real := 20.0

  /** One entry of the downward raycast: whether it hit the held fruit itself, and how far away. */
  datatype RayHit = RayHit(isCurrentFruit: bool, distance: real)

  /** Number of dash segments for a line of the given length (Mathf.FloorToInt). */
  function SegmentCount(totalDistance: real): int
  {
    (totalDistance / SegmentLength).Floor
  }

  /** The hit scan of UpdateTrajectory: the nearest hit below the held fruit that is not the fruit itself. */
  method ClosestHit(hits: seq<RayHit>) returns (foundHit: bool, closestDistance: real)
    ensures foundHit <==> exists k :: 0 <= k < |hits| && !hits[k].isCurrentFruit && hits[k].distance < MaxRayDistance
    ensures foundHit ==> exists k :: 0 <= k < |hits| && !hits[k].isCurrentFruit && hits[k].distance == closestDistance
    ensures !foundHit ==> closestDistance == MaxRayDistance
    ensures closestDistance <= MaxRayDistance
    ensures forall k :: 0 <= k < |hits| && !hits[k].isCurrentFruit ==>
      closestDistance <= hits[k].distance || hits[k].distance >= MaxRayDistance
  {
    closestDistance := MaxRayDistance;
    foundHit := false;
    for i := 0 to |hits|
      invariant closestDistance <= MaxRayDistance
      invariant foundHit <==> exists k :: 0 <= k < i && !hits[k].isCurrentFruit && hits[k].distance < MaxRayDistance
      invariant foundHit ==> exists k :: 0 <= k < i && !hits[k].isCurrentFruit && hits[k].distance == closestDistance
      invariant !foundHit ==> closestDistance == MaxRayDistance
      invariant forall k :: 0 <= k < i && !hits[k].isCurrentFruit ==>
        closestDistance <= hits[k].distance || hits[k].distance >= MaxRayDistance
    {
      if hits[i].isCurrentFruit {
        continue;
      }
      if hits[i].distance < closestDistance {
        closestDistance := hits[i].distance;
        foundHit := true;
      }
    }
  }

  /**
   * The dash loop of UpdateTrajectory: two SetPosition calls for every even
   * segment index, numbered consecutively from 0, all below the
   * segments * 2 points the line was sized to.
   */
  method DashPositions(segments: int) returns (positionCount: int, written: seq<int>)
    ensures segments >= 0 ==> positionCount == 2 * ((segments + 1) / 2)
    ensures segments < 0 ==> positionCount == 0
    ensures |written| == positionCount && forall k :: 0 <= k < |written| ==> written[k] == k
    ensures forall k :: 0 <= k < |written| ==> written[k] < 2 * segments
  {
    var posIndex := 0;
    written := [];
    var i := 0;
    while i < segments
      invariant 0 <= i && (segments >= 0 ==> i <= segments) && (segments < 0 ==> i == 0)
      invariant posIndex == 2 * ((i + 1) / 2)
      invariant |written| == posIndex && forall k :: 0 <= k < |written| ==> written[k] == k
      invariant forall k :: 0 <= k < |written| ==> written[k] < 2 * segments
    {
      if i % 2 == 0 {
        written := written + [posIndex];
        posIndex := posIndex + 1;
        written := written + [posIndex];
        posIndex := posIndex + 1;
      }
      i := i + 1;
    }
    positionCount := posIndex;
  }

  /**
   * UpdateTrajectory without the drawing: the nearest hit, the line length
   * derived from it, the dash segment count and the final point count.
   */
  method UpdateTrajectory(hits: seq<RayHit>, lineExtensionMultiplier: real)
    returns (foundHit: bool, closestDistance: real, segments: int, positionCount: int)
    ensures foundHit <==> exists k :: 0 <= k < |hits| && !hits[k].isCurrentFruit && hits[k].distance < MaxRayDistance
    ensures foundHit ==> exists k :: 0 <= k < |hits| && !hits[k].isCurrentFruit && hits[k].distance == closestDistance
    ensures !foundHit ==> closestDistance == MaxRayDistance
    ensures closestDistance <= MaxRayDistance
    ensures forall k :: 0 <= k < |hits| && !hits[k].isCurrentFruit ==>
      closestDistance <= hits[k].distance || hits[k].distance >= MaxRayDistance
    ensures segments == SegmentCount(if foundHit then closestDistance * lineExtensionMultiplier else MaxRayDistance)
    ensures segments >= 0 ==> positionCount == 2 * ((segments + 1) / 2)
    ensures segments < 0 ==> positionCount == 0
  {
    foundHit, closestDistance := ClosestHit(hits);
    var totalDistance := if foundHit then closestDistance * lineExtensionMultiplier else MaxRayDistance;
    segments := SegmentCount(totalDistance);
    var written;
    positionCount, written := DashPositions(segments);
  }
}

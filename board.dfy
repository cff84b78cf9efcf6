/**
 * GameManager.cs: the FruitData table and the three counters the spawner
 * reads (score, highest tier reached, drops since the last merge).
 *
 * The counters are a value, Counters, with one function per update; a game
 * is a trace of drops and merges, and the lemmas say what the counters are
 * after any trace.  The GameManager class keeps the same counters in
 * fields and forwards every score change to the score label.
 */
module Board {
  import opened Wrappers
  import opened FruitRecords
  import opened ScoreDisplay

  // ---------------------------------------------------------------------
  // The counters as a value
  // ---------------------------------------------------------------------

  datatype Counters = Counters(score: int, maxLevel: int, noMerge: int)

  /** What the rest of the game tells the manager: a drop, or a merge worth points that produced a tier. */
  datatype BoardEvent = Dropped | Merged(points: int, level: int)

  /** DropFruit calls IncrementNoMerge; Merge calls AddScore, UpdateMaxLevel and ResetNoMerge, in that order. */
  function Apply(c: Counters, e: BoardEvent): Counters
  {
    match e
    case Dropped => c.(noMerge := c.noMerge + 1)
    case Merged(points, level) => Counters(c.score + points, Max(c.maxLevel, level), 0)
  }

  function Run(c: Counters, es: seq<BoardEvent>): Counters
  {
    if es == [] then c else Apply(Run(c, es[..|es| - 1]), es[|es| - 1])
  }

  /** The points of all merges in a trace. */
  function MergedPoints(es: seq<BoardEvent>): int
  {
    if es == [] then 0
    else (if es[0].Merged? then es[0].points else 0) + MergedPoints(es[1..])
  }

  /** The drops after the last merge of a trace (all of them when there is none). */
  function TrailingDrops(es: seq<BoardEvent>): nat
  {
    if es == [] || es[|es| - 1].Merged? then 0 else TrailingDrops(es[..|es| - 1]) + 1
  }

  predicate HasMerge(es: seq<BoardEvent>)
  {
    exists k :: 0 <= k < |es| && es[k].Merged?
  }

  lemma {:induction false} MergedPointsSnoc(es: seq<BoardEvent>, e: BoardEvent)
    ensures MergedPoints(es + [e]) == MergedPoints(es) + (if e.Merged? then e.points else 0)
  {
    if es == [] {
      assert es + [e] == [e];
    } else {
      assert (es + [e])[1..] == es[1..] + [e];
      MergedPointsSnoc(es[1..], e);
    }
  }

  /**
   * After any trace: the score is the starting score plus the points of
   * every merge; the drop counter counts the drops since the last merge
   * (or adds every drop when no merge happened).
   */
  lemma {:induction false} RunCounts(c: Counters, es: seq<BoardEvent>)
    ensures Run(c, es).score == c.score + MergedPoints(es)
    ensures HasMerge(es) ==> Run(c, es).noMerge == TrailingDrops(es)
    ensures !HasMerge(es) ==> Run(c, es).noMerge == c.noMerge + |es|
  {
    if es != [] {
      var init := es[..|es| - 1];
      var e := es[|es| - 1];
      RunCounts(c, init);
      assert init + [e] == es;
      MergedPointsSnoc(init, e);
      if HasMerge(init) {
        var k :| 0 <= k < |init| && init[k].Merged?;
        assert es[k] == init[k];
      }
      if HasMerge(es) && !e.Merged? {
        var k :| 0 <= k < |es| && es[k].Merged?;
        assert init[k] == es[k];
      }
      if !HasMerge(init) && e.Dropped? {
        assert TrailingDrops(init) == |init| by {
          NoMergeAllDrops(init);
        }
      }
    }
  }

  lemma {:induction false} NoMergeAllDrops(es: seq<BoardEvent>)
    requires !HasMerge(es)
    ensures TrailingDrops(es) == |es|
  {
    if es != [] {
      var init := es[..|es| - 1];
      NoMergeAllDrops(init);
    }
  }

  /**
   * The highest tier never goes down, covers every merged tier, and is
   * either where it started or the tier of one of the merges.
   */
  lemma {:induction false} RunMaxLevel(c: Counters, es: seq<BoardEvent>)
    ensures Run(c, es).maxLevel >= c.maxLevel
    ensures forall k :: 0 <= k < |es| && es[k].Merged? ==> Run(c, es).maxLevel >= es[k].level
    ensures Run(c, es).maxLevel == c.maxLevel
         || exists k :: 0 <= k < |es| && es[k].Merged? && Run(c, es).maxLevel == es[k].level
  {
    if es != [] {
      var init := es[..|es| - 1];
      RunMaxLevel(c, init);
      var before := Run(c, init);
      forall k | 0 <= k < |es| && es[k].Merged?
        ensures Run(c, es).maxLevel >= es[k].level
      {
        if k < |init| {
          assert es[k] == init[k];
        }
      }
      if Run(c, es).maxLevel != c.maxLevel {
        if Run(c, es).maxLevel == before.maxLevel {
          var k :| 0 <= k < |init| && init[k].Merged? && before.maxLevel == init[k].level;
          assert es[k] == init[k];
        } else {
          assert es[|es| - 1].Merged? && Run(c, es).maxLevel == es[|es| - 1].level;
        }
      }
    }
  }

  /** Two cherries dropped and merged into a strawberry worth one point, then one more drop. */
  lemma TwoCherriesExample()
    ensures Run(Counters(0, 0, 0), [Dropped, Dropped, Merged(1, 1), Dropped]) == Counters(1, 1, 1)
  {
    var es := [Dropped, Dropped, Merged(1, 1), Dropped];
    assert es[..1][..0] == [];
    assert Run(Counters(0, 0, 0), es[..1]) == Counters(0, 0, 1);
    assert es[..2][..1] == es[..1];
    assert Run(Counters(0, 0, 0), es[..2]) == Counters(0, 0, 2);
    assert es[..3][..2] == es[..2];
    assert Run(Counters(0, 0, 0), es[..3]) == Counters(1, 1, 0);
  }

  // ---------------------------------------------------------------------
  // The manager object
  // ---------------------------------------------------------------------

  class GameManager {
    const fruitDataArray: Option<seq<Option<FruitData>>>
    /** UIManager.Instance, the label every score change is forwarded to. */
    const ui: UIManager
    var score: int
    var currentMaxLevel: int
    var consecutiveNoMerge: int

    function State(): Counters
      reads this
    {
      Counters(score, currentMaxLevel, consecutiveNoMerge)
    }

    constructor (fruitDataArray: Option<seq<Option<FruitData>>>, ui: UIManager)
      ensures this.fruitDataArray == fruitDataArray && this.ui == ui
      ensures State() == Counters(0, 0, 0)
    {
      this.fruitDataArray := fruitDataArray;
      this.ui := ui;
      score := 0;
      currentMaxLevel := 0;
      consecutiveNoMerge := 0;
    }

    /**
     * GetFruitData over a table that may be missing (a null array) and
     * whose slots may be empty (null entries): data comes back exactly when
     * the table exists, the index is inside it and the slot is filled.
     */
    function GetFruitData(index: int): (r: Option<FruitData>)
      ensures r.Some? <==> fruitDataArray.Some? && 0 <= index < |fruitDataArray.value| && fruitDataArray.value[index].Some?
      ensures r.Some? ==> r == fruitDataArray.value[index]
    {
      if fruitDataArray.None? || index < 0 || index >= |fruitDataArray.value| then None
      else if fruitDataArray.value[index].None? then None
      else fruitDataArray.value[index]
    }

    /** The length of the table, zero when there is none. */
    function GetFruitDataCount(): (n: nat)
      ensures fruitDataArray.None? ==> n == 0
      ensures fruitDataArray.Some? ==> n == |fruitDataArray.value|
    {
      if fruitDataArray.Some? then |fruitDataArray.value| else 0
    }

    /** The score grows by the points and the label is told the new total. */
    method AddScore(points: int, deltaTime: real)
      modifies this`score, ui
      ensures score == old(score) + points
      ensures ui.State() == ScoreUpdate(old(ui.State()), score, deltaTime, ui.countUpSpeed)
    {
      score := score + points;
      ui.UpdateScoreUI(score, deltaTime);
    }

    method UpdateMaxLevel(level: int)
      modifies this`currentMaxLevel
      ensures currentMaxLevel == Max(old(currentMaxLevel), level)
    {
      if level > currentMaxLevel {
        currentMaxLevel := level;
      }
    }

    method IncrementNoMerge()
      modifies this`consecutiveNoMerge
      ensures State() == Apply(old(State()), Dropped)
    {
      consecutiveNoMerge := consecutiveNoMerge + 1;
    }

    method ResetNoMerge()
      modifies this`consecutiveNoMerge
      ensures consecutiveNoMerge == 0
    {
      consecutiveNoMerge := 0;
    }
  }
}

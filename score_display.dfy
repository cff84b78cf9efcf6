/**
 * UIManager.cs: the score label counts up towards the latest total,
 * one step per frame, driven by a coroutine.
 *
 * The coroutine is modelled by its handle: Idle when countUpCoroutine is
 * null, Suspended while CountUpScore waits at its yield, and Stale when the
 * field holds the handle of a coroutine that has already finished.
 * StartCoroutine runs the coroutine body up to its first yield before it
 * returns.  A count-up started with nothing to count therefore finishes and
 * clears the field at once; if StartCoroutine still returns a handle for
 * that finished routine, the handle is stored back into the field and goes
 * stale (ScoreUpdateAsWritten).  If it returns null instead, the code
 * behaves as ScoreUpdate.
 */
module ScoreDisplay {
  import opened Wrappers

  datatype Handle = Idle | Suspended | Stale

  /** currentDisplayScore, targetScore and countUpCoroutine. */
  datatype Display = Display(shown: int, target: int, handle: Handle)

  /** Mathf.CeilToInt. */
  function Ceil(x: real): (c: int)
    ensures c as real - 1.0 < x <= c as real
  {
    -((-x).Floor)
  }

  /** The step of one loop pass: at least one, and at least the fraction of the gap the frame calls for. */
  function Increment(difference: int, deltaTime: real, countUpSpeed: real): (inc: int)
    ensures inc >= 1
    ensures inc as real >= difference as real * deltaTime * countUpSpeed / 10.0
    ensures difference as real * deltaTime * countUpSpeed / 10.0 > 1.0
            ==> inc as real - 1.0 < difference as real * deltaTime * countUpSpeed / 10.0
  {
    Max(1, Ceil(difference as real * deltaTime * countUpSpeed / 10.0))
  }

  /** The new displayed value after one pass of the loop body: closer to the target and never past it. */
  function Advance(shown: int, target: int, deltaTime: real, countUpSpeed: real): (s: int)
    requires shown < target
    ensures shown < s <= target
  {
    var next := shown + Increment(target - shown, deltaTime, countUpSpeed);
    if next < target then next else target
  }

  /** One frame of a suspended CountUpScore: test the loop condition, then step and yield or finish. */
  function Resume(d: Display, deltaTime: real, countUpSpeed: real): Display
  {
    if d.handle != Suspended then d
    else if d.shown < d.target then Display(Advance(d.shown, d.target, deltaTime, countUpSpeed), d.target, Suspended)
    else d.(handle := Idle)
  }

  /**
   * UpdateScoreUI exactly as written, with StartCoroutine running the body
   * up to its first yield and returning a handle even for a routine that
   * has already finished: the target is set, the shown score does not
   * fall, a count-up runs exactly when one ran or there is something to
   * count, and the handle goes stale exactly when it was stale or a new
   * count-up had nothing to count.
   */
  function ScoreUpdateAsWritten(d: Display, newScore: int, deltaTime: real, countUpSpeed: real): (e: Display)
    ensures e.target == newScore && d.shown <= e.shown
    ensures e.handle == Suspended <==> d.handle == Suspended || (d.handle == Idle && d.shown < newScore)
    ensures e.handle == Stale <==> d.handle == Stale || (d.handle == Idle && newScore <= d.shown)
  {
    if d.handle != Idle then d.(target := newScore)
    else if d.shown < newScore then Display(Advance(d.shown, newScore, deltaTime, countUpSpeed), newScore, Suspended)
    else Display(d.shown, newScore, Stale)
  }

  /**
   * UpdateScoreUI as intended: a count-up that finishes at once leaves the
   * field null, so the update never makes a handle stale.
   */
  function ScoreUpdate(d: Display, newScore: int, deltaTime: real, countUpSpeed: real): (e: Display)
    ensures e.target == newScore && d.shown <= e.shown
    ensures e.handle == Suspended <==> d.handle == Suspended || (d.handle == Idle && d.shown < newScore)
    ensures e.handle == Stale <==> d.handle == Stale
  {
    if d.handle != Idle then d.(target := newScore)
    else if d.shown < newScore then Display(Advance(d.shown, newScore, deltaTime, countUpSpeed), newScore, Suspended)
    else Display(d.shown, newScore, Idle)
  }

  /** Several frames with no new score. */
  function Frames(d: Display, deltaTimes: seq<real>, countUpSpeed: real): Display
    decreases |deltaTimes|
  {
    if deltaTimes == [] then d
    else Frames(Resume(d, deltaTimes[0], countUpSpeed), deltaTimes[1..], countUpSpeed)
  }

  /** The display is live: no stale handle, and a pending count-up always has a coroutine behind it. */
  predicate Live(d: Display)
  {
    d.handle != Stale && (d.shown < d.target ==> d.handle == Suspended)
  }

  /**
   * The intended update and every frame keep the display live, never lower
   * the shown value, and never carry it past the larger of its old value
   * and the target.
   */
  lemma UpdateKeepsLive(d: Display, newScore: int, deltaTime: real, countUpSpeed: real)
    requires Live(d)
    ensures var e := ScoreUpdate(d, newScore, deltaTime, countUpSpeed);
      Live(e) && e.target == newScore && d.shown <= e.shown <= Max(d.shown, newScore)
  {
  }

  lemma ResumeKeepsLive(d: Display, deltaTime: real, countUpSpeed: real)
    requires Live(d)
    ensures var e := Resume(d, deltaTime, countUpSpeed);
      Live(e) && e.target == d.target && d.shown <= e.shown <= Max(d.shown, d.target)
    ensures d.shown < d.target ==> Resume(d, deltaTime, countUpSpeed).shown > d.shown
  {
  }

  lemma {:induction false} FramesKeepLive(d: Display, deltaTimes: seq<real>, countUpSpeed: real)
    requires Live(d)
    ensures var e := Frames(d, deltaTimes, countUpSpeed);
      Live(e) && e.target == d.target && d.shown <= e.shown <= Max(d.shown, d.target)
    decreases |deltaTimes|
  {
    if deltaTimes != [] {
      ResumeKeepsLive(d, deltaTimes[0], countUpSpeed);
      FramesKeepLive(Resume(d, deltaTimes[0], countUpSpeed), deltaTimes[1..], countUpSpeed);
    }
  }

  /** A live display reaches its target within as many frames as the gap, whatever the frame times. */
  lemma {:induction false} CatchesUp(d: Display, deltaTimes: seq<real>, countUpSpeed: real)
    requires Live(d) && |deltaTimes| >= d.target - d.shown
    ensures Frames(d, deltaTimes, countUpSpeed).shown >= d.target
    decreases |deltaTimes|
  {
    if d.shown >= d.target {
      FramesKeepLive(d, deltaTimes, countUpSpeed);
    } else {
      var e := Resume(d, deltaTimes[0], countUpSpeed);
      ResumeKeepsLive(d, deltaTimes[0], countUpSpeed);
      CatchesUp(e, deltaTimes[1..], countUpSpeed);
    }
  }

  /**
   * The count-up ends: one frame more than the gap leaves the display on
   * the target with the coroutine handle cleared.
   */
  lemma {:induction false} CountUpFinishes(d: Display, deltaTimes: seq<real>, countUpSpeed: real)
    requires Live(d) && d.shown <= d.target && |deltaTimes| > d.target - d.shown
    ensures Frames(d, deltaTimes, countUpSpeed) == Display(d.target, d.target, Idle)
    decreases |deltaTimes|
  {
    var e := Resume(d, deltaTimes[0], countUpSpeed);
    if d.handle == Idle {
      IdleStays(d, deltaTimes, countUpSpeed);
    } else if d.shown == d.target {
      IdleStays(e, deltaTimes[1..], countUpSpeed);
    } else {
      CountUpFinishes(e, deltaTimes[1..], countUpSpeed);
    }
  }

  lemma {:induction false} IdleStays(d: Display, deltaTimes: seq<real>, countUpSpeed: real)
    requires d.handle == Idle
    ensures Frames(d, deltaTimes, countUpSpeed) == d
    decreases |deltaTimes|
  {
    if deltaTimes != [] {
      IdleStays(d, deltaTimes[1..], countUpSpeed);
    }
  }

  /** A stale handle is never cleared: later updates and frames leave the shown value where it is. */
  lemma {:induction false} StaleFreezes(d: Display, newScore: int, deltaTime: real, deltaTimes: seq<real>, countUpSpeed: real)
    requires d.handle == Stale
    ensures ScoreUpdateAsWritten(d, newScore, deltaTime, countUpSpeed) == Display(d.shown, newScore, Stale)
    ensures Frames(d, deltaTimes, countUpSpeed) == d
    decreases |deltaTimes|
  {
    if deltaTimes != [] {
      StaleFreezes(d, newScore, deltaTime, deltaTimes[1..], countUpSpeed);
    }
  }

  /**
   * The source as written: a zero-point AddScore on a clean display leaves
   * a stale handle, and after the next merge worth five points the label
   * stays at zero forever; the intended update shows the five within five
   * frames.
   */
  lemma ZeroPointUpdateFreezesDisplay(deltaTime: real, deltaTimes: seq<real>, countUpSpeed: real)
    ensures var stale := ScoreUpdateAsWritten(Display(0, 0, Idle), 0, deltaTime, countUpSpeed);
      && stale.handle == Stale
      && Frames(ScoreUpdateAsWritten(stale, 5, deltaTime, countUpSpeed), deltaTimes, countUpSpeed).shown == 0
    ensures |deltaTimes| >= 5 ==>
      var clean := ScoreUpdate(Display(0, 0, Idle), 0, deltaTime, countUpSpeed);
      Frames(ScoreUpdate(clean, 5, deltaTime, countUpSpeed), deltaTimes, countUpSpeed).shown == 5
  {
    var stale := ScoreUpdateAsWritten(Display(0, 0, Idle), 0, deltaTime, countUpSpeed);
    StaleFreezes(stale, 5, deltaTime, deltaTimes, countUpSpeed);
    var clean := ScoreUpdate(Display(0, 0, Idle), 0, deltaTime, countUpSpeed);
    var after := ScoreUpdate(clean, 5, deltaTime, countUpSpeed);
    UpdateKeepsLive(clean, 5, deltaTime, countUpSpeed);
    if |deltaTimes| >= 5 {
      CatchesUp(after, deltaTimes, countUpSpeed);
      FramesKeepLive(after, deltaTimes, countUpSpeed);
    }
  }

  /** The label and its count-up coroutine. */
  class UIManager {
    const countUpSpeed: real
    var currentDisplayScore: int
    var targetScore: int
    var countUpCoroutine: Handle

    function State(): Display
      reads this
    {
      Display(currentDisplayScore, targetScore, countUpCoroutine)
    }

    constructor (countUpSpeed: real)
      ensures this.countUpSpeed == countUpSpeed
      ensures State() == Display(0, 0, Idle)
    {
      this.countUpSpeed := countUpSpeed;
      currentDisplayScore := 0;
      targetScore := 0;
      countUpCoroutine := Idle;
    }

    /** One pass of CountUpScore's loop body when the condition holds. */
    method StepCountUp(deltaTime: real)
      requires currentDisplayScore < targetScore
      modifies this
      ensures targetScore == old(targetScore) && countUpCoroutine == old(countUpCoroutine)
      ensures currentDisplayScore == Advance(old(currentDisplayScore), targetScore, deltaTime, countUpSpeed)
    {
      var difference := targetScore - currentDisplayScore;
      var increment := Max(1, Ceil(difference as real * deltaTime * countUpSpeed / 10.0));
      assert increment == Increment(difference, deltaTime, countUpSpeed);
      currentDisplayScore := if currentDisplayScore + increment < targetScore then currentDisplayScore + increment else targetScore;
    }

    /** UpdateScoreUI, starting a count-up only when none is running (with the stale handle cleared). */
    method UpdateScoreUI(newScore: int, deltaTime: real)
      modifies this
      ensures State() == ScoreUpdate(old(State()), newScore, deltaTime, countUpSpeed)
    {
      targetScore := newScore;
      if countUpCoroutine == Idle {
        if currentDisplayScore < targetScore {
          StepCountUp(deltaTime);
          countUpCoroutine := Suspended;
        } else {
          countUpCoroutine := Idle;
        }
      }
    }

    /** The frames CountUpScore runs through while no new score arrives, one loop pass per frame. */
    method CountUpScore(deltaTimes: seq<real>)
      modifies this
      ensures State() == Frames(old(State()), deltaTimes, countUpSpeed)
    {
      var i := 0;
      while i < |deltaTimes|
        invariant 0 <= i <= |deltaTimes|
        invariant Frames(State(), deltaTimes[i..], countUpSpeed) == Frames(old(State()), deltaTimes, countUpSpeed)
      {
        assert deltaTimes[i..][1..] == deltaTimes[i + 1..];
        if countUpCoroutine == Suspended {
          if currentDisplayScore < targetScore {
            StepCountUp(deltaTimes[i]);
          } else {
            countUpCoroutine := Idle;
          }
        }
        i := i + 1;
      }
    }
  }
}

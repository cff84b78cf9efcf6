/**
 * DeadLine.cs: a trigger strip near the top of the container.  While a
 * fruit stays in it the timer runs; when a fruit leaves it the timer is
 * reset; once the timer reaches checkDelay the game is over for good.
 *
 * Time.deltaTime and "does the collider carry a Fruit" are inputs of each
 * trigger callback.
 */
module DeadLineMonitor {
  import opened Wrappers

  /** The timer and the game-over flag. */
  datatype Monitor = Monitor(timer: real, isGameOver: bool)

  /** The two trigger callbacks. */
  datatype TriggerEvent = Stay(isFruit: bool, deltaTime: real) | Exit(isFruit: bool)

  function Step(m: Monitor, e: TriggerEvent, checkDelay: real): Monitor
  {
    match e
    case Stay(isFruit, deltaTime) =>
      if m.isGameOver || !isFruit then m
      else
        var t := m.timer + deltaTime;
        Monitor(t, t >= checkDelay)
    case Exit(isFruit) =>
      if isFruit then m.(timer := 0.0) else m
  }

  function Run(m: Monitor, es: seq<TriggerEvent>, checkDelay: real): Monitor
    decreases |es|
  {
    if es == [] then m else Run(Step(m, es[0], checkDelay), es[1..], checkDelay)
  }

  /**
   * One callback: the game ends exactly when a fruit stays long enough
   * before the game was over, stays over once over, and a fruit leaving
   * resets the timer without touching the flag.
   */
  lemma StepFacts(m: Monitor, e: TriggerEvent, checkDelay: real)
    ensures Step(m, e, checkDelay).isGameOver <==>
      m.isGameOver || (e.Stay? && e.isFruit && m.timer + e.deltaTime >= checkDelay)
    ensures m.isGameOver && e.Stay? ==> Step(m, e, checkDelay) == m
    ensures e.Exit? && e.isFruit ==> Step(m, e, checkDelay) == Monitor(0.0, m.isGameOver)
    ensures !e.isFruit ==> Step(m, e, checkDelay) == m
  {
  }

  /** Game over latches: no sequence of callbacks ever clears it. */
  lemma {:induction false} GameOverLatches(m: Monitor, es: seq<TriggerEvent>, checkDelay: real)
    requires m.isGameOver
    ensures Run(m, es, checkDelay).isGameOver
    decreases |es|
  {
    if es != [] {
      GameOverLatches(Step(m, es[0], checkDelay), es[1..], checkDelay);
    }
  }

  /** How many callbacks of a run call GameOver. */
  function Trips(m: Monitor, es: seq<TriggerEvent>, checkDelay: real): nat
    decreases |es|
  {
    if es == [] then 0
    else
      var n := Step(m, es[0], checkDelay);
      (if !m.isGameOver && n.isGameOver then 1 else 0) + Trips(n, es[1..], checkDelay)
  }

  /** GameOver runs at most once in any run, and never once the game is over. */
  lemma {:induction false} GameOverAtMostOnce(m: Monitor, es: seq<TriggerEvent>, checkDelay: real)
    ensures Trips(m, es, checkDelay) <= 1
    ensures m.isGameOver ==> Trips(m, es, checkDelay) == 0
    ensures Trips(m, es, checkDelay) == 1 <==> !m.isGameOver && Run(m, es, checkDelay).isGameOver
    decreases |es|
  {
    if es != [] {
      var n := Step(m, es[0], checkDelay);
      GameOverAtMostOnce(n, es[1..], checkDelay);
      if n.isGameOver {
        GameOverLatches(n, es[1..], checkDelay);
      }
    }
  }

  /** While the game runs, the timer is below the delay (for a positive delay). */
  predicate Armed(m: Monitor, checkDelay: real)
  {
    m.isGameOver || m.timer < checkDelay
  }

  lemma {:induction false} RunKeepsArmed(m: Monitor, es: seq<TriggerEvent>, checkDelay: real)
    requires checkDelay > 0.0 && Armed(m, checkDelay)
    ensures Armed(Run(m, es, checkDelay), checkDelay)
    decreases |es|
  {
    if es != [] {
      RunKeepsArmed(Step(m, es[0], checkDelay), es[1..], checkDelay);
    }
  }

  /** A fruit staying for every frame of a run, with the given frame times. */
  function Stays(deltaTimes: seq<real>): (es: seq<TriggerEvent>)
    ensures |es| == |deltaTimes|
    ensures forall i :: 0 <= i < |es| ==> es[i] == Stay(true, deltaTimes[i])
  {
    if deltaTimes == [] then [] else [Stay(true, deltaTimes[0])] + Stays(deltaTimes[1..])
  }

  function Sum(xs: seq<real>): real
  {
    if xs == [] then 0.0 else xs[0] + Sum(xs[1..])
  }

  lemma {:induction false} SumNonNegative(xs: seq<real>)
    requires NonNegative(xs)
    ensures Sum(xs) >= 0.0
  {
    if xs != [] {
      SumNonNegative(xs[1..]);
    }
  }

  /**
   * With nonnegative frame times and no exit, the game ends exactly when
   * the timer plus the time the fruit stayed reaches the delay; until then
   * the timer is that sum.
   */
  lemma {:induction false} StayingFruitEndsGame(m: Monitor, deltaTimes: seq<real>, checkDelay: real)
    requires !m.isGameOver && m.timer < checkDelay && NonNegative(deltaTimes)
    ensures Run(m, Stays(deltaTimes), checkDelay).isGameOver <==> m.timer + Sum(deltaTimes) >= checkDelay
    ensures !Run(m, Stays(deltaTimes), checkDelay).isGameOver ==>
      Run(m, Stays(deltaTimes), checkDelay).timer == m.timer + Sum(deltaTimes)
    decreases |deltaTimes|
  {
    if deltaTimes != [] {
      var es := Stays(deltaTimes);
      var n := Step(m, es[0], checkDelay);
      assert es[1..] == Stays(deltaTimes[1..]);
      SumNonNegative(deltaTimes[1..]);
      if n.isGameOver {
        GameOverLatches(n, es[1..], checkDelay);
      } else {
        StayingFruitEndsGame(n, deltaTimes[1..], checkDelay);
      }
    }
  }

  class DeadLine {
    const checkDelay: real
    var timer: real
    var isGameOver: bool

    function State(): Monitor
      reads this
    {
      Monitor(timer, isGameOver)
    }

    constructor (checkDelay: real)
      ensures this.checkDelay == checkDelay && State() == Monitor(0.0, false)
    {
      this.checkDelay := checkDelay;
      timer := 0.0;
      isGameOver := false;
    }

    method OnTriggerStay2D(isFruit: bool, deltaTime: real)
      modifies this
      ensures State() == Step(old(State()), Stay(isFruit, deltaTime), checkDelay)
    {
      if isGameOver {
        return;
      }
      if isFruit {
        timer := timer + deltaTime;
        if timer >= checkDelay {
          GameOver();
        }
      }
    }

    method OnTriggerExit2D(isFruit: bool)
      modifies this
      ensures State() == Step(old(State()), Exit(isFruit), checkDelay)
    {
      if isFruit {
        timer := 0.0;
      }
    }

    method GameOver()
      modifies this`isGameOver
      ensures isGameOver
    {
      isGameOver := true;
    }
  }
}

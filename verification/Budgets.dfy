/**
 A worker's budget of time and subagent tasks (lib/budget.js): when it is
 told to converge and to finish, interrupted to hand back, and stopped.
 */
module Budgets {
  import opened Options

  const CONVERGE: int := 60
  const FINISH: int := 80
  const HAND_BACK: int := 95
  const STOP: int := 100

  datatype Why = Timeout | TaskCap
  datatype Signal = Notice(level: int) | LastTask | HandBack(why: Why, window: int) | Stop

  function Percent(timeout: int, elapsed: int): int
    requires timeout > 0
  {
    elapsed * 100 / timeout
  }

  function HandBackWindow(timeout: int): int {
    timeout * (STOP - HAND_BACK) / 100
  }

  /** When LEVEL percent of the time is used, rounded up. */
  function AtLevel(timeout: int, level: int): int {
    (level * timeout + 99) / 100
  }

  function NextCheckMs(timeout: int, elapsed: int): int {
    if AtLevel(timeout, CONVERGE) > elapsed then AtLevel(timeout, CONVERGE)
    else if AtLevel(timeout, FINISH) > elapsed then AtLevel(timeout, FINISH)
    else if AtLevel(timeout, HAND_BACK) > elapsed then AtLevel(timeout, HAND_BACK)
    else if AtLevel(timeout, STOP) > elapsed then AtLevel(timeout, STOP)
    else elapsed
  }

  /** What was signalled: the highest notice level, the last task's, and the hand-back. */
  datatype Given = Given(noticed: int, lastTask: bool, handingBack: bool)

  function Level(percent: int): int {
    if percent >= FINISH then FINISH else if percent >= CONVERGE then CONVERGE else 0
  }

  /** One check: what is signalled after it, and its signal. */
  function Checked(g: Given, timeout: int, cap: Option<int>, elapsed: int, tasks: int): (Given, Option<Signal>)
    requires timeout > 0
  {
    var percent := Percent(timeout, elapsed);
    if percent >= STOP then (g, Some(Stop))
    else if g.handingBack then (g, None)
    else if cap.Some? && tasks > cap.value then
         (g.(handingBack := true), Some(HandBack(TaskCap, HandBackWindow(timeout))))
    else if percent >= HAND_BACK then (g.(handingBack := true), Some(HandBack(Timeout, HandBackWindow(timeout))))
    else if Level(percent) > g.noticed then (g.(noticed := Level(percent)), Some(Notice(Level(percent))))
    else if cap == Some(tasks) && !g.lastTask then (g.(lastTask := true), Some(LastTask))
    else (g, None)
  }

  class Budget {
    const timeout: int
    const cap: Option<int>
    var noticed: int
    var lastTaskNoticed: bool
    var handingBack: bool

    ghost predicate Valid() {
      timeout > 0
    }

    ghost function State(): Given
      reads this
    {
      Given(noticed, lastTaskNoticed, handingBack)
    }

    /** A cap of 0 tasks is none. */
    constructor (timeout: int, maxTasks: Option<int>)
      requires timeout > 0
      ensures Valid() && this.timeout == timeout && State() == NOTHING
      ensures cap == if maxTasks == Some(0) then None else maxTasks
    {
      this.timeout := timeout;
      cap := if maxTasks == Some(0) then None else maxTasks;
      noticed, lastTaskNoticed, handingBack := 0, false, false;
    }

    method Check(elapsed: int, tasks: int) returns (signal: Option<Signal>)
      requires Valid()
      modifies this
      ensures (State(), signal) == Checked(old(State()), timeout, cap, elapsed, tasks)
    {
      var percent := Percent(timeout, elapsed);
      if percent >= STOP {
        return Some(Stop);
      }
      if handingBack {
        return None;
      }
      if cap.Some? && tasks > cap.value {
        handingBack := true;
        return Some(HandBack(TaskCap, HandBackWindow(timeout)));
      }
      if percent >= HAND_BACK {
        handingBack := true;
        return Some(HandBack(Timeout, HandBackWindow(timeout)));
      }
      var level := Level(percent);
      if level > noticed {
        noticed := level;
        return Some(Notice(level));
      }
      if cap == Some(tasks) && !lastTaskNoticed {
        lastTaskNoticed := true;
        return Some(LastTask);
      }
      return None;
    }

    /** Polls at 0 and then only when the next threshold is due, until the stop. */
    method Watch() returns (out: seq<(int, Signal)>)
      requires Valid() && State() == NOTHING && cap.None?
      modifies this
      ensures out == EveryMs(timeout, NOTHING, 0)
    {
      hide Events, EveryMs, NextCheckMs, Percent, Level;
      EventsAreEnough(timeout, NOTHING, 0);
      out := [];
      var at := 0;
      var going := true;
      while going
        invariant 0 <= at <= timeout
        invariant Events(timeout, NOTHING, 0) == if going then out + Events(timeout, State(), at) else out
        decreases going, timeout - at
      {
        NextIsLater(timeout, at);
        OneEvent(timeout, State(), at);
        var signal := Check(at, 0);
        if signal.Some? {
          out := out + [(at, signal.value)];
        }
        going := signal != Some(Stop);
        if going {
          Stops(timeout, at);
          at := NextCheckMs(timeout, at);
        }
      }
    }
  }

  const NOTHING: Given := Given(0, false, false)

  // --- Polling every millisecond ----------------------------------------------------

  function Of(at: int, signal: Option<Signal>): seq<(int, Signal)> {
    if signal.Some? then [(at, signal.value)] else []
  }

  /** The signals of checking at every millisecond from AT on, up to the stop. */
  ghost function EveryMs(timeout: int, g: Given, at: int): seq<(int, Signal)>
    requires timeout > 0 && 0 <= at <= timeout
    decreases timeout - at
  {
    var (g', signal) := Checked(g, timeout, None, at, 0);
    Stops(timeout, at);
    if signal == Some(Stop) then [(at, Stop)] else Of(at, signal) + EveryMs(timeout, g', at + 1)
  }

  /** The signals of checking at AT and then at each next threshold, up to the stop. */
  ghost function Events(timeout: int, g: Given, at: int): seq<(int, Signal)>
    requires timeout > 0 && 0 <= at <= timeout
    decreases timeout - at
  {
    var (g', signal) := Checked(g, timeout, None, at, 0);
    Stops(timeout, at);
    NextIsLater(timeout, at);
    if signal == Some(Stop) then [(at, Stop)] else Of(at, signal) + Events(timeout, g', NextCheckMs(timeout, at))
  }

  lemma {:induction false} OneEvent(timeout: int, g: Given, at: int)
    requires timeout > 0 && 0 <= at <= timeout
    ensures var (g', signal) := Checked(g, timeout, None, at, 0);
            && (signal == Some(Stop) <==> at == timeout)
            && (at < timeout ==> at < NextCheckMs(timeout, at) <= timeout)
            && Events(timeout, g, at) == if at == timeout then [(at, Stop)]
                                         else Of(at, signal) + Events(timeout, g', NextCheckMs(timeout, at))
  {
    Stops(timeout, at);
    NextIsLater(timeout, at);
    hide NextCheckMs, Percent, Level;
  }

  /** A level is reached by percent exactly from its rounded-up time on. */
  lemma Reached(timeout: int, elapsed: int, level: int)
    requires timeout > 0
    ensures Percent(timeout, elapsed) >= level <==> elapsed >= AtLevel(timeout, level)
  {
    var p, a := Percent(timeout, elapsed), AtLevel(timeout, level);
    assert p * timeout <= elapsed * 100 < p * timeout + timeout;
    assert a * 100 <= level * timeout + 99 < a * 100 + 100;
    if p >= level {
      assert level * timeout <= p * timeout;
    } else {
      assert (p + 1) * timeout <= level * timeout;
    }
  }

  /** Only the end of the time stops a run without a task cap. */
  lemma Stops(timeout: int, at: int)
    requires timeout > 0 && 0 <= at <= timeout
    ensures Percent(timeout, at) >= STOP <==> at == timeout
  {
    Reached(timeout, at, STOP);
  }

  lemma NextIsLater(timeout: int, at: int)
    requires timeout > 0 && 0 <= at <= timeout
    ensures at < timeout ==> at < NextCheckMs(timeout, at) <= timeout
  {
  }

  /** Up to the next threshold the same levels are reached. */
  lemma SameLevels(timeout: int, at: int, t: int)
    requires timeout > 0 && 0 <= at <= t < NextCheckMs(timeout, at)
    ensures Percent(timeout, t) >= HAND_BACK <==> Percent(timeout, at) >= HAND_BACK
    ensures Percent(timeout, t) >= STOP <==> Percent(timeout, at) >= STOP
    ensures Level(Percent(timeout, t)) == Level(Percent(timeout, at))
  {
    Reached(timeout, t, CONVERGE);
    Reached(timeout, t, FINISH);
    Reached(timeout, t, HAND_BACK);
    Reached(timeout, t, STOP);
    Reached(timeout, at, CONVERGE);
    Reached(timeout, at, FINISH);
    Reached(timeout, at, HAND_BACK);
    Reached(timeout, at, STOP);
    hide Percent, AtLevel;
  }

  /** Nothing new: a check now would signal nothing. */
  ghost predicate Settled(g: Given, timeout: int, at: int)
    requires timeout > 0
  {
    g.handingBack || (Percent(timeout, at) < HAND_BACK && Level(Percent(timeout, at)) <= g.noticed)
  }

  lemma {:induction false} QuietUntilNext(timeout: int, g: Given, at: int, t: int)
    requires timeout > 0 && 0 <= at <= timeout && Percent(timeout, at) < STOP && Settled(g, timeout, at)
    requires at < t <= NextCheckMs(timeout, at) <= timeout
    ensures EveryMs(timeout, g, t) == EveryMs(timeout, g, NextCheckMs(timeout, at))
    decreases timeout - t
  {
    if t < NextCheckMs(timeout, at) {
      SameLevels(timeout, at, t);
      QuietUntilNext(timeout, g, at, t + 1);
    }
    hide Percent, NextCheckMs, Level;
  }

  /**
   Checking only at 0 and at each next threshold gives the signals of checking
   every millisecond, at the same times.
   */
  lemma {:induction false} EventsAreEnough(timeout: int, g: Given, at: int)
    requires timeout > 0 && 0 <= at <= timeout
    ensures Events(timeout, g, at) == EveryMs(timeout, g, at)
    decreases timeout - at
  {
    Stops(timeout, at);
    NextIsLater(timeout, at);
    if at < timeout {
      var g' := Checked(g, timeout, None, at, 0).0;
      hide Percent, NextCheckMs, Level;
      EventsAreEnough(timeout, g', NextCheckMs(timeout, at));
      QuietUntilNext(timeout, g', at, at + 1);
    }
  }

  /** What a run is told, in all: each level that is not passed together with the next one. */
  function Told(timeout: int): seq<(int, Signal)> {
    var converge, finish, handBack := AtLevel(timeout, CONVERGE), AtLevel(timeout, FINISH), AtLevel(timeout, HAND_BACK);
    (if converge < finish then [(converge, Notice(CONVERGE))] else [])
    + (if finish < handBack then [(finish, Notice(FINISH))] else [])
    + (if handBack < timeout then [(handBack, HandBack(Timeout, HandBackWindow(timeout)))] else [])
    + [(timeout, Stop)]
  }

  lemma LevelsInOrder(timeout: int)
    requires timeout > 0
    ensures 0 < AtLevel(timeout, CONVERGE) <= AtLevel(timeout, FINISH) <= AtLevel(timeout, HAND_BACK) <= timeout
    ensures AtLevel(timeout, STOP) == timeout
  {
  }

  lemma {:induction false} FromHandBack(timeout: int, g: Given)
    requires timeout > 0 && !g.handingBack
    ensures var at := AtLevel(timeout, HAND_BACK);
            0 <= at <= timeout
            && Events(timeout, g, at) == (if at < timeout then [(at, HandBack(Timeout, HandBackWindow(timeout)))]
                                          else []) + [(timeout, Stop)]
  {
    var at := AtLevel(timeout, HAND_BACK);
    LevelsInOrder(timeout);
    Reached(timeout, at, HAND_BACK);
    Stops(timeout, at);
    Stops(timeout, timeout);
    hide Percent, AtLevel;
  }

  lemma {:induction false} FromFinish(timeout: int, g: Given)
    requires timeout > 0 && !g.handingBack && g.noticed < FINISH
    ensures var at, handBack := AtLevel(timeout, FINISH), AtLevel(timeout, HAND_BACK);
            0 <= at <= timeout
            && Events(timeout, g, at) == (if at < handBack then [(at, Notice(FINISH))] else [])
                                         + (if handBack < timeout then
                                            [(handBack, HandBack(Timeout, HandBackWindow(timeout)))] else [])
                                         + [(timeout, Stop)]
  {
    var at := AtLevel(timeout, FINISH);
    LevelsInOrder(timeout);
    Reached(timeout, at, FINISH);
    Reached(timeout, at, HAND_BACK);
    Stops(timeout, at);
    FromHandBack(timeout, g);
    FromHandBack(timeout, g.(noticed := FINISH));
    hide Percent, AtLevel;
  }

  lemma {:induction false} FromConverge(timeout: int)
    requires timeout > 0
    ensures var at := AtLevel(timeout, CONVERGE); 0 <= at <= timeout && Events(timeout, NOTHING, at) == Told(timeout)
  {
    var at := AtLevel(timeout, CONVERGE);
    LevelsInOrder(timeout);
    Reached(timeout, at, CONVERGE);
    Reached(timeout, at, FINISH);
    Reached(timeout, at, HAND_BACK);
    Stops(timeout, at);
    FromFinish(timeout, NOTHING);
    FromFinish(timeout, NOTHING.(noticed := CONVERGE));
    hide Percent, AtLevel;
  }

  /** The whole run, without a task cap: each signal once, at its own time. */
  lemma {:induction false} ToldOnce(timeout: int)
    requires timeout > 0
    ensures EveryMs(timeout, NOTHING, 0) == Told(timeout)
  {
    hide AtLevel, Told, Events, EveryMs;
    EventsAreEnough(timeout, NOTHING, 0);
    FromStart(timeout);
    FromConverge(timeout);
  }

  /** Nothing is due before the first level. */
  lemma {:induction false} FromStart(timeout: int)
    requires timeout > 0
    ensures var at := AtLevel(timeout, CONVERGE);
            0 <= at <= timeout && Events(timeout, NOTHING, 0) == Events(timeout, NOTHING, at)
  {
    hide AtLevel, EveryMs;
    LevelsInOrder(timeout);
    Stops(timeout, 0);
  }

  /** A hand-back in time ends its turn exactly at the timeout. */
  lemma WindowEndsAtTimeout(timeout: int)
    requires timeout > 0
    ensures AtLevel(timeout, HAND_BACK) + HandBackWindow(timeout) == timeout
  {
  }

  // --- Any checks, with a task cap too ------------------------------------------------

  datatype Check = Check(elapsed: int, tasks: int)

  ghost function After(timeout: int, cap: Option<int>, cs: seq<Check>): Given
    requires timeout > 0
  {
    if cs == [] then NOTHING
    else Checked(After(timeout, cap, cs[..|cs| - 1]), timeout, cap, cs[|cs| - 1].elapsed, cs[|cs| - 1].tasks).0
  }

  ghost function SignalOf(timeout: int, cap: Option<int>, cs: seq<Check>, n: nat): Option<Signal>
    requires timeout > 0 && n < |cs|
  {
    Checked(After(timeout, cap, cs[..n]), timeout, cap, cs[n].elapsed, cs[n].tasks).1
  }

  /** The state only grows, and each signal leaves its mark. */
  lemma {:induction false} Marked(timeout: int, cap: Option<int>, cs: seq<Check>, i: nat, j: nat)
    requires timeout > 0 && i < j <= |cs|
    ensures var g := After(timeout, cap, cs[..j]);
            match SignalOf(timeout, cap, cs, i)
            case Some(Notice(level)) => g.noticed >= level
            case Some(LastTask) => g.lastTask
            case Some(HandBack(_, _)) => g.handingBack
            case _ => true
  {
    assert cs[..j][..j - 1] == cs[..j - 1];
    if i < j - 1 {
      Marked(timeout, cap, cs, i, j - 1);
    }
    hide Percent, Level;
  }

  /**
   However it is polled: no notice or hand-back comes twice, levels only rise,
   and after the hand-back only the stop comes.
   */
  lemma NeverTwice(timeout: int, cap: Option<int>, cs: seq<Check>, i: nat, j: nat)
    requires timeout > 0 && i < j < |cs| && SignalOf(timeout, cap, cs, i).Some? && SignalOf(timeout, cap, cs, j).Some?
    ensures SignalOf(timeout, cap, cs, i) == SignalOf(timeout, cap, cs, j) ==>
              SignalOf(timeout, cap, cs, i) == Some(Stop)
    ensures SignalOf(timeout, cap, cs, i).value.HandBack? ==> SignalOf(timeout, cap, cs, j) == Some(Stop)
    ensures SignalOf(timeout, cap, cs, i).value.Notice? && SignalOf(timeout, cap, cs, j).value.Notice? ==>
              SignalOf(timeout, cap, cs, i).value.level < SignalOf(timeout, cap, cs, j).value.level
  {
    Marked(timeout, cap, cs, i, j);
    hide Percent, After;
  }
}

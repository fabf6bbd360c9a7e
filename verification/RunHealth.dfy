/**
 The verdict on a run attempt from its telemetry (lib/run-health.js,
 evaluate). A timestamp or counter that can't be used is None.
 */
module RunHealth {
  import opened Options
  import opened RunWatch

  /** A request or a tool call; WELLFORMED if its kind and its error flag are. */
  datatype Activity = Activity(at: int, error: bool, wellFormed: bool)

  /** Telemetry; MATCHES if it is of this very attempt. */
  datatype Observation = Observation(matches: bool, observed: Option<int>, activity: Option<int>, tokens: Option<nat>,
                                     events: Option<seq<Activity>>, windowStart: Option<int>)

  /** What GitHub says: EXECUTING if the run is in progress with exactly one execution step active. */
  datatype Execution = Execution(executing: bool, start: Option<int>)

  datatype Limits = Limits(stall: int, window: int, freshness: int)

  /** The attempt executes, and complete telemetry of it is fresh. */
  ghost predicate Evidence(x: Execution, o: Option<Observation>, now: int, lim: Limits) {
    && x.executing && x.start.Some? && x.start.value <= now
    && o.Some? && o.value.matches
    && o.value.observed.Some? && now - lim.freshness <= o.value.observed.value <= now
    && o.value.activity.Some? && x.start.value <= o.value.activity.value <= o.value.observed.value
    && o.value.tokens.Some? && o.value.windowStart.Some?
    && o.value.windowStart.value <= Max(x.start.value, now - lim.window)
    && o.value.events.Some?
    && forall e :: e in o.value.events.value ==> e.wellFormed && x.start.value <= e.at <= o.value.activity.value
  }

  function Recent(es: seq<Activity>, from: int): nat {
    if es == [] then 0 else Recent(es[..|es| - 1], from) + if es[|es| - 1].at >= from then 1 else 0
  }

  function Errors(es: seq<Activity>, from: int): nat {
    if es == [] then 0 else Errors(es[..|es| - 1], from) + if es[|es| - 1].at >= from && es[|es| - 1].error then 1
                                                           else 0
  }

  /** Five recent events or more, half of them errors or more. */
  predicate IsFailing(es: seq<Activity>, from: int) {
    Recent(es, from) >= 5 && 2 * Errors(es, from) >= Recent(es, from)
  }

  ghost predicate IsRunaway(o: Observation, budget: int)
    requires o.tokens.Some?
  {
    budget > 0 && o.tokens.value > budget
  }

  ghost function VerdictOf(x: Execution, o: Option<Observation>, budget: int, now: int, lim: Limits): Health {
    if !Evidence(x, o, now, lim) then Unknown
    else if IsRunaway(o.value, budget) then Runaway
    else if IsFailing(o.value.events.value, now - lim.window) then Failing
    else if now - o.value.activity.value >= lim.stall then Stalled
    else Healthy
  }

  method AllUsable(es: seq<Activity>, start: int, activity: int) returns (ok: bool)
    ensures ok <==> forall e :: e in es ==> e.wellFormed && start <= e.at <= activity
  {
    for n := 0 to |es|
      invariant forall e :: e in es[..n] ==> e.wellFormed && start <= e.at <= activity
    {
      if !es[n].wellFormed || es[n].at > activity || es[n].at < start {
        assert es[n] in es;
        return false;
      }
    }
    assert es[..|es|] == es;
    ok := true;
  }

  method CountRecent(es: seq<Activity>, from: int) returns (relevant: nat, errors: nat)
    ensures relevant == Recent(es, from) && errors == Errors(es, from)
  {
    relevant, errors := 0, 0;
    for n := 0 to |es|
      invariant relevant == Recent(es[..n], from) && errors == Errors(es[..n], from)
    {
      assert es[..n + 1][..n] == es[..n];
      if es[n].at >= from {
        relevant := relevant + 1;
        if es[n].error {
          errors := errors + 1;
        }
      }
    }
    assert es[..|es|] == es;
  }

  method Evaluate(x: Execution, o: Option<Observation>, budget: int, now: int, lim: Limits) returns (health: Health)
    ensures health == VerdictOf(x, o, budget, now, lim)
  {
    if !x.executing || x.start.None? || x.start.value > now || o.None? || !o.value.matches {
      return Unknown;
    }
    var ob := o.value;
    if ob.observed.None? || ob.observed.value > now || now - ob.observed.value > lim.freshness
       || ob.activity.None? || ob.activity.value > ob.observed.value || ob.activity.value < x.start.value {
      return Unknown;
    }
    if ob.tokens.None? || ob.events.None? || ob.windowStart.None?
    || ob.windowStart.value > Max(x.start.value, now - lim.window) {
      return Unknown;
    }
    var usable := AllUsable(ob.events.value, x.start.value, ob.activity.value);
    if !usable {
      return Unknown;
    }
    var relevant, errors := CountRecent(ob.events.value, now - lim.window);
    health := if budget > 0 && ob.tokens.value > budget then Runaway
              else if relevant >= 5 && 2 * errors >= relevant then Failing
              else if now - ob.activity.value >= lim.stall then Stalled
              else Healthy;
  }

  // --- The same evidence later ---------------------------------------------------------

  /** The events that leave the window when its start moves from FROM to TO. */
  function FellOut(es: seq<Activity>, from: int, to: int): nat {
    if es == [] then 0 else FellOut(es[..|es| - 1], from, to) + if from <= es[|es| - 1].at < to then 1 else 0
  }

  function ErrorsOut(es: seq<Activity>, from: int, to: int): nat {
    if es == [] then 0 else ErrorsOut(es[..|es| - 1], from, to) + if from <= es[|es| - 1].at < to
                            && es[|es| - 1].error then 1 else 0
  }

  lemma {:induction false} WindowMoves(es: seq<Activity>, from: int, to: int)
    requires from <= to
    ensures Recent(es, from) == Recent(es, to) + FellOut(es, from, to)
    ensures Errors(es, from) == Errors(es, to) + ErrorsOut(es, from, to)
  {
    if es != [] {
      WindowMoves(es[..|es| - 1], from, to);
    }
  }

  lemma {:induction false} NoneRecent(es: seq<Activity>, from: int, last: int)
    requires last < from && forall e :: e in es ==> e.at <= last
    ensures Recent(es, from) == 0
  {
    if es != [] {
      assert es[|es| - 1] in es;
      NoneRecent(es[..|es| - 1], from, last);
    }
  }

  /** What is left of the events of NOW's window in LATER's: five or more, half of them errors or more. */
  ghost predicate EnoughStay(es: seq<Activity>, now: int, later: int, window: int) {
    var stay := Recent(es, now - window) - FellOut(es, now - window, later - window);
    stay >= 5 && 2 * (Errors(es, now - window) - ErrorsOut(es, now - window, later - window)) >= stay
  }

  /**
   On the same evidence, while it can be used, a runaway stays one. Any
   other verdict is failing later exactly if enough of the events it was of
   stay in the window; if not, it is a stall, once it is old enough, or
   healthy. So failing lapses, and a stall and even a healthy run can turn
   failing as its successes leave the window before its errors.
   */
  lemma SameEvidence(x: Execution, o: Option<Observation>, budget: int, now: int, later: int, lim: Limits)
    requires now <= later
    requires VerdictOf(x, o, budget, now, lim) != Unknown && VerdictOf(x, o, budget, later, lim) != Unknown
    ensures var was, then_ := VerdictOf(x, o, budget, now, lim), VerdictOf(x, o, budget, later, lim);
            && (then_ == Runaway <==> was == Runaway)
            && (then_ == Failing <==> was != Runaway && EnoughStay(o.value.events.value, now, later, lim.window))
            && (then_ == Stalled <==> was != Runaway && then_ != Failing && later - o.value.activity.value >= lim.stall)
            && (was == Stalled ==> then_ in {Stalled, Failing})
  {
    WindowMoves(o.value.events.value, now - lim.window, later - lim.window);
  }

  /** A stall stays one, whatever the evidence: promised by these limits. */
  ghost predicate StallsLast(lim: Limits) {
    forall x, o, budget, now, later {:trigger VerdictOf(x, o, budget, now, lim), VerdictOf(x, o, budget, later, lim)} ::
      now <= later && VerdictOf(x, o, budget, now, lim) == Stalled && VerdictOf(x, o, budget, later, lim) != Unknown
      ==> VerdictOf(x, o, budget, later, lim) == Stalled
  }

  function Times(e: Activity, n: nat): seq<Activity> {
    seq(n, _ => e)
  }

  lemma {:induction false} CountTimes(es: seq<Activity>, e: Activity, n: nat, from: int)
    ensures Recent(es + Times(e, n), from) == Recent(es, from) + if e.at >= from then n else 0
    ensures Errors(es + Times(e, n), from) == Errors(es, from) + if e.at >= from && e.error then n else 0
  {
    if n == 0 {
      assert es + Times(e, 0) == es;
    } else {
      var all := es + Times(e, n);
      assert all[..|all| - 1] == es + Times(e, n - 1) && all[|all| - 1] == e;
      CountTimes(es, e, n - 1, from);
    }
  }

  /**
   Six successes and, a millisecond after, five errors: stalled, or failing
   once the successes have left the window.
   */
  lemma StallTurnsFailing(lim: Limits) returns (x: Execution, o: Option<Observation>, now: int)
    requires lim.stall < lim.window && lim.window >= 1 && lim.freshness >= 1
    ensures VerdictOf(x, o, 0, now, lim) == Stalled && VerdictOf(x, o, 0, now + 1, lim) == Failing
  {
    var good, bad := Activity(0, false, true), Activity(1, true, true);
    var es := Times(good, 6) + Times(bad, 5);
    now := lim.window;
    x := Execution(true, Some(0));
    o := Some(Observation(true, Some(now), Some(1), Some(0), Some(es), Some(0)));
    forall from ensures Recent(es, from) == (if 1 >= from then 5 else 0) + (if 0 >= from then 6 else 0)
    && Errors(es, from) == if 1 >= from then 5 else 0 {
      CountTimes([], good, 6, from);
      assert [] + Times(good, 6) == Times(good, 6);
      CountTimes(Times(good, 6), bad, 5, from);
    }
  }

  /** So a stall lasts, on the same evidence, exactly when its time is no shorter than the rolling window. */
  lemma StallsLastIff(lim: Limits)
    requires lim.window >= 1 && lim.freshness >= 1
    ensures StallsLast(lim) <==> lim.window <= lim.stall
  {
    if lim.window <= lim.stall {
      forall x, o, budget, now, later {:trigger VerdictOf(x, o, budget, now, lim),
                                       VerdictOf(x, o, budget, later, lim)} |
        now < later && VerdictOf(x, o, budget, now, lim) == Stalled && VerdictOf(x, o, budget, later, lim) != Unknown
        ensures VerdictOf(x, o, budget, later, lim) == Stalled
      {
        NoneRecent(o.value.events.value, later - lim.window, o.value.activity.value);
      }
    } else {
      var x, o, now := StallTurnsFailing(lim);
    }
  }

  /** Whereas no limits make a failing verdict last: five errors at once leave the window together. */
  lemma FailingLapses(lim: Limits) returns (x: Execution, o: Option<Observation>, now: int)
    requires lim.window >= 0 && lim.freshness >= 1
    ensures VerdictOf(x, o, 0, now, lim) == Failing
    ensures VerdictOf(x, o, 0, now + 1, lim) == if lim.window < lim.stall - 1 then Healthy else Stalled
  {
    var e := Activity(0, true, true);
    var es := Times(e, 5);
    now := lim.window;
    x := Execution(true, Some(0));
    o := Some(Observation(true, Some(now), Some(0), Some(0), Some(es), Some(0)));
    assert [] + es == es;
    CountTimes([], e, 5, 0);
    CountTimes([], e, 5, 1);
  }

  // --- The suspicion through it ----------------------------------------------------------

  /** The entry after evaluations of the same evidence at these times. */
  ghost function After(was: Entry, x: Execution, o: Option<Observation>, budget: int, ts: seq<int>, lim: Limits,
                       grace: int): Entry {
    if ts == [] then was
    else
      var t := ts[|ts| - 1];
      Suspected(After(was, x, o, budget, ts[..|ts| - 1], lim, grace), VerdictOf(x, o, budget, t, lim), t, grace)
  }

  ghost predicate Usable(x: Execution, o: Option<Observation>, budget: int, t: int, lim: Limits) {
    VerdictOf(x, o, budget, t, lim) != Unknown
  }

  /**
   A failing suspicion found at NOW is still the one of NOW after later
   evaluations exactly if at each of them enough events stayed in the
   window; and then it is ready exactly once the grace time is over. Where
   too few stayed even once, the time starts over.
   */
  lemma {:induction false} SinceNow(was: Entry, x: Execution, o: Option<Observation>, budget: int, now: int,
                                    ts: seq<int>, lim: Limits, grace: int)
    requires VerdictOf(x, o, budget, now, lim) == Failing && was.health == Failing && was.since == Some(now)
    requires forall t :: t in ts ==> now < t && Usable(x, o, budget, t, lim)
    requires forall i, j :: 0 <= i < j < |ts| ==> ts[i] <= ts[j]
    ensures var e := After(was, x, o, budget, ts, lim, grace);
            && (e.since == Some(now) <==> forall t :: t in ts ==> EnoughStay(o.value.events.value, now, t, lim.window))
            && (e.since == Some(now) ==> e.health == Failing)
            && (e.since == Some(now) && ts != [] ==> (e.ready <==> ts[|ts| - 1] - now >= grace))
  {
    if ts != [] {
      var t, before := ts[|ts| - 1], ts[..|ts| - 1];
      assert ts == before + [t];
      forall u | u in before ensures now < u && Usable(x, o, budget, u, lim) {
        assert u in ts;
      }
      SinceNow(was, x, o, budget, now, before, lim, grace);
      assert Usable(x, o, budget, t, lim);
      SameEvidence(x, o, budget, now, t, lim);
    }
  }
}

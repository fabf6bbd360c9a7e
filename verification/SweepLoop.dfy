/**
 The --from-sweep poll (crates/bot-poll/src/main.rs): sweep_check, and the
 print-then-save loop around it, with a crash allowed between any two steps.
 */
module SweepLoop {
  import opened Options
  import opened News
  import opened NewsHistory
  import H = HotCycle
  import P = Paging

  type RunId = nat
  datatype Status = Status(run: RunId, started: Option<int>)

  // --- One check -------------------------------------------------------------

  /** The runs after LAST and before NEWEST, oldest first, then NEWEST. */
  ghost predicate RunsAfter(ids: seq<RunId>, runs: set<RunId>, last: RunId, newest: RunId) {
    && ids != [] && ids[|ids| - 1] == newest
    && (forall i :: 0 <= i < |ids| - 1 ==> ids[i] in runs && last < ids[i] < newest)
    && (forall i, j :: 0 <= i < j < |ids| - 1 ==> ids[i] < ids[j])
    && (forall r :: r in runs && last < r < newest ==> r in ids)
  }

  method ListRuns(runs: set<RunId>, last: RunId, newest: RunId) returns (ids: seq<RunId>)
    ensures RunsAfter(ids, runs, last, newest)
  {
    ids := [];
    var rest := set r | r in runs && last < r < newest;
    while rest != {}
      invariant forall i :: 0 <= i < |ids| ==> ids[i] in runs && last < ids[i] < newest
      invariant forall i, j :: 0 <= i < j < |ids| ==> ids[i] < ids[j]
      invariant forall r :: r in rest ==> r in runs && last < r < newest && forall i :: 0 <= i < |ids| ==> ids[i] < r
      invariant forall r :: r in runs && last < r < newest ==> r in ids || r in rest
      decreases rest
    {
      var r := Least(rest);
      rest := rest - {r};
      ids := ids + [r];
    }
    ids := ids + [newest];
  }

  method Least(s: set<RunId>) returns (least: RunId)
    requires s != {}
    ensures least in s && forall r :: r in s ==> least <= r
  {
    least :| least in s;
    var rest := s - {least};
    while rest != {}
      invariant rest <= s && least in s
      invariant forall r :: r in s && r !in rest ==> least <= r
      decreases rest
    {
      var r :| r in rest;
      if r < least {
        least := r;
      }
      rest := rest - {r};
    }
  }

  function OutputsOf(runs: map<RunId, Outputs>, r: RunId): Outputs {
    if r in runs then runs[r] else map[]
  }

  /** The evaluations of these runs, in order. */
  ghost function SweepSteps(runs: map<RunId, Outputs>, ids: seq<RunId>, now: int): seq<Step> {
    seq(|ids|, i requires 0 <= i < |ids| => Sweep(OutputsOf(runs, ids[i]), now))
  }

  function Without(seen: Seen): Seen {
    seen - {SweepSet}
  }

  /** Sweeps don't look at the sweep health's set. */
  lemma SweepWithout(seen: Seen, reported: Reported, outputs: Outputs, now: int)
    ensures AllSeen(outputs, Without(seen), now) == Without(AllSeen(outputs, seen, now))
    ensures forall kind :: RunNews(outputs, Without(seen), reported, kind) == RunNews(outputs, seen, reported, kind)
    ensures Prev(AllSeen(outputs, seen, now), SweepSet) == Prev(seen, SweepSet)
  {
    hide SetAfter, NewsUpTo;
    forall kind ensures RunNews(outputs, Without(seen), reported, kind) == RunNews(outputs, seen, reported, kind) {
      if SetOf(kind) == SweepSet {
        assert Listed(outputs, SweepSet) == None;
      }
    }
  }

  /** News of one run joins that of the runs before it, kind by kind. */
  method Extend(news: KindNews, found: KindNews) returns (out: KindNews)
    ensures forall kind :: At(out, kind) == At(news, kind) + At(found, kind)
  {
    out := news + map k | k in found :: At(news, k) + found[k];
  }

  /** The evaluations of the pending runs, oldest first. */
  method EvaluateRuns(runs: map<RunId, Outputs>, ids: seq<RunId>, seen: Seen, reported: Reported, now: int,
                      ghost start: Mem)
    returns (news: KindNews, seen': Seen, reported': Reported)
    requires seen == Without(start.seen) && reported == start.reported
    ensures var m := RunFrom(start, SweepSteps(runs, ids, now));
            seen' == Without(m.seen) && reported' == m.reported && Prev(m.seen, SweepSet) == Prev(start.seen, SweepSet)
    ensures forall kind :: At(news, kind) == SetNews(start, SweepSteps(runs, ids, now), kind)
  {
    hide AllSeen, ReportedAfter, RunNews, Without, Prev;
    news, seen', reported' := map[], seen, reported;
    ghost var steps: seq<Step> := [];
    for i := 0 to |ids|
      invariant steps == SweepSteps(runs, ids[..i], now)
      invariant var m := RunFrom(start, steps);
                seen' == Without(m.seen) && reported' == m.reported
                && Prev(m.seen, SweepSet) == Prev(start.seen, SweepSet)
      invariant forall kind :: At(news, kind) == SetNews(start, steps, kind)
    {
      var outputs := OutputsOf(runs, ids[i]);
      ghost var m := RunFrom(start, steps);
      SweepWithout(m.seen, m.reported, outputs, now);
      Appended(start, steps, Sweep(outputs, now));
      steps := steps + [Sweep(outputs, now)];
      assert steps == SweepSteps(runs, ids[..i + 1], now);
      var found;
      found, seen', reported' := Evaluate(outputs, seen', reported', now);
      news := Extend(news, found);
    }
    assert ids[..|ids|] == ids;
  }

  /** The runs one check evaluates, when the status names run NEWEST, if it can be read. */
  ghost predicate PendingRuns(ids: seq<RunId>, evaluated: Option<RunId>, newest: Option<RunId>, runs: set<RunId>) {
    if newest.None? || evaluated == newest then ids == []
    else if evaluated.None? then ids == [newest.value]
    else RunsAfter(ids, runs, evaluated.value, newest.value)
  }

  function NewestOf(status: Option<Status>): Option<RunId> {
    if status.Some? then Some(status.value.run) else None
  }

  /** A sweep that is evaluated moves the cursor, if its start can be read, and rebuilds the hot set. */
  ghost predicate SweptAfter(a: H.Image, st: Status, hot: Option<map<H.Key, H.HotItem>>, now: int, b: H.Image) {
    H.Swept(if st.started.Some? then H.StartedAt(H.HotPart(a), st.started.value)
            else H.HotPart(a), hot, now, H.HotPart(b))
  }

  /** The news of the sweeps not evaluated yet, in a state without the sweep health's set. */
  method CheckRuns(state: H.State, st: Status, runs: map<RunId, Outputs>, hot: Option<map<H.Key, H.HotItem>>, now: int,
                   ghost start: Mem)
    returns (news: KindNews, ghost ids: seq<RunId>)
    requires state.Tracked() && state.evaluated != Some(st.run)
    requires state.seen == Without(start.seen) && state.reported == start.reported
    modifies state
    ensures state.Tracked() && state.evaluated == Some(st.run) && state.log == old(state.log)
            && state.told == old(state.told)
    ensures SweptAfter(old(state.Now()), st, hot, now, state.Now())
    ensures PendingRuns(ids, old(state.evaluated), Some(st.run), runs.Keys)
    ensures var m := RunFrom(start, SweepSteps(runs, ids, now));
            state.seen == Without(m.seen) && state.reported == m.reported
            && Prev(m.seen, SweepSet) == Prev(start.seen, SweepSet)
    ensures forall kind :: At(news, kind) == SetNews(start, SweepSteps(runs, ids, now), kind)
  {
    hide P.TellFull, H.Named, H.AllTold, H.AtCursor, H.TurnsOk, RunFrom, SetNews, RunsAfter, Without, SweepSteps, Prev;
    ghost var a := state.Now();
    var pending;
    if state.evaluated.Some? {
      pending := ListRuns(runs.Keys, state.evaluated.value, st.run);
    } else {
      // On a first start, only the newest.
      pending := [st.run];
    }
    ids := pending;
    var seen, reported;
    news, seen, reported := EvaluateRuns(runs, pending, state.seen, state.reported, now, start);
    state.seen, state.reported, state.evaluated := seen, reported, Some(st.run);
    ghost var mem := state.Memory();
    if st.started.Some? {
      state.StartSweep(st.started.value);
    }
    ghost var mid := state.Now();
    state.AfterSweep(hot, now);
    assert H.Swept(H.HotPart(mid), hot, now, H.HotPart(state.Now()));
    assert H.HotPart(mid) == if st.started.Some? then H.StartedAt(H.HotPart(a), st.started.value) else H.HotPart(a);
    assert state.Memory() == mem;
  }

  /** The health check is one more step. */
  lemma {:induction false} HealthStep(start: Mem, steps: seq<Step>, health: seq<Item>, now: int, news: KindNews,
                                      found: seq<NewsItem>, cur: Keys)
    requires forall kind :: At(news, kind) == SetNews(start, steps, kind)
    requires Prev(RunFrom(start, steps).seen, SweepSet) == Prev(start.seen, SweepSet)
    requires found == NewsUpTo(SweepSet, Plain(SweepSet), health, |health|, Prev(start.seen, SweepSet), map[])
    requires cur == SetAfter(health, Prev(start.seen, SweepSet), now)
    ensures var m := RunFrom(start, steps);
            RunFrom(start, steps + [Health(health, now)]) == Mem(Without(m.seen)[SweepSet := cur], m.reported)
    ensures forall kind :: At(news, kind) + (if kind == Plain(SweepSet) then found
                                             else []) == SetNews(start, steps + [Health(health, now)], kind)
  {
    var m := RunFrom(start, steps);
    Appended(start, steps, Health(health, now));
    assert Without(m.seen)[SweepSet := cur] == m.seen[SweepSet := cur];
    hide RunFrom, NewsUpTo, SetAfter, RunNews, Without;
  }

  /**
   One check of bot-sweep's directory: the news of its sweeps not evaluated
   yet, and of the sweeps' health. STATUS is None when it can't be read.
   */
  method SweepCheck(state: H.State, status: Option<Status>, runs: map<RunId, Outputs>, health: seq<Item>,
                    hot: Option<map<H.Key, H.HotItem>>, now: int)
    returns (news: KindNews, ghost ids: seq<RunId>)
    requires state.Whole()
    modifies state
    ensures state.Whole()
    ensures PendingRuns(ids, old(state.evaluated), NewestOf(status), runs.Keys)
    ensures state.evaluated == if status.Some? then Some(status.value.run) else old(state.evaluated)
    ensures state.Memory() == RunFrom(old(state.Memory()), CheckSteps(runs, ids, health, now))
    ensures forall kind :: At(news, kind) == SetNews(old(state.Memory()), CheckSteps(runs, ids, health, now), kind)
    ensures state.log == old(state.log) + CheckSteps(runs, ids, health, now) && state.told == old(state.told)
    ensures if status.Some? && old(state.evaluated) != Some(status.value.run) then
            SweptAfter(old(state.Now()), status.value, hot, now, state.Now())
            else H.HotPart(state.Now()) == H.HotPart(old(state.Now()))
  {
    hide P.TellFull, H.Named, H.AllTold, H.AtCursor, H.TurnsOk, RunFrom, SetNews, PendingRuns, SetAfter, NewsUpTo;
    hide H.Swept, H.LogOk, H.FoundIds, Without, SweepSteps, CheckSteps, Prev, H.StartedAt;
    ghost var start := state.Memory();
    var prev := Prev(state.seen, SweepSet);
    // Before the sweeps' outputs are evaluated, which keep only their own sets.
    state.seen := Without(state.seen);
    news, ids := map[], [];
    Nothing(runs, start, now);
    NothingPending(state.evaluated, status, runs.Keys);
    if status.Some? && state.evaluated != Some(status.value.run) {
      news, ids := CheckRuns(state, status.value, runs, hot, now, start);
    }
    SameSteps(runs, ids, health, now);
    ChecksFindNothing(runs, ids, health, now);
    news := CheckHealth(state, health, prev, now, news, start, SweepSteps(runs, ids, now));
  }

  /** The sweep health's set, against its keys of before the check. */
  method CheckHealth(state: H.State, health: seq<Item>, prev: Keys, now: int, before: KindNews, ghost start: Mem,
                     ghost steps: seq<Step>)
    returns (news: KindNews)
    requires state.Tracked() && H.LogOk(start, state.log, state.told) && H.FoundIds(steps + [Health(health, now)]) == {}
    requires var m := RunFrom(start, steps);
             state.seen == Without(m.seen) && state.reported == m.reported
             && prev == Prev(m.seen, SweepSet) == Prev(start.seen, SweepSet)
    requires forall kind :: At(before, kind) == SetNews(start, steps, kind)
    modifies state`seen, state`log
    ensures state.Whole() && state.Memory() == RunFrom(start, steps + [Health(health, now)])
    ensures state.log == old(state.log) + (steps + [Health(health, now)])
    ensures forall kind :: At(news, kind) == SetNews(start, steps + [Health(health, now)], kind)
  {
    hide P.TellFull, H.Named, H.AllTold, H.AtCursor, H.TurnsOk, H.LogOk, H.FoundIds, RunFrom, SetNews, SetAfter,
         NewsUpTo, Without, Prev;
    var found, cur := EvaluateSet(SweepSet, health, prev, now);
    state.seen := state.seen[SweepSet := cur];
    news := Extend(before, map[Plain(SweepSet) := found]);
    HealthStep(start, steps, health, now, before, found, cur);
    state.Notes(start, steps + [Health(health, now)]);
  }

  ghost function CheckSteps(runs: map<RunId, Outputs>, ids: seq<RunId>, health: seq<Item>, now: int): seq<Step> {
    SweepSteps(runs, ids, now) + [Health(health, now)]
  }

  lemma SameSteps(runs: map<RunId, Outputs>, ids: seq<RunId>, health: seq<Item>, now: int)
    ensures CheckSteps(runs, ids, health, now) == SweepSteps(runs, ids, now) + [Health(health, now)]
  {
  }

  lemma ChecksFindNothing(runs: map<RunId, Outputs>, ids: seq<RunId>, health: seq<Item>, now: int)
    ensures H.FoundIds(CheckSteps(runs, ids, health, now)) == {}
  {
    H.NoneFoundBy(CheckSteps(runs, ids, health, now));
  }

  lemma NothingPending(evaluated: Option<RunId>, status: Option<Status>, runs: set<RunId>)
    ensures status.None? || evaluated == Some(status.value.run) ==> PendingRuns([], evaluated, NewestOf(status), runs)
  {
  }

  lemma {:induction false} Nothing(runs: map<RunId, Outputs>, m: Mem, now: int)
    ensures RunFrom(m, SweepSteps(runs, [], now)) == m
    ensures forall kind :: SetNews(m, SweepSteps(runs, [], now), kind) == []
  {
  }

}

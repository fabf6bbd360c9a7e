/**
 The pace of a pool of subscription usage, and what a run costs on it
 (lib/pools.js). Times are in milliseconds; percentages and points are
 exact.
 */
module Pools {
  import opened Options

  const DAY_MS: int := 24 * 3600 * 1000
  const SAME_WINDOW_MS: int := 3600 * 1000
  const MIN_PACED_WINDOW_MS: int := DAY_MS

  datatype Window = Window(used: real, ms: int, resets: int)
  datatype Config = Config(target: real, burst: real)

  /** The operator config's bounds. */
  predicate ValidConfig(cfg: Config) {
    0.0 < cfg.target <= 1.0 && cfg.burst >= 0.0
  }

  function Goal(cfg: Config): real {
    cfg.target * 100.0
  }

  function MinReal(a: real, b: real): real {
    if a <= b then a else b
  }

  // --- One window ---------------------------------------------------------------

  datatype WindowPace = WindowPace(allowed: real, ahead: real, next: Option<real>)

  function Elapsed(w: Window, now: int): int {
    Min(Max(now - (w.resets - w.ms), 0), w.ms)
  }

  function Allowed(w: Window, cfg: Config, now: int): real
    requires w.ms > 0
  {
    Goal(cfg) * Elapsed(w, now) as real / w.ms as real
  }

  predicate Holds(w: Window, cfg: Config, now: int)
    requires w.ms > 0
  {
    w.used > MinReal(Allowed(w, cfg, now) + cfg.burst, Goal(cfg))
  }

  /** When the pace catches up with a held window's usage. */
  function Next(w: Window, cfg: Config): real
    requires w.ms > 0 && ValidConfig(cfg)
  {
    if w.used > Goal(cfg) then w.resets as real
    else (w.resets - w.ms) as real + (w.used - cfg.burst) / Goal(cfg) * w.ms as real
  }

  function PaceOf(w: Window, cfg: Config, now: int): WindowPace
    requires w.ms > 0 && ValidConfig(cfg)
  {
    WindowPace(Allowed(w, cfg, now), w.used - Allowed(w, cfg, now), if Holds(w, cfg, now) then Some(Next(w, cfg))
                                                                    else None)
  }

  lemma TimesPositive(a: real, b: real, c: real)
    requires c > 0.0
    ensures a < b <==> a * c < b * c
  {
  }

  lemma DivTimes(a: real, c: real)
    requires c > 0.0
    ensures a / c * c == a
  {
  }

  /** With e elapsed, the usage is over the pace and its burst exactly when e comes before the catching up. */
  lemma CatchUp(used: real, burst: real, goal: real, e: real, ms: real)
    requires goal > 0.0 && ms > 0.0
    ensures used > goal * e / ms + burst <==> e < (used - burst) / goal * ms
  {
    var share := goal * e / ms;
    var frac := (used - burst) / goal;
    DivTimes(goal * e, ms);
    DivTimes(used - burst, goal);
    TimesPositive(share, used - burst, ms);
    TimesPositive(e, frac * ms, goal);
    assert share * ms == e * goal;
    assert frac * ms * goal == (used - burst) * ms by {
      assert frac * ms * goal == frac * goal * ms;
    }
  }

  /** The whole window's part is at most the window. */
  lemma PartOf(used: real, burst: real, goal: real, ms: real)
    requires goal > 0.0 && ms > 0.0 && used <= goal && burst >= 0.0
    ensures (used - burst) / goal * ms <= ms
  {
    var frac := (used - burst) / goal;
    DivTimes(used - burst, goal);
    if frac > 1.0 {
      TimesPositive(1.0, frac, goal);
    }
    if frac < 1.0 {
      TimesPositive(frac, 1.0, ms);
    }
  }

  /** The part of the window the usage pays for, the burst aside. */
  function PaidFor(w: Window, cfg: Config): real
    requires w.ms > 0 && ValidConfig(cfg)
  {
    (w.used - cfg.burst) / Goal(cfg) * w.ms as real
  }

  lemma HoldsIff(w: Window, cfg: Config, t: int)
    requires w.ms > 0 && ValidConfig(cfg)
    ensures Holds(w, cfg, t) <==> w.used > Goal(cfg) || Elapsed(w, t) as real < PaidFor(w, cfg)
  {
    CatchUp(w.used, cfg.burst, Goal(cfg), Elapsed(w, t) as real, w.ms as real);
    if w.used > Goal(cfg) {
      assert Holds(w, cfg, t);
    }
    hide Elapsed;
  }

  lemma NextIs(w: Window, cfg: Config)
    requires w.ms > 0 && ValidConfig(cfg)
    ensures w.used <= Goal(cfg) ==> Next(w, cfg) == (w.resets - w.ms) as real + PaidFor(w, cfg)
                                    && PaidFor(w, cfg) <= w.ms as real
    ensures w.used > Goal(cfg) ==> Next(w, cfg) == w.resets as real
  {
    if w.used <= Goal(cfg) {
      PartOf(w.used, cfg.burst, Goal(cfg), w.ms as real);
    }
  }

  /** A window held at some time is held at every time before its next, and at none from then to its reset. */
  lemma HeldBeforeNext(w: Window, cfg: Config, now: int, t: int)
    requires w.ms > 0 && ValidConfig(cfg) && Holds(w, cfg, now) && t < w.resets
    ensures Holds(w, cfg, t) <==> t as real < Next(w, cfg)
    ensures Next(w, cfg) <= w.resets as real
  {
    HoldsIff(w, cfg, now);
    HoldsIff(w, cfg, t);
    NextIs(w, cfg);
    hide Holds, PaidFor, Next, Goal;
  }

  /** A released window stays released until it resets. */
  lemma StaysReleased(w: Window, cfg: Config, now: int, t: int)
    requires w.ms > 0 && ValidConfig(cfg) && !Holds(w, cfg, now) && now <= t
    ensures !Holds(w, cfg, t)
  {
    HoldsIff(w, cfg, now);
    HoldsIff(w, cfg, t);
    hide Holds, PaidFor, Goal;
  }

  // --- A pool ------------------------------------------------------------------------

  /** A pool's pace. NEXT is written with its milliseconds whole. */
  datatype Pace = Pace(used: real, target: real, burst: real, allowed: real, ahead: real, hold: bool, next: Option<int>)

  /** The longest window, the first of several. */
  function Longest(ws: seq<Window>): (i: nat)
    requires ws != []
    ensures i < |ws| && forall j :: 0 <= j < |ws| ==> ws[j].ms <= ws[i].ms
    ensures forall j :: 0 <= j < i ==> ws[j].ms < ws[i].ms
  {
    if |ws| == 1 then 0
    else
      var n := |ws| - 1;
      var i := Longest(ws[..n]);
      if ws[n].ms > ws[i].ms then n else i
  }

  /** Another window that is used up. */
  predicate Spent(ws: seq<Window>, paced: nat, i: int, now: int) {
    0 <= i < |ws| && i != paced && ws[i].resets > now && ws[i].used >= 100.0
  }

  /** The latest reset of the used-up ones among the first n windows, if any. */
  function LastReset(ws: seq<Window>, paced: nat, n: nat, now: int): (r: Option<int>)
    requires n <= |ws|
    ensures r.None? <==> forall i :: 0 <= i < n ==> !Spent(ws, paced, i, now)
    ensures r.Some? ==> exists i :: 0 <= i < n && Spent(ws, paced, i, now) && ws[i].resets == r.value
    ensures forall i :: 0 <= i < n && Spent(ws, paced, i, now) ==> ws[i].resets <= r.value
  {
    if n == 0 then None
    else
      var rest := LastReset(ws, paced, n - 1, now);
      if !Spent(ws, paced, n - 1, now) then rest
      else if rest.None? then Some(ws[n - 1].resets)
      else Some(Max(rest.value, ws[n - 1].resets))
  }

  function Usable(ws: seq<Window>): (r: seq<Window>)
    ensures forall w :: w in r ==> w in ws && w.ms > 0
    ensures (forall w :: w in ws ==> w.ms <= 0) ==> r == []
  {
    if ws == [] then [] else Usable(ws[..|ws| - 1]) + if ws[|ws| - 1].ms > 0 then [ws[|ws| - 1]] else []
  }

  lemma {:induction false} UsablePositive(ws: seq<Window>)
    ensures forall w :: w in Usable(ws) ==> w.ms > 0
  {
    if ws != [] {
      UsablePositive(ws[..|ws| - 1]);
    }
  }

  function Trunc(x: real): int {
    if x >= 0.0 then x.Floor else -((-x).Floor)
  }

  /** A pool is paced by its longest window, of a day or more and not reset yet. */
  predicate Paced(ws: seq<Window>, now: int) {
    ws != [] && var w := ws[Longest(ws)]; w.ms >= MIN_PACED_WINDOW_MS && w.resets > now
  }

  /** When a pool that is held is to be released. */
  function Release(ws: seq<Window>, cfg: Config, now: int): Option<real>
    requires ValidConfig(cfg) && Paced(ws, now)
  {
    var p := Longest(ws);
    var own := PaceOf(ws[p], cfg, now).next;
    match LastReset(ws, p, |ws|, now)
    case None => own
    case Some(r) => Some(if own.Some? && own.value >= r as real then own.value else Max(0, r) as real)
  }

  predicate PoolHolds(ws: seq<Window>, cfg: Config, now: int)
    requires ValidConfig(cfg) && Paced(ws, now)
  {
    Release(ws, cfg, now).Some?
  }

  /** The pool's pace, None when unpaced. */
  function PoolPace(windows: seq<Window>, cfg: Config, now: int): Option<Pace>
    requires ValidConfig(cfg)
  {
    var ws := Usable(windows);
    if !Paced(ws, now) then None
    else
      var w := ws[Longest(ws)];
      var p := PaceOf(w, cfg, now);
      var r := Release(ws, cfg, now);
      Some(Pace(w.used, Goal(cfg), cfg.burst, p.allowed, p.ahead, r.Some?,
                if r.None? then None else Some(Trunc(r.value))))
  }

  ghost predicate AnySpent(ws: seq<Window>, now: int)
    requires ws != []
  {
    exists i :: Spent(ws, Longest(ws), i, now)
  }

  /** When the pool holds: its paced window does, or another is used up. */
  lemma {:induction false} HoldsWhen(ws: seq<Window>, cfg: Config, t: int)
    requires ValidConfig(cfg) && Paced(ws, t)
    ensures PoolHolds(ws, cfg, t) <==> Holds(ws[Longest(ws)], cfg, t) || AnySpent(ws, t)
  {
  }

  /**
   A held pool is held at every later time before its release that is
   before the paced window's reset, and at none from its release on:
   however many other windows are used up.
   */
  lemma HeldUntilRelease(ws: seq<Window>, cfg: Config, now: int, t: int)
    requires ValidConfig(cfg) && 0 <= now <= t && Paced(ws, now) && PoolHolds(ws, cfg, now) && Paced(ws, t)
    ensures PoolHolds(ws, cfg, t) <==> t as real < Release(ws, cfg, now).value
  {
    var p := Longest(ws);
    HoldsWhen(ws, cfg, t);
    if Holds(ws[p], cfg, now) {
      HeldBeforeNext(ws[p], cfg, now, t);
    } else {
      StaysReleased(ws[p], cfg, now, t);
    }
    SpentUntil(ws, p, now, t);
    hide Holds, Next, Allowed, Longest, Spent, Paced, LastReset;
  }

  /** Another window is used up until the last of them resets. */
  lemma {:induction false} SpentUntil(ws: seq<Window>, p: nat, now: int, t: int)
    requires now <= t
    ensures (exists i :: Spent(ws, p, i, t)) <==>
               LastReset(ws, p, |ws|, now).Some? && t < LastReset(ws, p, |ws|, now).value
  {
    var r := LastReset(ws, p, |ws|, now);
    if r.Some? && t < r.value {
      var i :| 0 <= i < |ws| && Spent(ws, p, i, now) && ws[i].resets == r.value;
      assert Spent(ws, p, i, t);
    }
    if i :| Spent(ws, p, i, t) {
      assert Spent(ws, p, i, now);
    }
  }

  predicate Open(pace: Option<Pace>) {
    pace.None? || !pace.value.hold
  }

  lemma WholeMs(release: real, resets: int, now: int, t: int)
    requires 0 <= now && release > now as real && (release.Floor as real == release || release <= resets as real)
    ensures var n := release.Floor;
            && now <= n && (t < n ==> t as real < release)
            && ((n >= resets || n as real >= release) <==> n as real == release)
            && (n + 1) as real >= release
  {
  }

  /** A held pool is open again, or unpaced, from its release on. */
  lemma {:induction false} OpenWhen(windows: seq<Window>, cfg: Config, now: int, t: int)
    requires ValidConfig(cfg) && 0 <= now <= t && !Open(PoolPace(windows, cfg, now))
    ensures var ws := Usable(windows);
            && Paced(ws, now) && PoolHolds(ws, cfg, now)
            && (Open(PoolPace(windows, cfg, t)) <==>
                  t >= ws[Longest(ws)].resets || t as real >= Release(ws, cfg, now).value)
  {
    if PoolPace(windows, cfg, t).Some? {
      HeldUntilRelease(Usable(windows), cfg, now, t);
    }
    hide Release, Longest, Usable;
  }

  /**
   next_dispatch_at is the release's whole milliseconds: the pool holds at
   every time before it that is before the paced window's reset, and then
   is open, or unpaced, exactly if the release fell on a whole millisecond;
   if not, it is one later.
   */
  lemma {:induction false} NextDispatch(windows: seq<Window>, cfg: Config, now: int, t: int)
    requires ValidConfig(cfg) && 0 <= now && !Open(PoolPace(windows, cfg, now))
    ensures var ws := Usable(windows); var next := PoolPace(windows, cfg, now).value.next.GetOr(0);
            && Paced(ws, now) && PoolHolds(ws, cfg, now) && now <= next
            && (now <= t < next && t < ws[Longest(ws)].resets ==> !Open(PoolPace(windows, cfg, t)))
            && (Open(PoolPace(windows, cfg, next)) <==> next as real == Release(ws, cfg, now).value)
            && Open(PoolPace(windows, cfg, next + 1))
  {
    hide *;
    NextIsWhole(windows, cfg, now);
    var ws := Usable(windows);
    var next := PoolPace(windows, cfg, now).value.next.GetOr(0);
    WholeMs(Release(ws, cfg, now).value, ws[Longest(ws)].resets, now, t);
    if now <= t {
      OpenWhen(windows, cfg, now, t);
    }
    OpenWhen(windows, cfg, now, next);
    OpenWhen(windows, cfg, now, next + 1);
  }

  lemma {:induction false} NextIsWhole(windows: seq<Window>, cfg: Config, now: int)
    requires ValidConfig(cfg) && 0 <= now && !Open(PoolPace(windows, cfg, now))
    ensures var ws := Usable(windows);
            && Paced(ws, now) && ws != [] && Release(ws, cfg, now).Some? && PoolPace(windows, cfg, now).Some?
            && PoolHolds(ws, cfg, now)
            && var r := Release(ws, cfg, now).value;
               && PoolPace(windows, cfg, now).value.next.GetOr(0) == r.Floor
               && r > now as real && (r.Floor as real == r || r <= ws[Longest(ws)].resets as real)
  {
    ReleaseLater(Usable(windows), cfg, now);
    ReleaseWhole(Usable(windows), cfg, now);
    hide Release, Longest, Usable;
  }

  /** A release that is not a whole millisecond comes before the paced window's reset. */
  lemma {:induction false} ReleaseWhole(ws: seq<Window>, cfg: Config, now: int)
    requires ValidConfig(cfg) && Paced(ws, now) && PoolHolds(ws, cfg, now)
    ensures var r := Release(ws, cfg, now).value; r.Floor as real == r || r <= ws[Longest(ws)].resets as real
  {
    NextIs(ws[Longest(ws)], cfg);
    hide Longest, Holds, PaidFor, Next;
  }

  /** The release of a held pool is after now. */
  lemma ReleaseLater(ws: seq<Window>, cfg: Config, now: int)
    requires ValidConfig(cfg) && 0 <= now && Paced(ws, now) && PoolHolds(ws, cfg, now)
    ensures Release(ws, cfg, now).value > now as real
  {
    HeldUntilRelease(ws, cfg, now, now);
  }

  /** A pool can be held at its own next_dispatch_at: here for the first millisecond of its window. */
  lemma HeldAtNext() returns (windows: seq<Window>, cfg: Config)
    ensures ValidConfig(cfg) && PoolPace(windows, cfg, 0).Some?
    ensures PoolPace(windows, cfg, 0).value.next == Some(0) && !Open(PoolPace(windows, cfg, 0))
  {
    hide Release;
    var w := Window(0.000001, DAY_MS, DAY_MS);
    windows, cfg := [w], Config(1.0, 0.0);
    assert windows[..0] == [];
    assert Usable([]) == [] && Usable(windows) == [w];
    ReleasedAfter(w, cfg);
  }

  /** Its release is a fraction of a millisecond after its window's start. */
  lemma {:induction false} ReleasedAfter(w: Window, cfg: Config)
    requires w == Window(0.000001, DAY_MS, DAY_MS) && cfg == Config(1.0, 0.0)
    ensures ValidConfig(cfg) && Paced([w], 0) && Release([w], cfg, 0) == Some(0.864)
  {
    assert Elapsed(w, 0) == 0 && Allowed(w, cfg, 0) == 0.0;
    assert (w.used - cfg.burst) / Goal(cfg) * w.ms as real == 0.864;
    assert forall i :: !Spent([w], 0, i, 0);
  }

  // --- What a pool's pace says of its windows -------------------------------------------

  /** The paced one of the windows: the longest, the first of several. */
  ghost predicate IsPaced(windows: seq<Window>, k: nat) {
    && k < |windows| && windows[k].ms > 0 && (forall j :: 0 <= j < |windows| ==> windows[j].ms <= windows[k].ms)
    && forall j :: 0 <= j < k ==> windows[j].ms < windows[k].ms
  }

  /** Where window k is among the usable ones. */
  ghost function Place(windows: seq<Window>, k: nat): nat
    requires k <= |windows|
  {
    |Usable(windows[..k])|
  }

  lemma {:induction false} Placed(windows: seq<Window>, k: nat)
    requires k < |windows| && windows[k].ms > 0
    ensures Place(windows, k) < |Usable(windows)| && Usable(windows)[Place(windows, k)] == windows[k]
  {
    hide Usable;
    var n := |windows| - 1;
    UsableLast(windows);
    if k < n {
      Placed(windows[..n], k);
      assert windows[..n][..k] == windows[..k];
    }
  }

  lemma {:induction false} UsableLast(windows: seq<Window>)
    requires windows != []
    ensures var n := |windows| - 1;
            Usable(windows) == Usable(windows[..n]) + if windows[n].ms > 0 then [windows[n]] else []
  {
  }

  /** Usable window i is one of the windows, and each before it one before that. */
  lemma {:induction false} PlaceOf(windows: seq<Window>, i: nat) returns (k: nat)
    requires i < |Usable(windows)|
    ensures k < |windows| && windows[k].ms > 0 && Place(windows, k) == i && windows[k] == Usable(windows)[i]
  {
    var n := |windows| - 1;
    if i < |Usable(windows[..n])| {
      k := PlaceOf(windows[..n], i);
      assert windows[..n][..k] == windows[..k];
    } else {
      k := n;
    }
  }

  lemma {:induction false} PlacesRise(windows: seq<Window>, j: nat, k: nat)
    requires j < k <= |windows| && windows[j].ms > 0
    ensures Place(windows, j) < Place(windows, k)
  {
    var n := k - 1;
    assert windows[..k][..n] == windows[..n];
    if j < n {
      PlacesRise(windows, j, n);
    }
  }

  /** The paced window of a pool is the longest of its usable ones. */
  lemma {:induction false} PacedPlace(windows: seq<Window>, k: nat)
    requires IsPaced(windows, k)
    ensures Usable(windows) != [] && Longest(Usable(windows)) == Place(windows, k)
  {
    Placed(windows, k);
    var ws := Usable(windows);
    var i := Longest(ws);
    var m := PlaceOf(windows, i);
    assert !(m < k);
    if k < m {
      PlacesRise(windows, k, m);
      assert false;
    }
  }

  /** A window but the paced one is used up. */
  ghost predicate UsedUp(windows: seq<Window>, k: nat, now: int) {
    exists j :: 0 <= j < |windows| && j != k && windows[j].ms > 0 && windows[j].resets > now && windows[j].used >= 100.0
  }

  lemma {:induction false} SpentIs(windows: seq<Window>, k: nat, now: int)
    requires IsPaced(windows, k)
    ensures Usable(windows) != [] && (AnySpent(Usable(windows), now) <==> UsedUp(windows, k, now))
  {
    PacedPlace(windows, k);
    var ws := Usable(windows);
    if i: nat :| Spent(ws, Longest(ws), i, now) {
      var j := PlaceOf(windows, i);
      assert j != k;
    }
    if j: nat :| j < |windows| && j != k && windows[j].ms > 0 && windows[j].resets > now && windows[j].used >= 100.0 {
      Placed(windows, j);
      if j < k {
        PlacesRise(windows, j, k);
      } else {
        PlacesRise(windows, k, j);
      }
      assert Spent(ws, Longest(ws), Place(windows, j), now);
    }
  }

  /**
   A pool with a paced window is paced exactly if that is a day or more and
   has not reset; its pace is even toward the target at the reset; and it
   holds new work exactly if its usage is over the target or ahead of the
   pace by more than the burst, or another window is used up. One without
   usable windows is unpaced.
   */
  lemma {:induction false} PaceMeans(windows: seq<Window>, cfg: Config, now: int, k: nat)
    requires ValidConfig(cfg)
    ensures (forall j :: 0 <= j < |windows| ==> windows[j].ms <= 0) ==> PoolPace(windows, cfg, now).None?
    ensures IsPaced(windows, k) ==>
              var w, p := windows[k], PoolPace(windows, cfg, now);
              && (p.Some? <==> w.ms >= 24 * 3600 * 1000 && w.resets > now)
              && (p.Some? ==> PaceIs(p.value, w, cfg, now, UsedUp(windows, k, now)))
  {
    if IsPaced(windows, k) {
      PacedPlace(windows, k);
      Placed(windows, k);
      SpentIs(windows, k, now);
      PaceOfUsable(windows, cfg, now);
    } else if Usable(windows) != [] {
      var j := PlaceOf(windows, 0);
    }
    hide Usable, IsPaced, Longest, PaceIs, AnySpent, UsedUp;
  }

  /** By the usable windows. */
  lemma {:induction false} PaceOfUsable(windows: seq<Window>, cfg: Config, now: int)
    requires ValidConfig(cfg) && Usable(windows) != [] && Usable(windows)[Longest(Usable(windows))].ms > 0
    ensures var ws := Usable(windows);
            var w, p := ws[Longest(ws)], PoolPace(windows, cfg, now);
            && (p.Some? <==> w.ms >= 24 * 3600 * 1000 && w.resets > now)
            && (p.Some? ==> PaceIs(p.value, w, cfg, now, AnySpent(ws, now)))
  {
    hide Usable, AnySpent, Longest, Release, Holds, Allowed, Elapsed;
    var ws := Usable(windows);
    var w := ws[Longest(ws)];
    if Paced(ws, now) {
      HoldsWhen(ws, cfg, now);
      PaceShares(w, cfg, now);
      ElapsedIs(w, now);
    }
  }

  lemma {:induction false} ElapsedIs(w: Window, now: int)
    requires w.ms > 0
    ensures Elapsed(w, now) == if now <= w.resets - w.ms then 0 else if now >= w.resets then w.ms
                               else now - (w.resets - w.ms)
  {
  }

  ghost predicate PaceIs(p: Pace, w: Window, cfg: Config, now: int, usedUp: bool) {
    var elapsed := if now <= w.resets - w.ms then 0 else if now >= w.resets then w.ms else now - (w.resets - w.ms);
    && p.used == w.used && p.target == cfg.target * 100.0 && p.burst == cfg.burst
    && p.allowed * w.ms as real == p.target * elapsed as real && p.ahead + p.allowed == p.used
    && (p.hold <==> p.used > p.target || p.ahead > p.burst || usedUp)
  }

  lemma {:induction false} PaceShares(w: Window, cfg: Config, now: int)
    requires w.ms > 0
    ensures Allowed(w, cfg, now) * w.ms as real == Goal(cfg) * Elapsed(w, now) as real
    ensures Holds(w, cfg, now) <==> w.used > Goal(cfg) || w.used - Allowed(w, cfg, now) > cfg.burst
  {
    DivTimes(Goal(cfg) * Elapsed(w, now) as real, w.ms as real);
  }

  // --- The agent of a new devspace run --------------------------------------------------

  datatype Agent = Claude | Opencode

  /** The default, unless Claude's pool has usage to spare where openai's has none. */
  function RemoteAgent(claude: Option<Pace>, openai: Option<Pace>): Agent {
    if claude.Some? && !claude.value.hold && claude.value.ahead < 0.0
       && openai.Some? && (openai.value.hold || openai.value.ahead > 0.0)
    then Claude else Opencode
  }

  // --- What a run costs --------------------------------------------------------------------

  const BUSY_RUN_SHARE: real := 0.5

  type RunId = nat
  datatype Sample = Sample(resets: int, used: real, runs: seq<RunId>, epoch: Option<int>, requests: Option<int>,
                           tokens: Option<int>)
  datatype Last = Last(busy: nat, used: real, epoch: Option<int>, requests: Option<int>, tokens: Option<int>)
  datatype Cost = Cost(runs: nat, pointsPerRun: real, requestsPerRun: real, tokensPerRun: real,
                       pointsPerRequest: Option<real>, current: bool)
  datatype Record = Record(runs: seq<RunId>, points: real, requests: int, tokens: int, previous: Option<Cost>,
                           resets: int, last: Last)

  /** How much a cumulative counter grew; it starts again from 0 in a new epoch. */
  function CounterDelta(a: Option<int>, b: Option<int>, sameEpoch: bool): int {
    if a.None? || b.None? then 0
    else if !sameEpoch then b.value
    else if b.value > a.value then b.value - a.value else 0
  }

  function MaxReal(a: real, b: real): real {
    if a >= b then a else b
  }

  function CostOf(r: Record): Option<Cost> {
    var seen := |r.runs|;
    var busy := Min(r.last.busy, seen);
    if !(seen > busy) || !(r.points > 0.0) then
      if r.previous.None? then None else Some(r.previous.value.(current := false))
    else
      var n := seen as real - busy as real * BUSY_RUN_SHARE;
      Some(Cost(seen, r.points / n, r.requests as real / n, r.tokens as real / n,
                if r.requests > 0 then Some(r.points / r.requests as real) else None, true))
  }

  predicate SameWindow(prev: Record, sample: Sample) {
    -SAME_WINDOW_MS < prev.resets - sample.resets < SAME_WINDOW_MS
  }

  /** The next record of a pool: its window's spending while runs were busy, and the runs seen. */
  method TrackCost(prev: Option<Record>, sample: Sample) returns (s: Record)
    ensures s == Tracked(prev, sample)
  {
    var same := prev.Some? && SameWindow(prev.value, sample);
    if same {
      s := prev.value;
    } else {
      s := Record([], 0.0, 0, 0, if prev.Some? then CostOf(prev.value) else None, 0, Last(0, 0.0, None, None, None));
    }
    if same && prev.value.last.busy > 0 {
      var last := prev.value.last;
      var sameEpoch := last.epoch == sample.epoch;
      s := s.(points := s.points + MaxReal(0.0, sample.used - last.used),
              requests := s.requests + CounterDelta(last.requests, sample.requests, sameEpoch),
              tokens := s.tokens + CounterDelta(last.tokens, sample.tokens, sameEpoch));
    }
    ghost var was := s.runs;
    for i := 0 to |sample.runs|
      invariant s == s.(runs := WithRuns(was, sample.runs[..i]))
      invariant s.(runs := was) == Charged(prev, sample)
    {
      if sample.runs[i] !in s.runs {
        s := s.(runs := s.runs + [sample.runs[i]]);
      }
      assert sample.runs[..i + 1][..i] == sample.runs[..i];
    }
    assert sample.runs[..|sample.runs|] == sample.runs;
    s := s.(resets := sample.resets, last := Last(|sample.runs|, sample.used, sample.epoch, sample.requests,
                                                  sample.tokens));
  }

  function WithRuns(seen: seq<RunId>, runs: seq<RunId>): seq<RunId> {
    if runs == [] then seen
    else
      var s := WithRuns(seen, runs[..|runs| - 1]);
      if runs[|runs| - 1] in s then s else s + [runs[|runs| - 1]]
  }

  function Charged(prev: Option<Record>, sample: Sample): Record {
    if prev.None? || !SameWindow(prev.value, sample) then
      Record([], 0.0, 0, 0, if prev.Some? then CostOf(prev.value) else None, 0, Last(0, 0.0, None, None, None))
    else if prev.value.last.busy == 0 then prev.value
    else
      var last := prev.value.last;
      prev.value.(points := prev.value.points + MaxReal(0.0, sample.used - last.used),
                  requests := prev.value.requests + CounterDelta(last.requests, sample.requests,
                                                                 last.epoch == sample.epoch),
                  tokens := prev.value.tokens + CounterDelta(last.tokens, sample.tokens, last.epoch == sample.epoch))
  }

  function Tracked(prev: Option<Record>, sample: Sample): Record {
    var s := Charged(prev, sample);
    s.(runs := WithRuns(s.runs, sample.runs), resets := sample.resets,
       last := Last(|sample.runs|, sample.used, sample.epoch, sample.requests, sample.tokens))
  }

  /** The record after samples, from none. */
  function RecordOf(samples: seq<Sample>): Option<Record> {
    if samples == [] then None else Some(Tracked(RecordOf(samples[..|samples| - 1]), samples[|samples| - 1]))
  }

  // --- What the records keep ------------------------------------------------------------------

  predicate Positive(cost: Option<Cost>) {
    cost.Some? ==> cost.value.pointsPerRun > 0.0
                   && (cost.value.pointsPerRequest.Some? ==> cost.value.pointsPerRequest.value > 0.0)
  }

  lemma DivPositive(a: real, b: real)
    requires a > 0.0 && b > 0.0
    ensures a / b > 0.0
  {
    DivTimes(a, b);
  }

  lemma CostPositive(r: Record)
    requires r.points >= 0.0 && Positive(r.previous)
    ensures Positive(CostOf(r))
  {
    var seen := |r.runs|;
    var busy := Min(r.last.busy, seen);
    if seen > busy && r.points > 0.0 {
      DivPositive(r.points, seen as real - busy as real * BUSY_RUN_SHARE);
      if r.requests > 0 {
        DivPositive(r.points, r.requests as real);
      }
    }
  }

  /** Every cost any samples lead to is positive, the windows carried over included. */
  lemma {:induction false} CostsPositive(samples: seq<Sample>)
    ensures RecordOf(samples).Some? ==>
              RecordOf(samples).value.points >= 0.0 && Positive(RecordOf(samples).value.previous)
              && Positive(CostOf(RecordOf(samples).value))
  {
    if samples != [] {
      CostsPositive(samples[..|samples| - 1]);
      CostPositive(RecordOf(samples).value);
      hide CostOf;
    }
  }

  /** How much the usage rose between two samples, if it did. */
  function Rise(a: Sample, b: Sample): real {
    if b.used > a.used then b.used - a.used else 0.0
  }

  /** The rises in usage between samples a to b - 1 and their next ones that saw a run busy. */
  function Rises(samples: seq<Sample>, a: nat, b: nat): real
    requires a <= b < |samples|
  {
    if a == b then 0.0
    else Rises(samples, a, b - 1) + if samples[b - 1].runs != [] then Rise(samples[b - 1], samples[b]) else 0.0
  }

  /** Sample a starts a window that goes on to sample b. */
  ghost predicate OneWindow(samples: seq<Sample>, a: nat, b: nat)
    requires a <= b < |samples|
  {
    && (a == 0 || !Continues(samples, a))
    && forall i :: a < i <= b ==> Continues(samples, i)
  }

  /** Sample i is of the window of the one before it. */
  predicate Continues(samples: seq<Sample>, i: nat)
    requires 0 < i < |samples|
  {
    -SAME_WINDOW_MS < samples[i - 1].resets - samples[i].resets < SAME_WINDOW_MS
  }

  /** Usage that only rises, rises by what it rose. */
  lemma {:induction false} RisesAtMost(samples: seq<Sample>, a: nat, b: nat)
    requires a <= b < |samples| && forall i :: a < i <= b ==> samples[i - 1].used <= samples[i].used
    ensures Rises(samples, a, b) <= samples[b].used - samples[a].used
  {
    if a < b {
      RisesAtMost(samples, a, b - 1);
    }
  }

  lemma TrackedPoints(prev: Option<Record>, sample: Sample)
    ensures Tracked(prev, sample).points ==
            if prev.None? || !SameWindow(prev.value, sample) then 0.0
            else prev.value.points + if prev.value.last.busy > 0 && sample.used > prev.value.last.used then
                                       sample.used - prev.value.last.used else 0.0
  {
  }

  /** One more sample of the window charges its rise; the first charges nothing. */
  lemma OneMoreSample(samples: seq<Sample>, b: nat)
    requires 0 < b < |samples|
    ensures var r := RecordOf(samples[..b + 1]);
            r.Some? && (Continues(samples, b) && RecordOf(samples[..b]).Some? ==>
                          r.value.points == RecordOf(samples[..b]).value.points
                                            + if samples[b - 1].runs != [] then Rise(samples[b - 1], samples[b])
                                              else 0.0)
  {
    assert samples[..b + 1][..b] == samples[..b];
    TrackedPoints(RecordOf(samples[..b]), samples[b]);
    LastOf(samples, b);
    hide Tracked, MaxReal;
  }

  lemma FirstSample(samples: seq<Sample>, a: nat)
    requires a < |samples| && OneWindow(samples, a, a)
    ensures RecordOf(samples[..a + 1]).Some? && RecordOf(samples[..a + 1]).value.points == 0.0
  {
    assert samples[..a + 1][..a] == samples[..a];
    TrackedPoints(RecordOf(samples[..a]), samples[a]);
    if a > 0 {
      LastOf(samples, a);
      assert samples[..a][..a - 1] == samples[..a - 1];
    }
    hide Tracked, MaxReal;
  }

  /** A window's points are its rises in usage while a run was busy. */
  lemma {:induction false} PointsAreRises(samples: seq<Sample>, a: nat, b: nat)
    requires a <= b < |samples| && OneWindow(samples, a, b)
    ensures RecordOf(samples[..b + 1]).Some? && RecordOf(samples[..b + 1]).value.points == Rises(samples, a, b)
  {
    hide RecordOf, Tracked, Continues, MaxReal;
    if a < b {
      PointsAreRises(samples, a, b - 1);
      OneMoreSample(samples, b);
    } else {
      FirstSample(samples, a);
    }
  }

  /** So never more than the window's whole rise. */
  lemma PointsAtMost(samples: seq<Sample>, a: nat, b: nat)
    requires a <= b < |samples| && OneWindow(samples, a, b) && forall i :: a < i <= b ==>
                                                                 samples[i - 1].used <= samples[i].used
    ensures RecordOf(samples[..b + 1]).Some?
            && RecordOf(samples[..b + 1]).value.points <= samples[b].used - samples[a].used
  {
    PointsAreRises(samples, a, b);
    RisesAtMost(samples, a, b);
    hide RecordOf;
  }

  lemma LastOf(samples: seq<Sample>, b: nat)
    requires 0 < b <= |samples|
    ensures var r := RecordOf(samples[..b]);
            && r.Some? && r.value.resets == samples[b - 1].resets
            && r.value.last.used == samples[b - 1].used && r.value.last.busy == |samples[b - 1].runs|
  {
    assert samples[..b][..b - 1] == samples[..b - 1];
  }

  /** The growth of a counter between two samples: it starts again from 0 in a new epoch. */
  function Growth(a: Sample, b: Sample, counter: Sample -> Option<int>): int {
    if counter(a).None? || counter(b).None? then 0
    else if a.epoch == b.epoch then Max(0, counter(b).value - counter(a).value) else counter(b).value
  }

  /** And over samples a to b, while a run was busy. */
  function Grown(samples: seq<Sample>, a: nat, b: nat, counter: Sample -> Option<int>): int
    requires a <= b < |samples|
  {
    if a == b then 0
    else Grown(samples, a, b - 1, counter) + if samples[b - 1].runs != [] then
                                             Growth(samples[b - 1], samples[b], counter)
                                             else 0
  }

  /** The runs of samples a to b. */
  ghost function SeenIn(samples: seq<Sample>, a: nat, b: nat): set<RunId>
    requires a <= b < |samples|
  {
    set i, r | a <= i <= b && r in samples[i].runs :: r
  }

  ghost predicate Once(runs: seq<RunId>) {
    forall i, j :: 0 <= i < j < |runs| ==> runs[i] != runs[j]
  }

  ghost function Each(runs: seq<RunId>): set<RunId> {
    set r | r in runs
  }

  lemma {:induction false} OnceEach(runs: seq<RunId>)
    requires Once(runs)
    ensures |Each(runs)| == |runs|
  {
    if runs != [] {
      var n := |runs| - 1;
      OnceEach(runs[..n]);
      assert runs == runs[..n] + [runs[n]] && Each(runs) == Each(runs[..n]) + {runs[n]};
      assert runs[n] !in Each(runs[..n]);
    }
  }

  lemma OneRun(runs: seq<RunId>, r: RunId)
    ensures Each(runs + [r]) == Each(runs) + {r} && (r in runs ==> Each(runs) + {r} == Each(runs))
    ensures Once(runs) && r !in runs ==> Once(runs + [r])
  {
    assert forall x :: x in runs + [r] <==> x in runs || x == r;
  }

  lemma {:induction false} MoreRuns(seen: seq<RunId>, runs: seq<RunId>)
    requires Once(seen)
    ensures Once(WithRuns(seen, runs)) && Each(WithRuns(seen, runs)) == Each(seen) + Each(runs)
  {
    if runs != [] {
      var n := |runs| - 1;
      MoreRuns(seen, runs[..n]);
      assert runs == runs[..n] + [runs[n]];
      OneRun(runs[..n], runs[n]);
      OneRun(WithRuns(seen, runs[..n]), runs[n]);
    } else {
      assert Each(runs) == {};
    }
  }

  const REQUESTS: Sample -> Option<int> := (s: Sample) => s.requests
  const TOKENS: Sample -> Option<int> := (s: Sample) => s.tokens

  /** What a window's record holds: each run seen once, what the counters grew, and the last window's cost. */
  ghost predicate IsRecord(samples: seq<Sample>, a: nat, b: nat, r: Record)
    requires a <= b < |samples|
  {
    && Once(r.runs) && Each(r.runs) == SeenIn(samples, a, b)
    && r.requests == Grown(samples, a, b, REQUESTS) && r.tokens == Grown(samples, a, b, TOKENS)
    && r.previous == (if a == 0 then None else CostOf(RecordOf(samples[..a]).value))
    && r.last.busy == |samples[b].runs|
  }

  /** A sample's own step, by what it adds to the record of the one before. */
  lemma TrackedRest(prev: Option<Record>, sample: Sample)
    ensures var s, same := Tracked(prev, sample), prev.Some? && SameWindow(prev.value, sample);
            && s.runs == WithRuns(if same then prev.value.runs else [], sample.runs)
            && s.previous == (if same then prev.value.previous else if prev.Some? then CostOf(prev.value) else None)
            && s.last == Last(|sample.runs|, sample.used, sample.epoch, sample.requests, sample.tokens)
            && (!same ==> s.requests == 0 && s.tokens == 0)
            && (same ==> var l, on := prev.value.last, prev.value.last.busy > 0;
                         && s.requests == prev.value.requests
                              + (if on then CounterDelta(l.requests, sample.requests, l.epoch == sample.epoch) else 0)
                         && s.tokens == prev.value.tokens
                              + (if on then CounterDelta(l.tokens, sample.tokens, l.epoch == sample.epoch) else 0))
  {
  }

  lemma WindowStarts(samples: seq<Sample>, a: nat)
    requires a < |samples| && OneWindow(samples, a, a)
    ensures RecordOf(samples[..a + 1]).Some? && IsRecord(samples, a, a, RecordOf(samples[..a + 1]).value)
  {
    hide CostOf, Tracked, WithRuns, CounterDelta;
    assert samples[..a + 1][..a] == samples[..a];
    if a > 0 {
      LastCounters(samples, a);
      assert samples[..a][..a - 1] == samples[..a - 1];
    }
    TrackedRest(RecordOf(samples[..a]), samples[a]);
    MoreRuns([], samples[a].runs);
    assert SeenIn(samples, a, a) == Each(samples[a].runs);
  }

  /** The last sample's counters are what a record compares with. */
  lemma LastCounters(samples: seq<Sample>, b: nat)
    requires 0 < b <= |samples|
    ensures var r, s := RecordOf(samples[..b]), samples[b - 1];
            r.Some? && r.value.last == Last(|s.runs|, s.used, s.epoch, s.requests, s.tokens)
            && r.value.resets == s.resets
  {
    assert samples[..b][..b - 1] == samples[..b - 1];
  }

  /** Over any samples of a window, whatever came before it. */
  lemma {:induction false} RecordIs(samples: seq<Sample>, a: nat, b: nat)
    requires a <= b < |samples| && OneWindow(samples, a, b)
    ensures RecordOf(samples[..b + 1]).Some? && IsRecord(samples, a, b, RecordOf(samples[..b + 1]).value)
  {
    hide CostOf, Tracked, WithRuns, CounterDelta;
    if a == b {
      WindowStarts(samples, a);
    } else {
      RecordIs(samples, a, b - 1);
      assert samples[..b + 1][..b] == samples[..b] && Continues(samples, b);
      var prev := RecordOf(samples[..b]);
      LastCounters(samples, b);
      TrackedRest(prev, samples[b]);
      MoreRuns(prev.value.runs, samples[b].runs);
      Deltas(samples[b - 1], samples[b]);
      assert SeenIn(samples, a, b) == SeenIn(samples, a, b - 1) + Each(samples[b].runs);
    }
  }

  lemma Deltas(a: Sample, b: Sample)
    ensures CounterDelta(a.requests, b.requests, a.epoch == b.epoch) == Growth(a, b, REQUESTS)
    ensures CounterDelta(a.tokens, b.tokens, a.epoch == b.epoch) == Growth(a, b, TOKENS)
  {
  }

  /**
   Of a window's figures: once a run is over and the usage rose, the rise is
   the cost of the runs that are over and half that of each still busy, and
   so are the requests and tokens; until then the last window's cost stands.
   */
  ghost predicate Shares(cost: Option<Cost>, before: Option<Cost>, seen: nat, lastBusy: nat, points: real,
                         requests: int, tokens: int) {
    var busy := Min(lastBusy, seen);
    if seen == busy || points <= 0.0 then
      cost == if before.None? then None else Some(before.value.(current := false))
    else
      var n := (seen - busy) as real + busy as real / 2.0;
      && cost.Some? && cost.value.current && cost.value.runs == seen
      && cost.value.pointsPerRun * n == points && cost.value.requestsPerRun * n == requests as real
      && cost.value.tokensPerRun * n == tokens as real
      && (cost.value.pointsPerRequest.Some? <==> requests > 0)
      && (requests > 0 ==> cost.value.pointsPerRequest.value * requests as real == points)
  }

  /** What a run costs, by the samples of its window and the cost before it. */
  lemma {:induction false} CostIs(samples: seq<Sample>, a: nat, b: nat)
    requires a <= b < |samples| && OneWindow(samples, a, b)
    ensures RecordOf(samples[..b + 1]).Some? && (a > 0 ==> RecordOf(samples[..a]).Some?)
    ensures Shares(CostOf(RecordOf(samples[..b + 1]).value),
                   if a == 0 then None else CostOf(RecordOf(samples[..a]).value),
                   |SeenIn(samples, a, b)|, |samples[b].runs|, Rises(samples, a, b),
                   Grown(samples, a, b, REQUESTS), Grown(samples, a, b, TOKENS))
  {
    PointsAreRises(samples, a, b);
    RecordIs(samples, a, b);
    var r := RecordOf(samples[..b + 1]).value;
    OnceEach(r.runs);
    CostShares(r);
    hide Shares, RecordOf, CostOf, Rises, Grown, OneWindow;
  }

  lemma CostShares(r: Record)
    ensures Shares(CostOf(r), r.previous, |r.runs|, r.last.busy, r.points, r.requests, r.tokens)
  {
    var seen := |r.runs|;
    var busy := Min(r.last.busy, seen);
    if seen > busy && r.points > 0.0 {
      var n := (seen - busy) as real + busy as real / 2.0;
      assert n == seen as real - busy as real * BUSY_RUN_SHARE;
      DivTimes(r.points, n);
      DivTimes(r.requests as real, n);
      DivTimes(r.tokens as real, n);
      if r.requests > 0 {
        DivTimes(r.points, r.requests as real);
      }
    }
  }

  // --- How many more runs may start -----------------------------------------------------------

  function Limit(pace: Pace): real {
    MinReal(pace.allowed + pace.burst, pace.target)
  }

  function RunsThatFit(pace: Pace, cost: Option<Cost>): Option<int>
    requires Positive(cost)
  {
    if pace.hold then Some(0)
    else if cost.None? then None
    else Some(1 + ((Limit(pace) - pace.used) / cost.value.pointsPerRun).Floor)
  }

  /** Start a run while the usage is within the limit, then charge its cost. */
  ghost function StartWhileWithin(limit: real, used: real, cost: real): nat
    requires cost > 0.0
    decreases if used > limit then 0 else 1 + Steps(limit, used, cost)
  {
    if used > limit then 0
    else
      FewerSteps(limit, used, cost);
      1 + StartWhileWithin(limit, used + cost, cost)
  }

  ghost function Steps(limit: real, used: real, cost: real): nat
    requires cost > 0.0 && used <= limit
  {
    DivTimes(limit - used, cost);
    NonNegativeDiv(limit - used, cost);
    ((limit - used) / cost).Floor
  }

  lemma NonNegativeDiv(a: real, b: real)
    requires a >= 0.0 && b > 0.0
    ensures a / b >= 0.0
  {
    DivTimes(a, b);
    TimesPositive(a / b, 0.0, b);
  }

  /** Dividing one divisor less gives one less. */
  lemma DivLess(a: real, c: real)
    requires c > 0.0
    ensures (a - c) / c == a / c - 1.0
  {
    var p, q := (a - c) / c, a / c;
    DivTimes(a, c);
    DivTimes(a - c, c);
    assert (q - 1.0) * c == q * c - c;
    TimesPositive(p, q - 1.0, c);
    TimesPositive(q - 1.0, p, c);
  }

  lemma FewerSteps(limit: real, used: real, cost: real)
    requires cost > 0.0 && used <= limit
    ensures used + cost <= limit ==> Steps(limit, used + cost, cost) == Steps(limit, used, cost) - 1
    ensures used + cost > limit ==> Steps(limit, used, cost) == 0
  {
    var q := (limit - used) / cost;
    DivTimes(limit - used, cost);
    DivLess(limit - used, cost);
    assert limit - (used + cost) == limit - used - cost;
    TimesPositive(q, 1.0, cost);
    if used + cost <= limit {
      assert Steps(limit, used + cost, cost) == (q - 1.0).Floor;
    }
  }

  lemma {:induction false} StartsAreSteps(limit: real, used: real, cost: real)
    requires cost > 0.0 && used <= limit
    ensures StartWhileWithin(limit, used, cost) == 1 + Steps(limit, used, cost)
    decreases Steps(limit, used, cost)
  {
    FewerSteps(limit, used, cost);
    if used + cost <= limit {
      StartsAreSteps(limit, used + cost, cost);
    }
    hide Steps;
  }

  /**
   A pool's fits are the runs started one by one while the usage is within the
   limit, if only its own pace can hold it.
   */
  lemma {:induction false} FitsAreStarts(windows: seq<Window>, cfg: Config, now: int, cost: Option<Cost>)
    requires ValidConfig(cfg) && PoolPace(windows, cfg, now).Some? && Positive(cost) && cost.Some?
    ensures var pace := PoolPace(windows, cfg, now).value; var ws := Usable(windows);
            RunsThatFit(pace, cost) ==
            Some(if AnySpent(ws, now) then 0 else StartWhileWithin(Limit(pace), pace.used, cost.value.pointsPerRun))
  {
    var pace := PoolPace(windows, cfg, now).value;
    var ws := Usable(windows);
    HoldsWhen(ws, cfg, now);
    assert pace.used > Limit(pace) <==> Holds(ws[Longest(ws)], cfg, now);
    FitsUnder(pace, cost.value);
    hide Longest, Usable, StartWhileWithin, Limit, Holds, AnySpent;
  }

  lemma FitsUnder(pace: Pace, cost: Cost)
    requires Positive(Some(cost)) && (pace.used > Limit(pace) ==> pace.hold)
    ensures RunsThatFit(pace, Some(cost)) ==
            Some(if pace.hold then 0 else StartWhileWithin(Limit(pace), pace.used, cost.pointsPerRun))
    ensures pace.used > Limit(pace) ==> StartWhileWithin(Limit(pace), pace.used, cost.pointsPerRun) == 0
  {
    if pace.used <= Limit(pace) {
      StartsAreSteps(Limit(pace), pace.used, cost.pointsPerRun);
      hide StartWhileWithin;
    }
  }
}

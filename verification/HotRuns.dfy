/**
 Runs of the hot state (crates/bot-poll/src/main.rs: hot_cycle, full_sweep,
 sweep_check, report and Store.save): working and failing cycles, sweeps,
 reports, saves and deaths of the process, in any order.
 */
module HotRuns {
  import opened Options
  import opened News
  import opened OperatorEvents
  import opened NewsHistory
  import opened SweepLoop
  import opened HotCycle
  import R = PollRuns
  import P = Paging

  type Tidings = iset<R.Told>

  /**
   A cycle; a check of bot-sweep's directory; a sweep of its own, in three
   parts; the printing of what is due; a save, which prints that first; and
   a death, after which the saved state is read.
   */
  datatype Move =
    | Hot(server: P.Server, flags: seq<Flag>, limited: Option<int>, signoff: Option<Option<seq<string>>>,
          notify: Option<Option<Output>>, now: int)
    | Check(status: Option<Status>, runs: map<RunId, Outputs>, health: seq<Item>, hot: Option<map<Key, HotItem>>,
            now: int)
    | StartSweep(now: int)
    | Evaluation(run: RunId, outputs: Outputs, now: int)
    | AfterSweep(swept: Option<map<Key, HotItem>>, now: int)
    | Print
    | Save
    | Die

  /** The state in memory and the saved one; the news found since, and what was printed. */
  datatype World = World(mem: Image, disk: Image, due: Tidings, printed: Tidings)

  /** What each move does. A cycle that is paused or fails leaves everything. */
  ghost predicate Moves(a: World, m: Move, b: World) {
    match m
    case Hot(server, flags, limited, signoff, notify, now) =>
      if now < a.mem.pausedUntil || !Runs(signoff, notify) then b == a
      else exists order, steps :: Worked(server, flags, limited, signoff, notify, now, a, b, order, steps)
    case Check(status, runs, health, hot, now) => exists ids :: Checked(status, runs, health, hot, now, a, b, ids)
    case StartSweep(now) => b == a.(mem := StartedAt(a.mem, now))
    case Evaluation(run, outputs, now) =>
      var step := Sweep(outputs, now);
      b == Reporting(a, a.mem.(mem := After(a.mem.mem, step), evaluated := Some(run), log := a.mem.log + [step]),
                     [step])
    case AfterSweep(swept, now) => b == a.(mem := b.mem) && Swept(a.mem, swept, now, b.mem)
    case Print => b == a.(due := iset{}, printed := a.printed + a.due)
    case Save => b == World(a.mem, a.mem, iset{}, a.printed + a.due)
    case Die => b == World(a.disk, a.disk, iset{}, a.printed)
  }

  /** The state moved on by these steps, whose news is due. */
  ghost function Reporting(a: World, mem: Image, steps: seq<Step>): World {
    a.(mem := mem, due := a.due + R.NewsOf(a.mem.mem, steps))
  }

  ghost predicate Worked(server: P.Server, flags: seq<Flag>, limited: Option<int>,
                         signoff: Option<Option<seq<string>>>, notify: Option<Option<Output>>, now: int, a: World,
                         b: World, order: seq<Key>, steps: seq<Step>) {
    && Cycled(server, flags, limited, signoff, notify, now, a.mem, b.mem, order, steps)
    && b == Reporting(a, b.mem, steps)
  }

  ghost predicate Checked(status: Option<Status>, runs: map<RunId, Outputs>, health: seq<Item>,
                          hot: Option<map<Key, HotItem>>, now: int, a: World, b: World, ids: seq<RunId>) {
    var steps := CheckSteps(runs, ids, health, now);
    && PendingRuns(ids, a.mem.evaluated, NewestOf(status), runs.Keys)
    && b == Reporting(a, b.mem, steps) && b.mem.log == a.mem.log + steps && b.mem.mem == RunFrom(a.mem.mem, steps)
    && b.mem.evaluated == (if status.Some? then Some(status.value.run) else a.mem.evaluated)
    && if status.Some? && a.mem.evaluated != Some(status.value.run) then
       SweptAfter(a.mem, status.value, hot, now, b.mem)
       else HotPart(b.mem) == HotPart(a.mem)
  }

  /** What is printed of what was found. */
  ghost function ToldOf(found: Found): Tidings {
    iset t | IsFound(found, t)
  }

  ghost predicate IsFound(found: Found, t: R.Told) {
    match t
    case OfKind(kind, item) => item in At(found.notified, kind)
    case OfEvent(ev) => ev in found.events
    case OfLine(line) => line in found.lines
  }

  /** It is exactly the news of the steps. */
  lemma ToldIsNews(m: Mem, steps: seq<Step>, found: Found)
    requires FoundIs(m, steps, found)
    ensures ToldOf(found) == R.NewsOf(m, steps)
  {
    hide At, SetNews, PollNews, LineNews;
  }

  lemma {:induction false} OnlyKinds(m: Mem, steps: seq<Step>, news: KindNews)
    requires forall kind :: At(news, kind) == SetNews(m, steps, kind)
    requires PollNews(m, steps) == [] && LineNews(m, steps) == []
    ensures FoundIs(m, steps, Found([], [], news))
  {
  }

  /** The process: its state, and the saved one. */
  class Process {
    const mem: State
    const disk: State
    ghost var due: Tidings
    ghost var printed: Tidings

    ghost predicate Valid()
      reads this, mem, disk
    {
      mem != disk && mem.Whole() && disk.Whole()
    }

    ghost function Now(): World
      reads this, mem, disk
    {
      World(mem.Now(), disk.Now(), due, printed)
    }

    constructor ()
      ensures Valid() && fresh(mem) && fresh(disk)
      ensures Now().mem == Now().disk && disk.cursor.None? && disk.log == [] && printed == iset{}
    {
      var m := new State();
      var d := new State();
      mem, disk, due, printed := m, d, iset{}, iset{};
      new;
      disk.Assign(mem);
    }

    /** A hot cycle, and the news it found. */
    method TakeHot(server: P.Server, flags: seq<Flag>, limited: Option<int>, signoff: Option<Option<seq<string>>>,
                   notify: Option<Option<Output>>, now: int)
      returns (found: Found)
      requires Valid()
      modifies mem, this`due
      ensures Valid() && Moves(old(Now()), Hot(server, flags, limited, signoff, notify, now), Now())
      ensures due == old(due) + ToldOf(found)
    {
      hide Sound, Cycled, Within, Runs, FoundIs, R.NewsOf;
      ghost var a := Now();
      var ok;
      ghost var order, steps;
      ok, found, order, steps := RunCycle(mem, server, flags, limited, signoff, notify, now);
      if !ok {
        found := Found([], [], map[]);
      }
      if ok && now >= old(mem.pausedUntil) {
        ToldIsNews(a.mem.mem, steps, found);
        due := due + ToldOf(found);
        assert Worked(server, flags, limited, signoff, notify, now, a, Now(), order, steps);
      } else {
        FoundNothing(a.mem.mem, found, ok);
      }
    }

    /** A check of bot-sweep's directory, and the news it found. */
    method TakeCheck(status: Option<Status>, runs: map<RunId, Outputs>, health: seq<Item>,
                     hot: Option<map<Key, HotItem>>, now: int)
      returns (found: Found)
      requires Valid()
      modifies mem, this`due
      ensures Valid() && Moves(old(Now()), Check(status, runs, health, hot, now), Now())
      ensures due == old(due) + ToldOf(found)
    {
      hide Sound, SetNews, PollNews, LineNews, FoundIs, PendingRuns, SweptAfter, R.NewsOf, RunFrom;
      ghost var a := Now();
      var news;
      ghost var ids;
      news, ids := SweepCheck(mem, status, runs, health, hot, now);
      found := Found([], [], news);
      ghost var steps := CheckSteps(runs, ids, health, now);
      R.ChecksPollNothing(runs, ids, health, now, a.mem.mem, |steps|);
      assert steps[..|steps|] == steps;
      OnlyKinds(a.mem.mem, steps, news);
      ToldIsNews(a.mem.mem, steps, found);
      due := due + ToldOf(found);
      assert Checked(status, runs, health, hot, now, a, Now(), ids);
    }

    /** The evaluation of a sweep of its own, and its news. */
    method TakeSweep(run: RunId, outputs: Outputs, now: int) returns (found: Found)
      requires Valid()
      modifies mem, this`due
      ensures Valid() && Moves(old(Now()), Evaluation(run, outputs, now), Now())
      ensures due == old(due) + ToldOf(found)
    {
      hide P.TellFull, Named, AllTold, AtCursor, TurnsOk, LogOk, FoundIs, R.NewsOf, After, SetNews;
      ghost var a := Now();
      var news := mem.TakeOutputs(outputs, now);
      mem.evaluated := Some(run);
      found := Found([], [], news);
      OneSweep(a.mem.mem, outputs, now, news);
      mem.Notes(a.mem.mem, [Sweep(outputs, now)]);
      ToldIsNews(a.mem.mem, [Sweep(outputs, now)], found);
      due := due + ToldOf(found);
    }

    method Take(m: Move)
      requires Valid()
      modifies mem, disk, this
      ensures Valid() && Moves(old(Now()), m, Now())
    {
      hide P.TellFull, Named, AllTold, AtCursor, TurnsOk, LogOk, Cycled, Runs, CheckSteps, SweptAfter, PendingRuns,
           R.NewsOf;
      var found;
      match m {
        case Hot(server, flags, limited, signoff, notify, now) =>
          found := TakeHot(server, flags, limited, signoff, notify, now);
        case Check(status, runs, health, hot, now) => found := TakeCheck(status, runs, health, hot, now);
        case StartSweep(now) => mem.StartSweep(now);
        case Evaluation(run, outputs, now) => found := TakeSweep(run, outputs, now);
        case AfterSweep(swept, now) => mem.AfterSweep(swept, now);
        case Print => due, printed := iset{}, printed + due;
        case Save =>
          due, printed := iset{}, printed + due;
          disk.Assign(mem);
        case Die =>
          due := iset{};
          mem.Assign(disk);
      }
    }

    /** Any run. */
    method Run(moves: seq<Move>) returns (ghost ws: seq<World>)
      requires Valid()
      modifies mem, disk, this
      ensures Valid() && RunOf(moves, ws) && ws[0] == old(Now()) && ws[|moves|] == Now()
    {
      hide Sound, Moves;
      ws := [Now()];
      for n := 0 to |moves|
        invariant Valid() && RunOf(moves[..n], ws) && ws[0] == old(Now()) && ws[n] == Now()
      {
        Take(moves[n]);
        Longer(moves, n, ws, Now());
        ws := ws + [Now()];
      }
      assert moves[..|moves|] == moves;
    }
  }

  lemma FoundNothing(m: Mem, found: Found, ok: bool)
    requires if ok then FoundIs(m, [], found) else found == Found([], [], map[])
    ensures ToldOf(found) == iset{}
  {
    if ok {
      ToldIsNews(m, [], found);
    }
  }

  lemma {:induction false} OneSweep(m: Mem, outputs: Outputs, now: int, news: KindNews)
    requires forall kind :: At(news, kind) == RunNews(outputs, m.seen, m.reported, kind)
    ensures FoundIs(m, [Sweep(outputs, now)], Found([], [], news)) && FoundIds([Sweep(outputs, now)]) == {}
    ensures RunFrom(m, [Sweep(outputs, now)]) == After(m, Sweep(outputs, now))
  {
    hide RunNews, After;
    StartFound(m);
    NotifyFound(m, [], m, Found([], [], map[]), outputs, now, news);
    NoneFoundBy([Sweep(outputs, now)]);
    assert [] + [Sweep(outputs, now)] == [Sweep(outputs, now)];
  }

  /** Each move's step, between sound states. */
  ghost predicate RunOf(moves: seq<Move>, ws: seq<World>) {
    && |ws| == |moves| + 1 && (forall w :: w in ws ==> Sound(w.mem) && Sound(w.disk))
    && forall i :: 0 <= i < |moves| ==> Moves(ws[i], moves[i], ws[i + 1])
  }

  lemma Longer(moves: seq<Move>, n: nat, ws: seq<World>, w: World)
    requires n < |moves| && RunOf(moves[..n], ws) && Sound(w.mem) && Sound(w.disk) && Moves(ws[n], moves[n], w)
    ensures RunOf(moves[..n + 1], ws + [w])
  {
    hide Sound, Moves;
    var all := ws + [w];
    forall i | 0 <= i < n + 1 ensures Moves(all[i], moves[..n + 1][i], all[i + 1]) {
      if i < n {
        assert Moves(ws[i], moves[..n][i], ws[i + 1]);
      }
    }
  }

  // --- What waits is never forgotten ------------------------------------------------------

  /** The saved state's turns are the first of those in memory. */
  ghost predicate Behind(w: World) {
    w.disk.turns <= w.mem.turns
  }

  lemma OneMove(a: World, m: Move, b: World)
    requires Moves(a, m, b) && Behind(a)
    ensures Behind(b) && a.disk.turns <= b.disk.turns && (!m.Die? ==> a.mem.turns <= b.mem.turns)
  {
    hide AllRead, Awaits, OnlyTold, AllRevalidated, Kinds, PollSteps, TargetsAre, KeptBut, Touched, PausedBy, Aged,
         FoundIds, RunFrom,
         R.NewsOf, CheckSteps, ToolSteps;
  }

  /** Saved turns are never lost, and those in memory only by a death. */
  lemma {:induction false} TurnsGrow(moves: seq<Move>, ws: seq<World>, i: nat, j: nat)
    requires RunOf(moves, ws) && Behind(ws[0]) && i <= j < |ws|
    ensures Behind(ws[j]) && ws[i].disk.turns <= ws[j].disk.turns
    ensures (forall l :: i <= l < j ==> !moves[l].Die?) ==> ws[i].mem.turns <= ws[j].mem.turns
    decreases j
  {
    hide Moves, Sound;
    if j > 0 {
      TurnsGrow(moves, ws, if i == j then j - 1 else i, j - 1);
      OneMove(ws[j - 1], moves[j - 1], ws[j - 1 + 1]);
    }
  }

  /** In turn N or later the item was polled, or not hot. */
  ghost predicate PolledOrGone(turns: seq<Turn>, n: nat, k: Key) {
    exists l :: n <= l < |turns| && (k in turns[l].polled || k !in turns[l].hot)
  }

  lemma {:induction false} WaitsOn(turns: seq<Turn>, n: nat, k: Key)
    requires n < |turns| && k in turns[n].waiting
    requires forall i :: 0 < i < |turns| ==> Follows(turns[i - 1], turns[i])
    ensures k in turns[|turns| - 1].waiting || PolledOrGone(turns, n + 1, k)
  {
    var last := |turns| - 1;
    if n < last {
      WaitsOn(turns[..last], n, k);
      assert Follows(turns[last - 1], turns[last]);
      if l :| n + 1 <= l < last && (k in turns[..last][l].polled || k !in turns[..last][l].hot) {
        assert k in turns[l].polled || k !in turns[l].hot;
      }
    }
  }

  /**
   Over any run of working and failing cycles, sweeps, saves and deaths: an
   item that waits to be polled goes on waiting until a poll of it works or
   it leaves the hot set, if its waiting was saved, or no death came since.
   */
  lemma NeverForgotten(moves: seq<Move>, ws: seq<World>, i: nat, j: nat, saved: bool, k: Key)
    requires RunOf(moves, ws) && Behind(ws[0]) && i <= j < |ws|
    requires saved || forall l :: i <= l < j ==> !moves[l].Die?
    requires k in (if saved then ws[i].disk else ws[i].mem).pending
    ensures k in ws[j].mem.pending || PolledOrGone(ws[j].mem.turns, |(if saved then ws[i].disk else ws[i].mem).turns|,
                                                   k)
  {
    hide Moves, Follows, ReadBy, PagesOk;
    var was, now := if saved then ws[i].disk else ws[i].mem, ws[j].mem;
    TurnsGrow(moves, ws, i, j);
    assert Sound(was) && Sound(now);
    assert was.turns <= now.turns;
    WaitsOn(now.turns, |was.turns| - 1, k);
  }

  /** And so does an item that any turn of a state's was flagged: it was polled, left the hot set, or waits. */
  lemma FlaggedNeverForgotten(m: Image, l: nat, x: nat)
    requires Sound(m) && 0 < l < |m.turns| && x < |m.turns[l].flags|
    requires var f := m.turns[l].flags[x]; f.dirty && (f.ours || f.key in m.turns[l - 1].hot)
    ensures var k := m.turns[l].flags[x].key; k in m.pending || PolledOrGone(m.turns, l, k)
  {
    var k := m.turns[l].flags[x].key;
    assert Follows(m.turns[l - 1], m.turns[l]);
    if k in m.turns[l].waiting {
      hide Follows, ReadBy, PagesOk;
      WaitsOn(m.turns, l, k);
    }
  }

  /** What an unconditional read of the item's listings got in that turn. */
  ghost predicate ReadThen(t: Turn, k: Key, pr: bool, r: seq<P.Body>, i: seq<P.Body>, c: seq<P.Body>) {
    && (if pr then P.Unconditional(t.server, k, P.Reviews, r) else r == [])
    && (if pr then P.Unconditional(t.server, k, P.ReviewComments(t.cursor), i) else i == [])
    && P.Unconditional(t.server, k, P.Comments(t.cursor), c)
  }

  /** And polled means told: all the operator's entries from TOLDFROM on that an unconditional read would have got. */
  lemma PolledIsTold(m: Image, l: nat, k: Key)
    requires Sound(m) && l < |m.turns| && k in m.turns[l].polled && m.cursor.Some?
    ensures exists pr, r, i, c :: ReadThen(m.turns[l], k, pr, r, i, c)
                                  && forall b :: b in r || b in i || b in c ==> Told(b, m.toldFrom, m.told)
  {
    hide P.Unconditional, Told, Follows, Awaits, PagesOf;
    var t := m.turns[l];
    assert t in m.turns && ReadBy(t, m.processed);
    var pr :| WhollyRead(t.server, k, pr, t.cursor, m.processed);
    var r, i, c :| ReadThen(t, k, pr, r, i, c) && Read(k, t.cursor, r, i, c) <= m.processed;
    var read := Read(k, t.cursor, r, i, c);
    assert PagesOf(k, P.Reviews, r) <= read && PagesOf(k, P.ReviewComments(t.cursor), i) <= read
           && PagesOf(k, P.Comments(t.cursor), c) <= read;
    ListingIsTold(m, k, P.Reviews, r);
    ListingIsTold(m, k, P.ReviewComments(t.cursor), i);
    ListingIsTold(m, k, P.Comments(t.cursor), c);
  }

  lemma ListingIsTold(m: Image, k: Key, l: P.Listing, bodies: seq<P.Body>)
    requires AllTold(m.processed, m.toldFrom, m.told) && PagesOf(k, l, bodies) <= m.processed
    ensures forall b :: b in bodies ==> Told(b, m.toldFrom, m.told)
  {
    hide Told;
    forall b | b in bodies ensures Told(b, m.toldFrom, m.told) {
      var q: nat :| q < |bodies| && bodies[q] == b;
      assert bodies[q + 1 - 1] == b;
      assert (P.Path(k, l, q + 1), b) in PagesOf(k, l, bodies);
    }
  }

  // --- What is told was printed ------------------------------------------------------------

  /** The news of all that led to the state was printed or is due, and was printed before it was saved. */
  ghost predicate Covered(w: World) {
    && R.NewsOf(R.NOTHING, w.mem.log) <= w.printed + w.due
    && R.NewsOf(R.NOTHING, w.disk.log) <= w.printed
  }

  lemma {:induction false} FromNothing(log: seq<Step>)
    ensures StateAfter(log) == RunFrom(R.NOTHING, log)
  {
    hide After;
    if log != [] {
      FromNothing(log[..|log| - 1]);
    }
  }

  lemma CoveredOn(a: World, m: Move, b: World)
    requires Moves(a, m, b) && Covered(a) && Sound(a.mem)
    ensures Covered(b)
  {
    hide AllRead, Awaits, OnlyTold, AllRevalidated, Kinds, PollSteps, TargetsAre, KeptBut, Touched, PausedBy, Aged,
         FoundIds, RunFrom,
         R.NewsOf, CheckSteps, ToolSteps;
    hide TurnsOk, PagesOk, StateAfter, After, Swept;
    FromNothing(a.mem.log);
    if b.mem.log != a.mem.log && !m.Die? {
      var steps := LogGrows(a, m, b);
      R.NewsSplit(R.NOTHING, a.mem.log, steps);
    }
  }

  lemma LogGrows(a: World, m: Move, b: World) returns (steps: seq<Step>)
    requires Moves(a, m, b) && b.mem.log != a.mem.log && !m.Die?
    ensures b == Reporting(a, b.mem, steps) && b.mem.log == a.mem.log + steps
  {
    hide AllRead, Awaits, OnlyTold, AllRevalidated, Kinds, PollSteps, TargetsAre, KeptBut, Touched, PausedBy, Aged,
         FoundIds, RunFrom,
         R.NewsOf, CheckSteps, ToolSteps, After;
    match m
    case Hot(server, flags, limited, signoff, notify, now) =>
      var order;
      order, steps :| Worked(server, flags, limited, signoff, notify, now, a, b, order, steps);
    case Check(status, runs, health, hot, now) =>
      var ids :| Checked(status, runs, health, hot, now, a, b, ids);
      steps := CheckSteps(runs, ids, health, now);
    case Evaluation(run, outputs, now) => steps := [Sweep(outputs, now)];
    case _ => steps := [];
  }

  lemma {:induction false} AlwaysCovered(moves: seq<Move>, ws: seq<World>, j: nat)
    requires RunOf(moves, ws) && Covered(ws[0]) && j < |ws|
    ensures Covered(ws[j])
  {
    hide Moves, Sound, Covered;
    if j > 0 {
      AlwaysCovered(moves, ws, j - 1);
      assert Sound(ws[j - 1].mem);
      CoveredOn(ws[j - 1], moves[j - 1], ws[j - 1 + 1]);
    }
  }

  predicate Carries(ev: OpEvent, id: EventId) {
    ev.id == id || id in ev.also
  }

  /** A poll of the log found the id, in an event that was printed, or that counted as reported before. */
  ghost predicate PrintedOrKnown(log: seq<Step>, printed: Tidings, id: EventId) {
    exists n: nat, x: nat :: FoundAt(log, n, x, id)
                             && (R.OfEvent(log[n].evs[x]) in printed
                                 || WasReported(log[n].evs[x], StateAfter(log[..n]).reported))
  }

  ghost predicate FoundAt(log: seq<Step>, n: nat, x: nat, id: EventId) {
    n < |log| && log[n].Poll? && x < |log[n].evs| && Carries(log[n].evs[x], id)
  }

  lemma {:induction false} InIdSet(evs: seq<OpEvent>, id: EventId) returns (x: nat)
    requires id in IdSet(evs)
    ensures x < |evs| && Carries(evs[x], id)
  {
    var n := |evs| - 1;
    if Carries(evs[n], id) {
      x := n;
    } else {
      x := InIdSet(evs[..n], id);
    }
  }

  lemma {:induction false} InFoundIds(log: seq<Step>, id: EventId) returns (n: nat, x: nat)
    requires id in FoundIds(log)
    ensures FoundAt(log, n, x, id)
  {
    n, x := |log| - 1, 0;
    if log[n].Poll? && id in IdSet(log[n].evs) {
      x := InIdSet(log[n].evs, id);
    } else {
      n, x := InFoundIds(log[..n], id);
    }
  }

  lemma {:induction false} InNewEvents(evs: seq<OpEvent>, reported: Reported, x: nat)
    requires x < |evs| && !WasReported(evs[x], reported)
    ensures evs[x] in NewEvents(evs, reported)
  {
    var n := |evs| - 1;
    if x < n {
      InNewEvents(evs[..n], reported, x);
    }
  }

  /** What a step of the log found and was not known is news of the whole log. */
  lemma NewsOfPoll(log: seq<Step>, n: nat, x: nat)
    requires n < |log| && log[n].Poll? && x < |log[n].evs| && !WasReported(log[n].evs[x], StateAfter(log[..n]).reported)
    ensures R.OfEvent(log[n].evs[x]) in R.NewsOf(R.NOTHING, log)
  {
    hide SetNews, LineNews, WasReported;
    var m := RunFrom(R.NOTHING, log[..n]);
    FromNothing(log[..n]);
    InNewEvents(log[n].evs, m.reported, x);
    R.OfOneStep(R.NOTHING, log, n);
    assert [log[n]][..0] == [];
    assert PollNews(m, []) == [] && RunFrom(m, []) == m;
    assert log[n].evs[x] in PollNews(m, [log[n]]);
    assert R.OfEvent(log[n].evs[x]) in R.NewsOf(m, [log[n]]);
  }

  /**
   Of a sound state whose news is all in PRINTED: each id it counts as told
   was printed or known when it was found.
   */
  lemma ToldWasPrinted(m: Image, printed: Tidings, id: EventId)
    requires LogOk(m.mem, m.log, m.told) && R.NewsOf(R.NOTHING, m.log) <= printed && id in m.told
    ensures PrintedOrKnown(m.log, printed, id)
  {
    hide R.NewsOf, StateAfter;
    var n, x := InFoundIds(m.log, id);
    if !WasReported(m.log[n].evs[x], StateAfter(m.log[..n]).reported) {
      NewsOfPoll(m.log, n, x);
    }
  }

  /**
   At every moment of every run, deaths included: each of the operator's
   entries from toldFrom on, on a page whose validator is saved, was
   printed, or counted as reported when it was found. So that a page is
   not sent again loses nothing.
   */
  lemma SavedWasPrinted(moves: seq<Move>, ws: seq<World>, j: nat, p: P.Path, i: nat)
    requires RunOf(moves, ws) && Covered(ws[0]) && j < |ws|
    requires var d := ws[j].disk; p in d.etags && i < |d.etags[p].etag.body| && d.cursor.Some?
                                  && Qualifies(d.etags[p].etag.body[i], d.toldFrom)
    ensures var d := ws[j].disk; PrintedOrKnown(d.log, ws[j].printed, d.etags[p].etag.body[i].event)
  {
    hide Moves, LogOk, PrintedOrKnown, TurnsOk, R.NewsOf;
    var d := ws[j].disk;
    AlwaysCovered(moves, ws, j);
    assert Sound(d);
    var page := (p, d.etags[p].etag.body);
    assert page in d.processed && Told(page.1, d.toldFrom, d.told);
    ToldWasPrinted(d, ws[j].printed, page.1[i].event);
  }

  /** The same of the state in memory: there it was printed, is due to be, or was known. */
  lemma FoundIsReported(moves: seq<Move>, ws: seq<World>, j: nat, id: EventId)
    requires RunOf(moves, ws) && Covered(ws[0]) && j < |ws| && id in ws[j].mem.told
    ensures PrintedOrKnown(ws[j].mem.log, ws[j].printed + ws[j].due, id)
  {
    hide Moves, LogOk, PrintedOrKnown, TurnsOk, PagesOk, R.NewsOf;
    AlwaysCovered(moves, ws, j);
    assert Sound(ws[j].mem);
    ToldWasPrinted(ws[j].mem, ws[j].printed + ws[j].due, id);
  }

  /**
   So polled means printed, due to be, or known: all the operator's entries
   from toldFrom on that an unconditional read would have got.
   */
  lemma PolledIsPrinted(moves: seq<Move>, ws: seq<World>, j: nat, l: nat, k: Key)
    requires RunOf(moves, ws) && Covered(ws[0]) && j < |ws|
    requires l < |ws[j].mem.turns| && k in ws[j].mem.turns[l].polled && ws[j].mem.cursor.Some?
    ensures exists pr, r, i, c :: ReadThen(ws[j].mem.turns[l], k, pr, r, i, c)
                                  && forall b :: b in r || b in i || b in c ==> AllPrinted(b, ws[j])
  {
    hide Moves, LogOk, TurnsOk, PagesOk, ReadThen, PrintedOrKnown;
    var m := ws[j].mem;
    assert Sound(m);
    PolledIsTold(m, l, k);
    var pr, r, i, c :| ReadThen(m.turns[l], k, pr, r, i, c)
                       && forall b :: b in r || b in i || b in c ==> Told(b, m.toldFrom, m.told);
    forall b: P.Body | b in r || b in i || b in c ensures AllPrinted(b, ws[j]) {
      assert Told(b, m.toldFrom, m.told);
      forall x | 0 <= x < |b| && Qualifies(b[x], m.toldFrom)
        ensures PrintedOrKnown(m.log, ws[j].printed + ws[j].due, b[x].event)
      {
        FoundIsReported(moves, ws, j, b[x].event);
      }
    }
  }

  ghost predicate AllPrinted(b: P.Body, w: World) {
    forall x :: 0 <= x < |b| && Qualifies(b[x], w.mem.toldFrom) ==>
      PrintedOrKnown(w.mem.log, w.printed + w.due, b[x].event)
  }

  // --- From the cursor on --------------------------------------------------------------------

  /** A sweep's start does not move the cursor back. */
  predicate Forward(m: Image, now: int) {
    m.cursor.None? || m.cursor.value <= m.sweepStart.GetOr(now)
  }

  /** The sweep's start a move takes note of, if any. */
  function StartOf(m: Move, evaluated: Option<nat>): Option<int> {
    match m
    case StartSweep(now) => Some(now)
    case Check(status, _, _, _, _) => if status.Some? && evaluated != Some(status.value.run) then status.value.started
                                      else None
    case _ => None
  }

  /** Everything on the processed pages is told from the cursor. */
  ghost predicate FromCursor(m: Image) {
    m.cursor.Some? ==> m.toldFrom == m.cursor.value
  }

  lemma StillFromCursor(a: World, m: Move, b: World)
    requires Moves(a, m, b) && FromCursor(a.mem) && FromCursor(a.disk)
             && (StartOf(m, a.mem.evaluated).Some? ==> Forward(a.mem, StartOf(m, a.mem.evaluated).value))
    ensures FromCursor(b.mem) && FromCursor(b.disk)
  {
    hide AllRead, Awaits, OnlyTold, AllRevalidated, Kinds, PollSteps, TargetsAre, KeptBut, Touched, PausedBy, Aged,
         FoundIds, RunFrom,
         R.NewsOf, CheckSteps, ToolSteps;
    hide PendingRuns, After;
  }

  /** Where no sweep's start moves the cursor back, everything processed is told from the cursor, always. */
  lemma {:induction false} AlwaysFromCursor(moves: seq<Move>, ws: seq<World>, j: nat)
    requires RunOf(moves, ws) && FromCursor(ws[0].mem) && FromCursor(ws[0].disk) && j < |ws|
    requires forall i :: 0 <= i < j ==>
               var start := StartOf(moves[i], ws[i].mem.evaluated); start.Some? ==> Forward(ws[i].mem, start.value)
    ensures FromCursor(ws[j].mem) && FromCursor(ws[j].disk)
    ensures ws[j].mem.cursor.Some? ==> AllTold(ws[j].mem.processed, ws[j].mem.cursor.value, ws[j].mem.told)
  {
    hide Moves, Forward, TurnsOk, LogOk;
    assert Sound(ws[j].mem);
    if j > 0 {
      AlwaysFromCursor(moves, ws, j - 1);
      StillFromCursor(ws[j - 1], moves[j - 1], ws[j - 1 + 1]);
    }
  }

  /**
   A sweep's start from this cursor leaves all processed pages told from the
   new one, whatever was processed and told.
   */
  ghost predicate StaysTold(cursor: int, sweepStart: Option<int>, now: int) {
    forall m: Image :: Sound(m) && m.cursor == Some(cursor) && m.sweepStart == sweepStart
                       && AllTold(m.processed, cursor, m.told) ==>
      AllTold(m.processed, sweepStart.GetOr(now), m.told)
  }

  /** Exactly if it does not move back. */
  lemma StaysToldIff(cursor: int, sweepStart: Option<int>, now: int)
    ensures StaysTold(cursor, sweepStart, now) <==> cursor <= sweepStart.GetOr(now)
  {
    var c := sweepStart.GetOr(now);
    if cursor <= c {
      forall m: Image | Sound(m) && m.cursor == Some(cursor) && AllTold(m.processed, cursor, m.told)
        ensures AllTold(m.processed, c, m.told)
      {
        LaterCursor(m.processed, cursor, c, m.told);
      }
    } else {
      var m := Untold(cursor, sweepStart, c);
    }
  }

  /** A review between the two, on a page that was processed when it was before the cursor. */
  lemma Untold(cursor: int, sweepStart: Option<int>, c: int) returns (m: Image)
    requires c < cursor
    ensures Sound(m) && m.cursor == Some(cursor) && m.sweepStart == sweepStart && AllTold(m.processed, cursor, m.told)
            && !AllTold(m.processed, c, m.told)
  {
    var e := Entry(1, true, Some(c), EventId.Review(1), "", None, "", "", false);
    var page := (P.Path("item", P.Reviews, 1), [e]);
    m := Image(Mem(map[], map[]), map[], {}, Some(cursor), sweepStart, map[], 0, None, {page}, {}, cursor,
               [Quiet({}, {})], []);
    assert Qualifies(page.1[0], c) && !Told(page.1, c, {});
    assert Told(page.1, cursor, {});
  }

  /** The server of a pull request with one review. */
  function OneReview(key: Key, review: Entry): P.Server {
    (p: P.Path) => P.Page(if p == P.Path(key, P.Reviews, 1) then [review] else [], true)
  }

  /** Its page is processed, with a validator, and nothing from before the cursor is told. */
  lemma FirstPoll(key: Key, review: Entry, flags: seq<Flag>, now: int, a: Image, b: Image, order: seq<Key>,
                  steps: seq<Step>)
    requires Cycled(OneReview(key, review), flags, None, None, None, now, a, b, order, steps)
    requires key in order && a.items == map[] && a.cursor.None? && a.told == {} && !Qualifies(review, now)
    requires forall i :: 0 <= i < |flags| ==> flags[i].item.pr
    ensures (P.Path(key, P.Reviews, 1), [review]) in b.processed && b.told == {}
    ensures P.Same(OneReview(key, review), b.etags, P.Path(key, P.Reviews, 1))
  {
    hide Touched, TargetsAre, KeptBut, PausedBy, Aged, PollSteps, FoundIds, RunFrom, ToolSteps, Awaits;
    var server := OneReview(key, review);
    var p := P.Path(key, P.Reviews, 1);
    assert key in KeysIn(order) && Revalidated(server, key, b.items[key].pr, now, b.etags, now);
    assert P.Reached(server, p) && P.Validated(server, b.etags, p, now);
    assert WhollyRead(server, key, true, now, b.processed);
    var r, i, c :| P.Unconditional(server, key, P.Reviews, r) && P.Unconditional(server, key, P.ReviewComments(now), i)
                   && P.Unconditional(server, key, P.Comments(now), c) && Read(key, now, r, i, c) <= b.processed;
    assert server(p).body == r[0] == r[1 - 1] && (p, r[0]) in PagesOf(key, P.Reviews, r);
    NothingTold(server, key, review, a.etags, KeysIn(order), now, a.told, b.told);
  }

  lemma Answers(key: Key, review: Entry)
    ensures Answering(OneReview(key, review))
  {
  }

  lemma NoneFound(evs: seq<OpEvent>, told: set<EventId>)
    ensures Within(evs, told) && told == {} ==> evs == []
  {
    if evs != [] {
      assert evs[0] in evs;
    }
  }

  /** What is not sent, or does not qualify, is not told. */
  lemma NothingTold(server: P.Server, key: Key, review: Entry, etags: Etags, polled: set<Key>, cursor: int,
                    told: set<EventId>, told': set<EventId>)
    requires server == OneReview(key, review) && OnlyTold(server, etags, polled, cursor, told, told') && told == {}
    requires !Qualifies(review, cursor) || P.Same(server, etags, P.Path(key, P.Reviews, 1))
    ensures told' == {}
  {
    forall p, i: nat, id ensures !Sent(server, etags, polled, cursor, p, i, id) {
    }
  }

  /**
   And a run that moves it back: a first cycle, before any sweep could be
   read, sets the cursor to 10 and polls a page with a review of time 5; a
   sweep that started at 0 moves the cursor to 0; the next cycle polls the
   item again, is sent nothing, and the review is not told, though it is
   of after the cursor.
   */
  method MissedByMovingBack(key: Key) returns (s: State, review: Entry, found: seq<OpEvent>, ghost again: seq<Key>)
    ensures s.Whole() && s.cursor == Some(0) && Qualifies(review, 0) && review.event !in s.told && found == []
    ensures (P.Path(key, P.Reviews, 1), [review]) in s.processed && key in again
  {
    hide P.TellFull, Named, AllTold, AtCursor, TurnsOk, LogOk, AllRead, AllRevalidated, OnlyTold, Answering, Within,
         FoundIs;
    hide PollSteps, TargetsAre, KeptBut, Touched, PausedBy, Aged, ToolSteps, RunFrom, FoundIds;
    review := Entry(1, true, Some(5), EventId.Review(1), "", None, "", "", false);
    var server := OneReview(key, review);
    var flags := [Flag(key, true, HotItem(true, false, "", None), None, true)];
    s := new State();
    ghost var start := s.Now();
    Answers(key, review);
    var ok, cycle;
    ghost var order, steps;
    ok, cycle, order, steps := RunCycle(s, server, flags, None, None, None, 10);
    assert flags[0].key in KeysIn(order);
    ghost var first := s.Now();
    FirstPoll(key, review, flags, 10, start, first, order, steps);
    found := cycle.events;
    s.StartSweep(0);
    ghost var back := s.Now();
    ok, cycle, again, steps := RunCycle(s, server, flags, None, None, None, 20);
    NothingTold(server, key, review, back.etags, KeysIn(again), 0, back.told, s.told);
    NoneFound(found + cycle.events, s.told);
    MoreWithin(found, cycle.events, back.told, s.told);
    found := found + cycle.events;
    assert flags[0].key in KeysIn(again);
  }
}

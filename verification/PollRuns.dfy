/**
 Whole runs of the --from-sweep poll (crates/bot-poll/src/main.rs): checks
 and hot cycles, each printed and then saved, with a crash allowed between
 any two steps and bot-sweep publishing runs meanwhile.
 */
module PollRuns {
  import opened Options
  import opened News
  import opened OperatorEvents
  import opened NewsHistory
  import opened SweepLoop
  import H = HotCycle
  import P = Paging

  /** A step on the way to an image of the state, and the sweep it evaluated, if that's what it did. */
  datatype Logged = Logged(run: Option<RunId>, step: Step)

  datatype Image = Image(mem: Mem, evaluated: Option<RunId>, path: seq<Logged>)

  datatype Told = OfKind(kind: Kind, item: NewsItem) | OfEvent(ev: OpEvent) | OfLine(line: string)

  datatype Pc = Idle | Printing(news: iset<Told>) | Saving

  datatype World = World(
    runs: map<RunId, Outputs>,    // the completed runs in bot-sweep's directory
    newest: Option<RunId>,        // the run its status names
    disk: Image,                  // state.json
    mem: Image,                   // the process's state
    pc: Pc,
    printed: iset<Told>,
    firstRead: Option<RunId>      // the first run any process read
  )

  const NOTHING: Mem := Mem(map[], map[])

  ghost function Start(): World {
    World(map[], None, Image(NOTHING, None, []), Image(NOTHING, None, []), Idle, iset{}, None)
  }

  datatype Move =
    | Publish(id: RunId, outputs: Outputs)
    | Announce(id: RunId)
    | Check(newest: Option<RunId>, ids: seq<RunId>, health: seq<Item>, now: int)
    | Hot(steps: seq<Step>)      // a cycle that works
    | Print
    | Save
    | Restart                     // after a crash, or the exit that follows a report

  ghost function Steps(path: seq<Logged>): seq<Step> {
    seq(|path|, i requires 0 <= i < |path| => path[i].step)
  }

  ghost function Ids(path: seq<Logged>): seq<RunId> {
    if path == [] then []
    else
      var last := path[|path| - 1].run;
      Ids(path[..|path| - 1]) + if last.Some? then [last.value] else []
  }

  ghost predicate Reports(m: Mem, steps: seq<Step>, t: Told) {
    match t
    case OfKind(kind, item) => item in SetNews(m, steps, kind)
    case OfEvent(ev) => ev in PollNews(m, steps)
    case OfLine(line) => line in LineNews(m, steps)
  }

  /** What a run of steps reports. */
  ghost function NewsOf(m: Mem, steps: seq<Step>): iset<Told> {
    iset t | Reports(m, steps, t)
  }

  ghost function SweepLog(runs: map<RunId, Outputs>, ids: seq<RunId>, now: int): seq<Logged> {
    seq(|ids|, i requires 0 <= i < |ids| => Logged(Some(ids[i]), Sweep(OutputsOf(runs, ids[i]), now)))
  }

  ghost function HotLog(steps: seq<Step>): seq<Logged> {
    seq(|steps|, i requires 0 <= i < |steps| => Logged(None, steps[i]))
  }

  ghost function CheckLog(runs: map<RunId, Outputs>, ids: seq<RunId>, health: seq<Item>, now: int): seq<Logged> {
    SweepLog(runs, ids, now) + HotLog([Health(health, now)])
  }

  ghost function FirstRead(first: Option<RunId>, ids: seq<RunId>): Option<RunId> {
    if first.None? && ids != [] then Some(ids[0]) else first
  }

  ghost function ToReport(news: iset<Told>): Pc {
    if news == iset{} then Saving else Printing(news)
  }

  ghost function Advance(m: Image, log: seq<Logged>, evaluated: Option<RunId>): Image {
    Image(RunFrom(m.mem, Steps(log)), evaluated, m.path + log)
  }

  ghost predicate Next(w: World, move: Move, w': World) {
    match move
    case Publish(id, outputs) =>
      && (forall r :: r in w.runs ==> r < id)
      && w' == w.(runs := w.runs[id := outputs])
    case Announce(id) =>
      && id in w.runs && (forall r :: r in w.runs ==> r <= id)
      && w' == w.(newest := Some(id))
    case Check(newest, ids, health, now) =>
      var log := CheckLog(w.runs, ids, health, now);
      // Its status can be read or not.
      && w.pc.Idle? && (newest.Some? ==> newest == w.newest)
      && PendingRuns(ids, w.mem.evaluated, newest, w.runs.Keys)
      && w' == w.(mem := Advance(w.mem, log, if newest.Some? then newest else w.mem.evaluated),
                  pc := ToReport(NewsOf(w.mem.mem, Steps(log))),
                  firstRead := FirstRead(w.firstRead, ids))
    case Hot(steps) =>
      && w.pc.Idle?
      && w' == w.(mem := Advance(w.mem, HotLog(steps), w.mem.evaluated),
                  pc := ToReport(NewsOf(w.mem.mem, Steps(HotLog(steps)))))
    case Print => w.pc.Printing? && w' == w.(printed := w.printed + w.pc.news, pc := Saving)
    case Save => w.pc.Saving? && w' == w.(disk := w.mem, pc := Idle)
    case Restart => w' == w.(mem := w.disk, pc := Idle)
  }

  /** A run of the system: the worlds it goes through. */
  ghost predicate IsRun(ws: seq<World>, moves: seq<Move>) {
    && |ws| == |moves| + 1 && ws[0] == Start()
    && forall i :: 0 <= i < |moves| ==> Next(ws[i], moves[i], ws[i + 1])
  }

  // --- What every image keeps ------------------------------------------------------

  ghost predicate Ascending(ids: seq<RunId>) {
    forall i, j :: 0 <= i < j < |ids| ==> ids[i] < ids[j]
  }

  /** Every published run from the first to the last of IDS is among them. */
  ghost predicate Gapless(ids: seq<RunId>, runs: set<RunId>) {
    forall r :: r in runs && ids != [] && ids[0] <= r <= ids[|ids| - 1] ==> r in ids
  }

  /** Each evaluated run's own outputs were evaluated. */
  ghost predicate OwnOutputs(path: seq<Logged>, runs: map<RunId, Outputs>) {
    forall j :: 0 <= j < |path| && path[j].run.Some? ==>
      && path[j].run.value in runs && path[j].step.Sweep? && path[j].step.outputs == runs[path[j].run.value]
  }

  ghost predicate Faithful(image: Image, runs: map<RunId, Outputs>, newest: Option<RunId>) {
    var ids := Ids(image.path);
    && image.mem == RunFrom(NOTHING, Steps(image.path))
    && OwnOutputs(image.path, runs)
    && Ascending(ids) && Gapless(ids, runs.Keys)
    && (forall r :: r in ids ==> r in runs)
    && image.evaluated == (if ids == [] then None else Some(ids[|ids| - 1]))
    && (ids != [] ==> newest.Some? && ids[|ids| - 1] <= newest.value)
  }

  /** What an image holds that is not printed yet is to be printed. */
  ghost predicate Covered(image: Image, pc: Pc, printed: iset<Told>) {
    NewsOf(NOTHING, Steps(image.path)) <= printed + (if pc.Printing? then pc.news else iset{})
  }

  ghost predicate FirstSeen(first: Option<RunId>, ids: seq<RunId>, newest: Option<RunId>) {
    && (ids != [] ==> first.Some? && first.value <= ids[0])
    && (first.Some? ==> newest.Some? && first.value <= newest.value)
  }

  ghost predicate Inv(w: World) {
    && (w.newest.Some? ==> w.newest.value in w.runs)
    && (w.firstRead.Some? ==> w.firstRead.value in w.runs)
    && Faithful(w.mem, w.runs, w.newest) && Faithful(w.disk, w.runs, w.newest)
    && (w.pc.Idle? ==> w.mem == w.disk)
    && Covered(w.disk, Idle, w.printed) && Covered(w.mem, w.pc, w.printed)
    && FirstSeen(w.firstRead, Ids(w.mem.path), w.newest) && FirstSeen(w.firstRead, Ids(w.disk.path), w.newest)
  }

  // --- Lemmas ------------------------------------------------------------------------

  lemma StepsAppend(a: seq<Logged>, b: seq<Logged>)
    ensures Steps(a + b) == Steps(a) + Steps(b)
  {
  }

  lemma {:induction false} IdsAppend(a: seq<Logged>, b: seq<Logged>)
    ensures Ids(a + b) == Ids(a) + Ids(b)
  {
    if b == [] {
      assert a + b == a;
    } else {
      IdsAppend(a, b[..|b| - 1]);
      assert (a + b)[..|a + b| - 1] == a + b[..|b| - 1];
    }
  }

  lemma {:induction false} SweepLogIds(runs: map<RunId, Outputs>, ids: seq<RunId>, now: int)
    ensures Ids(SweepLog(runs, ids, now)) == ids
  {
    if ids != [] {
      var n := |ids| - 1;
      SweepLogIds(runs, ids[..n], now);
      assert SweepLog(runs, ids, now)[..n] == SweepLog(runs, ids[..n], now);
      assert ids == ids[..n] + [ids[n]];
    }
  }

  lemma {:induction false} HotLogIds(steps: seq<Step>)
    ensures Ids(HotLog(steps)) == []
  {
    if steps != [] {
      HotLogIds(steps[..|steps| - 1]);
      assert HotLog(steps)[..|steps| - 1] == HotLog(steps[..|steps| - 1]);
    }
  }

  lemma {:induction false} NewsSplit(m: Mem, a: seq<Step>, b: seq<Step>)
    ensures NewsOf(m, a + b) == NewsOf(m, a) + NewsOf(RunFrom(m, a), b)
  {
    MoreSteps(m, a, b);
    hide SetNews, PollNews, LineNews, RunFrom;
  }

  /** An image advanced by a turn. */
  lemma {:induction false} Advanced(m: Image, log: seq<Logged>, evaluated: Option<RunId>)
    requires m.mem == RunFrom(NOTHING, Steps(m.path))
    ensures var m' := Advance(m, log, evaluated);
            && m'.mem == RunFrom(NOTHING, Steps(m'.path))
            && NewsOf(NOTHING, Steps(m'.path)) == NewsOf(NOTHING, Steps(m.path)) + NewsOf(m.mem, Steps(log))
            && Ids(m'.path) == Ids(m.path) + Ids(log)
  {
    StepsAppend(m.path, log);
    MoreSteps(NOTHING, Steps(m.path), Steps(log));
    NewsSplit(NOTHING, Steps(m.path), Steps(log));
    IdsAppend(m.path, log);
    hide RunFrom, NewsOf, Ids;
  }

  /** The pending runs continue the evaluated ones without a gap. */
  lemma Continued(was: seq<RunId>, ids: seq<RunId>, runs: set<RunId>, newest: Option<RunId>, named: Option<RunId>)
    requires Ascending(was) && Gapless(was, runs) && (forall r :: r in was ==> r in runs)
    requires (newest.Some? ==> newest.value in runs) && (was != [] ==> newest.Some? && was[|was| - 1] <= newest.value)
    requires named.Some? ==> named == newest
    requires PendingRuns(ids, if was == [] then None else Some(was[|was| - 1]), named, runs)
    ensures var all := was + ids;
            && Ascending(all) && Gapless(all, runs) && (forall r :: r in all ==> r in runs)
            && (named.Some? ==> all != [] && all[|all| - 1] == newest.value) && (named.None? ==> ids == [])
            && (was == [] && ids != [] ==> newest.Some? && ids == [newest.value])
  {
    var all := was + ids;
    if was != [] && ids != [] {
      var last := was[|was| - 1];
      forall r | r in runs && all[0] <= r <= newest.value ensures r in all {
        if last < r < newest.value {
          assert r in ids;
        } else if r == newest.value {
          assert r == ids[|ids| - 1];
        } else {
          assert r in was;
        }
      }
    }
    assert ids == [] ==> all == was;
  }

  lemma SameFaithful(image: Image, runs: map<RunId, Outputs>, newest: Option<RunId>, id: RunId, outputs: Outputs)
    requires Faithful(image, runs, newest) && (forall r :: r in runs ==> r < id)
             && (newest.Some? ==> newest.value in runs)
    ensures Faithful(image, runs[id := outputs], newest)
  {
    hide RunFrom, Ids;
    var ids := Ids(image.path);
    forall r | r in runs[id := outputs] && ids != [] && ids[0] <= r <= ids[|ids| - 1] ensures r in ids {
      assert ids[|ids| - 1] in ids;
    }
  }

  lemma LogOwn(m: seq<Logged>, log: seq<Logged>, runs: map<RunId, Outputs>)
    requires OwnOutputs(m, runs) && OwnOutputs(log, runs)
    ensures OwnOutputs(m + log, runs)
  {
  }

  lemma TurnCovered(m: Image, log: seq<Logged>, evaluated: Option<RunId>, printed: iset<Told>)
    requires m.mem == RunFrom(NOTHING, Steps(m.path)) && Covered(m, Idle, printed)
    ensures Covered(Advance(m, log, evaluated), ToReport(NewsOf(m.mem, Steps(log))), printed)
  {
    Advanced(m, log, evaluated);
    hide NewsOf, RunFrom, Ids, Steps;
  }

  lemma CheckIds(runs: map<RunId, Outputs>, ids: seq<RunId>, health: seq<Item>, now: int)
    ensures Ids(CheckLog(runs, ids, health, now)) == ids
  {
    IdsAppend(SweepLog(runs, ids, now), HotLog([Health(health, now)]));
    SweepLogIds(runs, ids, now);
    HotLogIds([Health(health, now)]);
  }

  /** An image stays faithful through a turn that evaluates IDS, each on its own outputs. */
  lemma {:induction false} AdvanceFaithful(m: Image, runs: map<RunId, Outputs>, newest: Option<RunId>, log: seq<Logged>,
                        evaluated: Option<RunId>)
    requires Faithful(m, runs, newest) && OwnOutputs(log, runs)
    requires var all := Ids(m.path) + Ids(log);
             && Ascending(all) && Gapless(all, runs.Keys) && (forall r :: r in all ==> r in runs)
             && evaluated == (if all == [] then None else Some(all[|all| - 1]))
             && (all != [] ==> newest.Some? && all[|all| - 1] <= newest.value)
    ensures Faithful(Advance(m, log, evaluated), runs, newest)
    ensures Ids(Advance(m, log, evaluated).path) == Ids(m.path) + Ids(log)
  {
    Advanced(m, log, evaluated);
    LogOwn(m.path, log, runs);
    hide RunFrom, NewsOf, Ids, Gapless, Ascending, OwnOutputs, Steps;
  }

  lemma CheckFaithful(m: Image, runs: map<RunId, Outputs>, newest: Option<RunId>, named: Option<RunId>,
                      ids: seq<RunId>, health: seq<Item>, now: int)
    requires Faithful(m, runs, newest) && (newest.Some? ==> newest.value in runs) && (named.Some? ==> named == newest)
    requires PendingRuns(ids, m.evaluated, named, runs.Keys)
    ensures var m' := Advance(m, CheckLog(runs, ids, health, now), if named.Some? then named else m.evaluated);
            Faithful(m', runs, newest) && Ids(m'.path) == Ids(m.path) + ids
    ensures Ids(m.path) == [] && ids != [] ==> newest.Some? && ids == [newest.value]
  {
    hide RunFrom, NewsOf, Ids, Gapless, Ascending, OwnOutputs, Steps, CheckLog, PendingRuns, Advance;
    var all := Ids(m.path) + ids;
    CheckIds(runs, ids, health, now);
    Continued(Ids(m.path), ids, runs.Keys, newest, named);
    CheckOwn(runs, ids, health, now);
    assert ids == [] ==> all == Ids(m.path);
    AdvanceFaithful(m, runs, newest, CheckLog(runs, ids, health, now), if named.Some? then named else m.evaluated);
  }

  lemma CheckOwn(runs: map<RunId, Outputs>, ids: seq<RunId>, health: seq<Item>, now: int)
    requires forall r :: r in ids ==> r in runs
    ensures OwnOutputs(CheckLog(runs, ids, health, now), runs)
  {
  }

  lemma FirstStays(first: Option<RunId>, was: seq<RunId>, ids: seq<RunId>, newest: Option<RunId>)
    requires FirstSeen(first, was, newest)
    requires was == [] && ids != [] ==> newest.Some? && ids == [newest.value]
    ensures FirstSeen(FirstRead(first, ids), was + ids, newest)
  {
  }

  lemma CheckKeeps(w: World, newest: Option<RunId>, ids: seq<RunId>, health: seq<Item>, now: int, w': World)
    requires Inv(w) && Next(w, Check(newest, ids, health, now), w')
    ensures Inv(w')
  {
    var log := CheckLog(w.runs, ids, health, now);
    CheckFaithful(w.mem, w.runs, w.newest, newest, ids, health, now);
    TurnCovered(w.mem, log, w'.mem.evaluated, w.printed);
    FirstStays(w.firstRead, Ids(w.mem.path), ids, w.newest);
    hide Faithful, Covered, NewsOf, RunFrom, Ids, Steps, CheckLog, RunsAfter, Advance, ToReport;
    assert w.mem == w.disk;
    if w.firstRead != w'.firstRead {
      assert Ids(w.disk.path) == [];
    }
  }

  lemma HotKeeps(w: World, steps: seq<Step>, w': World)
    requires Inv(w) && Next(w, Hot(steps), w')
    ensures Inv(w')
  {
    HotFaithful(w.mem, w.runs, w.newest, steps);
    TurnCovered(w.mem, HotLog(steps), w.mem.evaluated, w.printed);
    hide Faithful, Covered, NewsOf, RunFrom, Ids, Steps, HotLog, Advance, ToReport;
  }

  lemma HotOwn(steps: seq<Step>, runs: map<RunId, Outputs>)
    ensures OwnOutputs(HotLog(steps), runs)
  {
  }

  lemma HotFaithful(m: Image, runs: map<RunId, Outputs>, newest: Option<RunId>, steps: seq<Step>)
    requires Faithful(m, runs, newest)
    ensures var m' := Advance(m, HotLog(steps), m.evaluated); Faithful(m', runs, newest) && Ids(m'.path) == Ids(m.path)
  {
    hide RunFrom, NewsOf, Ids, Gapless, Ascending, OwnOutputs, Steps, HotLog, Advance;
    HotLogIds(steps);
    HotOwn(steps, runs);
    assert Ids(m.path) + [] == Ids(m.path);
    AdvanceFaithful(m, runs, newest, HotLog(steps), m.evaluated);
  }

  lemma Kept(w: World, move: Move, w': World)
    requires Inv(w) && Next(w, move, w')
    ensures Inv(w')
  {
    hide RunFrom, NewsOf, Ids, Gapless, Ascending, OwnOutputs, PendingRuns, Advance, ToReport, Steps;
    match move
    case Publish(id, outputs) =>
      SameFaithful(w.mem, w.runs, w.newest, id, outputs);
      SameFaithful(w.disk, w.runs, w.newest, id, outputs);
    case Announce(id) =>
    case Check(newest, ids, health, now) => CheckKeeps(w, newest, ids, health, now, w');
    case Hot(steps) => HotKeeps(w, steps, w');
    case Print =>
    case Save =>
    case Restart =>
  }

  lemma {:induction false} Invariant(ws: seq<World>, moves: seq<Move>, n: nat)
    requires IsRun(ws, moves) && n <= |moves|
    ensures Inv(ws[n])
  {
    if n > 0 {
      Invariant(ws, moves, n - 1);
      Kept(ws[n - 1], moves[n - 1], ws[n - 1 + 1]);
      hide Inv, Next;
    }
  }

  // --- The results -----------------------------------------------------------------------

  /**
   At every moment of every run, what state.json counts as evaluated is
   every run published from the first it evaluated to the last, in their
   order, each on its own outputs; and the news of every step it counts
   was printed.
   */
  lemma NeverVanishes(ws: seq<World>, moves: seq<Move>, n: nat)
    requires IsRun(ws, moves) && n <= |moves|
    ensures var w := ws[n]; var ids := Ids(w.disk.path);
            && Ascending(ids) && Gapless(ids, w.runs.Keys) && OwnOutputs(w.disk.path, w.runs)
            && w.disk.evaluated == (if ids == [] then None else Some(ids[|ids| - 1]))
            && w.disk.mem == RunFrom(NOTHING, Steps(w.disk.path))
    ensures var w := ws[n];
            forall j :: 0 <= j < |w.disk.path| ==>
              NewsOf(RunFrom(NOTHING, Steps(w.disk.path)[..j]), [w.disk.path[j].step]) <= w.printed
  {
    Invariant(ws, moves, n);
    var w := ws[n];
    var steps := Steps(w.disk.path);
    hide NewsOf, RunFrom, Ids, Gapless, Ascending, OwnOutputs, Next;
    forall j | 0 <= j < |w.disk.path|
      ensures NewsOf(RunFrom(NOTHING, steps[..j]), [w.disk.path[j].step]) <= w.printed
    {
      OfOneStep(NOTHING, steps, j);
    }
  }

  lemma {:induction false} OfOneStep(m: Mem, steps: seq<Step>, j: nat)
    requires j < |steps|
    ensures NewsOf(RunFrom(m, steps[..j]), [steps[j]]) <= NewsOf(m, steps)
  {
    hide NewsOf, RunFrom;
    NewsSplit(m, steps[..j] + [steps[j]], steps[j + 1..]);
    NewsSplit(m, steps[..j], [steps[j]]);
    assert steps == steps[..j] + [steps[j]] + steps[j + 1..];
  }

  /**
   That every run published since the first one READ is evaluated holds at
   a moment of a run exactly when the process that read it lived to save.
   */
  lemma FromFirstRead(ws: seq<World>, moves: seq<Move>, n: nat)
    requires IsRun(ws, moves) && n <= |moves|
    requires ws[n].disk.evaluated.Some?
    ensures var w := ws[n]; var ids := Ids(w.disk.path);
            && w.firstRead.Some? && ids != []
            && ((forall r :: r in w.runs && w.firstRead.value <= r <= w.disk.evaluated.value ==> r in ids)
                <==> ids[0] == w.firstRead.value)
  {
    Invariant(ws, moves, n);
    hide NewsOf, RunFrom, Ids, OwnOutputs, Next;
    var w := ws[n];
    var ids := Ids(w.disk.path);
    assert ids[|ids| - 1] in ids;
    if ids[0] != w.firstRead.value {
      assert w.firstRead.value < ids[0] <= ids[|ids| - 1];
      assert w.firstRead.value !in ids;
    }
  }

  /** The first check of a process with no state saved: the newest run alone. */
  lemma FirstCheck(w: World, id: RunId) returns (w': World)
    requires w.pc.Idle? && w.newest == Some(id) && w.mem.evaluated.None? && w.mem.path == []
    ensures Next(w, Check(Some(id), [id], [], 0), w')
    ensures w'.mem.evaluated == Some(id) && Ids(w'.mem.path) == [id] && w'.firstRead == FirstRead(w.firstRead, [id])
    ensures w'.disk == w.disk && w'.runs == w.runs && w'.newest == w.newest
  {
    hide NewsOf, RunFrom, Ids, CheckLog, Steps, ToReport;
    var log := CheckLog(w.runs, [id], [], 0);
    w' := w.(mem := Advance(w.mem, log, w.newest), pc := ToReport(NewsOf(w.mem.mem, Steps(log))),
             firstRead := FirstRead(w.firstRead, [id]));
    CheckIds(w.runs, [id], [], 0);
    assert [] + log == log;
  }

  lemma Another(ws: seq<World>, moves: seq<Move>, move: Move, w: World)
    requires IsRun(ws, moves) && Next(ws[|moves|], move, w)
    ensures IsRun(ws + [w], moves + [move])
  {
    hide Next;
    var ws', moves' := ws + [w], moves + [move];
    forall i | 0 <= i < |moves'| ensures Next(ws'[i], moves'[i], ws'[i + 1]) {
      if i < |moves| {
        assert Next(ws[i], moves[i], ws[i + 1]);
      }
    }
  }

  lemma Published(ws: seq<World>, moves: seq<Move>, id: RunId) returns (w: World, ws': seq<World>, moves': seq<Move>)
    requires IsRun(ws, moves) && forall r :: r in ws[|moves|].runs ==> r < id
    ensures var was := ws[|moves|]; w == was.(runs := was.runs[id := map[]])
    ensures IsRun(ws', moves') && |ws'| == |moves'| + 1 && ws'[|moves'|] == w
  {
    w := ws[|moves|].(runs := ws[|moves|].runs[id := map[]]);
    Another(ws, moves, Publish(id, map[]), w);
    ws', moves' := ws + [w], moves + [Publish(id, map[])];
  }

  lemma Announced(ws: seq<World>, moves: seq<Move>, id: RunId) returns (w: World, ws': seq<World>, moves': seq<Move>)
    requires IsRun(ws, moves) && id in ws[|moves|].runs && forall r :: r in ws[|moves|].runs ==> r <= id
    ensures w == ws[|moves|].(newest := Some(id))
    ensures IsRun(ws', moves') && |ws'| == |moves'| + 1 && ws'[|moves'|] == w
  {
    w := ws[|moves|].(newest := Some(id));
    Another(ws, moves, Announce(id), w);
    ws', moves' := ws + [w], moves + [Announce(id)];
  }

  /**
   And it need not: a process reads run 1 and dies before saving; when it
   is back, two more runs are out and only the newest is evaluated.
   */
  lemma ReadAndLost() returns (ws: seq<World>, moves: seq<Move>)
    ensures IsRun(ws, moves)
    ensures var w := ws[|moves|];
            w.firstRead == Some(1) && w.mem.evaluated == Some(3) && 2 in w.runs && 2 !in Ids(w.mem.path)
  {
    hide Next, IsRun, Ids;
    var w := Start();
    ws, moves := [w], [];
    assert IsRun(ws, moves) by { OnlyStart(); }
    w, ws, moves := Published(ws, moves, 1);
    w, ws, moves := Announced(ws, moves, 1);
    var read := FirstCheck(w, 1);
    Another(ws, moves, Check(Some(1), [1], [], 0), read);
    ws, moves := ws + [read], moves + [Check(Some(1), [1], [], 0)];
    w := Restarted(read);
    Another(ws, moves, Restart, w);
    ws, moves := ws + [w], moves + [Restart];
    w, ws, moves := Published(ws, moves, 2);
    w, ws, moves := Published(ws, moves, 3);
    w, ws, moves := Announced(ws, moves, 3);
    var again := FirstCheck(w, 3);
    Another(ws, moves, Check(Some(3), [3], [], 0), again);
    ws, moves := ws + [again], moves + [Check(Some(3), [3], [], 0)];
  }

  lemma OnlyStart()
    ensures IsRun([Start()], [])
  {
  }

  lemma Restarted(w: World) returns (w': World)
    ensures Next(w, Restart, w') && w' == w.(mem := w.disk, pc := Idle)
  {
    w' := w.(mem := w.disk, pc := Idle);
  }

  // --- The loop's turns take these steps ------------------------------------------------

  ghost predicate Holds(state: H.State, image: Image)
    reads state
  {
    state.Memory() == image.mem && state.evaluated == image.evaluated
  }

  lemma {:induction false} ChecksPollNothing(runs: map<RunId, Outputs>, ids: seq<RunId>, health: seq<Item>, now: int,
                                             m: Mem, n: nat)
    requires n <= |CheckSteps(runs, ids, health, now)|
    ensures PollNews(m, CheckSteps(runs, ids, health, now)[..n]) == []
            && LineNews(m, CheckSteps(runs, ids, health, now)[..n]) == []
  {
    var steps := CheckSteps(runs, ids, health, now);
    if n > 0 {
      ChecksPollNothing(runs, ids, health, now, m, n - 1);
      assert steps[..n][..n - 1] == steps[..n - 1];
    }
  }

  lemma LogSteps(runs: map<RunId, Outputs>, ids: seq<RunId>, health: seq<Item>, now: int)
    ensures Steps(CheckLog(runs, ids, health, now)) == CheckSteps(runs, ids, health, now)
  {
  }

  lemma HotSteps(steps: seq<Step>)
    ensures Steps(HotLog(steps)) == steps
  {
  }

  /** News to report is news of some kind, event or line. */
  lemma {:induction false} SomeNews(m: Mem, steps: seq<Step>)
    ensures NewsOf(m, steps) == iset{} <==> PollNews(m, steps) == [] && LineNews(m, steps) == []
                                            && forall kind :: SetNews(m, steps, kind) == []
  {
    hide SetNews, PollNews, LineNews;
    if PollNews(m, steps) != [] {
      assert OfEvent(PollNews(m, steps)[0]) in NewsOf(m, steps);
    }
    if LineNews(m, steps) != [] {
      assert OfLine(LineNews(m, steps)[0]) in NewsOf(m, steps);
    }
    if kind :| SetNews(m, steps, kind) != [] {
      assert OfKind(kind, SetNews(m, steps, kind)[0]) in NewsOf(m, steps);
    }
    if NewsOf(m, steps) != iset{} {
      var t :| t in NewsOf(m, steps);
      if t.OfKind? {
        assert SetNews(m, steps, t.kind) != [];
      }
    }
  }

  lemma NoneAlike(news: KindNews, m: Mem, steps: seq<Step>)
    requires forall kind :: At(news, kind) == SetNews(m, steps, kind)
    ensures (forall kind :: At(news, kind) == []) <==> (forall kind :: SetNews(m, steps, kind) == [])
  {
    hide SetNews, At;
    if forall kind :: At(news, kind) == [] {
      forall kind ensures SetNews(m, steps, kind) == [] {
        assert At(news, kind) == [];
      }
    } else {
      var kind :| At(news, kind) != [];
      assert SetNews(m, steps, kind) != [];
    }
  }

  /** A check of the directory takes a Check step and reports its news. */
  method TakeCheck(state: H.State, status: Option<Status>, health: seq<Item>, hot: Option<map<H.Key, H.HotItem>>,
                   now: int, runs: map<RunId, Outputs>, ghost w: World)
    returns (news: KindNews, ghost ids: seq<RunId>, ghost w': World)
    requires state.Whole() && Holds(state, w.mem) && w.pc.Idle? && w.runs == runs
    requires status.Some? ==> w.newest == Some(status.value.run)
    modifies state
    ensures state.Whole() && Holds(state, w'.mem)
    ensures Next(w, Check(NewestOf(status), ids, health, now), w')
    ensures w'.pc.Saving? <==> forall kind :: At(news, kind) == []
    ensures w'.pc.Printing? ==> forall t :: t in w'.pc.news <==> t.OfKind? && t.item in At(news, t.kind)
  {
    hide P.TellFull, H.Named, H.AllTold, H.AtCursor, H.TurnsOk, RunFrom, SetNews, PendingRuns, PollNews, LineNews;
    news, ids := SweepCheck(state, status, runs, health, hot, now);
    LogSteps(runs, ids, health, now);
    var steps := CheckSteps(runs, ids, health, now);
    ChecksPollNothing(runs, ids, health, now, w.mem.mem, |steps|);
    assert steps[..|steps|] == steps;
    SomeNews(w.mem.mem, steps);
    NoneAlike(news, w.mem.mem, steps);
    hide CheckSteps, CheckLog, Steps;
    var log := CheckLog(runs, ids, health, now);
    w' := w.(mem := Advance(w.mem, log, if NewestOf(status).Some? then NewestOf(status) else w.mem.evaluated),
             pc := ToReport(NewsOf(w.mem.mem, Steps(log))), firstRead := FirstRead(w.firstRead, ids));
  }

  /** A hot cycle that works takes a Hot step and reports its news; one that fails takes none. */
  method TakeHot(state: H.State, server: P.Server, flags: seq<H.Flag>, limited: Option<int>,
                 signoff: Option<Option<seq<string>>>, notify: Option<Option<Output>>, now: int, ghost w: World)
    returns (ok: bool, found: H.Found, ghost order: seq<H.Key>, ghost steps: seq<Step>, ghost w': World)
    requires state.Whole() && Holds(state, w.mem) && w.pc.Idle?
    modifies state
    ensures state.Whole() && Holds(state, w'.mem) && (ok <==> now < old(state.pausedUntil) || H.Runs(signoff, notify))
    ensures if ok then Next(w, Hot(steps), w') else w' == w
    ensures ok ==> if now < old(state.pausedUntil) then steps == []
                   else H.Cycled(server, flags, limited, signoff, notify, now, old(state.Now()), state.Now(), order,
                                 steps)
    ensures ok ==> (w'.pc.Saving? <==> found.events == [] && found.lines == []
                                       && forall kind :: At(found.notified, kind) == [])
    ensures ok && w'.pc.Printing? ==>
              forall t :: t in w'.pc.news <==> match t
                                               case OfKind(kind, item) => item in At(found.notified, kind)
                                               case OfEvent(ev) => ev in found.events
                                               case OfLine(line) => line in found.lines
  {
    hide H.Sound, H.Within, H.Runs, H.Cycled, RunFrom, SetNews, PollNews, LineNews;
    w' := w;
    ok, found, order, steps := H.RunCycle(state, server, flags, limited, signoff, notify, now);
    if ok {
      CycleMemory(server, flags, limited, signoff, notify, now, old(state.Now()), state.Now(), order, steps,
                  old(state.pausedUntil) > now);
      HotSteps(steps);
      SomeNews(w.mem.mem, steps);
      NoneAlike(found.notified, w.mem.mem, steps);
      hide HotLog, Steps;
      w' := w.(mem := Advance(w.mem, HotLog(steps), w.mem.evaluated),
               pc := ToReport(NewsOf(w.mem.mem, Steps(HotLog(steps)))));
    }
  }

  lemma {:induction false} CycleMemory(server: P.Server, flags: seq<H.Flag>, limited: Option<int>,
                                       signoff: Option<Option<seq<string>>>, notify: Option<Option<Output>>, now: int,
                                       a: H.Image, b: H.Image, order: seq<H.Key>, steps: seq<Step>, paused: bool)
    requires if paused then b == a && steps == []
             else H.Cycled(server, flags, limited, signoff, notify, now, a, b, order, steps)
    ensures b.mem == RunFrom(a.mem, steps) && b.evaluated == a.evaluated
  {
  }
}

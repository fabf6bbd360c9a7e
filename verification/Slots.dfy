/**
 The free agent slots of the two lanes (lib/pacing.js, slotReport) and the
 devspace runs started in them (lib/reconcile.js, slots and dispatch).
 Umbrella items are not part of this model.
 */
module Slots {
  import opened Options
  import opened Candidates
  import Pools

  datatype Status = Todo | InProgress | OtherStatus

  /**
   A board item, as the pacing reads it. SKIPPED: a Todo item that is no
   candidate (skipReason); LABELED: an issue that opted in to dispatch and
   that nothing blocks; URGENT bypasses a pool's pace.
   */
  datatype Item = Item(lane: Lane, status: Status, led: bool, run: bool, skipped: bool, labeled: bool, urgent: bool,
                       rank: nat, target: Option<string>, org: string, score: int)

  /** Where an item's work lands, as the load of the candidates counts it, and as that of the busy agents does. */
  function PickKey(it: Item): string {
    if it.target.Some? then it.target.value else if it.org != "" then it.org else "?"
  }

  function BusyKey(it: Item): string {
    if it.target.Some? then it.target.value else "?"
  }

  /** The operator config's pacing: agents in all, those of the harness lane, and the most devspace runs. */
  datatype Pacing = Pacing(agents: nat, harness: nat, runs: nat, share: real)

  predicate ValidPacing(p: Pacing) {
    p.harness <= p.agents && 0.0 <= p.share <= 1.0
  }

  datatype Holds = Holds(claude: bool, opencode: bool)

  function Target(p: Pacing, lane: Lane): nat
    requires ValidPacing(p)
  {
    if lane.Harness? then p.harness else p.agents - p.harness
  }

  predicate Active(it: Item) {
    it.status.InProgress? && (it.led || it.run)
  }

  predicate Waiting(it: Item, holds: Holds) {
    it.status.Todo? && !it.skipped && (holds.claude && holds.opencode ==> it.urgent)
  }

  /** What auto-dispatch may start, CLOSED when the pool of the run's agent is held. */
  predicate Eligible(it: Item, holds: Holds, closed: bool) {
    Waiting(it, holds) && it.labeled && !it.run && (closed ==> it.urgent)
  }

  function Busy(items: seq<Item>, lane: Lane): nat {
    if items == [] then 0
    else Busy(items[..|items| - 1], lane) + if Active(items[|items| - 1]) && items[|items| - 1].lane == lane then 1
                                            else 0
  }

  /** A lane's busy agents in a repository. */
  function BusyIn(items: seq<Item>, lane: Lane, repo: string): nat {
    if items == [] then 0
    else
      var it := items[|items| - 1];
      BusyIn(items[..|items| - 1], lane, repo) + if Active(it) && it.lane == lane && BusyKey(it) == repo then 1 else 0
  }

  function Remote(items: seq<Item>): nat {
    if items == [] then 0
    else Remote(items[..|items| - 1]) + if Active(items[|items| - 1]) && items[|items| - 1].run then 1 else 0
  }

  // --- The report --------------------------------------------------------------------

  datatype LaneReport = LaneReport(active: nat, free: nat, underShare: nat, dispatch: seq<Candidate>)
  datatype Report = Report(busy: nat, remote: nat, free: nat, remoteTarget: nat, lanes: map<Lane, LaneReport>)

  function Ceil(x: real): int {
    -((-x).Floor)
  }

  function RemoteTarget(p: Pacing): (r: nat)
    requires ValidPacing(p)
    ensures r <= p.runs && r as real < p.agents as real * p.share + 1.0
    ensures r == p.runs || r as real >= p.agents as real * p.share
  {
    var wanted := Ceil(p.agents as real * p.share);
    if wanted < 0 then 0 else Min(wanted, p.runs)
  }

  ghost function CandidateAt(items: seq<Item>, n: nat): Candidate
    requires n < |items|
  {
    Candidate(n, items[n].rank, PickKey(items[n]), items[n].score)
  }

  /** The lane's candidates are eligible items of the lane, each once, by their place on the board. */
  ghost predicate FromBoard(cs: seq<Candidate>, items: seq<Item>, lane: Lane, holds: Holds, closed: bool) {
    && (forall i :: 0 <= i < |cs| ==> cs[i].order < |items| && items[cs[i].order].lane == lane
                                      && Eligible(items[cs[i].order], holds, closed)
                                      && cs[i] == CandidateAt(items, cs[i].order))
    && (forall i, j :: 0 <= i < j < |cs| ==> cs[i].order != cs[j].order)
  }

  /**
   They are the best ones: no eligible item of a better priority is left out,
   none at all while there are fewer than three.
   */
  ghost predicate Best(cs: seq<Candidate>, items: seq<Item>, lane: Lane, holds: Holds, closed: bool) {
    forall n :: 0 <= n < |items| && items[n].lane == lane && Eligible(items[n], holds, closed) ==>
      (exists i :: 0 <= i < |cs| && cs[i].order == n)
      || (|cs| == CANDIDATES_PER_LANE && forall i :: 0 <= i < |cs| ==> cs[i].rank <= items[n].rank)
  }

  /** Each goes before every eligible item of the lane that is not listed before it. */
  ghost predicate InOrder(cs: seq<Candidate>, items: seq<Item>, lane: Lane, holds: Holds, closed: bool) {
    forall i, n :: 0 <= i < |cs| && 0 <= n < |items| && items[n].lane == lane && Eligible(items[n], holds, closed)
                   && (forall j :: 0 <= j < i ==> cs[j].order != n) ==>
      var x := CandidateAt(items, n);
      Ahead(cs[i], x, lane, BusyIn(items, lane, cs[i].repo) + CountOf(cs[..i], cs[i].repo),
            BusyIn(items, lane, x.repo) + CountOf(cs[..i], x.repo))
  }

  lemma {:induction false} PicksInOrder(items: seq<Item>, lane: Lane, holds: Holds, closed: bool, todo: seq<Candidate>,
                     out: seq<Candidate>, pool: seq<Candidate>, busy: Load)
    requires FromBoard(todo, items, lane, holds, closed) && Split(todo, out, pool) && Greedy(todo, lane, busy, out)
    requires forall n :: 0 <= n < |items| && items[n].lane == lane && Eligible(items[n], holds, closed) ==>
               exists i :: 0 <= i < |todo| && todo[i].order == n
    requires forall repo :: LoadOf(busy, repo) == BusyIn(items, lane, repo)
    ensures InOrder(out, items, lane, holds, closed)
  {
    hide BusyIn, CountOf, Eligible, PickKey, Ahead, Split, FromBoard, Greedy;
    forall i, n | 0 <= i < |out| && 0 <= n < |items| && items[n].lane == lane && Eligible(items[n], holds, closed)
                  && (forall j :: 0 <= j < i ==> out[j].order != n)
      ensures var x := CandidateAt(items, n);
              Ahead(out[i], x, lane, BusyIn(items, lane, out[i].repo) + CountOf(out[..i], out[i].repo),
                    BusyIn(items, lane, x.repo) + CountOf(out[..i], x.repo))
    {
      var k :| 0 <= k < |todo| && todo[k].order == n;
      OnBoardAt(todo, items, lane, holds, closed, k);
      GreedyAt(todo, lane, busy, out, i, todo[k]);
    }
  }

  lemma OnBoardAt(cs: seq<Candidate>, items: seq<Item>, lane: Lane, holds: Holds, closed: bool, k: nat)
    requires FromBoard(cs, items, lane, holds, closed) && k < |cs|
    ensures cs[k].order < |items| && cs[k] == CandidateAt(items, cs[k].order)
  {
  }

  lemma GreedyAt(todo: seq<Candidate>, lane: Lane, busy: Load, out: seq<Candidate>, i: nat, x: Candidate)
    requires Greedy(todo, lane, busy, out) && i < |out| && x in todo
    requires forall j :: 0 <= j < i ==> out[j].order != x.order
    ensures Ahead(out[i], x, lane, LoadOf(busy, out[i].repo) + CountOf(out[..i], out[i].repo),
                  LoadOf(busy, x.repo) + CountOf(out[..i], x.repo))
  {
    hide CountOf, Ahead;
    assert GoesFirst(todo, lane, busy, out[..i], out[i]) && x !in out[..i];
  }

  /**
   Upstream, a listed item's repository has at most one more agent, with the
   listed ones, than that of an item of its priority left out.
   */
  ghost predicate Spread(cs: seq<Candidate>, items: seq<Item>, lane: Lane, holds: Holds, closed: bool) {
    lane.Upstream? ==> forall c, n :: c in cs && 0 <= n < |items| && items[n].lane == lane
                                      && Eligible(items[n], holds, closed)
                                      && items[n].rank == c.rank && (forall x :: x in cs ==> x.order != n) ==>
                         BusyIn(items, lane, c.repo) + CountOf(cs, c.repo)
                         <= BusyIn(items, lane, PickKey(items[n])) + CountOf(cs, PickKey(items[n])) + 1
  }

  /** A lane's busy agents by repository. */
  method BusyLoad(items: seq<Item>, lane: Lane) returns (load: Load)
    ensures forall repo :: LoadOf(load, repo) == BusyIn(items, lane, repo)
  {
    load := map[];
    for n := 0 to |items|
      invariant forall repo :: LoadOf(load, repo) == BusyIn(items[..n], lane, repo)
    {
      assert items[..n + 1][..n] == items[..n];
      var it := items[n];
      if it.lane == lane && Active(it) {
        load := load[BusyKey(it) := LoadOf(load, BusyKey(it)) + 1];
      }
    }
    assert items[..|items|] == items;
  }

  /** The eligible items of a lane. */
  method Gather(items: seq<Item>, lane: Lane, holds: Holds, closed: bool) returns (todo: seq<Candidate>)
    ensures FromBoard(todo, items, lane, holds, closed)
    ensures forall n :: 0 <= n < |items| && items[n].lane == lane && Eligible(items[n], holds, closed) ==>
              exists i :: 0 <= i < |todo| && todo[i].order == n
  {
    todo := [];
    for n := 0 to |items|
      invariant FromBoard(todo, items, lane, holds, closed) && forall i :: 0 <= i < |todo| ==> todo[i].order < n
      invariant forall m :: 0 <= m < n && items[m].lane == lane && Eligible(items[m], holds, closed) ==>
                  exists i :: 0 <= i < |todo| && todo[i].order == m
    {
      hide Eligible, PickKey;
      var it := items[n];
      if it.lane == lane && Eligible(it, holds, closed) {
        ghost var was := todo;
        todo := todo + [Candidate(n, it.rank, PickKey(it), it.score)];
        assert todo[|was|].order == n;
        assert forall i :: 0 <= i < |was| ==> todo[i] == was[i];
      }
    }
  }

  lemma PicksAreBest(items: seq<Item>, lane: Lane, holds: Holds, closed: bool, todo: seq<Candidate>,
                     out: seq<Candidate>, pool: seq<Candidate>)
    requires FromBoard(todo, items, lane, holds, closed) && Split(todo, out, pool) && ByPriority(out, pool)
    requires forall n :: 0 <= n < |items| && items[n].lane == lane && Eligible(items[n], holds, closed) ==>
               exists i :: 0 <= i < |todo| && todo[i].order == n
    requires |out| == Min(CANDIDATES_PER_LANE, |todo|)
    ensures FromBoard(out, items, lane, holds, closed) && Best(out, items, lane, holds, closed)
  {
    Joined(out, pool);
    forall i | 0 <= i < |out| ensures out[i] in todo {
    }
    forall n | 0 <= n < |items| && items[n].lane == lane && Eligible(items[n], holds, closed)
      ensures (exists i :: 0 <= i < |out| && out[i].order == n)
              || (|out| == CANDIDATES_PER_LANE && forall i :: 0 <= i < |out| ==> out[i].rank <= items[n].rank)
    {
      var i :| 0 <= i < |todo| && todo[i].order == n;
      assert todo[i] in out || todo[i] in pool;
      if todo[i] in pool {
        assert forall k :: 0 <= k < |out| ==> out[k] in out;
      }
    }
  }

  lemma {:induction false} PicksSpread(items: seq<Item>, holds: Holds, closed: bool, todo: seq<Candidate>,
                                       out: seq<Candidate>, pool: seq<Candidate>, busy: Load, load: Load)
    requires FromBoard(todo, items, Upstream, holds, closed) && Split(todo, out, pool)
    requires forall n :: 0 <= n < |items| && items[n].lane == Upstream && Eligible(items[n], holds, closed) ==>
               exists i :: 0 <= i < |todo| && todo[i].order == n
    requires forall repo :: LoadOf(busy, repo) == BusyIn(items, Upstream, repo)
    requires Counts(load, busy, out) && SpreadOut(out, pool, load)
    ensures Spread(out, items, Upstream, holds, closed)
  {
    hide BusyIn, CountOf, Eligible, PickKey;
    Joined(out, pool);
    forall c, n | c in out && 0 <= n < |items| && items[n].lane == Upstream && Eligible(items[n], holds, closed)
                  && items[n].rank == c.rank && (forall x :: x in out ==> x.order != n)
      ensures BusyIn(items, Upstream, c.repo) + CountOf(out, c.repo)
              <= BusyIn(items, Upstream, PickKey(items[n])) + CountOf(out, PickKey(items[n])) + 1
    {
      var i :| 0 <= i < |todo| && todo[i].order == n;
      LeftOut(todo, out, pool, todo[i]);
      SpreadPair(c, todo[i], busy, load, out, pool);
      assert BusyIn(items, Upstream, c.repo) == LoadOf(busy, c.repo);
    }
  }

  lemma LeftOut(todo: seq<Candidate>, out: seq<Candidate>, pool: seq<Candidate>, x: Candidate)
    requires Split(todo, out, pool) && x in todo && x !in out
    ensures x in pool
  {
    Joined(out, pool);
  }

  lemma {:induction false} SpreadPair(c: Candidate, x: Candidate, busy: Load, load: Load, out: seq<Candidate>,
                                      pool: seq<Candidate>)
    requires Counts(load, busy, out) && SpreadOut(out, pool, load) && c in out && x in pool && c.rank == x.rank
    ensures LoadOf(busy, c.repo) + CountOf(out, c.repo) <= LoadOf(busy, x.repo) + CountOf(out, x.repo) + 1
  {
    assert LoadOf(load, c.repo) == LoadOf(busy, c.repo) + CountOf(out, c.repo);
    assert LoadOf(load, x.repo) == LoadOf(busy, x.repo) + CountOf(out, x.repo);
  }

  lemma NoSpread(items: seq<Item>, lane: Lane, holds: Holds, closed: bool, out: seq<Candidate>)
    requires lane.Upstream? ==> Spread(out, items, lane, holds, closed)
    ensures Spread(out, items, lane, holds, closed)
  {
  }

  method LaneOf(items: seq<Item>, lane: Lane, target: nat, active: nat, free: nat, holds: Holds, closed: bool)
    returns (l: LaneReport)
    ensures l.active == active && l.free == Min(Max(0, target - active), free)
            && l.underShare == Max(0, target - active) - l.free
    ensures FromBoard(l.dispatch, items, lane, holds, closed) && Best(l.dispatch, items, lane, holds, closed)
    ensures Spread(l.dispatch, items, lane, holds, closed) && InOrder(l.dispatch, items, lane, holds, closed)
  {
    hide Split, ByPriority, Counts, SpreadOut, Sort, FromBoard, Best, Spread, Eligible, Greedy, InOrder;
    var short := Max(0, target - active);
    var mine := Min(short, free);
    var todo := Gather(items, lane, holds, closed);
    var load := BusyLoad(items, lane);
    OrdersApart(todo, items, lane, holds, closed);
    var picked, pool, loads := Pick(todo, lane, load);
    PicksAreBest(items, lane, holds, closed, todo, picked, pool);
    PicksInOrder(items, lane, holds, closed, todo, picked, pool, load);
    if lane.Upstream? {
      PicksSpread(items, holds, closed, todo, picked, pool, load, loads);
    }
    NoSpread(items, lane, holds, closed, picked);
    l := LaneReport(active, mine, short - mine, picked);
  }

  lemma OrdersApart(todo: seq<Candidate>, items: seq<Item>, lane: Lane, holds: Holds, closed: bool)
    requires FromBoard(todo, items, lane, holds, closed)
    ensures Distinct(todo)
  {
  }

  ghost predicate LaneIs(r: Report, items: seq<Item>, p: Pacing, lane: Lane, holds: Holds, closed: bool)
    requires ValidPacing(p)
  {
    && lane in r.lanes && r.lanes[lane].active == Busy(items, lane)
    && r.lanes[lane].free == Min(Max(0, Target(p, lane) - Busy(items, lane)), r.free)
    && FromBoard(r.lanes[lane].dispatch, items, lane, holds, closed)
    && Best(r.lanes[lane].dispatch, items, lane, holds, closed)
    && Spread(r.lanes[lane].dispatch, items, lane, holds, closed)
    && InOrder(r.lanes[lane].dispatch, items, lane, holds, closed)
  }

  /** The busy agents of the two lanes, and how many of them are devspace runs. */
  method CountBusy(items: seq<Item>) returns (harness: nat, upstream: nat, remote: nat)
    ensures harness == Busy(items, Harness) && upstream == Busy(items, Upstream) && remote == Remote(items)
  {
    harness, upstream, remote := 0, 0, 0;
    for n := 0 to |items|
      invariant harness == Busy(items[..n], Harness) && upstream == Busy(items[..n], Upstream)
                && remote == Remote(items[..n])
    {
      assert items[..n + 1][..n] == items[..n];
      var it := items[n];
      if Active(it) {
        if it.lane.Harness? {
          harness := harness + 1;
        } else {
          upstream := upstream + 1;
        }
        if it.run {
          remote := remote + 1;
        }
      }
    }
    assert items[..|items|] == items;
  }

  method SlotReport(items: seq<Item>, p: Pacing, holds: Holds, closed: bool) returns (r: Report)
    requires ValidPacing(p)
    ensures r.busy == Busy(items, Harness) + Busy(items, Upstream) && r.remote == Remote(items)
    ensures r.free == Max(0, p.agents - r.busy) && r.remoteTarget == RemoteTarget(p)
    ensures LaneIs(r, items, p, Harness, holds, closed) && LaneIs(r, items, p, Upstream, holds, closed)
  {
    hide FromBoard, Best, Eligible, Busy, Remote, RemoteTarget, InOrder;
    var harness, upstream, remote := CountBusy(items);
    var busy := harness + upstream;
    var free := Max(0, p.agents - busy);
    var h := LaneOf(items, Harness, Target(p, Harness), harness, free, holds, closed);
    var u := LaneOf(items, Upstream, Target(p, Upstream), upstream, free, holds, closed);
    r := Report(busy, remote, free, RemoteTarget(p), map[Harness := h, Upstream := u]);
  }

  /** The lanes' free slots are the total's, exactly. */
  lemma {:induction false} FreeSums(r: Report, items: seq<Item>, p: Pacing, holds: Holds, closed: bool)
    requires ValidPacing(p) && r.free == Max(0, p.agents - Busy(items, Harness) - Busy(items, Upstream))
    requires LaneIs(r, items, p, Harness, holds, closed) && LaneIs(r, items, p, Upstream, holds, closed)
    ensures Harness in r.lanes && Upstream in r.lanes && r.lanes[Harness].free + r.lanes[Upstream].free == r.free
  {
    hide FromBoard, Best;
  }

  // --- Auto-dispatch ------------------------------------------------------------------

  /** A pool as a pass reads it: its pace, and the runs it still pays for. */
  datatype Pool = Pool(pace: Pools.Pace, fits: Option<nat>)

  /** The pools that have a reading. */
  datatype Paces = Paces(claude: Option<Pool>, openai: Option<Pool>) {
    function Held(): Holds {
      Holds(claude.Some? && claude.value.pace.hold, openai.Some? && openai.value.pace.hold)
    }

    /** The agent of the next devspace run. */
    function Agent(): Pools.Agent {
      Pools.RemoteAgent(PaceOf(claude), PaceOf(openai))
    }

    /** The runs its pool still pays for, if that is known. */
    function Fits(): Option<nat> {
      var pool := if Agent().Claude? then claude else openai;
      if pool.None? then None else pool.value.fits
    }
  }

  function PaceOf(pool: Option<Pool>): Option<Pools.Pace> {
    if pool.None? then None else Some(pool.value.pace)
  }

  /** The pool of the next run's agent is held: openai's, and Claude's has no usage to spare. */
  predicate Closed(paces: Paces): (r: bool)
    ensures r <==> paces.Held().opencode
                   && !(paces.claude.Some? && !paces.Held().claude && paces.claude.value.pace.ahead < 0.0)
  {
    if paces.Agent().Claude? then paces.Held().claude else paces.Held().opencode
  }

  /** The most devspace runs: their share, or while Claude is held the limit. */
  function RemoteCap(p: Pacing, holds: Holds): (cap: nat)
    requires ValidPacing(p)
    ensures cap <= p.runs && (holds.claude ==> cap == p.runs)
    ensures !holds.claude ==> && cap as real < p.agents as real * p.share + 1.0
                              && (cap == p.runs || cap as real >= p.agents as real * p.share)
  {
    if holds.claude then p.runs else RemoteTarget(p)
  }

  /** The runs a pass starts, by lane: their items' places on the board. */
  datatype Choice = Choice(lane: Lane, item: nat)

  function ChosenIn(out: seq<Choice>, lane: Lane): nat {
    if out == [] then 0 else ChosenIn(out[..|out| - 1], lane) + if out[|out| - 1].lane == lane then 1 else 0
  }

  function Charged(out: seq<Choice>, items: seq<Item>): nat
    requires forall i :: 0 <= i < |out| ==> out[i].item < |items|
  {
    if out == [] then 0 else Charged(out[..|out| - 1], items) + if items[out[|out| - 1].item].urgent then 0 else 1
  }

  ghost predicate Startable(out: seq<Choice>, items: seq<Item>, holds: Holds, closed: bool) {
    && (forall i :: 0 <= i < |out| ==> out[i].item < |items| && items[out[i].item].lane == out[i].lane
                                       && Eligible(items[out[i].item], holds, closed))
    && (forall i, j :: 0 <= i < j < |out| ==> out[i].lane != out[j].lane)
  }

  ghost predicate OnBoard(cs: seq<Candidate>, items: seq<Item>) {
    forall i :: 0 <= i < |cs| ==> cs[i].order < |items|
  }

  ghost predicate NoneUrgent(cs: seq<Candidate>, items: seq<Item>, n: nat)
    requires n <= |cs|
  {
    forall i :: 0 <= i < n ==> cs[i].order < |items| && !items[cs[i].order].urgent
  }

  /** The first candidate, or while the pool pays for none the first urgent one. */
  ghost predicate IsFirst(cs: seq<Candidate>, items: seq<Item>, unpaid: bool, c: nat) {
    exists i :: 0 <= i < |cs| && cs[i].order == c < |items|
                && if unpaid then items[c].urgent && NoneUrgent(cs, items, i) else i == 0
  }

  /** The first candidate the pool pays for, or that is urgent. */
  method FirstPaid(cs: seq<Candidate>, items: seq<Item>, unpaid: bool) returns (c: Option<nat>)
    requires OnBoard(cs, items)
    ensures c.Some? ==> IsFirst(cs, items, unpaid, c.value)
    ensures c.None? ==> cs == [] || (unpaid && NoneUrgent(cs, items, |cs|))
  {
    for i := 0 to |cs|
      invariant i > 0 ==> unpaid
      invariant NoneUrgent(cs, items, i)
    {
      if !unpaid || items[cs[i].order].urgent {
        return Some(cs[i].order);
      }
    }
    c := None;
  }

  /**
   Lane LANE starts nothing only if it is full, the runs or agents are used
   up, or the pool pays for none of its candidates.
   */
  ghost predicate Passed(l: LaneReport, items: seq<Item>, room: int, paid: Option<int>) {
    l.free == 0 || room <= 0 || l.dispatch == []
    || (paid.Some? && paid.value <= 0 && NoneUrgent(l.dispatch, items, |l.dispatch|))
  }

  /**
   What lane LANE starts, if there is room: its first eligible item, or while
   the pool pays for none its first urgent one; or nothing, for a reason.
   */
  ghost predicate Took(l: LaneReport, items: seq<Item>, lane: Lane, paces: Paces, room: int, free: int,
                       paid: Option<int>, c: Option<nat>) {
    if c.None? then Passed(l, items, Min(room, free), paid)
    else
      && room > 0 && free > 0 && l.free > 0 && c.value < |items| && items[c.value].lane == lane
      && Eligible(items[c.value], paces.Held(), Closed(paces))
      && IsFirst(l.dispatch, items, Unpaid(paid), c.value)
  }

  /** One lane's part of a pass, given the runs it may still start and the charges the pool still pays for. */
  method DispatchLane(r: Report, items: seq<Item>, p: Pacing, paces: Paces, lane: Lane, room: int, free: int,
                      paid: Option<int>)
    returns (c: Option<nat>)
    requires ValidPacing(p) && LaneIs(r, items, p, lane, paces.Held(), Closed(paces))
    ensures c.Some? ==> c.value < |items|
    ensures Took(r.lanes[lane], items, lane, paces, room, free, paid, c)
  {
    hide Best, Eligible, NoneUrgent;
    assert OnBoard(r.lanes[lane].dispatch, items);
    c := None;
    if r.lanes[lane].free > 0 && room > 0 && free > 0 {
      c := FirstPaid(r.lanes[lane].dispatch, items, Unpaid(paid));
    }
  }

  /** What a pass starts stays within the lanes' slots, the agents, the runs and the pool's pace. */
  ghost predicate Allowed(out: seq<Choice>, items: seq<Item>, p: Pacing, paces: Paces)
    requires ValidPacing(p)
  {
    && Startable(out, items, paces.Held(), Closed(paces)) && |out| <= 2
    && ChosenIn(out, Harness) <= Max(0, p.harness - Busy(items, Harness))
    && ChosenIn(out, Upstream) <= Max(0, p.agents - p.harness - Busy(items, Upstream))
    && |out| <= Max(0, p.agents - Busy(items, Harness) - Busy(items, Upstream))
    && |out| <= Max(0, RemoteCap(p, paces.Held()) - Remote(items))
    && (paces.Fits().Some? ==> Charged(out, items) <= paces.Fits().value)
  }

  /** Each start is the first of its lane's candidates that the pool pays for by then; a lane without has a reason. */
  ghost predicate Used(out: seq<Choice>, items: seq<Item>, p: Pacing, paces: Paces, r: Report)
    requires ValidPacing(p) && Startable(out, items, paces.Held(), Closed(paces)) && Harness in r.lanes
             && Upstream in r.lanes
  {
    var room := Min(RemoteCap(p, paces.Held()) - Remote(items),
                    p.agents - Busy(items, Harness) - Busy(items, Upstream));
    && (forall i :: 0 <= i < |out| ==>
          IsFirst(r.lanes[out[i].lane].dispatch, items, Unpaid(Left(paces, Charged(out[..i], items))), out[i].item))
    && (ChosenIn(out, Harness) == 0 ==> Passed(r.lanes[Harness], items, room, Left(paces, 0)))
    && (ChosenIn(out, Upstream) == 0 ==>
          Passed(r.lanes[Upstream], items, room - |out|, Left(paces, Charged(out, items))))
  }

  predicate Unpaid(paid: Option<int>) {
    paid.Some? && paid.value <= 0
  }

  /** What a pass of auto-dispatch starts. */
  method Dispatch(items: seq<Item>, p: Pacing, paces: Paces) returns (out: seq<Choice>, ghost r: Report)
    requires ValidPacing(p)
    ensures Allowed(out, items, p, paces)
    ensures LaneIs(r, items, p, Harness, paces.Held(), Closed(paces))
            && LaneIs(r, items, p, Upstream, paces.Held(), Closed(paces))
    ensures Used(out, items, p, paces, r)
  {
    hide LaneIs, Took, Allowed, Used, Busy, Remote, RemoteCap, Closed;
    var report := SlotReport(items, p, paces.Held(), Closed(paces));
    r := report;
    InReport(r, items, p, paces);
    var room: int := RemoteCap(p, paces.Held()) - report.remote;
    var free: int := report.free;
    var paid := Left(paces, 0);
    var first := DispatchLane(report, items, p, paces, Harness, room, free, paid);
    var started := if first.Some? then 1 else 0;
    if first.Some? && !items[first.value].urgent {
      paid := Less(paid);
    }
    var second := DispatchLane(report, items, p, paces, Upstream, room - started, free - started, paid);
    out := Two(first, second);
    PassUsed(r, items, p, paces, first, second);
  }

  lemma InReport(r: Report, items: seq<Item>, p: Pacing, paces: Paces)
    requires ValidPacing(p) && LaneIs(r, items, p, Harness, paces.Held(), Closed(paces))
    requires LaneIs(r, items, p, Upstream, paces.Held(), Closed(paces))
    ensures Harness in r.lanes && Upstream in r.lanes
  {
  }

  /** What is left of the pool's runs once an item is started. */
  function Rest(items: seq<Item>, paces: Paces, first: Option<nat>): Option<int>
    requires first.Some? ==> first.value < |items|
  {
    if first.Some? && !items[first.value].urgent then Less(Left(paces, 0)) else Left(paces, 0)
  }

  lemma TwoStart(first: Option<nat>, second: Option<nat>, items: seq<Item>, holds: Holds, closed: bool)
    requires first.Some? ==> && first.value < |items| && items[first.value].lane == Harness
                             && Eligible(items[first.value], holds, closed)
    requires second.Some? ==> && second.value < |items| && items[second.value].lane == Upstream
                              && Eligible(items[second.value], holds, closed)
    ensures Startable(Two(first, second), items, holds, closed)
  {
    hide Eligible;
  }

  lemma PaidOrUrgent(l: LaneReport, items: seq<Item>, lane: Lane, paces: Paces, room: int, free: int,
                     paid: Option<int>, c: Option<nat>)
    requires Took(l, items, lane, paces, room, free, paid, c)
    ensures c.Some? && Unpaid(paid) ==> c.value < |items| && items[c.value].urgent
  {
    hide Passed, Eligible;
  }

  lemma {:induction false} FirstCharged(first: Option<nat>, second: Option<nat>, items: seq<Item>)
    requires first.Some? ==> first.value < |items|
    ensures var out := Two(first, second);
            && out[..0] == [] && (first.Some? && second.Some? ==> out[..1] == Two(first, None))
            && Charged([], items) == 0 && Charged(Two(first, None), items) == Charge(first, items)
  {
    hide Charged;
    NoChoice(items);
    Counted(first, None, items);
    assert second.Some? ==> Two(None, second) == [Choice(Upstream, second.value)];
  }

  /** The two lanes' turns are a pass. */
  lemma {:induction false} PassOk(r: Report, items: seq<Item>, p: Pacing, paces: Paces, first: Option<nat>,
                                  second: Option<nat>)
    requires ValidPacing(p) && LaneIs(r, items, p, Harness, paces.Held(), Closed(paces))
    requires LaneIs(r, items, p, Upstream, paces.Held(), Closed(paces))
    requires r.busy == Busy(items, Harness) + Busy(items, Upstream) && r.remote == Remote(items)
    requires r.free == Max(0, p.agents - r.busy) && (first.Some? ==> first.value < |items|)
    requires var room := RemoteCap(p, paces.Held()) - r.remote; var n := if first.Some? then 1 else 0;
             && Took(r.lanes[Harness], items, Harness, paces, room, r.free, Left(paces, 0), first)
             && Took(r.lanes[Upstream], items, Upstream, paces, room - n, r.free - n, Rest(items, paces, first), second)
    ensures Allowed(Two(first, second), items, p, paces)
  {
    hide FromBoard, Best, Spread, Eligible, Busy, Remote, RemoteCap, Passed, ChosenIn, Charged, Closed, Startable,
         Paces.Held, Paces.Fits, IsFirst, InOrder;
    PaidOrUrgent(r.lanes[Harness], items, Harness, paces, RemoteCap(p, paces.Held()) - r.remote, r.free,
                 Left(paces, 0), first);
    var n := if first.Some? then 1 else 0;
    PaidOrUrgent(r.lanes[Upstream], items, Upstream, paces, RemoteCap(p, paces.Held()) - r.remote - n, r.free - n,
                 Rest(items, paces, first), second);
    TwoStart(first, second, items, paces.Held(), Closed(paces));
    Counted(first, second, items);
  }

  /** And a lane that starts nothing has its reason. */
  lemma {:induction false} PassUsed(r: Report, items: seq<Item>, p: Pacing, paces: Paces, first: Option<nat>,
                                    second: Option<nat>)
    requires ValidPacing(p) && LaneIs(r, items, p, Harness, paces.Held(), Closed(paces))
    requires LaneIs(r, items, p, Upstream, paces.Held(), Closed(paces))
    requires r.busy == Busy(items, Harness) + Busy(items, Upstream) && r.remote == Remote(items)
    requires r.free == Max(0, p.agents - r.busy) && (first.Some? ==> first.value < |items|)
    requires var room := RemoteCap(p, paces.Held()) - r.remote; var n := if first.Some? then 1 else 0;
             && Took(r.lanes[Harness], items, Harness, paces, room, r.free, Left(paces, 0), first)
             && Took(r.lanes[Upstream], items, Upstream, paces, room - n, r.free - n, Rest(items, paces, first), second)
    ensures Allowed(Two(first, second), items, p, paces) && Used(Two(first, second), items, p, paces, r)
  {
    hide FromBoard, Best, Spread, Eligible, Busy, Remote, RemoteCap, Passed, ChosenIn, Charged, Closed, Startable,
         Paces.Held, Paces.Fits, IsFirst, InOrder;
    FirstCharged(first, second, items);
    PassOk(r, items, p, paces, first, second);
    var room, n := RemoteCap(p, paces.Held()) - r.remote, if first.Some? then 1 else 0;
    var most := Min(room, p.agents - r.busy);
    SameReason(r.lanes[Harness], items, Min(room, r.free), most, Left(paces, 0));
    SameReason(r.lanes[Upstream], items, Min(room - n, r.free - n), most - n, Rest(items, paces, first));
    Counted(first, second, items);
  }

  lemma SameReason(l: LaneReport, items: seq<Item>, a: int, b: int, paid: Option<int>)
    requires a <= 0 <==> b <= 0
    ensures Passed(l, items, a, paid) <==> Passed(l, items, b, paid)
  {
  }

  function Two(first: Option<nat>, second: Option<nat>): seq<Choice> {
    (if first.Some? then [Choice(Harness, first.value)] else []) + if second.Some? then
                                                                   [Choice(Upstream, second.value)] else []
  }

  lemma {:induction false} Counted(first: Option<nat>, second: Option<nat>, items: seq<Item>)
    requires (first.Some? ==> first.value < |items|) && (second.Some? ==> second.value < |items|)
    ensures var out := Two(first, second);
            && ChosenIn(out, Harness) == (if first.Some? then 1 else 0)
            && ChosenIn(out, Upstream) == (if second.Some? then 1 else 0)
            && Charged(out, items) == Charge(first, items) + Charge(second, items)
  {
    hide ChosenIn, Charged;
    NoChoice(items);
    var one: seq<Choice> := if first.Some? then [] + [Choice(Harness, first.value)] else [];
    if first.Some? {
      OneMore([], Choice(Harness, first.value), items);
    }
    if second.Some? {
      OneMore(one, Choice(Upstream, second.value), items);
    }
    assert Two(first, second) == one + if second.Some? then [Choice(Upstream, second.value)] else [];
    assert one + [] == one;
  }

  lemma {:induction false} NoChoice(items: seq<Item>)
    ensures ChosenIn([], Harness) == 0 && ChosenIn([], Upstream) == 0 && Charged([], items) == 0
  {
  }

  lemma {:induction false} OneMore(out: seq<Choice>, c: Choice, items: seq<Item>)
    requires c.item < |items| && forall i :: 0 <= i < |out| ==> out[i].item < |items|
    ensures ChosenIn(out + [c], Harness) == ChosenIn(out, Harness) + if c.lane.Harness? then 1 else 0
    ensures ChosenIn(out + [c], Upstream) == ChosenIn(out, Upstream) + if c.lane.Upstream? then 1 else 0
    ensures Charged(out + [c], items) == Charged(out, items) + Charge(Some(c.item), items)
  {
    assert (out + [c])[..|out|] == out;
  }

  /** What starting it charges the pool: an urgent item nothing. */
  function Charge(item: Option<nat>, items: seq<Item>): nat
    requires item.Some? ==> item.value < |items|
  {
    if item.Some? && !items[item.value].urgent then 1 else 0
  }

  function Less(paid: Option<int>): Option<int> {
    if paid.None? then None else Some(paid.value - 1)
  }

  function Left(paces: Paces, charged: nat): Option<int> {
    if paces.Fits().None? then None else Some(paces.Fits().value - charged)
  }

  // --- Over any run of passes ----------------------------------------------------------

  /** The board once the runs of a pass are started. */
  function Start(items: seq<Item>, out: seq<Choice>): (r: seq<Item>)
    requires forall i :: 0 <= i < |out| ==> out[i].item < |items|
    ensures |r| == |items|
  {
    if out == [] then items
    else
      var rest := Start(items, out[..|out| - 1]);
      var k := out[|out| - 1].item;
      rest[k := rest[k].(status := InProgress, run := true)]
  }

  lemma {:induction false} BusyUpdate(items: seq<Item>, k: nat, it: Item, lane: Lane)
    requires k < |items|
    ensures Busy(items[k := it], lane) == Busy(items, lane) - (if Active(items[k]) && items[k].lane == lane then 1
                                                               else 0)
                                          + (if Active(it) && it.lane == lane then 1 else 0)
    ensures Remote(items[k := it]) == Remote(items) - (if Active(items[k]) && items[k].run then 1 else 0)
              + (if Active(it) && it.run then 1 else 0)
  {
    var n := |items| - 1;
    hide Active;
    if k < n {
      BusyUpdate(items[..n], k, it, lane);
      assert items[k := it][..n] == items[..n][k := it];
    } else {
      assert items[k := it][..n] == items[..n];
    }
  }

  lemma StartedItem(it: Item, holds: Holds, closed: bool)
    requires Eligible(it, holds, closed)
    ensures !Active(it) && Active(it.(status := InProgress, run := true))
  {
  }

  /** Starting keeps every item's lane, and the items not started. */
  lemma {:induction false} OthersStay(items: seq<Item>, out: seq<Choice>, n: nat)
    requires n < |items| && forall i :: 0 <= i < |out| ==> out[i].item < |items|
    ensures Start(items, out)[n].lane == items[n].lane
    ensures (forall i :: 0 <= i < |out| ==> out[i].item != n) ==> Start(items, out)[n] == items[n]
  {
    if out != [] {
      OthersStay(items, out[..|out| - 1], n);
      assert forall i :: 0 <= i < |out| - 1 ==> out[..|out| - 1][i] == out[i];
    }
  }

  lemma {:induction false} Started(items: seq<Item>, out: seq<Choice>, holds: Holds, closed: bool, lane: Lane)
    requires Startable(out, items, holds, closed)
    ensures Busy(Start(items, out), lane) == Busy(items, lane) + ChosenIn(out, lane)
            && Remote(Start(items, out)) == Remote(items) + |out|
  {
    if out != [] {
      var m := |out| - 1;
      var k := out[m].item;
      hide Busy, Remote, Active, Eligible;
      assert forall i :: 0 <= i < m ==> out[..m][i] == out[i];
      assert forall i :: 0 <= i < m ==> items[out[i].item].lane != items[k].lane;
      Started(items, out[..m], holds, closed, lane);
      OthersStay(items, out[..m], k);
      var rest := Start(items, out[..m]);
      StartedItem(rest[k], holds, closed);
      BusyUpdate(rest, k, rest[k].(status := InProgress, run := true), lane);
    }
  }

  /** A pass takes nothing over its bound: not a lane, not the agents, not the runs. */
  lemma {:induction false} PassKeeps(items: seq<Item>, out: seq<Choice>, p: Pacing, paces: Paces)
    requires ValidPacing(p) && Allowed(out, items, p, paces)
    ensures var r := Start(items, out);
            && (forall lane :: Busy(r, lane) <= Max(Busy(items, lane), Target(p, lane)))
            && Busy(r, Harness) + Busy(r, Upstream) <= Max(Busy(items, Harness) + Busy(items, Upstream), p.agents)
            && Remote(r) <= Max(Remote(items), RemoteCap(p, paces.Held()))
  {
    hide Busy, Remote, RemoteCap, Charged, Eligible;
    Started(items, out, paces.Held(), Closed(paces), Harness);
    Started(items, out, paces.Held(), Closed(paces), Upstream);
    InLanes(out);
    forall lane ensures Busy(Start(items, out), lane) <= Max(Busy(items, lane), Target(p, lane)) {
      assert lane == Harness || lane == Upstream;
    }
  }

  /** An item that a pass may start: urgent, while both pools or that of the run's agent are held. */
  ghost predicate MayStart(it: Item, paces: Paces) {
    && it.status == Todo && it.labeled && !it.run && !it.skipped
    && (paces.Held().claude && paces.Held().opencode ==> it.urgent)
    && (Closed(paces) ==> it.urgent)
  }

  /**
   Some reason but the runs' limit: its slots or the agents are used up, no
   item of it may start, or the pool pays for none of its candidates.
   */
  ghost predicate OtherReason(l: LaneReport, items: seq<Item>, lane: Lane, paces: Paces, agents: int,
                              paid: Option<int>) {
    l.free == 0 || agents <= 0
    || (forall n :: 0 <= n < |items| && items[n].lane == lane ==> !MayStart(items[n], paces))
    || (Unpaid(paid) && forall i :: 0 <= i < |l.dispatch| ==>
                          l.dispatch[i].order < |items| && !items[l.dispatch[i].order].urgent)
  }

  /**
   While Claude is not held, a pass leaves no more devspace runs than their
   share of the agents, rounded up, or what there were before; and where it
   leaves fewer, each lane without a start has another reason. While Claude
   is held the share is the limit itself.
   */
  lemma {:induction false} KeepsShare(items: seq<Item>, out: seq<Choice>, p: Pacing, paces: Paces, r: Report,
                                      share: nat)
    requires ValidPacing(p) && Allowed(out, items, p, paces)
    requires LaneIs(r, items, p, Harness, paces.Held(), Closed(paces))
    requires LaneIs(r, items, p, Upstream, paces.Held(), Closed(paces))
    requires Used(out, items, p, paces, r)
    requires p.agents as real * p.share <= share as real < p.agents as real * p.share + 1.0
    ensures var cap := if paces.Held().claude then p.runs else Min(share, p.runs);
            var after, agents := Remote(Start(items, out)), p.agents - Busy(items, Harness) - Busy(items, Upstream);
            && after <= Max(Remote(items), cap)
            && (after < cap && ChosenIn(out, Harness) == 0 ==>
                  OtherReason(r.lanes[Harness], items, Harness, paces, agents, Left(paces, 0)))
            && (after < cap && ChosenIn(out, Upstream) == 0 ==>
                  OtherReason(r.lanes[Upstream], items, Upstream, paces, agents - |out|,
                              Left(paces, Charged(out, items))))
  {
    CapIs(p, paces.Held(), share);
    KeepsCap(items, out, p, paces, r);
  }

  lemma CapIs(p: Pacing, holds: Holds, share: nat)
    requires ValidPacing(p) && p.agents as real * p.share <= share as real < p.agents as real * p.share + 1.0
    ensures RemoteCap(p, holds) == if holds.claude then p.runs else Min(share, p.runs)
  {
    var x := p.agents as real * p.share;
    hide RemoteCap;
    var cap := RemoteCap(p, holds);
    assert !holds.claude ==> cap as real < x + 1.0 && (cap == p.runs || cap as real >= x);
  }

  lemma {:induction false} KeepsCap(items: seq<Item>, out: seq<Choice>, p: Pacing, paces: Paces, r: Report)
    requires ValidPacing(p) && Allowed(out, items, p, paces)
    requires LaneIs(r, items, p, Harness, paces.Held(), Closed(paces))
    requires LaneIs(r, items, p, Upstream, paces.Held(), Closed(paces))
    requires Used(out, items, p, paces, r)
    ensures var cap := RemoteCap(p, paces.Held());
            var after, agents := Remote(Start(items, out)), p.agents - Busy(items, Harness) - Busy(items, Upstream);
            && after <= Max(Remote(items), cap)
            && (after < cap && ChosenIn(out, Harness) == 0 ==>
                  OtherReason(r.lanes[Harness], items, Harness, paces, agents, Left(paces, 0)))
            && (after < cap && ChosenIn(out, Upstream) == 0 ==>
                  OtherReason(r.lanes[Upstream], items, Upstream, paces, agents - |out|,
                              Left(paces, Charged(out, items))))
  {
    hide Busy, Remote, Charged, Eligible, IsFirst, Closed, RemoteCap, Left, Start, FromBoard, Spread, InOrder, Best,
         MayStart;
    PassKeeps(items, out, p, paces);
    Started(items, out, paces.Held(), Closed(paces), Harness);
    NoneMayStart(r.lanes[Harness].dispatch, items, Harness, paces);
    NoneMayStart(r.lanes[Upstream].dispatch, items, Upstream, paces);
  }

  lemma {:induction false} NoneMayStart(cs: seq<Candidate>, items: seq<Item>, lane: Lane, paces: Paces)
    requires Best(cs, items, lane, paces.Held(), Closed(paces))
    ensures cs == [] ==> forall n :: 0 <= n < |items| && items[n].lane == lane ==> !MayStart(items[n], paces)
  {
    hide Closed;
  }

  /**
   What a pass starts is opted in, unowned and not skipped; urgent, while both
   pools or that of its agent are held.
   */
  lemma StartsAre(items: seq<Item>, out: seq<Choice>, p: Pacing, paces: Paces, i: nat)
    requires ValidPacing(p) && Allowed(out, items, p, paces) && i < |out|
    ensures out[i].item < |items| && items[out[i].item].lane == out[i].lane && MayStart(items[out[i].item], paces)
  {
    hide ChosenIn, Charged, Busy, Remote, RemoteCap;
  }

  /** The started items that are not urgent. */
  ghost function Paid(items: seq<Item>, out: seq<Choice>): set<nat> {
    set i: nat | i < |out| && out[i].item < |items| && !items[out[i].item].urgent
  }

  lemma {:induction false} ChargedPaid(items: seq<Item>, out: seq<Choice>)
    requires forall i :: 0 <= i < |out| ==> out[i].item < |items|
    ensures Charged(out, items) == |Paid(items, out)|
  {
    if out != [] {
      var m := |out| - 1;
      assert forall i :: 0 <= i < m ==> out[..m][i] == out[i];
      ChargedPaid(items, out[..m]);
      assert Paid(items, out) == Paid(items, out[..m]) + if items[out[m].item].urgent then {} else {m};
    } else {
      assert Paid(items, out) == {};
    }
  }

  /**
   What is started and not urgent is no more than the runs that the pool of
   their agent still pays for: Claude's while it is behind its pace and
   openai's held or ahead of its own, and else openai's.
   */
  lemma {:induction false} ChargesPool(items: seq<Item>, out: seq<Choice>, p: Pacing, paces: Paces)
    requires ValidPacing(p) && Allowed(out, items, p, paces)
    ensures var c, o := paces.claude, paces.openai;
            var pool := if c.Some? && !c.value.pace.hold && c.value.pace.ahead < 0.0
                           && o.Some? && (o.value.pace.hold || o.value.pace.ahead > 0.0) then c else o;
            pool.Some? && pool.value.fits.Some? ==> |Paid(items, out)| <= pool.value.fits.value
  {
    hide ChosenIn, Charged, Busy, Remote, RemoteCap, Eligible, Closed;
    ChargedPaid(items, out);
  }

  /** Where an item's work lands: its repository, or its Org if it names none. */
  ghost predicate Lands(it: Item, repo: string) {
    it.target == Some(repo) || (it.target.None? && it.org != "" && repo == it.org)
  }

  /** The busy agents of a lane on work for a repository. */
  ghost function AgentsOn(items: seq<Item>, lane: Lane, repo: string): nat {
    if items == [] then 0
    else
      var it := items[|items| - 1];
      AgentsOn(items[..|items| - 1], lane, repo)
      + if it.status.InProgress? && (it.led || it.run) && it.lane == lane && it.target == Some(repo) then 1 else 0
  }

  lemma {:induction false} BusyOn(items: seq<Item>, lane: Lane, repo: string)
    requires repo != "?"
    ensures BusyIn(items, lane, repo) == AgentsOn(items, lane, repo)
  {
    if items != [] {
      BusyOn(items[..|items| - 1], lane, repo);
    }
  }

  /**
   What a lane starts while the pool pays for it is the best of the lane by
   the items themselves: none that may start is of a better priority, and
   none of the same is, in the harness lane, where the operator is more
   active, or upstream, lands where fewer agents are busy or, with as many,
   the operator is more active.
   */
  lemma {:induction false} StartsBest(items: seq<Item>, out: seq<Choice>, p: Pacing, paces: Paces, r: Report, i: nat,
                                      n: nat, repo: string, other: string)
    requires ValidPacing(p) && Allowed(out, items, p, paces)
    requires LaneIs(r, items, p, Harness, paces.Held(), Closed(paces))
    requires LaneIs(r, items, p, Upstream, paces.Held(), Closed(paces))
    requires Used(out, items, p, paces, r) && i < |out| && !Unpaid(Left(paces, Charged(out[..i], items)))
    requires n < |items| && items[n].lane == out[i].lane && MayStart(items[n], paces)
    ensures out[i].item < |items|
    ensures var it, x, lane := items[out[i].item], items[n], out[i].lane;
            && it.rank <= x.rank
            && (it.rank == x.rank && lane.Harness? ==>
                  it.score >= x.score && (it.score == x.score ==> out[i].item <= n))
            && (it.rank == x.rank && lane.Upstream? && Lands(it, repo) && Lands(x, other)
                && repo != "?" && other != "?" ==>
                  var a, b := AgentsOn(items, lane, repo), AgentsOn(items, lane, other);
                  a <= b && (a == b ==> it.score >= x.score && (it.score == x.score ==> out[i].item <= n)))
  {
    hide Busy, Remote, Charged, Best, Spread, Closed, RemoteCap, Left, Eligible, BusyIn, AgentsOn, ChosenIn, Unpaid;
    MayBeEligible(items[n], paces);
    var l, lane := r.lanes[out[i].lane], out[i].lane;
    assert IsFirst(l.dispatch, items, Unpaid(Left(paces, Charged(out[..i], items))), out[i].item);
    assert l.dispatch[0].order == out[i].item;
    OnBoardAt(l.dispatch, items, lane, paces.Held(), Closed(paces), 0);
    FirstAhead(l.dispatch, items, lane, paces.Held(), Closed(paces), n);
    var it, x := items[out[i].item], items[n];
    if repo != "?" { BusyOn(items, lane, repo); }
    if other != "?" { BusyOn(items, lane, other); }
  }

  lemma {:induction false} MayBeEligible(it: Item, paces: Paces)
    ensures MayStart(it, paces) <==> Eligible(it, paces.Held(), Closed(paces))
  {
    hide Closed;
  }

  lemma {:induction false} FirstAhead(cs: seq<Candidate>, items: seq<Item>, lane: Lane, holds: Holds, closed: bool,
                                      n: nat)
    requires InOrder(cs, items, lane, holds, closed) && cs != [] && n < |items| && items[n].lane == lane
    requires Eligible(items[n], holds, closed)
    ensures var x := CandidateAt(items, n);
            Ahead(cs[0], x, lane, BusyIn(items, lane, cs[0].repo), BusyIn(items, lane, x.repo))
  {
    hide Ahead, BusyIn, Eligible;
    assert cs[..0] == [] && forall repo :: CountOf([], repo) == 0;
  }

  lemma {:induction false} InLanes(out: seq<Choice>)
    ensures ChosenIn(out, Harness) + ChosenIn(out, Upstream) == |out|
  {
    if out != [] {
      InLanes(out[..|out| - 1]);
    }
  }

  /** What happens to the board: a pass of auto-dispatch under whatever paces, or anything that starts no agent. */
  datatype Move = Pass(out: seq<Choice>, paces: Paces) | Elsewhere

  ghost predicate Follows(items: seq<Item>, move: Move, items': seq<Item>, p: Pacing)
    requires ValidPacing(p)
  {
    match move
    case Pass(out, paces) => Allowed(out, items, p, paces) && items' == Start(items, out)
    case Elsewhere => (forall lane :: Busy(items', lane) <= Busy(items, lane)) && Remote(items') <= Remote(items)
  }

  ghost predicate Within(items: seq<Item>, p: Pacing)
    requires ValidPacing(p)
  {
    && (forall lane :: Busy(items, lane) <= Target(p, lane))
    && Busy(items, Harness) + Busy(items, Upstream) <= p.agents
    && Remote(items) <= p.runs
  }

  /** A board within its bounds stays within them over any run of passes, finishing agents and changing paces. */
  lemma {:induction false} StaysWithin(boards: seq<seq<Item>>, moves: seq<Move>, p: Pacing)
    requires ValidPacing(p) && |boards| == |moves| + 1 && Within(boards[0], p)
    requires forall i :: 0 <= i < |moves| ==> Follows(boards[i], moves[i], boards[i + 1], p)
    ensures Within(boards[|moves|], p)
  {
    var n := |moves|;
    if n > 0 {
      StaysWithin(boards[..n], moves[..n - 1], p);
      assert Follows(boards[n - 1], moves[n - 1], boards[n - 1 + 1], p);
      hide Busy, Remote, Allowed;
      if moves[n - 1].Pass? {
        PassKeeps(boards[n - 1], moves[n - 1].out, p, moves[n - 1].paces);
      }
    }
  }
}

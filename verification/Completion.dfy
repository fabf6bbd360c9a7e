/**
 The background tasks a Claude stream leaves outstanding
 (lib/claude-completion.js, completionTracker). A message's prose is not
 part of this model.
 */
module Completion {
  import opened Options

  /** A block of an assistant's message: a tool use, maybe in the background, and what a TaskOutput waits for. */
  datatype Block = ToolUse(id: string, name: string, background: bool, waitsFor: Option<string>)

  /** A tool's result: the id and the exit code its text shows. */
  datatype Result = Result(tool: string, isError: bool, textId: Option<string>, exitCode: bool)

  /** What a user event says of its results: which was waited for, the background one, and a status that ends it. */
  datatype Outcome = Outcome(waited: Option<string>, waitedEnded: bool, background: Option<string>, ended: bool)

  datatype Event =
    | Assistant(nested: bool, blocks: seq<Block>)
    | User(results: seq<Result>, outcome: Outcome)
    | Started(task: string, tool: string, title: string)
    | Notified(task: string, tool: string, ended: bool)

  datatype State = State(pending: map<string, string>, finished: set<string>, tools: map<string, string>,
                         waits: map<string, string>)

  const EMPTY: State := State(map[], {}, map[], map[])

  function ToolKey(id: string): string {
    "tool:" + id
  }

  predicate IsToolKey(key: string) {
    |key| >= 5 && key[..5] == "tool:"
  }

  lemma ToolKeys(a: string, b: string)
    ensures IsToolKey(ToolKey(a)) && (ToolKey(a) == ToolKey(b) ==> a == b)
    ensures IsToolKey(a) ==> a == ToolKey(a[5..])
  {
    assert ToolKey(a)[5..] == a && ToolKey(b)[5..] == b;
    assert IsToolKey(a) ==> a == a[..5] + a[5..];
  }

  // --- What an event does -----------------------------------------------------------

  function OnBlock(s: State, b: Block): State {
    var s1 := if b.name == "TaskOutput" && b.id != ""
    && b.waitsFor.Some? then s.(waits := s.waits[b.id := b.waitsFor.value]) else s;
    if b.id == "" || !b.background then s1
    else
      s1.(tools := s1.tools[b.id := ToolKey(b.id)],
          pending := s1.pending[ToolKey(b.id) := if b.name == "" then "background tool" else b.name])
  }

  function IdOf(r: Result, o: Outcome): Option<string> {
    if o.background.Some? && o.background.value != "" then o.background else r.textId
  }

  function OnWaited(s: State, r: Result, o: Outcome): State {
    if r.tool in s.waits && o.waited == Some(s.waits[r.tool]) && s.waits[r.tool] != "" && !r.isError && o.waitedEnded
    then s.(finished := s.finished + {s.waits[r.tool]}, pending := s.pending - {s.waits[r.tool]})
    else s
  }

  function OnTool(s: State, r: Result, o: Outcome): State {
    if r.tool !in s.tools then s
    else
      var was := s.tools[r.tool];
      var id := IdOf(r, o);
      if r.isError then s.(pending := s.pending - {was})
      else if o.ended then
        if id.Some? then s.(finished := s.finished + {id.value}, pending := s.pending - {was, id.value})
        else s.(pending := s.pending - {was})
      else if id.Some? then
        var title := if was in s.pending then s.pending[was] else "background tool";
        var left := s.pending - {was};
        s.(pending := if id.value in s.finished then left
                      else left[id.value := title], tools := s.tools[r.tool := id.value])
      else if r.exitCode then s.(pending := s.pending - {was})
      else s
  }

  function OnResult(s: State, r: Result, o: Outcome): State {
    OnTool(OnWaited(s, r, o), r, o)
  }

  function OnBlocks(s: State, bs: seq<Block>): State {
    if bs == [] then s else OnBlock(OnBlocks(s, bs[..|bs| - 1]), bs[|bs| - 1])
  }

  function OnResults(s: State, rs: seq<Result>, o: Outcome): State {
    if rs == [] then s else OnResult(OnResults(s, rs[..|rs| - 1], o), rs[|rs| - 1], o)
  }

  function Forgotten(s: State, tool: string): map<string, string> {
    if tool != "" && tool in s.tools then s.pending - {s.tools[tool]} else s.pending
  }

  function OnEvent(s: State, ev: Event): State {
    match ev
    case Assistant(nested, blocks) => if nested then s else OnBlocks(s, blocks)
    case User(results, outcome) => OnResults(s, results, outcome)
    case Started(task, tool, title) =>
      if task == "" then s
      else
        var left := Forgotten(s, tool);
        s.(pending := if task in s.finished then left else left[task := title],
           tools := if tool != "" then s.tools[tool := task] else s.tools)
    case Notified(task, tool, ended) =>
      if task == "" || !ended then s
      else s.(finished := s.finished + {task}, pending := Forgotten(s, tool) - {task})
  }

  function After(s: State, evs: seq<Event>): State {
    if evs == [] then s else OnEvent(After(s, evs[..|evs| - 1]), evs[|evs| - 1])
  }

  /** The tracker the stream's events are shown to. */
  class Tracker {
    var pending: map<string, string>
    var finished: set<string>
    var tools: map<string, string>
    var waits: map<string, string>

    function Now(): State
      reads this
    {
      State(pending, finished, tools, waits)
    }

    constructor ()
      ensures Now() == EMPTY
    {
      pending, finished, tools, waits := map[], {}, map[], map[];
    }

    method ObserveBlocks(blocks: seq<Block>)
      modifies this
      ensures Now() == OnBlocks(old(Now()), blocks)
    {
      for i := 0 to |blocks|
        invariant Now() == OnBlocks(old(Now()), blocks[..i])
      {
        var b := blocks[i];
        assert blocks[..i + 1][..i] == blocks[..i];
        if b.name == "TaskOutput" && b.id != "" && b.waitsFor.Some? {
          waits := waits[b.id := b.waitsFor.value];
        }
        if b.id != "" && b.background {
          tools := tools[b.id := ToolKey(b.id)];
          pending := pending[ToolKey(b.id) := if b.name == "" then "background tool" else b.name];
        }
      }
      assert blocks[..|blocks|] == blocks;
    }

    method ObserveTool(r: Result, o: Outcome)
      modifies this
      ensures Now() == OnTool(old(Now()), r, o)
    {
      if r.tool !in tools { return; }
      var was := tools[r.tool];
      if r.isError {
        pending := pending - {was};
        return;
      }
      var id := IdOf(r, o);
      if o.ended {
        pending := pending - {was};
        if id.Some? {
          finished := finished + {id.value};
          pending := pending - {id.value};
        }
        return;
      }
      if id.Some? {
        var title := if was in pending then pending[was] else "background tool";
        pending := pending - {was};
        tools := tools[r.tool := id.value];
        if id.value !in finished {
          pending := pending[id.value := title];
        }
      } else if r.exitCode {
        pending := pending - {was};
      }
    }

    method ObserveResults(results: seq<Result>, o: Outcome)
      modifies this
      ensures Now() == OnResults(old(Now()), results, o)
    {
      for i := 0 to |results|
        invariant Now() == OnResults(old(Now()), results[..i], o)
      {
        var r := results[i];
        assert results[..i + 1][..i] == results[..i];
        if r.tool in waits && waits[r.tool] != "" && o.waited == Some(waits[r.tool]) && !r.isError && o.waitedEnded {
          var waited := waits[r.tool];
          finished := finished + {waited};
          pending := pending - {waited};
        }
        ObserveTool(r, o);
      }
      assert results[..|results|] == results;
    }

    method Observe(ev: Event)
      modifies this
      ensures Now() == OnEvent(old(Now()), ev)
    {
      match ev
      case Assistant(nested, blocks) =>
        if !nested {
          ObserveBlocks(blocks);
        }
      case User(results, outcome) => ObserveResults(results, outcome);
      case Started(task, tool, title) =>
        if task == "" { return; }
        if tool != "" && tool in tools {
          pending := pending - {tools[tool]};
        }
        if tool != "" {
          tools := tools[tool := task];
        }
        if task !in finished {
          pending := pending[task := title];
        }
      case Notified(task, tool, ended) =>
        if task == "" || !ended { return; }
        finished := finished + {task};
        pending := pending - {task};
        if tool != "" && tool in tools {
          pending := pending - {tools[tool]};
        }
    }
  }

  // --- What a result names ---------------------------------------------------------------

  /**
   A result that neither fails nor ends its tool use: the task it runs in
   the background, or else the one its text names, is the tool use's from
   then on and outstanding, unless it finished; and a result that names
   none leaves all as it is, but that an exit code ends it.
   */
  lemma {:induction false} NamesTask(s: State, r: Result, o: Outcome)
    requires r.tool in s.tools && !r.isError && !o.ended
    ensures var s', bg := OnTool(s, r, o), o.background.Some? && |o.background.value| > 0;
            && (bg ==> Becomes(s, s', r.tool, o.background.value))
            && (!bg && r.textId.Some? ==> Becomes(s, s', r.tool, r.textId.value))
            && (!bg && r.textId.None? ==> s'.tools == s.tools
                                          && s'.pending == if r.exitCode then s.pending - {s.tools[r.tool]}
                                                           else s.pending)
            && s'.finished == s.finished && s'.waits == s.waits
  {
  }

  /** The tool use's entry is this task now, and what was outstanding as its old entry is so as the task. */
  ghost predicate Becomes(s: State, s': State, tool: string, task: string) {
    && tool in s.tools && s'.tools == s.tools[tool := task]
    && (task !in s.finished ==> task in s'.pending)
    && (s.tools[tool] != task ==> s.tools[tool] !in s'.pending)
    && (s.tools[tool] in s.pending && task !in s.finished ==> s'.pending[task] == s.pending[s.tools[tool]])
    && forall k :: k != task && k != s.tools[tool] ==> (k in s'.pending <==> k in s.pending)
  }

  // --- A finished task stays finished -------------------------------------------------

  /** Only a tool's own key is finished and pending at once. */
  ghost predicate Settled(s: State) {
    forall t :: t in s.finished && t in s.pending ==> IsToolKey(t) && t != ToolKey("")
  }

  lemma BlockSettles(s: State, b: Block)
    requires Settled(s)
    ensures Settled(OnBlock(s, b)) && s.finished <= OnBlock(s, b).finished
  {
    ToolKeys(b.id, "");
  }

  lemma ResultSettles(s: State, r: Result, o: Outcome)
    requires Settled(s)
    ensures Settled(OnResult(s, r, o)) && s.finished <= OnResult(s, r, o).finished
  {
    assert Settled(OnWaited(s, r, o));
  }

  lemma {:induction false} BlocksSettle(s: State, bs: seq<Block>)
    requires Settled(s)
    ensures Settled(OnBlocks(s, bs)) && s.finished <= OnBlocks(s, bs).finished
  {
    if bs != [] {
      BlocksSettle(s, bs[..|bs| - 1]);
      BlockSettles(OnBlocks(s, bs[..|bs| - 1]), bs[|bs| - 1]);
      hide OnBlock, Settled;
    }
  }

  lemma {:induction false} ResultsSettle(s: State, rs: seq<Result>, o: Outcome)
    requires Settled(s)
    ensures Settled(OnResults(s, rs, o)) && s.finished <= OnResults(s, rs, o).finished
  {
    if rs != [] {
      ResultsSettle(s, rs[..|rs| - 1], o);
      ResultSettles(OnResults(s, rs[..|rs| - 1], o), rs[|rs| - 1], o);
      hide OnResult, Settled;
    }
  }

  lemma EventSettles(s: State, ev: Event)
    requires Settled(s)
    ensures Settled(OnEvent(s, ev)) && s.finished <= OnEvent(s, ev).finished
  {
    if ev.Assistant? {
      BlocksSettle(s, ev.blocks);
    } else if ev.User? {
      ResultsSettle(s, ev.results, ev.outcome);
    }
  }

  lemma {:induction false} StreamSettles(s: State, evs: seq<Event>)
    requires Settled(s)
    ensures Settled(After(s, evs)) && s.finished <= After(s, evs).finished
  {
    if evs != [] {
      StreamSettles(s, evs[..|evs| - 1]);
      EventSettles(After(s, evs[..|evs| - 1]), evs[|evs| - 1]);
      hide OnEvent, Settled;
    }
  }

  /**
   A task that finished is not outstanding in any stream that follows, if
   its id is no tool's key; and one whose id is such a key can be.
   */
  lemma {:induction false} FinishedForGood(before: seq<Event>, evs: seq<Event>, t: string)
    requires t in After(EMPTY, before).finished
    ensures t in After(After(EMPTY, before), evs).pending ==> IsToolKey(t) && t != ToolKey("")
  {
    StreamSettles(EMPTY, before);
    StreamSettles(After(EMPTY, before), evs);
  }

  lemma OutstandingAgain(id: string) returns (before: seq<Event>, evs: seq<Event>)
    requires id != ""
    ensures ToolKey(id) in After(EMPTY, before).finished && ToolKey(id) in After(After(EMPTY, before), evs).pending
  {
    var done := Notified(ToolKey(id), "", true);
    var use := ToolUse(id, "", true, None);
    before, evs := [done], [Assistant(false, [use])];
    assert before[..0] == [] && evs[..0] == [] && [use][..0] == [];
    assert After(EMPTY, []) == EMPTY && After(EMPTY, before) == OnEvent(EMPTY, done);
    var s := After(EMPTY, before);
    assert OnBlocks(s, []) == s && OnBlocks(s, [use]) == OnBlock(s, use);
    assert After(s, []) == s && After(s, evs) == OnEvent(s, Assistant(false, [use]));
  }

  // --- A start and its end, in either order ----------------------------------------------

  /** A tool use id names one task, and no task is called like a tool's key. */
  ghost predicate WellNamed(ev: Event, names: string -> string) {
    match ev
    case Assistant(_, _) => true
    case User(results, outcome) =>
      forall r :: r in results && IdOf(r, outcome).Some? ==> IdOf(r, outcome).value == names(r.tool)
    case Started(task, tool, _) => !IsToolKey(task) && (tool != "" ==> task == names(tool))
    case Notified(task, tool, _) => !IsToolKey(task) && (tool != "" ==> task == names(tool))
  }

  function Look<K, V>(m: map<K, V>, k: K): Option<V> {
    if k in m then Some(m[k]) else None
  }

  function Bare(key: string): string {
    if |key| >= 5 then key[5..] else ""
  }

  /** Each tool's entry is its own key or its task; its key is pending only while it is the entry. */
  ghost predicate Named(s: State, names: string -> string) {
    && (forall v :: v in s.tools ==> s.tools[v] == ToolKey(v) || s.tools[v] == names(v))
    && (forall k :: k in s.pending && IsToolKey(k) ==> Look(s.tools, Bare(k)) == Some(k))
  }

  ghost predicate NoToolNames(names: string -> string) {
    forall v :: !IsToolKey(names(v))
  }

  lemma AllToolKeys()
    ensures forall a :: IsToolKey(ToolKey(a)) && Bare(ToolKey(a)) == a
    ensures forall k :: IsToolKey(k) ==> ToolKey(Bare(k)) == k
  {
    forall k | IsToolKey(k) ensures ToolKey(Bare(k)) == k {
      ToolKeys(k, k);
    }
    forall a ensures IsToolKey(ToolKey(a)) && Bare(ToolKey(a)) == a {
      ToolKeys(a, a);
      assert ToolKey(a)[5..] == a;
    }
  }

  /** A tool's key no longer pending, its entry may be its task. */
  lemma Renamed(pending: map<string, string>, tools: map<string, string>, pending': map<string, string>,
                tools': map<string, string>, v: string, id: string, names: string -> string)
    requires Named(State(pending, {}, tools, map[]), names) && v in tools && id == names(v) && !IsToolKey(id)
    requires tools' == tools[v := id] && forall k :: k in pending' ==> k == id || (k in pending && k != tools[v])
    ensures Named(State(pending', {}, tools', map[]), names)
  {
    hide ToolKey, IsToolKey, Bare;
    AllToolKeys();
  }

  lemma Fewer(pending: map<string, string>, tools: map<string, string>, pending': map<string, string>,
              names: string -> string)
    requires Named(State(pending, {}, tools, map[]), names) && forall k :: k in pending' ==>
                                                                 k in pending || !IsToolKey(k)
    ensures Named(State(pending', {}, tools, map[]), names)
  {
    hide ToolKey, IsToolKey, Bare;
  }

  lemma NamedParts(s: State, names: string -> string)
    ensures Named(s, names) <==> Named(State(s.pending, {}, s.tools, map[]), names)
  {
    hide ToolKey, IsToolKey, Bare, Look;
  }

  lemma BlockNamed(s: State, b: Block, names: string -> string)
    requires Named(s, names)
    ensures Named(OnBlock(s, b), names)
  {
    hide ToolKey, IsToolKey, Bare;
    AllToolKeys();
  }

  lemma WaitedNamed(s: State, r: Result, o: Outcome, names: string -> string)
    requires Named(s, names)
    ensures Named(OnWaited(s, r, o), names)
  {
    hide ToolKey, IsToolKey, Bare;
  }

  lemma ToolNamed(s: State, r: Result, o: Outcome, names: string -> string)
    requires Named(s, names) && NoToolNames(names) && (IdOf(r, o).Some? ==> IdOf(r, o).value == names(r.tool))
    ensures Named(OnTool(s, r, o), names)
  {
    var s' := OnTool(s, r, o);
    hide ToolKey, IsToolKey, Bare, IdOf, Named;
    NamedParts(s, names);
    NamedParts(s', names);
    if s'.tools != s.tools {
      Renamed(s.pending, s.tools, s'.pending, s'.tools, r.tool, IdOf(r, o).value, names);
    } else {
      FewerOrSame(s, r, o, names);
      Fewer(s.pending, s.tools, s'.pending, names);
    }
  }

  lemma FewerOrSame(s: State, r: Result, o: Outcome, names: string -> string)
    requires NoToolNames(names) && (IdOf(r, o).Some? ==> IdOf(r, o).value == names(r.tool))
    ensures forall k :: k in OnTool(s, r, o).pending ==> k in s.pending || !IsToolKey(k)
  {
    hide IsToolKey, IdOf;
  }

  lemma {:induction false} BlocksNamed(s: State, bs: seq<Block>, names: string -> string)
    requires Named(s, names)
    ensures Named(OnBlocks(s, bs), names)
  {
    if bs != [] {
      BlocksNamed(s, bs[..|bs| - 1], names);
      BlockNamed(OnBlocks(s, bs[..|bs| - 1]), bs[|bs| - 1], names);
      hide Named, OnBlock;
    }
  }

  lemma {:induction false} ResultsNamed(s: State, rs: seq<Result>, o: Outcome, names: string -> string)
    requires Named(s, names) && NoToolNames(names)
    requires forall r :: r in rs && IdOf(r, o).Some? ==> IdOf(r, o).value == names(r.tool)
    ensures Named(OnResults(s, rs, o), names)
  {
    if rs != [] {
      var r := rs[|rs| - 1];
      assert r in rs;
      var before := OnResults(s, rs[..|rs| - 1], o);
      hide Named, OnTool, OnWaited, IdOf;
      ResultsNamed(s, rs[..|rs| - 1], o, names);
      WaitedNamed(before, r, o, names);
      ToolNamed(OnWaited(before, r, o), r, o, names);
    }
  }

  lemma StartedNamed(s: State, task: string, tool: string, title: string, names: string -> string)
    requires Named(s, names) && NoToolNames(names) && WellNamed(Started(task, tool, title), names)
    ensures Named(OnEvent(s, Started(task, tool, title)), names)
  {
    hide ToolKey, IsToolKey, Bare;
    var s' := OnEvent(s, Started(task, tool, title));
    AllToolKeys();
    if tool != "" && tool in s.tools && task != "" {
      NamedParts(s, names);
      NamedParts(s', names);
      hide Named;
      Renamed(s.pending, s.tools, s'.pending, s'.tools, tool, task, names);
    }
  }

  lemma NotifiedNamed(s: State, task: string, tool: string, ended: bool, names: string -> string)
    requires Named(s, names)
    ensures Named(OnEvent(s, Notified(task, tool, ended)), names)
  {
    hide ToolKey, IsToolKey, Bare;
  }

  lemma EventNamed(s: State, ev: Event, names: string -> string)
    requires Named(s, names) && NoToolNames(names) && WellNamed(ev, names)
    ensures Named(OnEvent(s, ev), names)
  {
    hide Named;
    match ev
    case Assistant(_, blocks) => BlocksNamed(s, blocks, names);
    case User(results, outcome) => ResultsNamed(s, results, outcome, names);
    case Started(task, tool, title) => StartedNamed(s, task, tool, title, names);
    case Notified(task, tool, ended) => NotifiedNamed(s, task, tool, ended, names);
  }

  lemma {:induction false} StreamNamed(s: State, evs: seq<Event>, names: string -> string)
    requires Named(s, names) && NoToolNames(names) && forall ev :: ev in evs ==> WellNamed(ev, names)
    ensures Named(After(s, evs), names)
  {
    if evs != [] {
      hide OnEvent, Named, WellNamed;
      StreamNamed(s, evs[..|evs| - 1], names);
      EventNamed(After(s, evs[..|evs| - 1]), evs[|evs| - 1], names);
    }
  }

  /** A tool use's result that names its task. */
  predicate Renames(r: Result, o: Outcome, u: string) {
    r.tool == u && !r.isError && !o.ended && IdOf(r, o).Some?
  }

  ghost predicate AnyRenames(rs: seq<Result>, o: Outcome, u: string) {
    exists r :: r in rs && Renames(r, o, u)
  }

  /** The tool use's own block. */
  predicate Begins(b: Block, u: string) {
    b.id == u && b.background
  }

  ghost predicate AnyBegins(bs: seq<Block>, u: string) {
    exists b :: b in bs && Begins(b, u)
  }

  /** Of the events that name tool use u, its own block was the last: KEYED says so of those before the event. */
  ghost predicate KeyedBy(keyed: bool, ev: Event, u: string) {
    match ev
    case Assistant(nested, blocks) => keyed || (!nested && AnyBegins(blocks, u))
    case User(results, outcome) => keyed && !AnyRenames(results, outcome, u)
    case Started(task, tool, _) => keyed && !(task != "" && tool == u)
    case Notified(_, _, _) => keyed
  }

  ghost predicate Keyed(evs: seq<Event>, u: string) {
    evs != [] && KeyedBy(Keyed(evs[..|evs| - 1], u), evs[|evs| - 1], u)
  }

  /**
   Task t of tool use u, started but its end unseen (a), against its end
   seen but its start not (b): but for that, the two trackers are the same.
   Once the tool use's own block came, they agree on its entry too.
   */
  ghost predicate Apart(a: State, b: State, t: string, u: string, keyed: bool) {
    && b.finished == a.finished + {t} && a.waits == b.waits && t !in b.pending
    && (forall k :: k != t ==> Look(a.pending, k) == Look(b.pending, k))
    && (forall v :: v != u ==> Look(a.tools, v) == Look(b.tools, v))
    && EntriesApart(a, b, t, u, keyed)
  }

  ghost predicate EntriesApart(a: State, b: State, t: string, u: string, keyed: bool) {
    if keyed then Look(a.tools, u) == Some(ToolKey(u)) && Look(b.tools, u) == Some(ToolKey(u))
    else Look(a.tools, u) == Some(t) && ToolKey(u) !in a.pending
         && (u in b.tools ==> b.tools[u] == ToolKey(u) || b.tools[u] == t)
  }

  lemma WaitedApart(a: State, b: State, r: Result, o: Outcome, t: string, u: string, keyed: bool)
    requires Apart(a, b, t, u, keyed)
    ensures Apart(OnWaited(a, r, o), OnWaited(b, r, o), t, u, keyed)
  {
    var a', b' := OnWaited(a, r, o), OnWaited(b, r, o);
    assert b'.finished == a'.finished + {t};
    hide ToolKey;
    forall k | k != t ensures Look(a'.pending, k) == Look(b'.pending, k) {
      assert Look(a.pending, k) == Look(b.pending, k);
    }
    forall v | v != u ensures Look(a'.tools, v) == Look(b'.tools, v) {
      assert Look(a.tools, v) == Look(b.tools, v);
    }
  }

  lemma BlockLook(s: State, x: Block, k: string)
    ensures var s' := OnBlock(s, x); var begun := x.id != "" && x.background;
            && Look(s'.pending, k) == (if begun
                                       && k == ToolKey(x.id) then
                                            Some(if x.name == "" then "background tool" else x.name)
                                       else Look(s.pending, k))
            && Look(s'.tools, k) == (if begun && k == x.id then Some(ToolKey(k)) else Look(s.tools, k))
            && s'.finished == s.finished
  {
    hide ToolKey;
  }

  lemma BlockApart(a: State, b: State, x: Block, t: string, u: string, keyed: bool)
    requires Apart(a, b, t, u, keyed) && !IsToolKey(t) && u != ""
    ensures Apart(OnBlock(a, x), OnBlock(b, x), t, u, keyed || Begins(x, u))
  {
    hide ToolKey, IsToolKey, Bare, OnBlock;
    AllToolKeys();
    var a', b' := OnBlock(a, x), OnBlock(b, x);
    forall k ensures k != t ==> Look(a'.pending, k) == Look(b'.pending, k)
             ensures k != u ==> Look(a'.tools, k) == Look(b'.tools, k) {
      assert k != t ==> Look(a.pending, k) == Look(b.pending, k);
      assert k != u ==> Look(a.tools, k) == Look(b.tools, k);
      BlockLook(a, x, k);
      BlockLook(b, x, k);
    }
    BlockLook(a, x, u);
    BlockLook(b, x, u);
    BlockLook(a, x, ToolKey(u));
    BlockLook(b, x, t);
    BlockWaits(a, b, x);
  }

  lemma BlockWaits(a: State, b: State, x: Block)
    requires a.waits == b.waits
    ensures OnBlock(a, x).waits == OnBlock(b, x).waits
  {
  }

  predicate Ends(r: Result, o: Outcome) {
    r.isError || o.ended || (IdOf(r, o).None? && r.exitCode)
  }

  lemma ToolLook(s: State, r: Result, o: Outcome, k: string)
    requires r.tool in s.tools
    ensures var s' := OnTool(s, r, o); var was := s.tools[r.tool]; var id := IdOf(r, o);
            && Look(s'.pending, k) == (if Ends(r, o) then if k == was
                                                          || (!r.isError && o.ended && id == Some(k)) then None
                                                               else Look(s.pending, k)
                                       else if id == Some(k) && k !in s.finished then
                                            Some(Look(s.pending, was).GetOr("background tool"))
                                       else if id.Some? && k == was then None else Look(s.pending, k))
            && Look(s'.tools, k) == (if !r.isError && !o.ended && id.Some? && k == r.tool then id else Look(s.tools, k))
            && s'.finished == (if !r.isError && o.ended && id.Some? then s.finished + {id.value} else s.finished)
            && s'.waits == s.waits
  {
    hide IdOf;
  }

  /** The result of the tool use itself. */
  lemma OwnToolApart(a: State, b: State, r: Result, o: Outcome, t: string, u: string, keyed: bool)
    requires Apart(a, b, t, u, keyed) && r.tool == u && (IdOf(r, o).Some? ==> IdOf(r, o).value == t) && !IsToolKey(t)
    ensures Apart(OnTool(a, r, o), OnTool(b, r, o), t, u, keyed && !Renames(r, o, u))
  {
    AllToolKeys();
    var a', b' := OnTool(a, r, o), OnTool(b, r, o);
    assert b'.finished == a'.finished + {t} by {
      hide ToolKey, IsToolKey, IdOf, Bare;
    }
    hide ToolKey, IsToolKey, IdOf, Bare, Ends, OnTool;
    forall k ensures k != t ==> Look(a'.pending, k) == Look(b'.pending, k)
             ensures k != u ==> Look(a'.tools, k) == Look(b'.tools, k) {
      OwnToolAt(a, b, r, o, t, u, keyed, k);
    }
    OwnToolAt(a, b, r, o, t, u, keyed, ToolKey(u));
    OwnToolAt(a, b, r, o, t, u, keyed, t);
    OwnToolAt(a, b, r, o, t, u, keyed, u);
  }

  lemma OwnToolAt(a: State, b: State, r: Result, o: Outcome, t: string, u: string, keyed: bool, k: string)
    requires Apart(a, b, t, u, keyed) && r.tool == u && (IdOf(r, o).Some? ==> IdOf(r, o).value == t) && !IsToolKey(t)
    ensures var a', b' := OnTool(a, r, o), OnTool(b, r, o);
            && (k != t ==> Look(a'.pending, k) == Look(b'.pending, k)) && (k == t ==> k !in b'.pending)
            && (k != u ==> Look(a'.tools, k) == Look(b'.tools, k))
            && (k == ToolKey(u) && (keyed ==> Renames(r, o, u)) ==> k !in a'.pending)
            && (if keyed && !Renames(r, o, u) then Look(a'.tools, u) == Some(ToolKey(u))
                                                   && Look(b'.tools, u) == Some(ToolKey(u))
                else Look(a'.tools, u) == Some(t) && (u in b'.tools ==> b'.tools[u] == ToolKey(u) || b'.tools[u] == t))
            && a'.waits == b'.waits
  {
    hide ToolKey, IsToolKey, IdOf, Bare, Ends, OnTool;
    AllToolKeys();
    assert k != t ==> Look(a.pending, k) == Look(b.pending, k);
    assert k != u ==> Look(a.tools, k) == Look(b.tools, k);
    ToolLook(a, r, o, k);
    ToolLook(a, r, o, u);
    if u in b.tools {
      ToolLook(b, r, o, k);
      ToolLook(b, r, o, u);
    } else {
      Untracked(b, r, o);
    }
  }

  lemma Untracked(s: State, r: Result, o: Outcome)
    requires r.tool !in s.tools
    ensures OnTool(s, r, o) == s
  {
  }

  /** Another's. */
  lemma OtherToolApart(a: State, b: State, r: Result, o: Outcome, t: string, u: string, keyed: bool,
                       names: string -> string)
    requires Apart(a, b, t, u, keyed) && r.tool != u && !IsToolKey(t) && Named(a, names) && NoToolNames(names)
    requires IdOf(r, o).Some? ==> IdOf(r, o).value == names(r.tool)
    ensures Apart(OnTool(a, r, o), OnTool(b, r, o), t, u, keyed)
  {
    assert Look(a.tools, r.tool) == Look(b.tools, r.tool);
    var a', b' := OnTool(a, r, o), OnTool(b, r, o);
    assert b'.finished == a'.finished + {t} by {
      hide ToolKey, IsToolKey, IdOf, Bare, Named;
    }
    hide ToolKey, IsToolKey, IdOf, Bare, Named, OnTool, Ends;
    forall k ensures k != t ==> Look(a'.pending, k) == Look(b'.pending, k)
             ensures k != u ==> Look(a'.tools, k) == Look(b'.tools, k) {
      OtherToolAt(a, b, r, o, t, u, keyed, names, k);
    }
    OtherToolAt(a, b, r, o, t, u, keyed, names, ToolKey(u));
    OtherToolAt(a, b, r, o, t, u, keyed, names, t);
    OtherToolAt(a, b, r, o, t, u, keyed, names, u);
  }

  lemma EntryNames(s: State, v: string, t: string, names: string -> string)
    requires Named(s, names) && v in s.tools && s.tools[v] == t && !IsToolKey(t)
    ensures names(v) == t
  {
    AllToolKeys();
    hide ToolKey, IsToolKey, Bare;
  }

  lemma OtherToolAt(a: State, b: State, r: Result, o: Outcome, t: string, u: string, keyed: bool,
                    names: string -> string, k: string)
    requires Apart(a, b, t, u, keyed) && r.tool != u && !IsToolKey(t) && Named(a, names) && NoToolNames(names)
    requires IdOf(r, o).Some? ==> IdOf(r, o).value == names(r.tool)
    ensures var a', b' := OnTool(a, r, o), OnTool(b, r, o);
            && (k != t ==> Look(a'.pending, k) == Look(b'.pending, k)) && (k == t ==> k !in b'.pending)
            && (k != u ==> Look(a'.tools, k) == Look(b'.tools, k)) && (k == ToolKey(u) && !keyed ==> k !in a'.pending)
            && (k == u ==> Look(a'.tools, k) == Look(a.tools, k) && Look(b'.tools, k) == Look(b.tools, k))
            && a'.waits == b'.waits
  {
    hide ToolKey, IsToolKey, IdOf, Bare, Named, OnTool, Ends;
    assert Look(a.tools, r.tool) == Look(b.tools, r.tool);
    assert k != t ==> Look(a.pending, k) == Look(b.pending, k);
    assert k != u ==> Look(a.tools, k) == Look(b.tools, k);
    if r.tool in a.tools {
      AllToolKeys();
      var was := a.tools[r.tool];
      if was == t {
        EntryNames(a, r.tool, t, names);
      }
      assert was != t ==> Look(a.pending, was) == Look(b.pending, was);
      ToolLook(a, r, o, k);
      ToolLook(b, r, o, k);
    } else {
      Untracked(a, r, o);
      Untracked(b, r, o);
    }
  }

  lemma StartedLook(s: State, task: string, tool: string, title: string, k: string)
    requires task != ""
    ensures var s' := OnEvent(s, Started(task, tool, title));
            && Look(s'.pending, k) == (if k == task && task !in s.finished then Some(title)
                                       else if tool != "" && Look(s.tools, tool) == Some(k) then None
                                       else Look(s.pending, k))
            && Look(s'.tools, k) == (if tool != "" && k == tool then Some(task) else Look(s.tools, k))
            && s'.finished == s.finished && s'.waits == s.waits
  {
  }

  lemma StartedApart(a: State, b: State, task: string, tool: string, title: string, t: string, u: string, keyed: bool,
                     names: string -> string)
    requires Apart(a, b, t, u, keyed) && !IsToolKey(t) && WellNamed(Started(task, tool, title), names) && names(u) == t
             && u != "" && task != ""
    ensures Apart(OnEvent(a, Started(task, tool, title)), OnEvent(b, Started(task, tool, title)), t, u,
                  KeyedBy(keyed, Started(task, tool, title), u))
  {
    hide ToolKey, IsToolKey, Bare, OnEvent;
    var ev := Started(task, tool, title);
    var a', b' := OnEvent(a, ev), OnEvent(b, ev);
    forall k ensures k != t ==> Look(a'.pending, k) == Look(b'.pending, k)
             ensures k != u ==> Look(a'.tools, k) == Look(b'.tools, k) {
      StartedAt(a, b, task, tool, title, t, u, keyed, k);
    }
    StartedAt(a, b, task, tool, title, t, u, keyed, u);
    StartedAt(a, b, task, tool, title, t, u, keyed, ToolKey(u));
    StartedAt(a, b, task, tool, title, t, u, keyed, t);
  }

  lemma StartedAt(a: State, b: State, task: string, tool: string, title: string, t: string, u: string, keyed: bool,
                  k: string)
    requires Apart(a, b, t, u, keyed) && !IsToolKey(t) && !IsToolKey(task) && (tool == u ==> task == t) && u != ""
             && task != ""
    ensures var ev := Started(task, tool, title);
            var a', b' := OnEvent(a, ev), OnEvent(b, ev);
            && (k != t ==> Look(a'.pending, k) == Look(b'.pending, k)) && (k == t ==> k !in b'.pending)
            && (k != u ==> Look(a'.tools, k) == Look(b'.tools, k))
            && (k == ToolKey(u) && (keyed ==> tool == u) ==> k !in a'.pending)
            && (k == u ==> if tool == u then Look(a'.tools, k) == Some(t) && Look(b'.tools, k) == Some(t)
                           else Look(a'.tools, k) == Look(a.tools, k) && Look(b'.tools, k) == Look(b.tools, k))
            && b'.finished == a'.finished + {t} && a'.waits == b'.waits
  {
    hide ToolKey, IsToolKey, Bare, OnEvent;
    AllToolKeys();
    assert tool != u ==> Look(a.tools, tool) == Look(b.tools, tool);
    assert k != t ==> Look(a.pending, k) == Look(b.pending, k);
    assert k != u ==> Look(a.tools, k) == Look(b.tools, k);
    StartedLook(a, task, tool, title, k);
    StartedLook(b, task, tool, title, k);
  }

  lemma NotifiedApart(a: State, b: State, task: string, tool: string, ended: bool, t: string, u: string, keyed: bool)
    requires Apart(a, b, t, u, keyed) && !IsToolKey(t)
    ensures Apart(OnEvent(a, Notified(task, tool, ended)), OnEvent(b, Notified(task, tool, ended)), t, u, keyed)
  {
    hide ToolKey, IsToolKey, Bare;
    AllToolKeys();
    var ev := Notified(task, tool, ended);
    var a', b' := OnEvent(a, ev), OnEvent(b, ev);
    assert b'.finished == a'.finished + {t};
    assert tool != u ==> Look(a.tools, tool) == Look(b.tools, tool);
    forall k | k != t ensures Look(a'.pending, k) == Look(b'.pending, k) {
      assert Look(a.pending, k) == Look(b.pending, k);
    }
  }

  lemma {:induction false} BlocksApart(a: State, b: State, bs: seq<Block>, t: string, u: string, keyed: bool)
    requires Apart(a, b, t, u, keyed) && !IsToolKey(t) && u != ""
    ensures Apart(OnBlocks(a, bs), OnBlocks(b, bs), t, u, keyed || AnyBegins(bs, u))
  {
    if bs != [] {
      hide Apart, OnBlock;
      var rest := bs[..|bs| - 1];
      assert bs == rest + [bs[|bs| - 1]];
      assert AnyBegins(bs, u) <==> AnyBegins(rest, u) || Begins(bs[|bs| - 1], u);
      BlocksApart(a, b, rest, t, u, keyed);
      BlockApart(OnBlocks(a, rest), OnBlocks(b, rest), bs[|bs| - 1], t, u, keyed || AnyBegins(rest, u));
    }
  }

  lemma {:induction false} ResultsApart(a: State, b: State, rs: seq<Result>, o: Outcome, t: string, u: string,
                                        keyed: bool, names: string -> string)
    requires Apart(a, b, t, u, keyed) && !IsToolKey(t) && Named(a, names) && NoToolNames(names) && names(u) == t
    requires forall r :: r in rs && IdOf(r, o).Some? ==> IdOf(r, o).value == names(r.tool)
    ensures Apart(OnResults(a, rs, o), OnResults(b, rs, o), t, u, keyed && !AnyRenames(rs, o, u))
  {
    if rs != [] {
      hide Apart, OnTool, OnWaited, IdOf, Named;
      var r := rs[|rs| - 1];
      var rest := rs[..|rs| - 1];
      assert rs == rest + [r];
      assert AnyRenames(rs, o, u) <==> AnyRenames(rest, o, u) || Renames(r, o, u);
      ResultsApart(a, b, rest, o, t, u, keyed, names);
      ResultsNamed(a, rest, o, names);
      var x, y, was := OnResults(a, rest, o), OnResults(b, rest, o), keyed && !AnyRenames(rest, o, u);
      WaitedApart(x, y, r, o, t, u, was);
      WaitedNamed(x, r, o, names);
      if r.tool == u {
        OwnToolApart(OnWaited(x, r, o), OnWaited(y, r, o), r, o, t, u, was);
      } else {
        OtherToolApart(OnWaited(x, r, o), OnWaited(y, r, o), r, o, t, u, was, names);
      }
    }
  }

  lemma EventApart(a: State, b: State, ev: Event, t: string, u: string, keyed: bool, names: string -> string)
    requires Apart(a, b, t, u, keyed) && Named(a, names) && NoToolNames(names) && names(u) == t && u != ""
             && WellNamed(ev, names)
    ensures Apart(OnEvent(a, ev), OnEvent(b, ev), t, u, KeyedBy(keyed, ev, u))
  {
    hide Apart, Named, AnyBegins, AnyRenames;
    assert !IsToolKey(names(u));
    match ev
    case Assistant(nested, blocks) =>
      if !nested {
        BlocksApart(a, b, blocks, t, u, keyed);
      }
    case User(results, outcome) => ResultsApart(a, b, results, outcome, t, u, keyed, names);
    case Started(task, tool, title) =>
      if task != "" {
        StartedApart(a, b, task, tool, title, t, u, keyed, names);
      }
    case Notified(task, tool, ended) => NotifiedApart(a, b, task, tool, ended, t, u, keyed);
  }

  lemma {:induction false} StreamApart(a: State, b: State, evs: seq<Event>, t: string, u: string,
                                       names: string -> string)
    requires Apart(a, b, t, u, false) && Named(a, names) && NoToolNames(names) && names(u) == t && u != ""
    requires forall ev :: ev in evs ==> WellNamed(ev, names)
    ensures Apart(After(a, evs), After(b, evs), t, u, Keyed(evs, u))
  {
    if evs != [] {
      hide Apart, Named, OnEvent, WellNamed, KeyedBy;
      var n := |evs| - 1;
      assert evs[n] in evs;
      StreamApart(a, b, evs[..n], t, u, names);
      StreamNamed(a, evs[..n], names);
      EventApart(After(a, evs[..n]), After(b, evs[..n]), evs[n], t, u, Keyed(evs[..n], u), names);
    }
  }

  /** A start against an end, from the same state. */
  lemma Parted(s: State, t: string, u: string, title: string, names: string -> string)
    requires Named(s, names) && NoToolNames(names) && names(u) == t && u != "" && t != ""
    ensures Apart(OnEvent(s, Started(t, u, title)), OnEvent(s, Notified(t, u, true)), t, u, false)
  {
    hide ToolKey, IsToolKey;
    AllToolKeys();
    assert !IsToolKey(names(u));
  }

  /**
   The same but for the entry of tool use u of task t: its key in one, the
   task in the other, and neither is outstanding or can be again.
   */
  ghost predicate Twins(a: State, b: State, t: string, u: string) {
    && a.pending == b.pending && a.finished == b.finished && a.waits == b.waits
    && Look(a.tools, u) == Some(ToolKey(u)) && b.tools == a.tools[u := t]
    && t in a.finished && t !in a.pending && ToolKey(u) !in a.pending
  }

  /**
   The end after the start, and the start after the end, leave the same but
   for the entry of a tool use whose block came last.
   */
  lemma Rejoined(a: State, b: State, t: string, u: string, title: string, keyed: bool)
    requires Apart(a, b, t, u, keyed) && u != "" && t != "" && !IsToolKey(t)
    ensures var x, y := OnEvent(a, Notified(t, u, true)), OnEvent(b, Started(t, u, title));
            if keyed then Twins(x, y, t, u) else x == y
  {
    hide ToolKey, IsToolKey, Bare;
    AllToolKeys();
    var x, y := OnEvent(a, Notified(t, u, true)), OnEvent(b, Started(t, u, title));
    forall k ensures Look(x.pending, k) == Look(y.pending, k) {
      assert k != t ==> Look(a.pending, k) == Look(b.pending, k);
    }
    SameMaps(x.pending, y.pending);
    forall v ensures Look(x.tools[u := t], v) == Look(y.tools, v) {
      assert v != u ==> Look(a.tools, v) == Look(b.tools, v);
    }
    SameMaps(x.tools[u := t], y.tools);
    if !keyed {
      assert x.tools[u := t] == x.tools;
    }
  }

  lemma SameMaps<K, V>(m: map<K, V>, n: map<K, V>)
    requires forall k :: Look(m, k) == Look(n, k)
    ensures m == n
  {
    forall k ensures k in m <==> k in n {
      assert Look(m, k) == Look(n, k);
    }
    forall k | k in m ensures m[k] == n[k] {
      assert Look(m, k) == Look(n, k);
    }
  }

  lemma TwinBlock(a: State, b: State, x: Block, t: string, u: string)
    requires Twins(a, b, t, u) && u != "" && !IsToolKey(t)
    ensures if Begins(x, u) then OnBlock(a, x) == OnBlock(b, x) else Twins(OnBlock(a, x), OnBlock(b, x), t, u)
  {
    hide ToolKey, IsToolKey, Bare;
    AllToolKeys();
    assert OnBlock(b, x).tools == if Begins(x, u) then OnBlock(a, x).tools else OnBlock(a, x).tools[u := t];
  }

  lemma TwinWaited(a: State, b: State, r: Result, o: Outcome, t: string, u: string)
    requires Twins(a, b, t, u)
    ensures Twins(OnWaited(a, r, o), OnWaited(b, r, o), t, u)
  {
    hide ToolKey;
  }

  lemma TwinOutcome(a: State, b: State, r: Result, o: Outcome, t: string, u: string)
    requires Twins(a, b, t, u) && !IsToolKey(t) && (IdOf(r, o).Some? ==> !IsToolKey(IdOf(r, o).value))
    ensures var x, y := OnTool(a, r, o), OnTool(b, r, o);
            && x.pending == y.pending && x.finished == y.finished && x.waits == y.waits
            && t in x.finished && t !in x.pending && ToolKey(u) !in x.pending
  {
    hide ToolKey, IsToolKey, Bare, IdOf;
    AllToolKeys();
  }

  lemma TwinTool(a: State, b: State, r: Result, o: Outcome, t: string, u: string)
    requires Twins(a, b, t, u) && !IsToolKey(t) && (IdOf(r, o).Some? ==> !IsToolKey(IdOf(r, o).value))
    ensures OnTool(a, r, o) == OnTool(b, r, o) || Twins(OnTool(a, r, o), OnTool(b, r, o), t, u)
  {
    hide ToolKey, IsToolKey, Bare, IdOf;
    TwinOutcome(a, b, r, o, t, u);
    var x, y := OnTool(a, r, o), OnTool(b, r, o);
    assert if Renames(r, o, u) then x.tools == y.tools else y.tools == x.tools[u := t];
  }

  lemma {:induction false} TwinBlocks(a: State, b: State, bs: seq<Block>, t: string, u: string)
    requires (a == b || Twins(a, b, t, u)) && u != "" && !IsToolKey(t)
    ensures OnBlocks(a, bs) == OnBlocks(b, bs) || Twins(OnBlocks(a, bs), OnBlocks(b, bs), t, u)
  {
    if bs != [] {
      hide Twins, OnBlock;
      var x, y := OnBlocks(a, bs[..|bs| - 1]), OnBlocks(b, bs[..|bs| - 1]);
      TwinBlocks(a, b, bs[..|bs| - 1], t, u);
      if x != y {
        TwinBlock(x, y, bs[|bs| - 1], t, u);
      }
    }
  }

  lemma {:induction false} TwinResults(a: State, b: State, rs: seq<Result>, o: Outcome, t: string, u: string)
    requires (a == b || Twins(a, b, t, u)) && !IsToolKey(t)
    requires forall r :: r in rs && IdOf(r, o).Some? ==> !IsToolKey(IdOf(r, o).value)
    ensures OnResults(a, rs, o) == OnResults(b, rs, o) || Twins(OnResults(a, rs, o), OnResults(b, rs, o), t, u)
  {
    if rs != [] {
      hide Twins, OnTool, OnWaited, IdOf;
      var r, rest := rs[|rs| - 1], rs[..|rs| - 1];
      assert r in rs;
      TwinResults(a, b, rest, o, t, u);
      var x, y := OnResults(a, rest, o), OnResults(b, rest, o);
      if x != y {
        TwinWaited(x, y, r, o, t, u);
        TwinTool(OnWaited(x, r, o), OnWaited(y, r, o), r, o, t, u);
      }
    }
  }

  lemma TwinForgets(a: State, b: State, tool: string, t: string, u: string)
    requires Twins(a, b, t, u)
    ensures Forgotten(a, tool) == Forgotten(b, tool) && Forgotten(a, tool).Keys <= a.pending.Keys
  {
    hide ToolKey;
  }

  lemma TwinStarted(a: State, b: State, task: string, tool: string, title: string, t: string, u: string)
    requires Twins(a, b, t, u) && !IsToolKey(task) && (tool == u ==> task == t)
    ensures var x, y := OnEvent(a, Started(task, tool, title)), OnEvent(b, Started(task, tool, title));
            x == y || Twins(x, y, t, u)
  {
    hide ToolKey, IsToolKey, Bare, Forgotten;
    AllToolKeys();
    TwinForgets(a, b, tool, t, u);
    var x, y := OnEvent(a, Started(task, tool, title)), OnEvent(b, Started(task, tool, title));
    assert x.pending == y.pending;
    assert if tool == u && task != "" && tool != "" then x.tools == y.tools else y.tools == x.tools[u := t];
  }

  lemma TwinEvent(a: State, b: State, ev: Event, t: string, u: string, names: string -> string)
    requires (a == b || Twins(a, b, t, u)) && NoToolNames(names) && names(u) == t && u != "" && WellNamed(ev, names)
    ensures OnEvent(a, ev) == OnEvent(b, ev) || Twins(OnEvent(a, ev), OnEvent(b, ev), t, u)
  {
    assert !IsToolKey(names(u));
    if a != b {
      match ev
      case Assistant(_, blocks) => TwinBlocks(a, b, blocks, t, u);
      case User(results, outcome) => TwinResults(a, b, results, outcome, t, u);
      case Started(task, tool, title) => TwinStarted(a, b, task, tool, title, t, u);
      case Notified(task, tool, ended) =>
        TwinForgets(a, b, tool, t, u);
    }
  }

  lemma {:induction false} TwinStream(a: State, b: State, evs: seq<Event>, t: string, u: string,
                                      names: string -> string)
    requires (a == b || Twins(a, b, t, u)) && NoToolNames(names) && names(u) == t && u != ""
    requires forall ev :: ev in evs ==> WellNamed(ev, names)
    ensures After(a, evs) == After(b, evs) || Twins(After(a, evs), After(b, evs), t, u)
  {
    if evs != [] {
      hide Twins, OnEvent, WellNamed, NoToolNames;
      var n := |evs| - 1;
      assert evs[n] in evs;
      TwinStream(a, b, evs[..n], t, u, names);
      TwinEvent(After(a, evs[..n]), After(b, evs[..n]), evs[n], t, u, names);
    }
  }

  /**
   In a stream where a tool use names one task, a task's start and its
   terminal notification can come in either order, with any events between
   them: the same tasks are outstanding, then and after whatever comes, and
   the whole tracker is the same exactly if the tool use's own block is not
   the last between them to name it.
   */
  lemma {:induction false} EitherOrder(before: seq<Event>, between: seq<Event>, after: seq<Event>, t: string,
                                       u: string, title: string, names: string -> string)
    requires NoToolNames(names) && names(u) == t && u != "" && t != ""
    requires forall ev :: ev in before + between ==> WellNamed(ev, names)
    ensures var start, end := [Started(t, u, title)], [Notified(t, u, true)];
            var x, y := After(EMPTY, before + start + between + end), After(EMPTY, before + end + between + start);
            && (x == y <==> !Keyed(between, u)) && (Keyed(between, u) ==> Twins(x, y, t, u))
    ensures var start, end := [Started(t, u, title)], [Notified(t, u, true)];
            var x, y := After(EMPTY, before + start + between + end + after),
                After(EMPTY, before + end + between + start + after);
            && (!Keyed(between, u) ==> x == y)
            && ((forall ev :: ev in after ==> WellNamed(ev, names)) ==>
                  x.pending == y.pending && x.finished == y.finished && x.waits == y.waits)
  {
    hide OnEvent, Twins, Named, WellNamed, Keyed, NoToolNames;
    var start, end := Started(t, u, title), Notified(t, u, true);
    var s := After(EMPTY, before);
    NothingNamed(names);
    StreamNamed(EMPTY, before, names);
    Swapped(s, between, t, u, title, names);
    var x := OnEvent(After(OnEvent(s, start), between), end);
    var y := OnEvent(After(OnEvent(s, end), between), start);
    TwinsDiffer(x, y, t, u, names);
    if forall ev :: ev in after ==> WellNamed(ev, names) {
      TwinStream(x, y, after, t, u, names);
      TwinsDiffer(After(x, after), After(y, after), t, u, names);
    }
    Around(before, start, between, end, after);
    Around(before, end, between, start, after);
    Around(before, start, between, end, []);
    Around(before, end, between, start, []);
    assert before + [start] + between + [end] + [] == before + [start] + between + [end];
    assert before + [end] + between + [start] + [] == before + [end] + between + [start];
  }

  /** So with the block in between, a tracker tells the two orders apart. */
  lemma OrderSeen() returns (between: seq<Event>, start: Event, end: Event)
    ensures After(EMPTY, [start] + between + [end]) != After(EMPTY, [end] + between + [start])
  {
    var use := ToolUse("u", "Bash", true, None);
    between, start, end := [Assistant(false, [use])], Started("t", "u", "build"), Notified("t", "u", true);
    assert use in [use] && between[..0] == [];
    assert AnyBegins([use], "u") && Keyed(between, "u");
    EitherOrder([], between, [], "t", "u", "build", v => "t");
    assert [] + [start] + between + [end] == [start] + between + [end]
           && [] + [end] + between + [start] == [end] + between + [start];
  }

  lemma NothingNamed(names: string -> string)
    ensures Named(EMPTY, names)
  {
  }

  lemma TwinsDiffer(a: State, b: State, t: string, u: string, names: string -> string)
    requires NoToolNames(names) && names(u) == t
    ensures Twins(a, b, t, u) ==> a != b && a.pending == b.pending && a.finished == b.finished && a.waits == b.waits
  {
    ToolKeys(u, u);
    assert !IsToolKey(names(u));
  }

  lemma {:induction false} Swapped(s: State, between: seq<Event>, t: string, u: string, title: string,
                                   names: string -> string)
    requires Named(s, names) && NoToolNames(names) && names(u) == t && u != "" && t != ""
    requires forall ev :: ev in between ==> WellNamed(ev, names)
    ensures var start, end := Started(t, u, title), Notified(t, u, true);
            var x, y := OnEvent(After(OnEvent(s, start), between), end),
                OnEvent(After(OnEvent(s, end), between), start);
            if Keyed(between, u) then Twins(x, y, t, u) else x == y
  {
    hide OnEvent, Apart, Named, Keyed, Twins;
    var start, end := Started(t, u, title), Notified(t, u, true);
    assert !IsToolKey(names(u));
    Parted(s, t, u, title, names);
    EventNamed(s, start, names);
    StreamApart(OnEvent(s, start), OnEvent(s, end), between, t, u, names);
    Rejoined(After(OnEvent(s, start), between), After(OnEvent(s, end), between), t, u, title, Keyed(between, u));
  }

  lemma {:induction false} AfterAppend(s: State, a: seq<Event>, b: seq<Event>)
    ensures After(s, a + b) == After(After(s, a), b)
  {
    if b == [] {
      assert a + b == a;
    } else {
      AfterAppend(s, a, b[..|b| - 1]);
      assert (a + b)[..|a + b| - 1] == a + b[..|b| - 1];
      hide OnEvent;
    }
  }

  lemma {:induction false} Around(before: seq<Event>, x: Event, between: seq<Event>, y: Event, after: seq<Event>)
    ensures After(EMPTY, before + [x] + between + [y] + after)
            == After(OnEvent(After(OnEvent(After(EMPTY, before), x), between), y), after)
  {
    hide OnEvent;
    AfterAppend(EMPTY, before + [x] + between + [y], after);
    AfterAppend(EMPTY, before + [x] + between, [y]);
    AfterAppend(EMPTY, before + [x], between);
    AfterAppend(EMPTY, before, [x]);
    One(After(EMPTY, before), x);
    One(After(EMPTY, before + [x] + between), y);
  }

  lemma {:induction false} One(s: State, ev: Event)
    ensures After(s, [ev]) == OnEvent(s, ev)
  {
    assert [ev][..0] == [];
    hide OnEvent;
  }
}

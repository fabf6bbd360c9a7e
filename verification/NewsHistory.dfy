/**
 Full sweeps and hot cycles interleaved: what the seen-sets and the event
 memory hold after any history of steps, and that an event is news once.
 (crates/bot-poll/src/lib.rs evaluate and evaluate_set,
 crates/bot-poll/src/poller.rs cycle and signoffs)
 */
module NewsHistory {
  import opened Options
  import opened News
  import opened OperatorEvents
  import opened Ageing

  datatype Mem = Mem(seen: Seen, reported: Reported)

  datatype Step =
    | Sweep(outputs: Outputs, now: int)       // evaluate: a sweep's run, or a hot cycle's bot-notify
    | Health(items: seq<Item>, now: int)      // evaluate_set of the sweep health
    | Poll(evs: seq<OpEvent>, now: int)       // a hot cycle's poll of one item
    | Signoff(line: string, now: int)         // a result line of bot-signoff-due

  /** Not news: the memory holds the event's id or, for a comment made with a review, the review's. */
  predicate WasReported(ev: OpEvent, reported: Reported) {
    ev.id in reported
    || (ev.act.ActReviewComment? && ev.act.review.Some? && EventId.Review(ev.act.review.value) in reported)
  }

  function NewEvents(evs: seq<OpEvent>, reported: Reported): seq<OpEvent> {
    if evs == [] then []
    else
      var rest := NewEvents(evs[..|evs| - 1], reported);
      if WasReported(evs[|evs| - 1], reported) then rest else rest + [evs[|evs| - 1]]
  }

  function MarkIds(reported: Reported, ids: seq<EventId>, now: int): Reported {
    if ids == [] then reported else MarkIds(reported, ids[..|ids| - 1], now)[ids[|ids| - 1] := now]
  }

  /** REPORTED with the events' own ids and their inline comments'. */
  function MarkEvents(reported: Reported, evs: seq<OpEvent>, now: int): Reported {
    if evs == [] then reported
    else
      var e := evs[|evs| - 1];
      MarkIds(MarkEvents(reported, evs[..|evs| - 1], now)[e.id := now], e.also, now)
  }

  const SIGNOFF := "signoff"

  ghost function After(m: Mem, st: Step): Mem {
    match st
    case Sweep(outputs, now) => Mem(AllSeen(outputs, m.seen, now), ReportedAfter(outputs, m.reported, now))
    case Health(items, now) => Mem(m.seen[SweepSet := SetAfter(items, Prev(m.seen, SweepSet), now)], m.reported)
    case Poll(evs, now) => Mem(m.seen, MarkEvents(m.reported, NewEvents(evs, m.reported), now))
    case Signoff(line, now) => Mem(m.seen, m.reported[Line(SIGNOFF, line) := now])
  }

  ghost function StateAfter(h: seq<Step>): Mem {
    if h == [] then Mem(map[], map[]) else After(StateAfter(h[..|h| - 1]), h[|h| - 1])
  }

  ghost function RunFrom(m: Mem, h: seq<Step>): Mem {
    if h == [] then m else After(RunFrom(m, h[..|h| - 1]), h[|h| - 1])
  }

  lemma {:induction false} RunSplit(a: seq<Step>, b: seq<Step>)
    ensures StateAfter(a + b) == RunFrom(StateAfter(a), b)
  {
    hide After;
    if b == [] {
      assert a + b == a;
    } else {
      RunSplit(a, b[..|b| - 1]);
      assert (a + b)[..|a + b| - 1] == a + b[..|b| - 1];
    }
  }

  /** The step lists or reports the event. */
  ghost predicate Touches(m: Mem, st: Step, e: EventId) {
    match st
    case Sweep(outputs, now) => exists s :: Names(outputs, s, e)
    case Health(items, now) => false
    case Poll(evs, now) => exists i :: 0 <= i < |evs| && !WasReported(evs[i], m.reported)
                                       && (evs[i].id == e || e in evs[i].also)
    case Signoff(line, now) => e == Line(SIGNOFF, line)
  }

  /** The event is news in the step. */
  ghost predicate IsNewsIn(m: Mem, st: Step, e: EventId) {
    match st
    case Sweep(outputs, now) =>
      exists s, i :: Listed(outputs, s).Some? && 0 <= i < |Listed(outputs, s).value|
        && IsNews(Listed(outputs, s).value, i, Prev(m.seen, s), m.reported)
        && Listed(outputs, s).value[i].event == Some(e)
    case Health(items, now) => false
    case Poll(evs, now) => exists i :: 0 <= i < |evs| && !WasReported(evs[i], m.reported) && evs[i].id == e
    case Signoff(line, now) => e == Line(SIGNOFF, line) && e !in m.reported
  }

  // --- One step ------------------------------------------------------------

  lemma {:induction false} MarkIdsHas(reported: Reported, ids: seq<EventId>, now: int, e: EventId)
    ensures var m := MarkIds(reported, ids, now);
            && (e in m <==> e in ids || e in reported)
            && (e in m ==> m[e] == if e in ids then now else reported[e])
  {
    if ids != [] {
      var n := |ids| - 1;
      MarkIdsHas(reported, ids[..n], now, e);
      assert ids == ids[..n] + [ids[n]];
    }
  }

  ghost predicate Reporting(evs: seq<OpEvent>, e: EventId) {
    exists i :: 0 <= i < |evs| && (evs[i].id == e || e in evs[i].also)
  }

  lemma {:induction false} MarkEventsHas(reported: Reported, evs: seq<OpEvent>, now: int, e: EventId)
    ensures var m := MarkEvents(reported, evs, now);
            && (e in m <==> Reporting(evs, e) || e in reported)
            && (e in m ==> m[e] == if Reporting(evs, e) then now else reported[e])
  {
    if evs != [] {
      var n := |evs| - 1;
      MarkEventsHas(reported, evs[..n], now, e);
      MarkIdsHas(MarkEvents(reported, evs[..n], now)[evs[n].id := now], evs[n].also, now, e);
      ReportingLast(evs, e);
    }
  }

  lemma ReportingLast(evs: seq<OpEvent>, e: EventId)
    requires evs != []
    ensures var n := |evs| - 1; Reporting(evs, e) <==> Reporting(evs[..n], e) || evs[n].id == e || e in evs[n].also
  {
    var n := |evs| - 1;
    if Reporting(evs[..n], e) {
      var i :| 0 <= i < n && (evs[..n][i].id == e || e in evs[..n][i].also);
      assert evs[i].id == e || e in evs[i].also;
    }
    if Reporting(evs, e) && !(evs[n].id == e || e in evs[n].also) {
      var i :| 0 <= i < |evs| && (evs[i].id == e || e in evs[i].also);
      assert evs[..n][i].id == e || e in evs[..n][i].also;
    }
  }

  lemma {:induction false} NewEventsHas(evs: seq<OpEvent>, reported: Reported, e: EventId)
    ensures Reporting(NewEvents(evs, reported), e) <==>
            exists i :: 0 <= i < |evs| && !WasReported(evs[i], reported) && (evs[i].id == e || e in evs[i].also)
  {
    if evs != [] {
      var n := |evs| - 1;
      NewEventsHas(evs[..n], reported, e);
      var rest := NewEvents(evs[..n], reported);
      if !WasReported(evs[n], reported) {
        ReportingLast(rest + [evs[n]], e);
        assert (rest + [evs[n]])[..|rest|] == rest;
      }
      if i :| 0 <= i < n && !WasReported(evs[..n][i], reported) && (evs[..n][i].id == e || e in evs[..n][i].also) {
        assert evs[i] == evs[..n][i];
      }
      if i :| 0 <= i < |evs| && !WasReported(evs[i], reported) && (evs[i].id == e || e in evs[i].also) {
        assert i < n ==> evs[..n][i] == evs[i];
      }
    }
  }

  /** The event memory after one step: what it touches, and what it doesn't drop. */
  lemma ReportedStep(m: Mem, st: Step, e: EventId)
    ensures var r := After(m, st).reported;
            && (e in r <==> Touches(m, st, e) || (e in m.reported
                                                  && !(st.Sweep? && st.now - m.reported[e] >= REPORTED_KEEP_MS)))
            && (e in r ==> r[e] == if Touches(m, st, e) then st.now else m.reported[e])
  {
    match st
    case Sweep(outputs, now) => ReportedAfterHas(outputs, m.reported, now, e);
    case Health(items, now) =>
    case Poll(evs, now) =>
      MarkEventsHas(m.reported, NewEvents(evs, m.reported), now, e);
      NewEventsHas(evs, m.reported, e);
    case Signoff(line, now) =>
  }

  /** What is news is touched, and wasn't in the memory. */
  lemma NewsWasUnknown(m: Mem, st: Step, e: EventId)
    requires IsNewsIn(m, st, e)
    ensures Touches(m, st, e) && e !in m.reported
  {
    match st
    case Sweep(outputs, now) =>
      var s, i :| Listed(outputs, s).Some? && 0 <= i < |Listed(outputs, s).value|
        && IsNews(Listed(outputs, s).value, i, Prev(m.seen, s), m.reported)
        && Listed(outputs, s).value[i].event == Some(e);
      assert Names(outputs, s, e);
    case _ =>
  }

  // --- Any history ------------------------------------------------------------

  /** A history, as the event memory sees one event. */
  ghost function EventTicks(h: seq<Step>, e: EventId): (ts: seq<Tick>)
    ensures |ts| == |h|
  {
    if h == [] then []
    else
      var n := |h| - 1;
      EventTicks(h[..n], e) + [Tick(Touches(StateAfter(h[..n]), h[n], e), h[n].Sweep?, h[n].now)]
  }

  function Lookup<K, V>(m: map<K, V>, k: K): Option<V> {
    if k in m then Some(m[k]) else None
  }

  lemma {:induction false} EventTickAt(h: seq<Step>, e: EventId, i: nat)
    requires i < |h|
    ensures EventTicks(h, e)[i] == Tick(Touches(StateAfter(h[..i]), h[i], e), h[i].Sweep?, h[i].now)
    ensures EventTicks(h, e)[..i] == EventTicks(h[..i], e)
  {
    var n := |h| - 1;
    if i < n {
      EventTickAt(h[..n], e, i);
      assert h[..n][..i] == h[..i];
    }
  }

  /** The event memory over any history is that of its touches and ageing. */
  lemma {:induction false} EventRecall(h: seq<Step>, e: EventId)
    ensures Lookup(StateAfter(h).reported, e) == Recall(EventTicks(h, e), REPORTED_KEEP_MS)
  {
    if h != [] {
      var n := |h| - 1;
      EventRecall(h[..n], e);
      ReportedStep(StateAfter(h[..n]), h[n], e);
      assert EventTicks(h, e)[..n] == EventTicks(h[..n], e);
      hide After, Touches;
    }
  }

  /**
   An event is in the memory exactly when some step listed or reported it
   last and no later sweep came REPORTED_KEEP_MS or more after that; the
   memory holds that step's time.
   */
  lemma {:induction false} ReportedOverHistory(h: seq<Step>, e: EventId)
    ensures e in StateAfter(h).reported <==> exists i: nat :: HeldFrom(EventTicks(h, e), REPORTED_KEEP_MS, i)
    ensures forall i: nat :: HeldFrom(EventTicks(h, e), REPORTED_KEEP_MS, i) ==>
              Lookup(StateAfter(h).reported, e) == Some(h[i].now)
  {
    EventRecall(h, e);
    RecallIffHeld(EventTicks(h, e), REPORTED_KEEP_MS);
    forall i: nat | HeldFrom(EventTicks(h, e), REPORTED_KEEP_MS, i)
      ensures Lookup(StateAfter(h).reported, e) == Some(h[i].now)
    {
      EventTickAt(h, e, i);
    }
  }

  /**
   News once: an event that step i listed or reported is news in a later
   step j only if, in between, a sweep came REPORTED_KEEP_MS or more after
   the event's last listing and dropped it.
   */
  lemma NewsOnce(h: seq<Step>, i: nat, j: nat, e: EventId)
    requires i < j < |h|
    requires Touches(StateAfter(h[..i]), h[i], e)
    requires IsNewsIn(StateAfter(h[..j]), h[j], e)
    ensures exists l, k :: i <= l < k < j && h[k].Sweep? && h[k].now - h[l].now >= REPORTED_KEEP_MS
                           && Touches(StateAfter(h[..l]), h[l], e) && !Touches(StateAfter(h[..k]), h[k], e)
  {
    NewsWasUnknown(StateAfter(h[..j]), h[j], e);
    var ts := EventTicks(h, e);
    EventTickAt(h, e, i);
    EventTickAt(h, e, j);
    EventRecall(h[..j], e);
    Dropped(ts, REPORTED_KEEP_MS, i, j);
    var l, k :| i <= l < k < j && ts[l].touch && !ts[k].touch && ts[k].check
    && ts[k].now - ts[l].now >= REPORTED_KEEP_MS;
    EventTickAt(h, e, l);
    EventTickAt(h, e, k);
  }

  // --- The seen-sets -------------------------------------------------------------

  /** What the step lists of a set, if it lists that in full. */
  ghost function ListedBy(st: Step, s: SetName): Option<seq<Item>> {
    match st
    case Sweep(outputs, now) => Listed(outputs, s)
    case Health(items, now) => if s == SweepSet then Some(items) else None
    case _ => None
  }

  ghost predicate ListsKey(st: Step, s: SetName, k: string) {
    ListedBy(st, s).Some? && exists i :: 0 <= i < |ListedBy(st, s).value| && ListedBy(st, s).value[i].key == k
  }

  lemma SeenStep(m: Mem, st: Step, s: SetName, k: string)
    ensures Lookup(Prev(After(m, st).seen, s), k) ==
            Next(Lookup(Prev(m.seen, s), k), Tick(ListsKey(st, s, k), ListedBy(st, s).Some?, st.now), FORGET_MS)
  {
    if ListedBy(st, s).Some? {
      SetAfterHas(ListedBy(st, s).value, Prev(m.seen, s), st.now, k);
      NoSweepListing(st, s);
    }
    hide SetAfter;
  }

  lemma NoSweepListing(st: Step, s: SetName)
    ensures st.Sweep? && ListedBy(st, s).Some? ==> SourceOf(s).Some?
  {
  }

  /** A history, as one key of a set sees it. */
  ghost function KeyTicks(h: seq<Step>, s: SetName, k: string): seq<Tick> {
    seq(|h|, i requires 0 <= i < |h| => Tick(ListsKey(h[i], s, k), ListedBy(h[i], s).Some?, h[i].now))
  }

  lemma {:induction false} KeyRecall(h: seq<Step>, s: SetName, k: string)
    ensures Lookup(Prev(StateAfter(h).seen, s), k) == Recall(KeyTicks(h, s, k), FORGET_MS)
  {
    if h != [] {
      var n := |h| - 1;
      KeyRecall(h[..n], s, k);
      SeenStep(StateAfter(h[..n]), h[n], s, k);
      assert KeyTicks(h, s, k)[..n] == KeyTicks(h[..n], s, k);
      hide After, ListsKey, ListedBy;
    }
  }

  /**
   A key is in a seen-set exactly when some step listed it in full last and
   no later full listing of the set came FORGET_MS or more after that; the
   set holds that listing's time.
   */
  lemma {:induction false} SeenOverHistory(h: seq<Step>, s: SetName, k: string)
    ensures k in Prev(StateAfter(h).seen, s) <==> exists i: nat :: HeldFrom(KeyTicks(h, s, k), FORGET_MS, i)
    ensures forall i: nat :: HeldFrom(KeyTicks(h, s, k), FORGET_MS, i) ==>
              Lookup(Prev(StateAfter(h).seen, s), k) == Some(h[i].now)
  {
    KeyRecall(h, s, k);
    RecallIffHeld(KeyTicks(h, s, k), FORGET_MS);
  }

  // --- What the polls and the sign-offs of a run of steps report -------------------

  ghost function PollNews(m: Mem, h: seq<Step>): seq<OpEvent> {
    if h == [] then []
    else
      var n := |h| - 1;
      PollNews(m, h[..n]) + match h[n]
                            case Poll(evs, now) => NewEvents(evs, RunFrom(m, h[..n]).reported)
                            case _ => []
  }

  ghost function LineNews(m: Mem, h: seq<Step>): seq<string> {
    if h == [] then []
    else
      var n := |h| - 1;
      LineNews(m, h[..n]) + match h[n]
                            case Signoff(line, now) =>
                              if Line(SIGNOFF, line) in RunFrom(m, h[..n]).reported then [] else [line]
                            case _ => []
  }

  /** The news of one kind of one step's listings. */
  ghost function OwnNews(m: Mem, st: Step, kind: Kind): seq<NewsItem> {
    match st
    case Sweep(outputs, now) => RunNews(outputs, m.seen, m.reported, kind)
    case Health(items, now) =>
      if kind == Plain(SweepSet) then NewsUpTo(SweepSet, kind, items, |items|, Prev(m.seen, SweepSet), map[]) else []
    case _ => []
  }

  ghost function SetNews(m: Mem, h: seq<Step>, kind: Kind): seq<NewsItem> {
    if h == [] then []
    else SetNews(m, h[..|h| - 1], kind) + OwnNews(RunFrom(m, h[..|h| - 1]), h[|h| - 1], kind)
  }

  /** After a poll, every event it found counts as reported: it was, or it just became news. */
  lemma PollReportsAll(m: Mem, evs: seq<OpEvent>, now: int, i: nat)
    requires i < |evs|
    ensures WasReported(evs[i], After(m, Poll(evs, now)).reported)
  {
    ReportedStep(m, Poll(evs, now), evs[i].id);
    if WasReported(evs[i], m.reported) && evs[i].id !in m.reported {
      ReportedStep(m, Poll(evs, now), EventId.Review(evs[i].act.review.value));
    }
  }

  lemma {:induction false} Appended(m: Mem, h: seq<Step>, st: Step)
    ensures RunFrom(m, h + [st]) == After(RunFrom(m, h), st)
    ensures PollNews(m, h + [st]) == PollNews(m, h)
              + (if st.Poll? then NewEvents(st.evs, RunFrom(m, h).reported) else [])
    ensures LineNews(m, h + [st]) ==
            LineNews(m, h) + if st.Signoff? && Line(SIGNOFF, st.line) !in RunFrom(m, h).reported then [st.line] else []
    ensures forall kind :: SetNews(m, h + [st], kind) == SetNews(m, h, kind) + OwnNews(RunFrom(m, h), st, kind)
  {
    assert (h + [st])[..|h|] == h;
    hide After, OwnNews;
  }

  lemma {:induction false} MoreSteps(m: Mem, a: seq<Step>, b: seq<Step>)
    ensures RunFrom(m, a + b) == RunFrom(RunFrom(m, a), b)
    ensures PollNews(m, a + b) == PollNews(m, a) + PollNews(RunFrom(m, a), b)
    ensures LineNews(m, a + b) == LineNews(m, a) + LineNews(RunFrom(m, a), b)
    ensures forall kind :: SetNews(m, a + b, kind) == SetNews(m, a, kind) + SetNews(RunFrom(m, a), b, kind)
  {
    if b == [] {
      assert a + b == a;
    } else {
      MoreSteps(m, a, b[..|b| - 1]);
      OneMore(m, a, b);
    }
  }

  lemma OneMore(m: Mem, a: seq<Step>, b: seq<Step>)
    requires b != []
    requires var c := b[..|b| - 1];
             && RunFrom(m, a + c) == RunFrom(RunFrom(m, a), c)
             && PollNews(m, a + c) == PollNews(m, a) + PollNews(RunFrom(m, a), c)
             && LineNews(m, a + c) == LineNews(m, a) + LineNews(RunFrom(m, a), c)
             && forall kind :: SetNews(m, a + c, kind) == SetNews(m, a, kind) + SetNews(RunFrom(m, a), c, kind)
    ensures RunFrom(m, a + b) == RunFrom(RunFrom(m, a), b)
    ensures PollNews(m, a + b) == PollNews(m, a) + PollNews(RunFrom(m, a), b)
    ensures LineNews(m, a + b) == LineNews(m, a) + LineNews(RunFrom(m, a), b)
    ensures forall kind :: SetNews(m, a + b, kind) == SetNews(m, a, kind) + SetNews(RunFrom(m, a), b, kind)
  {
    hide *;
    var n := |b| - 1;
    assert b == b[..n] + [b[n]] && a + b == (a + b[..n]) + [b[n]];
    Appended(m, a + b[..n], b[n]);
    Appended(RunFrom(m, a), b[..n], b[n]);
  }

  // --- A comment of a reported review ------------------------------------------------------

  lemma {:induction false} AllNew(evs: seq<OpEvent>, reported: Reported, ev: OpEvent)
    ensures ev in NewEvents(evs, reported) <==> ev in evs && !WasReported(ev, reported)
  {
    if evs != [] {
      var n := |evs| - 1;
      AllNew(evs[..n], reported, ev);
      assert evs == evs[..n] + [evs[n]];
    }
  }

  /**
   An inline comment is no news, as an event or under one, if its review is
   in the memory and not among the qualifying ones: as when the reviews did
   not change since that review was told.
   */
  lemma {:induction false} ToldWithReview(reviews: seq<Entry>, inlined: seq<Entry>, comments: seq<Entry>, cursor: int,
                                          reported: Reported, c: Entry, ev: OpEvent)
    requires Counts(inlined, c, cursor) && c.review.Some? && EventId.Review(c.review.value) in reported
    requires !HasReview(reviews, c, cursor)
    requires forall e :: e in reviews || e in comments ==> e.event != c.event
    requires forall e :: e in inlined && e.event == c.event ==> e == c
    requires ev in NewEvents(Reference(reviews, inlined, comments, cursor), reported)
    ensures ev.id != c.event && c.event !in ev.also
  {
    AllNew(Reference(reviews, inlined, comments, cursor), reported, ev);
    EventsAreEntries(reviews, inlined, comments, cursor, ev);
    hide Reference, NewEvents;
  }
}

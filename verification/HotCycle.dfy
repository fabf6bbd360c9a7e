/**
 The hot cycle between full sweeps (crates/bot-poll/src/poller.rs and the
 HotState of crates/bot-poll/src/hot.rs): conditional polls of the flagged
 items, on a copy of the state that is kept only if the whole cycle worked
 (crates/bot-poll/src/main.rs, hot_cycle).
 */
module HotCycle {
  import opened Options
  import opened News
  import opened OperatorEvents
  import opened NewsHistory
  import P = Paging

  const RECENT_MS: int := 3 * 3600 * 1000
  const VALIDATOR_KEEP_MS: int := 24 * 3600 * 1000

  type Key = P.Key
  type Etags = map<P.Path, P.Validator>
  type Pages = set<(P.Path, P.Body)>
  datatype HotItem = HotItem(pr: bool, recent: bool, title: string, active: Option<int>)

  /** An item a feed flags: OURS if it is, or is to become, hot; DIRTY if it is to be polled. */
  datatype Flag = Flag(key: Key, ours: bool, item: HotItem, active: Option<int>, dirty: bool)

  // --- What polling promises -----------------------------------------------------

  function Flat(bodies: seq<P.Body>): seq<Entry> {
    if bodies == [] then [] else Flat(bodies[..|bodies| - 1]) + bodies[|bodies| - 1]
  }

  function IdSet(evs: seq<OpEvent>): set<EventId> {
    if evs == [] then {}
    else
      var e := evs[|evs| - 1];
      IdSet(evs[..|evs| - 1]) + {e.id} + (set x | x in e.also)
  }

  /** A body's qualifying entries are all told. */
  ghost predicate Told(body: P.Body, cursor: int, told: set<EventId>) {
    forall i :: 0 <= i < |body| && Qualifies(body[i], cursor) ==> body[i].event in told
  }

  ghost predicate AllTold(pages: Pages, cursor: int, told: set<EventId>) {
    forall pb :: pb in pages ==> Told(pb.1, cursor, told)
  }

  /** Every validator names a page that was processed. */
  ghost predicate Named(etags: Etags, processed: Pages) {
    forall p :: p in etags ==> (p, etags[p].etag.body) in processed
  }

  /** The bodies of a listing's first pages, as pages. */
  ghost function PagesOf(key: Key, l: P.Listing, bodies: seq<P.Body>): Pages {
    set q | 1 <= q <= |bodies| :: (P.Path(key, l, q), bodies[q - 1])
  }

  // --- Lemmas ------------------------------------------------------------------------

  lemma {:induction false} TimesOf(ids: seq<EventId>, id: EventId)
    ensures Times(ids, id) > 0 <==> id in ids
  {
    if ids != [] {
      TimesOf(ids[..|ids| - 1], id);
      assert ids == ids[..|ids| - 1] + [ids[|ids| - 1]];
    }
  }

  lemma {:induction false} ReportsInIdSet(evs: seq<OpEvent>, id: EventId)
    ensures Reports(evs, id) > 0 <==> id in IdSet(evs)
  {
    if evs != [] {
      ReportsInIdSet(evs[..|evs| - 1], id);
      TimesOf(evs[|evs| - 1].also, id);
    }
  }

  lemma {:induction false} QualifyingEvent(es: seq<Entry>, cursor: int, e: Entry)
    requires e in es && Qualifies(e, cursor)
    ensures Times(Events(Qualifying(es, cursor)), e.event) > 0
  {
    var n := |es| - 1;
    var rest := Qualifying(es[..n], cursor);
    if es[n] == e {
      assert (rest + [e])[..|rest|] == rest;
      TimesAppend(Events(rest), e.event, e.event);
    } else {
      assert es == es[..n] + [es[n]];
      QualifyingEvent(es[..n], cursor, e);
      if Qualifies(es[n], cursor) {
        assert (rest + [es[n]])[..|rest|] == rest;
        TimesAppend(Events(rest), es[n].event, e.event);
      }
    }
  }

  lemma {:induction false} InFlat(bodies: seq<P.Body>, b: P.Body, e: Entry)
    requires b in bodies && e in b
    ensures e in Flat(bodies)
  {
    var n := |bodies| - 1;
    if bodies[n] != b {
      assert bodies == bodies[..n] + [bodies[n]];
      InFlat(bodies[..n], b, e);
    }
  }

  /** Every qualifying entry of a changed page is among the events found. */
  lemma {:induction false} FoundAll(r: seq<P.Body>, i: seq<P.Body>, c: seq<P.Body>, cursor: int, b: P.Body)
    requires b in r || b in i || b in c
    ensures Told(b, cursor, IdSet(Reference(Flat(r), Flat(i), Flat(c), cursor)))
  {
    forall k | 0 <= k < |b| && Qualifies(b[k], cursor)
      ensures b[k].event in IdSet(Reference(Flat(r), Flat(i), Flat(c), cursor))
    {
      var e := b[k];
      EachIdOnce(Flat(r), Flat(i), Flat(c), cursor, e.event);
      ReportsInIdSet(Reference(Flat(r), Flat(i), Flat(c), cursor), e.event);
      if b in r {
        InFlat(r, b, e);
        QualifyingEvent(Flat(r), cursor, e);
      } else if b in i {
        InFlat(i, b, e);
        QualifyingEvent(Flat(i), cursor, e);
      } else {
        InFlat(c, b, e);
        QualifyingEvent(Flat(c), cursor, e);
      }
    }
  }

  /** One listing's pages are told, changed or not. */
  lemma {:induction false} ListingTold(server: P.Server, etags: Etags, key: Key, l: P.Listing, bodies: seq<P.Body>,
                                       processed: Pages, cursor: int, told: set<EventId>, told': set<EventId>)
    requires P.Has(server, key, l, bodies) && Named(etags, processed)
    requires AllTold(processed, cursor, told) && told <= told'
    requires forall b :: b in P.Changed(server, etags, key, l, bodies) ==> Told(b, cursor, told')
    ensures AllTold(PagesOf(key, l, bodies), cursor, told')
  {
    P.ChangedRefines(server, etags, key, l, bodies);
    forall n | 0 <= n < |bodies| ensures Told(bodies[n], cursor, told') {
      var q := n + 1;
      assert bodies[q - 1] == bodies[n];
      if bodies[n] !in P.Changed(server, etags, key, l, bodies) {
        assert (P.Path(key, l, q), bodies[n]) in processed;
      }
    }
  }

  lemma Committed(etags: Etags, validators: Etags, key: Key, l: P.Listing, bodies: seq<P.Body>, processed: Pages)
    requires P.TellFull(etags) && Named(etags, processed)
    requires P.ValidatorsOf(validators, key, l, bodies)
    ensures P.TellFull(etags + validators)
    ensures Named(etags + validators, processed + PagesOf(key, l, bodies))
  {
    forall p | p in validators ensures (p, validators[p].etag.body) in PagesOf(key, l, bodies) {
      assert p == P.Path(key, l, p.page);
    }
  }

  // --- Turns ----------------------------------------------------------------------------

  /**
   What a working cycle or a rebuild left waiting and hot; what it polled, of
   what flags, on what server and from what cursor.
   */
  datatype Turn = Turn(waiting: set<Key>, hot: set<Key>, polled: set<Key>, flags: seq<Flag>, server: P.Server,
                       cursor: int)

  /** A turn that polls nothing. */
  ghost function Quiet(waiting: set<Key>, hot: set<Key>): Turn {
    Turn(waiting, hot, {}, [], (p: P.Path) => P.Failed, 0)
  }

  /** What waited, or was flagged, was polled, waits on, or is not hot. */
  ghost predicate Follows(a: Turn, b: Turn) {
    Awaits(a.waiting, a.hot, b.flags, b.waiting, b.polled, b.hot, false)
  }

  /** What was polled then was wholly read, and is processed. */
  ghost predicate ReadBy(t: Turn, processed: Pages) {
    forall k :: k in t.polled ==> exists pr :: WhollyRead(t.server, k, pr, t.cursor, processed)
  }

  ghost predicate TurnsOk(turns: seq<Turn>, waiting: set<Key>, hot: set<Key>, processed: Pages) {
    && turns != [] && turns[|turns| - 1].waiting == waiting && turns[|turns| - 1].hot == hot
    && (forall i :: 0 < i < |turns| ==> Follows(turns[i - 1], turns[i]))
    && forall t :: t in turns ==> ReadBy(t, processed)
  }

  lemma LeftHot(waiting: set<Key>, hot: set<Key>, hot': set<Key>)
    ensures Awaits(waiting, hot, [], set k | k in waiting && k in hot', {}, hot', false)
  {
  }

  lemma NextTurn(turns: seq<Turn>, waiting: set<Key>, hot: set<Key>, processed: Pages, t: Turn, processed': Pages)
    requires TurnsOk(turns, waiting, hot, processed) && processed <= processed'
    requires Awaits(waiting, hot, t.flags, t.waiting, t.polled, t.hot, false) && ReadBy(t, processed')
    ensures TurnsOk(turns + [t], t.waiting, t.hot, processed')
  {
    hide Awaits, WhollyRead;
    forall x | x in turns ensures ReadBy(x, processed') {
      StillRead(x, processed, processed');
    }
  }

  lemma StillRead(t: Turn, processed: Pages, processed': Pages)
    requires ReadBy(t, processed) && processed <= processed'
    ensures ReadBy(t, processed')
  {
    forall k | k in t.polled ensures exists pr :: WhollyRead(t.server, k, pr, t.cursor, processed') {
      var pr :| WhollyRead(t.server, k, pr, t.cursor, processed);
      StillWhole(t.server, k, pr, t.cursor, processed, processed');
    }
  }

  lemma StillWhole(server: P.Server, key: Key, pr: bool, cursor: int, processed: Pages, processed': Pages)
    requires WhollyRead(server, key, pr, cursor, processed) && processed <= processed'
    ensures WhollyRead(server, key, pr, cursor, processed')
  {
    hide P.Unconditional, Read;
  }

  /** A turn's polled items are read, by their kinds. */
  lemma TurnRead(server: P.Server, items: map<Key, HotItem>, polled: set<Key>, cursor: int, processed: Pages, t: Turn)
    requires AllRead(server, items, polled, cursor, processed) && t.polled == polled && t.server == server
             && t.cursor == cursor
    ensures ReadBy(t, processed)
  {
    hide WhollyRead;
  }

  // --- The state ----------------------------------------------------------------------

  /** A state's value. */
  datatype Image = Image(mem: Mem, items: map<Key, HotItem>, pending: set<Key>, cursor: Option<int>,
                         sweepStart: Option<int>, etags: Etags, pausedUntil: int, evaluated: Option<nat>,
                         processed: Pages, told: set<EventId>, toldFrom: int, turns: seq<Turn>, log: seq<Step>)

  /** The comment listings' validators are of the cursor's paths. */
  ghost predicate AtCursor(etags: Etags, cursor: Option<int>) {
    forall p :: p in etags ==> match p.listing
                               case Reviews => true
                               case ReviewComments(since) => cursor == Some(since)
                               case Comments(since) => cursor == Some(since)
  }

  /** Every validator names a processed page, and all processed pages are told from TOLDFROM. */
  ghost predicate PagesOk(m: Image) {
    && P.TellFull(m.etags) && Named(m.etags, m.processed) && AtCursor(m.etags, m.cursor)
    && (m.cursor.None? ==> m.processed == {} && m.sweepStart.None?)
    && (m.cursor.Some? ==> m.cursor.value <= m.toldFrom && AllTold(m.processed, m.toldFrom, m.told))
  }

  /** The memory is that of the steps that led to it, and told is what their polls found. */
  ghost predicate LogOk(mem: Mem, log: seq<Step>, told: set<EventId>) {
    mem == StateAfter(log) && told == FoundIds(log)
  }

  /** The pages and the turns are right. */
  ghost predicate Tracks(m: Image) {
    PagesOk(m) && TurnsOk(m.turns, m.pending, m.items.Keys, m.processed)
  }

  ghost predicate Sound(m: Image) {
    Tracks(m) && LogOk(m.mem, m.log, m.told)
  }

  /** The state after a sweep's start: its cursor is the start of the sweep before. */
  ghost function StartedAt(a: Image, now: int): Image {
    var c := a.sweepStart.GetOr(now);
    a.(cursor := Some(c), sweepStart := Some(now), toldFrom := if a.cursor.None? then c else Max(a.toldFrom, c),
       etags := map p | p in a.etags && p.listing.Reviews? :: a.etags[p])
  }

  /** After a sweep the hot set is rebuilt, or kept, and old validators are dropped. */
  ghost predicate Swept(a: Image, swept: Option<map<Key, HotItem>>, now: int, b: Image) {
    && b == a.(items := b.items, pending := b.pending, turns := b.turns,
               etags := map p | p in a.etags && now - a.etags[p].used < VALIDATOR_KEEP_MS :: a.etags[p])
    && if swept.None? then b.items == a.items && b.pending == a.pending && b.turns == a.turns
       else && b.pending == (set k | k in a.pending && k in b.items)
            && b.turns == a.turns + [Quiet(b.pending, b.items.Keys)]
            && b.items == Rebuilt(a.items, swept.value, now)
  }

  /**
   The hot items after a sweep: its own, with the operator's recent activity,
   and those that activity alone makes hot.
   */
  ghost function Rebuilt(items: map<Key, HotItem>, swept: map<Key, HotItem>, now: int): map<Key, HotItem> {
    map k | k in items.Keys + swept.Keys && (k in swept || (StillRecent(items[k], now) && items[k].recent)) ::
      if k !in swept then items[k]
      else if k in items && StillRecent(items[k], now) then swept[k].(active := items[k].active)
      else swept[k]
  }

  lemma RebuiltIs(items: map<Key, HotItem>, swept: map<Key, HotItem>, now: int)
    ensures Rebuilt(items, swept, now) ==
            swept + map k | k in items && StillRecent(items[k], now) && (k in swept || items[k].recent) ::
              if k in swept then swept[k].(active := items[k].active) else items[k]
  {
  }

  /** All of a state but the memory and what it was evaluated from. */
  ghost function HotPart(m: Image): Image {
    m.(mem := Mem(map[], map[]), evaluated := None, log := [])
  }

  class State {
    var seen: Seen
    var reported: Reported
    var items: map<Key, HotItem>
    /** Items flagged as changed but not polled yet. */
    var pending: set<Key>
    /** The operator's activity before this is the full sweeps' to report. */
    var cursor: Option<int>
    var sweepStart: Option<int>
    var etags: Etags
    var pausedUntil: int
    /** The newest run checked for news. */
    var evaluated: Option<nat>
    /** The pages processed by committed polls, and the ids they found. */
    ghost var processed: Pages
    ghost var told: set<EventId>
    /** The latest the cursor has been: activity on those pages from then on is told. */
    ghost var toldFrom: int
    /** The working cycles and rebuilds that led here. */
    ghost var turns: seq<Turn>
    /** The steps that led to its memory. */
    ghost var log: seq<Step>

    ghost predicate Valid()
      reads this
    {
      && P.TellFull(etags) && Named(etags, processed) && AtCursor(etags, cursor)
      && (cursor.None? ==> processed == {} && sweepStart.None?)
      && (cursor.Some? ==> cursor.value <= toldFrom && AllTold(processed, toldFrom, told))
    }

    ghost function Now(): Image
      reads this
    {
      Image(Memory(), items, pending, cursor, sweepStart, etags, pausedUntil, evaluated, processed, told, toldFrom,
            turns, log)
    }

    ghost predicate Tracked()
      reads this
    {
      Tracks(Now())
    }

    ghost predicate Whole()
      reads this
    {
      Sound(Now())
    }

    ghost function Memory(): Mem
      reads this
    {
      Mem(seen, reported)
    }

    constructor ()
      ensures Whole() && Memory() == Mem(map[], map[]) && pending == {} && items == map[]
      ensures cursor.None? && sweepStart.None? && pausedUntil == 0 && told == {} && etags == map[] && log == []
    {
      seen, reported, items, pending, cursor, sweepStart := map[], map[], map[], {}, None, None;
      etags, pausedUntil, evaluated, processed, told, toldFrom, turns, log := map[], 0, None, {}, {}, 0,
          [Quiet({}, {})], [];
    }

    constructor Copy(s: State)
      requires s.Whole()
      ensures Whole() && Now() == s.Now()
    {
      seen, reported, items, pending, cursor := s.seen, s.reported, s.items, s.pending, s.cursor;
      sweepStart, etags, pausedUntil, evaluated := s.sweepStart, s.etags, s.pausedUntil, s.evaluated;
      processed, told, toldFrom, turns, log := s.processed, s.told, s.toldFrom, s.turns, s.log;
    }

    method Assign(s: State)
      requires s.Whole() && s != this
      modifies this
      ensures Whole() && Now() == s.Now()
    {
      hide Sound, PagesOk;
      AssignNews(s);
      AssignPages(s);
    }

    method AssignNews(s: State)
      modifies this`seen, this`reported, this`items, this`pending, this`evaluated, this`pausedUntil, this`turns,
               this`log
      ensures Memory() == old(s.Memory()) && items == old(s.items) && pending == old(s.pending) && turns == old(s.turns)
      ensures evaluated == old(s.evaluated) && pausedUntil == old(s.pausedUntil) && log == old(s.log)
    {
      seen, reported, items, pending, evaluated, pausedUntil := s.seen, s.reported, s.items, s.pending, s.evaluated,
          s.pausedUntil;
      turns, log := s.turns, s.log;
    }

    method AssignPages(s: State)
      modifies this`cursor, this`sweepStart, this`etags, this`processed, this`told, this`toldFrom
      ensures cursor == old(s.cursor) && sweepStart == old(s.sweepStart) && etags == old(s.etags)
      ensures processed == old(s.processed) && told == old(s.told) && toldFrom == old(s.toldFrom)
    {
      cursor, sweepStart, etags, processed, told, toldFrom := s.cursor, s.sweepStart, s.etags, s.processed, s.told,
          s.toldFrom;
    }

    /** Advances the cursor for a sweep that starts now: to the start of the one before. */
    method StartSweep(now: int)
      requires Tracked()
      modifies this
      ensures Tracked() && log == old(log) && Memory() == old(Memory()) && items == old(items)
              && pending == old(pending) && turns == old(turns)
      ensures cursor == Some(old(sweepStart).GetOr(now)) && sweepStart == Some(now)
      ensures toldFrom == if old(cursor).None? then cursor.value else Max(old(toldFrom), cursor.value)
      ensures processed == old(processed) && told == old(told) && pausedUntil == old(pausedUntil)
              && evaluated == old(evaluated)
      ensures etags == map p | p in old(etags) && p.listing.Reviews? :: old(etags)[p]
    {
      hide TurnsOk, Told;
      var c := sweepStart.GetOr(now);
      if cursor.Some? {
        LaterCursor(processed, toldFrom, Max(toldFrom, c), told);
        toldFrom := Max(toldFrom, c);
      } else {
        toldFrom := c;
      }
      cursor := Some(c);
      sweepStart := Some(now);
      // The other paths hold the old cursor: never requested again.
      etags := map p | p in etags && p.listing.Reviews? :: etags[p];
    }

    /** Replaces the items with a sweep's, keeping the operator's recent activity and the items it alone makes hot. */
    method Rebuild(swept: map<Key, HotItem>, now: int)
      requires Tracked()
      modifies this
      ensures Tracked() && log == old(log) && Memory() == old(Memory()) && cursor == old(cursor) && etags == old(etags)
      ensures sweepStart == old(sweepStart) && toldFrom == old(toldFrom)
              && turns == old(turns) + [Quiet(pending, items.Keys)]
      ensures processed == old(processed) && told == old(told) && pausedUntil == old(pausedUntil)
              && evaluated == old(evaluated)
      ensures pending == set k | k in old(pending) && k in items
      ensures items == Rebuilt(old(items), swept, now)
    {
      hide P.TellFull, Named, AllTold, AtCursor, TurnsOk, Awaits, Rebuilt;
      var was := items;
      RebuiltIs(was, swept, now);
      items := swept + map k | k in was && StillRecent(was[k], now) && (k in swept || was[k].recent) ::
                 if k in swept then swept[k].(active := was[k].active) else was[k];
      pending := set k | k in pending && k in items;
      LeftHot(old(pending), was.Keys, items.Keys);
      NextTurn(turns, old(pending), was.Keys, processed, Quiet(pending, items.Keys), processed);
      turns := turns + [Quiet(pending, items.Keys)];
    }

    /** After a sweep: the hot set rebuilt, or kept if its items can't be listed. */
    method AfterSweep(swept: Option<map<Key, HotItem>>, now: int)
      requires Tracked()
      modifies this
      ensures Tracked() && log == old(log) && Memory() == old(Memory()) && cursor == old(cursor)
              && sweepStart == old(sweepStart) && toldFrom == old(toldFrom)
      ensures processed == old(processed) && told == old(told) && pausedUntil == old(pausedUntil)
              && evaluated == old(evaluated)
      ensures swept.None? ==> items == old(items) && pending == old(pending) && turns == old(turns)
      ensures swept.Some? ==> && pending == (set k | k in old(pending) && k in items)
                              && turns == old(turns) + [Quiet(pending, items.Keys)]
                              && items == Rebuilt(old(items), swept.value, now)
      ensures etags == map p | p in old(etags) && now - old(etags)[p].used < VALIDATOR_KEEP_MS :: old(etags)[p]
    {
      if swept.Some? {
        Rebuild(swept.value, now);
      }
      Record(now);
    }

    /** Drops the validators not used for a day. */
    method Record(at: int)
      requires Valid()
      modifies this`etags
      ensures Valid() && (old(Tracked()) ==> Tracked())
      ensures etags == map p | p in old(etags) && at - old(etags)[p].used < VALIDATOR_KEEP_MS :: old(etags)[p]
    {
      hide TurnsOk, Told;
      etags := map p | p in etags && at - etags[p].used < VALIDATOR_KEEP_MS :: etags[p];
    }

    /** The steps that led to the memory it has, from M on. */
    ghost method Notes(m: Mem, steps: seq<Step>)
      requires Tracked() && LogOk(m, log, told) && Memory() == RunFrom(m, steps) && FoundIds(steps) == {}
      modifies this`log
      ensures Whole() && log == old(log) + steps
    {
      hide P.TellFull, Named, AllTold, AtCursor, TurnsOk, RunFrom, FoundIds, LogOk;
      MoreLog(m, log, told, steps);
      assert told + {} == told;
      log := log + steps;
    }

    /** A feed's flags: what becomes or stays hot, and what is to be polled. */
    method TakeFlags(flags: seq<Flag>) returns (dirty: set<Key>)
      requires Valid()
      modifies this`items
      ensures Valid() && items == Touched(old(items), flags) && dirty <= items.Keys
      ensures old(items).Keys <= items.Keys && Kinds(old(items), flags, |flags|, items)
      ensures forall k :: k in dirty <==> IsDirty(old(items), flags, |flags|, k)
    {
      hide TookFlags;
      dirty := {};
      NoFlags(items, flags);
      for n := 0 to |flags|
        invariant Valid() && TookFlags(old(items), flags, n, items, dirty)
      {
        var f := flags[n];
        ghost var was, dirty0 := items, dirty;
        if f.key in items || f.ours {
          var it := if f.key in items then items[f.key] else f.item;
          if f.active.Some? {
            it := it.(active := Some(if it.active.Some? then Max(it.active.value, f.active.value) else f.active.value));
            if it.title == "" {
              it := it.(title := f.item.title);
            }
          }
          items := items[f.key := it];
          if f.dirty {
            dirty := dirty + {f.key};
          }
        }
        NextFlag(old(items), flags, n, was, dirty0, items, dirty);
      }
      AllFlags(old(items), flags, items, dirty);
    }

    /**
     The operator's reviews and comments on an item since the cursor, read
     conditionally. A poll that fails commits no validator; one that works
     leaves every page an unconditional read gets processed and told.
     */
    method PollItem(gh: P.Gh, server: P.Server, key: Key, pr: bool, now: int)
      returns (evs: Option<seq<OpEvent>>, ghost r: seq<P.Body>, ghost i: seq<P.Body>, ghost c: seq<P.Body>)
      requires Valid() && cursor.Some?
      modifies this`etags, this`processed, this`told, gh
      ensures Valid()
      ensures evs.None? ==> P.SameButUsed(old(etags), etags) && processed == old(processed) && told == old(told)
      ensures evs.None? ==> P.UsedNow(old(etags), etags, now)
      ensures P.OthersKept(old(etags), etags, key) && OnlyTold(server, old(etags), {key}, cursor.value, old(told), told)
      ensures evs.Some? ==> Revalidated(server, key, pr, cursor.value, etags, now)
      ensures old(gh.limitedUntil).None? && Answering(server) ==> evs.Some? && gh.limitedUntil.None?
      ensures Limit(server, {key}, old(gh.limitedUntil), gh.limitedUntil) && (evs.Some? ==> gh.limitedUntil.None?)
      ensures evs.None? && gh.limitedUntil.None? ==> ItemFails(server, key, pr, cursor.value)
      ensures evs.Some? ==>
                && (if pr then P.Unconditional(server, key, P.Reviews, r) else r == [])
                && (if pr then P.Unconditional(server, key, P.ReviewComments(cursor.value), i) else i == [])
                && P.Unconditional(server, key, P.Comments(cursor.value), c)
                && processed == old(processed) + Read(key, cursor.value, r, i, c)
                && told == old(told) + IdSet(evs.value)
      ensures evs.Some? ==>
                evs.value == Reference(Flat(P.Changed(server, old(etags), key, P.Reviews, r)),
                                       Flat(P.Changed(server, old(etags), key, P.ReviewComments(cursor.value), i)),
                                       Flat(P.Changed(server, old(etags), key, P.Comments(cursor.value), c)),
                                           cursor.value)
    {
      hide Named, AllTold, P.TellFull, P.Changed, P.ValidatorsOf, Reference, IdSet, Read, P.Unconditional, P.Has,
           P.SameButUsed;
      hide AtCursor, P.Refreshed, P.OthersKept, P.UsedNow, OnlyTold, Revalidated, FailsPlainly;
      evs, r, i, c := None, [], [], [];
      NoPages(server, etags, key, cursor.value);
      ghost var was := etags;
      P.NothingUsed(was, key, now);
      NothingToldYet(server, etags, {key}, cursor.value, told);
      var fr, fi := P.Fetched([], map[]), P.Fetched([], map[]);
      ghost var e1, e2 := etags, etags;
      if pr {
        var f;
        f, r := ReadListing(gh, server, key, P.Reviews, was, now);
        if f.None? { return; }
        fr, e1 := f.value, etags;
        f, i := ReadListing(gh, server, key, P.ReviewComments(cursor.value), was, now);
        P.UsedTwice(was, e1, etags, now);
        P.OthersTwice(was, e1, etags, key);
        if f.None? { return; }
        fi, e2 := f.value, etags;
      }
      var fc;
      fc, c := ReadListing(gh, server, key, P.Comments(cursor.value), was, now);
      P.UsedTwice(was, e2, etags, now);
      P.OthersTwice(was, e2, etags, key);
      if fc.None? { return; }
      var found := Collect(Flat(fr.bodies), Flat(fi.bodies), Flat(fc.value.bodies), cursor.value);
      PollTold(server, was, key, cursor.value, toldFrom, r, i, c, processed, told, found);
      FoundOnly(server, was, key, cursor.value, r, i, c, found, told);
      CommitAll(etags, fr.validators, fi.validators, fc.value.validators, key, cursor.value, r, i, c, processed);
      ItemRevalidated(server, key, pr, cursor.value, e1, fr.validators, e2, fi.validators, etags, fc.value.validators,
                      r, i, c, now);
      CommitOthers(was, etags, fr.validators, fi.validators, fc.value.validators, key, cursor.value, r, i, c);
      etags := etags + fr.validators + fi.validators + fc.value.validators;
      processed := processed + Read(key, cursor.value, r, i, c);
      told := told + IdSet(found);
      evs := Some(found);
    }

    /** One listing of an item; WAS are the validators its poll started with. */
    method ReadListing(gh: P.Gh, server: P.Server, key: Key, l: P.Listing, ghost was: Etags, now: int)
      returns (f: Option<P.Fetched>, ghost bodies: seq<P.Body>)
      requires Valid() && P.SameButUsed(was, etags)
      modifies this`etags, gh
      ensures Valid() && P.SameButUsed(was, etags) && P.OthersKept(old(etags), etags, key)
              && P.UsedNow(old(etags), etags, now)
      ensures f.Some? ==> P.Refreshed(server, etags + f.value.validators, key, l, now)
      ensures old(gh.limitedUntil).None? && Answering(server) ==> f.Some? && gh.limitedUntil.None?
      ensures Limit(server, {key}, old(gh.limitedUntil), gh.limitedUntil) && (f.Some? ==> gh.limitedUntil.None?)
      ensures f.None? && gh.limitedUntil.None? ==> FailsPlainly(server, key, l)
      ensures f.Some? ==> P.Has(server, key, l, bodies) && P.Unconditional(server, key, l, bodies)
                          && f.value.bodies == P.Changed(server, was, key, l, bodies)
                          && P.ValidatorsOf(f.value.validators, key, l, bodies)
    {
      hide Named, AllTold, P.TellFull, P.Changed, P.ValidatorsOf, P.Has, P.AllFull, P.IsFull, P.Refreshed,
           P.OthersKept, P.UsedNow, AtCursor;
      ghost var before := etags;
      f, etags, bodies := gh.ChangedPages(server, key, l, etags, now);
      ChangedSame(server, was, before, key, l, bodies);
      SameNamed(before, etags, processed, cursor);
    }

    /** An item's new events: those not reported before, which now are. */
    method Report(evs: seq<OpEvent>, now: int) returns (news: seq<OpEvent>)
      requires Valid()
      modifies this`reported
      ensures Valid() && Memory() == After(old(Memory()), Poll(evs, now))
      ensures news == NewEvents(evs, old(reported))
    {
      news := NewEvents(evs, reported);
      reported := MarkEvents(reported, news, now);
    }

    /** Polls one target, and reports what is new of what it found; if the poll fails, the target is pending again. */
    method PollOne(gh: P.Gh, server: P.Server, key: Key, now: int)
      returns (news: seq<OpEvent>, ghost step: Option<Step>)
      requires Valid() && cursor.Some? && key in items
      modifies this`reported, this`pending, this`etags, this`processed, this`told, gh
      ensures Valid() && old(processed) <= processed && Within(news, told)
      ensures P.OthersKept(old(etags), etags, key) && OnlyTold(server, old(etags), {key}, cursor.value, old(told), told)
      ensures step.Some? ==> step.value.Poll? && pending == old(pending)
      ensures step.Some? ==> WhollyRead(server, key, items[key].pr, cursor.value, processed)
      ensures step.Some? ==> Revalidated(server, key, items[key].pr, cursor.value, etags, now)
      ensures step.Some? ==> PollStep(server, old(etags), key, items[key].pr, cursor.value, now, step.value)
      ensures step.Some? ==> told == old(told) + IdSet(step.value.evs)
      ensures step.Some? ==> Memory() == After(old(Memory()), step.value)
                             && news == NewEvents(step.value.evs, old(reported))
      ensures step.None? ==> Memory() == old(Memory()) && news == [] && pending == old(pending) + {key}
                             && told == old(told)
      ensures step.None? ==> P.SameButUsed(old(etags), etags) && P.UsedNow(old(etags), etags, now)
      ensures old(gh.limitedUntil).None? && Answering(server) ==> step.Some? && gh.limitedUntil.None?
      ensures Limit(server, {key}, old(gh.limitedUntil), gh.limitedUntil) && (step.Some? ==> gh.limitedUntil.None?)
      ensures step.None? && gh.limitedUntil.None? ==> ItemFails(server, key, items[key].pr, cursor.value)
    {
      hide P.TellFull, Named, AllTold, AtCursor, After, NewEvents, WhollyRead, Revalidated, OnlyTold, P.OthersKept,
           P.Unconditional;
      hide Reference, Read, IdSet, Within, ItemFails, Limit, P.Changed, Flat;
      NoneWithin(told);
      var evs, r, i, c := PollItem(gh, server, key, items[key].pr, now);
      if evs.None? {
        pending := pending + {key};
        return [], None;
      }
      ItemRead(server, key, items[key].pr, cursor.value, r, i, c, processed);
      NewWithin(evs.value, reported, old(told));
      FoundBy(server, old(etags), key, items[key].pr, cursor.value, r, i, c, evs.value);
      news := Report(evs.value, now);
      step := Some(Poll(evs.value, now));
    }

    /** Polls the targets, each once; the ones whose poll fails are pending again. */
    method PollTargets(gh: P.Gh, server: P.Server, targets: set<Key>, now: int)
      returns (news: seq<OpEvent>, ghost order: seq<Key>, ghost steps: seq<Step>)
      requires Valid() && cursor.Some? && targets <= items.Keys
      modifies this`reported, this`pending, this`etags, this`processed, this`told, gh
      ensures Valid() && KeysIn(order) <= targets && pending == old(pending) + (targets - KeysIn(order))
      ensures Traced(old(Memory()), steps, Memory(), news)
      ensures PollSteps(server, old(etags), items, cursor.value, now, order, steps) && |order| == |steps|
      ensures told == old(told) + FoundIds(steps)
      ensures AllRead(server, items, KeysIn(order), cursor.value, processed)
      ensures old(processed) <= processed && Within(news, told)
      ensures OnlyTold(server, old(etags), KeysIn(order), cursor.value, old(told), told)
      ensures AllRevalidated(server, items, KeysIn(order), cursor.value, etags, now)
      ensures KeptBut(old(etags), etags, KeysIn(order), now)
      ensures old(gh.limitedUntil).None? && Answering(server) ==> KeysIn(order) == targets && gh.limitedUntil.None?
      ensures Limit(server, targets, old(gh.limitedUntil), gh.limitedUntil)
      ensures gh.limitedUntil.None? ==> AllFail(server, items, targets - KeysIn(order), cursor.value)
    {
      hide P.TellFull, Named, AllTold, AtCursor, After, NewEvents, WhollyRead, Traced, AllRead, Within, Answering;
      hide PolledSoFar, Revalidated, OnlyTold, P.OthersKept, PollStep, IdSet, Limit, AllFail, ItemFails, KeptBut;
      hide P.SameButUsed, P.UsedNow;
      news, order, steps := [], [], [];
      TracedStart(Memory());
      NoneWithin(told);
      NonePolled(server, items, etags, cursor.value, told, now);
      NoneFail(server, items, cursor.value, targets, gh.limitedUntil);
      ghost var failed: set<Key> := {};
      MoreRead(server, items, {}, cursor.value, processed, processed);
      var rest := targets;
      while rest != {}
        invariant Valid() && rest <= targets && KeysIn(order) <= targets - rest
        invariant pending == old(pending) + failed
        invariant Traced(old(Memory()), steps, Memory(), news)
        invariant AllRead(server, items, KeysIn(order), cursor.value, processed)
        invariant old(processed) <= processed && Within(news, told)
        invariant PolledSoFar(server, items, old(etags), etags, rest, order, steps, cursor.value, old(told), told, now)
        invariant old(gh.limitedUntil).None? && Answering(server) ==>
                    KeysIn(order) == targets - rest && gh.limitedUntil.None?
        invariant Limit(server, targets, old(gh.limitedUntil), gh.limitedUntil)
        invariant failed == targets - rest - KeysIn(order)
                  && (gh.limitedUntil.None? ==> AllFail(server, items, failed, cursor.value))
        decreases rest
      {
        var key :| key in rest;
        ghost var left := rest;
        rest := rest - {key};
        assert rest + {key} == left;
        ghost var before, was, etags0, told0, limit := processed, Memory(), etags, told, gh.limitedUntil;
        var found, step := PollOne(gh, server, key, now);
        PolledMore(server, items, old(etags), etags0, etags, rest, key, order, steps, step, cursor.value, old(told),
                   told0, told, now);
        MoreLimit(server, targets, key, old(gh.limitedUntil), limit, gh.limitedUntil);
        MoreWithin(news, found, told0, told);
        if step.Some? {
          ReadToo(server, items, KeysIn(order), key, cursor.value, before, processed);
          KeysMore(order, key);
          TracedNext(old(Memory()), steps, was, news, step.value);
          order, steps := order + [key], steps + [step.value];
        } else {
          ReadStill(server, items, KeysIn(order), cursor.value, before, processed);
          assert news + [] == news;
          MoreFail(server, items, failed, key, cursor.value);
          failed := failed + {key};
        }
        news := news + found;
      }
      AllPolled(server, items, old(etags), etags, rest, order, steps, cursor.value, old(told), told, now);
      assert failed == targets - KeysIn(order);
    }

    /** The new result lines of bot-signoff-due. */
    method TakeSignoffs(results: seq<string>, now: int) returns (lines: seq<string>, ghost steps: seq<Step>)
      requires Valid()
      modifies this`reported
      ensures Valid() && Memory() == RunFrom(old(Memory()), steps)
      ensures lines == LineNews(old(Memory()), steps) && PollNews(old(Memory()), steps) == []
      ensures forall kind :: SetNews(old(Memory()), steps, kind) == []
      ensures steps == Signoffs(results, now)
    {
      lines, steps := [], [];
      for n := 0 to |results|
        invariant Valid() && Memory() == RunFrom(old(Memory()), steps)
        invariant lines == LineNews(old(Memory()), steps) && PollNews(old(Memory()), steps) == []
        invariant forall kind :: SetNews(old(Memory()), steps, kind) == []
        invariant |steps| == n && forall i :: 0 <= i < n ==> steps[i] == Signoff(results[i], now)
      {
        Appended(old(Memory()), steps, Signoff(results[n], now));
        steps := steps + [Signoff(results[n], now)];
        var line := Line(SIGNOFF, results[n]);
        if line !in reported {
          lines := lines + [results[n]];
        }
        reported := reported[line := now];
      }
      assert steps == Signoffs(results, now);
    }

    /** A sweep's outputs, or bot-notify's, evaluated. */
    method TakeOutputs(outputs: Outputs, now: int) returns (news: KindNews)
      requires Valid()
      modifies this`seen, this`reported
      ensures Valid() && Memory() == After(old(Memory()), Sweep(outputs, now))
      ensures forall kind :: At(news, kind) == RunNews(outputs, old(seen), old(reported), kind)
    {
      hide RunNews, AllSeen, ReportedAfter;
      news, seen, reported := Evaluate(outputs, seen, reported, now);
    }

    /** bot-notify's output, evaluated like a sweep's. */
    method TakeNotify(output: Output, now: int) returns (news: KindNews)
      requires Valid()
      modifies this`seen, this`reported
      ensures Valid() && Memory() == After(old(Memory()), Sweep(map[Notify := output], now))
      ensures forall kind :: At(news, kind) == RunNews(map[Notify := output], old(seen), old(reported), kind)
    {
      hide RunNews, After, Named, AllTold, P.TellFull, AtCursor;
      news := TakeOutputs(map[Notify := output], now);
    }

    /**
     One hot cycle. FLAGS is what the feeds flag (LIMITED when polling them
     was rate limited); SIGNOFF and NOTIFY are the results of the tools an
     approval or a thread calls for, Some(None) for a tool that could not
     be run, which fails the cycle.
     */
    method Cycle(server: P.Server, flags: seq<Flag>, limited: Option<int>, signoff: Option<Option<seq<string>>>,
                 notify: Option<Option<Output>>, now: int)
      returns (ok: bool, found: Found, ghost order: seq<Key>, ghost steps: seq<Step>)
      requires Whole()
      modifies this
      ensures ok <==> now < old(pausedUntil) || Runs(signoff, notify)
      ensures ok ==> Whole() && FoundIs(old(Memory()), steps, found) && Within(found.events, told)
      ensures ok && now < old(pausedUntil) ==> Now() == old(Now()) && steps == [] && order == []
      ensures ok && now >= old(pausedUntil) ==>
                Cycled(server, flags, limited, signoff, notify, now, old(Now()), Now(), order, steps)
    {
      hide Sound, After, FoundIs, RunFrom, Within, Cycled, Runs;
      if now < pausedUntil {
        StartFound(Memory());
        NoneWithin(told);
        return true, Found([], [], map[]), [], [];
      }
      ok, found, order, steps := CycleOn(server, flags, limited, signoff, notify, now);
    }

    /** A cycle that no rate limit pauses. */
    method CycleOn(server: P.Server, flags: seq<Flag>, limited: Option<int>, signoff: Option<Option<seq<string>>>,
                   notify: Option<Option<Output>>, now: int)
      returns (ok: bool, found: Found, ghost order: seq<Key>, ghost steps: seq<Step>)
      requires Whole()
      modifies this
      ensures ok <==> Runs(signoff, notify)
      ensures ok ==> Whole() && FoundIs(old(Memory()), steps, found) && Within(found.events, told)
      ensures ok ==> Cycled(server, flags, limited, signoff, notify, now, old(Now()), Now(), order, steps)
    {
      hide P.TellFull, Named, AllTold, AtCursor, After, AllRead, Traced, FoundIs, RunFrom, Awaits, OnlyTold,
           AllRevalidated, TurnsOk, Within;
      hide Kinds, ReadBy, Answering, LogOk, PollSteps, TargetsAre, KeptBut, PausedBy, ToolSteps, Runs, Aged, Touched;
      ghost var start := Memory();
      var evs;
      evs, order, steps := Polls(server, flags, limited, now);
      found := Found(evs, [], map[]);
      PolledFound(start, steps, Memory(), evs);
      ghost var more;
      ok, found, more := Tools(signoff, notify, now, found, start, steps);
      if ok {
        ToolsPollNothing(steps, signoff, notify, now);
        steps := steps + more;
        Close(server, flags, order, steps, old(Now()), now);
      }
    }

    /** A cycle's end: old validators are dropped. */
    method Close(server: P.Server, flags: seq<Flag>, ghost order: seq<Key>, ghost steps: seq<Step>, ghost was: Image,
                 now: int)
      requires Valid() && cursor.Some? && Sound(was) && turns == was.turns && log == was.log
      requires AllRead(server, items, KeysIn(order), cursor.value, processed)
      requires AllRevalidated(server, items, KeysIn(order), cursor.value, etags, now)
      requires was.processed <= processed && Awaits(was.pending, was.items.Keys, flags, pending, KeysIn(order),
                                                    items.Keys, false)
      requires KeptBut(was.etags, etags, KeysIn(order), now)
      requires Memory() == RunFrom(was.mem, steps) && told == was.told + FoundIds(steps)
      modifies this`etags, this`turns, this`log
      ensures Whole() && turns == old(turns) + [Turn(pending, items.Keys, KeysIn(order), flags, server, cursor.value)]
      ensures log == old(log) + steps && Aged(etags, now) && KeptBut(was.etags, etags, KeysIn(order), now)
      ensures AllRevalidated(server, items, KeysIn(order), cursor.value, etags, now)
    {
      hide P.TellFull, Named, AllTold, AtCursor, AllRead, Awaits, AllRevalidated, TurnsOk, ReadBy, RunFrom, FoundIds,
           LogOk, KeptBut;
      StillKept(was.etags, etags, KeysIn(order), now);
      KeptNow(server, items, KeysIn(order), cursor.value, etags, now);
      DropOld(now);
      ghost var t := Turn(pending, items.Keys, KeysIn(order), flags, server, cursor.value);
      TurnRead(server, items, KeysIn(order), cursor.value, processed, t);
      NextTurn(turns, was.pending, was.items.Keys, was.processed, t, processed);
      MoreLog(was.mem, was.log, was.told, steps);
      turns, log := turns + [t], log + steps;
    }

    /** Record, in the midst of a cycle. */
    method DropOld(now: int)
      requires Valid()
      modifies this`etags
      ensures Valid() && Aged(etags, now)
      ensures etags == map p | p in old(etags) && now - old(etags)[p].used < VALIDATOR_KEEP_MS :: old(etags)[p]
    {
      hide TurnsOk, LogOk, Told;
      Record(now);
    }

    /** The cycle's polls: of what waited, what the feeds flag, and the recently active items. */
    method Polls(server: P.Server, flags: seq<Flag>, limited: Option<int>, now: int)
      returns (evs: seq<OpEvent>, ghost order: seq<Key>, ghost steps: seq<Step>)
      requires Valid()
      modifies this`reported, this`items, this`pending, this`cursor, this`etags, this`pausedUntil, this`processed,
               this`told, this`toldFrom
      ensures Valid() && Traced(old(Memory()), steps, Memory(), evs)
      ensures cursor == Some(old(cursor).GetOr(now)) && toldFrom == (if old(cursor).None? then now else old(toldFrom))
      ensures Awaits(old(pending), old(items).Keys, flags, pending, KeysIn(order), items.Keys, false)
      ensures PollSteps(server, old(etags), items, cursor.value, now, order, steps) && |order| == |steps|
      ensures told == old(told) + FoundIds(steps)
      ensures items == Touched(old(items), flags) && KeysIn(order) !! pending
      ensures TargetsAre(old(items), old(pending), flags, items, now, KeysIn(order) + pending)
      ensures KeptBut(old(etags), etags, KeysIn(order), now)
      ensures AllRead(server, items, KeysIn(order), cursor.value, processed)
      ensures Kinds(old(items), flags, |flags|, items)
      ensures old(processed) <= processed && Within(evs, told)
      ensures OnlyTold(server, old(etags), KeysIn(order), cursor.value, old(told), told)
      ensures AllRevalidated(server, items, KeysIn(order), cursor.value, etags, now)
      ensures PausedBy(server, limited, items, pending, cursor.value, old(pausedUntil), pausedUntil)
      ensures limited.None? && Answering(server) ==> pending == {} && pausedUntil == old(pausedUntil)
    {
      hide P.TellFull, Named, After, AllRead, Traced, RunFrom, Awaits, AllTold, AtCursor, OnlyTold, AllRevalidated,
           Kinds, Within;
      hide PollSteps, FoundIds, Limit, AllFail, DirectOf, Answering, TargetsOf, TargetsAre, KeptBut, IsDirty, Touched;
      NoEtags(cursor, etags, processed, now);
      if cursor.None? {
        cursor := Some(now);
        toldFrom := now;
      }
      var waiting := pending;
      pending := {};
      var gh := new P.Gh.After(limited);
      var dirty := TakeFlags(flags);
      FlaggedDirty(old(items), flags, items, dirty);
      var targets := Targets(items, waiting + dirty, now);
      evs, order, steps := PollTargets(gh, server, targets, now);
      assert pending == targets - KeysIn(order);
      TheTargets(old(items), waiting, flags, dirty, items, now, targets, KeysIn(order) + pending);
      StillAwaited(waiting, flags, targets, KeysIn(order), old(items).Keys, items.Keys);
      WiderLimit(server, targets, items.Keys, limited, gh.limitedUntil);
      if gh.limitedUntil.Some? {
        pausedUntil := gh.limitedUntil.value;
      }
    }

    /** The tools an approval or a notification calls for; one that can't be run fails the cycle. */
    method Tools(signoff: Option<Option<seq<string>>>, notify: Option<Option<Output>>, now: int, polled: Found,
                 ghost start: Mem, ghost steps: seq<Step>)
      returns (ok: bool, found: Found, ghost more: seq<Step>)
      requires Valid() && Memory() == RunFrom(start, steps) && FoundIs(start, steps, polled)
      requires polled.lines == [] && polled.notified == map[]
      modifies this`seen, this`reported
      ensures Valid() && (ok <==> Runs(signoff, notify)) && (ok ==> more == ToolSteps(signoff, notify, now))
      ensures ok ==> Memory() == RunFrom(start, steps + more) && FoundIs(start, steps + more, found)
                     && found.events == polled.events
    {
      hide P.TellFull, Named, AllTold, AtCursor, After, FoundIs, RunFrom;
      ok, found, more := Runs(signoff, notify), polled, [];
      assert steps + more == steps;
      if signoff.Some? {
        if signoff.value.None? {
          return;
        }
        ghost var was := Memory();
        var lines;
        lines, more := TakeSignoffs(signoff.value.value, now);
        LinesFound(start, steps, was, found, more, lines, Memory());
        found := found.(lines := lines);
      }
      if notify.Some? {
        if notify.value.None? {
          return;
        }
        ghost var was := Memory();
        var news := TakeNotify(notify.value.value, now);
        NotifyFound(start, steps + more, was, found, map[Notify := notify.value.value], now, news);
        more := more + [Sweep(map[Notify := notify.value.value], now)];
        assert steps + more == (steps + more[..|more| - 1]) + [more[|more| - 1]];
        found := found.(notified := news);
      }
    }
  }

  // --- What a cycle does -------------------------------------------------------------------

  /** The tools that are called for can be run. */
  predicate Runs(signoff: Option<Option<seq<string>>>, notify: Option<Option<Output>>) {
    signoff != Some(None) && notify != Some(None)
  }

  ghost function Signoffs(lines: seq<string>, now: int): seq<Step> {
    seq(|lines|, i requires 0 <= i < |lines| => Signoff(lines[i], now))
  }

  /** A step per result line, and one for bot-notify's output. */
  ghost function ToolSteps(signoff: Option<Option<seq<string>>>, notify: Option<Option<Output>>, now: int): seq<Step> {
    (if signoff.Some? && signoff.value.Some? then Signoffs(signoff.value.value, now) else [])
    + if notify.Some? && notify.value.Some? then [Sweep(map[Notify := notify.value.value], now)] else []
  }

  ghost function KeysIn(order: seq<Key>): set<Key> {
    set k | k in order
  }

  lemma KeysMore(order: seq<Key>, key: Key)
    ensures KeysIn(order + [key]) == KeysIn(order) + {key} && (order + [key])[..|order|] == order
  {
  }

  /** The ids that the polls of these steps found. */
  ghost function FoundIds(steps: seq<Step>): set<EventId> {
    if steps == [] then {}
    else
      var st := steps[|steps| - 1];
      FoundIds(steps[..|steps| - 1]) + if st.Poll? then IdSet(st.evs) else {}
  }

  lemma {:induction false} FoundIdsAppend(a: seq<Step>, b: seq<Step>)
    ensures FoundIds(a + b) == FoundIds(a) + FoundIds(b)
  {
    if b == [] {
      assert a + b == a;
    } else {
      FoundIdsAppend(a, b[..|b| - 1]);
      assert (a + b)[..|a + b| - 1] == a + b[..|b| - 1];
    }
  }

  lemma {:induction false} NoneFoundBy(steps: seq<Step>)
    requires forall i :: 0 <= i < |steps| ==> !steps[i].Poll?
    ensures FoundIds(steps) == {}
  {
    if steps != [] {
      NoneFoundBy(steps[..|steps| - 1]);
    }
  }

  lemma {:induction false} ToolsPollNothing(steps: seq<Step>, signoff: Option<Option<seq<string>>>,
                                            notify: Option<Option<Output>>, now: int)
    ensures FoundIds(steps + ToolSteps(signoff, notify, now)) == FoundIds(steps)
    ensures (steps + ToolSteps(signoff, notify, now))[..|steps|] == steps
    ensures (steps + ToolSteps(signoff, notify, now))[|steps|..] == ToolSteps(signoff, notify, now)
  {
    hide ToolSteps, FoundIds;
    FoundIdsAppend(steps, ToolSteps(signoff, notify, now));
    NoToolPolls(signoff, notify, now);
    NoneFoundBy(ToolSteps(signoff, notify, now));
  }

  lemma NoToolPolls(signoff: Option<Option<seq<string>>>, notify: Option<Option<Output>>, now: int)
    ensures forall i :: 0 <= i < |ToolSteps(signoff, notify, now)| ==> !ToolSteps(signoff, notify, now)[i].Poll?
  {
  }

  lemma {:induction false} MoreLog(m: Mem, log: seq<Step>, told: set<EventId>, steps: seq<Step>)
    requires LogOk(m, log, told)
    ensures LogOk(RunFrom(m, steps), log + steps, told + FoundIds(steps))
  {
    RunSplit(log, steps);
    FoundIdsAppend(log, steps);
  }

  /** What a poll of this item finds: the events of the pages that changed, of an unconditional read's. */
  ghost predicate Finds(server: P.Server, etags: Etags, key: Key, pr: bool, cursor: int, evs: seq<OpEvent>) {
    exists r, i, c :: FindsIn(server, etags, key, pr, cursor, r, i, c, evs)
  }

  ghost predicate FindsIn(server: P.Server, etags: Etags, key: Key, pr: bool, cursor: int,
                          r: seq<P.Body>, i: seq<P.Body>, c: seq<P.Body>, evs: seq<OpEvent>) {
    && (if pr then P.Unconditional(server, key, P.Reviews, r) else r == [])
    && (if pr then P.Unconditional(server, key, P.ReviewComments(cursor), i) else i == [])
    && P.Unconditional(server, key, P.Comments(cursor), c)
    && evs == Reference(Flat(P.Changed(server, etags, key, P.Reviews, r)),
                        Flat(P.Changed(server, etags, key, P.ReviewComments(cursor), i)),
                        Flat(P.Changed(server, etags, key, P.Comments(cursor), c)), cursor)
  }

  lemma FoundBy(server: P.Server, etags: Etags, key: Key, pr: bool, cursor: int,
                r: seq<P.Body>, i: seq<P.Body>, c: seq<P.Body>, evs: seq<OpEvent>)
    requires FindsIn(server, etags, key, pr, cursor, r, i, c, evs)
    ensures Finds(server, etags, key, pr, cursor, evs)
  {
  }

  ghost predicate PollStep(server: P.Server, etags: Etags, key: Key, pr: bool, cursor: int, now: int, step: Step) {
    step.Poll? && step.now == now && Finds(server, etags, key, pr, cursor, step.evs)
  }

  /** One step per poll, in the order they were made, each of what its poll found. */
  ghost predicate PollSteps(server: P.Server, etags: Etags, items: map<Key, HotItem>, cursor: int, now: int,
                            order: seq<Key>, steps: seq<Step>) {
    && |order| == |steps| && (forall i, j :: 0 <= i < j < |order| ==> order[i] != order[j])
    && forall i :: 0 <= i < |order| ==>
         order[i] in items && PollStep(server, etags, order[i], items[order[i]].pr, cursor, now, steps[i])
  }

  /** No validator is older than a day. */
  /** The validators of the other items are kept but for old ones; used now, if at all. */
  ghost predicate KeptBut(a: Etags, b: Etags, keys: set<Key>, now: int) {
    forall p: P.Path :: p.key !in keys ==>
      && (p in b ==> p in a && (b[p] == a[p] || b[p] == a[p].(used := now)))
      && (p in a && now - a[p].used < VALIDATOR_KEEP_MS ==> p in b)
  }

  ghost predicate Aged(etags: Etags, now: int) {
    forall p :: p in etags ==> now - etags[p].used < VALIDATOR_KEEP_MS
  }

  /** A rate limit is remembered, and only one that was met. */
  ghost predicate Limit(server: P.Server, keys: set<Key>, was: Option<int>, limit: Option<int>) {
    if was.Some? then limit == was
    else limit.Some? ==> exists p: P.Path :: p.key in keys && server(p) == P.RateLimited(limit.value)
  }

  /** A read of the listing fails, at a page whose answer is no rate limit. */
  ghost predicate FailsPlainly(server: P.Server, key: Key, l: P.Listing) {
    exists bodies :: P.FailsAfter(server, key, l, bodies) && !server(P.Path(key, l, |bodies| + 1)).RateLimited?
  }

  ghost predicate ItemFails(server: P.Server, key: Key, pr: bool, cursor: int) {
    || (pr && (FailsPlainly(server, key, P.Reviews) || FailsPlainly(server, key, P.ReviewComments(cursor))))
    || FailsPlainly(server, key, P.Comments(cursor))
  }

  ghost predicate AllFail(server: P.Server, items: map<Key, HotItem>, keys: set<Key>, cursor: int) {
    forall k :: k in keys ==> k in items && ItemFails(server, k, items[k].pr, cursor)
  }

  /** The pause is the rate limit that was met; without one, the polls that failed did so for other reasons. */
  ghost predicate PausedBy(server: P.Server, limited: Option<int>, items: map<Key, HotItem>, failed: set<Key>,
                           cursor: int, was: int, until: int) {
    exists limit ::
      && Limit(server, items.Keys, limited, limit) && until == limit.GetOr(was)
      && (limit.None? ==> AllFail(server, items, failed, cursor))
  }

  lemma MoreLimit(server: P.Server, keys: set<Key>, key: Key, a: Option<int>, b: Option<int>, c: Option<int>)
    requires Limit(server, keys, a, b) && Limit(server, {key}, b, c) && key in keys
    ensures Limit(server, keys, a, c) && (b.Some? ==> c.Some?)
  {
  }

  lemma WiderLimit(server: P.Server, keys: set<Key>, more: set<Key>, a: Option<int>, b: Option<int>)
    requires Limit(server, keys, a, b) && keys <= more
    ensures Limit(server, more, a, b)
  {
  }

  lemma NoneFail(server: P.Server, items: map<Key, HotItem>, cursor: int, keys: set<Key>, limit: Option<int>)
    ensures Limit(server, keys, limit, limit) && AllFail(server, items, {}, cursor)
  {
  }

  lemma MoreFail(server: P.Server, items: map<Key, HotItem>, keys: set<Key>, key: Key, cursor: int)
    requires key in items
    ensures AllFail(server, items, keys, cursor) && ItemFails(server, key, items[key].pr, cursor) ==>
              AllFail(server, items, keys + {key}, cursor)
  {
  }

  /** These are the flagged items that are hot and ten recently active ones, or all there are, and no others. */
  ghost predicate TargetsOf(items: map<Key, HotItem>, flagged: set<Key>, now: int, keys: set<Key>) {
    exists out :: DirectOf(items, now, out) && forall k :: k in keys <==> (k in flagged && k in items) || k in out
  }

  /** And these what waited or was flagged, and is hot, and the recently active. */
  ghost predicate TargetsAre(items: map<Key, HotItem>, waiting: set<Key>, flags: seq<Flag>, items': map<Key, HotItem>,
                             now: int, keys: set<Key>) {
    exists out :: DirectOf(items', now, out)
                  && forall k :: k in keys <==> (k in items' && (k in waiting || IsDirty(items, flags, |flags|, k)))
                                                || k in out
  }

  lemma TheTargets(items: map<Key, HotItem>, waiting: set<Key>, flags: seq<Flag>, dirty: set<Key>,
                   items': map<Key, HotItem>, now: int, keys: set<Key>, keys': set<Key>)
    requires TargetsOf(items', waiting + dirty, now, keys) && keys == keys'
    requires forall k :: k in dirty <==> IsDirty(items, flags, |flags|, k)
    ensures TargetsAre(items, waiting, flags, items', now, keys')
  {
    hide DirectOf, IsDirty;
    var out :| DirectOf(items', now, out)
               && forall k :: k in keys <==> (k in waiting + dirty && k in items') || k in out;
  }

  // --- What the feeds' flags do -----------------------------------------------------------

  /** A flag of an item that is hot or to become so; the later of the operator's activities counts. */
  ghost function TouchedBy(items: map<Key, HotItem>, f: Flag): map<Key, HotItem> {
    if f.key !in items && !f.ours then items
    else
      var it := if f.key in items then items[f.key] else f.item;
      items[f.key := if f.active.None? then it
                     else it.(active := Some(Max(it.active.GetOr(f.active.value), f.active.value)),
                              title := if it.title == "" then f.item.title else it.title)]
  }

  ghost function Touched(items: map<Key, HotItem>, flags: seq<Flag>): map<Key, HotItem> {
    if flags == [] then items else TouchedBy(Touched(items, flags[..|flags| - 1]), flags[|flags| - 1])
  }

  /** One of the first n flags has the item polled: one of an item hot by then. */
  ghost predicate IsDirty(items: map<Key, HotItem>, flags: seq<Flag>, n: nat, k: Key)
    requires n <= |flags|
  {
    exists i :: 0 <= i < n && flags[i].key == k && flags[i].dirty
                && (k in items || exists j :: 0 <= j <= i && flags[j].key == k && flags[j].ours)
  }

  /** The latest of an activity and those of the flags of an item. */
  ghost predicate IsLatest(active: Option<int>, flags: seq<Flag>, k: Key, r: Option<int>) {
    && (active.Some? ==> r.Some? && r.value >= active.value)
    && (forall i :: 0 <= i < |flags| && flags[i].key == k && flags[i].active.Some? ==>
          r.Some? && r.value >= flags[i].active.value)
    && (r == active || exists i :: 0 <= i < |flags| && flags[i].key == k && flags[i].active == r)
  }

  /** A hot item stays so, with its kind and class, and the operator's latest activity on it. */
  lemma {:induction false} StaysHot(items: map<Key, HotItem>, flags: seq<Flag>, k: Key)
    requires k in items
    ensures k in Touched(items, flags) && IsLatest(items[k].active, flags, k, Touched(items, flags)[k].active)
    ensures Touched(items, flags)[k].pr == items[k].pr && Touched(items, flags)[k].recent == items[k].recent
    ensures items[k].title != "" ==> Touched(items, flags)[k].title == items[k].title
  {
    if flags != [] {
      var n := |flags| - 1;
      StaysHot(items, flags[..n], k);
      var was, now := Touched(items, flags[..n])[k], Touched(items, flags)[k];
      assert forall i :: 0 <= i < n ==> flags[..n][i] == flags[i];
      if now.active != was.active {
        assert flags[n].key == k && flags[n].active == now.active;
      }
    }
  }

  lemma {:induction false} TouchedSplit(items: map<Key, HotItem>, a: seq<Flag>, b: seq<Flag>)
    ensures Touched(items, a + b) == Touched(Touched(items, a), b)
  {
    if b == [] {
      assert a + b == a;
    } else {
      TouchedSplit(items, a, b[..|b| - 1]);
      assert (a + b)[..|a + b| - 1] == a + b[..|b| - 1];
    }
  }

  /** Another item becomes hot by its first flag that makes it so, as that says, and no other does. */
  lemma {:induction false} BecomesHot(items: map<Key, HotItem>, flags: seq<Flag>, k: Key)
    requires k !in items
    ensures k in Touched(items, flags) <==> exists i :: 0 <= i < |flags| && flags[i].key == k && flags[i].ours
    ensures k in Touched(items, flags) ==> exists i :: FirstOurs(flags, k, i)
                                                       && HotFrom(flags[i].item, flags[i..], k,
                                                                  Touched(items, flags)[k])
  {
    if i :| 0 <= i < |flags| && flags[i].key == k && flags[i].ours {
      var m := FirstOf(flags, k, i);
      NotHotYet(items, flags[..m], k);
      assert flags == flags[..m] + flags[m..];
      TouchedSplit(items, flags[..m], flags[m..]);
      HotSince(Touched(items, flags[..m]), flags[m..], k);
    } else {
      NotHotYet(items, flags, k);
    }
  }

  /** The first flag makes it hot. */
  lemma {:induction false} HotSince(items: map<Key, HotItem>, flags: seq<Flag>, k: Key)
    requires k !in items && flags != [] && flags[0].key == k && flags[0].ours
    ensures k in Touched(items, flags) && HotFrom(flags[0].item, flags, k, Touched(items, flags)[k])
  {
    var f, rest := flags[0], flags[1..];
    assert flags == [f] + rest && [f][..0] == [];
    TouchedSplit(items, [f], rest);
    assert Touched(items, [f]) == TouchedBy(items, f);
    StaysHot(TouchedBy(items, f), rest, k);
    hide IsLatest, Touched;
    LatestFrom(f, rest, k, TouchedBy(items, f)[k].active, Touched(items, flags)[k].active);
  }

  lemma LatestFrom(f: Flag, rest: seq<Flag>, k: Key, active: Option<int>, r: Option<int>)
    requires f.key == k && IsLatest(active, rest, k, r)
    requires active == if f.active.None? then f.item.active
                       else Some(Max(f.item.active.GetOr(f.active.value), f.active.value))
    ensures IsLatest(f.item.active, [f] + rest, k, r)
  {
    var flags := [f] + rest;
    assert flags[0] == f && forall i :: 0 <= i < |rest| ==> rest[i] == flags[i + 1];
  }

  ghost predicate FirstOurs(flags: seq<Flag>, k: Key, i: int) {
    && 0 <= i < |flags| && flags[i].key == k && flags[i].ours
    && forall j :: 0 <= j < i ==> !(flags[j].key == k && flags[j].ours)
  }

  ghost predicate HotFrom(was: HotItem, flags: seq<Flag>, k: Key, it: HotItem) {
    it.pr == was.pr && it.recent == was.recent && IsLatest(was.active, flags, k, it.active)
  }

  lemma {:induction false} FirstOf(flags: seq<Flag>, k: Key, i: nat) returns (m: nat)
    requires i < |flags| && flags[i].key == k && flags[i].ours
    ensures FirstOurs(flags, k, m)
  {
    if j: nat :| j < i && flags[j].key == k && flags[j].ours {
      m := FirstOf(flags, k, j);
    } else {
      m := i;
    }
  }

  lemma {:induction false} NotHotYet(items: map<Key, HotItem>, flags: seq<Flag>, k: Key)
    requires k !in items && forall i :: 0 <= i < |flags| ==> !(flags[i].key == k && flags[i].ours)
    ensures k !in Touched(items, flags)
  {
    if flags != [] {
      NotHotYet(items, flags[..|flags| - 1], k);
    }
  }

  /** What a cycle found: the operator's events, sign-off result lines and bot-notify's news. */
  datatype Found = Found(events: seq<OpEvent>, lines: seq<string>, notified: KindNews)

  /** What a cycle found is the news of its steps, in their order. */
  ghost predicate FoundIs(m: Mem, steps: seq<Step>, found: Found) {
    && found.events == PollNews(m, steps) && found.lines == LineNews(m, steps)
    && forall kind :: At(found.notified, kind) == SetNews(m, steps, kind)
  }

  /**
   An item that waited to be polled, or is flagged, was polled, waits
   still, or is no longer hot.
   */
  ghost predicate Awaits(waiting: set<Key>, hot: set<Key>, flags: seq<Flag>, waiting': set<Key>, polled: set<Key>,
                         hot': set<Key>, paused: bool) {
    && (forall k :: k in waiting ==> k in waiting' || k in polled || k !in hot')
    && (!paused ==> forall i :: 0 <= i < |flags| && flags[i].dirty && (flags[i].ours || flags[i].key in hot) ==>
                      flags[i].key in waiting' || flags[i].key in polled)
    && (paused ==> waiting' == waiting && polled == {})
  }

  lemma {:induction false} StartFound(m: Mem)
    ensures RunFrom(m, []) == m && FoundIs(m, [], Found([], [], map[]))
    ensures forall w, h, flags :: Awaits(w, h, flags, w, {}, h, true)
  {
  }

  lemma {:induction false} PolledFound(m: Mem, steps: seq<Step>, m': Mem, events: seq<OpEvent>)
    requires Traced(m, steps, m', events)
    ensures m' == RunFrom(m, steps) && FoundIs(m, steps, Found(events, [], map[]))
  {
  }

  lemma {:induction false} LinesFound(m: Mem, steps: seq<Step>, was: Mem, found: Found, more: seq<Step>,
                                      lines: seq<string>, m': Mem)
    requires was == RunFrom(m, steps) && FoundIs(m, steps, found) && found.lines == [] && found.notified == map[]
    requires m' == RunFrom(was, more) && lines == LineNews(was, more) && PollNews(was, more) == []
    requires forall kind :: SetNews(was, more, kind) == []
    requires forall i :: 0 <= i < |more| ==> more[i].Signoff?
    ensures m' == RunFrom(m, steps + more) && FoundIs(m, steps + more, found.(lines := lines))
  {
    MoreSteps(m, steps, more);
    hide RunNews;
    if more == [] {
      assert steps + more == steps;
    }
  }

  lemma {:induction false} NotifyFound(m: Mem, steps: seq<Step>, was: Mem, found: Found, outputs: Outputs, now: int,
                                       news: KindNews)
    requires was == RunFrom(m, steps) && FoundIs(m, steps, found) && found.notified == map[]
    requires forall kind :: At(news, kind) == RunNews(outputs, was.seen, was.reported, kind)
    ensures RunFrom(m, steps + [Sweep(outputs, now)]) == After(was, Sweep(outputs, now))
    ensures FoundIs(m, steps + [Sweep(outputs, now)], found.(notified := news))
  {
    Appended(m, steps, Sweep(outputs, now));
    hide RunNews;
    assert (steps + [Sweep(outputs, now)])[..|steps|] == steps;
  }

  /** The first n flags were taken. */
  ghost predicate TookFlags(items0: map<Key, HotItem>, flags: seq<Flag>, n: nat, items: map<Key, HotItem>,
                            dirty: set<Key>)
    requires n <= |flags|
  {
    && items == Touched(items0, flags[..n]) && dirty <= items.Keys && items0.Keys <= items.Keys
    && Kinds(items0, flags, n, items)
    && (forall k :: k in items ==> k in items0 || exists i :: 0 <= i < n && flags[i].key == k && flags[i].ours)
    && (forall i :: 0 <= i < n && flags[i].ours ==> flags[i].key in items)
    && forall k :: k in dirty <==> IsDirty(items0, flags, n, k)
  }

  lemma NoFlags(items: map<Key, HotItem>, flags: seq<Flag>)
    ensures TookFlags(items, flags, 0, items, {})
  {
  }

  lemma {:induction false} AllFlags(items0: map<Key, HotItem>, flags: seq<Flag>, items: map<Key, HotItem>,
                                    dirty: set<Key>)
    requires TookFlags(items0, flags, |flags|, items, dirty)
    ensures items == Touched(items0, flags) && dirty <= items.Keys && items0.Keys <= items.Keys
    ensures Kinds(items0, flags, |flags|, items)
    ensures forall k :: k in dirty <==> IsDirty(items0, flags, |flags|, k)
  {
    assert flags[..|flags|] == flags;
    hide Kinds, IsDirty, Touched;
  }

  lemma NextFlag(items0: map<Key, HotItem>, flags: seq<Flag>, n: nat, items: map<Key, HotItem>, dirty: set<Key>,
                 items': map<Key, HotItem>, dirty': set<Key>)
    requires n < |flags| && TookFlags(items0, flags, n, items, dirty)
    requires items' == TouchedBy(items, flags[n])
    requires dirty' == if flags[n].dirty && (flags[n].key in items || flags[n].ours) then dirty + {flags[n].key}
                       else dirty
    ensures TookFlags(items0, flags, n + 1, items', dirty')
  {
    hide Kinds, IsDirty;
    assert flags[..n + 1][..n] == flags[..n];
    NextKinds(items0, flags, n, items, items');
    forall k ensures k in dirty' <==> IsDirty(items0, flags, n + 1, k) {
      NextDirty(items0, flags, n, items, k);
    }
  }

  lemma NextKinds(items0: map<Key, HotItem>, flags: seq<Flag>, n: nat, items: map<Key, HotItem>,
                  items': map<Key, HotItem>)
    requires n < |flags| && items' == TouchedBy(items, flags[n]) && Kinds(items0, flags, n, items)
    requires items0.Keys <= items.Keys
    ensures Kinds(items0, flags, n + 1, items')
  {
  }

  lemma NextDirty(items0: map<Key, HotItem>, flags: seq<Flag>, n: nat, items: map<Key, HotItem>, k: Key)
    requires n < |flags| && items0.Keys <= items.Keys
    requires forall x :: x in items ==> x in items0 || exists i :: 0 <= i < n && flags[i].key == x && flags[i].ours
    requires forall i :: 0 <= i < n && flags[i].ours ==> flags[i].key in items
    ensures IsDirty(items0, flags, n + 1, k) <==>
            IsDirty(items0, flags, n, k)
            || (flags[n].key == k && flags[n].dirty && (k in items || flags[n].ours))
  {
  }

  lemma FlaggedDirty(items: map<Key, HotItem>, flags: seq<Flag>, items': map<Key, HotItem>, dirty: set<Key>)
    requires forall k :: k in dirty <==> IsDirty(items, flags, |flags|, k)
    ensures forall i :: 0 <= i < |flags| && flags[i].dirty && (flags[i].ours || flags[i].key in items) ==>
              flags[i].key in dirty
  {
  }

  lemma StillAwaited(waiting: set<Key>, flags: seq<Flag>, targets: set<Key>, polled: set<Key>, hot: set<Key>,
                     hot': set<Key>)
    requires polled <= targets && hot <= hot'
    requires forall k :: k in waiting && k in hot' ==> k in targets
    requires forall i :: 0 <= i < |flags| && flags[i].dirty && (flags[i].ours || flags[i].key in hot) ==>
               flags[i].key in targets
    ensures Awaits(waiting, hot, flags, targets - polled, polled, hot', false)
  {
  }

  // --- The recently active items ---------------------------------------------------------

  const MAX_DIRECT: nat := 10

  predicate IsRecent(items: map<Key, HotItem>, k: Key, now: int) {
    k in items && StillRecent(items[k], now)
  }

  function ActiveAt(items: map<Key, HotItem>, k: Key): int {
    if k in items then items[k].active.GetOr(0) else 0
  }

  /** Up to ten items the operator was active on lately, the most recent first, and none more recent left out. */
  ghost predicate DirectOf(items: map<Key, HotItem>, now: int, out: seq<Key>) {
    && |out| <= MAX_DIRECT && (forall i :: 0 <= i < |out| ==> IsRecent(items, out[i], now))
    && (forall i, j :: 0 <= i < j < |out| ==> out[i] != out[j] && ActiveAt(items, out[i]) >= ActiveAt(items, out[j]))
    && forall k :: IsRecent(items, k, now) && k !in out ==>
         |out| == MAX_DIRECT && forall i :: 0 <= i < |out| ==> ActiveAt(items, out[i]) >= ActiveAt(items, k)
  }

  /** The operator's activity on an item in the last three hours, if any. */
  ghost function Lately(items: map<Key, HotItem>, k: Key, now: int): Option<int> {
    if k in items && items[k].active.Some? && now - items[k].active.value < 3 * 60 * 60 * 1000 then items[k].active
    else None
  }

  /** By their times: none of these was active before a later one of them, or before one left out. */
  lemma {:induction false} DirectMeans(items: map<Key, HotItem>, now: int, out: seq<Key>)
    requires DirectOf(items, now, out)
    ensures |out| <= 10 && forall i :: 0 <= i < |out| ==> Lately(items, out[i], now).Some?
    ensures forall i, j :: 0 <= i < j < |out| ==>
              out[i] != out[j] && Lately(items, out[i], now).value >= Lately(items, out[j], now).value
    ensures forall k, i :: k !in out && 0 <= i < |out| && Lately(items, k, now).Some? ==>
              Lately(items, out[i], now).value >= Lately(items, k, now).value
    ensures forall k :: k !in out && Lately(items, k, now).Some? ==> |out| == 10
  {
    forall k ensures IsRecent(items, k, now) <==> Lately(items, k, now).Some? {
    }
    assert forall i :: 0 <= i < |out| ==> IsRecent(items, out[i], now);
    assert forall k :: Lately(items, k, now).Some? ==> ActiveAt(items, k) == Lately(items, k, now).value;
  }

  /** The items to poll on every cycle: up to ten the operator was active on lately, the most recent first. */
  method Direct(items: map<Key, HotItem>, now: int) returns (out: seq<Key>)
    ensures DirectOf(items, now, out)
  {
    var recent := set k | k in items && StillRecent(items[k], now);
    out := [];
    while recent != {} && |out| < MAX_DIRECT
      invariant |out| <= MAX_DIRECT
      invariant forall k :: IsRecent(items, k, now) <==> k in recent || k in out
      invariant forall k :: k in recent ==> k !in out
      invariant forall i :: 0 <= i < |out| ==> IsRecent(items, out[i], now)
      invariant forall i, j :: 0 <= i < j < |out| ==>
                  out[i] != out[j] && ActiveAt(items, out[i]) >= ActiveAt(items, out[j])
      invariant forall k, i :: k in recent && 0 <= i < |out| ==> ActiveAt(items, out[i]) >= ActiveAt(items, k)
      decreases recent
    {
      var k := MostRecent(items, recent);
      recent := recent - {k};
      out := out + [k];
    }
  }

  /** The flagged items that are hot, and the recently active ones. */
  method Targets(items: map<Key, HotItem>, flagged: set<Key>, now: int) returns (targets: set<Key>)
    ensures targets <= items.Keys && TargetsOf(items, flagged, now, targets)
    ensures forall k :: k in flagged && k in items ==> k in targets
  {
    var direct := Direct(items, now);
    targets := (set k | k in flagged && k in items) + (set k | k in direct);
    assert forall k :: k in direct ==> IsRecent(items, k, now) && k in targets;
  }

  method MostRecent(items: map<Key, HotItem>, recent: set<Key>) returns (best: Key)
    requires recent != {} && forall k :: k in recent ==> k in items && items[k].active.Some?
    ensures best in recent && forall k :: k in recent ==> ActiveAt(items, best) >= ActiveAt(items, k)
  {
    best :| best in recent;
    var rest := recent - {best};
    while rest != {}
      invariant rest <= recent && best in recent
      invariant forall k :: k in recent - rest ==> ActiveAt(items, best) >= ActiveAt(items, k)
      decreases rest
    {
      var k :| k in rest;
      if ActiveAt(items, k) > ActiveAt(items, best) {
        best := k;
      }
      rest := rest - {k};
    }
  }

  /**
   The caller's cycle. It is all or nothing, and the caller's state replaced
   only by a cycle that came to its end, so a review that an unfinished one
   read is on a page the next one still asks for.
   */
  method RunCycle(state: State, server: P.Server, flags: seq<Flag>, limited: Option<int>,
                  signoff: Option<Option<seq<string>>>, notify: Option<Option<Output>>, now: int)
    returns (ok: bool, found: Found, ghost order: seq<Key>, ghost steps: seq<Step>)
    requires state.Whole()
    modifies state
    ensures state.Whole() && (ok <==> now < old(state.pausedUntil) || Runs(signoff, notify))
    ensures !ok ==> state.Now() == old(state.Now())
    ensures ok ==> FoundIs(old(state.Memory()), steps, found) && Within(found.events, state.told)
    ensures ok && now < old(state.pausedUntil) ==> state.Now() == old(state.Now()) && steps == [] && order == []
    ensures ok && now >= old(state.pausedUntil) ==>
              Cycled(server, flags, limited, signoff, notify, now, old(state.Now()), state.Now(), order, steps)
  {
    hide Sound, After, FoundIs, RunFrom, Cycled, Within, Answering, Runs;
    var next := new State.Copy(state);
    ok, found, order, steps := next.Cycle(server, flags, limited, signoff, notify, now);
    if ok {
      state.Assign(next);
    }
  }

  // --- What a cycle's polls keep --------------------------------------------------------

  /** Every page is answered. */
  ghost predicate Answering(server: P.Server) {
    forall p :: server(p).Page?
  }

  /**
   A working cycle that is not paused, which polled the items of ORDER:
   STEPS are one poll each, of what it found, and then the tools'. What
   waited or was flagged, and the recently active, were polled or wait.
   */
  ghost predicate Cycled(server: P.Server, flags: seq<Flag>, limited: Option<int>,
                         signoff: Option<Option<seq<string>>>, notify: Option<Option<Output>>, now: int, a: Image,
                         b: Image, order: seq<Key>, steps: seq<Step>) {
    && b.cursor == Some(a.cursor.GetOr(now)) && b.toldFrom == (if a.cursor.None? then now else a.toldFrom)
    && b.sweepStart == a.sweepStart && b.evaluated == a.evaluated && a.processed <= b.processed
    && |order| <= |steps| && PollSteps(server, a.etags, b.items, b.cursor.value, now, order, steps[..|order|])
    && steps[|order|..] == ToolSteps(signoff, notify, now)
    && b.mem == RunFrom(a.mem, steps) && b.log == a.log + steps && b.told == a.told + FoundIds(steps)
    && Awaits(a.pending, a.items.Keys, flags, b.pending, KeysIn(order), b.items.Keys, false)
    && b.items == Touched(a.items, flags) && KeysIn(order) !! b.pending
    && TargetsAre(a.items, a.pending, flags, b.items, now, KeysIn(order) + b.pending)
    && KeptBut(a.etags, b.etags, KeysIn(order), now)
    && Kinds(a.items, flags, |flags|, b.items)
    && AllRead(server, b.items, KeysIn(order), b.cursor.value, b.processed)
    && b.turns == a.turns + [Turn(b.pending, b.items.Keys, KeysIn(order), flags, server, b.cursor.value)]
    && OnlyTold(server, a.etags, KeysIn(order), b.cursor.value, a.told, b.told)
    && AllRevalidated(server, b.items, KeysIn(order), b.cursor.value, b.etags, now) && Aged(b.etags, now)
    && PausedBy(server, limited, b.items, b.pending, b.cursor.value, a.pausedUntil, b.pausedUntil)
    && (limited.None? && Answering(server) ==> b.pending == {} && b.pausedUntil == a.pausedUntil)
  }

  /** Items keep their kind; a new one has that of its flag. */
  ghost predicate Kinds(items: map<Key, HotItem>, flags: seq<Flag>, n: nat, items': map<Key, HotItem>)
    requires n <= |flags|
  {
    forall k :: k in items' ==> if k in items then items'[k].pr == items[k].pr
                                else exists i :: 0 <= i < n && flags[i].key == k && flags[i].item.pr == items'[k].pr
  }

  ghost predicate Within(evs: seq<OpEvent>, told: set<EventId>) {
    forall e :: e in evs ==> e.id in told
  }

  lemma NoneWithin(told: set<EventId>)
    ensures Within([], told)
  {
  }

  lemma MoreWithin(a: seq<OpEvent>, b: seq<OpEvent>, told: set<EventId>, told': set<EventId>)
    requires Within(a, told) && Within(b, told') && told <= told'
    ensures Within(a + b, told')
  {
  }

  lemma {:induction false} NewWithin(evs: seq<OpEvent>, reported: Reported, told: set<EventId>)
    ensures Within(NewEvents(evs, reported), told + IdSet(evs))
  {
    if evs != [] {
      NewWithin(evs[..|evs| - 1], reported, told);
    }
  }

  /** A page the poll of these items was sent, with an entry that qualifies. */
  ghost predicate Sent(server: P.Server, etags: Etags, keys: set<Key>, cursor: int, p: P.Path, i: nat, id: EventId) {
    && p.key in keys && server(p).Page? && !P.Same(server, etags, p)
    && i < |server(p).body| && Qualifies(server(p).body[i], cursor) && server(p).body[i].event == id
  }

  /** Nothing is told but by a qualifying entry of a page that was sent. */
  ghost predicate OnlyTold(server: P.Server, etags: Etags, keys: set<Key>, cursor: int, told: set<EventId>,
                           told': set<EventId>) {
    forall id :: id in told' && id !in told ==> exists p, i :: Sent(server, etags, keys, cursor, p, i, id)
  }

  lemma NothingToldYet(server: P.Server, etags: Etags, keys: set<Key>, cursor: int, told: set<EventId>)
    ensures OnlyTold(server, etags, keys, cursor, told, told)
  {
  }

  /** A poll leaves the validators of all its pages: while the server has the same, it is sent none of them again. */
  ghost predicate Revalidated(server: P.Server, key: Key, pr: bool, cursor: int, etags: Etags, now: int) {
    && (pr ==> P.Refreshed(server, etags, key, P.Reviews, now)
               && P.Refreshed(server, etags, key, P.ReviewComments(cursor), now))
    && P.Refreshed(server, etags, key, P.Comments(cursor), now)
  }

  ghost predicate AllRevalidated(server: P.Server, items: map<Key, HotItem>, polled: set<Key>, cursor: int,
                                 etags: Etags, now: int) {
    forall k :: k in polled ==> k in items && Revalidated(server, k, items[k].pr, cursor, etags, now)
  }

  /** The memory and the news that steps of polling lead to. */
  ghost predicate Traced(start: Mem, steps: seq<Step>, m: Mem, news: seq<OpEvent>) {
    && (forall i :: 0 <= i < |steps| ==> steps[i].Poll?)
    && m == RunFrom(start, steps) && news == PollNews(start, steps) && LineNews(start, steps) == []
    && forall kind :: SetNews(start, steps, kind) == []
  }

  lemma TracedStart(m: Mem)
    ensures Traced(m, [], m, [])
  {
  }

  lemma TracedNext(start: Mem, steps: seq<Step>, m: Mem, news: seq<OpEvent>, step: Step)
    requires Traced(start, steps, m, news) && step.Poll?
    ensures Traced(start, steps + [step], After(m, step), news + NewEvents(step.evs, m.reported))
  {
    Appended(start, steps, step);
  }

  ghost predicate AllRead(server: P.Server, items: map<Key, HotItem>, polled: set<Key>, cursor: int, processed: Pages) {
    forall k :: k in polled ==> k in items && WhollyRead(server, k, items[k].pr, cursor, processed)
  }

  /** An unconditional read of the item's listings gets only pages that were processed. */
  ghost predicate WhollyRead(server: P.Server, key: Key, pr: bool, cursor: int, processed: Pages) {
    exists r, i, c ::
      && (if pr then P.Unconditional(server, key, P.Reviews, r) else r == [])
      && (if pr then P.Unconditional(server, key, P.ReviewComments(cursor), i) else i == [])
      && P.Unconditional(server, key, P.Comments(cursor), c)
      && Read(key, cursor, r, i, c) <= processed
  }

  lemma ItemRead(server: P.Server, key: Key, pr: bool, cursor: int, r: seq<P.Body>, i: seq<P.Body>, c: seq<P.Body>,
                 processed: Pages)
    requires if pr then P.Unconditional(server, key, P.Reviews, r) else r == []
    requires if pr then P.Unconditional(server, key, P.ReviewComments(cursor), i) else i == []
    requires P.Unconditional(server, key, P.Comments(cursor), c)
    requires Read(key, cursor, r, i, c) <= processed
    ensures WhollyRead(server, key, pr, cursor, processed)
  {
    hide P.Unconditional, Read;
  }

  lemma MoreRead(server: P.Server, items: map<Key, HotItem>, polled: set<Key>, cursor: int, before: Pages,
                 processed: Pages)
    requires before <= processed && polled <= items.Keys
    requires forall k :: k in polled ==> WhollyRead(server, k, items[k].pr, cursor, before)
                                         || WhollyRead(server, k, items[k].pr, cursor, processed)
    ensures AllRead(server, items, polled, cursor, processed)
  {
    forall k | k in polled ensures WhollyRead(server, k, items[k].pr, cursor, processed) {
      hide P.Unconditional, Read;
      if WhollyRead(server, k, items[k].pr, cursor, before) {
        var r, i, c :|
          && (if items[k].pr then P.Unconditional(server, k, P.Reviews, r) else r == [])
          && (if items[k].pr then P.Unconditional(server, k, P.ReviewComments(cursor), i) else i == [])
          && P.Unconditional(server, k, P.Comments(cursor), c)
          && Read(k, cursor, r, i, c) <= before;
      }
    }
  }

  lemma ReadToo(server: P.Server, items: map<Key, HotItem>, polled: set<Key>, key: Key, cursor: int, before: Pages,
                processed: Pages)
    requires before <= processed && key in items && AllRead(server, items, polled, cursor, before)
    requires WhollyRead(server, key, items[key].pr, cursor, processed)
    ensures AllRead(server, items, polled + {key}, cursor, processed)
  {
    hide WhollyRead;
    MoreRead(server, items, polled + {key}, cursor, before, processed);
  }

  lemma ReadStill(server: P.Server, items: map<Key, HotItem>, polled: set<Key>, cursor: int, before: Pages,
                  processed: Pages)
    requires before <= processed && AllRead(server, items, polled, cursor, before)
    ensures AllRead(server, items, polled, cursor, processed)
  {
    hide WhollyRead;
    MoreRead(server, items, polled, cursor, before, processed);
  }

  lemma {:induction false} ChangedSame(server: P.Server, a: Etags, b: Etags, key: Key, l: P.Listing,
                                       bodies: seq<P.Body>)
    requires P.SameButUsed(a, b)
    ensures P.Changed(server, a, key, l, bodies) == P.Changed(server, b, key, l, bodies)
  {
    if bodies != [] {
      ChangedSame(server, a, b, key, l, bodies[..|bodies| - 1]);
    }
  }

  /** A working poll tells every page it read, changed or not. */
  lemma {:induction false} PollTold(server: P.Server, etags: Etags, key: Key, cursor: int, from: int, r: seq<P.Body>,
                                    i: seq<P.Body>, c: seq<P.Body>, processed: Pages, told: set<EventId>,
                                    found: seq<OpEvent>)
    requires Named(etags, processed) && AllTold(processed, from, told) && cursor <= from
    requires P.Has(server, key, P.Reviews, r) && P.Has(server, key, P.ReviewComments(cursor), i)
             && P.Has(server, key, P.Comments(cursor), c)
    requires found == Reference(Flat(P.Changed(server, etags, key, P.Reviews, r)),
                                Flat(P.Changed(server, etags, key, P.ReviewComments(cursor), i)),
                                Flat(P.Changed(server, etags, key, P.Comments(cursor), c)), cursor)
    ensures AllTold(processed + Read(key, cursor, r, i, c), from, told + IdSet(found))
  {
    var rs := P.Changed(server, etags, key, P.Reviews, r);
    var is_ := P.Changed(server, etags, key, P.ReviewComments(cursor), i);
    var cs := P.Changed(server, etags, key, P.Comments(cursor), c);
    forall b | b in rs || b in is_ || b in cs ensures Told(b, from, told + IdSet(found)) {
      hide Reference, IdSet;
      FoundAll(rs, is_, cs, cursor, b);
    }
    hide *;
    ListingTold(server, etags, key, P.Reviews, r, processed, from, told, told + IdSet(found));
    ListingTold(server, etags, key, P.ReviewComments(cursor), i, processed, from, told, told + IdSet(found));
    ListingTold(server, etags, key, P.Comments(cursor), c, processed, from, told, told + IdSet(found));
    ToldTogether(key, cursor, from, r, i, c, processed, told, told + IdSet(found));
  }

  lemma ToldTogether(key: Key, cursor: int, from: int, r: seq<P.Body>, i: seq<P.Body>, c: seq<P.Body>,
                     processed: Pages, told: set<EventId>, told': set<EventId>)
    requires AllTold(processed, from, told) && told <= told'
    requires AllTold(PagesOf(key, P.Reviews, r), from, told')
    requires AllTold(PagesOf(key, P.ReviewComments(cursor), i), from, told')
    requires AllTold(PagesOf(key, P.Comments(cursor), c), from, told')
    ensures AllTold(processed + Read(key, cursor, r, i, c), from, told')
  {
    forall pb | pb in processed ensures Told(pb.1, from, told') {
      assert Told(pb.1, from, told);
    }
  }

  lemma CommitAll(etags: Etags, vr: Etags, vi: Etags, vc: Etags, key: Key, cursor: int, r: seq<P.Body>, i: seq<P.Body>,
                  c: seq<P.Body>, processed: Pages)
    requires P.TellFull(etags) && Named(etags, processed) && AtCursor(etags, Some(cursor))
    requires P.ValidatorsOf(vr, key, P.Reviews, r)
    requires P.ValidatorsOf(vi, key, P.ReviewComments(cursor), i)
    requires P.ValidatorsOf(vc, key, P.Comments(cursor), c)
    ensures P.TellFull(etags + vr + vi + vc) && AtCursor(etags + vr + vi + vc, Some(cursor))
    ensures Named(etags + vr + vi + vc, processed + Read(key, cursor, r, i, c))
  {
    Committed(etags, vr, key, P.Reviews, r, processed);
    var p1 := processed + PagesOf(key, P.Reviews, r);
    Committed(etags + vr, vi, key, P.ReviewComments(cursor), i, p1);
    var p2 := p1 + PagesOf(key, P.ReviewComments(cursor), i);
    Committed(etags + vr + vi, vc, key, P.Comments(cursor), c, p2);
    assert p2 + PagesOf(key, P.Comments(cursor), c) == processed + Read(key, cursor, r, i, c);
  }

  lemma NoPages(server: P.Server, etags: Etags, key: Key, cursor: int)
    ensures forall l :: P.Changed(server, etags, key, l, []) == [] && P.Has(server, key, l, [])
                        && P.ValidatorsOf(map[], key, l, [])
  {
  }

  lemma SameNamed(a: Etags, b: Etags, processed: Pages, cursor: Option<int>)
    requires P.SameButUsed(a, b) && Named(a, processed) && AtCursor(a, cursor)
    ensures Named(b, processed) && AtCursor(b, cursor)
  {
    forall p | p in b ensures (p, b[p].etag.body) in processed {
      assert p in a;
    }
  }

  predicate StillRecent(it: HotItem, now: int) {
    it.active.Some? && now - it.active.value < RECENT_MS
  }

  lemma LaterCursor(pages: Pages, cursor: int, later: int, told: set<EventId>)
    requires AllTold(pages, cursor, told) && cursor <= later
    ensures AllTold(pages, later, told)
  {
    forall pb | pb in pages ensures Told(pb.1, later, told) {
      assert Told(pb.1, cursor, told);
    }
  }

  // --- The validators of a poll -----------------------------------------------------------

  lemma StillRefreshed(server: P.Server, a: Etags, b: Etags, key: Key, l: P.Listing, now: int)
    requires P.Refreshed(server, a, key, l, now)
    requires forall p :: p in a && p.key == key && p.listing == l && a[p].used == now ==> p in b && b[p] == a[p]
    ensures P.Refreshed(server, b, key, l, now)
  {
    forall q: nat | P.Reached(server, P.Path(key, l, q)) ensures P.Validated(server, b, P.Path(key, l, q), now) {
      assert P.Validated(server, a, P.Path(key, l, q), now);
    }
  }

  lemma ItemRevalidated(server: P.Server, key: Key, pr: bool, cursor: int, e1: Etags, vr: Etags, e2: Etags, vi: Etags,
                        e3: Etags, vc: Etags, r: seq<P.Body>, i: seq<P.Body>, c: seq<P.Body>, now: int)
    requires pr ==> P.Refreshed(server, e1 + vr, key, P.Reviews, now)
                    && P.Refreshed(server, e2 + vi, key, P.ReviewComments(cursor), now)
    requires P.Refreshed(server, e3 + vc, key, P.Comments(cursor), now) && P.UsedNow(e1, e2, now)
             && P.UsedNow(e2, e3, now)
    requires P.ValidatorsOf(vr, key, P.Reviews, r) && P.ValidatorsOf(vi, key, P.ReviewComments(cursor), i)
             && P.ValidatorsOf(vc, key, P.Comments(cursor), c)
    ensures Revalidated(server, key, pr, cursor, e3 + vr + vi + vc, now)
  {
    hide P.Refreshed, P.TellFull, P.UsedNow;
    var all := e3 + vr + vi + vc;
    if pr {
      P.UsedTwice(e1, e2, e3, now);
      ListingRevalidated(server, e1, vr, e3, all, key, P.Reviews, now);
      ListingRevalidated(server, e2, vi, e3, all, key, P.ReviewComments(cursor), now);
    }
    P.UsedNever(e3, now);
    ListingRevalidated(server, e3, vc, e3, all, key, P.Comments(cursor), now);
  }

  lemma ListingRevalidated(server: P.Server, etags: Etags, v: Etags, later: Etags, all: Etags, key: Key, l: P.Listing,
                           now: int)
    requires P.Refreshed(server, etags + v, key, l, now) && P.UsedNow(etags, later, now)
    requires forall p: P.Path :: p.key == key && p.listing == l ==>
               if p in v then p in all && all[p] == v[p] else p in later ==> p in all && all[p] == later[p]
    ensures P.Refreshed(server, all, key, l, now)
  {
    hide P.Refreshed;
    StillRefreshed(server, etags + v, all, key, l, now);
  }

  lemma CommitOthers(was: Etags, etags: Etags, vr: Etags, vi: Etags, vc: Etags, key: Key, cursor: int, r: seq<P.Body>,
                     i: seq<P.Body>, c: seq<P.Body>)
    requires P.OthersKept(was, etags, key)
    requires P.ValidatorsOf(vr, key, P.Reviews, r) && P.ValidatorsOf(vi, key, P.ReviewComments(cursor), i)
             && P.ValidatorsOf(vc, key, P.Comments(cursor), c)
    ensures P.OthersKept(was, etags + vr + vi + vc, key)
  {
    hide P.TellFull;
  }

  /** Validators used now are not dropped. */
  lemma StillKept(a: Etags, etags: Etags, keys: set<Key>, now: int)
    requires KeptBut(a, etags, keys, now)
    ensures KeptBut(a, map p | p in etags && now - etags[p].used < VALIDATOR_KEEP_MS :: etags[p], keys, now)
  {
  }

  lemma KeptNow(server: P.Server, items: map<Key, HotItem>, polled: set<Key>, cursor: int, etags: Etags, now: int)
    requires AllRevalidated(server, items, polled, cursor, etags, now)
    ensures AllRevalidated(server, items, polled, cursor, map p | p in etags
                           && now - etags[p].used < VALIDATOR_KEEP_MS :: etags[p], now)
  {
    hide P.Refreshed;
    var kept: Etags := map p | p in etags && now - etags[p].used < VALIDATOR_KEEP_MS :: etags[p];
    forall k | k in polled ensures Revalidated(server, k, items[k].pr, cursor, kept, now) {
      assert Revalidated(server, k, items[k].pr, cursor, etags, now);
      if items[k].pr {
        StillRefreshed(server, etags, kept, k, P.Reviews, now);
        StillRefreshed(server, etags, kept, k, P.ReviewComments(cursor), now);
      }
      StillRefreshed(server, etags, kept, k, P.Comments(cursor), now);
    }
  }

  /** Without a cursor, no page was processed. */
  lemma NoEtags(cursor: Option<int>, etags: Etags, processed: Pages, now: int)
    requires Named(etags, processed) && AtCursor(etags, cursor) && (cursor.None? ==> processed == {})
    ensures AtCursor(etags, Some(cursor.GetOr(now))) && forall told :: AllTold({}, now, told)
  {
  }

  // --- What a poll tells ---------------------------------------------------------------------

  lemma {:induction false} FromQualifying(es: seq<Entry>, cursor: int, id: EventId)
    requires Times(Events(Qualifying(es, cursor)), id) > 0
    ensures exists e :: e in es && Qualifies(e, cursor) && e.event == id
  {
    if es != [] {
      var n := |es| - 1;
      var rest := Qualifying(es[..n], cursor);
      assert es == es[..n] + [es[n]];
      if Qualifies(es[n], cursor) && es[n].event == id {
      } else {
        if Qualifies(es[n], cursor) {
          assert (rest + [es[n]])[..|rest|] == rest;
          TimesAppend(Events(rest), es[n].event, id);
        }
        FromQualifying(es[..n], cursor, id);
      }
    }
  }

  lemma {:induction false} FromFlat(bodies: seq<P.Body>, e: Entry)
    requires e in Flat(bodies)
    ensures exists b :: b in bodies && e in b
  {
    if bodies != [] {
      var n := |bodies| - 1;
      assert bodies == bodies[..n] + [bodies[n]];
      if e in bodies[n] {
        assert bodies[n] in bodies;
      } else {
        FromFlat(bodies[..n], e);
      }
    }
  }

  lemma {:induction false} FromChanged(server: P.Server, etags: Etags, key: Key, l: P.Listing, bodies: seq<P.Body>,
                                       b: P.Body)
    returns (q: nat)
    requires b in P.Changed(server, etags, key, l, bodies)
    ensures 1 <= q <= |bodies| && bodies[q - 1] == b && !P.Same(server, etags, P.Path(key, l, q))
  {
    var n := |bodies| - 1;
    if !P.Same(server, etags, P.Path(key, l, n + 1)) && bodies[n] == b {
      q := n + 1;
    } else {
      q := FromChanged(server, etags, key, l, bodies[..n], b);
    }
  }

  /** A qualifying entry of a listing's changed pages was sent. */
  lemma {:induction false} ListingSent(server: P.Server, etags: Etags, key: Key, l: P.Listing, bodies: seq<P.Body>,
                                       cursor: int, id: EventId)
    requires P.Has(server, key, l, bodies)
    requires Times(Events(Qualifying(Flat(P.Changed(server, etags, key, l, bodies)), cursor)), id) > 0
    ensures exists p, i :: Sent(server, etags, {key}, cursor, p, i, id)
  {
    hide P.Same;
    var changed := P.Changed(server, etags, key, l, bodies);
    FromQualifying(Flat(changed), cursor, id);
    var e :| e in Flat(changed) && Qualifies(e, cursor) && e.event == id;
    FromFlat(changed, e);
    var b :| b in changed && e in b;
    var q := FromChanged(server, etags, key, l, bodies, b);
    var i: nat :| i < |b| && b[i] == e;
    assert Sent(server, etags, {key}, cursor, P.Path(key, l, q), i, id);
  }

  /** All a poll finds was sent. */
  lemma {:induction false} FoundOnly(server: P.Server, etags: Etags, key: Key, cursor: int, r: seq<P.Body>,
                                     i: seq<P.Body>, c: seq<P.Body>, found: seq<OpEvent>, told: set<EventId>)
    requires P.Has(server, key, P.Reviews, r) && P.Has(server, key, P.ReviewComments(cursor), i)
             && P.Has(server, key, P.Comments(cursor), c)
    requires found == Reference(Flat(P.Changed(server, etags, key, P.Reviews, r)),
                                Flat(P.Changed(server, etags, key, P.ReviewComments(cursor), i)),
                                Flat(P.Changed(server, etags, key, P.Comments(cursor), c)), cursor)
    ensures OnlyTold(server, etags, {key}, cursor, told, told + IdSet(found))
  {
    hide P.Has, P.Changed, Reference, IdSet, Qualifying, Flat, Sent;
    var rs, is_, cs := P.Changed(server, etags, key, P.Reviews, r),
        P.Changed(server, etags, key, P.ReviewComments(cursor), i),
            P.Changed(server, etags, key, P.Comments(cursor), c);
    forall id | id in IdSet(found) ensures exists p, i :: Sent(server, etags, {key}, cursor, p, i, id) {
      ReportsInIdSet(found, id);
      EachIdOnce(Flat(rs), Flat(is_), Flat(cs), cursor, id);
      if Times(Events(Qualifying(Flat(rs), cursor)), id) > 0 {
        ListingSent(server, etags, key, P.Reviews, r, cursor, id);
      } else if Times(Events(Qualifying(Flat(is_), cursor)), id) > 0 {
        ListingSent(server, etags, key, P.ReviewComments(cursor), i, cursor, id);
      } else {
        ListingSent(server, etags, key, P.Comments(cursor), c, cursor, id);
      }
    }
  }

  /** The validators of these items are as they were. */
  ghost predicate Untouched(a: Etags, b: Etags, keys: set<Key>) {
    forall p: P.Path :: p.key in keys ==> (p in a <==> p in b) && (p in a ==> a[p] == b[p])
  }

  /** Between the polls of a cycle: REST is still to be polled. */
  ghost predicate PolledSoFar(server: P.Server, items: map<Key, HotItem>, etags0: Etags, etags: Etags, rest: set<Key>,
                              order: seq<Key>, steps: seq<Step>, cursor: int, told0: set<EventId>, told: set<EventId>,
                              now: int) {
    && Untouched(etags0, etags, rest) && OnlyTold(server, etags0, KeysIn(order), cursor, told0, told)
    && AllRevalidated(server, items, KeysIn(order), cursor, etags, now)
    && PollSteps(server, etags0, items, cursor, now, order, steps) && told == told0 + FoundIds(steps)
    && KeptBut(etags0, etags, KeysIn(order), now)
  }

  lemma NonePolled(server: P.Server, items: map<Key, HotItem>, etags: Etags, cursor: int, told: set<EventId>, now: int)
    ensures forall rest :: PolledSoFar(server, items, etags, etags, rest, [], [], cursor, told, told, now)
    ensures KeysIn([]) == {}
  {
  }

  lemma {:induction false} AllPolled(server: P.Server, items: map<Key, HotItem>, etags0: Etags, etags: Etags,
                                     rest: set<Key>, order: seq<Key>, steps: seq<Step>, cursor: int,
                                     told0: set<EventId>, told: set<EventId>, now: int)
    requires PolledSoFar(server, items, etags0, etags, rest, order, steps, cursor, told0, told, now)
    ensures OnlyTold(server, etags0, KeysIn(order), cursor, told0, told)
            && AllRevalidated(server, items, KeysIn(order), cursor, etags, now)
            && KeptBut(etags0, etags, KeysIn(order), now)
    ensures PollSteps(server, etags0, items, cursor, now, order, steps) && |order| == |steps|
            && told == told0 + FoundIds(steps)
  {
    hide OnlyTold, AllRevalidated, PollStep;
  }

  lemma PolledMore(server: P.Server, items: map<Key, HotItem>, etags0: Etags, etags1: Etags, etags2: Etags,
                   rest: set<Key>, key: Key, order: seq<Key>, steps: seq<Step>, step: Option<Step>, cursor: int,
                   told0: set<EventId>, told1: set<EventId>, told2: set<EventId>, now: int)
    requires PolledSoFar(server, items, etags0, etags1, rest + {key}, order, steps, cursor, told0, told1, now)
    requires key !in rest && key !in KeysIn(order) && key in items
    requires P.OthersKept(etags1, etags2, key) && OnlyTold(server, etags1, {key}, cursor, told1, told2)
    requires step.Some? ==> Revalidated(server, key, items[key].pr, cursor, etags2, now)
    requires step.Some? ==> PollStep(server, etags1, key, items[key].pr, cursor, now, step.value)
    requires told2 == if step.Some? then told1 + IdSet(step.value.evs) else told1
    requires step.None? ==> P.SameButUsed(etags1, etags2) && P.UsedNow(etags1, etags2, now)
    ensures if step.Some? then PolledSoFar(server, items, etags0, etags2, rest, order + [key], steps + [step.value],
                                           cursor, told0, told2, now)
            else PolledSoFar(server, items, etags0, etags2, rest, order, steps, cursor, told0, told2, now)
  {
    hide Revalidated, PollStep, IdSet, FoundIds, KeptBut, P.SameButUsed, P.UsedNow, PollSteps;
    var order' := if step.Some? then order + [key] else order;
    KeysMore(order, key);
    MoreKept(etags0, etags1, etags2, KeysIn(order), key, step.Some?, now);
    forall id | id in told2 && id !in told0 ensures exists p, i ::
                                                      Sent(server, etags0, KeysIn(order'), cursor, p, i, id) {
      if id in told1 {
        var p, i :| Sent(server, etags0, KeysIn(order), cursor, p, i, id);
        assert Sent(server, etags0, KeysIn(order'), cursor, p, i, id);
      } else {
        var p, i :| Sent(server, etags1, {key}, cursor, p, i, id);
        assert Sent(server, etags0, KeysIn(order'), cursor, p, i, id);
      }
    }
    forall k | k in KeysIn(order') ensures Revalidated(server, k, items[k].pr, cursor, etags2, now) {
      if k != key {
        OtherRevalidated(server, k, items[k].pr, cursor, etags1, etags2, key, now);
      }
    }
    if step.Some? {
      StepUntouched(server, etags0, etags1, key, items[key].pr, cursor, now, step.value);
      StepsMore(server, etags0, items, cursor, now, order, steps, key, step.value);
    }
  }

  lemma MoreKept(etags0: Etags, etags1: Etags, etags2: Etags, keys: set<Key>, key: Key, polled: bool, now: int)
    requires KeptBut(etags0, etags1, keys, now) && P.OthersKept(etags1, etags2, key)
    requires !polled ==> P.SameButUsed(etags1, etags2) && P.UsedNow(etags1, etags2, now)
    ensures KeptBut(etags0, etags2, if polled then keys + {key} else keys, now)
  {
  }

  lemma {:induction false} StepsMore(server: P.Server, etags: Etags, items: map<Key, HotItem>, cursor: int, now: int,
                                     order: seq<Key>, steps: seq<Step>, key: Key, step: Step)
    requires PollSteps(server, etags, items, cursor, now, order, steps) && key !in KeysIn(order) && key in items
    requires PollStep(server, etags, key, items[key].pr, cursor, now, step)
    ensures PollSteps(server, etags, items, cursor, now, order + [key], steps + [step])
    ensures FoundIds(steps + [step]) == FoundIds(steps) + IdSet(step.evs)
  {
    hide Finds;
    assert (steps + [step])[..|steps|] == steps;
    assert forall i :: 0 <= i < |order| ==> order[i] in KeysIn(order);
  }

  /** A poll sees the validators the cycle started with. */
  lemma StepUntouched(server: P.Server, a: Etags, b: Etags, key: Key, pr: bool, cursor: int, now: int, step: Step)
    requires Untouched(a, b, {key}) && PollStep(server, b, key, pr, cursor, now, step)
    ensures PollStep(server, a, key, pr, cursor, now, step)
  {
    hide P.Unconditional, Reference, Flat;
    var r, i, c :| FindsIn(server, b, key, pr, cursor, r, i, c, step.evs);
    ChangedUntouched(server, a, b, key, P.Reviews, r);
    ChangedUntouched(server, a, b, key, P.ReviewComments(cursor), i);
    ChangedUntouched(server, a, b, key, P.Comments(cursor), c);
    assert FindsIn(server, a, key, pr, cursor, r, i, c, step.evs);
  }

  lemma {:induction false} ChangedUntouched(server: P.Server, a: Etags, b: Etags, key: Key, l: P.Listing,
                                            bodies: seq<P.Body>)
    requires Untouched(a, b, {key})
    ensures P.Changed(server, a, key, l, bodies) == P.Changed(server, b, key, l, bodies)
  {
    if bodies != [] {
      ChangedUntouched(server, a, b, key, l, bodies[..|bodies| - 1]);
    }
  }

  lemma OtherRevalidated(server: P.Server, k: Key, pr: bool, cursor: int, a: Etags, b: Etags, key: Key, now: int)
    requires Revalidated(server, k, pr, cursor, a, now) && P.OthersKept(a, b, key) && k != key
    ensures Revalidated(server, k, pr, cursor, b, now)
  {
    hide P.Refreshed;
    if pr {
      StillRefreshed(server, a, b, k, P.Reviews, now);
      StillRefreshed(server, a, b, k, P.ReviewComments(cursor), now);
    }
    StillRefreshed(server, a, b, k, P.Comments(cursor), now);
  }

  ghost function Read(key: Key, cursor: int, r: seq<P.Body>, i: seq<P.Body>, c: seq<P.Body>): Pages {
    PagesOf(key, P.Reviews, r) + PagesOf(key, P.ReviewComments(cursor), i) + PagesOf(key, P.Comments(cursor), c)
  }
}

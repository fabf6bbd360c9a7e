/**
 The operator's reviews and comments on an item (crates/bot-poll/src/hot.rs,
 operator_events): a loop that files each inline comment under its review
 through an index map into the growing vector, against a reference that says
 directly which event each entry belongs to.
 */
module OperatorEvents {
  import opened Options
  import opened News

  /** A review, an inline review comment or a conversation comment, as GitHub lists it. */
  datatype Entry = Entry(id: nat, byOperator: bool, at: Option<int>, event: EventId, url: string,
                         review: Option<nat>, state: string, commit: string, promote: bool)

  datatype Act =
    | ActReview(state: string, commit: string)
    | ActComment(promote: bool)
    | ActReviewComment(review: Option<nat>)

  datatype OpEvent = OpEvent(id: EventId, url: string, at: int, act: Act, also: seq<EventId>)

  // --- The reference -----------------------------------------------------

  /** Submitted, by the operator, at or after the cursor. */
  predicate Qualifies(e: Entry, cursor: int) {
    e.at.Some? && e.byOperator && e.at.value >= cursor
  }

  function Qualifying(es: seq<Entry>, cursor: int): (q: seq<Entry>)
    ensures forall i :: 0 <= i < |q| ==> Qualifies(q[i], cursor)
  {
    if es == [] then []
    else
      var rest := Qualifying(es[..|es| - 1], cursor);
      if Qualifies(es[|es| - 1], cursor) then rest + [es[|es| - 1]] else rest
  }

  /** The last of the reviews with this id. */
  function Owner(reviews: seq<Entry>, id: nat): (i: Option<nat>)
    ensures i.Some? ==> i.value < |reviews| && reviews[i.value].id == id
    ensures i.None? ==> forall k :: 0 <= k < |reviews| ==> reviews[k].id != id
  {
    if reviews == [] then None
    else if reviews[|reviews| - 1].id == id then Some(|reviews| - 1)
    else Owner(reviews[..|reviews| - 1], id)
  }

  function OwnerOf(reviews: seq<Entry>, c: Entry): (i: Option<nat>)
    ensures i.Some? ==> i.value < |reviews| && c.review == Some(reviews[i.value].id)
  {
    if c.review.Some? then Owner(reviews, c.review.value) else None
  }

  /** The events of the comments that belong to review i (None: to no review listed). */
  ghost function Under(reviews: seq<Entry>, comments: seq<Entry>, i: Option<nat>): seq<Entry> {
    if comments == [] then []
    else
      var c := comments[|comments| - 1];
      var rest := Under(reviews, comments[..|comments| - 1], i);
      if OwnerOf(reviews, c) == i then rest + [c] else rest
  }

  function Events(es: seq<Entry>): (r: seq<EventId>)
    ensures |r| == |es|
  {
    if es == [] then [] else Events(es[..|es| - 1]) + [es[|es| - 1].event]
  }

  ghost function ReviewEvent(reviews: seq<Entry>, comments: seq<Entry>, i: nat): OpEvent
    requires i < |reviews|
  {
    var r := reviews[i];
    OpEvent(r.event, r.url, r.at.GetOr(0), ActReview(r.state, r.commit), Events(Under(reviews, comments, Some(i))))
  }

  ghost function ReviewEvents(reviews: seq<Entry>, comments: seq<Entry>): seq<OpEvent> {
    seq(|reviews|, i requires 0 <= i < |reviews| => ReviewEvent(reviews, comments, i))
  }

  function LooseEvent(c: Entry): OpEvent {
    OpEvent(c.event, c.url, c.at.GetOr(0), ActReviewComment(c.review), [])
  }

  function CommentEvent(c: Entry): OpEvent {
    OpEvent(c.event, c.url, c.at.GetOr(0), ActComment(c.promote), [])
  }

  function Loose(es: seq<Entry>): seq<OpEvent> {
    if es == [] then [] else Loose(es[..|es| - 1]) + [LooseEvent(es[|es| - 1])]
  }

  function Conversation(es: seq<Entry>): seq<OpEvent> {
    if es == [] then [] else Conversation(es[..|es| - 1]) + [CommentEvent(es[|es| - 1])]
  }

  /** The events before sorting, from qualifying entries. */
  ghost function Grouped(reviews: seq<Entry>, inlined: seq<Entry>, comments: seq<Entry>): seq<OpEvent> {
    ReviewEvents(reviews, inlined) + Loose(Under(reviews, inlined, None)) + Conversation(comments)
  }

  function Insert(s: seq<OpEvent>, e: OpEvent): seq<OpEvent> {
    if s == [] then [e]
    else if s[|s| - 1].at <= e.at then s + [e]
    else Insert(s[..|s| - 1], e) + [s[|s| - 1]]
  }

  /** A stable sort by time. */
  function SortByTime(s: seq<OpEvent>): seq<OpEvent> {
    if s == [] then [] else Insert(SortByTime(s[..|s| - 1]), s[|s| - 1])
  }

  ghost function Reference(reviews: seq<Entry>, inlined: seq<Entry>, comments: seq<Entry>, cursor: int): seq<OpEvent> {
    SortByTime(Grouped(Qualifying(reviews, cursor), Qualifying(inlined, cursor), Qualifying(comments, cursor)))
  }

  // --- The source's three loops ------------------------------------------

  ghost predicate Indexes(byReview: map<nat, nat>, rs: seq<Entry>) {
    && (forall id :: id in byReview <==> Owner(rs, id).Some?)
    && (forall id :: id in byReview ==> Owner(rs, id) == Some(byReview[id]))
  }

  /** The reviews' events with their comments, then the comments of no review listed. */
  ghost function Filed(rs: seq<Entry>, cs: seq<Entry>): seq<OpEvent> {
    ReviewEvents(rs, cs) + Loose(Under(rs, cs, None))
  }

  lemma FileAnother(rs: seq<Entry>, cs: seq<Entry>, c: Entry)
    ensures |ReviewEvents(rs, cs)| == |rs|
    ensures match OwnerOf(rs, c)
            case Some(k) => var out := Filed(rs, cs);
              k < |out| && Filed(rs, cs + [c]) == out[k := out[k].(also := out[k].also + [c.event])]
            case None => Filed(rs, cs + [c]) == Filed(rs, cs) + [LooseEvent(c)]
  {
    hide Under, Loose;
    AnotherInline(rs, cs, c);
  }

  /** The reviews' events, and the index of each review id's last one. */
  method CollectReviews(reviews: seq<Entry>, cursor: int) returns (out: seq<OpEvent>, byReview: map<nat, nat>)
    ensures out == ReviewEvents(Qualifying(reviews, cursor), [])
    ensures Indexes(byReview, Qualifying(reviews, cursor))
  {
    out, byReview := [], map[];
    for i := 0 to |reviews|
      invariant out == ReviewEvents(Qualifying(reviews[..i], cursor), [])
      invariant Indexes(byReview, Qualifying(reviews[..i], cursor))
    {
      var r := reviews[i];
      assert reviews[..i + 1][..i] == reviews[..i];
      if Qualifies(r, cursor) {
        byReview := byReview[r.id := |out|];
        out := out + [OpEvent(r.event, r.url, r.at.value, ActReview(r.state, r.commit), [])];
        AnotherReview(Qualifying(reviews[..i], cursor), r);
      }
    }
    assert reviews[..|reviews|] == reviews;
  }

  lemma NothingFiled(rs: seq<Entry>)
    ensures Filed(rs, []) == ReviewEvents(rs, [])
  {
  }

  /** The inline comments, each under its review's event when that is one of them. */
  method CollectInline(ghost rs: seq<Entry>, reviews: seq<OpEvent>, byReview: map<nat, nat>, inlined: seq<Entry>,
                       cursor: int)
    returns (out: seq<OpEvent>)
    requires reviews == ReviewEvents(rs, [])
    requires Indexes(byReview, rs)
    ensures out == Filed(rs, Qualifying(inlined, cursor))
  {
    hide Under, Loose, Events, ReviewEvents, Filed;
    NothingFiled(rs);
    out := reviews;
    for i := 0 to |inlined|
      invariant out == Filed(rs, Qualifying(inlined[..i], cursor))
    {
      var c := inlined[i];
      assert inlined[..i + 1][..i] == inlined[..i];
      if Qualifies(c, cursor) {
        FileAnother(rs, Qualifying(inlined[..i], cursor), c);
        assert c.review.Some? ==> (c.review.value in byReview <==> Owner(rs, c.review.value).Some?);
        if c.review.Some? && c.review.value in byReview {
          var k := byReview[c.review.value];
          out := out[k := out[k].(also := out[k].also + [c.event])];
        } else {
          out := out + [LooseEvent(c)];
        }
      }
    }
    assert inlined[..|inlined|] == inlined;
  }

  method Collect(reviews: seq<Entry>, inlined: seq<Entry>, comments: seq<Entry>, cursor: int)
    returns (out: seq<OpEvent>)
    ensures out == Reference(reviews, inlined, comments, cursor)
  {
    var byReview;
    out, byReview := CollectReviews(reviews, cursor);
    out := CollectInline(Qualifying(reviews, cursor), out, byReview, inlined, cursor);
    ghost var grouped := out;
    for i := 0 to |comments|
      invariant out == grouped + Conversation(Qualifying(comments[..i], cursor))
    {
      var c := comments[i];
      assert comments[..i + 1][..i] == comments[..i];
      if Qualifies(c, cursor) {
        ghost var before := Qualifying(comments[..i], cursor);
        assert (before + [c])[..|before|] == before;
        out := out + [CommentEvent(c)];
      }
    }
    assert comments[..|comments|] == comments;
    out := SortByTime(out);
  }

  lemma {:induction false} AnotherReview(rs: seq<Entry>, r: Entry)
    ensures ReviewEvents(rs + [r], []) == ReviewEvents(rs, [])
              + [OpEvent(r.event, r.url, r.at.GetOr(0), ActReview(r.state, r.commit), [])]
    ensures forall id :: Owner(rs + [r], id) == if id == r.id then Some(|rs|) else Owner(rs, id)
  {
    assert (rs + [r])[..|rs|] == rs;
  }

  /** One more inline comment goes under its review, or stands alone. */
  lemma {:induction false} AnotherInline(rs: seq<Entry>, cs: seq<Entry>, c: Entry)
    ensures var before := ReviewEvents(rs, cs);
            match OwnerOf(rs, c)
            case Some(k) =>
              && ReviewEvents(rs, cs + [c]) == before[k := before[k].(also := before[k].also + [c.event])]
              && Under(rs, cs + [c], None) == Under(rs, cs, None)
            case None =>
              && ReviewEvents(rs, cs + [c]) == before
              && Under(rs, cs + [c], None) == Under(rs, cs, None) + [c]
              && Loose(Under(rs, cs + [c], None)) == Loose(Under(rs, cs, None)) + [LooseEvent(c)]
  {
    assert (cs + [c])[..|cs|] == cs;
    var u := Under(rs, cs, None);
    assert (u + [c])[..|u|] == u;
    forall i | 0 <= i < |rs|
      ensures ReviewEvent(rs, cs + [c], i) ==
              if OwnerOf(rs, c) == Some(i) then ReviewEvent(rs, cs, i).(also := ReviewEvent(rs, cs, i).also + [c.event])
              else ReviewEvent(rs, cs, i)
    {
      OneReview(rs, cs, c, i);
    }
    hide ReviewEvent, LooseEvent;
  }

  lemma OneReview(rs: seq<Entry>, cs: seq<Entry>, c: Entry, i: nat)
    requires i < |rs|
    ensures ReviewEvent(rs, cs + [c], i) ==
            if OwnerOf(rs, c) == Some(i) then ReviewEvent(rs, cs, i).(also := ReviewEvent(rs, cs, i).also + [c.event])
            else ReviewEvent(rs, cs, i)
  {
    var u := Under(rs, cs, Some(i));
    assert (cs + [c])[..|cs|] == cs && (u + [c])[..|u|] == u;
    hide OwnerOf;
  }

  // --- Every qualifying entry is accounted for exactly once -----------------

  /** How often an id is in a sequence. */
  ghost function Times(ids: seq<EventId>, id: EventId): nat {
    if ids == [] then 0 else Times(ids[..|ids| - 1], id) + if ids[|ids| - 1] == id then 1 else 0
  }

  /** How often events report an id: as their own, or as that of an inline comment of theirs. */
  ghost function Reports(evs: seq<OpEvent>, id: EventId): nat {
    if evs == [] then 0
    else
      var e := evs[|evs| - 1];
      Reports(evs[..|evs| - 1], id) + Times(e.also, id) + if e.id == id then 1 else 0
  }

  lemma {:induction false} ReportsAppend(a: seq<OpEvent>, b: seq<OpEvent>, id: EventId)
    ensures Reports(a + b, id) == Reports(a, id) + Reports(b, id)
  {
    if b == [] {
      assert a + b == a;
    } else {
      ReportsAppend(a, b[..|b| - 1], id);
      assert (a + b)[..|a + b| - 1] == a + b[..|b| - 1];
    }
  }

  lemma {:induction false} TimesAppend(ids: seq<EventId>, x: EventId, id: EventId)
    ensures Times(ids + [x], id) == Times(ids, id) + if x == id then 1 else 0
  {
    assert (ids + [x])[..|ids|] == ids;
  }

  lemma {:induction false} ReportsAdd(evs: seq<OpEvent>, e: OpEvent, id: EventId)
    ensures Reports(evs + [e], id) == Reports(evs, id) + Times(e.also, id) + if e.id == id then 1 else 0
  {
    assert (evs + [e])[..|evs|] == evs;
  }

  lemma {:induction false} ReportsUpdate(evs: seq<OpEvent>, k: nat, x: EventId, id: EventId)
    requires k < |evs|
    ensures Reports(evs[k := evs[k].(also := evs[k].also + [x])], id) == Reports(evs, id) + if x == id then 1 else 0
  {
    hide Times, Reports;
    var e := evs[k].(also := evs[k].also + [x]);
    var n := |evs| - 1;
    ReportsLast(evs, id);
    ReportsLast(evs[k := e], id);
    if k == n {
      assert evs[k := e][..n] == evs[..n];
      TimesAppend(evs[n].also, x, id);
    } else {
      ReportsUpdate(evs[..n], k, x, id);
      assert evs[k := e][..n] == evs[..n][k := e];
    }
  }

  lemma {:induction false} ReportsLast(evs: seq<OpEvent>, id: EventId)
    requires evs != []
    ensures var e := evs[|evs| - 1];
            Reports(evs, id) == Reports(evs[..|evs| - 1], id) + Times(e.also, id) + if e.id == id then 1 else 0
  {
  }

  lemma {:induction false} ReportsOfReviews(rs: seq<Entry>, id: EventId)
    ensures Reports(ReviewEvents(rs, []), id) == Times(Events(rs), id)
  {
    if rs != [] {
      var n := |rs| - 1;
      ReportsOfReviews(rs[..n], id);
      AnotherReview(rs[..n], rs[n]);
      assert rs[..n] + [rs[n]] == rs;
      ReportsAdd(ReviewEvents(rs[..n], []), ReviewEvents(rs, [])[n], id);
      TimesAppend(Events(rs[..n]), rs[n].event, id);
    }
  }

  lemma {:induction false} ReportsOfInline(rs: seq<Entry>, cs: seq<Entry>, id: EventId)
    ensures Reports(ReviewEvents(rs, cs), id) + Reports(Loose(Under(rs, cs, None)), id) == Times(Events(rs), id)
              + Times(Events(cs), id)
  {
    if cs == [] {
      ReportsOfReviews(rs, id);
    } else {
      var n := |cs| - 1;
      ReportsOfInline(rs, cs[..n], id);
      AnotherInline(rs, cs[..n], cs[n]);
      assert cs[..n] + [cs[n]] == cs;
      TimesAppend(Events(cs[..n]), cs[n].event, id);
      match OwnerOf(rs, cs[n])
      case Some(k) => ReportsUpdate(ReviewEvents(rs, cs[..n]), k, cs[n].event, id);
      case None => ReportsAdd(Loose(Under(rs, cs[..n], None)), LooseEvent(cs[n]), id);
    }
  }

  lemma {:induction false} ReportsOfConversation(ks: seq<Entry>, id: EventId)
    ensures Reports(Conversation(ks), id) == Times(Events(ks), id)
  {
    if ks != [] {
      var n := |ks| - 1;
      ReportsOfConversation(ks[..n], id);
      ReportsAdd(Conversation(ks[..n]), CommentEvent(ks[n]), id);
      TimesAppend(Events(ks[..n]), ks[n].event, id);
    }
  }

  lemma {:induction false} InsertKeepsReports(s: seq<OpEvent>, e: OpEvent, id: EventId)
    ensures Reports(Insert(s, e), id) == Reports(s + [e], id)
  {
    ReportsAdd(s, e, id);
    if s == [] {
      assert [] + [e] == [e];
    } else if s[|s| - 1].at > e.at {
      var n := |s| - 1;
      InsertKeepsReports(s[..n], e, id);
      ReportsAdd(s[..n], e, id);
      ReportsAdd(Insert(s[..n], e), s[n], id);
    }
  }

  lemma {:induction false} SortKeepsReports(s: seq<OpEvent>, id: EventId)
    ensures Reports(SortByTime(s), id) == Reports(s, id)
  {
    if s != [] {
      var n := |s| - 1;
      SortKeepsReports(s[..n], id);
      InsertKeepsReports(SortByTime(s[..n]), s[n], id);
      ReportsAdd(SortByTime(s[..n]), s[n], id);
    }
  }

  /** Conservation: an id is reported as often as qualifying entries carry it, as an event or with its review's. */
  lemma {:induction false} EachIdOnce(reviews: seq<Entry>, inlined: seq<Entry>, comments: seq<Entry>, cursor: int,
                                      id: EventId)
    ensures Reports(Reference(reviews, inlined, comments, cursor), id) ==
            Times(Events(Qualifying(reviews, cursor)), id) + Times(Events(Qualifying(inlined, cursor)), id)
            + Times(Events(Qualifying(comments, cursor)), id)
  {
    var rs, cs, ks := Qualifying(reviews, cursor), Qualifying(inlined, cursor), Qualifying(comments, cursor);
    var a, b, c := ReviewEvents(rs, cs), Loose(Under(rs, cs, None)), Conversation(ks);
    SortKeepsReports(Grouped(rs, cs, ks), id);
    ReportsAppend(a + b, c, id);
    ReportsAppend(a, b, id);
    ReportsOfInline(rs, cs, id);
    ReportsOfConversation(ks, id);
  }

  ghost predicate Ordered(s: seq<OpEvent>) {
    forall i, j :: 0 <= i < j < |s| ==> s[i].at <= s[j].at
  }

  ghost function AtTime(s: seq<OpEvent>, t: int): seq<OpEvent> {
    if s == [] then []
    else
      var rest := AtTime(s[..|s| - 1], t);
      if s[|s| - 1].at == t then rest + [s[|s| - 1]] else rest
  }

  lemma {:induction false} InsertOrdered(s: seq<OpEvent>, e: OpEvent)
    requires Ordered(s)
    ensures Ordered(Insert(s, e))
    ensures forall x :: x in Insert(s, e) <==> x in s || x == e
  {
    if s != [] && s[|s| - 1].at > e.at {
      var n := |s| - 1;
      assert s == s[..n] + [s[n]];
      InsertOrdered(s[..n], e);
      var r := Insert(s[..n], e);
      forall x | x in r ensures x.at <= s[n].at {
        if x != e { assert x in s[..n]; }
      }
      OrderedMore(r, s[n]);
    }
  }

  lemma OrderedMore(s: seq<OpEvent>, e: OpEvent)
    requires Ordered(s) && forall x :: x in s ==> x.at <= e.at
    ensures Ordered(s + [e])
  {
  }

  lemma {:induction false} InsertStable(s: seq<OpEvent>, e: OpEvent, t: int)
    requires Ordered(s)
    ensures AtTime(Insert(s, e), t) == AtTime(s, t) + if e.at == t then [e] else []
  {
    if s == [] {
      assert [e][..0] == [];
    } else if s[|s| - 1].at <= e.at {
      assert (s + [e])[..|s|] == s;
    } else {
      var n := |s| - 1;
      InsertStable(s[..n], e, t);
      assert Insert(s, e)[..|Insert(s, e)| - 1] == Insert(s[..n], e);
      if e.at == t { NoneAt(s, t, e); }
    }
  }

  /** Past the last element at or before e's time, AtTime adds nothing at e's time. */
  lemma {:induction false} NoneAt(s: seq<OpEvent>, t: int, e: OpEvent)
    requires s != [] && s[|s| - 1].at > t
    ensures AtTime(s, t) == AtTime(s[..|s| - 1], t)
  {
  }

  /** The events come oldest first, those of one time in the order they were found. */
  lemma {:induction false} OldestFirst(s: seq<OpEvent>, t: int)
    ensures Ordered(SortByTime(s))
    ensures AtTime(SortByTime(s), t) == AtTime(s, t)
  {
    if s != [] {
      OldestFirst(s[..|s| - 1], t);
      InsertOrdered(SortByTime(s[..|s| - 1]), s[|s| - 1]);
      InsertStable(SortByTime(s[..|s| - 1]), s[|s| - 1], t);
    }
  }

  // --- What an event says, by the entries themselves ---------------------------------------

  /** The event is the review's. */
  ghost predicate OfReview(ev: OpEvent, r: Entry) {
    ev.id == r.event && ev.url == r.url && r.at == Some(ev.at) && ev.act == ActReview(r.state, r.commit)
  }

  /** The event is that of an inline comment on its own, which keeps its review's number. */
  ghost predicate OfInline(ev: OpEvent, c: Entry) {
    ev.id == c.event && ev.url == c.url && c.at == Some(ev.at) && ev.act == ActReviewComment(c.review) && ev.also == []
  }

  ghost predicate OfComment(ev: OpEvent, c: Entry) {
    ev.id == c.event && ev.url == c.url && c.at == Some(ev.at) && ev.act == ActComment(c.promote) && ev.also == []
  }

  /** A qualifying entry of these. */
  ghost predicate Counts(es: seq<Entry>, e: Entry, cursor: int) {
    e in es && e.byOperator && e.at.Some? && e.at.value >= cursor
  }

  /** A qualifying review has the comment's review number. */
  ghost predicate HasReview(reviews: seq<Entry>, c: Entry, cursor: int) {
    exists r :: Counts(reviews, r, cursor) && c.review == Some(r.id)
  }

  /** Under a review's event are ids of qualifying inline comments of that review only. */
  ghost predicate AlsoOf(ev: OpEvent, r: Entry, inlined: seq<Entry>, cursor: int) {
    forall x :: x in ev.also ==> exists c :: Counts(inlined, c, cursor) && c.event == x && c.review == Some(r.id)
  }

  lemma {:induction false} InQualifying(es: seq<Entry>, cursor: int, e: Entry)
    ensures e in Qualifying(es, cursor) <==> Counts(es, e, cursor)
  {
    if es != [] {
      var n := |es| - 1;
      InQualifying(es[..n], cursor, e);
      assert es == es[..n] + [es[n]];
    }
  }

  lemma {:induction false} InUnder(rs: seq<Entry>, cs: seq<Entry>, i: Option<nat>, c: Entry)
    ensures c in Under(rs, cs, i) <==> c in cs && OwnerOf(rs, c) == i
  {
    if cs != [] {
      var n := |cs| - 1;
      InUnder(rs, cs[..n], i, c);
      assert cs == cs[..n] + [cs[n]];
    }
  }

  lemma {:induction false} InEvents(es: seq<Entry>, x: EventId)
    ensures x in Events(es) <==> exists e :: e in es && e.event == x
  {
    if es != [] {
      var n := |es| - 1;
      InEvents(es[..n], x);
      assert es == es[..n] + [es[n]];
    }
  }

  lemma {:induction false} InLoose(es: seq<Entry>, ev: OpEvent)
    requires forall e :: e in es ==> e.at.Some?
    ensures ev in Loose(es) <==> exists e :: e in es && OfInline(ev, e)
  {
    if es != [] {
      var n := |es| - 1;
      InLoose(es[..n], ev);
      assert es == es[..n] + [es[n]];
      assert OfInline(ev, es[n]) <==> ev == LooseEvent(es[n]);
    }
  }

  lemma {:induction false} InConversation(es: seq<Entry>, ev: OpEvent)
    requires forall e :: e in es ==> e.at.Some?
    ensures ev in Conversation(es) <==> exists e :: e in es && OfComment(ev, e)
  {
    if es != [] {
      var n := |es| - 1;
      InConversation(es[..n], ev);
      assert es == es[..n] + [es[n]];
      assert OfComment(ev, es[n]) <==> ev == CommentEvent(es[n]);
    }
  }

  lemma {:induction false} InSorted(s: seq<OpEvent>, ev: OpEvent)
    ensures ev in SortByTime(s) <==> ev in s
  {
    if s != [] {
      var n := |s| - 1;
      InSorted(s[..n], ev);
      OldestFirst(s[..n], 0);
      InsertOrdered(SortByTime(s[..n]), s[n]);
      assert s == s[..n] + [s[n]];
    }
  }

  lemma {:induction false} Unowned(reviews: seq<Entry>, c: Entry, cursor: int)
    ensures OwnerOf(Qualifying(reviews, cursor), c).None? <==> !HasReview(reviews, c, cursor)
  {
    var rs := Qualifying(reviews, cursor);
    var i := OwnerOf(rs, c);
    if i.Some? {
      InQualifying(reviews, cursor, rs[i.value]);
    }
    if r :| Counts(reviews, r, cursor) && c.review == Some(r.id) {
      InQualifying(reviews, cursor, r);
    }
  }

  lemma InReviews(rs: seq<Entry>, cs: seq<Entry>, ev: OpEvent)
    ensures ev in ReviewEvents(rs, cs) <==> exists i :: 0 <= i < |rs| && ev == ReviewEvent(rs, cs, i)
  {
    hide ReviewEvent;
    var s := ReviewEvents(rs, cs);
    if i :| 0 <= i < |rs| && ev == ReviewEvent(rs, cs, i) {
      assert s[i] == ev;
    }
  }

  /** Where a reference event is from, before sorting. */
  lemma InGrouped(rs: seq<Entry>, cs: seq<Entry>, ks: seq<Entry>, ev: OpEvent)
    requires forall e :: e in rs || e in cs || e in ks ==> e.at.Some?
    ensures ev in Grouped(rs, cs, ks) <==>
            || (exists i :: 0 <= i < |rs| && ev == ReviewEvent(rs, cs, i))
            || (exists c :: c in cs && OwnerOf(rs, c).None? && OfInline(ev, c))
            || (exists c :: c in ks && OfComment(ev, c))
  {
    var u := Under(rs, cs, None);
    forall c ensures c in u <==> c in cs && OwnerOf(rs, c).None? {
      InUnder(rs, cs, None, c);
    }
    InLoose(u, ev);
    InConversation(ks, ev);
    hide OfInline, OfComment, ReviewEvent, Under, OwnerOf;
    InReviews(rs, cs, ev);
  }

  lemma {:induction false} AllQualify(es: seq<Entry>, cursor: int)
    ensures forall e :: e in Qualifying(es, cursor) <==> Counts(es, e, cursor)
    ensures forall e :: e in Qualifying(es, cursor) ==> e.at.Some?
  {
    forall e ensures e in Qualifying(es, cursor) <==> Counts(es, e, cursor) {
      InQualifying(es, cursor, e);
    }
  }

  /** The event of review i, by its entry. */
  lemma {:induction false} ReviewSays(rs: seq<Entry>, inlined: seq<Entry>, cursor: int, i: nat)
    requires i < |rs| && rs[i].at.Some?
    ensures var ev := ReviewEvent(rs, Qualifying(inlined, cursor), i);
            OfReview(ev, rs[i]) && AlsoOf(ev, rs[i], inlined, cursor)
  {
    var cs := Qualifying(inlined, cursor);
    var ev := ReviewEvent(rs, cs, i);
    var u := Under(rs, cs, Some(i));
    forall x | x in ev.also ensures exists c :: Counts(inlined, c, cursor) && c.event == x
                                                && c.review == Some(rs[i].id) {
      InEvents(u, x);
      var c :| c in u && c.event == x;
      InUnder(rs, cs, Some(i), c);
      InQualifying(inlined, cursor, c);
    }
  }

  /**
   Every event is that of a qualifying entry, in all it says: a review's,
   with inline comments of that review; an inline comment's whose review is
   not among the qualifying ones, whose number it keeps; or a comment's.
   */
  lemma EventsAreEntries(reviews: seq<Entry>, inlined: seq<Entry>, comments: seq<Entry>, cursor: int, ev: OpEvent)
    requires ev in Reference(reviews, inlined, comments, cursor)
    ensures || (exists r :: Counts(reviews, r, cursor) && OfReview(ev, r) && AlsoOf(ev, r, inlined, cursor))
            || (exists c :: Counts(inlined, c, cursor) && !HasReview(reviews, c, cursor) && OfInline(ev, c))
            || (exists c :: Counts(comments, c, cursor) && OfComment(ev, c))
  {
    var rs, cs, ks := Qualifying(reviews, cursor), Qualifying(inlined, cursor), Qualifying(comments, cursor);
    InSorted(Grouped(rs, cs, ks), ev);
    AllQualify(reviews, cursor);
    AllQualify(inlined, cursor);
    AllQualify(comments, cursor);
    InGrouped(rs, cs, ks, ev);
    hide OfReview, OfInline, OfComment, AlsoOf, Counts, HasReview, OwnerOf, ReviewEvent, Grouped;
    if i :| 0 <= i < |rs| && ev == ReviewEvent(rs, cs, i) {
      ReviewSays(rs, inlined, cursor, i);
      assert rs[i] in rs;
    } else if c :| c in cs && OwnerOf(rs, c).None? && OfInline(ev, c) {
      Unowned(reviews, c, cursor);
    }
  }

  /** And every qualifying entry has its event: an inline comment of a qualifying review is under that review's. */
  lemma EntriesAreEvents(reviews: seq<Entry>, inlined: seq<Entry>, comments: seq<Entry>, cursor: int, e: Entry)
    ensures var evs := Reference(reviews, inlined, comments, cursor);
            && (Counts(reviews, e, cursor) ==> exists ev :: ev in evs && OfReview(ev, e))
            && (Counts(inlined, e, cursor) && !HasReview(reviews, e, cursor) ==>
                  exists ev :: ev in evs && OfInline(ev, e))
            && (Counts(inlined, e, cursor) && HasReview(reviews, e, cursor) ==>
                  exists ev, r :: ev in evs && Counts(reviews, r, cursor) && OfReview(ev, r) && e.review == Some(r.id)
                                  && e.event in ev.also)
            && (Counts(comments, e, cursor) ==> exists ev :: ev in evs && OfComment(ev, e))
  {
    var rs, cs, ks := Qualifying(reviews, cursor), Qualifying(inlined, cursor), Qualifying(comments, cursor);
    AllQualify(reviews, cursor);
    AllQualify(inlined, cursor);
    AllQualify(comments, cursor);
    if Counts(reviews, e, cursor) {
      var i: nat :| i < |rs| && rs[i] == e;
      Referred(rs, cs, ks, ReviewEvent(rs, cs, i));
      ReviewSays(rs, inlined, cursor, i);
    }
    if Counts(comments, e, cursor) {
      Referred(rs, cs, ks, CommentEvent(e));
      assert OfComment(CommentEvent(e), e);
    }
    if Counts(inlined, e, cursor) {
      Unowned(reviews, e, cursor);
      if HasReview(reviews, e, cursor) {
        var i := OwnerOf(rs, e).value;
        Referred(rs, cs, ks, ReviewEvent(rs, cs, i));
        ReviewSays(rs, inlined, cursor, i);
        InUnder(rs, cs, Some(i), e);
        InEvents(Under(rs, cs, Some(i)), e.event);
        assert rs[i] in rs;
      } else {
        Referred(rs, cs, ks, LooseEvent(e));
        assert OfInline(LooseEvent(e), e);
      }
    }
  }

  lemma Referred(rs: seq<Entry>, cs: seq<Entry>, ks: seq<Entry>, ev: OpEvent)
    requires forall e :: e in rs || e in cs || e in ks ==> e.at.Some?
    requires || (exists i :: 0 <= i < |rs| && ev == ReviewEvent(rs, cs, i))
             || (exists c :: c in cs && OwnerOf(rs, c).None? && OfInline(ev, c))
             || (exists c :: c in ks && OfComment(ev, c))
    ensures ev in SortByTime(Grouped(rs, cs, ks))
  {
    hide OfInline, OfComment, ReviewEvent, Under, OwnerOf, Grouped;
    InGrouped(rs, cs, ks, ev);
    InSorted(Grouped(rs, cs, ks), ev);
  }
}

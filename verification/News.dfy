/**
 What of one run's outputs is news (crates/bot-poll/src/lib.rs).

 An output is taken after parsing: per seen-set the items it lists, and
 which of its sets it lists in full.
 */
module News {
  import opened Options

  const FORGET_MS: int := 3600 * 1000
  const REPORTED_KEEP_MS: int := 7 * 24 * 3600 * 1000

  /** The id of a review, comment or report line, the same wherever it is listed. */
  datatype EventId =
    | Review(n: nat) | IssueComment(n: nat) | Discussion(n: nat)
    | Line(section: string, line: string)

  datatype Source = Notify | Inbox | Watch

  datatype SetName =
    | NotifySet | CoordinationSet | ApprovalSet | ForgeReviewSet | HealthSet | DriveSet | OperatorSet
    | ReviewSet | SignoffSet | PromotionSet | TextSet | RebaseSet | NewsSet | SweepSet

  datatype Kind = Plain(set_: SetName) | HealthP0

  datatype Item = Item(key: string, url: string, text: string, p0: bool, event: Option<EventId>)
  datatype NewsItem = NewsItem(url: string, text: string)
  datatype Output = Output(whole: set<SetName>, parsed: map<SetName, seq<Item>>)

  type Keys = map<string, int>
  type Seen = map<SetName, Keys>
  type Reported = map<EventId, int>
  type Outputs = map<Source, Output>
  type KindNews = map<Kind, seq<NewsItem>>

  function Sets(source: Source): seq<SetName> {
    match source
    case Notify => [NotifySet, CoordinationSet]
    case Inbox => [ApprovalSet, ForgeReviewSet]
    case Watch => [HealthSet, DriveSet, OperatorSet, ReviewSet, SignoffSet, PromotionSet, TextSet, RebaseSet, NewsSet]
  }

  /** The source that feeds a set; none feeds the sweep health's. */
  function SourceOf(s: SetName): Option<Source> {
    match s
    case NotifySet | CoordinationSet => Some(Notify)
    case ApprovalSet | ForgeReviewSet => Some(Inbox)
    case SweepSet => None
    case _ => Some(Watch)
  }

  // --- The specification ------------------------------------------------

  /** What the run lists of a set: None unless its source lists it in full. */
  function Listed(outputs: Outputs, s: SetName): (r: Option<seq<Item>>) {
    match SourceOf(s)
    case None => None
    case Some(source) =>
      if source in outputs && s in outputs[source].whole
      then Some(if s in outputs[source].parsed then outputs[source].parsed[s] else [])
      else None
  }

  function Prev(seen: Seen, s: SetName): Keys {
    if s in seen then seen[s] else map[]
  }

  predicate Known(item: Item, reported: Reported) {
    item.event.Some? && item.event.value in reported
  }

  /** Item i of a listing is news: its key's first there, not in the set, its event not known. */
  ghost predicate IsNews(items: seq<Item>, i: nat, prev: Keys, reported: Reported)
    requires i < |items|
  {
    && (forall j :: 0 <= j < i ==> items[j].key != items[i].key)
    && items[i].key !in prev
    && !Known(items[i], reported)
  }

  function KindOf(s: SetName, item: Item): Kind {
    if s == HealthSet && item.p0 then HealthP0 else Plain(s)
  }

  function SetOf(kind: Kind): SetName {
    if kind == HealthP0 then HealthSet else kind.set_
  }

  /** The news of KIND among the first n items of a listing of set s, in order. */
  ghost function NewsUpTo(s: SetName, kind: Kind, items: seq<Item>, n: nat, prev: Keys,
                          reported: Reported): seq<NewsItem>
    requires n <= |items|
  {
    if n == 0 then []
    else
      var rest := NewsUpTo(s, kind, items, n - 1, prev, reported);
      if IsNews(items, n - 1, prev, reported) && KindOf(s, items[n - 1]) == kind
      then rest + [NewsItem(items[n - 1].url, items[n - 1].text)]
      else rest
  }

  /** The news of KIND of one run. */
  ghost function RunNews(outputs: Outputs, seen: Seen, reported: Reported, kind: Kind): seq<NewsItem> {
    var s := SetOf(kind);
    match Listed(outputs, s)
    case None => []
    case Some(items) => NewsUpTo(s, kind, items, |items|, Prev(seen, s), reported)
  }

  /** The keys of the first n items, as of now. */
  ghost function KeysUpTo(items: seq<Item>, n: nat, now: int): Keys
    requires n <= |items|
  {
    if n == 0 then map[] else KeysUpTo(items, n - 1, now)[items[n - 1].key := now]
  }

  lemma {:induction false} KeysUpToHas(items: seq<Item>, n: nat, now: int, k: string)
    requires n <= |items|
    ensures k in KeysUpTo(items, n, now) <==> exists j :: 0 <= j < n && items[j].key == k
    ensures k in KeysUpTo(items, n, now) ==> KeysUpTo(items, n, now)[k] == now
  {
    if n > 0 {
      KeysUpToHas(items, n - 1, now, k);
    }
  }

  /** MARKED with the events of the first n items, as of now. */
  ghost function MarkUpTo(items: seq<Item>, n: nat, marked: Reported, now: int): Reported
    requires n <= |items|
  {
    if n == 0 then marked
    else
      var rest := MarkUpTo(items, n - 1, marked, now);
      match items[n - 1].event
      case None => rest
      case Some(e) => rest[e := now]
  }

  /** The listed keys, and those of PREV neither listed nor too old. */
  ghost function Kept(cur: Keys, prev: Keys, now: int): Keys {
    cur + map k | k in prev && k !in cur && now - prev[k] < FORGET_MS :: prev[k]
  }

  /** A seen-set after a full listing. */
  ghost function SetAfter(items: seq<Item>, prev: Keys, now: int): Keys {
    Kept(KeysUpTo(items, |items|, now), prev, now)
  }

  ghost function SeenAfter(outputs: Outputs, seen: Seen, now: int, s: SetName): Keys {
    match Listed(outputs, s)
    case None => Prev(seen, s)
    case Some(items) => SetAfter(items, Prev(seen, s), now)
  }

  /** The seen-sets after a run: the fed ones evaluated, any other kept. */
  ghost function AllSeen(outputs: Outputs, seen: Seen, now: int): Seen {
    map s: SetName | s in seen || SourceOf(s).Some? :: SeenAfter(outputs, seen, now, s)
  }

  /** MARKED with the events of the full listings of the first n of SETS. */
  ghost function MarkSets(outputs: Outputs, sets: seq<SetName>, n: nat, marked: Reported, now: int): Reported
    requires n <= |sets|
  {
    if n == 0 then marked
    else
      var rest := MarkSets(outputs, sets, n - 1, marked, now);
      match Listed(outputs, sets[n - 1])
      case None => rest
      case Some(items) => MarkUpTo(items, |items|, rest, now)
  }

  ghost function MarkAll(outputs: Outputs, marked: Reported, now: int): Reported {
    var n := MarkSets(outputs, Sets(Notify), |Sets(Notify)|, marked, now);
    var i := MarkSets(outputs, Sets(Inbox), |Sets(Inbox)|, n, now);
    MarkSets(outputs, Sets(Watch), |Sets(Watch)|, i, now)
  }

  ghost function Recent(marked: Reported, now: int): Reported {
    map e | e in marked && now - marked[e] < REPORTED_KEEP_MS :: marked[e]
  }

  ghost function ReportedAfter(outputs: Outputs, reported: Reported, now: int): Reported {
    Recent(MarkAll(outputs, reported, now), now)
  }

  function At(news: KindNews, kind: Kind): seq<NewsItem> {
    if kind in news then news[kind] else []
  }

  // --- The loops of the source -------------------------------------------

  method Keep(cur: Keys, prev: Keys, now: int) returns (out: Keys)
    ensures out == Kept(cur, prev, now)
  {
    out := cur;
    var rest := prev.Keys;
    while rest != {}
      invariant rest <= prev.Keys
      invariant out == cur + map k | k in prev && k !in rest && k !in cur && now - prev[k] < FORGET_MS :: prev[k]
      decreases rest
    {
      var k :| k in rest;
      if now - prev[k] < FORGET_MS && k !in out {
        out := out[k := prev[k]];
      }
      rest := rest - {k};
    }
  }

  /** What `At` becomes when one set's listing is taken. */
  ghost predicate NewsTaken(news: KindNews, news': KindNews, s: SetName, items: seq<Item>, n: nat, prev: Keys,
                            reported: Reported)
    requires n <= |items|
  {
    && (forall kind :: SetOf(kind) == s ==> At(news', kind) == NewsUpTo(s, kind, items, n, prev, reported))
    && (forall kind :: SetOf(kind) != s ==> At(news', kind) == At(news, kind))
  }

  function Add(news: KindNews, kind: Kind, item: Item): KindNews {
    news[kind := At(news, kind) + [NewsItem(item.url, item.text)]]
  }

  lemma TakeKind(was: KindNews, s: SetName, items: seq<Item>, n: nat, prev: Keys, reported: Reported, isNew: bool,
                 k: Kind)
    requires n < |items| && isNew == IsNews(items, n, prev, reported)
    requires SetOf(k) == s && At(was, k) == NewsUpTo(s, k, items, n, prev, reported)
    ensures At(if isNew then Add(was, KindOf(s, items[n]), items[n])
               else was, k) == NewsUpTo(s, k, items, n + 1, prev, reported)
  {
  }

  lemma TakeOne(news: KindNews, was: KindNews, s: SetName, items: seq<Item>, n: nat, prev: Keys, reported: Reported,
                isNew: bool)
    requires n < |items| && isNew == IsNews(items, n, prev, reported)
    requires NewsTaken(news, was, s, items, n, prev, reported)
    ensures NewsTaken(news, if isNew then Add(was, KindOf(s, items[n]), items[n])
                            else was, s, items, n + 1, prev, reported)
  {
    hide IsNews, NewsUpTo, Known;
    var now := if isNew then Add(was, KindOf(s, items[n]), items[n]) else was;
    forall k | SetOf(k) == s ensures At(now, k) == NewsUpTo(s, k, items, n + 1, prev, reported) {
      TakeKind(was, s, items, n, prev, reported, isNew, k);
    }
  }

  /** Whether item n is news, as the loops decide it. */
  lemma {:induction false} NewWhenFirst(items: seq<Item>, n: nat, now: int, prev: Keys, reported: Reported)
    requires n < |items|
    ensures IsNews(items, n, prev, reported) <==>
            items[n].key !in KeysUpTo(items, n, now) && items[n].key !in prev && !Known(items[n], reported)
  {
    KeysUpToHas(items, n, now, items[n].key);
  }

  /** One set's full listing: its new items join `news`, its events `marked`. */
  method ListSet(s: SetName, items: seq<Item>, prev: Keys, reported: Reported, now: int, news: KindNews,
                 marked: Reported)
    returns (cur: Keys, news': KindNews, marked': Reported)
    requires forall kind :: SetOf(kind) == s ==> At(news, kind) == []
    ensures cur == SetAfter(items, prev, now)
    ensures marked' == MarkUpTo(items, |items|, marked, now)
    ensures NewsTaken(news, news', s, items, |items|, prev, reported)
  {
    cur, news', marked' := map[], news, marked;
    for i := 0 to |items|
      invariant cur == KeysUpTo(items, i, now)
      invariant marked' == MarkUpTo(items, i, marked, now)
      invariant NewsTaken(news, news', s, items, i, prev, reported)
    {
      var item := items[i];
      // Checked against the events before this run.
      var known := Known(item, reported);
      if item.event.Some? {
        marked' := marked'[item.event.value := now];
      }
      NewWhenFirst(items, i, now, prev, reported);
      var again := item.key in cur;
      TakeOne(news, news', s, items, i, prev, reported, !again && item.key !in prev && !known);
      cur := cur[item.key := now];
      if !again && item.key !in prev && !known {
        news' := Add(news', KindOf(s, item), item);
      }
    }
    cur := Keep(cur, prev, now);
  }

  ghost predicate SeenTaken(outputs: Outputs, seen: Seen, now: int, next: Seen, next': Seen, sets: seq<SetName>) {
    && (forall s :: s in next' <==> s in next || s in sets)
    && (forall s :: Prev(next', s) == if s in sets then SeenAfter(outputs, seen, now, s) else Prev(next, s))
  }

  ghost predicate RunNewsTaken(outputs: Outputs, seen: Seen, reported: Reported, news: KindNews, news': KindNews,
                               sets: seq<SetName>) {
    forall kind :: At(news', kind) == if SetOf(kind) in sets then RunNews(outputs, seen, reported, kind)
                                      else At(news, kind)
  }

  /** Another set of the source: from the sets before it to those with it. */
  lemma TakeSet(outputs: Outputs, seen: Seen, reported: Reported, news: KindNews, was: KindNews, news': KindNews,
                sets: seq<SetName>, b: nat)
    requires b < |sets| && sets[b] !in sets[..b]
    requires RunNewsTaken(outputs, seen, reported, news, was, sets[..b])
    requires match Listed(outputs, sets[b])
             case None => news' == was && forall kind :: SetOf(kind) == sets[b] ==> At(news, kind) == []
             case Some(items) => NewsTaken(was, news', sets[b], items, |items|, Prev(seen, sets[b]), reported)
    ensures RunNewsTaken(outputs, seen, reported, news, news', sets[..b + 1])
  {
    assert sets[..b + 1] == sets[..b] + [sets[b]];
  }

  /** The sets of one source: what each becomes in NEXT, NEWS and MARKED. */
  method EvaluateSource(outputs: Outputs, source: Source, seen: Seen, reported: Reported, now: int, news: KindNews,
                        next: Seen, marked: Reported)
    returns (news': KindNews, next': Seen, marked': Reported)
    requires forall kind :: SetOf(kind) in Sets(source) ==> At(news, kind) == []
    ensures marked' == MarkSets(outputs, Sets(source), |Sets(source)|, marked, now)
    ensures SeenTaken(outputs, seen, now, next, next', Sets(source))
    ensures RunNewsTaken(outputs, seen, reported, news, news', Sets(source))
  {
    news', next', marked' := news, next, marked;
    var sets := Sets(source);
    for b := 0 to |sets|
      invariant marked' == MarkSets(outputs, sets, b, marked, now)
      invariant SeenTaken(outputs, seen, now, next, next', sets[..b])
      invariant RunNewsTaken(outputs, seen, reported, news, news', sets[..b])
    {
      var s := sets[b];
      SetsAreSourceOf(source, b);
      ghost var was, wasNext := news', next';
      var prev := Prev(seen, s);
      if source !in outputs || s !in outputs[source].whole {
        next' := next'[s := prev];
      } else {
        var items := if s in outputs[source].parsed then outputs[source].parsed[s] else [];
        var cur;
        cur, news', marked' := ListSet(s, items, prev, reported, now, news', marked');
        next' := next'[s := cur];
      }
      SeenOne(outputs, seen, now, next, wasNext, next', sets, b);
      TakeSet(outputs, seen, reported, news, was, news', sets, b);
    }
    assert sets[..|sets|] == sets;
  }

  lemma SeenOne(outputs: Outputs, seen: Seen, now: int, next: Seen, was: Seen, next': Seen, sets: seq<SetName>, b: nat)
    requires b < |sets|
    requires SeenTaken(outputs, seen, now, next, was, sets[..b])
    requires next' == was[sets[b] := SeenAfter(outputs, seen, now, sets[b])]
    ensures SeenTaken(outputs, seen, now, next, next', sets[..b + 1])
  {
    assert sets[..b + 1] == sets[..b] + [sets[b]];
  }

  lemma SetsAreSourceOf(source: Source, b: nat)
    requires b < |Sets(source)|
    ensures SourceOf(Sets(source)[b]) == Some(source)
    ensures Sets(source)[b] !in Sets(source)[..b]
  {
  }

  lemma SetComplete(s: SetName)
    ensures forall source :: s in Sets(source) <==> SourceOf(s) == Some(source)
  {
    var w := Sets(Watch);
    assert Sets(Notify)[0] == NotifySet && Sets(Notify)[1] == CoordinationSet;
    assert Sets(Inbox)[0] == ApprovalSet && Sets(Inbox)[1] == ForgeReviewSet;
    assert w[0] == HealthSet && w[1] == DriveSet && w[2] == OperatorSet && w[3] == ReviewSet && w[4] == SignoffSet;
    assert w[5] == PromotionSet && w[6] == TextSet && w[7] == RebaseSet && w[8] == NewsSet;
  }

  lemma Untaken(outputs: Outputs, seen: Seen, reported: Reported, news: KindNews, news': KindNews, taken: Source,
                source: Source)
    requires taken != source
    requires RunNewsTaken(outputs, seen, reported, news, news', Sets(taken))
    requires forall kind :: SetOf(kind) in Sets(source) ==> At(news, kind) == []
    ensures forall kind :: SetOf(kind) in Sets(source) ==> At(news', kind) == []
  {
    forall kind | SetOf(kind) in Sets(source) ensures At(news', kind) == [] {
      SetComplete(SetOf(kind));
    }
  }

  /** The three sources together are every set but the sweep health's, which has no listing. */
  lemma AllNews(outputs: Outputs, seen: Seen, reported: Reported, n1: KindNews, n2: KindNews, n3: KindNews)
    requires RunNewsTaken(outputs, seen, reported, map[], n1, Sets(Notify))
    requires RunNewsTaken(outputs, seen, reported, n1, n2, Sets(Inbox))
    requires RunNewsTaken(outputs, seen, reported, n2, n3, Sets(Watch))
    ensures forall kind :: At(n3, kind) == RunNews(outputs, seen, reported, kind)
  {
    forall kind ensures At(n3, kind) == RunNews(outputs, seen, reported, kind) {
      hide NewsUpTo;
      SetComplete(SetOf(kind));
    }
  }

  lemma OneSeen(outputs: Outputs, seen: Seen, now: int, s1: Seen, s2: Seen, s3: Seen, s: SetName)
    requires SeenTaken(outputs, seen, now, map[], s1, Sets(Notify))
    requires SeenTaken(outputs, seen, now, s1, s2, Sets(Inbox))
    requires SeenTaken(outputs, seen, now, s2, s3, Sets(Watch))
    ensures s in s3 <==> SourceOf(s).Some?
    ensures s in s3 ==> s3[s] == SeenAfter(outputs, seen, now, s)
  {
    hide SeenAfter;
    SetComplete(s);
    assert Prev(s3, s) == SeenAfter(outputs, seen, now, s) || SourceOf(s).None?;
  }

  lemma AllSeenTaken(outputs: Outputs, seen: Seen, now: int, s1: Seen, s2: Seen, s3: Seen)
    requires SeenTaken(outputs, seen, now, map[], s1, Sets(Notify))
    requires SeenTaken(outputs, seen, now, s1, s2, Sets(Inbox))
    requires SeenTaken(outputs, seen, now, s2, s3, Sets(Watch))
    ensures seen + s3 == AllSeen(outputs, seen, now)
  {
    var next := seen + s3;
    forall s ensures s in AllSeen(outputs, seen, now) <==> s in next
             ensures s in next ==> next[s] == AllSeen(outputs, seen, now)[s] {
      hide SeenTaken, SetAfter;
      OneSeen(outputs, seen, now, s1, s2, s3, s);
    }
  }

  /**
   What is new in one run's outputs against the seen-sets and the reported
   events, and both after it.
   */
  method Evaluate(outputs: Outputs, seen: Seen, reported: Reported, now: int)
    returns (news: KindNews, next: Seen, marked: Reported)
    ensures forall kind :: At(news, kind) == RunNews(outputs, seen, reported, kind)
    ensures next == AllSeen(outputs, seen, now)
    ensures marked == ReportedAfter(outputs, reported, now)
  {
    hide SeenTaken, RunNewsTaken, SeenAfter, RunNews, AllSeen;
    var n1, s1, m1 := EvaluateSource(outputs, Notify, seen, reported, now, map[], map[], reported);
    Untaken(outputs, seen, reported, map[], n1, Notify, Inbox);
    var n2, s2, m2 := EvaluateSource(outputs, Inbox, seen, reported, now, n1, s1, m1);
    Untaken(outputs, seen, reported, map[], n1, Notify, Watch);
    Untaken(outputs, seen, reported, n1, n2, Inbox, Watch);
    var n3, s3, m3 := EvaluateSource(outputs, Watch, seen, reported, now, n2, s2, m2);
    AllNews(outputs, seen, reported, n1, n2, n3);
    AllSeenTaken(outputs, seen, now, s1, s2, s3);
    news := n3;
    // The set no output feeds is kept as it is.
    next := seen + s3;
    marked := map e | e in m3 && now - m3[e] < REPORTED_KEEP_MS :: m3[e];
  }

  /** The new items of one seen-set, and the set after them: events don't count here. */
  method EvaluateSet(s: SetName, items: seq<Item>, prev: Keys, now: int) returns (news: seq<NewsItem>, cur: Keys)
    requires s != HealthSet
    ensures news == NewsUpTo(s, Plain(s), items, |items|, prev, map[])
    ensures cur == SetAfter(items, prev, now)
  {
    news, cur := [], map[];
    for i := 0 to |items|
      invariant cur == KeysUpTo(items, i, now)
      invariant news == NewsUpTo(s, Plain(s), items, i, prev, map[])
    {
      NewWhenFirst(items, i, now, prev, map[]);
      var again := items[i].key in cur;
      cur := cur[items[i].key := now];
      if !again && items[i].key !in prev {
        news := news + [NewsItem(items[i].url, items[i].text)];
      }
    }
    cur := Keep(cur, prev, now);
  }

  // --- What the specification means --------------------------------------

  /** An item of the set is of the kind: the health's P0 items are of their own, and all others of their set's. */
  ghost predicate Falls(s: SetName, item: Item, kind: Kind) {
    match kind
    case HealthP0 => s == HealthSet && item.p0
    case Plain(of) => of == s && (s == HealthSet ==> !item.p0)
  }

  /** Membership of an item in a kind's news, spelled out: both directions of "is news". */
  lemma {:induction false} NewsIffNew(s: SetName, kind: Kind, items: seq<Item>, n: nat, prev: Keys, reported: Reported,
                                      x: NewsItem)
    requires n <= |items|
    ensures x in NewsUpTo(s, kind, items, n, prev, reported) <==>
            exists i :: 0 <= i < n && IsNews(items, i, prev, reported) && Falls(s, items[i], kind)
                        && x == NewsItem(items[i].url, items[i].text)
  {
    hide IsNews, KindOf, Falls;
    if n > 0 {
      FallsIs(s, items[n - 1], kind);
      NewsIffNew(s, kind, items, n - 1, prev, reported, x);
      var m := NewsItem(items[n - 1].url, items[n - 1].text);
      assert x in NewsUpTo(s, kind, items, n, prev, reported) <==>
             x in NewsUpTo(s, kind, items, n - 1, prev, reported)
             || (IsNews(items, n - 1, prev, reported) && KindOf(s, items[n - 1]) == kind && x == m);
    }
  }

  lemma {:induction false} FallsIs(s: SetName, item: Item, kind: Kind)
    ensures KindOf(s, item) == kind <==> Falls(s, item, kind)
  {
  }

  /** Membership in the keys a listing leaves, spelled out. */
  lemma SetAfterHas(items: seq<Item>, prev: Keys, now: int, k: string)
    ensures var listed := exists i :: 0 <= i < |items| && items[i].key == k;
            && (k in SetAfter(items, prev, now) <==> listed || (k in prev && now - prev[k] < FORGET_MS))
            && (k in SetAfter(items, prev, now) ==> SetAfter(items, prev, now)[k] == if listed then now else prev[k])
  {
    KeysUpToHas(items, |items|, now, k);
  }

  ghost predicate NamedIn(items: seq<Item>, n: nat, e: EventId)
    requires n <= |items|
  {
    exists i :: 0 <= i < n && items[i].event == Some(e)
  }

  ghost predicate Names(outputs: Outputs, s: SetName, e: EventId) {
    Listed(outputs, s).Some? && NamedIn(Listed(outputs, s).value, |Listed(outputs, s).value|, e)
  }

  lemma {:induction false} MarkUpToHas(items: seq<Item>, n: nat, marked: Reported, now: int, e: EventId)
    requires n <= |items|
    ensures var m := MarkUpTo(items, n, marked, now);
            && (e in m <==> NamedIn(items, n, e) || e in marked)
            && (e in m ==> m[e] == if NamedIn(items, n, e) then now else marked[e])
  {
    if n > 0 {
      MarkUpToHas(items, n - 1, marked, now, e);
      if items[n - 1].event == Some(e) {
        assert NamedIn(items, n, e);
      } else if NamedIn(items, n, e) {
        var i :| 0 <= i < n && items[i].event == Some(e);
        assert i < n - 1;
      }
    }
  }

  lemma {:induction false} MarkSetsHas(outputs: Outputs, sets: seq<SetName>, n: nat, marked: Reported, now: int,
                                       e: EventId)
    requires n <= |sets|
    ensures var m := MarkSets(outputs, sets, n, marked, now);
            var named := exists b :: 0 <= b < n && Names(outputs, sets[b], e);
            && (e in m <==> named || e in marked)
            && (e in m ==> m[e] == if named then now else marked[e])
  {
    if n > 0 {
      MarkSetsHas(outputs, sets, n - 1, marked, now, e);
      hide MarkUpTo, NamedIn;
      var rest := MarkSets(outputs, sets, n - 1, marked, now);
      match Listed(outputs, sets[n - 1])
      case None =>
      case Some(items) => MarkUpToHas(items, |items|, rest, now, e);
    }
  }

  /** What the events' memory holds after a run, event by event. */
  lemma ReportedAfterHas(outputs: Outputs, reported: Reported, now: int, e: EventId)
    ensures var m := ReportedAfter(outputs, reported, now);
            var named := exists s :: Names(outputs, s, e);
            && (e in m <==> named || (e in reported && now - reported[e] < REPORTED_KEEP_MS))
            && (e in m ==> m[e] == if named then now else reported[e])
  {
    hide Names, MarkSets;
    var n := MarkSets(outputs, Sets(Notify), |Sets(Notify)|, reported, now);
    var i := MarkSets(outputs, Sets(Inbox), |Sets(Inbox)|, n, now);
    MarkSetsHas(outputs, Sets(Notify), |Sets(Notify)|, reported, now, e);
    MarkSetsHas(outputs, Sets(Inbox), |Sets(Inbox)|, n, now, e);
    MarkSetsHas(outputs, Sets(Watch), |Sets(Watch)|, i, now, e);
    if s :| Names(outputs, s, e) {
      NamedSetIsFed(outputs, s, e);
      SetComplete(s);
      var b :| 0 <= b < |Sets(SourceOf(s).value)| && Sets(SourceOf(s).value)[b] == s;
    }
  }

  lemma NamedSetIsFed(outputs: Outputs, s: SetName, e: EventId)
    requires Names(outputs, s, e)
    ensures SourceOf(s).Some?
  {
  }
}

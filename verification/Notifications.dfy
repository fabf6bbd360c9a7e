/**
 The bounded notification poll (bin/poll-notifications.js): pages of a
 window are read into a queue, threads that can't be decided are retried,
 and the window's cursor moves when it is through. The cursor and the work
 are two files, so a poll can die between the two writes. What the calls
 answer is taken as given, and one poll has one time.
 */
module Notifications {
  import opened Options

  const MAX_REQUESTS: nat := 24
  const MAX_PAGES: nat := 4
  const MAX_THREADS: nat := 100
  const MAX_RETRIES: nat := 200
  const RETRY_LIFETIME: int := 24 * 60 * 60 * 1000
  const RETRY_DELAY: int := 60 * 1000
  const MAX_RETRY_DELAY: int := 60 * 60 * 1000

  type Key = string

  /** A thread's subject: its latest activity, and whether its URLs can be read. */
  datatype Subject = Subject(latest: int, readable: bool)

  /** A thread, and which of the pages read so far it stands for. */
  datatype Thread = Thread(key: Key, subject: Subject, since: int, started: Option<int>, attempts: nat, after: int,
                           pages: set<nat>)

  // --- What threads stand for ------------------------------------------------------

  /** What one page brought for one key. */
  type Id = (Key, nat)

  ghost function Held(ts: seq<Thread>): set<Id> {
    set t, n | t in ts && n in t.pages :: (t.key, n)
  }

  /** Each stands for some page. */
  ghost predicate Stand(ts: seq<Thread>) {
    forall t :: t in ts ==> t.pages != {}
  }

  lemma HeldSum(a: seq<Thread>, b: seq<Thread>)
    ensures Held(a + b) == Held(a) + Held(b)
  {
  }

  lemma HeldOne(t: Thread)
    ensures forall id :: id in Held([t]) <==> id.0 == t.key && id.1 in t.pages
    ensures t.pages != {} ==> Held([t]) != {}
  {
    assert t in [t];
    if n :| n in t.pages {
      assert (t.key, n) in Held([t]);
    }
  }

  lemma HeldKeys(ts: seq<Thread>, t: Thread)
    requires t.key !in KeysOf(ts)
    ensures Held([t]) !! Held(ts)
  {
  }

  // --- Coalescing ---------------------------------------------------------------

  ghost function KeysOf(ts: seq<Thread>): set<Key> {
    set t | t in ts :: t.key
  }

  ghost predicate Apart(ts: seq<Thread>) {
    forall i, j :: 0 <= i < j < |ts| ==> ts[i].key != ts[j].key
  }

  function Find(ts: seq<Thread>, k: Key): (r: Option<nat>)
    ensures r.Some? ==> r.value < |ts| && ts[r.value].key == k
    ensures r.None? <==> forall i :: 0 <= i < |ts| ==> ts[i].key != k
  {
    if ts == [] then None
    else
      var n := |ts| - 1;
      var r := Find(ts[..n], k);
      if r.Some? then r else if ts[n].key == k then Some(n) else None
  }

  /** Two of one key: the newer subject, from the earlier time on, with the first one's retries. */
  function Merge(was: Thread, t: Thread): Thread {
    was.(subject := t.subject, since := Min(was.since, t.since), pages := was.pages + t.pages)
  }

  function Put(ts: seq<Thread>, t: Thread): seq<Thread> {
    match Find(ts, t.key)
    case Some(i) => ts[i := Merge(ts[i], t)]
    case None => ts + [t]
  }

  function Coalesced(ts: seq<Thread>): seq<Thread> {
    if ts == [] then [] else Put(Coalesced(ts[..|ts| - 1]), ts[|ts| - 1])
  }

  method Coalesce(ts: seq<Thread>) returns (out: seq<Thread>)
    ensures out == Coalesced(ts)
  {
    out := [];
    for n := 0 to |ts|
      invariant out == Coalesced(ts[..n])
    {
      assert ts[..n + 1][..n] == ts[..n];
      var i := Find(out, ts[n].key);
      if i.Some? {
        out := out[i.value := Merge(out[i.value], ts[n])];
      } else {
        out := out + [ts[n]];
      }
    }
    assert ts[..|ts|] == ts;
  }

  ghost predicate OfKey(ts: seq<Thread>, key: Key, i: int) {
    0 <= i < |ts| && ts[i].key == key
  }

  ghost predicate IsFirst(ts: seq<Thread>, key: Key, m: int) {
    OfKey(ts, key, m) && forall i :: OfKey(ts, key, i) ==> m <= i
  }

  ghost predicate IsLast(ts: seq<Thread>, key: Key, n: int) {
    OfKey(ts, key, n) && forall i :: OfKey(ts, key, i) ==> i <= n
  }

  ghost predicate IsEarliest(ts: seq<Thread>, key: Key, l: int) {
    OfKey(ts, key, l) && forall i :: OfKey(ts, key, i) ==> ts[l].since <= ts[i].since
  }

  ghost predicate Starts(ts: seq<Thread>, t: Thread, m: int) {
    IsFirst(ts, t.key, m) && 0 <= m < |ts| && t.started == ts[m].started && t.attempts == ts[m].attempts
    && t.after == ts[m].after
  }

  ghost predicate Ends(ts: seq<Thread>, t: Thread, n: int) {
    IsLast(ts, t.key, n) && 0 <= n < |ts| && t.subject == ts[n].subject
  }

  ghost predicate Since(ts: seq<Thread>, t: Thread, l: int) {
    IsEarliest(ts, t.key, l) && 0 <= l < |ts| && t.since == ts[l].since
  }

  /** Of several threads of a key, the last one's subject, the first one's retries and the earliest time. */
  ghost predicate Merges(ts: seq<Thread>, t: Thread) {
    (exists m :: Starts(ts, t, m)) && (exists n :: Ends(ts, t, n)) && exists l :: Since(ts, t, l)
  }

  lemma {:induction false} FirstMore(ts: seq<Thread>, t: Thread, key: Key, m: int)
    requires IsFirst(ts, key, m)
    ensures IsFirst(ts + [t], key, m) && (ts + [t])[m] == ts[m]
  {
    var all := ts + [t];
    forall i | OfKey(all, key, i) ensures m <= i {
      assert i < |ts| ==> OfKey(ts, key, i);
    }
  }

  lemma {:induction false} LastMore(ts: seq<Thread>, t: Thread, key: Key, n: int)
    requires t.key != key && IsLast(ts, key, n)
    ensures IsLast(ts + [t], key, n) && (ts + [t])[n] == ts[n]
  {
    var all := ts + [t];
    forall i | OfKey(all, key, i) ensures i <= n {
      assert i < |ts| ==> OfKey(ts, key, i);
    }
  }

  lemma {:induction false} LastOne(ts: seq<Thread>, t: Thread)
    ensures IsLast(ts + [t], t.key, |ts|) && (ts + [t])[|ts|] == t
  {
  }

  lemma {:induction false} EarliestMore(ts: seq<Thread>, t: Thread, key: Key, l: int)
    requires IsEarliest(ts, key, l)
    ensures if t.key == key && t.since < ts[l].since then IsEarliest(ts + [t], key, |ts|)
            else IsEarliest(ts + [t], key, l) && (ts + [t])[l] == ts[l]
  {
    var all := ts + [t];
    var e := if t.key == key && t.since < ts[l].since then |ts| else l;
    forall i | OfKey(all, key, i) ensures all[e].since <= all[i].since {
      assert i < |ts| ==> OfKey(ts, key, i) && all[i] == ts[i];
    }
  }

  lemma {:induction false} MergesMore(ts: seq<Thread>, was: Thread, t: Thread)
    requires Merges(ts, was) && was.key == t.key
    ensures Merges(ts + [t], Merge(was, t))
  {
    hide IsFirst, IsLast, IsEarliest;
    var m :| Starts(ts, was, m);
    var l :| Since(ts, was, l);
    Indexed(ts, t.key, m, l);
    FirstMore(ts, t, t.key, m);
    LastOne(ts, t);
    EarliestMore(ts, t, t.key, l);
    var r, all := Merge(was, t), ts + [t];
    assert Starts(all, r, m) && Ends(all, r, |ts|) && Since(all, r, if t.since < ts[l].since then |ts| else l);
  }

  lemma {:induction false} Indexed(ts: seq<Thread>, key: Key, m: int, l: int)
    requires IsFirst(ts, key, m) && IsEarliest(ts, key, l)
    ensures 0 <= m < |ts| && 0 <= l < |ts|
  {
  }

  lemma {:induction false} MergesStill(ts: seq<Thread>, was: Thread, t: Thread)
    requires Merges(ts, was) && was.key != t.key
    ensures Merges(ts + [t], was)
  {
    hide IsFirst, IsLast, IsEarliest;
    var m :| Starts(ts, was, m);
    var n :| Ends(ts, was, n);
    var l :| Since(ts, was, l);
    FirstMore(ts, t, was.key, m);
    LastMore(ts, t, was.key, n);
    EarliestMore(ts, t, was.key, l);
    var all := ts + [t];
    assert Starts(all, was, m) && Ends(all, was, n) && Since(all, was, l);
  }

  /** Every thread that coalescing leaves is so merged of those of its key. */
  lemma {:induction false} CoalesceMerges(ts: seq<Thread>, k: nat)
    requires k < |Coalesced(ts)|
    ensures Merges(ts, Coalesced(ts)[k])
  {
    hide Merges, Merge;
    var n := |ts| - 1;
    var before, t := ts[..n], ts[n];
    assert ts == before + [t];
    var was := Coalesced(before);
    if Find(was, t.key) == Some(k) {
      CoalesceMerges(before, k);
      MergesMore(before, was[k], t);
    } else if k < |was| {
      CoalesceMerges(before, k);
      KeyApart(before, k, t);
      MergesStill(before, was[k], t);
    } else {
      NoKey(before, t.key);
      MergesOne(before, t);
    }
  }

  lemma {:induction false} MergesOne(ts: seq<Thread>, t: Thread)
    requires forall j :: 0 <= j < |ts| ==> ts[j].key != t.key
    ensures Merges(ts + [t], t)
  {
    var all, n := ts + [t], |ts|;
    assert OfKey(all, t.key, n) && forall j :: OfKey(all, t.key, j) ==> j == n;
    assert Starts(all, t, n) && Ends(all, t, n) && Since(all, t, n);
  }

  lemma {:induction false} KeyApart(ts: seq<Thread>, k: nat, t: Thread)
    requires k < |Coalesced(ts)| && Find(Coalesced(ts), t.key) != Some(k)
    ensures Coalesced(ts)[k].key != t.key
  {
    CoalesceKeeps(ts);
  }

  lemma {:induction false} NoKey(ts: seq<Thread>, key: Key)
    requires Find(Coalesced(ts), key).None?
    ensures forall j :: 0 <= j < |ts| ==> ts[j].key != key
  {
    CoalesceKeeps(ts);
    forall j | 0 <= j < |ts| ensures ts[j].key != key {
      assert ts[j].key in KeysOf(ts);
    }
  }

  ghost predicate Covers(out: seq<Thread>, t: Thread) {
    exists i :: 0 <= i < |out| && out[i].key == t.key && out[i].since <= t.since
  }

  lemma PutKeeps(ts: seq<Thread>, t: Thread)
    requires Apart(ts)
    ensures var r := Put(ts, t);
            && Apart(r) && KeysOf(r) == KeysOf(ts) + {t.key} && |r| <= |ts| + 1 && Covers(r, t)
            && forall x :: Covers(ts, x) ==> Covers(r, x)
  {
    var r := Put(ts, t);
    var i := Find(ts, t.key);
    assert r[if i.Some? then i.value else |ts|].key == t.key;
    forall x | Covers(ts, x) ensures Covers(r, x) {
      var j :| 0 <= j < |ts| && ts[j].key == x.key && ts[j].since <= x.since;
      assert r[j].key == x.key && r[j].since <= x.since;
    }
    forall k ensures k in KeysOf(r) <==> k in KeysOf(ts) || k == t.key {
      if k in KeysOf(ts) {
        var j :| 0 <= j < |ts| && ts[j].key == k;
        assert r[j].key == k && r[j] in r;
      }
    }
  }

  lemma PutHeld(ts: seq<Thread>, t: Thread)
    requires Stand(ts) && t.pages != {}
    ensures Held(Put(ts, t)) == Held(ts) + Held([t]) && Stand(Put(ts, t))
  {
    var i := Find(ts, t.key);
    if i.Some? {
      var r := ts[i.value := Merge(ts[i.value], t)];
      assert ts == ts[..i.value] + [ts[i.value]] + ts[i.value + 1..];
      assert r == ts[..i.value] + [r[i.value]] + ts[i.value + 1..];
      HeldThree(ts[..i.value], ts[i.value], ts[i.value + 1..]);
      HeldThree(ts[..i.value], r[i.value], ts[i.value + 1..]);
      HeldMerge(ts[i.value], t);
    } else {
      HeldSum(ts, [t]);
    }
  }

  lemma HeldThree(a: seq<Thread>, t: Thread, b: seq<Thread>)
    ensures Held(a + [t] + b) == Held(a) + Held([t]) + Held(b)
  {
    HeldSum(a + [t], b);
    HeldSum(a, [t]);
  }

  lemma HeldMerge(was: Thread, t: Thread)
    requires was.key == t.key
    ensures Held([Merge(was, t)]) == Held([was]) + Held([t])
  {
    HeldOne(was);
    HeldOne(t);
    HeldOne(Merge(was, t));
  }

  /** One thread per key, each polled from the earliest time of its key, and standing for all its pages. */
  lemma {:induction false} CoalesceKeeps(ts: seq<Thread>)
    ensures Apart(Coalesced(ts)) && KeysOf(Coalesced(ts)) == KeysOf(ts) && |Coalesced(ts)| <= |ts|
    ensures forall t :: t in ts ==> Covers(Coalesced(ts), t)
    ensures Stand(ts) ==> Held(Coalesced(ts)) == Held(ts) && Stand(Coalesced(ts))
  {
    hide Put, Covers, Held;
    if ts == [] {
      assert Held([]) == {} by {
        NothingHeld();
      }
    } else {
      var n := |ts| - 1;
      CoalesceKeeps(ts[..n]);
      PutKeeps(Coalesced(ts[..n]), ts[n]);
      assert ts == ts[..n] + [ts[n]];
      if Stand(ts) {
        PutHeld(Coalesced(ts[..n]), ts[n]);
        HeldSum(ts[..n], [ts[n]]);
      }
    }
  }

  lemma NothingHeld()
    ensures Held([]) == {}
  {
  }

  // --- What the calls answer ---------------------------------------------------------

  /** The window's first page, or one a page links to; SAFE if it is GitHub's notifications. */
  datatype Url = First(since: int) | Link(text: string, safe: bool)

  datatype Reply<+T> = Failed | Gone | Got(value: T)
  datatype Comment = Comment(byOperator: bool, at: int, url: string)
  datatype Issue = Issue(open: bool, mine: bool, url: string)
  datatype Attempt = Attempt(comment: Reply<Comment>, issue: Reply<Issue>, board: Option<set<string>>)

  datatype Entry = Entry(tracked: bool, key: Option<Key>, subject: Subject)
  /** A page of notifications; NotModified for a 304. */
  datatype Page = NotModified | Page(at: int, next: Option<Url>, entries: seq<Entry>)

  /** What the answers decide of a thread: None when they don't; Some(true) for news. */
  function Decision(t: Thread, comment: Reply<Comment>, issue: Reply<Issue>, board: Option<set<string>>): Option<bool> {
    if !t.subject.readable || comment.Gone? then Some(false)
    else if comment.Failed? then None
    else if !comment.value.byOperator || comment.value.at < t.since then Some(false)
    else match issue
      case Gone => Some(false)
      case Failed => None
      case Got(i) =>
        if !i.open then Some(false)
        else if i.mine then Some(true)
        else if board.None? then None
        else Some(i.url in board.value)
  }

  /** The requests that decide a thread: its comment's, its issue's and, once a poll, the board's. */
  ghost function Needed(t: Thread, a: Attempt, board: Option<set<string>>): nat {
    if !t.subject.readable then 0
    else if !a.comment.Got? || !a.comment.value.byOperator || a.comment.value.at < t.since then 1
    else if a.issue.Got? && a.issue.value.open && !a.issue.value.mine && board.None? then 3
    else 2
  }

  // --- How threads leave ------------------------------------------------------------------

  datatype Leave =
    | Decided(thread: Thread, comment: Reply<Comment>, issue: Reply<Issue>, board: Option<set<string>>)
    | Expired(thread: Thread, now: int)
    | Cut(thread: Thread, kept: nat)
    | ByteReset(threads: seq<Thread>)

  /** Decided by what was answered, too old, over the retries' count, or reset with all the rest. */
  ghost predicate Justified(e: Leave) {
    match e
    case Decided(t, comment, issue, board) => Decision(t, comment, issue, board).Some?
    case Expired(t, now) => t.started.Some? && now - t.started.value >= RETRY_LIFETIME
    case Cut(t, kept) => kept == MAX_RETRIES
    case ByteReset(_) => true
  }

  ghost function IdsOf(e: Leave): set<Id> {
    match e
    case ByteReset(ts) => Held(ts)
    case _ => Held([e.thread])
  }

  type Item = (string, int)

  ghost predicate IsNews(e: Leave) {
    e.Decided? && Decision(e.thread, e.comment, e.issue, e.board) == Some(true) && e.comment.Got?
  }

  ghost function ItemOf(e: Leave): Item
    requires IsNews(e)
  {
    (e.comment.value.url, e.comment.value.at)
  }

  ghost function Left(leaves: seq<Leave>): set<Id> {
    if leaves == [] then {} else Left(leaves[..|leaves| - 1]) + IdsOf(leaves[|leaves| - 1])
  }

  /** Those that left as news that is not printed. */
  ghost function Untold(leaves: seq<Leave>, printed: set<Item>): set<Id> {
    if leaves == [] then {}
    else
      var e := leaves[|leaves| - 1];
      Untold(leaves[..|leaves| - 1], printed) + if IsNews(e) && ItemOf(e) !in printed then IdsOf(e) else {}
  }

  lemma {:induction false} LeftMore(leaves: seq<Leave>, e: Leave)
    ensures Left(leaves + [e]) == Left(leaves) + IdsOf(e)
  {
    assert (leaves + [e])[..|leaves|] == leaves;
  }

  lemma {:induction false} UntoldLeft(leaves: seq<Leave>, printed: set<Item>)
    ensures Untold(leaves, printed) <= Left(leaves)
  {
    if leaves != [] {
      UntoldLeft(leaves[..|leaves| - 1], printed);
    }
  }

  /** What is untold, by the leaves. */
  lemma {:induction false} UntoldWhen(leaves: seq<Leave>, printed: set<Item>, id: Id)
    ensures id in Untold(leaves, printed) <==>
              exists e :: e in leaves && IsNews(e) && ItemOf(e) !in printed && id in IdsOf(e)
  {
    if leaves != [] {
      UntoldWhen(leaves[..|leaves| - 1], printed, id);
      assert leaves == leaves[..|leaves| - 1] + [leaves[|leaves| - 1]];
    }
  }

  // --- The window -----------------------------------------------------------------------------

  /** A page the current window read, and what it brought. */
  datatype Read = Read(url: Url, next: Option<Url>, ids: set<Id>)

  /** The window's pages are linked one to the next, from the first on; what they brought is KNOWN. */
  ghost predicate Window(pages: seq<Read>, visited: seq<Url>, start: int, next: Option<Url>, known: set<Id>) {
    && |pages| == |visited| && (forall i :: 0 <= i < |pages| ==> pages[i].url == visited[i])
    && (pages == [] ==> next == None)
    && (pages != [] ==> pages[0].url == First(start) && pages[|pages| - 1].next == next)
    && (forall i :: 0 < i < |pages| ==> pages[i - 1].next == Some(pages[i].url))
    && (forall i :: 0 <= i < |pages| ==> pages[i].ids <= known)
  }

  lemma WindowReads(pages: seq<Read>, visited: seq<Url>, start: int, next: Option<Url>, known: set<Id>, r: Read,
                    known': set<Id>)
    requires Window(pages, visited, start, next, known) && known <= known' && r.ids <= known'
    requires r.url == next.GetOr(First(start)) && (visited != [] ==> next.Some?)
    ensures Window(pages + [r], visited + [r.url], start, r.next, known')
  {
    var rs := pages + [r];
    forall i | 0 < i < |rs| ensures rs[i - 1].next == Some(rs[i].url) {
    }
  }

  lemma Restart(pages: seq<Read>, visited: seq<Url>, start: int, start': int, next: Option<Url>, known: set<Id>)
    requires Window(pages, visited, start, next, known) && visited == []
    ensures Window(pages, visited, start', next, known)
  {
  }

  lemma NoPages(start: int, known: set<Id>)
    ensures Window([], [], start, None, known)
  {
  }

  lemma WindowKnown(pages: seq<Read>, visited: seq<Url>, start: int, next: Option<Url>, known: set<Id>, known': set<Id>)
    requires Window(pages, visited, start, next, known) && known <= known'
    ensures Window(pages, visited, start, next, known')
  {
  }

  /** A window that is through: its pages, what is still to be retried, and what left. */
  datatype Through = Through(pages: seq<Read>, kept: set<Id>, left: set<Id>) {
    /**
     From the first page on, each linked to the next and the last to none; all
     they brought left or is kept for a retry.
     */
    ghost predicate Whole(start: int) {
      && pages != [] && pages[0].url == First(start) && pages[|pages| - 1].next == None
      && (forall i :: 0 < i < |pages| ==> pages[i - 1].next == Some(pages[i].url))
      && (forall i :: 0 <= i < |pages| ==> pages[i].ids <= kept + left)
    }
  }

  function Later(attempts: nat): int
    requires attempts > 0
  {
    Min(MAX_RETRY_DELAY, RETRY_DELAY * Power(Min(attempts - 1, 6)))
  }

  function Power(n: int): int {
    if n <= 0 then 1 else 2 * Power(n - 1)
  }

  /** The threads of a page. */
  function Threads(entries: seq<Entry>, since: int, page: nat): seq<Thread> {
    if entries == [] then []
    else
      var e := entries[|entries| - 1];
      Threads(entries[..|entries| - 1], since, page)
      + if e.tracked && e.key.Some? then [Thread(e.key.value, e.subject, since, None, 0, 0, {page})] else []
  }

  /** They stand for that page only. */
  lemma {:induction false} ThreadsOf(entries: seq<Entry>, since: int, page: nat)
    ensures Stand(Threads(entries, since, page)) && forall id :: id in Held(Threads(entries, since, page)) ==>
                                                      id.1 == page
    ensures Threads(entries, since, page) != [] ==> exists e :: e in entries && e.tracked
  {
    if entries != [] {
      ThreadsOf(entries[..|entries| - 1], since, page);
      assert entries[|entries| - 1] in entries;
    }
  }

  // --- The ledger of what was brought ------------------------------------------------------

  /** What a poll retains, and the files: notification-since, notification-work and comment-seen. */
  datatype Retained = Retained(queue: seq<Thread>, retry: seq<Thread>, next: Option<Url>, visited: seq<Url>,
                               until: Option<int>)
  datatype Disk = Disk(since: int, work: Retained, seen: set<Item>)

  ghost function WorkIds(w: Retained): set<Id> {
    Held(w.queue) + Held(w.retry)
  }

  /**
   Of what the files are past: the saved window's pages and its start; what
   all pages TAKEN brought; what of it left, by a decision or a bound; and
   what left UNTOLD, as news that was not printed.
   */
  datatype Ledger = Ledger(pages: seq<Read>, start: int, taken: set<Id>, left: set<Id>, untold: set<Id>)

  /** Of a poll: the first page's number, its window's pages and start, what it brought, and how what left did. */
  datatype Progress = Progress(first: nat, pages: seq<Read>, start: int, brought: set<Id>, leaves: seq<Leave>)

  /** What was brought and is past, and is neither held by the saved work nor left, or left untold. */
  ghost function Lost(w: Retained, l: Ledger): set<Id> {
    (l.taken - WorkIds(w) - l.left) + l.untold
  }

  ghost predicate Below(ids: set<Id>, count: nat) {
    forall id :: id in ids ==> id.1 < count
  }

  ghost predicate ListsOk(w: Retained) {
    Held(w.queue) !! Held(w.retry) && Stand(w.queue) && Stand(w.retry)
  }

  ghost predicate LedgerOk(held: set<Id>, l: Ledger, count: nat) {
    held !! l.left && held + l.left <= l.taken && l.untold <= l.left && Below(l.taken, count)
  }

  /** The files and what is known of them. */
  ghost predicate FilesOk(d: Disk, l: Ledger, count: nat) {
    && Window(l.pages, d.work.visited, l.start, d.work.next, WorkIds(d.work) + l.left)
    && (d.work.visited != [] ==> d.work.until.Some? && (d.since == l.start || d.work.until == Some(d.since)))
    && ListsOk(d.work) && LedgerOk(WorkIds(d.work), l, count)
  }

  /** Since a poll took up HELD0: it and what was brought are held or left by a leave, not both. */
  ghost predicate Conserves(held0: set<Id>, brought: set<Id>, held: set<Id>, leaves: seq<Leave>) {
    held0 + brought == held + Left(leaves) && held !! Left(leaves)
  }

  /** What a poll took up from DISK and brought is HELD, or left. */
  ghost predicate Owing(disk: Retained, l: Ledger, count: nat, g: Progress, held: set<Id>) {
    && Conserves(WorkIds(disk), g.brought, held, g.leaves) && (forall e :: e in g.leaves ==> Justified(e))
    && g.first <= count && Below(l.taken, g.first) && Below(g.brought, count)
    && forall id :: id in g.brought ==> g.first <= id.1
  }

  /** A poll's window goes on from the saved one. */
  ghost predicate WindowOk(disk: Retained, left: set<Id>, since: int, w: Retained, g: Progress) {
    && Window(g.pages, w.visited, g.start, w.next, WorkIds(disk) + g.brought + left)
    && (w.visited != [] ==> w.until.Some? && (since == g.start || w.until == Some(since)))
    && (w.visited != [] && disk.visited != [] ==> w.until == disk.until)
  }

  /** News, by the leaves: what is seen now, and not before, is found; each was told by a leave. */
  ghost predicate Tells(before: set<Item>, seen: set<Item>, news: seq<Item>, leaves: seq<Leave>) {
    && (forall x :: x in seen <==> x in before || x in news)
    && (forall e :: e in leaves && IsNews(e) ==> ItemOf(e) in seen)
    && (forall x :: x in news ==> x !in before && exists e :: e in leaves && IsNews(e) && ItemOf(e) == x
                                                              && IdsOf(e) != {})
  }

  /** When a poll dies, if it does. */
  datatype Moment = Lives | BeforeSaving | AfterCursor | AfterWork | AfterSeen

  /** What each end leaves of the files and of what was printed. */
  ghost predicate Written(end: Moment, disk0: Disk, printed0: set<Item>, state: Retained, seen: set<Item>,
                          news: seq<Item>, disk: Disk, printed: set<Item>) {
    match end
    case BeforeSaving => disk == disk0 && printed == printed0
    case AfterCursor => disk == disk0.(since := disk.since) && printed == printed0
    case AfterWork => disk == Disk(disk.since, state, disk0.seen) && printed == printed0
    case AfterSeen => disk == Disk(disk.since, state, seen) && printed == printed0
    case Lives => disk == Disk(disk.since, state, seen) && printed == printed0 + (set x | x in news)
  }

  /** A page was read, with tracked threads or not; there is none to read; or a call threw. */
  datatype Step = Took(got: bool) | Ended | Threw

  class Poller {
    var state: Retained
    var since: int
    var board: Option<set<string>>
    var seen: set<Item>
    var news: seq<Item>
    var requests: nat
    /** The poll's looks at its clock, and the one from which its time is up. */
    var looks: nat
    var lateFrom: nat
    /** The files, and what was printed. */
    var disk: Disk
    var printed: set<Item>
    /** How many pages were ever read, which numbers them. */
    var count: nat
    ghost var saved: Ledger
    ghost var g: Progress

    ghost predicate Holding(held: set<Id>)
      reads this
    {
      && FilesOk(disk, saved, count) && ListsOk(state) && WindowOk(disk.work, saved.left, since, state, g)
      && Owing(disk.work, saved, count, g, held) && Tells(disk.seen, seen, news, g.leaves)
    }

    ghost predicate Valid()
      reads this
    {
      Holding(WorkIds(state))
    }

    constructor (now: int)
      ensures FilesOk(disk, saved, count) && disk == Disk(now, Retained([], [], None, [], None), {}) && printed == {}
      ensures saved == Ledger([], now, {}, {}, {}) && count == 0
    {
      state, disk, printed := Retained([], [], None, [], None), Disk(now, Retained([], [], None, [], None), {}), {};
      since, board, seen, news := now, None, {}, [];
      requests, looks, lateFrom, count := 0, 0, 0, 0;
      saved, g := Ledger([], now, {}, {}, {}), Progress(0, [], now, {}, []);
    }

    /** A poll starts from the files. */
    method Load()
      requires FilesOk(disk, saved, count)
      modifies this`state, this`since, this`board, this`seen, this`news, this`requests, this`looks, this`g
      ensures Valid() && requests == 0 && looks == 0 && news == []
              && g == Progress(count, saved.pages, saved.start, {}, [])
      ensures state == disk.work && since == disk.since
    {
      hide FilesOk, WindowOk, Owing, Tells, ListsOk;
      TakesUp(disk, saved, count);
      state, since, seen := disk.work, disk.since, disk.seen;
      board, news, requests, looks := None, [], 0, 0;
      g := Progress(count, saved.pages, saved.start, {}, []);
    }

    ghost predicate Late()
      reads this
    {
      looks > lateFrom
    }

    method IsLate() returns (late: bool)
      modifies this`looks
      ensures looks == old(looks) + 1 && (late <==> Late())
    {
      late := looks >= lateFrom;
      looks := looks + 1;
    }

    /** A request, unless they are used up or the time is. */
    method Invoke() returns (ok: bool)
      modifies this`requests, this`looks
      ensures requests == old(requests) + (if ok then 1 else 0) && looks == old(looks) + 1
      ensures ok <==> old(requests) < MAX_REQUESTS && !Late()
    {
      var late := IsLate();
      ok := requests < MAX_REQUESTS && !late;
      if ok {
        requests := requests + 1;
      }
    }

    /**
     One thread's requests; None when they don't decide it. With three requests
     left, only an answer or the clock can keep it undecided.
     */
    method Process(t: Thread, a: Attempt) returns (decided: Option<bool>)
      modifies this`requests, this`looks, this`board, this`seen, this`news
      ensures decided.Some? ==> Decision(t, a.comment, a.issue, board) == decided
      ensures old(requests) + 3 <= MAX_REQUESTS ==>
                requests <= old(requests) + 3 && (decided.None? ==>
                                                    Late() || Decision(t, a.comment, a.issue, board).None?)
      ensures decided.Some? ==> requests == old(requests) + Needed(t, a, old(board))
      ensures t.subject.readable && a.comment.Failed? ==> decided.None?
      ensures board == old(board) || (old(board).None? && board == a.board)
      ensures decided == Some(true) ==> a.comment.Got?
                                        && seen == old(seen) + {(a.comment.value.url, a.comment.value.at)}
      ensures decided != Some(true) ==> seen == old(seen)
      ensures news == if seen == old(seen) || !a.comment.Got? then old(news)
                      else old(news) + [(a.comment.value.url, a.comment.value.at)]
    {
      if !t.subject.readable {
        return Some(false);
      }
      var ok := Invoke();
      if !ok || a.comment.Failed? {
        return None;
      }
      if a.comment.Gone? || !a.comment.value.byOperator || a.comment.value.at < t.since {
        return Some(false);
      }
      ok := Invoke();
      if !ok || a.issue.Failed? {
        return None;
      }
      if a.issue.Gone? || !a.issue.value.open {
        return Some(false);
      }
      if !a.issue.value.mine {
        if board.None? {
          ok := Invoke();
          if !ok || a.board.None? {
            return None;
          }
          board := a.board;
        }
        if a.issue.value.url !in board.value {
          return Some(false);
        }
      }
      var found := (a.comment.value.url, a.comment.value.at);
      if found !in seen {
        seen := seen + {found};
        news := news + [found];
      }
      return Some(true);
    }

    /** One thread per key, not too old, and not too many. */
    method BoundRetries(now: int)
      requires Valid()
      modifies this`state, this`g
      ensures Valid() && state == old(state).(retry := state.retry) && Apart(state.retry)
              && |state.retry| <= MAX_RETRIES
      ensures g == old(g).(leaves := g.leaves) && (old(state.retry) == [] ==> state == old(state) && g == old(g))
      ensures NoReset(old(g).leaves) ==> NoReset(g.leaves)
      ensures forall t :: t in state.retry ==> t.started.Some? && now - t.started.value < RETRY_LIFETIME
    {
      hide FilesOk, Window, Conserves, Below, ListsOk, Coalesced, Held, Left, Decision, Tells;
      var merged := Coalesce(state.retry);
      ghost var leaves, gone := g.leaves, {};
      BoundNone(state, merged);
      var kept: seq<Thread> := [];
      for n := 0 to |merged|
        invariant state == old(state) && g == old(g)
        invariant |kept| <= MAX_RETRIES && (forall t :: t in kept ==>
                                              t.started.Some? && now - t.started.value < RETRY_LIFETIME)
        invariant Bounded(merged, n, kept, gone) && (n == 0 ==> leaves == g.leaves && kept == [])
        invariant NoReset(g.leaves) ==> NoReset(leaves)
        invariant Left(leaves) == Left(g.leaves) + gone && (forall e :: e in leaves ==> Justified(e))
                  && Tells(disk.seen, seen, news, leaves)
      {
        hide Bounded;
        var t := merged[n].(started := Some(merged[n].started.GetOr(now)));
        if now - t.started.value >= RETRY_LIFETIME {
          gone := BoundOne(merged, n, kept, gone, leaves, Expired(t, now));
          StillTells(disk.seen, seen, news, leaves, Expired(t, now));
          leaves := leaves + [Expired(t, now)];
        } else if |kept| == MAX_RETRIES {
          gone := BoundOne(merged, n, kept, gone, leaves, Cut(t, |kept|));
          StillTells(disk.seen, seen, news, leaves, Cut(t, |kept|));
          leaves := leaves + [Cut(t, |kept|)];
        } else {
          BoundKeep(merged, n, kept, gone, t);
          kept := kept + [t];
        }
      }
      BoundAll(disk.work, saved, count, g, state, merged, kept, gone, leaves);
      state, g := state.(retry := kept), g.(leaves := leaves);
    }

    /** Takes one page of the window into the empty queue. */
    method TakePage(url: Url, page: Page) returns (got: bool)
      requires Valid() && state.queue == [] && page.Page?
      requires url == state.next.GetOr(First(since)) && (state.visited != [] ==> state.next.Some?)
               && (state.visited == [] ==> disk.work.visited == [])
      modifies this`state, this`g, this`count
      ensures Valid() && count == old(count) + 1 && state.visited != []
      ensures state == Retained(Threads(page.entries, since, old(count)), old(state).retry, page.next,
                                old(state).visited + [url],
                            if old(state).visited == [] then Some(page.at) else old(state).until)
      ensures g.first == old(g).first && g.leaves == old(g).leaves && g.brought == old(g).brought + Held(state.queue)
      ensures (state.queue != [] ==> got) && (got <==> exists e :: e in page.entries && e.tracked)
    {
      hide Threads, FilesOk, WindowOk, Owing, Tells, ListsOk, Held;
      ThreadsOf(page.entries, since, count);
      var was := state;
      var start := if state.visited == [] then since else g.start;
      state := Retained(Threads(page.entries, since, count), was.retry, page.next, was.visited + [url],
                        if was.visited == [] then Some(page.at) else was.until);
      ghost var ids := Held(state.queue);
      PageTaken(disk, saved, count, since, was, g, url, page.next, state);
      g := g.(pages := g.pages + [Read(url, page.next, ids)], start := start, brought := g.brought + ids);
      count := count + 1;
      got := exists e :: e in page.entries && e.tracked;
    }

    /** The window's next page, if the queue is empty. */
    method NextPage(feed: Url -> Reply<Page>) returns (r: Step)
      requires Valid() && state.queue == [] && (state.visited == [] ==> disk.work.visited == [])
      modifies this`state, this`requests, this`looks, this`g, this`count
      ensures Valid() && state.retry == old(state).retry && count >= old(count) && g.first == old(g).first
              && g.leaves == old(g).leaves
      ensures requests <= old(requests) + 1 && requests <= Max(old(requests), MAX_REQUESTS)
      ensures r.Took? ==> state.visited != [] && (state.queue != [] ==> r.got)
      ensures !r.Took? ==> state.queue == []
      ensures Empty(feed) ==> g.brought == old(g).brought
      ensures old(state).next.None? && old(state).visited != [] ==>
                r.Ended? && state == old(state) && requests == old(requests) && looks == old(looks)
                && count == old(count)
      ensures r.Took? ==> count == old(count) + 1 && PageIs(old(state), since, old(count), feed, r.got, state)
      ensures r.Ended? ==> count == old(count) && EndsAt(old(state), since, feed, state)
      ensures r.Threw? ==> state == old(state)
                           && (Throws(state, since, feed) || requests >= MAX_REQUESTS || Late())
      ensures OnePage(old(state), feed(First(since))) && old(requests) < MAX_REQUESTS && old(looks) < lateFrom ==>
                r.Took? && TookPage(old(state), old(requests), old(looks), old(count), feed(First(since)).value, false)
    {
      hide FilesOk, WindowOk, Owing, Tells, ListsOk, Held, Threads, Coalesced, IsTracked;
      if state.next.None? && state.visited != [] {
        return Ended;
      }
      var url := state.next.GetOr(First(since));
      if url in state.visited {
        // A cyclic feed: the same window starts again later.
        Cyclic(disk.work, saved, count, since, state, g);
        state, g := state.(next := None, visited := []), g.(pages := []);
        return Ended;
      }
      if url.Link? && !url.safe {
        return Threw;
      }
      var sent := Invoke();
      if !sent || !feed(url).Got? {
        return Threw;
      }
      if feed(url).value.NotModified? {
        return Ended;
      }
      if |feed(url).value.entries| > MAX_THREADS {
        return Threw;
      }
      NoThreads(since, count);
      var got := TakePage(url, feed(url).value);
      TrackedIs(feed(url).value);
      r := Took(got);
    }

    /** Reads the window's next pages while the queue is empty; false when a call throws. */
    method Acquire(feed: Url -> Reply<Page>) returns (ok: bool)
      requires Valid() && (state.visited == [] ==> disk.work.visited == [])
      modifies this`state, this`requests, this`looks, this`g, this`count
      ensures Valid() && state.retry == old(state).retry && (ok ==> Apart(state.queue)) && count >= old(count)
      ensures g.first == old(g).first && g.leaves == old(g).leaves
      ensures requests <= old(requests) + MAX_PAGES && requests <= Max(old(requests), MAX_REQUESTS)
      ensures Empty(feed) ==> g.brought == old(g).brought
      ensures ok && old(state).queue != [] ==> state == old(state).(queue := state.queue) && count == old(count)
      ensures ok && old(state).queue == [] ==> count == old(count) + MAX_PAGES || Enough(since, feed, state)
      ensures !ok ==> Throws(state, since, feed) || requests >= MAX_REQUESTS || Late()
      ensures OnePage(old(state), feed(First(since))) && old(requests) < MAX_REQUESTS && old(looks) < lateFrom ==>
                ok && TookPage(old(state), old(requests), old(looks), old(count), feed(First(since)).value, true)
    {
      hide FilesOk, WindowOk, Owing, Tells, ListsOk, Held, Threads, Coalesced, Empty, Enough, PageIs, EndsAt, Throws;
      var n, got, r := 0, state.queue != [], Took(true);
      while !got && n < MAX_PAGES && r.Took?
        invariant n <= MAX_PAGES && Valid() && state.retry == old(state).retry && (!got ==> state.queue == [])
                  && count >= old(count)
        invariant g.first == old(g).first && g.leaves == old(g).leaves
                  && (r.Took? && state.visited == [] ==> disk.work.visited == [])
        invariant requests <= old(requests) + n && requests <= Max(old(requests), MAX_REQUESTS) && !r.Threw?
                  && (n == 0 ==> r.Took?)
        invariant Empty(feed) ==> g.brought == old(g).brought
        invariant if n == 0 then state == old(state) && count == old(count) && (got <==> state.queue != [])
                  else old(state).queue == []
        invariant r.Took? ==> count == old(count) + n
        invariant n > 0 && (got || !r.Took?) ==> Enough(since, feed, state)
        invariant OnePage(old(state), feed(First(since))) && old(requests) < MAX_REQUESTS && old(looks) < lateFrom ==>
                    if n == 0 then state == old(state) && requests == old(requests) && looks == old(looks)
                                   && count == old(count) && !got
                    else TookPage(old(state), old(requests), old(looks), old(count), feed(First(since)).value, false)
        decreases MAX_PAGES - n
      {
        ghost var was := state;
        r := NextPage(feed);
        if r.Threw? {
          return false;
        }
        EnoughNow(was, since, feed, r, state);
        n := n + 1;
        got := r.Took? && r.got;
      }
      QueueCoalesced(disk.work, saved, count, g, state);
      QueueWindow(disk.work, saved.left, since, state, g);
      var merged := Coalesce(state.queue);
      EnoughStill(since, feed, state, merged);
      state := state.(queue := merged);
      ok := true;
    }

    /** One page, the window's only one, was taken by one request. */
    ghost predicate TookPage(was: Retained, requests0: nat, looks0: nat, count0: nat, page: Page, merged: bool)
      requires page.Page?
      reads this
    {
      var threads := Threads(page.entries, since, count0);
      && requests == requests0 + 1 && looks == looks0 + 1 && count == count0 + 1
      && state == Retained(if merged then Coalesced(threads)
                           else threads, was.retry, None, [First(since)], Some(page.at))
    }

    /** The next thread, from the queue or else the retries; one of its key waiting to be retried joins it. */
    method Take(remaining: nat) returns (t: Option<Thread>, left: nat)
      requires Valid() && Apart(state.queue) && Apart(state.retry) && remaining <= |state.retry|
      modifies this`state
      ensures Apart(state.queue) && Apart(state.retry) && left <= |state.retry|
      ensures state == old(state).(queue := state.queue, retry := state.retry)
      ensures t.None? ==> state == old(state) && state.queue == [] && remaining == 0
      ensures t.Some? ==> && Holding(WorkIds(state) + Held([t.value])) && t.value.pages != {}
                          && t.value.key !in KeysOf(state.retry) && t.value.key !in KeysOf(state.queue)
      ensures t.Some? && old(state).queue != [] ==>
                t.value.since <= old(state).queue[0].since && state.queue == old(state).queue[1..]
      ensures t.Some? && old(state).queue == [] ==> state.queue == [] && left < remaining
      ensures left <= remaining && Waiting(old(state).retry, remaining, state.retry, left)
      ensures old(state).queue != [] && old(state).retry == [] ==>
                t == Some(old(state).queue[0]) && state == old(state).(queue := old(state).queue[1..]) && left == 0
    {
      hide FilesOk, WindowOk, Owing, Tells, Held, Waiting;
      left := remaining;
      SameWaits(state.retry, remaining);
      ghost var was := state;
      var next: Thread;
      if state.queue != [] {
        FirstTaken(state.queue);
        next, state := state.queue[0], state.(queue := state.queue[1..]);
      } else {
        if remaining == 0 {
          return None, 0;
        }
        FirstTaken(state.retry);
        left, next, state := remaining - 1, state.retry[0], state.(retry := state.retry[1..]);
      }
      var i := Find(state.retry, next.key);
      if i.Some? {
        Removed(state.retry, i.value, next);
        FewerWait(was.retry, remaining, state.retry, left, i.value);
        next, state := Merge(state.retry[i.value], next),
            state.(retry := state.retry[..i.value] + state.retry[i.value + 1..]);
        left := Min(left, |state.retry|);
      }
      t := Some(next);
      TakenOk(disk.work, saved, count, since, g, was, state, next);
    }

    /** One thread: left for later, decided, or to be retried. */
    method Try(now: int, attempts: Key -> Attempt, t: Thread)
      requires Holding(WorkIds(state) + Held([t])) && t.pages != {} && requests + 3 <= MAX_REQUESTS
      requires Apart(state.queue) && Apart(state.retry) && t.key !in KeysOf(state.retry)
               && t.key !in KeysOf(state.queue)
      modifies this`state, this`g, this`requests, this`looks, this`board, this`seen, this`news
      ensures Valid() && state == old(state).(retry := state.retry) && Apart(state.retry)
              && |state.retry| >= |old(state).retry|
      ensures g == old(g).(leaves := g.leaves) && requests <= MAX_REQUESTS
      ensures t.after > now ==> state.retry == old(state).retry + [t] && requests == old(requests) && g == old(g)
      ensures t.after <= now && state.retry != old(state).retry ==> state.retry == old(state).retry + [Again(t, now)]
      ensures old(state).retry <= state.retry
      ensures forall i :: |old(state).retry| <= i < |state.retry| ==> state.retry[i].after > now
      ensures NoReset(old(g).leaves) ==> NoReset(g.leaves)
      ensures t.after <= now && t.subject.readable && attempts(t.key).comment.Failed? ==>
                state.retry == old(state).retry + [Again(t, now)] && g == old(g)
    {
      hide FilesOk, WindowOk, Owing, Tells, ListsOk, Held;
      if t.after > now {
        PutBack(disk.work, saved, count, since, g, state, t, t);
        state := state.(retry := state.retry + [t]);
        return;
      }
      var decided := Process(t, attempts(t.key));
      if decided.Some? {
        ghost var a := attempts(t.key);
        ghost var e := Decided(t, a.comment, a.issue, board);
        LeftDecided(disk.work, saved, count, since, g, state, t, e);
        TellsDecided(disk.seen, old(seen), old(news), g.leaves, e, seen, news);
        g := g.(leaves := g.leaves + [e]);
      } else {
        PutBack(disk.work, saved, count, since, g, state, t, Again(t, now));
        state := state.(retry := state.retry + [Again(t, now)]);
      }
    }

    /** The threads of the queue, then of the retries there were, while requests and time last. */
    method Work(now: int, attempts: Key -> Attempt)
      requires Valid() && Apart(state.queue) && Apart(state.retry) && requests <= MAX_REQUESTS
      modifies this`state, this`g, this`requests, this`looks, this`board, this`seen, this`news
      ensures Valid() && state == old(state).(queue := state.queue, retry := state.retry) && requests <= MAX_REQUESTS
      ensures g == old(g).(leaves := g.leaves) && (NoReset(old(g).leaves) ==> NoReset(g.leaves))
      ensures requests + 3 > MAX_REQUESTS || Late() || |old(state).queue| + |old(state).retry| > MAX_THREADS
              || (state.queue == [] && NoneDue(state.retry, 0, now))
      ensures old(state).queue == [] && old(state).retry == [] ==> state == old(state) && g == old(g)
      ensures FailsOnce(old(state), now, attempts) && old(requests) + 3 <= MAX_REQUESTS && old(looks) < lateFrom ==>
                state == old(state).(queue := [], retry := [Again(old(state).queue[0], now)]) && g == old(g)
    {
      hide FilesOk, WindowOk, Owing, Tells, ListsOk, Held, NoneDue, Waiting, NoReset, Apart, Decision, IsNews, Again;
      var remaining: nat := |state.retry|;
      NoneYet(state.retry, now);
      var most := Min(MAX_THREADS, |state.queue| + remaining);
      for index := 0 to most
        invariant index == 0 ==> state == old(state) && g == old(g)
        invariant Valid() && Apart(state.queue) && Apart(state.retry) && remaining <= |state.retry|
        invariant state == old(state).(queue := state.queue, retry := state.retry) && g == old(g).(leaves := g.leaves)
                  && requests <= MAX_REQUESTS
        invariant NoReset(old(g).leaves) ==> NoReset(g.leaves)
        invariant NoneDue(state.retry, remaining, now)
        invariant |state.queue| == Max(0, |old(state).queue| - index)
        invariant remaining <= |old(state).retry|
                  && remaining <= Max(0, |old(state).queue| + |old(state).retry| - index)
        invariant FailsOnce(old(state), now, attempts) && old(requests) + 3 <= MAX_REQUESTS && old(looks) < lateFrom ==>
                    if index == 0 then state == old(state) && g == old(g) && requests == old(requests)
                                       && looks == old(looks)
                    else state == old(state).(queue := [], retry := [Again(old(state).queue[0], now)]) && g == old(g)
      {
        var late := IsLate();
        if requests + 3 > MAX_REQUESTS || late { break; }
        var t;
        ghost var was, before := state.retry, remaining;
        t, remaining := Take(remaining);
        if t.None? { break; }
        ghost var taken := state.retry;
        Try(now, attempts, t.value);
        StillNoneDue(was, before, taken, remaining, state.retry, now);
      }
    }

    /** The window is through: every page read, and nothing of it queued. The cursor is written. */
    method Advance() returns (through: bool, ghost moved: Option<Through>)
      requires Valid() && since == disk.since
      modifies this`disk, this`state, this`g
      ensures Valid() && disk == old(disk).(since := disk.since) && (through <==> moved.Some?)
      ensures moved.None? ==> disk == old(disk) && state == old(state) && g == old(g)
      ensures moved.Some? ==> && moved.value.Whole(g.start) && moved.value.kept == Held(state.retry)
                              && moved.value.left == saved.left + Left(g.leaves)
                              && old(state).until == Some(disk.since)
                              && (g.start == old(disk).since || disk.since == old(disk).since)
                              && state == old(state).(until := None, visited := []) && state.queue == []
                              && g == old(g).(pages := [])
      ensures moved.None? <==> old(state).queue != [] || old(state).next.Some? || old(state).until.None?
                               || old(state).visited == []
    {
      hide Window, Tells, Stand, LedgerOk, Held, Conserves;
      through, moved := false, None;
      if state.queue == [] && state.next.None? && state.until.Some? && state.visited != [] {
        through, moved := true, Some(Through(g.pages, Held(state.retry), saved.left + Left(g.leaves)));
        IsWhole(disk.work, saved, count, since, g, state);
        disk := disk.(since := state.until.value);
        state, g := state.(until := None, visited := []), g.(pages := []);
        NoPages(g.start, WorkIds(disk.work) + g.brought + saved.left);
      }
    }

    /**
     The requests of a poll that is due: the pages first, then the threads;
     false when one of the first calls throws.
     */
    method Round(now: int, identity: bool, feed: Url -> Reply<Page>, attempts: Key -> Attempt) returns (ok: bool)
      requires Valid() && Apart(state.retry) && requests == 0 && looks == 0
               && (state.visited == [] ==> disk.work.visited == [])
      modifies this`state, this`g, this`requests, this`looks, this`board, this`seen, this`news, this`count
      ensures Valid() && requests <= MAX_REQUESTS && g.first == old(g).first && count >= old(count)
      ensures Empty(feed) ==> g.brought == old(g).brought
      ensures NoReset(old(g).leaves) ==> NoReset(g.leaves)
      ensures !identity ==> !ok && requests <= 1 && state == old(state) && g == old(g) && news == old(news)
                            && seen == old(seen)
      ensures identity && lateFrom >= 3 && RetriesOnly(old(state), since, old(count), now, feed, attempts) ==>
                ok && g.leaves == old(g).leaves && Retried(old(state), since, old(count), now, feed, state)
    {
      hide FilesOk, WindowOk, Owing, Tells, ListsOk, Held, Threads, Coalesced;
      ok := Invoke();
      if !ok || !identity { return false; }
      ok := Acquire(feed);
      if !ok { return false; }
      Work(now, attempts);
    }

    /** A poll until it writes anything; OK if the window may be through. */
    method Begin(now: int, due: bool, identity: bool, feed: Url -> Reply<Page>, attempts: Key -> Attempt)
      returns (ok: bool)
      requires FilesOk(disk, saved, count)
      modifies this`state, this`since, this`g, this`requests, this`looks, this`board, this`seen, this`news, this`count
      ensures Valid() && requests <= MAX_REQUESTS && g.first == old(count) && since == disk.since && count >= old(count)
      ensures Empty(feed) ==> g.brought == {}
      ensures NoReset(g.leaves)
      ensures !due || !identity ==> !ok && requests <= (if due then 1 else 0) && g.brought == {} && news == []
                                    && state == disk.work.(retry := state.retry)
      ensures due && identity && lateFrom >= 3 && RetriesOnly(disk.work, since, old(count), now, feed, attempts) ==>
                ok && g.leaves == [] && Retried(disk.work, since, old(count), now, feed, state)
    {
      hide FilesOk, WindowOk, Owing, Tells, ListsOk, Held, Threads, Coalesced;
      Load();
      BoundRetries(now);
      ok := false;
      if due {
        ok := Round(now, identity, feed, attempts);
      }
    }

    /** The retries bounded, and what is too large to retain reset. */
    method Finish(now: int, oversized: bool)
      requires Valid()
      modifies this`state, this`g
      ensures Valid() && |state.retry| <= MAX_RETRIES && (oversized ==> state == Retained([], [], None, [], None))
      ensures g == old(g).(leaves := g.leaves, pages := g.pages)
              && (state.visited != [] ==> state.visited == old(state).visited)
      ensures !oversized ==> state == old(state).(retry := state.retry) && g.pages == old(g).pages
                             && (NoReset(old(g).leaves) ==> NoReset(g.leaves))
    {
      hide FilesOk, WindowOk, Owing, Tells, ListsOk, Held, Coalesced;
      BoundRetries(now);
      if oversized {
        ghost var e := ByteReset(state.queue + state.retry);
        AllLeft(disk.work, saved, count, since, g, state, e);
        StillTells(disk.seen, seen, news, g.leaves, e);
        state, g := Retained([], [], None, [], None), g.(leaves := g.leaves + [e], pages := []);
      }
    }

    /** The process dies with the cursor written and the work not. */
    ghost method Forget()
      requires Valid() && state.queue == []
      modifies this`saved
      ensures FilesOk(disk, saved, count) && saved.taken == old(saved).taken + g.brought
      ensures Tells(disk.seen, seen, news, g.leaves) && forall e :: e in g.leaves ==> Justified(e)
      ensures WorkIds(disk.work) == {} && g.brought == {} ==> news == []
      ensures Lost(disk.work, saved) == old(Lost(disk.work, saved))
                + g.brought * (Held(state.retry) + Untold(g.leaves, printed))
      ensures Lost(disk.work, saved) == old(Lost(disk.work, saved)) <==>
                NothingNew(state.retry, g.leaves, printed, g.first)
    {
      hide FilesOk, WindowOk, Owing, Tells, ListsOk, Held, Untold, Left, Lost, NothingNew;
      NothingTold(disk, saved, count, g, state, seen, news);
      CursorDeath(disk, saved, count, since, state, g, printed);
      saved := CursorOnly(saved, g, printed);
    }

    /** Between polls: what was printed was seen before. */
    ghost predicate Resting()
      reads this
    {
      FilesOk(disk, saved, count) && printed <= disk.seen
    }

    /** The work saved, then what was seen, and then the news printed. */
    method Save(dies: Moment) returns (end: Moment)
      requires Valid() && printed <= disk.seen && (state.visited == [] || disk.since == since) && !dies.BeforeSaving?
      modifies this`disk, this`printed, this`saved
      ensures Resting() && end == (if dies.AfterCursor? then Lives else dies) && disk.since == old(disk).since
      ensures Tells(old(disk).seen, seen, news, g.leaves) && forall e :: e in g.leaves ==> Justified(e)
      ensures old(WorkIds(disk.work)) == {} && g.brought == {} ==> news == []
      ensures saved.taken == old(saved).taken + g.brought
              && Conserves(old(WorkIds(disk.work)), g.brought, WorkIds(state), g.leaves)
      ensures Lost(disk.work, saved) == old(Lost(disk.work, saved)) + Untold(g.leaves, printed)
      ensures Written(end, old(disk), old(printed), state, seen, news, disk, printed)
      ensures old(disk).seen == old(printed) ==> (Untold(g.leaves, printed) == {} <==> end.Lives? || news == [])
    {
      hide FilesOk, WindowOk, Owing, Tells, ListsOk, Untold, Left, Lost, Conserves;
      ghost var told := if dies.AfterWork? || dies.AfterSeen? then printed else printed + (set x | x in news);
      NothingTold(disk, saved, count, g, state, seen, news);
      WorkDeath(disk, saved, count, since, state, g, seen, told);
      NewsUntold(disk.seen, seen, news, g.leaves, printed);
      disk, saved := disk.(work := state), WorkSaved(saved, g, told);
      if dies.AfterWork? {
        return AfterWork;
      }
      disk := disk.(seen := seen);
      if dies.AfterSeen? {
        return AfterSeen;
      }
      printed := printed + (set x | x in news);
      end := Lives;
    }

    /**
     One poll, from the files. DUE is false before the interval the server
     asked for; IDENTITY is false if the bot isn't the one meant; OVERSIZED
     if what is to be retained is too large; it DIES as said, after the
     cursor only if that is written. What it took up or brought is held by
     the work it saves or left as its leave says, and the cursor moves only
     past a whole window. What is lost for good is exact: by a death
     between the cursor's write and the work's, what this poll brought and
     did not settle; by a later one, the news.
     */
    method Poll(now: int, due: bool, identity: bool, feed: Url -> Reply<Page>, attempts: Key -> Attempt,
                oversized: bool, dies: Moment)
      returns (end: Moment, ghost moved: Option<Through>)
      requires Resting()
      modifies this
      ensures Resting() && (end == dies || (end.Lives? && dies.AfterCursor? && moved.None?))
              && requests <= MAX_REQUESTS && lateFrom == old(lateFrom)
      ensures Written(end, old(disk), old(printed), state, seen, news, disk, printed)
      ensures end.BeforeSaving? ==> saved == old(saved) && moved.None?
      ensures !end.BeforeSaving? ==> saved.taken == old(saved).taken + g.brought
                                     && forall e :: e in g.leaves ==> Justified(e)
      ensures Tells(old(disk).seen, seen, news, g.leaves)
      // The cursor.
      ensures moved.None? ==> disk.since == old(disk).since
      ensures moved.Some? ==> moved.value.Whole(g.start)
                              && (g.start == old(disk).since || disk.since == old(disk).since)
      // A death right after it.
      ensures end.AfterCursor? ==> && moved.Some?
                                   && Lost(disk.work, saved) == old(Lost(disk.work, saved))
                                        + g.brought * (Held(state.retry) + Untold(g.leaves, printed))
                                   && (Lost(disk.work, saved) == old(Lost(disk.work, saved)) <==>
                                         NothingNew(state.retry, g.leaves, printed, old(count)))
      // The work saved.
      ensures !end.BeforeSaving? && !end.AfterCursor? ==>
                && |state.retry| <= MAX_RETRIES
                && Conserves(old(WorkIds(disk.work)), g.brought, WorkIds(disk.work), g.leaves)
                && Lost(disk.work, saved) == old(Lost(disk.work, saved)) + Untold(g.leaves, printed)
      ensures old(disk).seen == old(printed) && !end.BeforeSaving? && !end.AfterCursor? ==>
                (Untold(g.leaves, printed) == {} <==> end.Lives? || news == [])
      // Too large a rest is reset, and nothing else is; one that isn't due, or of another bot, does nothing.
      ensures !oversized ==> NoReset(g.leaves)
      ensures !end.BeforeSaving? && !end.AfterCursor? && oversized ==> disk.work == Retained([], [], None, [], None)
      ensures !due || !identity ==> requests <= (if due then 1 else 0) && news == [] && g.brought == {} && moved.None?
      ensures (!due || !identity) && !oversized && !end.BeforeSaving? ==>
                disk.work == old(disk).work.(retry := disk.work.retry)
      // A poll of one thread whose comment can't be read, and one of nothing.
      ensures due && identity && lateFrom >= 3 && dies.AfterCursor?
              && RetriesOnly(old(disk).work, old(disk).since, old(count), now, feed, attempts) ==>
                end.AfterCursor? && g.leaves == []
                && RetryOf(old(disk).since, old(count), now, feed, state.retry, disk.since)
      ensures Empty(feed) && WorkIds(old(disk).work) == {} ==> news == [] && g.brought == {}
    {
      hide FilesOk, WindowOk, Owing, Tells, ListsOk, Held, Threads, Coalesced, Untold, Left, Lost, NothingNew,
           Conserves, Through.Whole, Justified, WorkIds;
      moved := None;
      var ok := Begin(now, due, identity, feed, attempts);
      if dies.BeforeSaving? {
        NothingTold(disk, saved, count, g, state, seen, news);
        return BeforeSaving, None;
      }
      if ok {
        var through;
        through, moved := Advance();
        if dies.AfterCursor? && through {
          Forget();
          return AfterCursor, moved;
        }
      }
      Finish(now, oversized);
      end := Save(dies);
    }

    /** Any run of polls, living or dying. */
    method Polls(inputs: seq<Input>) returns (ghost harmless: seq<bool>)
      requires Resting() && disk.seen == printed && Lost(disk.work, saved) == {}
      modifies this
      ensures Resting() && |harmless| == |inputs|
      ensures Lost(disk.work, saved) == {} <==> false !in harmless
    {
      hide FilesOk, Lost, NothingNew, Conserves, Untold, RetriesOnly, Empty, Tells;
      harmless := [];
      ghost var all := true;
      for n := 0 to |inputs|
        invariant Resting() && |harmless| == n
        invariant all <==> false !in harmless
        invariant if all then Lost(disk.work, saved) == {} && disk.seen == printed else Lost(disk.work, saved) != {}
      {
        var x := inputs[n];
        ghost var first, before, lost := count, disk.seen, Lost(disk.work, saved);
        var end;
        ghost var moved;
        end, moved := Poll(x.now, x.due, x.identity, x.feed, x.attempts, x.oversized, x.dies);
        SeenIs(before, seen, news, g.leaves);
        Grows(lost, Untold(g.leaves, printed));
        Grows(lost, g.brought * (Held(state.retry) + Untold(g.leaves, printed)));
        all := all && Harmless(end, state.retry, g.leaves, printed, news, first);
        harmless := harmless + [Harmless(end, state.retry, g.leaves, printed, news, first)];
      }
    }
  }

  /** What a poll takes up from the files. */
  lemma TakesUp(d: Disk, l: Ledger, count: nat)
    requires FilesOk(d, l, count)
    ensures ListsOk(d.work) && Tells(d.seen, d.seen, [], [])
    ensures var g := Progress(count, l.pages, l.start, {}, []);
            WindowOk(d.work, l.left, d.since, d.work, g) && Owing(d.work, l, count, g, WorkIds(d.work))
  {
    hide Held, Window, ListsOk;
    assert WorkIds(d.work) + {} + l.left == WorkIds(d.work) + l.left;
    assert WorkIds(d.work) + {} == WorkIds(d.work);
  }

  lemma StillTells(before: set<Item>, seen: set<Item>, news: seq<Item>, leaves: seq<Leave>, e: Leave)
    requires Tells(before, seen, news, leaves) && !e.Decided?
    ensures Tells(before, seen, news, leaves + [e])
  {
    forall x | x in news ensures exists y :: y in leaves + [e] && IsNews(y) && ItemOf(y) == x && IdsOf(y) != {} {
      var y :| y in leaves && IsNews(y) && ItemOf(y) == x && IdsOf(y) != {};
      assert y in leaves + [e];
    }
  }

  /** A page's ids are new. */
  lemma Brings(held0: set<Id>, brought: set<Id>, held: set<Id>, leaves: seq<Leave>, ids: set<Id>, taken: set<Id>,
               count: nat)
    requires Conserves(held0, brought, held, leaves) && held0 <= taken && Below(taken, count) && Below(brought, count)
    requires forall id :: id in ids ==> id.1 == count
    ensures Conserves(held0, brought + ids, held + ids, leaves) && ids !! held
  {
    assert Below(held0 + brought, count);
    assert Below(held + Left(leaves), count);
  }

  lemma PageTaken(d: Disk, l: Ledger, count: nat, since: int, w: Retained, g: Progress, url: Url, next: Option<Url>,
                  w': Retained)
    requires FilesOk(d, l, count) && ListsOk(w) && WindowOk(d.work, l.left, since, w, g)
             && Owing(d.work, l, count, g, WorkIds(w))
    requires w.queue == [] && url == w.next.GetOr(First(since)) && (w.visited != [] ==> w.next.Some?)
             && (w.visited == [] ==> d.work.visited == [])
    requires w'.retry == w.retry && w'.next == next && w'.visited == w.visited + [url]
             && (if w.visited == [] then w'.until.Some? else w'.until == w.until)
    requires Stand(w'.queue) && forall id :: id in Held(w'.queue) ==> id.1 == count
    ensures var ids := Held(w'.queue);
            var start := if w.visited == [] then since else g.start;
            var g' := g.(pages := g.pages + [Read(url, next, ids)], start := start, brought := g.brought + ids);
            FilesOk(d, l, count + 1) && ListsOk(w') && WindowOk(d.work, l.left, since, w', g')
            && Owing(d.work, l, count + 1, g', WorkIds(w'))
  {
    hide Held, Window, Left, Justified, Stand;
    var ids := Held(w'.queue);
    var known := WorkIds(d.work) + g.brought + l.left;
    NothingHeld();
    Brings(WorkIds(d.work), g.brought, WorkIds(w), g.leaves, ids, l.taken, count);
    assert WorkIds(w) + ids == WorkIds(w');
    var start := g.start;
    if w.visited == [] {
      Restart(g.pages, w.visited, g.start, since, w.next, known);
      start := since;
    }
    WindowReads(g.pages, w.visited, start, w.next, known, Read(url, next, ids), WorkIds(d.work) + (g.brought + ids)
                  + l.left);
  }

  // --- Bounding the retries ---------------------------------------------------------------

  /** Of the first n threads, what KEPT stands for and what is GONE; the rest is to come. */
  ghost predicate Bounded(merged: seq<Thread>, n: nat, kept: seq<Thread>, gone: set<Id>)
    requires n <= |merged|
  {
    && Apart(merged) && Stand(merged)
    && Held(merged) == Held(kept) + gone + Held(merged[n..]) && gone !! Held(kept)
    && Held(kept) + gone !! Held(merged[n..])
    && Apart(kept) && Stand(kept) && forall t :: t in kept ==> exists i :: 0 <= i < n && merged[i].key == t.key
  }

  lemma BoundNone(w: Retained, merged: seq<Thread>)
    requires merged == Coalesced(w.retry) && ListsOk(w)
    ensures Bounded(merged, 0, [], {}) && Held(merged) == Held(w.retry) && (w.retry == [] ==> merged == [])
  {
    hide Held, Coalesced, Covers;
    CoalesceKeeps(w.retry);
    NothingHeld();
    assert merged[0..] == merged;
  }

  lemma {:induction false} BoundAll(disk: Retained, l: Ledger, count: nat, g: Progress, w: Retained,
                                    merged: seq<Thread>, kept: seq<Thread>, gone: set<Id>, leaves: seq<Leave>)
    requires Bounded(merged, |merged|, kept, gone) && Held(merged) == Held(w.retry) && ListsOk(w)
             && Owing(disk, l, count, g, WorkIds(w))
    requires Left(leaves) == Left(g.leaves) + gone && forall e :: e in leaves ==> Justified(e)
    ensures Apart(kept) && ListsOk(w.(retry := kept))
            && Owing(disk, l, count, g.(leaves := leaves), WorkIds(w.(retry := kept)))
  {
    hide Held, Left, Justified, Stand, Apart;
    assert merged[|merged|..] == [];
    NothingHeld();
  }

  lemma NextHeld(merged: seq<Thread>, n: nat, t: Thread)
    requires n < |merged| && Apart(merged) && t.key == merged[n].key && t.pages == merged[n].pages
    ensures Held(merged[n..]) == Held([t]) + Held(merged[n + 1..]) && Held([t]) !! Held(merged[n + 1..])
  {
    assert merged[n..] == [merged[n]] + merged[n + 1..];
    HeldSum([merged[n]], merged[n + 1..]);
    HeldOne(t);
    HeldOne(merged[n]);
    assert Held([t]) == Held([merged[n]]);
    forall x | x in merged[n + 1..] ensures x.key != t.key {
    }
    HeldKeys(merged[n + 1..], t);
  }

  lemma BoundOne(merged: seq<Thread>, n: nat, kept: seq<Thread>, gone: set<Id>, leaves: seq<Leave>, e: Leave)
    returns (gone': set<Id>)
    requires n < |merged| && Bounded(merged, n, kept, gone)
    requires (e.Expired? || e.Cut?) && e.thread.key == merged[n].key && e.thread.pages == merged[n].pages
    ensures Bounded(merged, n + 1, kept, gone') && Left(leaves + [e]) == Left(leaves) + IdsOf(e)
            && gone' == gone + IdsOf(e)
  {
    hide Held, Stand;
    gone' := gone + IdsOf(e);
    LeftMore(leaves, e);
    NextHeld(merged, n, e.thread);
  }

  lemma BoundKeep(merged: seq<Thread>, n: nat, kept: seq<Thread>, gone: set<Id>, t: Thread)
    requires n < |merged| && Bounded(merged, n, kept, gone) && t.key == merged[n].key && t.pages == merged[n].pages
    ensures Bounded(merged, n + 1, kept + [t], gone)
  {
    hide Held;
    NextHeld(merged, n, t);
    HeldSum(kept, [t]);
    assert merged[n] in merged;
    forall j | 0 <= j < |kept| ensures kept[j].key != t.key {
      assert kept[j] in kept;
    }
  }

  // --- Taking threads --------------------------------------------------------------------

  lemma {:induction false} NoThreads(since: int, page: nat)
    ensures Threads([], since, page) == [] && Held([]) == {}
  {
  }

  /** No page of the feed has a thread. */
  ghost predicate Empty(feed: Url -> Reply<Page>) {
    forall u :: feed(u).Got? && feed(u).value.Page? ==> feed(u).value.entries == []
  }

  /** Nothing was reset for its size. */
  ghost predicate NoReset(leaves: seq<Leave>) {
    forall e :: e in leaves ==> !e.ByteReset?
  }

  /** A page holds a thread of the kinds that are followed. */
  ghost predicate IsTracked(page: Page) {
    page.Page? && exists e :: e in page.entries && e.tracked
  }

  lemma {:induction false} TrackedIs(page: Page)
    requires page.Page?
    ensures IsTracked(page) <==> exists e :: e in page.entries && e.tracked
  {
  }

  /** The window's next page: the linked one, or the first. */
  function NextUrl(w: Retained, since: int): Url {
    w.next.GetOr(First(since))
  }

  /** That page can be read: it is safe and not read yet, and the window is not through. */
  ghost predicate Reads(w: Retained, since: int, feed: Url -> Reply<Page>) {
    var url := NextUrl(w, since);
    && !(w.next.None? && w.visited != []) && url !in w.visited && (url.Link? ==> url.safe)
    && feed(url).Got? && feed(url).value.Page? && |feed(url).value.entries| <= MAX_THREADS
  }

  /** It was taken. */
  ghost predicate PageIs(w: Retained, since: int, count: nat, feed: Url -> Reply<Page>, got: bool, w': Retained) {
    && Reads(w, since, feed) && got == IsTracked(feed(NextUrl(w, since)).value)
    && var page := feed(NextUrl(w, since)).value;
       w' == Retained(Threads(page.entries, since, count), w.retry, page.next, w.visited + [NextUrl(w, since)],
                      if w.visited == [] then Some(page.at) else w.until)
  }

  /** The window ends: it is through, its page is not modified, or it is cyclic and starts again later. */
  ghost predicate EndsAt(w: Retained, since: int, feed: Url -> Reply<Page>, w': Retained) {
    var url := NextUrl(w, since);
    if w.next.None? && w.visited != [] then w' == w
    else if url in w.visited then w' == w.(next := None, visited := [])
    else (url.Link? ==> url.safe) && feed(url) == Got(NotModified) && w' == w
  }

  /** The page's URL is unsafe, or it can't be read, or holds too many threads. */
  ghost predicate Throws(w: Retained, since: int, feed: Url -> Reply<Page>) {
    var url := NextUrl(w, since);
    || (url.Link? && !url.safe) || !feed(url).Got?
    || (feed(url).value.Page? && |feed(url).value.entries| > MAX_THREADS)
  }

  /** A thread to follow was found, or the window ended. */
  ghost predicate Enough(since: int, feed: Url -> Reply<Page>, w: Retained) {
    || (w.visited != [] && feed(w.visited[|w.visited| - 1]).Got? && IsTracked(feed(w.visited[|w.visited| - 1]).value))
    || (w.next.None? && w.visited != []) || (w.next.None? && w.visited == [])
    || feed(NextUrl(w, since)) == Got(NotModified)
  }

  lemma {:induction false} EnoughNow(w: Retained, since: int, feed: Url -> Reply<Page>, r: Step, w': Retained)
    requires r.Took? ==> exists count :: PageIs(w, since, count, feed, r.got, w')
    requires r.Ended? ==> EndsAt(w, since, feed, w')
    ensures r.Ended? || (r.Took? && r.got) ==> Enough(since, feed, w')
  {
    hide IsTracked;
  }

  lemma {:induction false} EnoughStill(since: int, feed: Url -> Reply<Page>, w: Retained, queue: seq<Thread>)
    ensures Enough(since, feed, w) ==> Enough(since, feed, w.(queue := queue))
  {
  }

  /** A new window whose only page is answered. */
  predicate OnePage(w: Retained, reply: Reply<Page>) {
    && w.queue == [] && w.visited == [] && w.next.None?
    && reply.Got? && reply.value.Page? && reply.value.next.None? && |reply.value.entries| <= MAX_THREADS
  }

  lemma Cyclic(disk: Retained, l: Ledger, count: nat, since: int, w: Retained, g: Progress)
    requires ListsOk(w) && WindowOk(disk, l.left, since, w, g) && Owing(disk, l, count, g, WorkIds(w))
    ensures var w', g' := w.(next := None, visited := []), g.(pages := []);
            ListsOk(w') && WindowOk(disk, l.left, since, w', g') && Owing(disk, l, count, g', WorkIds(w'))
  {
    hide Held, Left, Stand, Justified;
  }

  lemma QueueWindow(disk: Retained, left: set<Id>, since: int, w: Retained, g: Progress)
    requires WindowOk(disk, left, since, w, g)
    ensures WindowOk(disk, left, since, w.(queue := Coalesced(w.queue)), g)
  {
    hide Window, Coalesced;
  }

  lemma QueueCoalesced(disk: Retained, l: Ledger, count: nat, g: Progress, w: Retained)
    requires ListsOk(w) && Owing(disk, l, count, g, WorkIds(w))
    ensures ListsOk(w.(queue := Coalesced(w.queue)))
            && Owing(disk, l, count, g, WorkIds(w.(queue := Coalesced(w.queue)))) && Apart(Coalesced(w.queue))
  {
    hide Held, Coalesced, Covers, Owing;
    CoalesceKeeps(w.queue);
  }

  lemma FirstTaken(ts: seq<Thread>)
    requires ts != [] && Apart(ts) && Stand(ts)
    ensures Apart(ts[1..]) && Stand(ts[1..]) && Held(ts) == Held([ts[0]]) + Held(ts[1..])
            && ts[0].key !in KeysOf(ts[1..]) && KeysOf(ts[1..]) <= KeysOf(ts)
  {
    assert ts == [ts[0]] + ts[1..];
    HeldSum([ts[0]], ts[1..]);
  }

  lemma StandLess(ts: seq<Thread>, i: nat)
    requires i < |ts| && Stand(ts)
    ensures Stand(ts[..i] + ts[i + 1..])
  {
  }

  lemma Removed(ts: seq<Thread>, i: nat, t: Thread)
    requires i < |ts| && Apart(ts) && Stand(ts) && ts[i].key == t.key
    ensures var r := ts[..i] + ts[i + 1..];
            && Apart(r) && Stand(r) && t.key !in KeysOf(r)
            && Held(ts) + Held([t]) == Held(r) + Held([Merge(ts[i], t)]) && Held(r) <= Held(ts)
  {
    hide Held, Stand, Merge;
    var r := ts[..i] + ts[i + 1..];
    assert ts == ts[..i] + [ts[i]] + ts[i + 1..];
    HeldThree(ts[..i], ts[i], ts[i + 1..]);
    HeldSum(ts[..i], ts[i + 1..]);
    HeldMerge(ts[i], t);
    StandLess(ts, i);
    forall j | 0 <= j < |r| ensures r[j].key != ts[i].key {
    }
  }

  lemma TakenOk(disk: Retained, l: Ledger, count: nat, since: int, g: Progress, w: Retained, w': Retained, t: Thread)
    requires ListsOk(w) && WindowOk(disk, l.left, since, w, g) && Owing(disk, l, count, g, WorkIds(w))
    requires w' == w.(queue := w'.queue, retry := w'.retry) && Stand(w'.queue) && Stand(w'.retry)
    requires WorkIds(w) == WorkIds(w') + Held([t]) && Held(w'.queue) <= Held(w.queue) && Held(w'.retry) <= Held(w.retry)
    ensures ListsOk(w') && WindowOk(disk, l.left, since, w', g) && Owing(disk, l, count, g, WorkIds(w') + Held([t]))
  {
    hide Held, Stand, Conserves, Window;
  }

  // --- What becomes of a thread ------------------------------------------------------------

  /** A thread to be retried. */
  function Again(t: Thread, now: int): Thread {
    t.(started := Some(t.started.GetOr(now)), attempts := t.attempts + 1, after := now + Later(t.attempts + 1))
  }

  /** What a retry waits, by how often it failed: a minute, doubled each time, for an hour at most. */
  function DelayOf(attempts: nat): int {
    if attempts == 1 then 60000 else if attempts == 2 then 120000 else if attempts == 3 then 240000
    else if attempts == 4 then 480000 else if attempts == 5 then 960000 else if attempts == 6 then 1920000 else 3600000
  }

  /** A failed thread's age goes on, and its next attempt waits longer each time. */
  lemma {:induction false} BacksOff(t: Thread, now: int)
    ensures Again(t, now) == Thread(t.key, t.subject, t.since, Some(if t.started.Some? then t.started.value else now),
                                    t.attempts + 1, now + DelayOf(t.attempts + 1), t.pages)
  {
    assert Power(0) == 1 && Power(1) == 2 && Power(2) == 4 && Power(3) == 8;
    assert Power(4) == 16 && Power(5) == 32 && Power(6) == 64;
  }

  /** From retry n on none is due. */
  ghost predicate NoneDue(retry: seq<Thread>, n: nat, now: int) {
    forall i :: n <= i < |retry| ==> retry[i].after > now
  }

  lemma {:induction false} NoneYet(retry: seq<Thread>, now: int)
    ensures NoneDue(retry, |retry|, now)
  {
  }

  /** From n' on the retries are of those there were from n on. */
  ghost predicate Waiting(retry: seq<Thread>, n: nat, retry': seq<Thread>, n': nat)
    requires n <= |retry|
  {
    forall i :: n' <= i < |retry'| ==> retry'[i] in retry[n..]
  }

  lemma {:induction false} SameWaits(retry: seq<Thread>, n: nat)
    requires n <= |retry|
    ensures Waiting(retry, n, retry, n) && (n > 0 ==> Waiting(retry, n, retry[1..], n - 1))
  {
    forall i | n <= i < |retry| ensures retry[i] in retry[n..] {
      assert retry[n..][i - n] == retry[i];
    }
  }

  lemma {:induction false} FewerWait(was: seq<Thread>, n0: nat, retry: seq<Thread>, n: nat, i: nat)
    requires n0 <= |was| && Waiting(was, n0, retry, n) && i < |retry| && n <= |retry|
    ensures var r := retry[..i] + retry[i + 1..]; Waiting(was, n0, r, Min(n, |r|))
  {
    var r := retry[..i] + retry[i + 1..];
    forall k | Min(n, |r|) <= k < |r| ensures r[k] in was[n0..] {
      assert r[k] == retry[if k < i then k else k + 1];
    }
  }

  lemma {:induction false} StillNoneDue(was: seq<Thread>, n: nat, taken: seq<Thread>, n': nat, retry: seq<Thread>,
                                        now: int)
    requires n <= |was| && NoneDue(was, n, now) && Waiting(was, n, taken, n') && taken <= retry
    requires forall i :: |taken| <= i < |retry| ==> retry[i].after > now
    ensures NoneDue(retry, n', now)
  {
    forall i | n' <= i < |retry| ensures retry[i].after > now {
      if i < |taken| {
        assert taken[i] == retry[i] && taken[i] in was[n..];
        var j :| 0 <= j < |was[n..]| && was[n..][j] == taken[i];
        assert was[n + j] == retry[i];
      }
    }
  }

  /** One thread, due, whose comment can't be read. */
  predicate FailsOnce(w: Retained, now: int, attempts: Key -> Attempt) {
    && |w.queue| == 1 && w.retry == []
    && w.queue[0].after <= now && w.queue[0].subject.readable && attempts(w.queue[0].key).comment.Failed?
  }

  lemma PutBack(disk: Retained, l: Ledger, count: nat, since: int, g: Progress, w: Retained, t: Thread, again: Thread)
    requires ListsOk(w) && WindowOk(disk, l.left, since, w, g) && Owing(disk, l, count, g, WorkIds(w) + Held([t]))
             && Apart(w.retry)
    requires t.pages != {} && t.key !in KeysOf(w.retry) && t.key !in KeysOf(w.queue) && again.key == t.key
             && again.pages == t.pages
    ensures var w' := w.(retry := w.retry + [again]);
            ListsOk(w') && WindowOk(disk, l.left, since, w', g) && Owing(disk, l, count, g, WorkIds(w'))
            && Apart(w'.retry)
  {
    hide Held, Owing, Window;
    HeldSum(w.retry, [again]);
    HeldOne(t);
    HeldOne(again);
    assert Held([again]) == Held([t]);
    HeldKeys(w.queue, again);
    assert WorkIds(w.(retry := w.retry + [again])) == WorkIds(w) + Held([t]);
    forall j | 0 <= j < |w.retry| ensures w.retry[j].key != t.key {
      assert w.retry[j] in w.retry;
    }
  }

  lemma LeftDecided(disk: Retained, l: Ledger, count: nat, since: int, g: Progress, w: Retained, t: Thread, e: Leave)
    requires ListsOk(w) && WindowOk(disk, l.left, since, w, g) && Owing(disk, l, count, g, WorkIds(w) + Held([t]))
    requires t.key !in KeysOf(w.retry) && t.key !in KeysOf(w.queue) && e.Decided? && e.thread == t && Justified(e)
    ensures var g' := g.(leaves := g.leaves + [e]);
            WindowOk(disk, l.left, since, w, g') && Owing(disk, l, count, g', WorkIds(w))
  {
    hide Held, Window, Justified, Left;
    HeldKeys(w.queue, t);
    HeldKeys(w.retry, t);
    OneLeft(WorkIds(disk), g.brought, WorkIds(w) + Held([t]), WorkIds(w), g.leaves, e);
  }

  lemma OneLeft(held0: set<Id>, brought: set<Id>, held: set<Id>, held': set<Id>, leaves: seq<Leave>, e: Leave)
    requires Conserves(held0, brought, held, leaves) && held == held' + IdsOf(e) && held' !! IdsOf(e)
    ensures Conserves(held0, brought, held', leaves + [e])
  {
    LeftMore(leaves, e);
  }

  lemma TellsDecided(before: set<Item>, seen: set<Item>, news: seq<Item>, leaves: seq<Leave>, e: Leave,
                     seen': set<Item>, news': seq<Item>)
    requires Tells(before, seen, news, leaves) && e.Decided? && e.thread.pages != {}
    requires IsNews(e) ==> seen' == seen + {ItemOf(e)} && news' == if seen' == seen then news else news + [ItemOf(e)]
    requires !IsNews(e) ==> seen' == seen && news' == news
    ensures Tells(before, seen', news', leaves + [e])
  {
    HeldOne(e.thread);
    hide Decision, IsNews;
    forall x | x in news' ensures x !in before && exists y :: y in leaves + [e] && IsNews(y) && ItemOf(y) == x
                                                              && IdsOf(y) != {} {
      if x in news {
        var y :| y in leaves && IsNews(y) && ItemOf(y) == x && IdsOf(y) != {};
        assert y in leaves + [e];
      } else {
        assert e in leaves + [e];
      }
    }
  }

  lemma IsWhole(disk: Retained, l: Ledger, count: nat, since: int, g: Progress, w: Retained)
    requires WindowOk(disk, l.left, since, w, g) && Owing(disk, l, count, g, WorkIds(w)) && w.queue == []
             && w.next.None? && w.visited != []
    ensures Through(g.pages, Held(w.retry), l.left + Left(g.leaves)).Whole(g.start)
  {
    hide Held, Left, Justified;
    NothingHeld();
  }

  // --- What a death loses ---------------------------------------------------------------------

  /** The one page of a new window, with one thread whose comment can't be read. */
  predicate RetriesOnly(w: Retained, since: int, count: nat, now: int, feed: Url -> Reply<Page>,
                        attempts: Key -> Attempt) {
    && OnePage(w, feed(First(since))) && w.retry == []
    && FailsOnce(w.(queue := Coalesced(Threads(feed(First(since)).value.entries, since, count))), now, attempts)
  }

  /** It is through, and the thread to be retried. */
  predicate Retried(w: Retained, since: int, count: nat, now: int, feed: Url -> Reply<Page>, w': Retained)
    requires feed(First(since)).Got? && feed(First(since)).value.Page?
  {
    var page := feed(First(since)).value;
    var queue := Coalesced(Threads(page.entries, since, count));
    |queue| == 1 && w' == Retained([], [Again(queue[0], now)], None, [First(since)], Some(page.at))
  }

  /** That retry, and the cursor moved to the page's time. */
  predicate RetryOf(since: int, count: nat, now: int, feed: Url -> Reply<Page>, retry: seq<Thread>, moved: int)
    requires feed(First(since)).Got? && feed(First(since)).value.Page?
  {
    var page := feed(First(since)).value;
    var queue := Coalesced(Threads(page.entries, since, count));
    |queue| == 1 && retry == [Again(queue[0], now)] && moved == page.at
  }

  lemma AllLeft(disk: Retained, l: Ledger, count: nat, since: int, g: Progress, w: Retained, e: Leave)
    requires ListsOk(w) && WindowOk(disk, l.left, since, w, g) && Owing(disk, l, count, g, WorkIds(w))
             && e == ByteReset(w.queue + w.retry)
    ensures var w', g' := Retained([], [], None, [], None), g.(leaves := g.leaves + [e], pages := []);
            ListsOk(w') && WindowOk(disk, l.left, since, w', g') && Owing(disk, l, count, g', WorkIds(w'))
  {
    hide Held, Left;
    HeldSum(w.queue, w.retry);
    NothingHeld();
    LeftMore(g.leaves, e);
  }

  /** A poll that has nothing to do finds nothing. */
  lemma NothingTold(d: Disk, l: Ledger, count: nat, g: Progress, w: Retained, seen: set<Item>, news: seq<Item>)
    requires Owing(d.work, l, count, g, WorkIds(w)) && Tells(d.seen, seen, news, g.leaves)
    ensures WorkIds(d.work) == {} && g.brought == {} ==> news == []
    ensures forall e :: e in g.leaves ==> Justified(e)
  {
    hide Held, Justified, IsNews, Below;
    if WorkIds(d.work) == {} && g.brought == {} && news != [] {
      assert Left(g.leaves) == {};
      assert news[0] in news;
      var e :| e in g.leaves && IsNews(e) && ItemOf(e) == news[0] && IdsOf(e) != {};
      InLeft(g.leaves, e);
    }
  }

  lemma {:induction false} InLeft(leaves: seq<Leave>, e: Leave)
    requires e in leaves
    ensures IdsOf(e) <= Left(leaves)
  {
    if e != leaves[|leaves| - 1] {
      InLeft(leaves[..|leaves| - 1], e);
    }
  }

  /**
   The ledger after a death between the cursor's write and the work's: the
   poll's pages are past, and its work is not saved.
   */
  ghost function CursorOnly(l: Ledger, g: Progress, printed: set<Item>): Ledger {
    l.(taken := l.taken + g.brought, left := l.left + Left(g.leaves) * g.brought, untold := l.untold
         + Untold(g.leaves, printed) * g.brought)
  }

  /** And once the work is saved. */
  ghost function WorkSaved(l: Ledger, g: Progress, printed: set<Item>): Ledger {
    Ledger(g.pages, g.start, l.taken + g.brought, l.left + Left(g.leaves), l.untold + Untold(g.leaves, printed))
  }

  /**
   The threads about to be saved as retries, and those of unprinted news,
   stand for earlier pages only: checked before the cursor is written.
   */
  ghost predicate NothingNew(retry: seq<Thread>, leaves: seq<Leave>, printed: set<Item>, first: nat) {
    && (forall t, n :: t in retry && n in t.pages ==> n < first)
    && (forall e, n :: e in leaves && IsNews(e) && ItemOf(e) !in printed && n in e.thread.pages ==> n < first)
  }

  lemma {:induction false} CursorDeath(d: Disk, l: Ledger, count: nat, since: int, w: Retained, g: Progress,
                                       printed: set<Item>)
    requires FilesOk(d, l, count) && ListsOk(w) && WindowOk(d.work, l.left, since, w, g)
             && Owing(d.work, l, count, g, WorkIds(w)) && w.queue == []
    ensures FilesOk(d, CursorOnly(l, g, printed), count)
    ensures Lost(d.work, CursorOnly(l, g, printed)) == Lost(d.work, l)
              + g.brought * (Held(w.retry) + Untold(g.leaves, printed))
    ensures Lost(d.work, CursorOnly(l, g, printed)) == Lost(d.work, l) <==>
              NothingNew(w.retry, g.leaves, printed, g.first)
  {
    hide Held, Left, Untold, Window, Stand, Justified;
    NothingHeld();
    UntoldLeft(g.leaves, printed);
    WindowKnown(l.pages, d.work.visited, l.start, d.work.next, WorkIds(d.work) + l.left, WorkIds(d.work)
                  + (l.left + Left(g.leaves) * g.brought));
    NewOnes(d.work, l, count, w, g, printed);
  }

  /** What a poll brought is told from what it took up by its page's number. */
  lemma {:induction false} NewOnes(disk: Retained, l: Ledger, count: nat, w: Retained, g: Progress, printed: set<Item>)
    requires LedgerOk(WorkIds(disk), l, count) && Owing(disk, l, count, g, WorkIds(w)) && w.queue == []
    ensures g.brought * (Held(w.retry) + Untold(g.leaves, printed)) == {} <==>
              NothingNew(w.retry, g.leaves, printed, g.first)
  {
    hide Left, Untold, Decision, Justified;
    UntoldLeft(g.leaves, printed);
    NothingHeld();
    var newest := g.brought * (Held(w.retry) + Untold(g.leaves, printed));
    forall id | id in Held(w.retry) + Untold(g.leaves, printed) ensures id in newest <==> id.1 >= g.first {
      assert id in WorkIds(disk) + g.brought;
      assert id in WorkIds(disk) ==> id in l.taken;
    }
    if newest == {} {
      forall t, n | t in w.retry && n in t.pages ensures n < g.first {
        assert (t.key, n) in Held(w.retry);
      }
      forall e, n | e in g.leaves && IsNews(e) && ItemOf(e) !in printed && n in e.thread.pages ensures n < g.first {
        HeldOne(e.thread);
        UntoldWhen(g.leaves, printed, (e.thread.key, n));
      }
    } else {
      var id :| id in newest;
      UntoldWhen(g.leaves, printed, id);
      if id !in Held(w.retry) {
        var e :| e in g.leaves && IsNews(e) && ItemOf(e) !in printed && id in IdsOf(e);
        HeldOne(e.thread);
      }
    }
  }

  lemma {:induction false} WorkDeath(d: Disk, l: Ledger, count: nat, since: int, w: Retained, g: Progress,
                                     seen: set<Item>, printed: set<Item>)
    requires FilesOk(d, l, count) && ListsOk(w) && WindowOk(d.work, l.left, since, w, g)
             && Owing(d.work, l, count, g, WorkIds(w))
    requires w.visited == [] || d.since == since
    ensures FilesOk(d.(work := w), WorkSaved(l, g, printed), count)
            && FilesOk(Disk(d.since, w, seen), WorkSaved(l, g, printed), count)
    ensures Lost(w, WorkSaved(l, g, printed)) == Lost(d.work, l) + Untold(g.leaves, printed)
    ensures Conserves(WorkIds(d.work), g.brought, WorkIds(w), g.leaves)
  {
    hide Held, Left, Untold, Window, Stand, Justified;
    UntoldLeft(g.leaves, printed);
    assert WorkIds(w) + (l.left + Left(g.leaves)) == WorkIds(d.work) + g.brought + l.left;
  }

  /** Where all that was seen was printed, what is untold is the news found. */
  lemma {:induction false} NewsUntold(before: set<Item>, seen: set<Item>, news: seq<Item>, leaves: seq<Leave>,
                                      printed: set<Item>)
    requires Tells(before, seen, news, leaves) && printed <= before
    ensures before == printed ==> (Untold(leaves, printed) == {} <==> news == [])
    ensures before == printed ==> Untold(leaves, printed + (set x | x in news)) == {}
    ensures printed + (set x | x in news) <= seen && before <= seen
  {
    hide IsNews, ItemOf, IdsOf, Untold;
    if news != [] {
      assert news[0] in news;
      var e :| e in leaves && IsNews(e) && ItemOf(e) == news[0] && IdsOf(e) != {};
      var id :| id in IdsOf(e);
      UntoldWhen(leaves, printed, id);
    } else if id :| id in Untold(leaves, printed) {
      UntoldWhen(leaves, printed, id);
    }
    var told := printed + (set x | x in news);
    if id :| id in Untold(leaves, told) {
      UntoldWhen(leaves, told, id);
    }
  }

  lemma SeenIs(before: set<Item>, seen: set<Item>, news: seq<Item>, leaves: seq<Leave>)
    requires Tells(before, seen, news, leaves)
    ensures seen == before + (set x | x in news) && (news == [] ==> seen == before)
  {
  }

  lemma Grows(lost: set<Id>, more: set<Id>)
    ensures lost + more == {} <==> lost == {} && more == {}
  {
    assert lost <= lost + more && more <= lost + more;
  }

  datatype Input = Input(now: int, due: bool, identity: bool, feed: Url -> Reply<Page>, attempts: Key -> Attempt,
                         oversized: bool, dies: Moment)

  /** A poll's end that loses nothing: as could be checked before each write. */
  ghost predicate Harmless(end: Moment, retry: seq<Thread>, leaves: seq<Leave>, printed: set<Item>, news: seq<Item>,
                           first: nat) {
    match end
    case AfterCursor => NothingNew(retry, leaves, printed, first)
    case AfterWork => news == []
    case AfterSeen => news == []
    case _ => true
  }

  lemma {:induction false} OneThread(e: Entry, since: int, page: nat)
    requires e.tracked && e.key.Some?
    ensures var t := Thread(e.key.value, e.subject, since, None, 0, 0, {page});
            Threads([e], since, page) == [t] && Coalesced([t]) == [t]
  {
    var t := Thread(e.key.value, e.subject, since, None, 0, 0, {page});
    assert [e][..0] == [] && [t][..0] == [];
    assert Coalesced([]) == [] && Put([], t) == [t];
  }

  lemma {:induction false} TheOne(brought: set<Id>, again: Thread, printed: set<Item>, lost: set<Id>)
    requires again.pages == {0} && lost == brought * (Held([again]) + Untold([], printed)) && lost != {}
    ensures (again.key, 0) in lost && (again.key, 0) in brought
  {
    HeldOne(again);
    var id :| id in lost;
  }

  /**
   A run that loses a thread: its comment can't be read, so it is to be
   retried; the cursor is written; the process dies. The next poll starts
   from the new cursor: nothing holds the thread, and nothing is found.
   */
  method LosesThread() returns (p: Poller, cursor: int)
    ensures p.Resting() && WorkIds(p.disk.work) == {} && cursor == 20 && p.printed == {}
    ensures ("subject", 0) in p.saved.taken && ("subject", 0) in Lost(p.disk.work, p.saved)
  {
    hide FilesOk, Threads, Coalesced, Tells, Untold, Justified, Through.Whole;
    p := new Poller(10);
    p.lateFrom := 100;
    var e := Entry(true, Some("subject"), Subject(15, true));
    OneThread(e, 10, 0);
    var feed := (u: Url) => if u == First(10) then Got(Page(20, None, [e])) else Failed;
    var attempts := (k: Key) => Attempt(Failed, Failed, None);
    assert RetriesOnly(p.disk.work, 10, 0, 20, feed, attempts);
    var end;
    ghost var moved;
    end, moved := p.Poll(20, true, true, feed, attempts, false, AfterCursor);
    ghost var again := p.state.retry[0];
    assert again in p.state.retry && 0 in again.pages;
    TheOne(p.g.brought, again, p.printed, Lost(p.disk.work, p.saved));
    assert WorkIds(p.disk.work) == {} && Left([]) == {};
    cursor := p.disk.since;
    var none := (u: Url) => Got(NotModified);
    end, moved := p.Poll(80, true, true, none, attempts, false, Lives);
  }
}

/**
 The watch of cloud runs (lib/run-watch.js, with the suspicion of
 lib/run-health.js): a run attempt that stays unhealthy is cancelled, once,
 and its item goes back to Todo. The state is saved between effects, and
 the process may die at any save.
 */
module RunWatch {
  import opened Options

  type ItemId = nat
  datatype Health = Unknown | Healthy | Stalled | Failing | Runaway

  /**
   A run's URL: the run's number, how many zeros lead its digits, and how the
   rest is written (case, a final slash).
   */
  datatype Url = Url(run: nat, zeros: nat, form: nat)

  /**
   A board item: MINE if it's in progress, not manual and led by no one else;
   its Run field if that names a run of the repository.
   */
  datatype BoardItem = BoardItem(id: ItemId, mine: bool, url: Option<Url>)
  type Board = seq<BoardItem>

  datatype RunStatus = InProgress | Completed(cancelled: bool) | Other
  datatype Run = Run(attempt: nat, status: RunStatus)

  datatype Key = Key(run: nat, attempt: nat)
  datatype Entry = Entry(item: ItemId, url: Url, health: Health, since: Option<int>, ready: bool,
                         requested: bool, confirmed: bool, cleaned: bool, applied: bool)
  type Runs = map<Key, Entry>

  // --- The board ---------------------------------------------------------------

  predicate Owned(item: BoardItem) {
    item.mine && item.url.Some?
  }

  function Canonical(url: Url): (nat, nat) {
    (url.run, url.zeros)
  }

  predicate SameRun(a: Option<Url>, b: Option<Url>) {
    a.Some? && b.Some? && Canonical(a.value) == Canonical(b.value)
  }

  function Owners(board: Board, url: Option<Url>): nat {
    if board == [] then 0 else (if SameRun(board[0].url, url) then 1 else 0) + Owners(board[1..], url)
  }

  function Find(board: Board, id: ItemId): (r: Option<BoardItem>)
    ensures r.Some? ==> r.value in board && r.value.id == id
  {
    if board == [] then None else if board[0].id == id then Some(board[0]) else Find(board[1..], id)
  }

  predicate StillOwner(board: Board, item: BoardItem) {
    var found := Find(board, item.id);
    found.Some? && Owned(found.value) && found.value.url == item.url && Owners(board, item.url) == 1
  }

  /** What the check means: the item is in progress with that Run, and no other entry of the board names it. */
  ghost predicate IsSoleOwner(board: Board, id: ItemId, url: Url) {
    exists i :: 0 <= i < |board| && board[i] == BoardItem(id, true, Some(url))
                && forall j :: 0 <= j < |board| && SameRun(board[j].url, Some(url)) ==> j == i
  }

  lemma {:induction false} SomeOwner(board: Board, i: nat, url: Option<Url>)
    requires i < |board| && SameRun(board[i].url, url)
    ensures Owners(board, url) >= 1
  {
    if i > 0 {
      SomeOwner(board[1..], i - 1, url);
    }
  }

  lemma {:induction false} TwoOwners(board: Board, i: nat, j: nat, url: Option<Url>)
    requires i < j < |board| && SameRun(board[i].url, url) && SameRun(board[j].url, url)
    ensures Owners(board, url) >= 2
  {
    if i == 0 {
      SomeOwner(board[1..], j - 1, url);
    } else {
      TwoOwners(board[1..], i - 1, j - 1, url);
    }
  }

  lemma {:induction false} OneOwner(board: Board, i: nat, j: nat, url: Option<Url>)
    requires i < |board| && j < |board| && SameRun(board[i].url, url) && SameRun(board[j].url, url)
    requires Owners(board, url) == 1
    ensures i == j
  {
    if i < j {
      TwoOwners(board, i, j, url);
    } else if j < i {
      TwoOwners(board, j, i, url);
    }
  }

  lemma StillOwnerIsSole(board: Board, item: BoardItem)
    requires StillOwner(board, item)
    ensures item.url.Some? && IsSoleOwner(board, item.id, item.url.value)
  {
    var found := Find(board, item.id).value;
    var i :| 0 <= i < |board| && board[i] == found;
    forall j | 0 <= j < |board| && SameRun(board[j].url, item.url) ensures j == i {
      OneOwner(board, i, j, item.url);
    }
  }

  /** A Run with a leading zero names the same run, and is not counted with it. */
  lemma TwoSoleOwners()
    ensures var a, b := BoardItem(1, true, Some(Url(7, 0, 0))), BoardItem(2, true, Some(Url(7, 1, 0)));
            StillOwner([a, b], a) && StillOwner([a, b], b)
  {
    var a, b := BoardItem(1, true, Some(Url(7, 0, 0))), BoardItem(2, true, Some(Url(7, 1, 0)));
    assert [a, b][1..] == [b];
    assert Owners([b], a.url) == 0 && Owners([b], b.url) == 1;
  }

  ghost predicate Names(board: Board, j: int, run: nat) {
    0 <= j < |board| && board[j].url.Some? && board[j].url.value.run == run
  }

  /** So an owner is the only item to name its run exactly when no other spells the number with other zeros. */
  lemma SoleOfNumber(board: Board, item: BoardItem)
    requires StillOwner(board, item)
    ensures var url := item.url.value;
            (forall i, j :: Names(board, i, url.run) && Names(board, j, url.run) ==> i == j)
            <==> (forall j :: Names(board, j, url.run) ==> board[j].url.value.zeros == url.zeros)
  {
    StillOwnerIsSole(board, item);
    var url := item.url.value;
    var i :| 0 <= i < |board| && board[i] == BoardItem(item.id, true, Some(url));
    assert Names(board, i, url.run);
    if forall j :: Names(board, j, url.run) ==> board[j].url.value.zeros == url.zeros {
      forall i, j | Names(board, i, url.run) && Names(board, j, url.run) ensures i == j {
        OneOwner(board, i, j, item.url);
      }
    }
  }

  // --- Suspicion -----------------------------------------------------------------

  predicate Suspect(h: Health) {
    h in {Stalled, Failing, Runaway}
  }

  /** An evaluation's suspicion: a class's first time while it lasts, and whether that is GRACE ago. */
  function Suspected(was: Entry, h: Health, now: int, grace: int): (e: Entry)
    ensures e.health == h && (e.since.Some? <==> Suspect(h))
    ensures e.ready <==> e.since.Some? && now - e.since.value >= grace
  {
    if !Suspect(h) then was.(health := h, since := None, ready := false)
    else
      var since := if was.health == h && was.since.Some? && was.since.value <= now then was.since.value else now;
      was.(health := h, since := Some(since), ready := now - since >= grace)
  }

  // --- What happened ---------------------------------------------------------------

  datatype Event =
    | Recorded(key: Key, health: Health, at: int)   // an evaluation, once saved
    | Intent(key: Key, lived: bool)                 // a saved intent; LIVED if by its own save, and the process
    | Cancel(key: Key, grace: int)                  // the POST, whatever came of it
    | SeenCancelled(key: Key, run: Run)             // GitHub's answer: the attempt completed, cancelled
    | Deregister(key: Key)                          // the run's heartbeat
    | SoleOwner(board: Board, item: ItemId, url: Url) // a read of the board
    | Todo(item: ItemId, key: Key)                  // the item's way back

  /** From event i on, every recorded evaluation of the attempt is of one class. */
  ghost predicate Unbroken(log: seq<Event>, i: int, k: Key, h: Health) {
    && 0 <= i < |log| && log[i].Recorded? && log[i].key == k && log[i].health == h
    && forall l :: i < l < |log| && log[l].Recorded? && log[l].key == k ==> log[l].health == h
  }

  ghost predicate Cancelled(log: seq<Event>, k: Key) {
    exists e :: e in log && e.Cancel? && e.key == k
  }

  ghost predicate Intended(log: seq<Event>, k: Key) {
    exists e :: e in log && e.Intent? && e.key == k
  }

  /** No POST is due: the process is not between an intent's save and its request. */
  predicate Settled(log: seq<Event>) {
    log == [] || !(log[|log| - 1].Intent? && log[|log| - 1].lived)
  }

  /** When an effect may happen, after LOG. */
  ghost predicate Allowed(log: seq<Event>, e: Event) {
    (Settled(log) || (e.Cancel? && log[|log| - 1] == Intent(e.key, true))) && MayHappen(log, e)
  }

  ghost predicate MayHappen(log: seq<Event>, e: Event) {
    var n := |log|;
    match e
    case Intent(k, _) => !Intended(log, k)
    case Cancel(k, grace) =>
      // The intent saved just before, after evaluations of one unhealthy class for the grace time.
      && n >= 2 && log[n - 1] == Intent(k, true) && log[n - 2].Recorded? && log[n - 2].key == k
      && Suspect(log[n - 2].health)
      && exists i :: Unbroken(log, i, k, log[n - 2].health) && log[n - 2].at - log[i].at >= grace
    case SeenCancelled(k, run) => run.attempt == k.attempt && run.status == Completed(true)
    case Deregister(k) => n > 0 && log[n - 1].SeenCancelled? && log[n - 1].key == k && Intended(log, k)
    case SoleOwner(board, item, url) => IsSoleOwner(board, item, url)
    case Todo(item, k) =>
      && Intended(log, k)
      && n > 0 && log[n - 1].SoleOwner? && log[n - 1].item == item && log[n - 1].url.run == k.run
      && exists m :: JustSeen(log, m, k)
    case _ => true
  }

  /** Event m saw the attempt cancelled, and nothing was evaluated since. */
  ghost predicate JustSeen(log: seq<Event>, m: int, k: Key) {
    0 <= m < |log| && log[m].SeenCancelled? && log[m].key == k && forall l :: m < l < |log| ==> !log[l].Recorded?
  }

  ghost predicate AllAllowed(log: seq<Event>) {
    forall n :: 0 <= n < |log| ==> Allowed(log[..n], log[n])
  }

  // --- What the state keeps ------------------------------------------------------------

  ghost predicate EntryOk(log: seq<Event>, k: Key, e: Entry) {
    && (e.requested ==> Intended(log, k))
    && (e.confirmed || e.applied ==> e.requested)
    && (Suspect(e.health) && e.since.Some? ==> exists i :: Unbroken(log, i, k, e.health) && log[i].at == e.since.value)
  }

  ghost predicate StateOk(runs: Runs, log: seq<Event>) {
    && (forall k :: k in runs ==> EntryOk(log, k, runs[k]))
    && (forall k :: Intended(log, k) ==> k in runs && runs[k].requested)
  }

  lemma AppendAllowed(log: seq<Event>, e: Event)
    requires AllAllowed(log) && Allowed(log, e)
    ensures AllAllowed(log + [e])
  {
    hide Allowed;
    forall n | 0 <= n < |log + [e]| ensures Allowed((log + [e])[..n], (log + [e])[n]) {
      assert (log + [e])[..n] == log[..n];
      assert n == |log| ==> log[..n] == log;
    }
  }

  lemma AppendCancelled(log: seq<Event>, e: Event, k: Key)
    ensures Cancelled(log + [e], k) <==> Cancelled(log, k) || (e.Cancel? && e.key == k)
  {
    if Cancelled(log, k) {
      var c :| c in log && c.Cancel? && c.key == k;
      assert c in log + [e];
    }
    if e.Cancel? && e.key == k {
      assert e in log + [e];
    }
  }

  lemma AppendIntended(log: seq<Event>, e: Event, k: Key)
    ensures Intended(log + [e], k) <==> Intended(log, k) || (e.Intent? && e.key == k)
  {
    if Intended(log, k) {
      var c :| c in log && c.Intent? && c.key == k;
      assert c in log + [e];
    }
    if e.Intent? && e.key == k {
      assert e in log + [e];
    }
  }

  /** An entry is kept by any event but another class of the same attempt. */
  lemma AppendEntry(log: seq<Event>, ev: Event, k: Key, e: Entry)
    requires EntryOk(log, k, e)
    requires ev.Recorded? && ev.key == k ==> ev.health == e.health
    ensures EntryOk(log + [ev], k, e)
  {
    AppendIntended(log, ev, k);
    if Suspect(e.health) && e.since.Some? {
      var i :| Unbroken(log, i, k, e.health) && log[i].at == e.since.value;
      assert Unbroken(log + [ev], i, k, e.health) && (log + [ev])[i] == log[i];
    }
  }

  /** An event that is no evaluation and no intent leaves the state right. */
  lemma Neutral(runs: Runs, log: seq<Event>, ev: Event)
    requires StateOk(runs, log) && !ev.Recorded? && !ev.Intent?
    ensures StateOk(runs, log + [ev])
  {
    hide EntryOk, Intended;
    forall k | k in runs ensures EntryOk(log + [ev], k, runs[k]) {
      AppendEntry(log, ev, k, runs[k]);
    }
    forall k ensures Intended(log + [ev], k) <==> Intended(log, k) {
      AppendIntended(log, ev, k);
    }
  }

  /** One entry changed, by an event about its attempt. */
  lemma Change(runs: Runs, log: seq<Event>, k: Key, e: Entry, ev: Event)
    requires StateOk(runs, log) && (ev.Recorded? ==> ev.key == k) && (ev.Intent? ==> ev.key == k && e.requested)
    requires k in runs && runs[k].requested ==> e.requested
    requires EntryOk(log + [ev], k, e)
    ensures StateOk(runs[k := e], log + [ev])
  {
    hide EntryOk, Intended;
    var runs' := runs[k := e];
    forall x | x in runs' ensures EntryOk(log + [ev], x, runs'[x]) {
      if x != k {
        AppendEntry(log, ev, x, runs[x]);
      }
    }
    forall x ensures Intended(log + [ev], x) <==> Intended(log, x) || (ev.Intent? && x == k) {
      AppendIntended(log, ev, x);
    }
  }

  /** What was confirmed, applied or cleaned up is set in one entry. */
  lemma Flag(runs: Runs, log: seq<Event>, k: Key, e: Entry)
    requires StateOk(runs, log) && k in runs && runs[k].requested
    requires e == runs[k].(cleaned := e.cleaned, confirmed := e.confirmed, applied := e.applied)
    ensures StateOk(runs[k := e], log)
  {
    hide Intended, Unbroken;
    assert EntryOk(log, k, runs[k]);
  }

  /** The evaluation just recorded, and the suspicion it leaves. */
  lemma SuspectedOk(log: seq<Event>, k: Key, was: Entry, h: Health, now: int, grace: int)
    requires EntryOk(log, k, was)
    ensures EntryOk(log + [Recorded(k, h, now)], k, Suspected(was, h, now, grace))
  {
    var ev := Recorded(k, h, now);
    AppendIntended(log, ev, k);
    if Suspect(h) {
      if was.health == h && was.since.Some? && was.since.value <= now {
        var i :| Unbroken(log, i, k, h) && log[i].at == was.since.value;
        assert Unbroken(log + [ev], i, k, h) && (log + [ev])[i] == log[i];
      } else {
        assert Unbroken(log + [ev], |log|, k, h);
      }
    }
  }

  /** No save failed or was the last act. */
  ghost predicate NoneLate(past: seq<Outcome>) {
    forall f :: f in past ==> f.Works? || f.DiesBefore?
  }

  /** Then every intent was followed by its request. */
  ghost predicate Prompt(past: seq<Outcome>, log: seq<Event>) {
    NoneLate(past) ==> forall e :: e in log && e.Intent? ==> e.lived
  }

  lemma MorePast(past: seq<Outcome>, f: Outcome, log: seq<Event>)
    requires Prompt(past, log)
    ensures Prompt(past + [f], log)
  {
    if NoneLate(past + [f]) {
      forall x | x in past ensures x.Works? || x.DiesBefore? {
        assert x in past + [f];
      }
    }
  }

  lemma MorePrompt(past: seq<Outcome>, log: seq<Event>, e: Event)
    requires Prompt(past, log) && !e.Intent?
    ensures Prompt(past, log + [e])
  {
  }

  lemma PromptIntent(past: seq<Outcome>, f: Outcome, log: seq<Event>, e: Event)
    requires Prompt(past, log) && e.Intent? && (e.lived <==> !f.Fails? && !f.DiesAfter?)
    ensures Prompt(past + [f], log + [e])
  {
    MorePast(past, f, log);
    assert f in past + [f];
  }

  /** Since FROM, no heartbeat was ended twice, and only those TRIED. */
  ghost predicate Once(log: seq<Event>, from: nat, tried: set<Key>) {
    && from <= |log| && (forall i :: from <= i < |log| && log[i].Deregister? ==> log[i].key in tried)
    && forall i, j :: from <= i < j < |log| && log[i].Deregister? && log[j].Deregister? ==> log[i].key != log[j].key
  }

  lemma OnceMore(log: seq<Event>, from: nat, tried: set<Key>, e: Event)
    requires Once(log, from, tried)
    requires e.Deregister? ==> e.key in tried && forall i :: from <= i < |log| ==> log[i] != e
    ensures Once(log + [e], from, tried)
  {
  }

  lemma NotYetTried(log: seq<Event>, from: nat, tried: set<Key>, k: Key)
    requires Once(log, from, tried) && k !in tried
    ensures Once(log, from, tried + {k}) && forall i :: from <= i < |log| ==> log[i] != Deregister(k)
  {
  }

  lemma NotIntended(runs: Runs, log: seq<Event>, k: Key)
    requires StateOk(runs, log) && k in runs && !runs[k].requested
    ensures !Intended(log, k)
  {
  }

  // --- The process ----------------------------------------------------------------------

  /** What becomes of a save: it works, it fails, or the process dies before or after it. */
  datatype Outcome = Works | Fails | DiesBefore | DiesAfter

  datatype End = Done | Threw | Died

  /** What the calls about one candidate answer: None or false for one that throws. */
  datatype Answers = Answers(
    run: Option<Run>, jobs: bool, health: Health,
    board: Option<Board>, again: Option<Run>, againJobs: bool, againHealth: Health, at: int,
    post: bool, after: Option<Run>, deregistered: bool, lastBoard: Option<Board>, set_: bool)

  /** A pending cleanup's. */
  datatype Probe = Probe(run: Option<Run>, deregistered: bool)

  datatype Opts = Opts(applying: bool, publish: bool, grace: int)

  predicate IsCancelled(run: Run, k: Key) {
    run.attempt == k.attempt && run.status == Completed(true)
  }

  /** Only an executing run has a verdict. */
  function Verdict(run: Run, health: Health): Health {
    if run.status.InProgress? then health else Unknown
  }

  /** The attempt's entry, as the item's. */
  function EntryOf(runs: Runs, k: Key, item: BoardItem): Entry
    requires Owned(item)
  {
    if k in runs then runs[k].(item := item.id, url := item.url.value)
    else Entry(item.id, item.url.value, Unknown, None, false, false, false, false, false)
  }

  class Watch {
    var disk: Runs
    var mem: Runs
    /** The attempts whose cleanup this sweep tried. */
    var tried: set<Key>
    /** What is to become of the next saves; they work when it is over. */
    var fates: seq<Outcome>
    ghost var log: seq<Event>
    /** Recorded in memory, not yet saved. */
    ghost var pending: seq<Event>
    /** What became of the saves so far. */
    ghost var past: seq<Outcome>
    /** How much of the log was there when this sweep began. */
    ghost var began: nat

    /** Right at any moment, also between an intent's save and its request. */
    ghost predicate Kept()
      reads this
    {
      AllAllowed(log) && StateOk(disk, log) && Prompt(past, log) && Once(log, began, tried)
    }

    ghost predicate Durable()
      reads this
    {
      Kept() && Settled(log)
    }

    ghost predicate Saved()
      reads this
    {
      Kept() && pending == [] && StateOk(mem, log)
    }

    ghost predicate Alive()
      reads this
    {
      Saved() && Settled(log)
    }

    constructor ()
      ensures Alive() && disk == map[] && mem == map[] && log == [] && past == [] && fates == []
    {
      disk, mem, tried, fates, log, pending, past, began := map[], map[], {}, [], [], [], [], 0;
    }

    function Fate(): Outcome
      reads this`fates
    {
      if fates == [] then Works else fates[0]
    }

    /** Saves the state; PENDING becomes durable with it. */
    method Persist() returns (end: End)
      requires Durable() && StateOk(mem, log + pending) && AllAllowed(log + pending)
      requires Prompt(past + [Fate()], log + pending) && Once(log + pending, began, tried)
      modifies this`disk, this`log, this`pending, this`fates, this`past
      ensures NoneLate(old(past + fates)) ==> NoneLate(past + fates)
      ensures Kept() && past == old(past) + [old(Fate())]
      ensures match old(Fate())
              case Works => end.Done? && disk == mem && log == old(log + pending) && Saved()
              case Fails => end.Threw? && disk == old(disk) && log == old(log) && pending == old(pending)
                            && Prompt(past, log + pending)
              case DiesBefore => end.Died? && disk == old(disk) && log == old(log)
              case DiesAfter => end.Died? && disk == mem && log == old(log + pending)
      ensures fates == (if old(fates) == [] then [] else old(fates)[1..])
    {
      hide AllAllowed, StateOk, Prompt, Once;
      var fate := Fate();
      past := past + [fate];
      MorePast(old(past), fate, log);
      fates := if fates == [] then [] else fates[1..];
      if fate.Fails? {
        return Threw;
      }
      if fate.DiesBefore? {
        return Died;
      }
      disk := mem;
      log := log + pending;
      pending := [];
      assert log + [] == log;
      end := if fate.Works? then Done else Died;
    }

    /** One evaluation, saved. */
    method Record(k: Key, item: BoardItem, h: Health, now: int, grace: int) returns (end: End)
      requires Alive() && Owned(item)
      modifies this`disk, this`mem, this`log, this`pending, this`fates, this`past
      ensures NoneLate(old(past + fates)) ==> NoneLate(past + fates)
      ensures Ended(end, old(log), |old(past)|)
      ensures end.Done? ==> log == old(log) + [Recorded(k, h, now)] && k in mem
      ensures end.Done? ==>
                mem == old(mem)[k := Suspected(EntryOf(old(mem), k, item), h, now, grace)]
      ensures end.Threw? ==> log == old(log) && pending == [Recorded(k, h, now)] && pending[0] == Recorded(k, h, now)
      ensures old(Fate()).Works? ==> end.Done? && disk == mem
      ensures fates == (if old(fates) == [] then [] else old(fates)[1..])
    {
      hide AllAllowed, EntryOk, Intended, Suspected, Prompt, Once;
      var was := EntryOf(mem, k, item);
      NewEntry(mem, log, k, was);
      SuspectedOk(log, k, was, h, now, grace);
      KeptFlags(was, h, now, grace);
      Change(mem, log, k, Suspected(was, h, now, grace), Recorded(k, h, now));
      AppendAllowed(log, Recorded(k, h, now));
      MorePrompt(past, log, Recorded(k, h, now));
      OnceMore(log, began, tried, Recorded(k, h, now));
      MorePast(past, Fate(), log + [Recorded(k, h, now)]);
      mem := mem[k := Suspected(was, h, now, grace)];
      pending := [Recorded(k, h, now)];
      end := Persist();
    }

    /** A call threw: what is in memory can still be saved. */
    ghost predicate Thrown(was: seq<Event>)
      reads this
    {
      && Durable() && was <= log
      && StateOk(mem, log + pending) && AllAllowed(log + pending) && Prompt(past, log + pending)
      && Settled(log + pending)
      && Once(log + pending, began, tried)
    }

    /** What a step about a candidate leaves, by how it ended. */
    ghost predicate Ended(end: End, was: seq<Event>, saves: nat)
      reads this
    {
      && Durable() && was <= log && saves <= |past|
      && (end.Done? ==> Alive())
      && (end.Threw? ==> Thrown(was))
      && (end.Died? ==> Stopped(saves))
    }

    /** The last save, of those since there were SAVES of them, was the process's last act or failed. */
    ghost predicate Stopped(saves: nat)
      reads this`past
    {
      |past| > saves && !past[|past| - 1].Works?
    }

    /** An effect that the log allows, while everything is saved. */
    ghost method Happens(e: Event)
      requires Saved() && Allowed(log, e) && !e.Recorded? && !e.Intent?
      requires e.Deregister? ==> e.key in tried && forall i :: began <= i < |log| ==> log[i] != e
      modifies this`log
      ensures Alive() && log == old(log) + [e]
    {
      hide AllAllowed, StateOk, Allowed, Prompt, Once;
      AppendAllowed(log, e);
      MorePrompt(past, log, e);
      OnceMore(log, began, tried, e);
      Neutral(mem, log, e);
      Neutral(disk, log, e);
      log := log + [e];
      assert log + [] == log;
    }

    /** The intent to cancel, saved, and then the POST. */
    method RequestCancel(k: Key, a: Answers, grace: int) returns (end: End)
      requires Alive() && k in mem && !mem[k].requested && mem[k].ready && Suspect(mem[k].health) && mem[k].since.Some?
      requires log != [] && exists at :: log[|log| - 1] == Recorded(k, mem[k].health, at)
                                         && at - mem[k].since.value >= grace
      modifies this`disk, this`mem, this`log, this`pending, this`fates, this`past
      ensures NoneLate(old(past + fates)) ==> NoneLate(past + fates)
      ensures Ended(end, old(log), |old(past)|)
      ensures end.Done? ==> k in mem && mem[k] == old(mem[k]).(requested := true)
      ensures fates == (if old(fates) == [] then [] else old(fates)[1..])
      ensures match old(Fate())
              case Works => (end.Done? <==> a.post) && !end.Died? && disk == mem
                            && mem == old(mem)[k := old(mem[k]).(requested := true)]
                            && log == old(log) + [Intent(k, true), Cancel(k, grace)] && Cancelled(log, k)
              case Fails => end.Threw? && log == old(log) && pending == [Intent(k, false)]
              case DiesBefore => end.Died? && log == old(log)
              case DiesAfter => end.Died? && log == old(log) + [Intent(k, false)]
                                && disk == old(mem)[k := old(mem[k]).(requested := true)]
    {
      hide AllAllowed, Intended, Cancelled, Unbroken, Prompt, Once, EntryOk;
      EntryAt(mem, log, k);
      var e := mem[k].(requested := true);
      // An intent that is never saved is in no log.
      ghost var intent := Intent(k, !Fate().Fails? && !Fate().DiesAfter?);
      AppendIntended(log, intent, k);
      NotIntended(mem, log, k);
      AppendEntry(log, intent, k, mem[k]);
      AskedEntry(log + [intent], k, mem[k]);
      Change(mem, log, k, e, intent);
      AppendAllowed(log, intent);
      PromptIntent(past, Fate(), log, intent);
      OnceMore(log, began, tried, intent);
      mem := mem[k := e];
      pending := [intent];
      end := Persist();
      if end.Done? {
        MayCancel(old(mem), old(log), k, grace);
        Happens(Cancel(k, grace));
        AppendCancelled(old(log) + [Intent(k, true)], Cancel(k, grace), k);
        assert old(log) + [Intent(k, true)] + [Cancel(k, grace)] == old(log) + [Intent(k, true), Cancel(k, grace)];
        if !a.post {
          end := Threw;
        }
        assert log + [] == log;
      }
    }

    method Break(k: Key, now: int)
      requires k in mem && Thrown(log)
      modifies this`mem, this`pending
      ensures Thrown(log) && mem == old(mem)[k := Broken(old(mem)[k])]
      ensures pending == old(pending) + [Recorded(k, Unknown, now)]
    {
      hide AllAllowed, Intended, Prompt, Once;
      ghost var ev := Recorded(k, Unknown, now);
      BrokenOk(log + pending, k, mem[k], now);
      Change(mem, log + pending, k, Broken(mem[k]), ev);
      AppendAllowed(log + pending, ev);
      MorePrompt(past, log + pending, ev);
      OnceMore(log + pending, began, tried, ev);
      assert log + (pending + [ev]) == log + pending + [ev];
      mem := mem[k := Broken(mem[k])];
      pending := pending + [ev];
    }

    /** An unreadable run breaks the suspicion of the item's attempts, and no intent to cancel. */
    method Reset(item: BoardItem, now: int)
      requires Owned(item) && Thrown(log)
      modifies this`mem, this`pending
      ensures Thrown(log) && log == old(log) && old(pending) <= pending
      ensures mem == Unsuspected(old(mem), item)
      ensures forall k :: k in old(mem) && Concerns(old(mem)[k], item) ==> Recorded(k, Unknown, now) in pending
    {
      hide AllAllowed, StateOk, Prompt, Once;
      var rest := mem.Keys;
      while rest != {}
        invariant rest <= mem.Keys && mem.Keys == old(mem).Keys
        invariant Thrown(log) && log == old(log) && old(pending) <= pending
        invariant forall k :: k in mem && k !in rest && Concerns(old(mem)[k], item) ==>
                    Recorded(k, Unknown, now) in pending
        invariant forall k :: k in mem ==>
                    mem[k] == if k !in rest && Concerns(old(mem)[k], item) then Broken(old(mem)[k]) else old(mem)[k]
        decreases rest
      {
        var k :| k in rest;
        rest := rest - {k};
        if Concerns(mem[k], item) {
          Break(k, now);
        }
      }
    }

    /** The run's heartbeat, once a sweep, after its attempt was seen cancelled. */
    method Cleanup(k: Key, deregistered: bool) returns (end: End)
      requires Alive() && k in mem && mem[k].requested && log != []
      requires log[|log| - 1].SeenCancelled? && log[|log| - 1].key == k
      modifies this`disk, this`mem, this`log, this`pending, this`fates, this`past, this`tried
      ensures NoneLate(old(past + fates)) ==> NoneLate(past + fates)
      ensures Ended(end, old(log), |old(past)|)
      ensures if old(mem)[k].cleaned || k in old(tried) then end.Done? && log == old(log) && mem == old(mem)
                                                             && tried == old(tried)
              else log == old(log) + [Deregister(k)] && mem == old(mem)[k := old(mem)[k].(cleaned := deregistered)]
                   && tried == old(tried) + {k}
      ensures end.Threw? ==> Alive()
      ensures old(fates) == [] ==> end.Done? && fates == [] && (old(disk) == old(mem) ==> disk == mem)
    {
      hide AllAllowed, StateOk, Intended, Prompt, Once;
      assert log + [] == log;
      if mem[k].cleaned || k in tried {
        return Done;
      }
      WasIntended(mem, log, k);
      NotYetTried(log, began, tried, k);
      tried := tried + {k};
      Happens(Deregister(k));
      var e := mem[k].(cleaned := deregistered);
      Flag(mem, log, k, e);
      mem := mem[k := e];
      assert log + [] == log;
      MorePast(past, Fate(), log);
      end := Persist();
    }

    /** Before acting: the item still owns the run, and the run is evaluated afresh. None when refused. */
    method Revalidate(k: Key, item: BoardItem, a: Answers, grace: int) returns (end: End, run: Option<Run>)
      requires Alive() && Owned(item) && k in mem
      modifies this`disk, this`mem, this`log, this`pending, this`fates, this`past
      ensures NoneLate(old(past + fates)) ==> NoneLate(past + fates)
      ensures Ended(end, old(log), |old(past)|)
      ensures end.Done? && run.Some? ==>
                && run == a.again && log == old(log) + [Recorded(k, Verdict(run.value, a.againHealth), a.at)]
                && mem == old(mem)[k := Suspected(EntryOf(old(mem), k, item), Verdict(run.value, a.againHealth), a.at,
                                                  grace)]
      ensures end.Done? && run.None? ==> mem == old(mem) && log == old(log)
      ensures Reassured(k, item, a) ==> fates == (if old(fates) == [] then [] else old(fates)[1..])
      ensures Reassured(k, item, a) && old(Fate()).Works? ==> end.Done? && run.Some?
      ensures old(fates) == [] ==> fates == [] && !end.Died? && (old(disk) == old(mem) ==> disk == mem)
      ensures old(fates) == [] ==> && (end.Threw? <==> Unanswered(k, item, a))
                                   && (end.Threw? ==> mem == old(mem)) && (run.Some? ==> Reassured(k, item, a))
    {
      hide AllAllowed, StateOk, Suspected, StillOwner;
      run := None;
      assert log + [] == log;
      if a.board.None? || a.again.None? {
        return Threw, None;
      }
      if !StillOwner(a.board.value, item) || a.again.value.attempt != k.attempt {
        return Done, None;
      }
      if a.again.value.status.InProgress? && !a.againJobs {
        return Threw, None;
      }
      end := Record(k, item, Verdict(a.again.value, a.againHealth), a.at, grace);
      run := a.again;
    }

    /** An attempt of ours is seen cancelled: noted, and its heartbeat ends. */
    method Confirm(k: Key, run: Run, deregistered: bool) returns (end: End)
      requires Alive() && k in mem && mem[k].requested && IsCancelled(run, k)
      modifies this`disk, this`mem, this`log, this`pending, this`fates, this`past, this`tried
      ensures NoneLate(old(past + fates)) ==> NoneLate(past + fates)
      ensures Ended(end, old(log), |old(past)|)
      ensures end.Done? ==> k in mem && mem[k].requested && JustSeen(log, |old(log)|, k)
      ensures old(fates) == [] ==> fates == [] && end.Done? && (old(disk) == old(mem) ==> disk == mem)
      ensures old(fates) == [] ==> mem == old(mem)[k := Confirmed(old(mem)[k], k, old(tried), deregistered)]
      ensures old(fates) == [] ==> tried == if old(mem)[k].cleaned then old(tried) else old(tried) + {k}
    {
      hide AllAllowed, EntryOk, Prompt, StateOk;
      Happens(SeenCancelled(k, run));
      end := Note(k, mem[k].(confirmed := true));
      if end.Done? {
        end := Cleanup(k, deregistered);
      }
    }

    /** Back to Todo, if the item is still the run's owner. */
    method GiveBack(k: Key, item: BoardItem, a: Answers, ghost seen: nat) returns (end: End)
      requires Alive() && Owned(item) && k in mem && mem[k].requested && k.run == item.url.value.run
      requires JustSeen(log, seen, k)
      modifies this`disk, this`mem, this`log, this`pending, this`fates, this`past
      ensures NoneLate(old(past + fates)) ==> NoneLate(past + fates)
      ensures Ended(end, old(log), |old(past)|)
      ensures old(fates) == [] && a.lastBoard.Some? && StillOwner(a.lastBoard.value, item) ==>
                Since(log, |old(log)|, Todo(item.id, k))
      ensures old(fates) == [] ==> fates == [] && !end.Died? && (old(disk) == old(mem) ==> disk == mem)
      ensures old(fates) == [] ==> var c := Returned(old(mem)[k], item, a, Run(k.attempt, Other));
                                   (end.Threw? <==> c.threw) && mem == old(mem)[k := c.e]
    {
      hide AllAllowed, StateOk, StillOwner, IsSoleOwner, Intended, JustSeen, Prompt, Allowed;
      WasIntended(mem, log, k);
      assert log + [] == log;
      if a.lastBoard.None? {
        return Threw;
      }
      if !StillOwner(a.lastBoard.value, item) {
        return Done;
      }
      StillOwnerIsSole(a.lastBoard.value, item);
      MayGiveBack(log, k, item, a.lastBoard.value, seen);
      Happens(SoleOwner(a.lastBoard.value, item.id, item.url.value));
      Happens(Todo(item.id, k));
      assert log + [] == log && log[|old(log)| + 1] == Todo(item.id, k);
      if !a.set_ {
        return Threw;
      }
      end := Note(k, mem[k].(applied := true));
    }

    /** Notes what was confirmed or applied, and saves it. */
    method Note(k: Key, e: Entry) returns (end: End)
      requires Alive() && k in mem && mem[k].requested && e == mem[k].(confirmed := e.confirmed, applied := e.applied)
      modifies this`disk, this`mem, this`log, this`pending, this`fates, this`past
      ensures NoneLate(old(past + fates)) ==> NoneLate(past + fates)
      ensures Ended(end, old(log), |old(past)|) && (end.Done? ==> log == old(log) && mem == old(mem)[k := e])
      ensures old(fates) == [] ==> end.Done? && fates == [] && disk == mem
    {
      hide AllAllowed, StateOk, Prompt, Once;
      Flag(mem, log, k, e);
      MorePast(past, Fate(), log);
      mem := mem[k := e];
      assert log + [] == log;
      end := Persist();
    }

    /** A suspicion that stayed for the grace time cancels the attempt, unless it was asked for already. */
    method Act(k: Key, item: BoardItem, run: Run, a: Answers, opts: Opts) returns (end: End, seen: Run)
      requires Alive() && Owned(item) && k in mem && k.run == item.url.value.run && run.attempt == k.attempt
      modifies this`disk, this`mem, this`log, this`pending, this`fates, this`past
      ensures NoneLate(old(past + fates)) ==> NoneLate(past + fates)
      ensures Ended(end, old(log), |old(past)|)
      ensures end.Done? ==> k in mem
      ensures !Executing(run) ==> end.Done? && mem == old(mem) && seen == run
      ensures end.Done? && old(mem)[k].requested ==> mem[k].requested && mem[k].applied == old(mem)[k].applied
      ensures old(fates) == [] ==> fates == [] && !end.Died? && (old(disk) == old(mem) ==> disk == mem)
      ensures old(fates) == [] ==> var c := Cancelling(old(mem)[k], item, run, a, opts);
                                   (end.Threw? <==> c.threw) && mem == old(mem)[k := c.e]
                                   && (end.Done? ==> seen == c.run)
      ensures old(fates) == [] && CancelDue(old(mem)[k], k, item, run, a, opts) ==>
                Since(log, |old(log)|, Cancel(k, opts.grace))
    {
      hide AllAllowed, StateOk, EntryOk, Cancelled, Suspected, StillOwner;
      end, seen := Done, run;
      if !run.status.InProgress? || !(opts.publish || (mem[k].ready && !mem[k].requested)) {
        return;
      }
      var again;
      end, again := Revalidate(k, item, a, opts.grace);
      if !end.Done? || again.None? {
        return;
      }
      seen := again.value;
      var e := mem[k];
      Readied(EntryOf(old(mem), k, item), Verdict(seen, a.againHealth), a.at, opts.grace);
      if e.ready && !e.requested && seen.status.InProgress? {
        end := RequestCancel(k, a, opts.grace);
        if end.Done? {
          if a.after.None? {
            end := Threw;
            assert log + [] == log;
          } else {
            seen := a.after.value;
          }
        }
      }
    }

    /** One candidate, whose run is listed or was asked to be cancelled. */
    method Examine(board: Board, item: BoardItem, listed: Option<Run>, a: Answers, opts: Opts, now: int)
      returns (end: End)
      requires Alive() && Owned(item)
      modifies this`disk, this`mem, this`log, this`pending, this`fates, this`past, this`tried
      ensures NoneLate(old(past + fates)) ==> NoneLate(past + fates)
      ensures Ended(end, old(log), |old(past)|)
      ensures Answered(listed, a).None? ==> end.Threw? && mem == old(mem) && disk == old(disk) && tried == old(tried)
      ensures Answered(listed, a).Some? && !end.Died? ==>
                Since(log + pending, |old(log)|, Evaluation(board, item, Answered(listed, a).value, a, now))
      ensures old(fates) == [] ==> fates == [] && !end.Died? && (old(disk) == old(mem) ==> disk == mem)
      ensures old(fates) == [] && Answered(listed, a).Some? ==>
                var c := CourseOf(old(mem), old(tried), board, item, Answered(listed, a).value, a, opts, now);
                (end.Threw? <==> c.threw) && mem == old(mem)[KeyOf(item, Answered(listed, a).value) := c.e]
                && tried == TriedBy(old(mem), old(tried), board, item, Answered(listed, a).value, a, opts, now)
      ensures old(fates) == [] && opts.applying && Answered(listed, a).Some? ==>
                DueDone(old(mem), board, item, Answered(listed, a).value, a, opts, now, log, |old(log)|)
    {
      hide AllAllowed, StateOk, EntryOk, Cancelled, Suspected, StillOwner, CancelDue, JustSeen, Prompt, Once,
           Cancelling,
           Ours, Confirmed, Returned, Unanswered, Reassured;
      assert log + [] == log;
      if Answered(listed, a).None? {
        return Threw;
      }
      var run := Answered(listed, a).value;
      var k := KeyOf(item, run);
      end := Record(k, item, Judged(board, item, run, a), now, opts.grace);
      ghost var recorded := if end.Threw? then log + pending else log;
      assert !end.Died? ==> recorded[|old(log)|] == Evaluation(board, item, run, a, now);
      if end.Done? && opts.applying {
        end := Proceed(k, item, run, a, opts);
      }
      assert !end.Died? ==> recorded <= log + pending && (log + pending)[|old(log)|] == recorded[|old(log)|];
    }

    /** What follows an evaluation. */
    method Proceed(k: Key, item: BoardItem, run: Run, a: Answers, opts: Opts) returns (end: End)
      requires Alive() && Owned(item) && k in mem && k == KeyOf(item, run)
      modifies this`disk, this`mem, this`log, this`pending, this`fates, this`past, this`tried
      ensures NoneLate(old(past + fates)) ==> NoneLate(past + fates)
      ensures Ended(end, old(log), |old(past)|)
      ensures old(fates) == [] ==> fates == [] && !end.Died? && (old(disk) == old(mem) ==> disk == mem)
      ensures old(fates) == [] ==>
                var c := Cancelling(old(mem)[k], item, run, a, opts);
                var d := if Ours(c, k) then Returned(Confirmed(c.e, k, old(tried), a.deregistered), item, a, c.run)
                         else c;
                && (end.Threw? <==> d.threw) && mem == old(mem)[k := d.e]
                && tried == (if Ours(c, k) && !c.e.cleaned then old(tried) + {k} else old(tried))
                && (CancelDue(old(mem)[k], k, item, run, a, opts) ==> Since(log, |old(log)|, Cancel(k, opts.grace)))
                && (TodoDue(c, k, item, a) ==> Since(log, |old(log)|, Todo(item.id, k)))
    {
      hide AllAllowed, StateOk, EntryOk, Cancelled, Suspected, StillOwner, CancelDue, JustSeen, Prompt, Once,
           Cancelling,
           Confirmed, Unanswered, Reassured, IsCancelled, Returned;
      var seen;
      end, seen := Act(k, item, run, a, opts);
      ghost var acted := log;
      if end.Done? && mem[k].requested && !mem[k].applied && IsCancelled(seen, k) {
        ghost var n := |log|;
        end := Confirm(k, seen, a.deregistered);
        if end.Done? {
          SameReturn(mem[k], item, a, Run(k.attempt, Other), seen);
          end := GiveBack(k, item, a, n);
        }
      }
    }

    /** One candidate of the board. One whose calls throw loses its suspicion, and no intent to cancel. */
    method Candidate(board: Board, item: BoardItem, listed: Option<Run>, a: Answers, opts: Opts, now: int)
      returns (alive: bool, threw: bool)
      requires Alive() && Owned(item)
      modifies this`disk, this`mem, this`log, this`pending, this`fates, this`past, this`tried
      ensures NoneLate(old(past + fates)) ==> NoneLate(past + fates)
      ensures Durable() && old(log) <= log && |old(past)| <= |past| && if alive then Alive() else Stopped(|old(past)|)
      ensures alive ==> forall k :: k in old(mem) && old(mem)[k].requested ==> k in mem && mem[k].requested
      ensures (listed.Some? || Waits(old(mem), item)) && Answered(listed, a).None? ==> threw
      ensures threw && alive ==> disk == mem && forall k :: k in mem && Concerns(mem[k], item) ==>
                                                  mem[k] == Broken(mem[k])
                                                  && Since(log, |old(log)|, Recorded(k, Unknown, now))
      ensures alive && (listed.Some? || Waits(old(mem), item)) && Answered(listed, a).Some? ==>
                Since(log, |old(log)|, Evaluation(board, item, Answered(listed, a).value, a, now))
      ensures old(fates) == [] ==> fates == [] && alive && (old(disk) == old(mem) ==> disk == mem)
      ensures old(fates) == [] ==>
                Sweeping(mem, tried) == TurnOf(Sweeping(old(mem), old(tried)), board, item, listed, a, opts, now)
      ensures old(fates) == [] && opts.applying && (listed.Some? || Waits(old(mem), item))
              && Answered(listed, a).Some? ==>
                DueDone(old(mem), board, item, Answered(listed, a).value, a, opts, now, log, |old(log)|)
    {
      hide AllAllowed, StateOk, EntryOk, Cancelled, Suspected, StillOwner, CancelDue, JustSeen, DueDone, Prompt, Once,
           CourseOf, TriedBy, Evaluation, Unsuspected;
      var waits := exists k :: k in mem && Concerns(mem[k], item) && mem[k].requested;
      if listed.None? && !waits {
        return true, false;
      }
      var end := Examine(board, item, listed, a, opts, now);
      ghost var examined := log;
      threw := end.Threw?;
      if threw {
        end := Drop(item, now, |old(log)|);
      }
      alive := end.Done?;
      if alive {
        IntentsKept(old(mem), old(log), mem, log);
      }
      if Answered(listed, a).Some? {
        DueDoneLater(old(mem), board, item, Answered(listed, a).value, a, opts, now, examined, log, |old(log)|);
      }
    }

    /** A candidate whose calls threw loses its suspicion, and that is saved. */
    method Drop(item: BoardItem, now: int, ghost from: nat) returns (end: End)
      requires Owned(item) && Thrown(log) && from <= |log|
      modifies this`disk, this`mem, this`log, this`pending, this`fates, this`past
      ensures NoneLate(old(past + fates)) ==> NoneLate(past + fates)
      ensures Durable() && old(log) <= log && |old(past)| <= |past|
      ensures if end.Done? then Alive() && disk == mem && old(log + pending) <= log else Stopped(|old(past)|)
      ensures mem == Unsuspected(old(mem), item)
      ensures end.Done? ==> forall k :: k in mem && Concerns(mem[k], item) ==>
                              mem[k] == Broken(mem[k]) && Since(log, from, Recorded(k, Unknown, now))
      ensures old(fates) == [] ==> fates == [] && end.Done?
    {
      hide AllAllowed, StateOk, Prompt, Once, Unsuspected;
      AllBroken(mem, item);
      ghost var thrown := mem;
      Reset(item, now);
      PendingSince(thrown, item, log, pending, from, now);
      MorePast(past, Fate(), log + pending);
      end := Persist();
    }

    /** The cleanups left over are tried: of attempts that are still cancelled, not rerun. */
    method Leftovers(probes: Key -> Probe) returns (alive: bool)
      requires Alive()
      modifies this`disk, this`mem, this`log, this`pending, this`fates, this`past, this`tried
      ensures NoneLate(old(past + fates)) ==> NoneLate(past + fates)
      ensures Durable() && old(log) <= log && |old(past)| <= |past| && if alive then Alive() else Stopped(|old(past)|)
      ensures alive ==> forall k :: k in old(mem) && IsLeft(old(mem)[k], k, probes(k)) && k !in old(tried) ==>
                          Since(log, |old(log)|, Deregister(k))
      ensures alive && old(tried) == {} ==> mem == CleanedUp(old(mem), probes) && tried == LeftKeys(old(mem), probes)
      ensures old(fates) == [] ==> alive && fates == [] && (old(disk) == old(mem) ==> disk == mem)
    {
      hide AllAllowed, StateOk, EntryOk, Prompt, Once, IsLeft, LeftTried;
      alive := true;
      var rest := mem.Keys;
      NoneTried(old(mem), old(tried), probes, log);
      while rest != {} && alive
        invariant Durable() && old(log) <= log && |old(past)| <= |past|
        invariant if alive then Alive() else Stopped(|old(past)|)
        invariant NoneLate(old(past + fates)) ==> NoneLate(past + fates)
        invariant rest <= old(mem).Keys
        invariant alive ==> LeftTried(old(mem), old(tried), probes, rest, mem, tried, log, |old(log)|)
        invariant old(fates) == [] ==> alive && fates == [] && (old(disk) == old(mem) ==> disk == mem)
        decreases rest
      {
        var k :| k in rest;
        ghost var was, tried0, log0 := mem, tried, log;
        StillLeft(old(mem), old(tried), probes, rest, mem, tried, log, |old(log)|, k);
        ghost var all := rest;
        rest := rest - {k};
        assert rest + {k} == all;
        if IsLeft(mem[k], k, probes(k)) {
          // A save that fails here is tried again with the next one.
          alive := CleanLeft(k, probes(k));
        }
        if alive {
          OneLeft(old(mem), old(tried), probes, rest, k, was, tried0, log0, mem, tried, log, |old(log)|);
        }
      }
      if alive {
        AllLeft(old(mem), old(tried), probes, mem, tried, log, |old(log)|);
      }
    }

    /** One cleanup left over. */
    method CleanLeft(k: Key, probe: Probe) returns (alive: bool)
      requires Alive() && k in mem && IsLeft(mem[k], k, probe)
      modifies this`disk, this`mem, this`log, this`pending, this`fates, this`past, this`tried
      ensures NoneLate(old(past + fates)) ==> NoneLate(past + fates)
      ensures Durable() && old(log) <= log && |old(past)| <= |past| && if alive then Alive() else Stopped(|old(past)|)
      ensures if k in old(tried) then mem == old(mem) && tried == old(tried)
              else mem == old(mem)[k := old(mem)[k].(cleaned := probe.deregistered)] && tried == old(tried) + {k}
                   && Since(log, |old(log)|, Deregister(k))
      ensures old(fates) == [] ==> alive && fates == [] && (old(disk) == old(mem) ==> disk == mem)
    {
      hide AllAllowed, StateOk, EntryOk, Prompt, Once;
      ConfirmedWas(mem, log, k);
      Happens(SeenCancelled(k, probe.run.value));
      var end := Cleanup(k, probe.deregistered);
      alive := !end.Died?;
      assert k !in old(tried) ==> log[|old(log)| + 1] == Deregister(k);
    }

    /** A sweep starts from what was saved, and has tried no cleanup. */
    method Begin()
      requires Durable()
      modifies this`mem, this`pending, this`tried, this`began
      ensures Alive() && mem == disk && tried == {} && began == |log|
    {
      hide AllAllowed, StateOk, Prompt;
      mem, pending, tried, began := disk, [], {}, |log|;
      assert log + [] == log;
    }

    /**
     One sweep, from what was saved. The listing of runs is None if it can't be
     read. DONE of the board's items had their turn: all of them, if no save
     stopped the process.
     */
    method Sweep(board: Board, listing: Option<map<nat, Run>>, answers: ItemId -> Answers, probes: Key -> Probe,
                 opts: Opts, now: int)
      returns (ghost lived: bool, ghost done: nat)
      requires Durable()
      modifies this
      ensures NoneLate(old(past + fates)) ==> NoneLate(past + fates)
      ensures Durable() && old(log) <= log
      ensures forall i, j :: |old(log)| <= i < j < |log| && log[i].Deregister? && log[j].Deregister? ==>
                log[i].key != log[j].key
      ensures !lived ==> Stopped(|old(past)|)
      ensures opts.applying && (done > 0 || lived) ==>
                forall k :: k in old(disk) && IsLeft(old(disk)[k], k, probes(k)) ==>
                  Since(log, |old(log)|, Deregister(k))
      ensures listing.None? && lived ==> disk == mem == WithoutSuspicion(AtFirst(old(disk), probes, opts).runs, board)
      ensures done <= |board| && (listing.Some? && lived ==> done == |board|)
      ensures forall n :: 0 <= n < done ==>
                listing.Some? && WasEvaluated(board, board[n], listing.value, answers, now, log, |old(log)|)
      ensures old(fates) == [] ==> fates == [] && lived && disk == mem
      ensures old(fates) == [] && listing.Some? ==>
                mem == Turns(AtFirst(old(disk), probes, opts), board, |board|, listing.value, answers, opts, now).runs
      ensures old(fates) == [] && listing.Some? ==>
                AllDone(AtFirst(old(disk), probes, opts), board, |board|, listing.value, answers, opts, now, log,
                        |old(log)|)
    {
      hide AllAllowed, StateOk, EntryOk, Cancelled, Prompt, TurnOf, TurnDone, WasEvaluated, DueDone, AllDone,
           Evaluation,
           IsLeft, WithoutSuspicion, CleanedUp, LeftKeys, Waits, Broken, Answered;
      Begin();
      done := 0;
      ghost var start, from := AtFirst(old(disk), probes, opts), |old(log)|;
      var alive := true;
      if opts.applying {
        alive := Leftovers(probes);
      }
      lived := alive;
      if alive && listing.None? {
        lived := ResetAll(board, now);
      }
      if !alive || listing.None? {
        return;
      }
      ghost var cleaned := log;
      NothingDone(start, board, listing.value, answers, opts, now, log, from);
      var n := 0;
      while n < |board| && alive
        invariant 0 <= done <= n <= |board| && (if alive then done == n && Alive() else Stopped(|old(past)|))
        invariant Durable() && began == from && old(log) <= log && cleaned <= log && |old(past)| <= |past|
        invariant NoneLate(old(past + fates)) ==> NoneLate(past + fates)
        invariant forall m :: 0 <= m < done ==> WasEvaluated(board, board[m], listing.value, answers, now, log, from)
        invariant old(fates) == [] ==>
                    alive && fates == [] && disk == mem
                    && Sweeping(mem, tried) == Turns(start, board, n, listing.value, answers, opts, now)
                    && AllDone(start, board, n, listing.value, answers, opts, now, log, from)
      {
        var item := board[n];
        ghost var was, log0 := mem, log;
        if Owned(item) {
          var threw;
          alive, threw := Candidate(board, item, ListedRun(item, listing.value), answers(item.id), opts, now);
        }
        StillEvaluated(board, done, listing.value, answers, now, log0, log, from);
        if alive {
          NowEvaluated(board, item, listing.value, answers, now, log0, log, from);
          done := n + 1;
        }
        if old(fates) == [] {
          StillDone(start, board, n, listing.value, answers, opts, now, log0, log, from);
          NowDone(start, board, n, listing.value, answers, opts, now, log0, log, from);
        }
        n := n + 1;
      }
      lived := alive;
    }

    /**
     Without the listing, no candidate is known to be unhealthy still: all their
     suspicions are broken, and that is saved.
     */
    method ResetAll(board: Board, now: int) returns (saved: bool)
      requires Alive()
      modifies this`disk, this`mem, this`log, this`pending, this`fates, this`past
      ensures NoneLate(old(past + fates)) ==> NoneLate(past + fates)
      ensures Durable() && old(log) <= log
      ensures mem == WithoutSuspicion(old(mem), board) && (saved ==> disk == mem)
      ensures (saved <==> old(Fate()).Works?) && past == old(past) + [old(Fate())]
      ensures old(fates) == [] ==> fates == []
    {
      hide AllAllowed, StateOk, EntryOk, Cancelled, Prompt, Once;
      assert log + [] == log && board[..0] == [];
      for n := 0 to |board|
        invariant Thrown(log) && log == old(log) && past == old(past) && fates == old(fates)
        invariant mem == WithoutSuspicion(old(mem), board[..n])
      {
        assert board[..n + 1] == board[..n] + [board[n]];
        if Owned(board[n]) {
          Reset(board[n], now);
        }
      }
      assert board[..|board|] == board;
      MorePast(past, Fate(), log + pending);
      var end := Persist();
      saved := end.Done?;
    }
  }

  /** The entries of the board's candidates without a suspicion. */
  function WithoutSuspicion(runs: Runs, board: Board): Runs {
    map k | k in runs :: if exists n :: 0 <= n < |board| && Owned(board[n])
                                        && Concerns(runs[k], board[n]) then Broken(runs[k]) else runs[k]
  }

  /** A cleanup is left over. */
  predicate IsLeft(e: Entry, k: Key, probe: Probe) {
    e.confirmed && !e.cleaned && probe.run.Some? && IsCancelled(probe.run.value, k)
  }

  /** A run of the item's is asked to be cancelled. */
  ghost predicate Waits(runs: Runs, item: BoardItem)
    requires Owned(item)
  {
    exists k :: k in runs && Concerns(runs[k], item) && runs[k].requested
  }

  /** Event e is in the log from event FROM on. */
  ghost predicate Since(log: seq<Event>, from: nat, e: Event) {
    exists i :: from <= i < |log| && log[i] == e
  }

  function KeyOf(item: BoardItem, run: Run): Key
    requires Owned(item)
  {
    Key(item.url.value.run, run.attempt)
  }

  ghost function Evaluation(board: Board, item: BoardItem, run: Run, a: Answers, now: int): Event
    requires Owned(item)
  {
    Recorded(KeyOf(item, run), Judged(board, item, run, a), now)
  }

  /** The entry once its run is evaluated. */
  ghost function Entered(runs: Runs, board: Board, item: BoardItem, run: Run, a: Answers, opts: Opts, now: int): Entry
    requires Owned(item)
  {
    Suspected(EntryOf(runs, KeyOf(item, run), item), Judged(board, item, run, a), now, opts.grace)
  }

  /** A candidate's entry in the midst of its turn, whether a call threw, and its run as it was last read. */
  datatype Course = Course(e: Entry, threw: bool, run: Run)

  /** A call of the revalidation throws. */
  ghost predicate Unanswered(k: Key, item: BoardItem, a: Answers) {
    || a.board.None? || a.again.None?
    || (StillOwner(a.board.value, item) && a.again.value.attempt == k.attempt && a.again.value.status.InProgress?
        && !a.againJobs)
  }

  /** Revalidated, and asked to cancel, where every save works. */
  ghost function Cancelling(e: Entry, item: BoardItem, run: Run, a: Answers, opts: Opts): Course
    requires Owned(item)
  {
    var k := KeyOf(item, run);
    if !run.status.InProgress? || !(opts.publish || (e.ready && !e.requested)) then Course(e, false, run)
    else if Unanswered(k, item, a) then Course(e, true, run)
    else if !Reassured(k, item, a) then Course(e, false, run)
    else
      var again := a.again.value;
      var e1 := Suspected(e.(item := item.id, url := item.url.value), Verdict(again, a.againHealth), a.at, opts.grace);
      if !(e1.ready && !e1.requested && again.status.InProgress?) then Course(e1, false, again)
      else Course(e1.(requested := true), !a.post || a.after.None?, a.after.GetOr(again))
  }

  /** An attempt we asked to cancel, seen cancelled, whose item is not given back yet. */
  ghost predicate Ours(c: Course, k: Key) {
    !c.threw && c.e.requested && !c.e.applied && IsCancelled(c.run, k)
  }

  ghost function Confirmed(e: Entry, k: Key, tried: set<Key>, deregistered: bool): Entry {
    e.(confirmed := true, cleaned := if e.cleaned || k in tried then e.cleaned else deregistered)
  }

  ghost function Returned(e: Entry, item: BoardItem, a: Answers, run: Run): Course {
    if a.lastBoard.None? then Course(e, true, run)
    else if !StillOwner(a.lastBoard.value, item) then Course(e, false, run)
    else Course(e.(applied := e.applied || a.set_), !a.set_, run)
  }

  ghost function CourseOf(runs: Runs, tried: set<Key>, board: Board, item: BoardItem, run: Run, a: Answers, opts: Opts,
                          now: int): Course
    requires Owned(item)
  {
    var e := Entered(runs, board, item, run, a, opts, now);
    var c := Cancelling(e, item, run, a, opts);
    if !opts.applying then Course(e, false, run)
    else if !Ours(c, KeyOf(item, run)) then c
    else Returned(Confirmed(c.e, KeyOf(item, run), tried, a.deregistered), item, a, c.run)
  }

  lemma SameReturn(e: Entry, item: BoardItem, a: Answers, run: Run, run': Run)
    ensures Returned(e, item, a, run) == Returned(e, item, a, run').(run := run)
  {
  }

  /** The cleanups tried by then. */
  ghost function TriedBy(runs: Runs, tried: set<Key>, board: Board, item: BoardItem, run: Run, a: Answers, opts: Opts,
                         now: int): set<Key>
    requires Owned(item)
  {
    var c := Cancelling(Entered(runs, board, item, run, a, opts, now), item, run, a, opts);
    if opts.applying && Ours(c, KeyOf(item, run)) && !c.e.cleaned then tried + {KeyOf(item, run)} else tried
  }

  /** The state between two items' turns. */
  datatype Sweeping = Sweeping(runs: Runs, tried: set<Key>)

  ghost function TurnOf(s: Sweeping, board: Board, item: BoardItem, listed: Option<Run>, a: Answers, opts: Opts,
                        now: int): Sweeping
    requires Owned(item)
  {
    if listed.None? && !Waits(s.runs, item) then s
    else if Answered(listed, a).None? then s.(runs := Unsuspected(s.runs, item))
    else
      var run := Answered(listed, a).value;
      var c := CourseOf(s.runs, s.tried, board, item, run, a, opts, now);
      var runs := s.runs[KeyOf(item, run) := c.e];
      Sweeping(if c.threw then Unsuspected(runs, item) else runs,
               TriedBy(s.runs, s.tried, board, item, run, a, opts, now))
  }

  ghost function LeftKeys(runs: Runs, probes: Key -> Probe): set<Key> {
    set k | k in runs && IsLeft(runs[k], k, probes(k))
  }

  /** Of the cleanups left over all but the REST were tried. */
  ghost predicate LeftTried(runs: Runs, tried: set<Key>, probes: Key -> Probe, rest: set<Key>, runs': Runs,
                            tried': set<Key>, log: seq<Event>, from: nat) {
    && runs'.Keys == runs.Keys
    && (forall k :: k in runs ==> runs'[k] == if k in rest || k in tried || !IsLeft(runs[k], k, probes(k)) then runs[k]
                                              else runs[k].(cleaned := probes(k).deregistered))
    && (forall k :: k in tried' <==> k in tried || (k in runs && k !in rest && IsLeft(runs[k], k, probes(k))))
    && (forall k :: k in runs && k !in rest && k !in tried && IsLeft(runs[k], k, probes(k)) ==>
          Since(log, from, Deregister(k)))
  }

  lemma NoneTried(runs: Runs, tried: set<Key>, probes: Key -> Probe, log: seq<Event>)
    ensures LeftTried(runs, tried, probes, runs.Keys, runs, tried, log, |log|)
  {
  }

  lemma StillLeft(runs: Runs, tried: set<Key>, probes: Key -> Probe, rest: set<Key>, runs': Runs, tried': set<Key>,
                  log: seq<Event>, from: nat, k: Key)
    requires LeftTried(runs, tried, probes, rest, runs', tried', log, from) && k in rest && k in runs
    ensures k in runs' && runs'[k] == runs[k] && (k in tried' <==> k in tried)
  {
  }

  lemma OneLeft(runs: Runs, tried: set<Key>, probes: Key -> Probe, rest: set<Key>, k: Key, was: Runs,
                tried0: set<Key>, log0: seq<Event>, runs': Runs, tried': set<Key>, log: seq<Event>, from: nat)
    requires k in runs && k !in rest && LeftTried(runs, tried, probes, rest + {k}, was, tried0, log0, from)
    requires log0 <= log && from <= |log0|
    requires if !IsLeft(runs[k], k, probes(k)) || k in tried then runs' == was && tried' == tried0
             else runs' == was[k := was[k].(cleaned := probes(k).deregistered)] && tried' == tried0 + {k}
                  && Since(log, |log0|, Deregister(k))
    ensures LeftTried(runs, tried, probes, rest, runs', tried', log, from)
  {
    hide IsLeft;
  }

  lemma AllLeft(runs: Runs, tried: set<Key>, probes: Key -> Probe, runs': Runs, tried': set<Key>, log: seq<Event>,
                from: nat)
    requires LeftTried(runs, tried, probes, {}, runs', tried', log, from)
    ensures forall k :: k in runs && IsLeft(runs[k], k, probes(k)) && k !in tried ==> Since(log, from, Deregister(k))
    ensures tried == {} ==> runs' == CleanedUp(runs, probes) && tried' == LeftKeys(runs, probes)
  {
    hide IsLeft;
  }

  ghost function CleanedUp(runs: Runs, probes: Key -> Probe): Runs {
    map k | k in runs :: if IsLeft(runs[k], k, probes(k)) then runs[k].(cleaned := probes(k).deregistered) else runs[k]
  }

  /** The state before the first turn. */
  ghost function AtFirst(runs: Runs, probes: Key -> Probe, opts: Opts): Sweeping {
    if opts.applying then Sweeping(CleanedUp(runs, probes), LeftKeys(runs, probes)) else Sweeping(runs, {})
  }

  function ListedRun(item: BoardItem, listing: map<nat, Run>): Option<Run>
    requires Owned(item)
  {
    if item.url.value.run in listing then Some(listing[item.url.value.run]) else None
  }

  /** And after the first n items' turns, where every save works. */
  ghost function Turns(s: Sweeping, board: Board, n: nat, listing: map<nat, Run>, answers: ItemId -> Answers,
                       opts: Opts, now: int): Sweeping
    requires n <= |board|
  {
    if n == 0 then s
    else
      var t := Turns(s, board, n - 1, listing, answers, opts, now);
      var item := board[n - 1];
      if Owned(item) then TurnOf(t, board, item, ListedRun(item, listing), answers(item.id), opts, now) else t
  }

  /** What is due is done: the cancel, and the way back to Todo. */
  ghost predicate DueDone(runs: Runs, board: Board, item: BoardItem, run: Run, a: Answers, opts: Opts, now: int,
                          log: seq<Event>, from: nat)
    requires Owned(item)
  {
    var k := KeyOf(item, run);
    var e := Entered(runs, board, item, run, a, opts, now);
    && (CancelDue(e, k, item, run, a, opts) ==> Since(log, from, Cancel(k, opts.grace)))
    && (TodoDue(Cancelling(e, item, run, a, opts), k, item, a) ==> Since(log, from, Todo(item.id, k)))
  }

  lemma DueDoneLater(runs: Runs, board: Board, item: BoardItem, run: Run, a: Answers, opts: Opts, now: int,
                     log: seq<Event>, log': seq<Event>, from: nat)
    requires Owned(item) && log <= log'
    ensures DueDone(runs, board, item, run, a, opts, now, log, from) ==>
              DueDone(runs, board, item, run, a, opts, now, log', from)
  {
    hide CancelDue, TodoDue, Cancelling, Entered;
  }

  /** The candidate's run was evaluated, if it is listed and can be read. */
  ghost predicate WasEvaluated(board: Board, item: BoardItem, listing: map<nat, Run>, answers: ItemId -> Answers,
                               now: int, log: seq<Event>, from: nat) {
    Owned(item) && item.url.value.run in listing ==>
      var run := Answered(ListedRun(item, listing), answers(item.id));
      run.Some? ==> Since(log, from, Evaluation(board, item, run.value, answers(item.id), now))
  }

  /** And one that waits too, and what was due by the state before its turn was done. */
  ghost predicate TurnDone(was: Runs, board: Board, item: BoardItem, listing: map<nat, Run>, answers: ItemId -> Answers,
                           opts: Opts, now: int, log: seq<Event>, from: nat)
    requires Owned(item)
  {
    var run := Answered(ListedRun(item, listing), answers(item.id));
    (item.url.value.run in listing || Waits(was, item)) && run.Some? ==>
      && Since(log, from, Evaluation(board, item, run.value, answers(item.id), now))
      && (opts.applying ==> DueDone(was, board, item, run.value, answers(item.id), opts, now, log, from))
  }

  ghost predicate AllDone(start: Sweeping, board: Board, n: nat, listing: map<nat, Run>, answers: ItemId -> Answers,
                          opts: Opts, now: int, log: seq<Event>, from: nat)
    requires n <= |board|
  {
    forall m :: 0 <= m < n && Owned(board[m]) ==>
      TurnDone(Turns(start, board, m, listing, answers, opts, now).runs, board, board[m], listing, answers, opts, now,
               log, from)
  }

  lemma StillEvaluated(board: Board, done: nat, listing: map<nat, Run>, answers: ItemId -> Answers, now: int,
                       log: seq<Event>, log': seq<Event>, from: nat)
    requires done <= |board| && log <= log'
    requires forall m :: 0 <= m < done ==> WasEvaluated(board, board[m], listing, answers, now, log, from)
    ensures forall m :: 0 <= m < done ==> WasEvaluated(board, board[m], listing, answers, now, log', from)
  {
    hide Evaluation, Answered;
    forall m | 0 <= m < done ensures WasEvaluated(board, board[m], listing, answers, now, log', from) {
      assert WasEvaluated(board, board[m], listing, answers, now, log, from);
    }
  }

  lemma NothingDone(start: Sweeping, board: Board, listing: map<nat, Run>, answers: ItemId -> Answers, opts: Opts,
                    now: int, log: seq<Event>, from: nat)
    ensures AllDone(start, board, 0, listing, answers, opts, now, log, from)
  {
  }

  lemma NowEvaluated(board: Board, item: BoardItem, listing: map<nat, Run>, answers: ItemId -> Answers, now: int,
                     log: seq<Event>, log': seq<Event>, from: nat)
    requires from <= |log|
    requires Owned(item) && ListedRun(item, listing).Some?
             && Answered(ListedRun(item, listing), answers(item.id)).Some? ==>
               Since(log', |log|, Evaluation(board, item, Answered(ListedRun(item, listing), answers(item.id)).value,
                                             answers(item.id), now))
    ensures WasEvaluated(board, item, listing, answers, now, log', from)
  {
    hide Evaluation, Answered;
  }

  lemma NowDone(start: Sweeping, board: Board, n: nat, listing: map<nat, Run>, answers: ItemId -> Answers, opts: Opts,
                now: int, log: seq<Event>, log': seq<Event>, from: nat)
    requires n < |board| && from <= |log| <= |log'| && AllDone(start, board, n, listing, answers, opts, now, log', from)
    requires Owned(board[n]) ==>
               var was := Turns(start, board, n, listing, answers, opts, now).runs;
               var a := answers(board[n].id);
               var run := Answered(ListedRun(board[n], listing), a);
               (ListedRun(board[n], listing).Some? || Waits(was, board[n])) && run.Some? ==>
                 && Since(log', |log|, Evaluation(board, board[n], run.value, a, now))
                 && (opts.applying ==> DueDone(was, board, board[n], run.value, a, opts, now, log', |log|))
    ensures AllDone(start, board, n + 1, listing, answers, opts, now, log', from)
  {
    hide Evaluation, Answered, Turns, Waits, CancelDue, TodoDue, Cancelling, Entered;
  }

  lemma StillDone(start: Sweeping, board: Board, n: nat, listing: map<nat, Run>, answers: ItemId -> Answers, opts: Opts,
                  now: int, log: seq<Event>, log': seq<Event>, from: nat)
    requires n <= |board| && log <= log' && AllDone(start, board, n, listing, answers, opts, now, log, from)
    ensures AllDone(start, board, n, listing, answers, opts, now, log', from)
  {
    hide Evaluation, Answered, DueDone, Turns, Waits;
    forall m | 0 <= m < n && Owned(board[m])
      ensures TurnDone(Turns(start, board, m, listing, answers, opts, now).runs, board, board[m], listing, answers,
                       opts, now, log', from)
    {
      var run := Answered(ListedRun(board[m], listing), answers(board[m].id));
      if run.Some? {
        DueDoneLater(Turns(start, board, m, listing, answers, opts, now).runs, board, board[m], run.value,
                     answers(board[m].id), opts, now, log, log', from);
      }
    }
  }

  /** The item's way back is due: an attempt we asked to cancel is cancelled, and the item still its run's owner. */
  ghost predicate TodoDue(c: Course, k: Key, item: BoardItem, a: Answers) {
    Ours(c, k) && a.lastBoard.Some? && StillOwner(a.lastBoard.value, item)
  }

  /** As of an attempt asked to be cancelled before and cancelled by now. */
  lemma DueBack(runs: Runs, board: Board, item: BoardItem, run: Run, a: Answers, opts: Opts, now: int)
    requires Owned(item) && KeyOf(item, run) in runs && runs[KeyOf(item, run)].requested
    requires !runs[KeyOf(item, run)].applied && run.status == Completed(true)
    requires a.lastBoard.Some? && StillOwner(a.lastBoard.value, item)
    ensures TodoDue(Cancelling(Entered(runs, board, item, run, a, opts, now), item, run, a, opts), KeyOf(item, run),
                    item,
                    a)
  {
    hide StillOwner;
  }

  /** What the cancelling of the spec asks for is what is due. */
  lemma CancelsWhenDue(e: Entry, item: BoardItem, run: Run, a: Answers, opts: Opts)
    requires Owned(item)
    ensures CancelDue(e, KeyOf(item, run), item, run, a, opts) <==>
            !e.requested && Cancelling(e, item, run, a, opts).e.requested
  {
    hide StillOwner;
  }

  /** The run a candidate is judged by, if nothing throws first. */
  function Answered(listed: Option<Run>, a: Answers): Option<Run> {
    var run := if listed.Some? then listed else a.run;
    if run.None? || run.value.attempt < 1 || (run.value.status.InProgress? && !a.jobs) then None else run
  }

  function Judged(board: Board, item: BoardItem, run: Run, a: Answers): Health {
    if Owners(board, item.url) != 1 then Unknown else Verdict(run, a.health)
  }

  /** A candidate is judged by the run listed, or else by the one asked for, if it and its jobs can be read. */
  lemma AnsweredMeans(listed: Option<Run>, a: Answers, run: Run)
    ensures Answered(listed, a) == Some(run) <==>
            && (listed == Some(run) || (listed == None && a.run == Some(run)))
            && run.attempt > 0 && (run.status == InProgress ==> a.jobs)
  {
  }

  /** Only an executing run of one owner's is judged, as its telemetry says. */
  lemma JudgedMeans(board: Board, item: BoardItem, run: Run, a: Answers)
    ensures !run.status.InProgress? ==> Judged(board, item, run, a) == Unknown
    ensures (exists i, j :: 0 <= i < j < |board| && SameRun(board[i].url, item.url)
                            && SameRun(board[j].url, item.url)) ==>
              Judged(board, item, run, a) == Unknown
    ensures run.status.InProgress? && (exists i :: IsOnly(board, item, i)) ==> Judged(board, item, run, a) == a.health
  {
    if i, j :| 0 <= i < j < |board| && SameRun(board[i].url, item.url) && SameRun(board[j].url, item.url) {
      TwoOwners(board, i, j, item.url);
    }
    if i :| IsOnly(board, item, i) {
      OnlyOwner(board, i, item.url);
    }
  }

  /** Entry i of the board alone names the item's run. */
  ghost predicate IsOnly(board: Board, item: BoardItem, i: int) {
    && 0 <= i < |board| && SameRun(board[i].url, item.url)
    && forall j :: 0 <= j < |board| && j != i ==> !SameRun(board[j].url, item.url)
  }

  lemma {:induction false} OnlyOwner(board: Board, i: nat, url: Option<Url>)
    requires i < |board| && SameRun(board[i].url, url)
    requires forall j :: 0 <= j < |board| && j != i ==> !SameRun(board[j].url, url)
    ensures Owners(board, url) == 1
  {
    if i == 0 {
      NoOwner(board[1..], url);
    } else {
      assert forall j :: 0 <= j < |board| - 1 ==> board[1..][j] == board[j + 1];
      OnlyOwner(board[1..], i - 1, url);
    }
  }

  lemma {:induction false} NoOwner(board: Board, url: Option<Url>)
    requires forall j :: 0 <= j < |board| ==> !SameRun(board[j].url, url)
    ensures Owners(board, url) == 0
  {
    if board != [] {
      NoOwner(board[1..], url);
    }
  }

  lemma SameItem(runs: Runs, k: Key, item: BoardItem)
    requires Owned(item) && k in runs
    ensures EntryOf(runs, k, item) == runs[k].(item := item.id, url := item.url.value)
  {
  }

  /** A saved intent stays. */
  lemma IntentsKept(was: Runs, log: seq<Event>, runs: Runs, log': seq<Event>)
    requires StateOk(was, log) && StateOk(runs, log') && log <= log'
    ensures forall k :: k in was && was[k].requested ==> k in runs && runs[k].requested
  {
    forall k | k in was && was[k].requested ensures k in runs && runs[k].requested {
      assert EntryOk(log, k, was[k]);
      var e :| e in log && e.Intent? && e.key == k;
      assert e in log';
    }
  }

  lemma ConfirmedWas(runs: Runs, log: seq<Event>, k: Key)
    requires StateOk(runs, log) && k in runs && runs[k].confirmed
    ensures runs[k].requested
  {
    assert EntryOk(log, k, runs[k]);
  }

  predicate Executing(run: Run) {
    run.status.InProgress?
  }

  lemma Readied(was: Entry, h: Health, now: int, grace: int)
    ensures var e := Suspected(was, h, now, grace);
            && e.requested == was.requested && e.applied == was.applied && e.item == was.item && e.url == was.url
            && (e.ready ==> Suspect(e.health) && e.since.Some? && e.health == h && now - e.since.value >= grace)
  {
  }

  /** A cancellation is due: the attempt's suspicion is old enough, and revalidation confirms it. */
  ghost predicate CancelDue(e: Entry, k: Key, item: BoardItem, run: Run, a: Answers, opts: Opts)
    requires Owned(item)
  {
    && run.status.InProgress? && !e.requested && (opts.publish || e.ready)
    && Reassured(k, item, a) && a.again.value.status.InProgress?
    && Suspected(e.(item := item.id, url := item.url.value), a.againHealth, a.at, opts.grace).ready
  }

  /** Revalidation has all its answers, for the same attempt of the item's own run. */
  ghost predicate Reassured(k: Key, item: BoardItem, a: Answers) {
    && a.board.Some? && a.again.Some? && StillOwner(a.board.value, item) && a.again.value.attempt == k.attempt
    && (a.again.value.status.InProgress? ==> a.againJobs)
  }

  /** The entries of an item's run. */
  predicate Concerns(e: Entry, item: BoardItem)
    requires Owned(item)
  {
    e.item == item.id && e.url == item.url.value
  }

  function Broken(e: Entry): Entry {
    e.(health := Unknown, since := None, ready := false)
  }

  /** The item's entries without a suspicion. */
  ghost function Unsuspected(runs: Runs, item: BoardItem): (r: Runs)
    requires Owned(item)
    ensures r.Keys == runs.Keys
    ensures forall k :: k in runs ==>
              if runs[k].item == item.id && runs[k].url == item.url.value then
              r[k].(health := runs[k].health, since := runs[k].since, ready := runs[k].ready) == runs[k]
              && r[k].health == Unknown && r[k].since == None && !r[k].ready
              else r[k] == runs[k]
  {
    map k | k in runs :: if Concerns(runs[k], item) then Broken(runs[k]) else runs[k]
  }

  lemma {:induction false} PendingSince(runs: Runs, item: BoardItem, log: seq<Event>, pending: seq<Event>, from: nat,
                                        now: int)
    requires Owned(item) && from <= |log|
    requires forall k :: k in runs && Concerns(runs[k], item) ==> Recorded(k, Unknown, now) in pending
    ensures forall k :: k in Unsuspected(runs, item) && Concerns(Unsuspected(runs, item)[k], item) ==>
              Since(log + pending, from, Recorded(k, Unknown, now))
  {
    forall k | k in Unsuspected(runs, item) && Concerns(Unsuspected(runs, item)[k], item)
      ensures Since(log + pending, from, Recorded(k, Unknown, now))
    {
      var i :| 0 <= i < |pending| && pending[i] == Recorded(k, Unknown, now);
      assert (log + pending)[|log| + i] == pending[i];
    }
  }

  lemma AllBroken(runs: Runs, item: BoardItem)
    requires Owned(item)
    ensures forall k :: k in Unsuspected(runs, item) && Concerns(Unsuspected(runs, item)[k], item) ==>
              Unsuspected(runs, item)[k] == Broken(Unsuspected(runs, item)[k])
  {
  }

  lemma BrokenOk(log: seq<Event>, k: Key, e: Entry, now: int)
    requires EntryOk(log, k, e)
    ensures EntryOk(log + [Recorded(k, Unknown, now)], k, Broken(e))
  {
  }

  lemma MayCancel(runs: Runs, log: seq<Event>, k: Key, grace: int)
    requires StateOk(runs, log) && k in runs && !runs[k].requested && Suspect(runs[k].health) && runs[k].since.Some?
    requires log != [] && exists at :: log[|log| - 1] == Recorded(k, runs[k].health, at)
                                       && at - runs[k].since.value >= grace
    ensures Allowed(log + [Intent(k, true)], Cancel(k, grace))
  {
    var h := runs[k].health;
    assert EntryOk(log, k, runs[k]);
    var i :| Unbroken(log, i, k, h) && log[i].at == runs[k].since.value;
    var log' := log + [Intent(k, true)];
    assert log'[i] == log[i];
    assert Unbroken(log', i, k, h) by {
      hide EntryOk;
    }
  }

  lemma MayGiveBack(log: seq<Event>, k: Key, item: BoardItem, board: Board, seen: nat)
    requires Settled(log) && Intended(log, k) && JustSeen(log, seen, k)
    requires Owned(item) && item.url.value.run == k.run && IsSoleOwner(board, item.id, item.url.value)
    ensures var owner := SoleOwner(board, item.id, item.url.value);
            Allowed(log, owner) && Allowed(log + [owner], Todo(item.id, k))
  {
    var owner := SoleOwner(board, item.id, item.url.value);
    AppendIntended(log, owner, k);
    assert JustSeen(log + [owner], seen, k);
    hide Intended, JustSeen, IsSoleOwner;
  }

  lemma EntryAt(runs: Runs, log: seq<Event>, k: Key)
    requires StateOk(runs, log) && k in runs
    ensures EntryOk(log, k, runs[k])
  {
  }

  lemma AskedEntry(log: seq<Event>, k: Key, e: Entry)
    requires EntryOk(log, k, e) && Intended(log, k)
    ensures EntryOk(log, k, e.(requested := true))
  {
  }

  lemma WasIntended(runs: Runs, log: seq<Event>, k: Key)
    requires StateOk(runs, log) && k in runs && runs[k].requested
    ensures Intended(log, k)
  {
    assert EntryOk(log, k, runs[k]);
  }

  lemma NewEntry(runs: Runs, log: seq<Event>, k: Key, was: Entry)
    requires StateOk(runs, log)
    requires if k in runs then was == runs[k].(item := was.item, url := was.url)
             else was.health == Unknown && !was.requested && !was.confirmed && !was.applied
    ensures EntryOk(log, k, was)
  {
    if k in runs {
      assert EntryOk(log, k, runs[k]);
    }
  }

  lemma KeptFlags(was: Entry, h: Health, now: int, grace: int)
    ensures var e := Suspected(was, h, now, grace);
            e.requested == was.requested && e.confirmed == was.confirmed && e.applied == was.applied
            && e.cleaned == was.cleaned
  {
  }

  // --- What every log shows ---------------------------------------------------------------

  /** However many sweeps and crashes: an attempt gets one saved intent. */
  lemma IntentOnce(log: seq<Event>, i: nat, j: nat)
    requires AllAllowed(log) && i < j < |log| && log[i].Intent? && log[j].Intent?
    ensures log[i].key != log[j].key
  {
    assert Allowed(log[..j], log[j]);
    assert log[..j][i] == log[i] && log[i] in log[..j];
  }

  /** And however many lost answers: a cancel is never sent twice for an attempt. */
  lemma CancelOnce(log: seq<Event>, i: nat, j: nat)
    requires AllAllowed(log) && i < j < |log| && log[i].Cancel? && log[j].Cancel?
    ensures log[i].key != log[j].key
  {
    assert Allowed(log[..i], log[i]) && Allowed(log[..j], log[j]);
    IntentOnce(log, i - 1, j - 1);
  }

  /**
   A cancel follows, right after its own saved intent, recorded evaluations
   of the attempt from i to n - 2 that span the grace time and are all of
   one unhealthy class.
   */
  lemma CancelJustified(log: seq<Event>, n: nat) returns (i: nat)
    requires AllAllowed(log) && n < |log| && log[n].Cancel?
    ensures i <= n - 2 && log[n - 1] == Intent(log[n].key, true)
    ensures var k := log[n].key; var h := log[n - 2];
            && h.Recorded? && h.key == k && Suspect(h.health)
            && log[i].Recorded? && log[i].key == k && h.at - log[i].at >= log[n].grace
            && forall l :: i <= l < n && log[l].Recorded? && log[l].key == k ==> log[l].health == h.health
  {
    var was := log[..n];
    assert Allowed(was, log[n]);
    var k, h := log[n].key, was[n - 2];
    i :| Unbroken(was, i, k, h.health) && h.at - was[i].at >= log[n].grace;
    forall l | i <= l < n && log[l].Recorded? && log[l].key == k ensures log[l].health == h.health {
      assert was[l] == log[l];
    }
  }

  lemma IntentBefore(log: seq<Event>, c: nat)
    requires AllAllowed(log) && c < |log| && log[c].Cancel?
    ensures c > 0 && log[c - 1] == Intent(log[c].key, true)
  {
    assert Allowed(log[..c], log[c]);
  }

  lemma CancelNext(log: seq<Event>, c: nat)
    requires AllAllowed(log) && c + 1 < |log| && log[c].Intent? && log[c].lived
    ensures log[c + 1].Cancel? && log[c + 1].key == log[c].key
  {
    assert Allowed(log[..c + 1], log[c + 1]);
  }

  /** An attempt's request was sent exactly when its intent's own save worked and the process lived on. */
  lemma SentIff(log: seq<Event>, n: nat, k: Key)
    requires AllAllowed(log) && n <= |log| && Settled(log[..n])
    ensures Cancelled(log[..n], k) <==> Intent(k, true) in log[..n]
  {
    hide AllAllowed;
    var was := log[..n];
    if Cancelled(was, k) {
      var e :| e in was && e.Cancel? && e.key == k;
      var c: nat :| c < n && was[c] == e;
      IntentBefore(log, c);
      assert was[c - 1] in was;
    }
    if Intent(k, true) in was {
      var c: nat :| c < n && was[c] == Intent(k, true);
      CancelNext(log, c);
      assert was[c + 1] in was;
    }
  }

  lemma SameIntent(log: seq<Event>, c: nat, d: nat)
    requires AllAllowed(log) && c < |log| && d < |log| && log[c].Intent? && log[d].Intent? && log[c].key == log[d].key
    ensures c == d
  {
    hide AllAllowed;
    if c < d {
      IntentOnce(log, c, d);
    } else if d < c {
      IntentOnce(log, d, c);
    }
  }

  /** The attempt's one intent; its request, if there was one, comes right after. */
  lemma IntentAt(log: seq<Event>, n: nat, k: Key) returns (c: nat)
    requires AllAllowed(log) && n < |log| && !log[n].Cancel? && Intended(log[..n], k)
    ensures c < n && log[c].Intent? && log[c].key == k && (log[c].lived <==> Intent(k, true) in log[..n])
    ensures log[c].lived ==> c + 1 < n && log[c + 1].Cancel? && log[c + 1].key == k
  {
    hide AllAllowed;
    var was := log[..n];
    var e :| e in was && e.Intent? && e.key == k;
    c :| 0 <= c < n && was[c] == e;
    if Intent(k, true) in was {
      var d: nat :| d < n && was[d] == Intent(k, true);
      SameIntent(log, c, d);
    }
    if log[c].lived {
      CancelNext(log, c);
    }
  }

  lemma SeenAllowed(log: seq<Event>, m: nat)
    requires AllAllowed(log) && m < |log| && log[m].SeenCancelled?
    ensures log[m].run == Run(log[m].key.attempt, Completed(true))
  {
    assert Allowed(log[..m], log[m]);
  }

  /** What the log allows the item's way back after. */
  lemma TodoAllowed(log: seq<Event>, n: nat)
    requires AllAllowed(log) && n < |log| && log[n].Todo?
    ensures Intended(log[..n], log[n].key) && exists m: nat :: JustSeen(log[..n], m, log[n].key)
    ensures n > 0 && log[n - 1].SoleOwner? && log[n - 1].item == log[n].item && log[n - 1].url.run == log[n].key.run
    ensures IsSoleOwner(log[n - 1].board, log[n].item, log[n - 1].url)
  {
    assert Allowed(log[..n], log[n]) && Allowed(log[..n - 1], log[n - 1]);
    hide Intended, IsSoleOwner;
  }

  /**
   An item goes back to Todo only for an attempt there was a saved intent to
   cancel, which GitHub had shown completed and cancelled, right after a
   read of the board in which the item was in progress on that run and no
   other item named it. The attempt's one intent is at c, and the request
   was sent, right after it, exactly when the process lived on from its save.
   */
  lemma TodoJustified(log: seq<Event>, n: nat) returns (m: nat, c: nat)
    requires AllAllowed(log) && n < |log| && log[n].Todo?
    ensures c < n && log[c].Intent? && log[c].key == log[n].key
    ensures Cancelled(log[..n], log[n].key) <==> log[c].lived
    ensures log[c].lived ==> log[c + 1].Cancel? && log[c + 1].key == log[n].key
    ensures m < n && log[m].SeenCancelled? && log[m].key == log[n].key
    ensures log[m].run == Run(log[n].key.attempt, Completed(true)) && forall l :: m < l < n ==> !log[l].Recorded?
    ensures log[n - 1].SoleOwner? && log[n - 1].item == log[n].item && log[n - 1].url.run == log[n].key.run
    ensures IsSoleOwner(log[n - 1].board, log[n].item, log[n - 1].url)
  {
    hide AllAllowed, Intended, IsSoleOwner, Cancelled;
    var was, k := log[..n], log[n].key;
    TodoAllowed(log, n);
    c := IntentAt(log, n, k);
    SentIff(log, n, k);
    m :| JustSeen(was, m, k);
    SeenAllowed(log, m);
    forall l | m < l < n ensures !log[l].Recorded? {
      assert was[l] == log[l];
    }
  }

  lemma NeverSent(log: seq<Event>, k: Key)
    requires AllAllowed(log) && Settled(log) && Intent(k, false) in log
    ensures !Cancelled(log, k)
  {
    hide AllAllowed, Cancelled;
    assert log[..|log|] == log;
    SentIff(log, |log|, k);
    var c: nat :| c < |log| && log[c] == Intent(k, false);
    forall d: nat | d < |log| && log[d].Intent? && log[d].key == k ensures d == c {
      SameIntent(log, c, d);
    }
  }

  /** So where no save failed or was the last act, every item that went back was of an attempt we asked to cancel. */
  lemma AskedFor(w: Watch, n: nat)
    requires w.Durable() && n < |w.log| && w.log[n].Todo?
    requires NoneLate(w.past)
    ensures Cancelled(w.log[..n], w.log[n].key)
  {
    var m, c := TodoJustified(w.log, n);
    assert w.log[c] in w.log;
  }

  const stuck := BoardItem(1, true, Some(Url(7, 0, 0)))

  /** Each call answers that the attempt runs, stalled, until someone cancels it. */
  const stalling := Answers(
    Some(Run(1, Completed(true))), true, Stalled,
    Some([stuck]), Some(Run(1, InProgress)), true, Stalled, 300000,
    true, Some(Run(1, Completed(true))), true, Some([stuck]), true)

  /** An attempt is found stalled for the grace time, and the process dies once the intent to cancel it is saved. */
  method DiesIntending(k: Key) returns (w: Watch)
    requires k == Key(7, 1)
    ensures fresh(w) && w.Durable() && w.fates == [] && Intent(k, false) in w.log
    ensures k in w.disk && w.disk[k].requested && !w.disk[k].applied && Concerns(w.disk[k], stuck)
  {
    hide AllAllowed, StateOk, Cancelled, Intended, Prompt, Once;
    OnlyItem(stuck);
    w := new Watch();
    var end := w.Record(k, stuck, Stalled, 0, 300000);
    end := w.Record(k, stuck, Stalled, 300000, 300000);
    var again;
    end, again := w.Revalidate(k, stuck, stalling, 300000);
    w.fates := [DiesAfter];
    end := w.RequestCancel(k, stalling, 300000);
  }

  /**
   And otherwise it need not be: the process dies once the intent is saved,
   someone else cancels the attempt, and the next sweep gives the item back
   for a cancellation that was never asked for.
   */
  method NeverAsked() returns (w: Watch, k: Key, item: BoardItem)
    ensures w.Durable() && Todo(item.id, k) in w.log && !Cancelled(w.log, k)
  {
    hide AllAllowed, StateOk, Cancelled, Intended, Prompt, Once, CancelDue, Suspected;
    item, k := stuck, Key(7, 1);
    OnlyItem(item);
    w := DiesIntending(k);
    ghost var was := w.log;
    w.Begin();
    DueBack(w.mem, [item], item, Run(1, Completed(true)), stalling, Opts(true, false, 300000), 600000);
    var alive, threw := w.Candidate([item], item, None, stalling, Opts(true, false, 300000), 600000);
    assert Intent(k, false) in was;
    NeverSent(w.log, k);
  }

  lemma OnlyItem(item: BoardItem)
    requires Owned(item)
    ensures StillOwner([item], item) && Owners([item], item.url) == 1
  {
    assert [item][1..] == [];
  }
}

/**
 The status updates one publisher posts (lib/board-status-update.js,
 observe, recover and publish): spaced, not repeated, and with each item's
 movement kept, though the process may die between a post and its saving.
 */
module StatusPosts {
  import opened Options

  const THROTTLE_MS: int := 4 * 3600 * 1000

  type Id = string
  /** What is material of an item; and of a board, its items and workers. */
  type Fingerprint = nat
  type Digest = nat

  datatype Moved = Moved(fingerprint: Fingerprint, movedAt: int)
  type Observations = map<Id, Moved>

  /** An item now: its fingerprint, and the latest of its timestamps. */
  datatype Item = Item(fingerprint: Fingerprint, stamp: int)

  // --- Observing -------------------------------------------------------------------

  function MovedAt(it: Item, before: Option<Moved>, now: int): int {
    match before
    case None => Min(now, it.stamp)
    case Some(b) => if b.fingerprint == it.fingerprint then b.movedAt else now
  }

  function Observe(items: map<Id, Item>, previous: Observations, now: int): Observations {
    map id | id in items :: Moved(items[id].fingerprint, MovedAt(items[id], Before(previous, id), now))
  }

  function Before(previous: Observations, id: Id): Option<Moved> {
    if id in previous then Some(previous[id]) else None
  }

  // --- The posts ------------------------------------------------------------------------

  /** A post: its marker's digest, its observations if the marker holds them all, and whether it was automatic. */
  datatype Post = Post(digest: Digest, at: int, auto: bool, observations: Observations, full: bool)

  /** An update of the project's listing, and the post its marker recovers. */
  datatype Update = Update(at: int, marked: Option<Post>)

  datatype Snapshot = Snapshot(digest: Digest, at: int, observations: Observations)
  datatype History = History(at: int, items: Observations)

  datatype Fate = Saves | Dies | NotPosted
  datatype Result = Throttled | NoChange | Posted | Failed

  function Latest(listing: seq<Update>): (t: int)
    ensures forall u :: u in listing ==> u.at <= t
    ensures t != 0 ==> exists u :: u in listing && u.at == t
    ensures t >= 0
  {
    if listing == [] then 0
    else
      var rest := Latest(listing[..|listing| - 1]);
      assert listing == listing[..|listing| - 1] + [listing[|listing| - 1]];
      Max(rest, listing[|listing| - 1].at)
  }

  /** Of the updates with a marker update i is the newest, the first of several. */
  ghost predicate IsNewest(listing: seq<Update>, i: nat)
    requires i < |listing|
  {
    forall j :: 0 <= j < |listing| && listing[j].marked.Some? ==>
      listing[j].at < listing[i].at || (listing[j].at == listing[i].at && i <= j)
  }

  /** The newest update with a marker. */
  function Remote(listing: seq<Update>): (r: Option<Post>)
    requires forall u :: u in listing && u.marked.Some? ==> u.marked.value.at == u.at
    ensures r.None? <==> forall u :: u in listing ==> u.marked.None?
    ensures r.Some? ==> exists i :: 0 <= i < |listing| && listing[i] == Update(r.value.at, r) && IsNewest(listing, i)
  {
    if listing == [] then None
    else
      var n := |listing| - 1;
      var rest := Remote(listing[..n]);
      assert listing == listing[..n] + [listing[n]];
      if listing[n].marked.Some? && (rest.None? || listing[n].at > rest.value.at) then listing[n].marked else rest
  }

  ghost predicate Spaced(posts: seq<Post>) {
    forall i :: 0 < i < |posts| ==>
      && posts[i - 1].at < posts[i].at
      && (posts[i].auto ==> posts[i].at - posts[i - 1].at >= THROTTLE_MS && posts[i].digest != posts[i - 1].digest)
  }

  /** The listing's markers are posts, at their times. */
  ghost predicate Markers(listing: seq<Update>, posts: seq<Post>) {
    forall u :: u in listing ==> u.at > 0 && (u.marked.Some? ==> u.marked.value in posts && u.marked.value.at == u.at)
  }

  /** A run: what it saw, and what it noted; LOST if it couldn't recover the last post but for its digest. */
  datatype Seen = Seen(now: int, items: map<Id, Item>, lost: bool, noted: Observations)

  function Fingerprints(s: Seen, id: Id): Option<Fingerprint> {
    if id in s.items then Some(s.items[id].fingerprint) else None
  }

  /** Movement goes on from what was noted before, and starts from an item's timestamps where nothing was. */
  ghost predicate GoesOn(before: Observations, s: Seen) {
    && s.noted.Keys == s.items.Keys
    && forall id :: id in s.items ==>
         s.noted[id] == Moved(s.items[id].fingerprint,
                              MovedAt(s.items[id], if s.lost then None else Before(before, id), s.now))
  }

  function NotedBefore(runs: seq<Seen>, i: nat): Observations
    requires i <= |runs|
  {
    if i == 0 then map[] else runs[i - 1].noted
  }

  ghost predicate Chained(runs: seq<Seen>) {
    forall i :: 0 <= i < |runs| ==> GoesOn(NotedBefore(runs, i), runs[i])
  }

  class Publisher {
    var local: Option<Snapshot>
    var history: Option<History>
    ghost var posts: seq<Post>
    ghost var runs: seq<Seen>

    ghost predicate Valid()
      reads this
    {
      && Spaced(posts) && (forall p :: p in posts ==> p.at > 0)
      && (local.Some? ==> exists p :: p in posts && p.digest == local.value.digest && p.at == local.value.at
                                      && p.observations == local.value.observations)
      && Chained(runs) && (history.None? <==> runs == [])
      && (history.Some? ==> history.value.items == runs[|runs| - 1].noted && history.value.at == runs[|runs| - 1].now)
      // A history from before the last post is that of its run.
      && (posts != [] ==> history.Some?)
      && (posts != [] && history.value.at < Last().at ==> Last().observations == history.value.items)
    }

    ghost function Last(): Post
      requires posts != []
      reads this
    {
      posts[|posts| - 1]
    }

    ghost predicate IsLocal()
      reads this
    {
      posts != [] && local.Some? && local.value.at == Last().at
    }

    /** The last post is in the local snapshot or in the listing. */
    ghost predicate Known(listing: seq<Update>)
      reads this
    {
      Markers(listing, posts) && (posts != [] ==> IsLocal() || Update(Last().at, Some(Last())) in listing)
    }

    constructor ()
      ensures Valid() && posts == [] && runs == [] && local == None && history == None
    {
      local, history, posts, runs := None, None, [], [];
    }

    /** What is compared with: the snapshot, or a newer post of the listing. */
    function Baseline(listing: seq<Update>): (b: Option<(Digest, int, Option<Observations>)>)
      requires forall u :: u in listing && u.marked.Some? ==> u.marked.value.at == u.at
      reads this
    {
      var remote := Remote(listing);
      if local.Some? && (remote.None? || local.value.at >= remote.value.at) then
      Some((local.value.digest, local.value.at, Some(local.value.observations)))
      else if remote.None? then None
      else Some((remote.value.digest, remote.value.at, if remote.value.full then Some(remote.value.observations)
                                                       else None))
    }

    /** What is compared with is the last post, all of it unless only its digest can be recovered. */
    lemma BaselineIsLast(listing: seq<Update>)
      requires Valid() && Known(listing)
      ensures posts == [] ==> Baseline(listing).None?
      ensures posts != [] ==> Baseline(listing) == Some((Last().digest, Last().at, if IsLocal()
                                                         || Last().full then Some(Last().observations) else None))
    {
      hide Chained, Spaced, Remote;
      var remote := Remote(listing);
      if remote.Some? {
        assert remote.value in posts;
        AtMostLast(posts, remote.value);
      }
      if local.Some? {
        var p :| p in posts && p.digest == local.value.digest && p.at == local.value.at
        && p.observations == local.value.observations;
        AtMostLast(posts, p);
      }
    }

    /** The last post can't be recovered but for its digest, and the history is from before it. */
    ghost predicate Lost()
      reads this
    {
      posts != [] && history.Some? && history.value.at < Last().at && !IsLocal() && !Last().full
    }

    /** Where the last observations are taken from. */
    function Source(listing: seq<Update>): Observations
      requires forall u :: u in listing && u.marked.Some? ==> u.marked.value.at == u.at
      reads this
    {
      var baseline := Baseline(listing);
      if history.Some? && history.value.at >= (if baseline.Some? then baseline.value.1 else 0) then history.value.items
      else if baseline.Some? && baseline.value.2.Some? then baseline.value.2.value
      else map[]
    }

    lemma SourceIsHistory(listing: seq<Update>)
      requires Valid() && Known(listing) && (history.Some? ==> history.value.at >= 0)
      ensures Source(listing) == if history.None? || Lost() then map[] else history.value.items
    {
      BaselineIsLast(listing);
    }

    /** The time of the last update there is, whoever's. */
    function LastTime(listing: seq<Update>): (r: int)
      reads this
      ensures listing == [] && local.None? ==> r == 0
      ensures (local.Some? ==> r >= local.value.at) && forall u :: u in listing ==> r >= u.at
      ensures r == 0 || (local.Some? && r == local.value.at) || exists u :: u in listing && r == u.at
    {
      Max(Latest(listing), if local.Some? then local.value.at else 0)
    }

    lemma LastTimeCovers(listing: seq<Update>)
      requires Valid() && Known(listing) && posts != []
      ensures LastTime(listing) >= Last().at > 0
    {
      assert Last() in posts;
    }

    /**
     One run. DIGEST is of what it would post; a post gets the time AT, and
     its whole marker if that is FULL; FATE says whether the run lives to
     save it. The clock doesn't go back between runs, nor the server's
     before it.
     */
    method Publish(auto: bool, now: int, listing: seq<Update>, items: map<Id, Item>, digest: Digest, at: int,
                   full: bool, fate: Fate)
      returns (r: Result)
      requires Valid() && Known(listing) && 0 < now <= at && (posts != [] ==> Last().at <= now && Last().at < at)
      requires history.Some? ==> 0 <= history.value.at <= now
      modifies this
      ensures Valid() && history.Some? && history.value.at == now && history.value.items.Keys == items.Keys
      ensures r.Throttled? <==> auto && old(LastTime(listing)) != 0 && now - old(LastTime(listing)) < THROTTLE_MS
      ensures r.NoChange? ==> auto && old(posts) != [] && digest == old(Last()).digest
      ensures auto && old(posts) != [] && digest == old(Last()).digest ==> !r.Posted?
      ensures r.Failed? ==> fate.NotPosted? || fate.Dies?
      ensures posts == if (r.Posted? || r.Failed?)
              && !fate.NotPosted? then old(posts) + [Post(digest, at, auto, history.value.items, full)] else old(posts)
      ensures r.Posted? ==> fate.Saves? && local == Some(Snapshot(digest, at, history.value.items))
      ensures forall id :: id in items && old(history).Some? && id in old(history).value.items && !old(Lost()) ==>
                history.value.items[id].movedAt == if items[id].fingerprint == old(history).value.items[id].fingerprint
                                                   then old(history).value.items[id].movedAt else now
      ensures forall id :: id in items && old(Lost()) ==> history.value.items[id].movedAt == Min(now, items[id].stamp)
      ensures runs == old(runs) + [Seen(now, items, old(Lost()), history.value.items)]
      ensures !r.Posted? ==> local == old(local)
    {
      hide Spaced, Remote, Latest, Observe, Chained;
      BaselineIsLast(listing);
      SourceIsHistory(listing);
      if posts != [] {
        LastTimeCovers(listing);
      }
      var baseline := Baseline(listing);
      var lastTime := LastTime(listing);
      var observations := Observe(items, Source(listing), now);
      Continues(runs, Seen(now, items, Lost(), observations), Source(listing));
      Movement(items, Source(listing), now);
      history := Some(History(now, observations));
      runs := runs + [Seen(now, items, old(Lost()), observations)];
      if auto && lastTime != 0 && now - lastTime < THROTTLE_MS {
        return Throttled;
      }
      if auto && baseline.Some? && baseline.value.0 == digest {
        return NoChange;
      }
      r := Send(Post(digest, at, auto, observations, full), fate);
    }

    /** The post, and its saving. */
    method Send(p: Post, fate: Fate) returns (r: Result)
      requires Valid() && p.at > 0 && history.Some? && p.observations == history.value.items
      requires posts != [] ==> Last().at < p.at
                               && (p.auto ==> p.at - Last().at >= THROTTLE_MS && p.digest != Last().digest)
      modifies this`local, this`posts
      ensures Valid() && r == (if fate.Saves? then Posted else Failed)
      ensures posts == if fate.NotPosted? then old(posts) else old(posts) + [p]
      ensures local == if r.Posted? then Some(Snapshot(p.digest, p.at, p.observations)) else old(local)
    {
      hide Spaced, Chained;
      if fate.NotPosted? {
        return Failed;
      }
      Next(posts, p);
      posts := posts + [p];
      if fate.Dies? {
        return Failed;
      }
      local := Some(Snapshot(p.digest, p.at, p.observations));
      return Posted;
    }
  }

  lemma Movement(items: map<Id, Item>, previous: Observations, now: int)
    ensures var o := Observe(items, previous, now);
            && o.Keys == items.Keys
            && (forall id :: id in items && id in previous ==>
                  o[id].movedAt == if items[id].fingerprint == previous[id].fingerprint then previous[id].movedAt
                                   else now)
            && (forall id :: id in items && id !in previous ==> o[id].movedAt == Min(now, items[id].stamp))
  {
  }

  lemma Continues(runs: seq<Seen>, s: Seen, source: Observations)
    requires Chained(runs) && s.noted == Observe(s.items, source, s.now)
    requires source == if s.lost then map[] else NotedBefore(runs, |runs|)
    ensures Chained(runs + [s]) && s.noted.Keys == s.items.Keys
  {
    var all := runs + [s];
    forall i | 0 <= i < |all| ensures GoesOn(NotedBefore(all, i), all[i]) {
      if i < |runs| {
        assert GoesOn(NotedBefore(runs, i), runs[i]);
      }
    }
  }

  lemma NotedOnce(runs: seq<Seen>, j: nat, id: Id)
    requires Chained(runs) && j < |runs| && id in runs[j].items
    ensures id in runs[j].noted
    ensures j == 0 || runs[j].lost || id !in runs[j - 1].items ==>
              runs[j].noted[id].movedAt == Min(runs[j].now, runs[j].items[id].stamp)
    ensures j > 0 && !runs[j].lost && id in runs[j - 1].items ==>
              && id in runs[j - 1].noted
              && runs[j].noted[id].movedAt == if runs[j].items[id].fingerprint == runs[j - 1].items[id].fingerprint
                                              then runs[j - 1].noted[id].movedAt else runs[j].now
  {
    assert GoesOn(NotedBefore(runs, j), runs[j]);
    if j > 0 {
      assert GoesOn(NotedBefore(runs, j - 1), runs[j - 1]);
    }
  }

  /**
   When an item moved, after any run j of the publisher: in the last run a
   that saw its fingerprint change, or as its timestamps said in run a, if
   it was new then or the last post was lost before it. From a on its
   fingerprint stayed, and no post was lost.
   */
  lemma {:induction false} MovedAtIs(runs: seq<Seen>, j: nat, id: Id) returns (a: nat)
    requires Chained(runs) && j < |runs| && id in runs[j].items
    ensures a <= j && forall i :: a <= i <= j ==> Fingerprints(runs[i], id) == Some(runs[j].items[id].fingerprint)
    ensures forall i :: a < i <= j ==> !runs[i].lost
    ensures a == 0 || runs[a].lost || Fingerprints(runs[a - 1], id) != Fingerprints(runs[a], id)
    ensures id in runs[a].items
    ensures id in runs[j].noted && runs[j].noted[id].movedAt ==
              if a == 0 || runs[a].lost || id !in runs[a - 1].items then Min(runs[a].now, runs[a].items[id].stamp)
              else runs[a].now
  {
    hide Chained, GoesOn;
    a := j;
    NotedOnce(runs, j, id);
    if j > 0 && !runs[j].lost && Fingerprints(runs[j - 1], id) == Fingerprints(runs[j], id) {
      a := MovedAtIs(runs, j - 1, id);
    }
  }

  /**
   A post that is made and not saved, with only its digest in its marker: its
   item's movement starts over, though nothing material changed.
   */
  method ForgetsMovement(id: Id) returns (p: Publisher)
    ensures p.Valid() && |p.runs| == 2 && id in p.runs[0].items && p.runs[1].lost
    ensures Fingerprints(p.runs[0], id) == Fingerprints(p.runs[1], id)
    ensures id in p.runs[0].noted && id in p.runs[1].noted && p.runs[0].noted[id].movedAt == 5
            && p.runs[1].noted[id].movedAt == 15
  {
    p := new Publisher();
    var r := p.Publish(false, 10, [], map[id := Item(1, 5)], 1, 11, false, Dies);
    var marker := Post(1, 11, false, p.history.value.items, false);
    r := p.Publish(false, 20, [Update(11, Some(marker))], map[id := Item(1, 15)], 1, 21, false, Saves);
    assert GoesOn(NotedBefore(p.runs, 0), p.runs[0]) && GoesOn(NotedBefore(p.runs, 1), p.runs[1]);
  }

  lemma Next(posts: seq<Post>, p: Post)
    requires Spaced(posts)
    requires posts != [] ==> var last := posts[|posts| - 1];
             last.at < p.at && (p.auto ==> p.at - last.at >= THROTTLE_MS && p.digest != last.digest)
    ensures Spaced(posts + [p]) && p in posts + [p] && forall x :: x in posts ==> x in posts + [p]
  {
  }

  lemma {:induction false} InOrder(posts: seq<Post>, i: nat, j: nat)
    requires Spaced(posts) && i < j < |posts|
    ensures posts[i].at < posts[j].at
  {
    if i < j - 1 {
      InOrder(posts, i, j - 1);
    }
  }

  lemma AtMostLast(posts: seq<Post>, p: Post)
    requires Spaced(posts) && p in posts
    ensures p.at <= posts[|posts| - 1].at && (p.at == posts[|posts| - 1].at ==> p == posts[|posts| - 1])
  {
    var i :| 0 <= i < |posts| && posts[i] == p;
    if i < |posts| - 1 {
      InOrder(posts, i, |posts| - 1);
    }
  }
}

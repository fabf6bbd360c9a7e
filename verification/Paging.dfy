/**
 Conditional reads of a listing's pages (crates/bot-poll/src/gh.rs), by
 RFC 9110: If-None-Match (section 13.1.2) and 304 Not Modified (section
 15.4.5). An entity tag is an injective function of the page it names.
 */
module Paging {
  import opened Options
  import opened OperatorEvents

  const PER_PAGE: nat := 100
  /** A listing is read up to this many pages. */
  const MAX_PAGES: nat := 10

  type Key = string
  datatype Listing = Reviews | ReviewComments(since: int) | Comments(since: int)
  datatype Path = Path(key: Key, listing: Listing, page: nat)
  type Body = seq<Entry>
  datatype ETag = ETag(body: Body)
  datatype Validator = Validator(etag: ETag, used: int, full: bool)

  /** What the server has at a path when it is asked. */
  datatype Answer =
    | Page(body: Body, tagged: bool)
    | Malformed                       // 200, but not a listing
    | Failed                          // any other status, or no response
    | RateLimited(until: int)
  type Server = Path -> Answer

  datatype Response = NotModified | Full(body: Body, etag: Option<ETag>) | Unreadable

  function Respond(a: Answer, cond: Option<ETag>): Option<Response> {
    match a
    case Page(body, tagged) =>
      if tagged && cond == Some(ETag(body)) then Some(NotModified)
      else Some(Full(body, if tagged then Some(ETag(body)) else None))
    case Malformed => Some(Unreadable)
    case Failed => None
    case RateLimited(_) => None
  }

  function LimitOf(a: Answer): Option<int> {
    if a.RateLimited? then Some(a.until) else None
  }

  /** A conditional read: the pages that changed, and the validators to keep once they were processed. */
  datatype Fetched = Fetched(bodies: seq<Body>, validators: map<Path, Validator>)

  function IsFull(body: Body): bool { |body| >= PER_PAGE }

  // --- The specification ----------------------------------------------------

  /** The server has these bodies on the listing's first pages. */
  ghost predicate Has(server: Server, key: Key, l: Listing, bodies: seq<Body>) {
    forall q :: 1 <= q <= |bodies| ==> server(Path(key, l, q)).Page? && server(Path(key, l, q)).body == bodies[q - 1]
  }

  ghost predicate AllFull(bodies: seq<Body>, n: int)
    requires n <= |bodies|
  {
    forall i :: 0 <= i < n ==> IsFull(bodies[i])
  }

  /** What an unconditional read gets: the pages up to the first that is not full. */
  ghost predicate Unconditional(server: Server, key: Key, l: Listing, bodies: seq<Body>) {
    && 1 <= |bodies| <= MAX_PAGES && Has(server, key, l, bodies)
    && AllFull(bodies, |bodies| - 1)
    && (|bodies| == MAX_PAGES || !IsFull(bodies[|bodies| - 1]))
  }

  /** An unconditional read fails: at the page after these. */
  ghost predicate FailsAfter(server: Server, key: Key, l: Listing, bodies: seq<Body>) {
    |bodies| < MAX_PAGES && Has(server, key, l, bodies) && AllFull(bodies, |bodies|)
    && !server(Path(key, l, |bodies| + 1)).Page?
  }

  lemma Agree(server: Server, key: Key, l: Listing, a: seq<Body>, b: seq<Body>)
    requires Has(server, key, l, a) && Has(server, key, l, b)
    ensures forall i :: 0 <= i < |a| && i < |b| ==> a[i] == b[i]
  {
    forall i | 0 <= i < |a| && i < |b| ensures a[i] == b[i] {
      assert server(Path(key, l, i + 1)).body == a[i];
    }
  }

  /** An unconditional read has one outcome. */
  lemma OneOutcome(server: Server, key: Key, l: Listing, a: seq<Body>, b: seq<Body>)
    requires Unconditional(server, key, l, a)
    ensures Unconditional(server, key, l, b) ==> a == b
    ensures !FailsAfter(server, key, l, b)
  {
    if Has(server, key, l, b) {
      Agree(server, key, l, a, b);
      assert IsFull(a[|a| - 1]) ==> |a| == MAX_PAGES;
      if |b| < |a| {
        assert server(Path(key, l, |b| + 1)).Page?;
      }
    }
  }

  /** The page is what its validator names. */
  ghost predicate Same(server: Server, etags: map<Path, Validator>, p: Path) {
    p in etags && Respond(server(p), Some(etags[p].etag)) == Some(NotModified)
  }

  /** Of a listing's first pages, those that are not what their validator names. */
  ghost function Changed(server: Server, etags: map<Path, Validator>, key: Key, l: Listing,
                         bodies: seq<Body>): seq<Body> {
    if bodies == [] then []
    else
      var n := |bodies| - 1;
      var rest := Changed(server, etags, key, l, bodies[..n]);
      if Same(server, etags, Path(key, l, n + 1)) then rest else rest + [bodies[n]]
  }

  /** Validators that tell a full page from one that is not. */
  ghost predicate TellFull(etags: map<Path, Validator>) {
    forall p :: p in etags ==> etags[p].full == IsFull(etags[p].etag.body)
  }

  /** The same validators, but for when they were used. */
  ghost predicate SameButUsed(a: map<Path, Validator>, b: map<Path, Validator>) {
    && a.Keys == b.Keys
    && forall p :: p in a ==> a[p].etag == b[p].etag && a[p].full == b[p].full
  }

  /** The validators of pages read just now, in a poll of this listing. */
  ghost predicate ValidatorsOf(validators: map<Path, Validator>, key: Key, l: Listing, bodies: seq<Body>) {
    && TellFull(validators)
    && (forall p :: p in validators ==>
          p.key == key && p.listing == l && 1 <= p.page <= |bodies| && validators[p].etag == ETag(bodies[p.page - 1]))
  }

  /** A page an unconditional read comes to: the ones before it are full. */
  ghost predicate Reached(server: Server, p: Path) {
    && 1 <= p.page <= MAX_PAGES && server(p).Page?
    && forall q :: 1 <= q < p.page ==> server(Path(p.key, p.listing, q)).Page?
                                       && IsFull(server(Path(p.key, p.listing, q)).body)
  }

  /** A tagged page's validator is the one of now. */
  ghost predicate Validated(server: Server, etags: map<Path, Validator>, p: Path, now: int) {
    server(p).Page? && server(p).tagged ==>
      p in etags && etags[p] == Validator(ETag(server(p).body), now, IsFull(server(p).body))
  }

  /** Each page of the listing that is read has its validator of now. */
  ghost predicate Refreshed(server: Server, etags: map<Path, Validator>, key: Key, l: Listing, now: int) {
    forall q :: Reached(server, Path(key, l, q)) ==> Validated(server, etags, Path(key, l, q), now)
  }

  /** Only this item's validators changed. */
  ghost predicate OthersKept(a: map<Path, Validator>, b: map<Path, Validator>, key: Key) {
    forall p: Path :: p.key != key ==> (p in a <==> p in b) && (p in a ==> a[p] == b[p])
  }

  /** Validators are the same, or the same used now. */
  ghost predicate UsedNow(a: map<Path, Validator>, b: map<Path, Validator>, now: int) {
    forall p :: p in a ==> p in b && (b[p] == a[p] || b[p] == a[p].(used := now))
  }

  // --- The client ---------------------------------------------------------------

  class Gh {
    var requests: nat
    var notModified: nat
    /** GitHub rate limited a request: none is made before this. */
    var limitedUntil: Option<int>

    constructor ()
      ensures requests == 0 && notModified == 0 && limitedUntil == None
    {
      requests, notModified, limitedUntil := 0, 0, None;
    }

    /** After another request of the cycle, which may have been rate limited. */
    constructor After(limited: Option<int>)
      ensures limitedUntil == limited
    {
      requests, notModified, limitedUntil := 1, 0, limited;
    }

    /** GET with a validator, if any. Once a request was rate limited, every other fails at once. */
    method Get(server: Server, p: Path, cond: Option<ETag>) returns (r: Option<Response>)
      modifies this
      ensures old(limitedUntil).Some? ==> r == None && requests == old(requests) && limitedUntil == old(limitedUntil)
      ensures old(limitedUntil).None? ==> r == Respond(server(p), cond) && requests == old(requests) + 1
      ensures old(limitedUntil).None? ==> limitedUntil == LimitOf(server(p))
      ensures notModified == old(notModified) + if r == Some(NotModified) then 1 else 0
    {
      if limitedUntil.Some? {
        return None;
      }
      requests := requests + 1;
      r := Respond(server(p), cond);
      match server(p) {
        case RateLimited(until) => limitedUntil := Some(until);
        case _ =>
      }
      if r == Some(NotModified) {
        notModified := notModified + 1;
      }
    }

    /** One page of a conditional read. */
    method ReadPage(server: Server, p: Path, etags: map<Path, Validator>, f: Fetched, now: int)
      returns (ok: bool, etags': map<Path, Validator>, f': Fetched, more: bool)
      requires TellFull(etags)
      modifies this
      ensures TellFull(etags') && SameButUsed(etags, etags') && UsedNow(etags, etags', now)
              && OthersKept(etags, etags', p.key)
      ensures (forall x :: x != p ==> (x in etags <==> x in etags') && (x in etags ==> etags'[x] == etags[x]))
      ensures ok && p !in f.validators ==> Validated(server, etags' + f'.validators, p, now)
      ensures old(limitedUntil).Some? ==> !ok && limitedUntil == old(limitedUntil)
      ensures old(limitedUntil).None? ==> (ok <==> server(p).Page?) && limitedUntil == LimitOf(server(p))
      ensures ok ==>
                && more == IsFull(server(p).body)
                && f'.bodies == f.bodies + (if Same(server, etags, p) then [] else [server(p).body])
                && (f'.validators == f.validators
                    || f'.validators == f.validators[p := Validator(ETag(server(p).body), now, more)])
    {
      ok, etags', f', more := true, etags, f, false;
      var r := Get(server, p, if p in etags then Some(etags[p].etag) else None);
      if r.None? {
        ok := false;
        return;
      }
      match r.value {
        case NotModified =>
          etags' := etags[p := etags[p].(used := now)];
          more := etags[p].full;
        case Full(body, etag) =>
          more := |body| >= PER_PAGE;
          f' := Fetched(f.bodies + [body],
                        if etag.Some? then f.validators[p := Validator(etag.value, now, more)] else f.validators);
        case Unreadable =>
          ok := false;
      }
    }

    /**
     The bodies a listing's validators don't vouch for. It stops after the
     first page that isn't full, sent or not, so it reads as far as an
     unconditional read, and works exactly when that one would.
     */
    method ChangedPages(server: Server, key: Key, l: Listing, etags: map<Path, Validator>, now: int)
      returns (out: Option<Fetched>, etags': map<Path, Validator>, ghost read: seq<Body>)
      requires TellFull(etags)
      modifies this
      ensures TellFull(etags') && SameButUsed(etags, etags') && UsedNow(etags, etags', now)
              && OthersKept(etags, etags', key)
      ensures out.Some? ==> Refreshed(server, etags' + out.value.validators, key, l, now)
      ensures old(limitedUntil).Some? ==> out.None? && limitedUntil == old(limitedUntil)
      ensures old(limitedUntil).None? && out.None? ==>
                FailsAfter(server, key, l, read) && limitedUntil == LimitOf(server(Path(key, l, |read| + 1)))
      ensures out.Some? ==> Unconditional(server, key, l, read) && limitedUntil.None?
      ensures out.Some? ==> out.value.bodies == Changed(server, etags, key, l, read)
                            && ValidatorsOf(out.value.validators, key, l, read)
    {
      hide Has, AllFull, Changed, ValidatorsOf, Validated, Reached, UsedNow, OthersKept, SameButUsed, TellFull;
      NothingUsed(etags, key, now);
      etags' := etags;
      var f := Fetched([], map[]);
      read := [];
      var more := true;
      NothingRead(server, etags, key, l);
      for page := 1 to MAX_PAGES + 1
        invariant |read| == page - 1 && ReadSoFar(server, etags, key, l, read, f)
        invariant SameButUsed(etags, etags') && TellFull(etags') && UsedNow(etags, etags', now)
                  && OthersKept(etags, etags', key)
        invariant forall q :: 1 <= q <= |read| ==> Validated(server, etags' + f.validators, Path(key, l, q), now)
        invariant page > 1 ==> old(limitedUntil).None?
        invariant page == MAX_PAGES + 1 ==> Unconditional(server, key, l, read)
        invariant old(limitedUntil).None? ==> limitedUntil.None?
        invariant old(limitedUntil).Some? ==> limitedUntil == old(limitedUntil)
      {
        var p := Path(key, l, page);
        var ok;
        SameStill(server, etags, etags', p);
        ghost var was, before := f, etags';
        NotYet(f.validators, key, l, read);
        ok, etags', f, more := ReadPage(server, p, etags', f, now);
        SameTwice(etags, before, etags');
        UsedTwice(etags, before, etags', now);
        OthersTwice(etags, before, etags', key);
        if !ok {
          return None, etags', read;
        }
        ReadOne(server, etags, key, l, read, was, f, now);
        forall q | 1 <= q <= |read| ensures Validated(server, etags' + f.validators, Path(key, l, q), now) {
          StillValidated(server, before + was.validators, etags' + f.validators, Path(key, l, q), now);
        }
        read := read + [server(p).body];
        if !more {
          break;
        }
      }
      AllRefreshed(server, etags' + f.validators, key, l, read, now);
      out := Some(f);
    }
  }

  lemma NothingUsed(etags: map<Path, Validator>, key: Key, now: int)
    ensures SameButUsed(etags, etags) && UsedNow(etags, etags, now) && OthersKept(etags, etags, key)
  {
  }

  lemma SameStill(server: Server, a: map<Path, Validator>, b: map<Path, Validator>, p: Path)
    requires SameButUsed(a, b)
    ensures Same(server, a, p) == Same(server, b, p)
  {
  }

  lemma SameTwice(a: map<Path, Validator>, b: map<Path, Validator>, c: map<Path, Validator>)
    requires SameButUsed(a, b) && SameButUsed(b, c)
    ensures SameButUsed(a, c)
  {
  }

  lemma UsedTwice(a: map<Path, Validator>, b: map<Path, Validator>, c: map<Path, Validator>, now: int)
    requires UsedNow(a, b, now) && UsedNow(b, c, now)
    ensures UsedNow(a, c, now)
  {
  }

  lemma UsedNever(a: map<Path, Validator>, now: int)
    ensures UsedNow(a, a, now)
  {
  }

  lemma OthersTwice(a: map<Path, Validator>, b: map<Path, Validator>, c: map<Path, Validator>, key: Key)
    requires OthersKept(a, b, key) && OthersKept(b, c, key)
    ensures OthersKept(a, c, key)
  {
  }

  lemma NotYet(validators: map<Path, Validator>, key: Key, l: Listing, read: seq<Body>)
    requires ValidatorsOf(validators, key, l, read)
    ensures Path(key, l, |read| + 1) !in validators
  {
  }

  lemma StillValidated(server: Server, a: map<Path, Validator>, b: map<Path, Validator>, p: Path, now: int)
    requires Validated(server, a, p, now) && (p in a ==> p in b && b[p] == a[p])
    ensures Validated(server, b, p, now)
  {
  }

  /** The pages an unconditional read gets are all that is reached. */
  lemma AllRefreshed(server: Server, etags: map<Path, Validator>, key: Key, l: Listing, read: seq<Body>, now: int)
    requires Unconditional(server, key, l, read) && forall q :: 1 <= q <= |read| ==>
                                                      Validated(server, etags, Path(key, l, q), now)
    ensures Refreshed(server, etags, key, l, now)
  {
    assert server(Path(key, l, |read|)).body == read[|read| - 1];
    forall q: nat | Reached(server, Path(key, l, q)) ensures Validated(server, etags, Path(key, l, q), now) {
      assert q <= |read|;
    }
  }

  /** The pages read so far were full, and what changed of them is kept. */
  ghost predicate ReadSoFar(server: Server, etags: map<Path, Validator>, key: Key, l: Listing, read: seq<Body>,
                            f: Fetched) {
    Has(server, key, l, read) && AllFull(read, |read|) && Kept(server, etags, key, l, read, f)
  }

  ghost predicate Kept(server: Server, etags: map<Path, Validator>, key: Key, l: Listing, read: seq<Body>, f: Fetched) {
    f.bodies == Changed(server, etags, key, l, read) && ValidatorsOf(f.validators, key, l, read)
  }

  lemma NothingRead(server: Server, etags: map<Path, Validator>, key: Key, l: Listing)
    ensures ReadSoFar(server, etags, key, l, [], Fetched([], map[]))
  {
  }

  lemma HasMore(server: Server, key: Key, l: Listing, read: seq<Body>)
    requires Has(server, key, l, read) && server(Path(key, l, |read| + 1)).Page?
    ensures Has(server, key, l, read + [server(Path(key, l, |read| + 1)).body])
  {
  }

  lemma {:induction false} ChangedMore(server: Server, etags: map<Path, Validator>, key: Key, l: Listing,
                                       read: seq<Body>)
    requires server(Path(key, l, |read| + 1)).Page?
    ensures var p := Path(key, l, |read| + 1);
            Changed(server, etags, key, l, read + [server(p).body]) ==
            Changed(server, etags, key, l, read) + if Same(server, etags, p) then [] else [server(p).body]
  {
    var all := read + [server(Path(key, l, |read| + 1)).body];
    assert all[..|all| - 1] == read;
  }

  lemma ValidatorsMore(was: map<Path, Validator>, key: Key, l: Listing, read: seq<Body>, body: Body, now: int,
                       validators: map<Path, Validator>)
    requires ValidatorsOf(was, key, l, read)
    requires validators == was || validators == was[Path(key, l, |read|
                                                           + 1) := Validator(ETag(body), now, IsFull(body))]
    ensures ValidatorsOf(validators, key, l, read + [body])
  {
  }

  lemma FullMore(read: seq<Body>, body: Body)
    requires AllFull(read, |read|)
    ensures AllFull(read + [body], |read|) && (IsFull(body) ==> AllFull(read + [body], |read| + 1))
  {
  }

  lemma ReadOne(server: Server, etags: map<Path, Validator>, key: Key, l: Listing, read: seq<Body>, was: Fetched,
                f: Fetched, now: int)
    requires ReadSoFar(server, etags, key, l, read, was) && |read| < MAX_PAGES
    requires var p := Path(key, l, |read| + 1);
             && server(p).Page?
             && f.bodies == was.bodies + (if Same(server, etags, p) then [] else [server(p).body])
             && (f.validators == was.validators
                 || f.validators == was.validators[p := Validator(ETag(server(p).body), now, IsFull(server(p).body))])
    ensures var now := read + [server(Path(key, l, |read| + 1)).body];
            && Kept(server, etags, key, l, now, f) && Has(server, key, l, now)
            && (IsFull(now[|read|]) ==> ReadSoFar(server, etags, key, l, now, f))
            && (|now| == MAX_PAGES || !IsFull(now[|read|]) ==> Unconditional(server, key, l, now))
  {
    var body := server(Path(key, l, |read| + 1)).body;
    assert (read + [body])[..|read|] == read;
    HasMore(server, key, l, read);
    ChangedMore(server, etags, key, l, read);
    ValidatorsMore(was.validators, key, l, read, body, now, f.validators);
    FullMore(read, body);
    hide Has, Changed, ValidatorsOf, AllFull, Same, IsFull;
  }

  /**
   Refinement: each page an unconditional read gets is among the changed
   ones, or is exactly what its validator names; and the changed ones are
   pages of the unconditional read.
   */
  lemma {:induction false} ChangedRefines(server: Server, etags: map<Path, Validator>, key: Key, l: Listing,
                                          bodies: seq<Body>)
    requires Has(server, key, l, bodies)
    ensures forall q :: 1 <= q <= |bodies| ==>
              bodies[q - 1] in Changed(server, etags, key, l, bodies)
              || (Path(key, l, q) in etags && etags[Path(key, l, q)].etag == ETag(bodies[q - 1]))
    ensures forall b :: b in Changed(server, etags, key, l, bodies) ==> b in bodies
  {
    if bodies != [] {
      var n := |bodies| - 1;
      ChangedRefines(server, etags, key, l, bodies[..n]);
      assert forall i :: 0 <= i < n ==> bodies[..n][i] == bodies[i];
    }
  }
}

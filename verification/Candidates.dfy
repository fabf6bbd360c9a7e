/**
 The candidates for a lane's free slots (lib/pacing.js, pickCandidates):
 up to three, by priority; upstream work of one priority spreads over
 repositories. The pool is sorted again before each pick.
 */
module Candidates {
  import opened Options

  const CANDIDATES_PER_LANE: nat := 3

  datatype Lane = Harness | Upstream

  /**
   An item of the pool: its place on the board, the repository its work lands
   in, and the operator's activity there.
   */
  datatype Candidate = Candidate(order: nat, rank: nat, repo: string, score: int)
  type Load = map<string, nat>

  function LoadOf(load: Load, repo: string): nat {
    if repo in load then load[repo] else 0
  }

  function Spread(c: Candidate, lane: Lane, load: Load): nat {
    if lane.Upstream? then LoadOf(load, c.repo) else 0
  }

  /** The sort's order. */
  predicate Before(a: Candidate, b: Candidate, lane: Lane, load: Load) {
    if a.rank != b.rank then a.rank < b.rank
    else if Spread(a, lane, load) != Spread(b, lane, load) then Spread(a, lane, load) < Spread(b, lane, load)
    else if a.score != b.score then a.score > b.score
    else a.order <= b.order
  }

  function Insert(c: Candidate, s: seq<Candidate>, lane: Lane, load: Load): (r: seq<Candidate>)
    ensures |r| == |s| + 1 && forall x :: x in r <==> x == c || x in s
  {
    if s == [] then [c]
    else if Before(c, s[0], lane, load) then [c] + s
    else
      var rest := Insert(c, s[1..], lane, load);
      assert s == [s[0]] + s[1..];
      [s[0]] + rest
  }

  function Sort(s: seq<Candidate>, lane: Lane, load: Load): (r: seq<Candidate>)
    ensures |r| == |s| && forall x :: x in r <==> x in s
  {
    if s == [] then []
    else
      assert s == [s[0]] + s[1..];
      Insert(s[0], Sort(s[1..], lane, load), lane, load)
  }

  ghost predicate Sorted(s: seq<Candidate>, lane: Lane, load: Load) {
    forall i, j :: 0 <= i < j < |s| ==> Before(s[i], s[j], lane, load)
  }

  ghost predicate Distinct(s: seq<Candidate>) {
    forall i, j :: 0 <= i < j < |s| ==> s[i].order != s[j].order
  }

  lemma {:induction false} InsertSorted(c: Candidate, s: seq<Candidate>, lane: Lane, load: Load)
    requires Sorted(s, lane, load)
    ensures Sorted(Insert(c, s, lane, load), lane, load)
  {
    if s != [] && !Before(c, s[0], lane, load) {
      InsertSorted(c, s[1..], lane, load);
      var r := Insert(c, s[1..], lane, load);
      forall j | 0 <= j < |r| ensures Before(s[0], r[j], lane, load) {
        assert r[j] in r;
      }
    }
  }

  lemma {:induction false} InsertDistinct(c: Candidate, s: seq<Candidate>, lane: Lane, load: Load)
    requires Distinct(s) && forall x :: x in s ==> x.order != c.order
    ensures Distinct(Insert(c, s, lane, load))
  {
    if s != [] && !Before(c, s[0], lane, load) {
      InsertDistinct(c, s[1..], lane, load);
      var r := Insert(c, s[1..], lane, load);
      forall j | 0 <= j < |r| ensures r[j].order != s[0].order {
        assert r[j] in r;
      }
    }
  }

  lemma {:induction false} SortSorts(s: seq<Candidate>, lane: Lane, load: Load)
    ensures Sorted(Sort(s, lane, load), lane, load)
    ensures Distinct(s) ==> Distinct(Sort(s, lane, load))
  {
    if s != [] {
      SortSorts(s[1..], lane, load);
      InsertSorted(s[0], Sort(s[1..], lane, load), lane, load);
      if Distinct(s) {
        InsertDistinct(s[0], Sort(s[1..], lane, load), lane, load);
      }
    }
  }

  /** Two sorted orders of the same items are the same. */
  lemma {:induction false} SortedUnique(a: seq<Candidate>, b: seq<Candidate>, lane: Lane, load: Load)
    requires Sorted(a, lane, load) && Sorted(b, lane, load) && Distinct(a) && Distinct(b)
    requires |a| == |b| && forall x :: x in a <==> x in b
    ensures a == b
  {
    if a != [] {
      assert a[0] in b && |b| > 0 && b[0] in a;
      assert a[0] == b[0];
      forall x ensures x in a[1..] <==> x in b[1..] {
        InTail(a, x);
        InTail(b, x);
      }
      SortedUnique(a[1..], b[1..], lane, load);
      assert a == [a[0]] + a[1..] && b == [b[0]] + b[1..];
    }
  }

  lemma InTail(s: seq<Candidate>, x: Candidate)
    requires Distinct(s) && s != []
    ensures x in s[1..] <==> x in s && x != s[0]
  {
    assert s == [s[0]] + s[1..];
  }

  lemma Joined(a: seq<Candidate>, b: seq<Candidate>)
    ensures Distinct(a + b) <==> Distinct(a) && Distinct(b) && forall x, y :: x in a && y in b ==> x.order != y.order
  {
    var s := a + b;
    if Distinct(s) {
      assert forall i :: 0 <= i < |a| ==> s[i] == a[i];
      assert forall i :: 0 <= i < |b| ==> s[|a| + i] == b[i];
      forall i, j | 0 <= i < j < |b| ensures b[i].order != b[j].order {
        assert s[|a| + i] == b[i] && s[|a| + j] == b[j];
      }
    }
  }

  // --- The picks -----------------------------------------------------------------

  /** Every item is picked or in the pool still, none twice. */
  ghost predicate Split(todo: seq<Candidate>, out: seq<Candidate>, pool: seq<Candidate>) {
    && Distinct(out + pool) && |out| + |pool| == |todo|
    && forall x :: x in todo <==> x in out || x in pool
  }

  ghost predicate ByPriority(out: seq<Candidate>, pool: seq<Candidate>) {
    && (forall i, j :: 0 <= i < j < |out| ==> out[i].rank <= out[j].rank)
    && (forall c, x :: c in out && x in pool ==> c.rank <= x.rank)
  }

  /** A picked item's repository has at most one more than that of an item of its priority left out. */
  ghost predicate SpreadOut(out: seq<Candidate>, pool: seq<Candidate>, load: Load) {
    forall c, x :: c in out && x in pool && c.rank == x.rank ==> LoadOf(load, c.repo) <= LoadOf(load, x.repo) + 1
  }

  ghost function CountOf(out: seq<Candidate>, repo: string): nat {
    if out == [] then 0 else CountOf(out[..|out| - 1], repo) + if out[|out| - 1].repo == repo then 1 else 0
  }

  /**
   C goes before x, their repositories having a and b agents, busy or picked:
   it is of a better priority, or of the same and, upstream, for a repository
   with fewer agents, or with as many and where the operator is more active,
   or as active and higher on the board.
   */
  ghost predicate Ahead(c: Candidate, x: Candidate, lane: Lane, a: nat, b: nat) {
    c.rank < x.rank
    || (c.rank == x.rank
        && ((lane.Upstream? && a < b)
            || ((lane.Upstream? ==> a == b) && (c.score > x.score || (c.score == x.score && c.order <= x.order)))))
  }

  /** With these picked before, c goes before all that is left. */
  ghost predicate GoesFirst(todo: seq<Candidate>, lane: Lane, busy: Load, before: seq<Candidate>, c: Candidate) {
    forall x :: x in todo && x !in before ==>
      Ahead(c, x, lane, LoadOf(busy, c.repo) + CountOf(before, c.repo), LoadOf(busy, x.repo) + CountOf(before, x.repo))
  }

  /** Each pick goes before all that is left then. */
  ghost predicate Greedy(todo: seq<Candidate>, lane: Lane, busy: Load, out: seq<Candidate>) {
    forall i :: 0 <= i < |out| ==> GoesFirst(todo, lane, busy, out[..i], out[i])
  }

  lemma PickedGreedily(todo: seq<Candidate>, lane: Lane, busy: Load, out: seq<Candidate>, pool: seq<Candidate>,
                       load: Load, sorted: seq<Candidate>)
    requires Greedy(todo, lane, busy, out) && Split(todo, out, pool) && Counts(load, busy, out)
    requires sorted != [] && Sorted(sorted, lane, load) && forall x :: x in sorted <==> x in pool
    ensures Greedy(todo, lane, busy, out + [sorted[0]])
  {
    NextFirst(todo, lane, busy, out, pool, load, sorted);
    hide GoesFirst, Sorted, Counts, Split;
    var out' := out + [sorted[0]];
    forall i | 0 <= i < |out'| ensures GoesFirst(todo, lane, busy, out'[..i], out'[i]) {
      assert out'[..i] == out[..i];
      assert i == |out| ==> out[..i] == out;
    }
  }

  lemma NextFirst(todo: seq<Candidate>, lane: Lane, busy: Load, out: seq<Candidate>, pool: seq<Candidate>,
                  load: Load, sorted: seq<Candidate>)
    requires Split(todo, out, pool) && Counts(load, busy, out)
    requires sorted != [] && Sorted(sorted, lane, load) && forall x :: x in sorted <==> x in pool
    ensures GoesFirst(todo, lane, busy, out, sorted[0])
  {
    hide CountOf, Ahead, Sorted, Counts, Split;
    forall x | x in todo && x !in out
      ensures Ahead(sorted[0], x, lane, LoadOf(busy, sorted[0].repo) + CountOf(out, sorted[0].repo),
                    LoadOf(busy, x.repo) + CountOf(out, x.repo))
    {
      NotPicked(todo, out, pool, x);
      FirstBefore(sorted, lane, load, x);
      BeforeIsAhead(sorted[0], x, lane, busy, out, load);
    }
  }

  lemma NotPicked(todo: seq<Candidate>, out: seq<Candidate>, pool: seq<Candidate>, x: Candidate)
    requires Split(todo, out, pool) && x in todo && x !in out
    ensures x in pool
  {
    hide Distinct;
  }

  lemma FirstBefore(sorted: seq<Candidate>, lane: Lane, load: Load, x: Candidate)
    requires Sorted(sorted, lane, load) && x in sorted
    ensures Before(sorted[0], x, lane, load)
  {
    var j :| 0 <= j < |sorted| && sorted[j] == x;
  }

  lemma {:induction false} BeforeIsAhead(c: Candidate, x: Candidate, lane: Lane, busy: Load, out: seq<Candidate>,
                                         load: Load)
    requires Before(c, x, lane, load) && Counts(load, busy, out)
    ensures Ahead(c, x, lane, LoadOf(busy, c.repo) + CountOf(out, c.repo), LoadOf(busy, x.repo) + CountOf(out, x.repo))
  {
    hide CountOf;
  }

  /** The loads count the picks on top of the busy agents. */
  ghost predicate Counts(load: Load, busy: Load, out: seq<Candidate>) {
    forall repo :: LoadOf(load, repo) == LoadOf(busy, repo) + CountOf(out, repo)
  }

  lemma Resorted(todo: seq<Candidate>, out: seq<Candidate>, pool: seq<Candidate>, sorted: seq<Candidate>)
    requires Split(todo, out, pool) && Distinct(sorted) && |sorted| == |pool| && forall x :: x in sorted <==> x in pool
    ensures Split(todo, out, sorted)
  {
    Joined(out, pool);
    Joined(out, sorted);
  }

  lemma Shifted(todo: seq<Candidate>, out: seq<Candidate>, pool: seq<Candidate>)
    requires Split(todo, out, pool) && pool != []
    ensures Split(todo, out + [pool[0]], pool[1..])
  {
    assert out + [pool[0]] + pool[1..] == out + pool;
    assert pool == [pool[0]] + pool[1..];
  }

  lemma PickedFirst(out: seq<Candidate>, pool: seq<Candidate>, lane: Lane, load: Load, load': Load)
    requires pool != [] && Sorted(pool, lane, load) && ByPriority(out, pool)
    requires lane.Upstream? ==> SpreadOut(out, pool, load)
    requires load' == load[pool[0].repo := LoadOf(load, pool[0].repo) + 1]
    ensures ByPriority(out + [pool[0]], pool[1..])
    ensures lane.Upstream? ==> SpreadOut(out + [pool[0]], pool[1..], load')
  {
    hide Sorted;
    var c := pool[0];
    assert pool == [c] + pool[1..];
    forall x | x in pool[1..] ensures Before(c, x, lane, load) {
      FirstBefore(pool, lane, load, x);
    }
  }

  ghost predicate AsSorted(out: seq<Candidate>, pool: seq<Candidate>, all: seq<Candidate>) {
    |out| <= |all| && out == all[..|out|] && (forall x :: x in pool <==> x in all[|out|..])
  }

  /** What holds after each pick. */
  ghost predicate Picked(todo: seq<Candidate>, lane: Lane, busy: Load, out: seq<Candidate>, pool: seq<Candidate>,
                         load: Load) {
    && Split(todo, out, pool) && ByPriority(out, pool) && Counts(load, busy, out)
    && (lane.Upstream? ==> SpreadOut(out, pool, load))
    && (lane.Harness? ==> AsSorted(out, pool, Sort(todo, lane, busy)))
    && Greedy(todo, lane, busy, out)
  }

  lemma {:induction false} PickOne(todo: seq<Candidate>, lane: Lane, busy: Load, out: seq<Candidate>,
                                   pool: seq<Candidate>, load: Load, sorted: seq<Candidate>, load': Load)
    requires Distinct(todo) && Picked(todo, lane, busy, out, pool, load) && pool != []
             && sorted == Sort(pool, lane, load)
    requires load' == load[sorted[0].repo := LoadOf(load, sorted[0].repo) + 1]
    ensures Picked(todo, lane, busy, out + [sorted[0]], sorted[1..], load')
  {
    hide Sort, Sorted, Split, AsSorted, ByPriority, SpreadOut, Counts, Distinct, Greedy;
    ToSort(todo, out, pool, lane, load);
    if lane.Harness? {
      SameFirst(todo, out, pool, sorted, busy, load);
    }
    PickedGreedily(todo, lane, busy, out, pool, load, sorted);
    Shifted(todo, out, sorted);
    Repooled(out, pool, sorted, load);
    Counted(load, busy, out, sorted[0], load');
    PickedFirst(out, sorted, lane, load, load');
  }

  lemma Repooled(out: seq<Candidate>, pool: seq<Candidate>, sorted: seq<Candidate>, load: Load)
    requires forall x :: x in sorted <==> x in pool
    ensures ByPriority(out, pool) ==> ByPriority(out, sorted)
    ensures SpreadOut(out, pool, load) ==> SpreadOut(out, sorted, load)
  {
  }

  lemma Counted(load: Load, busy: Load, out: seq<Candidate>, c: Candidate, load': Load)
    requires Counts(load, busy, out) && load' == load[c.repo := LoadOf(load, c.repo) + 1]
    ensures Counts(load', busy, out + [c])
  {
    assert (out + [c])[..|out|] == out;
  }

  /** Up to three candidates, each the first of what is left. */
  method Pick(todo: seq<Candidate>, lane: Lane, busy: Load)
    returns (out: seq<Candidate>, ghost pool: seq<Candidate>, ghost load: Load)
    requires Distinct(todo)
    ensures |out| == Min(CANDIDATES_PER_LANE, |todo|) && Split(todo, out, pool)
    ensures ByPriority(out, pool) && Greedy(todo, lane, busy, out)
    ensures Counts(load, busy, out) && (lane.Upstream? ==> SpreadOut(out, pool, load))
    ensures lane.Harness? ==> out == Sort(todo, lane, busy)[..|out|]
  {
    var loads: Load := busy;
    var left := todo;
    out := [];
    assert [] + todo == todo;
    while |out| < CANDIDATES_PER_LANE && left != []
      invariant |out| <= CANDIDATES_PER_LANE && Picked(todo, lane, busy, out, left, loads)
      decreases |left|
    {
      hide Sort, Picked;
      var sorted := Sort(left, lane, loads);
      ghost var was := loads;
      loads := loads[sorted[0].repo := LoadOf(loads, sorted[0].repo) + 1];
      PickOne(todo, lane, busy, out, left, was, sorted, loads);
      out, left := out + [sorted[0]], sorted[1..];
    }
    pool, load := left, loads;
  }

  lemma {:induction false} ToSort(todo: seq<Candidate>, out: seq<Candidate>, pool: seq<Candidate>, lane: Lane,
                                  load: Load)
    requires Split(todo, out, pool)
    ensures Sorted(Sort(pool, lane, load), lane, load) && Split(todo, out, Sort(pool, lane, load))
    ensures forall x :: x in Sort(pool, lane, load) <==> x in pool
  {
    Joined(out, pool);
    SortSorts(pool, lane, load);
    Resorted(todo, out, pool, Sort(pool, lane, load));
  }

  /** In the harness lane the loads don't matter: each sort is what is left of the first. */
  lemma {:induction false} SameFirst(todo: seq<Candidate>, out: seq<Candidate>, left: seq<Candidate>,
                                     sorted: seq<Candidate>, busy: Load, load: Load)
    requires Distinct(todo) && Split(todo, out, left) && left != [] && sorted == Sort(left, Harness, load)
    requires AsSorted(out, left, Sort(todo, Harness, busy))
    ensures AsSorted(out + [sorted[0]], sorted[1..], Sort(todo, Harness, busy))
  {
    var all := Sort(todo, Harness, busy);
    SortSorts(todo, Harness, busy);
    ToSort(todo, out, left, Harness, load);
    Joined(out, sorted);
    Rest(all, |out|, Harness, busy, load);
    hide Sort, Insert, Sorted, Distinct, Split;
    SortedUnique(sorted, all[|out|..], Harness, load);
    NextSorted(out, sorted, all);
  }

  lemma NextSorted(out: seq<Candidate>, rest: seq<Candidate>, all: seq<Candidate>)
    requires |out| <= |all| && out == all[..|out|] && rest == all[|out|..] && rest != []
    ensures AsSorted(out + [rest[0]], rest[1..], all)
  {
    assert all[..|out| + 1] == all[..|out|] + [all[|out|]];
    assert rest[1..] == all[|out| + 1..];
  }

  lemma Rest(all: seq<Candidate>, n: nat, lane: Lane, busy: Load, load: Load)
    requires Sorted(all, lane, busy) && Distinct(all) && lane.Harness? && n <= |all|
    ensures Sorted(all[n..], lane, load) && Distinct(all[n..])
  {
  }
}

/**
 A memory of one key with ageing: a touch stores its time, and a check a
 keeping time or more after the last touch forgets it. Both the seen-sets
 and the event memory age this way (crates/bot-poll/src/lib.rs).
 */
module Ageing {
  import opened Options

  /** One step, as one key sees it: whether it touches the key, and whether it checks the key's age. */
  datatype Tick = Tick(touch: bool, check: bool, now: int)

  /** The memory's update of one key. */
  function Next(was: Option<int>, t: Tick, keep: int): Option<int> {
    if t.touch then Some(t.now)
    else if was.Some? && t.check && t.now - was.value >= keep then None
    else was
  }

  function Recall(ts: seq<Tick>, keep: int): Option<int> {
    if ts == [] then None else Next(Recall(ts[..|ts| - 1], keep), ts[|ts| - 1], keep)
  }

  /** Tick i is the last touch, and no check since came `keep` or more after it. */
  ghost predicate HeldFrom(ts: seq<Tick>, keep: int, i: nat) {
    && i < |ts| && ts[i].touch
    && (forall j :: i < j < |ts| ==> !ts[j].touch)
    && (forall j :: i < j < |ts| && ts[j].check ==> ts[j].now - ts[i].now < keep)
  }

  lemma HeldLonger(ts: seq<Tick>, keep: int, i: nat)
    requires ts != []
    ensures var n := |ts| - 1;
            HeldFrom(ts, keep, i) <==>
              if i == n then ts[n].touch
              else HeldFrom(ts[..n], keep, i) && !ts[n].touch && (ts[n].check ==> ts[n].now - ts[i].now < keep)
  {
    var n := |ts| - 1;
    if HeldFrom(ts[..n], keep, i) {
      assert ts[..n][i] == ts[i];
      assert forall j :: i < j < n ==> ts[..n][j] == ts[j];
    }
  }

  /** The key is held exactly when some tick holds it, with that tick's time. */
  lemma {:induction false} RecallIffHeld(ts: seq<Tick>, keep: int)
    ensures Recall(ts, keep).Some? <==> exists i: nat :: HeldFrom(ts, keep, i)
    ensures forall i: nat :: HeldFrom(ts, keep, i) ==> Recall(ts, keep) == Some(ts[i].now)
  {
    if ts != [] {
      var n := |ts| - 1;
      RecallIffHeld(ts[..n], keep);
      forall i: nat | HeldFrom(ts, keep, i) ensures Recall(ts, keep) == Some(ts[i].now) {
        HeldLonger(ts, keep, i);
      }
      if Recall(ts, keep).Some? {
        if ts[n].touch {
          HeldLonger(ts, keep, n);
        } else {
          var i: nat :| HeldFrom(ts[..n], keep, i);
          HeldLonger(ts, keep, i);
        }
      }
    }
  }

  /** The last touch among the first n ticks. */
  lemma {:induction false} LastTouch(ts: seq<Tick>, from: nat, n: nat) returns (l: nat)
    requires from < n <= |ts| && ts[from].touch
    ensures from <= l < n && ts[l].touch && forall j :: l < j < n ==> !ts[j].touch
  {
    l := n - 1;
    while !ts[l].touch
      invariant from <= l < n && forall j :: l < j < n ==> !ts[j].touch
      decreases l
    {
      l := l - 1;
    }
  }

  /** A touched key that is not held after n ticks was dropped in between. */
  lemma {:induction false} Dropped(ts: seq<Tick>, keep: int, from: nat, n: nat)
    requires from < n <= |ts| && ts[from].touch && Recall(ts[..n], keep).None?
    ensures exists l, k :: from <= l < k < n && ts[l].touch && !ts[k].touch && ts[k].check
                           && ts[k].now - ts[l].now >= keep
  {
    var l := LastTouch(ts, from, n);
    RecallIffHeld(ts[..n], keep);
    assert !HeldFrom(ts[..n], keep, l);
    var k :| l < k < n && ts[k].check && ts[k].now - ts[l].now >= keep;
  }
}

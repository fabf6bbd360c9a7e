/**
 The scheduler's two rules (crates/sched/src/rules.rs), what it observes
 for them (crates/sched/src/observe.rs, crates/sched/src/model.rs) and the
 JavaScript rules they are ports of (lib/reconcile.js).
 */
module SchedRules {
  import opened Options
  import R = ContentRefs

  const COORDINATOR_LEAD: string := "coordinator"

  datatype ContentState = Open | Closed | Merged | Gone
  datatype Status = Todo | InProgress | Draft | InReview | NeedsHuman | Done | Other(name: string)
  datatype Content = Content(of: R.ContentRef, state: ContentState)
  datatype Item = Item(id: string, content: Option<Content>, status: Option<Status>, lead: Option<string>,
                       branch: seq<R.ContentRef>)

  type States = map<string, ContentState>

  predicate Ended(s: ContentState) {
    s.Closed? || s.Merged?
  }

  /** The states the items' own contents have, then those of LINKED that are no item's. */
  function StatesOf(items: seq<Item>, linked: States): States {
    if items == [] then linked
    else
      var rest := StatesOf(items[..|items| - 1], linked);
      var c := items[|items| - 1].content;
      if c.None? then rest else rest[R.Key(c.value.of) := c.value.state]
  }

  // --- The rules ----------------------------------------------------------------------

  /** What a rule writes: Done, or no Lead. */
  datatype Write = SetDone | ClearLead
  datatype Action = ClosedNotDone(item: string, write: Option<Write>) | StaleLead(item: string, write: Option<Write>)

  predicate Unmerged(c: Content) {
    c.of.kind.PullRequest? && c.state.Closed?
  }

  /** A Branch reference whose state keeps the item open: not known to be over or gone. */
  predicate Pending(states: States, key: string) {
    key !in states || states[key].Open?
  }

  ghost predicate Blocked(item: Item, states: States)
    requires item.content.Some?
  {
    exists r :: r in item.branch && R.Key(r) != R.Key(item.content.value.of) && Pending(states, R.Key(r))
  }

  ghost function ClosedItem(item: Item, states: States): Option<Action> {
    if item.content.None? || item.status == Some(Done) || !Ended(item.content.value.state)
    || Blocked(item, states) then None
    else if !Unmerged(item.content.value) then Some(ClosedNotDone(item.id, Some(SetDone)))
    else if item.status == Some(NeedsHuman) then None
    else Some(ClosedNotDone(item.id, None))
  }

  function StaleItem(item: Item): Option<Action> {
    if item.lead == Some(COORDINATOR_LEAD)
    && item.status != Some(InProgress) then Some(StaleLead(item.id, Some(ClearLead))) else None
  }

  method IsBlocked(item: Item, states: States) returns (blocked: bool)
    requires item.content.Some?
    ensures blocked == Blocked(item, states)
  {
    var own := R.Key(item.content.value.of);
    for n := 0 to |item.branch|
      invariant forall r :: r in item.branch[..n] ==> R.Key(r) == own || !Pending(states, R.Key(r))
    {
      var k := R.Key(item.branch[n]);
      if k != own && Pending(states, k) {
        assert item.branch[n] in item.branch;
        return true;
      }
    }
    assert item.branch[..|item.branch|] == item.branch;
    blocked := false;
  }

  method ClosedNotDoneRule(items: seq<Item>, states: States) returns (out: seq<Action>)
    ensures out == ClosedActions(items, states)
  {
    out := [];
    for n := 0 to |items|
      invariant out == ClosedActions(items[..n], states)
    {
      assert items[..n + 1][..n] == items[..n];
      var it := items[n];
      if it.content.Some? && it.status != Some(Done) && Ended(it.content.value.state) {
        var blocked := IsBlocked(it, states);
        if !blocked {
          if !Unmerged(it.content.value) {
            out := out + [ClosedNotDone(it.id, Some(SetDone))];
          } else if it.status != Some(NeedsHuman) {
            out := out + [ClosedNotDone(it.id, None)];
          }
        }
      }
    }
    assert items[..|items|] == items;
  }

  ghost function ClosedActions(items: seq<Item>, states: States): seq<Action> {
    if items == [] then []
    else
      var a := ClosedItem(items[|items| - 1], states);
      ClosedActions(items[..|items| - 1], states) + if a.Some? then [a.value] else []
  }

  function StaleActions(items: seq<Item>): seq<Action> {
    if items == [] then []
    else
      var a := StaleItem(items[|items| - 1]);
      StaleActions(items[..|items| - 1]) + if a.Some? then [a.value] else []
  }

  // --- What the rules mean --------------------------------------------------------------

  /** Every Branch reference but the content's own is known to be closed, merged or gone. */
  ghost predicate NothingOpen(item: Item, states: States)
    requires item.content.Some?
  {
    forall r :: r in item.branch && R.Key(r) != R.Key(item.content.value.of) ==>
      R.Key(r) in states && states[R.Key(r)] in {Closed, Merged, Gone}
  }

  /** To be set Done: its issue is closed or its PR merged, and nothing of it is open or unknown. */
  ghost predicate ToBeDone(item: Item, states: States) {
    && item.content.Some? && item.status != Some(Done) && NothingOpen(item, states)
    && (item.content.value.state == Merged
        || (item.content.value.state == Closed && item.content.value.of.kind != R.PullRequest))
  }

  /** To be asked about: its PR is closed unmerged, nothing of it is open or unknown, and it is no question yet. */
  ghost predicate ToBeAsked(item: Item, states: States) {
    && item.content.Some? && item.status != Some(Done) && item.status != Some(NeedsHuman) && NothingOpen(item, states)
    && item.content.value.state == Closed && item.content.value.of.kind == R.PullRequest
  }

  lemma ItemMeans(item: Item, states: States)
    ensures ClosedItem(item, states) == if ToBeDone(item, states) then Some(ClosedNotDone(item.id, Some(SetDone)))
                                        else if ToBeAsked(item, states) then Some(ClosedNotDone(item.id, None))
                                        else None
    ensures ToBeDone(item, states) ==> !ToBeAsked(item, states)
  {
    if item.content.Some? {
      if r :| r in item.branch && R.Key(r) != R.Key(item.content.value.of)
              && !(R.Key(r) in states && states[R.Key(r)] in {Closed, Merged, Gone}) {
        assert Pending(states, R.Key(r));
      }
    }
  }

  /** The actions of the rule: one per item that is to be Done or asked about, and no other. */
  lemma {:induction false} ActionsMean(items: seq<Item>, states: States, a: Action)
    ensures a in ClosedActions(items, states) <==>
            exists it :: it in items
                         && ((ToBeDone(it, states) && a == ClosedNotDone(it.id, Some(SetDone)))
                             || (ToBeAsked(it, states) && a == ClosedNotDone(it.id, None)))
  {
    if items != [] {
      var n := |items| - 1;
      assert items == items[..n] + [items[n]];
      ActionsMean(items[..n], states, a);
      ItemMeans(items[n], states);
      hide ClosedItem, ToBeDone, ToBeAsked;
    }
  }

  /** And of the other: one per item the coordinator leads that is not in progress. */
  lemma {:induction false} StaleMean(items: seq<Item>, a: Action)
    ensures a in StaleActions(items) <==>
            exists it :: it in items && it.lead == Some("coordinator") && it.status != Some(InProgress)
                         && a == StaleLead(it.id, Some(ClearLead))
  {
    if items != [] {
      var n := |items| - 1;
      assert items == items[..n] + [items[n]];
      StaleMean(items[..n], a);
    }
  }

  /** The states are the items' own, the last of several, and of other references those linked. */
  lemma {:induction false} StatesAre(items: seq<Item>, linked: States, k: string)
    ensures k !in OwnKeys(items) ==>
              (k in StatesOf(items, linked) <==> k in linked)
              && (k in linked ==> StatesOf(items, linked)[k] == linked[k])
    ensures k in OwnKeys(items) ==>
              k in StatesOf(items, linked)
              && exists n :: LastOf(items, k, n) && StatesOf(items, linked)[k] == items[n].content.value.state
  {
    if items != [] {
      var n := |items| - 1;
      assert items == items[..n] + [items[n]];
      StatesAre(items[..n], linked, k);
      if items[n].content.Some? && R.Key(items[n].content.value.of) == k {
        assert LastOf(items, k, n);
      } else if k in OwnKeys(items) {
        var m :| LastOf(items[..n], k, m) && StatesOf(items[..n], linked)[k] == items[..n][m].content.value.state;
        assert LastOf(items, k, m);
      }
    }
  }

  ghost predicate LastOf(items: seq<Item>, k: string, n: int) {
    && 0 <= n < |items| && items[n].content.Some? && R.Key(items[n].content.value.of) == k
    && forall m :: n < m < |items| && items[m].content.Some? ==> R.Key(items[m].content.value.of) != k
  }

  // --- Observing on demand ------------------------------------------------------------

  /** An item whose Branch states matter. */
  predicate Matters(it: Item) {
    it.status != Some(Done) && it.content.Some? && Ended(it.content.value.state)
  }

  function OwnKeys(items: seq<Item>): set<string> {
    set it | it in items && it.content.Some? :: R.Key(it.content.value.of)
  }

  function Wanted(items: seq<Item>): set<string> {
    set it, r | it in items && Matters(it) && r in it.branch :: R.Key(r)
  }

  /** The Branch states that are read: of items that matter, not the board's own. */
  method Observe(items: seq<Item>, forge: map<string, ContentState>) returns (linked: States)
    ensures linked == map k | k in Wanted(items) - OwnKeys(items) && k in forge :: forge[k]
  {
    linked := map[];
    var rest := Wanted(items) - OwnKeys(items);
    ghost var all := rest;
    while rest != {}
      invariant rest <= all
      invariant linked == map k | k in all - rest && k in forge :: forge[k]
      decreases rest
    {
      var k :| k in rest;
      rest := rest - {k};
      // One that can't be read stays unknown.
      if k in forge {
        linked := linked[k := forge[k]];
      }
    }
  }

  /**
   No state is read in vain: it is one of an item not Done yet whose content
   is closed or merged, and no item's own.
   */
  lemma NoneInVain(items: seq<Item>, forge: map<string, ContentState>, linked: States, k: string)
    requires linked == map x | x in Wanted(items) - OwnKeys(items) && x in forge :: forge[x]
    ensures k in linked <==>
            && k in forge
            && (exists it, r :: it in items && it.status != Some(Done) && it.content.Some?
                                && it.content.value.state in {Closed, Merged} && r in it.branch && R.Key(r) == k)
            && forall it :: it in items && it.content.Some? ==> R.Key(it.content.value.of) != k
    ensures k in linked ==> linked[k] == forge[k]
  {
    if it, r :| it in items && it.status != Some(Done) && it.content.Some?
                && it.content.value.state in {Closed, Merged} && r in it.branch && R.Key(r) == k {
      assert Matters(it) && k in Wanted(items);
    }
  }

  lemma {:induction false} StatesHas(items: seq<Item>, linked: States, other: States, k: string)
    requires k in OwnKeys(items) || ((k in linked <==> k in other) && (k in linked ==> linked[k] == other[k]))
    ensures k in StatesOf(items, linked) <==> k in StatesOf(items, other)
    ensures k in StatesOf(items, linked) ==> StatesOf(items, linked)[k] == StatesOf(items, other)[k]
  {
    if items != [] {
      var it := items[|items| - 1];
      assert items == items[..|items| - 1] + [it];
      if it.content.None? || R.Key(it.content.value.of) != k {
        StatesHas(items[..|items| - 1], linked, other, k);
      }
    }
  }

  /** Two states that agree on what matters give an item the same action. */
  lemma SameAction(it: Item, a: States, b: States)
    requires Matters(it) ==> forall r :: r in it.branch ==> Pending(a, R.Key(r)) == Pending(b, R.Key(r))
    ensures ClosedItem(it, a) == ClosedItem(it, b)
  {
  }

  lemma {:induction false} SameActions(items: seq<Item>, a: States, b: States)
    requires forall it, r :: it in items && Matters(it) && r in it.branch ==>
               Pending(a, R.Key(r)) == Pending(b, R.Key(r))
    ensures ClosedActions(items, a) == ClosedActions(items, b)
  {
    if items != [] {
      var it := items[|items| - 1];
      assert it in items;
      SameAction(it, a, b);
      hide ClosedItem, Pending;
      SameActions(items[..|items| - 1], a, b);
    }
  }

  /** Reading only the wanted states gives the same actions as reading every state there is. */
  lemma DemandIsEnough(items: seq<Item>, forge: map<string, ContentState>)
    ensures var linked := map k | k in Wanted(items) - OwnKeys(items) && k in forge :: forge[k];
            ClosedActions(items, StatesOf(items, linked)) == ClosedActions(items, StatesOf(items, forge))
  {
    var linked := map k | k in Wanted(items) - OwnKeys(items) && k in forge :: forge[k];
    forall it, r | it in items && Matters(it) && r in it.branch
      ensures Pending(StatesOf(items, linked), R.Key(r)) == Pending(StatesOf(items, forge), R.Key(r))
    {
      StatesHas(items, linked, forge, R.Key(r));
    }
    hide StatesOf, ClosedActions, Wanted, OwnKeys;
    SameActions(items, StatesOf(items, linked), StatesOf(items, forge));
  }

  // --- Agreement with the JavaScript rules --------------------------------------------------

  /** A board item as the JavaScript rules read it: its content's and its Branch field's texts. */
  datatype JsItem = JsItem(id: string, url: Option<string>, pr: bool, status: Option<Status>, lead: Option<string>,
                           branch: seq<string>)

  /** A URL's identity, if it has one. */
  function JsKey(url: Option<string>): Option<string> {
    if url.None? then None else R.Normalize(url.value)
  }

  ghost predicate JsBlocked(it: JsItem, states: States) {
    exists t :: t in it.branch && var k := R.Normalize(t);
      k.Some? && k.value != "" && k.value != it.id && k != JsKey(it.url) && Pending(states, k.value)
  }

  ghost function JsClosed(it: JsItem, states: States): Option<Action> {
    var own := JsKey(it.url);
    if own.None? || own.value !in states || it.status == Some(Done) || !Ended(states[own.value])
    || JsBlocked(it, states) then None
    else if !(it.pr && states[own.value].Closed?) then Some(ClosedNotDone(it.id, Some(SetDone)))
    else if it.status == Some(NeedsHuman) then None
    else Some(ClosedNotDone(it.id, None))
  }

  function JsStale(it: JsItem): Option<Action> {
    if it.lead == Some(COORDINATOR_LEAD) && it.status != Some(InProgress) then Some(StaleLead(it.id, Some(ClearLead)))
    else None
  }

  function Parsed(texts: seq<string>): seq<R.ContentRef> {
    if texts == [] then []
    else
      var p := R.Parse(texts[|texts| - 1]);
      Parsed(texts[..|texts| - 1]) + if p.Some? then [p.value] else []
  }

  lemma {:induction false} ParsedHas(texts: seq<string>, r: R.ContentRef)
    ensures r in Parsed(texts) <==> exists t :: t in texts && R.Parse(t) == Some(r)
  {
    if texts != [] {
      var n := |texts| - 1;
      assert texts == texts[..n] + [texts[n]];
      ParsedHas(texts[..n], r);
      hide R.Parse;
    }
  }

  /** The same item, seen by both: the listing's content, and the Branch field's texts parsed. */
  ghost predicate SameItem(it: Item, js: JsItem) {
    && it.id == js.id && it.status == js.status && it.lead == js.lead && it.branch == Parsed(js.branch)
    && (it.content.None? ==> js.url.None?)
    && (it.content.Some? ==> js.url.Some? && R.Parse(js.url.value) == Some(it.content.value.of)
                             && js.pr == it.content.value.of.kind.PullRequest?)
  }

  /** No text of the item is of those the two parsers read differently, and its id is no URL's key. */
  ghost predicate Plain(js: JsItem) {
    && (forall t :: t in js.branch ==> !R.Differs(t) && R.Normalize(t) != Some(js.id))
    && (js.url.Some? ==> !R.Differs(js.url.value))
  }

  /** The snapshot's state of the item is its content's. */
  ghost predicate Known(it: Item, states: States) {
    it.content.Some? ==> R.Key(it.content.value.of) in states
                         && states[R.Key(it.content.value.of)] == it.content.value.state
  }

  /** A Branch text that parses names what its reference does; one that doesn't, nothing. */
  lemma TextAlike(t: string)
    requires !R.Differs(t)
    ensures R.Normalize(t).Some? <==> R.Parse(t).Some?
    ensures R.Parse(t).Some? ==> R.Normalize(t) == Some(R.Key(R.Parse(t).value)) && R.Normalize(t).value != ""
  {
    R.SameIdentity(t);
    if R.Parse(t).Some? {
      KeyNotEmpty(t);
    }
    hide R.Parse, R.Normalize, R.Differs, R.Key;
  }

  lemma BlockedThere(it: Item, js: JsItem, states: States, r: R.ContentRef)
    requires it.content.Some? && SameItem(it, js) && Plain(js)
    requires r in it.branch && R.Key(r) != R.Key(it.content.value.of) && Pending(states, R.Key(r))
    ensures JsBlocked(js, states)
  {
    hide R.Parse, R.Normalize, R.Differs, Pending, R.Key, Parsed;
    ParsedHas(js.branch, r);
    var t :| t in js.branch && R.Parse(t) == Some(r);
    assert !R.Differs(t) && R.Normalize(t) != Some(js.id);
    TextAlike(t);
    TextAlike(js.url.value);
    assert R.Normalize(t) == Some(R.Key(r)) && JsKey(js.url) == Some(R.Key(it.content.value.of));
  }

  lemma BlockedHere(it: Item, js: JsItem, states: States, t: string)
    requires it.content.Some? && SameItem(it, js) && Plain(js)
    requires t in js.branch && R.Normalize(t).Some? && R.Normalize(t) != JsKey(js.url)
             && Pending(states, R.Normalize(t).value)
    ensures Blocked(it, states)
  {
    TextAlike(t);
    TextAlike(js.url.value);
    ParsedHas(js.branch, R.Parse(t).value);
    hide R.Parse, R.Normalize, R.Differs, Pending, R.Key, Parsed;
  }

  lemma BlockedAlike(it: Item, js: JsItem, states: States)
    requires it.content.Some? && SameItem(it, js) && Plain(js)
    ensures Blocked(it, states) <==> JsBlocked(js, states)
  {
    hide R.Parse, R.Normalize, R.Differs, Pending, R.Key, Parsed, SameItem, Plain, JsKey;
    if Blocked(it, states) {
      var r :| r in it.branch && R.Key(r) != R.Key(it.content.value.of) && Pending(states, R.Key(r));
      BlockedThere(it, js, states, r);
    }
    if JsBlocked(js, states) {
      var t :| t in js.branch && R.Normalize(t).Some? && R.Normalize(t) != JsKey(js.url)
      && Pending(states, R.Normalize(t).value);
      BlockedHere(it, js, states, t);
    }
  }

  lemma KeyNotEmpty(t: string)
    requires R.Parse(t).Some?
    ensures R.Key(R.Parse(t).value) != ""
  {
    assert R.Parse(t).value.url != "";
  }

  /** On an item both read alike, the two pairs of rules say the same. */
  lemma RulesAgree(it: Item, js: JsItem, states: States)
    requires SameItem(it, js) && Plain(js) && Known(it, states)
    ensures ClosedItem(it, states) == JsClosed(js, states) && StaleItem(it) == JsStale(js)
  {
    if it.content.Some? {
      BlockedAlike(it, js, states);
      R.SameIdentity(js.url.value);
    }
    hide Blocked, JsBlocked, R.Parse, R.Normalize, R.Differs, R.Key;
  }

  /** With one state per reference, a snapshot knows every item's. */
  lemma {:induction false} ConsistentKnows(items: seq<Item>, linked: States, it: Item)
    requires it in items
    requires forall x, y :: x in items && y in items && x.content.Some? && y.content.Some?
                            && R.Key(x.content.value.of) == R.Key(y.content.value.of)
                            ==> x.content.value.state == y.content.value.state
    ensures Known(it, StatesOf(items, linked))
  {
    var n := |items| - 1;
    assert items == items[..n] + [items[n]];
    hide R.Key;
    if it.content.Some? {
      if items[n].content.None? || R.Key(items[n].content.value.of) != R.Key(it.content.value.of) {
        ConsistentKnows(items[..n], linked, it);
      }
    }
  }

  // --- The writes converge ---------------------------------------------------------------------

  /** An item once its actions' writes are made. */
  ghost function Applied(it: Item, states: States): Item {
    var c := ClosedItem(it, states);
    var s := StaleItem(it);
    var done := if c.Some? && c.value.write.Some? then it.(status := Some(Done)) else it;
    if s.Some? then done.(lead := None) else done
  }

  ghost function ApplyAll(items: seq<Item>, states: States): seq<Item> {
    seq(|items|, i requires 0 <= i < |items| => Applied(items[i], states))
  }

  ghost predicate NoWrites(it: Item, states: States) {
    (ClosedItem(it, states).Some? ==> ClosedItem(it, states).value.write.None?) && StaleItem(it).None?
  }

  lemma {:induction false} SameStates(items: seq<Item>, states: States, linked: States, n: nat)
    requires n <= |items|
    ensures StatesOf(ApplyAll(items, states)[..n], linked) == StatesOf(items[..n], linked)
  {
    if n > 0 {
      SameStates(items, states, linked, n - 1);
      assert ApplyAll(items, states)[..n][..n - 1] == ApplyAll(items, states)[..n - 1];
      assert items[..n][..n - 1] == items[..n - 1];
      hide ClosedItem, StaleItem;
    }
  }

  lemma TwicePerItem(it: Item, states: States)
    ensures NoWrites(Applied(Applied(it, states), states), states)
    ensures NoWrites(Applied(it, states), states) <==>
            !(it.lead == Some(COORDINATOR_LEAD) && it.status == Some(InProgress) && ClosedItem(it, states).Some?
              && ClosedItem(it, states).value.write.Some?)
  {
  }

  /**
   After two passes of the rules, each with its writes made, nothing is left
   to write; after one, exactly unless an item in progress and led by the
   coordinator was made Done.
   */
  lemma {:induction false} Converges(items: seq<Item>, linked: States, i: nat)
    requires i < |items|
    ensures var s0 := StatesOf(items, linked);
            var once := ApplyAll(items, s0);
            var s1 := StatesOf(once, linked);
            var twice := ApplyAll(once, s1);
            && s1 == s0 && StatesOf(twice, linked) == s0 && NoWrites(twice[i], s0)
            && (NoWrites(once[i], s0) <==>
                !(items[i].lead == Some(COORDINATOR_LEAD) && items[i].status == Some(InProgress)
                  && ClosedItem(items[i], s0).Some? && ClosedItem(items[i], s0).value.write.Some?))
  {
    var s0 := StatesOf(items, linked);
    var once := ApplyAll(items, s0);
    SameStates(items, s0, linked, |items|);
    assert once[..|items|] == once && items[..|items|] == items;
    SameStates(once, s0, linked, |items|);
    var twice := ApplyAll(once, s0);
    assert twice[..|items|] == twice;
    TwicePerItem(items[i], s0);
    hide Applied, ClosedItem, StaleItem, NoWrites, StatesOf;
  }
}

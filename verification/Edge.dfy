/**
 Edge-triggered actions across runs, and what keeps them while a sweep's
 step fails (lib/reconcile.js: drive, carriedOver, unreadKinds, reconcile,
 edge).
 */
module Edge {
  import opened Options

  datatype Kind = DriveKind | HealthKind | ApprovalKind | OtherKind(name: string)

  /** An action's key: the P0 drive's and health's name the reason, the PR and its head. */
  datatype Key =
    | Drive(reason: string, url: string, head: string)
    | Health(reason: string, url: string, head: string)
    | Approval(url: string, review: string)
    | OtherKey(kind: string, name: string)

  function KindOf(k: Key): Kind {
    match k
    case Drive(_, _, _) => DriveKind
    case Health(_, _, _) => HealthKind
    case Approval(_, _) => ApprovalKind
    case OtherKey(kind, _) => OtherKind(kind)
  }

  // --- The actions of a sweep ---------------------------------------------------

  const DRIVE_WAITING: set<string> := {"ci-pending", "mergeable", "review", "dco"}

  /** A line of the P0 drive; REBASED for one that says the head moved. */
  datatype DriveLine = DriveLine(reason: string, url: string, head: string, rebased: bool)
  /** A P0 line of the priority health; ASKED for one that waits on a human with a current ask. */
  datatype HealthLine = HealthLine(reason: string, url: string, head: string, asked: bool)
  /** What the latest sweep says, and which of its two steps failed; a failed step's section can hold some lines. */
  datatype Sweep = Sweep(drive: seq<DriveLine>, health: seq<HealthLine>, approvals: seq<Key>, driveFailed: bool,
                         healthFailed: bool)

  predicate Waits(l: DriveLine) {
    l.reason in DRIVE_WAITING || l.rebased
  }

  /** The drive covers a PR at a head: by a line, whatever it waits on, or by an action carried over. */
  ghost predicate Covered(s: Sweep, previous: set<Key>, url: string, head: string) {
    || (exists i :: 0 <= i < |s.drive| && s.drive[i].url == url && s.drive[i].head == head)
    || (s.driveFailed && exists k :: k in previous && k.Drive? && k.url == url && k.head == head)
  }

  ghost predicate Listed(s: Sweep, k: Key) {
    match k
    case Drive(reason, url, head) => exists i :: 0 <= i < |s.drive|
                                                 && s.drive[i] == DriveLine(reason, url, head, false)
                                                 && reason !in DRIVE_WAITING
    case Health(reason, url, head) => exists i :: 0 <= i < |s.health|
                                                  && s.health[i] == HealthLine(reason, url, head, false)
    case _ => k.Approval? && k in s.approvals
  }

  /** The actions the drive rule makes of a sweep, given the previous run's keys. */
  ghost predicate IsAction(s: Sweep, previous: set<Key>, k: Key) {
    match k
    case Drive(_, _, _) => Listed(s, k) || (s.driveFailed && k in previous)
    case Health(_, url, head) => (Listed(s, k) || (s.healthFailed && k in previous)) && !Covered(s, previous, url, head)
    case _ => Listed(s, k)
  }

  method DriveSection(s: Sweep) returns (out: seq<Key>, driven: set<(string, string)>)
    ensures forall k :: k in out <==> k.Drive? && Listed(s, k)
    ensures forall u, h :: (u, h) in driven <==>
              exists i :: 0 <= i < |s.drive| && s.drive[i].url == u && s.drive[i].head == h
  {
    out, driven := [], {};
    for n := 0 to |s.drive|
      invariant forall k :: k in out <==> k.Drive? && k.reason !in DRIVE_WAITING
                                          && exists i :: 0 <= i < n
                                                         && s.drive[i] == DriveLine(k.reason, k.url, k.head, false)
      invariant forall u, h :: (u, h) in driven <==>
                  exists i :: 0 <= i < n && s.drive[i].url == u && s.drive[i].head == h
    {
      var l := s.drive[n];
      driven := driven + {(l.url, l.head)};
      if !Waits(l) {
        out := out + [Drive(l.reason, l.url, l.head)];
      }
    }
  }

  /** The previous run's actions of one kind, but those there already and, for health, those the drive covers. */
  method CarryOver(previous: set<Key>, kind: Kind, out: seq<Key>, driven: set<(string, string)>)
    returns (out': seq<Key>, driven': set<(string, string)>)
    requires kind == DriveKind || kind == HealthKind
    ensures forall k :: k in out' <==> k in out || (k in previous && Carries(kind, driven, k))
    ensures forall p :: p in driven' <==> p in driven
                                          || (kind == DriveKind && exists k ::
                                                                     k in previous && k !in out && k.Drive?
                                                                     && (k.url, k.head) == p)
  {
    out', driven' := out, driven;
    var rest := previous;
    while rest != {}
      invariant rest <= previous
      invariant forall k :: k in out' <==> k in out || (k in previous - rest && Carries(kind, driven, k))
      invariant forall p :: p in driven' <==>
                            p in driven
                            || (kind == DriveKind
                                && exists k :: k in previous - rest && k !in out && k.Drive? && (k.url, k.head) == p)
      decreases rest
    {
      var k :| k in rest;
      rest := rest - {k};
      if KindOf(k) == kind && k !in out && (kind == DriveKind || (k.url, k.head) !in driven) {
        if kind == DriveKind {
          driven' := driven' + {(k.url, k.head)};
        }
        out' := out' + [k];
      }
    }
  }

  predicate Carries(kind: Kind, driven: set<(string, string)>, k: Key) {
    KindOf(k) == kind && (k.Drive? || (k.Health? && (k.url, k.head) !in driven))
  }

  method HealthSection(s: Sweep, driven: set<(string, string)>) returns (out: seq<Key>)
    ensures forall k :: k in out <==> k.Health? && Listed(s, k) && (k.url, k.head) !in driven
  {
    out := [];
    for n := 0 to |s.health|
      invariant forall k :: k in out <==> k.Health? && (k.url, k.head) !in driven
                                          && exists i :: 0 <= i < n
                                                         && s.health[i] == HealthLine(k.reason, k.url, k.head, false)
    {
      var l := s.health[n];
      if (l.url, l.head) !in driven && !l.asked {
        out := out + [Health(l.reason, l.url, l.head)];
      }
    }
  }

  /** The drive rule. */
  method DriveRule(s: Sweep, previous: set<Key>) returns (out: seq<Key>)
    ensures forall k :: k in out <==> IsAction(s, previous, k)
  {
    var driven;
    out, driven := DriveSection(s);
    if s.driveFailed {
      out, driven := CarryOver(previous, DriveKind, out, driven);
    }
    forall u, h ensures (u, h) in driven <==> Covered(s, previous, u, h) {
    }
    var lines := HealthSection(s, driven);
    out := out + lines;
    if s.healthFailed {
      out, driven := CarryOver(previous, HealthKind, out, driven);
    }
    var approvals := Approvals(s.approvals);
    out := out + approvals;
  }

  method Approvals(keys: seq<Key>) returns (out: seq<Key>)
    ensures forall k :: k in out <==> k.Approval? && k in keys
  {
    out := [];
    for n := 0 to |keys|
      invariant forall k :: k in out <==> k.Approval? && k in keys[..n]
    {
      if keys[n].Approval? {
        out := out + [keys[n]];
      }
    }
  }

  // --- Edge triggering -------------------------------------------------------------

  datatype Times = Times(first: int, fired: int)
  type Memory = map<Key, Times>
  datatype Firing = New | Resync | Quiet

  function FiringOf(state: Memory, k: Key, now: int, resync: int): Firing {
    if k !in state then New else if !(now - state[k].fired < resync) then Resync else Quiet
  }

  ghost function NextState(state: Memory, actions: set<Key>, now: int, resync: int, keep: set<Kind>): Memory {
    map k | k in actions + state.Keys && (k in actions || KindOf(k) in keep) ::
      if k !in actions then state[k]
      else match FiringOf(state, k, now, resync)
           case New => Times(now, now)
           case Resync => Times(state[k].first, now)
           case Quiet => state[k]
  }

  /** Which actions fire, and the next state. */
  method Trigger(state: Memory, actions: seq<Key>, now: int, resync: int, keep: set<Kind>)
    returns (firings: seq<Firing>, next: Memory)
    ensures |firings| == |actions| && forall i :: 0 <= i < |actions| ==>
                                        firings[i] == FiringOf(state, actions[i], now, resync)
    ensures next == NextState(state, Elements(actions), now, resync, keep)
  {
    next := map k | k in state && KindOf(k) in keep :: state[k];
    firings := [];
    ghost var all := Elements(actions);
    for n := 0 to |actions|
      invariant |firings| == n && forall i :: 0 <= i < n ==> firings[i] == FiringOf(state, actions[i], now, resync)
      invariant next == NextState(state, Elements(actions[..n]), now, resync, keep)
    {
      var k := actions[n];
      assert Elements(actions[..n + 1]) == Elements(actions[..n]) + {k};
      var f := FiringOf(state, k, now, resync);
      firings := firings + [f];
      next := next[k := match f
                        case New => Times(now, now)
                        case Resync => state[k].(fired := now)
                        case Quiet => state[k]];
    }
    assert actions[..|actions|] == actions;
  }

  ghost function Elements(keys: seq<Key>): set<Key> {
    set k | k in keys
  }

  // --- A run of bot-reconcile ----------------------------------------------------------

  /** The kinds of actions a run couldn't look for: a failed step's, or all a missing sweep's, besides OTHERS. */
  function Unread(sweep: Option<Sweep>, others: set<string>): (keep: set<Kind>)
    ensures DriveKind in keep <==> sweep.None? || sweep.value.driveFailed
    ensures HealthKind in keep <==> sweep.None? || sweep.value.healthFailed
    ensures ApprovalKind in keep <==> sweep.None?
    ensures forall o :: OtherKind(o) in keep <==> o in others
  {
    (set o | o in others :: OtherKind(o)) +
    (match sweep
     case None => {DriveKind, HealthKind, ApprovalKind}
     case Some(s) => (if s.driveFailed then {DriveKind} else {}) + (if s.healthFailed then {HealthKind} else {}))
  }

  /** The rules' actions, each key once. */
  method Once(keys: seq<Key>) returns (out: seq<Key>)
    ensures Elements(out) == Elements(keys) && forall i, j :: 0 <= i < j < |out| ==> out[i] != out[j]
  {
    out := [];
    for n := 0 to |keys|
      invariant Elements(out) == Elements(keys[..n]) && forall i, j :: 0 <= i < j < |out| ==> out[i] != out[j]
    {
      assert Elements(keys[..n + 1]) == Elements(keys[..n]) + {keys[n]};
      if keys[n] !in out {
        out := out + [keys[n]];
      }
    }
    assert keys[..|keys|] == keys;
  }

  /** What one run saw: the actions of its rules and the kinds it couldn't look for. */
  datatype Pass = Pass(actions: set<Key>, keep: set<Kind>, now: int)

  ghost function ActionsOf(sweep: Option<Sweep>, previous: set<Key>, others: set<Key>): iset<Key> {
    iset k | k in others || (sweep.Some? && IsAction(sweep.value, previous, k))
  }

  /** One run: its sweep, if it can be read, and the other rules' actions. */
  method Run(state: Memory, sweep: Option<Sweep>, others: seq<Key>, unread: set<string>, now: int, resync: int)
    returns (actions: seq<Key>, firings: seq<Firing>, next: Memory)
    ensures forall k :: k in actions <==> k in ActionsOf(sweep, state.Keys, Elements(others))
    ensures forall i, j :: 0 <= i < j < |actions| ==> actions[i] != actions[j]
    ensures |firings| == |actions| && forall i :: 0 <= i < |actions| ==>
                                        firings[i] == FiringOf(state, actions[i], now, resync)
    ensures next == NextState(state, Elements(actions), now, resync, Unread(sweep, unread))
  {
    hide IsAction, NextState, FiringOf;
    var found := [];
    if sweep.Some? {
      found := DriveRule(sweep.value, state.Keys);
    }
    actions := Once(others + found);
    forall k ensures k in actions <==> k in ActionsOf(sweep, state.Keys, Elements(others)) {
      assert k in actions <==> k in Elements(actions);
      assert k in Elements(others + found) <==> k in others || k in found;
    }
    firings, next := Trigger(state, actions, now, resync, Unread(sweep, unread));
  }

  // --- Over any runs ------------------------------------------------------------------------

  /** What one run reads: its sweep, the other rules' actions and the kinds they couldn't look for, and the time. */
  datatype Reads = Reads(sweep: Option<Sweep>, others: seq<Key>, unread: set<string>, now: int)
  /** The state a run starts from, and what it makes of it. */
  datatype Ran = Ran(state: Memory, actions: seq<Key>, firings: seq<Firing>)

  /** The run could not look for the action: the step of its rule failed, or an input of it can't be read. */
  ghost predicate NotLooked(x: Reads, k: Key) {
    match k
    case Drive(_, _, _) => x.sweep.None? || x.sweep.value.driveFailed
    case Health(_, _, _) => x.sweep.None? || x.sweep.value.healthFailed
    case Approval(_, _) => x.sweep.None?
    case OtherKey(kind, _) => kind in x.unread
  }

  /**
   A run: the actions it makes, each once; a new one fires, a known one
   RESYNC after it last did; the state after it is of what it made, and of
   what it knew and could not look for.
   */
  ghost predicate RunIs(x: Reads, r: Ran, next: Memory, resync: int) {
    && (forall k :: k in r.actions <==> k in ActionsOf(x.sweep, r.state.Keys, Elements(x.others)))
    && (forall i, j :: 0 <= i < j < |r.actions| ==> r.actions[i] != r.actions[j])
    && |r.firings| == |r.actions|
    && (forall i :: 0 <= i < |r.actions| ==>
          if r.actions[i] !in r.state then r.firings[i] == New
          else r.firings[i] == if x.now - r.state[r.actions[i]].fired >= resync then Resync else Quiet)
    && (forall k :: k in next <==> k in r.actions || (k in r.state && NotLooked(x, k)))
    && (forall k :: k in next && k !in r.actions ==> next[k] == r.state[k])
    && (forall k :: k in r.actions ==>
          next[k] == if k !in r.state then Times(x.now, x.now)
                     else if x.now - r.state[k].fired >= resync then r.state[k].(fired := x.now) else r.state[k])
  }

  lemma RunMeans(x: Reads, r: Ran, next: Memory, resync: int)
    requires forall k :: k in r.actions <==> k in ActionsOf(x.sweep, r.state.Keys, Elements(x.others))
    requires forall i, j :: 0 <= i < j < |r.actions| ==> r.actions[i] != r.actions[j]
    requires |r.firings| == |r.actions| && forall i :: 0 <= i < |r.actions| ==>
                                             r.firings[i] == FiringOf(r.state, r.actions[i], x.now, resync)
    requires next == NextState(r.state, Elements(r.actions), x.now, resync, Unread(x.sweep, x.unread))
    ensures RunIs(x, r, next, resync)
  {
    hide IsAction, ActionsOf, Unread;
    forall k ensures KindOf(k) in Unread(x.sweep, x.unread) <==> NotLooked(x, k) {
    }
  }

  /** One run after another. */
  ghost predicate Chain(xs: seq<Reads>, rs: seq<Ran>, final: Memory, resync: int) {
    |rs| == |xs| && forall i :: 0 <= i < |rs| ==> RunIs(xs[i], rs[i], StateAt(rs, final, i + 1), resync)
  }

  /** The state before run n, or after them all. */
  ghost function StateAt(rs: seq<Ran>, final: Memory, n: nat): Memory {
    if n < |rs| then rs[n].state else final
  }

  /** Any runs, each from the state the one before left. */
  method Runs(start: Memory, xs: seq<Reads>, resync: int) returns (ghost rs: seq<Ran>, final: Memory)
    ensures Chain(xs, rs, final, resync) && StateAt(rs, final, 0) == start
  {
    hide RunIs, ActionsOf, NextState, FiringOf, Unread;
    rs, final := [], start;
    for n := 0 to |xs|
      invariant Chain(xs[..n], rs, final, resync) && StateAt(rs, final, 0) == start
    {
      var x := xs[n];
      var actions, firings, next := Run(final, x.sweep, x.others, x.unread, x.now, resync);
      ghost var r := Ran(final, actions, firings);
      RunMeans(x, r, next, resync);
      NextRun(xs, n, rs, final, r, next, resync);
      rs, final := rs + [r], next;
    }
    assert xs[..|xs|] == xs;
  }

  lemma NextRun(xs: seq<Reads>, n: nat, rs: seq<Ran>, final: Memory, r: Ran, next: Memory, resync: int)
    requires n < |xs| && Chain(xs[..n], rs, final, resync) && r.state == final && RunIs(xs[n], r, next, resync)
    ensures Chain(xs[..n + 1], rs + [r], next, resync)
  {
    hide RunIs;
    var rs' := rs + [r];
    forall i | 0 <= i < |rs'| ensures RunIs(xs[..n + 1][i], rs'[i], StateAt(rs', next, i + 1), resync) {
      if i < n {
        assert RunIs(xs[..n][i], rs[i], StateAt(rs, final, i + 1), resync);
      }
    }
  }

  /** Run l makes the action or could not look for it. */
  ghost predicate HeldAt(xs: seq<Reads>, rs: seq<Ran>, l: nat, k: Key)
    requires l < |rs| == |xs|
  {
    k in rs[l].actions || NotLooked(xs[l], k)
  }

  /** So do runs a to n - 1. */
  ghost predicate HeldFrom(xs: seq<Reads>, rs: seq<Ran>, a: nat, n: nat, k: Key)
    requires a <= n <= |rs| == |xs|
  {
    forall l :: a <= l < n ==> HeldAt(xs, rs, l, k)
  }

  /** Run i made it, and it was held since. */
  ghost predicate MadeAt(xs: seq<Reads>, rs: seq<Ran>, i: int, n: nat, k: Key)
    requires n <= |rs| == |xs|
  {
    0 <= i < n && k in rs[i].actions && HeldFrom(xs, rs, i, n, k)
  }

  ghost predicate Made(xs: seq<Reads>, rs: seq<Ran>, n: nat, k: Key)
    requires n <= |rs| == |xs|
  {
    exists i :: MadeAt(xs, rs, i, n, k)
  }

  /**
   An action is known before run n exactly if some earlier run made it, or
   the first state knew it, and each since made it or could not look for it.
   */
  lemma {:induction false} KnownIff(xs: seq<Reads>, rs: seq<Ran>, final: Memory, resync: int, n: nat, k: Key)
    requires Chain(xs, rs, final, resync) && n <= |rs| == |xs|
    ensures k in StateAt(rs, final, n) <==>
            (k in StateAt(rs, final, 0) && HeldFrom(xs, rs, 0, n, k)) || Made(xs, rs, n, k)
  {
    hide RunIs, Chain, HeldAt, HeldFrom, Made;
    NoneMade(xs, rs, k);
    if n > 0 {
      var m := n - 1;
      KnownIff(xs, rs, final, resync, m, k);
      Step(xs, rs, final, resync, m, k);
      OneMoreHeld(xs, rs, 0, m, k);
      OneMoreMade(xs, rs, m, n, k);
    }
  }

  lemma NoneMade(xs: seq<Reads>, rs: seq<Ran>, k: Key)
    requires |rs| == |xs|
    ensures HeldFrom(xs, rs, 0, 0, k) && !Made(xs, rs, 0, k)
  {
  }

  lemma OneMoreMade(xs: seq<Reads>, rs: seq<Ran>, m: nat, n: nat, k: Key)
    requires m < |rs| == |xs| && n == m + 1
    ensures Made(xs, rs, n, k) <==> k in rs[m].actions || (HeldAt(xs, rs, m, k) && Made(xs, rs, m, k))
  {
    hide HeldAt, HeldFrom;
    OneMoreHeld(xs, rs, m, m, k);
    if k in rs[m].actions {
      assert MadeAt(xs, rs, m, n, k);
    }
    if i :| MadeAt(xs, rs, i, m, k) {
      OneMoreHeld(xs, rs, i, m, k);
      assert HeldAt(xs, rs, m, k) ==> MadeAt(xs, rs, i, n, k);
    }
    if i :| MadeAt(xs, rs, i, n, k) && i < m {
      OneMoreHeld(xs, rs, i, m, k);
      assert MadeAt(xs, rs, i, m, k);
    }
  }

  lemma OneMoreHeld(xs: seq<Reads>, rs: seq<Ran>, a: nat, m: nat, k: Key)
    requires a <= m < |rs| == |xs|
    ensures HeldFrom(xs, rs, a, m + 1, k) <==> HeldFrom(xs, rs, a, m, k) && HeldAt(xs, rs, m, k)
    ensures HeldFrom(xs, rs, m, m, k) && (k in rs[m].actions ==> HeldAt(xs, rs, m, k))
  {
    hide NotLooked;
  }

  lemma Step(xs: seq<Reads>, rs: seq<Ran>, final: Memory, resync: int, m: nat, k: Key)
    requires Chain(xs, rs, final, resync) && m < |rs|
    ensures k in StateAt(rs, final, m + 1) <==>
            k in rs[m].actions || (k in StateAt(rs, final, m) && HeldAt(xs, rs, m, k))
  {
    assert RunIs(xs[m], rs[m], StateAt(rs, final, m + 1), resync);
    hide NotLooked;
  }

  /**
   So an action known before run a, which each run since made or could not
   look for, is still known, and does not fire as new when a run makes it
   again; and if none made it, all that is known of it is as it was.
   */
  lemma {:induction false} StillKnown(xs: seq<Reads>, rs: seq<Ran>, final: Memory, resync: int, a: nat, n: nat, k: Key)
    requires Chain(xs, rs, final, resync) && a <= n <= |rs| == |xs| && k in StateAt(rs, final, a)
    requires HeldFrom(xs, rs, a, n, k)
    ensures k in StateAt(rs, final, n)
    ensures n < |rs| ==> forall i :: 0 <= i < |rs[n].actions| && rs[n].actions[i] == k ==>
                           |rs[n].firings| == |rs[n].actions| && rs[n].firings[i] != New
    ensures (forall l :: a <= l < n ==> k !in rs[l].actions) ==> StateAt(rs, final, n)[k] == StateAt(rs, final, a)[k]
  {
    hide RunIs, Chain, HeldAt, NotLooked;
    if a < n {
      StillKnown(xs, rs, final, resync, a, n - 1, k);
      RunAt(xs, rs, final, resync, n - 1, k);
      assert HeldAt(xs, rs, n - 1, k);
    }
    if n < |rs| {
      RunAt(xs, rs, final, resync, n, k);
    }
  }

  /** One run and one action. */
  lemma {:induction false} RunAt(xs: seq<Reads>, rs: seq<Ran>, final: Memory, resync: int, m: nat, k: Key)
    requires Chain(xs, rs, final, resync) && m < |rs| == |xs|
    ensures |rs[m].firings| == |rs[m].actions| && StateAt(rs, final, m) == rs[m].state
    ensures var next := StateAt(rs, final, m + 1);
            && (k in next <==> k in rs[m].actions || (k in rs[m].state && HeldAt(xs, rs, m, k)))
            && (k in next && k !in rs[m].actions ==> k in rs[m].state && next[k] == rs[m].state[k])
    ensures k in rs[m].state ==>
              forall i :: 0 <= i < |rs[m].actions| && rs[m].actions[i] == k ==> rs[m].firings[i] != New
  {
    hide NotLooked, ActionsOf;
    assert RunIs(xs[m], rs[m], StateAt(rs, final, m + 1), resync);
  }

  // --- Over any run of passes --------------------------------------------------------------

  ghost function StateAfter(ps: seq<Pass>, resync: int): Memory {
    if ps == [] then map[]
    else
      var p := ps[|ps| - 1];
      NextState(StateAfter(ps[..|ps| - 1], resync), p.actions, p.now, resync, p.keep)
  }

  /** Present in the pass, or of a kind it couldn't look for. */
  predicate Held(p: Pass, k: Key) {
    k in p.actions || KindOf(k) in p.keep
  }

  ghost function FiresAt(ps: seq<Pass>, i: nat, k: Key, resync: int): Firing
    requires i < |ps|
  {
    if k in ps[i].actions then FiringOf(StateAfter(ps[..i], resync), k, ps[i].now, resync) else Quiet
  }

  /** Of passes a to n - 1, l is the last that fired the action. */
  ghost predicate LastFired(ps: seq<Pass>, a: nat, n: nat, l: int, k: Key, resync: int)
    requires n <= |ps|
  {
    a <= l < n && FiresAt(ps, l, k, resync) != Quiet && forall i :: l < i < n ==> FiresAt(ps, i, k, resync) == Quiet
  }

  /** Gone at pass a: the state doesn't know the key. A pass that doesn't hold it makes it so. */
  ghost predicate Unknown(ps: seq<Pass>, a: nat, k: Key, resync: int)
    requires a <= |ps|
  {
    k !in StateAfter(ps[..a], resync)
  }

  lemma Forgets(ps: seq<Pass>, a: nat, k: Key, resync: int)
    requires a < |ps|
    ensures !Held(ps[a], k) ==> Unknown(ps, a + 1, k, resync)
    ensures Unknown(ps, 0, k, resync)
  {
    assert ps[..a + 1][..a] == ps[..a];
  }

  lemma OnePass(state: Memory, p: Pass, k: Key, resync: int)
    requires Held(p, k)
    ensures var next := NextState(state, p.actions, p.now, resync, p.keep);
            && (k in next <==> k in state || k in p.actions)
            && (k in p.actions ==> next[k].fired == if FiringOf(state, k, p.now, resync) == Quiet then state[k].fired
                                                    else p.now)
            && (k in p.actions && k !in state ==> FiringOf(state, k, p.now, resync) == New)
            && (k !in p.actions && k in state ==> next[k] == state[k])
  {
  }

  /** While a key is held, the state holds it with the time it last fired, or it never fired. */
  lemma {:induction false} Remembers(ps: seq<Pass>, a: nat, n: nat, k: Key, resync: int) returns (l: int)
    requires a <= n <= |ps| && Unknown(ps, a, k, resync) && forall i :: a <= i < n ==> Held(ps[i], k)
    ensures k in StateAfter(ps[..n], resync) ==>
              LastFired(ps, a, n, l, k, resync) && StateAfter(ps[..n], resync)[k].fired == ps[l].now
    ensures k !in StateAfter(ps[..n], resync) ==> forall i :: a <= i < n ==>
                                                    k !in ps[i].actions && FiresAt(ps, i, k, resync) == Quiet
  {
    hide NextState, FiringOf;
    l := 0;
    if n > a {
      l := Remembers(ps, a, n - 1, k, resync);
      assert ps[..n][..n - 1] == ps[..n - 1];
      OnePass(StateAfter(ps[..n - 1], resync), ps[n - 1], k, resync);
      if k in ps[n - 1].actions && FiresAt(ps, n - 1, k, resync) != Quiet {
        l := n - 1;
      }
    }
  }

  /**
   An action unknown at pass a and held since fires once as new, when it
   first appears, and then exactly when it is present and its last firing
   is RESYNC or more ago.
   */
  lemma FiresInTime(ps: seq<Pass>, a: nat, n: nat, k: Key, resync: int)
    requires a <= n < |ps| && Unknown(ps, a, k, resync) && k in ps[n].actions
             && forall i :: a <= i < n ==> Held(ps[i], k)
    ensures FiresAt(ps, n, k, resync) == New <==> forall i :: a <= i < n ==> k !in ps[i].actions
    ensures FiresAt(ps, n, k, resync) == New <==> forall i :: a <= i < n ==> FiresAt(ps, i, k, resync) == Quiet
    ensures forall l :: LastFired(ps, a, n, l, k, resync) ==>
              FiresAt(ps, n, k, resync) == if ps[n].now - ps[l].now >= resync then Resync else Quiet
  {
    var l := Remembers(ps, a, n, k, resync);
    if k in StateAfter(ps[..n], resync) {
      assert k in ps[l].actions && FiresAt(ps, l, k, resync) != Quiet;
      forall m | LastFired(ps, a, n, m, k, resync) ensures m == l {
      }
    }
  }

  // --- Through a failing step -----------------------------------------------------------

  /** A sweep of the same lines, but that a failed step's section holds only some of them, or no sweep. */
  ghost predicate SameLines(s: Sweep, t: Option<Sweep>) {
    t.Some? ==>
      && (if t.value.driveFailed then forall l :: l in t.value.drive ==> l in s.drive else t.value.drive == s.drive)
      && (if t.value.healthFailed then forall l :: l in t.value.health ==>
                                         l in s.health else t.value.health == s.health)
  }

  ghost predicate IsP0(k: Key) {
    k.Drive? || k.Health?
  }

  /** One pass over a sweep, and other rules' actions of other kinds. */
  ghost predicate PassOf(state: Memory, p: Pass, t: Option<Sweep>) {
    && (forall k :: IsP0(k) ==> (k in p.actions <==> t.Some? && IsAction(t.value, state.Keys, k)))
    && (DriveKind in p.keep <==> t.None? || t.value.driveFailed)
    && (HealthKind in p.keep <==> t.None? || t.value.healthFailed)
  }

  /** Each run is such a pass: the other rules make no P0 actions. */
  lemma RunIsPass(state: Memory, sweep: Option<Sweep>, others: set<Key>, unread: set<string>, actions: set<Key>,
                  now: int)
    requires forall k :: k in others ==> !IsP0(k)
    requires forall k :: k in actions <==> k in ActionsOf(sweep, state.Keys, others)
    ensures PassOf(state, Pass(actions, Unread(sweep, unread), now), sweep)
  {
    hide IsAction;
  }

  /** S's P0 actions are known, and the known drive actions are S's lines'. */
  ghost predicate KeepsP0(state: Memory, s: Sweep) {
    && (forall k :: IsP0(k) && IsAction(s, {}, k) ==> k in state)
    && (forall k: Key :: k.Drive? && k in state ==> Listed(s, k))
  }

  ghost predicate Whole(s: Sweep) {
    !s.driveFailed && !s.healthFailed
  }

  lemma WholePass(state: Memory, p: Pass, s: Sweep, resync: int)
    requires Whole(s) && PassOf(state, p, Some(s))
    ensures KeepsP0(NextState(state, p.actions, p.now, resync, p.keep), s)
  {
  }

  lemma FailingPass(state: Memory, p: Pass, s: Sweep, t: Option<Sweep>, resync: int)
    requires Whole(s) && KeepsP0(state, s) && SameLines(s, t) && PassOf(state, p, t)
    ensures KeepsP0(NextState(state, p.actions, p.now, resync, p.keep), s)
  {
    var next := NextState(state, p.actions, p.now, resync, p.keep);
    forall k | IsP0(k) && IsAction(s, {}, k) ensures k in next {
      if t.Some? && !Held(p, k) {
        StillAction(state, s, t.value, k);
      }
    }
    forall k: Key | k.Drive? && k in next ensures Listed(s, k) {
      if k in p.actions && Listed(t.value, k) {
        var i :| 0 <= i < |t.value.drive| && t.value.drive[i] == DriveLine(k.reason, k.url, k.head, false);
        assert t.value.drive[i] in s.drive;
      }
    }
  }

  /** What covers a PR in such a sweep covers it in the whole one. */
  lemma CoveredBefore(state: Memory, s: Sweep, t: Sweep, url: string, head: string)
    requires KeepsP0(state, s) && SameLines(s, Some(t)) && Covered(t, state.Keys, url, head)
    ensures Covered(s, {}, url, head)
  {
    if i :| 0 <= i < |t.drive| && t.drive[i].url == url && t.drive[i].head == head {
      assert t.drive[i] in s.drive;
    } else {
      var d :| d in state.Keys && d.Drive? && d.url == url && d.head == head;
      assert Listed(s, d);
    }
  }

  /** An action of the whole sweep whose own step works is still made. */
  lemma StillAction(state: Memory, s: Sweep, t: Sweep, k: Key)
    requires Whole(s) && KeepsP0(state, s) && SameLines(s, Some(t)) && IsP0(k) && IsAction(s, {}, k)
    requires if k.Drive? then !t.driveFailed else !t.healthFailed
    ensures IsAction(t, state.Keys, k)
  {
    if Covered(t, state.Keys, k.url, k.head) {
      CoveredBefore(state, s, t, k.url, k.head);
    }
  }

  /** A run of passes over sweeps, from a state. */
  ghost predicate RunOf(state: Memory, ps: seq<Pass>, ts: seq<Option<Sweep>>, resync: int) {
    |ps| == |ts| && forall i :: 0 <= i < |ps| ==> PassOf(From(state, ps[..i], resync), ps[i], ts[i])
  }

  ghost function From(state: Memory, ps: seq<Pass>, resync: int): Memory {
    if ps == [] then state
    else
      var p := ps[|ps| - 1];
      NextState(From(state, ps[..|ps| - 1], resync), p.actions, p.now, resync, p.keep)
  }

  lemma {:induction false} Keeps(state: Memory, ps: seq<Pass>, ts: seq<Option<Sweep>>, s: Sweep, n: nat, resync: int)
    requires RunOf(state, ps, ts, resync) && 0 < n <= |ps| && Whole(s) && ts[0] == Some(s)
    requires forall i :: 0 < i < n ==> SameLines(s, ts[i])
    ensures KeepsP0(From(state, ps[..n], resync), s)
  {
    assert ps[..n][..n - 1] == ps[..n - 1];
    hide KeepsP0, PassOf, SameLines;
    if n == 1 {
      WholePass(From(state, ps[..0], resync), ps[0], s, resync);
    } else {
      Keeps(state, ps, ts, s, n - 1, resync);
      FailingPass(From(state, ps[..n - 1], resync), ps[n - 1], s, ts[n - 1], resync);
    }
  }

  /**
   After a whole sweep, its drive or its health step may fail, or both, or
   the sweep be unreadable, for any number of passes: the first whole sweep
   with the same lines makes the same P0 actions, and none fires as new.
   */
  lemma {:induction false} RecoversQuietly(state: Memory, ps: seq<Pass>, ts: seq<Option<Sweep>>, s: Sweep, k: Key,
                                           resync: int)
    requires RunOf(state, ps, ts, resync) && |ps| > 1 && Whole(s) && ts[0] == Some(s) && ts[|ts| - 1] == Some(s)
    requires forall i :: 0 < i < |ts| ==> SameLines(s, ts[i])
    requires IsP0(k) && k in ps[|ps| - 1].actions
    ensures k in ps[0].actions && FiringOf(From(state, ps[..|ps| - 1], resync), k, ps[|ps| - 1].now, resync) != New
  {
    var n := |ps| - 1;
    Keeps(state, ps, ts, s, n, resync);
    assert PassOf(From(state, ps[..n], resync), ps[n], ts[n]);
    assert PassOf(From(state, ps[..0], resync), ps[0], ts[0]);
  }

  /**
   Meanwhile a health action can fire as new: a drive failure carries over
   its actions only, so a PR whose drive only waits is covered no more.
   Exactly the unknown keys of such PRs fire, whether the health step works
   or fails too and still lists them.
   */
  lemma UncoveredFires(state: Memory, p: Pass, s: Sweep, t: Sweep, k: Key, resync: int)
    requires Whole(s) && KeepsP0(state, s) && SameLines(s, Some(t)) && PassOf(state, p, Some(t)) && t.driveFailed
             && k.Health?
    ensures k in p.actions && FiringOf(state, k, p.now, resync) == New <==>
            && k !in state && Listed(t, k)
            && (forall i :: 0 <= i < |s.drive| && s.drive[i].url == k.url && s.drive[i].head == k.head ==>
                  Waits(s.drive[i]))
            && (forall i :: 0 <= i < |t.drive| ==> t.drive[i].url != k.url || t.drive[i].head != k.head)
  {
    if i :| 0 <= i < |s.drive| && s.drive[i].url == k.url && s.drive[i].head == k.head && !Waits(s.drive[i]) {
      var d := Drive(s.drive[i].reason, k.url, k.head);
      assert Listed(s, d) && IsAction(s, {}, d);
      assert d in state.Keys;
      assert Covered(t, state.Keys, k.url, k.head);
    }
  }

  /** A PR whose drive waits for its checks, and whose health asks for a rebase: quiet, until the drive step fails. */
  method FiresMeanwhile() returns (k: Key, before: seq<Key>, meanwhile: seq<Key>, firings: seq<Firing>, after: seq<Key>)
    ensures before == [] && meanwhile == [k] && firings == [New] && after == []
  {
    hide IsAction, NextState;
    k := Health("rebase", "pr", "head");
    var line := HealthLine("rebase", "pr", "head", false);
    var whole := Sweep([DriveLine("ci-pending", "pr", "head", false)], [line], [], false, false);
    var failed := Sweep([], [line], [], true, false);
    var state, quiet := map[], [];
    assert state.Keys == {};
    before, quiet, state := Run(state, Some(whole), [], {}, 0, 100);
    CoveredWhole(whole, {});
    OnlyKeys(before, {});
    NothingHeld(Unread(Some(whole), {}));
    assert state.Keys == {};
    meanwhile, firings, state := Run(state, Some(failed), [], {}, 1, 100);
    UncoveredThen(failed, k);
    OnlyKeys(meanwhile, {k});
    CoveredWhole(whole, state.Keys);
    after, quiet, state := Run(state, Some(whole), [], {}, 2, 100);
    OnlyKeys(after, {});
  }

  lemma CoveredWhole(s: Sweep, previous: set<Key>)
    requires s == Sweep([DriveLine("ci-pending", "pr", "head", false)], [HealthLine("rebase", "pr", "head", false)],
                        [], false, false)
    ensures forall k :: !IsAction(s, previous, k)
  {
    assert s.drive[0].url == "pr" && s.drive[0].head == "head";
  }

  lemma UncoveredThen(s: Sweep, k: Key)
    requires s == Sweep([], [HealthLine("rebase", "pr", "head", false)], [], true, false)
             && k == Health("rebase", "pr", "head")
    ensures forall x :: IsAction(s, {}, x) <==> x == k
  {
    assert s.health[0] == HealthLine("rebase", "pr", "head", false);
  }

  lemma NothingHeld(keep: set<Kind>)
    ensures NextState(map[], Elements([]), 0, 100, keep) == map[]
  {
  }

  lemma OnlyKeys(keys: seq<Key>, only: set<Key>)
    requires (forall k :: k in keys <==> k in only) && forall i, j :: 0 <= i < j < |keys| ==> keys[i] != keys[j]
    ensures only == {} ==> keys == []
    ensures forall k :: only == {k} ==> keys == [k]
  {
    if keys != [] {
      assert keys[0] in only;
      if |keys| > 1 {
        assert keys[1] in only;
      }
    }
  }
}

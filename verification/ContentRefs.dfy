/**
 References to issues and pull requests: the parser of their URLs
 (crates/sched/src/forge/github.rs), the identity the JavaScript rules use
 (lib/capacity.js, normalizeItem), and what is emitted of them
 (crates/sched/src/forge/github/emit.rs).
 */
module ContentRefs {
  import opened Options

  const WEB: string := "https://github.com/"
  /** Numbers are of 64 bits. */
  const NUMBERS: nat := 0x1_0000_0000_0000_0000

  datatype Kind = Issue | PullRequest
  datatype ContentRef = ContentRef(url: string, repo: string, kind: Kind, number: nat)

  // --- Texts ---------------------------------------------------------------------

  /** Whose trimming: a sentence's closing marks, or the spaces of either language. */
  datatype Marks = Tail | Rust | JavaScript

  predicate IsSpace(c: char) {
    || c in "\t\n\U{0B}\U{0C}\r \U{A0}\U{1680}\U{2028}\U{2029}\U{202F}\U{205F}\U{3000}"
    || '\U{2000}' <= c <= '\U{200A}'
  }

  /** The two languages' spaces differ by the next-line character and the byte order mark. */
  predicate Drops(m: Marks, c: char) {
    match m
    case Tail => c in ")>].,;"
    case Rust => IsSpace(c) || c == '\U{85}'
    case JavaScript => IsSpace(c) || c == '\U{FEFF}'
  }

  function TrimStart(s: string, m: Marks): string {
    if s != "" && Drops(m, s[0]) then TrimStart(s[1..], m) else s
  }

  function TrimEnd(s: string, m: Marks): (r: string)
    ensures r <= s
  {
    if s != "" && Drops(m, s[|s| - 1]) then TrimEnd(s[..|s| - 1], m) else s
  }

  function Trim(s: string, m: Marks): string {
    TrimEnd(TrimStart(s, m), m)
  }

  predicate IsDigit(c: char) {
    '0' <= c <= '9'
  }

  predicate IsNameChar(c: char) {
    'a' <= c <= 'z' || 'A' <= c <= 'Z' || IsDigit(c) || c == '_' || c == '.' || c == '-'
  }

  predicate AllNameChars(s: string) {
    forall c :: c in s ==> IsNameChar(c)
  }

  /** A name goes into a REST path: it is not `.` or `..`. */
  predicate IsName(s: string) {
    s != "" && s != "." && s != ".." && AllNameChars(s)
  }

  /** The text up to the first slash, and what comes after it. */
  function Cut(s: string): Option<(string, string)> {
    if s == "" then None
    else if s[0] == '/' then Some(("", s[1..]))
    else match Cut(s[1..])
      case None => None
      case Some((a, b)) => Some(([s[0]] + a, b))
  }

  /** The digits a text starts with. */
  function Digits(s: string): (d: string)
    ensures d <= s && forall c :: c in d ==> IsDigit(c)
    ensures |d| < |s| ==> !IsDigit(s[|d|])
  {
    if s == "" || !IsDigit(s[0]) then "" else [s[0]] + Digits(s[1..])
  }

  function Value(d: string): nat
    requires forall c :: c in d ==> IsDigit(c)
  {
    if d == "" then 0
    else
      assert IsDigit(d[|d| - 1]);
      10 * Value(d[..|d| - 1]) + (d[|d| - 1] - '0') as nat
  }

  function Decimal(n: nat): (d: string)
    ensures d != "" && forall c :: c in d ==> IsDigit(c)
    ensures Value(d) == n
  {
    if n < 10 then
      [n as char + '0']
    else
      var rest := Decimal(n / 10);
      var d := rest + [(n % 10) as char + '0'];
      assert d[..|d| - 1] == rest;
      d
  }

  // --- The parser -------------------------------------------------------------------

  datatype Parts = Parts(owner: string, repo: string, segment: string, rest: string)

  /** The four parts of a URL after github.com. */
  function Split(s: string): Option<Parts> {
    if !(WEB <= s) then None
    else match Cut(s[|WEB|..])
      case None => None
      case Some((owner, s1)) =>
        match Cut(s1)
        case None => None
        case Some((repo, s2)) =>
          match Cut(s2)
          case None => None
          case Some((segment, rest)) => Some(Parts(owner, repo, segment, rest))
  }

  function KindOf(segment: string): Option<Kind> {
    if segment == "issues" then Some(Issue) else if segment == "pull" then Some(PullRequest) else None
  }

  function UrlOf(owner: string, repo: string, segment: string, number: string): string {
    WEB + owner + "/" + repo + "/" + segment + "/" + number
  }

  function Parse(s: string): Option<ContentRef> {
    ParseTrimmed(Trim(s, Rust))
  }

  function ParseTrimmed(t: string): Option<ContentRef> {
    match Split(t)
    case None => None
    case Some(p) =>
      var d := Digits(p.rest);
      if KindOf(p.segment).None? || d == "" || Value(d) >= NUMBERS || !IsName(p.owner) || !IsName(p.repo) then None
      else Some(ContentRef(UrlOf(p.owner, p.repo, p.segment, Decimal(Value(d))), p.owner + "/" + p.repo,
                           KindOf(p.segment).value, Value(d)))
  }

  // --- Its output is its own fixed point ------------------------------------------------

  lemma {:induction false} CutAt(a: string, b: string)
    requires '/' !in a
    ensures Cut(a + "/" + b) == Some((a, b))
  {
    if a == "" {
      assert a + "/" + b == "/" + b;
    } else {
      CutAt(a[1..], b);
      var s := a + "/" + b;
      assert s[1..] == a[1..] + "/" + b && s[0] == a[0] && [a[0]] + a[1..] == a;
    }
  }

  lemma SplitUrl(owner: string, repo: string, segment: string, rest: string)
    requires '/' !in owner && '/' !in repo && '/' !in segment
    ensures Split(UrlOf(owner, repo, segment, rest)) == Some(Parts(owner, repo, segment, rest))
  {
    var s := UrlOf(owner, repo, segment, rest);
    assert s[|WEB|..] == owner + "/" + (repo + "/" + (segment + "/" + rest));
    CutAt(owner, repo + "/" + (segment + "/" + rest));
    CutAt(repo, segment + "/" + rest);
    CutAt(segment, rest);
  }

  lemma {:induction false} Trimmed(s: string, m: Marks)
    requires s != "" && !Drops(m, s[0]) && !Drops(m, s[|s| - 1])
    ensures Trim(s, m) == s && TrimStart(s, m) == s && TrimEnd(s, m) == s
  {
  }

  lemma {:induction false} AllDigits(d: string, rest: string)
    requires (forall c :: c in d ==> IsDigit(c)) && (rest == "" || !IsDigit(rest[0]))
    ensures Digits(d + rest) == d
  {
    if d == "" {
      assert d + rest == rest;
    } else {
      AllDigits(d[1..], rest);
      assert (d + rest)[1..] == d[1..] + rest;
    }
  }

  lemma NoSlash(s: string)
    requires AllNameChars(s)
    ensures '/' !in s
  {
  }

  lemma KindSegments(segment: string)
    requires KindOf(segment).Some?
    ensures '/' !in segment
  {
    assert "issues" == ['i', 's', 's', 'u', 'e', 's'] && "pull" == ['p', 'u', 'l', 'l'];
  }

  /** Parsing what a URL of these parts reads as, whatever follows its number. */
  lemma {:induction false} ParseUrl(owner: string, repo: string, segment: string, n: nat)
    requires IsName(owner) && IsName(repo) && KindOf(segment).Some? && n < NUMBERS
    ensures var url := UrlOf(owner, repo, segment, Decimal(n));
            Parse(url) == Some(ContentRef(url, owner + "/" + repo, KindOf(segment).value, n))
  {
    hide Digits, Trim, TrimStart, TrimEnd, Split, UrlOf, KindOf;
    var d := Decimal(n);
    PlainSplit(owner, repo, segment, d);
  }

  /** A URL of names reads as its parts, and nothing is trimmed from it. */
  lemma {:induction false} PlainSplit(owner: string, repo: string, segment: string, d: string)
    requires AllNameChars(owner) && AllNameChars(repo) && KindOf(segment).Some? && d != ""
             && forall c :: c in d ==> IsDigit(c)
    ensures var url := UrlOf(owner, repo, segment, d);
            && Split(url) == Some(Parts(owner, repo, segment, d)) && Digits(d) == d
            && url != "" && url[0] == 'h' && forall m :: Trim(url, m) == url && TrimStart(url, m) == url
                                                         && TrimEnd(url, m) == url
  {
    hide Digits, Split, Cut;
    var url := UrlOf(owner, repo, segment, d);
    NoSlash(owner);
    NoSlash(repo);
    KindSegments(segment);
    SplitUrl(owner, repo, segment, d);
    AllDigits(d, "");
    assert d + "" == d;
    assert url[0] == 'h' && url[|url| - 1] == d[|d| - 1] && d[|d| - 1] in d;
    forall m ensures Trim(url, m) == url && TrimStart(url, m) == url && TrimEnd(url, m) == url {
      Trimmed(url, m);
    }
  }

  /** Every reference re-parses to itself. */
  lemma Fixed(s: string)
    requires Parse(s).Some?
    ensures Parse(Parse(s).value.url) == Parse(s)
  {
    hide Decimal, Digits, Trim, Split, UrlOf, KindOf, IsName;
    var p := Split(Trim(s, Rust)).value;
    ParseUrl(p.owner, p.repo, p.segment, Value(Digits(p.rest)));
  }

  // --- What is emitted --------------------------------------------------------------------

  predicate IsOurs(content: ContentRef) {
    Parse(content.url) == Some(content)
  }

  datatype Write = SetFields(fields: map<string, string>) | ClearField(field: string)
  datatype Action = Action(key: string, content: Option<ContentRef>, write: Option<Write>)
  datatype SafeOutput = UpdateProject(project: string, kind: Kind, number: nat, repo: string,
                                      fields: map<string, string>)
  datatype Reason = NoBoard | NotOurs | NoDraft | NoClear

  /** An action's safe output, or why it has none; neither without a write. */
  function OutputOf(a: Action, board: string): (Option<SafeOutput>, Option<Reason>) {
    if a.write.None? then (None, None)
    else if !(WEB <= board) then (None, Some(NoBoard))
    else match a.write.value
      case ClearField(_) => (None, Some(NoClear))
      case SetFields(fields) =>
        if a.content.None? then (None, Some(NoDraft))
        else if !IsOurs(a.content.value) then (None, Some(NotOurs))
        else (Some(UpdateProject(board, a.content.value.kind, a.content.value.number, a.content.value.repo, fields)),
              None)
  }

  method Emit(actions: seq<Action>, board: string) returns (items: seq<SafeOutput>, unsupported: seq<(string, Reason)>)
    ensures items == Outputs(actions, board) && unsupported == Refused(actions, board)
  {
    items, unsupported := [], [];
    for n := 0 to |actions|
      invariant items == Outputs(actions[..n], board) && unsupported == Refused(actions[..n], board)
    {
      assert actions[..n + 1][..n] == actions[..n];
      var a := actions[n];
      if a.write.Some? {
        if !(WEB <= board) {
          unsupported := unsupported + [(a.key, NoBoard)];
        } else if a.write.value.ClearField? {
          unsupported := unsupported + [(a.key, NoClear)];
        } else if a.content.None? {
          unsupported := unsupported + [(a.key, NoDraft)];
        } else if !IsOurs(a.content.value) {
          unsupported := unsupported + [(a.key, NotOurs)];
        } else {
          var c := a.content.value;
          items := items + [UpdateProject(board, c.kind, c.number, c.repo, a.write.value.fields)];
        }
      }
    }
    assert actions[..|actions|] == actions;
  }

  function Outputs(actions: seq<Action>, board: string): seq<SafeOutput> {
    if actions == [] then []
    else
      var o := OutputOf(actions[|actions| - 1], board).0;
      Outputs(actions[..|actions| - 1], board) + if o.Some? then [o.value] else []
  }

  function Refused(actions: seq<Action>, board: string): seq<(string, Reason)> {
    if actions == [] then []
    else
      var r := OutputOf(actions[|actions| - 1], board).1;
      Refused(actions[..|actions| - 1], board) + if r.Some? then [(actions[|actions| - 1].key, r.value)] else []
  }

  ghost predicate Observed(content: ContentRef) {
    exists s :: Parse(s) == Some(content)
  }

  /** Each write is emitted or refused, and one of an observed reference is never refused as not GitHub's. */
  lemma {:induction false} NeverNotOurs(actions: seq<Action>, board: string)
    requires forall a :: a in actions && a.content.Some? ==> Observed(a.content.value)
    ensures forall r :: r in Refused(actions, board) ==> r.1 != NotOurs
    ensures |Outputs(actions, board)| + |Refused(actions, board)| == |Writes(actions)|
  {
    if actions != [] {
      var n := |actions| - 1;
      var a := actions[n];
      assert a in actions;
      hide OutputOf, Observed;
      NeverNotOurs(actions[..n], board);
      OneOutput(a, board);
    }
  }

  lemma OneOutput(a: Action, board: string)
    requires a.content.Some? ==> Observed(a.content.value)
    ensures var (o, r) := OutputOf(a, board);
            r != Some(NotOurs) && (if a.write.None? then o.None? && r.None? else o.Some? != r.Some?)
  {
    hide Parse;
    if a.content.Some? {
      var s :| Parse(s) == Some(a.content.value);
      Fixed(s);
    }
  }

  function Writes(actions: seq<Action>): seq<Action> {
    if actions == [] then []
    else Writes(actions[..|actions| - 1]) + if actions[|actions| - 1].write.Some? then [actions[|actions| - 1]] else []
  }

  // --- The identity of the JavaScript rules ----------------------------------------------------

  function LowerChar(c: char): char {
    if 'A' <= c <= 'Z' then ((c - 'A') as int + 'a' as int) as char else c
  }

  function Lower(s: string): (r: string)
    ensures |r| == |s|
  {
    if s == "" then "" else Lower(s[..|s| - 1]) + [LowerChar(s[|s| - 1])]
  }

  /** A reference's identity. */
  function Key(content: ContentRef): string {
    Lower(content.url)
  }

  predicate IsBoardId(s: string) {
    "PVTI_" < s && forall c :: c in s[5..] ==> IsNameChar(c) && c != '.'
  }

  /** A URL's identity for the JavaScript rules. */
  function UrlKey(s: string): Option<string> {
    match Split(s)
    case None => None
    case Some(p) =>
      var d := Digits(p.rest);
      if KindOf(p.segment).None? || d == "" || p.owner == "" || p.repo == "" || !AllNameChars(p.owner)
      || !AllNameChars(p.repo) then None
      else Some(Lower(UrlOf(p.owner, p.repo, p.segment, d)))
  }

  function Normalize(s: string): Option<string> {
    var t := TrimEnd(Trim(s, JavaScript), Tail);
    if IsBoardId(t) then Some(t) else UrlKey(t)
  }

  /**
   The texts that only one of the two takes, or that they name differently:
   a board id; a URL with a name of dots, or with a number too large or
   with zeros before it; and a URL after a space of one of the languages.
   */
  predicate Differs(s: string) {
    var r, j := TrimStart(s, Rust), TrimStart(s, JavaScript);
    || IsBoardId(TrimEnd(Trim(s, JavaScript), Tail))
    || (r != j && (ParseTrimmed(r).Some? || UrlKey(j).Some?))
    || (r == j && UrlKey(j).Some? && var p := Split(j).value; var d := Digits(p.rest);
        !IsName(p.owner) || !IsName(p.repo) || Value(d) >= NUMBERS || d != Decimal(Value(d)))
  }

  lemma {:induction false} LowerAppend(a: string, b: string)
    ensures Lower(a + b) == Lower(a) + Lower(b)
  {
    if b == "" {
      assert a + b == a;
    } else {
      LowerAppend(a, b[..|b| - 1]);
      assert (a + b)[..|a + b| - 1] == a + b[..|b| - 1];
    }
  }

  lemma {:induction false} LowerDigits(d: string)
    requires forall c :: c in d ==> IsDigit(c)
    ensures Lower(d) == d
  {
    if d != "" {
      LowerDigits(d[..|d| - 1]);
      assert d[|d| - 1] in d;
    }
  }

  lemma {:induction false} TrimEndAfter(a: string, b: string, m: Marks)
    requires a != "" && !Drops(m, a[|a| - 1])
    ensures TrimEnd(a + b, m) == a + TrimEnd(b, m)
  {
    if b == "" {
      assert a + b == a;
    } else if Drops(m, b[|b| - 1]) {
      TrimEndAfter(a, b[..|b| - 1], m);
      assert (a + b)[..|a + b| - 1] == a + b[..|b| - 1];
    }
  }

  lemma {:induction false} CutParts(s: string)
    requires Cut(s).Some?
    ensures var (a, b) := Cut(s).value; s == a + "/" + b && '/' !in a
  {
    if s[0] != '/' {
      CutParts(s[1..]);
      assert s == [s[0]] + s[1..];
    }
  }

  lemma Joined(p: Parts, s0: string, s1: string, s2: string)
    requires s0 == p.owner + "/" + s1 && s1 == p.repo + "/" + s2 && s2 == p.segment + "/" + p.rest
    ensures WEB + s0 == UrlOf(p.owner, p.repo, p.segment, p.rest)
  {
  }

  /** A split URL is its parts again. */
  lemma SplitParts(s: string)
    requires Split(s).Some?
    ensures var p := Split(s).value; s == UrlOf(p.owner, p.repo, p.segment, p.rest) && '/' !in p.owner
                                     && '/' !in p.repo && '/' !in p.segment
  {
    var s0 := s[|WEB|..];
    var s1 := Cut(s0).value.1;
    var s2 := Cut(s1).value.1;
    CutParts(s0);
    CutParts(s1);
    CutParts(s2);
    hide Cut;
    var p := Split(s).value;
    assert s == WEB + s0;
    assert s0 == p.owner + "/" + s1 && s1 == p.repo + "/" + s2 && s2 == p.segment + "/" + p.rest;
    Joined(p, s0, s1, s2);
  }

  lemma SplitMore(t: string, more: string)
    requires Split(t).Some?
    ensures Split(t + more) == Some(Split(t).value.(rest := Split(t).value.rest + more))
  {
    SplitParts(t);
    var p := Split(t).value;
    assert t + more == UrlOf(p.owner, p.repo, p.segment, p.rest + more);
    SplitUrl(p.owner, p.repo, p.segment, p.rest + more);
  }

  /** What a sentence, or a space, leaves after a URL changes nothing. */
  lemma {:induction false} SplitStripped(t: string, m: Marks)
    ensures Split(t).Some? <==> Split(TrimEnd(t, m)).Some?
    ensures Split(t).Some? ==> Split(TrimEnd(t, m)).value == Split(t).value.(rest := TrimEnd(Split(t).value.rest, m))
  {
    if Split(t).Some? {
      SplitParts(t);
      var p := Split(t).value;
      var head := UrlOf(p.owner, p.repo, p.segment, "");
      assert t == head + p.rest && head[|head| - 1] == '/';
      TrimEndAfter(head, p.rest, m);
      assert head + TrimEnd(p.rest, m) == UrlOf(p.owner, p.repo, p.segment, TrimEnd(p.rest, m));
      SplitUrl(p.owner, p.repo, p.segment, TrimEnd(p.rest, m));
    } else if Split(TrimEnd(t, m)).Some? {
      SplitLonger(TrimEnd(t, m), t);
    }
  }

  lemma SplitLonger(t: string, longer: string)
    requires t <= longer && Split(t).Some?
    ensures Split(longer).Some?
  {
    SplitMore(t, longer[|t|..]);
    assert longer == t + longer[|t|..];
  }

  lemma {:induction false} DigitsStripped(s: string, m: Marks)
    ensures Digits(TrimEnd(s, m)) == Digits(s)
  {
    hide TrimEnd, Drops;
    var d := Digits(s);
    var junk := s[|d|..];
    assert s == d + junk;
    if d != "" {
      assert d[|d| - 1] in d;
      DigitStays(d[|d| - 1], m);
      TrimEndAfter(d, junk, m);
      AllDigits(d, TrimEnd(junk, m));
    }
  }

  lemma DigitStays(c: char, m: Marks)
    requires IsDigit(c)
    ensures !Drops(m, c)
  {
  }

  /** So neither reads anything into it. */
  lemma {:induction false} EndIsNothing(t: string, m: Marks)
    ensures UrlKey(TrimEnd(t, m)) == UrlKey(t) && ParseTrimmed(TrimEnd(t, m)) == ParseTrimmed(t)
  {
    hide Split, Digits, TrimEnd, Lower, UrlOf, Value, Decimal;
    SplitStripped(t, m);
    if Split(t).Some? {
      DigitsStripped(Split(t).value.rest, m);
    }
  }

  lemma KeysOfUrls(owner: string, repo: string, segment: string, d: string, e: string)
    requires (forall c :: c in d ==> IsDigit(c)) && forall c :: c in e ==> IsDigit(c)
    ensures Lower(UrlOf(owner, repo, segment, d)) == Lower(UrlOf(owner, repo, segment, e)) <==> d == e
  {
    var head := WEB + owner + "/" + repo + "/" + segment + "/";
    assert UrlOf(owner, repo, segment, d) == head + d && UrlOf(owner, repo, segment, e) == head + e;
    LowerAppend(head, d);
    LowerAppend(head, e);
    LowerDigits(d);
    LowerDigits(e);
    assert (Lower(head) + d)[|Lower(head)|..] == d && (Lower(head) + e)[|Lower(head)|..] == e;
  }

  function KeyOf(content: Option<ContentRef>): Option<string> {
    if content.None? then None else Some(Key(content.value))
  }

  lemma OtherStart(t: string)
    requires t != "" && t[0] != 'h'
    ensures Split(t).None? && ParseTrimmed(t).None? && UrlKey(t).None?
  {
  }

  /** The two trim the same before a text, unless the first space left is the other's. */
  lemma {:induction false} StartsDiffer(s: string)
    ensures var r, j := TrimStart(s, Rust), TrimStart(s, JavaScript);
            r == j || (r != "" && r[0] == '\U{FEFF}') || (j != "" && j[0] == '\U{85}')
  {
    if s != "" && IsSpace(s[0]) {
      StartsDiffer(s[1..]);
    }
  }

  /** The two name the same thing by the same key exactly but for the texts that differ. */
  lemma SameIdentity(s: string)
    ensures Normalize(s) == KeyOf(Parse(s)) <==> !Differs(s)
  {
    var r, j := TrimStart(s, Rust), TrimStart(s, JavaScript);
    var t := TrimEnd(Trim(s, JavaScript), Tail);
    StartsDiffer(s);
    EndIsNothing(r, Rust);
    EndIsNothing(j, JavaScript);
    EndIsNothing(Trim(s, JavaScript), Tail);
    if IsBoardId(t) {
      assert t[0] == 'P' && j[0] == 'P';
      OtherStart(r);
    } else if r != j {
      if r != "" && r[0] == '\U{FEFF}' {
        OtherStart(r);
      } else {
        OtherStart(j);
      }
    } else if Split(j).Some? {
      SameUrl(j);
    }
  }

  /** Where both read the same URL. */
  lemma SameUrl(t: string)
    requires Split(t).Some?
    ensures var p := Split(t).value; var d := Digits(p.rest);
            UrlKey(t) == KeyOf(ParseTrimmed(t))
            <==> UrlKey(t).None? || (IsName(p.owner) && IsName(p.repo) && Value(d) < NUMBERS && d == Decimal(Value(d)))
  {
    hide Split, Digits, Lower, UrlOf, Decimal;
    var p := Split(t).value;
    var d := Digits(p.rest);
    KeysOfUrls(p.owner, p.repo, p.segment, d, Decimal(Value(d)));
  }

  // --- A text for each case -------------------------------------------------------------------

  /** What JavaScript makes of a plain URL, and Rust with it. */
  lemma {:induction false} PlainUrl(owner: string, d: string)
    requires owner != "" && AllNameChars(owner) && d != "" && forall c :: c in d ==> IsDigit(c)
    ensures var url := UrlOf(owner, "repo", "issues", d);
            && UrlKey(url) == Some(Lower(url)) && Normalize(url) == UrlKey(url) && Parse(url) == ParseTrimmed(url)
            && Split(url) == Some(Parts(owner, "repo", "issues", d)) && Digits(d) == d && url != "" && url[0] == 'h'
            && TrimStart(url, Rust) == url && TrimStart(url, JavaScript) == url
  {
    hide Split, Digits, Lower, UrlOf, TrimStart, TrimEnd;
    assert AllNameChars("repo");
    PlainSplit(owner, "repo", "issues", d);
  }

  /** A board's id has a key in JavaScript only. */
  lemma BoardId(s: string)
    requires IsBoardId(s)
    ensures Normalize(s) == Some(s) && Parse(s).None?
  {
    assert s[0] == 'P' && s[|s| - 1] in s[5..];
    Trimmed(s, Rust);
    Trimmed(s, JavaScript);
    Trimmed(s, Tail);
    OtherStart(s);
  }

  /** A name of dots has one in JavaScript only, and so has a number of more than 64 bits. */
  lemma {:induction false} DotsAndLarge(n: nat)
    requires n >= NUMBERS
    ensures var url := UrlOf("..", "repo", "issues", "1"); Normalize(url) == Some(Lower(url)) && Parse(url).None?
    ensures var url := UrlOf("owner", "repo", "issues", Decimal(n)); Normalize(url) == Some(Lower(url))
                                                                     && Parse(url).None?
  {
    hide Split, Digits, Lower, UrlOf, Normalize, TrimStart, TrimEnd;
    PlainUrl("..", "1");
    PlainUrl("owner", Decimal(n));
  }

  /** With a zero before its number, the keys differ. */
  lemma LeadingZero()
    ensures var url := UrlOf("owner", "repo", "issues", "07");
            Parse(url).Some? && Normalize(url) == Some(Lower(url)) && Normalize(url) != KeyOf(Parse(url))
  {
    hide Split, Digits, Lower, UrlOf, Normalize, TrimStart, TrimEnd, Trim;
    PlainUrl("owner", "07");
    assert "07"[..1] == "0" && "0"[..0] == "";
    assert Value("0") == 0 && Value("07") == 7;
    assert AllNameChars("owner") && AllNameChars("repo");
    KeysOfUrls("owner", "repo", "issues", "07", Decimal(7));
  }

  /** After a byte order mark only JavaScript reads a URL, after a next-line character only Rust. */
  lemma OtherSpaces()
    ensures var url := UrlOf("owner", "repo", "issues", Decimal(7)); var s := ['\U{FEFF}'] + url;
            Normalize(s) == Some(Lower(url)) && Parse(s).None?
    ensures var url := UrlOf("owner", "repo", "issues", Decimal(7)); var s := ['\U{85}'] + url;
            Parse(s).Some? && Normalize(s).None?
  {
    hide Split, Lower, UrlOf, Digits, Value, Decimal, TrimEnd, TrimStart, ParseTrimmed, UrlKey;
    var url := UrlOf("owner", "repo", "issues", Decimal(7));
    PlainUrl("owner", Decimal(7));
    ParseUrl("owner", "repo", "issues", 7);
    AfterMark(url);
  }

  lemma {:induction false} StartTrimmed(c: char, t: string, m: Marks)
    requires t != "" && !Drops(m, t[0])
    ensures TrimStart([c] + t, m) == if Drops(m, c) then t else [c] + t
  {
    assert ([c] + t)[1..] == t;
  }

  lemma AfterMark(url: string)
    requires url != "" && url[0] == 'h'
    ensures Normalize(['\U{FEFF}'] + url) == UrlKey(url) && Parse(['\U{FEFF}'] + url).None?
    ensures Parse(['\U{85}'] + url) == ParseTrimmed(url) && Normalize(['\U{85}'] + url).None?
  {
    hide Split, Lower, TrimEnd, TrimStart, UrlKey, ParseTrimmed;
    var bom, nel := ['\U{FEFF}'] + url, ['\U{85}'] + url;
    StartTrimmed('\U{FEFF}', url, JavaScript);
    StartTrimmed('\U{FEFF}', url, Rust);
    StartTrimmed('\U{85}', url, Rust);
    StartTrimmed('\U{85}', url, JavaScript);
    EndIsNothing(bom, Rust);
    OtherStart(bom);
    EndIsNothing(url, Rust);
    EndIsNothing(url, JavaScript);
    EndIsNothing(TrimEnd(url, JavaScript), Tail);
    OtherStart(nel);
    EndIsNothing(nel, JavaScript);
    EndIsNothing(TrimEnd(nel, JavaScript), Tail);
  }

  // --- Characters and trimming, spelled out ------------------------------------------------

  const LARGE: string := "ABCDEFGHIJKLMNOPQRSTUVWXYZ"
  const SMALL: string := "abcdefghijklmnopqrstuvwxyz"
  const DIGITS: string := "0123456789"
  /** The spaces of both languages: Unicode's but the next line's. */
  const SPACES: string :=
    "\t\n\U{0B}\U{0C}\r \U{A0}\U{1680}\U{2000}\U{2001}\U{2002}\U{2003}\U{2004}\U{2005}\U{2006}\U{2007}"
    + "\U{2008}\U{2009}\U{200A}\U{2028}\U{2029}\U{202F}\U{205F}\U{3000}"

  /** Which characters are trimmed, and which a name has. */
  lemma {:induction false} CharsAre(c: char)
    ensures Drops(Rust, c) <==> c in SPACES || c == '\U{85}'
    ensures Drops(JavaScript, c) <==> c in SPACES || c == '\U{FEFF}'
    ensures IsNameChar(c) <==> c in LARGE || c in SMALL || c in DIGITS || c in "_.-"
  {
  }

  lemma {:induction false} LettersAre(c: char, k: nat)
    requires k < 26
    ensures |LARGE| == |SMALL| == 26 && LARGE[k] as int == 'A' as int + k && SMALL[k] as int == 'a' as int + k
    ensures c == LARGE[k] ==> LowerChar(c) == SMALL[k]
    ensures c !in LARGE ==> LowerChar(c) == c
  {
  }

  /** Two characters that differ in case only. */
  ghost predicate SameLetter(a: char, b: char) {
    exists k :: 0 <= k < 26 && |LARGE| == |SMALL| == 26 && a in [LARGE[k], SMALL[k]] && b in [LARGE[k], SMALL[k]]
  }

  lemma {:induction false} LowerAlike(a: char, b: char)
    ensures LowerChar(a) == LowerChar(b) <==> a == b || SameLetter(a, b)
  {
    hide LowerChar, SameLetter;
    SameLower(a, b);
    if a != b && LowerChar(a) == LowerChar(b) {
      LowerSame(a, b);
    }
  }

  lemma {:induction false} SameLower(a: char, b: char)
    ensures SameLetter(a, b) ==> LowerChar(a) == LowerChar(b)
  {
    hide LowerChar;
    if SameLetter(a, b) {
      var k: nat :| k < 26 && a in [LARGE[k], SMALL[k]] && b in [LARGE[k], SMALL[k]];
      LettersAre(LARGE[k], k);
      LettersAre(SMALL[k], k);
      NotLarge(SMALL[k]);
    }
  }

  lemma {:induction false} NotLarge(c: char)
    ensures 'a' <= c <= 'z' ==> c !in LARGE
  {
  }

  lemma {:induction false} LowerSame(a: char, b: char)
    requires a != b && LowerChar(a) == LowerChar(b)
    ensures SameLetter(a, b)
  {
    hide LowerChar;
    LetterOf(a);
    LetterOf(b);
    var k := LowerChar(a) as int - 'a' as int;
    assert 0 <= k < 26 && a in [LARGE[k], SMALL[k]] && b in [LARGE[k], SMALL[k]];
  }

  lemma {:induction false} LetterOf(c: char)
    ensures |LARGE| == |SMALL| == 26
    ensures var k := LowerChar(c) as int - 'a' as int;
            if 0 <= k < 26 then c in [LARGE[k], SMALL[k]] else LowerChar(c) == c
  {
    var k := LowerChar(c) as int - 'a' as int;
    if 0 <= k < 26 {
      LettersAre(c, k);
    }
  }

  lemma {:induction false} LowerAt(s: string, i: nat)
    requires i < |s|
    ensures Lower(s)[i] == LowerChar(s[i])
  {
    hide LowerChar;
    if i < |s| - 1 {
      LowerAt(s[..|s| - 1], i);
    }
  }

  /** Two references are of one identity exactly if their URLs differ in case only. */
  lemma {:induction false} SameKey(a: ContentRef, b: ContentRef)
    ensures Key(a) == Key(b) <==>
            |a.url| == |b.url| && forall i :: 0 <= i < |a.url| ==>
                                    a.url[i] == b.url[i] || SameLetter(a.url[i], b.url[i])
  {
    hide LowerChar, SameLetter, Lower;
    var s, t := a.url, b.url;
    if |s| == |t| {
      forall i | 0 <= i < |s| ensures Lower(s)[i] == Lower(t)[i] <==> s[i] == t[i] || SameLetter(s[i], t[i]) {
        LowerAt(s, i);
        LowerAt(t, i);
        LowerAlike(s[i], t[i]);
      }
    }
  }

  /** Trimming takes the dropped characters of both ends, and no other. */
  lemma {:induction false} Trims(s: string, m: Marks) returns (a: nat, b: nat)
    ensures a <= b <= |s| && Trim(s, m) == s[a..b]
    ensures forall i :: 0 <= i < a || b <= i < |s| ==> Drops(m, s[i])
    ensures a < b ==> !Drops(m, s[a]) && !Drops(m, s[b - 1])
  {
    hide Drops;
    a := TrimsStart(s, m);
    var t := s[a..];
    var n := TrimsEnd(t, m);
    b := a + n;
    assert t[..n] == s[a..b] && forall i :: a <= i < |s| ==> s[i] == t[i - a];
  }

  lemma {:induction false} TrimsStart(s: string, m: Marks) returns (a: nat)
    ensures a <= |s| && TrimStart(s, m) == s[a..] && forall i :: 0 <= i < a ==> Drops(m, s[i])
    ensures a < |s| ==> !Drops(m, s[a])
  {
    hide Drops;
    a := 0;
    if s != "" && Drops(m, s[0]) {
      var n := TrimsStart(s[1..], m);
      a := n + 1;
      assert s[1..][n..] == s[a..] && forall i :: 0 < i < |s| ==> s[i] == s[1..][i - 1];
    }
  }

  lemma {:induction false} TrimsEnd(s: string, m: Marks) returns (n: nat)
    ensures n <= |s| && TrimEnd(s, m) == s[..n] && forall i :: n <= i < |s| ==> Drops(m, s[i])
    ensures n > 0 ==> !Drops(m, s[n - 1])
  {
    hide Drops;
    n := |s|;
    if s != "" && Drops(m, s[|s| - 1]) {
      n := TrimsEnd(s[..|s| - 1], m);
    }
  }

  /** An issue's URL and a pull request's, and no other of the kind, read as they are. */
  lemma {:induction false} ReadsKinds(owner: string, repo: string, segment: string, n: nat)
    requires IsName(owner) && IsName(repo) && n < NUMBERS
    ensures var url := "https://github.com/" + owner + "/" + repo + "/" + segment + "/" + Decimal(n);
            var r := Parse(url);
            && (segment == "issues" ==> r == Some(ContentRef(url, owner + "/" + repo, Issue, n)))
            && (segment == "pull" ==> r == Some(ContentRef(url, owner + "/" + repo, PullRequest, n)))
  {
    if segment == "issues" || segment == "pull" {
      ParseUrl(owner, repo, segment, n);
    }
    hide Parse, Decimal;
  }
}

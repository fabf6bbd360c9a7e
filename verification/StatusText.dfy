/**
 The text of a generated status update and its length
 (lib/board-status-update.js, shorten to generate, and publish's budget).
 A field's text is any string.
 */
module StatusText {
  import opened Options

  const SECTION_LIMIT: nat := 10
  const LINE_LIMIT: nat := 96
  const TITLE_LIMIT: nat := 28
  const URL_LIMIT: nat := 200
  const ITEM_URL_LIMIT: nat := 60
  const STALE_LIMIT: nat := 3
  const GENERATED_LIMIT: nat := 3800

  // --- Texts ------------------------------------------------------------------------

  /** Without the escapes at its end. */
  function Undangled(text: string): (r: string)
    ensures |r| <= |text| && r <= text && (r != [] ==> r[|r| - 1] != '\\')
  {
    if text != [] && text[|text| - 1] == '\\' then Undangled(text[..|text| - 1]) else text
  }

  function Shorten(text: string, limit: nat): (r: string)
    requires limit > 0
    ensures |r| <= limit && (|text| <= limit ==> r == text)
  {
    if |text| <= limit then text else Undangled(text[..limit - 1]) + "…"
  }

  const SPECIAL: string := "<>()[]\\"

  function Encoded(c: char): string {
    match c
    case '<' => "%3C"
    case '>' => "%3E"
    case '(' => "%28"
    case ')' => "%29"
    case '[' => "%5B"
    case ']' => "%5D"
    case '\\' => "%5C"
    case _ => [c]
  }

  function Encode(url: string): string {
    if url == [] then [] else Encode(url[..|url| - 1]) + Encoded(url[|url| - 1])
  }

  /** A URL fit for a link, or none. PARSES: it is an http URL with no space. */
  function SafeURL(url: string, parses: bool): string {
    if !parses || |url| > URL_LIMIT || |Encode(url)| > URL_LIMIT then "" else Encode(url)
  }

  /** A link's destination can't be ended or opened by what the URL holds. */
  lemma {:induction false} EncodeIsPlain(url: string)
    ensures forall c :: c in Encode(url) ==> c !in SPECIAL
  {
    if url != [] {
      EncodeIsPlain(url[..|url| - 1]);
      EncodedIsPlain(url[|url| - 1]);
      hide Encoded;
    }
  }

  lemma EncodedIsPlain(c: char)
    ensures forall x :: x in Encoded(c) ==> x !in SPECIAL
  {
    assert SPECIAL == ['<', '>', '(', ')', '[', ']', '\\'];
  }

  function ItemLink(title: string, url: string): string {
    var t := Shorten(title, TITLE_LIMIT);
    if url != "" && |url| <= ITEM_URL_LIMIT then "[" + t + "](" + url + ")" else t
  }

  function ItemLine(title: string, url: string, detail: string): (line: string)
    ensures |line| <= LINE_LIMIT
    ensures var prefix := "- " + ItemLink(title, url); prefix <= line
                                                       && (|prefix| + |detail| <= LINE_LIMIT ==>
                                                             line == prefix + detail)
  {
    var prefix := "- " + ItemLink(title, url);
    LinkLength(title, url);
    prefix + Shorten(detail, Max(LINE_LIMIT - |prefix|, 1))
  }

  lemma LinkLength(title: string, url: string)
    ensures |ItemLink(title, url)| <= 92
  {
    var t := Shorten(title, TITLE_LIMIT);
    assert |"[" + t + "](" + url + ")"| == |t| + |url| + 4;
    hide Shorten;
  }

  // --- Counts ---------------------------------------------------------------------------

  function Digit(n: nat): char
    requires n < 10
  {
    "0123456789"[n]
  }

  function Decimal(n: nat): string {
    if n < 10 then [Digit(n)] else Decimal(n / 10) + [Digit(n % 10)]
  }

  function TenTo(d: nat): nat {
    if d == 0 then 1 else 10 * TenTo(d - 1)
  }

  lemma {:induction false} DecimalLength(n: nat, d: nat)
    requires d > 0
    ensures |Decimal(n)| <= d <==> n < TenTo(d)
  {
    if n >= 10 && d > 1 {
      DecimalLength(n / 10, d - 1);
    } else if d > 1 {
      TenToGrows(d - 1);
    }
  }

  lemma {:induction false} TenToGrows(d: nat)
    ensures TenTo(d) >= 1
  {
    if d > 0 {
      TenToGrows(d - 1);
    }
  }

  // --- Sections -------------------------------------------------------------------------

  function Join(lines: seq<string>, separator: string): string {
    if lines == [] then "" else if |lines| == 1 then lines[0]
                                else Join(lines[..|lines| - 1], separator) + separator + lines[|lines| - 1]
  }

  lemma {:induction false} JoinLength(lines: seq<string>, separator: string, most: nat)
    requires forall l :: l in lines ==> |l| <= most
    ensures |Join(lines, separator)| <= if lines == [] then 0 else |lines| * most + (|lines| - 1) * |separator|
  {
    var n := |lines|;
    if n > 1 {
      JoinLength(lines[..n - 1], separator, most);
      assert lines[n - 1] in lines;
      OneMoreTimes(n - 1, most);
      OneMoreTimes(n - 2, |separator|);
    } else if n == 1 {
      assert lines[0] in lines;
      OneMoreTimes(0, most);
    }
  }

  lemma {:induction false} OneMoreTimes(n: nat, k: nat)
    ensures n * k + k == (n + 1) * k
  {
  }

  /** What a section shows of its lines, and how many more there are. */
  function Shown(lines: seq<string>): (r: (seq<string>, nat))
    ensures |r.0| + r.1 == |lines| && r.0 <= lines && |r.0| <= SECTION_LIMIT
    ensures r.1 > 0 ==> |r.0| == SECTION_LIMIT
  {
    var n := Min(|lines|, SECTION_LIMIT);
    (lines[..n], |lines| - n)
  }

  function Section(title: string, lines: seq<string>): string {
    var shown := Shown(lines);
    "## " + title + "\n" + (if lines == [] then "- None." else Join(shown.0, "\n"))
    + if shown.1 > 0 then "\n+" + Decimal(shown.1) + " more" else ""
  }

  lemma SectionLength(title: string, lines: seq<string>, digits: nat)
    requires (forall l :: l in lines ==> |l| <= LINE_LIMIT) && |Decimal(Shown(lines).1)| <= digits
    ensures |Section(title, lines)| <= |title| + 980 + digits
  {
    var shown := Shown(lines);
    JoinLength(shown.0, "\n", LINE_LIMIT);
    hide Join, Decimal;
    var body := if lines == [] then "- None." else Join(shown.0, "\n");
    assert |shown.0| * LINE_LIMIT <= 10 * LINE_LIMIT;
    assert |body| <= 969;
    var more := if shown.1 > 0 then "\n+" + Decimal(shown.1) + " more" else "";
    assert |more| <= 7 + digits;
    assert |"## " + title + "\n"| == |title| + 4;
    assert Section(title, lines) == "## " + title + "\n" + body + more;
  }

  // --- The whole update --------------------------------------------------------------------

  /** An item, as the generator reads it: the details of the lines it is given, if any. */
  datatype Entry = Entry(title: string, url: string, changed: Option<string>, progress: Option<string>,
                         waiting: Option<string>, stale: bool)

  datatype Heading = Changed | InProgress | Waiting

  function Detail(e: Entry, heading: Heading): Option<string> {
    match heading
    case Changed => e.changed
    case InProgress => e.progress
    case Waiting => e.waiting
  }

  /** The lines of one section: of the items with a detail for it, in order. */
  function Lines(entries: seq<Entry>, heading: Heading): (r: seq<string>)
    ensures forall l :: l in r ==> |l| <= LINE_LIMIT
  {
    if entries == [] then []
    else
      var e := entries[|entries| - 1];
      var d := Detail(e, heading);
      Lines(entries[..|entries| - 1], heading) + if d.Some? then [ItemLine(e.title, e.url, d.value)] else []
  }

  function StaleTitles(entries: seq<Entry>): seq<string> {
    if entries == [] then []
    else StaleTitles(entries[..|entries| - 1]) + if entries[|entries| - 1].stale then [entries[|entries| - 1].title]
                                                 else []
  }

  function WorkerLines(workers: seq<string>): (r: seq<string>)
    ensures |r| == |workers| && forall l :: l in r ==> |l| <= LINE_LIMIT
  {
    if workers == [] then [] else WorkerLines(workers[..|workers| - 1]) + [Shorten(workers[|workers| - 1], LINE_LIMIT)]
  }

  function Shortened(titles: seq<string>): (r: seq<string>)
    ensures |r| == |titles| && forall l :: l in r ==> |l| <= TITLE_LIMIT
  {
    if titles == [] then [] else Shortened(titles[..|titles| - 1]) + [Shorten(titles[|titles| - 1], TITLE_LIMIT)]
  }

  function StaleLine(titles: seq<string>, hours: string): string {
    var n := Min(|titles|, STALE_LIMIT);
    if titles == [] then ""
    else "\n\nAt risk: stale unfinished P0 (" + Shorten(hours, 24) + "h): " + Join(Shortened(titles[..n]), ", ")
         + (if |titles| > STALE_LIMIT then "; +" + Decimal(|titles| - STALE_LIMIT) + " more" else "") + "."
  }

  function BoardLine(board: string): string {
    if board != "" then "\n\n[Full board](" + board + ")" else "\n\nFull board: see project."
  }

  function Body(changed: seq<string>, progress: seq<string>, waiting: seq<string>, stale: seq<string>, hours: string,
                board: string): string {
    Section("Changed", changed) + "\n\n" + Section("In progress", progress) + "\n\n"
      + Section("Waiting on the operator", waiting)
    + StaleLine(stale, hours) + BoardLine(board)
  }

  method AgentLines(workers: seq<string>) returns (lines: seq<string>)
    ensures lines == WorkerLines(workers)
  {
    lines := [];
    for n := 0 to |workers|
      invariant lines == WorkerLines(workers[..n])
    {
      assert workers[..n + 1][..n] == workers[..n];
      lines := lines + [Shorten(workers[n], LINE_LIMIT)];
    }
    assert workers[..|workers|] == workers;
  }

  method Generate(entries: seq<Entry>, workers: seq<string>, hours: string, board: string) returns (body: string)
    ensures body == Body(Lines(entries, Changed), Lines(entries, InProgress) + WorkerLines(workers),
                         Lines(entries, Waiting), StaleTitles(entries), hours, board)
  {
    hide Body, ItemLine, Shorten;
    var changed, progress, waiting, stale := [], [], [], [];
    for n := 0 to |entries|
      invariant changed == Lines(entries[..n], Changed)
      invariant progress == Lines(entries[..n], InProgress)
      invariant waiting == Lines(entries[..n], Waiting)
      invariant stale == StaleTitles(entries[..n])
    {
      assert entries[..n + 1][..n] == entries[..n];
      var e := entries[n];
      if e.changed.Some? {
        changed := changed + [ItemLine(e.title, e.url, e.changed.value)];
      }
      if e.progress.Some? {
        progress := progress + [ItemLine(e.title, e.url, e.progress.value)];
      }
      if e.waiting.Some? {
        waiting := waiting + [ItemLine(e.title, e.url, e.waiting.value)];
      }
      if e.stale {
        stale := stale + [e.title];
      }
    }
    assert entries[..|entries|] == entries;
    var agents := AgentLines(workers);
    progress := progress + agents;
    body := Body(changed, progress, waiting, stale, hours, board);
  }

  // --- Read back ---------------------------------------------------------------------------

  /** The lines of a text. */
  function SplitLines(s: string): (r: seq<string>)
    ensures r != []
  {
    if s == "" then [""]
    else
      var rest := SplitLines(s[..|s| - 1]);
      var c := s[|s| - 1];
      if c == '\n' then rest + [""] else rest[..|rest| - 1] + [rest[|rest| - 1] + [c]]
  }

  lemma {:induction false} SplitMore(a: string, line: string)
    requires '\n' !in line
    ensures SplitLines(a + "\n" + line) == SplitLines(a) + [line]
  {
    var t := a + "\n" + line;
    if line == "" {
      assert t[..|t| - 1] == a;
    } else {
      var n := |line| - 1;
      SplitMore(a, line[..n]);
      assert t[..|t| - 1] == a + "\n" + line[..n] && t[|t| - 1] == line[n] && line == line[..n] + [line[n]];
      assert line[n] in line;
    }
  }

  lemma {:induction false} SplitPlain(line: string)
    requires '\n' !in line
    ensures SplitLines(line) == [line]
  {
    if line != "" {
      var n := |line| - 1;
      SplitPlain(line[..n]);
      assert line[n] in line && line == line[..n] + [line[n]];
    }
  }

  /** Joined lines read back as they were. */
  lemma {:induction false} JoinSplits(lines: seq<string>)
    requires lines != [] && forall l :: l in lines ==> '\n' !in l
    ensures SplitLines(Join(lines, "\n")) == lines
  {
    var n := |lines| - 1;
    assert lines[n] in lines && lines == lines[..n] + [lines[n]];
    if n == 0 {
      SplitPlain(lines[0]);
    } else {
      JoinSplits(lines[..n]);
      SplitMore(Join(lines[..n], "\n"), lines[n]);
    }
  }

  /** A number's digits read as it. */
  function Number(s: string): int {
    if s == "" then 0 else 10 * Number(s[..|s| - 1]) + (s[|s| - 1] as int - '0' as int)
  }

  lemma {:induction false} DecimalReads(n: nat)
    ensures Number(Decimal(n)) == n && forall c :: c in Decimal(n) ==> '0' <= c <= '9'
  {
    if n >= 10 {
      DecimalReads(n / 10);
      assert Decimal(n)[..|Decimal(n)| - 1] == Decimal(n / 10);
    } else {
      assert Decimal(n)[..0] == "";
    }
  }

  /** The text shows the lines: the first ten, in order, and then how many more there are; or that there are none. */
  ghost predicate Shows(text: string, lines: seq<string>) {
    SplitLines(text) ==
      if lines == [] then ["- None."]
      else if |lines| <= 10 then lines
      else lines[..10] + ["+" + Decimal(|lines| - 10) + " more"]
  }

  lemma {:induction false} DigitsPlain(d: string)
    requires forall c :: c in d ==> '0' <= c <= '9'
    ensures '\n' !in "+" + d + " more"
  {
  }

  lemma {:induction false} SectionShows(title: string, lines: seq<string>) returns (text: string)
    requires forall l :: l in lines ==> '\n' !in l
    ensures Section(title, lines) == ("## " + title + "\n") + text && Shows(text, lines)
  {
    hide Join, SplitLines, Decimal;
    var shown := Shown(lines);
    if lines == [] {
      text := "- None.";
      SplitPlain(text);
    } else {
      JoinSplits(shown.0);
      text := Join(shown.0, "\n");
      if shown.1 > 0 {
        DecimalReads(shown.1);
        text := WithMore(text, Decimal(shown.1));
      }
    }
    SectionText(title, lines, text);
  }

  /** And how many more there are. */
  lemma {:induction false} WithMore(joined: string, d: string) returns (text: string)
    requires forall c :: c in d ==> '0' <= c <= '9'
    ensures text == joined + ("\n+" + d + " more") && SplitLines(text) == SplitLines(joined) + ["+" + d + " more"]
  {
    hide SplitLines;
    DigitsPlain(d);
    SplitMore(joined, "+" + d + " more");
    text := joined + ("\n+" + d + " more");
    assert "\n+" + d + " more" == "\n" + ("+" + d + " more");
    assert text == joined + "\n" + ("+" + d + " more");
  }

  lemma {:induction false} SectionText(title: string, lines: seq<string>, text: string)
    requires var shown := Shown(lines);
             text == if lines == [] then "- None."
                     else if shown.1 > 0 then Join(shown.0, "\n") + ("\n+" + Decimal(shown.1) + " more")
                     else Join(shown.0, "\n")
    ensures Section(title, lines) == ("## " + title + "\n") + text
  {
    hide Join, Decimal;
  }

  /**
   The body reads back: each list under its own heading, in order, then the
   stale titles, if any, and the link to the board.
   */
  lemma {:induction false} BodyShows(changed: seq<string>, progress: seq<string>, waiting: seq<string>,
                                     stale: seq<string>, hours: string, board: string)
    returns (c: string, p: string, w: string)
    requires forall l :: l in changed || l in progress || l in waiting ==> '\n' !in l
    ensures Body(changed, progress, waiting, stale, hours, board) ==
            ("## Changed\n" + c) + "\n\n" + ("## In progress\n" + p) + "\n\n"
            + ("## Waiting on the operator\n" + w) + StaleLine(stale, hours)
            + if board == "" then "\n\nFull board: see project." else "\n\n[Full board](" + board + ")"
    ensures Shows(c, changed) && Shows(p, progress) && Shows(w, waiting)
    ensures StaleLine(stale, hours) == "" <==> stale == []
  {
    hide Section, Shows, Join, Shorten, Shortened, Decimal;
    c := SectionShows("Changed", changed);
    p := SectionShows("In progress", progress);
    w := SectionShows("Waiting on the operator", waiting);
    Headings();
    NoStale(stale, hours);
    hide StaleLine;
  }

  lemma {:induction false} NoStale(stale: seq<string>, hours: string)
    ensures StaleLine(stale, hours) == "" <==> stale == []
  {
  }

  lemma {:induction false} Headings()
    ensures "## " + "Changed" + "\n" == "## Changed\n" && "## " + "In progress" + "\n" == "## In progress\n"
    ensures "## " + "Waiting on the operator" + "\n" == "## Waiting on the operator\n"
  {
  }

  // --- It fits ------------------------------------------------------------------------------

  /** The marker of a digest alone: its JSON is 102 characters, 136 in base64. */
  const COMPACT_MARKER: nat := 26 + 136 + 4

  predicate Few(n: nat, digits: nat) {
    |Decimal(n)| <= digits
  }

  lemma StaleLength(titles: seq<string>, hours: string, digits: nat)
    requires Few(|titles|, digits)
    ensures |StaleLine(titles, hours)| <= 157 + digits
  {
    var n := Min(|titles|, STALE_LIMIT);
    var names := Join(Shortened(titles[..n]), ", ");
    JoinLength(Shortened(titles[..n]), ", ", TITLE_LIMIT);
    assert n * TITLE_LIMIT <= 3 * TITLE_LIMIT;
    assert |names| <= 88;
    var more := if |titles| > STALE_LIMIT then "; +" + Decimal(|titles| - STALE_LIMIT) + " more" else "";
    DecimalLength(|titles|, Max(digits, 1));
    DecimalLength(|titles| - n, Max(digits, 1));
    SomeDigit(|titles|);
    assert |more| <= 8 + digits;
    var head := "\n\nAt risk: stale unfinished P0 (" + Shorten(hours, 24) + "h): ";
    assert |head| <= 60;
    hide Join, Decimal, Shorten;
    assert titles != [] ==> StaleLine(titles, hours) == head + names + more + ".";
  }

  lemma {:induction false} SomeDigit(n: nat)
    ensures |Decimal(n)| >= 1
  {
  }

  /**
   Any update whose counts have no more than 68 digits fits the budget with
   the compact marker, whatever its fields hold: so the budget error can't
   come up.
   */
  lemma AlwaysFits(changed: seq<string>, progress: seq<string>, waiting: seq<string>, stale: seq<string>,
                   hours: string, board: string)
    requires forall l :: l in changed + progress + waiting ==> |l| <= LINE_LIMIT
    requires |changed| < TenTo(68) && |progress| < TenTo(68) && |waiting| < TenTo(68) && |stale| < TenTo(68)
    requires |board| <= URL_LIMIT
    ensures |Body(changed, progress, waiting, stale, hours, board)| + 2 + COMPACT_MARKER <= GENERATED_LIMIT
  {
    hide Section, StaleLine, Decimal, TenTo;
    Counted(changed);
    Counted(progress);
    Counted(waiting);
    DecimalLength(|stale|, 68);
    SectionLength("Changed", changed, 68);
    SectionLength("In progress", progress, 68);
    SectionLength("Waiting on the operator", waiting, 68);
    StaleLength(stale, hours, 68);
    assert |BoardLine(board)| <= 216;
  }

  lemma Counted(lines: seq<string>)
    requires |lines| < TenTo(68)
    ensures |Decimal(Shown(lines).1)| <= 68
  {
    DecimalLength(Shown(lines).1, 68);
    hide TenTo, Decimal;
  }

  lemma {:induction false} AtMostOneLine(entries: seq<Entry>, heading: Heading)
    ensures |Lines(entries, heading)| <= |entries| && |StaleTitles(entries)| <= |entries|
  {
    if entries != [] {
      AtMostOneLine(entries[..|entries| - 1], heading);
      hide ItemLine;
    }
  }

  /** So a generated update of fewer than 10^68 items and workers fits. */
  lemma {:induction false} GeneratedFits(entries: seq<Entry>, workers: seq<string>, hours: string, url: string,
                                         parses: bool)
    requires |entries| + |workers| < TenTo(68)
    ensures |Body(Lines(entries, Changed), Lines(entries, InProgress) + WorkerLines(workers),
                  Lines(entries, Waiting), StaleTitles(entries), hours, SafeURL(url, parses))| + 2
                    + COMPACT_MARKER <= GENERATED_LIMIT
  {
    AtMostOneLine(entries, Changed);
    AtMostOneLine(entries, InProgress);
    AtMostOneLine(entries, Waiting);
    hide TenTo, Body, Lines, WorkerLines, StaleTitles;
    AlwaysFits(Lines(entries, Changed), Lines(entries, InProgress) + WorkerLines(workers), Lines(entries, Waiting),
               StaleTitles(entries), hours,
               SafeURL(url, parses));
  }
}

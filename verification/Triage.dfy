/** The triage table: how the audit prints its findings and how the gate reads the file back. */
module Triage {
  import opened Options
  import opened Sequences
  import opened Text

  /** A finding as the audit holds it; `low` marks one that not every sample made. */
  datatype Finding = Finding(
    id: string, path: string, question: string, class_: string, severity: string, quote: string, low: bool)

  const COLUMNS: seq<string> :=
    ["id", "path", "question", "class", "severity", "confidence", "quote", "disposition", "reason"]

  const WIDTH := 120

  // ----- Printing -----

  function EscapeChar(c: char): string {
    if c == '|' then "\\|" else [c]
  }

  /** A pipe inside a cell is written with a backslash before it; a backslash is written as it is. */
  function Escape(s: string): string {
    if s == "" then "" else EscapeChar(s[0]) + Escape(s[1..])
  }

  function Shortened(s: string): string {
    if |s| <= WIDTH then s else s[..WIDTH]
  }

  function Confidence(low: bool): string {
    if low then "low" else "both samples"
  }

  /** A row's cells; the last two are the architect's to fill in. */
  function Cells9(id: string, path: string, question: string, class_: string, severity: string,
                  confidence: string, quote: string): seq<string> {
    [id, path, question, class_, severity, confidence, quote, "", ""]
  }

  /** What a row prints in each column. */
  function Printed(f: Finding): seq<string> {
    Cells9(f.id, "`" + f.path + "`", f.question, f.class_, f.severity, Confidence(f.low), Shortened(Escape(f.quote)))
  }

  function Body(cells: seq<string>): string {
    if cells == [] then ""
    else " " + cells[0] + " " + if |cells| == 1 then "" else "|" + Body(cells[1..])
  }

  function Line(cells: seq<string>): string {
    "|" + Body(cells) + "|"
  }

  const RULE := "|---|---|---|---|---|---|---|---|---|"

  function RowLine(f: Finding): string {
    Line(Printed(f))
  }

  function RowLines(rows: seq<Finding>): seq<string> {
    Map(RowLine, rows)
  }

  function Joined(lines: seq<string>): string {
    if lines == [] then "" else lines[0] + "\n" + Joined(lines[1..])
  }

  /** The file: the bindings, then the table. */
  function Skeleton(preamble: seq<string>, rows: seq<Finding>): string {
    Joined(preamble + [Line(COLUMNS), RULE] + RowLines(rows))
  }

  method PrintRows(head: seq<string>, rows: seq<Finding>, line: Finding -> string) returns (lines: seq<string>)
    ensures lines == head + Map(line, rows)
  {
    lines := head;
    for i := 0 to |rows|
      invariant lines == head + Map(line, rows)[..i]
    {
      assert Map(line, rows)[..i + 1] == Map(line, rows)[..i] + [line(rows[i])];
      lines := lines + [line(rows[i])];
    }
    assert Map(line, rows)[..|rows|] == Map(line, rows);
  }

  method TriageSkeleton(preamble: seq<string>, rows: seq<Finding>) returns (text: string)
    ensures text == Skeleton(preamble, rows)
  {
    var lines := PrintRows(preamble + [Line(COLUMNS), RULE], rows, RowLine);
    return Joined(lines);
  }

  // ----- Reading -----

  predicate IsBreak(c: char) {
    || '\n' <= c <= '\r' || '\U{1C}' <= c <= '\U{1E}' || c == '\U{85}' || c == '\U{2028}' || c == '\U{2029}'
  }

  /** The breaks are the newline, the vertical tab, the form feed, the carriage return, three separators,
      the next line, and the line and paragraph separators. */
  lemma BreaksAre(c: char)
    ensures IsBreak(c) <==>
      c in {'\n', '\U{0B}', '\U{0C}', '\r', '\U{1C}', '\U{1D}', '\U{1E}', '\U{85}', '\U{2028}', '\U{2029}'}
  {
  }

  predicate OneLine(s: string) {
    forall c <- s :: !IsBreak(c)
  }

  function FirstBreak(s: string): (n: nat)
    ensures n <= |s| && OneLine(s[..n]) && (n < |s| ==> IsBreak(s[n]))
  {
    if s == "" || IsBreak(s[0]) then 0
    else
      var n := FirstBreak(s[1..]);
      assert s[..n + 1] == [s[0]] + s[1..][..n];
      n + 1
  }

  /** A text's lines without their breaks; a carriage return and a newline are one break. */
  function Lines(text: string): seq<string>
    decreases |text|
  {
    if text == "" then []
    else
      var n := FirstBreak(text);
      if n == |text| then [text]
      else [text[..n]] + Lines(text[n + if "\r\n" <= text[n..] then 2 else 1..])
  }

  /** Lines, each followed by its break. */
  function Woven(lines: seq<string>, breaks: seq<string>): string
    requires |lines| == |breaks|
  {
    if lines == [] then "" else lines[0] + breaks[0] + Woven(lines[1..], breaks[1..])
  }

  /** A break is one character, or a carriage return and a newline; and a carriage return alone is not
      before a newline. */
  predicate Breaks(b: string, rest: string) {
    b == "\r\n" || (|b| == 1 && IsBreak(b[0]) && !(b == "\r" && rest != "" && rest[0] == '\n'))
  }

  /** A text is these lines and the breaks after them, none of which is left in a line; the last line may
      have none, and then says something. */
  ghost predicate IsWoven(text: string, lines: seq<string>, breaks: seq<string>) {
    && |breaks| == |lines| && text == Woven(lines, breaks) && (forall l <- lines :: OneLine(l))
    && forall i | 0 <= i < |breaks| ::
      || Breaks(breaks[i], Woven(lines[i + 1..], breaks[i + 1..]))
      || (i == |breaks| - 1 && breaks[i] == "" && lines[i] != "")
  }

  lemma FirstLine(line: string, b: string, text: string, lines: seq<string>, breaks: seq<string>)
    requires IsWoven(text, lines, breaks) && OneLine(line) && Breaks(b, text)
    ensures IsWoven(line + b + text, [line] + lines, [b] + breaks)
  {
    var more, after := [line] + lines, [b] + breaks;
    assert more[1..] == lines && after[1..] == breaks;
    forall i | 0 <= i < |after|
      ensures Breaks(after[i], Woven(more[i + 1..], after[i + 1..]))
           || (i == |after| - 1 && after[i] == "" && more[i] != "")
    {
      if i > 0 {
        assert after[i] == breaks[i - 1] && more[i] == lines[i - 1];
        assert more[i + 1..] == lines[i..] && after[i + 1..] == breaks[i..];
      }
    }
  }

  lemma OnlyLine(text: string)
    requires text != "" && OneLine(text)
    ensures IsWoven(text, [text], [""])
  {
    assert [text][1..] == [] && [""][1..] == [];
    assert Woven([text], [""]) == text + "" + Woven([], []);
  }

  lemma {:induction false} LinesAreWoven(text: string) returns (breaks: seq<string>)
    ensures IsWoven(text, Lines(text), breaks)
    decreases |text|
  {
    breaks := [];
    if text != "" {
      var n := FirstBreak(text);
      if n == |text| {
        assert text[..n] == text;
        OnlyLine(text);
        breaks := [""];
      } else {
        var k := if "\r\n" <= text[n..] then 2 else 1;
        FirstBreakIs(text, n, k);
        breaks := LinesAreWoven(text[n + k..]);
        FirstLine(text[..n], text[n..n + k], text[n + k..], Lines(text[n + k..]), breaks);
        Rejoin(text, n, k);
        breaks := [text[n..n + k]] + breaks;
      }
    }
  }

  lemma Rejoin(text: string, n: nat, k: nat)
    requires n + k <= |text|
    ensures text[..n] + text[n..n + k] + text[n + k..] == text
  {
  }

  lemma FirstBreakIs(text: string, n: nat, k: nat)
    requires n < |text| && IsBreak(text[n]) && k == if "\r\n" <= text[n..] then 2 else 1
    ensures n + k <= |text| && Breaks(text[n..n + k], text[n + k..])
  {
    if n + 1 < |text| {
      assert "\r\n" <= text[n..] <==> text[n] == '\r' && text[n + 1] == '\n';
    }
  }

  /** The pipes at both ends of a line, all of them, are dropped. */
  function WithoutLeft(s: string): string {
    if s != "" && s[0] == '|' then WithoutLeft(s[1..]) else s
  }

  function WithoutRight(s: string): string {
    if s != "" && s[|s| - 1] == '|' then WithoutRight(s[..|s| - 1]) else s
  }

  /** The cells from here on, given what the current one holds so far. */
  function Cut(body: string, cell: string): seq<string>
    decreases |body|
  {
    if body == "" then [Strip(cell)]
    else if |body| >= 2 && body[0] == '\\' && body[1] == '|' then Cut(body[2..], cell + "|")
    else if body[0] == '|' then [Strip(cell)] + Cut(body[1..], "")
    else Cut(body[1..], cell + [body[0]])
  }

  function CellsOf(line: string): seq<string> {
    Cut(WithoutRight(WithoutLeft(Strip(line))), "")
  }

  method Cells(line: string) returns (parts: seq<string>)
    ensures parts == CellsOf(line)
  {
    parts := [];
    var cell, i := "", 0;
    var body := WithoutRight(WithoutLeft(Strip(line)));
    while i < |body|
      invariant 0 <= i <= |body|
      invariant parts + Cut(body[i..], cell) == Cut(body, "")
    {
      if body[i] == '\\' && i + 1 < |body| && body[i + 1] == '|' {
        cell := cell + "|";
        i := i + 2;
      } else if body[i] == '|' {
        parts := parts + [Strip(cell)];
        cell := "";
        i := i + 1;
      } else {
        cell := cell + [body[i]];
        i := i + 1;
      }
    }
    parts := parts + [Strip(cell)];
  }

  predicate Piped(line: string) {
    line != "" && line[0] == '|'
  }

  predicate InTable(line: string) {
    Piped(line) && !("|---" <= line)
  }

  function Paired(header: seq<string>, cells: seq<string>): map<string, string> {
    if header == [] || cells == [] then map[]
    else
      var n := (if |header| < |cells| then |header| else |cells|) - 1;
      Paired(header[..n], cells[..n])[header[n] := cells[n]]
  }

  /** The first table line names the columns; each later one is a row. */
  function RowsOf(lines: seq<string>, header: Option<seq<string>>): seq<map<string, string>> {
    if lines == [] then []
    else if !InTable(lines[0]) then RowsOf(lines[1..], header)
    else if header.None? then RowsOf(lines[1..], Some(Map(Lower, CellsOf(lines[0]))))
    else [Paired(header.value, CellsOf(lines[0]))] + RowsOf(lines[1..], header)
  }

  method TableRows(text: string) returns (out: seq<map<string, string>>)
    ensures out == RowsOf(Lines(text), None)
  {
    var header: Option<seq<string>> := None;
    out := [];
    var lines := Lines(text);
    for i := 0 to |lines|
      invariant out + RowsOf(lines[i..], header) == RowsOf(lines, None)
    {
      if lines[i] != "" && lines[i][0] == '|' && !(|lines[i]| >= 4 && lines[i][..4] == "|---") {
        var cells := Cells(lines[i]);
        if header.None? {
          header := Some(Map(Lower, cells));
        } else {
          out := out + [Paired(header.value, cells)];
        }
      }
    }
  }

  // ----- A cell survives -----

  /** What a cut of an escaped text still says; a cut through an escape leaves its backslash. */
  function Kept(s: string, n: nat): (r: string)
    ensures Escape(r) == if |Escape(s)| <= n then Escape(s) else Escape(s)[..n]
    ensures |Escape(s)| <= n ==> r == s
  {
    if n == 0 || s == "" then ""
    else if s[0] == '|' && n == 1 then "\\"
    else
      var rest := Kept(s[1..], n - |EscapeChar(s[0])|);
      EscapeCons(s[0], rest);
      [s[0]] + rest
  }

  lemma EscapeCons(c: char, rest: string)
    ensures Escape([c] + rest) == EscapeChar(c) + Escape(rest)
  {
    assert ([c] + rest)[1..] == rest;
  }

  predicate Apart(s: string) {
    s == "" || s[0] != '|'
  }

  lemma EscapeStarts(s: string, rest: string)
    requires Apart(rest)
    ensures Apart(Escape(s) + rest)
  {
    if s == "" {
      assert Escape(s) + rest == rest;
    }
  }

  lemma CharReads(c: char, more: string, cell: string)
    requires Apart(more)
    ensures Cut(EscapeChar(c) + more, cell) == Cut(more, cell + [c])
  {
  }

  lemma EscapeFirst(s: string, rest: string)
    requires s != ""
    ensures Escape(s) + rest == EscapeChar(s[0]) + (Escape(s[1..]) + rest)
  {
  }

  lemma Rejoined(cell: string, s: string)
    requires s != ""
    ensures cell + [s[0]] + s[1..] == cell + s
  {
  }

  lemma {:induction false} EscapedReads(s: string, rest: string, cell: string)
    requires Apart(rest)
    ensures Cut(Escape(s) + rest, cell) == Cut(rest, cell + s)
    decreases s
  {
    if s == "" {
      assert Escape(s) + rest == rest && cell + s == cell;
    } else {
      var more := Escape(s[1..]) + rest;
      EscapeStarts(s[1..], rest);
      CharReads(s[0], more, cell);
      EscapedReads(s[1..], rest, cell + [s[0]]);
      EscapeFirst(s, rest);
      Rejoined(cell, s);
    }
  }

  function Escaped(values: seq<string>): seq<string> {
    Map(Escape, values)
  }

  function Trimmed(values: seq<string>): seq<string> {
    Map(Strip, values)
  }

  /** One printed cell, up to the pipe after it or the end. */
  lemma CellReads(v: string, tail: string)
    requires tail == "" || tail[0] == '|'
    ensures Cut(" " + (Escape(v) + (" " + tail)), "")
         == [Strip(v)] + if tail == "" then [] else Cut(tail[1..], "")
  {
    EscapedReads(v, " " + tail, "" + " ");
    assert "" + " " + v + " " == " " + v + " ";
    StripPadded(v);
  }

  lemma BodyFirst(cell: string, rest: seq<string>)
    ensures Body([cell] + rest) == " " + (cell + (" " + if rest == [] then "" else "|" + Body(rest)))
  {
    assert ([cell] + rest)[1..] == rest;
  }

  lemma MapFirst<T>(f: T -> string, s: seq<T>)
    requires s != []
    ensures Map(f, s) == [f(s[0])] + Map(f, s[1..])
  {
  }

  lemma {:induction false} BodyReads(values: seq<string>)
    requires values != []
    ensures Cut(Body(Escaped(values)), "") == Trimmed(values)
  {
    var v, rest := values[0], values[1..];
    var tail := if Escaped(rest) == [] then "" else "|" + Body(Escaped(rest));
    MapFirst(Escape, values);
    MapFirst(Strip, values);
    BodyFirst(Escape(v), Escaped(rest));
    CellReads(v, tail);
    if rest != [] {
      assert tail[1..] == Body(Escaped(rest));
      BodyReads(rest);
    }
  }

  // ----- A row survives -----

  lemma {:induction false} BodyEnds(cells: seq<string>)
    requires cells != []
    ensures var b := Body(cells); b != "" && b[0] == ' ' && b[|b| - 1] == ' '
  {
    if |cells| > 1 {
      BodyEnds(cells[1..]);
    }
  }

  lemma PipesDropped(b: string)
    requires b != "" && b[0] == ' ' && b[|b| - 1] == ' '
    ensures WithoutRight(WithoutLeft(Strip("|" + b + "|"))) == b
  {
    var line, rest := "|" + b + "|", b + "|";
    assert line[0] == '|' && line[|line| - 1] == '|' && Strip(line) == line;
    assert line[1..] == rest && rest[0] == ' ' && WithoutLeft(rest) == rest;
    assert rest[|rest| - 1] == '|' && rest[..|rest| - 1] == b && WithoutRight(b) == b;
  }

  lemma LineReads(values: seq<string>)
    requires values != []
    ensures CellsOf(Line(Escaped(values))) == Trimmed(values)
  {
    BodyEnds(Escaped(values));
    PipesDropped(Body(Escaped(values)));
    BodyReads(values);
  }

  /** The values a row stands for: the quote as far as it is kept. */
  function Values(f: Finding): seq<string> {
    Cells9(f.id, "`" + f.path + "`", f.question, f.class_, f.severity, Confidence(f.low), Kept(f.quote, WIDTH))
  }

  lemma {:induction false} PipelessIsEscaped(s: string)
    requires '|' !in s
    ensures Escape(s) == s
  {
    if s != "" {
      PipelessIsEscaped(s[1..]);
    }
  }

  predicate Clear(s: string) {
    '|' !in s && OneLine(s)
  }

  /** Every cell but the quote is printed as it is, so it must hold no pipe; no cell may hold a line
      break. */
  predicate Printable(f: Finding) {
    && Clear(f.id) && Clear(f.path) && Clear(f.question) && Clear(f.class_) && Clear(f.severity)
    && OneLine(f.quote)
  }

  lemma ClearIsEscaped(id: string, path: string, question: string, class_: string, severity: string,
                       confidence: string, quote: string, kept: string)
    requires Escape(id) == id && Escape(path) == path && Escape(question) == question && Escape(class_) == class_
    requires Escape(severity) == severity && Escape(confidence) == confidence && Escape(kept) == quote
    ensures Cells9(id, path, question, class_, severity, confidence, quote)
         == Escaped(Cells9(id, path, question, class_, severity, confidence, kept))
  {
  }

  lemma PrintedIsEscaped(f: Finding)
    requires Printable(f)
    ensures Printed(f) == Escaped(Values(f))
  {
    PipelessIsEscaped(f.id);
    PipelessIsEscaped("`" + f.path + "`");
    PipelessIsEscaped(f.question);
    PipelessIsEscaped(f.class_);
    PipelessIsEscaped(f.severity);
    ConfidenceIsClear(f.low);
    PipelessIsEscaped(Confidence(f.low));
    ClearIsEscaped(f.id, "`" + f.path + "`", f.question, f.class_, f.severity, Confidence(f.low),
                   Shortened(Escape(f.quote)), Kept(f.quote, WIDTH));
  }

  lemma ConfidenceIsClear(low: bool)
    ensures Clear(Confidence(low))
  {
  }

  function ReadCells(f: Finding): seq<string> {
    Trimmed(Values(f))
  }

  /** The row that a finding's line is read as. */
  function Read(f: Finding): map<string, string> {
    Paired(COLUMNS, ReadCells(f))
  }

  lemma {:induction false} PairedAt(header: seq<string>, cells: seq<string>, i: nat)
    requires |header| == |cells| && i < |header| && Distinct(header)
    ensures header[i] in Paired(header, cells) && Paired(header, cells)[header[i]] == cells[i]
    ensures Paired(header, cells).Keys == Elements(header)
  {
    var n := |header| - 1;
    assert header == header[..n] + [header[n]];
    if n > 0 {
      PairedAt(header[..n], cells[..n], if i < n then i else 0);
    }
  }

  lemma ColumnsDiffer()
    ensures Distinct(COLUMNS)
  {
    assert |COLUMNS[0]| == 2 && |COLUMNS[1]| == 4 && |COLUMNS[2]| == 8 && |COLUMNS[3]| == 5;
    assert |COLUMNS[4]| == 8 && |COLUMNS[5]| == 10 && |COLUMNS[6]| == 5 && |COLUMNS[7]| == 11 && |COLUMNS[8]| == 6;
    assert COLUMNS[2][0] == 'q' && COLUMNS[4][0] == 's' && COLUMNS[3][0] == 'c' && COLUMNS[6][0] == 'q';
  }

  /** Each column of a row is the finding's own value, trimmed; the quote's is the whole quote when
      its escaped form fits. */
  lemma ReadColumns(f: Finding, i: nat)
    requires i < |COLUMNS|
    ensures COLUMNS[i] in Read(f) && Read(f)[COLUMNS[i]] == Strip(Values(f)[i])
    ensures Read(f).Keys == Elements(COLUMNS)
    ensures if |Escape(f.quote)| <= 120 then Values(f)[6] == f.quote
            else Escape(Values(f)[6]) == Escape(f.quote)[..120]
    ensures (Values(f)[5] == "low" <==> f.low) && Values(f)[7] == Values(f)[8] == ""
    ensures Values(f)[0] == f.id && Values(f)[2] == f.question && Values(f)[3] == f.class_ && Values(f)[4] == f.severity
  {
    ColumnsDiffer();
    PairedAt(COLUMNS, Trimmed(Values(f)), i);
    ValuesAre(f);
  }

  lemma ValuesAre(f: Finding)
    ensures if |Escape(f.quote)| <= 120 then Values(f)[6] == f.quote
            else Escape(Values(f)[6]) == Escape(f.quote)[..120]
    ensures (Values(f)[5] == "low" <==> f.low) && Values(f)[7] == Values(f)[8] == ""
    ensures Values(f)[0] == f.id && Values(f)[2] == f.question && Values(f)[3] == f.class_ && Values(f)[4] == f.severity
  {
    LowSays(f.low);
  }

  lemma LowSays(low: bool)
    ensures Confidence(low) == "low" <==> low
  {
    assert |Confidence(false)| != |"low"|;
  }

  // ----- The file survives -----

  lemma {:induction false} BreakAfter(line: string, rest: string)
    requires OneLine(line)
    ensures FirstBreak(line + "\n" + rest) == |line|
  {
    var s := line + "\n" + rest;
    if line != "" {
      assert s[1..] == line[1..] + "\n" + rest;
      BreakAfter(line[1..], rest);
    }
  }

  lemma {:induction false} JoinedSplits(lines: seq<string>)
    requires forall l <- lines :: OneLine(l)
    ensures Lines(Joined(lines)) == lines
  {
    if lines != [] {
      var l, rest := lines[0], Joined(lines[1..]);
      BreakAfter(l, rest);
      var text := l + "\n" + rest;
      assert text[|l|] == '\n' && text[|l| + 1..] == rest && text[..|l|] == l;
      JoinedSplits(lines[1..]);
    }
  }

  lemma {:induction false} BodyOneLine(cells: seq<string>)
    requires forall i | 0 <= i < |cells| :: OneLine(cells[i])
    ensures OneLine(Body(cells))
  {
    if cells != [] {
      BodyOneLine(cells[1..]);
    }
  }

  lemma LineOneLine(cells: seq<string>)
    requires forall i | 0 <= i < |cells| :: OneLine(cells[i])
    ensures OneLine(Line(cells))
  {
    BodyOneLine(cells);
  }

  lemma {:induction false} EscapeOneLine(s: string)
    requires OneLine(s)
    ensures OneLine(Escape(s))
  {
    if s != "" {
      EscapeOneLine(s[1..]);
    }
  }

  lemma CellsOneLine(id: string, path: string, question: string, class_: string, severity: string,
                     confidence: string, quote: string)
    requires OneLine(id) && OneLine(path) && OneLine(question) && OneLine(class_) && OneLine(severity)
    requires OneLine(confidence) && OneLine(quote)
    ensures OneLine(Line(Cells9(id, path, question, class_, severity, confidence, quote)))
  {
    LineOneLine(Cells9(id, path, question, class_, severity, confidence, quote));
  }

  lemma PrintedOneLine(f: Finding)
    requires Printable(f)
    ensures OneLine(Line(Printed(f)))
  {
    EscapeOneLine(f.quote);
    ConfidenceIsClear(f.low);
    CellsOneLine(f.id, "`" + f.path + "`", f.question, f.class_, f.severity, Confidence(f.low),
                 Shortened(Escape(f.quote)));
  }

  lemma LineInTable(cells: seq<string>)
    requires cells != []
    ensures InTable(Line(cells))
  {
    BodyEnds(cells);
    var line := Line(cells);
    assert line[0] == '|' && line[1] == ' ';
  }

  lemma RowReads(f: Finding)
    requires Printable(f)
    ensures OneLine(RowLine(f)) && InTable(RowLine(f)) && CellsOf(RowLine(f)) == Trimmed(Values(f))
  {
    PrintedOneLine(f);
    PrintedIsEscaped(f);
    LineReads(Values(f));
    LineInTable(Printed(f));
  }

  /** Table lines that each read as a row, whatever prints and reads them. */
  lemma {:induction false} LinesRead(rows: seq<Finding>, line: Finding -> string, cells: Finding -> seq<string>,
                                     header: seq<string>, read: Finding -> map<string, string>)
    requires forall f <- rows :: InTable(line(f)) && CellsOf(line(f)) == cells(f) && read(f) == Paired(header, cells(f))
    ensures RowsOf(Map(line, rows), Some(header)) == Map(read, rows)
  {
    if rows != [] {
      var f := rows[0];
      LinesRead(rows[1..], line, cells, header, read);
      assert Map(line, rows)[0] == line(f) && Map(line, rows)[1..] == Map(line, rows[1..]);
      assert Map(read, rows) == [read(f)] + Map(read, rows[1..]);
    }
  }

  lemma RowLinesRead(rows: seq<Finding>)
    requires forall f <- rows :: Printable(f)
    ensures forall l <- RowLines(rows) :: OneLine(l)
    ensures RowsOf(RowLines(rows), Some(COLUMNS)) == Map(Read, rows)
  {
    forall f | f in rows
      ensures OneLine(RowLine(f)) && InTable(RowLine(f)) && CellsOf(RowLine(f)) == ReadCells(f)
    {
      RowReads(f);
    }
    LinesRead(rows, RowLine, ReadCells, COLUMNS, Read);
  }

  lemma {:induction false} PreambleSkipped(preamble: seq<string>, rest: seq<string>, header: Option<seq<string>>)
    requires forall l <- preamble :: !Piped(l)
    ensures RowsOf(preamble + rest, header) == RowsOf(rest, header)
  {
    if preamble == [] {
      assert preamble + rest == rest;
    } else {
      assert (preamble + rest)[1..] == preamble[1..] + rest;
      PreambleSkipped(preamble[1..], rest, header);
    }
  }

  predicate Word(s: string) {
    s != "" && forall c <- s :: 'a' <= c <= 'z'
  }

  lemma WordIsItself(s: string)
    requires Word(s)
    ensures Strip(s) == s && Lower(s) == s
  {
    assert s[0] in s && s[|s| - 1] in s;
    forall i | 0 <= i < |s|
      ensures Lower(s)[i] == s[i]
    {
      assert s[i] in s;
    }
  }

  lemma WordIsPrinted(s: string)
    requires Word(s)
    ensures Escape(s) == s && OneLine(s)
  {
    PipelessIsEscaped(s);
  }

  lemma ColumnsAreWords()
    ensures forall s <- COLUMNS :: Word(s)
  {
    forall i | 0 <= i < |COLUMNS|
      ensures Word(COLUMNS[i])
    {
    }
  }

  lemma ColumnsAreThemselves()
    ensures Escaped(COLUMNS) == COLUMNS && Trimmed(COLUMNS) == COLUMNS && Map(Lower, COLUMNS) == COLUMNS
    ensures forall i | 0 <= i < |COLUMNS| :: OneLine(COLUMNS[i])
  {
    ColumnsAreWords();
    forall i | 0 <= i < |COLUMNS|
      ensures Strip(COLUMNS[i]) == COLUMNS[i] && Lower(COLUMNS[i]) == COLUMNS[i]
      ensures Escape(COLUMNS[i]) == COLUMNS[i] && OneLine(COLUMNS[i])
    {
      assert COLUMNS[i] in COLUMNS;
      WordIsItself(COLUMNS[i]);
      WordIsPrinted(COLUMNS[i]);
    }
  }

  lemma HeaderReads()
    ensures Map(Lower, CellsOf(Line(COLUMNS))) == COLUMNS
    ensures OneLine(Line(COLUMNS)) && InTable(Line(COLUMNS))
  {
    ColumnsAreThemselves();
    LineReads(COLUMNS);
    LineInTable(COLUMNS);
    LineOneLine(COLUMNS);
  }

  lemma RuleIsSkipped()
    ensures OneLine(RULE) && !InTable(RULE)
  {
  }

  /** A table's lines: the header, the rule and the rows. */
  lemma TableReads(header: string, rule: string, rows: seq<Finding>)
    requires InTable(header) && Map(Lower, CellsOf(header)) == COLUMNS && !InTable(rule)
    requires forall f <- rows :: Printable(f)
    ensures RowsOf([header, rule] + RowLines(rows), None) == Map(Read, rows)
  {
    RowLinesRead(rows);
    var table := [header, rule] + RowLines(rows);
    assert table[1..] == [rule] + RowLines(rows) && table[1..][1..] == RowLines(rows);
  }

  /** What the gate reads back from the printed file is one row per finding, in order, whatever mix
      of pipes and backslashes the quotes hold. */
  lemma SkeletonReadsBack(preamble: seq<string>, rows: seq<Finding>)
    requires forall l <- preamble :: OneLine(l) && !Piped(l)
    requires forall f <- rows :: Printable(f)
    ensures RowsOf(Lines(Skeleton(preamble, rows)), None) == Map(Read, rows)
  {
    HeaderReads();
    RuleIsSkipped();
    FileReads(preamble, Line(COLUMNS), RULE, rows);
  }

  lemma FileReads(preamble: seq<string>, header: string, rule: string, rows: seq<Finding>)
    requires forall l <- preamble :: OneLine(l) && !Piped(l)
    requires InTable(header) && Map(Lower, CellsOf(header)) == COLUMNS && !InTable(rule)
    requires OneLine(header) && OneLine(rule)
    requires forall f <- rows :: Printable(f)
    ensures RowsOf(Lines(Joined(preamble + [header, rule] + RowLines(rows))), None) == Map(Read, rows)
  {
    var table := [header, rule] + RowLines(rows);
    RowLinesRead(rows);
    TableReads(header, rule, rows);
    LinesAreRead(preamble, table);
    Appended(preamble, [header, rule], RowLines(rows));
  }

  lemma Appended(a: seq<string>, b: seq<string>, c: seq<string>)
    ensures a + (b + c) == a + b + c
  {
  }

  /** A file's rows are those of the lines under its preamble. */
  lemma LinesAreRead(preamble: seq<string>, table: seq<string>)
    requires forall l <- preamble :: OneLine(l) && !Piped(l)
    requires forall l <- table :: OneLine(l)
    ensures RowsOf(Lines(Joined(preamble + table)), None) == RowsOf(table, None)
  {
    JoinedSplits(preamble + table);
    PreambleSkipped(preamble, table, None);
  }
}

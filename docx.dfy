/** The report document as a sequence of abstract blocks, and the parsers
    that turn the model's Markdown answers into blocks: inline emphasis and
    equations, pipe tables, the line-by-line section parser, subsections
    whose first heading is dropped, the fixed order of a chapter, and the
    truncated notebook output cells. */
module Docx {

  import opened Wrappers
  import opened Text
  import Latex

  // ------------------------------------------------------------------
  // Blocks
  // ------------------------------------------------------------------

  /** A run of a paragraph: text with its emphasis, or an inline equation
      (rendered as a native equation, or as Unicode text when that fails). */
  datatype Run = TextRun(text: String, bold: bool, italic: bool) | InlineEquation(latex: String)

  datatype ParagraphStyle = Body | ListBullet | ListNumber

  datatype Block =
    | Heading(level: nat, text: String)
    | Equation(latex: String)
    | Paragraph(style: ParagraphStyle, runs: seq<Run>)
    | Table(headers: seq<String>, rows: seq<seq<String>>)
    | BlankParagraph
    | PageBreak
    | Picture(path: String, caption: String)
    | MissingGraph(filename: String)
    | OutputLabel
    | OutputLine(text: String)
    | OutputImage
    | TruncationNotice(omitted: nat)

  // ------------------------------------------------------------------
  // Inline runs
  // ------------------------------------------------------------------

  /** The first index at or after `i` that holds `c`, or `|s|`. */
  function NextChar(s: String, c: char, i: nat): (j: nat)
    requires i <= |s|
    ensures i <= j <= |s|
    ensures j < |s| ==> s[j] == c
    ensures forall k :: i <= k < j ==> s[k] != c
    decreases |s| - i
  {
    if i == |s| || s[i] == c then i else NextChar(s, c, i + 1)
  }

  /** `D[^d]+?D` matched at `p`, where the delimiter `D` is made of the
      character `d`: the end of the match. The body cannot hold `d`, so it
      runs exactly to the next `d`. */
  function Delimited(s: String, p: nat, delim: String, d: char): (r: Option<nat>)
    requires p <= |s|
    ensures r.Some? ==> p + 2 * |delim| < r.value <= |s|
  {
    if p + |delim| <= |s| && s[p..p + |delim|] == delim then
      var j := NextChar(s, d, p + |delim|);
      if j > p + |delim| && j + |delim| <= |s| && s[j..j + |delim|] == delim then Some(j + |delim|) else None
    else None
  }

  /** The alternatives of the inline pattern, tried in order at `p`:
      bold italic, bold, italic, inline equation. */
  function InlineMatch(s: String, p: nat): (r: Option<nat>)
    requires p <= |s|
    ensures r.Some? ==> p < r.value <= |s|
  {
    match Delimited(s, p, "***", '*')
    case Some(e) => Some(e)
    case None =>
      match Delimited(s, p, "**", '*')
      case Some(e) => Some(e)
      case None =>
        match Delimited(s, p, "*", '*')
        case Some(e) => Some(e)
        case None => Delimited(s, p, "$", '$')
  }

  /** `re.split` with one capturing group, from `p` on, the current
      unmatched text starting at `start`: unmatched text and matches
      alternate, the matches at the odd positions. */
  function SplitFrom(s: String, start: nat, p: nat): (parts: seq<String>)
    requires start <= p <= |s|
    ensures |parts| % 2 == 1
    decreases |s| - p
  {
    if p == |s| then [s[start..]]
    else match InlineMatch(s, p)
      case Some(e) => [s[start..p], s[p..e]] + SplitFrom(s, e, e)
      case None => SplitFrom(s, start, p + 1)
  }

  function InlineParts(s: String): seq<String> {
    SplitFrom(s, 0, 0)
  }

  /** A part the inline pattern matched: delimiter, a body free of the
      delimiter's character, delimiter. */
  predicate Wrapped(t: String, delim: String, d: char) {
    |t| > 2 * |delim| && t[..|delim|] == delim && t[|t| - |delim|..] == delim &&
    d !in t[|delim|..|t| - |delim|]
  }

  predicate IsMatch(t: String) {
    Wrapped(t, "***", '*') || Wrapped(t, "**", '*') || Wrapped(t, "*", '*') || Wrapped(t, "$", '$')
  }

  /** The body of a match, between its delimiters. */
  function Inner(t: String): String {
    if Wrapped(t, "***", '*') then t[3..|t| - 3]
    else if Wrapped(t, "**", '*') then t[2..|t| - 2]
    else if |t| >= 2 then t[1..|t| - 1]
    else t
  }

  /** The run a part becomes, by its delimiters and length. */
  function RunOf(part: String): Run {
    if |part| > 6 && part[..3] == "***" && part[|part| - 3..] == "***" then TextRun(part[3..|part| - 3], true, true)
    else if |part| > 4 && part[..2] == "**" && part[|part| - 2..] == "**" then TextRun(part[2..|part| - 2], true, false)
    else if |part| > 2 && part[0] == '*' && part[|part| - 1] == '*' then TextRun(part[1..|part| - 1], false, true)
    else if |part| > 2 && part[0] == '$' && part[|part| - 1] == '$' then InlineEquation(part[1..|part| - 1])
    else TextRun(part, false, false)
  }

  /** The runs of the parts, empty parts skipped. */
  function RunsOf(parts: seq<String>): seq<Run> {
    if parts == [] then []
    else RunsOf(parts[..|parts| - 1]) + (if parts[|parts| - 1] == [] then [] else [RunOf(parts[|parts| - 1])])
  }

  /** `_add_formatted_runs`: the runs a text becomes. */
  function FormattedRuns(text: String): seq<Run> {
    RunsOf(InlineParts(text))
  }

  predicate Formatted(r: Run) {
    r.InlineEquation? || r.bold || r.italic
  }

  function RunContent(r: Run): String {
    match r
    case TextRun(t, _, _) => t
    case InlineEquation(l) => l
  }

  /** A match found at `p` is one of the four wrapped forms. */
  lemma InlineMatchWrapped(s: String, p: nat)
    requires p <= |s| && InlineMatch(s, p).Some?
    ensures IsMatch(s[p..InlineMatch(s, p).value])
  {
    var e := InlineMatch(s, p).value;
    var t := s[p..e];
    if Delimited(s, p, "***", '*').Some? {
      DelimitedWrapped(s, p, "***", '*');
    } else if Delimited(s, p, "**", '*').Some? {
      DelimitedWrapped(s, p, "**", '*');
    } else if Delimited(s, p, "*", '*').Some? {
      DelimitedWrapped(s, p, "*", '*');
    } else {
      DelimitedWrapped(s, p, "$", '$');
    }
  }

  lemma DelimitedWrapped(s: String, p: nat, delim: String, d: char)
    requires p <= |s| && Delimited(s, p, delim, d).Some?
    ensures Wrapped(s[p..Delimited(s, p, delim, d).value], delim, d)
  {
    var e := Delimited(s, p, delim, d).value;
    var j := NextChar(s, d, p + |delim|);
    var t := s[p..e];
    assert e == j + |delim|;
    assert t[..|delim|] == s[p..p + |delim|];
    assert t[|t| - |delim|..] == s[j..j + |delim|];
    assert t[|delim|..|t| - |delim|] == s[p + |delim|..j];
  }

  /** The parts of the split give the text back. */
  lemma {:induction false} SplitFromConcat(s: String, start: nat, p: nat)
    requires start <= p <= |s|
    ensures Concat(SplitFrom(s, start, p)) == s[start..]
    decreases |s| - p
  {
    if p == |s| {
      ConcatOne(s[start..]);
    } else {
      match InlineMatch(s, p)
      case Some(e) =>
        SplitFromConcat(s, e, e);
        ConcatMatched(s, start, p, e, SplitFrom(s, e, e));
      case None =>
        SplitFromConcat(s, start, p + 1);
    }
  }

  lemma ConcatOne(a: String)
    ensures Concat([a]) == a
  {
    assert [a][1..] == [];
    assert a + [] == a;
  }

  /** The text before a match, the match and the parts after it give the
      text back from `start`. */
  lemma ConcatMatched(s: String, start: nat, p: nat, e: nat, rest: seq<String>)
    requires start <= p <= e <= |s|
    requires Concat(rest) == s[e..]
    ensures Concat([s[start..p], s[p..e]] + rest) == s[start..]
  {
    ConcatTwo(s[start..p], s[p..e], rest);
    SliceThree(s, start, p, e);
  }

  lemma ConcatTwo(a: String, b: String, rest: seq<String>)
    ensures Concat([a, b] + rest) == a + (b + Concat(rest))
  {
    var parts := [a, b] + rest;
    assert parts[1..] == [b] + rest;
    assert parts[1..][1..] == rest;
  }

  lemma SliceThree(s: String, i: nat, j: nat, k: nat)
    requires i <= j <= k <= |s|
    ensures s[i..] == s[i..j] + (s[j..k] + s[k..])
  {
  }

  /** Matched parts sit at the odd positions of the split. */
  lemma {:induction false} SplitFromMatches(s: String, start: nat, p: nat)
    requires start <= p <= |s|
    ensures forall k :: 0 <= k < |SplitFrom(s, start, p)| && k % 2 == 1 ==> IsMatch(SplitFrom(s, start, p)[k])
    decreases |s| - p
  {
    if p < |s| {
      match InlineMatch(s, p)
      case Some(e) =>
        SplitFromMatches(s, e, e);
        InlineMatchWrapped(s, p);
        MatchesCons(s[start..p], s[p..e], SplitFrom(s, e, e));
      case None =>
        SplitFromMatches(s, start, p + 1);
    }
  }

  /** Prepending plain text and a match keeps the matches at odd positions. */
  lemma MatchesCons(plain: String, m: String, rest: seq<String>)
    requires IsMatch(m)
    requires forall k :: 0 <= k < |rest| && k % 2 == 1 ==> IsMatch(rest[k])
    ensures forall k :: 0 <= k < |[plain, m] + rest| && k % 2 == 1 ==> IsMatch(([plain, m] + rest)[k])
  {
    var parts := [plain, m] + rest;
    forall k | 0 <= k < |parts| && k % 2 == 1
      ensures IsMatch(parts[k])
    {
      if k > 1 {
        assert parts[k] == rest[k - 2];
      }
    }
  }


  /** The runs of a matched part: the body, emphasised as its delimiters say. */
  lemma MatchRun(t: String)
    requires IsMatch(t)
    ensures Formatted(RunOf(t)) && RunContent(RunOf(t)) == Inner(t)
  {
    if Wrapped(t, "***", '*') {
    } else if Wrapped(t, "**", '*') {
      assert t[2] in t[2..|t| - 2];
    } else if Wrapped(t, "*", '*') {
      assert t[1] in t[1..|t| - 1];
      assert t[..3] != "***";
    } else {
      assert t[0] == '$';
    }
  }

  /** Every match of the inline pattern becomes an emphasised run or an
      inline equation holding the match's body, and the parts give back the
      text. */
  lemma InlinePartsSpec(s: String)
    ensures Concat(InlineParts(s)) == s
    ensures forall k :: 0 <= k < |InlineParts(s)| && k % 2 == 1 ==>
      Formatted(RunOf(InlineParts(s)[k])) && RunContent(RunOf(InlineParts(s)[k])) == Inner(InlineParts(s)[k])
  {
    SplitFromConcat(s, 0, 0);
    SplitFromMatches(s, 0, 0);
    forall k | 0 <= k < |InlineParts(s)| && k % 2 == 1
      ensures Formatted(RunOf(InlineParts(s)[k])) && RunContent(RunOf(InlineParts(s)[k])) == Inner(InlineParts(s)[k])
    {
      MatchRun(InlineParts(s)[k]);
    }
  }

  /** Without `*` or `$` the text is one plain run (none when it is empty). */
  lemma PlainRuns(s: String)
    requires '*' !in s && '$' !in s
    ensures FormattedRuns(s) == if s == [] then [] else [TextRun(s, false, false)]
  {
    NoMatchSplit(s, |s|);
    assert InlineParts(s) == [s];
    assert [s][..0] == [];
    assert FormattedRuns(s) == RunsOf([]) + (if s == [] then [] else [RunOf(s)]);
    if s != [] {
      assert s[0] != '*' && s[0] != '$';
      if |s| > 2 {
        assert s[..3][0] == s[0] && s[..2][0] == s[0];
      }
      assert RunOf(s) == TextRun(s, false, false);
    }
  }

  lemma {:induction false} NoMatchSplit(s: String, p: nat)
    requires '*' !in s && '$' !in s && p <= |s|
    ensures SplitFrom(s, 0, |s| - p) == [s]
    decreases p
  {
    var q := |s| - p;
    if p > 0 {
      assert s[q] != '*' && s[q] != '$';
      assert InlineMatch(s, q).None?;
      NoMatchSplit(s, p - 1);
    }
  }

  // ------------------------------------------------------------------
  // Pipe tables
  // ------------------------------------------------------------------

  /** The stripped, non-empty pieces of a row split at `|`. */
  function CellsOf(pieces: seq<String>): seq<String>
  {
    if pieces == [] then []
    else
      var last := Strip(pieces[|pieces| - 1]);
      CellsOf(pieces[..|pieces| - 1]) + (if last == [] then [] else [last])
  }

  function Cells(line: String): seq<String> {
    CellsOf(Split(line, '|'))
  }

  /** `^[\|\s\-:]+$`: a separator row under the header. */
  predicate IsSeparatorRow(line: String) {
    |line| > 0 && forall k :: 0 <= k < |line| ==> line[k] == '|' || line[k] == '-' || line[k] == ':' || IsSpace(line[k])
  }

  /** The rows that have cells, in order. */
  function NonEmptyRows(rows: seq<seq<String>>): seq<seq<String>>
  {
    if rows == [] then []
    else
      var last := rows[|rows| - 1];
      NonEmptyRows(rows[..|rows| - 1]) + (if last == [] then [] else [last])
  }

  /** The cells of each line. */
  function CellRows(lines: seq<String>): seq<seq<String>> {
    seq(|lines|, k requires 0 <= k < |lines| => Cells(lines[k]))
  }

  /** The rows of the table body, rows without cells dropped. */
  function DataRows(lines: seq<String>): seq<seq<String>> {
    NonEmptyRows(CellRows(lines))
  }

  /** `re.sub(r'\*\*(.+?)\*\*', r'\1', s)`: bold markers around a non-empty
      body without line breaks are removed. */
  function UnwrapBold(s: String): (r: String)
    ensures |r| <= |s|
    decreases |s|
  {
    if |s| < 2 then s
    else if s[..2] == "**" then
      match IndexOfFrom(s, "**", 3)
      case Some(j) =>
        if '\n' in s[2..j] then [s[0]] + UnwrapBold(s[1..])
        else s[2..j] + UnwrapBold(s[j + 2..])
      case None => [s[0]] + UnwrapBold(s[1..])
    else [s[0]] + UnwrapBold(s[1..])
  }

  /** A body row fitted to the header: extra cells ignored, missing ones empty. */
  function FitRow(cells: seq<String>, n: nat, unwrap: bool): (row: seq<String>)
    ensures |row| == n
  {
    seq(n, j requires 0 <= j < n => if j < |cells| then (if unwrap then UnwrapBold(cells[j]) else cells[j]) else [])
  }

  function FitRows(rows: seq<seq<String>>, n: nat, unwrap: bool): (fitted: seq<seq<String>>)
    ensures |fitted| == |rows|
    ensures forall i :: 0 <= i < |fitted| ==> |fitted[i]| == n
  {
    seq(|rows|, i requires 0 <= i < |rows| => FitRow(rows[i], n, unwrap))
  }

  /** `_add_markdown_table`: the table of a run of pipe lines and the empty
      paragraph after it, or nothing with fewer than two lines or no header. */
  function TableBlocks(lines: seq<String>): seq<Block> {
    if |lines| < 2 then []
    else
      var headers := Cells(lines[0]);
      var start := if IsSeparatorRow(lines[1]) then 2 else 1;
      var rows := DataRows(lines[start..]);
      if headers == [] then []
      else [Table(headers, FitRows(rows, |headers|, true)), BlankParagraph]
  }

  /** A table always has a header and every row has one cell per header. */
  lemma TableShape(lines: seq<String>)
    ensures var b := TableBlocks(lines);
            b == [] || (|b| == 2 && b[0].Table? && b[0].headers != [] && b[1] == BlankParagraph &&
                        forall i :: 0 <= i < |b[0].rows| ==> |b[0].rows[i]| == |b[0].headers|)
    ensures |lines| < 2 ==> TableBlocks(lines) == []
  {
  }

  /** No `*`: the cell is kept as it is. */
  lemma {:induction false} UnwrapBoldPlain(s: String)
    requires '*' !in s
    ensures UnwrapBold(s) == s
    decreases |s|
  {
    if |s| >= 2 {
      assert s[0] != '*';
      assert s[..2] != "**";
      UnwrapBoldPlain(s[1..]);
      assert s == [s[0]] + s[1..];
    }
  }

  /** `**x**` loses its markers. */
  lemma UnwrapBoldCell(x: String)
    requires x != [] && '*' !in x && '\n' !in x
    ensures UnwrapBold("**" + x + "**") == x
  {
    var s := "**" + x + "**";
    var j := |x| + 2;
    assert s[..2] == "**";
    assert OccursAt(s, "**", j) by {
      assert s[j..j + 2] == "**";
    }
    forall m | 3 <= m < j
      ensures !OccursAt(s, "**", m)
    {
      assert s[m] == x[m - 2] != '*';
      assert s[m..m + 2][0] == s[m];
    }
    assert IndexOfFrom(s, "**", 3) == Some(j);
    assert s[2..j] == x;
    assert s[j + 2..] == [];
    assert x + [] == x;
  }

  /** A cell that survives rendering and reading back: non-empty, stripped,
      without pipes, asterisks or line breaks. */
  predicate CleanCell(c: String) {
    c != [] && !IsSpace(c[0]) && !IsSpace(c[|c| - 1]) && '|' !in c && '*' !in c && '\n' !in c
  }

  predicate CleanRow(cells: seq<String>) {
    cells != [] && forall k :: 0 <= k < |cells| ==> CleanCell(cells[k])
  }

  /** A row as pipe text: the cells between pipes, with a pipe at each end. */
  function RenderRow(cells: seq<String>): String {
    Join([[]] + cells + [[]], "|")
  }

  const SEPARATOR_ROW: String := "|---|"

  function RenderRows(rows: seq<seq<String>>): (lines: seq<String>)
    ensures |lines| == |rows|
  {
    seq(|rows|, i requires 0 <= i < |rows| => RenderRow(rows[i]))
  }

  function RenderTable(headers: seq<String>, rows: seq<seq<String>>): seq<String> {
    [RenderRow(headers), SEPARATOR_ROW] + RenderRows(rows)
  }

  lemma StripClean(c: String)
    requires c != [] && !IsSpace(c[0]) && !IsSpace(c[|c| - 1])
    ensures Strip(c) == c
  {
    assert LStrip(c) == c;
    assert RStrip(c) == c;
  }

  lemma {:induction false} CellsOfClean(cells: seq<String>)
    requires forall k :: 0 <= k < |cells| ==> CleanCell(cells[k])
    ensures CellsOf(cells) == cells
  {
    if cells != [] {
      var n := |cells| - 1;
      StripClean(cells[n]);
      CellsOfClean(cells[..n]);
      assert cells == cells[..n] + [cells[n]];
    }
  }

  lemma {:induction false} CellsOfAppend(a: seq<String>, b: seq<String>)
    ensures CellsOf(a + b) == CellsOf(a) + CellsOf(b)
  {
    if b == [] {
      assert a + b == a;
    } else {
      var n := |b| - 1;
      assert (a + b)[..|a + b| - 1] == a + b[..n];
      assert (a + b)[|a + b| - 1] == b[n];
      CellsOfAppend(a, b[..n]);
    }
  }

  lemma SplitRendered(cells: seq<String>)
    requires forall k :: 0 <= k < |cells| ==> '|' !in cells[k]
    ensures Split(RenderRow(cells), '|') == [[]] + cells + [[]]
  {
    var pieces := [[]] + cells + [[]];
    forall k | 0 <= k < |pieces|
      ensures '|' !in pieces[k]
    {
      if 0 < k < |pieces| - 1 {
        assert pieces[k] == cells[k - 1];
      }
    }
    SplitJoin(pieces, '|');
  }

  lemma CellsOfPadded(cells: seq<String>)
    requires forall k :: 0 <= k < |cells| ==> CleanCell(cells[k])
    ensures CellsOf([[]] + cells + [[]]) == cells
  {
    CellsOfAppend([[]] + cells, [[]]);
    CellsOfAppend([[]], cells);
    CellsOfClean(cells);
    assert Strip([]) == [];
  }

  /** Reading a rendered row gives its cells back. */
  lemma RowRoundTrip(cells: seq<String>)
    requires CleanRow(cells)
    ensures Cells(RenderRow(cells)) == cells
  {
    SplitRendered(cells);
    CellsOfPadded(cells);
  }

  lemma {:induction false} NonEmptyRowsAll(rows: seq<seq<String>>)
    requires forall i :: 0 <= i < |rows| ==> rows[i] != []
    ensures NonEmptyRows(rows) == rows
  {
    if rows != [] {
      NonEmptyRowsAll(rows[..|rows| - 1]);
    }
  }

  /** Lines whose cells are the given non-empty rows are read as those rows. */
  lemma DataRowsExact(lines: seq<String>, rows: seq<seq<String>>)
    requires |lines| == |rows|
    requires forall i :: 0 <= i < |rows| ==> Cells(lines[i]) == rows[i] && rows[i] != []
    ensures DataRows(lines) == rows
  {
    assert CellRows(lines) == rows;
    NonEmptyRowsAll(rows);
  }

  lemma NonEmptyRowsSnoc(rows: seq<seq<String>>, row: seq<String>)
    ensures NonEmptyRows(rows + [row]) == NonEmptyRows(rows) + (if row == [] then [] else [row])
  {
    assert (rows + [row])[..|rows|] == rows;
  }

  lemma CellRowsSnoc(lines: seq<String>, line: String)
    ensures CellRows(lines + [line]) == CellRows(lines) + [Cells(line)]
  {
  }

  lemma DataRowsSnoc(lines: seq<String>, line: String)
    ensures DataRows(lines + [line]) == DataRows(lines) + (if Cells(line) == [] then [] else [Cells(line)])
  {
    CellRowsSnoc(lines, line);
    NonEmptyRowsSnoc(CellRows(lines), Cells(line));
  }

  lemma DataRowsPrefix(lines: seq<String>, i: nat)
    requires i < |lines|
    ensures DataRows(lines[..i + 1]) == DataRows(lines[..i]) + (if Cells(lines[i]) == [] then [] else [Cells(lines[i])])
  {
    assert lines[..i + 1] == lines[..i] + [lines[i]];
    DataRowsSnoc(lines[..i], lines[i]);
  }

  lemma DataRowsRendered(rows: seq<seq<String>>)
    requires forall i :: 0 <= i < |rows| ==> CleanRow(rows[i])
    ensures DataRows(RenderRows(rows)) == rows
  {
    var lines := RenderRows(rows);
    forall i | 0 <= i < |rows|
      ensures Cells(lines[i]) == rows[i]
    {
      RowRoundTrip(rows[i]);
    }
    DataRowsExact(lines, rows);
  }

  lemma FitRowsExact(rows: seq<seq<String>>, n: nat)
    requires forall i :: 0 <= i < |rows| ==> |rows[i]| == n && forall k :: 0 <= k < n ==> '*' !in rows[i][k]
    ensures FitRows(rows, n, true) == rows
  {
    forall i | 0 <= i < |rows|
      ensures FitRow(rows[i], n, true) == rows[i]
    {
      forall j | 0 <= j < n
        ensures FitRow(rows[i], n, true)[j] == rows[i][j]
      {
        UnwrapBoldPlain(rows[i][j]);
      }
    }
  }

  lemma SeparatedTable(lines: seq<String>)
    requires |lines| >= 2 && IsSeparatorRow(lines[1]) && Cells(lines[0]) != []
    ensures TableBlocks(lines) == [Table(Cells(lines[0]), FitRows(DataRows(lines[2..]), |Cells(lines[0])|, true)), BlankParagraph]
  {
  }

  /** A table written as pipe rows with a separator row reads back as the
      same table. */
  lemma TableRoundTrip(headers: seq<String>, rows: seq<seq<String>>)
    requires CleanRow(headers)
    requires forall i :: 0 <= i < |rows| ==> |rows[i]| == |headers| && CleanRow(rows[i])
    ensures TableBlocks(RenderTable(headers, rows)) == [Table(headers, rows), BlankParagraph]
  {
    var lines := RenderTable(headers, rows);
    RowRoundTrip(headers);
    assert lines[0] == RenderRow(headers);
    assert IsSeparatorRow(lines[1]);
    assert lines[2..] == RenderRows(rows);
    SeparatedTable(lines);
    DataRowsRendered(rows);
    FitRowsExact(rows, |headers|);
  }

  // ------------------------------------------------------------------
  // The section parser
  // ------------------------------------------------------------------

  predicate IsAsciiDigit(c: char) {
    '0' <= c <= '9'
  }

  /** The end of the run of ASCII digits starting at `i`. */
  function DigitsEnd(s: String, i: nat): (j: nat)
    requires i <= |s|
    ensures i <= j <= |s|
    ensures forall k :: i <= k < j ==> IsAsciiDigit(s[k])
    ensures j < |s| ==> !IsAsciiDigit(s[j])
    decreases |s| - i
  {
    if i == |s| || !IsAsciiDigit(s[i]) then i else DigitsEnd(s, i + 1)
  }

  /** The end of the run of whitespace starting at `i`. */
  function SpacesEnd(s: String, i: nat): (j: nat)
    requires i <= |s|
    ensures i <= j <= |s|
    ensures forall k :: i <= k < j ==> IsSpace(s[k])
    ensures j < |s| ==> !IsSpace(s[j])
    decreases |s| - i
  {
    if i == |s| || !IsSpace(s[i]) then i else SpacesEnd(s, i + 1)
  }

  /** The last index in `[lo, hi)` that does not hold a line break. */
  function LastNotNewline(s: String, lo: nat, hi: nat): (r: Option<nat>)
    requires hi <= |s|
    ensures r.Some? ==> lo <= r.value < hi && s[r.value] != '\n'
    ensures r.None? ==> forall k :: lo <= k < hi ==> s[k] == '\n'
    decreases hi
  {
    if hi <= lo then None
    else if s[hi - 1] != '\n' then Some(hi - 1)
    else LastNotNewline(s, lo, hi - 1)
  }

  /** `re.match(r'^(\d+)\.\s+(.+)', s).group(2)`: digits, a dot, whitespace,
      and the item text up to the end of the line. When the whitespace runs
      to the end, `\s+` gives characters back to `.+`. */
  function NumberedItem(s: String): (r: Option<String>)
  {
    var d := DigitsEnd(s, 0);
    if d == 0 || d == |s| || s[d] != '.' then None
    else
      var w := SpacesEnd(s, d + 1);
      if w == d + 1 then None
      else if w < |s| then Some(s[w..NextChar(s, '\n', w)])
      else match LastNotNewline(s, d + 2, |s|)
        case None => None
        case Some(k) => Some(s[k..NextChar(s, '\n', k)])
  }

  /** The stripped line ends an equation. */
  predicate ClosesEquation(line: String) {
    var st := Strip(line);
    |st| >= 2 && st[|st| - 2] == '$' && st[|st| - 1] == '$'
  }

  /** The stripped line is a table row. */
  predicate IsTableRow(line: String) {
    "|" <= Strip(line)
  }

  /** The first line at or after `j` that closes an equation, or the number
      of lines. */
  function EquationEnd(lines: seq<String>, j: nat): (k: nat)
    requires j <= |lines|
    ensures j <= k <= |lines|
    ensures k < |lines| ==> ClosesEquation(lines[k])
    decreases |lines| - j
  {
    if j == |lines| || ClosesEquation(lines[j]) then j else EquationEnd(lines, j + 1)
  }

  /** The first line at or after `j` that is no table row, or the number of
      lines. */
  function TableEnd(lines: seq<String>, j: nat): (k: nat)
    requires j <= |lines|
    ensures j <= k <= |lines|
    ensures k < |lines| ==> !IsTableRow(lines[k])
    ensures forall m :: j <= m < k ==> IsTableRow(lines[m])
    decreases |lines| - j
  {
    if j == |lines| || !IsTableRow(lines[j]) then j else TableEnd(lines, j + 1)
  }

  /** The stripped lines `j` to `k`. */
  function StrippedLines(lines: seq<String>, j: nat, k: nat): (r: seq<String>)
    requires j <= k <= |lines|
    ensures |r| == k - j
    decreases k
  {
    if k == j then [] else StrippedLines(lines, j, k - 1) + [Strip(lines[k - 1])]
  }

  /** The text of an equation opened by `$$` on line `i` and closed on line
      `k` (or never, when `k` is the number of lines): the pieces without
      their `$$`, joined by spaces and stripped. */
  function MultiLineLatex(lines: seq<String>, i: nat, k: nat): String
    requires i < k <= |lines| && |Strip(lines[i])| >= 2
    requires k < |lines| ==> ClosesEquation(lines[k])
  {
    Strip(Join(EquationLines(lines, i, k), " "))
  }

  /** The pieces of that equation: the opening line after its `$$`, the
      stripped lines in between, the closing line before its `$$`. */
  function EquationLines(lines: seq<String>, i: nat, k: nat): seq<String>
    requires i < k <= |lines| && |Strip(lines[i])| >= 2
    requires k < |lines| ==> ClosesEquation(lines[k])
  {
    var first := Strip(lines[i])[2..];
    var closing := if k < |lines| then [Strip(lines[k])[..|Strip(lines[k])| - 2]] else [];
    [first] + StrippedLines(lines, i + 1, k) + closing
  }

  /** A heading of level two that repeats the section title the report
      already added. */
  predicate IsSectionTitle(t: String) {
    "SEÇÃO" <= t || "SECAO" <= t
  }

  predicate IsRule(st: String) {
    st == "---" || st == "***" || st == "___"
  }

  /** The kinds of line the parser tells apart. */
  datatype LineKind =
    | BlankLine
    | DisplayEquation
    | HeadingLine(level: nat)
    | RuleLine
    | TableLine
    | BulletLine
    | NumberedLine(item: String)
    | TextLine

  /** The kind of a stripped line; the first matching rule wins: blank,
      `$$`, `#### `, `### `, `## `, rule, pipe, bullet, numbered item, text. */
  function Classify(st: String): (r: LineKind)
    ensures r.DisplayEquation? ==> "$$" <= st
    ensures r.HeadingLine? ==> 2 <= r.level <= 4 && r.level < |st|
    ensures r.BulletLine? ==> |st| >= 2
  {
    if st == [] then BlankLine
    else if "$$" <= st then DisplayEquation
    else if "#### " <= st then HeadingLine(4)
    else if "### " <= st then HeadingLine(3)
    else if "## " <= st then HeadingLine(2)
    else if IsRule(st) then RuleLine
    else if "|" <= st then TableLine
    else if "- " <= st || "* " <= st then BulletLine
    else match NumberedItem(st)
      case Some(t) => NumberedLine(t)
      case None => TextLine
  }

  /** What one iteration of the parser adds, and the line it goes on with. */
  datatype Step = Step(blocks: seq<Block>, next: nat)

  /** The blocks of a heading line: its text after the marker, stripped; a
      level-two heading repeating the section title is dropped. */
  function HeadingBlocks(st: String, level: nat): seq<Block>
    requires level < |st|
  {
    var title := Strip(st[level + 1..]);
    if level == 2 && IsSectionTitle(title) then [] else [Heading(level, title)]
  }

  /** One iteration of `add_section_from_markdown` at line `i`. */
  function ParseStep(lines: seq<String>, i: nat): (r: Step)
    requires i < |lines|
    ensures i < r.next <= |lines| + 1
  {
    var st := Strip(lines[i]);
    match Classify(st)
    case BlankLine => Step([], i + 1)
    case DisplayEquation =>
      if EndsWith(st, "$$") && |st| > 4 then Step([Equation(Strip(st[2..|st| - 2]))], i + 1)
      else
        var k := EquationEnd(lines, i + 1);
        Step([Equation(MultiLineLatex(lines, i, k))], k + 1)
    case HeadingLine(level) => Step(HeadingBlocks(st, level), i + 1)
    case RuleLine => Step([], i + 1)
    case TableLine =>
      var k := TableEnd(lines, i + 1);
      Step(TableBlocks(StrippedLines(lines, i, k)), k)
    case BulletLine => Step([Paragraph(ListBullet, FormattedRuns(st[2..]))], i + 1)
    case NumberedLine(t) => Step([Paragraph(ListNumber, FormattedRuns(t))], i + 1)
    case TextLine => Step([Paragraph(Body, FormattedRuns(st))], i + 1)
  }

  /** The blocks of the lines from `i` on. */
  function ParseFrom(lines: seq<String>, i: nat): seq<Block>
    requires i <= |lines| + 1
    decreases |lines| + 1 - i
  {
    if i >= |lines| then []
    else
      var r := ParseStep(lines, i);
      r.blocks + ParseFrom(lines, r.next)
  }

  /** `add_section_from_markdown`: the blocks of a Markdown text. */
  function ParseSection(markdown: String): seq<Block> {
    ParseFrom(Split(markdown, '\n'), 0)
  }

  /** Blank lines and horizontal rules add nothing. */
  lemma {:induction false} BlankAndRulesAddNothing(lines: seq<String>, i: nat)
    requires i <= |lines| + 1
    requires forall k :: 0 <= k < |lines| ==> Strip(lines[k]) == [] || IsRule(Strip(lines[k]))
    ensures ParseFrom(lines, i) == []
    decreases |lines| + 1 - i
  {
    if i < |lines| {
      var st := Strip(lines[i]);
      if st != [] {
        assert |st| == 3 && st[0] != '$' && st[0] != '#';
        NotPrefixAt("$$", st, 0);
        NotPrefixAt("#### ", st, 0);
        NotPrefixAt("### ", st, 0);
        NotPrefixAt("## ", st, 0);
        assert Classify(st) == RuleLine;
      }
      BlankAndRulesAddNothing(lines, i + 1);
    }
  }

  /** A line starting with `# ` and one space is no heading: it is a paragraph. */
  lemma LoneHashIsParagraph(lines: seq<String>, i: nat)
    requires i < |lines| && "# " <= Strip(lines[i])
    ensures ParseStep(lines, i) == Step([Paragraph(Body, FormattedRuns(Strip(lines[i])))], i + 1)
  {
    var st := Strip(lines[i]);
    assert st[0] == '#' && st[1] == ' ';
    NotPrefixAt("$$", st, 0);
    NotPrefixAt("#### ", st, 1);
    NotPrefixAt("### ", st, 1);
    NotPrefixAt("## ", st, 1);
    NotPrefixAt("|", st, 0);
    NotPrefixAt("- ", st, 0);
    NotPrefixAt("* ", st, 0);
    assert !IsRule(st);
    assert DigitsEnd(st, 0) == 0;
    assert Classify(st) == TextLine;
  }

  lemma NotPrefixAt(p: String, s: String, k: nat)
    requires k < |p| && k < |s| && p[k] != s[k]
    ensures !(p <= s)
  {
  }

  /** An equation that is never closed takes every remaining line. */
  lemma UnclosedEquation(lines: seq<String>, i: nat)
    requires i < |lines| && "$$" <= Strip(lines[i])
    requires !(EndsWith(Strip(lines[i]), "$$") && |Strip(lines[i])| > 4)
    requires forall m :: i < m < |lines| ==> !ClosesEquation(lines[m])
    ensures ParseFrom(lines, i) == [Equation(MultiLineLatex(lines, i, |lines|))]
  {
    assert EquationEnd(lines, i + 1) == |lines|;
    assert ParseFrom(lines, |lines| + 1) == [];
  }

  lemma {:induction false} EquationEndIs(lines: seq<String>, j: nat, k: nat)
    requires j <= k <= |lines|
    requires forall m :: j <= m < k ==> !ClosesEquation(lines[m])
    requires k == |lines| || ClosesEquation(lines[k])
    ensures EquationEnd(lines, j) == k
    decreases k - j
  {
    if j < k {
      EquationEndIs(lines, j + 1, k);
    }
  }

  lemma {:induction false} TableEndIs(lines: seq<String>, j: nat, k: nat)
    requires j <= k <= |lines|
    requires forall m :: j <= m < k ==> IsTableRow(lines[m])
    requires k == |lines| || !IsTableRow(lines[k])
    ensures TableEnd(lines, j) == k
    decreases k - j
  {
    if j < k {
      TableEndIs(lines, j + 1, k);
    }
  }

  // ------------------------------------------------------------------
  // Simple blocks written as Markdown, and read back
  // ------------------------------------------------------------------

  /** Text that reads back unchanged as a paragraph: it starts with a
      letter, does not end in whitespace, and holds no emphasis marker,
      dollar or line break. */
  predicate PlainText(t: String) {
    t != [] && Latex.IsAsciiLetter(t[0]) && !IsSpace(t[|t| - 1]) && '*' !in t && '$' !in t && '\n' !in t
  }

  /** Text that reads back unchanged as a heading or an equation. */
  predicate Trimmed(t: String) {
    t != [] && !IsSpace(t[0]) && !IsSpace(t[|t| - 1]) && '\n' !in t
  }

  /** The blocks a single Markdown line can produce: headings of levels two
      to four, one-line equations, and paragraphs of one plain run. */
  predicate SimpleBlock(b: Block) {
    match b
    case Heading(level, t) => 2 <= level <= 4 && Trimmed(t) && (level == 2 ==> !IsSectionTitle(t))
    case Equation(l) => Trimmed(l)
    case Paragraph(_, runs) => |runs| == 1 && runs[0].TextRun? && !runs[0].bold && !runs[0].italic && PlainText(runs[0].text)
    case _ => false
  }

  function StylePrefix(style: ParagraphStyle): String {
    match style
    case Body => []
    case ListBullet => "- "
    case ListNumber => "1. "
  }

  /** The Markdown line of a simple block. */
  function RenderBlock(b: Block): String
    requires SimpleBlock(b)
  {
    match b
    case Heading(level, t) => (if level == 4 then "#### " else if level == 3 then "### " else "## ") + t
    case Equation(l) => "$$" + l + "$$"
    case Paragraph(style, runs) => StylePrefix(style) + runs[0].text
  }

  function RenderLines(bs: seq<Block>): (lines: seq<String>)
    requires forall k :: 0 <= k < |bs| ==> SimpleBlock(bs[k])
    ensures |lines| == |bs|
  {
    seq(|bs|, k requires 0 <= k < |bs| => RenderBlock(bs[k]))
  }

  lemma HeadingStep(lines: seq<String>, i: nat, level: nat, t: String)
    requires i < |lines| && SimpleBlock(Heading(level, t)) && lines[i] == RenderBlock(Heading(level, t))
    ensures ParseStep(lines, i) == Step([Heading(level, t)], i + 1)
  {
    var st := lines[i];
    StripClean(st);
    StripClean(t);
    NotPrefixAt("$$", st, 0);
    if level == 4 {
      assert Classify(st) == HeadingLine(4);
      assert st[5..] == t;
    } else if level == 3 {
      NotPrefixAt("#### ", st, 3);
      assert Classify(st) == HeadingLine(3);
      assert st[4..] == t;
    } else {
      NotPrefixAt("#### ", st, 2);
      NotPrefixAt("### ", st, 2);
      assert Classify(st) == HeadingLine(2);
      assert st[3..] == t;
    }
  }

  lemma EquationStep(lines: seq<String>, i: nat, l: String)
    requires i < |lines| && Trimmed(l) && lines[i] == "$$" + l + "$$"
    ensures ParseStep(lines, i) == Step([Equation(l)], i + 1)
  {
    var st := lines[i];
    StripClean(st);
    StripClean(l);
    assert st[2..|st| - 2] == l;
    assert st[|st| - 2..] == "$$";
    assert Classify(st) == DisplayEquation;
  }

  /** The kind of the line a plain paragraph is written as. */
  function KindOf(style: ParagraphStyle, t: String): LineKind {
    match style
    case Body => TextLine
    case ListBullet => BulletLine
    case ListNumber => NumberedLine(t)
  }

  lemma ClassifyPlain(style: ParagraphStyle, t: String)
    requires PlainText(t)
    ensures Classify(StylePrefix(style) + t) == KindOf(style, t)
  {
    var st := StylePrefix(style) + t;
    match style
    case Body =>
      assert st == t;
      NotPrefixAt("$$", t, 0);
      NotPrefixAt("#### ", t, 0);
      NotPrefixAt("### ", t, 0);
      NotPrefixAt("## ", t, 0);
      NotPrefixAt("|", t, 0);
      NotPrefixAt("- ", t, 0);
      NotPrefixAt("* ", t, 0);
      assert DigitsEnd(t, 0) == 0;
    case ListBullet =>
      NotPrefixAt("$$", st, 0);
      NotPrefixAt("#### ", st, 0);
      NotPrefixAt("### ", st, 0);
      NotPrefixAt("## ", st, 0);
      NotPrefixAt("|", st, 0);
      NotPrefixAt("---", st, 1);
    case ListNumber =>
      NotPrefixAt("$$", st, 0);
      NotPrefixAt("#### ", st, 0);
      NotPrefixAt("### ", st, 0);
      NotPrefixAt("## ", st, 0);
      NotPrefixAt("|", st, 0);
      NotPrefixAt("- ", st, 0);
      NotPrefixAt("* ", st, 0);
      NumberedPlain(t);
  }

  /** `1. t` is a numbered item whose text is `t`. */
  lemma NumberedPlain(t: String)
    requires PlainText(t)
    ensures NumberedItem("1. " + t) == Some(t)
  {
    var st := "1. " + t;
    assert DigitsEnd(st, 0) == 1;
    assert SpacesEnd(st, 2) == 3;
    assert NextChar(st, '\n', 3) == |st| by {
      forall m | 3 <= m < |st| ensures st[m] != '\n' {
        assert st[m] == t[m - 3];
      }
    }
    assert st[1] == '.' && 3 < |st|;
    assert st[3..|st|] == t;
  }

  /** What one step does with a line of each paragraph kind. */
  lemma ParagraphKindStep(lines: seq<String>, i: nat, style: ParagraphStyle, t: String)
    requires i < |lines|
    requires Classify(Strip(lines[i])) == KindOf(style, t)
    requires style == Body ==> t == Strip(lines[i])
    requires style == ListBullet ==> |Strip(lines[i])| >= 2 && t == Strip(lines[i])[2..]
    ensures ParseStep(lines, i) == Step([Paragraph(style, FormattedRuns(t))], i + 1)
  {
  }

  /** A plain paragraph's line is stripped already and classified by its style. */
  lemma PlainLine(st: String, style: ParagraphStyle, t: String)
    requires PlainText(t) && st == StylePrefix(style) + t
    ensures Strip(st) == st && Classify(st) == KindOf(style, t)
    ensures style == Body ==> t == st
    ensures style == ListBullet ==> |st| >= 2 && t == st[2..]
  {
    StripClean(st);
    ClassifyPlain(style, t);
    if style == ListBullet {
      assert st[2..] == t;
    }
  }

  lemma ParagraphStep(lines: seq<String>, i: nat, style: ParagraphStyle, t: String)
    requires i < |lines| && PlainText(t) && lines[i] == StylePrefix(style) + t
    ensures ParseStep(lines, i) == Step([Paragraph(style, [TextRun(t, false, false)])], i + 1)
  {
    PlainLine(lines[i], style, t);
    PlainRuns(t);
    ParagraphKindStep(lines, i, style, t);
  }

  /** A simple block written as a line reads back as that block. */
  lemma RenderStep(lines: seq<String>, i: nat, b: Block)
    requires i < |lines| && SimpleBlock(b) && lines[i] == RenderBlock(b)
    ensures ParseStep(lines, i) == Step([b], i + 1)
  {
    match b
    case Heading(level, t) => HeadingStep(lines, i, level, t);
    case Equation(l) => EquationStep(lines, i, l);
    case Paragraph(style, runs) =>
      assert runs == [TextRun(runs[0].text, false, false)];
      ParagraphStep(lines, i, style, runs[0].text);
  }

  lemma {:induction false} ParseRendered(bs: seq<Block>, i: nat)
    requires forall k :: 0 <= k < |bs| ==> SimpleBlock(bs[k])
    requires i <= |bs|
    ensures ParseFrom(RenderLines(bs), i) == bs[i..]
    decreases |bs| - i
  {
    if i < |bs| {
      RenderStep(RenderLines(bs), i, bs[i]);
      ParseRendered(bs, i + 1);
      SuffixCons(bs, i);
    }
  }

  lemma RenderedLineFree(b: Block)
    requires SimpleBlock(b)
    ensures '\n' !in RenderBlock(b)
  {
  }

  /** Simple blocks written one per line read back as the same blocks. */
  lemma SectionRoundTrip(bs: seq<Block>)
    requires forall k :: 0 <= k < |bs| ==> SimpleBlock(bs[k])
    ensures ParseSection(Join(RenderLines(bs), "\n")) == bs
  {
    var lines := RenderLines(bs);
    if bs == [] {
      assert Split([], '\n') == [[]];
      assert Strip([]) == [];
    } else {
      forall k | 0 <= k < |lines| ensures '\n' !in lines[k] {
        RenderedLineFree(bs[k]);
      }
      SplitJoin(lines, '\n');
      ParseRendered(bs, 0);
    }
  }

  // ------------------------------------------------------------------
  // The document builder
  // ------------------------------------------------------------------

  // ------------------------------------------------------------------
  // Subsections
  // ------------------------------------------------------------------

  /** The lines of a subsection without its first line when that line,
      stripped, starts with `#`; no other line is ever dropped. */
  function DropLeadingHeading(lines: seq<String>): seq<String> {
    if lines != [] && "#" <= Strip(lines[0]) then lines[1..] else lines
  }

  /** The text a subsection hands to the section parser. */
  function SubsectionText(text: String): String {
    Strip(Join(DropLeadingHeading(Split(text, '\n')), "\n"))
  }

  /** `_add_subsection_content`: nothing for a blank remainder. */
  function SubsectionBlocks(text: String): seq<Block> {
    var cleaned := SubsectionText(text);
    if cleaned == [] then [] else ParseSection(cleaned)
  }

  /** A subsection whose first line is not a heading is parsed whole. */
  lemma SubsectionWithoutHeading(text: String)
    requires !("#" <= Strip(Split(text, '\n')[0]))
    ensures SubsectionText(text) == Strip(text)
  {
    SplitJoinBack(text, '\n');
  }

  /** A subsection whose first line is a heading is parsed without that
      line and without anything else removed. */
  lemma SubsectionWithHeading(heading: String, body: String)
    requires '\n' !in heading && "#" <= Strip(heading)
    ensures SubsectionText(heading + "\n" + body) == Strip(body)
  {
    var text := heading + "\n" + body;
    SplitAtFirst(heading, body, '\n');
    SplitJoinBack(body, '\n');
  }

  /** Splitting at a first separator that follows a separator-free prefix. */
  lemma SplitAtFirst(head: String, rest: String, c: char)
    requires c !in head
    ensures Split(head + [c] + rest, c) == [head] + Split(rest, c)
  {
    var s := head + [c] + rest;
    var n := |head|;
    assert OccursAt(s, [c], n);
    forall j | 0 <= j < n ensures !OccursAt(s, [c], j) {
      assert s[j] == head[j];
    }
    assert IndexOf(s, [c]) == Some(n);
    assert s[..n] == head;
    assert s[n + 1..] == rest;
  }

  /** One more line through the flag-driven loop of `_add_subsection_content`. */
  lemma DropLeadingSnoc(lines: seq<String>, k: nat)
    requires 0 < k < |lines|
    ensures DropLeadingHeading(lines[..k + 1]) == DropLeadingHeading(lines[..k]) + [lines[k]]
  {
    assert lines[..k + 1][0] == lines[..k][0] == lines[0];
    assert lines[..k + 1][1..] == lines[..k][1..] + [lines[k]];
    assert lines[..k + 1] == lines[..k] + [lines[k]];
  }

  // ------------------------------------------------------------------
  // Data tables, charts and diagrams
  // ------------------------------------------------------------------

  /** A statistics table: its title, header and rows. */
  datatype DataTable = DataTable(title: String, headers: seq<String>, rows: seq<seq<String>>)

  /** A chart or diagram file and its caption. */
  datatype Figure = Figure(file: String, caption: String)

  /** `add_data_table`: the title in bold italics, then a table with one
      column per header whose rows keep their first cells as they are,
      then an empty paragraph. */
  function DataTableBlocks(t: DataTable): (b: seq<Block>)
  {
    [Paragraph(Body, [TextRun(t.title, true, true)]), Table(t.headers, FitRows(t.rows, |t.headers|, false)), BlankParagraph]
  }

  /** A data table's cells land in place: row `i`, column `j` holds the
      row's `j`-th cell when it has one and is empty otherwise. */
  lemma DataTableCells(t: DataTable, i: nat, j: nat)
    requires i < |t.rows| && j < |t.headers|
    ensures var table := DataTableBlocks(t)[1];
            table.Table? && |table.rows| == |t.rows| && |table.rows[i]| == |t.headers| &&
            table.rows[i][j] == (if j < |t.rows[i]| then t.rows[i][j] else [])
  {
  }

  /** `os.path.join(dir, name)` on POSIX paths. */
  function JoinPath(dir: String, name: String): (path: String)
  {
    if "/" <= name || dir == [] then name
    else if EndsWith(dir, "/") then dir + name
    else dir + "/" + name
  }

  /** `add_graph`: the chart with its caption and an empty paragraph when
      the file exists under the charts directory, a notice naming it
      otherwise. */
  function GraphBlocks(dir: String, f: Figure, fileExists: String -> bool): seq<Block> {
    var path := JoinPath(dir, f.file);
    if fileExists(path) then [Picture(path, f.caption), BlankParagraph] else [MissingGraph(f.file)]
  }

  /** `add_diagram`: the diagram with its caption and an empty paragraph,
      or nothing when the file does not exist. */
  function DiagramBlocks(f: Figure, fileExists: String -> bool): seq<Block> {
    if fileExists(f.file) then [Picture(f.file, f.caption), BlankParagraph] else []
  }

  /** A chart is never dropped silently: it is shown from the charts
      directory exactly when its file exists there, and reported missing by
      its own name otherwise. */
  lemma GraphShownOrReported(dir: String, f: Figure, fileExists: String -> bool)
    ensures var b := GraphBlocks(dir, f, fileExists);
            b != [] &&
            (b[0].Picture? <==> fileExists(JoinPath(dir, f.file))) &&
            (b[0].Picture? ==> b[0].path == JoinPath(dir, f.file) && b[0].caption == f.caption) &&
            (!b[0].Picture? ==> b == [MissingGraph(f.file)])
  {
  }

  /** A relative chart name lands inside the charts directory. */
  lemma JoinPathInside(dir: String, name: String)
    requires dir != [] && !("/" <= name)
    ensures dir <= JoinPath(dir, name)
    ensures JoinPath(dir, name)[|JoinPath(dir, name)| - |name|..] == name
  {
  }

  // ------------------------------------------------------------------
  // Chapters
  // ------------------------------------------------------------------

  /** The four subsections of a chapter, in the order they are written. */
  datatype Subsection = Methodology | DataAnalysis | GraphDiscussion | Verdict

  function SubsectionTitle(w: Subsection): String {
    match w
    case Methodology => "Fundamentação Teórica"
    case DataAnalysis => "Análise dos Dados"
    case GraphDiscussion => "Discussão dos Gráficos"
    case Verdict => "Parecer Regulatório"
  }

  /** The arguments of `add_chapter_structured`. */
  datatype ChapterInput = ChapterInput(
    title: String,
    intro: String,
    table: Option<DataTable>,
    methodology: String,
    data: String,
    graphs: seq<Figure>,
    graphsText: String,
    verdict: String,
    diagrams: seq<Figure>)

  function SubsectionSource(c: ChapterInput, w: Subsection): String {
    match w
    case Methodology => c.methodology
    case DataAnalysis => c.data
    case GraphDiscussion => c.graphsText
    case Verdict => c.verdict
  }

  /** What a chapter is made of, one piece per call the chapter makes. */
  datatype Part =
    | TitlePart(title: String)
    | IntroPart(text: String)
    | DiagramPart(figure: Figure)
    | TablePart(table: DataTable)
    | SubsectionPart(which: Subsection, text: String)
    | GraphPart(figure: Figure)

  function PartBlocks(p: Part, dir: String, fileExists: String -> bool): seq<Block> {
    match p
    case TitlePart(t) => [PageBreak, Heading(1, t)]
    case IntroPart(t) => ParseSection(t)
    case DiagramPart(f) => DiagramBlocks(f, fileExists)
    case TablePart(t) => DataTableBlocks(t)
    case SubsectionPart(w, t) => [Heading(2, SubsectionTitle(w))] + SubsectionBlocks(t)
    case GraphPart(f) => GraphBlocks(dir, f, fileExists)
  }

  function PlanBlocks(parts: seq<Part>, dir: String, fileExists: String -> bool): seq<Block>
  {
    if parts == [] then []
    else PlanBlocks(parts[..|parts| - 1], dir, fileExists) + PartBlocks(parts[|parts| - 1], dir, fileExists)
  }

  function SubsectionPlan(c: ChapterInput, w: Subsection): seq<Part> {
    var t := SubsectionSource(c, w);
    if !IsBlank(t) then [SubsectionPart(w, t)] else []
  }

  /** One diagram part per diagram, in order. */
  function DiagramPlan(figs: seq<Figure>): (parts: seq<Part>) {
    if figs == [] then [] else DiagramPlan(figs[..|figs| - 1]) + [DiagramPart(figs[|figs| - 1])]
  }

  /** One chart part per chart, in order. */
  function GraphPlan(figs: seq<Figure>): (parts: seq<Part>) {
    if figs == [] then [] else GraphPlan(figs[..|figs| - 1]) + [GraphPart(figs[|figs| - 1])]
  }

  /** Piece `k` (1 to 9) of a chapter, in the order `add_chapter_structured`
      writes them: title, introduction, diagrams, table, methodology, data
      analysis, charts, chart discussion, verdict; each optional piece is
      there exactly when its input is present. */
  function Piece(c: ChapterInput, k: nat): seq<Part>
    requires 1 <= k <= 9
  {
    if k == 1 then [TitlePart(c.title)]
    else if k == 2 then (if !IsBlank(c.intro) then [IntroPart(c.intro)] else [])
    else if k == 3 then DiagramPlan(c.diagrams)
    else if k == 4 then (if c.table.Some? then [TablePart(c.table.value)] else [])
    else if k == 5 then SubsectionPlan(c, Methodology)
    else if k == 6 then SubsectionPlan(c, DataAnalysis)
    else if k == 7 then GraphPlan(c.graphs)
    else if k == 8 then SubsectionPlan(c, GraphDiscussion)
    else SubsectionPlan(c, Verdict)
  }

  /** The first `k` pieces of a chapter. */
  function PlanUpTo(c: ChapterInput, k: nat): seq<Part>
    requires k <= 9
  {
    if k == 0 then [] else PlanUpTo(c, k - 1) + Piece(c, k)
  }

  function ChapterPlan(c: ChapterInput): seq<Part> {
    PlanUpTo(c, 9)
  }

  function ChapterBlocks(c: ChapterInput, dir: String, fileExists: String -> bool): seq<Block> {
    PlanBlocks(ChapterPlan(c), dir, fileExists)
  }

  /** The position of each kind of piece in the fixed chapter order. */
  function Rank(p: Part): nat {
    match p
    case TitlePart(_) => 0
    case IntroPart(_) => 1
    case DiagramPart(_) => 2
    case TablePart(_) => 3
    case SubsectionPart(w, _) =>
      (match w case Methodology => 4 case DataAnalysis => 5 case GraphDiscussion => 7 case Verdict => 8)
    case GraphPart(_) => 6
  }

  predicate Ordered(parts: seq<Part>) {
    forall i, j :: 0 <= i < j < |parts| ==> Rank(parts[i]) <= Rank(parts[j])
  }

  predicate AllRank(parts: seq<Part>, r: nat) {
    forall i :: 0 <= i < |parts| ==> Rank(parts[i]) == r
  }

  lemma OrderedAppend(a: seq<Part>, b: seq<Part>, r: nat)
    requires Ordered(a) && AllRank(b, r)
    requires forall i :: 0 <= i < |a| ==> Rank(a[i]) <= r
    ensures Ordered(a + b)
    ensures forall i :: 0 <= i < |a + b| ==> Rank((a + b)[i]) <= r
  {
  }

  lemma {:induction false} DiagramPlanRank(figs: seq<Figure>)
    ensures AllRank(DiagramPlan(figs), 2)
  {
    if figs != [] {
      DiagramPlanRank(figs[..|figs| - 1]);
    }
  }

  lemma {:induction false} GraphPlanRank(figs: seq<Figure>)
    ensures AllRank(GraphPlan(figs), 6)
  {
    if figs != [] {
      GraphPlanRank(figs[..|figs| - 1]);
    }
  }

  /** Every part of piece `k` has rank `k - 1`. */
  lemma PieceRank(c: ChapterInput, k: nat)
    requires 1 <= k <= 9
    ensures AllRank(Piece(c, k), k - 1)
  {
    if k == 3 {
      DiagramPlanRank(c.diagrams);
    } else if k == 7 {
      GraphPlanRank(c.graphs);
    }
  }

  lemma {:induction false} OrderedUpTo(c: ChapterInput, k: nat)
    requires k <= 9
    ensures Ordered(PlanUpTo(c, k))
    ensures forall i :: 0 <= i < |PlanUpTo(c, k)| ==> Rank(PlanUpTo(c, k)[i]) < k
  {
    if k > 0 {
      OrderedUpTo(c, k - 1);
      PieceRank(c, k);
      OrderedAppend(PlanUpTo(c, k - 1), Piece(c, k), k - 1);
    }
  }

  lemma {:induction false} StartsWithTitle(c: ChapterInput, k: nat)
    requires 1 <= k <= 9
    ensures |PlanUpTo(c, k)| >= 1 && PlanUpTo(c, k)[0] == TitlePart(c.title)
  {
    if k == 1 {
      assert PlanUpTo(c, 1) == [] + [TitlePart(c.title)];
    } else {
      StartsWithTitle(c, k - 1);
      var front := PlanUpTo(c, k - 1);
      var piece := Piece(c, k);
      assert PlanUpTo(c, k) == front + piece;
      assert (front + piece)[0] == front[0];
    }
  }

  /** The chapter order: title first, then introduction, diagrams, table,
      methodology, data analysis, charts, chart discussion and verdict; so
      every chart comes before the chart discussion. */
  lemma ChapterOrder(c: ChapterInput)
    ensures ChapterPlan(c) != [] && ChapterPlan(c)[0] == TitlePart(c.title)
    ensures Ordered(ChapterPlan(c))
  {
    StartsWithTitle(c, 9);
    OrderedUpTo(c, 9);
  }

  /** The subsections of a plan, in order. */
  function SubsectionsIn(parts: seq<Part>): seq<Subsection>
  {
    if parts == [] then []
    else SubsectionsIn(parts[..|parts| - 1]) + (if parts[|parts| - 1].SubsectionPart? then [parts[|parts| - 1].which] else [])
  }

  /** The charts of a plan, in order. */
  function GraphsIn(parts: seq<Part>): seq<Figure>
  {
    if parts == [] then []
    else GraphsIn(parts[..|parts| - 1]) + (if parts[|parts| - 1].GraphPart? then [parts[|parts| - 1].figure] else [])
  }

  /** The diagrams of a plan, in order. */
  function DiagramsIn(parts: seq<Part>): seq<Figure>
  {
    if parts == [] then []
    else DiagramsIn(parts[..|parts| - 1]) + (if parts[|parts| - 1].DiagramPart? then [parts[|parts| - 1].figure] else [])
  }

  lemma {:induction false} SubsectionsInAppend(a: seq<Part>, b: seq<Part>)
    ensures SubsectionsIn(a + b) == SubsectionsIn(a) + SubsectionsIn(b)
    decreases |b|
  {
    if b == [] {
      assert a + b == a;
    } else {
      var front := b[..|b| - 1];
      var last := b[|b| - 1];
      assert (a + b)[..|a + b| - 1] == a + front;
      assert (a + b)[|a + b| - 1] == last;
      SubsectionsInAppend(a, front);
      AppendAssoc(SubsectionsIn(a), SubsectionsIn(front), if last.SubsectionPart? then [last.which] else []);
    }
  }

  lemma {:induction false} GraphsInAppend(a: seq<Part>, b: seq<Part>)
    ensures GraphsIn(a + b) == GraphsIn(a) + GraphsIn(b)
    decreases |b|
  {
    if b == [] {
      assert a + b == a;
    } else {
      var front := b[..|b| - 1];
      var last := b[|b| - 1];
      assert (a + b)[..|a + b| - 1] == a + front;
      assert (a + b)[|a + b| - 1] == last;
      GraphsInAppend(a, front);
      AppendAssoc(GraphsIn(a), GraphsIn(front), if last.GraphPart? then [last.figure] else []);
    }
  }

  lemma {:induction false} DiagramsInAppend(a: seq<Part>, b: seq<Part>)
    ensures DiagramsIn(a + b) == DiagramsIn(a) + DiagramsIn(b)
    decreases |b|
  {
    if b == [] {
      assert a + b == a;
    } else {
      var front := b[..|b| - 1];
      var last := b[|b| - 1];
      assert (a + b)[..|a + b| - 1] == a + front;
      assert (a + b)[|a + b| - 1] == last;
      DiagramsInAppend(a, front);
      AppendAssoc(DiagramsIn(a), DiagramsIn(front), if last.DiagramPart? then [last.figure] else []);
    }
  }

  lemma {:induction false} DiagramPlanDiagrams(figs: seq<Figure>)
    ensures DiagramsIn(DiagramPlan(figs)) == figs
    decreases |figs|
  {
    if figs != [] {
      var front := figs[..|figs| - 1];
      var last := DiagramPart(figs[|figs| - 1]);
      assert DiagramPlan(figs) == DiagramPlan(front) + [last];
      DiagramPlanDiagrams(front);
      DiagramsInAppend(DiagramPlan(front), [last]);
      OneDiagram([last]);
      assert figs == front + [figs[|figs| - 1]];
    }
  }

  lemma {:induction false} DiagramPlanGraphs(figs: seq<Figure>)
    ensures GraphsIn(DiagramPlan(figs)) == []
    decreases |figs|
  {
    if figs != [] {
      var front := figs[..|figs| - 1];
      var last := DiagramPart(figs[|figs| - 1]);
      assert DiagramPlan(figs) == DiagramPlan(front) + [last];
      DiagramPlanGraphs(front);
      GraphsInAppend(DiagramPlan(front), [last]);
      OneGraph([last]);
    }
  }

  lemma {:induction false} DiagramPlanSubsections(figs: seq<Figure>)
    ensures SubsectionsIn(DiagramPlan(figs)) == []
    decreases |figs|
  {
    if figs != [] {
      var front := figs[..|figs| - 1];
      var last := DiagramPart(figs[|figs| - 1]);
      assert DiagramPlan(figs) == DiagramPlan(front) + [last];
      DiagramPlanSubsections(front);
      SubsectionsInAppend(DiagramPlan(front), [last]);
      OneSubsection([last]);
    }
  }

  lemma {:induction false} GraphPlanGraphs(figs: seq<Figure>)
    ensures GraphsIn(GraphPlan(figs)) == figs
    decreases |figs|
  {
    if figs != [] {
      var front := figs[..|figs| - 1];
      var last := GraphPart(figs[|figs| - 1]);
      assert GraphPlan(figs) == GraphPlan(front) + [last];
      GraphPlanGraphs(front);
      GraphsInAppend(GraphPlan(front), [last]);
      OneGraph([last]);
      assert figs == front + [figs[|figs| - 1]];
    }
  }

  lemma {:induction false} GraphPlanDiagrams(figs: seq<Figure>)
    ensures DiagramsIn(GraphPlan(figs)) == []
    decreases |figs|
  {
    if figs != [] {
      var front := figs[..|figs| - 1];
      var last := GraphPart(figs[|figs| - 1]);
      assert GraphPlan(figs) == GraphPlan(front) + [last];
      GraphPlanDiagrams(front);
      DiagramsInAppend(GraphPlan(front), [last]);
      OneDiagram([last]);
    }
  }

  lemma {:induction false} GraphPlanSubsections(figs: seq<Figure>)
    ensures SubsectionsIn(GraphPlan(figs)) == []
    decreases |figs|
  {
    if figs != [] {
      var front := figs[..|figs| - 1];
      var last := GraphPart(figs[|figs| - 1]);
      assert GraphPlan(figs) == GraphPlan(front) + [last];
      GraphPlanSubsections(front);
      SubsectionsInAppend(GraphPlan(front), [last]);
      OneSubsection([last]);
    }
  }

  /** The subsection `w` when its text is not blank. */
  function Present(c: ChapterInput, w: Subsection): seq<Subsection> {
    if !IsBlank(SubsectionSource(c, w)) then [w] else []
  }

  /** What a piece of at most one part contributes. */
  lemma OneSubsection(q: seq<Part>)
    requires |q| <= 1
    ensures SubsectionsIn(q) == if q != [] && q[0].SubsectionPart? then [q[0].which] else []
  {
    if q != [] {
      assert q == [q[0]];
      assert q[..0] == [];
    }
  }

  lemma OneGraph(q: seq<Part>)
    requires |q| <= 1
    ensures GraphsIn(q) == if q != [] && q[0].GraphPart? then [q[0].figure] else []
  {
    if q != [] {
      assert q == [q[0]];
      assert q[..0] == [];
    }
  }

  lemma OneDiagram(q: seq<Part>)
    requires |q| <= 1
    ensures DiagramsIn(q) == if q != [] && q[0].DiagramPart? then [q[0].figure] else []
  {
    if q != [] {
      assert q == [q[0]];
      assert q[..0] == [];
    }
  }

  /** The subsections piece `k` contributes. */
  function SubsectionsAt(c: ChapterInput, k: nat): seq<Subsection> {
    if k == 5 then Present(c, Methodology)
    else if k == 6 then Present(c, DataAnalysis)
    else if k == 8 then Present(c, GraphDiscussion)
    else if k == 9 then Present(c, Verdict)
    else []
  }

  lemma PieceSubsections(c: ChapterInput, k: nat)
    requires 1 <= k <= 9
    ensures SubsectionsIn(Piece(c, k)) == SubsectionsAt(c, k)
  {
    match k
    case 3 => DiagramPlanSubsections(c.diagrams);
    case 7 => GraphPlanSubsections(c.graphs);
    case 1 => OneSubsection(Piece(c, 1));
    case 2 => OneSubsection(Piece(c, 2));
    case 4 => OneSubsection(Piece(c, 4));
    case 5 => OneSubsection(Piece(c, 5));
    case 6 => OneSubsection(Piece(c, 6));
    case 8 => OneSubsection(Piece(c, 8));
    case 9 => OneSubsection(Piece(c, 9));
  }

  lemma PieceGraphs(c: ChapterInput, k: nat)
    requires 1 <= k <= 9
    ensures GraphsIn(Piece(c, k)) == if k == 7 then c.graphs else []
  {
    match k
    case 3 => DiagramPlanGraphs(c.diagrams);
    case 7 => GraphPlanGraphs(c.graphs);
    case 1 => OneGraph(Piece(c, 1));
    case 2 => OneGraph(Piece(c, 2));
    case 4 => OneGraph(Piece(c, 4));
    case 5 => OneGraph(Piece(c, 5));
    case 6 => OneGraph(Piece(c, 6));
    case 8 => OneGraph(Piece(c, 8));
    case 9 => OneGraph(Piece(c, 9));
  }

  lemma PieceDiagrams(c: ChapterInput, k: nat)
    requires 1 <= k <= 9
    ensures DiagramsIn(Piece(c, k)) == if k == 3 then c.diagrams else []
  {
    match k
    case 3 => DiagramPlanDiagrams(c.diagrams);
    case 7 => GraphPlanDiagrams(c.graphs);
    case 1 => OneDiagram(Piece(c, 1));
    case 2 => OneDiagram(Piece(c, 2));
    case 4 => OneDiagram(Piece(c, 4));
    case 5 => OneDiagram(Piece(c, 5));
    case 6 => OneDiagram(Piece(c, 6));
    case 8 => OneDiagram(Piece(c, 8));
    case 9 => OneDiagram(Piece(c, 9));
  }

  /** Piece `k` adds its subsections after those of the pieces before. */
  lemma SubsectionsStep(c: ChapterInput, k: nat)
    requires 1 <= k <= 9
    ensures SubsectionsIn(PlanUpTo(c, k)) == SubsectionsIn(PlanUpTo(c, k - 1)) + SubsectionsAt(c, k)
  {
    var front := PlanUpTo(c, k - 1);
    var piece := Piece(c, k);
    assert PlanUpTo(c, k) == front + piece;
    SubsectionsInAppend(front, piece);
    PieceSubsections(c, k);
  }

  lemma {:induction false} GraphsUpToIn(c: ChapterInput, k: nat)
    requires k <= 9
    ensures GraphsIn(PlanUpTo(c, k)) == if k >= 7 then c.graphs else []
  {
    if k > 0 {
      GraphsUpToIn(c, k - 1);
      GraphsInAppend(PlanUpTo(c, k - 1), Piece(c, k));
      PieceGraphs(c, k);
      if k == 7 {
        assert [] + c.graphs == c.graphs;
      }
    }
  }

  lemma {:induction false} DiagramsUpToIn(c: ChapterInput, k: nat)
    requires k <= 9
    ensures DiagramsIn(PlanUpTo(c, k)) == if k >= 3 then c.diagrams else []
  {
    if k > 0 {
      DiagramsUpToIn(c, k - 1);
      DiagramsInAppend(PlanUpTo(c, k - 1), Piece(c, k));
      PieceDiagrams(c, k);
      if k == 3 {
        assert [] + c.diagrams == c.diagrams;
      }
    }
  }

  /** The subsections of the first `k` pieces. */
  function SubsectionsUpTo(c: ChapterInput, k: nat): seq<Subsection> {
    if k == 0 then [] else SubsectionsUpTo(c, k - 1) + SubsectionsAt(c, k)
  }

  lemma {:induction false} SubsectionsUpToIn(c: ChapterInput, k: nat)
    requires k <= 9
    ensures SubsectionsIn(PlanUpTo(c, k)) == SubsectionsUpTo(c, k)
  {
    if k > 0 {
      SubsectionsUpToIn(c, k - 1);
      SubsectionsStep(c, k);
    }
  }

  lemma SubsectionsAll(c: ChapterInput)
    ensures SubsectionsUpTo(c, 9) ==
            Present(c, Methodology) + Present(c, DataAnalysis) + Present(c, GraphDiscussion) + Present(c, Verdict)
  {
    assert SubsectionsUpTo(c, 4) == [] by {
      assert SubsectionsUpTo(c, 1) == [];
      assert SubsectionsUpTo(c, 2) == [];
      assert SubsectionsUpTo(c, 3) == [];
    }
    assert SubsectionsUpTo(c, 5) == Present(c, Methodology);
    assert SubsectionsUpTo(c, 7) == Present(c, Methodology) + Present(c, DataAnalysis) by {
      assert SubsectionsUpTo(c, 6) == Present(c, Methodology) + Present(c, DataAnalysis);
    }
  }

  /** Each subsection heading is written exactly when its text is not
      blank, in the fixed order; every diagram and every chart is written,
      in the order given. */
  lemma ChapterContents(c: ChapterInput)
    ensures SubsectionsIn(ChapterPlan(c)) ==
            Present(c, Methodology) + Present(c, DataAnalysis) + Present(c, GraphDiscussion) + Present(c, Verdict)
    ensures GraphsIn(ChapterPlan(c)) == c.graphs
    ensures DiagramsIn(ChapterPlan(c)) == c.diagrams
  {
    SubsectionsUpToIn(c, 9);
    SubsectionsAll(c);
    GraphsUpToIn(c, 9);
    DiagramsUpToIn(c, 9);
  }
  lemma {:induction false} PlanBlocksAppend(a: seq<Part>, b: seq<Part>, dir: String, fileExists: String -> bool)
    ensures PlanBlocks(a + b, dir, fileExists) == PlanBlocks(a, dir, fileExists) + PlanBlocks(b, dir, fileExists)
    decreases |b|
  {
    if b == [] {
      assert a + b == a;
    } else {
      var front := b[..|b| - 1];
      var last := b[|b| - 1];
      assert (a + b)[..|a + b| - 1] == a + front;
      assert (a + b)[|a + b| - 1] == last;
      PlanBlocksAppend(a, front, dir, fileExists);
      AppendAssoc(PlanBlocks(a, dir, fileExists), PlanBlocks(front, dir, fileExists), PartBlocks(last, dir, fileExists));
    }
  }

  lemma PlanBlocksOne(p: Part, dir: String, fileExists: String -> bool)
    ensures PlanBlocks([p], dir, fileExists) == PartBlocks(p, dir, fileExists)
  {
    assert [p][..0] == [];
  }

  /** What a subsection writes: its heading and content, or nothing. */
  lemma SubsectionWritten(c: ChapterInput, w: Subsection, dir: String, fileExists: String -> bool)
    ensures PlanBlocks(SubsectionPlan(c, w), dir, fileExists) ==
            if IsBlank(SubsectionSource(c, w)) then []
            else [Heading(2, SubsectionTitle(w))] + SubsectionBlocks(SubsectionSource(c, w))
  {
    if !IsBlank(SubsectionSource(c, w)) {
      PlanBlocksOne(SubsectionPart(w, SubsectionSource(c, w)), dir, fileExists);
    }
  }

  /** One more diagram through the diagram loop. */
  lemma DiagramWritten(figs: seq<Figure>, k: nat, dir: String, fileExists: String -> bool, b0: seq<Block>, before: seq<Block>)
    requires k < |figs|
    requires before == b0 + PlanBlocks(DiagramPlan(figs[..k]), dir, fileExists)
    ensures before + DiagramBlocks(figs[k], fileExists) == b0 + PlanBlocks(DiagramPlan(figs[..k + 1]), dir, fileExists)
  {
    var done := DiagramPlan(figs[..k]);
    var part := DiagramPart(figs[k]);
    assert figs[..k + 1][..k] == figs[..k];
    assert DiagramPlan(figs[..k + 1]) == done + [part];
    PlanBlocksAppend(done, [part], dir, fileExists);
    PlanBlocksOne(part, dir, fileExists);
    AppendAssoc(b0, PlanBlocks(done, dir, fileExists), DiagramBlocks(figs[k], fileExists));
  }

  /** One more chart through the chart loop. */
  lemma GraphWritten(figs: seq<Figure>, k: nat, dir: String, fileExists: String -> bool, b0: seq<Block>, before: seq<Block>)
    requires k < |figs|
    requires before == b0 + PlanBlocks(GraphPlan(figs[..k]), dir, fileExists)
    ensures before + GraphBlocks(dir, figs[k], fileExists) == b0 + PlanBlocks(GraphPlan(figs[..k + 1]), dir, fileExists)
  {
    var done := GraphPlan(figs[..k]);
    var part := GraphPart(figs[k]);
    assert figs[..k + 1][..k] == figs[..k];
    assert GraphPlan(figs[..k + 1]) == done + [part];
    PlanBlocksAppend(done, [part], dir, fileExists);
    PlanBlocksOne(part, dir, fileExists);
    AppendAssoc(b0, PlanBlocks(done, dir, fileExists), GraphBlocks(dir, figs[k], fileExists));
  }

  /** Writing piece `k` after the first `k - 1` pieces writes the first `k`. */
  lemma PieceWritten(c: ChapterInput, k: nat, dir: String, fileExists: String -> bool, b0: seq<Block>, before: seq<Block>)
    requires 1 <= k <= 9
    requires before == b0 + PlanBlocks(PlanUpTo(c, k - 1), dir, fileExists)
    ensures before + PlanBlocks(Piece(c, k), dir, fileExists) == b0 + PlanBlocks(PlanUpTo(c, k), dir, fileExists)
  {
    var front := PlanUpTo(c, k - 1);
    var piece := Piece(c, k);
    assert PlanUpTo(c, k) == front + piece;
    PlanBlocksAppend(front, piece, dir, fileExists);
    AppendAssoc(b0, PlanBlocks(front, dir, fileExists), PlanBlocks(piece, dir, fileExists));
  }


  // ------------------------------------------------------------------
  // Notebook output cells
  // ------------------------------------------------------------------

  /** One output of a notebook cell. Stream and result texts are the list of
      chunks the notebook stores (a plain string is a single chunk);
      `decodes` says whether an image's base64 payload decodes. */
  datatype Output =
    | ImageOutput(decodes: bool)
    | StreamOutput(chunks: seq<String>)
    | ResultOutput(chunks: seq<String>)
    | OtherOutput

  /** At most this many lines of one output are written. */
  const MAX_OUTPUT_LINES: nat := 80

  /** The text of a stream or result output: its chunks joined. */
  function OutputText(o: Output): String
    requires o.StreamOutput? || o.ResultOutput?
  {
    Concat(o.chunks)
  }

  /** The lines of an output's text; none for images and other outputs. */
  function TextLines(o: Output): seq<String> {
    if o.StreamOutput? || o.ResultOutput? then Split(OutputText(o), '\n') else []
  }

  /** One output line block per line. */
  function LineBlocks(lines: seq<String>): seq<Block> {
    if lines == [] then [] else LineBlocks(lines[..|lines| - 1]) + [OutputLine(lines[|lines| - 1])]
  }

  /** The lines that are written: the first `MAX_OUTPUT_LINES`. */
  function Shown(lines: seq<String>): seq<String> {
    if |lines| > MAX_OUTPUT_LINES then lines[..MAX_OUTPUT_LINES] else lines
  }

  /** The label, the shown lines, and a notice of how many were left out. */
  function TextBlocks(lines: seq<String>): seq<Block> {
    [OutputLabel] + LineBlocks(Shown(lines)) +
    (if |lines| > MAX_OUTPUT_LINES then [TruncationNotice(|lines| - MAX_OUTPUT_LINES)] else [])
  }

  /** The blocks of one output: a decoded image, or its text, or nothing. */
  function OutputBlocks(o: Output): seq<Block> {
    if o.ImageOutput? then (if o.decodes then [OutputImage] else [])
    else
      var lines := TextLines(o);
      if lines == [] then [] else TextBlocks(lines)
  }

  /** `add_output_cell`: the outputs' blocks, in order. */
  function OutputCellBlocks(outputs: seq<Output>): seq<Block> {
    if outputs == [] then []
    else OutputCellBlocks(outputs[..|outputs| - 1]) + OutputBlocks(outputs[|outputs| - 1])
  }

  /** The texts of the output lines among `bs`, in order. */
  function LineTexts(bs: seq<Block>): seq<String> {
    if bs == [] then []
    else LineTexts(bs[..|bs| - 1]) + (if bs[|bs| - 1].OutputLine? then [bs[|bs| - 1].text] else [])
  }

  lemma {:induction false} LineTextsAppend(a: seq<Block>, b: seq<Block>)
    ensures LineTexts(a + b) == LineTexts(a) + LineTexts(b)
    decreases |b|
  {
    if b == [] {
      assert a + b == a;
    } else {
      var front := b[..|b| - 1];
      var last := b[|b| - 1];
      assert (a + b)[..|a + b| - 1] == a + front;
      assert (a + b)[|a + b| - 1] == last;
      LineTextsAppend(a, front);
      AppendAssoc(LineTexts(a), LineTexts(front), if last.OutputLine? then [last.text] else []);
    }
  }

  lemma LineTextsOne(b: Block)
    ensures LineTexts([b]) == if b.OutputLine? then [b.text] else []
  {
    assert [b][..0] == [];
  }

  /** The output line blocks of some lines read back as those lines. */
  lemma {:induction false} LineBlocksTexts(lines: seq<String>)
    ensures LineTexts(LineBlocks(lines)) == lines
    decreases |lines|
  {
    if lines != [] {
      var front := lines[..|lines| - 1];
      var last := OutputLine(lines[|lines| - 1]);
      LineBlocksTexts(front);
      LineTextsAppend(LineBlocks(front), [last]);
      LineTextsOne(last);
      assert lines == front + [lines[|lines| - 1]];
    }
  }

  lemma {:induction false} LineBlocksLength(lines: seq<String>)
    ensures |LineBlocks(lines)| == |lines|
    decreases |lines|
  {
    if lines != [] {
      LineBlocksLength(lines[..|lines| - 1]);
    }
  }

  /** A text output's blocks open with the label. */
  lemma TextBlocksLabel(lines: seq<String>)
    ensures TextBlocks(lines)[0] == OutputLabel
  {
  }

  /** The lines a text output writes are exactly its first lines, all of
      them when there are at most `MAX_OUTPUT_LINES`. */
  lemma TextBlocksLines(lines: seq<String>)
    ensures LineTexts(TextBlocks(lines)) == Shown(lines)
  {
    var head := [OutputLabel];
    var body := LineBlocks(Shown(lines));
    var notice: seq<Block> := if |lines| > MAX_OUTPUT_LINES then [TruncationNotice(|lines| - MAX_OUTPUT_LINES)] else [];
    assert TextBlocks(lines) == head + body + notice;
    LineTextsOne(OutputLabel);
    LineTextsAppend(head, body);
    LineBlocksTexts(Shown(lines));
    assert LineTexts(head + body) == Shown(lines);
    if notice != [] {
      LineTextsOne(notice[0]);
    }
    assert LineTexts(notice) == [];
    LineTextsAppend(head + body, notice);
  }

  /** A text output ends with a notice exactly when lines were left out,
      and the notice counts them. */
  lemma TextBlocksNotice(lines: seq<String>)
    ensures var b := TextBlocks(lines);
            (b[|b| - 1].TruncationNotice? <==> |lines| > MAX_OUTPUT_LINES) &&
            (|lines| > MAX_OUTPUT_LINES ==> b[|b| - 1] == TruncationNotice(|lines| - MAX_OUTPUT_LINES))
  {
    var body := LineBlocks(Shown(lines));
    if |lines| <= MAX_OUTPUT_LINES && body != [] {
      LineBlocksLast(Shown(lines));
    }
  }

  lemma LineBlocksLast(lines: seq<String>)
    requires lines != []
    ensures LineBlocks(lines)[|LineBlocks(lines)| - 1] == OutputLine(lines[|lines| - 1])
  {
  }

  /** An output with fewer than `MAX_OUTPUT_LINES` newlines is shown whole:
      joining the written lines gives its text back, and no notice is
      written. */
  lemma OutputShownWhole(o: Output)
    requires o.StreamOutput? || o.ResultOutput?
    requires CountChar(OutputText(o), '\n') < MAX_OUTPUT_LINES
    ensures Join(LineTexts(OutputBlocks(o)), "\n") == OutputText(o)
    ensures !OutputBlocks(o)[|OutputBlocks(o)| - 1].TruncationNotice?
  {
    var lines := Split(OutputText(o), '\n');
    SplitCount(OutputText(o), '\n');
    SplitJoinBack(OutputText(o), '\n');
    TextBlocksLines(lines);
    TextBlocksNotice(lines);
  }

  /** A longer output is cut: exactly its first `MAX_OUTPUT_LINES` lines
      are written, then a notice counting the lines left out. */
  lemma OutputTruncated(o: Output)
    requires o.StreamOutput? || o.ResultOutput?
    requires CountChar(OutputText(o), '\n') >= MAX_OUTPUT_LINES
    ensures |TextLines(o)| == CountChar(OutputText(o), '\n') + 1
    ensures LineTexts(OutputBlocks(o)) == TextLines(o)[..MAX_OUTPUT_LINES]
    ensures OutputBlocks(o)[|OutputBlocks(o)| - 1] ==
            TruncationNotice(CountChar(OutputText(o), '\n') + 1 - MAX_OUTPUT_LINES)
  {
    var lines := Split(OutputText(o), '\n');
    SplitCount(OutputText(o), '\n');
    TextBlocksLines(lines);
    TextBlocksNotice(lines);
  }

  class DocumentBuilder {
    /** The document's blocks, in order. */
    var blocks: seq<Block>
    /** The directory chart files are looked up in. */
    const graphsDir: String

    constructor(graphsDir: String)
      ensures blocks == [] && this.graphsDir == graphsDir
    {
      blocks := [];
      this.graphsDir := graphsDir;
    }

    /** `_add_formatted_runs`: the parts of the inline split, classified one
        by one, empty parts skipped. */
    static method AddFormattedRuns(text: String) returns (runs: seq<Run>)
      ensures runs == FormattedRuns(text)
    {
      var parts := InlineParts(text);
      runs := [];
      var k := 0;
      while k < |parts|
        invariant 0 <= k <= |parts|
        invariant runs == RunsOf(parts[..k])
      {
        var part := parts[k];
        assert parts[..k + 1][..k] == parts[..k];
        if part != [] {
          runs := runs + [RunOf(part)];
        }
        k := k + 1;
      }
      assert parts[..k] == parts;
    }

    /** `_add_markdown_table`. */
    method AddMarkdownTable(tableLines: seq<String>)
      modifies this
      ensures blocks == old(blocks) + TableBlocks(tableLines)
    {
      if |tableLines| < 2 {
        return;
      }
      var headers := Cells(tableLines[0]);
      var dataStart := 1;
      if IsSeparatorRow(tableLines[1]) {
        dataStart := 2;
      }
      var rows := CollectRows(tableLines[dataStart..]);
      if headers == [] {
        return;
      }
      var table := FillRows(rows, |headers|, true);
      blocks := blocks + [Table(headers, table), BlankParagraph];
    }

    /** The cells of each body line, lines without cells dropped. */
    static method CollectRows(lines: seq<String>) returns (rows: seq<seq<String>>)
      ensures rows == DataRows(lines)
    {
      rows := [];
      var i := 0;
      while i < |lines|
        invariant 0 <= i <= |lines|
        invariant rows == DataRows(lines[..i])
      {
        var cells := Cells(lines[i]);
        if cells != [] {
          rows := rows + [cells];
        }
        DataRowsPrefix(lines, i);
        i := i + 1;
      }
      assert lines[..i] == lines;
    }

    /** The body rows of a new table, one per row; `unwrap` drops the
        bold markers of markdown cells. */
    static method FillRows(rows: seq<seq<String>>, n: nat, unwrap: bool) returns (table: seq<seq<String>>)
      ensures table == FitRows(rows, n, unwrap)
    {
      table := [];
      var r := 0;
      while r < |rows|
        invariant 0 <= r <= |rows|
        invariant table == FitRows(rows[..r], n, unwrap)
      {
        var row := FillRow(rows[r], n, unwrap);
        assert FitRows(rows[..r + 1], n, unwrap) == FitRows(rows[..r], n, unwrap) + [FitRow(rows[r], n, unwrap)];
        table := table + [row];
        r := r + 1;
      }
      assert rows[..r] == rows;
    }

    /** A body row of a new table: `n` empty cells, the first ones filled
        with the row's own cells. */
    static method FillRow(cells: seq<String>, n: nat, unwrap: bool) returns (row: seq<String>)
      ensures row == FitRow(cells, n, unwrap)
    {
      row := seq(n, _ => []);
      var j := 0;
      var filled := if |cells| < n then |cells| else n;
      while j < filled
        invariant 0 <= j <= filled
        invariant |row| == n
        invariant forall m :: 0 <= m < n ==> row[m] == if m < j then (if unwrap then UnwrapBold(cells[m]) else cells[m]) else []
      {
        row := row[j := if unwrap then UnwrapBold(cells[j]) else cells[j]];
        j := j + 1;
      }
    }

    /** The lines of an equation opened on line `i` and not closed there:
        every following line up to the one ending in `$$`, or to the end. */
    static method ScanEquation(lines: seq<String>, i: nat) returns (latex: String, k: nat)
      requires i < |lines| && |Strip(lines[i])| >= 2
      ensures k == EquationEnd(lines, i + 1)
      ensures latex == MultiLineLatex(lines, i, k)
    {
      var first := Strip(lines[i])[2..];
      var eqLines := [first];
      k := i + 1;
      while k < |lines|
        invariant i + 1 <= k <= |lines|
        invariant eqLines == [first] + StrippedLines(lines, i + 1, k)
        invariant EquationEnd(lines, i + 1) == EquationEnd(lines, k)
      {
        var l := Strip(lines[k]);
        if ClosesEquation(lines[k]) {
          eqLines := eqLines + [l[..|l| - 2]];
          break;
        }
        eqLines := eqLines + [l];
        k := k + 1;
      }
      assert eqLines == EquationLines(lines, i, k);
      latex := Strip(Join(eqLines, " "));
    }

    /** The stripped lines of the table that starts on line `i`. */
    static method CollectTable(lines: seq<String>, i: nat) returns (tableLines: seq<String>, k: nat)
      requires i < |lines| && IsTableRow(lines[i])
      ensures i < k <= |lines|
      ensures k == TableEnd(lines, i + 1)
      ensures tableLines == StrippedLines(lines, i, k)
    {
      tableLines := [];
      k := i;
      while k < |lines| && "|" <= Strip(lines[k])
        invariant i <= k <= |lines|
        invariant tableLines == StrippedLines(lines, i, k)
        invariant TableEnd(lines, i) == TableEnd(lines, k)
      {
        tableLines := tableLines + [Strip(lines[k])];
        k := k + 1;
      }
    }

    /** A display equation on line `i`: on that line alone, or up to the
        line that closes it. */
    method AddEquationAt(lines: seq<String>, i: nat) returns (next: nat)
      requires i < |lines| && Classify(Strip(lines[i])) == DisplayEquation
      modifies this
      ensures next == ParseStep(lines, i).next
      ensures blocks == old(blocks) + ParseStep(lines, i).blocks
    {
      var stripped := Strip(lines[i]);
      if EndsWith(stripped, "$$") && |stripped| > 4 {
        blocks := blocks + [Equation(Strip(stripped[2..|stripped| - 2]))];
        next := i + 1;
      } else {
        var latex, k := ScanEquation(lines, i);
        blocks := blocks + [Equation(latex)];
        next := k + 1;
      }
    }

    /** A table starting on line `i`. */
    method AddTableAt(lines: seq<String>, i: nat) returns (next: nat)
      requires i < |lines| && Classify(Strip(lines[i])) == TableLine
      modifies this
      ensures next == ParseStep(lines, i).next
      ensures blocks == old(blocks) + ParseStep(lines, i).blocks
    {
      var tableLines, k := CollectTable(lines, i);
      AddMarkdownTable(tableLines);
      next := k;
    }

    /** One iteration of the parser's loop at line `i`. */
    method AddLineAt(lines: seq<String>, i: nat) returns (next: nat)
      requires i < |lines|
      modifies this
      ensures next == ParseStep(lines, i).next
      ensures blocks == old(blocks) + ParseStep(lines, i).blocks
    {
      var stripped := Strip(lines[i]);
      match Classify(stripped)
      case BlankLine =>
        next := i + 1;
      case DisplayEquation =>
        next := AddEquationAt(lines, i);
      case HeadingLine(level) =>
        blocks := blocks + HeadingBlocks(stripped, level);
        next := i + 1;
      case RuleLine =>
        next := i + 1;
      case TableLine =>
        next := AddTableAt(lines, i);
      case BulletLine =>
        var runs := AddFormattedRuns(stripped[2..]);
        blocks := blocks + [Paragraph(ListBullet, runs)];
        next := i + 1;
      case NumberedLine(t) =>
        var runs := AddFormattedRuns(t);
        blocks := blocks + [Paragraph(ListNumber, runs)];
        next := i + 1;
      case TextLine =>
        var runs := AddFormattedRuns(stripped);
        blocks := blocks + [Paragraph(Body, runs)];
        next := i + 1;
    }

    /** `add_section_from_markdown`: the lines are consumed by a loop whose
        index strictly increases. */
    method AddSectionFromMarkdown(markdown: String)
      modifies this
      ensures blocks == old(blocks) + ParseSection(markdown)
    {
      var lines := Split(markdown, '\n');
      var i := 0;
      while i < |lines|
        invariant i <= |lines| + 1
        invariant old(blocks) + ParseFrom(lines, 0) == blocks + ParseFrom(lines, i)
        decreases |lines| + 1 - i
      {
        ghost var before := blocks;
        ghost var step := ParseStep(lines, i);
        var next := AddLineAt(lines, i);
        assert ParseFrom(lines, i) == step.blocks + ParseFrom(lines, next);
        AppendAssoc(before, step.blocks, ParseFrom(lines, next));
        i := next;
      }
      assert blocks + ParseFrom(lines, i) == blocks + [];
    }

    /** The loop of `_add_subsection_content`: a flag lets a heading on
        the first line through to be skipped, and only there. */
    static method DropFirstHeading(lines: seq<String>) returns (cleanedLines: seq<String>)
      ensures cleanedLines == DropLeadingHeading(lines)
    {
      cleanedLines := [];
      var skipFirstHeading := true;
      var k := 0;
      while k < |lines|
        invariant 0 <= k <= |lines|
        invariant skipFirstHeading <==> k == 0
        invariant cleanedLines == DropLeadingHeading(lines[..k])
      {
        var line := lines[k];
        var stripped := Strip(line);
        if k > 0 {
          DropLeadingSnoc(lines, k);
        } else {
          assert lines[..1] == [line];
        }
        if skipFirstHeading && "#" <= stripped {
          skipFirstHeading := false;
        } else {
          skipFirstHeading := false;
          cleanedLines := cleanedLines + [line];
        }
        k := k + 1;
      }
      assert lines[..k] == lines;
    }

    /** `_add_subsection_content`: the first line is dropped when it is a
        heading, and what is left is parsed unless it is blank. */
    method AddSubsectionContent(text: String)
      modifies this
      ensures blocks == old(blocks) + SubsectionBlocks(text)
    {
      var lines := Split(text, '\n');
      var cleanedLines := DropFirstHeading(lines);
      var cleaned := Strip(Join(cleanedLines, "\n"));
      if cleaned != [] {
        AddSectionFromMarkdown(cleaned);
      } else {
        assert blocks == old(blocks) + [];
      }
    }

    /** `add_data_table`. */
    method AddDataTable(t: DataTable)
      modifies this
      ensures blocks == old(blocks) + DataTableBlocks(t)
    {
      blocks := blocks + [Paragraph(Body, [TextRun(t.title, true, true)])];
      var rows := FillRows(t.rows, |t.headers|, false);
      blocks := blocks + [Table(t.headers, rows), BlankParagraph];
    }

    /** `add_graph`: the chart is looked up under the charts directory. */
    method AddGraph(f: Figure, fileExists: String -> bool)
      modifies this
      ensures blocks == old(blocks) + GraphBlocks(graphsDir, f, fileExists)
    {
      var path := JoinPath(graphsDir, f.file);
      if fileExists(path) {
        blocks := blocks + [Picture(path, f.caption), BlankParagraph];
      } else {
        blocks := blocks + [MissingGraph(f.file)];
      }
    }

    /** `add_diagram`: the diagram's path is used as given. */
    method AddDiagram(f: Figure, fileExists: String -> bool)
      modifies this
      ensures blocks == old(blocks) + DiagramBlocks(f, fileExists)
    {
      if fileExists(f.file) {
        blocks := blocks + [Picture(f.file, f.caption), BlankParagraph];
      }
    }

    /** The diagram loop of `add_chapter_structured`. */
    method AddDiagrams(figs: seq<Figure>, fileExists: String -> bool)
      modifies this
      ensures blocks == old(blocks) + PlanBlocks(DiagramPlan(figs), graphsDir, fileExists)
    {
      var k := 0;
      while k < |figs|
        invariant 0 <= k <= |figs|
        invariant blocks == old(blocks) + PlanBlocks(DiagramPlan(figs[..k]), graphsDir, fileExists)
      {
        DiagramWritten(figs, k, graphsDir, fileExists, old(blocks), blocks);
        AddDiagram(figs[k], fileExists);
        k := k + 1;
      }
      assert figs[..k] == figs;
    }

    /** The chart loop of `add_chapter_structured`. */
    method AddGraphs(figs: seq<Figure>, fileExists: String -> bool)
      modifies this
      ensures blocks == old(blocks) + PlanBlocks(GraphPlan(figs), graphsDir, fileExists)
    {
      var k := 0;
      while k < |figs|
        invariant 0 <= k <= |figs|
        invariant blocks == old(blocks) + PlanBlocks(GraphPlan(figs[..k]), graphsDir, fileExists)
      {
        GraphWritten(figs, k, graphsDir, fileExists, old(blocks), blocks);
        AddGraph(figs[k], fileExists);
        k := k + 1;
      }
      assert figs[..k] == figs;
    }

    /** A subsection of `add_chapter_structured`: its heading and content,
        written only when its text is not blank. */
    method AddSubsection(c: ChapterInput, w: Subsection, ghost fileExists: String -> bool)
      modifies this
      ensures blocks == old(blocks) + PlanBlocks(SubsectionPlan(c, w), graphsDir, fileExists)
    {
      var text := SubsectionSource(c, w);
      StripEmpty(text);
      SubsectionWritten(c, w, graphsDir, fileExists);
      if Strip(text) != [] {
        blocks := blocks + [Heading(2, SubsectionTitle(w))];
        AddSubsectionContent(text);
        AppendAssoc(old(blocks), [Heading(2, SubsectionTitle(w))], SubsectionBlocks(text));
      } else {
        assert blocks == old(blocks) + [];
      }
    }

    /** The page break and title that open a chapter. */
    method AddChapterTitle(c: ChapterInput, ghost fileExists: String -> bool)
      modifies this
      ensures blocks == old(blocks) + PlanBlocks(Piece(c, 1), graphsDir, fileExists)
    {
      blocks := blocks + [PageBreak, Heading(1, c.title)];
      PlanBlocksOne(TitlePart(c.title), graphsDir, fileExists);
    }

    /** The chapter's introduction, parsed when it is not blank. */
    method AddChapterIntro(c: ChapterInput, ghost fileExists: String -> bool)
      modifies this
      ensures blocks == old(blocks) + PlanBlocks(Piece(c, 2), graphsDir, fileExists)
    {
      StripEmpty(c.intro);
      if Strip(c.intro) != [] {
        AddSectionFromMarkdown(c.intro);
        PlanBlocksOne(IntroPart(c.intro), graphsDir, fileExists);
      } else {
        assert blocks == old(blocks) + [];
      }
    }

    /** The chapter's data table, when it has one. */
    method AddChapterTable(c: ChapterInput, ghost fileExists: String -> bool)
      modifies this
      ensures blocks == old(blocks) + PlanBlocks(Piece(c, 4), graphsDir, fileExists)
    {
      if c.table.Some? {
        AddDataTable(c.table.value);
        PlanBlocksOne(TablePart(c.table.value), graphsDir, fileExists);
      } else {
        assert blocks == old(blocks) + [];
      }
    }

    /** The chapter's diagrams: piece 3. */
    method AddChapterDiagrams(c: ChapterInput, fileExists: String -> bool)
      modifies this
      ensures blocks == old(blocks) + PlanBlocks(Piece(c, 3), graphsDir, fileExists)
    {
      AddDiagrams(c.diagrams, fileExists);
    }

    /** The chapter's charts: piece 7. */
    method AddChapterGraphs(c: ChapterInput, fileExists: String -> bool)
      modifies this
      ensures blocks == old(blocks) + PlanBlocks(Piece(c, 7), graphsDir, fileExists)
    {
      AddGraphs(c.graphs, fileExists);
      assert Piece(c, 7) == GraphPlan(c.graphs);
    }

    /** One of the chapter's subsections: piece 5, 6, 8 or 9. */
    method AddChapterSubsection(c: ChapterInput, k: nat, ghost fileExists: String -> bool)
      requires k == 5 || k == 6 || k == 8 || k == 9
      modifies this
      ensures blocks == old(blocks) + PlanBlocks(Piece(c, k), graphsDir, fileExists)
    {
      var w := if k == 5 then Methodology else if k == 6 then DataAnalysis else if k == 8 then GraphDiscussion else Verdict;
      assert Piece(c, k) == SubsectionPlan(c, w);
      AddSubsection(c, w, fileExists);
    }

    /** Title, introduction and diagrams: pieces 1 to 3. */
    method AddChapterOpening(c: ChapterInput, fileExists: String -> bool)
      modifies this
      ensures blocks == old(blocks) + PlanBlocks(PlanUpTo(c, 3), graphsDir, fileExists)
    {
      ghost var b0 := blocks;
      ghost var before := blocks;
      assert blocks == b0 + PlanBlocks(PlanUpTo(c, 0), graphsDir, fileExists);
      AddChapterTitle(c, fileExists);
      PieceWritten(c, 1, graphsDir, fileExists, b0, before);

      before := blocks;
      AddChapterIntro(c, fileExists);
      PieceWritten(c, 2, graphsDir, fileExists, b0, before);

      before := blocks;
      AddChapterDiagrams(c, fileExists);
      PieceWritten(c, 3, graphsDir, fileExists, b0, before);
    }

    /** Data table, methodology and data analysis: pieces 4 to 6. */
    method AddChapterBody(c: ChapterInput, fileExists: String -> bool, ghost b0: seq<Block>)
      requires blocks == b0 + PlanBlocks(PlanUpTo(c, 3), graphsDir, fileExists)
      modifies this
      ensures blocks == b0 + PlanBlocks(PlanUpTo(c, 6), graphsDir, fileExists)
    {
      ghost var before := blocks;
      AddChapterTable(c, fileExists);
      PieceWritten(c, 4, graphsDir, fileExists, b0, before);

      before := blocks;
      AddChapterSubsection(c, 5, fileExists);
      PieceWritten(c, 5, graphsDir, fileExists, b0, before);

      before := blocks;
      AddChapterSubsection(c, 6, fileExists);
      PieceWritten(c, 6, graphsDir, fileExists, b0, before);
    }

    /** Charts, chart discussion and verdict: pieces 7 to 9. */
    method AddChapterClosing(c: ChapterInput, fileExists: String -> bool, ghost b0: seq<Block>)
      requires blocks == b0 + PlanBlocks(PlanUpTo(c, 6), graphsDir, fileExists)
      modifies this
      ensures blocks == b0 + PlanBlocks(PlanUpTo(c, 9), graphsDir, fileExists)
    {
      ghost var before := blocks;
      AddChapterGraphs(c, fileExists);
      PieceWritten(c, 7, graphsDir, fileExists, b0, before);

      before := blocks;
      AddChapterSubsection(c, 8, fileExists);
      PieceWritten(c, 8, graphsDir, fileExists, b0, before);

      before := blocks;
      AddChapterSubsection(c, 9, fileExists);
      PieceWritten(c, 9, graphsDir, fileExists, b0, before);
    }

    /** `add_chapter_structured`: the nine pieces of the chapter, in order. */
    method AddChapterStructured(c: ChapterInput, fileExists: String -> bool)
      modifies this
      ensures blocks == old(blocks) + ChapterBlocks(c, graphsDir, fileExists)
    {
      AddChapterOpening(c, fileExists);
      AddChapterBody(c, fileExists, old(blocks));
      AddChapterClosing(c, fileExists, old(blocks));
    }

    /** The loop over the shown lines of one output. */
    method AddOutputLines(lines: seq<String>)
      modifies this
      ensures blocks == old(blocks) + LineBlocks(lines)
    {
      var k := 0;
      while k < |lines|
        invariant 0 <= k <= |lines|
        invariant blocks == old(blocks) + LineBlocks(lines[..k])
      {
        assert lines[..k + 1][..k] == lines[..k];
        AppendAssoc(old(blocks), LineBlocks(lines[..k]), [OutputLine(lines[k])]);
        blocks := blocks + [OutputLine(lines[k])];
        k := k + 1;
      }
      assert lines[..k] == lines;
    }

    /** One output of `add_output_cell`. */
    method AddOutput(o: Output)
      modifies this
      ensures blocks == old(blocks) + OutputBlocks(o)
    {
      if o.ImageOutput? {
        if o.decodes {
          blocks := blocks + [OutputImage];
        } else {
          assert blocks == old(blocks) + [];
        }
        return;
      }
      var textLines: seq<String> := [];
      if o.StreamOutput? {
        textLines := Split(Concat(o.chunks), '\n');
      } else if o.ResultOutput? {
        textLines := Split(Concat(o.chunks), '\n');
      }
      if textLines == [] {
        assert blocks == old(blocks) + [];
        return;
      }
      AddTextLines(textLines);
    }

    /** The text of one output: the label, at most `MAX_OUTPUT_LINES`
        lines, and a notice when lines were cut. */
    method AddTextLines(lines: seq<String>)
      modifies this
      ensures blocks == old(blocks) + TextBlocks(lines)
    {
      var textLines := lines;
      var truncated := false;
      var omitted := 0;
      if |textLines| > MAX_OUTPUT_LINES {
        omitted := |textLines| - MAX_OUTPUT_LINES;
        textLines := textLines[..MAX_OUTPUT_LINES];
        truncated := true;
      }
      blocks := blocks + [OutputLabel];
      AddOutputLines(textLines);
      if truncated {
        blocks := blocks + [TruncationNotice(omitted)];
      }
    }

    /** `add_output_cell`. */
    method AddOutputCell(outputs: seq<Output>)
      modifies this
      ensures blocks == old(blocks) + OutputCellBlocks(outputs)
    {
      var k := 0;
      while k < |outputs|
        invariant 0 <= k <= |outputs|
        invariant blocks == old(blocks) + OutputCellBlocks(outputs[..k])
      {
        assert outputs[..k + 1][..k] == outputs[..k];
        AppendAssoc(old(blocks), OutputCellBlocks(outputs[..k]), OutputBlocks(outputs[k]));
        AddOutput(outputs[k]);
        k := k + 1;
      }
      assert outputs[..k] == outputs;
    }
  }
}

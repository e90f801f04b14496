/**
 * What a whole listing becomes (src/client/list.rs). The two LIST expressions of `suppaftp` are
 * parameters; everything the client adds to them is stated against the lines themselves.
 */
module Listings {
  import opened Wrappers
  import opened Errors
  import opened RowFields
  import opened Probe
  import opened ListRows

  datatype Row = Row(name: Name, fileType: FileType)

  /** The POSIX and the DOS expression. */
  datatype Parser = Parser(posix: string -> Option<Row>, dos: string -> Option<Row>)

  /** `parse_list_entry`: special files are parsed as regular ones, with a normalized size. */
  function ParseEntry(line: string, parser: Parser): Option<Row> {
    var posix := if IsSpecial(line) then parser.posix("-" + NormalizeSpecial(line)[1..]) else parser.posix(line);
    if posix.Some? then posix else parser.dos(line)
  }

  /** Non-overlapping occurrences of " -> ", from the left. */
  function Arrows(s: string): nat {
    if |s| < 4 then 0
    else if s[..4] == " -> " then 1 + Arrows(s[4..])
    else Arrows(s[1..])
  }

  /** `reject_ambiguous_list_name` lets the row pass. */
  predicate NameOk(line: string) {
    && CheckPosixBoundary(line) == Accepted
    && !(StartsWith(line, "l") && Arrows(line) > 1)
    && (!StartsWith(line, "-") && !StartsWith(line, "l") && !StartsWith(line, "d") && LooksLikeDos(line) ==>
          CheckDosBoundary(line) == Accepted)
  }

  predicate IsControl(c: char) { c < ' ' || c == '\U{7F}' }

  /** `validate_list_child_name`: the name is one normal path component. */
  predicate IsChildName(name: Name) {
    && name != "" && name != "." && name != ".."
    && forall i | 0 <= i < |name| :: !IsControl(name[i]) && name[i] != '/'
  }

  datatype RowResult = Bad | Dot | Kept(entry: Entry)

  function ParseRow(dir: Path, line: string, parser: Parser): RowResult {
    if !NameOk(line) then Bad
    else
      match ParseEntry(line, parser)
      case None => Bad
      case Some(row) =>
        if row.name == "." || row.name == ".." then Dot
        else if !IsChildName(row.name) then Bad
        else Kept(Entry(dir + [row.name], row.fileType))
  }

  datatype Listing = Unreadable | Entries(entries: seq<Entry>)

  /** Collects the row results, failing on the first bad one and leaving out the dot rows. */
  function Collect(results: seq<RowResult>): Listing {
    if results == [] then Entries([])
    else
      match results[0]
      case Bad => Unreadable
      case Dot => Collect(results[1..])
      case Kept(entry) =>
        match Collect(results[1..])
        case Unreadable => Unreadable
        case Entries(rest) => Entries([entry] + rest)
  }

  predicate IsTotal(line: string) {
    StartsWith(line, "total ") && |line| > 6 && AllDigits(line[6..])
  }

  /** The rows that are considered: all but a leading block count. */
  function Considered(lines: seq<string>): seq<string> {
    if lines != [] && IsTotal(lines[0]) then lines[1..] else lines
  }

  function RowResults(dir: Path, rows: seq<string>, parser: Parser): (r: seq<RowResult>)
    ensures |r| == |rows| && forall i | 0 <= i < |rows| :: r[i] == ParseRow(dir, rows[i], parser)
  {
    seq(|rows|, i requires 0 <= i < |rows| => ParseRow(dir, rows[i], parser))
  }

  function ParseListLines(dir: Path, lines: seq<string>, parser: Parser): Listing {
    Collect(RowResults(dir, Considered(lines), parser))
  }

  // ---- Valid rows, told from the line ----

  /** Two separate arrows: the name or the target of a link holds one itself. */
  ghost predicate TwoArrows(line: string) {
    exists i: nat, j: nat :: i + 4 <= j && MarkerAt(line, " -> ", i) && MarkerAt(line, " -> ", j)
  }

  lemma {:induction false} ArrowsAreCounted(s: string)
    ensures Arrows(s) > 0 <==> exists i: nat :: MarkerAt(s, " -> ", i)
    ensures Arrows(s) > 1 <==> TwoArrows(s)
    decreases |s|
  {
    if |s| >= 4 {
      var d := if s[..4] == " -> " then 4 else 1;
      var rest := s[d..];
      ArrowsAreCounted(rest);
      assert s[..4] == s[0..4];
      forall i: nat ensures MarkerAt(rest, " -> ", i) <==> MarkerAt(s, " -> ", i + d) {
        if i + 4 <= |rest| { assert rest[i..i + 4] == s[i + d..i + d + 4]; }
      }
      MarkersMove(s, rest, d);
    }
  }

  lemma MarkersMove(s: string, rest: string, d: nat)
    requires 4 <= |s| && d == (if MarkerAt(s, " -> ", 0) then 4 else 1) && |rest| == |s| - d
    requires forall i: nat :: MarkerAt(rest, " -> ", i) <==> MarkerAt(s, " -> ", i + d)
    ensures (exists i: nat :: MarkerAt(s, " -> ", i))
            <==> MarkerAt(s, " -> ", 0) || exists i: nat :: MarkerAt(rest, " -> ", i)
    ensures TwoArrows(s)
            <==> if MarkerAt(s, " -> ", 0) then exists i: nat :: MarkerAt(rest, " -> ", i) else TwoArrows(rest)
  {
    forall i: nat | MarkerAt(s, " -> ", i) && i >= d ensures MarkerAt(rest, " -> ", i - d) {
      assert MarkerAt(rest, " -> ", i - d) <==> MarkerAt(s, " -> ", i - d + d);
    }
    if TwoArrows(rest) {
      var i: nat, j: nat :| i + 4 <= j && MarkerAt(rest, " -> ", i) && MarkerAt(rest, " -> ", j);
      assert MarkerAt(s, " -> ", i + d) && MarkerAt(s, " -> ", j + d);
    }
  }

  /** The name of a row can be told from the rest of it in one way only. */
  ghost predicate Unambiguous(line: string) {
    && PosixUnambiguous(line)
    && !(line != "" && line[0] == 'l' && TwoArrows(line))
    && (line != "" && line[0] !in "-ld" && LooksLikeDos(line) ==> DosUnambiguous(line))
  }

  lemma UnambiguousIff(line: string)
    ensures NameOk(line) <==> Unambiguous(line)
  {
    PosixRowsAreAcceptedIff(line);
    ArrowsAreCounted(line);
    if LooksLikeDos(line) { DosRowsAreAcceptedIff(line); }
    assert line != "" ==> line[..1] == [line[0]];
  }

  predicate IsDot(name: Name) { name == "." || name == ".." }

  /** One component of a path: not empty, not a dot, no separator, no control character. */
  predicate OneComponent(name: Name) {
    && name != "" && !IsDot(name)
    && forall i | 0 <= i < |name| :: name[i] != '/' && name[i] >= ' ' && name[i] as int != 127
  }

  /** The row is unambiguous, an expression reads it, and its name is a dot or one component. */
  ghost predicate ValidRow(line: string, parser: Parser) {
    && Unambiguous(line) && ParseEntry(line, parser).Some?
    && var name := ParseEntry(line, parser).value.name; IsDot(name) || OneComponent(name)
  }

  lemma RowsAreReadAsTheyAre(dir: Path, line: string, parser: Parser)
    ensures ParseRow(dir, line, parser) ==
            if !ValidRow(line, parser) then Bad
            else
              var row := ParseEntry(line, parser).value;
              if IsDot(row.name) then Dot else Kept(Entry(dir + [row.name], row.fileType))
  {
    UnambiguousIff(line);
    if ParseEntry(line, parser).Some? { ChildNamesAreOneComponent(ParseEntry(line, parser).value.name); }
  }

  lemma ChildNamesAreOneComponent(name: Name)
    ensures IsChildName(name) <==> OneComponent(name)
  {
  }

  /** A special row is read by the POSIX expression as a regular file of the same text, or else as it stands. */
  lemma SpecialRowsAreReadAsFiles(line: string, parser: Parser)
    requires line != "" && line[0] in "bcpsD"
    ensures var n := NormalizeSpecial(line);
            && n != "" && ParseEntry(line, parser)
               == (if parser.posix("-" + n[1..]).Some? then parser.posix("-" + n[1..]) else parser.dos(line))
            && (if IsDevice(line) then OneFieldForTwo(line, Ascii(line), n, Ascii(n)) else n == line)
  {
    NormalizingDropsOneField(line);
  }

  lemma OtherRowsAreReadAsTheyStand(line: string, parser: Parser)
    requires line == "" || line[0] !in "bcpsD"
    ensures ParseEntry(line, parser) == if parser.posix(line).Some? then parser.posix(line) else parser.dos(line)
  {
  }

  // ---- The rows of a listing ----

  /** at[j] is the row that became entry j: rows in order, and all that are not dot rows. */
  ghost predicate Accounts(results: seq<RowResult>, es: seq<Entry>, at: seq<nat>) {
    && |at| == |es|
    && (forall j | 0 <= j < |at| :: at[j] < |results| && results[at[j]] == Kept(es[j]))
    && (forall j, k | 0 <= j < k < |at| :: at[j] < at[k])
    && (forall i | 0 <= i < |results| :: i in at || results[i] == Dot)
  }

  lemma {:induction false} RowsAreAccountedFor(results: seq<RowResult>) returns (at: seq<nat>)
    requires Collect(results).Entries?
    ensures Accounts(results, Collect(results).entries, at)
  {
    at := [];
    if results != [] {
      var last := |results| - 1;
      DroppingTheLastRow(results);
      at := RowsAreAccountedFor(results[..last]);
      if results[last].Kept? { at := at + [last]; }
    }
  }

  /** Collecting a prefix and then its last row. */
  lemma {:induction false} DroppingTheLastRow(results: seq<RowResult>)
    requires results != [] && Collect(results).Entries?
    ensures var last := |results| - 1;
            && Collect(results[..last]).Entries? && results[last] != Bad
            && Collect(results).entries
               == Collect(results[..last]).entries + if results[last].Kept? then [results[last].entry] else []
  {
    var last := |results| - 1;
    if last > 0 {
      DroppingTheLastRow(results[1..]);
      assert results[1..][..last - 1] == results[..last][1..];
    }
  }

  lemma {:induction false} UnreadableIffSomeRowIsBad(results: seq<RowResult>)
    ensures Collect(results).Unreadable? <==> exists i :: 0 <= i < |results| && results[i] == Bad
  {
    if results != [] {
      UnreadableIffSomeRowIsBad(results[1..]);
      if i :| 0 <= i < |results[1..]| && results[1..][i] == Bad {
        assert results[i + 1] == Bad;
      }
      if i :| 0 < i < |results| && results[i] == Bad {
        assert results[1..][i - 1] == results[i];
      }
    }
  }

  /** Only a first line "total " and a number is no row. */
  lemma OnlyATotalIsNoRow(lines: seq<string>)
    ensures Considered(lines) == lines || (lines != [] && Considered(lines) == lines[1..])
    ensures lines != [] ==>
              (Considered(lines) == lines[1..]
               <==> exists count :: count != "" && AllDigits(count) && lines[0] == "total " + count)
  {
    if lines != [] {
      assert |lines[1..]| < |lines|;
      if IsTotal(lines[0]) { assert lines[0] == "total " + lines[0][6..]; }
      if count :| count != "" && AllDigits(count) && lines[0] == "total " + count { assert lines[0][6..] == count; }
    }
  }

  /** Entry e is what an expression read in the row: its name below the listed directory, and its type. */
  predicate Reads(dir: Path, line: string, parser: Parser, e: Entry) {
    && ChildOf(e.path, dir) && OneComponent(Last(e.path))
    && ParseEntry(line, parser) == Some(Row(Last(e.path), e.fileType))
  }

  /** at[j] is the row that became entry j; the rows keep their order, and only dot rows are left out. */
  ghost predicate ReadFrom(dir: Path, rows: seq<string>, parser: Parser, es: seq<Entry>, at: seq<nat>) {
    && |at| == |es|
    && (forall j | 0 <= j < |at| :: at[j] < |rows| && Reads(dir, rows[at[j]], parser, es[j]))
    && (forall j, k | 0 <= j < k < |at| :: at[j] < at[k])
    && (forall i | 0 <= i < |rows| ::
          i in at <==> ParseEntry(rows[i], parser).Some? && !IsDot(ParseEntry(rows[i], parser).value.name))
  }

  /**
   * A listing is read if and only if every row is valid; then each entry has the name and the type
   * read in its row and lies directly below the directory, the rows keep their order, and exactly
   * the dot rows are left out.
   */
  lemma ListingsAreExact(dir: Path, lines: seq<string>, parser: Parser)
    ensures var rows, listing := Considered(lines), ParseListLines(dir, lines, parser);
            && (listing.Entries? <==> forall i | 0 <= i < |rows| :: ValidRow(rows[i], parser))
            && (listing.Entries? ==> exists at :: ReadFrom(dir, rows, parser, listing.entries, at))
  {
    var rows := Considered(lines);
    var results := RowResults(dir, rows, parser);
    forall i | 0 <= i < |rows| ensures results[i] == Bad <==> !ValidRow(rows[i], parser) {
      RowsAreReadAsTheyAre(dir, rows[i], parser);
    }
    UnreadableIffSomeRowIsBad(results);
    if Collect(results).Entries? {
      var at := RowsAreAccountedFor(results);
      AccountedRowsAreRead(dir, rows, parser, Collect(results).entries, at);
    }
  }

  lemma AccountedRowsAreRead(dir: Path, rows: seq<string>, parser: Parser, es: seq<Entry>, at: seq<nat>)
    requires Accounts(RowResults(dir, rows, parser), es, at)
    ensures ReadFrom(dir, rows, parser, es, at)
  {
    var results := RowResults(dir, rows, parser);
    forall i | 0 <= i < |rows| && i in at
      ensures ParseEntry(rows[i], parser).Some? && !IsDot(ParseEntry(rows[i], parser).value.name)
    {
      RowsAreReadAsTheyAre(dir, rows[i], parser);
    }
    forall i | 0 <= i < |rows| && i !in at
      ensures ParseEntry(rows[i], parser).Some? && IsDot(ParseEntry(rows[i], parser).value.name)
    {
      RowsAreReadAsTheyAre(dir, rows[i], parser);
    }
    forall j | 0 <= j < |at| ensures Reads(dir, rows[at[j]], parser, es[j]) {
      assert results[at[j]] == Kept(es[j]);
      KeptRowsAreRead(dir, rows[at[j]], parser);
    }
  }

  lemma KeptRowsAreRead(dir: Path, line: string, parser: Parser)
    ensures var r := ParseRow(dir, line, parser); r.Kept? ==> Reads(dir, line, parser, r.entry)
  {
    RowsAreReadAsTheyAre(dir, line, parser);
    var r := ParseRow(dir, line, parser);
    if r.Kept? { assert Parent(r.entry.path) == dir; }
  }
}

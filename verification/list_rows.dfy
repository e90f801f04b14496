/**
 * Which LIST rows have an unambiguous name boundary (src/client/list.rs): device rows, the POSIX
 * and the DOS checks. Positions count characters; RowFields carries them over to byte positions.
 */
module ListRows {
  import opened Wrappers
  import opened Errors
  import opened RangedRead
  import opened RowFields
  import opened Probe

  function Ascii(s: string): seq<Span> { Fields(s, AsciiSpace, 0) }
  function Unicode(s: string): seq<Span> { Fields(s, UnicodeSpace, 0) }

  predicate AllDigits(s: string) { forall i | 0 <= i < |s| :: '0' <= s[i] <= '9' }

  function TrimCommas(s: string): string {
    if s != [] && s[|s| - 1] == ',' then TrimCommas(s[..|s| - 1]) else s
  }

  // ---- Device rows ----

  predicate IsMajor(s: string) { s != [] && s[|s| - 1] == ',' && AllDigits(TrimCommas(s)) }

  /** "major," and "minor" stand where a regular file has its size. */
  predicate IsDevice(line: string) {
    var f := Ascii(line);
    |f| > 5 && (line[0] == 'b' || line[0] == 'c') && IsMajor(Text(line, f, 4)) && AllDigits(Text(line, f, 5))
  }

  /** The text of field k. */
  function Text(line: string, f: seq<Span>, k: nat): string
    requires k < |f| && forall p | p in f :: p.0 <= p.1 <= |line|
  {
    assert f[k] in f;
    line[f[k].0..f[k].1]
  }

  function NormalizeSpecial(line: string): string {
    if !IsDevice(line) then line
    else
      var f := Ascii(line);
      assert f[4] in f && f[5] in f;
      line[..f[4].0] + "0" + line[f[5].1..]
  }

  /**
   * The fields 4 and 5 of line (f) became the one field "0" of n (g): the fields before stay where they are,
   * every later field and everything behind it moves by the same distance, and the text behind
   * the size, the name included, is the same text.
   */
  ghost predicate OneFieldForTwo(line: string, f: seq<Span>, n: string, g: seq<Span>) {
    && |f| > 5 && |g| == |f| - 1 && g[..4] == f[..4]
    && g[4] == (f[4].0, f[4].0 + 1) && f[4].0 + 1 <= f[5].1 <= |line| && f[4].0 < |n| && n[f[4].0] == '0'
    && g[5..] == Shifted(f[6..], f[5].1 - (f[4].0 + 1))
    && n[f[4].0 + 1..] == line[f[5].1..]
  }

  lemma NormalizingDropsOneField(line: string)
    ensures var n := NormalizeSpecial(line);
            if IsDevice(line) then OneFieldForTwo(line, Ascii(line), n, Ascii(n)) else n == line
  {
    if IsDevice(line) {
      var cut, after := Ascii(line)[4].0, Ascii(line)[5].1;
      SizeFields(line);
      OneFieldReplacesTwo(line, line[..cut] + "0" + line[after..], cut, after);
    }
  }

  lemma OneFieldReplacesTwo(line: string, n: string, cut: nat, after: nat)
    requires |Ascii(line)| > 5 && cut == Ascii(line)[4].0 && after == Ascii(line)[5].1
    requires cut + 1 <= after <= |line| && n == line[..cut] + "0" + line[after..]
    ensures OneFieldForTwo(line, Ascii(line), n, Ascii(n))
  {
    assert Ascii(n) == Ascii(line)[..4] + ([(cut, cut + 1)] + Shifted(Ascii(line)[6..], after - (cut + 1))) by {
      SizeFields(line);
      assert n[..cut] == line[..cut];
      FieldsBeforeTheSize(line, n, cut);
      FieldsFromTheSize(line, n, cut, after);
    }
    OneForTwo(line, Ascii(line), n, Ascii(n), cut, after);
  }

  lemma SizeFields(line: string)
    requires |Ascii(line)| > 5
    ensures var f := Ascii(line);
            && f[4].0 + 1 <= f[5].1 <= |line| && (f[5].1 == |line| || AsciiSpace(line[f[5].1]))
            && Fields(line, AsciiSpace, f[5].1) == f[6..]
  {
    var f := Ascii(line);
    assert f[4] in f && f[5] in f;
    FieldsFromAField(line, AsciiSpace, 0, 5);
  }

  lemma OneForTwo(line: string, f: seq<Span>, n: string, g: seq<Span>, cut: nat, after: nat)
    requires |f| > 5 && cut == f[4].0 && after == f[5].1
    requires cut + 1 <= after <= |line| && n == line[..cut] + "0" + line[after..]
    requires g == f[..4] + ([(cut, cut + 1)] + Shifted(f[6..], after - (cut + 1)))
    ensures OneFieldForTwo(line, f, n, g)
  {
    assert n[cut + 1..] == line[after..];
  }

  lemma FieldsBeforeTheSize(line: string, n: string, cut: nat)
    requires |Ascii(line)| > 5 && cut == Ascii(line)[4].0 && cut <= |line| && cut <= |n| && n[..cut] == line[..cut]
    ensures Ascii(n) == Ascii(line)[..4] + Fields(n, AsciiSpace, cut)
  {
    var f := Ascii(line);
    assert f[4] in f;
    FieldsFromAField(line, AsciiSpace, 0, 4);
    FieldsSplit(line, AsciiSpace, 0, cut);
    var before := Fields(line[..cut], AsciiSpace, 0);
    assert f == before + f[4..];
    assert |before| == 4 && before == f[..4];
    assert cut > 0 ==> n[cut - 1] == n[..cut][cut - 1] == line[..cut][cut - 1] == line[cut - 1];
    FieldsSplit(n, AsciiSpace, 0, cut);
  }

  lemma FieldsFromTheSize(line: string, n: string, cut: nat, after: nat)
    requires cut + 1 <= after <= |line| && n == line[..cut] + "0" + line[after..]
    requires after == |line| || AsciiSpace(line[after])
    ensures Fields(n, AsciiSpace, cut) == [(cut, cut + 1)] + Shifted(Fields(line, AsciiSpace, after), after - (cut + 1))
  {
    var d := after - (cut + 1);
    assert n[cut + 1..] == line[after..];
    assert after < |line| ==> n[cut + 1] == n[cut + 1..][0] == line[after..][0] == line[after];
    assert End(n, AsciiSpace, cut) == cut + 1;
    forall k | after <= k < |line| ensures line[k] == n[k - d] {
      assert line[after..][k - after] == n[cut + 1..][k - after];
    }
    FieldsMoveWithTheirText(line, after, n, d, AsciiSpace);
  }

  // ---- The POSIX name boundary ----

  predicate SpecialLetter(c: char) { c == 'b' || c == 'c' || c == 'p' || c == 's' || c == 'D' }
  predicate IsSpecial(line: string) { line != [] && SpecialLetter(line[0]) }
  predicate IsPosix(line: string) {
    line != [] && (line[0] == '-' || line[0] == 'l' || line[0] == 'd' || SpecialLetter(line[0]))
  }

  /** The row the boundary check looks at. */
  function Examined(line: string): string { if IsSpecial(line) then NormalizeSpecial(line) else line }

  predicate ContainsUnicodeSpace(s: string) { exists i :: 0 <= i < |s| && UnicodeSpace(s[i]) && !AsciiSpace(s[i]) }

  function TrimAsciiStart(s: string): string {
    if s != [] && AsciiSpace(s[0]) then TrimAsciiStart(s[1..]) else s
  }

  predicate UnicodeSpaceAfterPadding(s: string) {
    var rest := TrimAsciiStart(s);
    rest != [] && UnicodeSpace(rest[0])
  }

  datatype Rejection = LeadingSpace | SpaceInMetadata | OnlySpaces | UnicodeBoundary | UnsupportedTime

  datatype Verdict = Accepted | Rejected(why: Rejection)

  /** `reject_ambiguous_posix_name_boundary`. */
  function CheckPosixBoundary(line: string): Verdict {
    var row := Examined(line);
    var f := Ascii(row);
    if !IsPosix(line) || |f| < 8 then Accepted
    else
      assert f[7] in f;
      var end := f[7].1;
      if |f| >= 9 && end + 1 < f[8].0 then Rejected(LeadingSpace)
      else if ContainsUnicodeSpace(row[..end]) then Rejected(SpaceInMetadata)
      else if row[end..] != [] && (forall i | 0 <= i < |row[end..]| :: UnicodeSpace(row[end..][i])) then
        Rejected(OnlySpaces)
      else if UnicodeSpaceAfterPadding(row[end..]) then Rejected(UnicodeBoundary)
      else Accepted
  }

  /** Both ways to find a name see the same eight fields and the same first character of the name. */
  predicate BoundariesAgree(row: string) {
    var f, u := Ascii(row), Unicode(row);
    && |f| >= 9 && |u| >= 9 && u[..8] == f[..8]
    && u[8].0 == f[7].1 + 1
  }

  lemma {:induction false} PaddingEndsAtTheNextField(s: string, from: nat, to: nat)
    requires from <= to < |s| && Blank(s, AsciiSpace, from, to) && !AsciiSpace(s[to])
    ensures TrimAsciiStart(s[from..]) == s[to..]
    decreases |s| - from
  {
    assert s[from..][0] == s[from];
    if from < to {
      assert s[from..][1..] == s[from + 1..];
      PaddingEndsAtTheNextField(s, from + 1, to);
    }
  }

  /**
   * Name-boundary agreement: a POSIX row with at least nine fields is accepted exactly when
   * splitting on runs of any Unicode whitespace and splitting off one separator after the eighth
   * field find the same eight fields and the same start of the name.
   */
  lemma PosixRowsAreAcceptedIffTheBoundariesAgree(line: string)
    requires IsPosix(line) && |Ascii(Examined(line))| >= 9
    ensures CheckPosixBoundary(line) == Accepted <==> BoundariesAgree(Examined(line))
  {
    var row := Examined(line);
    var f := Ascii(row);
    assert f[7] in f && f[8] in f;
    FieldsFromAField(row, AsciiSpace, 0, 8);
    var end, name := f[7].1, f[8].0;
    PaddingEndsAtTheNextField(row, end, name);
    assert row[end..][0] == row[end] && row[end..][name - end] == row[name];
    if CheckPosixBoundary(line) == Accepted {
      AcceptedRowsAgree(line);
    }
    if BoundariesAgree(row) {
      AgreeingRowsAreAccepted(line);
    }
  }

  lemma AcceptedRowsAgree(line: string)
    requires IsPosix(line) && |Ascii(Examined(line))| >= 9 && CheckPosixBoundary(line) == Accepted
    ensures BoundariesAgree(Examined(line))
  {
    var row := Examined(line);
    var f := Ascii(row);
    assert f[7] in f && f[8] in f;
    FieldsFromAField(row, AsciiSpace, 0, 8);
    var end, name := f[7].1, f[8].0;
    PaddingEndsAtTheNextField(row, end, name);
    assert name == end + 1;
    forall k | 0 <= k <= name ensures AsciiSpace(row[k]) <==> UnicodeSpace(row[k]) {
      if k < end {
        assert row[..end][k] == row[k];
      } else if k == name {
        assert row[name..][0] == row[name];
      }
    }
    AgreeingSpacesFindTheSameFields(row, AsciiSpace, UnicodeSpace, 0, 8);
  }

  lemma AgreeingRowsAreAccepted(line: string)
    requires IsPosix(line) && BoundariesAgree(Examined(line))
    ensures CheckPosixBoundary(line) == Accepted
  {
    var row := Examined(line);
    var f := Ascii(row);
    assert f[7] in f && f[8] in f;
    AgreeingNamesStartAfterOneSeparator(row);
    AgreeingMetadataIsPlain(row);
    var end := f[7].1;
    assert row[end..][1] == row[end + 1];
    assert TrimAsciiStart(row[end..])[0] == row[end + 1];
  }

  lemma AgreeingNamesStartAfterOneSeparator(row: string)
    requires BoundariesAgree(row)
    ensures var f := Ascii(row);
            var end := f[7].1;
            && f[8].0 == end + 1 < |row| && !UnicodeSpace(row[end + 1]) && TrimAsciiStart(row[end..]) == row[end + 1..]
  {
    var f, u := Ascii(row), Unicode(row);
    assert f[8] in f && u[8] in u;
    FieldsFromAField(row, AsciiSpace, 0, 8);
    FieldsFromAField(row, UnicodeSpace, 0, 8);
    assert f[8].0 <= u[8].0;
    PaddingEndsAtTheNextField(row, f[7].1, f[8].0);
  }

  lemma AgreeingMetadataIsPlain(row: string)
    requires BoundariesAgree(row)
    ensures var end := Ascii(row)[7].1; end <= |row| && !ContainsUnicodeSpace(row[..end])
  {
    var f, u := Ascii(row), Unicode(row);
    assert f[7] in f;
    var end := f[7].1;
    if k :| 0 <= k < end && UnicodeSpace(row[..end][k]) && !AsciiSpace(row[..end][k]) {
      assert u[..7 + 1] == f[..7 + 1];
      SpacesLieInGaps(row, AsciiSpace, UnicodeSpace, 0, 7, k);
    }
  }

  /** The gap the source measures in bytes is the gap measured here in characters. */
  lemma TheSeparatorIsMeasuredInBytes(row: string)
    requires |Ascii(row)| >= 9
    ensures var f, g := Ascii(row), Fields(Encode(row), AsciiSpaceByte, 0);
            |g| == |f| && (g[7].1 + 1 < g[8].0 <==> f[7].1 + 1 < f[8].0)
  {
    var f := Ascii(row);
    SpansLieOnCharacterBoundaries(row);
    assert f[7] in f && f[8] in f;
    FieldsFromAField(row, AsciiSpace, 0, 8);
    GapsCountAlike(row, f[7].1, f[8].0);
    InBytesAt(row, f, 7);
    InBytesAt(row, f, 8);
  }

  // ---- The DOS name boundary ----

  predicate LooksLikeDos(s: string) {
    && |s| >= 8 && s[2] == '-' && s[5] == '-'
    && AllDigits(s[..2]) && AllDigits(s[3..5]) && AllDigits(s[6..8])
  }

  predicate StartsWith(s: string, prefix: string) { |prefix| <= |s| && s[..|prefix|] == prefix }

  predicate MarkerAt(s: string, marker: string, i: nat) {
    i + |marker| <= |s| && s[i..i + |marker|] == marker
  }

  /** The first occurrence of marker from position `from` on. */
  function Find(s: string, marker: string, from: nat): (at: Option<nat>)
    requires from <= |s|
    ensures at.Some? ==> from <= at.value && MarkerAt(s, marker, at.value)
    ensures forall i | from <= i <= |s| && (at.Some? ==> i < at.value) :: !MarkerAt(s, marker, i)
    decreases |s| - from
  {
    if MarkerAt(s, marker, from) then Some(from)
    else if from == |s| then None
    else Find(s, marker, from + 1)
  }

  function Skip(s: string, i: nat): (j: nat)
    requires i <= |s|
    ensures i <= j <= |s|
    decreases |s| - i
  {
    if i < |s| && AsciiSpace(s[i]) then Skip(s, i + 1) else i
  }

  /** Where the time ends: behind "AM", else "PM", within the eight characters that start at `start`. */
  function TimeEnd(line: string, start: nat): (end: Option<nat>)
    requires start <= |line|
    ensures end.Some? ==> end.value <= |line|
  {
    var prefix := line[start..start + Min(8, |line| - start)];
    var at := if Find(prefix, "AM", 0).Some? then Find(prefix, "AM", 0) else Find(prefix, "PM", 0);
    match at case None => None case Some(k) => Some(start + k + 2)
  }

  /** The layout of Windows servers: "<DIR>" at byte 24 and the name at byte 39. */
  predicate Padded(line: string, token: Span, name: nat)
    requires token.0 <= token.1 <= |line| && name <= |line|
  {
    line[token.0..token.1] == "<DIR>" && Offset(line, token.0) == 24 && Offset(line, name) == 39
  }

  /** `reject_ambiguous_dos_name_boundary`. */
  function CheckDosBoundary(line: string): Verdict
    requires LooksLikeDos(line)
  {
    var start := Skip(line, 8);
    if start == |line| then Accepted
    else
      match TimeEnd(line, start)
      case None => Rejected(UnsupportedTime)
      case Some(end) => CheckAfterTheTime(line, end)
  }

  function CheckAfterTheTime(line: string, end: nat): Verdict
    requires end <= |line|
  {
    if end < |line| && UnicodeSpace(line[end]) && !AsciiSpace(line[end]) then Rejected(UnicodeBoundary)
    else if Skip(line, end) == |line| then Accepted
    else
      var token := (Skip(line, end), End(line, AsciiSpace, Skip(line, end)));
      CheckDosName(line, token, Skip(line, token.1))
  }

  function CheckDosName(line: string, token: Span, name: nat): Verdict
    requires token.0 <= token.1 <= name <= |line|
  {
    var after := line[token.1..];
    if after != [] && (forall i | 0 <= i < |after| :: UnicodeSpace(after[i])) then Rejected(OnlySpaces)
    else if UnicodeSpaceAfterPadding(after) then Rejected(UnicodeBoundary)
    else if name - token.1 > 1 && !Padded(line, token, name) then Rejected(LeadingSpace)
    else Accepted
  }

  predicate OneSeparator(line: string, token: Span, name: nat)
    requires token.0 <= token.1 <= |line| && name <= |line|
  {
    name == token.1 + 1 || Padded(line, token, name)
  }

  /**
   * Behind the time, splitting on Unicode and on ASCII whitespace find the same size or "<DIR>"
   * and the same start of the name, one separator further or at the column of the padded layout.
   */
  predicate DosBoundariesAgree(line: string, end: nat)
    requires end <= |line|
  {
    var f, u := Fields(line, AsciiSpace, end), Fields(line, UnicodeSpace, end);
    && |f| >= 2 && |u| >= 2 && u[0] == f[0] && u[1].0 == f[1].0
    && (assert f[0] in f && f[1] in f; OneSeparator(line, f[0], f[1].0))
  }

  lemma {:induction false} SkippingFindsTheFirstField(s: string, i: nat)
    requires i <= |s|
    ensures var f := Fields(s, AsciiSpace, i);
            if f == [] then Skip(s, i) == |s|
            else
              && f[0].0 == Skip(s, i) < |s| && f[0].1 == End(s, AsciiSpace, Skip(s, i))
              && f[1..] == Fields(s, AsciiSpace, f[0].1)
    decreases |s| - i
  {
    if i < |s| && AsciiSpace(s[i]) { SkippingFindsTheFirstField(s, i + 1); }
  }

  /**
   * A DOS row that names something behind its time is accepted with a metadata token free of
   * Unicode whitespace exactly when both ways to find the name agree. The check never looks inside
   * the token: what it accepts with such whitespace there are rows on which they disagree.
   */
  lemma DosBoundariesAgreeIff(line: string, end: nat)
    requires LooksLikeDos(line) && TimeEnd(line, Skip(line, 8)) == Some(end) && |Fields(line, AsciiSpace, end)| >= 2
    ensures var token := Fields(line, AsciiSpace, end)[0];
            token.0 <= token.1 <= |line| &&
            (DosBoundariesAgree(line, end)
             <==> CheckDosBoundary(line) == Accepted && !ContainsUnicodeSpace(line[token.0..token.1]))
  {
    var f := Fields(line, AsciiSpace, end);
    DosFields(line, end);
    if CheckDosBoundary(line) == Accepted && !ContainsUnicodeSpace(line[f[0].0..f[0].1]) {
      AcceptedDosRowsAgree(line, end);
    }
    if DosBoundariesAgree(line, end) {
      AgreeingDosRowsAreAccepted(line, end);
    }
  }

  const TWO_WAYS := "01-01-20 12:00AM 1\U{A0}2 n"

  lemma TheDateOfTwoWays()
    ensures LooksLikeDos(TWO_WAYS)
  {
    var line := TWO_WAYS;
    assert line[0] == '0' && line[1] == '1';
    assert line[2] == '-' && line[5] == '-';
    assert line[3] == '0' && line[4] == '1';
    assert line[6] == '2' && line[7] == '0';
    forall i | 0 <= i < 2 ensures '0' <= line[..2][i] <= '9' { assert line[..2][i] == line[i]; }
    forall i | 0 <= i < 2 ensures '0' <= line[3..5][i] <= '9' { assert line[3..5][i] == line[3 + i]; }
    forall i | 0 <= i < 2 ensures '0' <= line[6..8][i] <= '9' { assert line[6..8][i] == line[6 + i]; }
  }

  lemma TheTimeOfTwoWays()
    ensures Skip(TWO_WAYS, 8) == 9 && TimeEnd(TWO_WAYS, 9) == Some(16)
  {
    var line := TWO_WAYS;
    assert line[9] == '1' && line[10] == '2' && line[11] == ':' && line[12] == '0' && line[13] == '0';
    assert line[14] == 'A' && line[15] == 'M';
    assert Skip(line, 9) == 9;
    var time := line[9..17];
    forall i | 0 <= i < 5 ensures !MarkerAt(time, "AM", i) {
      assert time[i..i + 2][0] == line[9 + i] != 'A';
    }
    assert time[5..7] == ['A', 'M'] && MarkerAt(time, "AM", 5);
  }

  lemma TheFieldsOfTwoWays()
    ensures Fields(TWO_WAYS, AsciiSpace, 16) == [(17, 20), (21, 22)]
  {
    var line := TWO_WAYS;
    assert End(line, AsciiSpace, 20) == 20 && End(line, AsciiSpace, 19) == 20 && End(line, AsciiSpace, 18) == 20;
    assert Fields(line, AsciiSpace, 22) == [] && End(line, AsciiSpace, 22) == 22;
    assert Fields(line, AsciiSpace, 21) == [(21, 22)];
    assert Fields(line, AsciiSpace, 20) == [(21, 22)];
    assert Fields(line, AsciiSpace, 17) == [(17, 20), (21, 22)];
  }

  /** A row that is accepted although its size and the start of its name can be read in two ways. */
  lemma DosSizesMayHideASpace()
    ensures LooksLikeDos(TWO_WAYS) && CheckDosBoundary(TWO_WAYS) == Accepted && !DosBoundariesAgree(TWO_WAYS, 16)
  {
    TheDateOfTwoWays();
    TheTimeOfTwoWays();
    TheFieldsOfTwoWays();
    DosVerdict(TWO_WAYS, 16);
    var size := TWO_WAYS[17..20];
    assert size[1] == '\U{A0}' && ContainsUnicodeSpace(size);
    DosBoundariesAgreeIff(TWO_WAYS, 16);
  }

  lemma DosFields(line: string, end: nat)
    requires end <= |line| && |Fields(line, AsciiSpace, end)| >= 2
    ensures var f := Fields(line, AsciiSpace, end);
            && end <= f[0].0 < f[0].1 < f[1].0 < |line|
            && f[0] == (Skip(line, end), End(line, AsciiSpace, Skip(line, end))) && f[1].0 == Skip(line, f[0].1)
            && Blank(line, AsciiSpace, end, f[0].0) && Solid(line, AsciiSpace, f[0].0, f[0].1)
            && Blank(line, AsciiSpace, f[0].1, f[1].0) && !AsciiSpace(line[f[1].0])
            && TrimAsciiStart(line[f[0].1..]) == line[f[1].0..]
  {
    var f := Fields(line, AsciiSpace, end);
    assert f[0] in f && f[1] in f;
    SkippingFindsTheFirstField(line, end);
    SkippingFindsTheFirstField(line, f[0].1);
    FirstFieldAfterBlanks(line, AsciiSpace, end);
    FieldsFromAField(line, AsciiSpace, end, 1);
    PaddingEndsAtTheNextField(line, f[0].1, f[1].0);
  }

  lemma DosNameVerdict(line: string, token: Span, name: nat)
    requires token.0 <= token.1 < name < |line| && TrimAsciiStart(line[token.1..]) == line[name..]
    ensures CheckDosName(line, token, name) == Accepted
            <==> !UnicodeSpace(line[name]) && OneSeparator(line, token, name)
  {
    assert line[token.1..][name - token.1] == line[name] == line[name..][0];
  }

  /** The verdict in terms of the fields behind the time. */
  lemma DosVerdict(line: string, end: nat)
    requires end <= |line| && |Fields(line, AsciiSpace, end)| >= 2
    ensures var f := Fields(line, AsciiSpace, end);
            && f[0].0 < f[0].1 < f[1].0 < |line| && end < |line|
            && (CheckAfterTheTime(line, end) == Accepted <==>
                  (AsciiSpace(line[end]) || !UnicodeSpace(line[end])) && !UnicodeSpace(line[f[1].0])
                  && OneSeparator(line, f[0], f[1].0))
  {
    DosFields(line, end);
    var f := Fields(line, AsciiSpace, end);
    DosNameVerdict(line, f[0], f[1].0);
  }

  lemma AcceptedDosRowsAgree(line: string, end: nat)
    requires end <= |line| && |Fields(line, AsciiSpace, end)| >= 2 && CheckAfterTheTime(line, end) == Accepted
    requires var token := Fields(line, AsciiSpace, end)[0];
             token.0 <= token.1 <= |line| && !ContainsUnicodeSpace(line[token.0..token.1])
    ensures DosBoundariesAgree(line, end)
  {
    DosVerdict(line, end);
    PlainTokensReadAlike(line, end);
  }

  lemma PlainTokensReadAlike(line: string, end: nat)
    requires end <= |line| && |Fields(line, AsciiSpace, end)| >= 2
    requires var f := Fields(line, AsciiSpace, end);
             f[0].0 <= f[0].1 <= |line| && !ContainsUnicodeSpace(line[f[0].0..f[0].1])
             && f[1].0 < |line| && !UnicodeSpace(line[f[1].0])
    ensures var f, u := Fields(line, AsciiSpace, end), Fields(line, UnicodeSpace, end);
            |u| >= 2 && u[0] == f[0] && u[1].0 == f[1].0
  {
    var f := Fields(line, AsciiSpace, end);
    DosFields(line, end);
    forall k | end <= k <= f[1].0 ensures AsciiSpace(line[k]) <==> UnicodeSpace(line[k]) {
      if f[0].0 <= k < f[0].1 { assert line[f[0].0..f[0].1][k - f[0].0] == line[k]; }
    }
    AgreeingSpacesFindTheSameFields(line, AsciiSpace, UnicodeSpace, end, 1);
    var u := Fields(line, UnicodeSpace, end);
    assert u[0] == u[..1][0] == f[..1][0] == f[0];
  }

  lemma AgreeingDosRowsAreAccepted(line: string, end: nat)
    requires end <= |line| && DosBoundariesAgree(line, end)
    ensures CheckAfterTheTime(line, end) == Accepted
    ensures var token := Fields(line, AsciiSpace, end)[0];
            token.0 <= token.1 <= |line| && !ContainsUnicodeSpace(line[token.0..token.1])
  {
    DosVerdict(line, end);
    UnicodeFieldsAreSolid(line, end);
    var u := Fields(line, UnicodeSpace, end);
    SolidTokensArePlain(line, u[0].0, u[0].1);
  }

  lemma SolidTokensArePlain(line: string, lo: nat, hi: nat)
    requires lo <= hi <= |line| && Solid(line, UnicodeSpace, lo, hi)
    ensures !ContainsUnicodeSpace(line[lo..hi])
  {
    forall k | 0 <= k < hi - lo ensures !UnicodeSpace(line[lo..hi][k]) { assert line[lo..hi][k] == line[lo + k]; }
  }

  lemma UnicodeFieldsAreSolid(line: string, end: nat)
    requires end <= |line| && |Fields(line, UnicodeSpace, end)| >= 2
    ensures var u := Fields(line, UnicodeSpace, end);
            && end <= u[0].0 < u[0].1 <= u[1].0 < |line| && Solid(line, UnicodeSpace, u[0].0, u[0].1)
            && !UnicodeSpace(line[u[1].0]) && (u[0].0 == end || UnicodeSpace(line[end]))
  {
    var u := Fields(line, UnicodeSpace, end);
    assert u[0] in u && u[1] in u;
    FieldsFromAField(line, UnicodeSpace, end, 0);
    FieldsFromAField(line, UnicodeSpace, end, 1);
    FirstFieldAfterBlanks(line, UnicodeSpace, end);
  }

  // ---- Which boundaries are accepted ----

  /**
   * A POSIX row (its first letter says so) is unambiguous when it has too few fields to be one, when
   * it ends with its eighth field and its metadata is plain, or when both ways to find its name agree.
   */
  predicate PosixUnambiguous(line: string) {
    line == "" || line[0] !in "-ldbcpsD" ||
    var row := if line[0] in "bcpsD" then NormalizeSpecial(line) else line;
    var f := Ascii(row);
    || |f| < 8
    || (|f| == 8 && f[7].1 == |row| && !ContainsUnicodeSpace(row))
    || BoundariesAgree(row)
  }

  lemma PosixRowsAreAcceptedIff(line: string)
    ensures CheckPosixBoundary(line) == Accepted <==> PosixUnambiguous(line)
  {
    if IsPosix(line) && |Ascii(Examined(line))| >= 9 { PosixRowsAreAcceptedIffTheBoundariesAgree(line); }
    if IsPosix(line) && |Ascii(Examined(line))| == 8 { NamelessPosixRows(line); }
  }

  lemma NamelessPosixRows(line: string)
    requires IsPosix(line) && |Ascii(Examined(line))| == 8
    ensures var row := Examined(line);
            CheckPosixBoundary(line) == Accepted <==> Ascii(row)[7].1 == |row| && !ContainsUnicodeSpace(row)
  {
    var row := Examined(line);
    var f := Ascii(row);
    assert f[7] in f;
    FieldsFromAField(row, AsciiSpace, 0, 7);
    var end := f[7].1;
    NothingButBlanks(row, end);
    assert row[end..] == [] ==> row[..end] == row;
  }

  lemma {:induction false} NothingButBlanks(s: string, from: nat)
    requires from <= |s| && Fields(s, AsciiSpace, from) == []
    ensures forall i | 0 <= i < |s| - from :: AsciiSpace(s[from..][i])
    ensures TrimAsciiStart(s[from..]) == []
    decreases |s| - from
  {
    if from < |s| {
      NothingButBlanks(s, from + 1);
      assert s[from..][1..] == s[from + 1..];
      forall i | 0 <= i < |s| - from ensures AsciiSpace(s[from..][i]) {
        assert i > 0 ==> s[from..][i] == s[from + 1..][i - 1];
      }
    }
  }

  /**
   * Behind the time, a DOS row is unambiguous when nothing follows, when it ends with its metadata
   * token, or when its name starts one separator further or at the padded column; the text must
   * not begin, nor the name, with whitespace that is not ASCII.
   */
  predicate UnambiguousAfterTheTime(line: string, end: nat)
    requires end <= |line|
  {
    var f := Fields(line, AsciiSpace, end);
    || f == []
    || ((AsciiSpace(line[end]) || !UnicodeSpace(line[end]))
        && (assert f[0] in f;
            if |f| == 1 then f[0].1 == |line|
            else assert f[1] in f; !UnicodeSpace(line[f[1].0]) && OneSeparator(line, f[0], f[1].0)))
  }

  predicate DosUnambiguous(line: string)
    requires LooksLikeDos(line)
  {
    || Skip(line, 8) == |line|
    || (TimeEnd(line, Skip(line, 8)).Some? && UnambiguousAfterTheTime(line, TimeEnd(line, Skip(line, 8)).value))
  }

  lemma DosRowsAreAcceptedIff(line: string)
    requires LooksLikeDos(line)
    ensures CheckDosBoundary(line) == Accepted <==> DosUnambiguous(line)
  {
    if Skip(line, 8) != |line| && TimeEnd(line, Skip(line, 8)).Some? {
      AfterTheTimeIff(line, TimeEnd(line, Skip(line, 8)).value);
    }
  }

  lemma AfterTheTimeIff(line: string, end: nat)
    requires end <= |line|
    ensures CheckAfterTheTime(line, end) == Accepted <==> UnambiguousAfterTheTime(line, end)
  {
    var f := Fields(line, AsciiSpace, end);
    SkippingFindsTheFirstField(line, end);
    if |f| >= 2 {
      DosVerdict(line, end);
    } else if |f| == 1 {
      NamelessDosRows(line, end);
    } else {
      NothingButBlanks(line, end);
      assert end < |line| ==> line[end..][0] == line[end];
    }
  }

  lemma NamelessDosRows(line: string, end: nat)
    requires end <= |line| && |Fields(line, AsciiSpace, end)| == 1
    ensures var f := Fields(line, AsciiSpace, end);
            && end < |line| && f[0].1 <= |line|
            && (CheckAfterTheTime(line, end) == Accepted
                <==> (AsciiSpace(line[end]) || !UnicodeSpace(line[end])) && f[0].1 == |line|)
  {
    var f := Fields(line, AsciiSpace, end);
    assert f[0] in f;
    SkippingFindsTheFirstField(line, end);
    NothingButBlanks(line, f[0].1);
  }

  /** The time ends behind the first "AM" of the eight characters at `start`, or else the first "PM". */
  lemma TimesEndBehindTheirMarker(line: string, start: nat)
    requires start <= |line|
    ensures var window := line[start..start + Min(8, |line| - start)];
            match TimeEnd(line, start)
            case None => forall i: nat :: !MarkerAt(window, "AM", i) && !MarkerAt(window, "PM", i)
            case Some(end) =>
              && start + 2 <= end <= start + |window|
              && var k := end - start - 2;
                 if exists i: nat :: MarkerAt(window, "AM", i) then
                   MarkerAt(window, "AM", k) && forall i: nat | i < k :: !MarkerAt(window, "AM", i)
                 else
                   MarkerAt(window, "PM", k) && forall i: nat | i < k :: !MarkerAt(window, "PM", i)
  {
    var window := line[start..start + Min(8, |line| - start)];
    forall i: nat | i > |window| ensures !MarkerAt(window, "AM", i) && !MarkerAt(window, "PM", i) {
    }
  }

  /** Fields 4 and 5 of a device row: digits and then at least one comma; digits. */
  lemma MajorsEndInCommas(s: string)
    ensures IsMajor(s) <==> exists n :: 0 <= n < |s| && AllDigits(s[..n]) && AllCommas(s[n..])
  {
    CommasAreTrimmed(s);
    var n := |TrimCommas(s)|;
    if IsMajor(s) {
      assert s[..n] == TrimCommas(s) && AllCommas(s[n..]);
    }
    if n' :| 0 <= n' < |s| && AllDigits(s[..n']) && AllCommas(s[n'..]) {
      assert s[n'..][|s| - 1 - n'] == s[|s| - 1];
      NothingButCommasIsTrimmed(s, n');
      forall i | 0 <= i < n ensures '0' <= s[i] <= '9' { assert s[..n'][i] == s[i]; }
    }
  }

  predicate AllCommas(s: string) { forall i | 0 <= i < |s| :: s[i] == ',' }

  lemma {:induction false} CommasAreTrimmed(s: string)
    ensures var r := TrimCommas(s);
            |r| <= |s| && r == s[..|r|] && AllCommas(s[|r|..]) && (r != "" ==> r[|r| - 1] != ',')
    decreases |s|
  {
    if s != [] && s[|s| - 1] == ',' {
      CommasAreTrimmed(s[..|s| - 1]);
      var r := TrimCommas(s);
      assert s[..|s| - 1][..|r|] == s[..|r|];
      assert s[|r|..] == s[..|s| - 1][|r|..] + [','];
    }
  }

  lemma {:induction false} NothingButCommasIsTrimmed(s: string, n: nat)
    requires n <= |s| && AllCommas(s[n..])
    ensures |TrimCommas(s)| <= n
    decreases |s|
  {
    if n < |s| {
      assert s[n..][|s| - 1 - n] == s[|s| - 1];
      var shorter := s[..|s| - 1];
      assert shorter[n..] == s[n..][..|s| - 1 - n];
      NothingButCommasIsTrimmed(shorter, n);
    } else {
      CommasAreTrimmed(s);
    }
  }

  /** Which rows are device rows: the letter, six fields, "major," and "minor". */
  lemma DeviceRowsIff(line: string)
    ensures IsDevice(line)
            <==> line != "" && line[0] in "bc" && |Ascii(line)| > 5
                 && (exists n :: 0 <= n < |Text(line, Ascii(line), 4)| && AllDigits(Text(line, Ascii(line), 4)[..n])
                                 && AllCommas(Text(line, Ascii(line), 4)[n..]))
                 && AllDigits(Text(line, Ascii(line), 5))
  {
    if |Ascii(line)| > 5 { MajorsEndInCommas(Text(line, Ascii(line), 4)); }
  }
}

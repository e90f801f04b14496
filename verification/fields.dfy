/**
 * Whitespace-separated fields of a row, on bytes and on characters (src/client/list.rs).
 *
 * `AreFields` says what the fields are; `Fields` computes them; `FieldSpans` is the source's loop
 * over bytes; `SpansLieOnCharacterBoundaries` carries the result over to characters.
 */
module RowFields {
  import opened RangedRead

  type Span = (nat, nat)

  // ---- Fields of any sequence ----

  ghost predicate Blank<T(!new)>(s: seq<T>, ws: T -> bool, lo: nat, hi: nat) {
    hi <= |s| && forall i | lo <= i < hi :: ws(s[i])
  }

  ghost predicate Solid<T(!new)>(s: seq<T>, ws: T -> bool, lo: nat, hi: nat) {
    hi <= |s| && forall i | lo <= i < hi :: !ws(s[i])
  }

  /** f lists, in order, the maximal runs of non-whitespace from position `from` on. */
  ghost predicate AreFields<T(!new)>(s: seq<T>, ws: T -> bool, from: nat, f: seq<Span>)
    decreases |f|
  {
    if f == [] then from <= |s| && Blank(s, ws, from, |s|)
    else
      && from <= f[0].0 < f[0].1 <= |s|
      && Blank(s, ws, from, f[0].0) && Solid(s, ws, f[0].0, f[0].1) && (f[0].1 < |s| ==> ws(s[f[0].1]))
      && AreFields(s, ws, f[0].1, f[1..])
  }

  function End<T>(s: seq<T>, ws: T -> bool, i: nat): (j: nat)
    requires i <= |s|
    ensures i <= j <= |s| && (j < |s| ==> ws(s[j])) && forall k | i <= k < j :: !ws(s[k])
    decreases |s| - i
  {
    if i == |s| || ws(s[i]) then i else End(s, ws, i + 1)
  }

  function Fields<T>(s: seq<T>, ws: T -> bool, i: nat): (f: seq<Span>)
    requires i <= |s|
    ensures forall p | p in f :: i <= p.0 < p.1 <= |s|
    decreases |s| - i
  {
    if i == |s| then []
    else if ws(s[i]) then Fields(s, ws, i + 1)
    else [(i, End(s, ws, i))] + Fields(s, ws, End(s, ws, i))
  }

  lemma {:induction false} FieldsAreFields<T(!new)>(s: seq<T>, ws: T -> bool, i: nat)
    requires i <= |s|
    ensures AreFields(s, ws, i, Fields(s, ws, i))
    decreases |s| - i
  {
    if i < |s| {
      if ws(s[i]) {
        FieldsAreFields(s, ws, i + 1);
      } else {
        var e := End(s, ws, i);
        FieldsAreFields(s, ws, e);
        assert ([(i, e)] + Fields(s, ws, e))[1..] == Fields(s, ws, e);
      }
    }
  }

  /** There is only one way to list the fields. */
  lemma {:induction false} FieldsAreUnique<T(!new)>(s: seq<T>, ws: T -> bool, i: nat, f: seq<Span>)
    requires i <= |s| && AreFields(s, ws, i, f)
    ensures f == Fields(s, ws, i)
    decreases |s| - i
  {
    if i < |s| {
      if ws(s[i]) {
        FieldsAreUnique(s, ws, i + 1, f);
      } else {
        assert f != [] && f[0] == (i, End(s, ws, i));
        FieldsAreUnique(s, ws, f[0].1, f[1..]);
      }
    }
  }

  /** From any field on, the fields are the rest of the list, and whitespace precedes it. */
  lemma {:induction false} FieldsFromAField<T(!new)>(s: seq<T>, ws: T -> bool, i: nat, m: nat)
    requires i <= |s| && m < |Fields(s, ws, i)|
    ensures var f := Fields(s, ws, i);
            && Fields(s, ws, f[m].0) == f[m..] && Fields(s, ws, f[m].1) == f[m + 1..]
            && End(s, ws, f[m].0) == f[m].1 && !ws(s[f[m].0])
            && (f[m].0 == i || ws(s[f[m].0 - 1]))
            && (m > 0 ==> f[m - 1].1 < f[m].0 && Blank(s, ws, f[m - 1].1, f[m].0))
    decreases |s| - i
  {
    if ws(s[i]) {
      FieldsFromAField(s, ws, i + 1, m);
    } else {
      var e := End(s, ws, i);
      var f, rest := Fields(s, ws, i), Fields(s, ws, e);
      assert f[1..] == rest && f[0] == (i, e);
      if m > 0 {
        FieldsFromAField(s, ws, e, m - 1);
        assert f[m] == rest[m - 1] && f[m..] == rest[m - 1..] && f[m + 1..] == rest[m..];
        if m == 1 {
          FirstFieldAfterBlanks(s, ws, e);
        } else {
          assert f[m - 1] == rest[m - 2];
        }
      }
    }
  }

  lemma {:induction false} FirstFieldAfterBlanks<T(!new)>(s: seq<T>, ws: T -> bool, i: nat)
    requires i <= |s| && Fields(s, ws, i) != []
    ensures Blank(s, ws, i, Fields(s, ws, i)[0].0)
    decreases |s| - i
  {
    if ws(s[i]) { FirstFieldAfterBlanks(s, ws, i + 1); }
  }

  /** A row cut after a whitespace has the fields of its two parts. */
  lemma {:induction false} FieldsSplit<T(!new)>(s: seq<T>, ws: T -> bool, i: nat, cut: nat)
    requires i <= cut <= |s| && (i < cut ==> ws(s[cut - 1]))
    ensures Fields(s, ws, i) == Fields(s[..cut], ws, i) + Fields(s, ws, cut)
    decreases |s| - i
  {
    if i < cut {
      if ws(s[i]) {
        FieldsSplit(s, ws, i + 1, cut);
      } else {
        var e := End(s, ws, i);
        assert End(s[..cut], ws, i) == e;
        FieldsSplit(s, ws, e, cut);
      }
    }
  }

  /** The text of a from position i on also stands in b, d places further left, and ends it. */
  ghost predicate MovedLeft<T(!new)>(a: seq<T>, i: nat, b: seq<T>, d: nat) {
    d <= i <= |a| == |b| + d && forall k | i <= k < |a| :: a[k] == b[k - d]
  }

  lemma StretchesMove<T(!new)>(a: seq<T>, i: nat, b: seq<T>, d: nat, ws: T -> bool, lo: nat, hi: nat)
    requires MovedLeft(a, i, b, d) && i <= lo <= hi <= |a|
    ensures Blank(a, ws, lo, hi) ==> Blank(b, ws, lo - d, hi - d)
    ensures Solid(a, ws, lo, hi) ==> Solid(b, ws, lo - d, hi - d)
  {
    forall k | lo - d <= k < hi - d ensures b[k] == a[k + d] {
    }
  }

  lemma {:induction false} RunsMoveWithTheirText<T(!new)>(
    a: seq<T>, i: nat, b: seq<T>, d: nat, ws: T -> bool, f: seq<Span>)
    requires MovedLeft(a, i, b, d) && AreFields(a, ws, i, f)
    ensures AreFields(b, ws, i - d, Shifted(f, d))
    decreases |f|
  {
    if f == [] {
      StretchesMove(a, i, b, d, ws, i, |a|);
    } else {
      StretchesMove(a, i, b, d, ws, i, f[0].0);
      StretchesMove(a, i, b, d, ws, f[0].0, f[0].1);
      RunsMoveWithTheirText(a, f[0].1, b, d, ws, f[1..]);
      assert Shifted(f, d)[1..] == Shifted(f[1..], d);
    }
  }

  /** A suffix that sits d places further left has the same fields, d places further left. */
  lemma FieldsMoveWithTheirText<T(!new)>(a: seq<T>, i: nat, b: seq<T>, d: nat, ws: T -> bool)
    requires MovedLeft(a, i, b, d)
    ensures Fields(b, ws, i - d) == Shifted(Fields(a, ws, i), d)
  {
    FieldsAreFields(a, ws, i);
    RunsMoveWithTheirText(a, i, b, d, ws, Fields(a, ws, i));
    FieldsAreUnique(b, ws, i - d, Shifted(Fields(a, ws, i), d));
  }

  function Shifted(f: seq<Span>, d: nat): (r: seq<Span>)
    ensures |r| == |f| && forall k | 0 <= k < |f| :: r[k] == ShiftedSpan(f[k], d)
  {
    seq(|f|, k requires 0 <= k < |f| => ShiftedSpan(f[k], d))
  }

  function ShiftedSpan(p: Span, d: nat): Span {
    if d <= p.0 && d <= p.1 then (p.0 - d, p.1 - d) else p
  }

  /** Two notions of whitespace that agree up to the start of field m see the same first m fields. */
  lemma {:induction false} AgreeingSpacesFindTheSameFields<T(!new)>(
    s: seq<T>, ws: T -> bool, ws2: T -> bool, i: nat, m: nat)
    requires i <= |s| && m < |Fields(s, ws, i)|
    requires forall k | i <= k <= Fields(s, ws, i)[m].0 :: ws(s[k]) <==> ws2(s[k])
    ensures var f, g := Fields(s, ws, i), Fields(s, ws2, i);
            m < |g| && g[..m] == f[..m] && g[m].0 == f[m].0
    decreases |s| - i
  {
    var f := Fields(s, ws, i);
    assert f[m] in f;
    if ws(s[i]) {
      AgreeingSpacesFindTheSameFields(s, ws, ws2, i + 1, m);
    } else if m > 0 {
      var e := End(s, ws, i);
      assert f[1..] == Fields(s, ws, e) && f[m] == f[1..][m - 1];
      assert f[1..][m - 1] in f[1..];
      assert End(s, ws2, i) == e by {
        FieldsFromAField(s, ws, i, 1);
        assert f[1..][0] == f[1];
      }
      AgreeingSpacesFindTheSameFields(s, ws, ws2, e, m - 1);
      var g := Fields(s, ws2, i);
      assert g[1..] == Fields(s, ws2, e) && g[m] == g[1..][m - 1];
      assert f[..m] == [f[0]] + f[1..][..m - 1] && g[..m] == [g[0]] + g[1..][..m - 1];
    }
  }

  /** Whitespace before the end of field m lies in a gap. */
  lemma {:induction false} SpacesLieInGaps<T(!new)>(s: seq<T>, ws: T -> bool, ws2: T -> bool, i: nat, m: nat, at: nat)
    requires i <= |s| && m < |Fields(s, ws, i)| && i <= at < Fields(s, ws, i)[m].1
    requires m < |Fields(s, ws2, i)| && Fields(s, ws2, i)[..m + 1] == Fields(s, ws, i)[..m + 1]
    ensures ws2(s[at]) ==> ws(s[at])
    decreases |s| - i
  {
    var f, g := Fields(s, ws, i), Fields(s, ws2, i);
    assert f[0] == f[..m + 1][0] == g[..m + 1][0] == g[0];
    FieldsFromAField(s, ws, i, 0);
    FieldsFromAField(s, ws2, i, 0);
    FirstFieldAfterBlanks(s, ws, i);
    if at >= f[0].1 {
      assert m > 0;
      assert f[1..][..m] == f[..m + 1][1..] == g[..m + 1][1..] == g[1..][..m];
      SpacesLieInGaps(s, ws, ws2, f[0].1, m - 1, at);
    }
  }

  // ---- The loop over bytes ----

  predicate AsciiSpaceByte(b: Byte) { b == 9 || b == 10 || b == 12 || b == 13 || b == 32 }

  method FieldSpans(line: seq<Byte>) returns (spans: seq<Span>)
    ensures spans == Fields(line, AsciiSpaceByte, 0)
    ensures AreFields(line, AsciiSpaceByte, 0, spans)
  {
    spans := [];
    var inside, start := false, 0;
    for index := 0 to |line|
      invariant inside ==> start < index && Solid(line, AsciiSpaceByte, start, index)
      invariant Fields(line, AsciiSpaceByte, 0)
                == spans + Fields(line, AsciiSpaceByte, if inside then start else index)
    {
      if AsciiSpaceByte(line[index]) {
        if inside {
          FieldEnds(line, start, index);
          ghost var rest := Fields(line, AsciiSpaceByte, index);
          assert spans + ([(start, index)] + rest) == (spans + [(start, index)]) + rest;
          spans, inside := spans + [(start, index)], false;
        }
      } else if !inside {
        inside, start := true, index;
      }
    }
    if inside {
      FieldEnds(line, start, |line|);
      spans := spans + [(start, |line|)];
    }
    FieldsAreFields(line, AsciiSpaceByte, 0);
  }

  lemma FieldEnds(line: seq<Byte>, start: nat, end: nat)
    requires start < end <= |line| && Solid(line, AsciiSpaceByte, start, end)
    requires end == |line| || AsciiSpaceByte(line[end])
    ensures Fields(line, AsciiSpaceByte, start) == [(start, end)] + Fields(line, AsciiSpaceByte, end)
  {
    assert End(line, AsciiSpaceByte, start) == end;
  }

  // ---- Characters and their bytes ----

  predicate AsciiSpace(c: char) { c == '\t' || c == '\n' || c == '\U{0C}' || c == '\r' || c == ' ' }

  /** The Unicode property White_Space; unlike the ASCII set it includes the vertical tab. */
  predicate UnicodeSpace(c: char) {
    var n := c as int;
    9 <= n <= 13 || n in {0x20, 0x85, 0xA0, 0x1680, 0x2028, 0x2029, 0x202F, 0x205F, 0x3000} || 0x2000 <= n <= 0x200A
  }

  /** Whitespace characters are whitespace bytes, one each; other characters hold no whitespace byte. */
  predicate BlockOf(c: char, block: seq<Byte>) {
    && block != []
    && (if AsciiSpace(c) then |block| == 1 && AsciiSpaceByte(block[0])
        else forall j | 0 <= j < |block| :: !AsciiSpaceByte(block[j]))
  }

  /** UTF-8. */
  function Utf8(c: char): (bytes: seq<Byte>)
    ensures BlockOf(c, bytes)
  {
    var n := c as int;
    if n < 0x80 then [n]
    else if n < 0x800 then [0xC0 + n / 64, 0x80 + n % 64]
    else if n < 0x10000 then [0xE0 + n / 4096, 0x80 + n / 64 % 64, 0x80 + n % 64]
    else [0xF0 + n / 262144, 0x80 + n / 4096 % 64, 0x80 + n / 64 % 64, 0x80 + n % 64]
  }

  function Encode(s: string): seq<Byte> {
    if s == [] then [] else Encode(s[..|s| - 1]) + Utf8(s[|s| - 1])
  }

  /** The byte offset of character i. */
  function Offset(s: string, i: nat): nat requires i <= |s| { |Encode(s[..i])| }

  predicate BlockIn(all: seq<Byte>, at: nat, block: seq<Byte>) {
    at + |block| <= |all| && all[at..at + |block|] == block
  }

  /** Character i occupies the bytes of its own block. */
  lemma CharacterAt(s: string, i: nat) returns (block: seq<Byte>)
    requires i < |s|
    ensures Offset(s, i + 1) == Offset(s, i) + |block| && BlockIn(Encode(s), Offset(s, i), block)
    ensures BlockOf(s[i], block)
  {
    block := Utf8(s[i]);
    var upTo := s[..i + 1];
    assert upTo[..i] == s[..i];
    PrefixOfTheBytes(s, i + 1);
    assert Encode(s)[..|Encode(upTo)|][Offset(s, i)..] == block;
  }

  lemma {:induction false} PrefixOfTheBytes(s: string, i: nat)
    requires i <= |s|
    ensures Offset(s, i) <= |Encode(s)| && Encode(s)[..Offset(s, i)] == Encode(s[..i])
  {
    if i == |s| {
      assert s[..i] == s;
    } else {
      PrefixOfTheBytes(s[..|s| - 1], i);
      assert s[..|s| - 1][..i] == s[..i];
    }
  }

  lemma SpaceAt(s: string, i: nat)
    requires i < |s|
    ensures Offset(s, i) < Offset(s, i + 1) <= |Encode(s)|
    ensures AsciiSpace(s[i]) ==> Offset(s, i + 1) == Offset(s, i) + 1 && AsciiSpaceByte(Encode(s)[Offset(s, i)])
    ensures !AsciiSpace(s[i]) ==> Solid(Encode(s), AsciiSpaceByte, Offset(s, i), Offset(s, i + 1))
  {
    var block := CharacterAt(s, i);
    BlockAt(Encode(s), Offset(s, i), s[i], block);
  }

  lemma BlockAt(all: seq<Byte>, at: nat, c: char, block: seq<Byte>)
    requires BlockIn(all, at, block) && BlockOf(c, block)
    ensures AsciiSpace(c) ==> AsciiSpaceByte(all[at])
    ensures !AsciiSpace(c) ==> Solid(all, AsciiSpaceByte, at, at + |block|)
  {
    forall i | at <= i < at + |block| ensures all[i] == block[i - at] {
      assert all[at..at + |block|][i - at] == all[i];
    }
  }

  lemma {:induction false} SolidInBytes(s: string, lo: nat, hi: nat)
    requires lo <= hi <= |s| && Solid(s, AsciiSpace, lo, hi)
    ensures Offset(s, lo) + (hi - lo) <= Offset(s, hi) <= |Encode(s)|
    ensures Solid(Encode(s), AsciiSpaceByte, Offset(s, lo), Offset(s, hi))
    decreases hi
  {
    if lo == hi {
      PrefixOfTheBytes(s, lo);
    } else {
      SolidInBytes(s, lo, hi - 1);
      SpaceAt(s, hi - 1);
    }
  }

  function InBytes(s: string, f: seq<Span>): (r: seq<Span>)
    requires forall p | p in f :: p.0 <= |s| && p.1 <= |s|
    ensures |r| == |f|
  {
    if f == [] then [] else [(Offset(s, f[0].0), Offset(s, f[0].1))] + InBytes(s, f[1..])
  }

  lemma {:induction false} InBytesAt(s: string, f: seq<Span>, k: nat)
    requires k < |f| && forall p | p in f :: p.0 <= |s| && p.1 <= |s|
    ensures f[k] in f && InBytes(s, f)[k] == (Offset(s, f[k].0), Offset(s, f[k].1))
  {
    if k > 0 { InBytesAt(s, f[1..], k - 1); }
  }

  lemma {:induction false} SpansFrom(s: string, i: nat)
    requires i <= |s| && Offset(s, i) <= |Encode(s)|
    ensures Fields(Encode(s), AsciiSpaceByte, Offset(s, i)) == InBytes(s, Fields(s, AsciiSpace, i))
    decreases |s| - i
  {
    if i == |s| {
      assert s[..i] == s;
    } else {
      SpaceAt(s, i);
      if AsciiSpace(s[i]) {
        SpansFrom(s, i + 1);
      } else {
        var e := End(s, AsciiSpace, i);
        SolidInBytes(s, i, e);
        if e == |s| { assert s[..e] == s; } else { SpaceAt(s, e); }
        FieldEnds(Encode(s), Offset(s, i), Offset(s, e));
        SpansFrom(s, e);
        assert ([(i, e)] + Fields(s, AsciiSpace, e))[1..] == Fields(s, AsciiSpace, e);
      }
    }
  }

  /** The byte spans of a row are the byte offsets of its character fields, so every slice is a string. */
  lemma SpansLieOnCharacterBoundaries(s: string)
    ensures Fields(Encode(s), AsciiSpaceByte, 0) == InBytes(s, Fields(s, AsciiSpace, 0))
  {
    assert s[..0] == [];
    SpansFrom(s, 0);
  }

  /** Blanks count alike in bytes and characters, so a gap of one byte is a gap of one character. */
  lemma {:induction false} GapsCountAlike(s: string, lo: nat, hi: nat)
    requires lo <= hi <= |s| && Blank(s, AsciiSpace, lo, hi)
    ensures Offset(s, hi) == Offset(s, lo) + (hi - lo)
    decreases hi
  {
    if lo < hi {
      GapsCountAlike(s, lo, hi - 1);
      SpaceAt(s, hi - 1);
    }
  }
}

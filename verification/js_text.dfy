/** JavaScript strings as UTF-16 code units: their JSON quoting, its reading back, and their sort order. */
module JsText {
  import opened Common

  type Unit = u: int | 0 <= u < 0x10000
  type Text = seq<Unit>

  const QUOTE: Unit := 34
  const BACKSLASH: Unit := 92
  const LOWER_U: Unit := 117

  /** The code units of a plain string; a character outside ASCII would become a question mark. */
  function Ascii(s: string): Text {
    seq(|s|, i requires 0 <= i < |s| => if s[i] as int < 128 then s[i] as int else 63)
  }

  // ------------------------------------------------------------------
  // JSON.stringify on a string, and reading it back
  // ------------------------------------------------------------------

  predicate Lead(u: Unit) { 0xD800 <= u < 0xDC00 }
  predicate Trail(u: Unit) { 0xDC00 <= u < 0xE000 }

  function HexDigit(d: int): Unit
    requires 0 <= d < 16
  {
    if d < 10 then 48 + d else 87 + d
  }

  function UnHexDigit(u: Unit): Option<int> {
    if 48 <= u < 58 then Some(u - 48) else if 97 <= u < 103 then Some(u - 87) else None
  }

  function UnicodeEscape(u: Unit): Text {
    [BACKSLASH, LOWER_U, HexDigit(u / 4096), HexDigit(u / 256 % 16), HexDigit(u / 16 % 16), HexDigit(u % 16)]
  }

  function ShortEscape(u: Unit): Option<Unit> {
    if u == 8 then Some(98) else if u == 9 then Some(116) else if u == 10 then Some(110)
    else if u == 12 then Some(102) else if u == 13 then Some(114)
    else if u == QUOTE || u == BACKSLASH then Some(u) else None
  }

  function UnShort(u: Unit): Option<Unit> {
    if u == 98 then Some(8) else if u == 116 then Some(9) else if u == 110 then Some(10)
    else if u == 102 then Some(12) else if u == 114 then Some(13)
    else if u == QUOTE || u == BACKSLASH then Some(u) else None
  }

  /** One code unit outside a surrogate pair; a lone surrogate is escaped. */
  function EscapeUnit(u: Unit): Text {
    if ShortEscape(u).Some? then [BACKSLASH, ShortEscape(u).value]
    else if u < 32 || Lead(u) || Trail(u) then UnicodeEscape(u)
    else [u]
  }

  predicate PairFirst(s: Text) { |s| > 1 && Lead(s[0]) && Trail(s[1]) }

  function Chars(s: Text): Text {
    if s == [] then []
    else if PairFirst(s) then [s[0], s[1]] + Chars(s[2..])
    else EscapeUnit(s[0]) + Chars(s[1..])
  }

  function Quoted(s: Text): Text { [QUOTE] + Chars(s) + [QUOTE] }

  datatype Read<+T> = Read(value: T, rest: Text)

  function Before(u: Unit, r: Option<Read<Text>>): Option<Read<Text>> {
    if r.None? then None else Some(Read([u] + r.value.value, r.value.rest))
  }

  function UnHex(t: Text): Option<Unit>
    requires |t| >= 4
  {
    var a, b, c, d := UnHexDigit(t[0]), UnHexDigit(t[1]), UnHexDigit(t[2]), UnHexDigit(t[3]);
    if a.None? || b.None? || c.None? || d.None? then None
    else Some(a.value * 4096 + b.value * 256 + c.value * 16 + d.value)
  }

  /** Everything up to and including the closing quote. */
  function ReadChars(t: Text): (r: Option<Read<Text>>)
    ensures r.Some? ==> |r.value.rest| < |t|
    decreases |t|
  {
    if t == [] then None
    else if t[0] == QUOTE then Some(Read([], t[1..]))
    else if t[0] != BACKSLASH then (if t[0] < 32 then None else Before(t[0], ReadChars(t[1..])))
    else if |t| < 2 then None
    else if t[1] == LOWER_U then
      (if |t| < 6 || UnHex(t[2..]).None? then None else Before(UnHex(t[2..]).value, ReadChars(t[6..])))
    else if UnShort(t[1]).None? then None
    else Before(UnShort(t[1]).value, ReadChars(t[2..]))
  }

  function ReadString(t: Text): (r: Option<Read<Text>>)
    ensures r.Some? ==> |r.value.rest| < |t|
  {
    if t == [] || t[0] != QUOTE then None else ReadChars(t[1..])
  }

  lemma HexDigitReads(d: int)
    requires 0 <= d < 16
    ensures UnHexDigit(HexDigit(d)) == Some(d)
  { }

  lemma OnlyHexDigitsRead(u: Unit)
    ensures UnHexDigit(u).Some? ==> 0 <= UnHexDigit(u).value < 16 && HexDigit(UnHexDigit(u).value) == u
  { }

  lemma HexDigitsAddUp(u: Unit)
    ensures u / 4096 * 4096 + u / 256 % 16 * 256 + u / 16 % 16 * 16 + u % 16 == u
    ensures u / 4096 < 16
  {
    assert u / 256 == u / 4096 * 16 + u / 256 % 16;
    assert u / 16 == u / 256 * 16 + u / 16 % 16;
  }

  lemma HexReads(u: Unit, t: Text)
    ensures var x := UnicodeEscape(u) + t;
        |x| >= 6 && x[0] == BACKSLASH && x[1] == LOWER_U && x[6..] == t && UnHex(x[2..]) == Some(u)
  {
    var a, b, c, d := u / 4096, u / 256 % 16, u / 16 % 16, u % 16;
    HexDigitsAddUp(u);
    HexDigitReads(a);
    HexDigitReads(b);
    HexDigitReads(c);
    HexDigitReads(d);
    var x := UnicodeEscape(u) + t;
    assert x[2..] == [HexDigit(a), HexDigit(b), HexDigit(c), HexDigit(d)] + t;
    assert x[6..] == t;
  }

  lemma ShortReads(u: Unit, t: Text)
    requires ShortEscape(u).Some?
    ensures ReadChars([BACKSLASH, ShortEscape(u).value] + t) == Before(u, ReadChars(t))
  {
    var x := [BACKSLASH, ShortEscape(u).value] + t;
    assert x[2..] == t && UnShort(x[1]) == Some(u);
  }

  lemma UnicodeReads(u: Unit, t: Text)
    ensures ReadChars(UnicodeEscape(u) + t) == Before(u, ReadChars(t))
  {
    HexReads(u, t);
  }

  /** Whatever is read after one escaped code unit, that code unit is read first. */
  lemma UnitReads(u: Unit, t: Text)
    ensures ReadChars(EscapeUnit(u) + t) == Before(u, ReadChars(t))
  {
    if ShortEscape(u).Some? {
      ShortReads(u, t);
    } else if u < 32 || Lead(u) || Trail(u) {
      UnicodeReads(u, t);
    } else {
      assert ([u] + t)[1..] == t;
    }
  }

  lemma PairReads(a: Unit, b: Unit, t: Text)
    requires Lead(a) && Trail(b)
    ensures ReadChars([a] + ([b] + t)) == Before(a, Before(b, ReadChars(t)))
  {
    assert ([a] + ([b] + t))[1..] == [b] + t && ([b] + t)[1..] == t;
  }

  lemma CharsOfPair(s: Text, t: Text)
    requires PairFirst(s)
    ensures Chars(s) + t == [s[0]] + ([s[1]] + (Chars(s[2..]) + t)) && s == [s[0]] + ([s[1]] + s[2..])
  { }

  lemma Assoc(a: Text, b: Text, c: Text)
    ensures (a + b) + c == a + (b + c)
  { }

  lemma CharsOfUnit(s: Text, t: Text)
    requires s != [] && !PairFirst(s)
    ensures Chars(s) + t == EscapeUnit(s[0]) + (Chars(s[1..]) + t) && s == [s[0]] + s[1..]
  {
    Assoc(EscapeUnit(s[0]), Chars(s[1..]), t);
  }

  lemma {:induction false} CharsRead(s: Text, t: Text)
    ensures ReadChars(Chars(s) + ([QUOTE] + t)) == Some(Read(s, t))
    decreases |s|
  {
    if s == [] {
      assert ([QUOTE] + t)[1..] == t && Chars(s) + ([QUOTE] + t) == [QUOTE] + t;
    } else if PairFirst(s) {
      CharsRead(s[2..], t);
      CharsOfPair(s, [QUOTE] + t);
      PairReads(s[0], s[1], Chars(s[2..]) + ([QUOTE] + t));
    } else {
      CharsRead(s[1..], t);
      CharsOfUnit(s, [QUOTE] + t);
      UnitReads(s[0], Chars(s[1..]) + ([QUOTE] + t));
    }
  }

  /** A quoted string followed by anything reads back exactly. */
  lemma QuotedReads(s: Text, t: Text)
    ensures ReadString(Quoted(s) + t) == Some(Read(s, t))
  {
    hide ReadChars, Chars;
    CharsRead(s, t);
    assert (Quoted(s) + t)[1..] == Chars(s) + ([QUOTE] + t);
  }

  // ------------------------------------------------------------------
  // Which text exactly: QuoteJSONString, section 25.5.2 of ECMA-262
  // ------------------------------------------------------------------

  /** A surrogate with its other half beside it. */
  predicate Paired(s: Text, i: nat)
    requires i < |s|
  {
    || (0xD800 <= s[i] <= 0xDBFF && i + 1 < |s| && 0xDC00 <= s[i + 1] <= 0xDFFF)
    || (0xDC00 <= s[i] <= 0xDFFF && i > 0 && 0xD800 <= s[i - 1] <= 0xDBFF)
  }

  /** What is written for the unit at i. */
  function Piece(s: Text, i: nat): Text
    requires i < |s|
  {
    match s[i]
    case 8 => Ascii("\\b")
    case 9 => Ascii("\\t")
    case 10 => Ascii("\\n")
    case 12 => Ascii("\\f")
    case 13 => Ascii("\\r")
    case 34 => Ascii("\\\"")
    case 92 => Ascii("\\\\")
    case u =>
      if u >= 32 && (Paired(s, i) || u < 0xD800 || u > 0xDFFF) then [u] else Ascii("\\u") + Hex4(u)
  }

  const HEX_DIGITS: string := "0123456789abcdef"

  function Hex4(u: Unit): Text {
    var d := Ascii(HEX_DIGITS);
    [d[u / 4096], d[u / 256 % 16], d[u / 16 % 16], d[u % 16]]
  }

  function Spell(s: Text, i: nat): Text
    requires i <= |s|
    decreases |s| - i
  {
    if i == |s| then [] else Piece(s, i) + Spell(s, i + 1)
  }

  lemma HexSpells(u: Unit)
    ensures UnicodeEscape(u) == Ascii("\\u") + Hex4(u)
  {
    HexDigitSpells(u / 4096);
    HexDigitSpells(u / 256 % 16);
    HexDigitSpells(u / 16 % 16);
    HexDigitSpells(u % 16);
  }

  lemma HexDigitSpells(d: int)
    requires 0 <= d < 16
    ensures HexDigit(d) == Ascii(HEX_DIGITS)[d]
  { }

  lemma UnitSpells(s: Text, i: nat)
    requires i < |s|
    ensures Piece(s, i) == if Paired(s, i) then [s[i]] else EscapeUnit(s[i])
  {
    hide UnicodeEscape, Hex4;
    HexSpells(s[i]);
  }

  lemma PairSpells(s: Text, i: nat)
    requires i < |s| && PairFirst(s[i..])
    ensures Spell(s, i) == [s[i], s[i + 1]] + Spell(s, i + 2)
  {
    hide Piece, EscapeUnit;
    UnitSpells(s, i);
    UnitSpells(s, i + 1);
    assert Spell(s, i) == [s[i]] + ([s[i + 1]] + Spell(s, i + 2));
  }

  lemma LoneSpells(s: Text, i: nat)
    requires i < |s| && !PairFirst(s[i..]) && (i > 0 && Trail(s[i]) ==> !Lead(s[i - 1]))
    ensures Spell(s, i) == EscapeUnit(s[i]) + Spell(s, i + 1)
  {
    hide Piece, EscapeUnit;
    UnitSpells(s, i);
  }

  lemma {:induction false} CharsSpell(s: Text, i: nat)
    requires i <= |s| && (0 < i < |s| && Trail(s[i]) ==> !Lead(s[i - 1]))
    ensures Chars(s[i..]) == Spell(s, i)
    decreases |s| - i
  {
    hide Spell, EscapeUnit;
    if i == |s| {
      NothingSpelt(s);
    } else if PairFirst(s[i..]) {
      PairSpells(s, i);
      assert s[i..][2..] == s[i + 2..];
      CharsSpell(s, i + 2);
    } else {
      LoneSpells(s, i);
      assert s[i..][1..] == s[i + 1..];
      CharsSpell(s, i + 1);
    }
  }

  lemma NothingSpelt(s: Text)
    ensures Spell(s, |s|) == []
  { }

  /** The quoted text, unit by unit. */
  lemma QuotedSpells(s: Text)
    ensures Quoted(s) == Ascii("\"") + Spell(s, 0) + Ascii("\"")
  {
    CharsSpell(s, 0);
    assert s[0..] == s;
  }

  // ------------------------------------------------------------------
  // The default sort order of strings: by code unit
  // ------------------------------------------------------------------

  predicate TextLeq(a: Text, b: Text) {
    a == [] || (b != [] && (a[0] < b[0] || (a[0] == b[0] && TextLeq(a[1..], b[1..]))))
  }

  lemma {:induction false} TextLeqTotal(a: Text, b: Text)
    ensures TextLeq(a, b) || TextLeq(b, a)
    ensures TextLeq(a, b) && TextLeq(b, a) ==> a == b
  {
    if a != [] && b != [] && a[0] == b[0] {
      TextLeqTotal(a[1..], b[1..]);
      assert a == [a[0]] + a[1..] && b == [b[0]] + b[1..];
    }
  }

  lemma {:induction false} TextLeqTransitive(a: Text, b: Text, c: Text)
    requires TextLeq(a, b) && TextLeq(b, c)
    ensures TextLeq(a, c)
  {
    if a != [] && a[0] == b[0] == c[0] { TextLeqTransitive(a[1..], b[1..], c[1..]); }
  }

  /** The first difference at k: a ends there, or has the smaller unit. */
  predicate BeforeAt(a: Text, b: Text, k: nat) {
    && k <= |a| && k < |b| && (forall i :: 0 <= i < k ==> a[i] == b[i])
    && (k == |a| || a[k] < b[k])
  }

  ghost predicate UnitsBefore(a: Text, b: Text) { exists k: nat :: BeforeAt(a, b, k) }

  /** The sort order is that of the first difference. */
  lemma {:induction false} TextLeqIsBefore(a: Text, b: Text)
    ensures TextLeq(a, b) <==> a == b || UnitsBefore(a, b)
    decreases |a|
  {
    if a == [] {
      if b != [] { assert BeforeAt(a, b, 0); }
    } else if b != [] && a[0] == b[0] {
      TextLeqIsBefore(a[1..], b[1..]);
      assert a == [a[0]] + a[1..] && b == [b[0]] + b[1..];
      if UnitsBefore(a[1..], b[1..]) {
        var k: nat :| BeforeAt(a[1..], b[1..], k);
        forall i | 0 <= i < k + 1 ensures a[i] == b[i] { if i > 0 { assert a[1..][i - 1] == b[1..][i - 1]; } }
        assert BeforeAt(a, b, k + 1);
      }
      if UnitsBefore(a, b) {
        var k: nat :| BeforeAt(a, b, k);
        assert BeforeAt(a[1..], b[1..], k - 1);
      }
    } else if b != [] {
      if a[0] < b[0] { assert BeforeAt(a, b, 0); }
      if UnitsBefore(a, b) {
        var k: nat :| BeforeAt(a, b, k);
        assert k == 0;
      }
    }
  }
}

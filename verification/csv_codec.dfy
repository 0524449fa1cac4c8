/** The export's CSV printer and the smoke test's hand-written splitter. */
module CsvCodec {
  import opened Common
  import opened JsText

  const COMMA: Unit := 44
  const LF: Unit := 10
  const CR: Unit := 13

  /** A database value: missing, a Date (printed by toISOString), or anything else by String(v). */
  datatype Value = Absent | Stamp(iso: Text) | Plain(s: Text)

  predicate Special(u: Unit) { u == QUOTE || u == COMMA || u == LF || u == CR }

  /** What String.prototype.trim removes. */
  predicate Blank(u: Unit) {
    9 <= u <= 13 || u == 32 || u == 160 || u == 0x1680 || 0x2000 <= u <= 0x200A || u == 0x2028 || u == 0x2029 ||
    u == 0x202F || u == 0x205F || u == 0x3000 || u == 0xFEFF
  }

  predicate NoneSpecial(s: Text) { forall i :: 0 <= i < |s| ==> !Special(s[i]) }

  predicate ValueOk(v: Value) { v.Stamp? ==> NoneSpecial(v.iso) }

  function Content(v: Value): Text {
    match v case Absent => [] case Stamp(iso) => iso case Plain(s) => s
  }

  function Doubled(s: Text): Text {
    if s == [] then [] else (if s[0] == QUOTE then [QUOTE, QUOTE] else [s[0]]) + Doubled(s[1..])
  }

  function CsvCell(v: Value): Text {
    match v
    case Absent => []
    case Stamp(iso) => iso
    case Plain(s) => if NoneSpecial(s) then s else [QUOTE] + Doubled(s) + [QUOTE]
  }

  function CsvLine(row: seq<Value>): Text {
    if row == [] then [] else if |row| == 1 then CsvCell(row[0]) else CsvCell(row[0]) + [COMMA] + CsvLine(row[1..])
  }

  // ------------------------------------------------------------------
  // The splitter
  // ------------------------------------------------------------------

  /** inQ after this character. */
  predicate Unquoted(q: bool, u: Unit) { if u == QUOTE then !q else q }

  /** The cells of the rest of a line, given the cell begun and whether we are inside quotes. */
  function SplitFrom(s: Text, cur: Text, quoted: bool): (cells: seq<Text>)
    ensures |cells| > 0
    decreases |s|
  {
    if s == [] then [cur]
    else
      var q := Unquoted(quoted, s[0]);
      if s[0] == COMMA && !q then [cur] + SplitFrom(s[1..], [], q) else SplitFrom(s[1..], cur + [s[0]], q)
  }

  method SplitLine(line: Text) returns (cells: seq<Text>)
    ensures cells == SplitFrom(line, [], false)
  {
    cells := [];
    var cur: Text := [];
    var inQ := false;
    for i := 0 to |line|
      invariant cells + SplitFrom(line[i..], cur, inQ) == SplitFrom(line, [], false)
    {
      var ch := line[i];
      assert line[i..][0] == ch && line[i..][1..] == line[i + 1..];
      if ch == QUOTE { inQ := !inQ; }
      if ch == COMMA && !inQ {
        cells := cells + [cur];
        cur := [];
      } else {
        cur := cur + [ch];
      }
    }
    cells := cells + [cur];
  }

  function StripQuotes(c: Text): Text {
    var a := if c != [] && c[0] == QUOTE then c[1..] else c;
    if a != [] && a[|a| - 1] == QUOTE then a[..|a| - 1] else a
  }

  /** replace(/""/g, '"') */
  function Undoubled(s: Text): Text
    decreases |s|
  {
    if s == [] then []
    else if s[0] == QUOTE && |s| > 1 && s[1] == QUOTE then [QUOTE] + Undoubled(s[2..])
    else [s[0]] + Undoubled(s[1..])
  }

  function TrimLeft(s: Text): Text { if s != [] && Blank(s[0]) then TrimLeft(s[1..]) else s }
  function TrimRight(s: Text): Text { if s != [] && Blank(s[|s| - 1]) then TrimRight(s[..|s| - 1]) else s }
  function Trim(s: Text): Text { TrimRight(TrimLeft(s)) }

  function ParseCell(c: Text): Text { Trim(Undoubled(StripQuotes(c))) }

  // ------------------------------------------------------------------
  // One line
  // ------------------------------------------------------------------

  lemma {:induction false} PlainPasses(s: Text, rest: Text, cur: Text)
    requires NoneSpecial(s)
    ensures SplitFrom(s + rest, cur, false) == SplitFrom(rest, cur + s, false)
    decreases |s|
  {
    if s == [] {
      assert s + rest == rest && cur + s == cur;
    } else {
      assert (s + rest)[1..] == s[1..] + rest && cur + [s[0]] + s[1..] == cur + s;
      PlainPasses(s[1..], rest, cur + [s[0]]);
    }
  }

  lemma QuotesPass(rest: Text, cur: Text)
    ensures SplitFrom([QUOTE, QUOTE] + rest, cur, true) == SplitFrom(rest, cur + [QUOTE, QUOTE], true)
  {
    var t := [QUOTE, QUOTE] + rest;
    assert t[1..] == [QUOTE] + rest && t[1..][1..] == rest;
    assert cur + [QUOTE] + [QUOTE] == cur + [QUOTE, QUOTE];
  }

  lemma {:induction false} DoubledPasses(s: Text, rest: Text, cur: Text)
    ensures SplitFrom(Doubled(s) + rest, cur, true) == SplitFrom(rest, cur + Doubled(s), true)
    decreases |s|
  {
    if s == [] {
      assert Doubled(s) + rest == rest && cur + Doubled(s) == cur;
    } else {
      var head := if s[0] == QUOTE then [QUOTE, QUOTE] else [s[0]];
      var more := Doubled(s[1..]) + rest;
      Assoc(head, Doubled(s[1..]), rest);
      Assoc(cur, head, Doubled(s[1..]));
      if s[0] == QUOTE { QuotesPass(more, cur); } else { assert ([s[0]] + more)[1..] == more; }
      DoubledPasses(s[1..], rest, cur + head);
    }
  }

  lemma QuotedPasses(s: Text, rest: Text)
    ensures SplitFrom(([QUOTE] + Doubled(s) + [QUOTE]) + rest, [], false) ==
        SplitFrom(rest, [QUOTE] + Doubled(s) + [QUOTE], false)
  {
    var t := ([QUOTE] + Doubled(s) + [QUOTE]) + rest;
    assert t == [QUOTE] + (Doubled(s) + ([QUOTE] + rest));
    assert t[1..] == Doubled(s) + ([QUOTE] + rest) && [] + [QUOTE] == [QUOTE];
    DoubledPasses(s, [QUOTE] + rest, [QUOTE]);
    assert ([QUOTE] + rest)[1..] == rest;
  }

  /** Whatever follows a printed cell, the splitter passes over the cell as one piece. */
  lemma CellPasses(v: Value, rest: Text)
    requires ValueOk(v)
    ensures SplitFrom(CsvCell(v) + rest, [], false) == SplitFrom(rest, CsvCell(v), false)
  {
    assert [] + CsvCell(v) == CsvCell(v);
    if v.Plain? && !NoneSpecial(v.s) { QuotedPasses(v.s, rest); } else { PlainPasses(CsvCell(v), rest, []); }
  }

  function CsvCells(row: seq<Value>): (cells: seq<Text>)
    ensures |cells| == |row| && forall i :: 0 <= i < |row| ==> cells[i] == CsvCell(row[i])
  {
    if row == [] then [] else [CsvCell(row[0])] + CsvCells(row[1..])
  }

  lemma {:induction false} LineSplits(row: seq<Value>)
    requires row != [] && forall i :: 0 <= i < |row| ==> ValueOk(row[i])
    ensures SplitFrom(CsvLine(row), [], false) == CsvCells(row)
    decreases |row|
  {
    if |row| == 1 {
      CellPasses(row[0], []);
      assert CsvCell(row[0]) + [] == CsvLine(row);
    } else {
      var rest := [COMMA] + CsvLine(row[1..]);
      Assoc(CsvCell(row[0]), [COMMA], CsvLine(row[1..]));
      CellPasses(row[0], rest);
      assert rest[1..] == CsvLine(row[1..]);
      LineSplits(row[1..]);
    }
  }

  lemma {:induction false} UndoubledDoubled(s: Text)
    ensures Undoubled(Doubled(s)) == s
    decreases |s|
  {
    if s != [] {
      UndoubledDoubled(s[1..]);
      var t := Doubled(s);
      if s[0] == QUOTE {
        assert t[2..] == Doubled(s[1..]);
      } else {
        assert t[1..] == Doubled(s[1..]);
      }
      assert s == [s[0]] + s[1..];
    }
  }

  lemma {:induction false} UndoubledPlain(s: Text)
    requires NoneSpecial(s)
    ensures Undoubled(s) == s
    decreases |s|
  {
    if s != [] {
      UndoubledPlain(s[1..]);
      assert s == [s[0]] + s[1..];
    }
  }

  /** A printed cell parses back to its trimmed content. */
  lemma CellParses(v: Value)
    requires ValueOk(v)
    ensures ParseCell(CsvCell(v)) == Trim(Content(v))
  {
    var c := CsvCell(v);
    if v.Plain? && !NoneSpecial(v.s) {
      assert c[1..] == Doubled(v.s) + [QUOTE] && StripQuotes(c) == Doubled(v.s);
      UndoubledDoubled(v.s);
    } else {
      assert StripQuotes(c) == c;
      UndoubledPlain(c);
    }
  }

  function ParseCells(cells: seq<Text>): (r: seq<Text>)
    ensures |r| == |cells| && forall i :: 0 <= i < |r| ==> r[i] == ParseCell(cells[i])
  {
    if cells == [] then [] else [ParseCell(cells[0])] + ParseCells(cells[1..])
  }

  function ReadLine(line: Text): seq<Text> { ParseCells(SplitFrom(line, [], false)) }

  predicate RowOk(row: seq<Value>) { row != [] && forall i :: 0 <= i < |row| ==> ValueOk(row[i]) }

  function Trimmed(row: seq<Value>): (r: seq<Text>)
    ensures |r| == |row| && forall i :: 0 <= i < |r| ==> r[i] == Trim(Content(row[i]))
  {
    if row == [] then [] else [Trim(Content(row[0]))] + Trimmed(row[1..])
  }

  /** A printed line reads back as its trimmed fields, newlines, commas and quotes included. */
  lemma LineReads(row: seq<Value>)
    requires RowOk(row)
    ensures ReadLine(CsvLine(row)) == Trimmed(row)
  {
    LineSplits(row);
    forall i | 0 <= i < |row| ensures ReadLine(CsvLine(row))[i] == Trimmed(row)[i] { CellParses(row[i]); }
  }

  // ------------------------------------------------------------------
  // The file
  // ------------------------------------------------------------------

  function LinesText(rows: seq<seq<Value>>): Text {
    if rows == [] then [] else CsvLine(rows[0]) + ([LF] + LinesText(rows[1..]))
  }

  /** lines.join("\n") + "\n" with the header first. */
  function FileText(header: seq<Value>, rows: seq<seq<Value>>): Text { LinesText([header] + rows) }

  function WithoutCr(line: Text): Text {
    if line != [] && line[|line| - 1] == CR then line[..|line| - 1] else line
  }

  /** split(/\r?\n/): `cur` is the line begun. */
  function Lines(t: Text, cur: Text): seq<Text>
    decreases |t|
  {
    if t == [] then [cur]
    else if t[0] == LF then [WithoutCr(cur)] + Lines(t[1..], [])
    else Lines(t[1..], cur + [t[0]])
  }

  predicate AllBlank(s: Text) { forall i :: 0 <= i < |s| ==> Blank(s[i]) }

  function NonBlank(ls: seq<Text>): seq<Text> {
    if ls == [] then [] else (if AllBlank(ls[0]) then [] else [ls[0]]) + NonBlank(ls[1..])
  }

  function ReadLines(ls: seq<Text>): (r: seq<seq<Text>>)
    ensures |r| == |ls| && forall i :: 0 <= i < |r| ==> r[i] == ReadLine(ls[i])
  {
    if ls == [] then [] else [ReadLine(ls[0])] + ReadLines(ls[1..])
  }

  /** All cells of loadRows: the header line is skipped; a text without any line raises. */
  function ReadFile(t: Text): Option<seq<seq<Text>>> {
    var ls := NonBlank(Lines(t, []));
    if ls == [] then None else Some(ReadLines(ls[1..]))
  }

  // ------------------------------------------------------------------
  // When the file reads back
  // ------------------------------------------------------------------

  predicate NoLf(s: Text) { forall i :: 0 <= i < |s| ==> s[i] != LF }

  lemma {:induction false} LineWithoutLf(a: Text, b: Text, cur: Text)
    requires NoLf(a)
    ensures Lines(a + ([LF] + b), cur) == [WithoutCr(cur + a)] + Lines(b, [])
    decreases |a|
  {
    if a == [] {
      assert a + ([LF] + b) == [LF] + b && ([LF] + b)[1..] == b && cur + a == cur;
    } else {
      assert (a + ([LF] + b))[1..] == a[1..] + ([LF] + b) && cur + [a[0]] + a[1..] == cur + a;
      LineWithoutLf(a[1..], b, cur + [a[0]]);
    }
  }

  /** A text that begins with `a` and a newline has at least as many non-blank lines after as the rest alone. */
  lemma {:induction false} LinesAdd(a: Text, b: Text, cur: Text)
    ensures |NonBlank(Lines(a + ([LF] + b), cur))| >= |NonBlank(Lines(b, []))| + (if AllBlank(cur + a) then 0 else 1)
    decreases |a|
  {
    var t := a + ([LF] + b);
    if a == [] {
      assert t == [LF] + b && t[1..] == b && cur + a == cur;
      BlankWithoutCr(cur);
    } else {
      assert t[1..] == a[1..] + ([LF] + b);
      if a[0] == LF {
        LinesAdd(a[1..], b, []);
        BlankWithoutCr(cur);
        assert [] + a[1..] == a[1..];
        assert cur + a == cur + [LF] + a[1..];
        if AllBlank(cur) && AllBlank(a[1..]) { assert AllBlank(cur + a); }
      } else {
        LinesAdd(a[1..], b, cur + [a[0]]);
        assert cur + [a[0]] + a[1..] == cur + a;
      }
    }
  }

  lemma BlankWithoutCr(line: Text)
    ensures AllBlank(WithoutCr(line)) <==> AllBlank(line)
  {
    if line != [] && line[|line| - 1] == CR {
      assert line == line[..|line| - 1] + [CR];
    }
  }

  /** Quotes on both sides of a newline: two non-blank lines at least. */
  lemma LinesAddTwo(p: Text, q: Text, b: Text)
    requires NoLf(p) && !AllBlank(p) && !AllBlank(q)
    ensures |NonBlank(Lines((p + ([LF] + q)) + ([LF] + b), []))| >= |NonBlank(Lines(b, []))| + 2
  {
    Assoc(p, [LF] + q, [LF] + b);
    Assoc([LF], q, [LF] + b);
    LineWithoutLf(p, q + ([LF] + b), []);
    assert [] + p == p && [] + q == q;
    BlankWithoutCr(p);
    LinesAdd(q, b, []);
  }

  lemma {:induction false} DoubledNoLf(s: Text)
    ensures NoLf(Doubled(s)) <==> NoLf(s)
    decreases |s|
  {
    if s != [] {
      DoubledNoLf(s[1..]);
      assert s == [s[0]] + s[1..];
      var head := if s[0] == QUOTE then [QUOTE, QUOTE] else [s[0]];
      assert Doubled(s) == head + Doubled(s[1..]);
      NoLfConcat(head, Doubled(s[1..]));
      NoLfConcat([s[0]], s[1..]);
    }
  }

  lemma NoLfConcat(a: Text, b: Text)
    ensures NoLf(a + b) <==> NoLf(a) && NoLf(b)
  {
    if NoLf(a + b) {
      forall i | 0 <= i < |a| ensures a[i] != LF { assert (a + b)[i] == a[i]; }
      forall i | 0 <= i < |b| ensures b[i] != LF { assert (a + b)[|a| + i] == b[i]; }
    }
  }

  predicate RowNoLf(row: seq<Value>) { forall i :: 0 <= i < |row| ==> NoLf(Content(row[i])) }

  lemma CellNoLf(v: Value)
    requires ValueOk(v)
    ensures NoLf(CsvCell(v)) <==> NoLf(Content(v))
  {
    if v.Plain? && !NoneSpecial(v.s) {
      DoubledNoLf(v.s);
      NoLfConcat([QUOTE], Doubled(v.s));
      NoLfConcat([QUOTE] + Doubled(v.s), [QUOTE]);
    }
  }

  lemma {:induction false} GoodLine(row: seq<Value>)
    requires RowOk(row) && RowNoLf(row)
    ensures NoLf(CsvLine(row)) && WithoutCr(CsvLine(row)) == CsvLine(row)
    decreases |row|
  {
    CellNoLf(row[0]);
    if |row| > 1 {
      GoodLine(row[1..]);
      NoLfConcat(CsvCell(row[0]), [COMMA]);
      NoLfConcat(CsvCell(row[0]) + [COMMA], CsvLine(row[1..]));
    }
  }

  lemma LineNotBlank(row: seq<Value>)
    requires |row| > 1
    ensures !AllBlank(CsvLine(row))
  {
    assert CsvLine(row)[|CsvCell(row[0])|] == COMMA;
  }

  /** p and q lie around the first newline, each with a quote in it. */
  predicate BrokenAt(line: Text, i: nat) {
    i < |line| && line[i] == LF && NoLf(line[..i]) && QUOTE in line[..i] && QUOTE in line[i + 1..]
  }

  lemma {:induction false} FirstLf(s: Text) returns (i: nat)
    requires !NoLf(s)
    ensures i < |s| && s[i] == LF && NoLf(s[..i])
  {
    if s[0] == LF {
      i := 0;
    } else {
      i := FirstLf(s[1..]);
      assert s[..i + 1] == [s[0]] + s[1..][..i];
      i := i + 1;
    }
  }

  lemma CellBreaks(v: Value) returns (i: nat)
    requires ValueOk(v) && !NoLf(Content(v))
    ensures BrokenAt(CsvCell(v), i)
  {
    CellNoLf(v);
    var c := CsvCell(v);
    i := FirstLf(c);
    assert c[0] == QUOTE && c[|c| - 1] == QUOTE;
    assert c[..i][0] == QUOTE && c[i + 1..][|c| - i - 2] == QUOTE;
  }

  lemma LineOfMore(row: seq<Value>)
    requires |row| > 1
    ensures CsvLine(row) == CsvCell(row[0]) + ([COMMA] + CsvLine(row[1..]))
  {
    Assoc(CsvCell(row[0]), [COMMA], CsvLine(row[1..]));
  }

  lemma RowNoLfTail(row: seq<Value>)
    requires row != [] && NoLf(Content(row[0])) && RowNoLf(row[1..])
    ensures RowNoLf(row)
  {
    forall i | 0 <= i < |row| ensures NoLf(Content(row[i])) { if i > 0 { assert row[i] == row[1..][i - 1]; } }
  }

  /** The first newline of a printed row lies between two quotes. */
  lemma {:induction false} LineBreaks(row: seq<Value>) returns (i: nat)
    requires RowOk(row) && !RowNoLf(row)
    ensures BrokenAt(CsvLine(row), i)
    decreases |row|
  {
    var c := CsvCell(row[0]);
    if |row| == 1 {
      i := CellBreaks(row[0]);
    } else {
      LineOfMore(row);
      if NoLf(Content(row[0])) {
        if RowNoLf(row[1..]) { RowNoLfTail(row); }
        i := LineBreaks(row[1..]);
        i := SkipCell(row[0], CsvLine(row[1..]), i);
      } else {
        i := CellBreaks(row[0]);
        BrokenBefore(c, [COMMA] + CsvLine(row[1..]), i);
      }
    }
  }

  lemma SkipCell(v: Value, rest: Text, i: nat) returns (k: nat)
    requires ValueOk(v) && NoLf(Content(v)) && BrokenAt(rest, i)
    ensures BrokenAt(CsvCell(v) + ([COMMA] + rest), k)
  {
    hide BrokenAt, CsvCell, Content;
    CellNoLf(v);
    k := |CsvCell(v)| + (1 + i);
    BrokenAfter([COMMA], rest, i);
    BrokenAfter(CsvCell(v), [COMMA] + rest, 1 + i);
  }

  lemma BrokenBefore(a: Text, b: Text, i: nat)
    requires BrokenAt(a, i)
    ensures BrokenAt(a + b, i)
  {
    assert (a + b)[..i] == a[..i] && (a + b)[i + 1..] == a[i + 1..] + b;
  }

  lemma BrokenAfter(a: Text, b: Text, i: nat)
    requires NoLf(a) && BrokenAt(b, i)
    ensures BrokenAt(a + b, |a| + i)
  {
    assert (a + b)[..|a| + i] == a + b[..i] && (a + b)[|a| + i + 1..] == b[i + 1..];
    NoLfConcat(a, b[..i]);
  }

  lemma BrokenCounts(line: Text, rest: Text, i: nat)
    requires BrokenAt(line, i)
    ensures |NonBlank(Lines(line + ([LF] + rest), []))| >= |NonBlank(Lines(rest, []))| + 2
  {
    var p, q := line[..i], line[i + 1..];
    assert line == p + ([LF] + q);
    var k :| 0 <= k < |p| && p[k] == QUOTE;
    var m :| 0 <= m < |q| && q[m] == QUOTE;
    assert !Blank(p[k]) && !Blank(q[m]);
    LinesAddTwo(p, q, rest);
  }

  /** Lines may end in CR LF as well as in LF. */
  lemma CrLfEndsLine(a: Text, b: Text)
    requires NoLf(a)
    ensures Lines(a + ([CR, LF] + b), []) == [a] + Lines(b, [])
  {
    assert a + ([CR, LF] + b) == (a + [CR]) + ([LF] + b) && [] + (a + [CR]) == a + [CR];
    LineWithoutLf(a + [CR], b, []);
  }

  /** A cell is put in quotes exactly when it holds a quote, a comma, a line feed or a carriage return. */
  lemma CellText(s: Text)
    ensures CsvCell(Plain(s)) == s <==>
            forall i :: 0 <= i < |s| ==> s[i] != 34 && s[i] != 44 && s[i] != 10 && s[i] != 13
    ensures CsvCell(Plain(s)) != s ==> |CsvCell(Plain(s))| > |s| && CsvCell(Plain(s))[0] == 34
    ensures CsvCell(Absent) == []
  {
    DoubledLonger(s);
  }

  lemma {:induction false} DoubledLonger(s: Text)
    ensures |Doubled(s)| >= |s|
  {
    if s != [] { DoubledLonger(s[1..]); }
  }

  function Quotes(n: nat): Text { seq(n, _ => QUOTE) }

  lemma {:induction false} QuoteRunHalves(n: nat, rest: Text)
    requires rest == [] || rest[0] != QUOTE
    ensures Undoubled(Quotes(n) + rest) == Quotes((n + 1) / 2) + Undoubled(rest)
  {
    var t := Quotes(n) + rest;
    if n == 0 {
      assert t == rest;
    } else if n == 1 {
      assert t[1..] == rest;
    } else {
      assert t[2..] == Quotes(n - 2) + rest;
      QuoteRunHalves(n - 2, rest);
      assert Quotes((n + 1) / 2) == [QUOTE] + Quotes((n - 1) / 2);
    }
  }

  /** Whatever the cell, undoubling halves each run of quotes, an odd one rounded up, and keeps all else. */
  lemma {:induction false} QuoteRunsHalve(s: Text, n: nat, rest: Text)
    requires QUOTE !in s && (rest == [] || rest[0] != QUOTE)
    ensures Undoubled(s + Quotes(n) + rest) == s + Quotes((n + 1) / 2) + Undoubled(rest)
    decreases |s|
  {
    if s == [] {
      assert s + Quotes(n) + rest == Quotes(n) + rest;
      QuoteRunHalves(n, rest);
    } else {
      assert (s + Quotes(n) + rest)[1..] == s[1..] + Quotes(n) + rest;
      QuoteRunsHalve(s[1..], n, rest);
    }
  }

  /** The 25 white space and line terminator units of ECMA-262, sections 12.2 and 12.3. */
  lemma BlanksAre(u: Unit)
    ensures Blank(u) <==> u in [
      0x0009, 0x000A, 0x000B, 0x000C, 0x000D, 0x0020, 0x00A0, 0x1680, 0x2000, 0x2001, 0x2002, 0x2003, 0x2004,
      0x2005, 0x2006, 0x2007, 0x2008, 0x2009, 0x200A, 0x2028, 0x2029, 0x202F, 0x205F, 0x3000, 0xFEFF]
  { }

  /** Trimming takes off blanks at both ends and nothing else. */
  lemma TrimTakesBlanks(s: Text) returns (i: nat, j: nat)
    ensures i <= j <= |s| && Trim(s) == s[i..j]
    ensures (forall k :: 0 <= k < i ==> Blank(s[k])) && (forall k :: j <= k < |s| ==> Blank(s[k]))
    ensures i < j ==> !Blank(s[i]) && !Blank(s[j - 1])
  {
    i := TrimLeftTakes(s);
    j := TrimRightTakes(s[i..]);
    assert forall k :: j <= k < |s[i..]| ==> s[i..][k] == s[i + k];
    forall k | i + j <= k < |s| ensures Blank(s[k]) { assert s[i..][k - i] == s[k]; }
    j := i + j;
  }

  lemma {:induction false} TrimLeftTakes(s: Text) returns (i: nat)
    ensures i <= |s| && TrimLeft(s) == s[i..] && (forall k :: 0 <= k < i ==> Blank(s[k])) && (i < |s| ==> !Blank(s[i]))
  {
    if s != [] && Blank(s[0]) {
      i := TrimLeftTakes(s[1..]);
      forall k | 0 <= k < i + 1 ensures Blank(s[k]) { if k > 0 { assert s[1..][k - 1] == s[k]; } }
      i := i + 1;
    } else {
      i := 0;
    }
  }

  lemma {:induction false} TrimRightTakes(s: Text) returns (j: nat)
    ensures j <= |s| && TrimRight(s) == s[..j] && (j > 0 ==> !Blank(s[j - 1]))
    ensures forall k :: j <= k < |s| ==> Blank(s[k])
  {
    if s != [] && Blank(s[|s| - 1]) {
      j := TrimRightTakes(s[..|s| - 1]);
      assert s[..|s| - 1][..j] == s[..j];
    } else {
      j := |s|;
    }
  }

  predicate RowsOk(rows: seq<seq<Value>>) { forall i :: 0 <= i < |rows| ==> RowOk(rows[i]) && |rows[i]| > 1 }

  predicate RowsNoLf(rows: seq<seq<Value>>) { forall i :: 0 <= i < |rows| ==> RowNoLf(rows[i]) }

  function CsvLines(rows: seq<seq<Value>>): (r: seq<Text>)
    ensures |r| == |rows| && forall i :: 0 <= i < |r| ==> r[i] == CsvLine(rows[i])
  {
    if rows == [] then [] else [CsvLine(rows[0])] + CsvLines(rows[1..])
  }

  lemma {:induction false} GoodRowsSplit(rows: seq<seq<Value>>)
    requires RowsOk(rows) && RowsNoLf(rows)
    ensures NonBlank(Lines(LinesText(rows), [])) == CsvLines(rows)
    decreases |rows|
  {
    if rows == [] {
      assert AllBlank(Lines([], [])[0]);
    } else {
      GoodLine(rows[0]);
      LineNotBlank(rows[0]);
      LineWithoutLf(CsvLine(rows[0]), LinesText(rows[1..]), []);
      assert [] + CsvLine(rows[0]) == CsvLine(rows[0]);
      GoodRowsSplit(rows[1..]);
    }
  }

  /** Every row gives a line; a row with a newline in a field gives another one. */
  lemma {:induction false} RowsCount(rows: seq<seq<Value>>)
    requires RowsOk(rows)
    ensures |NonBlank(Lines(LinesText(rows), []))| >= |rows| + (if RowsNoLf(rows) then 0 else 1)
    decreases |rows|
  {
    if rows != [] {
      RowsCount(rows[1..]);
      if RowNoLf(rows[0]) {
        LineNotBlank(rows[0]);
        assert [] + CsvLine(rows[0]) == CsvLine(rows[0]);
        LinesAdd(CsvLine(rows[0]), LinesText(rows[1..]), []);
      } else {
        var i := LineBreaks(rows[0]);
        BrokenCounts(CsvLine(rows[0]), LinesText(rows[1..]), i);
      }
      RowsNoLfCons(rows);
    }
  }

  lemma RowsNoLfCons(rows: seq<seq<Value>>)
    requires rows != []
    ensures RowsNoLf(rows) <==> RowNoLf(rows[0]) && RowsNoLf(rows[1..])
  {
    if RowNoLf(rows[0]) && RowsNoLf(rows[1..]) {
      forall i | 0 <= i < |rows| ensures RowNoLf(rows[i]) { if i > 0 { assert rows[i] == rows[1..][i - 1]; } }
    }
  }

  function Contents(row: seq<Value>): (r: seq<Text>)
    ensures |r| == |row| && forall i :: 0 <= i < |r| ==> r[i] == Content(row[i])
  {
    if row == [] then [] else [Content(row[0])] + Contents(row[1..])
  }

  function AllContents(rows: seq<seq<Value>>): (r: seq<seq<Text>>)
    ensures |r| == |rows| && forall i :: 0 <= i < |r| ==> r[i] == Contents(rows[i])
  {
    if rows == [] then [] else [Contents(rows[0])] + AllContents(rows[1..])
  }

  predicate OwnTrim(row: seq<Value>) { forall i :: 0 <= i < |row| ==> Trim(Content(row[i])) == Content(row[i]) }

  lemma WithHeader(header: seq<Value>, rows: seq<seq<Value>>)
    requires RowsOk([header]) && RowNoLf(header) && RowsOk(rows)
    ensures RowsOk([header] + rows) && (RowsNoLf([header] + rows) <==> RowsNoLf(rows))
  {
    assert [header][0] == header && ([header] + rows)[1..] == rows;
    RowsNoLfCons([header] + rows);
  }

  lemma FileWithNewlines(header: seq<Value>, rows: seq<seq<Value>>)
    requires RowsOk([header]) && RowNoLf(header) && RowsOk(rows) && !RowsNoLf(rows)
    ensures ReadFile(FileText(header, rows)).Some? && |ReadFile(FileText(header, rows)).value| > |rows|
  {
    WithHeader(header, rows);
    RowsCount([header] + rows);
  }

  lemma FileWithoutNewlines(header: seq<Value>, rows: seq<seq<Value>>)
    requires RowsOk([header]) && RowNoLf(header) && RowsOk(rows) && RowsNoLf(rows)
    ensures ReadFile(FileText(header, rows)) == Some(ReadLines(CsvLines(rows)))
  {
    WithHeader(header, rows);
    GoodRowsSplit([header] + rows);
    assert ([header] + rows)[1..] == rows;
    assert CsvLines([header] + rows)[1..] == CsvLines(rows);
  }

  /**
   The export reads back exactly when no field contains a newline and every
   field is its own trim. Carriage returns alone, commas and quotes are fine.
   */
  lemma FileReadsBack(header: seq<Value>, rows: seq<seq<Value>>)
    requires RowsOk([header]) && RowNoLf(header) && RowsOk(rows)
    ensures ReadFile(FileText(header, rows)) == Some(AllContents(rows)) <==>
            (RowsNoLf(rows) && forall i :: 0 <= i < |rows| ==> OwnTrim(rows[i]))
  {
    if RowsNoLf(rows) {
      FileWithoutNewlines(header, rows);
      RowsReadBack(rows);
    } else {
      FileWithNewlines(header, rows);
    }
  }

  lemma RowsReadBack(rows: seq<seq<Value>>)
    requires RowsOk(rows)
    ensures ReadLines(CsvLines(rows)) == AllContents(rows) <==> forall i :: 0 <= i < |rows| ==> OwnTrim(rows[i])
  {
    forall i | 0 <= i < |rows| ensures ReadLines(CsvLines(rows))[i] == AllContents(rows)[i] <==> OwnTrim(rows[i]) {
      RowReadsBack(rows[i]);
    }
    if ReadLines(CsvLines(rows)) == AllContents(rows) {
      forall i | 0 <= i < |rows|
        ensures OwnTrim(rows[i])
      {
        assert ReadLines(CsvLines(rows))[i] == AllContents(rows)[i];
      }
    }
  }

  lemma RowReadsBack(row: seq<Value>)
    requires RowOk(row)
    ensures ReadLine(CsvLine(row)) == Contents(row) <==> OwnTrim(row)
  {
    LineReads(row);
    if Trimmed(row) == Contents(row) {
      forall i | 0 <= i < |row| ensures Trim(Content(row[i])) == Content(row[i]) {
        assert Trimmed(row)[i] == Contents(row)[i];
      }
    }
  }

  function JoinLf(ls: seq<Text>): Text {
    if ls == [] then [] else if |ls| == 1 then ls[0] else ls[0] + [LF] + JoinLf(ls[1..])
  }

  lemma {:induction false} JoinedLines(rows: seq<seq<Value>>)
    requires rows != []
    ensures JoinLf(CsvLines(rows)) + [LF] == LinesText(rows)
    decreases |rows|
  {
    if |rows| > 1 {
      JoinedLines(rows[1..]);
      var line, rest := CsvLine(rows[0]), JoinLf(CsvLines(rows[1..]));
      assert CsvLines(rows)[1..] == CsvLines(rows[1..]);
      Assoc(line, [LF], rest);
      Assoc(line, [LF] + rest, [LF]);
      Assoc([LF], rest, [LF]);
    } else {
      assert rows[1..] == [];
    }
  }

  /** The export itself. */
  method PrintFile(header: seq<Value>, rows: seq<seq<Value>>) returns (text: Text)
    ensures text == FileText(header, rows)
  {
    var lines := [CsvLine(header)];
    for i := 0 to |rows|
      invariant |lines| == i + 1 && lines[0] == CsvLine(header)
      invariant forall k :: 0 <= k < i ==> lines[k + 1] == CsvLine(rows[k])
    {
      lines := lines + [CsvLine(rows[i])];
    }
    assert lines == CsvLines([header] + rows);
    JoinedLines([header] + rows);
    return JoinLf(lines) + [LF];
  }
}

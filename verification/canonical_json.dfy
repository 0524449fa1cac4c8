/**
 The JSON printers behind every hash of the freeze chain: JSON.stringify, the
 key-sorting `canonical` of the frame and freeze scripts and the `stable` of
 the schema comparison, with a reader that undoes them.

 A number is its text: JSON.stringify gives equal texts exactly to equal
 numbers (0 and -0 counted equal).
 */
module CanonicalJson {
  import opened Common
  import opened JsText

  datatype Json =
    | Null
    | Bool(b: bool)
    | Num(digits: Text)
    | Str(s: Text)
    | Arr(items: seq<Json>)
    | Obj(members: seq<Member>)

  datatype Member = Member(key: Text, value: Json)

  const COMMA: Unit := 44
  const COLON: Unit := 58
  const LBRACKET: Unit := 91
  const RBRACKET: Unit := 93
  const LBRACE: Unit := 123
  const RBRACE: Unit := 125
  const NULL: Text := [110, 117, 108, 108]
  const TRUE: Text := [116, 114, 117, 101]
  const FALSE: Text := [102, 97, 108, 115, 101]

  predicate NumChar(u: Unit) { 48 <= u < 58 || u == 43 || u == 45 || u == 46 || u == 69 || u == 101 }

  predicate DistinctKeys(ms: seq<Member>) {
    forall i, j :: 0 <= i < j < |ms| ==> ms[i].key != ms[j].key
  }

  predicate WellFormed(v: Json) {
    match v
    case Null => true
    case Bool(_) => true
    case Num(digits) => digits != [] && forall i :: 0 <= i < |digits| ==> NumChar(digits[i])
    case Str(_) => true
    case Arr(items) => forall i :: 0 <= i < |items| ==> WellFormed(items[i])
    case Obj(ms) => DistinctKeys(ms) && forall i :: 0 <= i < |ms| ==> WellFormed(ms[i].value)
  }

  /** Every scalar is well formed, a number if it is a non-empty text over its fifteen characters. */
  lemma ScalarsAreWellFormed(v: Json)
    ensures v == Null || v.Bool? || v.Str? ==> WellFormed(v)
    ensures v.Num? ==>
      (WellFormed(v) <==> |v.digits| > 0 && forall u :: u in v.digits ==> u in Ascii("0123456789+-.eE"))
  {
    var chars := Ascii("0123456789+-.eE");
    assert chars == [48, 49, 50, 51, 52, 53, 54, 55, 56, 57, 43, 45, 46, 101, 69];
    forall u: Unit ensures NumChar(u) <==> u in chars {
      if 48 <= u < 58 { assert chars[u - 48] == u; }
      if u == 43 { assert chars[10] == u; }
      if u == 45 { assert chars[11] == u; }
      if u == 46 { assert chars[12] == u; }
      if u == 101 { assert chars[13] == u; }
      if u == 69 { assert chars[14] == u; }
    }
  }

  // ------------------------------------------------------------------
  // JSON.stringify and a reader for what it prints
  // ------------------------------------------------------------------

  function Join(ts: seq<Text>): Text {
    if ts == [] then [] else if |ts| == 1 then ts[0] else ts[0] + [COMMA] + Join(ts[1..])
  }

  function Scalar(v: Json): Text
    requires !v.Arr? && !v.Obj?
  {
    match v
    case Null => NULL
    case Bool(b) => if b then TRUE else FALSE
    case Num(digits) => digits
    case Str(s) => Quoted(s)
  }

  function Print(v: Json): Text
    decreases v
  {
    match v
    case Arr(items) => [LBRACKET] + Join(PrintItems(items)) + [RBRACKET]
    case Obj(ms) => [LBRACE] + Join(PrintMembers(ms)) + [RBRACE]
    case _ => Scalar(v)
  }

  function PrintItems(items: seq<Json>): seq<Text>
    decreases items
  {
    if items == [] then [] else [Print(items[0])] + PrintItems(items[1..])
  }

  function PrintMembers(ms: seq<Member>): seq<Text>
    decreases ms
  {
    if ms == [] then [] else [Quoted(ms[0].key) + [COLON] + Print(ms[0].value)] + PrintMembers(ms[1..])
  }

  function NumRun(t: Text): (n: nat)
    ensures n <= |t| && (forall i :: 0 <= i < n ==> NumChar(t[i])) && (n < |t| ==> !NumChar(t[n]))
  {
    if t == [] || !NumChar(t[0]) then 0 else 1 + NumRun(t[1..])
  }

  function ReadLiteral(t: Text, word: Text, v: Json): (r: Option<Read<Json>>)
    requires word != []
    ensures r.Some? ==> |r.value.rest| < |t|
  {
    if word <= t then Some(Read(v, t[|word|..])) else None
  }

  function ReadValue(t: Text): (r: Option<Read<Json>>)
    ensures r.Some? ==> |r.value.rest| < |t|
    decreases |t|, 0
  {
    if t == [] then None
    else if t[0] == QUOTE then
      var s := ReadString(t);
      if s.None? then None else Some(Read(Str(s.value.value), s.value.rest))
    else if t[0] == LBRACKET then ReadArray(t[1..])
    else if t[0] == LBRACE then ReadObject(t[1..])
    else if NumChar(t[0]) then Some(Read(Num(t[..NumRun(t)]), t[NumRun(t)..]))
    else if t[0] == 110 then ReadLiteral(t, NULL, Null)
    else if t[0] == 116 then ReadLiteral(t, TRUE, Bool(true))
    else ReadLiteral(t, FALSE, Bool(false))
  }

  function ReadArray(t: Text): (r: Option<Read<Json>>)
    ensures r.Some? ==> |r.value.rest| < |t|
    decreases |t|, 2
  {
    if t == [] then None
    else if t[0] == RBRACKET then Some(Read(Arr([]), t[1..]))
    else
      var items := ReadItems(t);
      if items.None? then None else Some(Read(Arr(items.value.value), items.value.rest))
  }

  function ReadObject(t: Text): (r: Option<Read<Json>>)
    ensures r.Some? ==> |r.value.rest| < |t|
    decreases |t|, 2
  {
    if t == [] then None
    else if t[0] == RBRACE then Some(Read(Obj([]), t[1..]))
    else
      var ms := ReadMembers(t);
      if ms.None? then None else Some(Read(Obj(ms.value.value), ms.value.rest))
  }

  function ReadItems(t: Text): (r: Option<Read<seq<Json>>>)
    ensures r.Some? ==> |r.value.rest| < |t|
    decreases |t|, 1
  {
    var v := ReadValue(t);
    if v.None? || v.value.rest == [] then None
    else if v.value.rest[0] == RBRACKET then Some(Read([v.value.value], v.value.rest[1..]))
    else if v.value.rest[0] != COMMA then None
    else
      var more := ReadItems(v.value.rest[1..]);
      if more.None? then None else Some(Read([v.value.value] + more.value.value, more.value.rest))
  }

  function ReadMembers(t: Text): (r: Option<Read<seq<Member>>>)
    ensures r.Some? ==> |r.value.rest| < |t|
    decreases |t|, 1
  {
    var k := ReadString(t);
    if k.None? || k.value.rest == [] || k.value.rest[0] != COLON then None
    else
      var v := ReadValue(k.value.rest[1..]);
      if v.None? || v.value.rest == [] then None
      else
        var m := Member(k.value.value, v.value.value);
        if v.value.rest[0] == RBRACE then Some(Read([m], v.value.rest[1..]))
        else if v.value.rest[0] != COMMA then None
        else
          var more := ReadMembers(v.value.rest[1..]);
          if more.None? then None else Some(Read([m] + more.value.value, more.value.rest))
  }

  /** What may follow a value inside printed JSON. */
  predicate Delimited(x: Text) { x == [] || x[0] == COMMA || x[0] == RBRACKET || x[0] == RBRACE }

  lemma FirstUnit(v: Json)
    requires WellFormed(v)
    ensures Print(v) != [] && Print(v)[0] != RBRACKET
  { }

  lemma NumberReads(digits: Text, x: Text)
    requires WellFormed(Num(digits)) && Delimited(x)
    ensures ReadValue(digits + x) == Some(Read(Num(digits), x))
  {
    var t := digits + x;
    var n := NumRun(t);
    assert forall i :: 0 <= i < |digits| ==> NumChar(t[i]) by {
      assert forall i :: 0 <= i < |digits| ==> t[i] == digits[i];
    }
    assert n >= |digits|;
    assert x != [] ==> t[|digits|] == x[0] && !NumChar(t[|digits|]);
    assert t[..n] == digits && t[n..] == x;
  }

  lemma ScalarReads(v: Json, x: Text)
    requires WellFormed(v) && Delimited(x) && !v.Arr? && !v.Obj?
    ensures ReadValue(Print(v) + x) == Some(Read(v, x))
  {
    match v
    case Null => assert NULL <= NULL + x && (NULL + x)[4..] == x;
    case Bool(b) =>
      assert TRUE <= TRUE + x && (TRUE + x)[4..] == x;
      assert FALSE <= FALSE + x && (FALSE + x)[5..] == x;
    case Num(digits) => NumberReads(digits, x);
    case Str(s) => QuotedReads(s, x);
  }

  /** A non-empty comma list with its closing bracket. */
  function Closed(ts: seq<Text>, close: Unit): Text
    requires ts != []
  {
    ts[0] + (if |ts| == 1 then [close] else [COMMA] + Closed(ts[1..], close))
  }

  lemma {:induction false} JoinCloses(ts: seq<Text>, close: Unit)
    requires ts != []
    ensures Join(ts) + [close] == Closed(ts, close)
  {
    if |ts| > 1 {
      JoinCloses(ts[1..], close);
      Assoc(ts[0], [COMMA], Join(ts[1..]));
      Assoc(ts[0], [COMMA] + Join(ts[1..]), [close]);
      Assoc([COMMA], Join(ts[1..]), [close]);
    }
  }

  /** One item of a comma list read, and what the list reader does next. */
  lemma ItemThenRest(v: Json, close: Text, x: Text)
    requires WellFormed(v) && close != [] && ReadValue(Print(v) + (close + x)) == Some(Read(v, close + x))
    ensures close == [RBRACKET] ==> ReadItems(Print(v) + (close + x)) == Some(Read([v], x))
    ensures close[0] == COMMA ==>
      var more := ReadItems(close[1..] + x);
      ReadItems(Print(v) + (close + x)) ==
        if more.None? then None else Some(Read([v] + more.value.value, more.value.rest))
  {
    assert (close + x)[0] == close[0] && (close + x)[1..] == close[1..] + x;
    if close == [RBRACKET] { assert close[1..] + x == x; }
  }

  lemma PrintItemsCons(items: seq<Json>)
    requires items != []
    ensures |PrintItems(items)| == |items| && PrintItems(items)[0] == Print(items[0]) &&
        PrintItems(items)[1..] == PrintItems(items[1..])
  {
    if |items| > 1 { PrintItemsCons(items[1..]); }
  }

  lemma PrintMembersCons(ms: seq<Member>)
    requires ms != []
    ensures |PrintMembers(ms)| == |ms| && PrintMembers(ms)[1..] == PrintMembers(ms[1..])
    ensures PrintMembers(ms)[0] == Quoted(ms[0].key) + [COLON] + Print(ms[0].value)
  {
    if |ms| > 1 { PrintMembersCons(ms[1..]); }
  }

  /** Printed JSON followed by a delimiter reads back exactly. */
  lemma {:induction false} ValueReads(v: Json, x: Text)
    requires WellFormed(v) && Delimited(x)
    ensures ReadValue(Print(v) + x) == Some(Read(v, x))
    decreases v
  {
    match v
    case Arr(items) => ArrayReads(items, x);
    case Obj(ms) => ObjectReads(ms, x);
    case _ => ScalarReads(v, x);
  }

  lemma {:induction false} ArrayReads(items: seq<Json>, x: Text)
    requires WellFormed(Arr(items))
    ensures ReadValue(Print(Arr(items)) + x) == Some(Read(Arr(items), x))
    decreases items, 1
  {
    var t := Print(Arr(items)) + x;
    if items == [] {
      assert t[1..] == [RBRACKET] + x && ([RBRACKET] + x)[1..] == x;
    } else {
      var ts := PrintItems(items);
      PrintItemsCons(items);
      JoinCloses(ts, RBRACKET);
      Assoc([LBRACKET], Join(ts), [RBRACKET]);
      Assoc([LBRACKET], Closed(ts, RBRACKET), x);
      assert t[1..] == Closed(ts, RBRACKET) + x;
      ItemsRead(items, x);
      FirstUnit(items[0]);
      assert (Closed(ts, RBRACKET) + x)[0] == Print(items[0])[0];
    }
  }

  lemma {:induction false} ItemsRead(items: seq<Json>, x: Text)
    requires WellFormed(Arr(items)) && items != []
    ensures PrintItems(items) != [] && ReadItems(Closed(PrintItems(items), RBRACKET) + x) == Some(Read(items, x))
    decreases items, 0
  {
    hide ReadValue, ReadItems;
    PrintItemsCons(items);
    var close := if |items| == 1 then [RBRACKET] else [COMMA] + Closed(PrintItems(items[1..]), RBRACKET);
    assert Closed(PrintItems(items), RBRACKET) == Print(items[0]) + close;
    Assoc(Print(items[0]), close, x);
    ValueReads(items[0], close + x);
    ItemThenRest(items[0], close, x);
    if |items| > 1 {
      ItemsRead(items[1..], x);
      assert close[1..] == Closed(PrintItems(items[1..]), RBRACKET);
      assert items == [items[0]] + items[1..];
    } else {
      assert items == [items[0]];
    }
  }

  lemma {:induction false} ObjectReads(ms: seq<Member>, x: Text)
    requires WellFormed(Obj(ms))
    ensures ReadValue(Print(Obj(ms)) + x) == Some(Read(Obj(ms), x))
    decreases ms, 1
  {
    hide ReadMembers, Quoted;
    var t := Print(Obj(ms)) + x;
    if ms == [] {
      assert t[1..] == [RBRACE] + x && ([RBRACE] + x)[1..] == x;
    } else {
      var ts := PrintMembers(ms);
      PrintMembersCons(ms);
      JoinCloses(ts, RBRACE);
      Assoc([LBRACE], Join(ts), [RBRACE]);
      Assoc([LBRACE], Closed(ts, RBRACE), x);
      assert t[1..] == Closed(ts, RBRACE) + x;
      MembersRead(ms, x);
      FirstQuote(ms, x);
    }
  }

  lemma FirstQuote(ms: seq<Member>, x: Text)
    requires ms != []
    ensures PrintMembers(ms) != [] && Closed(PrintMembers(ms), RBRACE) != []
    ensures (Closed(PrintMembers(ms), RBRACE) + x)[0] == QUOTE
  {
    PrintMembersCons(ms);
  }

  /** One member of an object read, and what the member reader does next. */
  lemma MemberThenRest(m: Member, close: Text, x: Text)
    requires close != [] && ReadValue(Print(m.value) + (close + x)) == Some(Read(m.value, close + x))
    ensures var t := Quoted(m.key) + ([COLON] + (Print(m.value) + (close + x)));
      && (close == [RBRACE] ==> ReadMembers(t) == Some(Read([m], x)))
      && (close[0] == COMMA ==>
            var more := ReadMembers(close[1..] + x);
            ReadMembers(t) == if more.None? then None else Some(Read([m] + more.value.value, more.value.rest)))
  {
    var after := [COLON] + (Print(m.value) + (close + x));
    QuotedReads(m.key, after);
    assert after[1..] == Print(m.value) + (close + x);
    assert (close + x)[0] == close[0] && (close + x)[1..] == close[1..] + x;
    if close == [RBRACE] { assert close[1..] + x == x; }
  }

  lemma MemberText(m: Member, close: Text, x: Text)
    ensures ((Quoted(m.key) + [COLON] + Print(m.value)) + close) + x ==
        Quoted(m.key) + ([COLON] + (Print(m.value) + (close + x)))
  {
    Assoc(Quoted(m.key) + [COLON] + Print(m.value), close, x);
    Assoc(Quoted(m.key), [COLON], Print(m.value));
    Assoc(Quoted(m.key), [COLON] + Print(m.value), close + x);
    Assoc([COLON], Print(m.value), close + x);
  }

  lemma {:induction false} MembersRead(ms: seq<Member>, x: Text)
    requires WellFormed(Obj(ms)) && ms != []
    ensures PrintMembers(ms) != [] && ReadMembers(Closed(PrintMembers(ms), RBRACE) + x) == Some(Read(ms, x))
    decreases ms, 0
  {
    hide ReadValue, ReadMembers, Quoted;
    PrintMembersCons(ms);
    var close := if |ms| == 1 then [RBRACE] else [COMMA] + Closed(PrintMembers(ms[1..]), RBRACE);
    assert Closed(PrintMembers(ms), RBRACE) == (Quoted(ms[0].key) + [COLON] + Print(ms[0].value)) + close;
    MemberText(ms[0], close, x);
    ValueReads(ms[0].value, close + x);
    MemberThenRest(ms[0], close, x);
    if |ms| > 1 {
      MembersRead(ms[1..], x);
      assert close[1..] == Closed(PrintMembers(ms[1..]), RBRACE);
      assert ms == [ms[0]] + ms[1..];
    } else {
      assert ms == [ms[0]];
    }
  }

  /** Reading a whole text. */
  function ReadJson(t: Text): Option<Json> {
    var r := ReadValue(t);
    if r.None? || r.value.rest != [] then None else Some(r.value.value)
  }

  lemma PrintedReads(v: Json)
    requires WellFormed(v)
    ensures ReadJson(Print(v)) == Some(v)
  {
    ValueReads(v, []);
    assert Print(v) + [] == Print(v);
  }

  /** Every print spelt out: literals, quoted strings, and lists and objects without any white space. */
  lemma PrintSpells(v: Json)
    ensures match v
      case Null => Print(v) == Ascii("null")
      case Bool(b) => Print(v) == if b then Ascii("true") else Ascii("false")
      case Num(digits) => Print(v) == digits
      case Str(s) => Print(v) == Ascii("\"") + Spell(s, 0) + Ascii("\"")
      case Arr(items) =>
        if items == [] then Print(v) == Ascii("[]")
        else Print(v) == Ascii("[") + ItemsText(items) + Ascii("]")
      case Obj(ms) =>
        if ms == [] then Print(v) == Ascii("{}")
        else Print(v) == Ascii("{") + MembersText(ms) + Ascii("}")
  {
    match v {
      case Str(s) => QuotedSpells(s);
      case Arr(items) => if items != [] { ItemsSpell(items); }
      case Obj(ms) => if ms != [] { MembersSpell(ms); }
      case _ =>
    }
  }

  function ItemsText(items: seq<Json>): Text
    requires items != []
  {
    Print(items[0]) + if |items| == 1 then [] else Ascii(",") + ItemsText(items[1..])
  }

  function MemberSpelt(m: Member): Text { Ascii("\"") + Spell(m.key, 0) + Ascii("\":") + Print(m.value) }

  function MembersText(ms: seq<Member>): Text
    requires ms != []
  {
    MemberSpelt(ms[0]) + if |ms| == 1 then [] else Ascii(",") + MembersText(ms[1..])
  }

  lemma {:induction false} ItemsSpell(items: seq<Json>)
    requires items != []
    ensures Join(PrintItems(items)) == ItemsText(items)
  {
    PrintItemsCons(items);
    if |items| > 1 {
      ItemsSpell(items[1..]);
      Assoc(Print(items[0]), [COMMA], ItemsText(items[1..]));
    }
  }

  lemma {:induction false} MembersSpell(ms: seq<Member>)
    requires ms != []
    ensures Join(PrintMembers(ms)) == MembersText(ms)
  {
    PrintMembersCons(ms);
    QuotedSpells(ms[0].key);
    assert Quoted(ms[0].key) + [COLON] + Print(ms[0].value) == MemberSpelt(ms[0]);
    if |ms| > 1 {
      MembersSpell(ms[1..]);
      Assoc(MemberSpelt(ms[0]), [COMMA], MembersText(ms[1..]));
    }
  }
}

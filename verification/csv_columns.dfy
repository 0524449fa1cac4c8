/** The smoke test's loader: columns found by name in the header, cells picked by column. */
module CsvColumns {
  import opened Common
  import opened JsText
  import opened CsvCodec

  // ------------------------------------------------------------------
  // The header
  // ------------------------------------------------------------------

  /** split(","), with the piece begun. */
  function PlainSplit(s: Text, cur: Text): seq<Text>
    decreases |s|
  {
    if s == [] then [cur]
    else if s[0] == COMMA then [cur] + PlainSplit(s[1..], [])
    else PlainSplit(s[1..], cur + [s[0]])
  }

  /** replace(/"/g, "") */
  function NoQuotes(s: Text): Text {
    if s == [] then [] else (if s[0] == QUOTE then [] else [s[0]]) + NoQuotes(s[1..])
  }

  function Names(pieces: seq<Text>): (r: seq<Text>)
    ensures |r| == |pieces| && forall i :: 0 <= i < |r| ==> r[i] == Trim(NoQuotes(pieces[i]))
  {
    if pieces == [] then [] else [Trim(NoQuotes(pieces[0]))] + Names(pieces[1..])
  }

  function HeaderNames(line: Text): seq<Text> { Names(PlainSplit(line, [])) }

  /** indexOf */
  function IndexOf(names: seq<Text>, name: Text): (i: int)
    ensures -1 <= i < |names|
    ensures i >= 0 ==> names[i] == name && forall k :: 0 <= k < i ==> names[k] != name
    ensures i == -1 ==> name !in names
  {
    if names == [] then -1
    else if names[0] == name then 0
    else var i := IndexOf(names[1..], name); if i < 0 then -1 else i + 1
  }

  // ------------------------------------------------------------------
  // Records
  // ------------------------------------------------------------------

  /** A loaded row; an empty optional cell is null. */
  datatype Record = Record(id: Text, payload: Text, receivedAt: Text, batch: Option<Text>, tier: Option<Text>,
                           randomized: Option<bool>, probability: Option<Text>, share: Option<Text>,
                           weight: Option<Text>, seed: Option<Text>, windowStart: Option<Text>, windowEnd: Option<Text>)

  const ID: Text := Ascii("id")
  const PAYLOAD: Text := Ascii("payload_json")
  const RECEIVED: Text := Ascii("received_at")
  const BATCH: Text := Ascii("sampling_batch_id")
  const TIER: Text := Ascii("airport_tier")
  const RANDOMIZED: Text := Ascii("is_randomized")
  const PROBABILITY: Text := Ascii("airport_layer_design_probability")
  const SHARE: Text := Ascii("planned_share")
  const WEIGHT: Text := Ascii("sampling_weight")
  const SEED: Text := Ascii("random_seed")
  const WINDOW_START: Text := Ascii("collection_window_start")
  const WINDOW_END: Text := Ascii("collection_window_end")
  const TRUE: Text := Ascii("true")

  function OrNull(t: Text): Option<Text> { if t == [] then None else Some(t) }

  /** The record whose column `name` holds `cell(name)`. */
  function RecordOf(cell: Text -> Text): Record {
    Record(cell(ID), cell(PAYLOAD), cell(RECEIVED), OrNull(cell(BATCH)), OrNull(cell(TIER)),
           if cell(RANDOMIZED) == [] then None else Some(cell(RANDOMIZED) == TRUE),
           OrNull(cell(PROBABILITY)), OrNull(cell(SHARE)), OrNull(cell(WEIGHT)), OrNull(cell(SEED)),
           OrNull(cell(WINDOW_START)), OrNull(cell(WINDOW_END)))
  }

  /** cell(col(name)): a missing column or a short line gives the empty text. */
  function CellOf(names: seq<Text>, cells: seq<Text>, name: Text): Text {
    var i := IndexOf(names, name);
    if 0 <= i < |cells| then ParseCell(cells[i]) else []
  }

  function Pick(names: seq<Text>, cells: seq<Text>): Record { RecordOf(name => CellOf(names, cells, name)) }

  function ReadRecord(names: seq<Text>, line: Text): Record { Pick(names, SplitFrom(line, [], false)) }

  function ReadRecords(names: seq<Text>, ls: seq<Text>): (r: seq<Record>)
    ensures |r| == |ls| && forall i :: 0 <= i < |r| ==> r[i] == ReadRecord(names, ls[i])
  {
    if ls == [] then [] else [ReadRecord(names, ls[0])] + ReadRecords(names, ls[1..])
  }

  /** loadRows; a text without any line raises. */
  function Load(t: Text): Option<seq<Record>> {
    var ls := NonBlank(Lines(t, []));
    if ls == [] then None else Some(ReadRecords(HeaderNames(ls[0]), ls[1..]))
  }

  method LoadRows(text: Text) returns (rows: Option<seq<Record>>)
    ensures rows == Load(text)
  {
    hide Pick, HeaderNames, SplitFrom, NonBlank, Lines;
    var lines := NonBlank(Lines(text, []));
    if lines == [] { return None; }
    var names, body, read := HeaderNames(lines[0]), lines[1..], [];
    for i := 0 to |body|
      invariant |read| == i && forall k :: 0 <= k < i ==> read[k] == ReadRecord(names, body[k])
    {
      var cells := SplitLine(body[i]);
      read := read + [Pick(names, cells)];
    }
    assert read == ReadRecords(names, body);
    return Some(read);
  }

  // ------------------------------------------------------------------
  // The export loads back by column
  // ------------------------------------------------------------------

  /** A header of plain column names; of two columns with one name the first is read. */
  predicate PlainHeader(header: seq<Value>) {
    forall i :: 0 <= i < |header| ==>
      header[i].Plain? && NoneSpecial(header[i].s) && Trim(header[i].s) == header[i].s
  }

  /** What the column holds in this row, trimmed; nothing when there is no such column. */
  function FieldOf(header: seq<Value>, row: seq<Value>, name: Text): Text
    requires |row| == |header|
  {
    if header == [] then []
    else if header[0] == Plain(name) then Trim(Content(row[0]))
    else FieldOf(header[1..], row[1..], name)
  }

  function Projected(header: seq<Value>, row: seq<Value>): Record
    requires |row| == |header|
  {
    RecordOf(name => FieldOf(header, row, name))
  }

  lemma ColumnNames()
    ensures ID == Ascii("id") && PAYLOAD == Ascii("payload_json") && RECEIVED == Ascii("received_at")
    ensures BATCH == Ascii("sampling_batch_id") && TIER == Ascii("airport_tier") && RANDOMIZED == Ascii("is_randomized")
    ensures TRUE == Ascii("true")
  { }

  lemma OptionalColumnNames()
    ensures PROBABILITY == Ascii("airport_layer_design_probability") && SHARE == Ascii("planned_share")
    ensures WEIGHT == Ascii("sampling_weight") && SEED == Ascii("random_seed")
    ensures WINDOW_START == Ascii("collection_window_start") && WINDOW_END == Ascii("collection_window_end")
  { }

  /** Each field of a record comes from its own column; an empty optional one is null, and only "true" is true. */
  lemma ProjectedFields(header: seq<Value>, row: seq<Value>)
    requires |row| == |header|
    ensures var r, f := Projected(header, row), (name: Text) => FieldOf(header, row, name);
      && r.id == f(ID) && r.payload == f(PAYLOAD) && r.receivedAt == f(RECEIVED)
      && NullOr(r.batch, f(BATCH)) && NullOr(r.tier, f(TIER)) && NullOr(r.probability, f(PROBABILITY))
      && NullOr(r.share, f(SHARE)) && NullOr(r.weight, f(WEIGHT)) && NullOr(r.seed, f(SEED))
      && NullOr(r.windowStart, f(WINDOW_START)) && NullOr(r.windowEnd, f(WINDOW_END))
      && (r.randomized == None <==> |f(RANDOMIZED)| == 0) && (r.randomized == Some(true) <==> f(RANDOMIZED) == TRUE)
  {
    hide FieldOf;
  }

  predicate NullOr(x: Option<Text>, t: Text) { if |t| == 0 then x == None else x == Some(t) }

  function RecordsOf(header: seq<Value>, rows: seq<seq<Value>>): (r: seq<Record>)
    requires forall i :: 0 <= i < |rows| ==> |rows[i]| == |header|
    ensures |r| == |rows|
    ensures forall i :: 0 <= i < |r| ==> r[i] == Projected(header, rows[i])
  {
    if rows == [] then [] else [Projected(header, rows[0])] + RecordsOf(header, rows[1..])
  }

  lemma {:induction false} PlainSplitIsSplit(s: Text, cur: Text)
    requires forall i :: 0 <= i < |s| ==> s[i] != QUOTE
    ensures PlainSplit(s, cur) == SplitFrom(s, cur, false)
    decreases |s|
  {
    if s != [] {
      PlainSplitIsSplit(s[1..], []);
      PlainSplitIsSplit(s[1..], cur + [s[0]]);
    }
  }

  lemma {:induction false} NoQuotesPlain(s: Text)
    requires NoneSpecial(s)
    ensures NoQuotes(s) == s
  {
    if s != [] {
      NoQuotesPlain(s[1..]);
      assert s == [s[0]] + s[1..];
    }
  }

  lemma {:induction false} HeaderLineUnquoted(header: seq<Value>)
    requires PlainHeader(header)
    ensures forall i :: 0 <= i < |CsvLine(header)| ==> CsvLine(header)[i] != QUOTE
    decreases |header|
  {
    if |header| > 1 {
      var rest := header[1..];
      assert PlainHeader(rest);
      HeaderLineUnquoted(rest);
    }
  }

  /** The header line gives the column names back. */
  lemma HeaderReads(header: seq<Value>)
    requires PlainHeader(header) && header != []
    ensures |HeaderNames(CsvLine(header))| == |header|
    ensures forall i :: 0 <= i < |header| ==> header[i] == Plain(HeaderNames(CsvLine(header))[i])
  {
    HeaderLineUnquoted(header);
    PlainSplitIsSplit(CsvLine(header), []);
    LineSplits(header);
    forall i | 0 <= i < |header| ensures HeaderNames(CsvLine(header))[i] == header[i].s { NoQuotesPlain(header[i].s); }
  }

  lemma {:induction false} FieldAtColumn(header: seq<Value>, row: seq<Value>, name: Text, k: nat)
    requires |row| == |header| && k < |header| && header[k] == Plain(name)
    requires forall i :: 0 <= i < k ==> header[i] != Plain(name)
    ensures FieldOf(header, row, name) == Trim(Content(row[k]))
  {
    if k > 0 {
      assert header[0] != Plain(name);
      FieldAtColumn(header[1..], row[1..], name, k - 1);
    }
  }

  lemma {:induction false} NoSuchColumn(header: seq<Value>, row: seq<Value>, name: Text)
    requires |row| == |header| && Plain(name) !in header
    ensures FieldOf(header, row, name) == []
  {
    if header != [] { NoSuchColumn(header[1..], row[1..], name); }
  }

  /** Picking a cell by its column's name reads that column's field. */
  lemma CellReads(header: seq<Value>, row: seq<Value>, name: Text)
    requires PlainHeader(header) && RowOk(row) && |row| == |header|
    ensures CellOf(HeaderNames(CsvLine(header)), SplitFrom(CsvLine(row), [], false), name) == FieldOf(header, row, name)
  {
    HeaderReads(header);
    LineSplits(row);
    var names := HeaderNames(CsvLine(header));
    var i := IndexOf(names, name);
    if i >= 0 {
      CellParses(row[i]);
      forall k | 0 <= k < i ensures header[k] != Plain(name) { assert header[k] == Plain(names[k]); }
      FieldAtColumn(header, row, name, i);
    } else {
      forall k | 0 <= k < |header| ensures header[k] != Plain(name) { assert names[k] != name; }
      NoSuchColumn(header, row, name);
    }
  }

  lemma RecordReads(header: seq<Value>, row: seq<Value>)
    requires PlainHeader(header) && RowOk(row) && |row| == |header|
    ensures ReadRecord(HeaderNames(CsvLine(header)), CsvLine(row)) == Projected(header, row)
  {
    forall name ensures CellOf(HeaderNames(CsvLine(header)), SplitFrom(CsvLine(row), [], false), name) ==
                        FieldOf(header, row, name) {
      CellReads(header, row, name);
    }
  }

  lemma PlainHeaderIsOk(header: seq<Value>)
    requires PlainHeader(header) && |header| > 1
    ensures RowNoLf(header) && RowsOk([header])
  {
    forall i | 0 <= i < |header| ensures NoLf(Content(header[i])) { assert NoneSpecial(header[i].s); }
  }

  /** Whatever the column order, the exported file loads as one record per row, each field from its own column. */
  lemma ExportLoads(header: seq<Value>, rows: seq<seq<Value>>)
    requires PlainHeader(header) && |header| > 1 && RowsOk(rows) && RowsNoLf(rows)
    requires forall i :: 0 <= i < |rows| ==> |rows[i]| == |header|
    ensures Load(FileText(header, rows)) == Some(RecordsOf(header, rows))
  {
    hide PlainHeader, Projected, ReadRecord, HeaderNames, CsvLine, Lines, NonBlank;
    PlainHeaderIsOk(header);
    WithHeader(header, rows);
    GoodRowsSplit([header] + rows);
    var lines := CsvLines([header] + rows);
    assert lines[0] == CsvLine(header) && |lines| == |rows| + 1;
    forall i | 0 <= i < |rows|
      ensures ReadRecords(HeaderNames(lines[0]), lines[1..])[i] == RecordsOf(header, rows)[i]
    {
      assert lines[1..][i] == CsvLine(rows[i]);
      RecordReads(header, rows[i]);
    }
    assert ReadRecords(HeaderNames(lines[0]), lines[1..]) == RecordsOf(header, rows);
  }
}

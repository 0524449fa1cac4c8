/** What the canonical text is hashed and compared for: frames, freeze records and schema sections. */
module FrozenHashes {
  import opened Common
  import opened JsText
  import opened CanonicalJson
  import opened CanonicalOrder
  import opened Sorting

  // ------------------------------------------------------------------
  // Schema sections
  // ------------------------------------------------------------------

  datatype Section = Relations | Columns | Constraints | Indexes | Triggers | Functions | Sequences | UserTypes

  const SECTIONS: seq<Section> := [Relations, Columns, Constraints, Indexes, Triggers, Functions, Sequences, UserTypes]

  function SchemaKey(s: Section): Text {
    match s
    case Columns => Ascii("table_schema")
    case Indexes => Ascii("schemaname")
    case Sequences => Ascii("sequence_schema")
    case _ => Ascii("schema_name")
  }

  function Field(ms: seq<Member>, key: Text): Option<Json> {
    if ms == [] then None else if ms[0].key == key then Some(ms[0].value) else Field(ms[1..], key)
  }

  predicate InProject(row: Json, key: Text) {
    row.Obj? && Field(row.members, key) in {Some(Str(Ascii("clean"))), Some(Str(Ascii("public")))}
  }

  function OnlyProjectRows(rows: seq<Json>, key: Text): (r: seq<Json>)
    ensures forall x :: x in r <==> x in rows && InProject(x, key)
  {
    if rows == [] then []
    else (if InProject(rows[0], key) then [rows[0]] else []) + OnlyProjectRows(rows[1..], key)
  }

  type Inventory = map<Section, seq<Json>>

  ghost predicate ReadableInventory(inv: Inventory) {
    forall s, x :: s in inv && x in inv[s] ==> WellFormed(x)
  }

  function ProjectRows(inv: Inventory, s: Section): seq<Json> {
    OnlyProjectRows(if s in inv then inv[s] else [], SchemaKey(s))
  }

  /** The same project rows, in the same order, each up to its key order. */
  predicate SectionMatches(live: Inventory, rebuilt: Inventory, s: Section) {
    Same(Arr(ProjectRows(live, s)), Arr(ProjectRows(rebuilt, s)))
  }

  lemma SectionTextDecides(live: Inventory, rebuilt: Inventory, s: Section)
    requires ReadableInventory(live) && ReadableInventory(rebuilt)
    ensures Stable(Arr(ProjectRows(live, s))) == Stable(Arr(ProjectRows(rebuilt, s))) <==>
        SectionMatches(live, rebuilt, s)
  {
    StableIsCanonical(Arr(ProjectRows(live, s)));
    StableIsCanonical(Arr(ProjectRows(rebuilt, s)));
    CanonicalDecides(Arr(ProjectRows(live, s)), Arr(ProjectRows(rebuilt, s)));
  }

  /** The comparison loop: the sections reported are exactly those whose rows differ. */
  method CompareSections(live: Inventory, rebuilt: Inventory) returns (mismatched: seq<Section>)
    requires ReadableInventory(live) && ReadableInventory(rebuilt)
    ensures forall s :: s in mismatched <==> !SectionMatches(live, rebuilt, s)
  {
    mismatched := [];
    for i := 0 to |SECTIONS|
      invariant forall s :: s in mismatched <==> s in SECTIONS[..i] && !SectionMatches(live, rebuilt, s)
    {
      var s := SECTIONS[i];
      var a := Stable(Arr(ProjectRows(live, s)));
      var b := Stable(Arr(ProjectRows(rebuilt, s)));
      SectionTextDecides(live, rebuilt, s);
      if a != b { mismatched := mismatched + [s]; }
      assert SECTIONS[..i + 1] == SECTIONS[..i] + [s];
    }
    forall s: Section ensures s in SECTIONS { EverySectionListed(s); }
    assert SECTIONS[..|SECTIONS|] == SECTIONS;
  }

  lemma EverySectionListed(s: Section)
    ensures s in SECTIONS
  {
    match s
    case Relations => assert SECTIONS[0] == s;
    case Columns => assert SECTIONS[1] == s;
    case Constraints => assert SECTIONS[2] == s;
    case Indexes => assert SECTIONS[3] == s;
    case Triggers => assert SECTIONS[4] == s;
    case Functions => assert SECTIONS[5] == s;
    case Sequences => assert SECTIONS[6] == s;
    case UserTypes => assert SECTIONS[7] == s;
  }

  /** The column that names the schema, section by section, and the two schemas of the project. */
  predicate ProjectRow(s: Section, x: Json) {
    && x.Obj?
    && var schema := Field(x.members, Ascii(
         if s == Columns then "table_schema" else if s == Indexes then "schemaname"
         else if s == Sequences then "sequence_schema" else "schema_name"));
    schema == Some(Str(Ascii("clean"))) || schema == Some(Str(Ascii("public")))
  }

  lemma ProjectRowMeans(s: Section, x: Json)
    ensures InProject(x, SchemaKey(s)) <==> ProjectRow(s, x)
  { }

  predicate Listed(inv: Inventory, s: Section, x: Json) { s in inv && x in inv[s] && ProjectRow(s, x) }

  /** A project row that the other side does not have, in whatever key order, makes its section differ. */
  lemma OneSidedRowDiffers(live: Inventory, rebuilt: Inventory, s: Section, x: Json)
    requires Listed(live, s, x) && forall y :: Listed(rebuilt, s, y) ==> !Same(x, y)
    ensures !SectionMatches(live, rebuilt, s)
  {
    hide ProjectRow, InProject, SchemaKey;
    ProjectRowMeans(s, x);
    var a, b := ProjectRows(live, s), ProjectRows(rebuilt, s);
    var i :| 0 <= i < |a| && a[i] == x;
    if i < |b| {
      ProjectRowMeans(s, b[i]);
      assert b[i] in b && Listed(rebuilt, s, b[i]);
    }
  }

  /** Rows of other schemas are ignored wherever they stand. */
  lemma {:induction false} OthersIgnored(before: seq<Json>, x: Json, after: seq<Json>, s: Section)
    requires !ProjectRow(s, x)
    ensures OnlyProjectRows(before + [x] + after, SchemaKey(s)) == OnlyProjectRows(before + after, SchemaKey(s))
  {
    hide ProjectRow, InProject, SchemaKey;
    ProjectRowMeans(s, x);
    if before == [] {
      assert before + [x] + after == [x] + after && before + after == after;
    } else {
      assert (before + [x] + after)[1..] == before[1..] + [x] + after && (before + after)[1..] == before[1..] + after;
      OthersIgnored(before[1..], x, after, s);
    }
  }

  // ------------------------------------------------------------------
  // Frames
  // ------------------------------------------------------------------

  /** The hashed fields of a frame row; numbers by their text. */
  datatype FrameRow = FrameRow(icao: Text, tier: Text, tierSource: Text, tierVerified: bool,
                               trafficPrior: Text, trafficMetric: Option<Text>,
                               region: Option<Text>, regionSource: Option<Text>, exclusionReason: Option<Text>,
                               feedSchedule: bool, feedLive: bool, feedAdsb: bool,
                               preEligible: bool, postEligible: bool)

  const FRAME_KEYS: seq<string> := [
    "icao", "tier", "tier_source", "tier_verified", "traffic_prior", "traffic_metric_value", "region", "region_source",
    "exclusion_reason", "feed_schedule", "feed_live", "feed_adsb", "pre_eligible", "post_eligible"]

  function OrNull(t: Option<Text>): Json { if t.None? then Null else Str(t.value) }
  function NumOrNull(t: Option<Text>): Json { if t.None? then Null else Num(t.value) }

  function FrameCells(r: FrameRow): (cells: seq<Json>)
    ensures |cells| == |FRAME_KEYS| && forall i :: 0 <= i < |cells| ==> !cells[i].Arr? && !cells[i].Obj?
  {
    [Str(r.icao), Str(r.tier), Str(r.tierSource), Bool(r.tierVerified), Num(r.trafficPrior), NumOrNull(r.trafficMetric),
     OrNull(r.region), OrNull(r.regionSource), OrNull(r.exclusionReason), Bool(r.feedSchedule), Bool(r.feedLive),
     Bool(r.feedAdsb), Bool(r.preEligible), Bool(r.postEligible)]
  }

  predicate Differ(a: string, b: string) {
    |a| != |b| || (|a| > 1 && (a[0] != b[0] || a[1] != b[1])) || (|a| > 5 && a[5] != b[5])
  }

  lemma FrameKeysDistinct(i: int, j: int)
    requires 0 <= i < j < |FRAME_KEYS|
    ensures FRAME_KEYS[i] != FRAME_KEYS[j]
  {
    assert Differ(FRAME_KEYS[i], FRAME_KEYS[j]);
  }

  lemma AsciiInjective(a: string, b: string)
    requires (forall i :: 0 <= i < |a| ==> a[i] as int < 128) && (forall i :: 0 <= i < |b| ==> b[i] as int < 128)
    requires Ascii(a) == Ascii(b)
    ensures a == b
  {
    forall i | 0 <= i < |a| ensures a[i] == b[i] { assert Ascii(a)[i] == Ascii(b)[i]; }
  }

  function FrameKey(i: nat): Text
    requires i < |FRAME_KEYS|
  {
    FrameKeyIsAscii(i);
    Ascii(FRAME_KEYS[i])
  }

  lemma FrameKeyIsAscii(i: nat)
    requires i < |FRAME_KEYS|
    ensures forall k :: 0 <= k < |FRAME_KEYS[i]| ==> FRAME_KEYS[i][k] as int < 128
  { }

  /** The object hashed for one row. */
  function FrameObject(r: FrameRow): Json {
    Obj(seq(|FRAME_KEYS|, i requires 0 <= i < |FRAME_KEYS| => Member(FrameKey(i), FrameCells(r)[i])))
  }

  predicate IsNumber(t: Text) { WellFormed(Num(t)) }

  predicate FrameRowOk(r: FrameRow) {
    IsNumber(r.trafficPrior) && (r.trafficMetric.Some? ==> IsNumber(r.trafficMetric.value))
  }

  lemma FrameMembersDistinct(r: FrameRow, q: FrameRow, i: nat, j: nat)
    requires i < |FRAME_KEYS| && j < |FRAME_KEYS| && FrameObject(r).members[i].key == FrameObject(q).members[j].key
    ensures i == j
  {
    FrameKeyIsAscii(i);
    FrameKeyIsAscii(j);
    AsciiInjective(FRAME_KEYS[i], FRAME_KEYS[j]);
    if i < j { FrameKeysDistinct(i, j); }
    if j < i { FrameKeysDistinct(j, i); }
  }

  lemma FrameObjectOk(r: FrameRow)
    requires FrameRowOk(r)
    ensures WellFormed(FrameObject(r))
  {
    var ms := FrameObject(r).members;
    forall i, j | 0 <= i < j < |ms| ensures ms[i].key != ms[j].key {
      if ms[i].key == ms[j].key { FrameMembersDistinct(r, r, i, j); }
    }
    forall i | 0 <= i < |ms| ensures WellFormed(ms[i].value) { CellOk(r, i); }
  }

  lemma CellOk(r: FrameRow, i: nat)
    requires FrameRowOk(r) && i < |FRAME_KEYS|
    ensures WellFormed(FrameCells(r)[i])
  { }

  lemma CellsInjective(r: FrameRow, q: FrameRow)
    requires FrameCells(r) == FrameCells(q)
    ensures r == q
  {
    assert forall i :: 0 <= i < |FRAME_KEYS| ==> FrameCells(r)[i] == FrameCells(q)[i];
  }

  /** The hashed object determines the row. */
  lemma FrameObjectDecides(r: FrameRow, q: FrameRow)
    ensures Same(FrameObject(r), FrameObject(q)) <==> r == q
  {
    var ms, ns := FrameObject(r).members, FrameObject(q).members;
    if Same(FrameObject(r), FrameObject(q)) {
      forall i | 0 <= i < |FRAME_KEYS| ensures FrameCells(r)[i] == FrameCells(q)[i] {
        assert Matched(ms[i], ns);
        var j :| 0 <= j < |ns| && ns[j].key == ms[i].key && Same(ms[i].value, ns[j].value);
        FrameMembersDistinct(r, q, i, j);
      }
      CellsInjective(r, q);
    }
    if r == q {
      forall i | 0 <= i < |ms| ensures Matched(ms[i], ns) { assert Same(ms[i].value, ns[i].value); }
    }
  }

  /** The object has this value under this name. */
  ghost predicate Named(v: Json, name: string, x: Json) {
    v.Obj? && (forall k :: 0 <= k < |name| ==> name[k] as int < 128) && Field(v.members, Ascii(name)) == Some(x)
  }

  lemma FrameColumn(r: FrameRow, i: nat)
    requires FrameRowOk(r) && i < |FRAME_KEYS|
    ensures Named(FrameObject(r), FRAME_KEYS[i], FrameCells(r)[i])
  {
    hide Ascii, FrameCells;
    FrameKeyIsAscii(i);
    FrameObjectOk(r);
    var ms := FrameObject(r).members;
    FieldIs(ms, FrameKey(i), ms[i]);
  }

  /** What is hashed of a row, column by column. */
  lemma FrameFields(r: FrameRow)
    requires FrameRowOk(r)
    ensures var v := FrameObject(r);
      && Named(v, "icao", Str(r.icao)) && Named(v, "tier", Str(r.tier)) && Named(v, "tier_source", Str(r.tierSource))
      && Named(v, "tier_verified", Bool(r.tierVerified)) && Named(v, "traffic_prior", Num(r.trafficPrior))
      && Named(v, "traffic_metric_value", if r.trafficMetric == None then Null else Num(r.trafficMetric.value))
      && Named(v, "region", if r.region == None then Null else Str(r.region.value))
      && Named(v, "region_source", if r.regionSource == None then Null else Str(r.regionSource.value))
      && Named(v, "exclusion_reason", if r.exclusionReason == None then Null else Str(r.exclusionReason.value))
      && Named(v, "feed_schedule", Bool(r.feedSchedule)) && Named(v, "feed_live", Bool(r.feedLive))
      && Named(v, "feed_adsb", Bool(r.feedAdsb)) && Named(v, "pre_eligible", Bool(r.preEligible))
      && Named(v, "post_eligible", Bool(r.postEligible)) && |v.members| == 14
  {
    hide Named, FrameRowOk;
    FrameColumn(r, 0);
    FrameColumn(r, 1);
    FrameColumn(r, 2);
    FrameColumn(r, 3);
    FrameColumn(r, 4);
    FrameColumn(r, 5);
    FrameColumn(r, 6);
    FrameColumn(r, 7);
    FrameColumn(r, 8);
    FrameColumn(r, 9);
    FrameColumn(r, 10);
    FrameColumn(r, 11);
    FrameColumn(r, 12);
    FrameColumn(r, 13);
  }

  function FrameObjects(rows: seq<FrameRow>): (r: seq<Json>)
    ensures |r| == |rows| && forall i :: 0 <= i < |r| ==> r[i] == FrameObject(rows[i])
  {
    if rows == [] then [] else [FrameObject(rows[0])] + FrameObjects(rows[1..])
  }

  /** The text frameHash digests; `before` is localeCompare on the ICAO codes. */
  function FrameText(rows: seq<FrameRow>, before: (FrameRow, FrameRow) -> bool): Text {
    Canonical(Arr(FrameObjects(Sort(before, rows))))
  }

  /** Row order never matters to the frame text, and everything else does. */
  lemma FrameTextDecides(rows: seq<FrameRow>, others: seq<FrameRow>, before: (FrameRow, FrameRow) -> bool)
    requires Ordering(before) && NoTies(before, rows)
    requires (forall r :: r in rows ==> FrameRowOk(r)) && (forall r :: r in others ==> FrameRowOk(r))
    ensures FrameText(rows, before) == FrameText(others, before) <==> multiset(rows) == multiset(others)
  {
    var a, b := Sort(before, rows), Sort(before, others);
    SortHolds(before, rows);
    SortHolds(before, others);
    SortedRowsOk(rows, a);
    SortedRowsOk(others, b);
    CanonicalDecides(Arr(FrameObjects(a)), Arr(FrameObjects(b)));
    ListsDecide(a, b);
    if multiset(rows) == multiset(others) { SortOfPermutation(before, rows, others); }
  }

  lemma SortedRowsOk(rows: seq<FrameRow>, sorted: seq<FrameRow>)
    requires multiset(rows) == multiset(sorted) && forall r :: r in rows ==> FrameRowOk(r)
    ensures WellFormed(Arr(FrameObjects(sorted)))
  {
    forall i | 0 <= i < |sorted| ensures WellFormed(FrameObjects(sorted)[i]) {
      SameElements(rows, sorted, sorted[i]);
      FrameObjectOk(sorted[i]);
    }
  }

  lemma ListsDecide(a: seq<FrameRow>, b: seq<FrameRow>)
    ensures Same(Arr(FrameObjects(a)), Arr(FrameObjects(b))) <==> a == b
  {
    forall i | 0 <= i < |a| && i < |b| ensures Same(FrameObjects(a)[i], FrameObjects(b)[i]) <==> a[i] == b[i] {
      FrameObjectDecides(a[i], b[i]);
    }
  }

  // ------------------------------------------------------------------
  // The reference freeze record
  // ------------------------------------------------------------------

  const SCHEMA_KEY: Text := Ascii("schema_version")
  const STATUS_KEY: Text := Ascii("status")
  const FROZEN_KEY: Text := Ascii("frozen_at_utc")
  const ARTIFACT_KEY: Text := Ascii("artifact_sha256")

  const SCHEMA_VALUE: Json := Str(Ascii("v3.9-reference-freeze-1"))
  const STATUS_VALUE: Json := Str(Ascii("READY_FROZEN_REFERENCE"))

  /** unsignedReference: the record without its own hash. */
  function Unsigned(ms: seq<Member>): seq<Member> {
    if ms == [] then [] else (if ms[0].key == ARTIFACT_KEY then [] else [ms[0]]) + Unsigned(ms[1..])
  }

  lemma {:induction false} UnsignedHas(ms: seq<Member>)
    ensures forall m :: m in Unsigned(ms) <==> m in ms && m.key != ARTIFACT_KEY
  {
    hide Ascii;
    if ms != [] { UnsignedHas(ms[1..]); }
  }

  /** SHA-256 in hexadecimal, taken to be free of collisions. */
  ghost predicate CollisionFree(sha: Text -> Text) {
    forall a, b :: sha(a) == sha(b) ==> a == b
  }

  /** The constant and dated fields every record must have. */
  predicate HeaderOk(ms: seq<Member>, dated: Json -> bool) {
    && Field(ms, SCHEMA_KEY) == Some(SCHEMA_VALUE)
    && Field(ms, STATUS_KEY) == Some(STATUS_VALUE)
    && Field(ms, FROZEN_KEY).Some? && dated(Field(ms, FROZEN_KEY).value)
  }

  /** verifyReferenceFreeze; `dated` says that a value parses as a date, `isSha` is the hexadecimal pattern. */
  predicate Verifies(record: Json, sha: Text -> Text, isSha: Text -> bool, dated: Json -> bool) {
    && record.Obj? && HeaderOk(record.members, dated)
    && var artifact := Field(record.members, ARTIFACT_KEY);
    && artifact.Some? && artifact.value.Str? && isSha(artifact.value.s)
    && sha(Canonical(Obj(Unsigned(record.members)))) == artifact.value.s
  }

  /** What makes a record verify, in its fields. */
  lemma VerifiesMeans(record: Json, sha: Text -> Text, isSha: Text -> bool, dated: Json -> bool)
    ensures Verifies(record, sha, isSha, dated) <==>
      && record.Obj?
      && var f := (key: Text) => Field(record.members, key);
      && f(Ascii("schema_version")) == Some(Str(Ascii("v3.9-reference-freeze-1")))
      && f(Ascii("status")) == Some(Str(Ascii("READY_FROZEN_REFERENCE")))
      && f(Ascii("frozen_at_utc")).Some? && dated(f(Ascii("frozen_at_utc")).value)
      && f(Ascii("artifact_sha256")).Some? && f(Ascii("artifact_sha256")).value.Str?
      && isSha(f(Ascii("artifact_sha256")).value.s)
      && f(Ascii("artifact_sha256")).value.s ==
           sha(Canonical(Obj(Others(record.members, Ascii("artifact_sha256")))))
  {
    if record.Obj? { UnsignedIsOthers(record.members); }
  }

  /** The members under every other key. */
  function Others(ms: seq<Member>, key: Text): seq<Member> {
    if ms == [] then []
    else if ms[|ms| - 1].key == key then Others(ms[..|ms| - 1], key)
    else Others(ms[..|ms| - 1], key) + [ms[|ms| - 1]]
  }

  lemma {:induction false} UnsignedIsOthers(ms: seq<Member>)
    ensures Unsigned(ms) == Others(ms, ARTIFACT_KEY)
  {
    hide Ascii;
    if ms != [] {
      var front, last := ms[..|ms| - 1], ms[|ms| - 1];
      UnsignedIsOthers(front);
      UnsignedConcat(front, [last]);
      assert ms == front + [last];
      assert Unsigned([last]) == if last.key == ARTIFACT_KEY then [] else [last];
    }
  }

  lemma {:induction false} UnsignedConcat(ms: seq<Member>, ns: seq<Member>)
    ensures Unsigned(ms + ns) == Unsigned(ms) + Unsigned(ns)
  {
    hide Ascii;
    if ms == [] {
      assert ms + ns == ns;
    } else {
      var all, rest := ms + ns, ms[1..];
      assert all[0] == ms[0] && all[1..] == rest + ns;
      var head := if ms[0].key == ARTIFACT_KEY then [] else [ms[0]];
      assert Unsigned(all) == head + Unsigned(rest + ns);
      UnsignedConcat(rest, ns);
      assert head + (Unsigned(rest) + Unsigned(ns)) == (head + Unsigned(rest)) + Unsigned(ns);
    }
  }

  lemma {:induction false} FieldIs(ms: seq<Member>, key: Text, m: Member)
    requires DistinctKeys(ms) && m in ms && m.key == key
    ensures Field(ms, key) == Some(m.value)
  {
    if m != ms[0] { FieldIs(ms[1..], key, m); }
  }

  lemma {:induction false} FieldFound(ms: seq<Member>, key: Text)
    ensures Field(ms, key).Some? ==> Member(key, Field(ms, key).value) in ms
    ensures Field(ms, key).None? ==> forall m :: m in ms ==> m.key != key
  {
    if ms != [] && ms[0].key != key { FieldFound(ms[1..], key); }
  }

  lemma {:induction false} UnsignedDistinct(ms: seq<Member>)
    requires DistinctKeys(ms)
    ensures DistinctKeys(Unsigned(ms))
  {
    if ms != [] {
      UnsignedDistinct(ms[1..]);
      UnsignedHas(ms[1..]);
      forall m | m in Unsigned(ms[1..]) ensures m.key != ms[0].key { }
    }
  }

  lemma UnsignedOk(ms: seq<Member>)
    requires WellFormed(Obj(ms))
    ensures WellFormed(Obj(Unsigned(ms)))
  {
    UnsignedDistinct(ms);
    UnsignedHas(ms);
    var us := Unsigned(ms);
    forall i | 0 <= i < |us| ensures WellFormed(us[i].value) { assert us[i] in ms; }
  }

  lemma UnsignedField(ms: seq<Member>, key: Text)
    requires DistinctKeys(ms) && key != ARTIFACT_KEY
    ensures Field(Unsigned(ms), key) == Field(ms, key)
  {
    UnsignedDistinct(ms);
    UnsignedHas(ms);
    FieldFound(ms, key);
    FieldFound(Unsigned(ms), key);
    if Field(ms, key).Some? { FieldIs(Unsigned(ms), key, Member(key, Field(ms, key).value)); }
  }

  /** Same objects have the same fields. */
  lemma SameField(ms: seq<Member>, ns: seq<Member>, key: Text)
    requires WellFormed(Obj(ms)) && WellFormed(Obj(ns)) && Same(Obj(ms), Obj(ns)) && Field(ms, key).Some?
    ensures Field(ns, key).Some? && Same(Field(ms, key).value, Field(ns, key).value)
  {
    FieldFound(ms, key);
    var m := Member(key, Field(ms, key).value);
    assert Matched(m, ns);
    var j :| 0 <= j < |ns| && ns[j].key == m.key && Same(m.value, ns[j].value);
    FieldIs(ns, key, ns[j]);
  }

  lemma OtherKeysDiffer()
    ensures SCHEMA_KEY != ARTIFACT_KEY && STATUS_KEY != ARTIFACT_KEY && FROZEN_KEY != ARTIFACT_KEY
  {
    assert |SCHEMA_KEY| == 14 && |STATUS_KEY| == 6 && |FROZEN_KEY| == 13 && |ARTIFACT_KEY| == 15;
  }

  /**
   A record carrying the hash of a verified one verifies exactly when it says
   the same, up to key order: no field can be altered, added or dropped.
   */
  lemma SameHashVerifiesSameContent(record: Json, other: Json, sha: Text -> Text, isSha: Text -> bool,
      dated: Json -> bool)
    requires CollisionFree(sha) && WellFormed(record) && WellFormed(other) && other.Obj?
    requires forall v, w :: Same(v, w) ==> dated(v) == dated(w)
    requires Verifies(record, sha, isSha, dated)
    requires Field(other.members, ARTIFACT_KEY) == Field(record.members, ARTIFACT_KEY)
    ensures Verifies(other, sha, isSha, dated) <==> Same(Obj(Unsigned(record.members)), Obj(Unsigned(other.members)))
  {
    var ms, ns := record.members, other.members;
    UnsignedOk(ms);
    UnsignedOk(ns);
    CanonicalDecides(Obj(Unsigned(ms)), Obj(Unsigned(ns)));
    if Same(Obj(Unsigned(ms)), Obj(Unsigned(ns))) { HeaderCarriesOver(ms, ns, dated); }
  }

  lemma HeaderCarriesOver(ms: seq<Member>, ns: seq<Member>, dated: Json -> bool)
    requires WellFormed(Obj(ms)) && WellFormed(Obj(ns)) && Same(Obj(Unsigned(ms)), Obj(Unsigned(ns)))
    requires forall v, w :: Same(v, w) ==> dated(v) == dated(w)
    requires HeaderOk(ms, dated)
    ensures HeaderOk(ns, dated)
  {
    OtherKeysDiffer();
    assert Field(ns, SCHEMA_KEY) == Some(SCHEMA_VALUE) by { ConstantCarriesOver(ms, ns, SCHEMA_KEY, SCHEMA_VALUE); }
    assert Field(ns, STATUS_KEY) == Some(STATUS_VALUE) by { ConstantCarriesOver(ms, ns, STATUS_KEY, STATUS_VALUE); }
    FieldCarriesOver(ms, ns, FROZEN_KEY);
  }

  lemma ConstantCarriesOver(ms: seq<Member>, ns: seq<Member>, key: Text, v: Json)
    requires WellFormed(Obj(ms)) && WellFormed(Obj(ns)) && Same(Obj(Unsigned(ms)), Obj(Unsigned(ns)))
    requires key != ARTIFACT_KEY && v.Str? && Field(ms, key) == Some(v)
    ensures Field(ns, key) == Some(v)
  {
    FieldCarriesOver(ms, ns, key);
  }

  lemma FieldCarriesOver(ms: seq<Member>, ns: seq<Member>, key: Text)
    requires WellFormed(Obj(ms)) && WellFormed(Obj(ns)) && Same(Obj(Unsigned(ms)), Obj(Unsigned(ns)))
    requires key != ARTIFACT_KEY && Field(ms, key).Some?
    ensures Field(ns, key).Some? && Same(Field(ms, key).value, Field(ns, key).value)
  {
    UnsignedOk(ms);
    UnsignedOk(ns);
    UnsignedField(ms, key);
    UnsignedField(ns, key);
    SameField(Unsigned(ms), Unsigned(ns), key);
  }

  function Signed(base: seq<Member>, sha: Text -> Text): seq<Member> {
    base + [Member(ARTIFACT_KEY, Str(sha(Canonical(Obj(base)))))]
  }

  lemma {:induction false} AppendedField(base: seq<Member>, last: Member, key: Text)
    requires forall m :: m in base ==> m.key != last.key
    ensures Field(base + [last], key) == if key == last.key then Some(last.value) else Field(base, key)
  {
    if base != [] {
      AppendedField(base[1..], last, key);
      assert (base + [last])[1..] == base[1..] + [last];
    }
  }

  lemma {:induction false} UnsignedOfSigned(base: seq<Member>, last: Member)
    requires last.key == ARTIFACT_KEY && forall m :: m in base ==> m.key != ARTIFACT_KEY
    ensures Unsigned(base + [last]) == base
  {
    if base != [] {
      UnsignedOfSigned(base[1..], last);
      assert (base + [last])[1..] == base[1..] + [last];
    }
  }

  lemma SignedVerifies(base: seq<Member>, sha: Text -> Text, isSha: Text -> bool, dated: Json -> bool)
    requires HeaderOk(base, dated) && (forall m :: m in base ==> m.key != ARTIFACT_KEY) && (forall t :: isSha(sha(t)))
    ensures Verifies(Obj(Signed(base, sha)), sha, isSha, dated) && Unsigned(Signed(base, sha)) == base
  {
    var last := Member(ARTIFACT_KEY, Str(sha(Canonical(Obj(base)))));
    OtherKeysDiffer();
    UnsignedOfSigned(base, last);
    AppendedField(base, last, SCHEMA_KEY);
    AppendedField(base, last, STATUS_KEY);
    AppendedField(base, last, FROZEN_KEY);
    AppendedField(base, last, ARTIFACT_KEY);
  }
}

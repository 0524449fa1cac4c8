/** The write-once reference freeze record: which inputs it pins, and when a second freeze accepts it. */
module ReferenceFreeze {
  import opened Common
  import opened JsText
  import opened CanonicalJson
  import opened CanonicalOrder
  import opened FrozenHashes

  const PLAN_KEY: Text := Ascii("plan_sha256")
  const PREREQUISITE_KEY: Text := Ascii("prerequisite_p_artifact_sha256")
  const GATE1_KEY: Text := Ascii("gate1_artifact_sha256")
  const TRAFFIC_ARTIFACT_KEY: Text := Ascii("traffic_reference_artifact_sha256")
  const TRAFFIC_RAW_KEY: Text := Ascii("traffic_reference_raw_sha256")
  const TIER_HASH_KEY: Text := Ascii("traffic_tier_hash")
  const SOURCE_NAME_KEY: Text := Ascii("traffic_source_name")
  const SOURCE_VERSION_KEY: Text := Ascii("traffic_source_version")
  const RETRIEVAL_DATE_KEY: Text := Ascii("traffic_retrieval_date")
  const PERIOD_START_KEY: Text := Ascii("reference_period_start")
  const PERIOD_END_KEY: Text := Ascii("reference_period_end")
  const METRIC_NAME_KEY: Text := Ascii("traffic_metric_name")
  const METRIC_UNITS_KEY: Text := Ascii("traffic_metric_units")
  const HUB_CUT_KEY: Text := Ascii("hub_cut_metric")
  const TIER_CUT_RULE_KEY: Text := Ascii("tier_cut_rule")
  const REGION_VERSION_KEY: Text := Ascii("region_mapping_version")
  const REGION_HASH_KEY: Text := Ascii("region_mapping_hash")
  const REGION_SOURCE_KEY: Text := Ascii("region_mapping_source")
  const REGION_DATE_KEY: Text := Ascii("region_mapping_retrieval_date")

  /** A declared age limit as the reference file states it. */
  datatype MaxAge = Undeclared | Days(n: int) | NotAnInteger

  /**
   The frozen traffic reference. Its dates are given both as text and as the
   day they name; `quarterly` and `basisGiven` are read off the freshness basis.
   */
  datatype Traffic = Traffic(rawSha: Text, tierHash: Text, sourceName: Text, sourceVersion: Text,
                             retrievalDate: Text, retrievalDay: Option<int>,
                             periodStart: Text, periodEnd: Text, endDay: Option<int>,
                             metricName: Text, metricUnits: Text, hubCut: Text, tierCutRule: Text,
                             maxAge: MaxAge, quarterly: bool, basisGiven: bool)

  /** What loadInputs returns, with the region constants of the build. */
  datatype Inputs = Inputs(planSha: Text, prerequisiteSha: Text, gate1Sha: Text, trafficSha: Text, traffic: Traffic,
                           regionVersion: Text, regionHash: Text, regionSource: Text, regionDate: Text)

  // ------------------------------------------------------------------
  // Freshness
  // ------------------------------------------------------------------

  const MONTHLY_MAX: int := 30
  const QUARTERLY_MAX: int := 92

  function ClassMax(t: Traffic): int { if t.quarterly then QUARTERLY_MAX else MONTHLY_MAX }

  function AllowedAge(t: Traffic): int {
    if t.maxAge.Days? && t.maxAge.n > 0 then Min(ClassMax(t), t.maxAge.n) else ClassMax(t)
  }

  /** verifyTrafficReferenceFreshnessV39 at a freeze on the given day. */
  predicate Fresh(t: Traffic, day: int) {
    && (!t.maxAge.Undeclared? ==> t.maxAge.Days? && 1 <= t.maxAge.n <= ClassMax(t) && t.basisGiven)
    && t.endDay.Some? && t.retrievalDay.Some?
    && 0 <= day - t.endDay.value <= AllowedAge(t)
    && t.endDay.value <= t.retrievalDay.value <= day
  }

  /**
   Fresh means retrieved between the end of its period and the freeze, and no
   older than its declared age, or, undeclared, than thirty days for a monthly
   and ninety-two for a quarterly reference, which no declaration may exceed.
   */
  lemma FreshMeans(t: Traffic, day: int)
    ensures Fresh(t, day) <==>
      && t.endDay != None && t.retrievalDay != None
      && t.endDay.value <= t.retrievalDay.value <= day
      && match t.maxAge
         case Undeclared => day - t.endDay.value <= if t.quarterly then 92 else 30
         case Days(n) => t.basisGiven && 1 <= n <= (if t.quarterly then 92 else 30) && day - t.endDay.value <= n
         case NotAnInteger => false
  { }

  // ------------------------------------------------------------------
  // The record
  // ------------------------------------------------------------------

  /** The unsigned record frozen at the given time. */
  function Base(x: Inputs, at: Text): seq<Member> {
    var t := x.traffic;
    [Member(SCHEMA_KEY, SCHEMA_VALUE), Member(STATUS_KEY, STATUS_VALUE), Member(FROZEN_KEY, Str(at)),
     Member(PLAN_KEY, Str(x.planSha)), Member(PREREQUISITE_KEY, Str(x.prerequisiteSha)),
     Member(GATE1_KEY, Str(x.gate1Sha)), Member(TRAFFIC_ARTIFACT_KEY, Str(x.trafficSha)),
     Member(TRAFFIC_RAW_KEY, Str(t.rawSha)), Member(TIER_HASH_KEY, Str(t.tierHash)),
     Member(SOURCE_NAME_KEY, Str(t.sourceName)), Member(SOURCE_VERSION_KEY, Str(t.sourceVersion)),
     Member(RETRIEVAL_DATE_KEY, Str(t.retrievalDate)), Member(PERIOD_START_KEY, Str(t.periodStart)),
     Member(PERIOD_END_KEY, Str(t.periodEnd)), Member(METRIC_NAME_KEY, Str(t.metricName)),
     Member(METRIC_UNITS_KEY, Str(t.metricUnits)), Member(HUB_CUT_KEY, Num(t.hubCut)),
     Member(TIER_CUT_RULE_KEY, Str(t.tierCutRule)), Member(REGION_VERSION_KEY, Str(x.regionVersion)),
     Member(REGION_HASH_KEY, Str(x.regionHash)), Member(REGION_SOURCE_KEY, Str(x.regionSource)),
     Member(REGION_DATE_KEY, Str(x.regionDate))]
  }

  /** referenceMatchesCurrent: eight of the fields, by strict equality. */
  predicate Matches(ms: seq<Member>, x: Inputs) {
    && Field(ms, PLAN_KEY) == Some(Str(x.planSha))
    && Field(ms, PREREQUISITE_KEY) == Some(Str(x.prerequisiteSha))
    && Field(ms, GATE1_KEY) == Some(Str(x.gate1Sha))
    && Field(ms, TRAFFIC_ARTIFACT_KEY) == Some(Str(x.trafficSha))
    && Field(ms, TRAFFIC_RAW_KEY) == Some(Str(x.traffic.rawSha))
    && Field(ms, TIER_HASH_KEY) == Some(Str(x.traffic.tierHash))
    && Field(ms, REGION_VERSION_KEY) == Some(Str(x.regionVersion))
    && Field(ms, REGION_HASH_KEY) == Some(Str(x.regionHash))
  }

  /** Two runs whose inputs agree in everything the record is compared on. */
  predicate SamePins(x: Inputs, y: Inputs) {
    && x.planSha == y.planSha && x.prerequisiteSha == y.prerequisiteSha && x.gate1Sha == y.gate1Sha
    && x.trafficSha == y.trafficSha && x.traffic.rawSha == y.traffic.rawSha && x.traffic.tierHash == y.traffic.tierHash
    && x.regionVersion == y.regionVersion && x.regionHash == y.regionHash
  }

  /** The first entry with a key is the one found. */
  lemma {:induction false} FieldAt(ms: seq<Member>, i: nat)
    requires i < |ms| && forall j :: 0 <= j < i ==> ms[j].key != ms[i].key
    ensures Field(ms, ms[i].key) == Some(ms[i].value)
  {
    if i > 0 {
      assert ms[0].key != ms[i].key;
      FieldAt(ms[1..], i - 1);
    }
  }

  lemma KeyLengths()
    ensures |SCHEMA_KEY| == 14 && |STATUS_KEY| == 6 && |FROZEN_KEY| == 13 && |ARTIFACT_KEY| == 15
    ensures |PLAN_KEY| == 11 && |PREREQUISITE_KEY| == 30 && |GATE1_KEY| == 21 && |TRAFFIC_ARTIFACT_KEY| == 33
    ensures |TRAFFIC_RAW_KEY| == 28 && |TIER_HASH_KEY| == 17 && |SOURCE_NAME_KEY| == 19 && |SOURCE_VERSION_KEY| == 22
    ensures |RETRIEVAL_DATE_KEY| == 22 && |PERIOD_START_KEY| == 22 && |PERIOD_END_KEY| == 20 && |METRIC_NAME_KEY| == 19
    ensures |METRIC_UNITS_KEY| == 20 && |HUB_CUT_KEY| == 14 && |TIER_CUT_RULE_KEY| == 13 && |REGION_VERSION_KEY| == 22
    ensures |REGION_HASH_KEY| == 19 && |REGION_SOURCE_KEY| == 21 && |REGION_DATE_KEY| == 29
  { }

  /** Keys of one length differ in one of these letters. */
  predicate Apart(a: Text, b: Text) {
    |a| != |b| || (|a| > 8 && (a[0] != b[0] || a[2] != b[2] || a[8] != b[8]))
  }

  lemma KeysOfThirteen()
    ensures Apart(TIER_CUT_RULE_KEY, FROZEN_KEY)
  { }

  lemma KeysOfFourteen()
    ensures Apart(HUB_CUT_KEY, SCHEMA_KEY)
  { }

  lemma KeysOfNineteen()
    ensures Apart(METRIC_NAME_KEY, SOURCE_NAME_KEY)
    ensures Apart(REGION_HASH_KEY, SOURCE_NAME_KEY)
    ensures Apart(REGION_HASH_KEY, METRIC_NAME_KEY)
  { }

  lemma KeysOfTwenty()
    ensures Apart(METRIC_UNITS_KEY, PERIOD_END_KEY)
  { }

  lemma KeysOfTwentyOne()
    ensures Apart(REGION_SOURCE_KEY, GATE1_KEY)
  { }

  lemma KeysOfTwentyTwo()
    ensures Apart(RETRIEVAL_DATE_KEY, SOURCE_VERSION_KEY)
    ensures Apart(PERIOD_START_KEY, SOURCE_VERSION_KEY)
    ensures Apart(REGION_VERSION_KEY, SOURCE_VERSION_KEY)
    ensures Apart(PERIOD_START_KEY, RETRIEVAL_DATE_KEY)
    ensures Apart(REGION_VERSION_KEY, RETRIEVAL_DATE_KEY)
    ensures Apart(REGION_VERSION_KEY, PERIOD_START_KEY)
  { }

  const LENGTHS: seq<nat> := [14, 6, 13, 11, 30, 21, 33, 28, 17, 19, 22, 22, 22, 20, 19, 20, 14, 13, 22, 19, 21, 29]

  lemma BaseLength(x: Inputs, at: Text, i: nat)
    requires i < |LENGTHS|
    ensures |Base(x, at)| == |LENGTHS| && |Base(x, at)[i].key| == LENGTHS[i]
  {
    hide Ascii;
    KeyLengths();
  }

  lemma SameLengthApart(x: Inputs, at: Text, i: nat, j: nat)
    requires j < i < |LENGTHS| && LENGTHS[j] == LENGTHS[i]
    ensures i < |Base(x, at)| && Apart(Base(x, at)[i].key, Base(x, at)[j].key)
  {
    hide Ascii, Apart, Field;
    if LENGTHS[i] == 22 {
      LongestApart(x, at, i, j);
    } else if i >= 19 {
      assert i == 19 || i == 20;
      KeysOfNineteen();
      KeysOfTwentyOne();
    } else {
      KeysOfThirteen();
      KeysOfFourteen();
      KeysOfNineteen();
      KeysOfTwenty();
    }
  }

  lemma LongestApart(x: Inputs, at: Text, i: nat, j: nat)
    requires j < i < |LENGTHS| && LENGTHS[j] == LENGTHS[i] == 22
    ensures i < |Base(x, at)| && Apart(Base(x, at)[i].key, Base(x, at)[j].key)
  {
    hide Ascii, Apart, Field;
    KeysOfTwentyTwo();
  }

  lemma KeysApart(x: Inputs, at: Text, i: nat, j: nat)
    requires j < i < |LENGTHS|
    ensures i < |Base(x, at)| && Base(x, at)[j].key != Base(x, at)[i].key
  {
    hide Ascii, Base;
    BaseLength(x, at, i);
    BaseLength(x, at, j);
    if LENGTHS[j] == LENGTHS[i] { SameLengthApart(x, at, i, j); }
  }

  lemma BaseField(x: Inputs, at: Text, i: nat)
    requires i < |LENGTHS|
    ensures Field(Base(x, at), Base(x, at)[i].key) == Some(Base(x, at)[i].value)
  {
    forall j: nat | j < i ensures Base(x, at)[j].key != Base(x, at)[i].key { KeysApart(x, at, i, j); }
    FieldAt(Base(x, at), i);
  }

  lemma NothingSigned(x: Inputs, at: Text)
    ensures forall m :: m in Base(x, at) ==> m.key != ARTIFACT_KEY
  {
    KeyLengths();
    assert forall m :: m in Base(x, at) ==> |m.key| != 15;
  }

  // The record, name by name.

  lemma HeaderFields(x: Inputs, at: Text)
    ensures Field(Base(x, at), Ascii("schema_version")) == Some(Str(Ascii("v3.9-reference-freeze-1")))
    ensures Field(Base(x, at), Ascii("status")) == Some(Str(Ascii("READY_FROZEN_REFERENCE")))
    ensures Field(Base(x, at), Ascii("frozen_at_utc")) == Some(Str(at))
  {
    hide Ascii, Field;
    BaseField(x, at, 0);
    BaseField(x, at, 1);
    BaseField(x, at, 2);
  }

  lemma PinFields(x: Inputs, at: Text)
    ensures Field(Base(x, at), Ascii("plan_sha256")) == Some(Str(x.planSha))
    ensures Field(Base(x, at), Ascii("prerequisite_p_artifact_sha256")) == Some(Str(x.prerequisiteSha))
    ensures Field(Base(x, at), Ascii("gate1_artifact_sha256")) == Some(Str(x.gate1Sha))
    ensures Field(Base(x, at), Ascii("traffic_reference_artifact_sha256")) == Some(Str(x.trafficSha))
  {
    hide Ascii, Field;
    BaseField(x, at, 3);
    BaseField(x, at, 4);
    BaseField(x, at, 5);
    BaseField(x, at, 6);
  }

  lemma MorePinFields(x: Inputs, at: Text)
    ensures Field(Base(x, at), Ascii("traffic_reference_raw_sha256")) == Some(Str(x.traffic.rawSha))
    ensures Field(Base(x, at), Ascii("traffic_tier_hash")) == Some(Str(x.traffic.tierHash))
    ensures Field(Base(x, at), Ascii("region_mapping_version")) == Some(Str(x.regionVersion))
    ensures Field(Base(x, at), Ascii("region_mapping_hash")) == Some(Str(x.regionHash))
  {
    hide Ascii, Field;
    BaseField(x, at, 7);
    BaseField(x, at, 8);
    BaseField(x, at, 18);
    BaseField(x, at, 19);
  }

  lemma SourceFields(x: Inputs, at: Text)
    ensures Field(Base(x, at), Ascii("traffic_source_name")) == Some(Str(x.traffic.sourceName))
    ensures Field(Base(x, at), Ascii("traffic_source_version")) == Some(Str(x.traffic.sourceVersion))
    ensures Field(Base(x, at), Ascii("traffic_retrieval_date")) == Some(Str(x.traffic.retrievalDate))
    ensures Field(Base(x, at), Ascii("reference_period_start")) == Some(Str(x.traffic.periodStart))
    ensures Field(Base(x, at), Ascii("reference_period_end")) == Some(Str(x.traffic.periodEnd))
  {
    hide Ascii, Field;
    BaseField(x, at, 9);
    BaseField(x, at, 10);
    BaseField(x, at, 11);
    BaseField(x, at, 12);
    BaseField(x, at, 13);
  }

  lemma MetricFields(x: Inputs, at: Text)
    ensures Field(Base(x, at), Ascii("traffic_metric_name")) == Some(Str(x.traffic.metricName))
    ensures Field(Base(x, at), Ascii("traffic_metric_units")) == Some(Str(x.traffic.metricUnits))
    ensures Field(Base(x, at), Ascii("hub_cut_metric")) == Some(Num(x.traffic.hubCut))
    ensures Field(Base(x, at), Ascii("tier_cut_rule")) == Some(Str(x.traffic.tierCutRule))
  {
    hide Ascii, Field;
    BaseField(x, at, 14);
    BaseField(x, at, 15);
    BaseField(x, at, 16);
    BaseField(x, at, 17);
  }

  lemma RegionFields(x: Inputs, at: Text)
    ensures Field(Base(x, at), Ascii("region_mapping_source")) == Some(Str(x.regionSource))
    ensures Field(Base(x, at), Ascii("region_mapping_retrieval_date")) == Some(Str(x.regionDate))
  {
    hide Ascii, Field;
    BaseField(x, at, 20);
    BaseField(x, at, 21);
  }

  /** The record frozen from some inputs matches others exactly when they agree on the eight pins. */
  lemma MatchesSamePins(x: Inputs, at: Text, y: Inputs)
    ensures Matches(Base(x, at), y) <==> SamePins(x, y)
  {
    hide Field, Base, Ascii;
    PinFields(x, at);
    MorePinFields(x, at);
  }

  lemma BaseHeader(x: Inputs, at: Text, dated: Json -> bool)
    requires dated(Str(at))
    ensures HeaderOk(Base(x, at), dated)
  {
    BaseField(x, at, 0);
    BaseField(x, at, 1);
    BaseField(x, at, 2);
  }

  /** Signing adds a field nobody compares. */
  lemma SignedMatches(ms: seq<Member>, last: Member, y: Inputs)
    requires last.key == ARTIFACT_KEY && forall m :: m in ms ==> m.key != ARTIFACT_KEY
    ensures Matches(ms + [last], y) <==> Matches(ms, y)
  {
    KeyLengths();
    AppendedField(ms, last, PLAN_KEY);
    AppendedField(ms, last, PREREQUISITE_KEY);
    AppendedField(ms, last, GATE1_KEY);
    AppendedField(ms, last, TRAFFIC_ARTIFACT_KEY);
    AppendedField(ms, last, TRAFFIC_RAW_KEY);
    AppendedField(ms, last, TIER_HASH_KEY);
    AppendedField(ms, last, REGION_VERSION_KEY);
    AppendedField(ms, last, REGION_HASH_KEY);
  }

  /** A record another run may return: verified, of the same inputs, and frozen while they were fresh. */
  predicate Accepts(v: Json, x: Inputs, sha: Text -> Text, isSha: Text -> bool, day: Json -> Option<int>) {
    && Verifies(v, sha, isSha, w => day(w).Some?) && Matches(v.members, x)
    && Fresh(x.traffic, day(Field(v.members, FROZEN_KEY).value).value)
  }

  lemma FrozenDay(x: Inputs, at: Text, sha: Text -> Text)
    ensures Field(Signed(Base(x, at), sha), FROZEN_KEY) == Some(Str(at))
  {
    var last := Member(ARTIFACT_KEY, Str(sha(Canonical(Obj(Base(x, at))))));
    NothingSigned(x, at);
    OtherKeysDiffer();
    AppendedField(Base(x, at), last, FROZEN_KEY);
    BaseField(x, at, 2);
  }

  lemma FrozenVerifies(x: Inputs, at: Text, sha: Text -> Text, isSha: Text -> bool, dated: Json -> bool)
    requires dated(Str(at)) && forall t :: isSha(sha(t))
    ensures Verifies(Obj(Signed(Base(x, at), sha)), sha, isSha, dated) &&
        Unsigned(Signed(Base(x, at), sha)) == Base(x, at)
  {
    NothingSigned(x, at);
    BaseHeader(x, at, dated);
    SignedVerifies(Base(x, at), sha, isSha, dated);
  }

  /**
   Frozen from some inputs, the record is accepted for others exactly when they
   agree on the eight pins and their reference was fresh on the day it was frozen.
   */
  lemma AcceptedExactlyWithSamePins(x: Inputs, at: Text, y: Inputs, sha: Text -> Text, isSha: Text -> bool,
                                    day: Json -> Option<int>)
    requires day(Str(at)).Some? && forall t :: isSha(sha(t))
    ensures Accepts(Obj(Signed(Base(x, at), sha)), y, sha, isSha, day) <==>
              SamePins(x, y) && Fresh(y.traffic, day(Str(at)).value)
  {
    FrozenVerifies(x, at, sha, isSha, w => day(w).Some?);
    NothingSigned(x, at);
    SignedMatches(Base(x, at), Member(ARTIFACT_KEY, Str(sha(Canonical(Obj(Base(x, at)))))), y);
    MatchesSamePins(x, at, y);
    FrozenDay(x, at, sha);
  }

  // ------------------------------------------------------------------
  // The file
  // ------------------------------------------------------------------

  datatype File = Missing | Unreadable | Holds(value: Json)

  /** The record file, only ever opened for exclusive creation. */
  class FreezeFile {
    var file: File

    /**
     writeReferenceFreeze: None when it raises. `rival` is what another process
     creates between the existence check and the exclusive open, if anything.
     */
    method WriteReferenceFreeze(x: Inputs, at: Text, rival: File, sha: Text -> Text, isSha: Text -> bool,
                                day: Json -> Option<int>) returns (r: Option<Json>)
      requires day(Str(at)).Some? && forall t :: isSha(sha(t))
      modifies this
      ensures file == if !old(file).Missing? then old(file)
                      else if !rival.Missing? then rival
                      else if Fresh(x.traffic, day(Str(at)).value) then Holds(Obj(Signed(Base(x, at), sha)))
                      else Missing
      ensures r.Some? ==> file == Holds(r.value) && Accepts(r.value, x, sha, isSha, day)
      ensures r.Some? <==>
        if !old(file).Missing? then old(file).Holds? && Accepts(old(file).value, x, sha, isSha, day)
        else rival.Missing? && Fresh(x.traffic, day(Str(at)).value)
    {
      if !file.Missing? {
        if file.Unreadable? { return None; }
        var existing := file.value;
        if !Verifies(existing, sha, isSha, w => day(w).Some?) { return None; }
        if !Matches(existing.members, x) { return None; }
        if !Fresh(x.traffic, day(Field(existing.members, FROZEN_KEY).value).value) { return None; }
        return Some(existing);
      }
      file := rival;
      if !Fresh(x.traffic, day(Str(at)).value) { return None; }
      if !file.Missing? { return None; }
      AcceptedExactlyWithSamePins(x, at, x, sha, isSha, day);
      file := Holds(Obj(Signed(Base(x, at), sha)));
      return Some(file.value);
    }
  }
}

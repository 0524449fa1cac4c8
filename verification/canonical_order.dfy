/** `canonical` and `stable`: insensitive to key order, and to nothing else. */
module CanonicalOrder {
  import opened JsText
  import opened CanonicalJson
  import opened Sorting

  datatype Entry = Entry(key: Text, text: Text)

  predicate EntryLeq(a: Entry, b: Entry) { TextLeq(a.key, b.key) }
  predicate MemberLeq(a: Member, b: Member) { TextLeq(a.key, b.key) }

  function EntryTexts(es: seq<Entry>): seq<Text> {
    if es == [] then [] else [Quoted(es[0].key) + [COLON] + es[0].text] + EntryTexts(es[1..])
  }

  /** The printer of the frame and freeze scripts: scalars first, then arrays, then objects with their keys sorted. */
  function Canonical(v: Json): Text
    decreases v
  {
    if !v.Arr? && !v.Obj? then Scalar(v)
    else if v.Arr? then [LBRACKET] + Join(CanonicalItems(v.items)) + [RBRACKET]
    else [LBRACE] + Join(EntryTexts(Sort(EntryLeq, CanonicalEntries(v.members)))) + [RBRACE]
  }

  function CanonicalItems(items: seq<Json>): seq<Text>
    decreases items
  {
    if items == [] then [] else [Canonical(items[0])] + CanonicalItems(items[1..])
  }

  function CanonicalEntries(ms: seq<Member>): seq<Entry>
    decreases ms
  {
    if ms == [] then [] else [Entry(ms[0].key, Canonical(ms[0].value))] + CanonicalEntries(ms[1..])
  }

  /** The printer of the schema comparison: arrays first, then objects, then everything else. */
  function Stable(v: Json): Text
    decreases v
  {
    if v.Arr? then [LBRACKET] + Join(StableItems(v.items)) + [RBRACKET]
    else if v.Obj? then [LBRACE] + Join(EntryTexts(Sort(EntryLeq, StableEntries(v.members)))) + [RBRACE]
    else Scalar(v)
  }

  function StableItems(items: seq<Json>): seq<Text>
    decreases items
  {
    if items == [] then [] else [Stable(items[0])] + StableItems(items[1..])
  }

  function StableEntries(ms: seq<Member>): seq<Entry>
    decreases ms
  {
    if ms == [] then [] else [Entry(ms[0].key, Stable(ms[0].value))] + StableEntries(ms[1..])
  }

  lemma {:induction false} StableIsCanonical(v: Json)
    ensures Stable(v) == Canonical(v)
    decreases v
  {
    if v.Arr? { StableItemsAreCanonical(v.items); }
    if v.Obj? { StableEntriesAreCanonical(v.members); }
  }

  lemma {:induction false} StableItemsAreCanonical(items: seq<Json>)
    ensures StableItems(items) == CanonicalItems(items)
    decreases items
  {
    if items != [] {
      StableIsCanonical(items[0]);
      StableItemsAreCanonical(items[1..]);
    }
  }

  lemma {:induction false} StableEntriesAreCanonical(ms: seq<Member>)
    ensures StableEntries(ms) == CanonicalEntries(ms)
    decreases ms
  {
    if ms != [] {
      StableIsCanonical(ms[0].value);
      StableEntriesAreCanonical(ms[1..]);
    }
  }

  // ------------------------------------------------------------------
  // Sameness up to key order
  // ------------------------------------------------------------------

  /** Equal as JSON values: objects are equal when their members are, in whatever order. */
  predicate Same(v: Json, w: Json)
    decreases v
  {
    match v
    case Arr(s) => w.Arr? && |s| == |w.items| && forall i :: 0 <= i < |s| ==> Same(s[i], w.items[i])
    case Obj(ms) =>
      w.Obj? && |ms| == |w.members| && forall i :: 0 <= i < |ms| ==> Matched(ms[i], w.members)
    case _ => v == w
  }

  predicate Matched(m: Member, ns: seq<Member>)
    decreases m
  {
    exists j :: 0 <= j < |ns| && ns[j].key == m.key && Same(m.value, ns[j].value)
  }

  /** The value with the members of every object sorted by key. */
  function Normal(v: Json): Json
    decreases v
  {
    match v
    case Arr(items) => Arr(NormalItems(items))
    case Obj(ms) => Obj(Sort(MemberLeq, NormalMembers(ms)))
    case _ => v
  }

  function NormalItems(items: seq<Json>): (r: seq<Json>)
    ensures |r| == |items| && forall i :: 0 <= i < |r| ==> r[i] == Normal(items[i])
    decreases items
  {
    if items == [] then [] else [Normal(items[0])] + NormalItems(items[1..])
  }

  function NormalMembers(ms: seq<Member>): (r: seq<Member>)
    ensures |r| == |ms| && forall i :: 0 <= i < |r| ==> r[i] == Member(ms[i].key, Normal(ms[i].value))
    decreases ms
  {
    if ms == [] then [] else [Member(ms[0].key, Normal(ms[0].value))] + NormalMembers(ms[1..])
  }

  lemma KeyOrdering()
    ensures Ordering(MemberLeq)
  {
    forall a: Member, b: Member ensures MemberLeq(a, b) || MemberLeq(b, a) { TextLeqTotal(a.key, b.key); }
    forall a: Member, b: Member, c: Member | MemberLeq(a, b) && MemberLeq(b, c) ensures MemberLeq(a, c) {
      TextLeqTransitive(a.key, b.key, c.key);
    }
  }

  lemma DistinctKeysHaveNoTies(ms: seq<Member>)
    requires DistinctKeys(ms)
    ensures NoTies(MemberLeq, ms)
  {
    forall a, b | a in ms && b in ms && MemberLeq(a, b) && MemberLeq(b, a)
      ensures a == b
    {
      TextLeqTotal(a.key, b.key);
    }
  }

  // ------------------------------------------------------------------
  // Canonical text is the printed normal form
  // ------------------------------------------------------------------

  function EntryOf(m: Member): Entry { Entry(m.key, Print(m.value)) }

  function EntriesOf(ms: seq<Member>): seq<Entry> {
    if ms == [] then [] else [EntryOf(ms[0])] + EntriesOf(ms[1..])
  }

  lemma {:induction false} InsertCommutes(m: Member, ms: seq<Member>)
    ensures EntriesOf(Insert(MemberLeq, m, ms)) == Insert(EntryLeq, EntryOf(m), EntriesOf(ms))
  {
    if ms != [] && !MemberLeq(m, ms[0]) {
      InsertCommutes(m, ms[1..]);
      assert EntriesOf(ms)[1..] == EntriesOf(ms[1..]);
    } else {
      assert ([m] + ms)[1..] == ms;
    }
  }

  lemma {:induction false} SortCommutes(ms: seq<Member>)
    ensures EntriesOf(Sort(MemberLeq, ms)) == Sort(EntryLeq, EntriesOf(ms))
  {
    if ms != [] {
      SortCommutes(ms[1..]);
      InsertCommutes(ms[0], Sort(MemberLeq, ms[1..]));
      assert EntriesOf(ms)[1..] == EntriesOf(ms[1..]);
    }
  }

  lemma {:induction false} EntryTextsPrint(ms: seq<Member>)
    ensures EntryTexts(EntriesOf(ms)) == PrintMembers(ms)
  {
    if ms != [] {
      EntryTextsPrint(ms[1..]);
      assert EntriesOf(ms)[1..] == EntriesOf(ms[1..]);
    }
  }

  /** Canonical text is JSON.stringify of the sorted value. */
  lemma {:induction false} CanonicalIsPrint(v: Json)
    ensures Canonical(v) == Print(Normal(v))
    decreases v
  {
    if v.Arr? { ItemsArePrint(v.items); }
    if v.Obj? {
      EntriesArePrint(v.members);
      SortCommutes(NormalMembers(v.members));
      EntryTextsPrint(Sort(MemberLeq, NormalMembers(v.members)));
    }
  }

  lemma {:induction false} ItemsArePrint(items: seq<Json>)
    ensures CanonicalItems(items) == PrintItems(NormalItems(items))
    decreases items
  {
    if items != [] {
      CanonicalIsPrint(items[0]);
      ItemsArePrint(items[1..]);
      assert NormalItems(items)[1..] == NormalItems(items[1..]);
    }
  }

  lemma {:induction false} EntriesArePrint(ms: seq<Member>)
    ensures CanonicalEntries(ms) == EntriesOf(NormalMembers(ms))
    decreases ms
  {
    if ms != [] {
      CanonicalIsPrint(ms[0].value);
      EntriesArePrint(ms[1..]);
      assert NormalMembers(ms)[1..] == NormalMembers(ms[1..]);
    }
  }

  // ------------------------------------------------------------------
  // The normal form decides sameness
  // ------------------------------------------------------------------

  lemma SortedMembersHold(ms: seq<Member>)
    ensures multiset(Sort(MemberLeq, NormalMembers(ms))) == multiset(NormalMembers(ms))
    ensures |Sort(MemberLeq, NormalMembers(ms))| == |ms|
  {
    KeyOrdering();
    SortHolds(MemberLeq, NormalMembers(ms));
  }

  lemma {:induction false} NormalWellFormed(v: Json)
    requires WellFormed(v)
    ensures WellFormed(Normal(v))
    decreases v
  {
    if v.Arr? {
      forall i | 0 <= i < |v.items| ensures WellFormed(NormalItems(v.items)[i]) { NormalWellFormed(v.items[i]); }
    }
    if v.Obj? {
      var ms := v.members;
      var ns := Sort(MemberLeq, NormalMembers(ms));
      SortedMembersHold(ms);
      forall i | 0 <= i < |ns| ensures WellFormed(ns[i].value) {
        SameElements(ns, NormalMembers(ms), ns[i]);
        var k :| 0 <= k < |ms| && NormalMembers(ms)[k] == ns[i];
        NormalWellFormed(ms[k].value);
      }
      KeysStayDistinct(NormalMembers(ms), ns);
    }
  }

  lemma KeysStayDistinct(ms: seq<Member>, ns: seq<Member>)
    requires DistinctKeys(ms) && multiset(ms) == multiset(ns)
    ensures DistinctKeys(ns)
  {
    forall i, j | 0 <= i < j < |ns| ensures ns[i].key != ns[j].key {
      if ns[i].key == ns[j].key {
        SameElements(ms, ns, ns[i]);
        SameElements(ms, ns, ns[j]);
        Once(ms, ns[i]);
        Twice(ns, i, j);
      }
    }
  }

  lemma {:induction false} NormalDecides(v: Json, w: Json)
    requires WellFormed(v) && WellFormed(w)
    ensures Normal(v) == Normal(w) <==> Same(v, w)
    decreases v
  {
    if v.Arr? && w.Arr? {
      if |v.items| == |w.items| {
        forall i | 0 <= i < |v.items|
          ensures NormalItems(v.items)[i] == NormalItems(w.items)[i] <==> Same(v.items[i], w.items[i])
        {
          NormalDecides(v.items[i], w.items[i]);
        }
        if Same(v, w) { assert NormalItems(v.items) == NormalItems(w.items); }
      }
    } else if v.Obj? && w.Obj? {
      if Normal(v) == Normal(w) { NormalImpliesSame(v, w.members); }
      if Same(v, w) { SameImpliesNormal(v, w.members); }
    }
  }

  lemma {:induction false} MatchedIsNormal(m: Member, ns: seq<Member>)
    requires WellFormed(m.value) && WellFormed(Obj(ns))
    ensures Matched(m, ns) <==> Member(m.key, Normal(m.value)) in NormalMembers(ns)
    decreases m
  {
    var x := Member(m.key, Normal(m.value));
    forall j | 0 <= j < |ns| ensures NormalMembers(ns)[j] == x <==> ns[j].key == m.key && Same(m.value, ns[j].value) {
      NormalDecides(m.value, ns[j].value);
    }
  }

  lemma {:induction false} NormalImpliesSame(v: Json, ns: seq<Member>)
    requires v.Obj? && WellFormed(v) && WellFormed(Obj(ns)) && Normal(v) == Normal(Obj(ns))
    ensures Same(v, Obj(ns))
    decreases v, 0
  {
    var ms := v.members;
    SortedMembersHold(ms);
    SortedMembersHold(ns);
    forall i | 0 <= i < |ms| ensures Matched(ms[i], ns) {
      SameElements(NormalMembers(ms), NormalMembers(ns), NormalMembers(ms)[i]);
      MatchedIsNormal(ms[i], ns);
    }
  }

  lemma {:induction false} SameImpliesNormal(v: Json, ns: seq<Member>)
    requires v.Obj? && WellFormed(v) && WellFormed(Obj(ns)) && Same(v, Obj(ns))
    ensures Normal(v) == Normal(Obj(ns))
    decreases v, 0
  {
    var ms := v.members;
    hide Matched, Sort;
    var nm, nn := NormalMembers(ms), NormalMembers(ns);
    forall i | 0 <= i < |nm| ensures nm[i] in nn && multiset(nm)[nm[i]] == 1 {
      MatchedIsNormal(ms[i], ns);
      Once(nm, nm[i]);
    }
    NormalMembersAgree(nm, nn);
  }

  lemma NormalMembersAgree(nm: seq<Member>, nn: seq<Member>)
    requires |nm| == |nn| && DistinctKeys(nm)
    requires forall i :: 0 <= i < |nm| ==> nm[i] in nn && multiset(nm)[nm[i]] == 1
    ensures Sort(MemberLeq, nm) == Sort(MemberLeq, nn)
  {
    CoveredIsPermutation(nm, nn);
    KeyOrdering();
    DistinctKeysHaveNoTies(nm);
    SortOfPermutation(MemberLeq, nm, nn);
  }

  // ------------------------------------------------------------------
  // The results
  // ------------------------------------------------------------------

  /** Canonical texts are equal exactly when the values are the same up to key order. */
  lemma CanonicalDecides(v: Json, w: Json)
    requires WellFormed(v) && WellFormed(w)
    ensures Canonical(v) == Canonical(w) <==> Same(v, w)
  {
    CanonicalIsPrint(v);
    CanonicalIsPrint(w);
    NormalWellFormed(v);
    NormalWellFormed(w);
    PrintedReads(Normal(v));
    PrintedReads(Normal(w));
    NormalDecides(v, w);
  }

  /** Reading a canonical text gives the value back, up to key order. */
  lemma CanonicalReads(v: Json)
    requires WellFormed(v)
    ensures ReadJson(Canonical(v)).Some? && Same(v, ReadJson(Canonical(v)).value)
  {
    CanonicalIsPrint(v);
    NormalWellFormed(v);
    PrintedReads(Normal(v));
    CanonicalOfNormal(v);
  }

  lemma CanonicalOfNormal(v: Json)
    requires WellFormed(v)
    ensures Same(v, Normal(v)) && Canonical(Normal(v)) == Canonical(v)
  {
    NormalWellFormed(v);
    NormalTwice(v);
    NormalDecides(v, Normal(v));
    CanonicalDecides(v, Normal(v));
  }

  lemma {:induction false} NormalTwice(v: Json)
    requires WellFormed(v)
    ensures Normal(Normal(v)) == Normal(v)
    decreases v
  {
    if v.Arr? {
      forall i | 0 <= i < |v.items|
        ensures Normal(NormalItems(v.items)[i]) == NormalItems(v.items)[i]
      {
        NormalTwice(v.items[i]);
      }
      assert NormalItems(NormalItems(v.items)) == NormalItems(v.items);
    }
    if v.Obj? {
      var nm := NormalMembers(v.members);
      var ns := Sort(MemberLeq, nm);
      SortedMembersHold(v.members);
      forall i | 0 <= i < |ns| ensures NormalMembers(ns)[i] == ns[i] {
        SameElements(ns, nm, ns[i]);
        var k :| 0 <= k < |nm| && nm[k] == ns[i];
        NormalTwice(v.members[k].value);
      }
      assert NormalMembers(ns) == ns;
      KeyOrdering();
      SortHolds(MemberLeq, nm);
      KeysStayDistinct(nm, ns);
      DistinctKeysHaveNoTies(ns);
      SortOfSorted(MemberLeq, ns);
    }
  }

  // ------------------------------------------------------------------
  // The order of the keys
  // ------------------------------------------------------------------

  /** In every object each key comes before the later ones: shorter prefix, or smaller at the first differing unit. */
  ghost predicate KeysAscend(v: Json)
    decreases v
  {
    match v
    case Arr(items) => forall i :: 0 <= i < |items| ==> KeysAscend(items[i])
    case Obj(ms) =>
      && (forall i :: 0 <= i < |ms| ==> KeysAscend(ms[i].value))
      && (forall i, j :: 0 <= i < j < |ms| ==> UnitsBefore(ms[i].key, ms[j].key))
    case _ => true
  }

  lemma SortedKeysAscend(ns: seq<Member>)
    requires Sorted(MemberLeq, ns) && DistinctKeys(ns)
    ensures forall i, j :: 0 <= i < j < |ns| ==> UnitsBefore(ns[i].key, ns[j].key)
  {
    forall i, j | 0 <= i < j < |ns| ensures UnitsBefore(ns[i].key, ns[j].key) {
      assert MemberLeq(ns[i], ns[j]);
      TextLeqIsBefore(ns[i].key, ns[j].key);
    }
  }

  lemma {:induction false} NormalAscends(v: Json)
    requires WellFormed(v)
    ensures KeysAscend(Normal(v))
    decreases v
  {
    if v.Arr? {
      forall i | 0 <= i < |v.items| ensures KeysAscend(NormalItems(v.items)[i]) { NormalAscends(v.items[i]); }
    }
    if v.Obj? {
      var nm := NormalMembers(v.members);
      var ns := Sort(MemberLeq, nm);
      KeyOrdering();
      SortHolds(MemberLeq, nm);
      forall i | 0 <= i < |ns| ensures KeysAscend(ns[i].value) {
        SameElements(ns, nm, ns[i]);
        var k :| 0 <= k < |nm| && nm[k] == ns[i];
        NormalAscends(v.members[k].value);
      }
      KeysStayDistinct(nm, ns);
      SortedKeysAscend(ns);
    }
  }

  lemma {:induction false} AscendingIsNormal(v: Json)
    requires WellFormed(v) && KeysAscend(v)
    ensures Normal(v) == v
    decreases v
  {
    if v.Arr? {
      forall i | 0 <= i < |v.items| ensures NormalItems(v.items)[i] == v.items[i] { AscendingIsNormal(v.items[i]); }
    }
    if v.Obj? {
      var ms := v.members;
      forall i | 0 <= i < |ms| ensures NormalMembers(ms)[i] == ms[i] { AscendingIsNormal(ms[i].value); }
      assert NormalMembers(ms) == ms;
      forall i, j | 0 <= i < j < |ms| ensures MemberLeq(ms[i], ms[j]) { TextLeqIsBefore(ms[i].key, ms[j].key); }
      KeyOrdering();
      DistinctKeysHaveNoTies(ms);
      SortOfSorted(MemberLeq, ms);
    }
  }

  /** In every object of a canonical text the keys stand in ascending order of their code units. */
  lemma CanonicalAscends(v: Json)
    requires WellFormed(v)
    ensures ReadJson(Canonical(v)).Some? && KeysAscend(ReadJson(Canonical(v)).value)
  {
    CanonicalIsPrint(v);
    NormalWellFormed(v);
    PrintedReads(Normal(v));
    NormalAscends(v);
  }

  /** The canonical text is JSON.stringify of the one arrangement of the value with ascending keys. */
  lemma CanonicalIsAscendingPrint(v: Json, w: Json)
    requires WellFormed(v) && WellFormed(w) && Same(v, w) && KeysAscend(w)
    ensures Canonical(v) == Print(w)
  {
    AscendingIsNormal(w);
    NormalDecides(v, w);
    CanonicalIsPrint(v);
  }
}

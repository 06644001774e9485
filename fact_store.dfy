/** The fun-fact collection of models/States.js as the routes see it: documents
    `{stateCode, funfacts}` in the collection's natural order, the `findOne`
    lookup, `save`, the in-place list edits of routes/states.js, and the
    `funfactsLookup` dictionary that `GET /` builds from `State.find()`. */
module FactStore {
  import opened Wrappers
  import opened StatesData

  /** One document: `stateCode` is the schema's unique key, `funfacts` its
      list of strings (empty by default). */
  datatype FactRecord = FactRecord(stateCode: string, funfacts: seq<string>)

  /** The schema's `unique: true` on `stateCode`. */
  predicate UniqueCodes(docs: seq<FactRecord>) {
    forall i, j :: 0 <= i < j < |docs| ==> docs[i].stateCode != docs[j].stateCode
  }

  /** Every stored key is already upper-case, as the routes only ever store
      the upper-cased state parameter. */
  predicate UpperCodes(docs: seq<FactRecord>) {
    forall i :: 0 <= i < |docs| ==> Upper(docs[i].stateCode) == docs[i].stateCode
  }

  /** `State.findOne({stateCode: code})`: the position of the first document
      whose key is exactly `code`. */
  function Find(docs: seq<FactRecord>, code: string): (r: Option<nat>)
    ensures r.None? <==> forall i :: 0 <= i < |docs| ==> docs[i].stateCode != code
    ensures r.Some? ==> r.value < |docs| && docs[r.value].stateCode == code
    ensures r.Some? ==> forall j :: 0 <= j < r.value ==> docs[j].stateCode != code
  {
    if docs == [] then None
    else if docs[0].stateCode == code then Some(0)
    else
      match Find(docs[1..], code)
      case None => None
      case Some(i) => Some(i + 1)
  }

  /** The fun facts stored for `code`, if a document exists. */
  function FactsOf(docs: seq<FactRecord>, code: string): Option<seq<string>> {
    match Find(docs, code)
    case None => None
    case Some(i) => Some(docs[i].funfacts)
  }

  /** `record.save()`: the document for `code` now holds `facts`; an existing
      document is written in place, a new one joins the end of the collection. */
  function Save(docs: seq<FactRecord>, code: string, facts: seq<string>): (r: seq<FactRecord>)
    ensures Find(docs, code).Some? ==> |r| == |docs|
    ensures Find(docs, code).None? ==> |r| == |docs| + 1
  {
    match Find(docs, code)
    case Some(i) => docs[i := FactRecord(code, facts)]
    case None => docs + [FactRecord(code, facts)]
  }

  /** After saving, reading the key back gives the saved list. */
  lemma SaveThenRead(docs: seq<FactRecord>, code: string, facts: seq<string>)
    ensures FactsOf(Save(docs, code, facts), code) == Some(facts)
  {
    var r := Save(docs, code, facts);
    match Find(docs, code)
    case Some(i) =>
      assert forall j :: 0 <= j < i ==> r[j] == docs[j];
      FindAt(r, code, i);
    case None =>
      assert forall j :: 0 <= j < |docs| ==> r[j] == docs[j];
      FindAt(r, code, |docs|);
  }

  /** Saving one key leaves every other key's facts as they were. */
  lemma SaveKeepsOthers(docs: seq<FactRecord>, code: string, facts: seq<string>, other: string)
    requires other != code
    ensures FactsOf(Save(docs, code, facts), other) == FactsOf(docs, other)
  {
    var r := Save(docs, code, facts);
    assert forall j :: 0 <= j < |docs| ==> (r[j].stateCode == other <==> docs[j].stateCode == other);
    assert forall j :: 0 <= j < |docs| && docs[j].stateCode == other ==> r[j] == docs[j];
    assert forall j :: |docs| <= j < |r| ==> r[j].stateCode != other;
    match Find(docs, other)
    case Some(i) => FindAt(r, other, i);
    case None =>
  }

  /** Saving keeps the keys unique and upper-case when the key saved is. */
  lemma SaveKeepsInvariant(docs: seq<FactRecord>, code: string, facts: seq<string>)
    requires UniqueCodes(docs) && UpperCodes(docs) && Upper(code) == code
    ensures UniqueCodes(Save(docs, code, facts)) && UpperCodes(Save(docs, code, facts))
  {
  }

  /** `Find` is determined by its first match. */
  lemma FindAt(docs: seq<FactRecord>, code: string, i: nat)
    requires i < |docs| && docs[i].stateCode == code
    requires forall j :: 0 <= j < i ==> docs[j].stateCode != code
    ensures Find(docs, code) == Some(i)
  {
  }

  /** `list[index] = value`: the list keeps its length and every other element. */
  function ReplaceAt(list: seq<string>, index: nat, value: string): (r: seq<string>)
    requires index < |list|
    ensures |r| == |list| && r[index] == value
    ensures forall j :: 0 <= j < |list| && j != index ==> r[j] == list[j]
  {
    list[index := value]
  }

  /** `list.splice(index, 1)`: one element fewer, the ones before `index`
      unchanged, the ones after shifted left by one, nothing else lost. */
  function RemoveAt(list: seq<string>, index: nat): (r: seq<string>)
    requires index < |list|
    ensures |r| == |list| - 1
    ensures forall j :: 0 <= j < index ==> r[j] == list[j]
    ensures forall j :: index <= j < |r| ==> r[j] == list[j + 1]
    ensures multiset(r) + multiset{list[index]} == multiset(list)
  {
    assert list == list[..index] + [list[index]] + list[index + 1..];
    list[..index] + list[index + 1..]
  }

  /** The `funfactsLookup` object: for each document in order, its upper-cased
      key is set to its facts, so a later document overwrites an earlier one. */
  function Lookup(records: seq<FactRecord>): map<string, seq<string>> {
    if records == [] then map[]
    else
      var last := records[|records| - 1];
      Lookup(records[..|records| - 1])[Upper(last.stateCode) := last.funfacts]
  }

  /** A key is in the lookup exactly when some document upper-cases to it. */
  lemma {:induction false} LookupKeys(records: seq<FactRecord>, key: string)
    ensures key in Lookup(records) <==>
            exists j :: 0 <= j < |records| && Upper(records[j].stateCode) == key
  {
    if records != [] {
      var init := records[..|records| - 1];
      LookupKeys(init, key);
      assert forall j :: 0 <= j < |init| ==> init[j] == records[j];
      if Upper(records[|records| - 1].stateCode) != key {
        assert (exists j :: 0 <= j < |records| && Upper(records[j].stateCode) == key) ==>
               (exists j :: 0 <= j < |init| && Upper(init[j].stateCode) == key);
      }
    }
  }

  /** Document `j` is the last one whose key upper-cases to `key`. */
  predicate LastWith(records: seq<FactRecord>, key: string, j: nat) {
    && j < |records| && Upper(records[j].stateCode) == key
    && forall k :: j < k < |records| ==> Upper(records[k].stateCode) != key
  }

  /** When several documents upper-case to the same key, the last one wins. */
  lemma {:induction false} LookupLastWins(records: seq<FactRecord>, key: string, j: nat)
    requires LastWith(records, key, j)
    ensures key in Lookup(records) && Lookup(records)[key] == records[j].funfacts
  {
    var init := records[..|records| - 1];
    if j < |records| - 1 {
      assert init[j] == records[j];
      assert forall k :: j < k < |init| ==> init[k] == records[k];
      LookupLastWins(init, key, j);
    }
  }

  /** On a store whose keys are unique and upper-case, the lookup of an
      upper-case code is what `findOne` reads. */
  lemma {:induction false} LookupMatchesFind(docs: seq<FactRecord>, code: string)
    requires UniqueCodes(docs) && UpperCodes(docs) && Upper(code) == code
    ensures code in Lookup(docs) <==> FactsOf(docs, code).Some?
    ensures code in Lookup(docs) ==> Lookup(docs)[code] == FactsOf(docs, code).value
  {
    LookupKeys(docs, code);
    match Find(docs, code)
    case Some(i) =>
      LookupLastWins(docs, code, i);
    case None =>
  }
}

/** The two rules of routes/states.js that combine a static entry with a fun-fact
    list: the one of `GET /` (any list found in `funfactsLookup` is attached,
    even an empty one) and the one of `GET /:state` (only a non-empty list). */
module Merge {
  import opened Wrappers
  import opened StatesData
  import opened FactStore

  /** `{ ...state }` with an optional `funfacts` property; `None` is a
      response object without the property. */
  datatype StateView = StateView(info: StateInfo, funfacts: Option<seq<string>>)

  /** `GET /:state`: the entry's fields, plus the record's list when a record
      exists and its list is not empty. */
  function MergeOne(info: StateInfo, record: Option<seq<string>>): (v: StateView)
    ensures v.info == info
    ensures v.funfacts.Some? <==> record.Some? && |record.value| > 0
    ensures v.funfacts.Some? ==> v.funfacts == record
  {
    if record.Some? && |record.value| > 0 then StateView(info, record) else StateView(info, None)
  }

  /** One element of `statesData.map(...)` in `GET /`: the entry's fields,
      plus whatever list the lookup holds for its upper-cased code. */
  function MergeListed(info: StateInfo, lookup: map<string, seq<string>>): (v: StateView)
    ensures v.info == info
    ensures v.funfacts.Some? <==> Upper(info.code) in lookup
    ensures v.funfacts.Some? ==> v.funfacts.value == lookup[Upper(info.code)]
  {
    var key := Upper(info.code);
    if key in lookup then StateView(info, Some(lookup[key])) else StateView(info, None)
  }

  /** The `dbRecords.forEach` loop of `GET /` that fills `funfactsLookup`. */
  method BuildLookup(records: seq<FactRecord>) returns (lookup: map<string, seq<string>>)
    ensures lookup == Lookup(records)
  {
    lookup := map[];
    var i := 0;
    while i < |records|
      invariant 0 <= i <= |records|
      invariant lookup == Lookup(records[..i])
    {
      assert records[..i + 1][..i] == records[..i];
      lookup := lookup[Upper(records[i].stateCode) := records[i].funfacts];
      i := i + 1;
    }
    assert records[..|records|] == records;
  }

  /** On a store whose keys are unique and upper-case, the two rules give the
      same view of an entry except when its record exists with an empty list:
      then `GET /` shows `funfacts: []` and `GET /:state` shows no property. */
  lemma {:induction false} MergeRulesAgree(docs: seq<FactRecord>, info: StateInfo)
    requires UniqueCodes(docs) && UpperCodes(docs)
    ensures MergeListed(info, Lookup(docs)) == MergeOne(info, FactsOf(docs, Upper(info.code)))
            <==> FactsOf(docs, Upper(info.code)) != Some([])
  {
    UpperIdempotent(info.code);
    LookupMatchesFind(docs, Upper(info.code));
  }
}

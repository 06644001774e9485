/** The router of routes/states.js: the `/:state` guard, the attribute routes
    and the handlers that read and edit the fun facts, over the static table
    and the fun-fact collection. */
module Routes {
  import opened Wrappers
  import opened StatesData
  import opened FactStore
  import opened Merge
  import PopulationFormat

  /** The JSON values a request body field can hold. Arrays are of strings,
      the element type of the schema's `funfacts`. */
  datatype Json = JNull | JBool(b: bool) | JNumber(n: int) | JString(s: string) | JArray(items: seq<string>) | JObject

  /** JavaScript truthiness: `null`, `false`, `0` and `""` are falsy; every
      array, even an empty one, and every object is truthy. */
  predicate Truthy(j: Json) {
    match j
    case JNull => false
    case JBool(b) => b
    case JNumber(n) => n != 0
    case JString(s) => s != ""
    case JArray(_) => true
    case JObject => true
  }

  datatype Field = Capital | Nickname | PopulationField | Admission

  /** The JSON bodies of successful responses. */
  datatype Reply =
    | StatesBody(states: seq<StateView>)
    | StateBody(view: StateView)
    | FieldBody(state: string, field: Field, value: string)
    | FunFactBody(funfact: string)
    | FactsBody(state: string, funfacts: seq<string>)

  /** Status 200, 400 or 404 with its body or `{message}`. */
  datatype Response = Ok(reply: Reply) | BadRequest(message: string) | NotFound(message: string)

  const InvalidStateParam := "Invalid state abbreviation parameter"
  const FactsRequired := "State fun facts value required"
  const FactsNotArray := "State fun facts value must be an array"
  const IndexRequired := "State fun fact index value required"
  const FactRequired := "State fun fact value required"

  function NoFactsFor(name: string): string {
    "No Fun Facts found for " + name
  }

  function NoFactAtIndexFor(name: string): string {
    "No Fun Fact found at that index for " + name
  }

  /** `router.use('/:state', ...)`: `Some` is the 400 it answers with instead of
      calling `next`, which happens exactly when no entry has the code. */
  function RouterGuard(table: seq<StateInfo>, param: string): (r: Option<Response>)
    ensures r.Some? <==> forall i :: 0 <= i < |table| ==> !SameCode(table[i].code, param)
    ensures r.Some? ==> r.value == BadRequest(InvalidStateParam)
  {
    if GetState(table, param).None? then Some(BadRequest(InvalidStateParam)) else None
  }

  /** `GET /:state/capital|nickname|population|admission`: the state's name and
      the one field; the population is shown grouped in threes, and reading it
      back without its commas gives the stored number. */
  function FieldRoute(table: seq<StateInfo>, param: string, field: Field): (r: Response)
    ensures RouterGuard(table, param).Some? ==> r == RouterGuard(table, param).value
    ensures RouterGuard(table, param).None? ==>
              r.Ok? && r.reply.FieldBody? && r.reply.field == field &&
              r.reply.state == GetState(table, param).value.state
    ensures RouterGuard(table, param).None? && field == PopulationField ==>
              var shown := r.reply.value;
              var info := GetState(table, param).value;
              && PopulationFormat.Grouped(shown)
              && PopulationFormat.StripCommas(shown) == PopulationFormat.Digits(info.population)
              && PopulationFormat.ValueOf(PopulationFormat.Digits(info.population)) == info.population
  {
    match RouterGuard(table, param)
    case Some(rejection) => rejection
    case None =>
      var state := GetState(table, param).value;
      match field
      case Capital => Ok(FieldBody(state.state, field, state.capital))
      case Nickname => Ok(FieldBody(state.state, field, state.nickname))
      case Admission => Ok(FieldBody(state.state, field, state.admission))
      case PopulationField =>
        PopulationFormat.FormatStripsToDigits(state.population);
        PopulationFormat.DigitsRoundTrip(state.population);
        Ok(FieldBody(state.state, field, PopulationFormat.FormatPopulation(state.population)))
  }

  /** The router: the static table, fixed when the process starts, and the
      fun-fact collection, which the POST, PATCH and DELETE handlers edit. */
  class StatesRouter {
    const table: seq<StateInfo>
    var docs: seq<FactRecord>

    /** Keys are unique (the schema) and upper-case (only upper-cased
        parameters are ever stored). */
    predicate Valid()
      reads this
    {
      UniqueCodes(docs) && UpperCodes(docs)
    }

    constructor (table: seq<StateInfo>)
      ensures Valid() && this.table == table && docs == []
    {
      this.table := table;
      docs := [];
    }

    /** `GET /`: every entry of the table, in order, each with its fields and,
        when some document's key upper-cases to its code, the facts of the last
        such document, even an empty list. */
    method ListAll() returns (resp: Response)
      ensures resp.Ok? && resp.reply.StatesBody?
      ensures |resp.reply.states| == |table|
      ensures forall i :: 0 <= i < |table| ==> resp.reply.states[i].info == table[i]
      ensures forall i :: 0 <= i < |table| ==>
                (resp.reply.states[i].funfacts.Some? <==>
                 exists j :: 0 <= j < |docs| && Upper(docs[j].stateCode) == Upper(table[i].code))
      ensures forall i: nat, j: nat :: i < |table| && LastWith(docs, Upper(table[i].code), j) ==>
                resp.reply.states[i].funfacts == Some(docs[j].funfacts)
    {
      var dbRecords := docs;
      var funfactsLookup := BuildLookup(dbRecords);
      var merged := seq(|table|, i requires 0 <= i < |table| => MergeListed(table[i], funfactsLookup));
      forall i | 0 <= i < |table|
        ensures merged[i].funfacts.Some? <==>
                exists j :: 0 <= j < |docs| && Upper(docs[j].stateCode) == Upper(table[i].code)
      {
        LookupKeys(docs, Upper(table[i].code));
      }
      forall i: nat, j: nat | i < |table| && LastWith(docs, Upper(table[i].code), j)
        ensures merged[i].funfacts == Some(docs[j].funfacts)
      {
        LookupLastWins(docs, Upper(table[i].code), j);
      }
      resp := Ok(StatesBody(merged));
    }

    /** `GET /:state`: the entry's fields, with the stored facts only when the
        state has a document with a non-empty list. */
    method GetOne(param: string) returns (resp: Response)
      ensures RouterGuard(table, param).Some? ==> resp == RouterGuard(table, param).value
      ensures RouterGuard(table, param).None? ==>
                var facts := FactsOf(docs, Upper(param));
                && resp.Ok? && resp.reply.StateBody?
                && resp.reply.view.info == GetState(table, param).value
                && (resp.reply.view.funfacts.Some? <==> facts.Some? && facts.value != [])
                && (resp.reply.view.funfacts.Some? ==> resp.reply.view.funfacts == facts)
    {
      var rejected := RouterGuard(table, param);
      if rejected.Some? {
        return rejected.value;
      }
      var stateCode := Upper(param);
      UpperIdempotent(param);
      GetStateIgnoresCase(table, param);
      var state := GetState(table, stateCode).value;
      var record := FactsOf(docs, stateCode);
      resp := Ok(StateBody(MergeOne(state, record)));
    }

    /** `GET /:state/funfact`: 404 naming the state when it has no facts;
        otherwise one of its facts, at an index chosen in [0, length). */
    method RandomFact(param: string) returns (resp: Response)
      ensures RouterGuard(table, param).Some? ==> resp == RouterGuard(table, param).value
      ensures RouterGuard(table, param).None? ==>
                var facts := FactsOf(docs, Upper(param));
                var name := GetState(table, param).value.state;
                if facts.None? || facts.value == [] then resp == NotFound(NoFactsFor(name))
                else resp.Ok? && resp.reply.FunFactBody? && resp.reply.funfact in facts.value
    {
      var rejected := RouterGuard(table, param);
      if rejected.Some? {
        return rejected.value;
      }
      var stateCode := Upper(param);
      UpperIdempotent(param);
      GetStateIgnoresCase(table, param);
      var state := GetState(table, stateCode).value;
      var record := FactsOf(docs, stateCode);
      if record.None? || |record.value| == 0 {
        return NotFound(NoFactsFor(state.state));
      }
      var randomIndex :| 0 <= randomIndex < |record.value|;
      resp := Ok(FunFactBody(record.value[randomIndex]));
    }

    /** `POST /:state/funfact`: the given list is appended to the state's
        facts, or becomes them when the state has no document yet. */
    method AddFacts(param: string, funfacts: Option<Json>) returns (resp: Response)
      requires Valid()
      modifies this
      ensures Valid()
      ensures RouterGuard(table, param).Some? ==>
                resp == RouterGuard(table, param).value && docs == old(docs)
      ensures RouterGuard(table, param).None? && (funfacts.None? || !Truthy(funfacts.value)) ==>
                resp == BadRequest(FactsRequired) && docs == old(docs)
      ensures RouterGuard(table, param).None? && funfacts.Some? && Truthy(funfacts.value) &&
              !funfacts.value.JArray? ==>
                resp == BadRequest(FactsNotArray) && docs == old(docs)
      ensures RouterGuard(table, param).None? && funfacts.Some? && funfacts.value.JArray? ==>
                var code := Upper(param);
                var before := FactsOf(old(docs), code);
                var after := if before.Some? then before.value + funfacts.value.items else funfacts.value.items;
                && docs == Save(old(docs), code, after)
                && FactsOf(docs, code) == Some(after)
                && (forall other :: other != code ==> FactsOf(docs, other) == FactsOf(old(docs), other))
                && resp == Ok(FactsBody(GetState(table, param).value.state, after))
    {
      var rejected := RouterGuard(table, param);
      if rejected.Some? {
        return rejected.value;
      }
      var stateCode := Upper(param);
      UpperIdempotent(param);
      GetStateIgnoresCase(table, param);
      var state := GetState(table, stateCode).value;
      if funfacts.None? || !Truthy(funfacts.value) {
        return BadRequest(FactsRequired);
      }
      if !funfacts.value.JArray? {
        return BadRequest(FactsNotArray);
      }
      var given := funfacts.value.items;
      var record := FactsOf(docs, stateCode);
      var updated := if record.Some? then record.value + given else given;
      StoreWrite(stateCode, updated);
      resp := Ok(FactsBody(state.state, updated));
    }

    /** `PATCH /:state/funfact`: checks, in this order, that the state has
        facts (404), that an index is given (400), that a non-empty string is
        given (400) and that the index is in range (404); then replaces the
        fact at that 0-based index. */
    method UpdateFact(param: string, index: Option<int>, funfact: Option<Json>) returns (resp: Response)
      requires Valid()
      modifies this
      ensures Valid()
      ensures RouterGuard(table, param).Some? ==>
                resp == RouterGuard(table, param).value && docs == old(docs)
      ensures RouterGuard(table, param).None? ==>
                var code := Upper(param);
                var facts := FactsOf(old(docs), code);
                var name := GetState(table, param).value.state;
                if facts.None? || facts.value == [] then
                  resp == NotFound(NoFactsFor(name)) && docs == old(docs)
                else if index.None? then
                  resp == BadRequest(IndexRequired) && docs == old(docs)
                else if funfact.None? || !funfact.value.JString? || funfact.value.s == "" then
                  resp == BadRequest(FactRequired) && docs == old(docs)
                else if index.value < 0 || index.value >= |facts.value| then
                  resp == NotFound(NoFactAtIndexFor(name)) && docs == old(docs)
                else
                  var after := ReplaceAt(facts.value, index.value, funfact.value.s);
                  && docs == Save(old(docs), code, after)
                  && FactsOf(docs, code) == Some(after)
                  && (forall other :: other != code ==> FactsOf(docs, other) == FactsOf(old(docs), other))
                  && resp == Ok(FactsBody(name, after))
    {
      var rejected := RouterGuard(table, param);
      if rejected.Some? {
        return rejected.value;
      }
      var stateCode := Upper(param);
      UpperIdempotent(param);
      GetStateIgnoresCase(table, param);
      var state := GetState(table, stateCode).value;
      var record := FactsOf(docs, stateCode);
      if record.None? || |record.value| == 0 {
        return NotFound(NoFactsFor(state.state));
      }
      if index.None? {
        return BadRequest(IndexRequired);
      }
      if funfact.None? || !Truthy(funfact.value) || !funfact.value.JString? {
        return BadRequest(FactRequired);
      }
      if index.value < 0 || index.value >= |record.value| {
        return NotFound(NoFactAtIndexFor(state.state));
      }
      var updated := ReplaceAt(record.value, index.value, funfact.value.s);
      StoreWrite(stateCode, updated);
      resp := Ok(FactsBody(state.state, updated));
    }

    /** `DELETE /:state/funfact`: the same checks as PATCH without the value
        check; then removes the fact at that 0-based index, shifting the later
        ones left. The document stays even when its list becomes empty. */
    method DeleteFact(param: string, index: Option<int>) returns (resp: Response)
      requires Valid()
      modifies this
      ensures Valid()
      ensures RouterGuard(table, param).Some? ==>
                resp == RouterGuard(table, param).value && docs == old(docs)
      ensures RouterGuard(table, param).None? ==>
                var code := Upper(param);
                var facts := FactsOf(old(docs), code);
                var name := GetState(table, param).value.state;
                if facts.None? || facts.value == [] then
                  resp == NotFound(NoFactsFor(name)) && docs == old(docs)
                else if index.None? then
                  resp == BadRequest(IndexRequired) && docs == old(docs)
                else if index.value < 0 || index.value >= |facts.value| then
                  resp == NotFound(NoFactAtIndexFor(name)) && docs == old(docs)
                else
                  var after := RemoveAt(facts.value, index.value);
                  && docs == Save(old(docs), code, after)
                  && FactsOf(docs, code) == Some(after)
                  && (forall other :: other != code ==> FactsOf(docs, other) == FactsOf(old(docs), other))
                  && resp == Ok(FactsBody(name, after))
    {
      var rejected := RouterGuard(table, param);
      if rejected.Some? {
        return rejected.value;
      }
      var stateCode := Upper(param);
      UpperIdempotent(param);
      GetStateIgnoresCase(table, param);
      var state := GetState(table, stateCode).value;
      var record := FactsOf(docs, stateCode);
      if record.None? || |record.value| == 0 {
        return NotFound(NoFactsFor(state.state));
      }
      if index.None? {
        return BadRequest(IndexRequired);
      }
      if index.value < 0 || index.value >= |record.value| {
        return NotFound(NoFactAtIndexFor(state.state));
      }
      var updated := RemoveAt(record.value, index.value);
      StoreWrite(stateCode, updated);
      resp := Ok(FactsBody(state.state, updated));
    }

    /** `await record.save()` for the document of `code`. */
    method StoreWrite(code: string, facts: seq<string>)
      requires Valid() && Upper(code) == code
      modifies this
      ensures Valid()
      ensures docs == Save(old(docs), code, facts)
      ensures FactsOf(docs, code) == Some(facts)
      ensures forall other :: other != code ==> FactsOf(docs, other) == FactsOf(old(docs), other)
    {
      SaveKeepsInvariant(docs, code, facts);
      SaveThenRead(docs, code, facts);
      forall other | other != code
        ensures FactsOf(Save(docs, code, facts), other) == FactsOf(docs, other)
      {
        SaveKeepsOthers(docs, code, facts, other);
      }
      docs := Save(docs, code, facts);
    }
  }
}

/** A client of the router: posting two facts for Georgia on an empty
    collection, replacing the first and deleting the second leaves one fact. */
module RoutesScenario {
  import opened Wrappers
  import opened StatesData
  import opened FactStore
  import opened Routes

  method PostPatchDelete()
  {
    var georgia := StateInfo("GA", "Georgia", "Atlanta", "Peach State", 10711908, "1788-01-02");
    var router := new StatesRouter([georgia]);
    assert Upper("ga") == "GA";
    assert SameCode(georgia.code, "ga");
    var r := router.AddFacts("ga", Some(JArray(["A", "B"])));
    assert r == Ok(FactsBody("Georgia", ["A", "B"]));
    assert ReplaceAt(["A", "B"], 0, "Z") == ["Z", "B"];
    r := router.UpdateFact("ga", Some(0), Some(JString("Z")));
    assert r == Ok(FactsBody("Georgia", ["Z", "B"]));
    assert RemoveAt(["Z", "B"], 1) == ["Z"];
    assert Upper("GA") == "GA";
    r := router.DeleteFact("GA", Some(1));
    assert r == Ok(FactsBody("Georgia", ["Z"]));
  }
}

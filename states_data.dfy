/** The static reference table of U.S. states (models/statesData.json) and the
    case-insensitive lookup `getState` of routes/states.js. */
module StatesData {
  import opened Wrappers

  /** One entry of the bundled dataset, with the fields the routes read. */
  datatype StateInfo = StateInfo(
    code: string,
    state: string,      // the state's name
    capital: string,
    nickname: string,
    population: nat,
    admission: string)

  /** `toUpperCase` on one character; only the ASCII letters are mapped. */
  function UpperChar(c: char): (u: char)
    ensures 'a' <= c <= 'z' ==> u as int == c as int - 32 && 'A' <= u <= 'Z'
    ensures !('a' <= c <= 'z') ==> u == c
  {
    if 'a' <= c <= 'z' then (c as int - 32) as char else c
  }

  /** `String.prototype.toUpperCase`, character by character. */
  function Upper(s: string): (u: string)
    ensures |u| == |s|
    ensures forall i :: 0 <= i < |s| ==> u[i] == UpperChar(s[i])
  {
    if s == [] then [] else [UpperChar(s[0])] + Upper(s[1..])
  }

  /** Upper-casing twice is upper-casing once. */
  lemma {:induction false} UpperIdempotent(s: string)
    ensures Upper(Upper(s)) == Upper(s)
  {
    var u := Upper(s);
    assert forall i :: 0 <= i < |u| ==> Upper(u)[i] == u[i];
  }

  /** The comparison `getState` makes: equal once both sides are upper-cased. */
  predicate SameCode(a: string, b: string) {
    Upper(a) == Upper(b)
  }

  /** `getState` (`statesData.find`): the first entry whose code equals `code`
      ignoring case, or nothing. */
  function GetState(table: seq<StateInfo>, code: string): (r: Option<StateInfo>)
    ensures r.None? <==> forall i :: 0 <= i < |table| ==> !SameCode(table[i].code, code)
    ensures r.Some? ==> r.value in table && SameCode(r.value.code, code)
  {
    if table == [] then None
    else if SameCode(table[0].code, code) then Some(table[0])
    else GetState(table[1..], code)
  }

  /** `getState` returns the FIRST matching entry of the table. */
  lemma {:induction false} GetStateFindsFirst(table: seq<StateInfo>, code: string, i: nat)
    requires i < |table| && SameCode(table[i].code, code)
    requires forall j :: 0 <= j < i ==> !SameCode(table[j].code, code)
    ensures GetState(table, code) == Some(table[i])
  {
    if i > 0 {
      assert !SameCode(table[0].code, code);
      assert forall j :: 0 <= j < i - 1 ==> table[1..][j] == table[j + 1];
      GetStateFindsFirst(table[1..], code, i - 1);
    }
  }

  /** The handlers call `getState` on the upper-cased parameter, the router guard
      on the raw one: both find the same entry. */
  lemma {:induction false} GetStateIgnoresCase(table: seq<StateInfo>, code: string)
    ensures GetState(table, Upper(code)) == GetState(table, code)
  {
    UpperIdempotent(code);
    GetStateDependsOnUpper(table, Upper(code), code);
  }

  /** `getState` looks at its argument only through its upper-case form. */
  lemma {:induction false} GetStateDependsOnUpper(table: seq<StateInfo>, a: string, b: string)
    requires Upper(a) == Upper(b)
    ensures GetState(table, a) == GetState(table, b)
  {
    if table != [] {
      GetStateDependsOnUpper(table[1..], a, b);
    }
  }

  /** `statesData.map(state => state.code)`: the codes exactly as stored. */
  function Codes(table: seq<StateInfo>): (codes: seq<string>)
    ensures |codes| == |table|
    ensures forall i :: 0 <= i < |table| ==> codes[i] == table[i].code
  {
    if table == [] then [] else [table[0].code] + Codes(table[1..])
  }
}

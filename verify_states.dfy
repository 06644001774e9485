/** The `verifyStates` middleware of middleware/verifyStates.js: the state
    parameter, upper-cased, must be one of the dataset's codes. */
module VerifyStates {
  import opened Wrappers
  import opened StatesData

  const InvalidAbbreviation := "Invalid state abbreviation"

  /** What the middleware does with a request: either it sets `req.stateCode`
      and calls `next`, or it answers 400 with `{error: ...}` and stops. */
  datatype Verdict = Next(stateCode: string) | Reject(error: string)

  /** `param` is `req.params.state`; `None` is a missing parameter, which
      `?.toUpperCase()` turns into `undefined`. */
  function Verify(table: seq<StateInfo>, param: Option<string>): (v: Verdict)
    ensures v.Next? <==> param.Some? && Upper(param.value) in Codes(table)
    ensures v.Next? ==> v.stateCode == Upper(param.value) && v.stateCode in Codes(table)
    ensures v.Reject? ==> v.error == InvalidAbbreviation
  {
    match param
    case None => Reject(InvalidAbbreviation)
    case Some(p) =>
      var stateCode := Upper(p);
      if stateCode in Codes(table) then Next(stateCode) else Reject(InvalidAbbreviation)
  }

  /** Parameters that differ only in letter case get the same verdict and the
      same normalised code. */
  lemma VerifyIgnoresCase(table: seq<StateInfo>, a: string, b: string)
    requires Upper(a) == Upper(b)
    ensures Verify(table, Some(a)) == Verify(table, Some(b))
  {
  }

  /** The normalised code the middleware hands on is a fixed point of
      upper-casing: verifying it again accepts it unchanged. */
  lemma {:induction false} VerifyNormalises(table: seq<StateInfo>, p: string)
    requires Verify(table, Some(p)).Next?
    ensures Verify(table, Some(Verify(table, Some(p)).stateCode)) == Verify(table, Some(p))
  {
    UpperIdempotent(p);
  }

  /** A code the middleware accepts is also accepted by the router guard of
      routes/states.js, which compares case-insensitively. */
  lemma {:induction false} AcceptedByGetState(table: seq<StateInfo>, p: string)
    requires Verify(table, Some(p)).Next?
    ensures GetState(table, p).Some?
  {
    var i :| 0 <= i < |table| && Codes(table)[i] == Upper(p);
    UpperIdempotent(p);
    assert SameCode(table[i].code, p);
  }

  /** When every code of the dataset is already upper-case, the middleware and
      the router guard accept exactly the same parameters. */
  lemma {:induction false} VerifyAgreesWithGetState(table: seq<StateInfo>, p: string)
    requires forall i :: 0 <= i < |table| ==> Upper(table[i].code) == table[i].code
    ensures Verify(table, Some(p)).Next? <==> GetState(table, p).Some?
  {
    if GetState(table, p).Some? {
      var i :| 0 <= i < |table| && SameCode(table[i].code, p);
      assert Codes(table)[i] == Upper(p);
    } else if Verify(table, Some(p)).Next? {
      AcceptedByGetState(table, p);
    }
  }

  /** The case the two gates disagree on: an entry stored in lower case is
      found by the guard but refused by the middleware. */
  lemma LowerCaseCodeRefused()
    ensures var table := [StateInfo("ga", "Georgia", "Atlanta", "Peach State", 1, "1788-01-02")];
            GetState(table, "ga").Some? && Verify(table, Some("ga")).Reject?
  {
    var table := [StateInfo("ga", "Georgia", "Atlanta", "Peach State", 1, "1788-01-02")];
    assert SameCode(table[0].code, "ga");
    assert Upper("ga") == "GA";
    assert Codes(table) == ["ga"];
  }
}

/** verifyFlutsPileInput: the checks a fluts pile must pass before it is kept. */
module Validation {

  /** The two IllegalArgumentExceptions verifyFlutsPileInput throws. */
  datatype PileError =
    | NumberMismatch        // the pile's length is not the declared count
    | ZeroValueNotAllowed   // some flut of the pile has price 0

  datatype Outcome = Pass | Fail(error: PileError)

  /** The length is checked first, then the prices; a negative price passes. */
  function VerifyFlutsPileInput(flutsCount: int, flutsPileList: seq<int>): (r: Outcome)
    ensures r == Fail(NumberMismatch) <==> |flutsPileList| != flutsCount
    ensures r == Fail(ZeroValueNotAllowed) <==>
              |flutsPileList| == flutsCount && exists i :: 0 <= i < |flutsPileList| && flutsPileList[i] == 0
    ensures r == Pass <==>
              |flutsPileList| == flutsCount && forall i :: 0 <= i < |flutsPileList| ==> flutsPileList[i] != 0
  {
    if |flutsPileList| != flutsCount then Fail(NumberMismatch)
    else if 0 in flutsPileList then Fail(ZeroValueNotAllowed)
    else Pass
  }

  /** A pile that is too short and holds a 0 is reported as too short. */
  lemma LengthCheckedFirst()
    ensures VerifyFlutsPileInput(3, [0, 5]) == Fail(NumberMismatch)
    ensures VerifyFlutsPileInput(3, [2, 0, 4]) == Fail(ZeroValueNotAllowed)
    ensures VerifyFlutsPileInput(2, [-1, 5]) == Pass
  {
  }
}

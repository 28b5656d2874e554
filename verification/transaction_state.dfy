/** The transaction-state ordering of the notification module (`compareTransactionStates`).

    A transaction on a commercetools payment is in one of four states. The module ranks them
    Initial = 0, Pending = 1, Success = 2, Failure = 2 and compares two states by the plain
    difference of their ranks. The two terminal states share a rank, so the comparison does
    not tell them apart, and the difference ranges over -2..2 rather than only -1, 0, 1.
 */
module TransactionStates {
  import opened Wrappers

  datatype State = Initial | Pending | Success | Failure

  /** The literal under which each state appears on the platform and in notifications. */
  function Literal(s: State): string {
    match s
    case Initial => "Initial"
    case Pending => "Pending"
    case Success => "Success"
    case Failure => "Failure"
  }

  /** The own keys of the rank table: the only literals the comparison accepts. */
  const Literals: set<string> := {"Initial", "Pending", "Success", "Failure"}

  /** Reads a state literal; any other string is an error, never a default state. */
  function Parse(lit: string): (r: Result<State, string>)
    ensures r.Ok? <==> lit in Literals
    ensures r.Ok? ==> Literal(r.value) == lit
    ensures r.Err? ==> r.error == lit
  {
    if lit == "Initial" then Ok(Initial)
    else if lit == "Pending" then Ok(Pending)
    else if lit == "Success" then Ok(State.Success)
    else if lit == "Failure" then Ok(State.Failure)
    else Err(lit)
  }

  /** The rank table `transactionStateFlow`. */
  function Rank(s: State): nat {
    match s
    case Initial => 0
    case Pending => 1
    case Success => 2
    case Failure => 2
  }

  /** Independent reading of the ordering: `b` can appear after `a`. */
  predicate Precedes(a: State, b: State) {
    || (a == Initial && b != Initial)
    || (a == Pending && (b == State.Success || b == State.Failure))
  }

  /** `a` and `b` sit at the same place in the ordering: equal, or the two terminal states. */
  predicate SameStage(a: State, b: State) {
    a == b || {a, b} == {State.Success, State.Failure}
  }

  /** The rank difference of two already-validated states. Its sign says whether the new
      state can follow the current one. */
  function CompareStates(current: State, newState: State): (d: int)
    ensures -2 <= d <= 2
    ensures d > 0 <==> Precedes(current, newState)
    ensures d < 0 <==> Precedes(newState, current)
    ensures d == 0 <==> SameStage(current, newState)
  {
    Rank(newState) - Rank(current)
  }

  /** The message of the error thrown for an unknown literal. */
  function WrongStateMessage(current: string, newState: string): string {
    "Wrong transaction state passed. " + "currentState: " + current + ", newState: " + newState
  }

  /** `compareTransactionStates(currentState, newState)`: both literals are validated first;
      an unknown one makes the call fail, and otherwise the result is the rank difference. */
  function CompareTransactionStates(current: string, newState: string): (r: Result<int, string>)
    ensures r.Err? <==> current !in Literals || newState !in Literals
    ensures r.Err? ==> r.error == WrongStateMessage(current, newState)
    ensures r.Ok? ==> -2 <= r.value <= 2
    ensures r.Ok? ==>
      (r.value > 0 <==> Precedes(Parse(current).value, Parse(newState).value))
    ensures r.Ok? ==>
      (r.value == 0 <==> SameStage(Parse(current).value, Parse(newState).value))
  {
    match (Parse(current), Parse(newState))
    case (Ok(a), Ok(b)) => Ok(CompareStates(a, b))
    case _ => Err(WrongStateMessage(current, newState))
  }

  /** Comparing a valid state with itself gives 0 (a redelivered state is neither
      an advance nor a regression). */
  lemma CompareReflexive(s: State)
    ensures CompareTransactionStates(Literal(s), Literal(s)) == Ok(0)
  {
  }

  /** Swapping the arguments negates the result; an error in one order is an error in the other. */
  lemma CompareAntisymmetric(a: string, b: string)
    ensures CompareTransactionStates(a, b).Ok? <==> CompareTransactionStates(b, a).Ok?
    ensures CompareTransactionStates(a, b).Ok? ==>
      CompareTransactionStates(a, b).value == -CompareTransactionStates(b, a).value
  {
  }

  /** The comparison is a potential difference: two steps add up to the direct comparison,
      so Initial -> Pending and Pending -> Success both positive gives Initial -> Success positive. */
  lemma CompareAdditive(a: string, b: string, c: string)
    requires a in Literals && b in Literals && c in Literals
    ensures CompareTransactionStates(a, b).value + CompareTransactionStates(b, c).value
         == CompareTransactionStates(a, c).value
  {
  }

  /** Success and Failure compare to 0 in both directions: the terminal flip is reported as
      "same state", not rejected. */
  lemma TerminalStatesCompareEqual()
    ensures CompareTransactionStates("Success", "Failure") == Ok(0)
    ensures CompareTransactionStates("Failure", "Success") == Ok(0)
  {
  }

  /** The comparison reaches 2 and -2, outside the 1 / -1 / 0 its documentation lists. */
  lemma CompareSpansTwoRanks()
    ensures CompareTransactionStates("Initial", "Success") == Ok(2)
    ensures CompareTransactionStates("Failure", "Initial") == Ok(-2)
  {
  }

  /** The sum of the step-by-step comparisons along a path of states. */
  function StepSum(path: seq<State>): int
    decreases |path|
  {
    if |path| < 2 then 0
    else CompareStates(path[0], path[1]) + StepSum(path[1..])
  }

  /** Along any path of states, the step-by-step comparisons telescope to the comparison
      of its endpoints. */
  lemma {:induction false} StepSumTelescopes(path: seq<State>)
    requires |path| >= 1
    ensures StepSum(path) == CompareStates(path[0], path[|path| - 1])
    decreases |path|
  {
    if |path| >= 2 {
      StepSumTelescopes(path[1..]);
    }
  }

  /** Every step of the path is a forward move. */
  predicate Advancing(path: seq<State>) {
    forall i :: 0 <= i < |path| - 1 ==> CompareStates(path[i], path[i + 1]) > 0
  }

  /** A path of strictly forward moves gains at least one rank per step. */
  lemma {:induction false} AdvancingGainsRank(path: seq<State>)
    requires |path| >= 1 && Advancing(path)
    ensures StepSum(path) >= |path| - 1
    decreases |path|
  {
    if |path| >= 2 {
      assert Advancing(path[1..]) by {
        forall i | 0 <= i < |path[1..]| - 1
          ensures CompareStates(path[1..][i], path[1..][i + 1]) > 0
        {
          assert path[1..][i] == path[i + 1] && path[1..][i + 1] == path[i + 2];
        }
      }
      AdvancingGainsRank(path[1..]);
    }
  }

  /** A chain of transitions each of which the comparison reports as forward has at most
      three states (for example Initial, Pending, Success). */
  lemma AdvancingChainIsShort(path: seq<State>)
    requires Advancing(path)
    ensures |path| <= 3
  {
    if |path| >= 1 {
      AdvancingGainsRank(path);
      StepSumTelescopes(path);
    }
  }
}

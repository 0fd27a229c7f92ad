/**
 * The six states of a process.  The source declares them as an `Enum`
 * whose members are numbered by `auto()`, i.e. 1, 2, ... in declaration order.
 */
module ProcessStates {

  datatype ProcessState = Created | InQueue | InTransit | WaitingCpu | Processing | Completed

  /** The members in declaration order. */
  const AllStates: seq<ProcessState> := [Created, InQueue, InTransit, WaitingCpu, Processing, Completed]

  /** The number `auto()` gives each member. */
  function Value(s: ProcessState): (v: int)
    ensures 1 <= v <= |AllStates|
    ensures AllStates[v - 1] == s
  {
    match s
    case Created => 1
    case InQueue => 2
    case InTransit => 3
    case WaitingCpu => 4
    case Processing => 5
    case Completed => 6
  }

  /** There are exactly six members, each listed once. */
  lemma ExactlySixMembers()
    ensures |AllStates| == 6
    ensures forall s: ProcessState :: s in AllStates
    ensures forall i, j :: 0 <= i < j < |AllStates| ==> AllStates[i] != AllStates[j]
  {
    forall s: ProcessState ensures s in AllStates {
      assert AllStates[Value(s) - 1] == s;
    }
  }

  /** Distinct members carry distinct numbers, and each number is the member's declaration position. */
  lemma ValuesAreDeclarationPositions(s: ProcessState, t: ProcessState)
    ensures Value(s) == Value(t) <==> s == t
    ensures forall i :: 0 <= i < |AllStates| ==> Value(AllStates[i]) == i + 1
  {
  }

  /** WAITING_CPU is declared before PROCESSING, and COMPLETED is the last member. */
  lemma DeclarationOrder(s: ProcessState)
    ensures Value(WaitingCpu) < Value(Processing)
    ensures Value(s) <= Value(Completed)
  {
  }
}

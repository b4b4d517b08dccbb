/** The lifecycle of a user task as the engine's state stores it, with the
    one-byte code under which each state is persisted. */
module UserTaskLifecycle {

  datatype LifecycleState =
    | NOT_FOUND
    | CREATING
    | CREATED
    | COMPLETING
    | CANCELING
    | ASSIGNING
    | UPDATING
  {
    /** The persisted byte code. */
    function Code(): (b: int)
      ensures 0 <= b < 7
    {
      match this
      case NOT_FOUND => 0
      case CREATING => 1
      case CREATED => 2
      case COMPLETING => 3
      case CANCELING => 4
      case ASSIGNING => 5
      case UPDATING => 6
    }

    /** The enum constant's name, as `%s` prints it. */
    function Name(): string
    {
      match this
      case NOT_FOUND => "NOT_FOUND"
      case CREATING => "CREATING"
      case CREATED => "CREATED"
      case COMPLETING => "COMPLETING"
      case CANCELING => "CANCELING"
      case ASSIGNING => "ASSIGNING"
      case UPDATING => "UPDATING"
    }
  }

  /** The constants in declaration order. */
  const Declared: seq<LifecycleState> :=
    [NOT_FOUND, CREATING, CREATED, COMPLETING, CANCELING, ASSIGNING, UPDATING]

  /** There are exactly seven states, and their codes run 0..6 in declaration
      order. */
  lemma CodesFollowDeclarationOrder(s: LifecycleState)
    ensures |Declared| == 7
    ensures s in Declared
    ensures forall i :: 0 <= i < |Declared| ==> Declared[i].Code() == i
    ensures Declared[s.Code()] == s
  {
  }

  /** Distinct states are stored under distinct codes, so a stored code
      identifies the state. */
  lemma {:induction false} CodeInjective(s: LifecycleState, t: LifecycleState)
    ensures s.Code() == t.Code() <==> s == t
  {
    CodesFollowDeclarationOrder(s);
    CodesFollowDeclarationOrder(t);
  }
}

/** The remove-members request: turn a set of requested members into one
    MemberLeaveOperation per requested member that is in the topology. */
module RemoveMembers {
  import opened Wrappers
  import opened TopologyOperations
  import MemberJoin

  /** The request never fails; the error side is kept for the shape of the
      transformer interface. */
  datatype TransformError = InvalidRequest(message: string)

  /** The stream `filter(hasMember).map(MemberLeaveOperation::new).toList()`
      over the requested members, taken in the set's iteration order. */
  function LeaveOperations(members: seq<MemberId>, topology: MemberJoin.ClusterTopology): (ops: seq<TopologyChangeOperation>)
    ensures |ops| <= |members|
    ensures forall i :: 0 <= i < |ops| ==> ops[i].MemberLeaveOperation?
    ensures forall op :: op in ops <==>
              op.MemberLeaveOperation? && op.memberId in members && op.memberId in topology
  {
    if members == [] then []
    else
      var rest := LeaveOperations(members[1..], topology);
      if members[0] in topology then [MemberLeaveOperation(members[0])] + rest else rest
  }

  /** `operations(currentTopology)`: always Right. */
  function Operations(members: seq<MemberId>, topology: MemberJoin.ClusterTopology): (r: Either<TransformError, seq<TopologyChangeOperation>>)
    ensures r.Right?
    ensures r.right == LeaveOperations(members, topology)
  {
    Right(LeaveOperations(members, topology))
  }

  predicate NoDuplicates<T(==)>(s: seq<T>)
  {
    forall i, j :: 0 <= i < j < |s| ==> s[i] != s[j]
  }

  /** With a duplicate-free request (a set), each present member yields exactly
      one operation. */
  lemma {:induction false} LeaveOperationsDistinct(members: seq<MemberId>, topology: MemberJoin.ClusterTopology)
    requires NoDuplicates(members)
    ensures NoDuplicates(LeaveOperations(members, topology))
  {
    if members != [] {
      var tail := members[1..];
      assert NoDuplicates(tail) by {
        forall i, j | 0 <= i < j < |tail| ensures tail[i] != tail[j] {
          assert tail[i] == members[i + 1] && tail[j] == members[j + 1];
        }
      }
      LeaveOperationsDistinct(tail, topology);
      var rest := LeaveOperations(tail, topology);
      if members[0] in topology {
        assert members[0] !in tail;
        assert MemberLeaveOperation(members[0]) !in rest;
        var ops := [MemberLeaveOperation(members[0])] + rest;
        assert LeaveOperations(members, topology) == ops;
        forall i, j | 0 <= i < j < |ops| ensures ops[i] != ops[j] {
          assert ops[j] == rest[j - 1] && ops[j] in rest;
          if i > 0 { assert ops[i] == rest[i - 1]; }
        }
      }
    }
  }

  /** Nothing requested is present: no operation at all. */
  lemma {:induction false} NoPresentMemberGivesNoOperations(members: seq<MemberId>, topology: MemberJoin.ClusterTopology)
    requires forall m :: m in members ==> m !in topology
    ensures Operations(members, topology) == Right([])
  {
    if members != [] {
      assert members[0] !in topology;
      NoPresentMemberGivesNoOperations(members[1..], topology);
    }
  }

  /** Requesting {2} of the topology {1, 2} yields exactly [MemberLeave(2)];
      requesting {2, 3} yields the same, member 3 being silently skipped. */
  lemma RemoveExamples()
    ensures var topology := map["1" := MemberJoin.MemberState(MemberJoin.ACTIVE), "2" := MemberJoin.MemberState(MemberJoin.ACTIVE)];
            && Operations(["2"], topology) == Right([MemberLeaveOperation("2")])
            && Operations(["2", "3"], topology) == Right([MemberLeaveOperation("2")])
            && Operations(["3"], topology) == Right([])
  {
    var topology := map["1" := MemberJoin.MemberState(MemberJoin.ACTIVE), "2" := MemberJoin.MemberState(MemberJoin.ACTIVE)];
    assert "2" in topology && "3" !in topology;
    assert LeaveOperations([], topology) == [];
    assert ["2"][1..] == [] && ["3"][1..] == [] && ["2", "3"][1..] == ["3"];
    assert LeaveOperations(["3"], topology) == [];
    assert LeaveOperations(["2"], topology) == [MemberLeaveOperation("2")];
    assert LeaveOperations(["2", "3"], topology) == [MemberLeaveOperation("2")];
  }
}

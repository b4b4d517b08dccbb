/** The closed vocabulary of cluster-topology changes: a member joins, leaves or
    is force-removed, or a member joins, leaves, re-prioritises or
    force-reconfigures one partition's replication group. */
module TopologyOperations {

  /** A cluster member's identifier (`MemberId.from("1")`). */
  type MemberId = string

  /** Seven variants; the four partition-level ones form the nested
      `PartitionChangeOperation` family and carry a partition id. */
  datatype TopologyChangeOperation =
    | MemberJoinOperation(memberId: MemberId)
    | MemberLeaveOperation(memberId: MemberId)
      /** `memberId` applies the operation, `memberToRemove` is removed. */
    | MemberRemoveOperation(memberId: MemberId, memberToRemove: MemberId)
    | PartitionJoinOperation(memberId: MemberId, partitionId: int, priority: int)
    | PartitionLeaveOperation(memberId: MemberId, partitionId: int)
    | PartitionReconfigurePriorityOperation(memberId: MemberId, partitionId: int, priority: int)
      /** `members` is the partition's complete replication group afterwards. */
    | PartitionForceReconfigureOperation(memberId: MemberId, partitionId: int, members: seq<MemberId>)
  {
    /** Membership of the `PartitionChangeOperation` sub-interface. */
    predicate IsPartitionChange()
    {
      PartitionJoinOperation? || PartitionLeaveOperation?
      || PartitionReconfigurePriorityOperation? || PartitionForceReconfigureOperation?
    }

    /** The operations that change cluster membership itself. */
    predicate IsMemberChange()
    {
      MemberJoinOperation? || MemberLeaveOperation? || MemberRemoveOperation?
    }
  }

  /** A position for each variant in declaration order. */
  function VariantIndex(op: TopologyChangeOperation): (i: nat)
    ensures i < 7
    ensures op.IsMemberChange() <==> i < 3
    ensures op.IsPartitionChange() <==> 3 <= i
  {
    match op
    case MemberJoinOperation(_) => 0
    case MemberLeaveOperation(_) => 1
    case MemberRemoveOperation(_, _) => 2
    case PartitionJoinOperation(_, _, _) => 3
    case PartitionLeaveOperation(_, _) => 4
    case PartitionReconfigurePriorityOperation(_, _, _) => 5
    case PartitionForceReconfigureOperation(_, _, _) => 6
  }

  /** One representative of each variant, all issued by member `m`. */
  function Representatives(m: MemberId): (ops: seq<TopologyChangeOperation>)
    ensures |ops| == 7
    ensures forall i :: 0 <= i < 7 ==> VariantIndex(ops[i]) == i && ops[i].memberId == m
  {
    [ MemberJoinOperation(m), MemberLeaveOperation(m), MemberRemoveOperation(m, m),
      PartitionJoinOperation(m, 1, 1), PartitionLeaveOperation(m, 1),
      PartitionReconfigurePriorityOperation(m, 1, 1),
      PartitionForceReconfigureOperation(m, 1, [m]) ]
  }

  /** Exactly seven variants: every operation falls into one of seven classes,
      each class is inhabited, and the member and partition families split them
      three to four. */
  lemma ExactlySevenVariants(op: TopologyChangeOperation)
    ensures op.IsMemberChange() != op.IsPartitionChange()
    ensures exists i :: 0 <= i < 7 && VariantIndex(op) == VariantIndex(Representatives(op.memberId)[i])
    ensures forall i, j :: 0 <= i < j < 7 ==>
              VariantIndex(Representatives(op.memberId)[i]) != VariantIndex(Representatives(op.memberId)[j])
  {
    var reps := Representatives(op.memberId);
    var k := VariantIndex(op);
    assert VariantIndex(reps[k]) == k;
  }

  /** The issuer and the removed member of a force removal are independent:
      member "0" may remove member "1". */
  lemma RemoveIssuerMayDifferFromTarget()
    ensures var op := MemberRemoveOperation("0", "1");
            op.memberId == "0" && op.memberToRemove == "1" && op.memberId != op.memberToRemove
  {
  }

  /** Operations are values: two built from the same fields are equal, and a
      difference in any field makes them differ. */
  lemma StructuralEquality(m: MemberId, p: int, q: int, ms: seq<MemberId>, ms': seq<MemberId>)
    ensures PartitionForceReconfigureOperation(m, p, ms) == PartitionForceReconfigureOperation(m, p, ms')
            <==> ms == ms'
    ensures PartitionJoinOperation(m, p, q) != PartitionReconfigurePriorityOperation(m, p, q)
  {
  }
}

/** The validation half and the completion mapping of the member-join applier,
    over the part of the cluster topology it looks at: which members exist and
    in which lifecycle state each one is. */
module MemberJoin {
  import opened Wrappers
  import opened TopologyOperations

  /** Lifecycle of a cluster member. */
  datatype State = UNINITIALIZED | JOINING | ACTIVE | LEAVING | LEFT

  /** The member state as far as the join applier is concerned. */
  datatype MemberState = MemberState(state: State)

  const Uninitialized: MemberState := MemberState(UNINITIALIZED)

  /** Member id to member state; every other part of the topology is untouched
      by this applier and is not modelled. */
  type ClusterTopology = map<MemberId, MemberState>

  /** The member-state transforms (`UnaryOperator<MemberState>`) this applier
      hands out, named instead of passed as lambdas so that they can be compared. */
  datatype MemberStateTransform =
    | Identity      // UnaryOperator.identity()
    | InitJoining   // ignore -> MemberState.uninitialized().toJoining()
    | ToActive      // MemberState::toActive

  function ApplyTransform(t: MemberStateTransform, s: MemberState): (r: MemberState)
  {
    match t
    case Identity => s
    case InitJoining => MemberState(JOINING)
    case ToActive => MemberState(ACTIVE)
  }

  /** How the topology applies a member transform: to the member's current state,
      or, for a member not yet in the topology, to a fresh uninitialized state. */
  function UpdateMember(topology: ClusterTopology, id: MemberId, t: MemberStateTransform): (r: ClusterTopology)
    ensures r.Keys == topology.Keys + {id}
    ensures forall other :: other in topology && other != id ==> r[other] == topology[other]
  {
    var current := if id in topology then topology[id] else Uninitialized;
    topology[id := ApplyTransform(t, current)]
  }

  datatype JoinError = AlreadyPartOfTopology(memberId: MemberId)

  /** `initMemberState`: reject a member that is already in the topology in any
      state other than JOINING; accept a JOINING member without change (a restart
      while the join was being applied); otherwise create the member as JOINING. */
  function InitMemberState(memberId: MemberId, topology: ClusterTopology): (r: Either<JoinError, MemberStateTransform>)
    ensures r.Left? <==> memberId in topology && topology[memberId].state != JOINING
    ensures r.Left? ==> r.left == AlreadyPartOfTopology(memberId)
    ensures memberId in topology && topology[memberId].state == JOINING ==> r == Right(Identity)
    ensures memberId !in topology ==>
              r.Right? && forall s :: ApplyTransform(r.right, s) == MemberState(JOINING)
  {
    if memberId in topology && topology[memberId].state != JOINING then
      Left(AlreadyPartOfTopology(memberId))
    else if memberId in topology && topology[memberId].state == JOINING then
      Right(Identity)
    else
      Right(InitJoining)
  }

  /** Whenever validation succeeds, the member is JOINING once the transform is
      applied, and no other member changes. */
  lemma InitMemberStateLeavesMemberJoining(memberId: MemberId, topology: ClusterTopology)
    requires InitMemberState(memberId, topology).Right?
    ensures var after := UpdateMember(topology, memberId, InitMemberState(memberId, topology).right);
            memberId in after && after[memberId].state == JOINING
            && forall other :: other in topology && other != memberId ==> after[other] == topology[other]
  {
  }

  /** Restart safety: validating again on the topology produced by the first
      validation's transform succeeds with the identity, so re-applying the join
      changes nothing. */
  lemma InitMemberStateIdempotent(memberId: MemberId, topology: ClusterTopology)
    requires InitMemberState(memberId, topology).Right?
    ensures var after := UpdateMember(topology, memberId, InitMemberState(memberId, topology).right);
            InitMemberState(memberId, after) == Right(Identity)
            && UpdateMember(after, memberId, Identity) == after
  {
    InitMemberStateLeavesMemberJoining(memberId, topology);
  }

  /** The outcome of the membership executor's `addBroker`: success, or the
      error it failed with. */
  datatype AddBrokerOutcome<E> = Added | Failed(error: E)

  /** `applyOperation`'s completion: once the broker was added the member is made
      ACTIVE; a failure is passed on and no transform is produced. */
  function ApplyOperationResult<E>(outcome: AddBrokerOutcome<E>): (r: Either<E, MemberStateTransform>)
    ensures r.Right? <==> outcome.Added?
    ensures r.Right? ==> forall s :: ApplyTransform(r.right, s).state == ACTIVE
    ensures outcome.Failed? ==> r == Left(outcome.error)
  {
    match outcome
    case Added => Right(ToActive)
    case Failed(e) => Left(e)
  }

  /** The whole join, validation then completion, takes an absent member to
      ACTIVE and leaves every other member as it was. */
  lemma JoinOfAbsentMemberEndsActive(memberId: MemberId, topology: ClusterTopology)
    requires memberId !in topology
    ensures var joining := UpdateMember(topology, memberId, InitMemberState(memberId, topology).right);
            var done := UpdateMember(joining, memberId, ApplyOperationResult<JoinError>(Added).right);
            done == topology[memberId := MemberState(ACTIVE)]
  {
  }
}

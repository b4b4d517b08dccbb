/** Processing of the user-task CLAIM command: after the common preconditions
    (task visible and CREATED) and the claim-specific assignee checks, the task
    is assigned and two follow-up events and a response are written. */
module UserTaskClaim {
  import opened Wrappers
  import opened JavaText
  import opened UserTaskLifecycle
  import opened UserTaskRecords
  import opened UserTaskStore
  import opened UserTaskPreconditions

  /** The action a claim records when the command names none. */
  const DefaultAction: string := "claim"

  function AlreadyAssignedMessage(key: int): string
  {
    "Expected to claim user task with key '" + IntToString(key) + "', but it has already been assigned"
  }

  function EmptyAssigneeMessage(key: int): string
  {
    "Expected to claim user task with key '" + IntToString(key) + "', but provided assignee is empty"
  }

  /** `checkClaim`: a blank new assignee is rejected first; otherwise the task
      may be claimed when it has no assignee yet or already has this one. */
  function CheckClaim(command: Command, persisted: UserTask): (r: Either<Rejection, UserTask>)
    ensures IsBlank(command.value.assignee) ==>
              r == Left(Rejection(INVALID_STATE, EmptyAssigneeMessage(command.key)))
    ensures !IsBlank(command.value.assignee) && !IsBlank(persisted.assignee)
            && persisted.assignee != command.value.assignee ==>
              r == Left(Rejection(INVALID_STATE, AlreadyAssignedMessage(command.key)))
    ensures r.Right? <==> !IsBlank(command.value.assignee)
                          && (IsBlank(persisted.assignee) || persisted.assignee == command.value.assignee)
    ensures r.Right? ==> r.right == persisted
  {
    var newAssignee := command.value.assignee;
    if IsBlank(newAssignee) then
      Left(Rejection(INVALID_STATE, EmptyAssigneeMessage(command.key)))
    else
      var currentAssignee := persisted.assignee;
      var canClaim := IsBlank(currentAssignee) || currentAssignee == newAssignee;
      if !canClaim then
        Left(Rejection(INVALID_STATE, AlreadyAssignedMessage(command.key)))
      else
        Right(persisted)
  }

  /** The claim processor's precondition configuration. */
  const ClaimPreconditions: PreconditionChecker :=
    PreconditionChecker([CREATED], "claim", Some(CheckClaim))

  /** The record a successful claim writes: the persisted task with the new
      assignee and the command's action (or the default one). */
  function Claimed(command: Command, persisted: UserTask): (t: UserTask)
    ensures t.assignee == command.value.assignee
    ensures t.action == command.value.ActionOrDefault(DefaultAction)
    ensures t.(assignee := persisted.assignee, action := persisted.action) == persisted
  {
    persisted.(assignee := command.value.assignee, action := command.value.ActionOrDefault(DefaultAction))
  }

  /** The user-task event intents a claim produces. */
  datatype UserTaskIntent = ASSIGNING | ASSIGNED

  datatype FollowUpEvent = FollowUpEvent(key: int, intent: UserTaskIntent, value: UserTask)

  datatype CommandRejection = CommandRejection(command: Command, rejectionType: RejectionType, reason: string)

  datatype Response =
    | EventResponse(key: int, intent: UserTaskIntent, value: UserTask, command: Command)
    | RejectionResponse(command: Command, rejectionType: RejectionType, reason: string)

  /** The state, rejection and response writers, as the logs of what each
      has been given; a record is written as its value at that moment. */
  class Writers {
    var events: seq<FollowUpEvent>
    var rejections: seq<CommandRejection>
    var responses: seq<Response>

    constructor ()
      ensures events == [] && rejections == [] && responses == []
    {
      events, rejections, responses := [], [], [];
    }

    method AppendFollowUpEvent(key: int, intent: UserTaskIntent, record: UserTaskRecord)
      modifies this
      ensures events == old(events) + [FollowUpEvent(key, intent, record.properties)]
      ensures rejections == old(rejections) && responses == old(responses)
    {
      events := events + [FollowUpEvent(key, intent, record.properties)];
    }

    method AppendRejection(command: Command, rejectionType: RejectionType, reason: string)
      modifies this
      ensures rejections == old(rejections) + [CommandRejection(command, rejectionType, reason)]
      ensures events == old(events) && responses == old(responses)
    {
      rejections := rejections + [CommandRejection(command, rejectionType, reason)];
    }

    method WriteRejectionOnCommand(command: Command, rejectionType: RejectionType, reason: string)
      modifies this
      ensures responses == old(responses) + [RejectionResponse(command, rejectionType, reason)]
      ensures events == old(events) && rejections == old(rejections)
    {
      responses := responses + [RejectionResponse(command, rejectionType, reason)];
    }

    method WriteEventOnCommand(key: int, intent: UserTaskIntent, record: UserTaskRecord, command: Command)
      modifies this
      ensures responses == old(responses) + [EventResponse(key, intent, record.properties, command)]
      ensures events == old(events) && rejections == old(rejections)
    {
      responses := responses + [EventResponse(key, intent, record.properties, command)];
    }
  }

  class UserTaskClaimProcessor {
    const state: DbUserTaskState
    const writers: Writers
    const preconditionChecker: PreconditionChecker

    constructor (state: DbUserTaskState, writers: Writers)
      ensures this.state == state && this.writers == writers
      ensures preconditionChecker == ClaimPreconditions
    {
      this.state := state;
      this.writers := writers;
      preconditionChecker := ClaimPreconditions;
    }

    /** `processRecord`: on a violation, one rejection and one rejection
        response carrying its type and reason; otherwise the claim. The
        writers are logs of what they are given; the event appliers that
        apply the written events to the user-task state are not modelled. */
    method ProcessRecord(command: Command)
      modifies writers
      ensures var checked := Check(preconditionChecker, state, command);
              match checked
              case Right(persisted) =>
                var claimed := Claimed(command, persisted);
                && writers.events == old(writers.events)
                     + [FollowUpEvent(command.key, UserTaskIntent.ASSIGNING, claimed), FollowUpEvent(command.key, ASSIGNED, claimed)]
                && writers.responses == old(writers.responses) + [EventResponse(command.key, ASSIGNED, claimed, command)]
                && writers.rejections == old(writers.rejections)
              case Left(violation) =>
                && writers.rejections == old(writers.rejections)
                     + [CommandRejection(command, violation.rejectionType, violation.reason)]
                && writers.responses == old(writers.responses)
                     + [RejectionResponse(command, violation.rejectionType, violation.reason)]
                && writers.events == old(writers.events)
    {
      var checked := Check(preconditionChecker, state, command);
      if checked.Right? {
        var userTaskRecord := new UserTaskRecord.Of(checked.right);
        ClaimUserTask(command, userTaskRecord);
      } else {
        var violation := checked.left;
        writers.AppendRejection(command, violation.rejectionType, violation.reason);
        writers.WriteRejectionOnCommand(command, violation.rejectionType, violation.reason);
      }
    }

    /** `claimUserTask`: set assignee and action on the record, then write
        ASSIGNING and ASSIGNED events and an ASSIGNED response. */
    method ClaimUserTask(command: Command, userTaskRecord: UserTaskRecord)
      modifies userTaskRecord, writers
      ensures userTaskRecord.properties == Claimed(command, old(userTaskRecord.properties))
      ensures writers.events == old(writers.events)
                + [FollowUpEvent(command.key, UserTaskIntent.ASSIGNING, userTaskRecord.properties),
                   FollowUpEvent(command.key, ASSIGNED, userTaskRecord.properties)]
      ensures writers.responses == old(writers.responses)
                + [EventResponse(command.key, ASSIGNED, userTaskRecord.properties, command)]
      ensures writers.rejections == old(writers.rejections)
    {
      var userTaskKey := command.key;
      userTaskRecord.SetAssignee(command.value.assignee);
      userTaskRecord.SetAction(command.value.ActionOrDefault(DefaultAction));
      writers.AppendFollowUpEvent(userTaskKey, UserTaskIntent.ASSIGNING, userTaskRecord);
      writers.AppendFollowUpEvent(userTaskKey, ASSIGNED, userTaskRecord);
      writers.WriteEventOnCommand(userTaskKey, ASSIGNED, userTaskRecord, command);
    }
  }

  /** When a claim is accepted: the task is visible to the command's tenants,
      it is CREATED, the new assignee is not blank, and the task is unassigned
      or already assigned to that same assignee. */
  lemma ClaimAcceptedIff(state: DbUserTaskState, command: Command)
    ensures Check(ClaimPreconditions, state, command).Right? <==>
              && command.key in state.userTasks
              && state.userTasks[command.key].tenantId in command.authorizedTenants
              && state.GetLifecycleState(command.key) == CREATED
              && !IsBlank(command.value.assignee)
              && (IsBlank(state.userTasks[command.key].assignee)
                  || state.userTasks[command.key].assignee == command.value.assignee)
  {
    if Check(ClaimPreconditions, state, command).Right? {
      assert state.GetLifecycleState(command.key) in [CREATED];
    }
  }

  /** A task in any lifecycle state other than CREATED is rejected as being in
      an invalid state before its assignee is looked at. */
  lemma ClaimOfTaskNotCreatedIsInvalidState(state: DbUserTaskState, command: Command)
    requires command.key in state.userTasks
    requires state.userTasks[command.key].tenantId in command.authorizedTenants
    requires state.GetLifecycleState(command.key) != CREATED
    ensures Check(ClaimPreconditions, state, command)
              == Left(Rejection(INVALID_STATE, InvalidStateMessage("claim", command.key, state.GetLifecycleState(command.key))))
  {
  }

  /** Claiming twice with the same assignee is accepted both times: the claimed
      record passes the claim checks again. */
  lemma ReclaimBySameAssigneeAccepted(command: Command, persisted: UserTask)
    requires CheckClaim(command, persisted).Right?
    ensures CheckClaim(command, Claimed(command, persisted)).Right?
  {
  }
}

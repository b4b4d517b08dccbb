/** The checks every user-task command goes through before it is processed:
    the task must exist for the command's tenants, be in one of the lifecycle
    states the command accepts, and pass the command's own additional checks. */
module UserTaskPreconditions {
  import opened Wrappers
  import opened JavaText
  import opened UserTaskLifecycle
  import opened UserTaskRecords
  import opened UserTaskStore

  /** The rejection types these checks produce. */
  datatype RejectionType = NOT_FOUND | INVALID_STATE

  datatype Rejection = Rejection(rejectionType: RejectionType, reason: string)

  /** A command on a user task: its key, its record value, and the tenants the
      sender is authorized for. */
  datatype Command = Command(key: int, value: UserTask, authorizedTenants: seq<string>)

  /** A command's extra validation of the persisted record. */
  type AdditionalChecks = (Command, UserTask) -> Either<Rejection, UserTask>

  /** The checker's fixed configuration; `additionalChecks` is absent (null)
      when the command has none. */
  datatype PreconditionChecker = PreconditionChecker(
    validLifecycleStates: seq<LifecycleState>,
    intent: string,
    additionalChecks: Option<AdditionalChecks>)

  function NotFoundMessage(intent: string, key: int): string
  {
    "Expected to " + intent + " user task with key '" + IntToString(key)
    + "', but no such user task was found"
  }

  function InvalidStateMessage(intent: string, key: int, state: LifecycleState): string
  {
    "Expected to " + intent + " user task with key '" + IntToString(key)
    + "', but it is in state '" + state.Name() + "'"
  }

  /** `check`: NOT_FOUND when no record is visible to the command's tenants;
      otherwise INVALID_STATE when the lifecycle state is not accepted;
      otherwise the additional checks' rejection if they reject, and the
      persisted record if they accept or there are none. */
  function Check(checker: PreconditionChecker, state: DbUserTaskState, command: Command): (r: Either<Rejection, UserTask>)
    reads state
    ensures var found := command.key in state.userTasks
                         && state.userTasks[command.key].tenantId in command.authorizedTenants;
            var accepted := state.GetLifecycleState(command.key) in checker.validLifecycleStates;
            && (!found ==> r == Left(Rejection(RejectionType.NOT_FOUND, NotFoundMessage(checker.intent, command.key))))
            && (found && !accepted ==>
                  r == Left(Rejection(INVALID_STATE, InvalidStateMessage(checker.intent, command.key, state.GetLifecycleState(command.key)))))
            && (r.Right? <==>
                  (found && accepted
                   && (checker.additionalChecks.None?
                       || checker.additionalChecks.value(command, state.userTasks[command.key]).Right?)))
            && (r.Right? ==> r.right == state.userTasks[command.key])
            && (found && accepted && checker.additionalChecks.Some?
                && checker.additionalChecks.value(command, state.userTasks[command.key]).Left? ==>
                  r == checker.additionalChecks.value(command, state.userTasks[command.key]))
  {
    var persisted := state.GetAuthorizedUserTask(command.key, command.authorizedTenants);
    if persisted.None? then
      Left(Rejection(RejectionType.NOT_FOUND, NotFoundMessage(checker.intent, command.key)))
    else
      var lifecycleState := state.GetLifecycleState(command.key);
      if lifecycleState !in checker.validLifecycleStates then
        Left(Rejection(INVALID_STATE, InvalidStateMessage(checker.intent, command.key, lifecycleState)))
      else
        match checker.additionalChecks
        case Some(checks) =>
          var outcome := checks(command, persisted.value);
          if outcome.Left? then outcome else Right(persisted.value)
        case None => Right(persisted.value)
  }

  /** A task that exists but belongs to a tenant the command is not authorized
      for is reported as not found, whatever its lifecycle state. */
  lemma UnauthorizedTenantIsNotFound(checker: PreconditionChecker, state: DbUserTaskState, command: Command)
    requires command.key in state.userTasks
    requires state.userTasks[command.key].tenantId !in command.authorizedTenants
    ensures Check(checker, state, command).Left?
    ensures Check(checker, state, command).left.rejectionType == RejectionType.NOT_FOUND
  {
  }

  /** Whatever the additional checks answer on success, the checker hands on
      the persisted record itself. */
  lemma AdditionalSuccessValueIsDiscarded(checker: PreconditionChecker, state: DbUserTaskState, command: Command, other: UserTask)
    requires checker.additionalChecks.Some?
    requires command.key in state.userTasks
    requires checker.additionalChecks.value(command, state.userTasks[command.key]) == Right(other)
    requires other != state.userTasks[command.key]
    ensures Check(checker, state, command) != Right(other)
  {
  }
}

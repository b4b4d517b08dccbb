/** The engine's persisted user-task state: one table of task records keyed by
    user-task key, and one table of lifecycle states whose keys must exist in
    the first (a foreign key). */
module UserTaskStore {
  import opened Wrappers
  import opened UserTaskLifecycle
  import opened UserTaskRecords

  /** What the record table stores for a task: every property but the
      variables, which are not persisted and read back as the empty document. */
  function WithoutVariables(t: UserTask): (r: UserTask)
    ensures r.variables == EmptyDocument
    ensures r.(variables := t.variables) == t
  {
    t.(variables := EmptyDocument)
  }

  class DbUserTaskState {
    /** user-task key -> stored record */
    var userTasks: map<int, UserTask>
    /** user-task key -> lifecycle state */
    var lifecycleStates: map<int, LifecycleState>

    /** Every stored record has a lifecycle entry and vice versa, each record is
        stored under its own key, and none carries variables. */
    ghost predicate Valid()
      reads this
    {
      && userTasks.Keys == lifecycleStates.Keys
      && (forall k :: k in userTasks ==> userTasks[k].userTaskKey == k)
      && (forall k :: k in userTasks ==> userTasks[k].variables == EmptyDocument)
    }

    constructor ()
      ensures Valid()
      ensures userTasks == map[] && lifecycleStates == map[]
    {
      userTasks := map[];
      lifecycleStates := map[];
    }

    /** `create`: insert the record without its variables under its key, and
        the state CREATING. Both inserts require the key to be new. */
    method Create(userTask: UserTaskRecord)
      requires Valid()
      requires userTask.properties.userTaskKey !in userTasks
      modifies this
      ensures Valid()
      ensures var key := userTask.properties.userTaskKey;
              && userTasks == old(userTasks)[key := WithoutVariables(userTask.properties)]
              && lifecycleStates == old(lifecycleStates)[key := CREATING]
      ensures GetLifecycleState(userTask.properties.userTaskKey) == CREATING
      ensures GetUserTask(userTask.properties.userTaskKey) == Some(WithoutVariables(userTask.properties))
    {
      var key := userTask.properties.userTaskKey;
      userTasks := userTasks[key := WithoutVariables(userTask.properties)];
      lifecycleStates := lifecycleStates[key := CREATING];
    }

    /** `update`: replace the stored record of an existing task; its lifecycle
        state stays. */
    method Update(userTask: UserTaskRecord)
      requires Valid()
      requires userTask.properties.userTaskKey in userTasks
      modifies this
      ensures Valid()
      ensures userTasks == old(userTasks)[userTask.properties.userTaskKey := WithoutVariables(userTask.properties)]
      ensures lifecycleStates == old(lifecycleStates)
      ensures GetUserTask(userTask.properties.userTaskKey) == Some(WithoutVariables(userTask.properties))
    {
      var key := userTask.properties.userTaskKey;
      userTasks := userTasks[key := WithoutVariables(userTask.properties)];
    }

    /** `updateUserTaskLifecycleState`: change only the state of an existing task. */
    method UpdateUserTaskLifecycleState(key: int, newLifecycleState: LifecycleState)
      requires Valid()
      requires key in lifecycleStates
      modifies this
      ensures Valid()
      ensures lifecycleStates == old(lifecycleStates)[key := newLifecycleState]
      ensures userTasks == old(userTasks)
      ensures GetLifecycleState(key) == newLifecycleState
    {
      lifecycleStates := lifecycleStates[key := newLifecycleState];
    }

    /** `delete`: remove the record and the state of an existing task. */
    method Delete(key: int)
      requires Valid()
      requires key in userTasks && key in lifecycleStates
      modifies this
      ensures Valid()
      ensures userTasks == old(userTasks) - {key}
      ensures lifecycleStates == old(lifecycleStates) - {key}
      ensures GetLifecycleState(key) == NOT_FOUND && GetUserTask(key) == None
    {
      userTasks := userTasks - {key};
      lifecycleStates := lifecycleStates - {key};
    }

    /** `getLifecycleState`: the stored state, NOT_FOUND when there is none. */
    function GetLifecycleState(key: int): (s: LifecycleState)
      reads this
      ensures key !in lifecycleStates ==> s == NOT_FOUND
      ensures key in lifecycleStates ==> s == lifecycleStates[key]
    {
      if key in lifecycleStates then lifecycleStates[key] else NOT_FOUND
    }

    /** `getUserTask(key)`: the stored record, or nothing (null). */
    function GetUserTask(key: int): (r: Option<UserTask>)
      reads this
      ensures r.Some? <==> key in userTasks
      ensures r.Some? ==> r.value == userTasks[key]
    {
      if key in userTasks then Some(userTasks[key]) else None
    }

    /** `getUserTask(key, authorizations)`: the stored record only when its
        tenant is among the authorized tenants. */
    function GetAuthorizedUserTask(key: int, authorizedTenants: seq<string>): (r: Option<UserTask>)
      reads this
      ensures r.Some? <==> key in userTasks && userTasks[key].tenantId in authorizedTenants
      ensures r.Some? ==> r.value == userTasks[key]
    {
      var userTask := GetUserTask(key);
      if userTask.Some? && userTask.value.tenantId in authorizedTenants then userTask else None
    }
  }

  /** A task with no stored lifecycle state reads as NOT_FOUND, the state
      with byte code 0 that is declared first. */
  lemma UnstoredTaskReadsAsCodeZero(state: DbUserTaskState, key: int)
    requires key !in state.lifecycleStates
    ensures state.GetLifecycleState(key) == NOT_FOUND
    ensures state.GetLifecycleState(key).Code() == 0
    ensures state.GetLifecycleState(key) == Declared[0]
  {
    CodesFollowDeclarationOrder(NOT_FOUND);
  }
}

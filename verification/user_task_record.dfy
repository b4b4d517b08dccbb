/** The user-task record: the field bag that commands and events about a user
    task carry, with the copy operations the engine uses to persist it and to
    merge updates into it. */
module UserTaskRecords {

  /** A byte of a MessagePack document. */
  newtype byte = x: int | 0 <= x < 256

  /** The empty MessagePack map: the default of the variables and custom-header
      documents. */
  const EmptyDocument: seq<byte> := [0x80]

  /** The tenant a record belongs to when none is set. */
  const DefaultTenant: string := "<default>"

  /** The attribute names that `wrapChangedAttributes` understands. */
  const CandidateGroups: string := "candidateGroupsList"
  const CandidateUsers: string := "candidateUsersList"
  const DueDate: string := "dueDate"
  const FollowUpDate: string := "followUpDate"

  /** A snapshot of every property of a record, in declaration order. Keys and
      timestamps are Java `long`s, the definition version an `int`. */
  datatype UserTask = UserTask(
    userTaskKey: int,
    assignee: string,
    candidateGroupsList: seq<string>,
    candidateUsersList: seq<string>,
    dueDate: string,
    followUpDate: string,
    formKey: int,
    externalFormReference: string,
    variables: seq<byte>,
    customHeaders: seq<byte>,
    bpmnProcessId: string,
    processDefinitionVersion: int,
    processDefinitionKey: int,
    processInstanceKey: int,
    elementId: string,
    elementInstanceKey: int,
    tenantId: string,
    changedAttributes: seq<string>,
    action: string,
    creationTimestamp: int)
  {
    /** `getActionOrDefault`: the action, or `defaultAction` when none is set. */
    function ActionOrDefault(defaultAction: string): (r: string)
      ensures action == "" ==> r == defaultAction
      ensures action != "" ==> r == action
      ensures r == defaultAction || r == action
    {
      if action == "" then defaultAction else action
    }
  }

  /** The properties of a freshly constructed record. */
  const Default: UserTask := UserTask(
    userTaskKey := -1,
    assignee := "",
    candidateGroupsList := [],
    candidateUsersList := [],
    dueDate := "",
    followUpDate := "",
    formKey := -1,
    externalFormReference := "",
    variables := EmptyDocument,
    customHeaders := EmptyDocument,
    bpmnProcessId := "",
    processDefinitionVersion := -1,
    processDefinitionKey := -1,
    processInstanceKey := -1,
    elementId := "",
    elementInstanceKey := -1,
    tenantId := DefaultTenant,
    changedAttributes := [],
    action := "",
    creationTimestamp := -1)

  /** `getActionOrDefault` gives the default exactly when no action is set,
      unless the action happens to equal the default. */
  lemma ActionOrDefaultIsDefaultIff(t: UserTask, d: string)
    requires t.action != d
    ensures t.ActionOrDefault(d) == d <==> t.action == ""
  {
  }

  /** A record object. Its declared properties live together in one document,
      modelled as one `UserTask` value that the setters update in place. */
  class UserTaskRecord {
    var properties: UserTask

    /** A new record: keys, timestamp and version -1, strings empty except the
        default tenant, lists empty, documents the empty map. */
    constructor ()
      ensures properties == Default
      ensures properties.userTaskKey == -1 && properties.formKey == -1
      ensures properties.processInstanceKey == -1 && properties.processDefinitionKey == -1
      ensures properties.elementInstanceKey == -1 && properties.creationTimestamp == -1
      ensures properties.processDefinitionVersion == -1
      ensures properties.tenantId == DefaultTenant && properties.assignee == "" && properties.action == ""
      ensures properties.candidateGroupsList == [] && properties.candidateUsersList == []
      ensures properties.changedAttributes == []
    {
      properties := Default;
    }

    /** A record holding the given properties, as the state hands out a stored
        record. */
    constructor Of(t: UserTask)
      ensures properties == t
    {
      properties := t;
    }

    method SetAssignee(a: string)
      modifies this
      ensures properties == old(properties).(assignee := a)
    {
      properties := properties.(assignee := a);
    }

    method SetAction(a: string)
      modifies this
      ensures properties == old(properties).(action := a)
    {
      properties := properties.(action := a);
    }

    /** Reset the list, then add the given groups one by one. */
    method SetCandidateGroupsList(groups: seq<string>)
      modifies this
      ensures properties == old(properties).(candidateGroupsList := groups)
    {
      properties := properties.(candidateGroupsList := []);
      for i := 0 to |groups|
        invariant properties == old(properties).(candidateGroupsList := groups[..i])
      {
        properties := properties.(candidateGroupsList := properties.candidateGroupsList + [groups[i]]);
      }
    }

    /** Reset the list, then add the given users one by one. */
    method SetCandidateUsersList(users: seq<string>)
      modifies this
      ensures properties == old(properties).(candidateUsersList := users)
    {
      properties := properties.(candidateUsersList := []);
      for i := 0 to |users|
        invariant properties == old(properties).(candidateUsersList := users[..i])
      {
        properties := properties.(candidateUsersList := properties.candidateUsersList + [users[i]]);
      }
    }

    /** Reset the list, then add the given attribute names one by one. */
    method SetChangedAttributes(names: seq<string>)
      modifies this
      ensures properties == old(properties).(changedAttributes := names)
    {
      properties := properties.(changedAttributes := []);
      for i := 0 to |names|
        invariant properties == old(properties).(changedAttributes := names[..i])
      {
        properties := properties.(changedAttributes := properties.changedAttributes + [names[i]]);
      }
    }

    /** Reset the list, then add every element of `other`'s list. The reset
        comes first, so a record given its own list ends up with none. */
    method SetChangedAttributesProp(other: UserTaskRecord)
      modifies this
      ensures properties == old(properties).(
                changedAttributes := if other == this then [] else old(other.properties.changedAttributes))
    {
      properties := properties.(changedAttributes := []);
      var i := 0;
      while i < |other.properties.changedAttributes|
        invariant other == this ==> i == 0
        invariant 0 <= i <= |other.properties.changedAttributes|
        invariant other != this ==> other.properties == old(other.properties)
        invariant properties == old(properties).(changedAttributes := other.properties.changedAttributes[..i])
      {
        properties := properties.(changedAttributes := properties.changedAttributes + [other.properties.changedAttributes[i]]);
        i := i + 1;
      }
    }

    method SetCandidateGroupsChanged()
      modifies this
      ensures properties == old(properties).(changedAttributes := old(properties.changedAttributes) + [CandidateGroups])
    {
      properties := properties.(changedAttributes := properties.changedAttributes + [CandidateGroups]);
    }

    method SetCandidateUsersChanged()
      modifies this
      ensures properties == old(properties).(changedAttributes := old(properties.changedAttributes) + [CandidateUsers])
    {
      properties := properties.(changedAttributes := properties.changedAttributes + [CandidateUsers]);
    }

    method SetDueDateChanged()
      modifies this
      ensures properties == old(properties).(changedAttributes := old(properties.changedAttributes) + [DueDate])
    {
      properties := properties.(changedAttributes := properties.changedAttributes + [DueDate]);
    }

    method SetFollowUpDateChanged()
      modifies this
      ensures properties == old(properties).(changedAttributes := old(properties.changedAttributes) + [FollowUpDate])
    {
      properties := properties.(changedAttributes := properties.changedAttributes + [FollowUpDate]);
    }

    /** Copy every property of `source` except its variables; this record keeps
        its own variables. Copying from itself clears the change list, which is
        reset before it is read. */
    method WrapWithoutVariables(source: UserTaskRecord)
      modifies this
      ensures properties == old(source.properties).(
                variables := old(properties.variables),
                changedAttributes := if source == this then [] else old(source.properties.changedAttributes))
    {
      properties := properties.(userTaskKey := source.properties.userTaskKey);
      properties := properties.(assignee := source.properties.assignee);
      SetCandidateGroupsList(source.properties.candidateGroupsList);
      SetCandidateUsersList(source.properties.candidateUsersList);
      properties := properties.(dueDate := source.properties.dueDate);
      properties := properties.(followUpDate := source.properties.followUpDate);
      properties := properties.(formKey := source.properties.formKey);
      properties := properties.(externalFormReference := source.properties.externalFormReference);
      properties := properties.(customHeaders := source.properties.customHeaders);
      properties := properties.(bpmnProcessId := source.properties.bpmnProcessId);
      properties := properties.(processDefinitionVersion := source.properties.processDefinitionVersion);
      properties := properties.(processDefinitionKey := source.properties.processDefinitionKey);
      properties := properties.(processInstanceKey := source.properties.processInstanceKey);
      properties := properties.(elementId := source.properties.elementId);
      properties := properties.(elementInstanceKey := source.properties.elementInstanceKey);
      properties := properties.(tenantId := source.properties.tenantId);
      properties := properties.(creationTimestamp := source.properties.creationTimestamp);
      SetChangedAttributesProp(source);
      properties := properties.(action := source.properties.action);
    }

    /** Copy one attribute named in a change list from `source`; names other
        than the four known ones are ignored. */
    method UpdateAttribute(attribute: string, source: UserTaskRecord)
      modifies this
      ensures properties == old(properties).(
                candidateGroupsList := if attribute == CandidateGroups then old(source.properties.candidateGroupsList) else old(properties.candidateGroupsList),
                candidateUsersList := if attribute == CandidateUsers then old(source.properties.candidateUsersList) else old(properties.candidateUsersList),
                dueDate := if attribute == DueDate then old(source.properties.dueDate) else old(properties.dueDate),
                followUpDate := if attribute == FollowUpDate then old(source.properties.followUpDate) else old(properties.followUpDate))
    {
      if attribute == CandidateGroups {
        SetCandidateGroupsList(source.properties.candidateGroupsList);
      } else if attribute == CandidateUsers {
        SetCandidateUsersList(source.properties.candidateUsersList);
      } else if attribute == DueDate {
        properties := properties.(dueDate := source.properties.dueDate);
      } else if attribute == FollowUpDate {
        properties := properties.(followUpDate := source.properties.followUpDate);
      }
    }

    /** Copy from `source` exactly the attributes its change list names, in
        that list's order; with `includeTrackingProperties`, also take over the
        change list itself. */
    method WrapChangedAttributes(source: UserTaskRecord, includeTrackingProperties: bool)
      modifies this
      ensures var names := old(source.properties.changedAttributes);
              properties == old(properties).(
                candidateGroupsList := if CandidateGroups in names then old(source.properties.candidateGroupsList) else old(properties.candidateGroupsList),
                candidateUsersList := if CandidateUsers in names then old(source.properties.candidateUsersList) else old(properties.candidateUsersList),
                dueDate := if DueDate in names then old(source.properties.dueDate) else old(properties.dueDate),
                followUpDate := if FollowUpDate in names then old(source.properties.followUpDate) else old(properties.followUpDate),
                changedAttributes :=
                  if !includeTrackingProperties then old(properties.changedAttributes)
                  else if source == this then []
                  else names)
    {
      var names := source.properties.changedAttributes;
      ghost var src := source.properties;
      for i := 0 to |names|
        invariant source != this ==> source.properties == src
        invariant source == this ==> properties.changedAttributes == names
        invariant properties == old(properties).(
                    candidateGroupsList := if CandidateGroups in names[..i] then src.candidateGroupsList else old(properties.candidateGroupsList),
                    candidateUsersList := if CandidateUsers in names[..i] then src.candidateUsersList else old(properties.candidateUsersList),
                    dueDate := if DueDate in names[..i] then src.dueDate else old(properties.dueDate),
                    followUpDate := if FollowUpDate in names[..i] then src.followUpDate else old(properties.followUpDate))
      {
        assert names[..i + 1] == names[..i] + [names[i]];
        UpdateAttribute(names[i], source);
      }
      assert names[..|names|] == names;
      if includeTrackingProperties {
        SetChangedAttributesProp(source);
      }
    }
  }
}

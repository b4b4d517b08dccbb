# Zeebe core pieces, modelled in Dafny

This project models four groups of Zeebe / Camunda code and proves properties
of them.

- **Cluster topology changes.** The seven topology change operations; the
  member-join applier, which first validates a join against the current
  topology and then, once the broker was added, makes the member ACTIVE; and
  the remove-members request, which turns requested members into leave
  operations.
- **User tasks.** The user-task record with its setters and copy operations
  (`wrapWithoutVariables`, `wrapChangedAttributes`); the persisted
  user-task state (a record table and a lifecycle-state table); the
  precondition checker every user-task command passes; and the CLAIM command
  processor, whose writers are modelled as logs of what they were given.
- **Deployed forms.** Two tables (by form key, and by form id and version),
  the per-form-id version bookkeeping, and a read-through cache of the latest
  form per tenant and form id.
- **Two small utilities.** The round-robin request dispatch strategy, which
  skips partitions without a leader, and the SDK's product-to-JWT-credential
  table.

Java objects whose fields are updated in place (`UserTaskRecord`,
`DbUserTaskState`, `DbFormState`, `RoundRobinDispatchStrategy`,
`JwtConfig`, the writers) are Dafny classes with `modifies` clauses. Pure
code (operations, validation, checks) is datatypes and functions. `null`
results are `Option.None`; `Either` results are `Either`.

Files: `wrappers.dfy` (Option, Either), `java_text.dfy` (Java's
`String.isBlank`, decimal formatting for `%d`, `int` wrap-around), then one
file per source file.

Constants that the shown files use but do not define are taken as:
`NODE_ID_NULL` = -1, `PARTITION_ID_NULL` = -1, the default tenant
`"<default>"`, and the empty MessagePack map (the single byte 0x80) as the
default of the variables and custom-header documents.

## Model

| member | source | states |
|---|---|---|
| TopologyOperations.VariantIndex | zeebe/topology/src/main/java/io/camunda/zeebe/topology/state/TopologyChangeOperation.java:17-88 | every operation is one of seven variants; the three member-level ones are exactly the member changes and the four partition-level ones exactly the partition changes |
| TopologyOperations.Representatives | zeebe/topology/src/main/java/io/camunda/zeebe/topology/state/TopologyChangeOperation.java:19-86 | each of the seven variants can be built for any member, and that member is what `memberId()` reports |
| TopologyOperations.ExactlySevenVariants | zeebe/topology/src/main/java/io/camunda/zeebe/topology/state/TopologyChangeOperation.java:26-86 | an operation is a member change or a partition change, never both; the seven variants are pairwise distinct and cover every operation |
| TopologyOperations.RemoveIssuerMayDifferFromTarget | zeebe/topology/src/test/java/io/camunda/zeebe/topology/api/ForceScaleDownRequestTransformerTest.java:59-60 | a force removal's issuer and removed member are separate fields and may differ (member 0 removes member 1) |
| TopologyOperations.StructuralEquality | zeebe/topology/src/main/java/io/camunda/zeebe/topology/state/TopologyChangeOperation.java:26-86 | operations are compared by their fields: equal fields give equal operations, a different member list gives a different force reconfiguration, and different variants with the same fields differ |
| MemberJoin.InitMemberState | zeebe/topology/src/main/java/io/camunda/zeebe/topology/changes/MemberJoinApplier.java:39-62 | rejected exactly when the member is in the topology in a state other than JOINING; identity when it is JOINING; when absent, a transform that yields JOINING whatever state it is given |
| MemberJoin.InitMemberStateLeavesMemberJoining | zeebe/topology/src/main/java/io/camunda/zeebe/topology/changes/MemberJoinApplier.java:39-62 | after a successful validation and its transform, the member is JOINING and every other member is unchanged |
| MemberJoin.InitMemberStateIdempotent | zeebe/topology/src/main/java/io/camunda/zeebe/topology/changes/MemberJoinApplier.java:50-61 | validating again on the topology the first validation produced gives the identity, so a repeated join changes nothing |
| MemberJoin.ApplyOperationResult | zeebe/topology/src/main/java/io/camunda/zeebe/topology/changes/MemberJoinApplier.java:64-78 | a transform exists exactly when `addBroker` succeeded, and it makes the member ACTIVE; a failure is passed on unchanged |
| MemberJoin.JoinOfAbsentMemberEndsActive | zeebe/topology/src/main/java/io/camunda/zeebe/topology/changes/MemberJoinApplier.java:39-78 | validation then completion takes an absent member to ACTIVE and leaves all other members as they were |
| RemoveMembers.LeaveOperations | zeebe/topology/src/main/java/io/camunda/zeebe/topology/api/RemoveMembersTransformer.java:30-36 | only leave operations, no more than requested, and a leave for `m` is present exactly when `m` was requested and is in the topology |
| RemoveMembers.Operations | zeebe/topology/src/main/java/io/camunda/zeebe/topology/api/RemoveMembersTransformer.java:27-38 | the request never fails: it always gives the list of leave operations |
| RemoveMembers.LeaveOperationsDistinct | zeebe/topology/src/main/java/io/camunda/zeebe/topology/api/RemoveMembersTransformer.java:30-36 | distinct requested members (a set) give distinct leave operations |
| RemoveMembers.NoPresentMemberGivesNoOperations | zeebe/topology/src/test/java/io/camunda/zeebe/topology/api/RemoveMembersTransformerTest.java:58-70 | when no requested member is in the topology, the list is empty |
| RemoveMembers.RemoveExamples | zeebe/topology/src/test/java/io/camunda/zeebe/topology/api/RemoveMembersTransformerTest.java:28-70 | with members 1 and 2: requesting 2 gives exactly [leave 2]; requesting 2 and 3 gives exactly [leave 2]; requesting 3 gives [] |
| UserTaskLifecycle.LifecycleState.Code | zeebe/engine/src/main/java/io/camunda/zeebe/engine/state/immutable/UserTaskState.java:21-37 | every lifecycle state has a byte code between 0 and 6 |
| UserTaskLifecycle.CodesFollowDeclarationOrder | zeebe/engine/src/main/java/io/camunda/zeebe/engine/state/immutable/UserTaskState.java:21-31 | exactly seven states, NOT_FOUND to UPDATING, and each state's code is its position in that order |
| UserTaskLifecycle.CodeInjective | zeebe/engine/src/main/java/io/camunda/zeebe/engine/state/immutable/UserTaskState.java:21-31 | two states share a code exactly when they are the same state |
| UserTaskStore.UnstoredTaskReadsAsCodeZero | zeebe/engine/src/main/java/io/camunda/zeebe/engine/state/instance/DbUserTaskState.java:93-95 | a task with no stored lifecycle state reads as NOT_FOUND, the first declared state, whose byte code is 0 |
| UserTaskRecords.UserTask.ActionOrDefault | zeebe/protocol-impl/src/main/java/io/camunda/zeebe/protocol/impl/record/value/usertask/UserTaskRecord.java:479-483 | the default when no action is set, the action otherwise |
| UserTaskRecords.ActionOrDefaultIsDefaultIff | zeebe/protocol-impl/src/main/java/io/camunda/zeebe/protocol/impl/record/value/usertask/UserTaskRecord.java:479-483 | when the action differs from the default, the default is returned exactly when the action is empty |
| UserTaskRecords.UserTaskRecord.constructor | zeebe/protocol-impl/src/main/java/io/camunda/zeebe/protocol/impl/record/value/usertask/UserTaskRecord.java:50-104 | keys, timestamp and definition version are -1, strings empty except the default tenant, lists empty, documents the empty map |
| UserTaskRecords.UserTaskRecord.SetAssignee | zeebe/protocol-impl/src/main/java/io/camunda/zeebe/protocol/impl/record/value/usertask/UserTaskRecord.java:362-365 | only the assignee changes |
| UserTaskRecords.UserTaskRecord.SetAction | zeebe/protocol-impl/src/main/java/io/camunda/zeebe/protocol/impl/record/value/usertask/UserTaskRecord.java:306-309 | only the action changes |
| UserTaskRecords.UserTaskRecord.SetCandidateGroupsList | zeebe/protocol-impl/src/main/java/io/camunda/zeebe/protocol/impl/record/value/usertask/UserTaskRecord.java:355-360 | the candidate groups become the given list, in order; nothing else changes |
| UserTaskRecords.UserTaskRecord.SetCandidateUsersList | zeebe/protocol-impl/src/main/java/io/camunda/zeebe/protocol/impl/record/value/usertask/UserTaskRecord.java:348-353 | the candidate users become the given list, in order; nothing else changes |
| UserTaskRecords.UserTaskRecord.SetChangedAttributes | zeebe/protocol-impl/src/main/java/io/camunda/zeebe/protocol/impl/record/value/usertask/UserTaskRecord.java:316-321 | the change list becomes the given names, in order; nothing else changes |
| UserTaskRecords.UserTaskRecord.SetChangedAttributesProp | zeebe/protocol-impl/src/main/java/io/camunda/zeebe/protocol/impl/record/value/usertask/UserTaskRecord.java:427-432 | the change list becomes the other record's list; given its own list, the reset empties it first |
| UserTaskRecords.UserTaskRecord.SetCandidateGroupsChanged | zeebe/protocol-impl/src/main/java/io/camunda/zeebe/protocol/impl/record/value/usertask/UserTaskRecord.java:377-380 | appends `candidateGroupsList` to the end of the change list |
| UserTaskRecords.UserTaskRecord.SetCandidateUsersChanged | zeebe/protocol-impl/src/main/java/io/camunda/zeebe/protocol/impl/record/value/usertask/UserTaskRecord.java:382-385 | appends `candidateUsersList` to the end of the change list |
| UserTaskRecords.UserTaskRecord.SetDueDateChanged | zeebe/protocol-impl/src/main/java/io/camunda/zeebe/protocol/impl/record/value/usertask/UserTaskRecord.java:387-390 | appends `dueDate` to the end of the change list |
| UserTaskRecords.UserTaskRecord.SetFollowUpDateChanged | zeebe/protocol-impl/src/main/java/io/camunda/zeebe/protocol/impl/record/value/usertask/UserTaskRecord.java:392-395 | appends `followUpDate` to the end of the change list |
| UserTaskRecords.UserTaskRecord.WrapWithoutVariables | zeebe/protocol-impl/src/main/java/io/camunda/zeebe/protocol/impl/record/value/usertask/UserTaskRecord.java:106-127 | the record equals the source in every property except the variables, which it keeps (and the change list, emptied when copying from itself) |
| UserTaskRecords.UserTaskRecord.UpdateAttribute | zeebe/protocol-impl/src/main/java/io/camunda/zeebe/protocol/impl/record/value/usertask/UserTaskRecord.java:138-155 | copies from the source exactly the one attribute named, if it is one of the four known names; anything else changes nothing |
| UserTaskRecords.UserTaskRecord.WrapChangedAttributes | zeebe/protocol-impl/src/main/java/io/camunda/zeebe/protocol/impl/record/value/usertask/UserTaskRecord.java:129-136 | each of the four attributes is copied from the source iff the source's change list names it; the change list is taken over only with `includeTrackingProperties` |
| UserTaskStore.WithoutVariables | zeebe/engine/src/main/java/io/camunda/zeebe/engine/state/instance/DbUserTaskState.java:58-59 | the stored form of a record has the empty variables document and agrees with the record otherwise |
| UserTaskStore.DbUserTaskState.constructor | zeebe/engine/src/main/java/io/camunda/zeebe/engine/state/instance/DbUserTaskState.java:41-53 | both tables start empty, and the table invariant holds |
| UserTaskStore.DbUserTaskState.Create | zeebe/engine/src/main/java/io/camunda/zeebe/engine/state/instance/DbUserTaskState.java:55-64 | a new key gets the record without variables and the state CREATING; the invariant (same keys in both tables, no variables stored) is kept |
| UserTaskStore.DbUserTaskState.Update | zeebe/engine/src/main/java/io/camunda/zeebe/engine/state/instance/DbUserTaskState.java:66-72 | an existing task's record is replaced (without variables); its lifecycle state stays |
| UserTaskStore.DbUserTaskState.UpdateUserTaskLifecycleState | zeebe/engine/src/main/java/io/camunda/zeebe/engine/state/instance/DbUserTaskState.java:74-79 | only the lifecycle state of an existing task changes |
| UserTaskStore.DbUserTaskState.Delete | zeebe/engine/src/main/java/io/camunda/zeebe/engine/state/instance/DbUserTaskState.java:81-86 | both entries of an existing task go; it then reads as NOT_FOUND with no record |
| UserTaskStore.DbUserTaskState.GetLifecycleState | zeebe/engine/src/main/java/io/camunda/zeebe/engine/state/instance/DbUserTaskState.java:88-97 | the stored state, NOT_FOUND when none is stored |
| UserTaskStore.DbUserTaskState.GetUserTask | zeebe/engine/src/main/java/io/camunda/zeebe/engine/state/instance/DbUserTaskState.java:99-104 | the stored record, none when the key is not stored |
| UserTaskStore.DbUserTaskState.GetAuthorizedUserTask | zeebe/engine/src/main/java/io/camunda/zeebe/engine/state/instance/DbUserTaskState.java:106-114 | the stored record exactly when it exists and its tenant is among the authorized tenants |
| UserTaskPreconditions.Check | zeebe/engine/src/main/java/io/camunda/zeebe/engine/processing/usertask/UserTaskCommandPreconditionChecker.java:64-90 | NOT_FOUND with its message when no record is visible to the command's tenants; else INVALID_STATE naming the state when the lifecycle state is not accepted; else the additional checks' rejection; success (with the persisted record) exactly when all three pass |
| UserTaskPreconditions.UnauthorizedTenantIsNotFound | zeebe/engine/src/main/java/io/camunda/zeebe/engine/processing/usertask/UserTaskCommandPreconditionChecker.java:66-75 | a task of a tenant the command is not authorized for is reported as not found |
| UserTaskPreconditions.AdditionalSuccessValueIsDiscarded | zeebe/engine/src/main/java/io/camunda/zeebe/engine/processing/usertask/UserTaskCommandPreconditionChecker.java:86-89 | when the additional checks succeed, the result is the persisted record, not the value they returned |
| UserTaskClaim.CheckClaim | zeebe/engine/src/main/java/io/camunda/zeebe/engine/processing/usertask/UserTaskClaimProcessor.java:77-99 | a blank new assignee is rejected first (INVALID_STATE, empty-assignee message); then a task assigned to someone else is rejected (already-assigned message); accepted exactly otherwise, keeping the persisted record |
| UserTaskClaim.Claimed | zeebe/engine/src/main/java/io/camunda/zeebe/engine/processing/usertask/UserTaskClaimProcessor.java:68-69 | the claimed record has the command's assignee and its action or `claim`, and is otherwise the persisted record |
| UserTaskClaim.UserTaskClaimProcessor.constructor | zeebe/engine/src/main/java/io/camunda/zeebe/engine/processing/usertask/UserTaskClaimProcessor.java:39-49 | the processor checks CREATED tasks, with intent `claim` and the claim checks |
| UserTaskClaim.UserTaskClaimProcessor.ProcessRecord | zeebe/engine/src/main/java/io/camunda/zeebe/engine/processing/usertask/UserTaskClaimProcessor.java:51-62 | on a violation, one rejection and one rejection response with its type and reason and no event; otherwise ASSIGNING then ASSIGNED events and an ASSIGNED response, all carrying the claimed record |
| UserTaskClaim.UserTaskClaimProcessor.ClaimUserTask | zeebe/engine/src/main/java/io/camunda/zeebe/engine/processing/usertask/UserTaskClaimProcessor.java:64-75 | the record gets the new assignee and action, then two events (ASSIGNING, ASSIGNED) and one ASSIGNED response are written, nothing rejected |
| UserTaskClaim.ClaimAcceptedIff | zeebe/engine/src/main/java/io/camunda/zeebe/engine/processing/usertask/UserTaskClaimProcessor.java:43-48 | a claim is accepted exactly when the task is visible to the tenants, CREATED, the new assignee is not blank, and the task is unassigned or already has that assignee |
| UserTaskClaim.ClaimOfTaskNotCreatedIsInvalidState | zeebe/engine/src/main/java/io/camunda/zeebe/engine/processing/usertask/UserTaskClaimProcessor.java:43-48 | a visible task not in CREATED is rejected as INVALID_STATE naming its state, whatever the assignee |
| UserTaskClaim.ReclaimBySameAssigneeAccepted | zeebe/engine/src/main/java/io/camunda/zeebe/engine/processing/usertask/UserTaskClaimProcessor.java:89-90 | a claimed task passes the claim checks again for the same assignee |
| FormState.DbFormState.constructor | zeebe/engine/src/main/java/io/camunda/zeebe/engine/state/deployment/DbFormState.java:43-70 | tables, version bookkeeping and cache start empty |
| FormState.DbFormState.LatestVersion | zeebe/engine/src/main/java/io/camunda/zeebe/engine/state/deployment/DbFormState.java:132 | the greatest of the form id's known versions (one of them, and at least every other), the default 0 when none is known |
| FormState.DbFormState.HighestVersion | zeebe/engine/src/main/java/io/camunda/zeebe/engine/state/deployment/DbFormState.java:154 | the highest version recorded for a form id, the default 0 when none |
| FormState.DbFormState.StoreFormInFormColumnFamily | zeebe/engine/src/main/java/io/camunda/zeebe/engine/state/deployment/DbFormState.java:72-81 | upserts under (tenant, form key), so a lookup by key finds it, and caches the form under (tenant, form id); the other table and the versions are unchanged |
| FormState.DbFormState.StoreFormInFormByIdAndVersionColumnFamily | zeebe/engine/src/main/java/io/camunda/zeebe/engine/state/deployment/DbFormState.java:83-90 | upserts under (tenant, form id, version) only; the cache is untouched |
| FormState.DbFormState.UpdateLatestVersion | zeebe/engine/src/main/java/io/camunda/zeebe/engine/state/deployment/DbFormState.java:92-96 | the version becomes known (so the latest is at least it) and raises the highest version when higher |
| FormState.DbFormState.DeleteFormInFormsColumnFamily | zeebe/engine/src/main/java/io/camunda/zeebe/engine/state/deployment/DbFormState.java:98-105 | removes the existing (tenant, form key) entry, so a lookup by key finds nothing, and evicts the form id's cache entry |
| FormState.DbFormState.DeleteFormInFormByIdAndVersionColumnFamily | zeebe/engine/src/main/java/io/camunda/zeebe/engine/state/deployment/DbFormState.java:107-113 | removes the existing (tenant, form id, version) entry only |
| FormState.DbFormState.DeleteFormInFormVersionColumnFamily | zeebe/engine/src/main/java/io/camunda/zeebe/engine/state/deployment/DbFormState.java:115-119 | the version is no longer known; the highest version stays |
| FormState.DbFormState.FindLatestFormById | zeebe/engine/src/main/java/io/camunda/zeebe/engine/state/deployment/DbFormState.java:121-143 | a cache hit is returned as is; a miss looks up the latest version's entry and caches it when found, else returns none and leaves the cache; a found form is then in the cache; when the cache agrees with the tables, the answer is the uncached one and the agreement is kept |
| FormState.DbFormState.FindFormByKey | zeebe/engine/src/main/java/io/camunda/zeebe/engine/state/deployment/DbFormState.java:145-150 | the form stored under (tenant, form key), none when absent; the cache plays no part |
| FormState.DbFormState.GetNextFormVersion | zeebe/engine/src/main/java/io/camunda/zeebe/engine/state/deployment/DbFormState.java:152-155 | a Java `int`: the highest version plus one whenever the highest is below the `int` maximum (which wraps to the minimum) |
| FormState.DbFormState.ClearCache | zeebe/engine/src/main/java/io/camunda/zeebe/engine/state/deployment/DbFormState.java:157-161 | the cache is empty (hence agrees with the tables); tables and version bookkeeping are unchanged |
| Dispatch.FirstLed | zeebe/broker-client/src/main/java/io/camunda/zeebe/broker/client/impl/RoundRobinDispatchStrategy.java:28-34 | the number of probes before the first offset whose partition has a leader: all earlier ones have none, and it has one unless all `n` were probed |
| Dispatch.FirstLedIsFirst | zeebe/broker-client/src/main/java/io/camunda/zeebe/broker/client/impl/RoundRobinDispatchStrategy.java:28-34 | that number is the only one with those two properties |
| Dispatch.RoundRobinDispatchStrategy.constructor | zeebe/broker-client/src/main/java/io/camunda/zeebe/broker/client/impl/RoundRobinDispatchStrategy.java:21 | the counter starts at 0 |
| Dispatch.RoundRobinDispatchStrategy.DeterminePartition | zeebe/broker-client/src/main/java/io/camunda/zeebe/broker/client/impl/RoundRobinDispatchStrategy.java:23-38 | no topology: PARTITION_ID_NULL, counter unchanged; else the first probed partition with a leader, the counter advanced by one per probe, at most the partition count probes; none led: PARTITION_ID_NULL with the counter advanced by the partition count |
| JwtAuth.JwtConfig.constructor | spring-boot-starter-camunda-sdk/src/main/java/io/camunda/common/auth/JwtConfig.java:26-28 | a new configuration holds no product |
| JwtAuth.JwtConfig.AddProduct | spring-boot-starter-camunda-sdk/src/main/java/io/camunda/common/auth/JwtConfig.java:30-32 | afterwards the product has this credential, replacing any earlier one, and every other product's credential is unchanged |
| JwtAuth.JwtConfig.GetProduct | spring-boot-starter-camunda-sdk/src/main/java/io/camunda/common/auth/JwtConfig.java:34-36 | the credential of an added product, none (null) for one never added |
| JwtAuth.JwtConfig.GetMap | spring-boot-starter-camunda-sdk/src/main/java/io/camunda/common/auth/JwtConfig.java:38-40 | the table holds exactly the products `getProduct` knows, with their credentials |

## Left out

- `ClusterTopology` and `MemberState` are not part of this model: a topology is a map from member id to member state, and a member state is its lifecycle state only. `updateMember` on an absent member is taken to apply the transform to an uninitialized state.
- The state transforms (`UnaryOperator<MemberState>`) are the three transforms the applier builds (identity, to JOINING, to ACTIVE), not arbitrary functions.
- `applyOperation` runs asynchronously through an actor future and the membership executor's `addBroker`; only the mapping from `addBroker`'s outcome to the transform is modelled.
- The join validation's `IllegalStateException` is modelled by the member it names, not by its message text.
- The requested members of `RemoveMembersTransformer` are a Java `Set`; the model takes them in the order the set is iterated (a duplicate-free sequence), and that order is not specified.
- MessagePack encoding of the user-task record and of the stored values is not modelled; variables and custom headers are opaque byte sequences, and the record's getters and scalar setters other than assignee and action are not modelled.
- `DbUserTaskState`: the column families are maps; `insert`, `update` and `deleteExisting` are map updates whose presence or absence demands are preconditions, so their failure paths are not modelled. The shared key and value wrapper objects are not modelled.
- `getUserTask(key, authorizations)` reads the authorized tenant list out of an authorization map; the model takes that list directly, and a map without the entry (a Java `NullPointerException`) is not modelled.
- The stream writers of the claim processor are logs of what they were given; record serialization, key generation and the command's metadata are not modelled.
- The rejection types produced here are NOT_FOUND and INVALID_STATE; the protocol's other rejection types are not modelled.
- `VersionManager` is not part of this model: it is taken as the set of known versions of each form id (latest = the greatest, 0 when none) and the highest version ever added, and its own cache is not distinguished from its stored data, so `clearCache` has no visible effect on it.
- `FormRecord` and `PersistedForm` are not part of this model; both are one `Form` value holding the fields a form record carries (their exact field set is assumed), and `copy()` is value semantics.
- The form cache shares objects with its callers, which the model does not capture: its key holds the caller's form-id buffer (`getFormIdBuffer()` when storing and evicting, the `formId` argument when looking up), and `findLatestFormById` hands out the cached `PersistedForm` object itself, on a hit and after filling the cache, where `findFormByKey` hands out a copy. The model's keys and forms are values, so it assumes no caller changes a buffer or a returned form once it is cached.
- Dispatch.RoundRobinDispatchStrategy.DeterminePartition: the counter is an unbounded integer, so the 32-bit wrap-around of the `AtomicInteger` after 2^31 requests is not modelled, nor is its thread safety.
- `BrokerClusterState` and `BrokerTopologyManager` are not part of this model: the cluster view is a partition count and two functions (offset to partition, partition to leader), and the topology manager is the topology it returns.
- JwtAuth.JwtConfig.GetMap: returns the table as a value; the Java method hands out the live `HashMap`, through which callers could change the configuration.
- `Product` and `JwtCredential` are not part of this model; they are type parameters.

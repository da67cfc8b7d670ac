# Permissions service: a verified model

The service keeps, for every resource of a topic, which users, groups and roles may read, write, execute and
administrate it. A decision layer answers access questions from those rights and from the defaults of the topic, and
every change is published to Kafka through an outbox: an entry is stored as unsynced, published, then marked as synced,
and a retry pass publishes again what stayed unsynced.

The model has one module per part:

- `Model`: rights, permission sets, topics, tokens, resource ids and their pure part. `Perms.Norm` is the form that
  survives storage: nil maps become empty, principals without any right vanish.
- `Order`, `Collections`: string order, sorting, paging, and lists of keyed values with the map they stand for.
- `Entries`: the stored form of a resource, lists of principals for each right, with encoder, decoder, check and the
  queries compiled for it.
- `Store`, `MongoStore`, `MockStore`, `Simulation`: the abstract database, the entry-list store and the list store as
  classes that represent it, and which answers the two share.
- `Effects`, `Outbox`, `Overlaps`, `Continuations`, `TopicMoves`, `RetryPass`: the effects of one write and of one retry,
  the outbox as a step system in which calls interleave, fail and crash, which overlaps of calls it tolerates, what the
  calls in flight can still do to it, what becomes of them when their topic changes, and what a retry pass achieves.
- `Rules`, `Controller`: what every operation decides and changes, as functions, and the controller whose methods are
  proved to do exactly that, step by step against the entry-list store.
- `Access`, `Exchange`: who may see and change what, and what export and import list and take, said outright for every
  state, caller and argument.
- `Decisions`, `Runs`, `Modifiers`, `Transfer`, `BulkLoad`, `Failures`: what follows for access decisions, for whole runs
  of operations, for ids with a modifier, for export and import, for bulk loads, and short runs in which things go wrong.

Every database and publish operation carries a fault: it is done, lost without effect, or unconfirmed (it took effect,
but an error was reported). Faults, the clock, the user management's answer and the remote side of a bulk load are
parameters, and every theorem holds for all of them unless it says otherwise.

Properties that do not hold in general are stated with the exact condition under which they do:

- Overlapping calls are safe as long as those in flight do not carry different rights for one resource of a publishing
  topic (`OutboxSafety`). Decided by what is written: every interleaving of the writes of a set of resources, with
  retries, faults, crashes and deletes, is safe exactly when no two of them give one key different rights
  (`AlwaysSafeIffAgree`). Otherwise an entry can end flagged as synced although its consumers were last told other rights,
  by two writers (`OverlapBreaksSafety`) or by a writer that overtakes the retry loop (`RetryBreaksSafety`). From any
  state in order, the calls in flight can finish in any way exactly when none that is still to store disagrees with
  another (`FinishesSafelyIff`), and wherever two disagree one further write of that key, of whatever rights, can end
  unsafe (`DisagreementBreaks`).
- Topics that share a Kafka topic break safety even sequentially (`SafetyIffOwnChannels`).
- A topic that starts to publish, or moves to a Kafka topic not used before, keeps the outbox in order exactly if it has
  no synced entry, no call in flight has read it, and none has listed anything of it that was replaced since
  (`TopicUpdateInvIff`). In every other case the steps of one call in flight, and at most one further write, can end
  unsafe (`TopicMoveBreaks`). The shortest such runs are a resource stored before the topic publishes (`MoveOfSynced`) and
  a writer that has read the topic before it publishes and stores afterwards (`MoveUnderWriter`).
- A change of rights compares the new roles with those stored under the id as given (line 205 of
  `pkg/controller/resource.go`), but is written under the pure id (line 211). The reservation of role rights to admins
  protects exactly the ids without a modifier (`RolesProtectedIff`); under any other a user without admin rights wipes
  the roles in three operations from the empty store (`RolesWiped`). `RemoveResourceContext` uses the id as given as well
  (`RemoveThenCheck`, `RemovalMisses`).
- Import and bulk load store ids with a modifier as they are; checks never consult such entries, listings show them
  (`ListingDecidesIff`, `ImportedModifierIsListed`).
- Computed rights add defaults and resource rights bit by bit, a check wants one of the two to grant the whole list
  (`ComputedDecidesIff`).
- The entry-list store passes over a permission rune it does not know, the list store denies it, and the permission query
  is refused for it as well as for an empty list (`ChecksAgreeIffKnown`).
- The topic delete is two deletes; torn between them it orphans resources (`RemovalKeepsReferencesIff`,
  `TornRemovalOrphans`). A removal that completed holds exactly if no writer that has read the topic is still to store
  (`RemovalHoldsIff`, `RemovalUnderWriter`).
- `overwrite_existing` is described as forcing the state of permission-search (line 99 of `pkg/model/model.go`). The code
  merges (`OverwriteForcesRemoteIff`, `OverwriteMerges`).
- A dry run counts an id twice that occurs twice, a load does not (`DryRunPredictsIff`, `DryRunMiscounts`), and a bulk
  load does not ask for an admin user (`LoadedAdminIff`, `LoadWithoutAdmin`).
- A listing pays no heed to the ids asked for unless the defaults of the topic grant the permissions (`ListingAnswers`),
  and an export with a filter lists the resources of a topic as often as the filter names it (`ExportedResources`).
- In `Topic.Validate` the test for surrounding space never decides (`ValidateAccepts`).

## Model

| member | source | states |
|---|---|---|
| Outbox.OutboxSafety | pkg/controller/resource.go:221-243 | In every reachable state of any interleaving of writers, retry passes, deletes and topic changes, with faults and crashes after any step, an entry flagged as synced was last published with the rights stored, provided calls in flight, overlapping or not, carry no different rights for one resource and every publishing topic has its own Kafka topic |
| Outbox.StepKeepsInv | pkg/controller/controller.go:129-155 | Every single step keeps the invariant behind safety, including what calls in flight still have to send and mark |
| Outbox.TopicUpdateInvIff | pkg/controller/topics.go:118-151 | With any calls in flight, storing a topic keeps the outbox in order exactly under these conditions: if it moves the topic to an unused Kafka topic, no entry of the topic is synced, no call in flight has read the topic and none has listed anything of it that was replaced since; if it stops the topic from publishing, no call in flight has read it; else always |
| TopicMoves.TopicMoveBreaks | pkg/controller/topics.go:118-151 | Where the condition for a move fails, the steps of one call in flight, with at most one further write of rights it carries, can end with an entry flagged as synced that nobody was told |
| TopicMoves.MoveUnderWriter | pkg/controller/resource.go:178-224 | A run from the empty state, given step by step, in which a topic starts to publish between a writer's reading it and its storing, and the entry ends flagged and untold |
| TopicMoves.MoveOfSynced | pkg/controller/resource.go:222-224 | A run from the empty state, given step by step, in which a topic starts to publish after a resource was stored, and the entry stays flagged and untold |
| TopicMoves.RemovalHoldsIff | pkg/database/mongo/topics.go:111-121 | After a removal that completed, the topic and its resources stay gone until it is created again, whatever else interleaves, exactly if no writer that has read the topic is still to store |
| TopicMoves.RemovalUnderWriter | pkg/controller/resource.go:178-224 | A run from the empty state, given step by step, in which a writer stores after its topic was removed with all resources, leaving a resource without a topic |
| Continuations.FinishesSafelyIff | pkg/controller/resource.go:221-243 | From any state in order, with own Kafka topics, every way in which the calls in flight finish, fail or crash is safe exactly when no call that is still to store disagrees with another one on a key of a publishing topic |
| Continuations.DisagreementBreaks | pkg/controller/controller.go:129-155 | From any state in order in which two calls in flight carry different rights for one key, one further write of that key, of whatever rights, has a continuation by these three calls that ends unsafe |
| Continuations.StoringDisagreementBreaks | pkg/controller/resource.go:221-243 | If one of the two is still to store, their own steps suffice |
| Overlaps.AlwaysSafeIffAgree | pkg/controller/resource.go:221-243 | When every publishing topic has its own Kafka topic, all interleavings that write a given set of resources, with retry passes, faults, crashes and deletes, are safe exactly when no two of them give different rights to one key of a publishing topic |
| Overlaps.TwoWritesSafeIff | pkg/controller/resource.go:221-243 | When every publishing topic has its own Kafka topic, two writes of one resource are safe in every interleaving exactly when they store the same |
| Overlaps.OverlapBreaksSafety | pkg/controller/resource.go:221-243 | Any two different rights for one resource of a publishing topic have an interleaving of two faultless writes, given step by step, that ends unsafe |
| Overlaps.RetryBreaksSafety | pkg/controller/controller.go:129-155 | A retry pass that listed an entry before a writer replaced its rights can publish the old ones last, given step by step; the writers do not overlap |
| Overlaps.SharedChannelBreaksSafety | pkg/controller/controller.go:107-123 | Two topics publishing to one Kafka topic have a sequential faultless run that ends unsafe |
| Overlaps.SafetyIffOwnChannels | pkg/controller/resource.go:221-243 | All runs whose calls in flight agree are safe exactly when no two topics share a Kafka topic |
| Outbox.MessagesWereStored | pkg/controller/controller.go:144-149 | In every interleaving each message sent carries rights that were stored for a resource of that id at an earlier step, on a Kafka topic its topic then published to |
| Outbox.OutgoingWasStored | pkg/controller/controller.go:130-144 | Whatever a call in flight may still send was stored earlier under that very key |
| Outbox.FlagNeedsPublish | pkg/controller/resource.go:224-236 | In every interleaving a flag turns to synced only when a writer stores under a topic that does not publish, or by the mark of a call that published that resource before, or found that its topic does not publish, and has been waiting to mark it since |
| Outbox.WriteIsRun | pkg/controller/resource.go:221-243 | A sequential call of setPermission, whatever fails in it, is a run of one writer of the step system |
| Outbox.RetryIsRun | pkg/controller/controller.go:134-153 | An iteration of the retry loop, whatever fails in it, is a run of the retry pass's call |
| RetryPass.PassKeeps | pkg/controller/controller.go:134-153 | A pass changes no rights, timestamps, keys or topics, and sends at most one message for each listed resource, in listed order, each depending on its own faults only |
| RetryPass.PassFlags | pkg/controller/controller.go:144-152 | Exactly the resources published and marked are flagged, each by its own faults, so a failure on one does not stop the others |
| RetryPass.PassCounts | pkg/controller/controller.go:129-155 | The number of unsynced entries falls by exactly the number of resources published and marked |
| RetryPass.PassClears | pkg/database/mongo/update.go:54-78 | A pass without faults flags exactly the entries that were unsynced, older than the bound and of an existing topic, and leaves every other flag |
| Runs.FaultlessPassInforms | pkg/controller/controller.go:129-155 | From a world in order, with own Kafka topics, a pass without faults leaves the consumers of every existing publishing topic told, as stored, of every entry older than the bound |
| Controller.Controller.RetryPublishOfUnsyncedResources | pkg/controller/controller.go:129-155 | The loop does what the retry of each listed resource in turn does, and lists every overdue entry once |
| Effects.WriteChangesOne | pkg/controller/resource.go:224-227 | A write that reaches the database changes that one entry, to the normal form of the rights written, and nothing else in the database |
| Effects.WriteAnswers | pkg/controller/resource.go:221-243 | What a write leaves and reports under each fault of store, publish and mark: the entry with rights, time and flag, every other entry as it was, the message sent or none, and success exactly if storing succeeded and no mark that was tried failed |
| Controller.Controller.Write | pkg/controller/resource.go:221-243 | Store, publish, mark with their early returns have the specified effect on database, log and error |
| Controller.Controller.PublishPermission | pkg/controller/controller.go:92-105 | One message if the topic publishes and the send takes effect, success if it does not publish |
| Entries.PermissionsEntry.SetResourcePermissions | pkg/database/mongo/update.go:107-150 | Each list is extended by exactly the principals with that right, each once, whatever order the maps are walked in |
| Entries.PermissionsEntry.ToResource | pkg/database/mongo/permissions.go:68-178 | The twelve accumulating loops give the map the lists mean |
| Entries.CodecRoundTrip | pkg/database/mongo/permissions.go:68-178 | Decoding an encoded permission set gives exactly its normal form, for every map order |
| Entries.ReEncoding | pkg/database/mongo/update.go:107-150 | Encoding a decoded document again gives lists with the same elements |
| Model.NormIdempotent | pkg/model/permissions.go:65-73 | Normalising is idempotent and keeps whether a permission set has an administrating user |
| Model.CleanExtensional | pkg/model/permissions.go:59-63 | Two maps have the same normal form exactly when every lookup in them agrees |
| Entries.IndexMeansMap | pkg/database/mongo/check.go:58-80 | The check on the principal lists is the check on the rights map they stand for, for every caller and list |
| Entries.CompileQuery | pkg/database/mongo/list.go:157-182 | The compiled query accepts a document exactly when it is of the topic and the check on its lists succeeds; it is refused exactly for an unknown rune, or by the server for an empty list |
| Entries.CompiledMeaning | pkg/database/mongo/list.go:157-182 | The meaning of the nested query equals the check, by array semantics of equality and membership |
| MongoStore.Database.SetResource | pkg/database/mongo/update.go:80-105 | Replacing or inserting the encoded document updates the one entry of the map, to the normal form, and keeps keys unique |
| MongoStore.Database.DeleteResource | pkg/database/mongo/update.go:35-41 | Removes that one entry |
| MongoStore.Database.MarkResourceAsSynced | pkg/database/mongo/update.go:43-52 | Sets the flag of that entry if it is stored; nothing else changes |
| MongoStore.Database.ListUnsyncedResources | pkg/database/mongo/update.go:54-78 | Lists every unsynced entry older than the bound exactly once, ordered by id, with its stored rights |
| MongoStore.Database.GetResource | pkg/database/mongo/list.go:30-53 | Not found, check failed or the stored rights, as key and check demand |
| MongoStore.Database.AdminListResources | pkg/database/mongo/list.go:92-132 | One page of the ascending list of exactly the stored ids asked for, with their stored rights |
| MongoStore.Database.ListResourcesByPermissions | pkg/database/mongo/list.go:146-199 | One page of the ascending list of exactly the ids whose stored rights grant the list |
| MongoStore.Database.ListResourceIdsByPermissions | pkg/database/mongo/list.go:134-144 | The ids of that page |
| MongoStore.Database.CheckMultipleResourcePermissions | pkg/database/mongo/check.go:35-56 | An answer for exactly the requested ids that are stored: whether the stored rights grant the list |
| MongoStore.Database.CheckResourcePermissions | pkg/database/mongo/check.go:27-33 | True exactly when the resource is stored and its rights grant the list |
| MongoStore.Database.SetTopic | pkg/database/mongo/topics.go:48-55 | Updates the one topic and keeps ids unique |
| MongoStore.Database.GetTopic | pkg/database/mongo/topics.go:57-74 | The stored topic of that id, if any |
| MongoStore.Database.ListTopics | pkg/database/mongo/topics.go:76-109 | One page of the ascending list of exactly the chosen topics, as stored |
| MongoStore.Database.DeleteTopic | pkg/database/mongo/topics.go:111-121 | Removes the topic, then all its resources and no others; a failing first delete stops it |
| MockStore.Mock.SetResource | pkg/database/mock/mock.go:62-79 | Replaces or appends: updates the one key and keeps keys unique |
| MockStore.Mock.DeleteResource | pkg/database/mock/mock.go:53-60 | Removes that one key |
| MockStore.Mock.ListResourcesByPermissions | pkg/database/mock/mock.go:81-110 | One page of the ascending list of exactly the ids whose rights grant the list, with the rights held |
| MockStore.Mock.ListResourceIdsByPermissions | pkg/database/mock/mock.go:209-218 | The ids of that page |
| MockStore.Mock.AdminListResources | pkg/database/mock/mock.go:195-207 | One page of the ascending list of exactly the held ids asked for, with the rights held |
| MockStore.Mock.AdminListResourceIds | pkg/database/mock/mock.go:183-193 | One page of the ascending list of all ids held under the topic, ignoring the ids asked for |
| MockStore.Mock.GetResource | pkg/database/mock/mock.go:220-232 | Not found, check failed or the rights held |
| MockStore.Mock.CheckMultipleResourcePermissions | pkg/database/mock/mock.go:234-259 | An answer for exactly the requested ids that are held, duplicates included |
| MockStore.Mock.CheckResourcePermissions | pkg/database/mock/mock.go:261-276 | True exactly when the resource is held and its rights grant the list |
| MockStore.Mock.SetTopic | pkg/database/mock/mock.go:278-289 | Updates the one topic and keeps ids unique |
| MockStore.Mock.GetTopic | pkg/database/mock/mock.go:291-298 | The topic of that id, if any |
| MockStore.Mock.DeleteTopic | pkg/database/mock/mock.go:306-316 | Removes the topic and all its resources and no others |
| Simulation.PerformMongo | pkg/database/mongo/update.go:28-41 | The entry-list store represents the abstract step for each kind of store call |
| Simulation.PerformMock | pkg/database/mock/mock.go:53-79 | The list store represents the abstract step for each kind of store call |
| Simulation.RunsAgree | pkg/database/mock/mock.go:53-79 | After any sequence of store calls both stores hold the same topics and keys, and rights that differ only in what storage drops |
| Simulation.CompareStores | pkg/database/mock/mock.go:195-276 | The two classes, driven through any sequence of store calls, give equal answers to single checks, multi checks, listings by permission and listings by id, for any nonempty list of known permissions, ids, limit and offset |
| Simulation.AnswersAgree | pkg/database/mock/mock.go:195-276 | The same for the states the calls lead to |
| Simulation.ChecksAgreeIffKnown | pkg/database/mock/mock.go:112-181 | The checks of both stores agree on all rights and callers exactly for lists of known runes |
| Simulation.IndexAgreesWithMap | pkg/database/mongo/check.go:58-80 | The check on an encoded entry equals the list store's check on the plain maps |
| Controller.Controller.CheckPermission | pkg/controller/check.go:42-62 | Granted by the defaults alone or by the resource under the pure id alone; an unknown topic denies callers who are not admins |
| Access.RunesMean | pkg/model/permissions.go:23-26 | Each of the four runes is granted exactly by the right of its name, held by the user, by a role in the roles or by a group in the groups; no other rune is ever granted |
| Access.CheckAnswers | pkg/controller/check.go:42-62 | A check is granted exactly to admins, and to others if the topic is stored and its defaults alone, or the resource of the pure id alone, grant the whole list |
| Access.UnknownTopicDenies | pkg/controller/check.go:43-51 | Under a topic that is not stored every check by a caller who is not an admin is denied, in every state |
| Access.RemovedTopicDenies | pkg/controller/topics.go:78-103 | So it is after a topic was removed, be the removal completed or torn after its first delete |
| Controller.Controller.CheckMultiplePermissions | pkg/controller/check.go:68-101 | An answer for exactly the requested ids whose pure id is stored, each the single check of that id, with duplicates and several modifiers of one pure id |
| Controller.CheckTopicDefault | pkg/controller/check.go:275-348 | The loop decides whether the defaults grant every known permission of the list |
| Controller.Controller.ListComputedPermissions | pkg/controller/check.go:107-166 | First the stored ids asked for, ascending, with the rights defaults and resource grant bit by bit; then every other id as often and in the order as asked for, each with four times false; 404 exactly for an unknown topic |
| Controller.ComputePermissionsMap | pkg/controller/check.go:168-250 | A bit is set exactly when the user, a role or a group has it, by default or on the resource |
| Decisions.CheckImpliesComputed | pkg/controller/check.go:42-62 | A successful check of a stored pure id implies every listed computed bit |
| Decisions.ComputedDecidesIff | pkg/controller/check.go:168-250 | Computed bits decide the check, for every state and caller, exactly when the list names at most one permission |
| Controller.Controller.ListAccessibleResourceIds | pkg/controller/resource.go:60-80 | One page of the ascending list of all ids when the defaults grant the list, else of those whose rights do; refused for unknown runes |
| Decisions.ListingIsChecking | pkg/controller/resource.go:60-80 | With pure stored ids and a list of known permissions the listing is the strictly ascending list of exactly the ids the check grants, and its pages for any positive limit put together rebuild it |
| Decisions.ListingAnswers | pkg/controller/resource.go:60-80 | For every state, caller and list: the statuses of a listing, and the ids it pages through, which are those asked for if the defaults grant the list, and else those whose own rights do, where the ids asked for do not count |
| Decisions.ListingDecidesIff | pkg/controller/idmodifier/encoding.go:35-49 | Listing and checking agree for all callers, defaults and lists of known permissions exactly when every stored id carries the rights of its pure id |
| Order.SkipLimitIsPage | pkg/database/mock/mock.go:95-110 | The server's skip and limit cut out the same page as the list store |
| Order.PagesRebuild | pkg/database/mock/mock.go:95-110 | The pages at multiples of a positive limit, put together, are the list |
| Order.PageMeans | pkg/database/mock/mock.go:95-110 | A page is the part of the list behind a positive offset, up to a positive limit |
| Order.LessMeans | pkg/model/model.go:115-126 | The first place where two strings differ decides their order, and a proper prefix comes first |
| Model.PureId | pkg/controller/idmodifier/encoding.go:35-49 | The longest prefix without the separator |
| Model.PureIdFixed | pkg/controller/idmodifier/encoding.go:35-49 | Taking the pure id is idempotent and fixes exactly the ids without a modifier |
| Model.ValidateAccepts | pkg/model/model.go:42-53 | A topic is valid exactly when it has an id and only legal characters in its Kafka topic; the space test never decides |
| Controller.Controller.SetPermission | pkg/controller/resource.go:172-219 | Access by defaults or resource, validity, edit rules and the write, in this order, with their status codes |
| Access.EditNeedsRight | pkg/controller/resource.go:186-200 | An edit that changes anything or is accepted comes from an admin or from a caller to whom the defaults, or the stored entry of the pure id, grant administration, under a stored topic |
| Access.EditAnswers | pkg/controller/resource.go:172-219 | For every state, caller and argument the status of a refused edit, or the rights written under the pure id and the answer |
| Access.PowerlessChangeNothing | pkg/api/interfaces.go:71-77 | Runs of callers who lack the right their operation needs leave database and Kafka as they are |
| Controller.Controller.CheckEditPermission | pkg/controller/resource.go:249-311 | The rules for callers without admin rights: roles, added groups, added users, missing roles filled in |
| Access.EditDecision | pkg/controller/resource.go:249-311 | Callers without admin rights may change roles only if they are not reserved, add only their own groups and, under a user management, only users it named; accepted are users and groups as given and the roles given or, if nil, those stored; each refusal has its status |
| Controller.Controller.GetResource | pkg/controller/resource.go:136-166 | The rights stored under the pure id, for callers who may administrate, else the status |
| Access.ReadAnswers | pkg/controller/resource.go:136-166 | For every state, caller and id the rights read or the status: 404 for an unknown topic, unless to an admin, and for a resource that is not stored, 403 without the right to administrate it |
| Controller.Controller.RemoveResource | pkg/controller/resource.go:114-130 | Admins only; removes the entry under the id as given |
| Access.RemoveResourceAnswers | pkg/controller/resource.go:114-130 | The status under each fault, and that exactly the entry under the id as given goes, for admins only |
| Controller.Controller.SetTopic | pkg/controller/topics.go:109-152 | Admins only; a missing id is filled in, invalid topics are refused, an equal topic is accepted without storing it again |
| Access.SetTopicAnswers | pkg/controller/topics.go:109-152 | After a success the topic stored under the given id, or the Kafka topic in its place, publishes as the one given and its defaults give every principal the same rights; other topics and all resources stay; who and what is refused, with which status |
| Access.SetTopicAgain | pkg/model/model.go:55-93 | Setting what is stored, with nil maps or empty ones, is accepted with 202 and stores nothing |
| Access.AlikeDefaults | pkg/controller/check.go:275-348 | Topics whose default lookups agree grant every list to the same callers by default |
| Access.SetTopicThenCheck | pkg/controller/topics.go:109-152 | After a topic was set with success every check under it answers by the defaults given or by the resource |
| Controller.Controller.RemoveTopic | pkg/controller/topics.go:78-103 | Admins only; the two deletes of the store |
| Access.RemoveTopicAnswers | pkg/controller/topics.go:78-103 | The status under each pair of faults, and that exactly the topic and its resources go, as far as the deletes take effect, for admins only |
| Runs.SetThenCheck | pkg/controller/resource.go:172-219 | Once an accepted change is stored, whatever the call then reports, every check under any id with the same pure id answers by the rights written or the defaults |
| Runs.SetThenRead | pkg/controller/resource.go:136-166 | Once an accepted change is stored, whoever the check lets administrate reads the normal form of the rights written, everyone else is refused |
| Runs.RemoveThenCheck | pkg/controller/resource.go:114-130 | A removal that takes effect leaves the defaults for checks of that pure id; under an id with a modifier it changes no check |
| Runs.RunKeepsAdmins | pkg/controller/resource.go:202-214 | In every run without bulk loads, torn topic deletes included, each stored resource has an administrating user |
| Runs.RunKeepsSound | pkg/database/mongo/topics.go:111-121 | In every run whose topic deletes complete each stored resource's topic exists, and stored topics are valid |
| Runs.RemovalKeepsReferencesIff | pkg/database/mongo/topics.go:111-121 | Removing a topic keeps every resource's topic in place exactly when its deletes complete, nothing happens, or the topic has no resources |
| Runs.RecreatedTopicIsEmpty | pkg/controller/topics.go:109-152 | A topic removed and created again has no resources |
| Runs.KeysNeedAdmin | pkg/api/interfaces.go:71-77 | Runs of callers without admin rights, on topics whose defaults do not let them administrate, keep the set of stored keys and the topics |
| Runs.RolesStored | pkg/controller/resource.go:258-271 | With roles reserved to admins, an accepted edit by anyone else stores under the pure id the roles found under the id as given, whatever the call then reports |
| Modifiers.RolesProtectedIff | pkg/controller/resource.go:205-214 | Edits under an id by callers without admin rights never change the roles of the entry they write, in any state, exactly when the id has no modifier |
| Modifiers.RolesWiped | pkg/controller/resource.go:205-214 | For every id with a modifier, a run from the empty store in which a user without admin rights wipes the roles of a resource |
| Modifiers.RemovalMisses | pkg/controller/resource.go:125-129 | For every id with a modifier, a reachable state in which its removal succeeds and removes nothing, and the check of it is still granted |
| Modifiers.ImportedModifierIsListed | pkg/controller/import_export.go:107-131 | For every id with a modifier, a reachable state in which it is listed for a user who is denied every check of it |
| Runs.RolesAndGroupsConfined | pkg/controller/resource.go:249-311 | Over runs of edits without modifier by callers without admin rights, roles never change, groups spread only to the callers' groups, users only to those the user management named |
| Runs.SequentialOutboxSafety | pkg/controller/resource.go:221-243 | As long as stored topics keep to a fixed configuration in which each publishing topic has its own Kafka topic, every run of controller operations, bulk loads, imports and retry passes included, with any faults, ends with synced entries published as stored |
| Controller.Controller.Export | pkg/controller/import_export.go:34-78 | Exactly the chosen topics and their chosen resources, sorted |
| Exchange.ExportedResources | pkg/controller/import_export.go:34-78 | For all options: without a filter by topics each stored resource of a stored topic occurs once, with one as often as the filter names its topic, only with wanted ids, and in the order of topic and id |
| Exchange.ExportedTopics | pkg/controller/import_export.go:48-53 | Exactly the stored topics that are wanted, each once, in ascending order |
| Controller.Controller.Import | pkg/controller/import_export.go:84-135 | Topics, then resources, with filters; the first error ends the import where it got to |
| Controller.Controller.ImportPermissions | pkg/controller/import_export.go:104-132 | The loop with its topic cache, which always shows the stored topics, does what looking every topic up does |
| Exchange.ImportEnds | pkg/controller/import_export.go:104-132 | Whatever fails: no error exactly if every wanted resource passes, 400 exactly if the first that does not has no administrating user or no topic, 500 exactly if its write fails |
| Exchange.ImportLeaves | pkg/controller/import_export.go:104-132 | Whatever fails: under every key the last resource the import got to and stored is there with its rights, and where it stored none the entry is as it was |
| Exchange.TopicsImported | pkg/controller/import_export.go:94-103 | As long as database calls succeed: under every id the last topic set is there in effect, and where none was set the topic is as it was; the filter compares ids as given; the first wanted topic that is not acceptable ends the import with 400 |
| Exchange.ImportAnswers | pkg/controller/import_export.go:84-135 | A whole import, as long as database calls succeed: its status, for admins and others, and what it leaves under every id and key, for all options and filters |
| Transfer.FullExportIsSorted | pkg/model/model.go:115-126 | A full export already lists topics by id and resources by topic and id, so sorting changes nothing |
| Transfer.ExportImportRestores | pkg/controller/import_export.go:84-135 | Importing the full export of a sound state with admins into an empty store restores topics and rights and gives the same full export, as long as database calls succeed and whatever publishes fail |
| Transfer.ReachableTransfers | pkg/controller/import_export.go:34-135 | So does, under the same condition, the export of every state reachable without bulk loads and torn topic deletes |
| Transfer.ImportTwiceIsOnce | pkg/controller/import_export.go:84-135 | As long as database calls succeed, importing anything twice, with any filters and even if refused half-way, leaves the topics and rights of importing it once, with the same status |
| Controller.Controller.AdminLoadFromPermissionSearch | pkg/controller/load.go:49-97 | The paging loop terminates and handles each element of the pages it fetches once, in order, up to the first error |
| Controller.Controller.HandleElement | pkg/controller/load.go:99-150 | Known elements are skipped unless overwritten; rights are merged into the stored ones and written, except in a dry run |
| BulkLoad.LoadAddsOnly | pkg/controller/load.go:83-95 | An error-free load without overwriting keeps every entry as it is, adds one for every other id, and counts exactly those, however often an id occurs |
| BulkLoad.LoadedRights | pkg/controller/load.go:105-141 | For any element that is stored each lookup of a user or role gives the remote right if named, the remote groups counting as roles, and else the one stored before; group rights stay |
| BulkLoad.LoadStoresFirst | pkg/controller/load.go:126-134 | After an error-free load without overwriting each new key holds the users, and the groups as roles, of the first element with that id, and no group rights |
| BulkLoad.LoadAnswers | pkg/controller/load.go:49-97 | A load without overwriting that fails stops at a new element; status and count of any such load, and old entries stay |
| BulkLoad.SecondLoadIsIdle | pkg/controller/load.go:65-97 | An error-free load returns the number of distinct new ids; a second one returns 0 and changes neither database nor Kafka |
| Failures.TornRemovalOrphans | pkg/database/mongo/topics.go:111-121 | A run from the empty store in which a removal torn between its deletes leaves a resource without its topic |
| Failures.LoadWithoutAdmin | pkg/controller/load.go:105-141 | A run from the empty store in which a load stores an entry without an administrating user |
| Failures.OverwriteMerges | pkg/controller/load.go:105-134 | A run from the empty store in which an overwriting load keeps a user that the remote side does not name |
| Failures.DryRunMiscounts | pkg/controller/load.go:136-139 | A run from the empty store after which a dry run counts 2 and the load 1 |
| BulkLoad.DryRunPredictsIff | pkg/controller/load.go:136-139 | A dry run changes nothing; its count is at least that of an error-free load, and equal exactly when no new id occurs twice |
| BulkLoad.OverwriteForcesRemoteIff | pkg/controller/load.go:105-134 | An overwritten entry has exactly the remote rights if and only if nothing was stored for principals the remote side does not name |
| BulkLoad.LoadedAdminIff | pkg/controller/load.go:105-141 | A loaded entry has an administrating user exactly when the remote side names one or keeps a stored one untouched |

## Left out

- HTTP endpoints, client, forwarding, version check, swagger, configuration, drivers, indexes, database migration: plumbing, or copying of entries with their flags.
- Token parsing: a token is a datatype with user, roles, groups, the admin flag and the set of groups for which HasGroup holds; the statuses of unparsable tokens are not modelled.
- Failures of plain reads: a failing lookup or query of a check, edit, export or import returns status 500 and changes nothing; only the retry pass, where a failure moves on to the next resource, has them.
- HTTP failures while paging through permission-search: the remote list is fixed and every page arrives.
- Controller.Controller.SetTopic: does not model the notification sent before the write.
- Controller.Controller.RemoveTopic: does not model the notification sent before the deletes.
- Order.Page: limit and offset are unbounded integers; the model has no 64-bit overflow.
- MongoStore.Database.ListUnsyncedResources: entries with equal ids in different topics may come in another order than the server's.
- MongoStore.Database.SetTopic: the timestamp that the store writes into a topic is not modelled; Topic.Equal ignores it as well.
- Entries.PermissionsEntry.SetResourcePermissions: the twelve list fields are three groups of four lists, and the loops over the three maps and the twelve lists are shared helper methods.
- MockStore.Mock.ListResourcesByPermissions: its loop is shared with AdminListResources, and values are copied, so aliasing between the list store and its callers is not modelled.
- The list store's stubs MarkResourceAsSynced and ListUnsyncedResources and its ListTopics, which ignores the ids asked for.
- Thin controller wrappers: AdminListResourceIds, ListResourcesWithAdminPermission, ListTopics, GetTopic; PermissionListFromString and Encode.
- The decoded modifier of an id: only the pure id has an effect on rights.
- The producer cache of getProducer and its mutex: a failing producer is a failing publish. Message encoding copies the rights and is taken as the identity.
- Outbox.OutboxSafety: a message counts as delivered once sent; reordering or loss inside Kafka is not modelled.

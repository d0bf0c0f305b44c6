# Verified model of the OTC RDS operator

A Dafny model of the controller of the OTC RDS operator, a Kubernetes operator for managed databases,
with proofs about it. `dafny verify dfyconfig.toml` checks the whole project.

Every call to the cloud, to Kubernetes, to the alarm service or to the database is a method that may
fail at will, with or without having taken effect. What the controller promises is proved for all such
behaviours: per attempt as contracts of the methods, over retries, resyncs and whole runs as lemmas about
the relations in those contracts.

| files | content |
|---|---|
| `Types`, `Cloud`, `Common` | the managed object and what its copies share; the cloud and the store, with a record of the calls made, what each save read and sent, and the number of error answers |
| `Plans`, `Steps`, `Stages` | the calls of one attempt as a plan fixed at its start; what an attempt does to cloud and store, judged by its record; the state around the controller, and how the stages of an attempt add up |
| `Controller`, `EventLoop` | the reconcile operations; the informer's handlers and the processing of one queued event |
| `Runs`, `History` | serial runs of users, informer, workers and alarm receiver: one instance per name, growing volumes, convergence, resyncs, lost edits; the record of calls: triggers, backups |
| `WorkQueue`, `Workers` | the work queue, N workers on it in any interleaving: conservation, retry budget, termination |
| `Uniq`, `Flavors`, `NextBigger`, `Ascent` | sort-and-deduplicate in place, the flavour search, its meaning, and the climb that repeated alarms make |
| `Strings`, `Names`, `Alarms`, `Autopilot`, `Sql` | Go's string operations, names and their decoding, alarm rules, the alarm webhook, database provisioning |

How an attempt is specified: `Plans.UpdatePlan` lists the calls of an attempt from the object and the
instance found at its start. A method's contract says that the record of calls has grown along the plan
(`Plans.Along`): in order, none but the last failed, all of them on success; an entry for a save also says
whether its refresh listed the instance and which object was then sent. What the calls do to the cloud is
said by `Plans.Advanced`: some of the jobs have run, among them all whose wait went well. What may have
been stored is said by `Plans.Touched`. `Stages.Processed` puts this together for an event, with the effect
on database and alarms and with the reasons (`Stages.Excused`) for which an attempt may end otherwise than
well. `EventLoop.ProcessNextItem` promises it for each attempt, and the runs of `Runs` consist of steps that
satisfy the same relation (`Steps.EventStep`), so that the results about runs speak of what the methods do:
`EventLoop.Abs` reads a state of the runs off cloud, store and queued events, the informer's handlers add one
event to it, and what an attempt makes of it is a step (`EventLoop.AttemptIsStep`).

Assumptions about code outside the repository:
- a job that was accepted has run when the wait for it succeeds, and may or may not have run otherwise; it does not run later;
- a listing by name finds exactly the instances of that name; ids are never issued twice; nobody else creates an instance under an object's name or enlarges or deletes a managed one;
- users keep or remove the id in a status, they do not write another one;
- `uniq.Slice` sorts, keeps one element per key at the front and returns how many; the client-go queue behaves as `WorkQueue.Queue`;
- a failed listing of alarms yields a nil result, on which the deletion of alarms panics; in the creation of alarms its error is looked at first; a failed creation of a topic yields an unknown URN;
- the events of one object are processed one after the other.

Results where the code does not do what its documentation suggests:
- `README.md:249` promises the next bigger flavour. vCPU counts are filtered as strings, so this holds exactly for readable catalogues (`NextBigger.CpuAnswersExact`), which include all whose counts have one length; from 8 vCPUs the search overlooks 16, from 16 it chooses 4 (`NextBigger.BiggerOverlooked`, `NextBigger.SmallerChosen`).
- Mixed cpu and memory alarms stop if and only if no answer to a cpu alarm has less RAM (`Ascent.MixedStopsIff`). On readable catalogues this says that more vCPUs never come with less RAM (`Ascent.ReadableMixedStopsIff`). Elsewhere the latter is neither enough, as between 8 vCPUs with 16 GB and 16 vCPUs with 32 GB alarms go round for ever (`Ascent.CompatibleGoesRound`), nor needed (`Ascent.ConflictingStops`).
- A code listed twice with different sizes can make the answer depend on the order of the catalogue (`NextBigger.OrderMatters`; exactly when: `NextBigger.OrderIndependentIff`).
- A trigger is cleared on a copy and in the store, not in the queued event: an event with `reboot` or a restore time set restarts or restores the instance in each attempt in which its save without the trigger goes well (`History.EveryAttemptFires`), any number of times (`History.RestartsRepeat`).
- A trigger is not always cleared in the store before it fires: the cleared object is sent if and only if the refresh before it lists the instance, and a failure there goes unnoticed (`History.UpdateClearsTriggers`, `History.RestartUnsaved`).
- A successful event does not mean that its edit is in effect: it is, if and only if the refreshed object differs from the replaced one in at most one of specification and state, or the instance had the flavour and size before (`Runs.ActedOn`, `Runs.EditTakesEffect`). An edit of the specification alone is skipped when the state has moved on by the time of the refresh (`Runs.EditSkipped`, `Runs.EditAloneSkipped`). The next resync that succeeds makes up for it (`Runs.EditRecovered`).
- Deleting an object can delete alarms of another one (`Alarms.DeletionPrecise`, `Alarms.ForeignAlarmDeleted`).
- `README.md:128-129` promises that missing users and databases are created again. An attempt does so if and only if the two lists of databases differ in length or the lists of users are different pointers, and no log job cuts it off (`Stages.RecreatedIff`); a resync compares an object with itself, so it recreates nothing (`EventLoops.EventLoop.OnUpdate`, `Stages.ResyncRecreatesNothing`).
- The CRD admits PostgreSQL and SQLServer (`chart/crds/rds.yml:54`), for which an event that wants users never succeeds once it is compared (`Runs.HopelessNeverSucceeds`). Nor does one that asks for alarms where a disc alarm of the name exists (`Stages.RefusedFails`).
- An empty schema name passes the pattern and is tried again each time (`Sql.SecondRunKeepsSchemas`).

## Model

| member | source | states |
|---|---|---|
| Strings.SplitJoin | pkg/controller/autopilot.go:108-110 | splitting is the inverse of joining on separator-free parts |
| Strings.JoinSplit | pkg/controller/autopilot.go:108-110 | joining the parts of a split gives the string back, and no part holds the separator |
| Strings.SameLengthOrder | pkg/controller/resource.go:829-837 | on digit strings of one length the string order is the numeric order |
| Strings.CountOrder | pkg/controller/resource.go:797-837 | string and numeric order of two counts agree exactly when the shorter does not exceed the leading digits of the longer; every count is above the initial "0" |
| Names.DecodeEncode | pkg/controller/autopilot.go:108-110 | decoding a URN built on `namespace_name` gives the two parts back exactly when neither holds "_" |
| Names.EncodeInjective | pkg/controller/resource.go:120 | namespaces without "_": two objects never share an instance name |
| Names.EncodeCollides | pkg/controller/resource.go:120 | without that restriction, which Kubernetes imposes on namespaces, two objects could share one |
| Names.ContainsEncoded | pkg/controller/alarm.go:207 | a longer name contains `ns1_n1` exactly when ns1 ends its namespace and n1 begins the rest |
| Uniq.Sort | pkg/controller/resource.go:850-855 | sorts by key in place; the result is a permutation |
| Uniq.Compact | pkg/controller/resource.go:850-855 | on sorted input the kept prefix has every key once, ascending, made of input elements |
| Uniq.Slice | pkg/controller/resource.go:850-855 | in place: kept prefix strictly ascending, its keys those of the whole input, elements permuted |
| Uniq.FirstIsLeast | pkg/controller/resource.go:853-854 | element 0 of the kept prefix is a least element of the input |
| Flavors.FindCurrent | pkg/controller/resource.go:816-821 | the last catalogue entry under the present code, or zero vCPUs and RAM where there is none |
| Flavors.Consider | pkg/controller/resource.go:825-847 | whatever the order in which the zones are visited, an accepted flavour is appended once per zone, or once when a second zone is given, any other never |
| Flavors.RdsFlavorLookup | pkg/controller/resource.go:786-895 | answers exactly when an entry fits, and then the code of a fitting one of least size: normal in the first zone and in the second if one is given, more vCPUs or RAM than at present, and ".ha" for ".ha", neither ".ha" nor ".rr" for any other |
| Flavors.ZonesAre | pkg/controller/resource.go:786-796 | one zone, two, or two followed by others that are not looked at |
| Flavors.ClassesApart | pkg/controller/resource.go:829-837 | from a single instance the search passes by ".rr" and ".ha" codes, from an HA instance by the other two |
| NextBigger.AnswerExists | pkg/controller/resource.go:786-895 | every request has an answer that meets the specification of the search |
| NextBigger.OrderIndependent | pkg/controller/resource.go:824-893 | two catalogues with the same entries, in any order and multiplicity, give answers of one size or none both, if the entries under the present code lead to one next size |
| NextBigger.OrderIndependentIff | pkg/controller/resource.go:816-893 | that condition is exact |
| NextBigger.UniqueCodesSettle | pkg/controller/resource.go:816-821 | with unique codes the condition holds |
| NextBigger.OrderMatters | pkg/controller/resource.go:816-821 | a code listed twice: the two orders of its entries give different answers |
| NextBigger.CpuAnswersExact | pkg/controller/resource.go:829-852 | with unique codes and counts in digits, all answers to a cpu request are the numerically next bigger flavour if and only if the catalogue is readable for it |
| NextBigger.OneLengthReadable | pkg/controller/resource.go:829-837 | catalogues whose counts have one length are readable, and the string filter is the numeric one |
| NextBigger.BiggerOverlooked | pkg/controller/resource.go:837 | from 8 vCPUs, 16 is not found |
| NextBigger.SmallerChosen | pkg/controller/resource.go:837 | from 16 vCPUs, 4 is answered |
| Ascent.OneKindStops | pkg/controller/autopilot.go:143-173 | alarms of one kind change the flavour at most as often as there are distinct sizes |
| Ascent.OneKindRises | pkg/controller/autopilot.go:143-173 | RAM rises at every step; vCPUs rise as strings, and between two flavours of the climb as numbers if and only if string and numeric order of the two counts agree |
| Ascent.ClassKept | pkg/controller/resource.go:829-837 | the first step fixes the HA class for all later ones |
| Ascent.ClimbToRam | pkg/controller/autopilot.go:159-173 | memory alarms can reach every flavour of the class with more RAM |
| Ascent.ClimbToCpus | pkg/controller/autopilot.go:143-158 | on readable catalogues cpu alarms can reach every flavour of the class with more vCPUs |
| Ascent.MixedNeedNotStop | pkg/controller/autopilot.go:143-173 | where a cpu alarm is answered by a flavour with less RAM, alarms can go round any number of times |
| Ascent.MixedStopsIff | pkg/controller/autopilot.go:143-173 | on catalogues with unique codes, mixed alarms are bounded if and only if no answer to a cpu alarm has less RAM |
| Ascent.ReadableMixedStopsIff | pkg/controller/autopilot.go:143-173 | on readable catalogues the condition is that more vCPUs never come with less RAM, read as numbers |
| Ascent.OneLengthThroughout | pkg/controller/resource.go:829-837 | catalogues whose counts have one length are readable throughout |
| Ascent.CompatibleGoesRound | pkg/controller/resource.go:837 | 8 vCPUs with 16 GB and 16 vCPUs with 32 GB: any number of alternating steps |
| Ascent.ConflictingStops | pkg/controller/resource.go:837 | a catalogue with conflicting numbers on which all climbs are bounded |
| WorkQueue.StepInv | pkg/controller/worker.go:20-41 | every action of every worker keeps conservation, soundness of queue and workers, and the retry budget |
| Workers.EventsConserved | pkg/controller/worker.go:20-41 | in every run each added event is in exactly one place, has at most 300 requeues and 301 attempts, and is dropped only at its 301st |
| Workers.MeasureStep | pkg/controller/worker.go:20-41 | every action but an addition lowers a measure |
| Workers.RunsAreBounded | pkg/controller/worker.go:13-41 | k additions: at most 301 k attempts, and runs of bounded length |
| Workers.NothingLeftBehind | pkg/controller/worker.go:20-41 | where no action is left, every event has succeeded or been dropped |
| Workers.ItemIsFourActions | pkg/controller/worker.go:20-41 | what one worker does with one event is four actions of the machine |
| Types.Rds.DeepCopyInto | pkg/rds/v1alpha1/zz_generated.deepcopy.go:13-19 | all fields are copied, databases and users are shared |
| Types.Rds.DeepCopy | pkg/rds/v1alpha1/zz_generated.deepcopy.go:22-29 | a fresh object of the same value, sharing databases and users |
| EventLoops.EventLoop.OnAdd | pkg/controller/controller.go:78-94 | a watched object is queued once, as a fresh copy, under an unused number, and the state of the runs gains that event; another is ignored |
| EventLoops.EventLoop.OnDelete | pkg/controller/controller.go:96-112 | likewise for deletions |
| EventLoops.EventLoop.OnUpdate | pkg/controller/controller.go:114-136 | likewise, with fresh copies of the old and the new object; an object passed twice, as in a resync, queues an event for which no users are wanted |
| EventLoops.WordsAre | pkg/controller/controller.go:85 | the words of a string are exactly what stands in it between white space |
| EventLoops.EventLoop.WatchesIff | pkg/controller/controller.go:85 | a namespace is watched if and only if it or "*" stands in the list as a word between white space |
| EventLoops.TwoNamespaces | pkg/controller/controller.go:85 | a list of two namespaces separated by a space holds these two |
| EventLoops.EventLoop.ProcessEvent | pkg/controller/worker.go:43-62 | dispatch: calls made and effect on cloud, store, database and alarms are those of the event's kind |
| EventLoops.EventLoop.ProcessNextItem | pkg/controller/worker.go:20-41 | one attempt at the first event, with all it does, then forgotten, requeued or dropped; of all queued objects only its status changes, so that every attempt sees the same specification |
| EventLoops.EventLoop.AttemptIsStep | pkg/controller/worker.go:20-62 | what such an attempt makes of cloud, store and events is a step of the runs |
| Controllers.Controller.RdsUpdateStatus | pkg/controller/resource.go:668-704 | the first address listed, or 0.0.0.0 without one, and the listed state unless it is empty are taken over, from the instance of the object's name; nothing else changes; the whole object is sent to be stored exactly when that instance was listed |
| Controllers.Controller.UpdateStatus | pkg/controller/resource.go:1003-1019 | one recorded save, with what its refresh listed and the object it sent; the outcome of the write is lost, a missing client or a panic is not |
| Controllers.Controller.RunJob | pkg/controller/resource.go:350-380 | submit, wait, reload and save in this order, stopping at the first error; if the wait went well the job has run, however the rest ends |
| Controllers.Controller.Scale | pkg/controller/resource.go:340-423 | enlarge then resize where the listed instance differs; the cloud has gone through a prefix of the two jobs that includes each whose wait went well |
| Controllers.Controller.FireTriggers | pkg/controller/resource.go:424-517 | restart and restore along their plan, each submitted as soon as the save of the object with the trigger cleared has gone well; an unreadable time ends the attempt |
| Controllers.Controller.Finish | pkg/controller/resource.go:519-665 | logs end the attempt; otherwise users and schemas, exactly where wanted, then the autopilot; it panics only for a missing list of users, a lost instance or one without a node |
| Controllers.Controller.FollowUp | pkg/controller/resource.go:424-665 | the stages after scaling leave the instance alone; the database changes only where users are wanted, and on success all wanted users are provisioned |
| Controllers.Controller.RdsUpdate | pkg/controller/resource.go:326-666 | the whole attempt follows the plan of the instance listed at its start, advances the cloud by its jobs, and does to database and alarms what is wanted |
| Controllers.Controller.ProcessUpdateRds | pkg/controller/worker.go:74-96 | refresh, then an attempt on copies if the refreshed object is to be compared and ACTIVE; a success has looked at the instance if and only if the refreshed object has the replaced one's status, or its specification and lists; record, cloud, store, database, alarms and the reasons for a failure |
| Controllers.Controller.RdsCreate | pkg/controller/resource.go:137-263 | at most one instance comes about, under a fresh id, where none had the name; it has the object's name, size and flavour, and is HA exactly if asked for; on success it has been waited for and the status holds its id |
| Controllers.Controller.Create | pkg/controller/resource.go:936-959 | as before, with its calls in order, but an error is reported only when nothing was done |
| Controllers.Controller.RdsDelete | pkg/controller/resource.go:265-324 | backup, wait, delete, wait; the instance goes only with a completed backup; without an id nothing is done |
| Controllers.Controller.Delete | pkg/controller/resource.go:961-984 | alarms first if the autopilot is on, those and the topics of its name, then as before |
| Stages.RecreatedIff | pkg/controller/resource.go:635-643 | the same for all an attempt does: missing users are recreated if and only if the lists differ in length or pointer and no log job cuts in |
| Stages.ResyncRecreatesNothing | pkg/controller/resource.go:635 | an attempt at a resync leaves the database alone |
| Stages.RefusedFails | pkg/controller/resource.go:635-662 | an attempt that is compared fails where users are wanted on another engine, the restore time is unreadable, or a disc alarm exists where alarms are asked for |
| Stages.QuietAttemptSucceeds | pkg/controller/resource.go:326-666 | without these, without an error answer, a lost instance, a missing list of users or a node missing, an attempt succeeds if the refresh lists the instance as ACTIVE, whatever state was queued |
| Stages.AutopilotConnects | pkg/controller/resource.go:645-663 | alarms are created only where an endpoint is given, the autopilot is off and no log job cuts in; a success then leaves topic, subscription of the endpoint and three rules, unless an answer was an error |
| Plans.TriggersClearedFirst | pkg/controller/resource.go:425-572 | in every prefix of the plan each restart, restore or log job comes right after the first save with the trigger cleared, and no later save carries it |
| Plans.ScalesOnlyWhenShort | pkg/controller/resource.go:338-383 | an attempt asks for an enlargement or resize exactly when the listed instance differs |
| Plans.UpdateCallsAsked | pkg/controller/resource.go:338-662 | every call planned is asked for by the object, with its id and the requested size, flavour or time; the stages come in their order; each wait is followed by a save, the creation of alarms preceded by the save that turns the autopilot on |
| History.UpdateClearsTriggers | pkg/controller/resource.go:425-572 | in every attempt of every run: from that save on no object sent carries the trigger, and one without it has been sent before the job if and only if the refresh of that save listed the instance |
| History.RestartUnsaved | pkg/controller/resource.go:683-696 | an attempt at the event in which a restart is asked for although the cleared object was never sent, after which cloud, store and event are as before |
| History.EveryAttemptFires | pkg/controller/resource.go:425-517 | after any number of attempts at an event the next one restarts if and only if the object was queued with the trigger and a save without it goes well, and likewise restores; a successful one has done what was asked for |
| History.RestartsRepeat | pkg/controller/worker.go:86-94 | one event restarts its instance any number of times |
| History.NoDeletionWithoutBackup | pkg/controller/resource.go:265-298 | in every attempt of every run each deletion comes directly after a successful wait for a backup of that instance |
| History.UpdatesWellMade | pkg/controller/resource.go:338-662 | in every run an attempt makes no call but those asked for, in their order, with a save after each wait; a successful one ends with no wait open and has fetched logs where asked for |
| History.CreationsWellMade | pkg/controller/resource.go:209-260 | in every run a creation launches under the object's name, saves, waits for the very instance and saves again, as far as it comes |
| History.DeletionsWellMade | pkg/controller/resource.go:265-324 | deletions and backups are of the object's own instance, nothing without an id; its alarms go first, and only if the autopilot is on |
| Steps.ReadsHitWrites | pkg/controller/resource.go:333-350 | under coherence the instance read by name is the one written by id |
| Steps.ScaleEffect | pkg/controller/resource.go:338-423 | what an attempt does to the instances, each stage through if the wait for its job went well |
| Steps.UpdateEffect | pkg/controller/resource.go:338-423 | an attempt leaves the volume or raises it to the requested size; a completed enlarge stage reaches the larger of the two and a completed resize the requested flavour, however the attempt ends |
| Steps.DoneIsScaled | pkg/controller/resource.go:338-423 | in a successful attempt both scale stages are complete |
| Runs.RunInv | pkg/controller/resource.go:137-263 | in every run: at most one live instance per name, ids issued for their object, no instance gone without a backup |
| Runs.CreatedAsAsked | pkg/controller/resource.go:166-234 | in every run the instance that an add event brings about has the name, size, flavour and HA mode asked for, so that an update with the same specification asks for no enlargement and no resize |
| Runs.RunGrows | pkg/controller/resource.go:338-381 | between any two points of a run volumes do not shrink and ids are not reused |
| Runs.RunBounded | pkg/controller/resource.go:338-381 | the volume stays within every bound on the initial sizes and the submitted ones |
| Runs.VolumeNeverShrinks | pkg/controller/resource.go:338-381 | over every run the volume grows, and from an update whose enlarge stage completed on it is at least its size |
| Runs.RetriesConverge | pkg/controller/resource.go:326-423 | after any number of broken attempts one whose scale stages complete leaves what a single such attempt leaves: requested flavour, larger of initial and requested volume |
| Runs.RunConverges | pkg/controller/worker.go:74-96 | the same within any run: between the queueing of an update event and an attempt whose scale stages complete lie broken attempts and actions that leave the event and the volume alone, flavour drift among them |
| Runs.ConvergedIsQuiet | pkg/controller/resource.go:340-383 | a further attempt asks for no enlargement and no resize |
| Runs.ResyncRepairs | pkg/controller/worker.go:74-95 | whatever else goes on between a resync and its first success, that attempt was not skipped, drift of the flavour is undone and the volume filled up, to the specification stored when the resync came, if the instance is there |
| Runs.ResyncRepairsExactly | pkg/controller/worker.go:74-95 | where nothing else moves the volume meanwhile it ends as the larger of what it was when the resync came and the stored size |
| Runs.EditTakesEffect | pkg/controller/worker.go:82-95 | a successful attempt at an update leaves the specification in effect if and only if it was not skipped, or it was in effect before; it looks at the instance if and only if it is not skipped |
| Runs.ActedOn | pkg/rds/v1alpha1/types.go:78-81 | a successful attempt has looked at the instance if and only if the refreshed object has the replaced one's status, or its specification and lists |
| Runs.EditActedOn | pkg/controller/worker.go:82-95 | in every run an edit whose refresh leaves the status the replaced object had is in effect after a success: its flavour, and the larger of the two sizes |
| Runs.EditSkipped | pkg/rds/v1alpha1/types.go:78-81 | wherever the refresh leaves specification and state both different an attempt can succeed without a look at the instance |
| Runs.EditAloneSkipped | pkg/controller/worker.go:78-85 | so an edit of the specification alone is without effect when the state has moved on by the refresh |
| Runs.EditRecovered | pkg/controller/worker.go:74-95 | whatever became of the event of an edit, the next successful resync brings the edit into effect, unless another size or flavour was stored before the resync came |
| Runs.QueuedStays | pkg/controller/worker.go:64-94 | all attempts at an event of any kind see the same specification, and at an update compare it with the same object |
| Runs.HopelessNeverSucceeds | pkg/controller/sql.go:14-118 | users wanted on another engine than MySQL, or an unreadable restore time: no attempt that is not skipped succeeds |
| Alarms.CreateAlarm | pkg/controller/alarm.go:15-184 | an existing disc alarm ends it without a new rule; topics and subscriptions stay and at most the object's own are added, as are the three rules; without an error all are there: the topic `namespace_name`, the endpoint subscribed to it, the rules on disc, cpu and memory notifying it; never two disc alarms of one object |
| Alarms.AlarmsFindObject | pkg/controller/autopilot.go:108-110 | a URN built on that topic is decoded to the object |
| Alarms.DeleteAlarm | pkg/controller/alarm.go:186-225 | only rules whose name contains the object's are deleted, all of them without an error; topics by exact name |
| Alarms.DeletedTogether | pkg/controller/alarm.go:207 | which foreign alarm names match |
| Alarms.DeletionPrecise | pkg/controller/alarm.go:205-211 | a complete deletion removes all alarms of the object, and another object's exactly when the names overlap |
| Alarms.ForeignAlarmDeleted | pkg/controller/alarm.go:207 | deleting prod/db deletes an alarm of preprod/db2 |
| Autopilot.SmnReceiver.Post | pkg/controller/autopilot.go:88-177 | only the object decoded from the topic is touched, by the reactions the message calls for; a URN of another shape or a missing client configuration panics without effect; a flavour listing that fails ends the process at that point; fields left out of a body keep their last value |
| Autopilot.SmnReceiver.React | pkg/controller/autopilot.go:129-173 | +10 for the disc, then the answers of the search, each on top of the one before and sent to be stored; without an error the last is stored |
| Autopilot.ReactionKeepsObject | pkg/controller/autopilot.go:129-173 | nothing but size and flavour changes, the size by exactly 10 or not at all |
| Autopilot.MetricRaises | pkg/controller/autopilot.go:129-173 | rds001_cpu_util leads to a flavour with more vCPUs and rds002_mem_util to one with more RAM, unless nothing fits or the listing fails |
| Autopilot.AlarmIsRaise | pkg/controller/autopilot.go:129-173 | for the runs an alarm does nothing or is one write of another version of the object |
| Autopilot.AlarmsClimb | pkg/controller/autopilot.go:143-173 | the flavours that successive alarms leave make a climb, with a step for each flavour found |
| Autopilot.AlarmsSettle | pkg/controller/autopilot.go:143-173 | alarms in any mixture find a bigger flavour at most as often as there are extents, where no cpu answer has less RAM |
| Sql.Database.GrantAll | pkg/controller/sql.go:61-80 | exactly the privileges that match the pattern are executed, in order, each followed by a flush |
| Sql.Database.CreateUsers | pkg/controller/sql.go:32-82 | users and statements are those of the fold over the entries dealt with; it stops at the first error |
| Sql.Database.CreateSchemas | pkg/controller/sql.go:84-114 | nothing removed, nothing unwanted created; without an error exactly the wanted schemas and statements |
| Sql.CreateSqlUser | pkg/controller/sql.go:12-120 | both loops; MySQL only; users of a first part of the list; after a success every listed user exists, and every well-named schema if no answer was an error; panics only on a nil user list |
| Sql.UsersAfterIs | pkg/controller/sql.go:46-58 | the accounts afterwards are the old ones and, for each new name, name and host of its first entry |
| Sql.StatementsFounded | pkg/controller/sql.go:46-80 | every statement is the creation of the first entry of a new name, sent once, or a privilege of it, after the creation, made of letters, digits and " '*._%" only and followed by a flush |
| Sql.StatementsComplete | pkg/controller/sql.go:46-80 | and the first entry of each new name has its creation and all its permitted privileges |
| Sql.SchemasAre | pkg/controller/sql.go:85-109 | a schema is created exactly if listed, not there, and made of letters and digits only; all but the empty name then exist |
| Sql.ProvisionedIff | pkg/controller/resource.go:635-643 | what is listed is there after a successful attempt if and only if provisioning was wanted or it was there before |
| Sql.UsersResume | pkg/controller/sql.go:32-82 | a broken provisioning followed by a complete one yields what a complete one yields |
| Sql.SecondRunKeepsUsers | pkg/controller/sql.go:46 | a second provisioning issues no statement about users |
| Sql.SecondRunKeepsSchemas | pkg/controller/sql.go:85-104 | nor about schemas, exactly when no empty name is listed or one exists |

## Left out

- Clients, authentication, environment: a step that may fail.
- Service and endpoint creation: a step that may fail, no hard property.
- The log job's token, pod and watch loop: the attempt to create the job and an arbitrary outcome.
- Events, logging, sleeps, timing, leader election, start-up, generated client code, Helm chart, CRD.
- Integer width: volume sizes are unbounded integers; the CRD keeps them between 40 and 4000. `Strings.Atoi` does clamp to 64 bits.
- The store's check of resource versions: a write may be refused or applied, so a stale write may also overwrite a later edit.
- Databases and users in the store: the stored object has the scalar fields; the lists live in the queued objects.
- SQL quoting: a statement built from a name is taken to concern that name; MySQL's collation is not modelled.
- Attempts at different objects are taken one after the other in `Runs`; they touch different instances, names and keys.
- Queue shutdown: an empty queue stands for it in `ProcessNextItem`; a panic ends the process.
- `runWorker`: it only repeats `processNextItem` until shutdown; its runs are those of `Workers`.
- Late effects: a job whose wait has failed does not run afterwards.
- The GET branch, the subscription request and signatures of the webhook.
- Importing unmanaged instances: the code answers "already exists".

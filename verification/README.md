# Verification of the event-sourced backend

This project models six parts of the backend and proves how they behave over whole runs: the process engine with its
log and snapshots, the event store of the aggregates, groups and users, timers and the clock, one-time passwords, and
the parts around encryption. Values and their laws are functions and lemmas; code that changes state in place is a
class or a method proved against those functions.

`dafny verify dfyconfig.toml` checks everything.

## Files

| files | what they model |
|---|---|
| `FlowTypes`, `FlowMachines` | elements, events, commands; the handler tables of the event, gateway, sequence, task and job machines with the three-level event lookup and the four-level command lookup; the event handlers of the instance machine |
| `FlowSpec`, `FlowModel`, `FlowApplication` | the application as a value; the class `Model` with the event handlers of the machines, which change it in place; the classes `Database` and `Application` |
| `FlowReplay` | replay of the grouped log, snapshots, cycles of load, execute and persist |
| `FlowStale`, `FlowStaleModels` | two instances that load the same version and both persist; what becomes of sequences, joins, exclusive gateways and jobs |
| `FlowRedo`, `FlowTimeline`, `FlowByTime` | applying the end of a model's log once more; the store that hands out events in the order of their timeuuids, and so does that |
| `FlowTokens`, `FlowTasks` | parallel joins, exclusive gateways, sequences, event elements, tasks: how many onward commands there are |
| `FlowJobs` | jobs: the list of each version, and commits |
| `FlowCommands` | the theorems on runs, said of commands and of cycles of commands |
| `FlowProjection`, `FlowLives` | one model of a running application, seen alone: the theorems on joins, tokens, tasks, exclusive gateways, start events and jobs, said of whole applications |
| `FlowTimed` | cycles of commands, and their jobs, on the store in the order of time |
| `FlowOutcomes` | cycles in which no commit carries an error |
| `Cqrs`, `CqrsRepository` | the event store with its version check, under every interleaving of single queries; the classes around it |
| `Membership`, `MembershipAggregates` | the guards of the groups service and the two projections of its events |
| `Calendar`, `Timer`, `TimerObjects` | day numbers and dates (section 21.4.1 of ECMA-262), cycles, scheduling |
| `Clock`, `ClockNodes` | the tick protocol over a topic |
| `Totp` | counter block, truncation and window search (RFC 4226 and RFC 6238) |
| `Framing`, `FramingStreams` | the header line of encrypted streams and the chunking of either side |
| `KeyChain`, `KeyProvider` | key caches of several nodes over one growing chain |
| `SecretTree` | encrypting the marked values of a JSON tree |
| `Wrappers`, `Division` | what the others share |

A run is a sequence, and a property of runs is quantified over all of them. An `Option` result is `None` where the
source throws, unless the comment beside it says otherwise.

## What the code does that its description does not say

The model follows the code. Where that departs from what one would expect, a lemma says exactly when:

- Replay agrees with the live run for every model, but for a sequence model that was added without its element and whose
  last event raised is no activation: it logs its activations and throws on completion (`FlowReplay.ReplayAgreesIff`,
  `FlowReplay.UngroundedCanEndIdle`). The instance machine never adds a sequence that way.
- A snapshot also holds models that never logged an event, as they were created; replay does not know them
  (`FlowReplay.SnapshotIsReplayOfWholeLog`).
- `this.store[uid],version !== version` in the in-memory database is always false, so an instance that loaded an old
  version persists all the same. What the other one logged is handed out again exactly if this one logged nothing
  (`FlowStale.StalePersist`); a model only the other one has is lost otherwise (`FlowStale.StaleModelLostIff`,
  `FlowStale.StaleModelLost`). A model both have is stored as the log says if the other one logged nothing for it
  (`FlowStale.StaleSnapshotHolds`); if this one logged nothing, exactly if the other one left it as it was
  (`FlowStale.StaleUntouchedIff`); for a sequence, exactly if this one logged for it or the other one left it as it was
  (`FlowStale.StaleSequenceIff`); for an exclusive gateway, exactly if this one logged more than activations or the other
  one left its state (`FlowStaleModels.StaleExclusiveIff`); for a job neither creates, exactly if the other one did not
  close it or both closed it alike (`FlowStaleModels.StaleJobIff`). A join is stored as the log says exactly if the other one logged nothing for it, this one
  completed it, or what arrived here continues what the other one had collected (`FlowStaleModels.StaleJoinIff`); where
  neither completes a stored join, open or not, exactly if what the other one had collected is the beginning of what this
  one has (`FlowStaleModels.StaleOpenJoinIff`): an arrival can be lost for good (`FlowStaleModels.StaleArrivalLost`).
- The Cassandra store of applications hands out the events behind the position by timeuuid, but the position is the last
  event of the log grouped by model: the tail is empty exactly if that is the newest of all
  (`FlowByTime.TailEmptyIffNewest`, `FlowByTime.TailCanRepeat`). Events the snapshot contains are then applied and
  written once more, which changes neither the log nor a model, but for the list of a join that has fired
  (`FlowByTime.TailDoesNoHarm`, `FlowRedo.RedoLeavesAlike`), and that list no command sees
  (`FlowRedo.AlikeCommand`).
- A commit that names an unknown job is not handled, yet adds a job model without a job: every later list fails, in
  that cycle and all cycles after it (`FlowJobs.UnknownCommitOnlyAdds`, `FlowJobs.UnknownCommitBreaksLists`,
  `FlowJobs.GetJobsFailsIff`).
- A rule task has no handler for its own failure: a failed commit leaves it active and issues nothing, where a service
  task turns to its boundary events (`FlowTasks.FailureEndsServiceOnly`).
- `Repository.persist` ignores the answer of the store: events are lost exactly when a snapshot was saved since the
  aggregate was read (`Cqrs.EventsLoggedIffNoSnapshot`).
- Joining a group one is already a member of splits the two projections exactly if the role is another one
  (`Membership.SecondJoinAgreesIff`, over whole runs `Membership.ProjectionsStayInStepIff`).
- The guards of removing, accepting and declining a nomination compare a negation with a string and let any request
  through: the members stay as they are exactly if the request is not a nomination
  (`Membership.NominationGuardsIgnoreKind`).
- A revokation requested again after 14 days is accepted for the caller: the member named loses the role exactly if it
  is the caller and the role pending is not empty, and otherwise the caller may
  (`Membership.OverdueRevokationHitsCaller`, `Membership.OverdueRevokationExample`).
- Accepting a revokation does not ask whether another admin is left (`Membership.AdminKeptIff`,
  `Membership.SoleAdminCanResign`).
- After its last date a cycle timer fails once, forgets its date and starts over on the call after that (`Timer.ScheduledPast`).
- The bit operators of the counter block keep 32 bits (`Totp.BlockEncodesIff`).
- A token is compared as a number: white space and a sign in front and anything behind its digits count as leading
  zeros, and a minus sign passes before zeros (`Totp.TokenMatchesIff`, for every token; `Totp.MinusZeros`); a token of
  digits matches exactly its code (`Totp.DigitsMatchIff`).
- The receiving stream gives up on a header of 2000 bytes or more and drops the rest (`Framing.GetsThroughIff`).
- A clock whose first message lies before the first tick never runs (`Clock.StartsIff`); with a precision above seven
  days and a millisecond a restart can repeat a time (`Clock.CoarseClockRepeats`).
- A call for a given key id has a key made exactly if there is no chain, whether the id was ever issued or not
  (`KeyChain.CreatesForIdIff`); an id that was not yields no key and leaves one behind (`KeyChain.UnknownIdLeavesKey`).

- Committing a job from the queue passes no error on. So long as nobody else sends one, no job fails, every job that is
  closed has finished, and no boundary event is ever activated (`FlowOutcomes.NoErrorNoFailure`,
  `FlowOutcomes.IssuesWithoutError`).

One remark on the source that the model takes in without a lemma of its own: sorting the local events subtracts timeuuid
strings, which leaves the list as it is, so the log is grouped by model.

## Model

| member | source | states |
|---|---|---|
| FlowReplay.HandlersKeepShape | lib/classes/flow/machines/sequence.js:14-33 | a typed model always has its element and a sequence keeps the one it was added with, so a handler of a model that was added with its element never throws |
| FlowReplay.GroupedByModel | lib/classes/flow/basic/application.js:42-48 | picking one model out of the log grouped by model gives back that model's own log, whatever the order of the groups |
| FlowReplay.RunTracks | lib/classes/flow/basic/model.js:101-153 | throughout every run each model stands exactly where the events logged for it, before and in this run, lead to from its birth |
| FlowReplay.ReplayByModel | lib/classes/flow/basic/application.js:211-231 | replaying any log from nothing gives each model the core its own events lead to, however the events of different models are mixed |
| FlowReplay.ExecutedIsRun | lib/classes/flow/basic/application.js:94-99 | whatever a command does to the application is a run, which adds the model, with its element where the command brings it along, and then raises what the handler emits; so the theorems on runs cover every command |
| FlowReplay.ExecutedAllIsRun | lib/classes/flow/basic/model.js:58-99 | every sequence of commands, with anything the instance machine does in between, is a run |
| FlowReplay.ReplayAgreesWithRun | lib/classes/flow/basic/application.js:211-231 | after every run, replaying the grouped log rebuilds exactly the models that logged an event, each with the state, type and context of the live run |
| FlowReplay.OnlyLogged | lib/classes/flow/basic/application.js:224-229 | replay adds no model that has no event in the log |
| FlowReplay.ReplayAgreesIff | lib/classes/flow/machines/sequence.js:18-34 | for every model with logged events: replay agrees with the live run exactly if it is not a sequence without its element, or the last event raised for it is an activation |
| FlowReplay.UngroundedCanEndIdle | lib/classes/flow/machines/sequence.js:28-33 | an input that shows it: a sequence without its element, activated and completed, is idle live |
| FlowReplay.TailIsEmpty | lib/classes/flow/basic/database.js:34-35 | after a persist no event lies behind the snapshot position |
| FlowReplay.LoadGivesBackModels | lib/classes/flow/basic/application.js:112-118 | loading gives back exactly the persisted models, in order, unchanged and without local events |
| FlowReplay.StepStamps | lib/classes/flow/basic/model.js:108-113 | a step keeps the timeuuids of the local events distinct and inside the span of the run |
| FlowReplay.CycleStores | lib/classes/flow/process.js:150-175 | a cycle keeps the stored row right: position at the last event, every snapshot entry what the whole log leads to; the version grows by one |
| FlowReplay.CyclesStore | lib/services/flow.js:860-900 | after any number of cycles the row is right and the version has grown by that number |
| FlowReplay.ReplayFromBeginning | lib/classes/flow/basic/database.js:27-33 | replaying the stored log from the beginning gives the snapshot entry of every model with events, and the other entries are as created |
| FlowReplay.SnapshotIsReplayOfWholeLog | lib/classes/flow/process.js:150-175 | after any number of cycles: version, empty tail, loaded models equal to the persisted ones, snapshot equal to the replay of the whole log |
| FlowStale.StalePersist | lib/classes/flow/basic/database.js:85-109 | two instances that loaded the same version both persist it; the log holds the events of both, the snapshot the models of the second alone, and the events of the first are handed out as tail exactly if the second logged nothing |
| FlowStale.StaleSnapshotHolds | lib/classes/flow/basic/database.js:96-107 | a model for which the first instance logged nothing is stored as the whole log says |
| FlowStale.StaleUntouchedIff | lib/classes/flow/basic/database.js:96-107 | a model for which the second instance logged nothing is stored as the whole log says exactly if the first one left it as it was |
| FlowStale.StaleSequenceIff | lib/classes/flow/machines/sequence.js:18-34 | a sequence is stored as the whole log says exactly if the second instance logged for it or the first one left it as it was |
| FlowStaleModels.StaleJoinIff | lib/classes/flow/machines/gateway.js:29-98 | every parallel gateway, stored or new, open or not, whatever activations, arrivals and completions either instance logs: it is stored as the whole log says, but for the list of an idle join, exactly if the first instance logged nothing for it, or the second completed it, or the arrivals of the second continue what the first had collected as they continue what both had loaded |
| FlowStaleModels.StaleOpenJoinIff | lib/classes/flow/machines/gateway.js:72-98 | a stored join that neither instance completes, open or idle before, is stored as the whole log says exactly if what the first instance had collected is the beginning of what the second has collected |
| FlowStaleModels.StaleArrivalLost | lib/classes/flow/machines/gateway.js:72-98 | an input that shows it: each instance takes another branch of a join, both arrivals are logged, and the snapshot knows one of them |
| FlowStaleModels.StaleExclusiveIff | lib/classes/flow/machines/gateway.js:43-71 | an exclusive gateway is stored as the whole log says exactly if the first instance logged nothing for it, or the second logged more than activations, or the first left it in the state it had |
| FlowStaleModels.StaleJobIff | lib/classes/flow/machines/job.js:80-87 | a job neither instance creates is stored as the whole log says exactly if the first did not close it or both closed it with the same outcome; neither closes it twice |
| FlowStale.StaleModelLostIff | lib/classes/flow/basic/database.js:24-51 | a model that logged events in the first instance only is known after loading exactly if the second logged nothing |
| FlowStale.StaleModelLost | lib/classes/flow/basic/database.js:96-107 | an input that shows it: one event each for two models, and the first model is lost |
| FlowRedo.RedoLeavesAlike | lib/classes/flow/basic/application.js:223-229 | applying any end of a model's own log to the model once more leaves it as it is, whatever its machine, but for the list of a join that has fired |
| FlowRedo.AlikeStep | lib/classes/flow/machines/gateway.js:80-97 | models that differ in such a list take every event alike and issue the same |
| FlowRedo.AlikeCommand | lib/classes/flow/basic/model.js:58-87 | and answer every command with the same actions |
| FlowTimeline.RunGood | lib/classes/flow/basic/model.js:101-153 | a run that starts with events of the log applied once more keeps every model where its events, each taken once, lead to, and every local event in the log |
| FlowByTime.TailEmptyIffNewest | lib/classes/db/cassandraFlow.js:408-426 | the events handed out behind a snapshot are none exactly if the position is the greatest timeuuid in the log |
| FlowByTime.TailCanRepeat | lib/classes/db/cassandraFlow.js:459-515 | an input that shows it: of two models the one listed first logs last, and its event is handed out again |
| FlowByTime.CycleKeeps | lib/classes/db/cassandraFlow.js:459-515 | a cycle keeps every stored model where its own events lead to, raises the version by one, and the log grows by exactly what the run logged, though the tail is written once more |
| FlowByTime.TailDoesNoHarm | lib/classes/db/cassandraFlow.js:351-426 | over any number of cycles: the version counts them, and every stored and every loaded model stands where its events, each taken once, lead to, though a tail may have been applied twice |
| FlowTimed.TailDoesNoHarmToCommands | lib/services/flow.js:881-889 | the same over any number of cycles of commands, mixed with whatever the instance machine does |
| FlowTimed.JobsInOneListByTime | lib/services/flow.js:719-742 | on this store too, over any number of cycles of commands, the list of a version holds exactly the jobs the commands of that cycle created, each once |
| FlowTokens.LengthMeansCover | lib/classes/flow/machines/gateway.js:75-78 | a list without duplicates taken from the incoming branches is as long as they are exactly when it covers them |
| FlowTokens.JoinStep | lib/classes/flow/machines/gateway.js:73-97 | one arrival: the gateway completes exactly if the branches seen now cover all incoming, and its list holds each seen branch once, after firing too |
| FlowTokens.JoinMove | lib/classes/flow/machines/gateway.js:29-98 | one step of a join, be it an activation, a ProcessGateway or a persist and load: it completes exactly if the branches seen now cover all incoming |
| FlowTokens.JoinFiresOnCover | lib/classes/flow/machines/gateway.js:29-98 | however activations, ProcessGateways, persists and loads interleave, the join issues ActivateNext at exactly those steps at which the branches seen since it last fired first cover all incoming, and its list never holds a branch twice |
| FlowTokens.EventEffect | lib/classes/flow/machines/event.js:56-62 | activation enters the active state and issues nothing; an occurrence leaves it and issues at most one command, none for the throwing events |
| FlowTokens.StepPaid | lib/classes/flow/machines/event.js:45-323 | whatever command reaches an event element: onward commands are paid for by occurrences and occurrences by activations |
| FlowTokens.TokensPaid | lib/classes/flow/machines/event.js:45-323 | the same over every run with persists and loads in between |
| FlowTokens.AtMostOneOccurrence | lib/classes/flow/machines/event.js:45-323 | between two activations an event element applies at most one EventOccured and issues at most one onward command, none if it was not active |
| FlowTokens.StartReactsOnce | lib/classes/flow/machines/event.js:64-172 | a start event reacts to at most one RaiseEvent in its whole life, across any number of persists and loads |
| FlowTokens.SequencePassesOn | lib/classes/flow/machines/sequence.js:18-34 | an activated idle sequence issues one ActivateNext and is idle again |
| FlowTokens.ExclusivePassesOn | lib/classes/flow/machines/gateway.js:43-71 | a ProcessGateway at an idle exclusive gateway issues one onward command, conditional if there are several outgoing branches, and leaves it idle |
| FlowTokens.ActivationPassesOn | lib/classes/flow/machines/gateway.js:29-71 | each activation of an idle exclusive gateway, the first included, leads to exactly one onward command |
| FlowTokens.ExclusiveConservesTokens | lib/classes/flow/machines/gateway.js:29-71 | over every run of an exclusive gateway there is one ProcessGateway per activation and one onward command per ProcessGateway |
| FlowTokens.ExclusiveLife | lib/classes/flow/machines/gateway.js:29-71 | the same from its creation on, with one onward command for each ProcessGateway that finds it activated |
| FlowTasks.TaskActivation | lib/classes/flow/machines/task.js:47-62 | an activation sets type and element, keeps the state and issues one ProcessTask |
| FlowTasks.TaskStarts | lib/classes/flow/machines/task.js:63-144 | processing an idle service or rule task creates one job under the new id and makes it active |
| FlowTasks.CommitPassesOn | lib/classes/flow/machines/task.js:86-168 | a commit without error issues exactly one onward command, whether handler or event does, and makes the task idle |
| FlowTasks.FailureEndsServiceOnly | lib/classes/flow/machines/task.js:100-168 | a commit with an error sends a service task to its boundary events and leaves a rule task as it is |
| FlowTasks.JobsPaidBack | lib/classes/flow/machines/task.js:41-169 | over every run of a service or rule task, persists and loads included: it created as many jobs as it issued onward and boundary commands, and one more while it is active |
| FlowTasks.SimplePassesOn | lib/classes/flow/machines/task.js:170-186 | a simple task passes the token on as soon as it is processed, once |
| FlowJobs.CommittedOnce | lib/classes/flow/machines/job.js:50-90 | for every sequence of commits to a created job, with persists and loads: exactly one commit reaches the origin, with the outcome of the first, and the job stays closed with it |
| FlowJobs.JobKept | lib/classes/flow/machines/job.js:80-87 | no event but JobCreated changes the job a model holds |
| FlowJobs.RunHolds | lib/classes/flow/machines/job.js:16-49 | in every run the job models hold exactly the jobs created, each with the version of the cycle |
| FlowJobs.CyclesHold | lib/classes/flow/process.js:58-62 | the same over any number of cycles, and the jobs of cycle v carry version v |
| FlowJobs.JobsListed | lib/classes/flow/process.js:58-62 | a list holds exactly the jobs of its version, each once |
| FlowJobs.EveryJobInOneList | lib/services/flow.js:719-742 | the lists of all versions partition the jobs created: each job is in the list of the cycle that created it and in no other |
| FlowJobs.GetJobsFailsIff | lib/classes/flow/process.js:60-61 | listing fails exactly when some job model never got a JobCreated |
| FlowJobs.UnknownCommitOnlyAdds | lib/classes/flow/machines/job.js:50-79 | a commit for an unknown job runs no handler and leaves a job model without a job |
| FlowJobs.JoblessCycles | lib/classes/flow/process.js:150-175 | a job model without a job is still one after any number of cycles in which no job is created under its id |
| FlowJobs.UnknownCommitBreaksLists | lib/classes/flow/process.js:58-62 | once a commit named an unknown job, every later list of every version fails, in that cycle and in all cycles after it, until a job is created under that id |
| FlowCommands.RoutedSequencePassesOn | lib/classes/flow/machines/instance.js:168-176 | the first command routed to a sequence adds it with its element, logs activation and completion, issues one ActivateNext and leaves it idle |
| FlowCommands.ReplayAgreesWithCommands | lib/classes/flow/basic/application.js:211-231 | the same for every sequence of commands, those to sequences with their element and to tasks included, mixed with whatever the instance machine does |
| FlowCommands.SnapshotIsReplayOfCommands | lib/services/flow.js:881-889 | after any number of cycles of any commands, mixed with whatever the instance machine does: version, empty tail, models given back, snapshot equal to the replay of the whole log |
| FlowCommands.HandlersOnJobs | lib/classes/flow/machines/task.js:63-144 | a handler creates one job, under a fresh id and with the application's version, before anything else it emits, or it creates none; it closes none but its own |
| FlowCommands.CallIsJobRun | lib/classes/flow/machines/job.js:50-79 | one command that commits only a job there is keeps the rules for jobs, and creates exactly the jobs its handler emits |
| FlowCommands.CommandsJobsInOneList | lib/services/flow.js:719-742 | over any number of cycles of commands, to tasks too, the list of a version holds exactly the jobs the commands of that cycle created, each once |
| FlowProjection.HandlersEmitOwn | lib/classes/flow/machines/event.js:45-323 | what a handler emits is for its own model, or creates a job under the new id |
| FlowProjection.DispatchSame | lib/classes/flow/basic/model.js:58-99 | what a command does and issues depends neither on the clock nor on the local events of the model |
| FlowProjection.RunsProject | lib/services/flow.js:881-889 | over any number of cycles, whatever the commands for other models: a model is where its own commands, persists and loads lead to, and has issued what they issue |
| FlowProjection.JoinFiresInApplication | lib/classes/flow/machines/gateway.js:72-98 | in an application, over cycles: a ProcessGateway makes a join fire exactly if the branches seen since it last fired, in this cycle or earlier ones, first cover all incoming |
| FlowProjection.TokensPaidInApplication | lib/classes/flow/machines/event.js:45-323 | in an application, over cycles: an event element issues at most one onward command per occurrence and occurs at most once per activation |
| FlowLives.JobsPaidBackInApplication | lib/classes/flow/machines/task.js:41-169 | in an application, over cycles: a service or rule task has created as many jobs as it has issued onward and boundary commands, and one more while it is active |
| FlowLives.ExclusiveInApplication | lib/classes/flow/machines/gateway.js:29-71 | in an application, over cycles: an exclusive gateway issues one ProcessGateway per activation and one onward command per ProcessGateway that finds it activated |
| FlowLives.StartReactsOnceInApplication | lib/classes/flow/machines/event.js:64-172 | in an application, over cycles: a start event reacts to at most one RaiseEvent in its life |
| FlowLives.CommittedOnceInApplication | lib/classes/flow/machines/job.js:50-90 | in an application, from the moment a job waits and over cycles: exactly one commit reaches the origin, with the outcome of the first, and the job stays closed with it |
| FlowOutcomes.HandlersClean | lib/classes/flow/machines/job.js:50-79 | a handler of a command without error emits no failure of a job and passes no error on |
| FlowOutcomes.IssuesWithoutError | lib/services/flow.js:884-887 | all that a command without error leads to issues no ActivateBoundary and no commit with an error |
| FlowOutcomes.NoErrorNoFailure | lib/services/flow.js:884-887 | over any number of cycles in which no commit carries an error no job fails: each is waiting or finished |
| FlowModel.Model.constructor | lib/classes/flow/basic/model.js:9-20 | a model starts in the state of its snapshot or of its machine, without local events |
| FlowModel.Model.Apply | lib/classes/flow/basic/model.js:101-153 | applying an event runs the first handler found and logs the event if it ran to its end |
| FlowModel.Model.Lookup | lib/classes/flow/basic/model.js:58-87 | dispatching finds the handler by type and state, type, state, or globally, in this order |
| FlowModel.Model.Dispatch | lib/classes/flow/basic/model.js:58-99 | the handler's actions run in order; its own events are applied on the way, the others handed on |
| FlowModel.OnEventOccured | lib/classes/flow/machines/event.js:176-179 | an occurrence finishes an active event; the catching ones issue ActivateNext, the throwing ones keep what they throw |
| FlowModel.OnActivatedEvent | lib/classes/flow/machines/event.js:224-261 | an active event takes occurrences, timers and subscriptions as its type says |
| FlowModel.OnEventActivated | lib/classes/flow/machines/event.js:56-63 | an activation sets type, state and element, and payload and scope where it has them |
| FlowModel.OnExclusive | lib/classes/flow/machines/gateway.js:43-71 | processed makes an idle exclusive gateway active, completed makes it idle and passes the token on |
| FlowModel.OnParallel | lib/classes/flow/machines/gateway.js:80-97 | an arrival starts or extends the list without duplicates, a completion makes the gateway idle and passes the token on |
| FlowModel.OnSequence | lib/classes/flow/machines/sequence.js:18-34 | activated makes an idle sequence active, completed makes it idle and passes the token on |
| FlowModel.OnWaitingJob | lib/classes/flow/machines/job.js:80-87 | a waiting job finishes with its result or fails with its error |
| FlowModel.OnAny | lib/classes/flow/machines/job.js:16-49 | the handlers of every state: the activations, and the creation of a job |
| FlowModel.OnJobTask | lib/classes/flow/machines/task.js:81-168 | the start makes a service or rule task active with its job; the completion makes it idle, for a rule task with one ActivateNext, and the failure only a service task |
| FlowModel.OnSimpleTask | lib/classes/flow/machines/task.js:176-185 | a simple task is active from start to completion, which passes the token on |
| FlowApplication.Database.GetApp | lib/classes/flow/basic/database.js:24-51 | hands out the snapshot with the events behind it, or everything from the beginning |
| FlowApplication.Database.PersistAppWithSnapshot | lib/classes/flow/basic/database.js:85-109 | appends the events and replaces version, snapshot and position; no other application changes |
| FlowApplication.Application.AddModel | lib/classes/flow/basic/application.js:70-75 | adds a missing model and leaves all others alone |
| FlowApplication.Application.Emit | lib/classes/flow/basic/application.js:87-92 | during replay nothing happens; otherwise the event is applied to its model, which is added if missing, and what its handler issues waits |
| FlowApplication.Application.Execute | lib/classes/flow/basic/application.js:94-99 | during replay nothing happens; otherwise the command runs to completion on its model, and what it and its events issue waits in order |
| FlowApplication.Application.RunHandler | lib/classes/flow/machines/instance.js:168-176 | the model is added with the meta data of the command if missing, and its handler runs; the events for other models come back |
| FlowApplication.Application.GetLocalEvents | lib/classes/flow/basic/application.js:42-48 | the local events of all models, grouped in repository order |
| FlowApplication.Application.Restore | lib/classes/flow/basic/application.js:211-231 | rebuilds the repository from snapshot and events with emit and execute switched off |
| FlowApplication.Application.Load | lib/classes/flow/basic/application.js:112-118 | loads what the database hands out |
| FlowApplication.Application.Persist | lib/classes/flow/process.js:150-175 | writes grouped events, snapshot of every model, position and next version |
| FlowApplication.Application.GetJobs | lib/classes/flow/process.js:58-62 | the jobs of one version, or failure |
| FlowApplication.RunCycle | lib/services/flow.js:881-889 | loading, any commands mixed with anything the instance machine does, and persisting is one cycle of the model |
| Cqrs.ExtendFold | lib/classes/cqrs/cqrs.js:204-217 | snapshot plus the first events of its tail is again the fold of a prefix of the log, longer by their number |
| Cqrs.SaveKeeps | lib/classes/db/cassandraCQRS.js:257-270 | a saved snapshot is the fold of the log up to its timeuuid and lies strictly behind the one it replaces |
| Cqrs.RunKeepsInv | lib/classes/db/cassandraCQRS.js:144-270 | every interleaving of row reads, tail reads, appends and snapshots keeps the log ordered, every snapshot honest and every earlier read valid |
| Cqrs.SnapshotPlusTailIsLog | lib/classes/cqrs/cqrs.js:176-187 | under every interleaving the stored snapshot is the fold of exactly the log up to its timeuuid, and with its tail it replays to the fold of the whole log |
| Cqrs.ReadIsWholeLog | lib/classes/db/cassandraCQRS.js:183-255 | a read is two queries; whatever comes between them, the aggregate is the fold of the whole log at the second |
| Cqrs.PositionNeverMovesBack | lib/classes/db/cassandraCQRS.js:257-270 | no query moves the snapshot position back: the version changes only with the snapshot, by one, and then the position moves strictly forward |
| Cqrs.VersionGrows | lib/classes/db/cassandraCQRS.js:168-176 | the version never falls, and where it is the same the snapshot is the same |
| Cqrs.EventsLoggedIffNoSnapshot | lib/classes/cqrs/cqrs.js:189-202 | the events of a persist are logged exactly when no snapshot was saved since the row was read, be it there or not |
| CqrsRepository.Aggregate.Apply | lib/classes/cqrs/cqrs.js:296-302 | an event changes the state, and is kept for persisting unless it is from history |
| CqrsRepository.Store.Persist | lib/classes/db/cassandraCQRS.js:144-181 | the events are appended in order if the version still is the one given; the answer says so |
| CqrsRepository.Store.Read | lib/classes/db/cassandraCQRS.js:183-255 | the row with the events after its snapshot, or with all events |
| CqrsRepository.Store.SaveSnapshot | lib/classes/db/cassandraCQRS.js:257-270 | the snapshot replaces the row if the version is one below |
| CqrsRepository.Repository.GetById | lib/classes/cqrs/cqrs.js:176-187 | the aggregate is the fold of the tail over the snapshot and has no local events |
| CqrsRepository.Repository.Persist | lib/classes/cqrs/cqrs.js:189-202 | the local events go to the store, and a snapshot follows if many events were replayed |
| CqrsRepository.Repository.CreateSnapshot | lib/classes/cqrs/cqrs.js:204-226 | the snapshot saved is the protocol's, of the events before the first that is not in the past |
| CqrsRepository.Repository.ReplayPast | lib/classes/cqrs/cqrs.js:211-217 | the loop applies exactly the events before the first one not in the past |
| Membership.GroupEffect | lib/classes/repositories/group.js:122-191 | an event changes the first member with the receiver's id and leaves every other member as found before |
| Membership.UserEffect | lib/classes/repositories/user.js:108-129 | an event changes the receiver's entry only |
| Membership.AgreeStep | lib/classes/repositories/user.js:160-210 | the two projections of one event keep a member and its entry in agreement: membership, role, nomination and revokation pending |
| Membership.GuardsAllow | lib/services/groups.js:409-711 | the guards let through only events that keep the projections in step |
| Membership.CommandKeepsStepIff | lib/services/groups.js:265-711 | a command keeps group and users in step exactly if it is not a join of a member with another role |
| Membership.ProjectionsStayInStepIff | lib/services/groups.js:96-711 | for every serial run from creation, group and users agree on membership, role and pending requests after each command exactly if every repeated join carries the role the member has |
| Membership.SecondJoinAgreesIff | lib/classes/repositories/group.js:115-121 | a second join keeps them in step exactly when the role is the one the member has |
| Membership.NominationGuardsIgnoreKind | lib/services/groups.js:451-540 | a command on a nomination that the guard lets through leaves the members as they are exactly if the pending request is not a nomination |
| Membership.OverdueRevokationHitsCaller | lib/services/groups.js:568-577 | a revokation requested again after 14 days: the member named stays admin exactly if it is not the caller or the pending role is empty, and nobody but the caller changes |
| Membership.OverdueRevokationExample | lib/services/groups.js:568-577 | an input that shows it: of two admins the one who asks loses the role, the one named keeps it |
| Membership.AdminKeptIff | lib/services/groups.js:333-711 | after a command a group still has an admin exactly if the command is not an accepted revokation of its only admin |
| Membership.GroupKeepsAdmin | lib/classes/repositories/group.js:22-33 | from creation on every run keeps an admin unless it accepts the revokation of the last one, whoever joins how often |
| Membership.SoleAdminCanResign | lib/services/groups.js:657-680 | the creator alone can request and accept a revokation and leave a group without admin |
| MembershipAggregates.SpliceDrops | lib/classes/repositories/group.js:111-114 | splicing at the index found removes the first occurrence and nothing else |
| MembershipAggregates.GroupAggregate.constructor | lib/services/groups.js:96-124 | creation makes the creator admin |
| MembershipAggregates.GroupAggregate.OnNominationAccepted | lib/classes/repositories/group.js:143-149 | a pending nomination makes the member admin and is cleared; anything else is ignored |
| MembershipAggregates.GroupAggregate.OnRevokationRequested | lib/classes/repositories/group.js:158-168 | an admin gets the pending revokation |
| MembershipAggregates.GroupAggregate.OnRevokationAccepted | lib/classes/repositories/group.js:169-175 | a pending revokation to a non-empty role sets that role and is cleared |
| MembershipAggregates.GroupAggregate.Apply | lib/classes/repositories/group.js:102-182 | every membership event changes members and invitations as the projection says |
| MembershipAggregates.GroupAggregate.Execute | lib/services/groups.js:265-711 | a command is refused by its guard or applies its one event |
| MembershipAggregates.UserAggregate.Apply | lib/classes/repositories/user.js:108-210 | an event changes the entry of its own group as the projection says and no other entry |
| MembershipAggregates.Serve | lib/services/users.js:879-1080 | a command with its delivery moves group and receiver as the serial run says and touches no other user and no entry of another group |
| Calendar.YearLength | lib/classes/timer/cycle.js:102 | the day numbers of two New Years are 366 apart in a leap year and 365 otherwise |
| Calendar.DayIsItsDate | lib/classes/timer/cycle.js:102-105 | reading a day number as year, month and day and making the day of them gives it back |
| Calendar.DateIsItsDay | lib/classes/timer/cycle.js:102-105 | making the day of a date of the calendar and reading it gives the date back |
| Timer.StartIsCivilTime | lib/classes/timer/cycle.js:83-93 | a cycle with a start date starts at that civil time less its offset from UTC |
| Timer.AdvanceIsLater | lib/classes/timer/cycle.js:102-109 | the seven setters together move a date by the months, with the day carrying over, and then by the rest; out of range it stays invalid |
| Timer.LaterBounds | lib/classes/timer/cycle.js:102-108 | a period never moves back, a positive one moves strictly forward, and no further than 31 days a month allow |
| Timer.ScheduledAt | lib/classes/flow/process.js:297-302 | before its end the timer stands as many periods after the start as it was called |
| Timer.ScheduledPast | lib/classes/timer/cycle.js:95-101 | past its end the timer fails and starts over in turn |
| Timer.OutcomeOfCall | lib/classes/flow/process.js:287-320 | what every call returns, for every limit, period and number of calls |
| Timer.CycleYieldsItsCount | lib/classes/timer/cycle.js:95-110 | a cycle with a limit and a positive period returns exactly that many strictly growing dates and then fails, exactly if its last date is in range |
| TimerObjects.CycleObject.Start | lib/classes/timer/cycle.js:83-93 | the start date as a new object |
| TimerObjects.CycleObject.NextDate | lib/classes/timer/cycle.js:95-110 | the next date, none at the end; the current date is moved in place and a copy returned |
| TimerObjects.ProcessTimer.GetTimerSchedule | lib/classes/flow/process.js:287-320 | the date and the new timer fields for a date, a cycle and a duration |
| TimerObjects.ScheduleAll | lib/classes/flow/process.js:287-320 | a new cycle timer called again and again returns the outcomes of the cycle |
| Clock.SuccessorFollows | lib/services/clock.js:89-112 | whichever branch a node takes, its message follows the one it got, and the node stays behind it |
| Clock.ClockTicks | lib/services/clock.js:73-127 | whatever nodes get the messages, each has exactly one successor; times are multiples of the precision, strictly grow, are not sent early and skip none but by a restart after more than 7 days |
| Clock.StartsIff | lib/services/clock.js:89-118 | the first message has a successor exactly when its time is at least the precision |
| Clock.CoarseClockRepeats | lib/services/clock.js:91-94 | above seven days and a millisecond of precision a restart can repeat a time |
| ClockNodes.ClockNode.ProcessMessage | lib/services/clock.js:73-127 | one message: what is sent, from when on, and the new last tick |
| Totp.CounterBlock | lib/modules/mfa/totp.js:61-70 | the loop fills the buffer with the counter's 32 bits, sign extended, most significant byte first |
| Totp.BytesDecode | lib/modules/mfa/totp.js:61-70 | n bytes decode to the number modulo 256 to the n |
| Totp.BlockEncodesIff | lib/modules/mfa/totp.js:61-70 | the block is the 8-byte encoding of the counter (section 5.2 of RFC 4226) exactly for counters below 2^31 |
| Totp.TruncatesFourBytes | lib/modules/mfa/totp.js:126-133 | the truncation is the four bytes at the offset without the top bit (section 5.3 of RFC 4226) |
| Totp.CodeIsTruncatedDigest | lib/modules/mfa/totp.js:120-140 | the code has exactly the given number of decimal digits and is the truncated digest modulo that power of ten |
| Totp.HotpVerifyDelta | lib/modules/mfa/totp.js:182-224 | the first counter of the window whose code reads as the token's number, none if there is none |
| Totp.TotpVerifyDelta | lib/modules/mfa/totp.js:385-413 | the same over the window on both sides, as an offset from the current step |
| Totp.DigitsMatchIff | lib/modules/mfa/totp.js:193-219 | a token of digits of the right length matches a counter exactly when it is its code |
| Totp.TokenMatchesIff | lib/modules/mfa/totp.js:193-219 | every token, whatever its characters: it matches a counter exactly when it is as long as a code and its digits, filled up with zeros on the left, are the code, which with a minus sign has to be zeros |
| Totp.MinusZeros | lib/modules/mfa/totp.js:193-219 | an input that shows it: a minus sign before zeros is accepted for the code of zeros |
| Totp.TokenParts | lib/modules/mfa/totp.js:193-219 | white space, a sign, digits and whatever follows: what is read are the sign and the digits |
| Totp.VerifyDigits | lib/modules/mfa/totp.js:385-413 | for such a token, with a counter given or taken from the time: the smallest offset in the window whose code is the token, and nothing exactly when there is none |
| Totp.StepsApart | lib/modules/mfa/totp.js:271-279 | times at most w steps apart have counters at most w apart |
| Totp.AcceptNearby | lib/modules/mfa/totp.js:385-413 | a code generated at most `window` steps away is accepted |
| Framing.HandsOverCiphertext | lib/classes/util/encryption.js:60-86 | however the stream is cut, exactly the bytes after the header line reach the decipher, for headers below 2000 bytes |
| Framing.LongHeaderLost | lib/classes/util/encryption.js:61 | a longer header cut into single bytes fills the buffer and the rest is dropped |
| Framing.GetsThroughIff | lib/classes/util/encryption.js:60-82 | a header line gets through every chunking exactly when it is shorter than 2000 bytes |
| Framing.DecryptsEncrypted | lib/classes/util/encryption.js:22-86 | decrypting what was encrypted gives the plaintext for every chunking on both sides |
| FramingStreams.EncryptStream.Transform | lib/classes/util/encryption.js:22-43 | the header line goes out once, then what the cipher releases |
| FramingStreams.EncryptStream.Flush | lib/classes/util/encryption.js:45-48 | ends with the whole ciphertext, and fails on a stream without chunks |
| FramingStreams.DecryptStream.Transform | lib/classes/util/encryption.js:60-82 | the buffer, the decipher and what it was given are those of the receiver |
| FramingStreams.DecryptStream.Flush | lib/classes/util/encryption.js:83-86 | ends with the whole plaintext, with nothing if no header was found, or fails |
| FramingStreams.RoundTrip | lib/classes/util/encryption.js:22-86 | sending a plaintext and receiving it, cut anyhow on its way, gives it back |
| KeyChain.RunsKeep | lib/classes/provider/keys.js:27-65 | under every interleaving each key handed out is the chain's for that id, an id issued before the call is found, and a default key had not expired when checked |
| KeyChain.SameMaterialForever | lib/classes/db/cassandraKeys.js:35-81 | an id handed out once yields the same material at any later point of the run, on any node |
| KeyChain.RankFalls | lib/classes/provider/keys.js:51-65 | a segment of a call brings it nearer its end and no other step puts it back |
| KeyChain.RefreshEnds | lib/classes/provider/keys.js:51-65 | however others interfere, a call under way takes at most 8 more segments |
| KeyChain.CreatesForIdIff | lib/classes/provider/keys.js:27-65 | whatever others do until the answer arrives, a call for an id has a key made exactly if there was no chain when it asked |
| KeyChain.UnknownIdLeavesKey | lib/classes/provider/keys.js:30-49 | an input that shows it: an id never issued yields no key and leaves one of another id behind |
| KeyProvider.KeyStore.NewKey | lib/services/keys.js:71-88 | a new key gets a new id and the next random bytes, expires its span after now, becomes the default and changes no other key |
| KeyProvider.KeysServiceAccess.RefreshCache | lib/classes/provider/keys.js:51-65 | ends with the cache equal to the chain, and after a rotation with a default issued since |
| KeyProvider.KeysServiceAccess.GetKey | lib/classes/provider/keys.js:27-49 | with other nodes creating keys in between: the key asked for or an unexpired default key |
| SecretTree.RoundTripMeans | lib/services/groups.js:1205-1257 | encrypting and then decrypting, for every tree and every cipher: which part is replaced by what, and when it fails |
| SecretTree.DecryptsEncrypted | lib/services/groups.js:1487-1512 | with payloads that come back, the round trip succeeds exactly for trees without null outside of payloads, and opens each outermost wrapper if nothing was sealed before |
| SecretTree.NothingToOpen | lib/services/groups.js:1487-1512 | a tree without wrappers comes back unchanged |
| SecretTree.EncryptedIsUnwrapped | lib/services/groups.js:1205-1223 | encrypting leaves no wrapper open |

## Left out

- Command handlers of the instance machine: whatever they do to the other models may happen between any two commands; its event handlers are modelled as far as the log needs them.
- Command handlers change nothing themselves: they are functions to the list of what they emit and execute, which `Model.Dispatch` runs in order.
- The attribute `instanceId` of events and contexts, labels, time stamps other than the timeuuid, and the data of payloads: they are only passed on.
- Subscriptions, thrown events and timers by version (`getSubscriptions`, `getThrowing`, `getTimer`): filters like `getJobs`, without its failure.
- Microtask timing of unawaited `execute` and `emit`: a command runs to completion, what it issues comes later in any order.
- `$_fromHistory` is not set by `restore`: events of a tail are logged again. In the cycles on the in-memory store the tail is empty; `FlowByTime` has them logged again.
- Aliasing of the objects the in-memory stores hand out; of the Cassandra store of applications the conditional `persistApp` and the table of active instances.
- FlowByTime.TailDoesNoHarm: an element has one type, which every activation for it carries; sequences are added with their element; timeuuids grow with the clock, and one instance works at a time, as the source requires for this store.
- FlowProjection.RunsProject: commands go to the model they name, ids drawn by the engine are new, and the instance machine changes no element model but by commands.
- Deleted aggregates, unique keys and the encryption of rows in the event store; timeuuids grow in write order.
- FlowTokens.StartReactsOnce: the element keeps its position, as elements of a parsed process do.
- FlowCommands.CommandsJobsInOneList: the ids the engine draws are new, and only created jobs are committed; `FlowJobs.UnknownCommitBreaksLists` says what happens otherwise.
- FlowStale.StaleUntouchedIff: a model both instances have was added with the same machine and element, as the parsed process prescribes.
- FlowStale.StaleSequenceIff: the same.
- FlowStaleModels.StaleJoinIff: the same; the gateway is activated as the parallel gateway of its element only.
- FlowStaleModels.StaleExclusiveIff: the same, as an exclusive gateway.
- FlowStaleModels.StaleJobIff: the ids the engine draws for jobs are new, so a job that both instances have was created before.
- Membership before creation and after the deletion of a group, agents, group keys and service access; an invitation is given by the email and role in its token; the fourteen days are counted in UTC.
- Delivery of membership events in another order than they were written.
- Local time zones and fractional numbers in cycles; the pattern that parses a cycle; the printed day and time and the random id of a schedule; parsing of a single date.
- Two nodes that start an empty clock topic at the same time, messages delivered twice, and waiting that ends early.
- Rounding of numbers beyond 2^53 and `window` given as a string in the one-time passwords; encodings and padding of the secret; a missing secret or token, which throws.
- AES, HMAC, key derivation and the parsing of the header and of JSON: functions with the laws named where they are used. A malformed ciphertext fails at the end of the stream only.
- Errors of the key store, hashing with the master key, and the id `default`, which names no key; a key is written at the time it is issued.
- SecretTree.DecryptsEncrypted: payloads have to survive the serializer, which does not restore objects that look like its own type marks; a key `__proto__` is not kept by the source.
- Serializers, the DMN and FEEL interpreter, access tokens, mails, object storage and message brokers.

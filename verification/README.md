# MeshServe: a verified model

MeshServe runs large language models on a small cluster. Each node has an agent that loads and
watches engine instances; a coordinator spreads a pipeline model over several nodes; a scheduler
picks nodes; a console registers, edits and removes models; a gateway admits requests, picks an
engine and streams the answer back as server-sent events; a store tells watchers what changed.

This project models the parts of that system that hold protocol, state or arithmetic, and proves
what they guarantee. `dafny verify dfyconfig.toml` checks all of it.

| file | what it holds |
|---|---|
| `Agent.dfy`, `SelfHeal.dfy`, `NodeAgent.dfy` | the agent's tables, the sections run under its mutex and whole calls; the health loop; the agent object |
| `AgentRuns.dfy` | one agent under concurrent deployments, stops and restarts: every interleaving |
| `PPDeploy.dfy`, `PPSafety.dfy`, `PPTheorems.dfy` | any number of pipeline coordinators over a set of agents, as a step relation; its invariant; its guarantees |
| `PPEffect.dfy`, `PPCoordinator.dfy` | one pipeline deployment as a function of its nodes' answers, the proof that every interleaving has that effect, termination, and the coordinator's own loops |
| `PPSerial.dfy`, `PPResults.dfy` | deployments of different models at once are as good as in turn; every result the function allows comes about |
| `PPRace.dfy`, `PPMixed.dfy` | deployments that compete for the same ids; deployments beside any other stops, deployments and self-heal |
| `Console.dfy` | the model handlers as a state machine over stored models and live instances |
| `Limiter.dfy` | the token bucket, its sliding-window bound and its optimality |
| `Router.dfy`, `RouterRuns.dfy` | the router with its shared backing arrays, load counters, and balance |
| `Sse.dfy` | the event printer, the line parser and the browser's incremental parser |
| `Tags.dfy` | the gossip tag codec |
| `Scheduler.dfy` | scoring in 64-bit arithmetic, `Place`, `PlaceN` |
| `Watch.dfy` | change notification through bounded, dropping channels |
| `Common.dfy`, `InstanceIds.dfy`, `ModelMeta.dfy` | shared datatypes, instance names, the stored model |

How the concurrent parts are modelled. A program section that runs under a lock is one step; every
order of steps is a run; a theorem about `run[i]` speaks of every reachable state. Records that the
program reaches by pointer are reached by a token here, so a deployer that comes back after its
record was removed still writes to its own record. Slices are headers into arrays that are edited in
place. Where a map is iterated or an unstable sort is used, the contract holds for every order.

Where code and documentation differ, the model follows the code:

- The repository's README (line 186) promises that a pipeline deployment is rolled back completely
  when any node fails. A rank whose own load fails keeps an error record that the rollback does not
  touch. `PPEffect.RollbackIsFullIffNoLoadFailed` says exactly when the rollback is complete,
  `PPResults.RollbackIsNotFull` is a run in which it is not, and `PPEffect.FailedLoadBlocksRetry`
  says what the leftover record does to the next attempt.
- The status shown in the model list is derived from the instances of the console's own node, so a
  pipeline model that is online is listed as offline on a node that holds none of its ranks.
  `Console.DerivedIsStored`, `Console.DerivedForPipeline` and `Console.DerivedForFailedPipeline` say
  what is shown in every case; `Console.OnlinePipelineShownOffline` is a run of one registration after
  which the two differ.
- A rollback stops by id, not by record, so it may stop an instance that self-heal has put in the place
  of its own. `PPMixed.RollbackHits` says exactly when, `PPMixed.RollbackCanHitAnother` is such a run.
- A stop that arrives while an instance is loading does not end its deployer, so a second deployment
  may be in flight under the same id. A deployer that commits and finds an engine already stored under
  its id (internal/agent/agent.go:175-177) overwrites it, and from then on no table points to that
  engine. `AgentRuns.LostIffOverwritten` says that engines are lost in this way and in no other,
  `AgentRuns.EngineBalance` counts them exactly, `AgentRuns.LostForever` says that none is ever
  reclaimed, and `AgentRuns.SurplusIsReached` is a run that loses one.
- The same overlap defeats self-heal. If the second load fails and the first one then succeeds, the
  listed record is in error while the first deployer's engine is stored under its id; the health loop
  asks that engine only, so the record stays in error as long as the engine answers.
  `SelfHeal.HealthRoundsMakeReady` says exactly when all instances end ready,
  `AgentRuns.HiddenIsReached` is a run into the state where they do not, and
  `AgentRuns.HiddenIsNeverHealed` says that it lasts.

Assumptions of the pipeline model: an HTTP reply tells the caller what the agent did, and a stop sent
by a rollback arrives. Assumptions of the console model: membership is fixed, every alive member can
be reached, the store works, and handlers run one at a time. The limiter's clock does not run
backwards.

## Model

| member | source | states |
|---|---|---|
| `AgentModel.DeployEffect` | internal/agent/agent.go:135-182 | a deployment is refused exactly when its id exists, and then changes nothing; otherwise the listing gains exactly its record, Ready or Error as the load went |
| `AgentModel.DeployRecords` | internal/agent/agent.go:141-146 | the record of a new deployment carries the id, the model and every parameter of the specification, field by field |
| `AgentModel.StopEffect` | internal/agent/agent.go:185-202 | a stop takes exactly its id out of the listing and out of the engine table, and marks the record Stopped |
| `SelfHeal.HealthRoundHeals` | internal/agent/agent.go:253-286 | one health round, from any tables and in any order of ids: an instance under whose id a healthy engine is stored is untouched; any other is redeployed by a new deployer under its own parameters and ends Ready, with that deployer's engine, exactly when that load succeeds |
| `SelfHeal.LeavesAloneIffHealthy` | internal/agent/agent.go:260-285 | a round leaves an instance in place if and only if an engine is stored under its id and answers the probe; any other is replaced by a new record, whatever its state was |
| `SelfHeal.HealOrdersTheSame` | internal/agent/agent.go:289-301 | the specification rebuilt from a record orders that record again; the path is recomputed and the distributed backend is empty |
| `SelfHeal.HealthRoundsKeepDeployments` | internal/agent/agent.go:253-301 | over any number of rounds, from any tables, no id appears or disappears and no parameter of a deployment changes |
| `SelfHeal.RoundMakesReady` | internal/agent/agent.go:262-284 | when the loads of a round succeed, everything is Ready after it if and only if every instance the round leaves alone was Ready before |
| `SelfHeal.HealthRoundsMakeReady` | internal/agent/agent.go:262-284 | when the loads of the last round succeed, everything ends Ready if and only if no instance that is not Ready has an engine under its id that answers every probe; so failed reloads are retried, and only these instances are not |
| `SelfHeal.QuietRoundsMakeReady` | internal/agent/agent.go:262-284 | from tables in which exactly the Ready instances have engines, their own, the tables stay that way, and everything ends Ready when the loads of the last round succeed |
| `SelfHeal.HealthyIsUntouched` | internal/agent/agent.go:253-286 | from any tables, an id whose stored engine answers every probe keeps its record and engine through any number of rounds |
| `NodeAgent.Agent.constructor` | internal/agent/agent.go:99-107 | a new agent has empty tables |
| `NodeAgent.Agent.DeployInstance` | internal/agent/agent.go:135-182 | the updates made in place are those of `Deploy`: reserve, load, commit |
| `NodeAgent.Agent.StopInstance` | internal/agent/agent.go:185-202 | the updates made in place are those of `Stop`; the id was found exactly when it was listed |
| `NodeAgent.Agent.ListIds` | internal/agent/agent.go:254-259 | the snapshot names every instance once |
| `NodeAgent.Agent.StopInstancesByModel` | internal/agent/agent.go:226-233 | exactly the instances of the model disappear from the listing |
| `NodeAgent.Agent.DeployByModel` | internal/agent/agent.go:237-250 | whatever was under `inst-<model>-web` is replaced by a fresh record with the model's engine, memory, quantisation, TP and PP, and no other entry changes |
| `NodeAgent.Agent.HealthCheck` | internal/agent/agent.go:253-286 | the loop performs one health round in the order the snapshot has; an instance is left in place exactly if its stored engine answers the probe |
| `AgentRuns.StepKeeps` | internal/agent/agent.go:135-202 | every section of every call keeps the agent's invariant and the bound on lost engines |
| `AgentRuns.ReadyHasEngine` | internal/agent/agent.go:135-202 | in every reachable state a listed Ready instance has a live engine under its id, its own deployer's engine is live too, and the two are the same if no stop has cut a load short; a listed record is Loading exactly while its own deployer is in flight, and none is Stopped |
| `AgentRuns.EngineAccounting` | internal/agent/agent.go:135-202 | in every reachable state: ready + being unloaded <= live engines <= ready + being unloaded + stops that cut a load short; without such a stop the live engines are exactly the ready ones and those being unloaded |
| `AgentRuns.EngineBalance` | internal/agent/agent.go:135-202 | the exact count in every reachable state: live engines = engines in the table + being unloaded + commits that found an engine under their id |
| `AgentRuns.LostStep` | internal/agent/agent.go:135-202 | after any step an engine is lost (live, in no table, not being unloaded) if and only if it was lost before or the step is a commit that found it under its id |
| `AgentRuns.LostIffOverwritten` | internal/agent/agent.go:175-177 | in every run the lost engines are exactly those that some commit found under its id |
| `AgentRuns.LostForever` | internal/agent/agent.go:175-202 | a lost engine is lost in every later state: nothing unloads it |
| `AgentRuns.SurplusIsReached` | internal/agent/agent.go:135-202 | a reachable state in which one stop has cut a load short and one engine is lost, so the upper bound is met |
| `AgentRuns.HiddenIsReached` | internal/agent/agent.go:135-202 | a reachable state, with no call under way, in which a listed record is in Error while another deployer's engine is stored under its id |
| `AgentRuns.HiddenIsNeverHealed` | internal/agent/agent.go:262-284 | from such a state the record stays in Error through any number of health rounds that engine answers, whatever the loads would do |
| `InstanceIds.PPInstanceIdInjective` | internal/scheduler/pp.go:96-96 | a rank's instance id determines model and rank, even if a model name itself ends like a rank suffix |
| `InstanceIds.DecimalReadsBack` | internal/scheduler/pp.go:96-96 | the rank is written in decimal without a leading zero |
| `InstanceIds.WebIsNoRank` | internal/agent/agent.go:238-238 | the id of a single-instance deployment is no rank's id of any model |
| `PPDeploy.Plan` | internal/scheduler/pp.go:71-109 | refuses a model without a pipeline and too few nodes, each exactly then; otherwise prepares for rank i the i-th node, the id `inst-<model>-pp<i>` and a specification with the request's path, arguments and backend and the model's engine, memory, TP, PP, quantisation and port + i |
| `PPSafety.StepKeeps` | internal/scheduler/pp.go:107-134 | every step of every goroutine of every coordinator keeps the invariant that ties each rank's progress to the record it made |
| `PPSafety.RollbackStopsOwn` | internal/scheduler/pp.go:126-133 | the id a rollback stops is at that moment bound to the record its own rank made |
| `PPTheorems.SuccessIsComplete` | internal/scheduler/pp.go:85-139 | a deployment that reports success has every rank Ready on its own node, with its own engine stored under its id, its rank and port rank0 + i, under an id that was free before |
| `PPTheorems.SuccessIsAsOrdered` | internal/scheduler/pp.go:94-109 | under every interleaving, the record of each rank of a successful deployment has the model's engine, memory, quantisation, TP and PP, the request's arguments, and port (8000 if the model gives none) + i |
| `PPTheorems.FailureLeavesOnlyLoadErrors` | internal/scheduler/pp.go:124-135 | of all records made by a deployment that has failed, the only ones still listed are Error records of ranks whose own load failed, and none of them is under an id that existed before |
| `PPTheorems.NothingElseChanges` | internal/scheduler/pp.go:107-135 | under every interleaving of any number of deployments, an instance that existed before keeps its record and its engine |
| `PPTheorems.RollbackRemovesOnlyItsOwn` | internal/scheduler/pp.go:126-133 | in every run, a rollback removes a record that its own rank made in that run |
| `PPTheorems.AtMostOneWinner` | internal/scheduler/pp.go:107-133 | of concurrent deployments of one model that agree on the node of some rank, at most one reports success |
| `PPRace.SucceedsIff` | internal/scheduler/pp.go:107-123 | beside any other deployments, a finished one has succeeded if and only if every rank's call found its id free on its node and every rank's load succeeded |
| `PPRace.NobodyWins` | internal/scheduler/pp.go:107-133 | for any two-rank plan whose ids are free, a run of two deployments of it in which every call arrives and every load succeeds, and both fail |
| `PPMixed.RollbackHits` | internal/scheduler/pp.go:126-133 | in any run beside other stops, deployments and self-heal, the stop of a rollback hits its own rank's record if and only if no stop has hit the id since that rank reserved it, and another record if and only if the id has been reserved again and that reservation not been stopped |
| `PPMixed.RollbackCanHitAnother` | internal/agent/agent.go:277-283 | a run in which self-heal redeploys a rank between the agent's reply and the rollback, and the rollback stops the new instance |
| `PPMixed.StepKeepsWf` | internal/agent/agent.go:135-202 | every such step leaves every agent's tables well-formed |
| `PPTheorems.LeftoverBlocksRetry` | internal/agent/agent.go:137-140 | an instance already under a rank's id keeps every deployment with that rank on that node from succeeding |
| `PPEffect.DeployRefinesNetEffect` | internal/scheduler/pp.go:85-139 | a deployment that runs alone has, under every interleaving of its goroutines, exactly the verdict and the listings that `NetEffect` computes from what its nodes answer |
| `PPEffect.EachHasItsOwnNetEffect` | internal/scheduler/pp.go:85-139 | beside any other deployments, a finished one has its own verdict, and its own net effect under every id on every node that no other one writes |
| `PPSerial.DifferentModelsAreDisjoint` | internal/scheduler/pp.go:96-96 | plans for models with different names, on whatever nodes, share no instance id |
| `PPSerial.AtOnceIsInTurn` | internal/scheduler/pp.go:85-139 | serialisability: deployments that share no id and run at once have, under every interleaving, the verdicts and listings of running one after the other, in any order |
| `PPResults.EveryAnswerIsRealised` | internal/scheduler/pp.go:107-134 | for whatever the nodes answer some run of the goroutines ends with those answers, refused calls aside, and with exactly their net effect |
| `PPResults.ResultsAreNetEffects` | internal/scheduler/pp.go:107-134 | the results of the runs of one deployment are exactly the net effects of its nodes' answers |
| `PPResults.RollbackIsNotFull` | internal/agent/agent.go:170-173 | two ranks on empty agents: a run in which the first loads and the second fails, and which ends failed with listings other than the empty ones |
| `PPEffect.RollbackIsFullIffNoLoadFailed` | internal/scheduler/pp.go:124-134 | a failed deployment restores every agent's listing if and only if no rank's own load failed |
| `PPEffect.FailedLoadBlocksRetry` | internal/agent/agent.go:170-173 | after a failed load the same deployment fails again whatever the nodes answer |
| `PPEffect.NeverStuck` | internal/scheduler/pp.go:107-134 | as long as some deployment has not finished, some step is possible |
| `PPEffect.EveryRunIsBounded` | internal/scheduler/pp.go:107-134 | no run is longer than the work its calls start with |
| `PPCoordinator.AskRanks` | internal/scheduler/pp.go:91-121 | rank by rank, the ids noted down are those of the ranks that succeeded and no others, and the listings show what each rank left |
| `PPCoordinator.Rollback` | internal/scheduler/pp.go:124-133 | stopping what was noted down leaves the listings `NetEffect` gives |
| `PPCoordinator.Deploy` | internal/scheduler/pp.go:70-139 | the error cases exactly; otherwise the verdict and the listings are those of `NetEffect`; on success the ids of all ranks are returned in order, and each is listed on its node with the model's parameters, field by field |
| `Console.AliveMembers` | internal/console/deploy.go:61-71 | all alive members in order, or the first n of them when n is positive and smaller |
| `Console.AliveInPlace` | internal/console/deploy.go:61-71 | the list has one entry for every alive member and no other, each after as many as are alive before it |
| `Console.PipelineVerdict` | internal/console/deploy.go:25-33 | a pipeline deployment succeeds if and only if enough members are alive and on the i-th of them the rank's id is free and the load of exactly the model's path, parameters and backend succeeds |
| `Console.AfterStopEffect` | internal/console/deploy.go:38-58 | after a model is stopped everywhere no agent lists an instance of it, and the instances of other models are the same |
| `Console.AfterDeployEffect` | internal/console/deploy.go:19-35 | a deployment from scratch makes the status true of the instances and leaves other models' instances alone |
| `Console.RegisterKeeps` | internal/console/models_admin.go:37-112 | registration keeps the invariant that ties every stored status to the live instances |
| `Console.UpdateKeeps` | internal/console/models_admin.go:115-198 | an edit keeps it, whether or not it redeploys |
| `Console.ToggleKeeps` | internal/console/models_admin.go:201-232 | disabling and enabling keep it |
| `Console.DeleteKeeps` | internal/console/models_admin.go:235-249 | deletion keeps it |
| `Console.RegisterReplies` | internal/console/models_admin.go:45-92 | bad request, conflict and success exactly, in terms of the request, the stored names and the alive members; a refusal changes nothing |
| `Console.RegisterStores` | internal/console/models_admin.go:64-112 | what is stored is the request, field by field, with version v1 and one replica by default, and the replied status |
| `Console.RegisterShowsInstance` | internal/agent/agent.go:237-250 | after the registration of a single-node model its web instance has the stored engine, memory, quantisation, TP and PP, and its state and the stored status are the verdict on the load of the stored path and parameters |
| `Console.UpdateReplies` | internal/console/models_admin.go:117-179 | not found, bad request and success exactly; a refusal changes nothing |
| `Console.UpdateStores` | internal/console/models_admin.go:129-175 | every field the request gives is stored, and every field it leaves out keeps its value |
| `Console.UpdateRedeploys` | internal/console/models_admin.go:129-194 | an edit stops and deploys anew if and only if the model is enabled and the request changes engine, path, endpoint, quantisation or PP, or gives a TP or a port; otherwise neither instances nor status change |
| `Console.EditedModelRuns` | internal/console/models_admin.go:180-194 | after such an edit of an enabled single-node model its instance is a fresh one of the edited model, and the reply is the verdict on its load |
| `Console.ToggleFlips` | internal/console/models_admin.go:201-232 | an enabled model is stopped everywhere and disabled, a disabled one is deployed; nothing else of it changes, and the reply is the stored status |
| `Console.DeleteRemoves` | internal/console/models_admin.go:235-249 | the model is stopped everywhere and forgotten, and no other model is |
| `Console.RunKeeps` | internal/console/models_admin.go:37-249 | after every sequence of handler calls from an empty cluster the statuses are true of the instances, and every instance has the engine, quantisation, TP and PP its model is stored with |
| `Console.NoStrayInstances` | internal/console/models_admin.go:37-249 | in every run of handlers from an empty cluster a model that is disabled, served elsewhere or not registered has no instance on any agent |
| `Console.OnlinePipelineIsWhole` | internal/console/models_admin.go:37-249 | in every such run an online pipeline model has exactly its ranks, Ready, in order, with their ports, on the first alive members |
| `Console.DerivedIsStored` | internal/console/models_admin.go:253-287 | for every model that is not an enabled pipeline, the derived status is the stored one |
| `Console.DerivedForPipeline` | internal/console/models_admin.go:253-287 | an online pipeline model is shown online if and only if this node is among its first PP alive members, and offline otherwise |
| `Console.OnlinePipelineShownOffline` | internal/console/models_admin.go:253-287 | one registration after which the model is stored online and shown offline |
| `Console.DerivedForFailedPipeline` | internal/console/models_admin.go:253-287 | a failed pipeline model is shown as failed if this node keeps a record of it, and offline otherwise |
| `Console.LoadingShowsDeploying` | internal/console/models_admin.go:276-283 | a listing with a Loading and no Ready instance of an enabled model shows it deploying, whether or not others failed |
| `Console.DeriveModelStatus` | internal/console/models_admin.go:253-287 | the flag loop computes the derived status from any order of the listing |
| `Console.Server.constructor` | internal/console/models_admin.go:37-38 | the console starts with no models and no instances |
| `Console.Server.StopOn` | internal/console/deploy.go:52-56 | stopping one by one the listed instances of a model leaves exactly the others |
| `Console.Server.StopModelEverywhere` | internal/console/deploy.go:38-58 | this node and every alive member stop the model, and no other listing changes |
| `Console.Server.DeployModel` | internal/console/deploy.go:19-35 | the three branches have the effect `AfterDeploy` gives |
| `Console.Server.SetStatus` | internal/modelrepo/repo.go:103-110 | only the status of a stored model changes |
| `Console.Server.DeployStored` | internal/console/models_admin.go:94-110 | the deployment's verdict is what gets stored |
| `Console.Server.RegisterModel` | internal/console/models_admin.go:37-112 | replies and state are those of `Register`, error by error, and the invariant of statuses and instances is kept |
| `Console.Server.UpdateModel` | internal/console/models_admin.go:115-198 | replies and state are those of `Update`, and the invariant is kept |
| `Console.Server.ToggleModel` | internal/console/models_admin.go:201-232 | replies and state are those of `Toggle`, and the invariant is kept |
| `Console.Server.DeleteModel` | internal/console/models_admin.go:235-249 | replies and state are those of `Delete`, and the invariant is kept |
| `Limiter.TokenBucket.constructor` | internal/gateway/limiter.go:18-23 | a positive rate gives a full bucket of that size; any other rate means no limit |
| `Limiter.TokenBucket.Allow` | internal/gateway/limiter.go:26-42 | with a positive rate the tokens stay between 0 and burst, and the answers so far are those of `Decisions` on the times so far; with no limit every call is allowed |
| `Limiter.LevelIsLeastCredit` | internal/gateway/limiter.go:34-36 | the content of the bucket is the least credit left by any window of calls that ends now |
| `Limiter.OverdrawIffWindow` | internal/gateway/limiter.go:26-42 | decisions never overdraw a bucket if and only if they keep its rate over every window |
| `Limiter.AllowKeepsRate` | internal/gateway/limiter.go:26-42 | in every run, between any two calls, at most burst + rate times duration are accepted |
| `Limiter.AllowIsOptimal` | internal/gateway/limiter.go:26-42 | no way of answering the same calls that keeps the rate over every window has accepted more after any number of them |
| `Router.StableByLoadSorts` | internal/gateway/local_router.go:106-110 | the sorted list ascends by load, is a permutation, and keeps engines of equal load in order |
| `Router.StableSortUnique` | internal/gateway/local_router.go:110-110 | there is only one such list, so any stable sort gives it |
| `Router.RegisterEffect` | internal/gateway/local_router.go:36-40 | appends to the model's list, whether in place or in a new array, and changes no other list |
| `Router.UnregisterEffect` | internal/gateway/local_router.go:43-57 | takes the first occurrence out of the model's list |
| `Router.UnregisterKeepsOthers` | internal/gateway/local_router.go:43-57 | the shift in place is invisible to other models' lists; the engine's counter is dropped |
| `Router.LocalRouter.constructor` | internal/gateway/local_router.go:26-28 | a new router has no engines and no counters |
| `Router.LocalRouter.RegisterEngine` | internal/gateway/local_router.go:36-40 | the updates made in place are those of `Register` |
| `Router.LocalRouter.UnregisterEngine` | internal/gateway/local_router.go:43-57 | the search and the shift are those of `Unregister` |
| `Router.LocalRouter.AcquireEngine` | internal/gateway/local_router.go:60-64 | one more request on the engine |
| `Router.LocalRouter.ReleaseEngine` | internal/gateway/local_router.go:67-73 | one less, never below zero |
| `Router.LocalRouter.Resolve` | internal/gateway/local_router.go:84-111 | the registered engines, or else the agent's ready ones, sorted; the two errors exactly |
| `RouterRuns.HeaderStaysOk` | internal/gateway/local_router.go:39-57 | whatever is registered or unregistered after a header was captured, its cells hold only engines registered for the model at some moment since |
| `RouterRuns.ResolveReturnsRegistered` | internal/gateway/local_router.go:84-111 | every engine a Resolve returns was registered for the model at some moment between its two locked sections |
| `RouterRuns.ResolveWithoutUnregister` | internal/gateway/local_router.go:84-111 | without an unregistration of the model in between, the result is the stable, load-ascending permutation of the captured list |
| `RouterRuns.LoadAtMostActive` | internal/gateway/local_router.go:43-73 | in every run 0 <= counter <= requests in flight |
| `RouterRuns.LoadIsActive` | internal/gateway/local_router.go:43-73 | the two are equal while the engine was never unregistered with requests in flight |
| `RouterRuns.UnregisterWhileActiveUndercounts` | internal/gateway/local_router.go:53-53 | unregistering it with requests in flight makes the counter too small at once |
| `RouterRuns.PickedIsLeast` | internal/gateway/gateway.go:137-137 | the engine the gateway takes has least load among the listed ones |
| `RouterRuns.LoadsStayBalanced` | internal/gateway/gateway.go:123-145 | with at most w requests ever between Resolve and Acquire, no engine is ever more than w requests ahead of another |
| `Sse.ChatStream.Chunk` | internal/gateway/gateway.go:171-179 | the body so far is the events of the payloads so far |
| `Sse.ChatStream.Finish` | internal/gateway/gateway.go:187-188 | the whole body is the events of all payloads and the end marker |
| `Sse.ParseStream` | internal/engine/vllm.go:273-316 | the line loop computes `ParseText`: chunks in order, how it ended, and the chunk returned |
| `Sse.LineReadsBack` | internal/engine/vllm.go:278-282 | a printed line, trimmed, cut and trimmed, is its payload |
| `Sse.PrintThenParse` | internal/engine/vllm.go:273-316 | on a printed stream the callback gets exactly the payloads that decode, in order, up to the marker, the first line too long for the scanner, or its own first error |
| `Sse.OneChunkEach` | internal/engine/vllm.go:273-316 | for payloads of at most 262142 characters that all decode and a callback that never fails, the callback gets exactly one chunk for each, in order, and there is no error |
| `Sse.DataLineEffect` | internal/engine/vllm.go:282-310 | the marker ends the stream, text that does not decode is skipped, a chunk goes to the callback, and parsing goes on unless that fails |
| `Sse.CallbackFailureStops` | internal/engine/vllm.go:306-310 | on any text, parsing ends with the callback's error if and only if the last chunk it was given made it fail, and no earlier one did |
| `Sse.AsciiLimit` | internal/engine/vllm.go:275-275 | an ASCII line is too long from 1048576 characters on, and not before |
| `Sse.OtherLinesAreSkipped` | internal/engine/vllm.go:278-281 | a line that, trimmed, does not start with `data:` leaves the parse of the rest unchanged |
| `Sse.BlanksDoNotMatter` | internal/engine/vllm.go:278-282 | blanks, tabs and carriage returns before the field, after the colon or after the payload change nothing, and none is needed |
| `Sse.Utf8Widths` | internal/engine/vllm.go:275-275 | the bytes a character takes, at the borders of the four ranges |
| `Sse.FirstDataLine` | internal/console/web/index.html:547-548 | of the lines of an event the first that starts with `data: ` counts |
| `Sse.ReadersDifferWithoutBlank` | internal/console/web/index.html:547-548 | an event without the blank after the colon is read by the adapter and passed over by the browser |
| `Sse.Receive` | internal/console/web/index.html:543-557 | one turn of the browser loop drains the buffer |
| `Sse.ReceiveAll` | internal/console/web/index.html:539-558 | the loop over all reads computes `Feed` |
| `Sse.DrainAppend` | internal/console/web/index.html:543-557 | draining may be interrupted anywhere before the marker |
| `Sse.SplitsAgreeIffSilentAfterMarker` | internal/console/web/index.html:539-558 | for any text at all, every split into reads gives what a single read gives if and only if whatever is left of the text anywhere after the marker yields nothing |
| `Sse.AnyChunkingIsOneRead` | internal/console/web/index.html:539-558 | so any text whose marker event, if it has one, is complete only at the very end gives the same data however it is split into reads |
| `Sse.MarkerOnlyAtTheEnd` | internal/gateway/gateway.go:187-187 | no proper prefix of a printed stream contains the marker event |
| `Sse.AnyChunkingRecoversPayloads` | internal/console/web/index.html:539-558 | however a printed stream is split into reads, the browser gets exactly its payloads |
| `Sse.ReadersAgree` | internal/engine/vllm.go:273-316 | adapter and browser see the same payloads of one printed stream |
| `Sse.AfterTheMarkerChunkingMatters` | internal/console/web/index.html:550-550 | for text after the marker the split into reads does change the result |
| `Tags.FlattenTags` | internal/cluster/cluster.go:235-244 | the text is the pairs of the map, each once, in some order |
| `Tags.ParseTags` | internal/cluster/cluster.go:247-261 | the loop computes `Parsed` |
| `Tags.ParseFlattenCuts` | internal/cluster/cluster.go:235-261 | for clean keys and values without an equals sign after their first comma, in every order, every key is read back with its value cut at the first comma |
| `Tags.ParsedIsClean` | internal/cluster/cluster.go:247-261 | whatever was sent, no key read holds a separator and no value a comma |
| `Tags.RoundTripIffClean` | internal/cluster/cluster.go:235-261 | the round trip is the identity if and only if no key holds a separator and no value holds a comma |
| `Scheduler.NodeFreeVRAM` | internal/scheduler/scheduler.go:220-226 | the sum of free memory modulo 2^64 |
| `Scheduler.ScoreNode` | internal/scheduler/scheduler.go:229-242 | the score in wrapping 64-bit arithmetic of both sums |
| `Scheduler.SortSlice` | internal/scheduler/scheduler.go:143-143 | some permutation in descending score, ties in any order |
| `Scheduler.Scheduler.constructor` | internal/scheduler/scheduler.go:78-88 | a new scheduler knows no nodes |
| `Scheduler.Scheduler.UpdateResources` | internal/scheduler/scheduler.go:96-104 | stores the report under its node, ignoring an empty one |
| `Scheduler.Scheduler.RemoveNode` | internal/scheduler/scheduler.go:107-112 | forgets the node and no other |
| `Scheduler.Scheduler.Candidates` | internal/scheduler/scheduler.go:127-138 | the eligible nodes, each once, with its score, for any order of the map |
| `Scheduler.EligibleIffFits` | internal/scheduler/scheduler.go:128-135 | a node is eligible if and only if it has the model's memory free and, for a TP above 1, that many GPUs |
| `Scheduler.OneMoreGpu` | internal/scheduler/scheduler.go:220-233 | one more GPU adds exactly its free and its total memory, wherever it stands; no GPU means none |
| `Scheduler.Scheduler.Place` | internal/scheduler/scheduler.go:116-146 | fails exactly when every node has less free memory than the model needs or, for a TP above 1, fewer GPUs; otherwise returns a node with the memory and the GPUs that no such node outscores |
| `Scheduler.Scheduler.PlaceN` | internal/scheduler/scheduler.go:151-204 | fails for want of a node exactly when none has the memory and the GPUs; every placement is on a node that has them; the outcome is a deal in turn over some ranking of all such nodes |
| `Scheduler.ScoreWithoutOverflow` | internal/scheduler/scheduler.go:229-242 | when nothing overflows the score is seven times the whole percentage of free memory plus a hundred |
| `Scheduler.HugeNodeScoresLow` | internal/scheduler/scheduler.go:239-239 | beyond 64 bits it is not: an entirely free node of 2^60 bytes scores 128 |
| `Scheduler.ChosenShareIsNearBest` | internal/scheduler/scheduler.go:238-241 | then no eligible node's free share exceeds the chosen one's by a full percentage point |
| `Scheduler.EvenDeal` | internal/scheduler/scheduler.go:186-203 | each of k nodes gets n/k replicas and the first n mod k ranked ones one more |
| `Scheduler.StagesOnDistinctNodes` | internal/scheduler/scheduler.go:186-203 | any two of PP consecutive placements are on different nodes and carry different stages below PP |
| `Scheduler.EveryStageIsPlaced` | internal/scheduler/scheduler.go:193-196 | any PP consecutive placements hold every stage |
| `Watch.Store.constructor` | internal/raftstore/store.go:46-68 | a new store has no keys and no watchers |
| `Watch.Store.Put` | internal/raftstore/store.go:88-98 | the write, and one notification exactly when the database took it |
| `Watch.Store.Delete` | internal/raftstore/store.go:119-129 | the deletion, and one notification exactly when the database took it |
| `Watch.Store.Notify` | internal/raftstore/store.go:151-160 | the loop offers the key to every watcher in turn |
| `Watch.Store.Watch` | internal/raftstore/store.go:132-148 | a new empty channel, last in the list |
| `Watch.Store.Cancel` | internal/raftstore/store.go:137-147 | the splice takes exactly the first entry of the channel out |
| `Watch.NotifiedAt` | internal/raftstore/store.go:151-160 | a channel gains the key exactly when some watcher of it matches and there is room |
| `Watch.HearsItsPrefix` | internal/raftstore/store.go:151-160 | the channel of a live watcher gains the key if and only if the key is its prefix followed by some text and fewer than 16 keys wait |
| `Watch.WritesAreKept` | internal/raftstore/store.go:88-129 | a write or deletion the database takes changes exactly its key; one it refuses changes nothing and tells nobody |
| `Watch.SubscribeListens` | internal/raftstore/store.go:132-136 | a subscription adds a watcher of exactly its prefix with an empty channel |
| `Watch.WatcherSeesChanges` | internal/raftstore/store.go:88-160 | in every run, what a watcher has received followed by what is buffered is an in-order subsequence of the matching changes since it subscribed; its length and the number of changes that found the buffer full add up to theirs; at most 16 are buffered |
| `Watch.SeenIsTaken` | internal/raftstore/store.go:88-160 | what a watcher has received followed by what is buffered is exactly the matching changes that found room, in order |
| `Watch.CompleteIffNeverFull` | internal/raftstore/store.go:151-160 | nothing is missing if and only if no notification found the buffer full |
| `Watch.CancelIsInvisibleToOthers` | internal/raftstore/store.go:137-147 | a run and the same run without one watcher's cancellation look alike to every other watcher |

## Left out

- Times, addresses and error texts in records, log lines, and the response bodies of the handlers.
- HTTP, JSON, the database file, gossip membership, GPU discovery and process spawning: engine loads, health probes and write results are inputs.
- Beside other stops or health checks of the same ids, only what a rollback hits is stated; what a reported success is then still worth is not.
- Lost replies and cancelled contexts during a rollback.
- `PPMixed.RollbackHits`: a stop that does not come from a rollback takes and marks its record in one step; `AgentRuns` has it in three.
- The address of rank 0 and the gateway's remote route to it.
- Whether a model path exists, its checksum and its absolute form: existence is an input to `Register`, the path is kept as given.
- The memory estimate from a parameter count: an input of the console's requests.
- The engine lookup by instance id and the order in which an agent lists its instances.
- The distributed backend and the original path after a self-heal: the code rebuilds the specification without them, and so does the model.
- Failed stops and unreachable members in the console, and two handlers at once on one model.
- `NodeAgent.Agent.DeployInstance`: runs without interruption; what interleaving does is in `AgentRuns`, on the same sections.
- `Console.Server.DeployModel`: changes the listings of the agents directly instead of calling agent objects; `NodeAgent.Agent.DeployByModel` and `PPCoordinator.Deploy` are the methods behind its two branches.
- `PPCoordinator.Deploy`: asks the ranks one after the other; the goroutines that run at once are the steps of `PPDeploy`.
- `Limiter.TokenBucket.Allow`: tokens and times are real numbers, so floating-point rounding and a clock that jumps back are not modelled.
- `RouterRuns.LoadsStayBalanced`: speaks of arrivals only; requests that end are not part of those runs.
- `Router.LocalRouter.Resolve`: runs without interruption; the split at its unlock is in `RouterRuns`.
- `Sse.ParseStream`: works on characters, counting UTF-8 bytes only for the line limit; the scanner's own removal of a carriage return is covered by the trimming that follows.
- `Sse.ReceiveAll`: collects the data texts; decoding them as JSON, counting tokens and splitting a character between two reads are not modelled.
- The metrics counters of the gateway and its non-streaming answer.
- The size limit of the gossip metadata that carries the tags.
- `Scheduler.Scheduler.PlaceN`: names nodes, stages and engines; instance ids are made from a clock and are not modelled. The code does not subtract memory for replicas that share a node, and so the model does not either.
- Leader choice, quantisation choice, configuration and redeployment after a node failure.

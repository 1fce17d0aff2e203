# Kanary, verified

A model of the Kanary controller: the operator that rolls a new revision of a Deployment out step by
step, by sending a growing share of traffic to a canary copy of it, and that promotes the new revision
or rolls it back.

The cluster is a value (`Api.World`): Canaries, Deployments, Services, Ingresses and Routes by key. A
reconcile pass (`Rollout.Pass`) is what it read, the decision taken on that (`Rollout.Decide`), and an
ordered list of single writes (`Rollout.Plan`, `Rollout.Apply`).

- The code that changes things step by step is written as such: methods on an API server whose calls
  may be lost before or after they take effect (`Cluster.ApiServer`), loops over rules, paths, metrics
  and steps, fields assigned in place, and Go pointers and maps as heap objects where the code writes
  through them. Every operation is proved to do what its specification function says, or to fail
  cleanly: it reports an error and has had its whole effect or none. On a reliable server a whole pass
  does exactly what `Rollout.QuietPass` says.
- `Runs.Sys` is the small-step system. Each step is the reading of the Canary, the reading of the target
  with which a pass starts, one write of the pass at work, its death, or a change by the environment:
  commands, mode, steps, analysis settings, target revision.
  Every intermediate state is therefore a state of the run, and theorems about runs hold at every
  possible crash point. `Refinement` shows that whatever the reconciler's code leaves behind was
  reached by steps of such a run, and `Reachability` that passes without faults are part of runs.
- `Fleet.State` is the same system for many Canaries at once, their passes interleaved write by write.
  Each of them is shown to see a run of its own, so what holds of all runs holds of every member.

| files | content |
|---|---|
| `Api`, `Cluster`, `Decimal` | resources, the API server with faults, decimal printing and parsing |
| `NginxRouter`, `RouteRouter`, `Traffic` | the two routers and their common contract |
| `Workload`, `Analysis`, `Webhook` | derived objects and selectors, metric analysis, defaulting and validation |
| `Rollout`, `Controller`, `Refinement` | decision, status and plan; the reconciler's code; code refines runs |
| `Passes`, `Runs` | what writes establish and keep; runs, bounded lead, agreement |
| `Leftovers`, `Quiescence`, `Ledger`, `Commands`, `Progress`, `Exposure` | theorems about whole runs and rollouts |
| `Verdicts`, `Derived` | what stored statuses and derived objects say, told by annotations, fields and revisions |
| `Frames`, `Interleaving`, `Fleet`, `Convergence`, `Defaulting` | framing, commuting passes, many Canaries, fixed point, defaulting |
| `Limits`, `Reachability` | expected claims that do not hold, with their exact conditions, and states that runs do reach |

Conditions the main theorems carry: fixed steps for the bounded lead; for "no leftovers" a known strategy
mode, a schedule that is neither emptied nor filled, and target revisions that never go back; names kept
apart for non-interference. The names of the target and of the traffic objects stay fixed in a run, and
only the controller writes the status and the objects derived from it.

## Where code and documentation disagree

The model follows the code.

- The state diagram of the progressive mode, in section 4.3.2 of the repository's specification, rolls
  back at `failedChecks >= max`. The code compares the count stored before the pass with `>`
  (`internal/analysis/engine.go:93`), so the rollback comes with the analysis that makes the count
  max + 2: `Limits.RollbackIsLate`.
- The same diagram applies a step's weight before analysing it. The code routes nothing in an Analyzing
  pass (`internal/controller/canary_controller.go:202`), so step 0 of a progressive rollout is analysed
  without a canary: `Exposure.RolloutIsExposed`, `Exposure.StoredWeightIsLiveFromStepOne`.
- `internal/traffic/openshift/route.go:5` says that the Route is never mutated; lines 98-103 and 163-173
  write it. `Frames.WriteIsFramed` says how far.
- `internal/workload/workload.go:7-8` and 9-11 promise Services that tell stable and canary pods apart.
  The stable Service selects canary pods too, and the target's match expressions are dropped:
  `Workload.StableServiceSelectsCanaryPods`, `Workload.CanaryServiceSelection`.
- `docs/adr/001-no-replace-deployment.md:26` updates the stable Deployment after a successful rollout;
  the code never writes it: `Frames.UserObjectsAreFramed`.
- The failure count is not reset at the end of a rollout (`internal/controller/canary_controller.go:389-411`),
  although it is to count consecutive failures: a rollout may be over before its first analysis is looked at.
  `Ledger.CounterAtEnd`, `Ledger.FirstAnalysisInRun`.

## Main results

- Traffic and status: `Runs.TrafficNeverRunsAhead`, `Runs.CompletedPassAgrees`, `Runs.CleanupFollowsReset`,
  `Exposure.RolloutIsExposed`, `Exposure.StoredWeightIsLiveFromStepOne`
- What a stored status means: `Verdicts.AbortRollsBack`, `Verdicts.SucceededIsEarned`,
  `Verdicts.RolledBackHasACause`, `Verdicts.EndGivesStableAll`, `Verdicts.OnlyWorksWhenAllowed`
- The end of a rollout: `Leftovers.NoLeftovers`, `Leftovers.RestIsCleanUnlessCanaryNamed`,
  `Quiescence.EndedRolloutStaysEnded`, `Progress.RolloutEnds`, `Progress.FastestRollout`
- What the history decides: `Ledger.CounterIsFailedRun`, `Ledger.RollbackNeedsFailedRun`,
  `Ledger.PromotionTakesAllSteps`, `Ledger.ProgressiveGate`, `Ledger.PromotedWasOut`,
  `Ledger.RevisionsAreAccountedFor`, `Ledger.WeightRisesAtEveryAdvance`, `Commands.CommandsActAtMostOnce`
- Many Canaries, repeated passes, other objects: `Fleet.EveryMemberSeesARun`, `Fleet.SetUpAgreesAmongOthers`,
  `Interleaving.CanariesDoNotInterfere`, `Convergence.TwoPassesConverge`, `Frames.UserObjectsAreFramed`
- Routers, webhook, workload: `Traffic.LastOperationWins`, `Traffic.ResetUndoesEverything`,
  `NginxRouter.SiblingSpec`, `Webhook.ValidateSteps`, `Webhook.AcceptedBoundsExposure`,
  `Analysis.PassesWithinBounds`, `Derived.SetUpInObjects`,
  `Defaulting.DefaultingPreservesRuns`, `Workload.CanaryServiceSelection`
- The code does what the model says: `Controller.Reconcile`, `Refinement.ReconcileIsARun`

The table below starts with these, goes on with the expected claims that do not hold, and ends with
single operations and the steps of the results.

## Model

| member | source | states |
|---|---|---|
| Runs.TrafficNeverRunsAhead | internal/controller/canary_controller.go:166-251 | in every state of every run, whatever commands, mode switches, revisions and failures: the live canary weight is 0, that of the stored step, or that of the next step, and the stored index is in range |
| Runs.CompletedPassAgrees | internal/controller/canary_controller.go:199-215 | a completed pass that ends in AwaitingPromotion or Progressing leaves stored weight = weight of the stored step = weight the router reports (up to Route rounding), a canary Deployment with the target's template, a canary Service, and all traffic of the canary going to that Service |
| Runs.CleanupFollowsReset | internal/controller/canary_controller.go:173-197 | wherever a run is about to delete canary objects, the canary gets no traffic any more |
| Leftovers.NoLeftovers | internal/controller/canary_controller.go:173-197 | over every run with growing revisions, failed passes and edited schedules included, a completed pass that ends in Idle, Succeeded, RolledBack or Failed leaves no sibling Ingress or alternate backend, no canary Deployment and no canary Service |
| Leftovers.RestIsCleanUnlessCanaryNamed | internal/controller/canary_controller.go:282-291 | in every run in which no pass dies halfway through its set-up or teardown, with any modes, schedules, commands and revisions: a completed pass that rests leaves nothing derived from the Canary if and only if the status it read names no canary revision |
| Quiescence.EndedRolloutStaysEnded | internal/controller/canary_controller.go:282-291 | after a stored rollback or promotion, while the target stays at its revision, no command and no spec edit brings traffic or workload back, and every later pass rests |
| Ledger.CounterIsFailedRun | internal/analysis/engine.go:66-74 | the stored failure count is the length of the trailing run of failed analyses in the stored history, across rollouts |
| Ledger.RollbackNeedsFailedRun | internal/analysis/engine.go:86-94 | an analysing pass rolls back if and only if the max + 1 stored analyses before it all failed |
| Ledger.PromotionTakesAllSteps | internal/controller/canary_controller.go:304-361 | a promotion is the len(steps)-th move of its rollout, each of them paid for |
| Ledger.ProgressiveGate | internal/controller/canary_controller.go:326-347 | a rollout promoted without any promote command has, for every step, a stored analysis of that step in which every reported value lies between the minimum and the maximum of its metric, with a failure count within the limit |
| Ledger.PromotedWasOut | internal/controller/canary_controller.go:381-398 | over any history: the revision a promotion makes stable is the one last set up in its rollout if and only if the status the pass read names it as the canary's; from step 1 on there was such a set-up |
| Ledger.RevisionsAreAccountedFor | internal/controller/canary_controller.go:381-402 | the stable revision is set from the first completed pass on, the canary revision differs from it, and both were read from the target |
| Ledger.WeightRisesAtEveryAdvance | internal/controller/canary_controller.go:346-347 | with an accepted schedule the active weight is that of its step, rises at every Advance and is 100 only at the last step |
| Commands.CommandsActAtMostOnce | internal/controller/canary_controller.go:235-249 | in every run with faults: moves by promote command plus promotes pending never exceed the promotes given, and rollbacks by abort plus aborts pending never exceed the aborts given |
| Verdicts.AbortRollsBack | internal/controller/canary_controller.go:263-266 | in every run a completed pass that read the abort annotation has stored RolledBack, weight 0, step 0, no canary revision and the target's revision as stable, and left nothing of the canary |
| Verdicts.SucceededIsEarned | internal/controller/canary_controller.go:301-361 | over any history: behind a status Succeeded, the last pass that ended a rollout had no abort, stood at the last step, and was told to promote or had analysed well |
| Verdicts.RolledBackHasACause | internal/controller/canary_controller.go:262-335 | over any history: behind a status RolledBack, the last pass that ended a rollout read an abort, or analysed with too many failures stored |
| Verdicts.EndGivesStableAll | internal/traffic/openshift/route.go:98-103 | in every run a completed pass that ends a rollout leaves nothing of the canary, and a Route with weight 256 for the stable backend and no other |
| Verdicts.OnlyWorksWhenAllowed | internal/controller/canary_controller.go:115-154 | in every run a pass at work has read a Canary that is neither paused nor disabled and has a router, and has analysed if and only if it read a progressive rollout in analysis |
| Progress.RolloutEnds | internal/controller/canary_controller.go:304-347 | whatever the metrics say, a progressive rollout is over within (steps left) * (max + 2) + 1 passes |
| Progress.FastestRollout | internal/controller/canary_controller.go:320-347 | if every analysis passes, step i is entered with pass 2i + 1 and left with pass 2i + 2: success takes exactly 2 * len(steps) passes |
| Exposure.RolloutIsExposed | internal/controller/canary_controller.go:199-215 | along a progressive rollout without faults, whatever the metrics say: up to its end nothing is out at step 0, and at every later step its weight is routed to the canary Service, and the canary runs the target's template |
| Exposure.StoredWeightIsLiveFromStepOne | internal/controller/canary_controller.go:320-347 | while such a rollout is analysed, the stored weight is the live one if and only if the step is not the first, or too small for the router to show |
| Convergence.TwoPassesConverge | internal/controller/canary_controller.go:97-252 | in Manual mode, from any cluster and any status, an invalid index included, and without commands or faults, the third pass changes nothing at all |
| Fleet.EveryMemberSeesARun | internal/controller/canary_controller.go:97-252 | in any interleaving of the passes of any number of Canaries that are apart, with faults and changes anywhere, each of them sees a run of its own |
| Fleet.SetUpAgreesAmongOthers | internal/controller/canary_controller.go:199-215 | a pass that completes a set-up amid the others leaves status, traffic, workload and revision in agreement, and they stay so until the controller next works for that Canary |
| Interleaving.CanariesDoNotInterfere | internal/controller/canary_controller.go:97-252 | reconciling two Canaries that are apart ends in the same cluster whichever goes first and however their writes are interleaved |
| Frames.UserObjectsAreFramed | internal/workload/workload.go:12-13 | over every run no write of the controller touches the target Deployment, the stable Ingress, or an unmanaged Service of the target's name |
| Defaulting.DefaultingPreservesRuns | api/v1alpha1/canary_webhook.go:46-73 | every run on a raw spec is, with the spec defaulted throughout, a run with the same decisions, statuses, traffic and workload |
| Traffic.LastOperationWins | internal/traffic/router.go:19-30 | after any history of weights and resets the router reports the last operation, and the shares sum to 100 |
| Traffic.ResetUndoesEverything | internal/traffic/router.go:23-24 | a Reset after any history leaves the cluster as a Reset alone would |
| Webhook.ValidateSteps | api/v1alpha1/canary_webhook.go:115-141 | reports exactly the errors of the schedule, and none if and only if it is empty or strictly increasing within 1 to 100 and ends at 100 |
| Webhook.AcceptedBoundsExposure | api/v1alpha1/canary_webhook.go:113-141 | an accepted schedule has at most 100 steps, with i + 1 <= w[i] <= 100 - (len - 1 - i), and reaches 100 at the last step only |
| Analysis.PassesWithinBounds | internal/analysis/engine.go:37-104 | an analysis passes if and only if no value lies below its minimum or above its maximum, and its report says so of each metric by name |
| Workload.CanaryServiceSelection | internal/workload/workload.go:264-268 | the canary Service selects exactly the target's pods that carry the canary revision if and only if the target asks for no other revision and each of its match expressions is implied by the labels selected on |
| NginxRouter.SiblingSpec | internal/traffic/nginx/nginx.go:175-196 | renames every Service reference in all rules and paths of a deep copy; the stable spec keeps its value and shares no reference with the result |
| Controller.Reconcile | internal/controller/canary_controller.go:97-252 | under any faults the cluster is left as by a prefix of the pass's writes, Done is reported only after all of them, and an error of an operation only if that operation raises it; on a reliable server the pass does exactly what `QuietPass` says |
| Refinement.ReconcileIsARun | internal/controller/canary_controller.go:97-252 | whatever a pass of the reconciler's code leaves behind was reached by single steps of a run, failures included |
| Limits.CommandIsSpent | internal/controller/canary_controller.go:235-241 | every pass that is carried out to its end takes the command it read off its Canary, promote and abort alike, move or no move |
| Limits.CommandAtStableRevision | internal/controller/canary_controller.go:275-291 | without a new revision, steps or a known stable revision, a pass spends the command and changes nothing but its Canary, index unmoved |
| Limits.CommandSpentOnNothing | internal/controller/canary_controller.go:282-285 | a concrete succeeded Canary that loses its promote command and is otherwise as before |
| Limits.LateAnnotationIsLost | internal/controller/canary_controller.go:484-493 | clearing the commands keeps every other annotation the pass had read; one added since is lost if and only if the commands were all it had read |
| Limits.AnalyzingDoesNotRoute | internal/controller/canary_controller.go:202-206 | an Analyzing pass stores the weight of its step and leaves the live weight as it is |
| Limits.FirstStepHasNoCanary | internal/controller/canary_controller.go:320-324 | the first step of a progressive rollout is entered without traffic, canary Deployment or canary Service |
| Reachability.IdleWithLiveTrafficIsReachable | internal/controller/canary_controller.go:282-290 | from any start in Manual mode a run leads to Idle with the weight of step 0 live: the target is changed, set up, and put back |
| Reachability.IdleWithLiveTraffic | internal/controller/canary_controller.go:282-290 | a concrete run that ends Idle with 10% live |
| Reachability.QuietPassIsReachable | internal/controller/canary_controller.go:97-252 | a pass without faults, wherever it stops, is part of a run |
| Limits.RollbackIsLate | internal/analysis/engine.go:86-94 | of the failing analyses those roll back that make the count max + 2 or more; the others stay at their step |
| Limits.LimitReachedWithoutRollback | internal/analysis/engine.go:86-94 | a concrete rollout whose count reaches its limit and that goes on |
| Limits.InheritedFailuresEndRollout | internal/controller/canary_controller.go:332-335 | a rollout that starts above its limit is rolled back with its second pass, whatever the metrics say |
| Limits.HealthyRevisionIsRolledBack | internal/controller/canary_controller.go:332-335 | a concrete revision that is rolled back although all its metrics are within their thresholds |
| Limits.RoutedBeforeWorkload | internal/controller/canary_controller.go:203-214 | between the router's write and the next ones, traffic goes to a Service that exists if and only if it did before the pass |
| Reachability.PromotionUnseenIsReachable | internal/controller/canary_controller.go:341-345 | from any start in Progressive mode with two steps or more a run promotes a revision of which nothing has been out |
| Reachability.PromotionUnseen | internal/controller/canary_controller.go:341-345 | a concrete run that promotes revision 3 after analysing revision 2 |
| Ledger.CounterAtEnd | internal/controller/canary_controller.go:389-411 | after a rollback or promotion the failure count is 0 if and only if the analysis of that very pass, or else the count before it, says so; a rollback for failing metrics leaves at least max + 2 |
| Ledger.FirstAnalysisIsPrejudged | internal/controller/canary_controller.go:332-335 | the first analysis of a rollout ends it if and only if the rollouts before it left a count above the limit, whatever the metrics say |
| Ledger.FirstAnalysisInRun | internal/controller/canary_controller.go:332-335 | the same in any run, with any faults and changes |
| Ledger.CommandMovesLiveRollouts | internal/controller/canary_controller.go:301-361 | a promote command makes a move if and only if there is no abort beside it, steps and a new revision are there, the index is valid and the mode known |
| Ledger.PromotedWasOutInRun | internal/controller/canary_controller.go:381-398 | the same in any run, with any faults, commands and changes |
| Commands.CommandIsLostBetweenPatches | internal/controller/canary_controller.go:235-249 | a pass that dies between its two patches has used its command up, promote or abort, and left status and history as they were |
| Exposure.OneStepNeedsNoCanary | internal/controller/canary_controller.go:320-347 | a rollout of one step never has any canary out |
| Exposure.BumpedTargetIsPromoted | internal/controller/canary_controller.go:341-345 | a target whose template is changed during the last analysis is promoted, although the canary analysed runs the template before the change |
| Workload.CanaryServiceTakesInAnExcludedPod | internal/workload/workload.go:200-210 | a concrete target whose selector leaves out a pod that its canary Service takes in |
| Workload.StableServiceSelectsCanaryPods | internal/workload/workload.go:229-257 | the stable Service selects the canary's pods if and only if the target asks for no other revision |
| Leftovers.EndingPhases | internal/controller/canary_controller.go:262-365 | a pass ends or finds no rollout if and only if it stores one of those four phases |
| Ledger.RollbackHasACause | internal/controller/canary_controller.go:262-361 | the exact causes of a rollback, their precedence over and under promote commands, and what every end of a rollout resets |
| Verdicts.WhenSucceeded | internal/controller/canary_controller.go:310-361 | the exact conditions under which Succeeded is stored, and a promotion decided |
| Verdicts.WhenRolledBack | internal/controller/canary_controller.go:262-335 | the exact conditions under which RolledBack is stored |
| Verdicts.WhenFailed | internal/controller/canary_controller.go:293-299 | Failed is stored exactly for an invalid step of a rollout without abort |
| Verdicts.WhenProgressing | internal/controller/canary_controller.go:314-357 | Progressing is stored exactly when a rollout moves on from a step that is not the last |
| Verdicts.WhenAwaiting | internal/controller/canary_controller.go:349-361 | AwaitingPromotion is stored exactly for a manual rollout at a valid step without commands |
| Verdicts.WhenAnalyzing | internal/controller/canary_controller.go:320-340 | Analyzing is stored exactly for a progressive rollout that has neither analysed well nor failed too often |
| Verdicts.WhenIdle | internal/controller/canary_controller.go:268-290 | Idle is stored exactly without steps, on seeding, without a new revision after anything but an end, and in an unknown mode |
| Verdicts.WeightOfPhase | internal/controller/canary_controller.go:257-365 | the weight stored with each phase: that of the stored step, that of the last step on promotion, and otherwise 0 |
| Verdicts.PromotionIsAtFullWeight | internal/controller/canary_controller.go:310-361 | with an accepted schedule a promotion stores weight 100 |
| Verdicts.StoredReportIsLast | internal/controller/canary_controller.go:407-411 | the stored report is that of the last analysis in the history |
| Verdicts.WhenAPassBegins | internal/controller/canary_controller.go:105-171 | the exact conditions under which a pass begins |
| Verdicts.PausedIsLeftAlone | internal/controller/canary_controller.go:115-124 | a paused or disabled Canary's cluster is left as it is |
| Verdicts.RevisionIsAnnotated | internal/controller/canary_controller.go:448-453 | a revision that is annotated is taken as it is |
| Verdicts.GenerationsAreToldApart | internal/controller/canary_controller.go:448-453 | without the annotation two generations have the same revision only if they are the same |
| Ledger.MovesArePaid | internal/controller/canary_controller.go:301-361 | an Advance or Promote is paid for by a promote command that the pass clears or by a passing analysis; outside Progressive mode only by a command; it promotes exactly from the last step |
| Ledger.IndexCountsMoves | internal/controller/canary_controller.go:381-399 | the stored step index is the number of moves since the last rollback or promotion |
| Ledger.StableChangesOnlyAtEnds | internal/controller/canary_controller.go:389-402 | the stable revision changes only on the first pass, a rollback or a promotion, and then to the target's |
| Progress.EveryPassProgresses | internal/controller/canary_controller.go:320-347 | every pass ends the rollout or strictly lowers the number of passes left |
| Progress.PassCompletes | internal/controller/canary_controller.go:166-251 | without faults, and with the objects it needs present, a pass makes all its writes and stores its status |
| Convergence.WriteIsIdempotent | internal/traffic/router.go:19-26 | doing any write of the controller a second time changes nothing |
| Convergence.RerunIsNoOp | internal/controller/canary_controller.go:11-16 | repeating a pass after it ran, completely or up to an error of its own, changes nothing |
| Interleaving.WritesCommute | internal/workload/workload.go:102-116 | two writes of passes for Canaries that are apart commute: same success, same error, same cluster |
| Interleaving.PassesCommute | internal/workload/workload.go:102-116 | so do whole passes |
| Interleaving.InterleavingIsImmaterial | internal/controller/canary_controller.go:166-251 | every interleaving of the writes of two passes, of Canaries that are apart, ends as one pass after the other |
| Fleet.AgreementOutlivesOthers | internal/workload/workload.go:102-116 | the agreement of one Canary survives every pass of the others, whole or broken off, and every change by the environment |
| Fleet.WriteKeepsOthersAgreement | internal/workload/workload.go:102-116 | so it does every single write |
| Frames.WriteIsFramed | internal/workload/workload.go:118-180 | a write changes only the objects derived from its Canary, of a managed stable Service only the ports, of the user's Route only the weights, and no spec of any Canary |
| Frames.OthersAreEnvironment | internal/workload/workload.go:102-116 | each write for one Canary is, to another that is apart, a change of the environment that runs allow for |
| Defaulting.WriteIsUnchanged | api/v1alpha1/canary_webhook.go:46-73 | each write on the defaulted cluster ends in the defaulted result, or in the same error |
| Webhook.DefaultingIsIdempotent | api/v1alpha1/canary_webhook.go:46-73 | defaulting twice is defaulting once, and does not change what validation says |
| Webhook.DefaultsAre | api/v1alpha1/canary_webhook.go:52-70 | the value filled into each unset field, and that nothing else changes |
| Webhook.DefaultedIsComplete | api/v1alpha1/canary_webhook.go:44-45 | no defaulted field is left unset |
| Webhook.Default | api/v1alpha1/canary_webhook.go:46-73 | fills exactly the unset fields, in place |
| Webhook.ValidateAnalysis | api/v1alpha1/canary_webhook.go:145-160 | when each of the two errors is reported, and no other |
| Webhook.ValidateTargetRef | api/v1alpha1/canary_webhook.go:165-181 | rejects only a target that is missing, and every missing target it can look up |
| Webhook.Validate | api/v1alpha1/canary_webhook.go:93-111 | admits a spec if and only if schedule and analysis are acceptable and, as far as it can be told, the target exists |
| Refinement.LedgerOfRun | internal/controller/canary_controller.go:369-425 | in any state of any run the stored status is the function of the stored history that the ledger describes |
| Controller.Open | internal/controller/canary_controller.go:105-171 | begins the pass that the stored Canary, target and metric replies call for, or says why there is none, and writes nothing |
| Controller.RefusalSaysWhy | internal/controller/canary_controller.go:105-171 | why a pass does nothing: forgotten, skipped, tried again later for a query that says so, failed for any other query, or without a router |
| Controller.Close | internal/controller/canary_controller.go:173-251 | makes the writes of the pass in order and stops at the first failure |
| Controller.TearDown | internal/controller/canary_controller.go:174-195 | Reset, then the canary Deployment, then the canary Service; stops at the first failure |
| Controller.CleanupCanary | internal/workload/workload.go:102-116 | deletes the canary Deployment, then the canary Service, and nothing else |
| Controller.SetUp | internal/controller/canary_controller.go:202-215 | router first, then Deployment, then Services; stops at the first failure |
| Controller.EnsureServices | internal/workload/workload.go:84-98 | no Service at port 0, else the stable one before the canary one |
| Controller.Persist | internal/controller/canary_controller.go:235-249 | the command patch comes before the status patch, takes the whole annotation map away when only commands had been read, and a pass that fails at it never stores its status |
| Controller.UpdateStatus | internal/controller/canary_controller.go:369-425 | the status assigned in place is the one the decision calls for |
| Controller.ClearCommandAnnotations | internal/controller/canary_controller.go:484-493 | removes the two commands and no other annotation |
| Rollout.Begin | internal/controller/canary_controller.go:105-171 | a pass that begins, with nothing changing between its two reads, has read the stored Canary and target, and its analysis is one the engine can return |
| Refinement.WritesAreSteps | internal/controller/canary_controller.go:105-251 | reading the Canary, reading the target and every write are steps of their own, and lead to the state the pass describes |
| Rollout.Revision | internal/controller/canary_controller.go:448-453 | a revision is never empty |
| Passes.DecisionIsOneKind | internal/controller/canary_controller.go:257-365 | a decision never both sets up and tears down; a set-up routes exactly the weight of the step it stores, and moves the index by at most one |
| Passes.PlanShape | internal/controller/canary_controller.go:173-249 | order and number of the writes of a pass |
| Passes.WritesToCanaries | internal/controller/canary_controller.go:235-249 | no write changes a spec; only the last one changes a status, only its own, and only the clearing one changes annotations |
| Passes.WriteEstablishes | internal/controller/canary_controller.go:173-215 | what each further write adds to what the pass has established, none of it undone by a later one |
| Passes.LiveAfterWrite | internal/controller/canary_controller.go:173-215 | the live weight moves only when traffic is routed or reset |
| Analysis.Evaluate | internal/analysis/engine.go:37-84 | one entry per check, passing if and only if every value is within its thresholds, count moved accordingly; the first failing query ends the run without a result |
| Analysis.WithinThreshold | internal/analysis/engine.go:96-104 | true if and only if the value lies between the bounds that are set, bounds included |
| Analysis.MaxFailedChecks | internal/analysis/engine.go:88-92 | the limit in force is positive |
| Analysis.LimitInForce | internal/analysis/engine.go:88-94 | a configured limit is in force as it is if positive, and 2 otherwise; only a count above it is a reason to roll back |
| Analysis.FirstFailureEndsRun | internal/analysis/engine.go:49-52 | a run ends with the error of the first query that fails |
| Traffic.LastWeightOverwrites | internal/traffic/router.go:21-22 | writing one weight over another is writing the last one only |
| Traffic.LastResetGivesStableAll | internal/traffic/router.go:23-24 | after any history that ends with a Reset nothing is left for the canary, and a Route gives the stable backend its full weight |
| Traffic.ReconcileRoutes | internal/traffic/nginx/nginx.go:55-103 | a weight written successfully is held by the provider, and goes to the canary Service only |
| Traffic.RoutedShows | internal/traffic/openshift/route.go:112-131 | what the provider holds is what Status reports, with shares that sum to 100 |
| Traffic.Reconcile | internal/traffic/router.go:50-57 | the router of the Canary's provider does its Reconcile, or fails cleanly |
| Traffic.Reset | internal/traffic/router.go:50-57 | the router of the Canary's provider does its Reset, or fails cleanly |
| NginxRouter.RenameServices | internal/traffic/nginx/nginx.go:182-196 | the nested loops rename every Service reference, write nothing but names, and leave none out |
| NginxRouter.RewriteIsExact | internal/traffic/nginx/nginx.go:178-196 | the rewritten spec sends only to the canary Service and differs from the stable one in Service names only |
| NginxRouter.RewriteIsUnique | internal/traffic/nginx/nginx.go:178-196 | these two conditions determine it |
| NginxRouter.SiblingIngress | internal/traffic/nginx/nginx.go:161-198 | the desired sibling: labels, the two canary annotations, and the rewritten spec |
| NginxRouter.MergeInto | internal/traffic/nginx/nginx.go:88-96 | the merge loop ends in the union, new entries winning, in whatever order the map yields them |
| NginxRouter.MergeOverwrites | internal/traffic/nginx/nginx.go:82-98 | merging twice is merging the last once |
| NginxRouter.Reconcile | internal/traffic/nginx/nginx.go:55-103 | creates or updates the sibling as specified and touches nothing else, or fails cleanly; missing reference, weight out of range and missing stable Ingress are told apart |
| NginxRouter.Reset | internal/traffic/nginx/nginx.go:106-120 | deletes the sibling and nothing else, or fails cleanly |
| NginxRouter.Status | internal/traffic/nginx/nginx.go:123-157 | the weight annotation read back; 0 for a missing sibling or an unreadable or out-of-range annotation |
| NginxRouter.WeightRoundTrip | internal/traffic/nginx/nginx.go:143-151 | every weight from 0 to 100 printed into the annotation reads back as itself |
| NginxRouter.OddWeightsCountAsNone | internal/traffic/nginx/nginx.go:143-151 | of a number in the annotation only 0 to 100 counts; anything else is 0 |
| Decimal.ParseIntRoundTrip | internal/traffic/nginx/nginx.go:145-145 | every printed integer within range parses back to itself |
| Decimal.DigitsAreNumbers | internal/workload/workload.go:303-303 | exactly the non-empty strings of digits are numbers |
| Decimal.ParsedIsInRange | internal/traffic/nginx/nginx.go:145-145 | what is parsed is within range and has the sign it was written with |
| RouteRouter.WeightReadsBackRounded | internal/traffic/openshift/route.go:154-197 | the Route reports w where 25 divides w and w - 1 otherwise, and its two weights sum to 256 |
| RouteRouter.SplitIsStrictlyIncreasing | internal/traffic/openshift/route.go:156-160 | a larger percentage always gets a larger Route weight |
| RouteRouter.StableGetsTheRest | internal/traffic/openshift/route.go:156-173 | after weight w the two weights sum to 256 and the share of the stable backend is exactly 100 - w |
| RouteRouter.ResetGivesStableAll | internal/traffic/openshift/route.go:98-103 | after a Reset the stable backend is the only one and has weight 256, a share of 100 |
| RouteRouter.ObservedIsClamped | internal/traffic/openshift/route.go:176-197 | what Status reports of any Route whatever, with negative, missing and excessive weights |
| RouteRouter.Reconcile | internal/traffic/openshift/route.go:57-81 | writes both weights into the Route and nothing else, or fails cleanly |
| RouteRouter.Reset | internal/traffic/openshift/route.go:85-109 | restores full stable weight and removes the alternate backends; a missing Route is no error |
| RouteRouter.Status | internal/traffic/openshift/route.go:112-131 | the percentage observed, clamped to 0 to 100; a missing Route is all stable |
| Workload.CanarySpecOf | internal/workload/workload.go:187-209 | one replica, the revision label in template and selector, match expressions dropped; no label map of the target is written to or shared; a nil match-label map panics |
| Workload.BuildCanaryDeployment | internal/workload/workload.go:187-227 | the canary Deployment wanted for a target |
| Workload.BuildStableService | internal/workload/workload.go:229-257 | the stable Service wanted for a target, a nil map of match labels included |
| Workload.BuildCanaryService | internal/workload/workload.go:259-288 | the canary Service wanted for a target |
| Workload.CanarySelectsItsOwnPods | internal/workload/workload.go:196-210 | the canary Deployment's selector matches its own template |
| Workload.EnsureCanaryDeployment | internal/workload/workload.go:53-79 | creates the canary Deployment or brings spec and labels of the existing one in line, or fails cleanly |
| Workload.EnsureStableService | internal/workload/workload.go:122-150 | creates the stable Service, updates only the ports of a managed one, and leaves a user's alone |
| Workload.EnsureCanaryService | internal/workload/workload.go:152-180 | creates the canary Service or brings its ports and selector in line, or fails cleanly |
| Workload.CleanupDeployment | internal/workload/workload.go:106-109 | deletes the canary Deployment and nothing else; its absence is no error |
| Workload.CleanupService | internal/workload/workload.go:111-114 | deletes the canary Service and nothing else; its absence is no error |
| Derived.SetUpInObjects | internal/workload/workload.go:53-98 | after a completed set-up the objects themselves are as they should be: one replica of the target's pods with the revision label, a Service for them on the Canary's port, and traffic objects with the weight of the stored step |
| Derived.CanaryDeploymentIsCopy | internal/workload/workload.go:187-210 | the canary Deployment is the target with one replica and the revision label, and nothing else changed but the match expressions |
| Derived.PortsOfService | internal/workload/workload.go:290-308 | one port; a numeric target port counts as a number, another as a name, and the Service's own port stands in for none |
| Derived.StableServiceIs | internal/workload/workload.go:122-150 | the stable Service is created with the target's selector and the Canary's port, gets the port if managed, and is otherwise left alone |
| Derived.CreatedDeploymentIsMarked | internal/workload/workload.go:212-227 | every Deployment a pass creates carries the two labels of its Canary and is owned by it |
| Derived.CreatedServiceIsMarked | internal/workload/workload.go:239-256 | so is every Service |
| Derived.CreatedIngressIsMarked | internal/traffic/nginx/nginx.go:75-78 | so is every Ingress |
| Derived.UpdatedDeploymentKeepsTheRest | internal/workload/workload.go:73-75 | an updated Deployment keeps everything but spec and labels |
| Derived.UpdatedServiceKeepsTheRest | internal/workload/workload.go:174-176 | an updated Service keeps everything but ports and selector |
| Derived.UpdatedIngressKeepsForeign | internal/traffic/nginx/nginx.go:82-98 | an updated sibling keeps its owner and the labels and annotations of others |
| Derived.WhyRoutingFails | internal/traffic/nginx/nginx.go:56-73 | the exact conditions of the two errors of routing, for both providers |
| Derived.StatusWithoutObjects | internal/traffic/nginx/nginx.go:123-139 | Status fails if and only if the reference is missing, and reports all traffic stable where there is nothing to read |
| Derived.WhyWorkloadFails | internal/workload/workload.go:200-210 | a canary workload cannot be built exactly for a nil map of match labels |
| Workload.ToInt32 | internal/workload/workload.go:304-304 | a numeric target port is taken modulo 2^32 into the int32 range, and kept where it fits |
| Exposure.LastAnalysisIsReached | internal/controller/canary_controller.go:320-347 | if every analysis passes, 2 * len(steps) - 1 passes lead to the last analysis, with the last step out |

## Left out

- Status conditions, timestamps, ObservedGeneration, Events, logs, Prometheus metrics and requeue intervals: observability and timing only. `stepInterval` is carried and defaulted, but the controller does not read it.
- controller-runtime caching, watches, predicates, leader election and rate limits: reads are linearizable, passes may start at any time, and at most one pass per Canary is at work.
- Merge-patch encoding: a patch atomically writes the fields the code changed. An annotation map that the clearing empties is patched away whole, as in the code (`Rollout.Cleared`).
- The API server's own behaviour: generation bumps, immutable selectors, AlreadyExists and conflicts. A rejected call is a failed call.
- Metric backends, HTTP and JSON: the replies are parameters, any value or error per query.
- Floating-point values and thresholds are real numbers: NaN and rounding are not modelled.
- Integers are unbounded except where the code converts a port (`Workload.ToInt32`) or parses a number: wrap-around of the failure count, the step index or a huge Route weight is not modelled.
- A write into a nil map of match labels is an error without effect (`Panicked`) instead of the death of the process. Other nil maps count as empty ones.
- The workload reconciler is always wired, and both routers are registered; the analysis engine may be missing.
- Routes are well typed, as the Route API has them: malformed unstructured content is not modelled, nor is the Route object's aliasing, which the code does not use.
- Of an Ingress spec only the Service references are heap objects; rules and paths are values, since the code changes nothing else in them. Of a Deployment spec only the label maps are.
- `SetControllerReference` is the assignment of an owner and does not fail; garbage collection through owners, and deletion of a Canary during a run, are not modelled.
- Error texts, printing of decisions, helm charts, CRDs, RBAC, command-line flags and dashboards.

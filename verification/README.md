# Verified model of the remediation agent

The agent polls Kubernetes warning events, asks a language model what to do about each
incident, and carries the answer out under a set of guards. This project models that loop
together with everything it rests on, and proves what every run of it keeps.

| File | Part of the agent |
|---|---|
| `Loop.dfy` | the agent: one poll, the handling of one event, runs of many polls |
| `Events.dfy` | events, scope, targets, anchoring a decision to its event |
| `Journal.dfy`, `Progress.dfy` | what one event and one poll add to a run, and what many polls achieve |
| `Origins.dfy` | which execution each change of the cluster belongs to |
| `LoopState.dfy`, `Accounting.dfy` | how store, counters and records agree with the run so far |
| `Chains.dfy` | whole runs: backoff windows, attempt chains, the circuit breaker |
| `Dedup.dfy`, `DedupSpec.dfy` | the dedup store in memory, and what histories of its operations mean |
| `Execution.dfy`, `Dispatch.dfy`, `Effects.dfy`, `Policy.dfy` | executing a decision: guards, escalation, planning and carrying out, what it all amounts to |
| `Oom.dfy`, `Probes.dfy` | the out-of-memory path and the Unhealthy path up to the validator |
| `Histories.dfy` | what is stored, who writes it, and what histories of changes amount to |
| `Cluster.dfy` | the API server as a versioned register with other writers, and read-modify-write on it |
| `WorkingCopies.dfy`, `Deployments.dfy` | changing a Deployment in place, and the meaning of each change and its undo record |
| `Naming.dfy` | owner resolution, the pod naming convention, signals |
| `Images.dfy`, `Versions.dfy` | image references and their rewrites, version order and tag selection |
| `Decisions.dfy` | the ring buffer of recent decisions and the list it mirrors |
| `Model.dfy`, `Text.dfy`, `Results.dfy` | vocabulary, the string operations of Go used here, result types |

## How it fits together

The state the source updates in place is kept in classes: `Loop.Agent`, `Dedup.MemoryStore`,
`Decisions.RecentDecisionRecorder`, `WorkingCopies.Deployment`, `Cluster.ApiServer`. Their methods
are proved against functions on values, and the properties are lemmas about those functions.

A run of the agent is a sequence of steps (`Chains.Step`): the model was called, its answer was filtered
out, the breaker tripped, a decision was executed. `Loop.Agent` carries this sequence as ghost state, with a journal of the
events handled. Every method keeps five things: the run is lawful (each step was allowed by the ones before), the dedup
store agrees with the run, the counters and the recorded decisions balance, the run consists of exactly what the journaled
events call for (`Journal.Explained`, from which lawfulness follows again), and every act of the agent on the cluster
belongs to one journaled event: it is legitimate for the model's answer to that event anchored to the event's own target,
and written out from what the register held while the event was handled (`Loop.Agent.EveryActHasItsEvent`).

The server keeps the history of its states (Deployments, pods and ReplicaSets) with the change that led from each to the next.
`Cluster.ApiServer.Valid` says that replaying the changes gives the states, that the changes by others are exactly the writes of
the turns they have taken, in order, and that all the rest are exactly the agent's acts, in order. So nothing is ever changed
unrecorded, and in a dry run the cluster is what the others made of it (`Loop.Agent.EveryChangeHasItsAuthor`).

Everything outside is arbitrary: the language model's answers and errors, the registry's tag lists, the time
left in a poll, the snapshot text given to the model, whether Redis is reachable, and what other clients
write to the cluster before each single request. Contracts about an operation come at three strengths:

- In any run: what was read was there at some moment since the call began, at most one change is made, and an operation that
  does not find, change or execute something has a cause: a request failed (`Histories.Faulted`), or the cluster showed the
  reason at some moment (`Naming.OwnerNotSeen`, `Execution.Unfit`, `Dispatch.ChangeFailed`, up to `Effects.Excused` for a whole execution).
- While others only write Deployments and no request fails (`Histories.Spares`): targets, escalations and completions are exact,
  and a change that is not made was impossible at some moment or lost to five rival writes (`Effects.RemediedSparedly`).
- Where no client has a turn left (`turns == []`): success and everything left behind are determined (`Effects.Undisturbed`), and
  failures and dry runs leave the cluster as it was.

The laws are stated in terms of what one sees from outside: numbers of base windows, the words of a severity, namespaces and
event types, the text of a parameter, the fields of a Deployment, the numbers and suffixes of two tags. Where a law goes through
a function of the model instead, a lemma beside that function says what it stands for: `Policy.GuardWords`,
`Deployments.ChangeByField`, `Deployments.AllowsPatchMeaning`, `Naming.CanonicalReasonMeaning`, `Versions.OlderMeaning` and others.

Poll times do not decrease and the base dedup window is positive.

## What the proofs turned up

- A parked signal is not silenced for the maximum window when the limit is 1 or 2, although the comment at
  `cmd/agent/main.go:857-862` says so: the park takes the maximum exactly from a limit of 3 on (`Chains.ParkIsMaximal`), and
  `Chains.ShortParkAndEarlyReopening` is a run in which it takes 2 base windows.
- The same comment ties the end of the pause to silence. The code reopens the breaker exactly when 12 base windows have
  passed since the last attempt, however often the incident recurred meanwhile (`Chains.BreakerReopensExactly`; the same run shows it).
- The OOM floor and the image completion look for their container by name only, the patch and the image update also by image.
  Both mean the same container exactly for the references of `Oom.PlainReferenceAgrees`. For all others a raised patch can lower
  a limit, exactly as stated by `Oom.LimitIsLoweredExactly` (an instance: `Oom.ImageReferenceLowersLimit`), and a discovered image
  lands on another container or is refused as a no-op (`Execution.DiscoveredImageGoesAstray`; an instance: containers running
  a:1 and a:2, the second one meant by its image, newest tag 2, `Execution.NoOpByImageReference`).
- An escalated probe patch keeps the `initial_delay_seconds` and `success_threshold` the model may have given. It passes
  its validator exactly when these are blank or in range (`Probes.EscalatedProbeSucceedsExactly`).
- An escalated OOM restart keeps the quantities the model may have given, and since its own limit is adequate the OOM floor does not
  cap a leftover `memory_request` (`cmd/agent/main.go:287-298` and `526-529`). The patch passes its validator exactly when what was left
  over fits under the raised limit and in range (`Oom.EscalatedRestartSucceedsExactly`). An instance: a memory request of 1Gi left over
  for a container of 64Mi, whose limit is raised to 512Mi, gets the patch refused (`Oom.LeftoverRequestFails`).
- A tag with a trailing blank escapes the exclusion of the current tag and yields the current image (`Images.BlankPaddedTagIsNotNew`).
- The owner is pinned only when one was resolved: otherwise the model's own `deployment_name` decides within the event's
  namespace (`Events.AnchorFixesTarget`).
- Two rewrites do not compose for every input; the exact conditions are in `Images.RetagTwice` and `Images.SwapTwice`.
- The error for a reference without a repository in `internal/registry/registry.go:106-108` is never returned (`Images.ParseRef`).
- Without the eviction that opens every poll, the store in memory and one with native expiry differ on every outdated key
  (`DedupSpec.UnevictedKeyStaysSeen`).

## Model

| member | source | states |
|---|---|---|
| Loop.Agent.Guarantees | cmd/agent/main.go:698-1061 | of every run: its base window and limit are the configured ones, it is lawful and consists of what its journaled events call for, no update was lost; events processed are the calls, decision errors the unanswered calls, execution errors the failed executions, each counted as steps of the run; processed = decision errors + decisions by action, skipped + processed = events looked at + filtered decisions, one record per decision or trip, and each record shows blocked for a trip, skipped for a filtered answer, success exactly for an execution without error |
| Loop.Agent.EveryActHasItsEvent | cmd/agent/main.go:830-1010 | every act belongs to one journaled event and to a successful execution of its own: the event is a warning whose namespace is not excluded and, if there is an include list, on it; the act is on that event's target, which rests on what the cluster showed, legitimate for the model's answer to it, written from what was read, and says what that answer says (a scaling: the very number under "replicas"); a dry run has none |
| Loop.Agent.EveryChangeHasItsAuthor | cmd/agent/main.go:744-1060 | of every run: the states of the cluster follow from the changes one by one, those by others are exactly the writes of the turns they took, the rest are exactly the agent's acts; in a dry run all are by others |
| Loop.Agent.EveryOwnChangeHasItsEvent | cmd/agent/main.go:830-1010 | every change of the cluster that is not by others is an act on the target of one journaled event, a warning whose namespace is not excluded and, if there is an include list, on it |
| Loop.Agent.ChangesAreBounded | cmd/agent/main.go:702-912 | in every run, of the acts between two acts for a signal at most 12 times the configured dedup window apart, no more belong to that signal than the configured limit |
| Loop.Agent.FilteredIsMinor | cmd/agent/main.go:985-1000 | of every run: an answer was filtered out if and only if its rating stands before the minimum in the order info, low, medium, high, critical, an unknown word counting as low, and its action is none of the four an operator enables; any other was executed |
| Loop.Agent.Run | cmd/agent/main.go:744-1060 | any number of polls keeps all invariants; n unseen events in scope under a cap c are all marked once c times the number of polls reaches n, if time suffices and no seen key expires |
| Loop.Agent.Poll | cmd/agent/main.go:767-828 | evicts first; before the event it stops at, marks every warning whose namespace is not excluded and, if there is an include list, on it, handles it if its key is new, and marks and handles nothing else; stops only at the end or before such an event when cap or time is used up; makes at most the capped number of calls |
| Loop.Agent.Consider | cmd/agent/main.go:824-828 | a known key changes nothing; a new one is marked and handled at once |
| Loop.Agent.Handle | cmd/agent/main.go:830-1032 | the journal entry tells target, steps and effect: the steps follow from the run so far, the effect is the execution of the anchored answer with this event's reason and context or nothing at all, the record goes with the steps; the target is exact while others leave pods and ReplicaSets alone, and in any run it is the object itself only if no owner was seen or a request failed |
| Events.ResolveTarget | cmd/agent/main.go:830-862 | a pod event is filed under the owner its pod showed, else under what its name suggested, each resting on what the cluster held meanwhile; under itself only if a request failed or the cluster showed no such owner; exact while others leave pods and ReplicaSets alone |
| Loop.Agent.Respond | cmd/agent/main.go:863-912 | an open window means silence, an exhausted counter means a trip, anything else goes to the model |
| Loop.Agent.Trip | cmd/agent/main.go:879-911 | parks the signal for the window of one more attempt, records the give-up and no decision of the model, counts a skipped event |
| Loop.Agent.Ask | cmd/agent/main.go:914-945 | counts the event; an error adds one to the decision errors and leaves the signal unmarked, an answer adds one under its own action, and no other counter moves |
| Loop.Agent.Decide | cmd/agent/main.go:914-1032 | one call and, if answered, exactly one outcome |
| Loop.Agent.Conclude | cmd/agent/main.go:970-1032 | filtered if and only if the rating stands before the minimum in the order info, low, medium, high, critical (unknown words count as low) and the action is no patch and sets no image; "critical" is never filtered |
| Loop.Agent.Filter | cmd/agent/main.go:989-1000 | marks the base window, counts no attempt, records the decision as skipped with the reason |
| Loop.Agent.CountAttempt | cmd/agent/main.go:1004-1008 | counts the attempt only with the breaker on, then closes the signal for the escalated window |
| Loop.Agent.Execute | cmd/agent/main.go:947-1032 | executes the answer anchored to this event and target, with its reason and context; the step and the record say success exactly when that execution returned no error |
| Loop.OutcomeOf | cmd/agent/main.go:1016-1030 | success exactly without an error, blocked exactly when the lower-case error contains "policy", "blocked" or "opt in", never "skipped" |
| Events.AnchorFixesTarget | cmd/agent/main.go:947-968 | with a known owner the steered Deployment is that owner whatever the model wrote; without one it is the model's |
| Events.AnchorKeepsTheRest | cmd/agent/main.go:947-968 | namespace, kind and name are the event's; action, confidence, severity and every parameter but the two that steer the Deployment stay the model's |
| Events.ActsStayOnTarget | cmd/agent/main.go:947-968 | any legitimate act for the anchored decision is on the event's namespace and owner, or deletes the event's own pod |
| Events.FiledUnderDeployment | cmd/agent/main.go:830-862 | events about a Deployment or any pod generation of it, the ReplicaSet gone or not, are filed under that Deployment |
| Events.GenerationsShareSignal | cmd/agent/main.go:830-863 | two such events, also at different moments, share a signal if and only if their canonical reasons agree |
| Events.KeysAreDistinct | cmd/agent/main.go:824 | two events have the same key if and only if namespace, name and resource version agree, for names without a slash |
| Journal.ExplainedRunsAreLawful | cmd/agent/main.go:863-1032 | any run that consists of the answers to its handled events is lawful, so all results about lawful runs follow from how single events are answered |
| Journal.IgnoredByWords | cmd/agent/main.go:970-1000 | the filter in terms of the five severity words and the four gated actions |
| Journal.WalkOn | cmd/agent/main.go:781-828 | going over one event keeps what a poll promises about marks, handled events and calls |
| Journal.WalkedInWords | cmd/agent/main.go:781-828 | what was walked over in terms of event type and namespace lists: exactly those warnings are marked and, if new, handled |
| Journal.EveryPollProgresses | cmd/agent/main.go:809-828 | a poll marks everything in scope or at least as many new keys as it made calls |
| Progress.DrainOn | cmd/agent/main.go:809-828 | in a steady stretch the number of unmarked keys falls by at least the cap with each poll |
| Origins.ActsWithinRuns | cmd/agent/main.go:1004-1010 | a signal is acted on at most once per execution |
| Origins.WrittenAsAnswered | cmd/agent/main.go:119-245 | what an act writes is what the model's answer says before anchoring: the number of replicas, the container, the registry, the probe and its timings; only a restart may have become a patch |
| Origins.ChangeRateBound | cmd/agent/main.go:702-912 | of the acts between two acts for a signal at most 12 base windows apart, no more belong to that signal than the limit |
| LoopState.AnswersAgree | cmd/agent/main.go:864-881 | the store's answers about windows and attempts are what the run so far says |
| LoopState.EvictionKeepsAgreement | cmd/agent/main.go:779 | evicting at the start of a poll loses nothing the run still needs |
| LoopState.RunKeepsAgreement | cmd/agent/main.go:1004-1008 | counting and marking keeps the store in agreement with the run extended by the execution |
| LoopState.CoherentAfterCall | cmd/agent/main.go:914-945 | a permitted call keeps lawfulness, agreement and balance |
| LoopState.CoherentAfterTrip | cmd/agent/main.go:879-911 | so does a trip |
| LoopState.CoherentAfterFilter | cmd/agent/main.go:989-1000 | so does a filtered decision |
| LoopState.CoherentAfterRun | cmd/agent/main.go:1002-1032 | so does an execution |
| Accounting.TotalCounts | internal/metrics/metrics.go:38-47 | recording a decision adds one to the sum over all actions |
| Accounting.BalancedAfterCall | cmd/agent/main.go:914-945 | processed = decision errors + decisions stays true over a call |
| Accounting.BalancedAfterRecord | cmd/agent/main.go:891-1032 | records = decisions + trips, and one outcome per record, stay true over an outcome |
| Chains.SignalBackoffTTL | cmd/agent/main.go:649-656 | base times 1, 2, 4, then 8 |
| Chains.WindowsNeverShrink | cmd/agent/main.go:864-1008 | marking a signal never shortens a window that is still open |
| Chains.SilentUntil | cmd/agent/main.go:864-867 | nothing happens for a signal before its window is over |
| Chains.SilentExactly | cmd/agent/main.go:649-1008 | the end of the silence: one base window after a filtered answer, 1, 2, 4 or 8 after an execution by its attempt number, that of one attempt more after a trip |
| Chains.AttemptsBounded | cmd/agent/main.go:876-912 | no attempt number exceeds the limit |
| Chains.BreakerHolds | cmd/agent/main.go:702-912 | after the last permitted attempt no call and no execution until strictly more than 12 times the base window later |
| Chains.BreakerReopensExactly | cmd/agent/main.go:702-881 | in a lawful run, what follows the last permitted attempt of a signal is a trip if and only if at most 12 times the base window has passed, else a call |
| Chains.BreakerDecides | cmd/agent/main.go:876-914 | a signal that is open never gets stuck: a lawful run can go on with a call or with a trip, and not with both |
| Chains.TripsAtLimit | cmd/agent/main.go:876-884 | a trip always happens with exactly the limit of attempts counted |
| Chains.ParkIsMaximal | cmd/agent/main.go:882-884 | every trip of a lawful run parks for the window of limit + 1 attempts, which is the 8-fold one if and only if the limit is at least 3 |
| Chains.ShortParkAndEarlyReopening | cmd/agent/main.go:857-884 | a lawful run with limit 1 whose park takes 2 base windows and whose breaker reopens 2 base windows after a recurrence |
| Chains.SuccessiveRuns | cmd/agent/main.go:702-1008 | successive executions are a full window apart; the count goes on within 12 times the base window and starts over after |
| Chains.RunsAreApart | cmd/agent/main.go:864-1008 | a signal is executed at most once per poll |
| Chains.RecurrenceContinues | cmd/agent/main.go:702-707 | a recurrence at the end of its window, or up to 4 base windows later, always continues the chain |
| Chains.EveryRunHasItsChain | cmd/agent/main.go:863-1010 | every execution belongs to a chain that starts with attempt 1, counts each execution since, and took at least the sum of its windows |
| Chains.SpanClosedForm | cmd/agent/main.go:649-656 | that sum is (2^(k-1) - 1) windows up to k = 5 and 15 + 8(k - 5) from then on |
| Chains.CounterCounts | internal/dedup/dedup.go:107-128 | within 12 times the base window attempt numbers count the executions in between |
| Chains.RateBound | cmd/agent/main.go:702-912 | at no more places of a stretch of 12 times the base window is a signal executed than the limit says |
| Dedup.MemoryStore.MarkSeen | internal/dedup/dedup.go:84-92 | true exactly for a new key, which it stores with its time; the ttl is ignored |
| Dedup.MemoryStore.IsSignalFresh | internal/dedup/dedup.go:94-99 | true strictly before the stored deadline |
| Dedup.MemoryStore.MarkSignal | internal/dedup/dedup.go:101-105 | stores the deadline and nothing else |
| Dedup.MemoryStore.Attempts | internal/dedup/dedup.go:107-115 | the count up to and including the expiry, 0 after |
| Dedup.MemoryStore.IncrAttempt | internal/dedup/dedup.go:117-128 | restarts a lapsed counter at 1, slides the expiry |
| Dedup.MemoryStore.Evict | internal/dedup/dedup.go:130-148 | deletes exactly the lapsed entries of all three maps, in any order of iteration |
| DedupSpec.CounterMeaning | internal/dedup/dedup.go:107-128 | the count read at a time is the length of the longest run of increments whose gaps, and the gap to that time, fit the window |
| DedupSpec.RunGrows | internal/dedup/dedup.go:117-128 | one more increment extends that longest run by one |
| DedupSpec.EvictionIsInvisible | internal/dedup/dedup.go:130-148 | an eviction at any moment changes no later answer about signals or attempts |
| DedupSpec.SeenRefinesNativeExpiry | internal/dedup/redis.go:89-102 | with eviction first in every poll, marking answers exactly like SET NX EX |
| DedupSpec.UnevictedKeyStaysSeen | internal/dedup/dedup.go:84-92 | without eviction a key once marked is always refused, and the answer agrees with SET NX EX if and only if the ttl is not over |
| Cluster.CalmMeansOthers | internal/kube/kube.go:25-48 | between two moments without an act of the agent, every change of Deployments, pods or ReplicaSets is by others |
| Cluster.ApiServer.DeletePod | internal/kube/kube.go:238-269 | at most the pod named is deleted, and nothing else is changed but by others; an error means that the request failed |
| Cluster.ApiServer.Attempt | internal/kube/kube.go:38-47 | one cycle commits the change on top of the very version it replaced, or nothing; a conflict means that somebody else wrote the Deployment in between, a failure that a request failed or the change was not possible; undisturbed, it commits exactly when the change is possible |
| Cluster.ApiServer.MutateDeployment | internal/kube/kube.go:31-48 | success means exactly one write, of the change applied to the version before it; an error means none, and that a request failed, the change was not possible at some moment, or in five turns somebody else wrote the Deployment; undisturbed, it succeeds if and only if the Deployment exists and takes the change |
| Cluster.ApiServer.UpdateDeployment | internal/kube/kube.go:45-46 | accepted only under the version that was read, and always when the request arrives and nobody wrote this Deployment since |
| Histories.NoLostUpdate | internal/kube/kube.go:25-48 | the register holds what all writes give when executed one at a time, each cycle of the agent as one step |
| Histories.RivalsCounted | internal/kube/kube.go:25-48 | the rival writes a failed change is excused by are the turns in which somebody wrote that Deployment |
| Histories.RecordedUndoIsExact | internal/kube/kube.go:72-86 | the last-change record of a committed write undoes it to the version it replaced |
| WorkingCopies.Deployment.Mutate | internal/kube/kube.go:31-48 | changing the copy in place yields the Deployment listed field by field for the change, or an error when no Deployment is |
| WorkingCopies.Deployment.Restart | internal/kube/kube.go:221-232 | stamps the pod template and nothing else |
| WorkingCopies.Deployment.Scale | internal/kube/kube.go:272-289 | sets the replicas, recording the previous ones with a default of 1 |
| WorkingCopies.Deployment.SetImage | internal/kube/kube.go:295-333 | sets the image of the container meant, refusing a no-op |
| WorkingCopies.Deployment.Retime | internal/kube/kube.go:402-471 | with opt-in, container, probe kind, probe and timings in order, each of the five timings given is written to its own field and every other field stays; refused otherwise |
| WorkingCopies.Deployment.RetimeProbe | internal/kube/kube.go:345-460 | for every order in which the fields are visited: all are known and within their ranges (0-600, 1-300, 1-20, 1-5, 1-60), and then each timing is the number given under its own key or what it was |
| WorkingCopies.Deployment.Resize | internal/kube/kube.go:497-588 | applies quantities within bounds whose requests do not exceed the limits, refuses all else |
| WorkingCopies.Deployment.MoveRegistry | internal/kube/kube.go:650-681 | swaps the registry of the opted-in container meant, refusing a no-op |
| Deployments.FindContainerMeaning | internal/kube/kube.go:369-395 | blank means the first container, a name wins over an image, the first match counts, a lone container is meant by anything else, all other references fail |
| Deployments.ChangeByField | internal/kube/kube.go:221-681 | what each change makes of a Deployment, every field and the record of it written out with its bounds, and that it is refused exactly when that is impossible |
| Deployments.AllowsPatchMeaning | internal/kube/kube.go:90-105 | the opt-in: some comma-separated part of the annotation is, apart from case and blanks, the scope or "*" |
| Deployments.UndoRestores | internal/kube/kube.go:272-681 | writing back the recorded values restores every field a change touched, nil replicas as 1; all else is framed |
| Deployments.EffectsOf | internal/kube/kube.go:221-681 | each change touches only its own part of the Deployment, and patches need their opt-in |
| Execution.EscalationPassesPatchGuard | cmd/agent/main.go:257-351 | an escalated decision is never refused by the patch guard |
| Execution.EscalationKeepsAim | cmd/agent/main.go:257-351 | escalation changes neither namespace, kind, name nor a pinned Deployment |
| Policy.GuardWords | internal/policy/policy.go:48-90 | what the guards look for: "unhealthy" and "failedscheduling" apart from case and blanks, "oomkilled" or "exit=137" anywhere in the snapshot apart from case |
| Execution.GuardsAreExact | internal/policy/policy.go:15-120 | images and patches pass if and only if the flag of this very action is on, the confidence reaches the threshold, and an image is not blank and valid |
| Execution.TryAutoPatchProbe | cmd/agent/main.go:310-351 | the restart becomes the tolerant patch of a probe the target had when read; refused only if the flag is off, a request failed, or no target or no opted-in Deployment with a probe was seen; exact while others only write Deployments |
| Execution.TryAutoPatchResources | cmd/agent/main.go:257-298 | the restart becomes a raised limit for the first container of the target as read; refused only if the flag is off, a request failed, or no target or no opted-in Deployment with a container was seen; exact while others only write Deployments |
| Execution.ChooseProbe | cmd/agent/main.go:413-425 | none exactly when no container has a probe |
| Execution.ChosenProbeMeaning | cmd/agent/main.go:413-425 | the first container with a readiness probe; one with a liveness probe only when there is no readiness probe at all |
| Execution.Escalate | cmd/agent/main.go:52-84 | the decision is replaced by a patch derived from a Deployment read on the way, refused for such a cause, or neither guard objects; exact while others only write Deployments |
| Execution.Screen | cmd/agent/main.go:52-117 | what passes all guards keeps its aim, is never a restart that cannot help, and meets flag and confidence; what does not was refused for a cause seen in the cluster or in the decision, or a request failed; exact while others only write Deployments |
| Execution.Successor | cmd/agent/main.go:385-407 | the discovered image whenever there is one, else the configured tag, else none |
| Execution.DeriveFallbackImage | cmd/agent/main.go:360-407 | that successor of the image run by the container meant, in a Deployment the decision is aimed at, as the register held it; none only if a request failed, no target was seen, or the target gave none |
| Execution.CompleteImage | cmd/agent/main.go:94-106 | a decision is completed only when it lacks an image and only by such a derived one; it is left incomplete only if a request failed or none could be derived; nothing is read for any other action, with updates disabled, with an image given, or with neither discovery nor a fallback tag configured |
| Execution.DiscoveredImageStays | cmd/agent/main.go:385-392 | a discovered image has the host and repository of the current one, another tag, and is not the current image |
| Execution.DiscoveredImageIsAccepted | cmd/agent/main.go:360-392 | it is accepted by the container it was derived for if and only if reading and writing mean the same container |
| Execution.DiscoveredImageGoesAstray | internal/kube/kube.go:324-333 | otherwise it is refused, or goes to another container found by its image unless that runs it already |
| Execution.NoOpByImageReference | cmd/agent/main.go:373-381 | an instance: derived for the first container, refused as a no-op by the second |
| Execution.NewestTag | internal/registry/registry.go:50-68 | a tag if and only if the image parses, the registry answers and any usable tag other than the current one is listed; then the newest one |
| Effects.ExecuteDecision | cmd/agent/main.go:44-247 | at most one act, which passed every gate and is on target, and a scaling sets the very number under "replicas"; none on failure or in a dry run, and then all that changes is by others (undisturbed: nothing); the act is what the decision, escalated or completed, plans on the strength of what was read of that Deployment; a failure has a cause: a failed request, a guard, or a change that could not be made; undisturbed, error and acts are determined |
| Effects.ImageIsProposedOrDerived | cmd/agent/main.go:86-106 | an image that is set is valid and not blank, goes to the container named, and was proposed, or none was and it succeeds the image of the container meant in a Deployment aimed at |
| Effects.WrittenAsAsked | cmd/agent/main.go:119-245 | every write carries what the proposed decision said: number of replicas, container, registry, probe, timings and quantities; only a restart may have become a patch |
| Effects.ScaleIsCarriedOut | cmd/agent/main.go:138-158 | undisturbed, a scaling sets exactly the number under "replicas" in one write and succeeds if and only if that is a 32-bit number within the bounds; otherwise nothing changes |
| Effects.OomRestartIsCarriedOut | cmd/agent/main.go:257-298 | undisturbed, an OOM restart of an opted-in Deployment gives the first container the raised limit, max(512Mi, min(4m, 16Gi)) up to 16Gi, in one write if and only if the quantities left over fit; otherwise it fails and changes nothing |
| Effects.OomPatchIsCarriedOut | cmd/agent/main.go:207-234 | undisturbed, a patch proposed during an OOM incident returns no error and gives the container meant max(512Mi, min(4m, 16Gi)), never less than before |
| Effects.CoveredIsLegitimate | cmd/agent/main.go:44-247 | gates in terms of the decision as proposed: no restart under Unhealthy, FailedScheduling or OOM; replicas change only to the number asked for; probes, resources and images change only with flag, opt-in of the very version replaced and confidence |
| Dispatch.ProbeFields | cmd/agent/main.go:172-204 | exactly the timings given, trimmed; a threshold of 6, a period of 15 and a timeout of 5 when there are none |
| Dispatch.ProbeMeant | cmd/agent/main.go:178-199 | the probe named, else the one chosen from the target as the register held it, in the container named if any; that of the present Deployment unless a request failed |
| Dispatch.ResourceParams | cmd/agent/main.go:207-234 | under OOM, and when nothing is given, the floor of the target as the register held it, under FailedScheduling the defaults, else untouched; that of the present Deployment unless a request failed |
| Dispatch.SuppliedMeaning | cmd/agent/main.go:207-234 | given quantities stay outside an OOM incident; 100m/64Mi and 500m/256Mi for a pod no node takes; else the floor after the container seen |
| Dispatch.PlanChange | cmd/agent/main.go:119-245 | the change the decision asks for, in full, given what was read, each part from the parameter of its own name, a scaling with the very number under "replicas"; that of the present Deployment unless a request failed |
| Dispatch.PlanFailsExactly | cmd/agent/main.go:119-245 | nothing is planned if and only if the number of replicas is missing or out of range, the image is blank, or no probe is named and none was seen |
| Dispatch.ExecChange | cmd/agent/main.go:119-245 | resolves, plans and writes at most once; fails only if a request failed, no target was seen, the plan did not stand, the change was not possible, or five rivals wrote; undisturbed, it succeeds if and only if the target resolves, the plan stands and the Deployment takes it, and a failure or dry run leaves the cluster as it was |
| Dispatch.ExecDeletePod | internal/kube/kube.go:238-269 | only for pods, and only the decision's own: undisturbed, that pod is gone afterwards, everything else is as before, and a dry run changes nothing; it fails only for other kinds or when a request failed |
| Dispatch.Rehearse | internal/kube/kube.go:300-308 | a dry run writes nothing; it succeeds only where the change would be accepted, and fails only where it would not or when a request failed |
| Dispatch.InspectPodLogs | internal/kube/kube.go:743-799 | only for pods and Deployments, and changes nothing |
| Dispatch.Perform | cmd/agent/main.go:119-246 | each action does what it asks for on its own target, or nothing at all; a failure has its cause; undisturbed, the outcome is exact |
| Oom.BumpedLimitMeaning | cmd/agent/main.go:462-480 | up to 16Gi, the limit in whole bytes times four, at least 512Mi and at most 16Gi, in thousandths of a byte; never lower exactly up to 16Gi, also where 64-bit arithmetic wraps |
| Oom.FloorParamsMeaning | cmd/agent/main.go:500-545 | an adequate limit leaves the parameters alone; any other is raised to the floor, and a memory request above the floor falls to half of it in whole bytes; all else is kept |
| Oom.RequestAsWritten | internal/kube/kube.go:497-588 | each of the four quantities is read from the parameter of its own name |
| Oom.RaisedPatchSucceedsExactly | internal/kube/kube.go:497-588 | the raised patch passes its validator if and only if a container is found whose other figures fit the floor |
| Oom.OomPathSucceeds | cmd/agent/main.go:500-545 | for a plainly referenced, consistent container the OOM path succeeds with max(512Mi, min(4m, 16Gi)) and request within limit |
| Oom.EscalatedRestartSucceedsExactly | cmd/agent/main.go:257-298 | an escalated restart passes the validator if and only if the quantities the model left over are in range and fit under the raised limit; the first container then gets that limit |
| Oom.PlainRestartFits | cmd/agent/main.go:257-298 | without quantities left over it always does, for a consistent container of at most 16Gi |
| Oom.LeftoverRequestFails | cmd/agent/main.go:526-529 | an instance: a leftover memory request of 1Gi above the raised limit of 512Mi gets the patch refused |
| Oom.PlainReferenceAgrees | cmd/agent/main.go:508-520 | the container read is the container written if and only if the reference is blank, a name, the first container's image, or there is no choice |
| Oom.LimitIsLoweredExactly | cmd/agent/main.go:500-545 | a raised patch that succeeds lowers its container's limit if and only if that exceeds the limit derived from the container read |
| Oom.PlainReferenceKeepsLimit | cmd/agent/main.go:500-545 | with a plain reference the limit is kept or raised if and only if it was at most 16Gi |
| Oom.ImageReferenceLowersLimit | cmd/agent/main.go:508-520 | an instance: 2Gi fall to 512Mi because the other container had 32Mi |
| Oom.SchedulableDefaultsSucceed | cmd/agent/main.go:442-452 | the schedulable defaults pass the validator of an opted-in Deployment if and only if the container is found |
| Probes.EscalatedProbeSucceedsExactly | cmd/agent/main.go:310-351 | an escalated probe patch passes the validator of the version read if and only if the timings the model left over are blank or in range |
| Probes.UnhealthyRestartIsCarriedOut | cmd/agent/main.go:310-425 | undisturbed, an Unhealthy restart of an opted-in Deployment is carried out exactly then, and the first readiness probe, or the first liveness probe where there is no readiness probe at all, gets a period of 15, a timeout of 5 and a threshold of 6; its handler and the timings not left over by the model, and all else of the Deployment but the record, stay |
| Probes.EscalatedRestartRelaxes | cmd/agent/main.go:310-351 | whoever else is at work, a restart that became a probe patch makes one probe of what it writes that tolerant and touches nothing else |
| Naming.SignalsAreDistinct | cmd/agent/main.go:863 | signals are equal if and only if all four parts are, for parts without the separator |
| Naming.CanonicalReasonMeaning | cmd/agent/main.go:670-691 | ErrImagePull, ImagePullBackOff and a Failed that mentions a pull are one reason apart from case; any other is itself without blanks around it |
| Naming.NamingConvention | internal/kube/kube.go:119-145 | dropping one part of d-h1-h2 gives d-h1, dropping two gives d, hyphens in d or not |
| Naming.GenerationsCollapse | internal/kube/kube.go:119-169 | every pod generation, pod and ReplicaSet alive or gone, resolves to its Deployment |
| Naming.ResolveDeploymentFromPod | internal/kube/kube.go:148-169 | an answer is the Deployment owner of a ReplicaSet that owned the pod, as the cluster showed it meanwhile; none only if a request failed, the pod or a ReplicaSet of it was missing, or none of them had a Deployment; while others leave pods and ReplicaSets alone, the first such owner |
| Naming.DeploymentOwnerMeaning | internal/kube/kube.go:148-169 | the owner found is the first of kind Deployment, and none exactly when there is no such owner |
| Naming.InferDeploymentFromPodName | internal/kube/kube.go:119-145 | an answer is the owner of the ReplicaSet the name suggests or an existing Deployment it suggests, as the cluster showed it; none only if a request failed or the cluster showed neither; while others leave pods and ReplicaSets alone, the first of the two |
| Naming.ResolveDeploymentTarget | internal/kube/kube.go:203-218 | the parameter deployment_name wins over deployment, both over kind and name; a Deployment is itself; a pod goes by the owner it showed; it fails only for other kinds or a pod without such an owner, or when a request failed; exact while others leave pods and ReplicaSets alone |
| Images.ParseRef | internal/registry/registry.go:74-110 | fails exactly for a blank image; host and repository are never empty |
| Images.ShortReference | internal/registry/registry.go:74-110 | a name without a host means registry-1.docker.io, under library/ when it has one segment |
| Images.QualifiedReference | internal/registry/registry.go:74-110 | a first segment with a dot or a colon, or localhost, is the host; docker.io and index.docker.io mean registry-1.docker.io |
| Images.RetagAsWritten | internal/kube/kube.go:594-616 | a retag puts the new tag after the name as written, without old tag and digest |
| Images.SwapAsWritten | internal/kube/kube.go:621-645 | a swap puts the new registry in front of path, tag and digest as written |
| Images.RetagKeepsRepository | internal/kube/kube.go:594-616 | for separator-free tags a retagged image parses to the same host and repository and the new tag |
| Images.RetagTagReadBack | internal/kube/kube.go:594-616 | the tag read back is the new one if and only if that tag has no separator |
| Images.RetagIsNoopExactly | internal/kube/kube.go:594-616 | retagging reproduces the image if and only if it is undigested and carries that tag already |
| Images.DiscoveredImageIsNew | cmd/agent/main.go:385-392 | retagging with the selected tag gives another image of the same repository |
| Images.BlankPaddedTagIsNotNew | internal/registry/registry.go:236-263 | a padded tag is selectable and reproduces the current image |
| Images.RetagTwice | internal/kube/kube.go:594-616 | the second of two retags wins if and only if the first tag opens no path or tag |
| Images.RetagTwiceSeparatorFree | internal/kube/kube.go:594-616 | which holds for all separator-free tags |
| Images.SwapTwice | internal/kube/kube.go:621-645 | the second of two registry swaps wins if and only if the first registry is host-like without a slash |
| Images.SwapBack | internal/kube/kube.go:621-645 | swapping away and back restores the reference |
| Images.SwapForm | internal/kube/kube.go:621-645 | a swap replaces exactly the registry segment |
| Images.SegmentKeepsPathTagAndDigest | internal/kube/kube.go:621-645 | the registry segment has no influence on path, tag and digest |
| Images.SwapKeepsPathTagAndDigest | internal/kube/kube.go:621-645 | hence a swap between registries without '@' keeps path, tag and digest |
| Versions.ParseVersion | internal/registry/registry.go:273-288 | an optional v, dotted numbers that fit an int, and a suffix without line break |
| Versions.VersionReadsBack | internal/registry/registry.go:273-288 | numbers joined by dots, with or without v, and a suffix that does not go on with them read as these numbers and this suffix |
| Versions.Less | internal/registry/registry.go:291-313 | true exactly if at the first difference the left number is the smaller one, absent ones being 0, or the numbers agree and the left suffix is there and the right one is not, or comes first in code-point order |
| Versions.OlderMeaning | internal/registry/registry.go:291-313 | the order laws are about this order |
| Versions.OrderByExample | internal/registry/registry.go:291-313 | instances: 1.9 before 2.0, 1.9 before 1.10, a suffixed version before its bare release |
| Versions.OlderIsAsymmetric | internal/registry/registry.go:291-313 | irreflexive and asymmetric |
| Versions.OlderIsTransitive | internal/registry/registry.go:291-313 | transitive |
| Versions.TiedIsTransitive | internal/registry/registry.go:291-313 | incomparability is transitive: a strict weak order |
| Versions.TiedMeaning | internal/registry/registry.go:291-313 | tied means equal padded numbers and equal suffix |
| Versions.PickNewest | internal/registry/registry.go:236-263 | every other listed candidate has the smaller number at the first difference, or the same numbers and no suffix that would beat the pick's; "latest" only without candidates, "" only with nothing usable |
| Versions.PickIsUsable | internal/registry/registry.go:236-263 | never the excluded tag; empty exactly when nothing usable remains |
| Versions.PickIsUnique | internal/registry/registry.go:236-263 | what is promised leaves exactly one answer for each list |
| Versions.PickIgnoresOrder | internal/registry/registry.go:236-263 | reordering the list changes the answer at most within a class of tied versions |
| Decisions.RecentDecisionRecorder.Record | internal/webui/decisions.go:120-161 | one more record, in ring and shared list |
| Decisions.RecentDecisionRecorder.Snapshot | internal/webui/decisions.go:167-207 | the last min(n, c) records newest first, from the ring or a shared list in sync with it |
| Decisions.RingStep | internal/webui/decisions.go:137-142 | a write keeps slots, next and full in agreement with the list of all records |
| Decisions.SlotIsRemainder | internal/webui/decisions.go:139 | counting up and starting over is n mod c |
| Decisions.CappedListMeaning | internal/webui/decisions.go:146-160 | pushing to the front and truncating keeps the last c records, newest first |

## Left out

- Dispatch.InspectPodLogs: the choice of pod and container and the two log reads are one arbitrary result, because nothing is written and only success or failure matters to the loop.
- Loop.OutcomeOf: error texts are abbreviated, so which refusals count as blocked rather than failed is only as exact as the words kept in them.
- Text.EqualFold: case folding is that of ASCII letters.
- Images.ParseRef: works on characters, not on bytes of invalid UTF-8.
- The OCI grammar of image references is an arbitrary predicate, the log text of pods and the text of snapshots are arbitrary strings.
- Quantity texts are any reading and writing of amounts in which what was written reads back; suffix syntax is not modelled.
- The last-change annotation is a typed record, not JSON text.
- Decisions are values: that the model's parameter map is shared while it is rewritten is not captured.
- An update that was stored but whose reply was lost counts as accepted; the retry helper of the client library is modelled as five immediate attempts.
- The Redis backends beyond SET NX EX, their fail-open branches, and entries of the shared list that do not parse.
- Leader election, informers, tickers, signal handling, goroutines and mutexes; the poll deadline is one flag per event.
- Notifications, e-mail, the web interface, authentication, metrics export, configuration parsing, prompts and the transport to the language model.
- Overflow of durations beyond about 292 years; time is an integer count of nanoseconds.
- DeleteAndRecreatePod's grace period: the forced deletion is recorded by a flag only.

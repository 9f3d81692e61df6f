# SwarmOps, verified

SwarmOps is a control plane for Docker Swarm machines: a controller ("Core") and one agent on
each machine. This project models, in Dafny, the parts of it whose correctness is a matter of
state, order and arithmetic, and proves what they promise for every input and every run:

- **The outbound-agent rendezvous.** Core queues requests for an agent that polls. Requests are
  numbered, leased, redelivered once if their delivery was lost, and answered over a network
  that loses polls, replies, responses and acknowledgements. `BrokerState` is the queue as a
  value, `BrokerSafety` what its operations keep, `BrokerObjects` the broker as an object whose
  methods are proved equal to those operations, `Rendezvous` broker, network and agent as one
  state machine, `RendezvousSafety` its invariant, `RendezvousTheorems` what follows for every
  run, `RendezvousOutcomes` what each caller and each agent gets to see, and `RendezvousNumbering`
  how sequence numbers stand to the agent's cursor. `BrokerAdmission` ties the broker's admission
  to that of the state machine, and `AuthorityEpoch` is the compare-and-swap loop behind the
  authority epoch.
- **The fixed command vocabulary.** Thirty-eight operations are printed to an argv and a stdin and
  read back by two overlapping dispatchers (`Command`, `CommandParser`, `CommandRoundTrip`,
  `CommandNormalForm`, `Addressing`, `Text`). `CommandPatterns` and `CommandAcceptance` say in
  plain terms what is accepted, `CommandWords` and `CommandFields` what becomes of each field.
- **The single-flight metrics cache** (`MetricsCache`, `MetricsCacheRuns`), **metric queries**
  (`MetricStep`, `MetricQuery`, `MetricQueryTheorems`, `MetricReadings`), and **metric documents**
  (`MetricsDocument`, `Sanitize`, `SanitizedFields`, `MetricsCap`, `Ordering`). `Basics` holds what all share.
- **The machine's own protocols**: the container-stats worker pool (`WorkerPool`), network
  aliases (`NetworkAliases`), the one-time enrollment secret (`Enrollment`), and the marker that
  holds off a self-update (`UpdateBusy`).

`dafny verify dfyconfig.toml` checks everything.

## Where the code and its promises part

Each of these is a theorem: a run or input that shows it, and the exact condition under which the
promise holds.

- **A request can be executed twice.** The comment at `internal/agentpull/broker.go:126-130` takes an
  unacknowledged request for one that never arrived, and one that ran for acknowledged. But the
  agent saves its cursor only after Core has taken the response
  (`internal/agentpull/client.go:166-180`), so a request whose response is lost is handed out and
  executed again. `LostResponseRunsTwice` gives the run, `RunsAgainIff` says exactly when an
  executed request can run again, `RanAtMostTwice` bounds it, and `SaveFirstRunsOnce` proves at-most-once for an agent that saves its cursor before executing.
- **An answer to a request still in the queue gives it two outcomes.** `Respond` does not look at the queue;
  `RespondKeepsSettledIff` and `EarlyAnswerSendsTwice`. An agent that answers only what it was
  handed never does this (`OneStageOneOutcome`).
- **New work can look like a replay.** The comment at `internal/agentpull/broker.go:120-122` promises
  that after a restart of Core the agent never sees new work as a replay. `RestartLosesWork` is a
  run in which a request queued before the agent's next poll gets number one, reaches an agent whose
  cursor is one, and is thrown away. `TakenForReplayIff`: over every run the agent takes work
  for a replay if and only if its number is at or below the cursor the agent held when Core
  started. `NumberedLowIff`: work is numbered that low if and only if it is queued before any poll
  was served and fewer requests were queued before it than that cursor says. Such work is then
  never executed (`BelowCursorNeverRuns`).
- **"Only the exact argv shapes" (`internal/agentcontrol/resources.go:198-199`) is not so.** Leading
  zeros, reordered or repeated options and a subnet without `--ingress` are accepted and
  normalised away; `RendersBackIff` gives the condition on the words; `DropsSubnet`,
  `DropsLeadingZeros` and `ForgetsOrder` give inputs.
- **A failed refresh keeps the last good sample once.** A second failure in a row drops it, against
  the comment at `api/http/machine_metrics.go:100-102`; `SecondFailureDropsSample`,
  `GoodSampleSurvivesIff`.
- **A query can resolve to more than 1500 points.** The bound is 1650, and 1652 when the
  requested step overflows a duration; both are reached (`BoundsAreTight`), and
  `WithinDocumentedLimitIff` says when 1500 holds. With such an overflow a second normalisation
  may also change the step (`OverflowingStepDoesNotSettle`); `StepSettlesIff` and `NormalIsStableIff`
  say exactly when, on the window and the step asked for.
- **The truncation flag is also raised when nothing was cut**, at exactly 400 valid containers
  (`FullDocumentIsFlagged`); `FlagMeansCutIff` says it tells the truth for every other number.
- **The cap keeps the first containers, not the busiest** as the comment at
  `internal/agentcontrol/metrics.go:25-26` has it: `CapKeepsBusiestIff` shows that it keeps the busiest
  whatever the loads if and only if there is nothing to cut.
- **An alias that Docker already reports with surrounding blanks does not survive a binding as
  written** (`BlankAliasIsLost`, `AliasStaysIff`). Aliases SwarmOps itself binds match a pattern
  without blanks (`internal/agentcontrol/routing.go:231`) and all survive (`BoundAliasStays`).

## What is assumed

- Request ids are unique. In the rendezvous runs the 64-bit sequence counter does not wrap;
  `EnqueueIsNewestIff` says what happens when it does. Sections under a mutex are single steps.
- An agent runs one poll loop; any number of its earlier polls may still be open in Core. Every
  message may be lost or delayed. Core's clock never goes back and may move during a pass, which
  reads it once per request; the agent's clock is unrelated to it.
- Sanitising is a function of document and time: sorting settles ties in some way of its own, about
  which nothing is assumed. The zero time is 0.
- A Go string is a byte sequence; in `Command` every character stands for one byte. In
  `MetricsDocument` lower-casing is that of ASCII, which decides the same container ids.
- Docker applies a service update as: detach the named network, attach it with the aliases asked
  for. A network's name and its id are one identifier here; where a service lists a network twice,
  its aliases there are those of the first entry.
- The default step, a floating-point division in the code, is an integer division here; on
  windows of up to seven days both give the same whole seconds.

## Model

| member | source | states |
|---|---|---|
| `BrokerObjects.SortedWaiting` | internal/agentpull/broker.go:18-29 | the unanswered requests come out in sequence order, each once, none missing |
| `BrokerObjects.AgentQueue.RedeliverLost` | internal/agentpull/broker.go:126-144 | if some lost request is in time the oldest one is handed out again and only late ones older than it fail; otherwise every lost request fails |
| `BrokerObjects.AgentQueue.TakeQueued` | internal/agentpull/broker.go:145-157 | the late prefix of the queue fails and the first request in time is handed out |
| `BrokerObjects.AgentQueue.Pass` | internal/agentpull/broker.go:114-159 | one locked pass of the poll loop computes the specified state and hand-out, and keeps the structural invariant |
| `BrokerObjects.AgentQueue.Respond` | internal/agentpull/broker.go:176-188 | an answer is taken if and only if its id is unanswered under its sequence; the caller is then sent that very answer, the id is no longer waited for, and the cursor advances |
| `BrokerObjects.AgentQueue.Enqueue` | internal/agentpull/broker.go:224-242 | the request is queued under the next sequence with wrap-around and pollers are woken; the invariant survives while the counter has room |
| `BrokerObjects.AgentQueue.Remove` | internal/agentpull/broker.go:255-269 | a request its caller gave up leaves both the waiting map and the queue, and nothing else changes |
| `BrokerObjects.Broker.Poll` | internal/agentpull/broker.go:98-166 | a poll is served if and only if the id is not blank, the protocol is 1 and the agent's epoch is 0 or Core's; a lower epoch is stale and everything else is rejected, and no refusal touches any state; other agents are untouched |
| `BrokerObjects.Broker.Respond` | internal/agentpull/broker.go:168-189 | an answer is taken if and only if its agent is identified, its status is 100 to 599, its body within four megabytes, and id and sequence match; the caller gets it and other agents are untouched |
| `BrokerObjects.Broker.Enqueue` | internal/agentpull/broker.go:200-253 | oversized bodies are refused; the lease ends at the caller's deadline or after the default lease, whichever is sooner; other agents are untouched |
| `BrokerObjects.Broker.StateLocked` | internal/agentpull/broker.go:191-198 | an agent's queue is found or freshly created empty, and no other agent's is replaced |
| `BrokerAdmission.AdmissionAgrees` | internal/agentpull/broker.go:98-113 | the object's verdict on an identified agent of protocol 1 is the state machine's: let in, stale, or rejected |
| `BrokerAdmission.StrangersAreRejected` | internal/agentpull/broker.go:99-104 | whoever is not identified or speaks another protocol is rejected at every epoch |
| `BrokerSafety.PassKeepsWf` | internal/agentpull/broker.go:114-159 | after any pass ids, sequences and epochs stay ordered together and everything handed out lies below everything queued |
| `BrokerSafety.PassKeepsSettled` | internal/agentpull/broker.go:114-159 | no pass gives a request a second outcome or leaves an answered one in the queue |
| `BrokerSafety.RespondKeepsSettledIff` | internal/agentpull/broker.go:168-189 | an accepted answer keeps the one-outcome rule if and only if its request had been handed out |
| `BrokerSafety.EarlyAnswerSendsTwice` | internal/agentpull/broker.go:168-189 | a concrete answer to a request still in the queue that ends in two outcomes |
| `BrokerSafety.ExactlyOneStage` | internal/agentpull/broker.go:131-157 | every request is in exactly one of queued, in flight, answered, expired and cancelled |
| `BrokerSafety.WaitingIsPartitioned` | internal/agentpull/broker.go:224-269 | the queue and the requests in flight are disjoint and together are the waiting map |
| `BrokerSafety.PassServesOldest` | internal/agentpull/broker.go:114-157 | a pass hands out the smallest-sequence eligible request, and nothing only when none is eligible |
| `BrokerSafety.PassMarksOnlyTheHanded` | internal/agentpull/broker.go:114-159 | a pass marks the one request it hands out, and raises cursor and counter to at least the polled cursor |
| `BrokerSafety.SecondHandOutIsUnacknowledged` | internal/agentpull/broker.go:126-144 | a request handed out before is handed out again only if never redelivered, above the polled cursor and within its lease |
| `BrokerSafety.FirstHandOutIsNewest` | internal/agentpull/broker.go:145-157 | a first hand-out has a larger sequence than anything handed out before |
| `BrokerSafety.EmptyPassDrains` | internal/agentpull/broker.go:158-164 | a pass that finds nothing leaves the queue empty and no delivery lost |
| `BrokerSafety.EnqueueIsNewestIff` | internal/agentpull/broker.go:224-238 | a new request is numbered above the cursor and every earlier request if and only if the counter does not wrap |
| `AuthorityEpoch.SetsEndAtMaximum` | internal/agentpull/broker.go:82-91 | in every interleaving of concurrent sets the epoch never goes back and ends at the maximum of all of them |
| `AuthorityEpoch.SwapFailsOnlyAfterARaise` | internal/agentpull/broker.go:82-91 | a compare-and-swap fails only when another setter has raised the epoch meanwhile, so the loop makes progress |
| `RendezvousSafety.StepKeepsInv` | internal/agentpull/broker.go:98-269 | every step of broker, network and agent keeps the invariant that ties queue, hand-outs, polls, executions and wake channel together |
| `RendezvousSafety.RunKeepsInv` | internal/agentpull/client.go:118-180 | so does every run |
| `RendezvousTheorems.HandedAtMostTwice` | internal/agentpull/broker.go:98-189 | in every lossy run a request is handed out at most twice, the second time as a redelivery, and first hand-outs are strictly increasing |
| `RendezvousTheorems.RanAtMostTwice` | internal/agentpull/client.go:118-180 | no request is executed three times in any run |
| `RendezvousTheorems.SaveFirstRunsOnce` | internal/agentpull/broker.go:126-130 | if the agent saves its cursor before it executes, no request is executed twice in any run |
| `RendezvousTheorems.LostResponseRunsTwice` | internal/agentpull/client.go:166-180 | a concrete run of the agent as it is in which one request is executed twice |
| `RendezvousTheorems.RunsAgainIff` | internal/agentpull/client.go:118-180 | an executed request can be executed again in some continuation if and only if it is replayable: unanswered, within its lease by Core's clock, not yet redelivered, above the agent's cursor, and of the authority both sides hold |
| `RendezvousTheorems.SpentNeverRunsAgain` | internal/agentpull/broker.go:120-144 | a request past that point is executed in no continuation whatever |
| `RendezvousTheorems.NoLostWakeUp` | internal/agentpull/broker.go:145-164 | a poll asleep on the current wake channel has nothing it could be served, in every interleaving |
| `RendezvousTheorems.OneStageOneOutcome` | internal/agentpull/broker.go:131-189 | in every run each request is in exactly one stage and has at most one outcome, so the capacity-one channel never blocks |
| `RendezvousTheorems.RunAdvances` | internal/agentpull/broker.go:98-269 | over any run requests are never altered, never become unanswered again, and new ones are numbered above all numbers used before |
| `RendezvousOutcomes.AcceptedReachesCaller` | internal/agentpull/broker.go:168-189 | in every run, a response Core accepted is the one and only outcome of the request it answers |
| `RendezvousOutcomes.OutcomesAreEarned` | internal/agentpull/broker.go:131-189 | conversely every answer among the outcomes is a response the agent posted to that request and Core accepted, and every deadline error came after the lease by Core's clock |
| `RendezvousOutcomes.OnlyPassesTimeOut` | internal/agentpull/broker.go:131-157 | a deadline error is added only by a pass whose clock read past that request's lease |
| `RendezvousOutcomes.CancelledIsForgotten` | internal/agentpull/broker.go:252-269 | a request its caller gave up, queued or in flight, is never handed out and sent no outcome in any continuation |
| `RendezvousOutcomes.OverStaysOver` | internal/agentpull/broker.go:114-189 | a request that is no longer waited for keeps exactly the outcomes it has |
| `RendezvousOutcomes.RequestsAreAsQueued` | internal/agentpull/broker.go:224-242 | in every run each request carries the call, the time and the lease with which it was queued |
| `RendezvousOutcomes.WorkIsAsQueued` | internal/agentpull/broker.go:126-157 | and work on its way to an agent is such a request, unchanged |
| `RendezvousOutcomes.HandedInTime` | internal/agentpull/broker.go:126-157 | a pass hands out only what its clock reads as within the lease |
| `RendezvousOutcomes.ExecutesIff` | internal/agentpull/client.go:154-186 | the agent executes a reply if and only if it is work of no older authority than its own, above its cursor and in time by its own clock |
| `RendezvousNumbering.TakenForReplayIff` | internal/agentpull/broker.go:120-125 | over every run, the work in the agent's current reply is at or below its cursor if and only if it is at or below the cursor it held when Core started |
| `RendezvousNumbering.NumberedLowIff` | internal/agentpull/broker.go:224-238 | work is numbered at or below that first cursor if and only if no poll had been served and fewer requests had been queued than the cursor says |
| `RendezvousNumbering.RestartLosesWork` | internal/agentpull/broker.go:145-157 | a concrete run after a restart in which a request reaches the agent and is thrown away as a replay |
| `RendezvousNumbering.StepKeepsLow` | internal/agentpull/broker.go:114-157 | every step keeps the invariant behind this: the cursor is the first one or the number of delivered work, and waiting work is above it or below the first |
| `RendezvousNumbering.LaterWorkIsAboveCursor` | internal/agentpull/broker.go:114-125 | work queued after a poll was served, however much later, is numbered above the cursor that poll came with |
| `RendezvousNumbering.BelowCursorNeverRuns` | internal/agentpull/client.go:163-165 | work at or below the agent's durable cursor is executed in no continuation |
| `CommandParser.ParseNetworkOptions` | internal/agentcontrol/resources.go:231-264 | the index loop over the network options computes the recursive reading of them, errors included |
| `CommandParser.ParseStackOptions` | internal/agentcontrol/command.go:228-265 | so does the loop over the stack options |
| `CommandRoundTrip.RoundTrip` | internal/agentcontrol/command.go:141-360 | for all thirty-eight operations, rendering a valid request and parsing argv and stdin gives it back with unused fields zeroed, whichever dispatcher claims it |
| `CommandNormalForm.RelevantRendersSame` | internal/agentcontrol/resources.go:55-196 | fields an operation does not use have no influence on what is rendered |
| `CommandNormalForm.ParseKeepsInput` | internal/agentcontrol/command.go:141-171 | the stdin of any accepted command is what rendering the parsed request gives back |
| `CommandNormalForm.NormalForm` | internal/agentcontrol/resources.go:200-324 | parse-then-render settles after one application and keeps stdin |
| `CommandNormalForm.RenderingIsInjective` | internal/agentcontrol/command.go:270-360 | requests that render alike have the same operation and the same relevant fields |
| `CommandNormalForm.RendersBackIff` | internal/agentcontrol/resources.go:198-324 | an accepted argv with a valid request renders back to itself if and only if its words are canonical: no leading zeros, options in order and not repeated, addresses exactly for the ingress |
| `CommandNormalForm.DropsSubnet` | internal/agentcontrol/resources.go:231-264 | a concrete accepted argv that loses its subnet |
| `CommandNormalForm.DropsLeadingZeros` | internal/agentcontrol/command.go:183-211 | a concrete accepted scale command that comes back without its leading zeros |
| `CommandNormalForm.ForgetsOrder` | internal/agentcontrol/resources.go:231-264 | a concrete accepted network command whose options come back in another order |
| `CommandWords.NoFieldIsAnOption` | internal/agentcontrol/command.go:270-360 | for all thirty-eight operations no word of a rendered command is empty, and a word that begins with a dash is one of 27 fixed options |
| `CommandAcceptance.ObjectsAccepted` | internal/agentcontrol/command.go:277-286 | starting, stopping, restarting, rolling back and removing an object are accepted if and only if its id is 1 to 128 letters, digits and `._:-`, the first a letter or digit |
| `CommandAcceptance.NodesAccepted` | internal/agentcontrol/resources.go:57-71 | availability is active, pause or drain; a role is promote or demote; label keys and values are names of 63 and 128 characters; each if and only if |
| `CommandAcceptance.CountsAccepted` | internal/agentcontrol/command.go:287-296 | replicas are accepted up to 1000, a log tail and a task history from 1 to 1000, a token for worker or manager, and nothing else |
| `CommandAcceptance.ImagesAccepted` | internal/agentcontrol/resources.go:151-160 | an image is accepted if and only if it is a repository path of small segments, then perhaps a tag and a sha256 digest |
| `CommandAcceptance.LimitsAccepted` | internal/agentcontrol/resources.go:82-86 | CPU limits are accepted below a hundred with up to three decimals, memory limits from 1 to 999999 megabytes or gigabytes |
| `CommandAcceptance.StacksAccepted` | internal/agentcontrol/command.go:297-319 | stack operations are accepted if and only if the name is a stack name and the document is neither empty nor too long |
| `CommandAcceptance.NamesAccepted` | internal/agentcontrol/resources.go:127-150 | named resources are accepted if and only if the name is 1 to 63 letters, digits and `_.-`, the first a letter or digit |
| `CommandAcceptance.NetworksAccepted` | internal/agentcontrol/resources.go:92-126 | a network is accepted if and only if its driver is overlay or bridge, encryption goes with overlay, and an ingress is the plain overlay of that name with a valid block and gateway |
| `CommandAcceptance.SecretsAccepted` | internal/agentcontrol/command.go:320-330 | a secret is created if and only if its name spells one of the four managed shapes and its value is a login for the dashboard or 16 to 512 plain characters otherwise |
| `CommandAcceptance.RemovalsAccepted` | internal/agentcontrol/command.go:333-337 | a secret is removed if and only if it is a versioned DNS secret of one of two providers |
| `CommandAcceptance.ConfigsAccepted` | internal/agentcontrol/command.go:338-342 | a config is created if and only if its name spells one of the managed shapes and its text is neither empty, too long, nor holds a zero byte |
| `CommandAcceptance.OthersAccepted` | internal/agentcontrol/resources.go:132-196 | listings and prunes are always accepted, and an operation outside the vocabulary never |
| `CommandPatterns.ImageIff` | internal/agentcontrol/resources.go:45 | the image pattern, greedy groups and all, accepts exactly the references put together from their parts |
| `CommandPatterns.SecretNameIff` | internal/agentcontrol/command.go:94 | the secret pattern accepts exactly the names put together from prefix, middle and a positive version |
| `CommandPatterns.CpuLimitIff` | internal/agentcontrol/resources.go:48 | the CPU pattern accepts exactly the printed numbers below a hundred, with up to three decimals |
| `CommandPatterns.MemoryLimitIff` | internal/agentcontrol/resources.go:49 | the memory pattern accepts exactly the printed numbers from 1 to 999999 with their unit |
| `CommandFields.BeginsWithItsCommand` | internal/agentcontrol/command.go:270-360 | every rendered request begins with the two words of its own operation |
| `CommandFields.InputIsTheDocument` | internal/agentcontrol/command.go:297-344 | standard input is the compose file, the secret or the config of the operation that takes one, and empty for all others |
| `CommandFields.NodeOptionsCarry` | internal/agentcontrol/resources.go:57-76 | availability, label key and value stand behind their own options, and the node comes last |
| `CommandFields.ServiceOptionsCarry` | internal/agentcontrol/resources.go:77-91 | image, CPU, memory, tail and count each stand behind their own option, and the service comes last |
| `CommandFields.NamesAreLast` | internal/agentcontrol/resources.go:127-188 | a named resource, an image or a role is the last word |
| `CommandFields.StackOptionsCarry` | internal/agentcontrol/command.go:303-319 | the two deploy options are given if and only if asked for, and the document is read from standard input |
| `CommandFields.NetworkOptionsCarry` | internal/agentcontrol/resources.go:92-126 | driver and name are in their places and each flag is given if and only if asked for |
| `CommandFields.IngressOptionsCarry` | internal/agentcontrol/resources.go:92-126 | subnet and gateway of an ingress stand behind their own options |
| `CommandFields.ResourceOptionsCarry` | internal/agentcontrol/resources.go:134-196 | a volume is local, a prune takes all images if and only if asked to, and the history limit stands behind its option |
| `CommandFields.QuestionsAreAnswered` | internal/agentcontrol/resources.go:72-180 | removals, prunes and restarts carry `--force` as their first option |
| `CommandFields.OutputsArePlain` | internal/agentcontrol/command.go:292-344 | logs are asked for raw and dated, listings as bare names, a token alone, and a deployment is waited for |
| `Addressing.ValidIngressIff` | internal/agentcontrol/resources.go:330-352 | the ingress check accepts exactly the aligned IPv4 blocks from /16 to /28 with a gateway inside them above the network address |
| `Addressing.QuadReadsBack` | internal/agentcontrol/resources.go:330-352 | printing an IPv4 address and reading it gives the address back |
| `Addressing.QuadPrintsBack` | internal/agentcontrol/resources.go:330-352 | whatever reads as an IPv4 address is the printed form of that address |
| `MetricsCache.MachineMetricsCache.Look` | api/http/machine_metrics.go:73-92 | the sample is returned if and only if it is less than ten seconds old, a fetch is begun if and only if it is not and none is in flight, and otherwise the one in flight is joined |
| `MetricsCache.MachineMetricsCache.Store` | api/http/machine_metrics.go:93-118 | a finished fetch replaces the sample or, on failure, keeps the previous good one with its own time, and ends the flight |
| `MetricsCache.MachineMetricsCache.Drop` | api/http/machine_metrics.go:120-124 | the object's forget is the value's: the machine's sample goes, fetches in flight stay |
| `MetricsCache.GoodSampleSurvivesIff` | api/http/machine_metrics.go:99-111 | a good sample survives a series of failed refreshes if and only if there is at most one |
| `MetricsCache.FailedStaysEmpty` | api/http/machine_metrics.go:103-108 | after a further failure the sample is empty and dated to the last failure |
| `MetricsCache.SecondFailureDropsSample` | api/http/machine_metrics.go:99-108 | a concrete sample that survives one failure and is gone after the second |
| `MetricsCacheRuns.SingleFlight` | api/http/machine_metrics.go:73-118 | in every interleaving no two running fetches are for the same machine |
| `MetricsCacheRuns.WaiterIsServed` | api/http/machine_metrics.go:82-92 | what a waiter waits for is closed or owned by a fetch that has not finished, and no channel is closed twice |
| `MetricsCacheRuns.ServedIsGenuine` | api/http/machine_metrics.go:144-157 | every successful reply is the sanitised form of the document a successful fetch of that very machine brought, sanitised and dated when that fetch completed, at most two minutes before the reply |
| `MetricsCacheRuns.FetchTimesNeverGoBack` | api/http/machine_metrics.go:93-124 | from any moment of any run, until the machine is forgotten, its sample stays and its time never goes back |
| `MetricsCacheRuns.StepKeepsSamples` | api/http/machine_metrics.go:73-124 | every step keeps each stored sample, each reply and each finished fetch tied to the fetch it came from |
| `MetricsCacheRuns.LookIff` | api/http/machine_metrics.go:73-92 | what a caller gets without fetching is less than ten seconds old at the time it carries; it fetches if and only if there is no such sample and nobody is fetching, and waits for whoever is otherwise |
| `MetricsCacheRuns.FetchesAreApart` | api/http/machine_metrics.go:73-112 | over every run, a fetch that starts after one of that machine succeeded starts at least ten seconds later, unless the machine was forgotten in between |
| `MetricsCacheRuns.ForgottenIsMeasuredAnew` | api/http/machine_metrics.go:120-124 | after a forget nobody is given a sample of that machine until a fetch of it has been stored |
| `MetricsCacheRuns.ReplyIff` | api/http/machine_metrics.go:144-157 | an endpoint refuses exactly failures that were never measured and samples fetched more than two minutes ago |
| `MetricStep.StepIsInRange` | internal/agentcontrol/metrics_query.go:184-202 | the normalised step is 5 to 3600 seconds for every window and every requested step |
| `MetricStep.PointsAreBounded` | internal/agentcontrol/metrics_query.go:184-202 | a query resolves to at most 1650 points, or 1652 if the requested step overflows |
| `MetricStep.BoundsAreTight` | internal/agentcontrol/metrics_query.go:184-202 | both bounds are reached |
| `MetricStep.WithinDocumentedLimitIff` | internal/agentcontrol/metrics_query.go:24-34 | the documented 1500 holds if and only if the limited step is not rounded down too far for its window, for every step asked for; without overflow only a widened step can be |
| `MetricStep.StepSettlesIff` | internal/agentcontrol/metrics_query.go:184-202 | a second normalisation leaves the step alone if and only if the step asked for, as clamped, is not rounded past the limit of its window; overflow included |
| `MetricStep.StepSettles` | internal/agentcontrol/metrics_query.go:184-202 | without overflow it always does |
| `MetricStep.OverflowingStepDoesNotSettle` | internal/agentcontrol/metrics_query.go:184-202 | a concrete overflowing step that changes a second time |
| `MetricStep.DefaultStep` | internal/agentcontrol/metrics_query.go:184-187 | a query without a step gets the most whole seconds that leave 240 intervals, and five seconds for windows under twenty minutes |
| `MetricStep.AskedStepIsKept` | internal/agentcontrol/metrics_query.go:184-202 | a step of 5 to 3600 seconds that stays within the limit on points is the step |
| `MetricQuery.MetricQuery.Normalize` | internal/agentcontrol/metrics_query.go:155-217 | the in-place rewriting succeeds if and only if the query is admitted, which `AdmittedIff` spells out, and leaves the normal form, which `NormalFields` and the step lemmas spell out |
| `MetricQuery.MetricQuery.Expression` | internal/agentcontrol/metrics_query.go:239-265 | the loop that fills the template gives the expression, which `ExpressionIs` spells out, or the refusal |
| `MetricQueryTheorems.NormalIsStableIff` | internal/agentcontrol/metrics_query.go:155-217 | an admitted query is admitted again at any later time, and comes out unchanged if and only if its step is not rounded past the limit |
| `MetricQueryTheorems.NormalIsStable` | internal/agentcontrol/metrics_query.go:155-217 | so it comes out unchanged whenever the step asked for does not overflow |
| `MetricQueryTheorems.NormalIsBounded` | internal/agentcontrol/metrics_query.go:170-202 | an admitted query spans at most seven days in steps of 5 to 3600 seconds and at most 1650 points, 1652 if the step asked for overflows |
| `MetricQueryTheorems.NormalHasExpression` | internal/agentcontrol/metrics_query.go:239-265 | an admitted query always has an expression |
| `MetricQueryTheorems.ExpressionNamesItsObjects` | internal/agentcontrol/metrics_query.go:219-265 | in any well-formed table, two queries of one series with the same expression agree on every selector; for the shipped table `SameExpressionIff` says it of the fields |
| `MetricQueryTheorems.TableIsWellFormed` | internal/agentcontrol/metrics_query.go:104-149 | every template of the table has one placeholder per selector |
| `MetricReadings.AdmittedIff` | internal/agentcontrol/metrics_query.go:155-217 | a query is admitted if and only if its trimmed scope and series are in the shipped table, its window runs forward for at most seven days, and exactly the fields its scope reads are names of up to 128 characters |
| `MetricReadings.NormalFields` | internal/agentcontrol/metrics_query.go:155-217 | the window ends now and begins six hours earlier unless asked otherwise, and every text field is its own trimmed value |
| `MetricReadings.ExpressionIs` | internal/agentcontrol/metrics_query.go:219-265 | the expression of an admitted query is its template with the quoted machine behind `machine=`, the container behind `container=`, the application and `@.*` behind `service=~` |
| `MetricReadings.SameExpressionIff` | internal/agentcontrol/metrics_query.go:219-265 | two admitted queries of one series have the same expression if and only if they read the same machine, container or application |
| `MetricsDocument.CleanContainerTwice` | internal/agentcontrol/metrics.go:176-201 | cleaning a container record that passed changes nothing |
| `Sanitize.SanitizeSlice` | internal/agentcontrol/metrics.go:214-231 | the filter that overwrites its own input equals: clean each element, keep the valid ones in order, take the first limit |
| `Sanitize.MachineMetrics.Sanitize` | internal/agentcontrol/metrics.go:147-206 | one pass bounds every field, filters every list, flags truncation and sorts the containers by name without losing any |
| `Sanitize.FilterSettles` | internal/agentcontrol/metrics.go:214-231 | a filtered list passes its own filter whole |
| `Sanitize.FlagIff` | internal/agentcontrol/metrics.go:202-204 | the flag is raised if and only if it was set or at least 400 valid containers arrived; a container dropped by the cap implies it |
| `Sanitize.SanitizedExists` | internal/agentcontrol/metrics.go:147-206 | every document has a sanitised form, so what is said of all of them is said of something |
| `MetricsCap.FlagMeansCutIff` | internal/agentcontrol/metrics.go:202-204 | the flag agrees with whether a valid container was cut if and only if their number is not exactly 400 |
| `MetricsCap.FullDocumentIsFlagged` | internal/agentcontrol/metrics.go:202-204 | a concrete document of 400 containers that loses none and is flagged |
| `MetricsCap.CapKeepsBusiestIff` | internal/agentcontrol/metrics.go:25-27 | the cap keeps the busiest containers under all loads if and only if it has nothing to cut |
| `Sanitize.SanitizeSettles` | internal/agentcontrol/metrics.go:147-206 | sanitising again later changes nothing but the order among containers of one name |
| `Sanitize.DistinctNamesSettle` | internal/agentcontrol/metrics.go:205-206 | with distinct names it changes nothing at all |
| `Sanitize.HasATime` | internal/agentcontrol/metrics.go:148-151 | a sanitised sample has a collection time no later than a minute from now |
| `SanitizedFields.CleanContainerIff` | internal/agentcontrol/metrics.go:176-201 | a container stays if and only if it has 12 to 64 hexadecimal digits and a name; it keeps the first twelve digits in small letters, the name without one leading slash, each legible field, and numbers moved to the nearest allowed one |
| `SanitizedFields.CleanFilesystemIff` | internal/agentcontrol/metrics.go:161-166 | a filesystem stays if and only if its mount is an absolute path of at most 256 characters |
| `SanitizedFields.CleanHostIs` | internal/agentcontrol/metrics.go:153-159 | every ratio and load becomes the nearest allowed number, and a ratio that is negative or no number becomes -1 |
| `SanitizedFields.PathIff` | internal/agentcontrol/metrics.go:39 | the path pattern accepts exactly the root and segments each behind one slash |
| `SanitizedFields.FilterPicks` | internal/agentcontrol/metrics.go:214-231 | filtering keeps the first valid elements, cleaned and in order, and leaves none out before the limit is reached |
| `SanitizedFields.DocumentIs` | internal/agentcontrol/metrics.go:147-175 | of a document the first 64 valid filesystems, 32 interfaces and 32 disks stay, and its time unless it is missing or over a minute ahead |
| `SanitizedFields.ContainersAre` | internal/agentcontrol/metrics.go:176-206 | the first 400 valid containers stay, in whatever order, and the flag is raised if and only if it was or there are that many |
| `Text.TrimIs` | internal/agentcontrol/metrics.go:233-239 | trimming takes away white space at both ends and nothing else |
| `Text.TrimIsUnique` | internal/agentcontrol/metrics.go:233-239 | and all of it |
| `Ordering.SortsAgree` | internal/agentcontrol/metrics.go:205 | however ties fall, sorting the same records by name gives the same list of names |
| `WorkerPool.StepKeepsOk` | internal/agent/metrics.go:202-222 | every step of dispatcher, worker or deadline keeps jobs in order, slots faithful, and each job with one worker |
| `WorkerPool.Compact` | internal/agent/metrics.go:225-231 | the in-place compaction keeps exactly the measured slots, in order |
| `WorkerPool.ResultIsASubsequence` | internal/agent/metrics.go:191-232 | for every schedule no container is handed over twice and the result is the readings of a subsequence of the capped listing, in listing order |
| `WorkerPool.UncancelledIsSequential` | internal/agent/metrics.go:191-232 | without cancellation the result is that of a plain loop: measure each, drop those without an id |
| `WorkerPool.NeverStalls` | internal/agent/metrics.go:207-223 | until finished some worker or the dispatcher can move, and no schedule is longer than two steps per container and one |
| `NetworkAliases.SortedUniqueStrings` | internal/agent/routing.go:291-304 | the result is the sorted list, without repeats, of the trimmed non-blank inputs |
| `NetworkAliases.CanonicalIsUnique` | internal/agent/routing.go:291-304 | that list is determined by the set of names alone |
| `NetworkAliases.Service.Bind` | internal/agent/routing.go:306-341 | the loop finds the attachment and leaves the networks as specified, asking Docker only when it must |
| `NetworkAliases.BindAddsOneName` | internal/agent/routing.go:327-333 | binding adds its own name to the network and neither loses nor invents another |
| `NetworkAliases.BindLeavesOthers` | internal/agent/routing.go:306-341 | binding leaves every other network's attachment as it was |
| `NetworkAliases.AliasStaysIff` | internal/agent/routing.go:315-333 | an attached alias stays as written if and only if nothing is asked of Docker or it is free of surrounding blanks |
| `NetworkAliases.BlankAliasIsLost` | internal/agent/routing.go:327-331 | a concrete attachment whose blank-led alias a binding trims away |
| `NetworkAliases.BindTwiceIsOnce` | internal/agent/routing.go:311-317 | repeating a binding changes nothing, and asks Docker again only for an alias with surrounding blanks that had to replace an attachment |
| `NetworkAliases.RunKeepsNames` | internal/agent/routing.go:306-341 | over any run of bindings the names on a network are those it had and those bound there |
| `NetworkAliases.BoundAliasStays` | internal/agent/routing.go:321-327 | every alias bound along the way is attached at the end |
| `Enrollment.Exchanger.Exchange` | internal/agent/enroll.go:43-62 | the exchange computes the specified window and verdict; when it closes, the secret's bytes are overwritten and its file is removed if it can be |
| `Enrollment.Exchanger.Burn` | internal/agent/enroll.go:63-73 | every byte is zeroed before the secret is let go, and the file is removed if there is one and it can be |
| `Enrollment.NewEnrollment` | internal/agent/enroll.go:30-38 | an error if and only if the secret has 1 to 15 bytes, a window if and only if it has 16 or more, open on a private copy with no guess counted |
| `Enrollment.Exchanger.Available` | internal/agent/enroll.go:75-82 | the window is reported open exactly while it is unspent |
| `Enrollment.WindowTellsTheCalls` | internal/agent/enroll.go:43-74 | the window is spent if and only if the secret was presented or ten wrong guesses were made, and then holds no secret |
| `Enrollment.SucceedsIff` | internal/agent/enroll.go:43-62 | a call succeeds if and only if it presents the secret, no earlier call did, and fewer than ten wrong non-empty guesses came before |
| `Enrollment.AtMostOneSucceeds` | internal/agent/enroll.go:40-62 | over any sequence of calls one succeeds at most |
| `Enrollment.SpentStaysSpent` | internal/agent/enroll.go:63-82 | once spent, no later call changes or opens the window |
| `UpdateBusy.Marker.Enter` | internal/agent/diagnostics.go:201-213 | entering follows the counted form of the protocol, and keeps the marker present exactly while the count is positive |
| `UpdateBusy.Marker.Release` | internal/agent/diagnostics.go:214-225 | so does releasing |
| `UpdateBusy.MarkerIff` | internal/agent/server.go:126-130 | in every interleaving the marker exists if and only if the agent updates itself, the marker's path is usable, and a POST other than an update is executing |

## Left out

- HTTP routing, authentication, cookies, TLS, JSON encoding, header filtering and request-path validation.
- Core's queue and topology packages, cloud provisioning, the web console, warden and shell scripts.
- The Prometheus exposition text and the derivation of an application from a stack name.
- Reading /proc, Docker statistics, filesystem inventory and CPU ratios: readings are parameters here.
- Execution of Docker, systemctl and package tools: effects are parameters or assumed, as said above.
- Routing reconciliation apart from network bindings, and the ownership of Traefik labels.
- DockerArgs: its refusals are one outcome; the wording of each is not modelled.
- BrokerObjects.Broker.Poll: one admission and one pass; going to sleep, waking up and giving up are steps of `Rendezvous`.
- BrokerObjects.Broker.Enqueue: does not model reading the body, the path check and the random id, which are its inputs or precede it; waiting for the outcome is in `Rendezvous`.
- Sanitize.MachineMetrics.Sanitize: the document's lists are values, so what a slice that shared their arrays would see is captured by `SanitizeSlice` only; what a rejected element is changed to before it is dropped is not modelled.
- Enrollment.Exchanger.Exchange: that calling it on no enrollment at all is refused is not a member of its own.
- UpdateBusy.Marker.Enter: file operations succeed, and how the marker is written is not modelled.
- MetricQuery.MetricQuery.Expression: quoting is the plain one, since selector values admit no character that needs an escape.

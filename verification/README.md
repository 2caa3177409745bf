# Verification of the Cloud Run virtual-kubelet provider

This project models the pod tracker and the Cloud Run provider of vk-cloud-run and proves what they
do over whole runs: which pods are asked about and published, when a pod's status is frozen, which
events are recorded, which services cleanup deletes, and what the provider's bookkeeping, service
translation, stats and metrics contain.

Check everything with `dafny verify dfyconfig.toml` (Dafny 4.11).

## How it is laid out

| file | contents |
|---|---|
| `Sequences.dfy` | facts about sequences and sets |
| `Kube.dfy` | Kubernetes values, and `Pod`, the heap object with its own buffer of container statuses |
| `TrackerSpec.dfy` | one call, one status pass and one cleanup pass as functions of values |
| `TrackingLoop.dfy` | the two timers of the tracking loop |
| `PodsTracker.dfy` | the tracker object, method by method, proved against those functions |
| `EventLaws.dfy`, `PassLaws.dfy` | what a call records; what a status pass asks and publishes and a cleanup pass calls |
| `LoopLaws.dfy` | the turns of the tracking loop and what a run of them comes to |
| `CloudRun.dfy`, `ServiceTranslation.dfy`, `PodKeys.dfy`, `Stats.dfy`, `Metrics.dfy` | the provider's functions and their laws |
| `CloudRunProvider.dfy` | the client and provider objects, proved against those functions |
| `World.dfy` | tracker, provider, Cloud Run and environment as one state machine |
| `RunLaws.dfy`, `CleanupLaws.dfy`, `CrashLaws.dfy` | properties of every run of that machine |
| `Lagging.dfy` | passes over older listings, and runs in which publications are applied late |

## How it is modelled

- Handler answers, clock readings, the lister's list and the order in which a Go map is iterated are
  parameters, so every statement is for all of them. Random draws are arbitrary values of their range.
- The tracker object keeps a trace of everything it does to the outside: calls through the handler,
  recorded events, publications. The methods say exactly what they append to it. That a listed pod is
  never changed is their `modifies` clauses: they name fields of the tracker only.
- In `World`, a published status is applied to the pod of that namespace and name before the next
  step; in `Lagging` it waits, and may be applied at any time, in any order, or never. Between passes
  pods may arrive, vanish or be marked for deletion, services may change or vanish, and the provider's
  calls may happen in any order. A provider call writes the status of the object it is given; the flag
  `kept` says whether that object is the listed one or a private copy.
- The select of the tracking loop does not wait while a branch is ready. Which ready branch it takes, how
  long the work of a branch lasts and how late a timer fires after its interval are open.
- The client library returns a nil result with an error; the program then dereferences it. The model
  returns None (or false) there: creating a service whose name is taken, or reading a missing one.
- The loop variable of the inner metrics loop is shared by all iterations under the Go version of the
  module file, so the container label of every container of a pod reads as the last container's name.

## What turned out not to hold

- An event can be lost for good: the watermark is shared by all pods. `EventLaws.LosslessExactlyWhenFirstsAscend`
  says exactly when none is, counting an event as kept when an earlier call recorded it;
  `EventLaws.SharedWatermarkLosesEvents` gives a loss.
- The provider's record of its pods is exact for all random suffixes if and only if no two pods join to
  the same "namespace-name" string (`PodKeys.RecordIsExactIffUnambiguous`); "a-b"/"c" and "a"/"b-c" do.
- Cleanup can delete the service of a running pod, because deletion ignores the namespace.
  `CleanupLaws.CleanupIsSafeExactlyWhen` gives the condition, `CleanupLaws.TwoNamespacesCollide` a case.
- The provider never answers NotFound, so the tracker's rewrite of lost pods never happens with it
  (`RunLaws.CloudRunNeverLosesPods`), and after one refresh that rewrite would mark no container
  (`RunLaws.RefreshedPodsLoseNoContainers`).
- A status pass with the provider as handler dereferences nil when a listed live pod has no service. A
  run is free of this if and only if no pod is in that state when one of its passes starts
  (`CrashLaws.RunIsSafeExactlyWhenServicedAtPasses`), that is, if no step before the pass stranded a pod
  that no later one relieved (`CrashLaws.PassAfterRunCrashesExactlyWhen`); `CrashLaws.UnservicedAfterStep` says
  what each kind of step does. A pod is listed before it is created: a pass must not come in between
  (`CrashLaws.CreationMustPrecedeThePass`).
- A pass over an older listing revives a failed pod (`Lagging.StaleListingRevivesPods`). It leaves a terminal
  pod alone, whatever the answers, if and only if the listed version is skipped
  (`Lagging.StalePassSparesExactly`). When publications are applied late, terminal pods stay terminal if and
  only if what is still waiting for them is terminal (`Lagging.TerminalForeverExactlyWhen`).
- Cancelling the context does not by itself stop passes: one can start afterwards exactly when its timer has
  fired by the time the loop returns to the select (`TrackingLoop.LateExactlyWhenFired`). There is at most one
  while passes take less than five seconds (`TrackingLoop.ShortPassesOvertakeOnce`), and any number when they
  take long enough (`TrackingLoop.CancellationMayBeOvertaken`).
- Pods of one name in different namespaces report one and the same status (`RunLaws.PassMirrorsServices`).
- A memory limit below one mebibyte, or a missing one, becomes "0Mi" (`ServiceTranslation.SmallLimitsBecomeZero`).
- Container labels of metrics name the right container only in pods of one container
  (`Metrics.ContainerLabelsNameTheLast`).
- A pod's stats total is exact for all draws if and only if it has at most 2^32 + 1 containers
  (`Stats.TotalsAreExactIff`).

## Model

| member | source | states |
|---|---|---|
| RunLaws.SkippedPodsStaySkipped | src/internal/provider/cloudrun/podsTracker.go:105-224 | Over any run, with arbitrary answers and environment steps in between, a pod once completed, failed, provider-failed or terminating is never asked about or published again, keeps a terminal phase and, unless deleted, its whole status |
| RunLaws.DeletedPodsStayDeleted | src/internal/provider/cloudrun/cloudrun.go:282-304 | A pod the provider has deleted is never asked about or published again in any later run and stays terminal, and Succeeded unless deleted again |
| RunLaws.LostProviderBudget | src/internal/provider/cloudrun/podsTracker.go:185-211 | While the provider is lost, publications plus live running pods left never exceed live running pods at the start plus those that arrive live and running or are created in the cluster, over any run |
| RunLaws.LostPassDrains | src/internal/provider/cloudrun/podsTracker.go:105-120 | One pass over a lost provider publishes as many pods as were live and running, and leaves none |
| RunLaws.LostProviderFallsSilent | src/internal/provider/cloudrun/podsTracker.go:185-211 | After one such pass nothing is published by any run until a live running pod arrives or is created in the cluster |
| PassLaws.LostPassPublishesTheLive | src/internal/provider/cloudrun/podsTracker.go:105-120 | A pass over a lost provider publishes exactly the live running pods, once each, in listing order, as failed with reason NotFound |
| RunLaws.StatusFollowsObservations | src/internal/provider/cloudrun/podsTracker.go:174-183 | With observed services s1..sn the pod's status is the one for the first failed or else the last; nothing else of the pod changes; the provider is asked up to the first failure and never again |
| RunLaws.PhaseFollowsStates | src/internal/provider/cloudrun/cloudrun.go:794-836 | The phase is Failed iff some observed state was CONDITION_FAILED, else Pending iff the last state was CONDITION_RECONCILING or CONDITION_PENDING, else Running; non-empty conditions mean Running |
| RunLaws.FrozenPod | src/internal/provider/cloudrun/podsTracker.go:174-177 | A skipped pod that only passes could touch is unchanged by every run and never asked about |
| RunLaws.EventsAreRecordedAtMostOnce | src/internal/provider/cloudrun/podsTracker.go:157-172 | Over any run the watermark never goes back, and every timestamped event a call records is later than all recorded by earlier calls, for any pod |
| RunLaws.ContainerStatesStayExclusive | src/internal/provider/cloudrun/podsTracker.go:181-207 | If no container has two states to start with, none ever has, through passes, creations, deletions and lost pods |
| RunLaws.WritersAreExclusive | src/internal/provider/cloudrun/cloudrun.go:242-300 | Every status writer produces container statuses with at most one state |
| RunLaws.CloudRunNeverLosesPods | src/internal/provider/cloudrun/cloudrun.go:87-98 | With the provider as handler no run records an event, so the recorder left unset at start is never used, or publishes a pod with a reason or a container state |
| RunLaws.PassMirrorsServices | src/internal/provider/cloudrun/cloudrun.go:364-408 | After a pass every pod that is not skipped reports the service of its name; pods of one name in different namespaces report the same status |
| RunLaws.CreatedPodIsMirrored | src/internal/provider/cloudrun/cloudRunClient.go:107-174 | A pod created and then refreshed reports one status per spec container, same images, same order, no names or states |
| RunLaws.RefreshedPodsLoseNoContainers | src/internal/provider/cloudrun/cloudrun.go:383-393 | After a refresh the lost-pod rewrite changes no container status |
| RunLaws.ActivePodsAreTheAccepted | src/internal/provider/cloudrun/cloudrun.go:65-85 | Over any run the known identifiers are among those accepted by UpdatePod, and exactly those when no two join to one string |
| CrashLaws.RunIsSafeExactlyWhenServicedAtPasses | src/internal/provider/cloudrun/cloudrun.go:364-378 | No pass of a run reads a missing service iff at the start of each of its passes every live listed pod has a service, whatever holds in between |
| CrashLaws.PassAfterRunCrashesExactlyWhen | src/internal/provider/cloudrun/cloudRunClient.go:73-105 | A pass after any run reads a missing service iff some step of the run stranded a pod and no later step relieved it |
| CrashLaws.UnservicedAfterRun | src/internal/provider/cloudrun/cloudRunClient.go:73-105 | A pod is without a service after a run iff a step stranded it, or it was without one at the start, and no step relieved it since |
| CrashLaws.UnservicedAfterStep | src/internal/provider/cloudrun/cloudRunClient.go:73-174 | Exactly how each kind of step changes the set of live listed pods without a service |
| CrashLaws.StepIsSafeExactlyWhenNoneStranded | src/internal/provider/cloudrun/cloudRunClient.go:73-105 | A single step keeps every live listed pod serviced iff the pods it strands, known before the step, are none |
| CrashLaws.CleanupBalances | src/internal/provider/cloudrun/cloudrun.go:100-105 | Cleanup strands exactly the live listed pods that share their name with a known pod that is gone |
| CrashLaws.DeleteBalances | src/internal/provider/cloudrun/cloudrun.go:282-304 | A deletion strands exactly the live listed pods of that name other than the one it ends |
| CrashLaws.CreateBalances | src/internal/provider/cloudrun/cloudrun.go:204-258 | A creation relieves exactly the pods of that name and strands none |
| CrashLaws.PassCrashesExactlyWhen | src/internal/provider/cloudrun/cloudrun.go:364-378 | A status pass reads a missing service iff some listed pod that is not skipped has none |
| CrashLaws.CreationMustPrecedeThePass | src/internal/provider/cloudrun/podsTracker.go:109-119 | A pod listed before its service exists is the one pod the next pass would read in vain, until it is created |
| CrashLaws.PassAsksExactly | src/internal/provider/cloudrun/podsTracker.go:174-179 | The pods a pass asks about are exactly the listed ones that are not skipped |
| Lagging.TerminalForeverExactlyWhen | src/internal/provider/cloudrun/podsTracker.go:109-120 | With publications applied late, out of order or never, a stored terminal pod stays terminal over every run that neither creates it again nor removes it iff every publication still waiting for it is terminal |
| Lagging.SettledPodsStaySettled | src/internal/provider/cloudrun/podsTracker.go:174-177 | However late publications are applied, a skipped pod for which none is waiting is never asked about or published again, keeps a terminal phase and, unless deleted, its status |
| Lagging.StalePassSparesExactly | src/internal/provider/cloudrun/podsTracker.go:105-120 | Every answer, or every answer of the provider, to a pass over an older listing leaves a stored terminal pod terminal iff the listing lacks it or has a skipped version of it |
| Lagging.StaleListingRevivesPods | src/internal/provider/cloudrun/podsTracker.go:109-119 | A pass over a listing from before a pod was observed to have failed turns it back to running when it observes the service recovered |
| Lagging.PassIsPublishThenDeliver | src/internal/provider/cloudrun/podsTracker.go:109-120 | Publishing and then applying everything in order is the status pass of the run laws |
| World.PassOverlaysEachPod | src/internal/provider/cloudrun/podsTracker.go:105-120 | With its publications applied to whatever is stored, a pass overlays each stored pod that is listed by its own answer, and no other |
| World.PassRefreshesEachPod | src/internal/provider/cloudrun/podsTracker.go:105-120 | With its publications applied, a pass refreshes every listed pod by its own answer, whatever the listing order |
| PassLaws.PassPublishes | src/internal/provider/cloudrun/podsTracker.go:109-119 | The publications of a pass are the refreshed pods in listing order |
| PassLaws.PublishedPodsWereLive | src/internal/provider/cloudrun/podsTracker.go:109-119 | Everything published comes from a listed pod that is not skipped and differs from it in the status only |
| PassLaws.PassAsksOnce | src/internal/provider/cloudrun/podsTracker.go:174-179 | A pass asks the provider once about a listed pod that is not skipped and never about a skipped one |
| PassLaws.PassDecidesByFields | src/internal/provider/cloudrun/podsTracker.go:174-224 | A listed pod is asked about iff its phase is neither Succeeded nor Failed, its reason is not "ProviderFailed" and it is not terminating; it is published iff, besides, a status was found or the running pod was lost, and then with that status |
| PassLaws.PassPodByPod | src/internal/provider/cloudrun/podsTracker.go:113-119 | Each pod adds, in this order: event fetch, records, question, publication |
| PassLaws.PassFetchesEveryPod | src/internal/provider/cloudrun/podsTracker.go:157-172 | The events of every listed pod are fetched, skipped or not, once and in order |
| PassLaws.PassNeverCleans | src/internal/provider/cloudrun/podsTracker.go:105-120 | A status pass never lists the active pods and never cleans up |
| PassLaws.LostRewrite | src/internal/provider/cloudrun/podsTracker.go:187-208 | The pod is failed with reason and message of a pod not found; every running container becomes terminated with code -137, its start time and container ID; everything else is kept |
| PassLaws.LostRewriteIsExclusive | src/internal/provider/cloudrun/podsTracker.go:193-207 | The rewrite leaves at most one state per container iff no container was both running and waiting and the others had at most one |
| EventLaws.RecordedExactlyWhenNewer | src/internal/provider/cloudrun/podsTracker.go:158-168 | Within a call an event is recorded iff it has no timestamp or one after the watermark at call start |
| EventLaws.AdmittedOneByOne | src/internal/provider/cloudrun/podsTracker.go:158-168 | A call takes its events in order, each recorded at most once, as a warning unless its type is "Normal" |
| EventLaws.BatchOrderDoesNotMatter | src/internal/provider/cloudrun/podsTracker.go:158-168 | Reordering a batch records the same events equally often |
| EventLaws.PeakIsLatest | src/internal/provider/cloudrun/podsTracker.go:163-169 | The watermark after a call is the latest of the old one and all timestamps delivered |
| EventLaws.AdmissionOverCalls | src/internal/provider/cloudrun/podsTracker.go:157-169 | In a sequence of calls an event is admitted iff it is later than everything delivered before its call |
| EventLaws.LosslessExactlyWhenFirstsAscend | src/internal/provider/cloudrun/podsTracker.go:157-169 | No delivered event is lost for good iff every event is, when it is first delivered, later than the start and than everything delivered by earlier calls |
| EventLaws.RecordedExactlyWhenFirstIsLate | src/internal/provider/cloudrun/podsTracker.go:157-169 | A delivered event is recorded, in its call or an earlier one, iff it was late enough at its first delivery |
| EventLaws.RecordedByIsLogged | src/internal/provider/cloudrun/podsTracker.go:158-168 | An event recorded in this sense is in the records of one of these calls |
| EventLaws.SharedWatermarkLosesEvents | src/internal/provider/cloudrun/podsTracker.go:49 | A fresh event of one pod is lost after another pod's later event, even when delivered again |
| EventLaws.PassAdvances | src/internal/provider/cloudrun/podsTracker.go:113-119 | A pass records only timestamps between its first and last watermark, later calls later ones |
| EventLaws.PassIsItsCalls | src/internal/provider/cloudrun/podsTracker.go:113-119 | The records and the watermark of a pass are those of its batches, one per listed pod, as a sequence of calls |
| EventLaws.CallsConcat | src/internal/provider/cloudrun/podsTracker.go:157-172 | A sequence of calls can be cut anywhere: the second part goes on from the watermark of the first |
| PassLaws.CleanupCallsTheDangling | src/internal/provider/cloudrun/podsTracker.go:122-150 | Whatever single calls answer, a cleanup pass lists the active pods, calls for the dangling ones in order, and logs the failures of those calls that break; with no active list it does nothing more |
| PassLaws.FailureLoggedExactlyWhenBroken | src/internal/provider/cloudrun/podsTracker.go:136-149 | A failure is logged about a pod iff it is not listed and one of its calls answers with anything but success or not found |
| PassLaws.FailuresFollowTheirCalls | src/internal/provider/cloudrun/podsTracker.go:144-147 | A failure is logged right after the call for the same pod |
| PassLaws.DanglingIsTheUnlistedPart | src/internal/provider/cloudrun/podsTracker.go:137-141 | Each unlisted active identifier is dangling as often as it is active, and no listed one is |
| PassLaws.DanglingConcat | src/internal/provider/cloudrun/podsTracker.go:137-141 | Dangling identifiers come in the order of the active list |
| CleanupLaws.CleanupSparesExactly | src/internal/provider/cloudrun/cloudRunClient.go:87-105 | A service survives a cleanup pass iff no known pod of its name, in any namespace, is missing from the listing |
| CleanupLaws.CleanupIsSafeExactlyWhen | src/internal/provider/cloudrun/cloudrun.go:100-105 | Cleanup spares the services of all listed pods iff no known missing pod shares a name with a listed pod that has one |
| CleanupLaws.OneNamespaceIsSafe | src/internal/provider/cloudrun/cloudrun.go:100-105 | While all pods live in one namespace, no cleanup at any point of any run deletes a listed pod's service |
| CleanupLaws.TwoNamespacesCollide | src/internal/provider/cloudrun/cloudrun.go:100-105 | With two namespaces a gone pod takes down the other's running service |
| CleanupLaws.GonePodsAreCleanedForever | src/internal/provider/cloudrun/cloudrun.go:411-424 | An accepted pod that is not listed is cleaned up by every cleanup pass of every later run, because it is never forgotten |
| PodKeys.KeysAgree | src/internal/provider/cloudrun/cloudrun.go:763-765 | Two keys are equal iff the joined names and the suffixes are |
| PodKeys.DashlessNamesAreDistinct | src/internal/provider/cloudrun/cloudrun.go:763-765 | Without a dash in the namespaces, equal joined names mean equal pods |
| PodKeys.DashlessIsUnambiguous | src/internal/provider/cloudrun/cloudrun.go:763-765 | A set of pods with dashless namespaces has no two pods sharing a joined name |
| PodKeys.DashedNamesCollide | src/internal/provider/cloudrun/cloudrun.go:763-765 | Two different pods can share every key |
| PodKeys.HistoryIsKept | src/internal/provider/cloudrun/cloudrun.go:261-279 | After any history of updates the map holds only accepted pods under their own keys, and all of them when unambiguous |
| PodKeys.RecordIsExactIffUnambiguous | src/internal/provider/cloudrun/cloudrun.go:261-279 | The map holds exactly the accepted pods for all random suffixes iff no two of them share a joined name |
| TrackingLoop.NthPassIsSpaced | src/internal/provider/cloudrun/podsTracker.go:54-78 | The n-th status pass starts no earlier than n times five seconds after the loop, the n-th cleanup n times five minutes, however the select chooses and however late the timers fire |
| TrackingLoop.PassesNeverOverlap | src/internal/provider/cloudrun/podsTracker.go:63-77 | Passes never overlap, and two of a kind are their interval apart from end to start |
| TrackingLoop.CancelledRunIsCut | src/internal/provider/cloudrun/podsTracker.go:66-69 | No pass starts after the context-done branch is taken |
| TrackingLoop.FirstIsTheFirstReady | src/internal/provider/cloudrun/podsTracker.go:66-76 | The select takes a branch at the first moment, from its return on, at which some branch is ready |
| TrackingLoop.FeasibleTurnByTurn | src/internal/provider/cloudrun/podsTracker.go:63-77 | In a feasible run each turn up to the first cancelled one is taken as the timers left by the turns before it allow |
| TrackingLoop.LateExactlyWhenFired | src/internal/provider/cloudrun/podsTracker.go:66-76 | A pass of a kind can start after the context is cancelled iff the loop returns to the select after the cancellation and that timer has fired by then |
| TrackingLoop.LatePassFollowsAtOnce | src/internal/provider/cloudrun/podsTracker.go:66-76 | A pass that starts after the cancellation starts when the pass before it ends, and is of the other kind |
| TrackingLoop.OvertakingNeedsALongPass | src/internal/provider/cloudrun/podsTracker.go:70-75 | For another pass to follow a late one, the late one must last for the whole interval of the timer that fires next |
| TrackingLoop.ShortPassesOvertakeOnce | src/internal/provider/cloudrun/podsTracker.go:54-78 | While passes take less than five seconds each, at most one pass starts after the cancellation |
| TrackingLoop.LongPassesKeepOvertaking | src/internal/provider/cloudrun/podsTracker.go:66-76 | Once a pass can start late, passes of the two kinds in turn that each last the cleanup interval can keep starting, any number of times |
| TrackingLoop.CancellationMayBeOvertaken | src/internal/provider/cloudrun/podsTracker.go:54-78 | For every number there is a run from the start of the loop with that many passes after the cancellation |
| TrackingLoop.PassesAreTheLiveTurns | src/internal/provider/cloudrun/podsTracker.go:63-69 | The passes of a run are its turns up to the first cancelled one |
| PodsTracking.PodsTracker.StartTracking | src/internal/provider/cloudrun/podsTracker.go:54-78 | Over any finite run of turns the loop performs exactly the turns before the first cancelled one and leaves the timers as these do, each armed again after its work; it publishes and polls what the status turns do, calls cleanup for what the cleanup turns do, and records the events of all its batches as one sequence of calls |
| LoopLaws.LoopAccount | src/internal/provider/cloudrun/podsTracker.go:63-77 | Over any turns the publications are the outcomes of the status turns, the event fetches are of the pods they list, and the cleanup calls are for the dangling pods of the cleanup turns whose listing succeeds, turn by turn |
| LoopLaws.LoopIsItsCalls | src/internal/provider/cloudrun/podsTracker.go:63-77 | The records and the watermark of the whole loop are those of the batches its status turns receive, taken as one sequence of calls |
| PodsTracking.PodsTracker.TakeTurn | src/internal/provider/cloudrun/podsTracker.go:70-75 | The status timer runs one status pass, the cleanup timer one cleanup pass and leaves the watermark alone; each arms its own timer again after the work |
| PodsTracking.PodsTracker.UpdatePodStatus | src/internal/provider/cloudrun/podsTracker.go:81-103 | NotFound iff no pod has the name; else one fresh copy of the first match is published, changed in status and, if forced, in resource version only |
| PodsTracking.PodsTracker.UpdatePodsLoop | src/internal/provider/cloudrun/podsTracker.go:105-120 | A pass has the actions and watermark of the listing's values; the objects it hands out, in order, are fresh, have fresh buffers and hold the published values; no listed pod changes |
| PodsTracking.PodsTracker.VisitPod | src/internal/provider/cloudrun/podsTracker.go:113-119 | One listed pod is copied, processed, and published iff its status was refreshed; the object handed out is fresh and holds the published value |
| PodsTracking.PodsTracker.CleanupDanglingPods | src/internal/provider/cloudrun/podsTracker.go:122-151 | The active pods are listed once; then come the calls for exactly the dangling ones, in order, and the logged failures are those of these calls that break; nothing more when listing the active pods fails |
| PodsTracking.PodsTracker.ProcessPodUpdates | src/internal/provider/cloudrun/podsTracker.go:153-217 | The exact calls, the new watermark even when fetching events fails, and the new status of the pod |
| PodsTracking.PodsTracker.SinkEvents | src/internal/provider/cloudrun/podsTracker.go:157-169 | What the event sink records over a batch and the watermark it leaves |
| PodsTracking.PodsTracker.MarkLost | src/internal/provider/cloudrun/podsTracker.go:187-208 | The in-place rewrite of a lost pod, container by container, in the same buffer |
| PodsTracking.PodsTracker.ShouldSkipPodStatusUpdate | src/internal/provider/cloudrun/podsTracker.go:219-224 | True exactly for pods with phase Succeeded or Failed, reason "ProviderFailed" or a deletion timestamp |
| PodsTracking.PodsTracker.GetPodFromList | src/internal/provider/cloudrun/podsTracker.go:226-234 | The first pod with the namespace and name, or none if there is none |
| Provider.CloudRunProvider.UpdatePod | src/internal/provider/cloudrun/cloudrun.go:261-279 | The pod is stored under its key with a six-character suffix, and refused iff namespace or name is empty |
| Provider.CloudRunProvider.BuildKey | src/internal/provider/cloudrun/cloudrun.go:768-778 | The key of a pod, or an error iff namespace or name is empty |
| Provider.CloudRunProvider.RandStringRunes | src/internal/provider/cloudrun/cloudrun.go:755-761 | A string of the length asked for, of letters and digits |
| Provider.CloudRunProvider.ListActivePods | src/internal/provider/cloudrun/cloudrun.go:65-85 | One identifier per entry of the pod map, in iteration order |
| Provider.CloudRunProvider.GetPods | src/internal/provider/cloudrun/cloudrun.go:411-424 | Every pod of the map, in iteration order |
| Provider.CloudRunProvider.CleanupPod | src/internal/provider/cloudrun/cloudrun.go:100-105 | The service of that name is gone, whatever the namespace, all others stay |
| Provider.CloudRunProvider.CleanUp | src/internal/provider/cloudrun/podsTracker.go:137-149 | Cleaning up a list removes exactly the services named in it |
| Provider.CloudRunProvider.CreatePod | src/internal/provider/cloudrun/cloudrun.go:204-258 | The service is created from the pod and the pod's status becomes running, container by container; neither changes if the name is taken |
| Provider.CloudRunProvider.DeletePod | src/internal/provider/cloudrun/cloudrun.go:282-304 | The service is removed and the pod becomes succeeded with every container terminated in place |
| Provider.CloudRunProvider.GetPodStatus | src/internal/provider/cloudrun/cloudrun.go:364-408 | The status of the service of that name, whatever the namespace |
| Provider.CloudRunProvider.StatsOfPod | src/internal/provider/cloudrun/cloudrun.go:550-606 | One entry per container in order with 32-bit draws, and totals of its processor and memory fields that wrap at 2^64 |
| Provider.CloudRunProvider.GetStatsSummary | src/internal/provider/cloudrun/cloudrun.go:532-611 | One entry per pod of the map, with the containers in order, start times, draws in range, totals that wrap at 2^64 and are the true sums for up to 2^32 + 1 containers |
| Provider.CloudRunProvider.GenerateMockMetrics | src/internal/provider/cloudrun/cloudrun.go:613-652 | One counter and one gauge are appended to the two families of the resource |
| Provider.CloudRunProvider.CollectPod | src/internal/provider/cloudrun/cloudrun.go:689-718 | What one pod and its containers add to the map |
| Provider.CloudRunProvider.CollectMetrics | src/internal/provider/cloudrun/cloudrun.go:688-718 | The map collected from the node, every pod and every container |
| Provider.CloudRunProvider.GetMetricsResource | src/internal/provider/cloudrun/cloudrun.go:671-734 | Every family once, well typed, with two metrics for the node, two per pod and two per container in all |
| Provider.ClientManager.CreateService | src/internal/provider/cloudrun/cloudRunClient.go:107-174 | The service stored under the pod's name has the pod's containers translated index by index |
| Stats.TotalsAreExactIff | src/internal/provider/cloudrun/cloudrun.go:550-607 | Totals of n containers are exact for all draws iff n is at most 2^32 + 1 |
| Stats.WrappingLosesOnlyTheCarry | src/internal/provider/cloudrun/cloudrun.go:574-581 | The running 64-bit total is the true sum modulo 2^64 |
| Stats.SumSplits | src/internal/provider/cloudrun/cloudrun.go:574-581 | Every draw counts once in a sum |
| Metrics.MetricsAreConserved | src/internal/provider/cloudrun/cloudrun.go:688-718 | Node families hold one metric, pod families one per pod, container families one per container, each of its own kind, and no other family exists |
| Metrics.TotalIsTwicePerResource | src/internal/provider/cloudrun/cloudrun.go:720-731 | In whatever order the families come out they hold two metrics per node, pod and container |
| Metrics.CollectedIsWellTyped | src/internal/provider/cloudrun/cloudrun.go:720-731 | Every family has a type and holds metrics of that type only |
| Metrics.ContainerLabelsNameTheLast | src/internal/provider/cloudrun/cloudrun.go:701-716 | Container labels name the right container exactly for pods of one container |
| Metrics.NodeFamily | src/internal/provider/cloudrun/cloudrun.go:675-687 | The one metric of a node family carries exactly the name of the node |
| Metrics.PodFamily | src/internal/provider/cloudrun/cloudrun.go:688-700 | The i-th metric of a pod family carries exactly the node's name and the i-th pod's name |
| Metrics.ContainerFamily | src/internal/provider/cloudrun/cloudrun.go:701-718 | A container family goes through the pods in order; the metric of each container carries the node's name, its pod's name and the name of that pod's last container |
| Metrics.NamesSpelledOut | src/internal/provider/cloudrun/cloudrun.go:613-625 | The six families are named by resource and by the two suffixes |
| Provider.CloudRunProvider.MeteredByName | src/internal/provider/cloudrun/cloudrun.go:688-701 | The pods metered are those of the map, by name and with their containers, in iteration order |
| Metrics.TypesByName | src/internal/provider/cloudrun/cloudrun.go:654-669 | The type read off a family's name is the one it was made with |
| Metrics.SixDistinctNames | src/internal/provider/cloudrun/cloudrun.go:613-625 | The family names of different resources or kinds never coincide |
| ServiceTranslation.MemoryLimitIsWithinOneMebibyte | src/internal/provider/cloudrun/cloudRunClient.go:123-128 | Read back, a service's memory limit is a whole number of mebibytes: the pod's limit rounded towards zero, for either sign |
| ServiceTranslation.SuccessiveDivisions | src/internal/provider/cloudrun/cloudRunClient.go:126 | Two truncating divisions by 1024 are one by 2^20, for negative quantities too |
| ServiceTranslation.SmallLimitsBecomeZero | src/internal/provider/cloudrun/cloudRunClient.go:126 | The limit is "0Mi" iff the pod's is less than one mebibyte from zero |
| ServiceTranslation.TranslationKeepsContainers | src/internal/provider/cloudrun/cloudRunClient.go:112-148 | Image, ports, environment and CPU limit survive index by index, the name does not, and memory shrinks by less than one mebibyte |
| ServiceTranslation.DecimalRoundTrip | src/internal/provider/cloudrun/cloudRunClient.go:125-126 | A limit's decimal text reads back as the same number and has no leading zero |
| CloudRun.CreateThenRefresh | src/internal/provider/cloudrun/cloudrun.go:373-395 | The status read from a pod's own service has one entry per container with the same images in the same order, without names or states |
| CloudRun.ConditionsAndPhase | src/internal/provider/cloudrun/cloudrun.go:794-836 | Pending iff CONDITION_RECONCILING or CONDITION_PENDING, Failed iff CONDITION_FAILED, Running in every other state; the three conditions exactly in the two up states, readiness dated from the last update, the rest from creation |
| CloudRun.ObservedFields | src/internal/provider/cloudrun/cloudrun.go:383-407 | Addresses, times and texts of an observed status, and its containers field by field |
| CloudRun.CreatedPodIsUp | src/internal/provider/cloudrun/cloudrun.go:221-256 | The status of a created pod: running, fixed addresses, three conditions, one ready running container per spec container |
| CloudRun.DeletedPodIsDown | src/internal/provider/cloudrun/cloudrun.go:285-300 | The status of a deleted pod: succeeded, every container terminated with code 0 at the deletion and not ready, all else kept |

## Left out

- PodsTracking.PodsTracker.UpdatePodStatus: it is not a step of `World`, because nothing in the repository calls it; it publishes whatever the phase.
- PodsTracking.PodsTracker.ProcessPodUpdates: the handler cannot change the pod or call the sink after it has returned.
- PodsTracking.PodsTracker.StartTracking: the listed pods do not change during the run it is given; changes between passes are the steps of `World`.
- Provider.CloudRunProvider.GetMetricsResource: container labels are the value the shared loop variable ends with; the pointers themselves are not modelled.
- RunLaws.LostProviderBudget: like the other laws of `RunLaws` and those of `CrashLaws` and `CleanupLaws` it takes each publication as applied before the next step; the laws of `Lagging` do not.
- The conflict handling of the API server.
- Network calls, credentials, waiting for operations, tracing, logging and event text.
- Quantity parsing and rounding: limits are the integers the quantities report.
- GetPod: its key carries a fresh random suffix, so no lookup can be promised.
- Node configuration, JSON configuration, container logs and the mock provider.

# Eirini's desired-state engine, staging protocol and droplet registry, in Dafny

Eirini runs Cloud Foundry apps on Kubernetes. This project models its three stateful parts and proves
what they promise, over every run and every pattern of failing requests.

**The desired-state engine.** `Desire`, `Update` and `Stop` drive, with no rollback, a StatefulSet and its
headless service, the service `cf-<app>` with its `routes` annotation, and one shared Ingress named
`eirini`; through the route channel, the emitter and NATS they also drive the router's table. It is
modelled twice, and the two are proved equal:

- as classes, one per Go type (`KubeIngressManager`, `ServiceManager`, `StatefulSetManager`, `Desirer`,
  `Bifrost`, `Emitter`, `Collector`), with the Go code's loops, in-place slices, identity-keyed maps and
  early returns. The API server is the class `Client.Server`: creation fails if the object exists, the other
  writes fail if it does not, and any request may fail without effect;
- as a machine (`Protocol`): the code still to run is a list of calls, each step runs one of them, and
  `Finish` runs an operation to its end. Every manager method equals `Finish` of its code, for every
  cluster and every answer of the API server. `Runs` interleaves these steps with the collector's ticks and
  the emitter's receives and publishes; `Runs.FinishIsARun` says that a whole operation is one such run, and
  `Runs.OperationsAreARun` that any sequence of operations is. `Emitter.EmittingIsARun` and
  `Emitter.CollectingIsARun` say the same of the emitter's loop and the collector's tick, so that what holds
  after every run holds after all that the classes do.

| modules | content |
|---|---|
| `Names`, `Model`, `Wrappers` | names and their tests, LRPs, StatefulSets, services, rules, batches, the cluster |
| `Protocol`, `Router`, `Runs` | the machine, the publishing of batches, interleaved runs |
| `Client`, `RuleObjects`, `IngressManager`, `ServiceManager`, `StatefulSetManager`, `Desirer`, `Bifrost`, `Emitter` | the classes |
| `Safety`, `Reachable`, `Instances` | invariants of every run |
| `Concurrent` | operations on different apps at the same time, on the shared Ingress |
| `Sync`, `Schedule`, `Ticks`, `Restore`, `Races` | the router table against the annotations |
| `Results` | what operations that return nil leave, field by field |
| `Effects`, `Consistency`, `Failures` | operations that return nil and when they do; half-failed ones, retries, repairs |
| `Buildpacks`, `Staging`, `StagingRuns` | staging: one execution, and many interleaved ones |
| `Blobs`, `Registry` | the blob store, the registry's handlers, and their runs |

`dafny verify dfyconfig.toml` checks everything.

## Assumptions

- The API server stores objects under their own names; every operation keeps that so
  (`Effects.OperationsKeepNames`, `Desirer.WellNamed`).
- Operations on the cluster are sequential, and the collector and the emitter interleave with their single
  calls; except in `Concurrent`, where operations on different apps interleave and the API server refuses to
  update an Ingress that changed since it was read.
- App names are GUIDs: they do not end in `headless` and hold no newline (`Names.ValidApp`).
  `Names.ServiceNameIsListed` and `Names.NamesCollideExactly` show that this is what the name tests need.
- At the start the namespace holds no StatefulSet, no Ingress and no service named `cf-…`; other services may be
  there (`Runs.Foreign`).
- Accepted stagings have distinct GUIDs.
- What a reader of a blob or an LRP decodes is given by decoded values: a metadata or annotation string is a
  URI list or other text (`Model.Text`), URL parsing is a parameter (`Model.Parser`), SHA-256 is a parameter
  (`Blobs.Hash`).

## What turned out false

For each there is a concrete refutation and the exact condition under which the code meets the property.

- *The router never keeps a route that its app's service does not announce.* A collector tick that runs
  inside `Stop`, after the unregister message and before the last request, brings all routes back and the
  service is then deleted. `Races.StopCanLeaveRoutes` builds a run from the empty cluster in which nothing
  fails; `Ticks.TickInsideStopOrphansRoutes` and `Ticks.LateTickOrphansRoutes` give the two orders. A window
  that only keeps service writes out of a tick does not prevent the first. `Sync.SyncExactly` names, for
  every run, the actions that break it; `Schedule.ScheduleExactly` says, for every run, which deliveries and
  losses in the gap of a `Stop` do; `Sync.QuietRunInSync` is a schedule on which it always holds.
- *nil from `Desire` means deployed.* After a `Desire` that failed behind the creation of the instance, the
  retry finds the instance and returns nil: `Failures.RetriedDesireDeploysNothing`, with one refused request.
  Exactly: `Failures.DesireDeploysExactly`.
- *A failed operation can be retried.* On a healthy API server, `Update` always, wherever it stopped
  (`Failures.FailedUpdateRetried`). `Stop` exactly when its very first request was the refused one
  (`Failures.FailedStopRetried`): once the instance is gone every retry fails (`Failures.StopNeverResumes`).
  `Desire` exactly when it had not yet created the instance; otherwise the retry returns nil and repairs
  nothing (`Failures.FailedDesireRetried`). Which other operations repair the app, and exactly when:
  `Failures.HalfStopRepairsExactly`, `Failures.StopClearsExactly`, `Failures.UpdateFinishesDesire`.
- *`Stop` undoes `Desire`.* Without an Ingress object `Stop` fails half-way and leaves the app's service, as
  after the `Desire` of a first app without routes (`Failures.StopCanFail`). Exactly:
  `Consistency.StopSucceedsExactly` and `Consistency.StopUndoesDesire`.
- *`Update` does not panic.* An LRP without metadata, desired and then updated, panics, with every request
  succeeding: `Failures.UpdateCanPanic`. Exactly: `Instances.PanicsExactly`.
- *The route lister returns every app.* After a `Desire` of an LRP whose routes do not decode, which fails
  but leaves its service, every listing fails: `Failures.ListingCanFail`. Exactly: `Ticks.ListingFailsExactly`
  for a listing, `Ticks.UndecodableExactly` for the action that brings it about.

  The last two need a caller that hands such an LRP to `Desire`. In this repository only `Bifrost.Transfer`
  calls it, with what `Convert` made: six metadata entries, one of them a marshalled URI list.
  `Bifrost.TransferredAppsAreSafe` proves that no such run panics or has a failing listing.
- *The GUID that `List` reports for an app leads `Update` to it.* The app is stored under its application ID and
  reported under its process GUID. `Bifrost.ReportedGuidCanMiss` is a run where `Update` does not find it;
  exactly: `Bifrost.ReportedGuidReachesExactly`.
- *Operations on different apps do not disturb each other.* `Stop` of one app can delete the Ingress after
  another app put its rules there: `Concurrent.StopCanTakeOthersRules`. Exactly:
  `Concurrent.OthersRulesLostExactly`. No backend dangles even so (`Concurrent.NoDanglingBackend`).
- *A blob can be fetched.* A fetch delivers what was put exactly when nothing was delivered since
  (`Registry.FetchIsWholeExactly`, refuted by `Registry.SecondFetchGetsNothing`); the blob kept under a droplet's GUID is always empty, because the second
  put reads an exhausted file.
- *The store is content-addressed.* Exactly when no droplet is staged under the digest of other content
  (`Registry.StoreIsContentAddressed`, refuted by `Registry.DigestGuidErasesLayer`). The comment at
  registry/registry.go:134-139 says that droplets are stored content-addressed, without this condition.

## Model

| member | source | states |
|---|---|---|
| Names.ServiceNameIsListed | k8s/service.go:206-212 | an app's service passes the two name tests exactly when the app name is valid |
| Names.ListedExactly | k8s/service.go:206-212 | letter by letter: `cf-` in front, no newline behind it, not `headless` at the end |
| Names.ListedNameHasApp | k8s/routes.go:30-32 | every name the lister keeps is the service name of one valid app |
| Names.HeadlessNameIsSkipped | models.go:110-113 | no headless service is ever listed |
| Names.NamesCollideExactly | models.go:105-113 | service and headless names coincide exactly when one app is named like the other plus `-headless` |
| Model.Unregistered | k8s/service.go:179-189 | the unregister list holds exactly the old routes missing from the new list |
| Model.UnregisteredExactly | k8s/service.go:179-189 | it takes them from the old list at increasing positions, each position whose route the new list lacks, so order and repetitions are kept |
| Model.Int32Exactly | k8s/statefulset.go:68 | a 32-bit count is stored as it is, any other as the 32-bit number congruent to it |
| Model.LRPExactly | k8s/statefulset.go:110-122 | a reader sees the instance's name, image, command and ready replicas, and of its annotations `process_guid`, `last_updated` and `application_uris`, a missing one as the empty string |
| Model.LowersCapitalsExactly | k8s/ingress.go:154 | hosts: every capital becomes the small letter at its place in the alphabet, nothing else changes |
| Model.RulesExactly | k8s/ingress.go:144-172 | one rule per URI, in order: lowered host, the path or a slash, service `cf-<app>`, port 8080 |
| Protocol.StepTerminates | k8s/desire.go:43-90 | every call brings every operation closer to its end, whatever the API server answers |
| Protocol.OnlySendSends | k8s/service.go:59-120 | a step puts a batch into the channel exactly when its call is a send |
| Protocol.StepForesees | k8s/service.go:59-120 | only the creation, the update and the deletion of a service lead to a send, each to one |
| Protocol.AtMostOneBatch | k8s/desire.go:43-90 | every operation sends at most one batch, however it ends |
| Protocol.FinishInSequence | k8s/desire.go:43-90 | running one manager call after another is running the first and, only if it returned nil, the second in the state it left |
| Router.ApplyAppend | route/emitter.go:56-69 | publishing in two stretches has the effect of publishing once |
| Runs.FinishIsARun | k8s/desire.go:43-90 | an operation run to its end by the classes is a run of the interleaved machine, with the same cluster, outcome and batches |
| Runs.OperationsAreARun | k8s/desire.go:43-90 | any sequence of operations, under any answers of the API server, leaves the cluster, outcome and queue of some run |
| RuleObjects.GroupOthers | k8s/ingress.go:50-57 | filtering one service's rules removes its group, touches no other, and the object is empty exactly when no group is left |
| RuleObjects.GroupCounts | k8s/ingress.go:194-202 | grouping by backend loses no rule and no repetition: a service counts its rules as they are stored |
| RuleObjects.GroupReplaced | k8s/ingress.go:194-202 | replacing one service's rules, in any resulting order, replaces its group and no other |
| RuleObjects.SameRulesSameValues | k8s/ingress.go:230-235 | any two orders of the same rule objects store the same rules, as often |
| RuleObjects.RulesGoWithTheirApp | k8s/ingress.go:144-172 | the rules built for an app go with it and only with it: wherever they stand, removing its service takes out exactly them, removing any other takes out none |
| IngressManager.ToRuleMap | k8s/ingress.go:222-228 | the map's keys are the slice's rules, compared by the identity of `HTTP` |
| IngressManager.ToRuleSlice | k8s/ingress.go:230-235 | every key once, in whatever iteration order |
| IngressManager.AppendNewRules | k8s/ingress.go:204-210 | the caller's map gains exactly the new rules |
| IngressManager.RemoveObsoleteRules | k8s/ingress.go:212-220 | exactly the service's rules that are not among the new ones go, although deleted during iteration |
| IngressManager.DifferenceValues | k8s/ingress.go:194-235 | any duplicate-free listing of the surviving objects has as values the other services' rules plus all new rules, multiplicities kept |
| IngressManager.RemoveDifference | k8s/ingress.go:194-202 | the identity-keyed algorithm refines that plain multiset specification for every iteration order |
| IngressManager.CreateIngressRules | k8s/ingress.go:144-172 | succeeds exactly when all URIs parse; then, per URI and in order, a rule with the lowered host and, in a fresh, unshared `HTTP` object, the one path (a slash when empty), service `cf-<app>` and port 8080 |
| IngressManager.CutStep | k8s/ingress.go:50-55 | cutting at the index and stepping back, or stepping on, preserves what is kept so far plus the filter of the rest |
| IngressManager.RemoveRules | k8s/ingress.go:50-55 | the in-place loop terminates and leaves the order-preserving filter of the other services' rule objects |
| IngressManager.OtherValues | k8s/ingress.go:50-55 | that filter on objects is the filter on stored rules |
| IngressManager.KubeIngressManager.Delete | k8s/ingress.go:44-63 | under every failure pattern equals the machine's deletion; on success stores the other services' rules in order or removes the object |
| IngressManager.KubeIngressManager.UpdateSpec | k8s/ingress.go:120-133 | on success other services' rules plus the URIs' rules; on error the object is untouched |
| IngressManager.KubeIngressManager.CreateIngress | k8s/ingress.go:96-118 | never creates an object without rules nor replaces one; an invalid URI costs no request |
| IngressManager.KubeIngressManager.Update | k8s/ingress.go:65-89 | equals the machine's ingress update under every failure pattern, panic included; on nil the service has exactly the rules its URIs ask for, by host, path, service and port, and every other service what it had |
| ServiceManager.SliceToMap | k8s/service.go:191-197 | membership in the map is membership in the slice |
| ServiceManager.GetUnregisteredRoutes | k8s/service.go:179-189 | the order-preserving difference of the two lists, each position of the old list whose route the new one lacks exactly once |
| ServiceManager.ServiceManager.Create | k8s/service.go:43-61 | cluster, error and batch are the machine's, also when the created service's annotation does not decode |
| ServiceManager.ServiceManager.CreateHeadless | k8s/service.go:63-66 | equals the machine's call, and sends nothing even with a nil channel |
| ServiceManager.ServiceManager.Update | k8s/service.go:68-99 | writes the annotation and sends the difference to what was stored, or fails with no effect |
| ServiceManager.ServiceManager.Delete | k8s/service.go:101-121 | unregisters before it deletes, so the batch is out even when the deletion fails |
| ServiceManager.ServiceManager.DeleteHeadless | k8s/service.go:123-126 | equals the machine's call, and sends nothing even with a nil channel |
| ServiceManager.ServiceRouteLister.ListRoutes | k8s/routes.go:22-48 | the loop with `continue` is the specified filter of some complete listing of the services; on success the batch has every app service once, by the letters of its name, with the URI list of its `routes` annotation and nothing to unregister |
| StatefulSetManager.StatefulSetManager.Exists | k8s/statefulset.go:76-84 | says whether some instance carries the label |
| StatefulSetManager.StatefulSetManager.Get | k8s/statefulset.go:86-95 | the stored instance's LRP, or an error when it is missing or the request fails; the LRP has the stored name, image, command, ready replicas and three of the annotations |
| StatefulSetManager.StatefulSetManager.List | k8s/statefulset.go:36-45 | one LRP per StatefulSet, each with its own one's name, image, command, ready replicas and three of its annotations |
| StatefulSetManager.StatefulSetManager.Create | k8s/statefulset.go:55-60 | instance, then headless service; a failure in between leaves the instance; nothing but the app's instance is new, and its count, image, command, environment, annotations and labels are those the LRP asks for |
| StatefulSetManager.StatefulSetManager.Update | k8s/statefulset.go:62-74 | changes replicas and last-updated value of the one instance to the LRP's, in the source's 32-bit arithmetic, and no other field and no other instance; panics on a nil annotation map, whatever else the namespace holds |
| StatefulSetManager.StatefulSetManager.Delete | k8s/statefulset.go:47-53 | instance, then headless service; the nil-channel service manager never sends |
| Desirer.Desirer.Desire | k8s/desire.go:43-58 | for every cluster and failure pattern: cluster, outcome, requests and batches of the machine's code; a first one that returns nil leaves an instance with the LRP's count, image, command, environment and metadata, both services, the rules and the batch of its URIs, and nothing else changed; keeps object names and labels right |
| Desirer.Desirer.Update | k8s/desire.go:68-78 | likewise for the update sequence, looking only at the app's own objects; on nil the instance has the LRP's count and last-updated value and is otherwise as it was, and service, rules and batch are those of the LRP's URIs |
| Desirer.Desirer.Stop | k8s/desire.go:80-90 | likewise for the stop sequence, rules before service; on nil the instance, both services and the rules are gone, nothing else is, and the batch unregisters what the `routes` annotation listed |
| Results.DesireLeaves | k8s/desire.go:43-58 | the cluster and batch a first nil `Desire` leaves, field by field in the source's constants, from any cluster with right labels |
| Results.UpdateLeaves | k8s/desire.go:68-78 | the same for an `Update` that returns nil |
| Results.StopLeaves | k8s/desire.go:80-90 | the same for a `Stop` that returns nil |
| Results.IngressUpdateLeaves | k8s/ingress.go:65-118 | the rules a successful ingress update leaves: those of the URIs in `application_uris` for this service, no other service's changed |
| Bifrost.GetURIs | bifrost/bifrost.go:109-135 | the URIs are cut, at running offsets, into exactly the complete hostname lists of the `cf-router` entries in their order; none without such routes; an error exactly when they do not decode |
| Bifrost.AskedExactly | bifrost/bifrost.go:109-135 | such a list is unique: a request has it exactly as its URIs, and has none exactly when its `cf-router` routes do not decode |
| Bifrost.ToDesiredLRPSchedulingInfo | bifrost/bifrost.go:42-51 | one entry per LRP, in order, from that LRP's metadata |
| Bifrost.Bifrost.List | bifrost/bifrost.go:30-40 | one entry per stored StatefulSet, with its `process_guid` and `last_updated` annotations |
| Bifrost.Bifrost.Update | bifrost/bifrost.go:53-72 | an unknown app, a nil pointer or undecodable routes change nothing, the nil pointer with a panic and the others with an error; any other request ends as the desirer's update of the requested LRP, failures included; success leaves the `routes` annotation at exactly the hostnames the request lists, the app's rules at exactly theirs by host, path, service and port, replicas and `last_updated` as requested, image, command, env and all other apps untouched, and sends one batch with that list and what it drops |
| Bifrost.Bifrost.RequestedUpdates | bifrost/bifrost.go:60-71 | whatever the desirer's update of the LRP handed on leaves is what the request asks for, in the request's own fields |
| Bifrost.Bifrost.Transfer | bifrost/bifrost.go:21-28 | converts exactly when the JSON decodes and the droplet is staged; then it is desired as converted, otherwise nothing is reached; a new app that transfers with nil runs the requested number of instances of the image with the launcher and its environment, and announces the application's URIs |
| Bifrost.ConvertedIsTransferred | bifrost/convert.go:49-79 | whatever deploys the converted LRP has that count, image, command, environment, the six annotations and the URIs of the application |
| Bifrost.TransferredAppsAreSafe | bifrost/convert.go:34-80 | no run panics, and no answered listing fails, when `Desire` only gets what the converter made |
| Bifrost.ReportedGuidReachesExactly | bifrost/bifrost.go:42-60 | over runs of converted requests: each app is listed under the process GUID it came with, and a lookup by that GUID finds the app exactly when it is the application ID |
| Bifrost.ReportedGuidCanMiss | bifrost/convert.go:57-78 | for every request whose process GUID is not the application ID, a run without failing requests ends with the app out of reach of its reported GUID |
| Emitter.Publisher.Publish | route/emitter.go:78-97 | the router follows `router.register` and `router.unregister` only, and a failed publish leaves its table alone |
| Emitter.Emitter.Emit | route/emitter.go:56-97 | for every pattern of publish errors the attempts are, entry by entry, `router.register` with the routes and `router.unregister` with the withdrawn ones, each only if there are any, with host, ports 80 and 443, URIs and app name; and the table is what the delivered ones make of it |
| Emitter.WireExactly | route/emitter.go:11-97 | the same of any batch, without a publisher: the wire messages cut into the entries' own |
| Emitter.Emitter.ReceiveAndEmit | route/emitter.go:46-54 | one batch leaves the channel and is emitted completely, on the router's subjects |
| Emitter.Collector.CollectRoutes | route/collector.go:22-29 | one listing enters the channel per successful tick, with every app service's `routes` annotation; nothing on an error |
| Emitter.EmittingIsARun | route/emitter.go:46-97 | one turn of the emitter's loop, with the answers of NATS, is a run of the machine with the same channel, attempts and table |
| Emitter.CollectingIsARun | route/collector.go:22-29 | a collector tick is a run of the machine with the same channel, failing listings included |
| Safety.StepKeeps | k8s/desire.go:43-90 | every call of every operation, succeeding or failing, keeps the invariant: backed rules of one whole list per app, right names and labels, and batches that only say what the annotations did |
| Reachable.RunIsGood | k8s/desire.go:43-90 | the safety invariant holds after every run, whatever fails and however collector and emitter interleave |
| Reachable.HistoryHappened | k8s/service.go:43-121 | what the invariant records as announced, replaced or doomed really happened at some moment of the run |
| Reachable.NoDanglingBackend | k8s/desire.go:43-90 | in every reachable state every ingress rule names a service that exists |
| Reachable.OperationsKeepBackends | k8s/desire.go:43-90 | the same after any sequence of whole operations of the manager classes, however each of them ends |
| Reachable.RulesAreOneSnapshot | k8s/ingress.go:65-133 | in every reachable state an app's rules are none, or those of one whole list its service announced, never a mix |
| Reachable.IngressNeverEmpty | k8s/ingress.go:57-99 | the stored Ingress is never without rules |
| Concurrent.RunIsGood | k8s/ingress.go:65-133 | the invariant of operations on different apps interleaved call by call |
| Concurrent.NoDanglingBackend | k8s/ingress.go:72-85 | every ingress rule names an existing app service even when operations on different apps interleave |
| Concurrent.OthersRulesLostExactly | k8s/ingress.go:57-62 | a move of one app changes the rules of another exactly when it deletes an Ingress that holds some |
| Concurrent.StopCanTakeOthersRules | k8s/ingress.go:57-60 | for any two routed apps a run without failing requests ends with the second deployed and without its rules |
| Reachable.OnlyHeadlessAndForeignAreSkipped | k8s/routes.go:30-32 | what the lister skips is a headless service or foreign |
| Reachable.ExistsAgreesWithGet | k8s/statefulset.go:76-95 | the label selector and the object name find the same instances in every reachable state |
| Reachable.Provenance | route/emitter.go:56-97 | over all interleavings, every registered list was announced at some moment, and every unregistered one was dropped by a replacement or belongs to a service whose deletion was attempted |
| Reachable.ListingIsHeld | k8s/routes.go:22-48 | a listing only registers what app services announce at that moment |
| Sync.DeltaIsExact | k8s/service.go:179-189 | register and unregister lists are disjoint and turn the old endpoints into exactly the new ones, in either publish order |
| Sync.EntryApplies | route/emitter.go:56-76 | the effect of one batch entry on any table, whichever lists are empty |
| Sync.ApplyUnion | route/emitter.go:56-76 | endpoints too many survive exactly as far as no later message unregisters them |
| Sync.AdvanceSyncExactly | k8s/service.go:43-121 | a call of an operation takes the settled table out of the annotations exactly when it deletes a service that still has an endpoint |
| Sync.TickSettles | route/collector.go:22-29 | delivering a listing adds exactly the endpoints that no pending message withdraws |
| Sync.LossSettles | route/emitter.go:71-97 | losing an unregister message adds exactly the endpoints that it alone would have withdrawn |
| Sync.EmitterSettles | route/emitter.go:46-97 | receiving and publishing change what will be settled only by lost registrations |
| Sync.NextSyncExactly | k8s/service.go:59-120 | any action keeps the settled table inside the annotations exactly when it neither delivers a stale listing, nor orphans a route, nor leaves one behind by a lost message |
| Sync.SyncExactly | route/collector.go:22-29 | over every run, whatever fails: in sync throughout exactly when every action was sound in that sense |
| Schedule.KnownExactly | k8s/service.go:113-120 | in sync so far, while `Stop` waits to delete: the router will know the service exactly when a listing delivered meanwhile registered it, published or still waiting, or a message lost meanwhile left it behind |
| Schedule.GapStep | route/emitter.go:46-97 | in that gap the router comes to know the service only by publishing later registrations and by lost messages |
| Schedule.OrphansExactly | k8s/service.go:113-120 | in sync so far: the next action orphans a route exactly when it is the deletion of a `Stop` in whose gap that happened |
| Schedule.ScheduleExactly | route/collector.go:22-29 | over every run, whatever fails: in sync throughout exactly when no stale listing is delivered, no lost message leaves an unannounced route, and no deletion follows such a delivery or loss in its own gap |
| Sync.QuietNextIsClean | route/collector.go:22-29 | on the quiet schedule no action is stale or orphaning |
| Sync.QuietRunInSync | route/collector.go:22-29 | on the quiet schedule the router is never ahead of the annotations, even when registrations, requests and final deletions fail |
| Sync.RouterInsideAnnotations | k8s/service.go:59-120 | there, with the channel drained, every URI the router has for an app is announced by its service |
| Ticks.ListingFailsExactly | k8s/routes.go:34-37 | a listing of any services, in any order, fails exactly on an undecodable annotation of an app service |
| Ticks.UndecodableExactly | k8s/service.go:43-52 | in any run the next action makes a service undecodable exactly when it creates one for routes that do not decode |
| Ticks.ListingsSucceed | k8s/routes.go:22-48 | in every run whose desired LRPs carry URI lists no service is undecodable and no answered listing fails |
| Ticks.ListingIsExact | k8s/routes.go:28-47 | otherwise there is an entry for every app service with its routes, and no other entry |
| Ticks.ListingHasNoDuplicates | k8s/routes.go:28-47 | at most one entry per service |
| Ticks.ListingCoversApps | k8s/routes.go:22-48 | a valid app is listed exactly when its service exists, whatever else the namespace holds |
| Ticks.ListingListsApps | k8s/routes.go:22-48 | a successful listing has each app service once, by the letters of its name, with the URI list of its `routes` annotation |
| Ticks.FullTickRuns | route/collector.go:22-29 | a whole tick registers what is listed and changes nothing else |
| Ticks.FullTickRestores | route/collector.go:22-29 | from any reachable drained state in sync, a tick with nothing in between makes the router equal to the annotations, for every app and URI |
| Restore.ListingIsComplete | k8s/routes.go:22-48 | a listing has every announced route until its delivery, as long as no service is written |
| Restore.StaysCovered | route/collector.go:22-29 | after the delivery every announced route stays covered through operations, ticks and publishing, as long as nothing is lost |
| Restore.TickRestores | route/collector.go:22-29 | a tick around which operations, other ticks and publishing go on makes the router equal to the annotations once all is published, in sync and loss-free after the delivery |
| Restore.QuietTickRestores | route/collector.go:22-29 | on the quiet schedule any delivered tick does so |
| Ticks.TickInsideStopOrphansRoutes | k8s/service.go:113-120 | a tick between the unregister message and the deletion leaves the deleted service's routes registered |
| Ticks.LateTickOrphansRoutes | route/collector.go:22-29 | so does a listing taken there and delivered after the deletion |
| Races.GapIsReached | k8s/desire.go:43-90 | that gap is reached from the empty cluster, for every valid app and parsing URI, with nothing failing |
| Races.StopCanLeaveRoutes | k8s/service.go:113-120 | hence some run without any failure ends drained with a route to a service that is gone |
| Effects.DeleteRulesRuns | k8s/ingress.go:44-63 | cluster, outcome and requests of the rule deletion for every answer pattern |
| Effects.UpdateRulesRuns | k8s/ingress.go:65-118 | the same for the ingress update in all its branches, including the second fetch of the deletion |
| Effects.CreateServiceRuns | k8s/service.go:43-61 | the same for the service creation, which can fail after the object exists |
| Effects.UpdateServiceRuns | k8s/service.go:68-99 | the same for the service update |
| Effects.DeleteServiceRuns | k8s/service.go:101-121 | the same for the service deletion, whose batch is out before the last request |
| Effects.UpdateInstanceRuns | k8s/statefulset.go:62-74 | the same for the instance update |
| Effects.WithRulesReplaces | k8s/ingress.go:120-133 | replacing one service's rules leaves every other service's |
| Effects.OperationsKeepNames | k8s/statefulset.go:164-180 | objects stay stored under their names and labels, whichever requests fail |
| Effects.RepeatedDesire | k8s/desire.go:43-47 | a repeated `Desire` changes nothing and sends nothing, and returns nil whatever else of the app is missing |
| Effects.DesireOk | k8s/desire.go:43-58 | a `Desire` that returns nil either deployed all four resources and registered the routes, or found the instance, changed nothing and sent nothing; on a healthy server it returns nil in both cases |
| Effects.UpdateOk | k8s/desire.go:68-78 | the same for `Update`, with the difference sent |
| Effects.StopOk | k8s/desire.go:80-90 | the same for `Stop`, and what it leaves without an Ingress |
| Consistency.SuccessKeepsConsistent | k8s/desire.go:43-90 | an operation that returns nil keeps every app wholly deployed or wholly absent |
| Consistency.SuccessfulRunIsConsistent | k8s/desire.go:43-90 | so does any sequence of them |
| Consistency.SuccessfulRun | k8s/desire.go:43-90 | from a cluster with only foreign services: instance, headless service and service exist together, and the app's rules are exactly its annotation's |
| Consistency.IngressExistsExactly | k8s/ingress.go:57-99 | the Ingress exists exactly when some deployed app has a route |
| Consistency.StopSucceedsExactly | k8s/desire.go:80-90 | on a healthy server `Stop` of a deployed app succeeds exactly when the Ingress exists, and what it leaves otherwise |
| Consistency.DesireSucceedsExactly | k8s/desire.go:43-58 | on a healthy server a first `Desire` succeeds exactly when its routes decode and parse |
| Consistency.UpdateSucceedsExactly | k8s/desire.go:68-78 | on a healthy server `Update` succeeds exactly when, besides, the instance has annotations |
| Consistency.StopUndoesDesire | k8s/desire.go:43-90 | `Stop` after `Desire` returns nil exactly when the app has a route or the Ingress was there before; then the cluster is the one before `Desire`, and what was registered is unregistered |
| Failures.DesireDeploysExactly | k8s/desire.go:43-58 | a `Desire` that returns nil leaves the app deployed exactly when its instance was absent or the app was deployed before |
| Failures.HeadlessRefused | k8s/statefulset.go:55-60 | a refused headless service leaves a bare instance |
| Failures.RetriedDesireDeploysNothing | k8s/desire.go:43-58 | for every LRP: with that one request refused the retry returns nil, and a run ends with nothing but an instance |
| Failures.UndecodableDesire | k8s/service.go:43-52 | a `Desire` without decodable routes fails, on a healthy server, after it created the service |
| Failures.UpdateCanPanic | k8s/statefulset.go:62-70 | for every LRP without metadata a run without failing requests ends in the panic |
| Failures.ListingCanFail | k8s/routes.go:34-37 | for every LRP without decodable routes a run without failing requests ends in a state in which every listing fails |
| Failures.StopNeverResumes | k8s/desire.go:80-83 | once the instance is gone `Stop` fails at its first request, whatever it left |
| Failures.FailedStopRetried | k8s/desire.go:80-90 | a failed `Stop` can be retried exactly when its first request was the refused one and nothing else was missing |
| Failures.FailedUpdateRetried | k8s/desire.go:68-78 | a failed `Update` can be retried exactly when it was possible at all, and then ends as it should have |
| Failures.FailedDesireRetried | k8s/desire.go:43-58 | a failed first `Desire` is deployed by its retry exactly when it had not created the instance |
| Failures.StopCanFail | k8s/desire.go:80-90 | for every LRP with an empty route list a run without failing requests ends with `Stop` failed and the service left |
| Failures.StopClearsExactly | k8s/desire.go:80-90 | on a healthy server, nil or not: the exact leftovers of failed operations from which `Stop` leaves nothing of the app |
| Failures.DesireAfterHalfStop | k8s/desire.go:43-58 | after a half-failed `Stop`, `Desire` fails on the service that was left and restores what `Stop` had removed |
| Failures.HalfStopRepairsExactly | k8s/desire.go:43-90 | then `Stop` clears the app away exactly when the Ingress exists, and `Update` deploys it exactly when the LRP's routes decode and parse |
| Failures.UpdateFinishesDesire | k8s/desire.go:68-78 | `Update` deploys an app whose `Desire` failed at its rules, exactly when it is updatable |
| Instances.IngressUpdateDecodes | k8s/ingress.go:65-70 | the decoding panic is unreachable: the service step decoded the same text |
| Instances.NeverPanics | k8s/desire.go:49-77 | no operation of any run panics when every desired LRP has metadata |
| Instances.PanicsExactly | k8s/statefulset.go:62-70 | in any run the next action panics exactly when it updates an instance without annotations; `Failures.UpdateCanPanic` reaches one |
| Instances.InstancesMatchLedger | k8s/statefulset.go:62-180 | in every reachable state each StatefulSet has image, command, environment and annotations of its creating `Desire`, with the count and last-updated value of the latest accepted update, or else of the creation |
| Instances.ListReportsLedger | bifrost/bifrost.go:42-51 | a listing reports the creating `Desire`'s process GUID and the latest accepted last-updated value |
| Buildpacks.KeyForIsFirstMatch | recipe/staging_result_modifier.go:76-84 | the key is that of the first buildpack with the name, and there is one exactly when some buildpack has it |
| Buildpacks.KnownPrefix | recipe/staging_result_modifier.go:43-54 | the entries before the first unknown name |
| Buildpacks.BuildpacksKeyModifier.GetBuildpackKey | recipe/staging_result_modifier.go:76-84 | the search loop finds the first match or reports none |
| Buildpacks.BuildpacksKeyModifier.ModifyBuildpacks | recipe/staging_result_modifier.go:43-54 | the shared slice is rewritten exactly up to the first unknown name |
| Buildpacks.BuildpacksKeyModifier.Modify | recipe/staging_result_modifier.go:15-30 | succeeds exactly when all names are known; then every entry keeps its name and has the key of the first buildpack named like its old key; on failure at an index the caller's slice has exactly the entries before it rewritten |
| Staging.PacksExecutor.ExecuteRecipe | recipe/execute.go:58-90 | at most one completion, to `<address>/stage/<guid>/completed` with its GUID and callback: a failing step's with its reason, else the result with its keys replaced; none exactly when the success response cannot be built; the app's bits are asked for, and the droplet sent to the upload address, only when the steps before succeeded |
| Staging.PacksExecutor.RespondWithFailure | recipe/execute.go:124-148 | a failure is reported to `<address>/stage/<guid>/completed` under the staging's own GUID and callback, with its reason |
| Staging.TaskDesirer.DesireStaging | k8s/desiretask.go:26-95 | one job, named by the GUID in its environment, unless that job exists |
| Staging.TaskDesirer.Delete | k8s/desiretask.go:32-37 | removes the named job only |
| Staging.Stager.Stage | stager/stager.go:41-81 | a decodable request becomes the job named by its GUID, with the recipe image, the request's addresses, buildpacks and callback and the stager's credentials and addresses in ten named variables; any other request none; exactly a nil pointer to the data panics |
| Staging.Stager.CompleteStaging | stager/stager.go:83-156 | when the callback parses, a failed completion is posted to it as an error with its reason and a decodable result as a success; nothing else is posted; the job is deleted only after the POST was answered with a status below 300 |
| StagingRuns.EnvironmentCarriesRequest | recipe/cmd/recipe.go:17-82 | through nothing but the job's environment an execution reports its own staging's GUID, callback and buildpack keys |
| StagingRuns.ExecutionsKnowTheirRequest | recipe/cmd/recipe.go:17-74 | over every run: an execution reads from its environment its own request's GUIDs, upload address, callback and buildpacks, and the stager's address |
| StagingRuns.RunIsGood | stager/stager.go:41-110 | the protocol's invariant over every interleaving of stagings |
| StagingRuns.NoCrossTalk | stager/stager.go:83-156 | every POST for a staging goes to its own callback with the verdict of one of its own executions |
| StagingRuns.ArrivalsReportedExactly | stager/stager.go:83-110 | over every run: an arrived completion has a report exactly when its callback parses |
| StagingRuns.JobDeletedOnlyAfterReport | stager/stager.go:98-109 | an accepted staging's job is gone only after a POST for it was answered below 300 |
| StagingRuns.AtMostOneCompletion | recipe/execute.go:58-90 | each ended execution sent one completion, or none exactly when its success response could not be built; no completion leads to two POSTs |
| Blobs.InMemoryStore.Put | blobondemand/blonde.go:20-31 | the reader is used up, its bytes are stored under their digest, and a read error stores nothing |
| Blobs.InMemoryStore.PutWithID | blobondemand/blonde.go:33-44 | the same under the given key, returning the digest |
| Blobs.InMemoryStore.Has | blobondemand/blonde.go:46-49 | a drained blob is still there |
| Blobs.InMemoryStore.Get | blobondemand/blonde.go:51-54 | delivers and drops what the writer accepts, from this key only |
| Registry.Handlers.StageDroplet | registry/registry.go:140-218 | both stores move as in the run model: on 201 the layer under `sha256:` and its hash, nothing under the GUID, the droplet naming that digest and length; on any other status no droplet changes; a failing second read leaves the layer without a droplet |
| Registry.Handlers.ServeManifest | registry/registry.go:75-127 | schema 2, the four media types of the source, rootfs layer before droplet layer with their digests and sizes, and a config of user `vcap` with both digests, stored under its own; an unknown GUID panics without effect |
| Registry.Handlers.ServeBlob | registry/registry.go:57-66 | the client gets what is left of the blob as far as it reads, and the store loses it; an unknown digest panics without effect |
| Registry.BlobsConserved | blobondemand/blonde.go:20-54 | in every run, per key: bytes delivered since the last put, then bytes left, are the bytes put |
| Registry.FetchIsWholeExactly | blobondemand/blonde.go:51-54 | a fetch with room delivers the put bytes exactly when none was delivered since, and a second fetch gets nothing |
| Registry.SecondFetchGetsNothing | blobondemand/blonde.go:51-54 | the rootfs put at startup can be fetched once |
| Registry.StoreIsContentAddressed | registry/registry.go:196-218 | throughout a run every digest key holds its content and every GUID key nothing, exactly when no droplet is staged under the digest of other content |
| Registry.RefsAreStored | registry/registry.go:210-235 | every droplet reference, and the rootfs, names a stored digest and carries the length of a content with that digest |
| Registry.ManifestIsClosed | registry/registry.go:75-127 | every digest a served manifest names is stored and its layers are the config's `diff_ids` in order; the config's size is its length, and, when no droplet clobbers a digest and the hash has no collisions, so are the layers' sizes |
| Registry.DigestGuidErasesLayer | registry/registry.go:196-213 | a GUID that is another droplet's digest empties that droplet's layer |

## Left out

- HTTP handlers and routing, commands, configuration, logging, NATS wire encoding: no state of their own.
- The Kubernetes client, and concurrent operations on one app: the API server is `Client.Server`. Resource versions are modelled for the Ingress only (`Concurrent`).
- Ingress objects other than `eirini`, and rules with several paths, which this code never writes.
- Probes, the `POD_NAME` variable, ports, selectors and template labels of the created objects; a staging job's volumes, host aliases and deadline; tasks that are not stagings.
- `GetApp`, `GetInstances`, pod indices and the launcher's environment: translations without a property that spans them.
- Bifrost.Bifrost.Transfer: fetching and staging the droplet, and merging the environments, are parameters.
- Failures.StopClearsExactly: on a healthy API server, as the repairs beside it.
- Restore.TickRestores: for runs that lose nothing after the delivery, because nothing but the next tick repeats a lost registration.
- JSON, regular expressions, URL parsing, SHA-256, tar and gzip: decoded values and parameters stand for them; JSON `null` counts as the empty list.
- The channel is a queue: that a send waits for the receiver is not modelled, and a send on a nil channel, which would wait for ever, is excluded by precondition and shown never to be needed.
- The router's own pruning and sharing of endpoints: the table is keyed by the (app, URI) pair of the message.
- Staging.PacksExecutor.ExecuteRecipe: an address that does not parse is not told from a request that fails; a completion that never arrives is a flight that is never handled.
- Model.ToLower: lowers ASCII letters only.

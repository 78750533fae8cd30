# A verified model of the Landscaper service provider

The service provider for the Landscaper installs one Landscaper instance per `Landscaper` resource:
it watches the resource on the onboarding cluster, gets access to an MCP cluster and a workload
cluster, copies pull secrets and a CA bundle from the platform cluster, installs two deployers and
three landscaper components, publishes the webhooks server through a TLS route, and undoes all that
when the resource is deleted. The project models the reconciler with every API call it makes, the
installers, the status, the DNS and naming code and the watch handlers, and proves what they promise
over all runs, whatever fails and whatever others do in between.

`dafny verify dfyconfig.toml` checks all of it.

## How it is modelled

* **The world** (`World.dfy`) is one value: the stored Landscaper with resource version, generation,
  finalizer, deletion mark, annotation, id label and status; the platform cluster; the two access
  requests; the objects that runs for this Landscaper have created on the workload and the MCP cluster;
  what gateway and kubelets report; the triggers on their way; and, never changing, the id computed for the
  Landscaper and the name hash.
* **The API servers** (`Api.dfy`, class `Server`) serve one call at a time. A schedule, arbitrary but
  fixed, says for each call which steps others take before it and whether it is done, refused, or done
  without an answer. A process that stops is a run whose remaining calls are all refused. The server
  records every world it has been in and every operation that took effect; a trace is *legal* when every
  world satisfies the invariants and every step respects what no step may break: a step that writes to the
  clusters carries one operation, in the namespace of the stored id, a delete by source name comes after the
  source has been read, a route has a host of its own namespace, and no id is set but the computed one. `Records.dfy` proves what the record
  says, and what several records mean for one shared store.
* **The reconciler and the installers** (`Reconciler.dfy`, `Installers.dfy`, `Uninstallers.dfy`,
  `Dns.dfy`, `ConfigMaps.dfy`, `Readiness.dfy`) are methods that make the calls of the source in the
  order of the source. The longer ones are cut into several methods where the source has blank lines.
  `Knowledge.dfy` says what a run still knows of the stored Landscaper while others act; `Verdicts.dfy`
  reads off a world what an undisturbed create or update run comes to, the end of `Reconciler.dfy` the same
  for a delete run.
* **Plans** (`Plans.dfy`, `Store.dfy`) are the sequences of upserts and deletes of the installers as
  values. The installers are proved to carry out a first part of their plan and all of it on success;
  `Installation.dfy`, `Outcomes.dfy`, `Lifetimes.dfy` and `CaBundle.dfy` prove what plans achieve, and `Contents.dfy`
  says, object by object and without the functions the plans are made of, what an installed instance holds. Names of objects are
  kept in the terms they are computed from; `Identity.dfy` proves that their texts are as distinct.
* **The status** (`Conditions.dfy`) is a class with the fields of the draft; its conversion edits a list
  of conditions.
* **The watch handlers** (`Handlers.dfy`) work on all Landscapers at once, and are proved to refine the
  handler steps of the world.
* `Runs.dfy` states the results over all traces, and follows a deletion to its end. `Witnesses.dfy` gives
  inputs for which the code does not do what it is meant to do.

What is assumed of the libraries: an upsert creates or replaces; a delete tolerates absence; updates
and status updates are conditional on the resource version, and the status is a subresource; the
annotation patch is a merge patch without such a condition; the access library's `Reconcile` creates
missing requests and reports both granted only when they are; its `ReconcileDelete` moves live requests
into deletion and reports both gone only when they are; setting a condition changes its transition time
only with the status value; one worker works on a key, and reads are not stale. SHA-1 and the name hash
are arbitrary functions that separate the texts they are used on; where hosts under different base domains
are compared, the name hash also makes no dots. Others do not touch the
controller's finalizer, the id label once it is there, or the status; only the controller deletes
access requests; and nobody else works in an instance's namespaces.

## What the model shows about the code

* `SecretSync.Delete` is documented to remove the copied pull secrets, but it deletes by the name of the
  source (`internal/shared/imagepullsecrets/secrets_sync.go:58-72`). The copies stay: `Lifetimes.Residue`
  says exactly what is left, and `Witnesses.CopiesStay` that it is every copy when names are short. Such a
  delete can also hit a Secret that is still in use: `Installation.UninstallIntegrity` and
  `Runs.IntactUnlessClash` say exactly when, and `Witnesses.ClashBreaks` gives the configurations, those with
  a pull secret of the landscaper named `manifest-deployer-config`. It takes a Secret in the provider's
  namespace with such a name: `Runs.IntactByNames` lists the names to avoid.
* A deletion never completes while the provider configuration is missing, or, with both access requests
  live, the service provider or a pull secret of main, webhooks or manifest deployer is missing on the
  platform cluster: the uninstall reads each source before it deletes by its name. A missing secret of the
  helm deployer does not matter, since its error is swallowed. `Runs.Delete` proves both directions, and
  `Witnesses.DeletionStuck` gives a world.
* A delete run removes the copy of the CA bundle before the Deployments. It leaves a Deployment without its CA
  bundle for a while exactly if one mounts the configured bundle when the run begins
  (`Reconciler.LandscaperReconciler.Dismantle`, `CaBundle.CaRemovedFirst`).
* A create or update run whose CA bundle is missing fails without a word in the status
  (`Verdicts.JudgeObjects`).
* The controller watches Landscapers without a filter, so each write of its own starts another run. After an
  undisturbed run, whatever it has come to, no further one writes as long as only time passes, a deletion
  that is stuck and repeated forever included (`Runs.Repeat`). The one exception is the run after a successful
  uninstall.
* That run takes back what the one before has told. Uninstalled is True after exactly those undisturbed
  delete runs that uninstall the instance (`Runs.UninstalledTold`); the next one finds the requests in deletion,
  skips the uninstall, and starts from a draft with False (`internal/controller/reconcile.go:220-223`, `242-308`,
  `internal/controller/status.go:218-232`). So every later one stores False (`Runs.SuccessForgotten`), and the
  success of an uninstall is to be seen only until the next run.
* The patch that clears the annotation refreshes the object in memory, so a create run can go on, without a
  conflict, for a Landscaper that has been deleted in the meantime. Cleanup safety holds nevertheless.
* The handler for provider configurations gives up at the first failing patch, the two others go on
  (`Handlers.MissedBehind`).
* The namespace of a Landscaper is used as a format string when its id is computed. The hashed text is still
  injective (`Identity.HashedTextInjective`).

## Model

| member | source | states |
|---|---|---|
| Runs.Operate | internal/controller/reconcile.go:35-67 | Any number of runs, under any schedule of failures and of steps of others, leave one trace from the empty world in which every world satisfies the invariants and every step is linked to the one before; and the stored id is never another than the computed one if and only if no Landscaper is created with another id label |
| Runs.StartsWell | internal/controller/reconcile.go:35-67 | The invariants hold before anything has happened |
| Runs.CleanupAlways | internal/controller/reconcile.go:69-126 | Cleanup safety: in every reachable state an object that an uninstall has to remove has both access requests live, the finalizer set, and a stored id whose uninstall names it |
| Runs.FinalizerLast | internal/controller/reconcile.go:310-325 | The step that takes the finalizer away finds no such object and no access request left: whatever is still there is the workload namespace, a copy of a pull secret, or a ConfigMap |
| Runs.NoReturn | internal/controller/reconcile.go:242-310 | Point of no return: once a request of a Landscaper is in deletion, none of its requests is created and no call goes to its clusters any more, its objects stay as they are, and its requests are never both live again |
| Runs.NeverBack | internal/controller/reconcile.go:377-385 | While a Landscaper exists its id is not rewritten, Terminating is absorbing, and generation, deletion and observed generation never go back |
| Runs.ThereAllTheTime | internal/controller/reconcile.go:35-45 | A Landscaper (by uid) that is there at two points of a trace is there at every point between |
| Runs.StatusAlways | internal/controller/status.go:195-255 | Stored-status invariant in every reachable state: Ready phase iff Ready is True, Ready decided only if Installed is True, Terminating iff Uninstalled is present and then without the other two, observed generation within the generation |
| Runs.NoLostTrigger | internal/controller/reconcile.go:365-375 | No lost trigger: a copy is current, or a change is under way, or a repetition is outstanding, or the running reconcile has still to read the source |
| Runs.SettledIsCurrent | internal/controller/landscaper_controller.go:173-204 | Whenever nothing is under way, every pull-secret copy and the CA copy equal their present sources |
| Runs.SettledCopies | internal/controller/landscaper_controller.go:173-204 | The same spelled out: each pull secret of the override of a component, or else of the service provider, is in the Secret named after component and source with the contents of its source, and so is the CA bundle in its ConfigMap |
| Runs.OwnOperation | internal/shared/identity/instance.go:9-11 | Every operation on record works in the namespace that the stored id leads to at that time, for a Landscaper with the finalizer, and has changed the objects the way such an operation does |
| Runs.AssignedUnlessLabelled | internal/controller/reconcile.go:377-385 | The controller sets no id but the computed one: the stored id is always that one or missing if and only if no Landscaper is created with another id label |
| Runs.OnlyOwnNamespace | internal/shared/identity/instance.go:9-11 | A trace with one assigned id records operations, deletes included, in the namespace of that id only |
| Runs.InstanceIsolation | internal/shared/identity/id.go:27-33 | In any store shared by any number of Landscapers, however their operations are interleaved: outside its own namespace everything is as if the trace did not exist |
| Runs.OwnObjects | internal/shared/identity/id.go:27-33 | And inside its own namespace the shared store holds exactly what the trace has in its own store, if it did so at the start |
| Runs.Interleaving | internal/shared/identity/id.go:27-33 | Two Landscapers, any interleaving of their operations on any shared store, stopped anywhere: each finds exactly its own objects, deleted ones missing, and nothing outside the two namespaces has changed |
| Runs.HostsDiffer | internal/dns/dns.go:228-231 | However far the runs for two Landscapers with different ids have got, and whatever base domains their gateways have reported, the routes in the two stores have different hosts, as far as the name hash separates the two texts |
| Runs.OwnRoute | internal/dns/dns.go:123-163 | A route in any world of a trace lies in the namespace of the assigned id and has a host of that instance |
| Runs.IntactUnlessClash | internal/shared/imagepullsecrets/secrets_sync.go:59-78 | Every Deployment finds its Secrets in every world of a trace if and only if no step is a delete by source name that meets a Secret in use |
| Runs.IntactByNames | internal/shared/imagepullsecrets/secrets_sync.go:68-74 | As long as no Secret of the provider namespace is named like a fixed Secret of an instance or begins like a copy, every Deployment finds its Secrets in every world of a trace, whatever is configured and whatever the name hash: only sources that have just been read are deleted by name |
| Runs.Repeat | internal/controller/reconcile.go:49-66 | No self-triggering, for every Landscaper or none: of any number of undisturbed runs with only time passing in between, none but the first writes to the Landscaper, with exactly one exception: when the first run has uninstalled the instance, the second one writes as well |
| Runs.RepeatLiving | internal/controller/reconcile.go:49-66 | Create and update runs: after one undisturbed run, whatever it has come to, further ones with only time passing in between leave the stored Landscaper identical and come to the same end |
| Runs.RepeatDying | internal/controller/reconcile.go:220-326 | Delete runs, stuck ones included: after one undisturbed run further ones leave the stored Landscaper identical, except that the run after a successful uninstall writes to it; the first run stores the status judged or ends with the Landscaper gone |
| Runs.AgainLiving | internal/controller/reconcile.go:49-66 | The single step of it: a run, at any later time, that sees what the one before has seen leaves the stored Landscaper identical and comes to the same end |
| Runs.AgainDying | internal/controller/reconcile.go:220-326 | The single step of it: a run after a delete run, at any later time, leaves the stored Landscaper identical if and only if the one before has not uninstalled the instance; a Landscaper that is gone stays so |
| Runs.RestsAfterwards | internal/controller/reconcile.go:242-325 | After an undisturbed delete run that leaves the Landscaper there, a run at any later time that finds nothing else changed has nothing to write if and only if the first one has not uninstalled the instance |
| Runs.UninstalledTold | internal/controller/reconcile.go:301-307 | An undisturbed delete run stores Uninstalled as True if and only if it finds configuration, granted access, service provider and the needed pull secrets, and as False otherwise |
| Runs.SuccessForgotten | internal/controller/reconcile.go:242-308 | The success of an uninstall does not stay in the status: whatever happens in between, every later undisturbed run for the same Landscaper that leaves it there stores Uninstalled as False again |
| Runs.WritesUnlessStill | internal/controller/reconcile.go:328-339 | An undisturbed create or update run writes to the Landscaper exactly if it does not find everything as it would leave it |
| Reconciler.WritesUnlessRests | internal/controller/reconcile.go:328-363 | An undisturbed delete run writes to the Landscaper exactly if it gives up the finalizer, notes another reference, or comes to another status |
| Runs.ReadyWhenAttainable | internal/controller/reconcile.go:69-218 | An undisturbed create or update run ends with Ready and 600 seconds if and only if configuration and version, access, base domain, service provider, CA bundle, pull secrets, acceptance and ready Deployments are there |
| Runs.NotReadyUnaccepted | internal/dns/dns.go:179-190 | As long as every Accepted condition of the route has another status, or is that of another gateway or of a parent without a namespace, an undisturbed run does not end with Ready |
| Runs.ReadyIsAccepted | internal/dns/dns.go:179-189 | Whatever happens in between, a run that ends with Ready has seen a parent named default in openmcp-system with an Accepted condition that is True |
| Runs.ReadyIsPublished | internal/dns/dns.go:129-156 | Such a run has published the instance through the default gateway towards its webhook Service, under a host that begins with the hash of its namespace and ends with a base domain the gateway had while it ran; the host in the URL of the webhooks server is of the same kind |
| Contents.ReadyIsFurnished | internal/controller/reconcile.go:501-544 | A run that ends with Ready has put up what the resolved provider configuration says, read off the objects and the fields of the configuration: images and pull secrets of each override, or else of repository and service provider, the CA bundle with a copy of its source, Secrets, Services and selectors |
| Runs.SpecHasItsWay | internal/controller/reconcile.go:390-398 | A reference in the spec to a configuration that exists is resolved and noted by every undisturbed run, whatever the status says |
| Runs.Round | internal/controller/reconcile.go:220-326 | One undisturbed round of operator and delete run strictly decreases the measure if the deletion can be completed, and keeps the finalizer if not |
| Runs.RoundMoves | internal/controller/reconcile.go:242-325 | The same on the three worlds of a round: the measure decreases under the condition, and the run is blocked without it |
| Runs.ServeEffect | internal/controller/reconcile.go:110-113 | What the access operator does to the two requests, by its contract |
| Runs.Delete | internal/controller/reconcile.go:220-326 | Deletion ends if and only if it can: two undisturbed rounds are enough when the configuration is found and, while both requests are live, service provider and needed pull secrets are there; otherwise no number of rounds is |
| Reconciler.LandscaperReconciler.Reconcile | internal/controller/reconcile.go:35-67 | Without an error the status in memory is the stored one or the object is gone; without an error and a repetition no finalizer is left; Ready, Installed and Uninstalled in the status are true of this run; an undisturbed create or update run ends as judged, stores the status judged, and writes nothing if there is nothing new to write; so does an undisturbed delete run, which moves the requests as its state calls for, fails exactly if blocked, and leaves the Landscaper gone exactly if it gives up the last finalizer; without a Landscaper nothing is done |
| Reconciler.LandscaperReconciler.Read | internal/controller/reconcile.go:38-47 | The run begins with the stored version, or may end at once because there is none |
| Reconciler.LandscaperReconciler.HandleCreateUpdateOperation | internal/controller/reconcile.go:69-218 | Without an error the run is repeated after 10, 20, 40 or 600 seconds; the draft says Ready exactly when it is 600, and then everything the configuration wants has been copied and the findings are sound; Installed is True only with the whole footprint written; undisturbed, result and draft, reason and message included, are those judged from the world at the start |
| Reconciler.LandscaperReconciler.HandleDeleteOperation | internal/controller/reconcile.go:220-326 | Terminating draft, Uninstalled True only when nothing is left; no repetition only after the finalizer has been given up; undisturbed, fails exactly when blocked and otherwise moves the requests on, with the draft, reason and message included, that the world at the start calls for, and writes to the Landscaper only the reference, if it is another one, and the finalizer, if both requests are gone |
| Reconciler.LandscaperReconciler.EnsureFinalizer | internal/controller/reconcile.go:341-351 | On success the stored Landscaper has the finalizer, and nothing else of it has changed |
| Reconciler.LandscaperReconciler.CheckReconcileAnnotation | internal/controller/reconcile.go:365-375 | On success the annotation is gone from the version in memory, which is the same Landscaper; it is called before anything is read |
| Reconciler.LandscaperReconciler.EnsureInstanceID | internal/controller/reconcile.go:377-385 | On success the id is there: the old one if there was one, the one computed from namespace and name otherwise |
| Reconciler.LandscaperReconciler.Claim | internal/controller/reconcile.go:75-85 | The three steps in this order: finalizer, annotation, id |
| Reconciler.LandscaperReconciler.Identify | internal/controller/reconcile.go:79-85 | Annotation, then id |
| Reconciler.LandscaperReconciler.FindVersion | internal/controller/reconcile.go:87-100 | The configuration, if it lists the version; otherwise Installed is False with the provider-configuration error |
| Reconciler.LandscaperReconciler.Onboard | internal/controller/reconcile.go:75-100 | On success finalizer and id are stored, the resolved configuration was found and lists the version; undisturbed, exactly when it exists and does; no write if there is nothing to note |
| Reconciler.LandscaperReconciler.DefaultName | internal/controller/reconcile.go:401-410 | The name of the first default configuration, or an error if there is none |
| Reconciler.LandscaperReconciler.ResolveName | internal/controller/reconcile.go:388-411 | Undisturbed, the name of the spec wins, without one that of the status, and where the winner is empty or there is none, that of the first configuration marked as default |
| Reconciler.LandscaperReconciler.ReadConfig | internal/controller/reconcile.go:413-419 | The configuration with that name, as it was during the call |
| Reconciler.LandscaperReconciler.FindConfiguration | internal/controller/reconcile.go:387-419 | Undisturbed, found exactly when it exists; the name is the one in the spec if that is not empty, without one in the spec the one in the status, and else that of a default configuration with no default before it; the configuration is one of the list and has that name |
| Reconciler.LandscaperReconciler.GetProviderConfigForLandscaper | internal/controller/reconcile.go:387-431 | The configuration, with its name written into the stored status; only the reference in the status has changed |
| Reconciler.LandscaperReconciler.NoteConfig | internal/controller/reconcile.go:420-428 | The first of the two compare-and-write points: only the reference changes |
| Reconciler.LandscaperReconciler.SendStatus | internal/controller/reconcile.go:331-337 | The status is stored with nothing else changed, or the object is gone, or nothing is known of either |
| Reconciler.LandscaperReconciler.WriteStatus | internal/controller/reconcile.go:331-337 | That the object is gone is no error; a failure leaves the version in memory as it was |
| Reconciler.LandscaperReconciler.UpdateStatus | internal/controller/reconcile.go:328-339 | No write for an equal status; on success the stored status is the one in memory |
| Reconciler.LandscaperReconciler.Connect | internal/controller/reconcile.go:102-127 | Ok(true) only with both requests live; undisturbed, exactly when both are granted |
| Reconciler.LandscaperReconciler.GainAccess | internal/controller/reconcile.go:102-127 | Access to both clusters, or a repetition after 10 seconds, or an error; undisturbed, access exactly with granted requests |
| Reconciler.LandscaperReconciler.GetClusters | internal/controller/reconcile.go:115-127 | Clients for both clusters; undisturbed, exactly when both requests are granted |
| Reconciler.LandscaperReconciler.MakeConfig | internal/controller/reconcile.go:470-544 | The computed configuration from the service provider read in the call; undisturbed, fails exactly without a service provider |
| Reconciler.LandscaperReconciler.AskGateway | internal/controller/reconcile.go:129-150 | The host name of the gateway; 20 seconds without a gateway, an error without a base domain |
| Reconciler.LandscaperReconciler.Configure | internal/controller/reconcile.go:151-156 | The configuration, or the configuration error; undisturbed, fails exactly without a service provider |
| Reconciler.LandscaperReconciler.PlanInstall | internal/controller/reconcile.go:129-156 | Configuration with a host name the gateway gave in the call, or a repetition after 20 seconds without a gateway, or an error, in the order of the source |
| Reconciler.LandscaperReconciler.SyncCa | internal/controller/reconcile.go:158-175 | The configuration gets the CA reference of the provider configuration, and its copy is there with contents its source had in the call; undisturbed, exactly when its source is there |
| Reconciler.LandscaperReconciler.InstallFootprint | internal/controller/reconcile.go:177-181 | After a successful install every key of the footprint is there with its wanted contents, the copies with contents their sources had in the call, and the copy of the CA bundle still is |
| Reconciler.LandscaperReconciler.InstallAll | internal/controller/reconcile.go:158-183 | Installed becomes True exactly when CA bundle and instance have been written completely; undisturbed, exactly when CA bundle and pull secrets are there, and a missing CA bundle leaves the draft as it is |
| Reconciler.LandscaperReconciler.Expose | internal/controller/reconcile.go:185-217 | 600 seconds and Ready exactly after route, acceptance and readiness of all five Deployments; only the route is written |
| Reconciler.LandscaperReconciler.AwaitRoute | internal/controller/reconcile.go:191-203 | Goes on only with a route accepted by the default gateway; 20 seconds otherwise |
| Reconciler.LandscaperReconciler.AwaitDeployments | internal/controller/reconcile.go:205-217 | Ready only with all five Deployments seen ready in the call, 40 seconds otherwise; undisturbed, exactly then |
| Reconciler.LandscaperReconciler.Await | internal/controller/reconcile.go:191-217 | The waits of 20 and 40 seconds, and Ready only with acceptance and all five Deployments seen in the call; undisturbed, exactly then |
| Reconciler.LandscaperReconciler.AreAccessRequestsInDeletion | internal/controller/reconcile.go:446-468 | The answer is right at the end of the call although the requests are read one after the other |
| Reconciler.LandscaperReconciler.InDeletion | internal/controller/reconcile.go:448-457 | One request: NotFound and a deletion timestamp both count as in deletion |
| Reconciler.LandscaperReconciler.UninstallIfLive | internal/controller/reconcile.go:234-308 | The uninstall, exactly as long as both requests are live; without them nothing is left |
| Reconciler.LandscaperReconciler.Uninstall | internal/controller/reconcile.go:245-308 | Done only when nothing is left that has to go; undisturbed with granted requests, done exactly when service provider and needed pull secrets are there |
| Reconciler.LandscaperReconciler.ConnectToRemove | internal/controller/reconcile.go:245-270 | With access, deletes are allowed in the namespace of the stored id |
| Reconciler.LandscaperReconciler.ConfigureRemoval | internal/controller/reconcile.go:272-277 | The configuration of the instance, without a host name; undisturbed, fails exactly without a service provider |
| Reconciler.LandscaperReconciler.RemoveInstance | internal/controller/reconcile.go:272-307 | Configuration and uninstall; undisturbed, done exactly when the instance is uninstallable |
| Reconciler.LandscaperReconciler.Dismantle | internal/controller/reconcile.go:279-307 | The operations of the run are, in this order, the delete of the route, that of the CA copy and the first ones of an uninstall plan; done only when nothing is left and the CA copy is gone; the run passes through a world where a Deployment misses its CA bundle if and only if a Deployment mounted the configured one at the start and its copy is gone at the end |
| Reconciler.LandscaperReconciler.RemoveAround | internal/controller/reconcile.go:279-299 | The route, then the copy of the CA bundle, and no other operation; both are gone on success |
| Reconciler.LandscaperReconciler.RemoveCa | internal/controller/reconcile.go:289-299 | On success the copy of the CA bundle is gone; a missing copy is no error; no other operation is made |
| Reconciler.LandscaperReconciler.RemoveObjects | internal/controller/reconcile.go:301-307 | After a complete uninstall no removable object is left; undisturbed, complete exactly when the looked-up sources exist |
| Reconciler.LandscaperReconciler.RemoveFinalizer | internal/controller/reconcile.go:353-363 | Allowed only when both requests are gone; on success the Landscaper is without the finalizer; undisturbed, nothing else of it changes, and it is gone exactly if that was its last finalizer |
| Reconciler.LandscaperReconciler.Release | internal/controller/reconcile.go:310-325 | The finalizer goes only after both requests; undisturbed, live requests move into deletion, and the Landscaper stays as it is unless both are gone |
| Reconciler.LandscaperReconciler.DeleteAccess | internal/controller/reconcile.go:310-319 | Ok(true) only when both requests are gone |
| Reconciler.LandscaperReconciler.Convert | internal/controller/reconcile.go:55-57 | The status in memory is the conversion of the draft, coherent, and may be stored |
| Reconciler.LandscaperReconciler.Store | internal/controller/reconcile.go:59-60 | The second compare-and-write point: the skipped write does not lose anything, since the stored status is then the same |
| Reconciler.LandscaperReconciler.Keep | internal/controller/reconcile.go:59-66 | Stores the status; without an error the stored one is the same or the object is gone, and what a final end needs is known to hold |
| Reconciler.LandscaperReconciler.Conclude | internal/controller/reconcile.go:59-66 | Stores the status and ends the run; an end without repetition finds no finalizer |
| Reconciler.LandscaperReconciler.Finish | internal/controller/reconcile.go:59-66 | A run may end without a quick repetition only if every wanted copy was written or the Landscaper is going |
| Reconciler.LandscaperReconciler.MayEnd | internal/controller/reconcile.go:182-217 | Why: the configuration read in the run is still the resolved one unless a change is under way |
| Reconciler.WantsWritten | internal/controller/reconcile.go:493-541 | What an instance configuration lists as pull secrets is all that the resolved configuration wants |
| Reconciler.ProgressedBy | internal/controller/reconcile.go:220-326 | The delete step after the configuration was found is the delete step of the whole run |
| Reconciler.UninstallableSources | internal/controller/reconcile.go:487-493 | The sources an uninstall looks up are those of the override or of the service provider |
| Knowledge.KnowsLasts | internal/controller/reconcile.go:35-67 | What a run knows of the stored Landscaper from the version it holds stays true while others act |
| Knowledge.PatchKnown | internal/controller/reconcile.go:365-375 | The unconditional annotation patch refreshes to the same Landscaper, whatever else has happened to it |
| Knowledge.CompleteEnds | internal/controller/reconcile.go:182-217 | Having copied everything the resolved configuration wants, a run may end for good |
| Knowledge.ResolvesAgain | internal/controller/reconcile.go:420-428 | Writing the resolved name into the status does not change what the references lead to |
| Knowledge.DraftSettles | internal/controller/reconcile.go:55-57 | A status computed from a coherent draft is coherent and follows the stored one |
| Knowledge.UninstalledClean | internal/controller/reconcile.go:279-307 | After route and uninstall plan no removable object is left in a reachable world |
| Conditions.ReconcileStatus.CreateOrUpdate | internal/controller/status.go:195-216 | The draft of a create run |
| Conditions.ReconcileStatus.Delete | internal/controller/status.go:218-232 | The draft of a delete run |
| Conditions.ReconcileStatus.SetInstall | internal/controller/status.go:23-51 | Sets the Installed condition and nothing else |
| Conditions.ReconcileStatus.SetUninstall | internal/controller/status.go:33-61 | Sets the Uninstalled condition and nothing else |
| Conditions.ReconcileStatus.SetWaitForReadinessCheck | internal/controller/status.go:63-71 | Sets Ready to False and nothing else |
| Conditions.ReconcileStatus.SetReady | internal/controller/status.go:73-83 | Sets Ready to True together with the phase |
| Conditions.ReconcileStatus.ConvertToLandscaperStatus | internal/controller/status.go:234-255 | The edits of the list, one after the other, are the specified conversion |
| Conditions.ConvertedLookup | internal/controller/status.go:234-255 | The conversion refines a map update: exactly the three managed types are set or removed, and a transition time changes only with the status value |
| Conditions.ConvertedKeeps | internal/controller/status.go:234-255 | Types stay unique, and the other conditions and their order stay as they are |
| Conditions.ConvertedTwice | internal/controller/status.go:234-255 | Idempotence: converting the same draft into the converted status again, at any later time, changes nothing |
| Conditions.ConvertedCoherent | internal/controller/status.go:195-255 | A coherent draft gives a coherent stored status |
| Conditions.ConvertedHas | internal/controller/status.go:234-255 | A managed condition has the value the draft gives it |
| Conditions.SetLookup | internal/controller/status.go:238-239 | Setting a condition changes that type only |
| Conditions.RemoveLookup | internal/controller/status.go:240-242 | Removing a condition changes that type only |
| World.EnvKeepsInv | internal/controller/landscaper_controller.go:92-129 | Whatever users, handlers, operator, platform and gateway do, the invariants stay and the controller can rely on its knowledge |
| World.DesiredIsReferenced | internal/controller/landscaper_controller.go:208-251 | Trigger completeness: every source of a copy that a run would make is recognised as referenced |
| World.HandlerCovered | internal/controller/landscaper_controller.go:173-204 | Taking and listing in a handler loses no trigger: a Landscaper listed with the annotation needs no patch |
| World.SourceCovered | internal/controller/landscaper_controller.go:115-122 | A change of a source puts its event under way |
| Calls.UpdateKeeps | internal/controller/reconcile.go:341-385 | A guarded update of finalizer or id, the latter to the computed one, keeps all invariants |
| Calls.PatchKeeps | internal/controller/reconcile.go:365-375 | Clearing the annotation keeps the triggers, since nothing has been read yet |
| Calls.StatusKeeps | internal/controller/reconcile.go:328-339 | A guarded status write keeps the stored-status invariant and the triggers |
| Calls.AccessKeeps | internal/controller/reconcile.go:102-113 | Creating requests is safe with the finalizer and before any of them was deleted |
| Calls.AccessDeleteKeeps | internal/controller/reconcile.go:310-319 | Deleting requests is safe when nothing is left and the Landscaper is going |
| Calls.PutKeeps | internal/installer/landscaper/installer.go:21-102 | An upsert with live requests, finalizer and id, at a key that an uninstall names, and of a Deployment only after its Secrets, keeps all invariants |
| Calls.CopyKeeps | internal/shared/imagepullsecrets/secrets_sync.go:38-46 | Writing what was read last leaves the copy current or a change under way |
| Calls.RemoveKeeps | internal/installer/landscaper/installer.go:107-183 | A delete before the requests go, of a fixed Secret only after the Deployments that refer to it, and by source name only after the source has been read, keeps all invariants |
| Calls.EndKeeps | internal/controller/reconcile.go:59-66 | A run may end for good when every wanted copy was written |
| Api.Server.UpdateLandscaper | internal/controller/reconcile.go:341-385 | Optimistic concurrency: takes effect only on the version in memory; may take effect and fail |
| Api.Server.PatchAnnotation | internal/controller/reconcile.go:366-372 | The merge patch is unconditional and returns the object as it is then |
| Api.Server.UpdateLandscaperStatus | internal/controller/reconcile.go:331-334 | Status subresource with optimistic concurrency; NotFound when the object is gone |
| Api.Server.ReconcileAccess | internal/controller/reconcile.go:103-113 | Creates missing requests; true exactly when both are granted |
| Api.Server.ReconcileAccessDelete | internal/controller/reconcile.go:310-319 | Moves live requests into deletion; true exactly when both are gone |
| Api.Server.Put | internal/installer/landscaper/installer.go:21-23 | An upsert, refused, done, or done without an answer; it is on record exactly if it took effect |
| Api.Server.PutCopy | internal/shared/imagepullsecrets/secrets_sync.go:42-48 | An upsert of exactly the contents read last, on record exactly if it took effect |
| Api.Server.Remove | internal/installer/landscaper/installer.go:116-118 | A delete that tolerates absence, on record exactly if it took effect |
| Installers.CreateOrUpdate | internal/installer/landscaper/installer.go:21-23 | The operations done, and those on record, are still the first ones of the plan, one more if the call succeeded; undisturbed, it succeeds |
| Installers.DeleteResource | internal/installer/landscaper/installer.go:116-118 | The same for a delete; on success nothing is left at the key |
| Installers.DeploymentGuard | internal/installer/landscaper/installer.go:47-88 | A Deployment may be stored as soon as the Secrets it mounts and the pull secrets it names are there |
| Installers.SyncOne | internal/shared/imagepullsecrets/secrets_sync.go:33-52 | At most one copy is written, under the name of the copy, with contents the source had in the call; undisturbed, exactly if the source is there |
| Installers.SyncNext | internal/shared/imagepullsecrets/secrets_sync.go:33-52 | The next source of a component: on success one more copy and one more reference, in order |
| Installers.SyncPullSecrets | internal/shared/imagepullsecrets/secrets_sync.go:29-56 | A prefix of the sources has been copied; on success all, and the references match the input in length and order and are there; undisturbed, success exactly if all sources are there |
| Installers.BeginDeployer | internal/installer/helmdeployer/installer.go:22-39 | Namespace and pull secrets of a deployer, with the references to the copies |
| Installers.PrepareDeployer | internal/installer/helmdeployer/installer.go:41-54 | Configuration, kubeconfig and HPA, in this order |
| Installers.InstallDeployer | internal/installer/helmdeployer/installer.go:16-67 | Helm and manifest deployer: the first operations of the plan in order, all of them on success, and the name of the Deployment; undisturbed, success exactly if its pull secrets are there |
| Installers.FinishDeployer | internal/installer/manifestdeployer/installer.go:42-56 | Configuration, kubeconfig, HPA, Deployment with the returned references |
| Installers.SyncLandscaper | internal/installer/landscaper/installer.go:32-45 | Pull secrets of main, central and webhooks, in this order, with the references of each |
| Installers.BeginLandscaper | internal/installer/landscaper/installer.go:14-45 | Namespace and pull secrets |
| Installers.PutSecrets | internal/installer/landscaper/installer.go:47-61 | The four Secrets, in this order; their contents are spelled out by Contents.InstallFurnishes |
| Installers.PutServices | internal/installer/landscaper/installer.go:63-71 | The two Services |
| Installers.PutDeployments | internal/installer/landscaper/installer.go:73-88 | The three Deployments, each with the references copied for it |
| Installers.PutHpas | internal/installer/landscaper/installer.go:90-102 | The three HPAs |
| Installers.InstallLandscaper | internal/installer/landscaper/installer.go:14-105 | The first operations of the landscaper plan, all of them on success |
| Installers.InstallRbac | internal/installer/rbac/installer.go:55-68 | The namespace on the MCP cluster |
| Installers.InstallDeployers | internal/installer/instance/installer.go:27-37 | Manifest deployer before helm deployer; both names are passed on |
| Installers.InstallInstance | internal/installer/instance/installer.go:15-46 | Whatever fails, the operations that took effect are the first ones of the install plan, on contents read in the call, and no other operation is on record; all of them on success; undisturbed, success exactly when every pull secret is there |
| Uninstallers.SecretUnused | internal/installer/landscaper/installer.go:137-161 | A fixed Secret is not in use once the Deployments are gone that may mount it |
| Uninstallers.DeleteOne | internal/shared/imagepullsecrets/secrets_sync.go:60-76 | The source must exist, and the Secret named like the source is deleted |
| Uninstallers.DeletePullSecrets | internal/shared/imagepullsecrets/secrets_sync.go:59-78 | A prefix of the deletes by source name; undisturbed, complete exactly when all sources exist |
| Uninstallers.UninstallLandscaper | internal/installer/landscaper/installer.go:107-183 | The first deletes of the landscaper plan, all of them on success; undisturbed, success exactly when the sources of main and webhooks exist |
| Uninstallers.DeleteLandscaperObjects | internal/installer/landscaper/installer.go:116-161 | HPAs, Deployments, Services, Secrets, in this order |
| Uninstallers.DeleteLandscaperPullSecrets | internal/installer/landscaper/installer.go:163-180 | The deletes by source name for the three components |
| Uninstallers.DeleteDeployer | internal/installer/helmdeployer/installer.go:78-92 | Deployment, HPA, kubeconfig, configuration, in this order |
| Uninstallers.UninstallHelmDeployer | internal/installer/helmdeployer/installer.go:69-106 | A failing pull-secret delete is swallowed after any number of them |
| Uninstallers.UninstallManifestDeployer | internal/installer/manifestdeployer/installer.go:63-100 | Undisturbed, success exactly when the sources exist |
| Uninstallers.UninstallRbac | internal/installer/rbac/installer.go:70-83 | The namespace on the MCP cluster goes last |
| Uninstallers.UninstallInstance | internal/installer/instance/installer.go:48-74 | Whatever fails, exactly the operations of a prefix of the uninstall plan are on record, all of it on success; undisturbed, success exactly when the sources of main, webhooks and manifest deployer exist |
| Outcomes.InstalledFootprint | internal/installer/instance/installer.go:15-46 | A complete installation has written the whole footprint, with copies as read, and has left the copy of the CA bundle in place |
| Outcomes.LikeKeepsIntegrity | internal/installer/landscaper/installer.go:47-88 | No install that stops anywhere leaves a Deployment without its Secrets, whatever was read |
| Lifetimes.AlwaysIntact | internal/installer/instance/installer.go:15-74 | Any sequence of first parts of install and uninstall plans, with changing configurations, keeps integrity when no source clashes with a Secret in use |
| Lifetimes.RunKeeps | internal/installer/instance/installer.go:15-74 | The same for one run |
| Lifetimes.InstallShaped | internal/installer/landscaper/deployment_central.go:110-163 | Every Deployment refers to Secrets and copies of its own component only |
| Lifetimes.Residue | internal/installer/instance/installer.go:15-74 | Exact residue: after any failed and successful attempts with any versions, images and contents of the sources, a complete install and a complete uninstall leave the original store, the workload namespace and the copies not named like a source, as the last install has written them |
| Lifetimes.AttemptsFrame | internal/installer/instance/installer.go:15-74 | No attempt touches anything outside the footprint |
| CaBundle.CaRemovedFirst | internal/controller/reconcile.go:289-301 | A delete run that has removed the copy leaves a Deployment without its CA bundle at some point if and only if one mounted it at the start; one that has not never does |
| CaBundle.CaBrokenIff | internal/controller/reconcile.go:279-307 | The same of the worlds that the run passes through |
| Records.Replay | internal/installer/instance/installer.go:15-74 | Between two positions of a trace the objects change by the operations recorded between them, in their order, and by nothing else |
| Records.PartDone | internal/installer/instance/installer.go:48-74 | Every world of a call is one in which a first part of its operations has been carried out |
| Records.MergeApart | internal/shared/identity/instance.go:9-11 | What others do in other namespaces, and when, makes no difference at a key |
| Verdicts.StillAfterwards | internal/controller/reconcile.go:49-66 | Whatever an undisturbed run has come to: the next one that sees the same would not write to the Landscaper, at any later time |
| Verdicts.SameVerdict | internal/controller/reconcile.go:69-218 | It comes to the same verdict and the same reference |
| Verdicts.ReadyIffAttainable | internal/controller/reconcile.go:69-218 | The verdict is Ready exactly if everything is there, and the status says so |
| Witnesses.DeletionStuck | internal/controller/reconcile.go:220-232 | A world that satisfies the invariants, and from which a deletion never completes: a configured pull secret is missing |
| Witnesses.ClashBreaks | internal/shared/imagepullsecrets/secrets_sync.go:59-78 | A pull secret of the landscaper named like the configuration of the manifest deployer: every uninstall after a complete install takes that Secret from the running Deployment |
| Witnesses.ClashExists | internal/shared/imagepullsecrets/secrets_sync.go:59-78 | Such a configuration, starting from the empty store |
| Witnesses.CopiesStay | internal/shared/imagepullsecrets/secrets_sync.go:59-78 | With source names of less than 22 characters every copy stays although the uninstall succeeds |
| Installation.InstallResult | internal/installer/instance/installer.go:15-46 | Install convergence: from any store every key of the footprint gets its wanted object, and nothing else changes |
| Contents.InstallFurnishes | internal/installer/instance/values.go:24-110 | What the objects hold after a complete install from any store, object by object: the kubeconfig of the MCP cluster in the four Secrets for it and that of the workload cluster in its own, a configuration for each deployer and one that lists both for the landscaper; five Deployments with the configured image, CA bundle, copies of their pull secrets in order and exactly the Secrets they need, each with a selector for its own pods alone and an HPA |
| Contents.FootprintFurnished | internal/installer/instance/values.go:24-110 | The same for a run that has written the whole footprint, whatever happened in between |
| Contents.FootprintHasCa | internal/shared/configmaps/configmap_sync.go:45-85 | The ConfigMap that the Deployments mount is a copy of the configured CA bundle as it was during the run |
| Contents.WantedServices | internal/installer/landscaper/service_webhooks.go:30-65 | The two Services pick the pods of the central Deployment and of the webhooks server alone; the latter serves the port the server is told to listen on, and the server is told its URL and the namespace of its certificates |
| Installation.InstallAgain | internal/installer/instance/installer.go:15-46 | From any failed prefix a complete install converges to the same store; a second one is the identity |
| Installation.InstallAims | internal/installer/landscaper/installer.go:14-105 | Every upsert of the plan writes what is wanted at its key |
| Installation.InstallWrites | internal/installer/landscaper/installer.go:14-105 | The plan writes every key of the footprint |
| Installation.InstallKeepsIntegrity | internal/installer/landscaper/installer.go:14-105 | Integrity at every point where an install may stop |
| Installation.UninstallResult | internal/installer/instance/installer.go:48-74 | An uninstall removes exactly the removable objects and the Secrets named like a deleted source |
| Installation.UninstallRemoves | internal/installer/landscaper/installer.go:107-183 | The keys deleted are those installed, and those hit by source name |
| Installation.UninstallOrder | internal/installer/landscaper/installer.go:107-183 | Secrets go after the Deployments that refer to them if and only if no source clashes |
| Installation.UninstallIntegrity | internal/installer/instance/installer.go:48-74 | Integrity at every point where an uninstall may stop, if and only if no source deleted by name clashes with a Secret still in use |
| Installation.PlansStayWithin | internal/installer/landscaper/values_helper.go:70-76 | Every operation works in the namespace of its own instance |
| Installation.InstancesApart | internal/shared/identity/instance.go:9-11 | Installs and uninstalls, stopped anywhere, leave other instances alone |
| Installation.KeysFaithful | internal/shared/identity/component.go:94-116 | Keys of an instance that are the same on the API server are the same, where the name hash separates the two sources at hand |
| Installation.DefaultsKeepServiceName | internal/installer/landscaper/values_helper.go:57-68 | The delete helper finds the Service although it skips the defaults |
| Installation.CopyNotHit | internal/shared/imagepullsecrets/secrets_sync.go:59-78 | No copy is deleted if no source is named like a copy |
| Store.Converges | internal/installer/landscaper/installer.go:14-105 | The outcome of a plan that writes each key consistently depends on the start only outside its keys |
| Store.ConvergesFromPrefix | internal/installer/landscaper/installer.go:14-105 | A plan converges from its own failures |
| Store.UpsertsKeepIntegrity | internal/installer/landscaper/installer.go:14-105 | Secrets first: integrity at every stop of a plan of upserts |
| Store.RemovalsKeepIntegrity | internal/installer/landscaper/installer.go:107-183 | Secrets last: integrity at every stop of a plan of deletes |
| Store.OutOfOrderBreaksIntegrity | internal/installer/landscaper/installer.go:107-183 | Any other order leaves a dangling reference at some stop |
| Store.OrderlyKeepsIntegrity | internal/installer/landscaper/installer.go:107-183 | An operation at its turn loses integrity if and only if it is a delete by source name that meets a Secret in use |
| Dns.ReconcileGateway | internal/dns/dns.go:62-102 | A host of the instance, one below the base domain of the gateway as read; none only without a gateway |
| Dns.GivenHost | internal/dns/dns.go:218-231 | A host that the gateway gives begins with the hash of the namespace and ends with a dot and the base domain of its annotation |
| Platform.HostIdentifies | internal/dns/dns.go:228-231 | The host identifies the namespace of the instance, whatever the base domains, as far as the name hash separates the two texts and makes no dots |
| Platform.HostNameInjective | internal/dns/dns.go:228-231 | Under one base domain the host identifies the namespace, as far as the name hash separates the two texts |
| Platform.HostNameParts | internal/dns/dns.go:228-231 | Prefix, hash of Service name and namespace, and base domain, in this order |
| Dns.ReconcileTLSRoute | internal/dns/dns.go:105-163 | The route with a host of the instance that the gateway gave in the call, towards the webhook Service; nothing else changes; undisturbed, success exactly with a base domain |
| Dns.AcceptedExactly | internal/dns/dns.go:179-189 | Acceptance spelled out: a condition of type Accepted with status True, of a parent named default in openmcp-system; a parent without a namespace does not count |
| Dns.FindAcceptance | internal/dns/dns.go:179-189 | The nested search finds such a condition exactly if there is one |
| Dns.IsTLSRouteReady | internal/dns/dns.go:166-191 | The route is there, and the answer is true exactly if some parent named default in openmcp-system has a condition of type Accepted with status True |
| Dns.DeleteTLSRoute | internal/dns/dns.go:194-216 | On success the route is gone; at most its delete is on record; a missing route is no error |
| ConfigMaps.SyncConfigMap | internal/shared/configmaps/configmap_sync.go:46-74 | The copy has the name and, as read in the call, the contents of its source |
| ConfigMaps.DeleteConfigMap | internal/shared/configmaps/configmap_sync.go:76-96 | After success or NotFound the copy is gone; at most its delete is on record |
| Readiness.Aggregate | internal/installer/instance/installer.go:76-83 | Aggregation is exactly the conjunction |
| Readiness.CheckDeployment | internal/installer/helmdeployer/installer.go:108-120 | Ready only if the Deployment was there and ready in the call; undisturbed, exactly then |
| Readiness.CheckComponents | internal/installer/landscaper/installer.go:185-208 | The loop over the Deployments, left at the first that cannot be read: ready only if all were seen ready, undisturbed exactly then |
| Readiness.CheckLandscaper | internal/installer/landscaper/installer.go:185-208 | The same for the three components of the landscaper |
| Readiness.CheckReadiness | internal/installer/instance/installer.go:76-83 | Ready only if all five Deployments were seen ready in the call; undisturbed, exactly then |
| Base32.RoundTrip | internal/shared/identity/id.go:31 | The unpadded lower-case base32 encoding of whole groups is invertible |
| Identity.HashedTextInjective | internal/shared/identity/id.go:30 | The text that is hashed identifies namespace and name although the namespace is the format string |
| Identity.InstanceNamespaceValid | internal/shared/identity/id.go:27-33 | Ids have 32 characters, and their namespaces are valid labels |
| Identity.EncodeInjective | internal/shared/identity/id.go:31 | Different digests have different encodings |
| Identity.DistinctNamespaces | internal/shared/identity/instance.go:9-11 | Different Landscapers get different namespaces as far as SHA-1 separates them |
| Identity.NamespaceInjective | internal/shared/identity/instance.go:9-11 | Different ids have different namespaces |
| Identity.SecretNamesDistinct | internal/shared/identity/component.go:98-116 | The names of Secrets are pairwise distinct over all components, suffixes and sources, the prefix-related pair included, where the name hash separates the two sources at hand |
| Identity.DefaultNamesDistinct | internal/shared/identity/component.go:94-96 | The default names of the five components are distinct |
| Identity.SelectorExact | internal/shared/identity/component.go:48-75 | A selector matches a pod template if and only if instance and component agree |
| Wiring.ServiceSelectsWebhooks | internal/installer/landscaper/service_webhooks.go:50-65 | The webhook Service selects exactly the pods of its own webhooks server |
| Wiring.ReadyIsWired | internal/installer/landscaper/deployment_webhooks.go:155-177 | URL, route, Service and server of a ready instance agree on host and port when the gateway has not changed in between |
| Platform.PullSecretsReferenced | internal/controller/reconcile.go:493-541 | Every pull secret an instance can be configured with is recognised by the reference check |
| Platform.ConfigFields | internal/controller/reconcile.go:501-544 | The computed configuration field by field: image at the version and pull secrets of the override of the component, even without any, or else the image of the repository and the pull secrets of the service provider; the controller also serves main; instance, URL, port and Service name |
| Platform.CreateConfigSources | internal/controller/reconcile.go:493-499 | The pull secrets of each component are those of its own override, even if it lists none, and those of the service provider without an override |
| Platform.NameChosen | internal/controller/reconcile.go:388-410 | A name is resolved exactly if it is the one in the spec, or without one in the spec the one in the status, or where the winner is empty or missing that of the first default configuration |
| Platform.FoundIff | internal/controller/reconcile.go:412-418 | A configuration is found exactly if one of the list has that name, which is not empty |
| Verdicts.NotedIsChosen | internal/controller/reconcile.go:387-431 | A run resolves a configuration exactly if one has a chosen name, and notes that name |
| Platform.ReferencedExactly | internal/controller/landscaper_controller.go:208-242 | A pull secret is referenced exactly if the service provider or one of the four overrides of some configuration lists it |
| Platform.ReferencesSecret | internal/controller/landscaper_controller.go:244-251 | The loop finds the name exactly if some reference has it |
| Platform.IsReferencedImagePullSecret | internal/controller/landscaper_controller.go:208-242 | The nested loops find the secret exactly if service provider or some configuration refers to it, as far as the reads succeed: a failing read of the service provider is skipped, a failing list ends the search; what is found is referenced |
| Platform.IsReferencedCaConfigMap | internal/controller/landscaper_controller.go:290-305 | The loop finds the ConfigMap exactly if the list succeeds and some configuration names it |
| Handlers.Onboarding.MapImagePullSecret | internal/controller/landscaper_controller.go:173-204 | Every Landscaper is annotated exactly if the handler sees the secret to be referenced, with whatever reads fail, and neither list nor its own patch fails |
| Handlers.Onboarding.MapCABundleConfigMap | internal/controller/landscaper_controller.go:255-286 | The same for ConfigMaps |
| Handlers.Onboarding.MapProviderConfig | internal/controller/landscaper_controller.go:133-169 | A Landscaper is annotated exactly if it refers to the configuration and no patch up to its own fails |
| Handlers.MissedBehind | internal/controller/landscaper_controller.go:151-164 | One failing patch of the provider-configuration handler costs all Landscapers behind it their trigger |
| Handlers.HandlerRefines | internal/controller/landscaper_controller.go:173-204 | For each Landscaper a handler amounts to handler steps of the world: same annotation, event taken, and a lapse on record exactly if a referenced change has left it without the annotation |

## Left out

- Start-up, CRDs, scheme registration, generated code, permission lists: no invariant of interest.
- Log output, message texts of errors, resource quantities, HPA metrics, environment variables, labels other than selector and template labels.
- Stale caches, several workers on one key, and more than one trigger source for the same event.
- When other controllers report an accepted route and ready Deployments: `Runs.ReadyWhenAttainable` takes their reports as given.
- Watch events for the controller's own writes: they are not counted as triggers, so that no result relies on them.
- Kubeconfig contents: one pair of kubeconfigs stands for all that a run may get, so the refresh of tokens is not modelled.
- The branch for disabled webhooks and the registry Secret of the helm deployer: the instance configuration never asks for either.
- The port wiring of the central Service: it targets a named port that its container does not declare.
- Secrets and ConfigMaps outside the provider's namespace, except that the handlers ignore them.
- Runs.Repeat: takes the text of an error to be the same each time, since texts of errors are not modelled.
- Runs.IntactByNames: is a condition to be checked on names beforehand, and sufficient only; the exact one, on the steps of a trace, is that of `Runs.IntactUnlessClash`.
- Installation.KeysFaithful: requires the name hash to separate the two sources at hand, which a hash of fixed length does not do for all texts.
- Runs.HostsDiffer: requires the name hash to separate the texts hashed for the two namespaces, and to make no dots; under one base domain `Platform.HostNameInjective` does without the latter.
- Identity.SecretNamesDistinct: requires the name hash to separate the two sources at hand, for the same reason.
- Reconciler.LandscaperReconciler.HandleCreateUpdateOperation: fixes reason and message of the Installed condition for each end of an undisturbed run; when calls fail, only that Installed is not True then and Ready not decided.
- Reconciler.LandscaperReconciler.HandleDeleteOperation: fixes reason and message of the Uninstalled condition for each end of an undisturbed run; when calls fail, only that Uninstalled is True with nothing left.
- Reconciler.LandscaperReconciler.Reconcile: is stated for Landscapers in namespaces without a percent sign, which names of namespaces cannot contain; in return a format string has no verbs.
- Runs.NoLostTrigger: counts a change of the provider configuration and a failing call of a handler as outstanding until the next run begins; until then only the periodic repetition covers them.
- World.HandlerCovered: takes the reference check of a handler as one step, although it reads service provider and configurations one after the other; a change of either in between counts as outstanding.
- Installers.PutServices: requires the Service name that the controller configures, since the delete run of the controller names that one.
- Installers.InstallInstance: requires the Service name that the controller configures, so that the delete run names every object that was created.
- Installers.InstallLandscaper: requires the two Deployment names that the deployers export, in the order in which the caller passes them on.
- Api.Server.Read: a read returns the present state and never an older one.
- Identity.DistinctNamespaces: assumes that SHA-1 separates the two texts at hand.

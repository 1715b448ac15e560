# Verification of the Watcher operator's reconcile protocol

The operator runs four controllers against one object store. The Watcher controller drives three
custom resources, WatcherAPI, WatcherDecisionEngine and WatcherApplier; the controller of each drives
a StatefulSet. A reconcile pass resets a table of conditions, puts finalizers on shared objects,
records an input hash in one pass and uses it in the next, writes dependent objects, folds everything
into Ready, and persists its status in a deferred write. This project models that protocol in Dafny
and proves what every interleaving keeps, what a single pass achieves, that the children and then the
whole operator converge, and that routes, endpoints and pods agree with each other.

## How the project is built

The stages of a pass are functions on the status being built (`Stages`). Everything else uses them:

- `World` is the cluster as a state machine. A schedule is any sequence of labels: one atomic step of
  one controller's pass, a crash (also the end of a pass), one half of the deferred write (applied or
  lost), or a move of the environment: users creating, editing and deleting CRs, the StatefulSet and
  Job controllers, other operators. `Apply` takes a step, `Run` a schedule; a label that is not
  enabled changes nothing. `Invariants` states what holds per kind; `Frames`, `Safety`, `SafetyChild`,
  `SafetyTop` and `SafetyRuns` prove it of every step and so of every schedule; `Theorems`,
  `Histories`, `Schema` and `Leak` draw the consequences.
- `SubPass` and `TopPass` are one pass on its own, as a function of the CR that is read and the replies
  that come back. `SubController` and `TopController` are the reconcilers in their own form, methods
  that update an instance field by field and return early; their contracts equate them with those
  functions. `SubTheorems` and `TopTheorems` say what a pass achieves for all replies, `SubReports` and
  `TopReports` what it reports: every condition, the exit, the record, the writes. `Refinement`,
  `TopRefinement` and, for deletion, `Deletion` prove that an undisturbed pass in `World` does what the
  sequential one does.
- `Specs` follows an edit of the Watcher to the children and their StatefulSets, field by field.
- `Convergence` puts a child, its StatefulSet and Memcached together with frozen inputs;
  `TopConvergence` puts three of these, the Watcher and the dbsync job together. `SecretChanges` says
  which changes of a secret reach the input hash and the pods.
- `Secrets`, `Endpoints`, `Routes`, `Watches`, `Pods` and `ServicePods` are the loops around the
  protocol: secrets, services and URLs, routes, the watch on secrets, pod volumes. `PodContents`
  puts volumes and mounts together: what a container finds at each path.

`Base`, `Conditions` and `Resources` hold the data. A trace beside a status is a history variable: it
says where True conditions came from and decides nothing.

## Hypotheses

- There is one CR of each kind in the namespace; a kind's finalizer has one name.
- Users leave the Memcached instance and the Prometheus secret of a CR as they are.
- The requeue timeout is positive. `Secrets.GuardsAgreeIff` shows what hangs on it.
- At most one pass runs per CR. A pass starts from the current CR. A read of a shared object may be
  old, and may miss the reader's own earlier changes.
- An update is accepted only on the version that was read, and adds no finalizer to an object under
  deletion; an object under deletion vanishes with its last finalizer. Create-or-patch is one step and
  writes only on a difference; a changed spec raises the generation.
- Other operators leave this operator's finalizers alone.
- A status write replaces the status and nothing else. The finalizer change and the status are
  written in either order; each may be lost.
- Hashing is injective, and does not depend on the order in which variables were added.
- The mirror reports the worst state first. Whether the Ready entry takes part is not visible in this
  repository, so it is a parameter (`skipReady`) of every statement that depends on it.
- A dbsync job whose hash is recorded counts as done.
- The names and paths that the TLS library mounts do not clash (`ServicePods.LibOk`).

Theorems on runs say how careful a run has to be (`SafetyRuns.Careful`), and each level is exact:

- `Core`, every run at all: the handshake, the condition prefixes, the recorded hashes, the schema
  order, the ledger of finalizers, no lost update.
- `Fins`, runs in which no delete pass misses a finalizer of its own that is there: finalizers are
  anchored, nothing is left behind. `Theorems.LeakIff` shows that such a read is exactly what leaves a
  finalizer behind; `Leak.FinalizerCanLeak` and `Leak.OldCopyCanLeak` are two schedules, one with a
  failed read of the Prometheus secret and one with nothing but an old copy.
- `Shield`, runs in which, besides, no working pass relies on an old copy for a finalizer that is
  gone: what is in use is held. `Theorems.ProtectionIff` shows that this is exact.

## Where the code and its comments differ

- Lines 331-333 and 337-339 of `controllers/watcherapi_controller.go` both say that a requeue can be
  ignored; the second one passes it on. A True endpoint that comes with a requeue leaves Ready
  undecided (`SubTheorems.ReadyIff`, `SubTheorems.RequeueWitness`).
- A failure to write the sub-level secret ends the Watcher's pass without an error and without a
  requeue (lines 570-573 of `controllers/watcher_controller.go`); `TopTheorems.TopSilentIff` shows it
  is the only such stop of a working pass.
- A child's deletion that cannot read Memcached ends the same way (`SubTheorems.SilentIff`).
- When a child's secret and its Prometheus secret have one name, only the latter's variable is hashed,
  and changes of the former reach the input hash through the rendered configuration alone
  (`SecretChanges.MainSecretIsCovered`). Of its values only the database account is looked up and not
  rendered; its change is hidden, as long as the client configuration that is looked up with it stays
  (`SecretChanges.AccountIsHidden`, `SecretChanges.OnlyTheAccountIsHidden`).

## Model

| member | source | states |
|---|---|---|
| SafetyRuns.RunKeeps | controllers/watcherapi_controller.go:90-351 | in every reachable cluster the invariant holds: a working pass stands exactly at its level of True conditions and every True readiness is backed by evidence (every run); a kind's finalizer sits on a shared object only while its CR is stored and registered, and a deleting pass holds only what it has still to release (runs without a misleading delete read); what is in use is held (runs without a misleading working read besides) |
| SafetyRuns.StepKeeps | controllers/watcherapi_controller.go:90-351 | the invariant, at each of its three strengths, is kept by every single step of every controller and of the environment, crashes and failed or lost writes included, save the misleading reads that the strength rules out |
| Safety.StartKeeps | controllers/watcherapi_controller.go:113-153 | opening a pass (reset, gate, delete branch) keeps the invariant |
| Safety.MetaKeeps | controllers/watcherapi_controller.go:126-138 | the finalizer half of the deferred write keeps it, applied or lost; dropping the CR's own finalizer only ever happens with nothing held |
| Safety.StatusKeeps | controllers/watcherapi_controller.go:126-138 | the status half of the deferred write keeps it, applied or lost, also when the CR's spec has moved on meanwhile |
| SafetyChild.ReadMemcachedKeeps | controllers/watcher_common.go:287-324 | reading Memcached keeps it, with a copy that may be old |
| SafetyChild.UpdateMemcachedKeeps | controllers/watcherapi_controller.go:213-225 | sending Memcached back with the finalizer added keeps it, whether the store takes it, refuses it, or takes it without the caller learning |
| SafetyChild.DeployKeeps | controllers/watcherapi_controller.go:458-535 | patching the StatefulSet keeps it: DeploymentReady turns True only with sound evidence from this very pass |
| SafetyChild.PublishKeeps | controllers/watcherapi_controller.go:661-692 | creating or patching the KeystoneEndpoint keeps it: the endpoint condition is True only with the finalizer in place |
| SafetyChild.ChildKeeps | controllers/watcherapplier_controller.go:143-241 | every working step of a child's pass keeps the invariant |
| SafetyTop.TopInputsKeeps | controllers/watcher_controller.go:498-551 | reading the Watcher's secrets keeps it |
| SafetyTop.UpdatePrometheusKeeps | controllers/watcher_controller.go:554-566 | putting the finalizer on the Prometheus secret keeps it, under version checks |
| SafetyTop.KeystoneKeeps | controllers/watcher_controller.go:960-1012 | registering the KeystoneService keeps it |
| SafetyTop.DbSyncKeeps | controllers/watcher_controller.go:1053-1103 | waiting for the dbsync job keeps it |
| SafetyTop.EnsureKeeps | controllers/watcher_controller.go:1144-1222 | patching a child and mirroring it keeps it: a True child condition in the parent is always backed by evidence for the derived spec |
| SafetyTop.TopKeeps | controllers/watcher_controller.go:462-692 | every working step of the Watcher's pass keeps the invariant |
| SafetyRuns.ReleaseReadKeeps | controllers/watcherapi_controller.go:694-750 | a delete pass that reads its next shared object keeps it, unless it misses its own finalizer there |
| SafetyRuns.ReleaseUpdateKeeps | controllers/watcherapi_controller.go:714-747 | a delete pass that sends an object back without its finalizer keeps it and moves on only once the finalizer is gone |
| Theorems.FinalizersAreAnchored | controllers/watcher_controller.go:1404-1457 | register before acquire, release before unregister: in every run without a misleading delete read, a finalizer on Memcached, the Prometheus secret, KeystoneService or KeystoneEndpoint implies that the CR is stored with its own finalizer |
| Theorems.NothingLeftBehind | controllers/watcherapi_controller.go:728-754 | in such a run, when a step makes a CR leave the store, none of its finalizers is left on any shared object |
| Theorems.InUseIsProtected | controllers/watcherapi_controller.go:206-225 | a CR not under deletion that persists an input, Memcached or Keystone condition as True has its finalizer on that object, unless some pass trusted a copy that still showed a finalizer already gone |
| Theorems.NoLostUpdate | controllers/watcherdecisionengine_controller.go:206-218 | in every run, a controller's step on Memcached or the Prometheus secret changes at most its own finalizer: nobody else's, foreign ones included, is lost |
| Theorems.Ledger | controllers/watcherapplier_controller.go:185-197 | over every run, each shared object carries exactly the finalizers of the kinds that acquired it and have not released it since |
| Theorems.LeakIff | controllers/watcher_controller.go:1404-1457 | from any cluster in order, a step makes a delete pass go past an object that still carries the kind's finalizer exactly when it reads that object without learning of it: a failed read of the Prometheus secret, or any copy or absence that misses the finalizer; past the last object it gives up the CR's own finalizer with that very step |
| Theorems.LeftoversComeFromLeaks | controllers/watcherapi_controller.go:711-754 | over every run at all, a finalizer whose CR is gone or no longer registered goes back to such a read |
| Theorems.ProtectionIff | controllers/watcher_controller.go:554-566 | from any cluster in order, a step that is no such read keeps everything in use protected exactly when no working pass goes on for a finalizer that an old copy shows and that is gone |
| Leak.FinalizerCanLeak | controllers/watcher_controller.go:1434-1457 | a concrete schedule with a failed read: the Watcher is gone and its finalizer stays on the secret |
| Leak.OldCopyCanLeak | controllers/watcher_controller.go:1434-1457 | the same with no failure at all: the delete pass reads the secret as it was before the finalizer |
| Deletion.DeleteRefines | controllers/watcherapi_controller.go:728-754 | an undisturbed delete pass of a child, for every reading, old copies included, and every fate of its updates: the sequential pass keeps its own finalizer exactly when the steps stop short of giving it up, and fails exactly then, unless what stopped them is an unreadable Memcached |
| Deletion.TopDeleteRefines | controllers/watcher_controller.go:1404-1457 | the same for the Watcher: database, KeystoneService, Prometheus secret; it fails exactly when it does not give up its finalizer |
| Deletion.GivesUpClear | controllers/watcherapi_controller.go:694-754 | from a cluster in order, with reads that do not miss its finalizer, a child's sequential delete pass gives its own finalizer up only when no shared object carries one of its kind |
| Deletion.TopGivesUpClear | controllers/watcher_controller.go:1420-1454 | the same for the Watcher |
| Theorems.ReadyMeansDeployed | controllers/watcher_controller.go:1188-1218 | whenever the Watcher persists Ready, each child's readiness it copied was earned for exactly the spec derived from the spec the Watcher read, which is the current one if its observed generation is |
| Theorems.ChildReadyMeansDeployed | controllers/watcherapi_controller.go:516-532 | a child that persists Ready for its current generation had its StatefulSet patched with its current image, resources, service account, node selector, TLS and replicas, observed, and fully ready |
| Specs.ReadyRollsOut | controllers/watcher_controller.go:1188-1218 | behind a Watcher that reports Ready for its current generation are three StatefulSets, each patched, observed and fully ready with its own image, resources, replicas and node selector as the Watcher's spec now gives them |
| Histories.EvidenceIsReal | controllers/watcherapi_controller.go:499-532 | every evidence quoted in any status or pass goes back to an earlier step of that child that had read that spec at that generation and left the StatefulSet as quoted |
| Histories.ReadyIsEarned | controllers/watcher_controller.go:1188-1218 | the handshake end to end: behind a Ready Watcher there is, for each child, such a step, for the spec the Watcher derived |
| Theorems.ConditionsArePrefixes | controllers/watcher_controller.go:462-692 | in every reachable cluster the persisted True conditions are a prefix of the pipeline, and Ready is True only over an all-True table |
| Histories.DeployedHashIsRecorded | controllers/watcherapi_controller.go:300-317 | a pass that reaches the StatefulSet uses the hash its CR had on record when it started and still has |
| Histories.HashRecordedBeforeDeployed | controllers/watcherapi_controller.go:894-912 | over whole runs, the hash a StatefulSet carries was on record in its CR at an earlier moment |
| Schema.RunSchema | controllers/watcher_controller.go:1053-1103 | over every run, a recorded job hash names a completed job, and a pass beyond the dbsync stage carries the hash of its own spec |
| Schema.ServicesOnlyAfterSchema | controllers/watcher_controller.go:606-666 | a child is created or gets a new spec only by a user or by a Watcher pass in which database, transport URL, inputs, config, dbsync and cron job were all True and the dbsync job for that spec had completed; it then gets exactly the derived spec |
| Schema.ChildrenAfterTheirJob | controllers/watcher_controller.go:1053-1103 | over whole runs: when the operator creates a child or gives it a new spec, a dbsync job was started earlier by a Watcher pass that had read the same name, API image and CA bundle, and completed since |
| Resources.JobHashTells | pkg/watcher/dbsync.go:22-111 | the recorded job hash is the same for two Watcher specs exactly when their jobs agree on name, API image and CA bundle |
| Conditions.MirrorTrue | controllers/watcher_controller.go:720-723 | the worst-first mirror is True exactly when something is mirrored and all of it is True |
| Conditions.MirrorIsWorst | controllers/watcher_controller.go:720-723 | the mirrored state is one of those mirrored and none of them is worse: Error, Warning, Info, undecided, True; there is one unless nothing is mirrored |
| Secrets.EnsureSecret | controllers/watcher_common.go:182-243 | the loop over the expected fields: hash, requeue, error and the one condition that is set, for every secret and field list |
| Secrets.HashIsTheValues | controllers/watcher_common.go:217-242 | success exactly when every field is there; two accepted secrets hash alike exactly when they agree on every field |
| Secrets.GuardsAgreeIff | controllers/watcher_controller.go:501-514 | the callers' two guards accept the same secrets exactly when the requeue timeout is positive |
| Endpoints.VHosts | controllers/watcherapi_controller.go:438-453 | the virtual hosts: both endpoints under their own names, each with its own certificate and key path exactly when its own secret is set |
| Endpoints.EnsureServiceExposed | controllers/watcherapi_controller.go:537-659 | for either visiting order: the first endpoint that stops decides; on success the URL of both, each built from its own service, override and protocol |
| Endpoints.EnsurePort | controllers/watcherapi_controller.go:561-656 | one service: its URL and no condition touched, or the condition and the exit of whatever stopped it |
| Endpoints.OrderIsIrrelevant | controllers/watcherapi_controller.go:545-561 | success is the same for both visiting orders: both endpoints have a URL |
| SubController.SubReconciler.InitStatus | controllers/watcherapi_controller.go:756-783 | afterwards the table lists exactly the kind's conditions, all of them undecided, at the generation that was read |
| SubController.SubReconciler.EnsureMemcached | controllers/watcher_common.go:287-324 | fails unless Memcached is there and ready; True exactly then; no other condition moves |
| SubController.SubReconciler.ReadInputs | controllers/watcherapi_controller.go:155-206 | main and Prometheus secret, with their different guards, and the variables they give |
| SubController.SubReconciler.ValidateTls | controllers/watcherapi_controller.go:234-293 | CA bundle first, then certificates: missing, bad and good, and the variables they give |
| SubController.SubReconciler.CreateHash | controllers/watcherapi_controller.go:894-912 | reports a change exactly when the recorded hash differs, and records it |
| SubController.SubReconciler.EnsureDeployment | controllers/watcherapplier_controller.go:478-530 | the StatefulSet is patched with the replicas, image, resources, service account, node selector and TLS of the spec, the CA and the hash; NotFound and requeues are treated differently by the API and the others |
| SubController.SubReconciler.EnsureKeystoneEndpoint | controllers/watcherapi_controller.go:661-692 | what is published, the mirrored state and the requeue |
| SubController.SubReconciler.ReconcileDelete | controllers/watcherapi_controller.go:728-754 | the own finalizer goes exactly when every object is dealt with; exit for each failure, among them the silent one on an unreadable Memcached |
| SubController.SubReconciler.Announce | controllers/watcherapi_controller.go:328-351 | services, then the Keystone endpoint, then Ready |
| SubController.SubReconciler.Deliver | controllers/watcherdecisionengine_controller.go:248-262 | from the StatefulSet to the end |
| SubController.SubReconciler.Complete | controllers/watcherapi_controller.go:328-351 | what follows a ready deployment, by kind |
| SubController.SubReconciler.Configure | controllers/watcherapplier_controller.go:199-225 | from the rendered configuration to the hash and the deployment |
| SubController.SubReconciler.Prepare | controllers/watcherapplier_controller.go:180-199 | Memcached and its finalizer |
| SubController.SubReconciler.Run | controllers/watcherapi_controller.go:113-351 | the body of the reconcile is the sequential pass, with its early returns |
| SubController.SubReconciler.Reconcile | controllers/watcherapi_controller.go:90-351 | the whole reconcile: persisted status, exit, own finalizer and everything written equal those of the sequential pass |
| SubTheorems.ReadyIff | controllers/watcherapi_controller.go:342-351 | a pass persists Ready exactly when every reply is the good one and the hash of its inputs was on record; and exactly when all other conditions are True, unless it asks for a requeue and the mirror counts the undecided Ready entry |
| SubTheorems.RequeueHidesReady | controllers/watcherapi_controller.go:337-351 | in that case all other conditions are persisted as True and Ready is not; it would be if the mirror left the Ready entry out |
| SubTheorems.RequeueWitness | controllers/watcherapi_controller.go:661-692 | a concrete CR and concrete replies that are that case, for every requeue |
| SubTheorems.DeploysOnlyRecorded | controllers/watcherapi_controller.go:300-317 | a pass that patches the StatefulSet does so with the hash of its inputs, on record since before; one that records a new hash writes no StatefulSet and no endpoint |
| SubReports.PassReports | controllers/watcherapi_controller.go:90-351 | the report of a working pass for all replies: the state of every condition with its severity, error and requeue, the recorded hash and ready count, and what is written |
| SubReports.ReadyBlames | controllers/watcherapi_controller.go:126-138 | the persisted Ready is False with a severity exactly when some other condition is and none is worse |
| SubReports.OnlyRegistered | controllers/watcherapi_controller.go:138-153 | nothing is written unless the CR is registered, initialised and not under deletion; what the passes before that do |
| SubReports.InputsNeed | controllers/watcherapi_controller.go:155-196 | which fields the main and the Prometheus secret must have, and that nothing else about them matters |
| SubReports.PublishesBoth | controllers/watcherapi_controller.go:537-692 | a published endpoint has a URL for both services, each from its own service type, override and certificate; only the public one asks for an ingress, and only if it is cluster-internal |
| Specs.SentWork | pkg/watcherapi/statefulset.go:132-217 | what a pass patches the StatefulSet with, field by field: the spec that was read, the hash on record, and the CA certificate that the Prometheus secret names |
| Specs.PatchOpensIff | controllers/watcherapplier_controller.go:478-530 | of two patches of one StatefulSet the second opens a new generation exactly when a field of the spec, the CA or the recorded hash differs |
| SubTheorems.SilentIff | controllers/watcherapi_controller.go:90-351 | the exact list of passes that end without error and without requeue |
| Refinement.PassRefines | controllers/watcherapi_controller.go:155-351 | a pass that nobody disturbs in the interleaved model ends in the status of the sequential pass and patches the StatefulSet exactly as that one says |
| Convergence.Converges | controllers/watcherapplier_controller.go:143-241 | with good frozen inputs, every schedule of passes, crashed passes and StatefulSet moves that falls into as many stretches giving both a turn as the measure says ends Ready with everything in place |
| Convergence.StepsKeep | controllers/watcherapplier_controller.go:143-241 | along any run the measure never grows |
| Convergence.NextKeeps | controllers/watcherapplier_controller.go:143-241 | each full pass lowers the measure unless only the StatefulSet controller can move, and then each of its moves does |
| Convergence.FinalIsReadyAndQuiet | controllers/watcherapplier_controller.go:229-241 | there the CR is Ready, the StatefulSet carries the hash of the inputs, and no further step writes anything |
| Convergence.HashExitsOnce | controllers/watcherapi_controller.go:300-314 | with stable inputs, full passes take the changed-hash exit at most once in a run |
| Convergence.NewHashReachesPods | controllers/watcherapi_controller.go:300-317 | after the inputs changed, two full passes of a registered child bring the new hash to the StatefulSet |
| Convergence.PassIsOneStep | controllers/watcherapi_controller.go:300-351 | a pass interleaved with any number of StatefulSet moves ends where the pass as one step, followed by the moves, ends |
| SecretChanges.HashIsTheInputs | controllers/watcherapi_controller.go:155-317 | with distinct names, the input hash stays exactly when everything hashed does: both secrets, CA bundle, certificates and rendered configuration |
| SecretChanges.HashedSecretReachesPods | controllers/watcher_common.go:36-59 | for every secret that enters the hash: when its hashed content changes, whatever the configuration is rendered to, a pass of the CR is asked for, the input hash changes, and two full passes later the StatefulSet carries it |
| SecretChanges.MainSecretIsCovered | controllers/watcherapi_controller.go:178-203 | whatever the configuration is rendered to, a change of the main secret's values changes the input hash exactly when no later variable bears the secret's name or the rendered configuration changes too |
| SecretChanges.PrometheusSecretIsCovered | controllers/watcherdecisionengine_controller.go:173-196 | the same for the Prometheus secret |
| SecretChanges.SecretChangeReachesPods | controllers/watcherdecisionengine_controller.go:552-570 | from one changed value of the main secret to a different hash on the StatefulSet, two passes later, however it is rendered |
| SecretChanges.AccountIsHidden | controllers/watcherapi_controller.go:383-455 | when main and Prometheus secret are one, a new database account in it leaves the input hash as it was, for every template, if the client configuration looked up with it stays |
| SecretChanges.OnlyTheAccountIsHidden | controllers/watcherapi_controller.go:383-455 | and nothing else is hidden: then, for an injective template, the hash stays exactly when every other hashed or rendered value and the Prometheus CA path do |
| TopConvergence.OperatorConverges | controllers/watcher_controller.go:381-692 | the whole operator: with good frozen inputs and every controller, every StatefulSet and the dbsync job having their turns among any crashed passes, the children end final and the Watcher Ready, and Ready it stays |
| TopConvergence.GivenHappens | controllers/watcher_controller.go:462-692 | its hypotheses can be met: replies to a new Watcher without TLS and to its children under which it may start from nothing |
| TopConvergence.SpecsArrive | controllers/watcher_controller.go:606-668 | the first phase: as many stretches as the measure says take the dbsync job to its end and every child to its derived spec |
| TopConvergence.KidConverges | controllers/watcher_controller.go:1144-1222 | the second: each child, inside the operator, ends final, whatever the others and the Watcher do |
| TopConvergence.ReadyStays | controllers/watcher_controller.go:684-692 | the third: over final children the first full pass of the Watcher makes it Ready, and no later step takes that back |
| TopController.WatcherReconciler.InitStatus | controllers/watcher_controller.go:695-812 | afterwards the table lists exactly the Watcher's conditions: the three rbac states as replied, all others undecided |
| TopController.WatcherReconciler.EnsureDB | controllers/watcher_controller.go:816-898 | stops unless the database is up, with an error exactly on a failure and a requeue exactly while waiting; the account is True exactly unless it failed, the database exactly when up; no other condition moves |
| TopController.WatcherReconciler.EnsureMQ | controllers/watcher_controller.go:475-496 | stops unless the transport URL is ready, with an error on failure and a requeue of ten seconds while waiting; True exactly when ready; no other condition moves |
| TopController.WatcherReconciler.ReadInputs | controllers/watcher_controller.go:499-551 | three secrets, each an error when unusable |
| TopController.WatcherReconciler.EnsureKeystoneService | controllers/watcher_controller.go:960-1012 | fails exactly when the write does; takes over the mirrored state when there is one and leaves the condition alone when there is none; a requeue is ignored |
| TopController.WatcherReconciler.EnsureDBSync | controllers/watcher_controller.go:1053-1103 | stops unless the job is done, with an error exactly when it failed; True exactly when done, and then the recorded hash is that of the specs with the same name, API image and CA bundle |
| TopController.WatcherReconciler.BuildSpec | controllers/watcher_controller.go:1155-1185 | the spec built for a child, branch by branch, is the derived one: its own image and replicas, endpoint certificates and overrides for the API alone, the Prometheus secret for all but the applier |
| TopController.WatcherReconciler.EnsureChild | controllers/watcher_controller.go:1196-1218 | what is patched, and the mirror taken only at the current generation |
| TopController.WatcherReconciler.ReconcileDelete | controllers/watcher_controller.go:1404-1457 | the own finalizer goes exactly when database and KeystoneService are dealt with and the secret's update does not fail; an unreadable secret does not stop it |
| TopController.WatcherReconciler.FinishChildren | controllers/watcher_controller.go:657-692 | engine, applier, clean-up, Ready |
| TopController.WatcherReconciler.ExposeApi | controllers/watcher_controller.go:622-653 | API, then routes |
| TopController.WatcherReconciler.Provision | controllers/watcher_controller.go:579-618 | KeystoneService, config, dbsync job, cron job |
| TopController.WatcherReconciler.Acquire | controllers/watcher_controller.go:499-575 | inputs, the secret's finalizer, and the swallowed failure of the sub-level secret |
| TopController.WatcherReconciler.Work | controllers/watcher_controller.go:462-692 | the working part: database, transport URL, and on |
| TopController.WatcherReconciler.Gate | controllers/watcher_controller.go:436-462 | the gate: rbac failure, registration, new status, deletion, work, in this order |
| TopController.WatcherReconciler.Run | controllers/watcher_controller.go:436-692 | the body of the reconcile is the sequential pass, with its early returns |
| TopController.WatcherReconciler.Reconcile | controllers/watcher_controller.go:381-692 | the whole reconcile: persisted status, exit, own finalizer and patched children equal those of the sequential pass |
| TopTheorems.TopReadyIff | controllers/watcher_controller.go:684-692 | the Watcher persists Ready exactly when everything went well and every child, up to date, mirrors True; and exactly when all other conditions are True, unless the final clean-up fails and the mirror leaves the Ready entry out |
| TopTheorems.ChildrenOnlyAfterSchema | controllers/watcher_controller.go:606-668 | in one pass: children are patched exactly when everything before them went well, in order, with the derived specs |
| Specs.SentSpecs | controllers/watcher_controller.go:1144-1376 | every spec a pass sends: the child's own image, replicas, custom config and resources, the Watcher's node selector where its template has none, certificates and overrides for the API alone, the Prometheus secret for all but the applier |
| Specs.EditReachesOne | controllers/watcher_controller.go:1144-1376 | an edit of one child's template or image changes the spec sent to that child, if it shows at all, and to no other |
| Specs.SelectorReaches | controllers/watcher_controller.go:1172-1176 | an edit of the Watcher's node selector reaches exactly the children whose templates have none |
| TopReports.TopPassReports | controllers/watcher_controller.go:381-692 | the report of a working Watcher pass for all replies: the state of every condition with its severity, error and requeue, the recorded job hash, the children patched, the update of the Prometheus secret |
| TopReports.TopReadyBlames | controllers/watcher_controller.go:417-432 | the persisted Ready blames the worst of the other conditions |
| TopReports.TopOnlyRegistered | controllers/watcher_controller.go:436-460 | nothing is written unless the Watcher is registered, initialised and not under deletion; a failing rbac helper comes first |
| TopReports.TopInputsNeed | controllers/watcher_controller.go:498-551 | which fields the three secrets must have |
| TopTheorems.TopSilentIff | controllers/watcher_controller.go:570-573 | a working pass ends silently exactly when it swallows a failure to write the sub-level secret, or is through |
| TopRefinement.TopPassRefines | controllers/watcher_controller.go:462-692 | an undisturbed Watcher pass in the interleaved model ends in the status of the sequential pass |
| Watches.FindObjectsForSrc | controllers/watcherapi_controller.go:860-892 | the requests are exactly those due to the fields before the first list call that fails |
| Watches.IndexAgreesWithScan | controllers/watcherapi_controller.go:786-844 | when no list call fails: the requests are those of the CRs in the namespace some watched field of which equals the name |
| Watches.HashedSecretWakes | controllers/watcher_common.go:36-59 | every secret that enters a child's input hash is covered by the child's indexes |
| Watches.NoSilentWait | controllers/watcherapi_controller.go:238-293 | a working pass that ends silently is Ready, recorded a new hash, waits for an object it owns, or waits for a missing secret whose creation is mapped back to this CR |
| Routes.DeleteRoutes | controllers/watcher_controller.go:122-157 | for any visiting order: deletes the labelled, controlled routes of a declining service, none other, also when a deletion fails |
| Routes.CheckCert | controllers/watcher_controller.go:226-235 | all three keys or an error |
| Routes.Encrypt | controllers/watcher_controller.go:220-285 | the second write of a route with TLS: a certificate with all its keys, reencrypt exactly when the pod's certificate is configured |
| Routes.CreateRoute | controllers/watcher_controller.go:172-297 | succeeds exactly when every reply is good; then the TLS of the matrix, the host name and the scheme; a failure leaves at most the first, plain route |
| Routes.EnsureRoute | controllers/watcher_controller.go:115-170 | deletion, then creation; exact success; every other route untouched |
| Routes.CheckCerts | controllers/watcher_controller.go:1522-1549 | stops unless both certificates in use are good; the stop is a requeue when the first bad one is missing and an error otherwise |
| Routes.ExposeService | controllers/watcher_controller.go:1493-1555 | one public service: success exactly when everything it needs is good, and then its step of the specification; what it may have changed otherwise |
| Routes.ExposeEndpoints | controllers/watcher_controller.go:1459-1557 | pod-level TLS without ingress TLS is rejected before any route is touched; success exactly when every turn goes well, and then a name without a route has got one exactly from a public ClusterIP service of that name annotated true; whatever the exit, a route is new, changed or gone only on account of a service that asks for it or declines it |
| Routes.GoodIsSmooth | controllers/watcher_controller.go:1493-1555 | good certificates and good answers are enough for success, whatever routes there are |
| Routes.SmoothMeans | controllers/watcher_controller.go:1519-1549 | and success means that each listed service's certificates, definitions and patches were good |
| Routes.ExposedMeans | controllers/watcher_controller.go:1493-1555 | after success every public service that asks for an ingress has its route, reencrypt exactly with pod-level TLS, edge exactly with ingress TLS only, plain exactly with neither; one that declines has none that the Watcher controls |
| Routes.DeletesExactly | controllers/watcher_controller.go:140-147 | exactly the labelled, controlled routes of declining services are gone, save one whose name a creating service takes over and which keeps its host; the others are as they were |
| Routes.CreatesExactly | controllers/watcher_controller.go:1510-1516 | a name without a route gets one exactly from a public ClusterIP service of that name annotated true, with the host name the router gives |
| Routes.PublicRouteIff | controllers/watcherapi_controller.go:601-616 | across the two controllers: the API's public service gets a route exactly when no override makes it anything but ClusterIP, and nothing else gets one |
| Pods.GetConfigSecretVolumes | pkg/watcher/volumes.go:53-79 | the loop gives one volume and one mount per secret |
| Pods.GetVolumes | pkg/watcher/volumes.go:10-28 | configuration volume, then the secrets' |
| Pods.GetVolumeMounts | pkg/watcher/volumes.go:31-50 | configuration mounts, then the secrets' |
| Pods.ItoaInjective | pkg/watcher/volumes.go:71 | printed indexes are distinct |
| Pods.ConfigWellFormedIff | pkg/watcher/volumes.go:10-79 | for a list of secrets of any length: well formed exactly when no secret is listed twice or called like the configuration volume |
| ServicePods.ApiProbes | pkg/watcherapi/statefulset.go:41-67 | the three probes share one action; all are https exactly when the public endpoint has TLS |
| ServicePods.CommonParts | pkg/watcherdecisionengine/statefulset.go:70-115 | log, custom config, CA bundle and Prometheus CA parts |
| ServicePods.ApiStatefulSet | pkg/watcherapi/statefulset.go:27-217 | volumes, mounts of both containers and the configuration hash of the API pod |
| ServicePods.EngineStatefulSet | pkg/watcherdecisionengine/statefulset.go:24-182 | the same for the decision engine |
| ServicePods.ApplierStatefulSet | pkg/watcherapplier/statefulset.go:23-150 | the same for the applier |
| ServicePods.DBPurgeCronJob | pkg/watcher/dbpurgecronjob.go:43-72 | volumes and mounts of the purge job |
| ServicePods.DbSyncJob | pkg/watcher/dbsync.go:22-111 | volumes and mounts of the dbsync job |
| PodContents.ServiceFinds | pkg/watcherapi/statefulset.go:69-129 | what a service's container finds at every path, from volumes and mounts together: its configuration, my.cnf, its own start file, CA bundle, Prometheus CA and each endpoint's own certificate, and nothing else anywhere |
| PodContents.PurgeFinds | pkg/watcher/dbpurgecronjob.go:43-72 | the same for the purge job, with its scripts |
| PodContents.SyncFinds | pkg/watcher/dbsync.go:22-111 | the same for the dbsync job, with the Watcher's snippets |
| ServicePods.ServiceWellFormedIff | pkg/watcherapi/statefulset.go:69-129 | a service pod is well formed exactly when the Prometheus CA is not mounted over another path |
| ServicePods.PlainKeyWellFormed | pkg/watcherapi/statefulset.go:92-111 | so it always is when the key is a file name |
| ServicePods.ClimbingKeyClashes | pkg/watcherapi/statefulset.go:104-109 | a key that climbs out of its directory can clash with the CA bundle |
| ServicePods.JobsWellFormed | pkg/watcher/dbpurgecronjob.go:43-72 | the pods of both jobs are always well formed |
| ServicePods.TlsAgrees | pkg/watcherapi/statefulset.go:112-129 | for each endpoint: certificate in the virtual host, volume, mounts and https protocol, all exactly when its TLS is on |
| ServicePods.PrometheusCaPath | controllers/watcherapi_controller.go:403-411 | the rendered CA path, from the two keys of the secret |
| ServicePods.CaPathAgrees | controllers/watcherapi_controller.go:468-478 | the rendered path and the mounted one: one exactly when the other, and then the same |

## Left out

- Library internals (lib-common, controller-runtime, the mariadb, keystone, rabbitmq and memcached APIs) are not part of this model; their answers are parameters.
- The branches on an error of the hash function are left out: the hash is total.
- Timestamps, reasons and messages of conditions, and tie-breaking by time in the mirror, are left out; only type, status and severity are kept.
- Rendered templates are an abstract hash in `SubPass.Replies`; connection strings, httpd and kolla files are not modelled.
- User overrides of routes and services are not merged: the TLS of a route is stated before the merge, and of an override only the service type and the endpoint URL are kept, of a route only the certificate.
- A nil condition list and an empty one are the same table in the model.
- The library's answer to a route or service patch is taken as a reply; that a foreign controller on an existing route makes the patch fail is not modelled.
- The routes step inside `TopController.WatcherReconciler.ExposeApi` takes the outcome of exposing the endpoints as a reply; `Routes` states what that call does.
- TransportURL creation and the reading of its secret inside ensureMQ are one reply with three outcomes.
- The literal names of the library's hash variables for the CA bundle and the certificates, and the name under which it hashes the rendered configuration, are assumed; the statements only need them to be fixed.
- An error while defining the API's StatefulSet is the same reply as a failed patch: the source sets the same condition and returns an error in both.
- Deletion of a StatefulSet's pods by the kubelet, node failures and replica counts that move away from the target are not part of the convergence model; they are part of the interleaved one.
- TopConvergence.OperatorConverges: a Watcher pass is one step against its children's steps, cut short only by a crash between its writes; a child's pass may be taken for one step by `Convergence.PassIsOneStep`. Inputs, the sub-level secret that children read among them, are frozen and good, and the stretches are counted in two phases because a child's measure depends on the spec it gets.
- SecretChanges.OnlyTheAccountIsHidden: templates are a function of the values they name; that two different values render alike is excluded by taking the function injective.
- The service id, API endpoints in the status and ready counts copied into the Watcher's status are left out: no other step reads them.
- Container commands, probes' timings, resources, affinity and node selectors of pods are carried as opaque values or left out.
- Changes of Memcached's server list and of the Keystone API's endpoint are not watched by these controllers, so nothing is claimed about them.
- Webhooks, defaulting, deep copies, logging, RBAC rules and the wiring of the manager would only add easy members.

# cEOS-lab controller: a verified model

The controller of the `CEosLabDevice` custom resource turns one device description into certificate
secrets, boot files, one pod and one service, and keeps them in step with the description. Each call of
`Reconcile` is one step: it creates what is missing, then walks a fixed chain of comparisons, repairs the
first mismatch, saves the status and asks to be called again. Correctness is spread over many calls. This
project models the step, proves the imperative controller against the model, and proves what runs of steps
achieve.

## How it is organised

| module | content |
|---|---|
| `Basics`, `Text`, `Api` | options, Go maps, decimal numbers, sorting; the resource and the Kubernetes objects |
| `Names`, `Files`, `Services`, `Volumes`, `Quantities`, `Pods` | what the controller builds and reads back, each loop proved against a function, and the properties of that function |
| `Status` | `ConfigMapStatus` on the heap: maps shared by reference, decoding, deep copy, edits in place |
| `Reconcile` | one pass as a relation: `CreateMissing`, `Diagnosis`, `Repair`, `Pass` |
| `Controller` | class `Reconciler`, the imperative controller with its two `ConfigMapStatus` objects; its method `Reconcile` refines `Reconcile.Pass` |
| `CreationFacts`, `Soundness` | the invariant: ledger and stale flag tell the truth; success means synced |
| `Runs`, `Exits` | whole runs, and every exit of a pass: when it is taken, and exactly when the invariant survives |
| `OneLine` | the same in terms of file names, for names without newlines |
| `Success` | exactly when a reported success is the truth, in any run at all |
| `Convergence`, `Progress` | the work ahead as a number; exactly when success comes and what it costs |
| `Endless` | conflicting services: exactly when a fixed spec restarts the pod without end |
| `Reading` | numerals, lower case and the order of strings, read independently of how they are computed |
| `AskedServices`, `AskedVolumes`, `AskedFiles`, `AskedPods`, `Asked` | what is built, compared and reported as success, in terms of the spec and of literal text, naming no function that computes it |
| `Effects` | a pass object by object: what it creates and how far it gets, which mismatch it acts on, what that changes |
| `Mounts`, `MountRuns` | exactly when the pod has the right files although no comparison looks at them |
| `Sharpness` | short runs showing that the hypotheses are needed |

A `World` is the stored device with its status, and every object the controller looks at. Choices a pass does
not make itself (key generations that fail, map iteration order, which offending certificate is met first)
are its `Draw` and `Verdict`; every theorem holds for all of them. *Healthy* passes are those with a valid
spec: interface names match, quantities parse, services do not conflict, key generation works and a startup
config's permissions are well-formed. `m` below is the number of configured certificates whose secret was made
from another configuration, `x` the number of recorded certificates that are no longer configured.

Where the code and its comments disagree the model follows the code:

- The comment at lines 421-424 of the controller expects a changed startup config to be noticed there. It
  never is: the version was already noted at line 255 (`Soundness.StartupNeverDiffers`). The restart comes
  from the comparison with the snapshot.
- The comment at line 984 calls malformed permissions unexpected because the controller sets them. A startup
  config comes from elsewhere and may carry them too. This panic is a second exit, next to lines 565-568, that
  leaves without saving the status (`Exits.CrashesExactly`, `Sharpness.PanicLosesRecord`).
- The sample script at lines 707-714 has a blank the written line at 730 does not have.

## Model

| member | source | states |
|---|---|---|
| Controller.Reconciler.Reconcile | controllers/ceoslabdevice_controller.go:122-605 | One call leaves the stored state that the model of a pass allows for the choices made, and returns its outcome (done, requeue, error, panic); config maps, pods and services under other names stay as they are (the model's pass says what becomes of every secret), and without a stored device everything does |
| Controller.Reconciler.UpdateDevice | controllers/ceoslabdevice_controller.go:87-106 | Saves exactly the in-memory status, in the form it survives JSON, with the new state |
| Controller.Reconciler.EnsureCerts | controllers/ceoslabdevice_controller.go:158-184 | Creates and records every missing certificate secret up to the first failing key generation; collects exactly the configured secrets |
| Controller.Reconciler.EnsureRcEos | controllers/ceoslabdevice_controller.go:186-200 | Writes the script and clears the stale flag only if the script is missing and certificates are configured |
| Controller.Reconciler.EnsureIntf | controllers/ceoslabdevice_controller.go:202-221 | Writes and records a missing interface mapping; fails, changing nothing, on an unrecognised interface |
| Controller.Reconciler.EnsureToggles | controllers/ceoslabdevice_controller.go:223-239 | Writes and records missing toggle overrides, in whatever order the map is ranged over |
| Controller.Reconciler.NoteStartup | controllers/ceoslabdevice_controller.go:241-258 | Notes the resource version of an existing startup config and mounts it |
| Controller.Reconciler.AddPod | controllers/ceoslabdevice_controller.go:262-280 | A missing pod is built from the collected objects, and the live status is deep-copied into the snapshot, which no later edit in place reaches; an existing pod keeps its snapshot |
| Controller.Reconciler.AddService | controllers/ceoslabdevice_controller.go:282-299 | A missing service is built only if services are configured |
| Controller.Reconciler.CreateMissing | controllers/ceoslabdevice_controller.go:148-299 | The whole creating half, including how far it gets when something fails |
| Controller.Reconciler.Compare | controllers/ceoslabdevice_controller.go:318-604 | Finds a verdict that the chain of comparisons allows; which offending certificate is found first is left open |
| Controller.Reconciler.CompareLate | controllers/ceoslabdevice_controller.go:470-599 | The comparisons of environment, image, resources, arguments, services and agents, in that order |
| Controller.Reconciler.Repair | controllers/ceoslabdevice_controller.go:303-599 | Every requeueing verdict repairs the one thing it names, in memory and in the cluster |
| Controller.Reconciler.Conclude | controllers/ceoslabdevice_controller.go:500-605 | Which verdicts save the status, in which state, and which do not |
| Status.ConfigMapStatus.DeepCopyInto | api/v1alpha1/zz_generated.deepcopy.go:186-214 | The copy equals its source and consists of fresh objects only; the source keeps its value |
| Status.ConfigMapStatus.RecordCert | controllers/ceoslabdevice_controller.go:168-175 | Recording a certificate in place |
| Status.ConfigMapStatus.ForgetCert | controllers/ceoslabdevice_controller.go:330-339 | Dropping a certificate in place; an emptied map becomes nil |
| Status.SnapshotThenEdit | controllers/ceoslabdevice_controller.go:268-275 | After the snapshot no sequence of in-place edits of the live certificates changes it |
| Status.EditLive | controllers/ceoslabdevice_controller.go:168-339 | Any number of inserts and deletes on the live map acts on the live ledger only |
| Soundness.SavingLosesNothing | controllers/ceoslabdevice_controller.go:87-106 | In every pass, healthy or not, what is saved is what was in memory: each ledger map is nil or non-empty, so omitempty loses nothing |
| Soundness.CanonicalEquality | controllers/ceoslabdevice_controller.go:442-444 | Between canonical ledgers reflect.DeepEqual is equality of the entries |
| Soundness.StartupNeverDiffers | controllers/ceoslabdevice_controller.go:416-430 | The branch for a differing startup version is never taken: the version was noted earlier in the pass |
| Soundness.CreationPrepares | controllers/ceoslabdevice_controller.go:148-299 | After the creating half everything configured exists, recorded truthfully, and an unmarked script is right or the certificate comparison will find out |
| Soundness.RepairKeepsCore | controllers/ceoslabdevice_controller.go:318-604 | Whatever the verdict, a saved repair leaves every secret and file built from its record |
| Soundness.RepairKeepsStaleSound | controllers/ceoslabdevice_controller.go:318-367 | After a saved repair a script not marked stale is the one for exactly the recorded certificates |
| Soundness.HealthyCreates | controllers/ceoslabdevice_controller.go:148-299 | With a valid spec and working key generation nothing stops a pass before the comparisons |
| Soundness.HealthyPass | controllers/ceoslabdevice_controller.go:122-605 | Every pass with a valid spec ends in a saved repair: done exactly on success, requeued otherwise |
| Soundness.HealthyPassKeepsInv | controllers/ceoslabdevice_controller.go:122-605 | Ledger and stale flag stay truthful over a pass with a valid spec |
| Soundness.SuccessIsSynced | controllers/ceoslabdevice_controller.go:318-604 | A pass that reports success leaves exactly the configured secrets, script, mapping and toggles with the demanded ledger, the compared pod fields as configured, and the service ports as configured when services are |
| Soundness.DiagnosedLedger | controllers/ceoslabdevice_controller.go:318-453 | Past the ledger comparisons the ledger is the one the spec demands |
| Exits.InvKeptExactly | controllers/ceoslabdevice_controller.go:122-605 | Whatever goes wrong in a pass, ledger and stale flag stay truthful if and only if the pass is harmless, which is read off the world before it, the certificates whose key generation fails, and the order the toggles are ranged over |
| Exits.EndsExactly | controllers/ceoslabdevice_controller.go:148-299 | How the creating half ends (no key, a later failure, a panic, or through) is read off the world before the pass |
| Exits.StopsExactly | controllers/ceoslabdevice_controller.go:564-568 | A pass leaves unsaved at conflicting services if and only if, before it, the services conflict and nothing else is left to repair ahead of them |
| Exits.CrashesExactly | controllers/ceoslabdevice_controller.go:979-988 | A pass panics if and only if it gets to build a pod, the quantities parse, and the startup config has malformed permissions |
| Exits.UnsavedExitExactly | controllers/ceoslabdevice_controller.go:564-568 | Leaving unsaved is harmless if and only if everything just created fits what was on record already |
| Exits.FailedExitExactly | controllers/ceoslabdevice_controller.go:186-221 | Failing after the script was written is harmless if and only if the certificates on record then, dropped ones included, make that script |
| OneLine.HarmlessByNamesExactly | controllers/ceoslabdevice_controller.go:703-779 | Harm told from names: a pass is harmless if no recorded certificate was dropped or renamed and what it leaves unsaved is on record; when no name has a newline, only then |
| OneLine.NameImitatesLines | controllers/ceoslabdevice_controller.go:703-736 | Names with newlines can imitate lines: one certificate has the script of three others |
| Exits.CreationKeepsCore | controllers/ceoslabdevice_controller.go:148-299 | A creation that fails half-way still records what it made |
| Exits.RunKeepsInv | controllers/ceoslabdevice_controller.go:122-605 | The ledger tells the truth in every state of every harmless run, under edits, deletions and startup configs in between |
| Exits.HealthyRunIsHarmless | controllers/ceoslabdevice_controller.go:122-605 | Runs whose passes meet valid specs are harmless |
| Success.SuccessIsTrueExactly | controllers/ceoslabdevice_controller.go:318-604 | A reported success leaves the cluster synced if and only if what existed before the pass was right: every secret wanted, recorded and built from its configuration, an existing script that of the configured certificates, an existing mapping or toggle file configured, recorded and built from the spec |
| Success.ServiceLeftExactly | controllers/ceoslabdevice_controller.go:282-299 | After a success the service, too, is as configured if and only if services are configured or there was no service before the pass |
| Success.SuccessInAnyRun | controllers/ceoslabdevice_controller.go:122-605 | Both, after any run from a fresh device, whatever fails in it |
| Success.TruthIsKept | controllers/ceoslabdevice_controller.go:318-604 | Where ledger and stale flag tell the truth, what exists when success is reported was right already |
| Success.HarmlessSuccessIsTrue | controllers/ceoslabdevice_controller.go:122-605 | So after any harmless run from a fresh device reported success means a synced cluster |
| Runs.EventKeepsInv | controllers/ceoslabdevice_controller.go:122-605 | Edits of the device and loss of owned objects keep the ledger truthful, and so does a healthy pass |
| Runs.RunStaysCanonical | controllers/ceoslabdevice_controller.go:87-106 | In every state of any run, harmless or not, each ledger map is nil or non-empty |
| Convergence.PassDoesOne | controllers/ceoslabdevice_controller.go:318-604 | A healthy pass reports success if and only if no work is left, and otherwise does exactly one unit of it; exactly the repairs that delete the pod use up its share |
| Convergence.CreationKeepsWork | controllers/ceoslabdevice_controller.go:148-299 | Recreating what is missing never changes the amount of work left |
| Convergence.LedgerDoneIffDemanded | controllers/ceoslabdevice_controller.go:318-440 | No ledger work is left exactly if the ledger is the demanded one |
| Convergence.FileRepairDoesOne | controllers/ceoslabdevice_controller.go:318-440 | Each repair of a secret, a file or the ledger is one unit of work |
| Convergence.WorkBound | controllers/ceoslabdevice_controller.go:318-604 | The work is at most m + x + 7 |
| Progress.SucceedsExactlyWhen | controllers/ceoslabdevice_controller.go:122-605 | In a run of healthy passes, pass number i (from zero) reports success if and only if i is at least the work at the start, for every map iteration order |
| Progress.SuccessWithinBound | controllers/ceoslabdevice_controller.go:122-605 | Success is reported by pass number m + x + 8 at the latest, and by every later one |
| Progress.SuccessAt | controllers/ceoslabdevice_controller.go:122-605 | What such a run reports success for is in place |
| Progress.PodDeletedExactly | controllers/ceoslabdevice_controller.go:442-599 | Under a fixed spec the pod is deleted at most once, and by the time of success exactly as often as predicted at the start |
| Progress.RelabellingKeepsPod | controllers/ceoslabdevice_controller.go:455-581 | One edit of labels and services of a synced device never restarts the pod and is in place within three passes |
| Progress.RelabellingRestarts | controllers/ceoslabdevice_controller.go:455-581 | From any truthful world, a run of healthy passes and any number of label and service edits deletes the pod exactly as often as was due before it, less what is still due at its end |
| Progress.RelabellingNeverRestarts | controllers/ceoslabdevice_controller.go:455-581 | So from a synced device such a run never deletes the pod |
| Progress.AtRest | controllers/ceoslabdevice_controller.go:122-605 | At a synced state a pass changes nothing at all |
| Progress.PassExists | controllers/ceoslabdevice_controller.go:122-605 | A healthy pass can always be taken |
| Progress.FreshSucceedsAtOnce | controllers/ceoslabdevice_controller.go:122-605 | A fresh device with a valid spec succeeds in its first pass |
| Progress.DisturbancesBoundRestarts | controllers/ceoslabdevice_controller.go:442-599 | In any run of healthy passes each event that is not a pass (edit, loss, startup config) costs at most one restart of the pod |
| Endless.OutdatedRestartsForever | controllers/ceoslabdevice_controller.go:442-453 | A settled device (services conflict, a service exists, no ledger work is left) whose snapshot is outdated: every second pass deletes the pod, without end, although nobody interferes |
| Endless.SavedRestartsOnce | controllers/ceoslabdevice_controller.go:442-568 | With the right snapshot the pod of a settled device is deleted at most once more |
| Endless.RestartsForeverExactly | controllers/ceoslabdevice_controller.go:442-568 | So a settled device restarts its pod without end if and only if the snapshot is outdated |
| Endless.TwoPassesLeadBack | controllers/ceoslabdevice_controller.go:442-568 | Such a restart leads back to exactly the same world in two passes |
| Endless.NoServiceNeverRestarts | controllers/ceoslabdevice_controller.go:282-299 | While services conflict and no service exists, no pass deletes the pod |
| MountRuns.MountsToldInAnyRun | controllers/ceoslabdevice_controller.go:262-280 | In every state of every run, whatever fails: the pod mounts what is configured if and only if that has the shapes of what was configured when the pod was created |
| MountRuns.MountsRightAtSuccess | controllers/ceoslabdevice_controller.go:262-280 | Over harmless runs from a fresh device, with any edits, losses and new startup configs: at success the pod mounts exactly the configured objects if and only if nothing on record was dropped from the spec when the pod was created, or, for a pod whose snapshot was not saved, if and only if the specs of then and now ask for alike files; the contents it was booted from are right if and only if, besides, a script written with it was right, or the files asked for are those it was built with |
| MountRuns.SavedExactly | controllers/ceoslabdevice_controller.go:564-568 | The pass that builds a pod saves its snapshot if and only if it does not stop at conflicting services, or the same snapshot was saved already |
| Mounts.MountsRightExactly | controllers/ceoslabdevice_controller.go:262-280 | For one creation and any later synced world with its snapshot: the mounts are right if and only if nothing on record was dropped from the spec at the creation |
| Mounts.UnsavedMountsExactly | controllers/ceoslabdevice_controller.go:262-280 | A pod built while the ledger was in step with its spec has the mounts of a later synced world if and only if the certificates have the same number and file names, mapping and toggles are empty alike, and the startup configs have one shape |
| Mounts.UnsavedContentsExactly | controllers/ceoslabdevice_controller.go:262-280 | And its contents if and only if certificates, mapping and startup config are the same and the toggle file is one for the toggles asked for later |
| Mounts.BornContentsExactly | controllers/ceoslabdevice_controller.go:262-280 | And so are the contents if and only if, besides, a script written at the creation was the one of the certificates on record |
| Mounts.CreationMounts | controllers/ceoslabdevice_controller.go:148-299 | A pod created by a pass, even one that fails later, mounts what is configured and comes with the ledger of the moment; both guards read the same before and after |
| MountRuns.RunKeepsWitnessed | controllers/ceoslabdevice_controller.go:122-605 | Along every harmless run the pod mounts what was configured when it was created, and the snapshot is the ledger of that moment or was not saved; then that ledger was the one the spec demanded |
| MountRuns.FixedFilesAreRight | controllers/ceoslabdevice_controller.go:262-280 | If the files asked for stay fixed from the first pass after a success (or a fresh start) to the next success, mounts and contents are right at every success; without a saved snapshot the mounts are right if and only if the startup configs of then and now are alike |
| Sharpness.LooksSyncedSucceeds | controllers/ceoslabdevice_controller.go:318-604 | Success is reported whenever the comparisons find nothing, however the files look |
| Sharpness.LooksSyncedOnly | controllers/ceoslabdevice_controller.go:318-604 | And then nothing else can be reported |
| Sharpness.StartingPoint | controllers/ceoslabdevice_controller.go:122-605 | Such a synced device, with mapping and services, exists: one pass over a fresh device makes it |
| Sharpness.StartingPointWithCerts | controllers/ceoslabdevice_controller.go:122-605 | A synced device with a certificate exists, too |
| Sharpness.EmptiedServicesLeaveService | controllers/ceoslabdevice_controller.go:284-299 | From any synced device: with the services removed, success is reported at once and the old service stays |
| Sharpness.WrongScriptReported | controllers/ceoslabdevice_controller.go:186-221 | From any synced device without mapping: a pass that fails on a malformed mapping can leave the script of other files unmarked; success is reported with it, and the device is not synced |
| Sharpness.ImitatingNameIsHarmless | controllers/ceoslabdevice_controller.go:186-221 | A pass that fails after it wrote the script of another certificate keeps ledger and stale flag truthful: its name imitates the lines of the certificates on record |
| Sharpness.OtherScriptIsWrong | controllers/ceoslabdevice_controller.go:703-736 | Another script leaves a device synced if and only if it copies the same files in the same order |
| Sharpness.RemappedPodMissesMount | controllers/ceoslabdevice_controller.go:262-280 | From any synced device with a mapping: dropping and restoring it while the pod is away gives success, in a synced world, without the mount |
| Sharpness.StoppedPodMissesMount | controllers/ceoslabdevice_controller.go:564-568 | From any synced device with mapping and services, without losing an object: a pass that stops at conflicting services builds a pod whose snapshot is not saved, every guard holding there, and success is reported later without the mapping's mount |
| Sharpness.ConflictRestartsForever | controllers/ceoslabdevice_controller.go:442-568 | If the conflicting spec stays in that run, the pod is restarted in every second pass |
| Sharpness.UnsavedExitOrphans | controllers/ceoslabdevice_controller.go:564-568 | From any synced device with mapping and services: the exit that does not save loses a record, and the file is left over at success |
| Sharpness.OrphanStays | controllers/ceoslabdevice_controller.go:364-388 | No run of passes removes a mapping without record until a mapping is configured again or somebody else deletes it |
| Sharpness.PanicLosesRecord | controllers/ceoslabdevice_controller.go:979-988 | A startup config with malformed permissions makes the first pass panic, leaving the mapping without record |
| Effects.PassEffects | controllers/ceoslabdevice_controller.go:300-605 | A pass object by object: it acts on the first mismatch in the order of the comparisons; at most one secret, file, pod or service is gone, or the pod's labels are changed; the ledger, the state and the outcome are those of that mismatch; a failure saves the failed state and a panic or conflicting services save nothing |
| Effects.VerdictIsFirstMismatch | controllers/ceoslabdevice_controller.go:318-604 | The verdicts a pass can reach are exactly the first mismatches between spec and cluster, each mismatch written out in its place in the order |
| Effects.UnparsableFailsAndKeeps | controllers/ceoslabdevice_controller.go:500-509 | Unparsable quantities leave the failed state, are done with, and change nothing else |
| Effects.PodRemovedExactly | controllers/ceoslabdevice_controller.go:442-599 | A pass that finds a pod deletes it if and only if the snapshot is outdated or a setting of the pod differs; otherwise only new labels change it |
| Effects.StateTells | controllers/ceoslabdevice_controller.go:87-120 | A saved pass leaves state success if and only if everything matched, failed if and only if the creating half failed or the quantities do not parse |
| Effects.CreationOnlyAdds | controllers/ceoslabdevice_controller.go:148-299 | However it ends, the creating half keeps every object there is; each new one is configured, with the right contents, and on record; a new pod comes with the ledger |
| Effects.ReadyMissesNothing | controllers/ceoslabdevice_controller.go:148-299 | If nothing stops it everything configured is there, and the startup config is noted |
| Effects.CreationReaches | controllers/ceoslabdevice_controller.go:148-299 | How far it gets is read off the world before: certificates in order up to the first failing key, then script, mapping, toggles, pod, service, each only if what comes before did not fail |
| Effects.NewPodIsBuiltFor | controllers/ceoslabdevice_controller.go:783-828 | A new pod has one volume per configured object, one mount under /mnt/flash per file, and the labels and settings of the spec |
| Asked.SyncedExactlyInPlace | controllers/ceoslabdevice_controller.go:122-605 | Synced means, and is no more than: the secrets under their literal names with certificate and key, the literal boot script, the two halves of the mapping, one line per toggle, the pod's labels and settings, the forwarded ports, and a ledger of all that |
| Asked.SuccessPutsInPlace | controllers/ceoslabdevice_controller.go:122-605 | After any run from a fresh device a reported success has put everything in that place if and only if what existed before the pass was right |
| Asked.ConfiguredExactly | controllers/ceoslabdevice_controller.go:145-258 | The objects collected for the pod, by their literal names |
| Asked.BootScriptMode | controllers/ceoslabdevice_controller.go:734 | The boot script is mounted with mode 509, octal 775 |
| AskedPods.FieldsAgreeExactly | controllers/ceoslabdevice_controller.go:470-599 | The comparisons find nothing in exactly the pods with the asked environment, image, quantities, arguments, init arguments, init image and agents, each written out in terms of the spec |
| AskedPods.PodExactly | controllers/ceoslabdevice_controller.go:783-828 | Building the pod fails exactly on unparsable quantities, panics exactly on malformed permissions, and otherwise gives labels, settings, command, volumes and mounts as asked |
| AskedPods.ServiceExactly | controllers/ceoslabdevice_controller.go:1083-1098 | The service has the literal labels and selector, and a port from outside to inside for exactly the pairs forwarded |
| AskedServices.EffectivePairsExactly | controllers/ceoslabdevice_controller.go:1112-1117 | The pairs wanted, written out: the outside port is the one set, or the inside port |
| AskedServices.ServiceMapExactly | controllers/ceoslabdevice_controller.go:1100-1143 | The map of services, exactly, whatever names collide: of the first ports to ask for their pair, the last with a name gets it |
| AskedServices.ServicePortsExactly | controllers/ceoslabdevice_controller.go:1158-1179 | The ports are sorted by name and go from outside to inside |
| AskedServices.ServiceAgreesExactly | controllers/ceoslabdevice_controller.go:564-581 | The service comparison finds nothing in exactly the services whose ports, the last counting where names repeat, are those forwarded |
| AskedVolumes.VolumesExactly | controllers/ceoslabdevice_controller.go:970-1019 | Each object has a volume of its own kind and name, sorted, with the octal mode of its annotation or none; the panic is exactly on malformed annotations |
| AskedVolumes.MountsExactly | controllers/ceoslabdevice_controller.go:1021-1057 | Each file is mounted under /mnt/flash by its name as often as its object holds it; nothing else is; the mounts are sorted |
| AskedFiles.CertSecretExactly | controllers/ceoslabdevice_controller.go:663-701 | The secret holds the certificate and the key under the configured names |
| AskedFiles.BootScriptExactly | controllers/ceoslabdevice_controller.go:703-736 | The script's literal text, its commands in the order of the certificates, and its permissions |
| AskedFiles.ToggleFileExactly | controllers/ceoslabdevice_controller.go:767-779 | The literal text of the toggle file, one line per toggle |
| AskedFiles.InterfacesExactly | controllers/ceoslabdevice_controller.go:76-77 | Ethernet with one to three numbers, Management with one or two, joined by slashes |
| AskedFiles.MappingFileExactly | controllers/ceoslabdevice_controller.go:744-765 | Interfaces that start with Ethernet are in the Ethernet half, those that start with Management in the other |
| Controller.StoredUnderNames | controllers/ceoslabdevice_controller.go:162-286 | The literal names under which the objects are stored |
| Reading.DecimalExactly | controllers/ceoslabdevice_controller.go:162 | A decimal is the signed numeral without leading zeros that reads as the number |
| Reading.ParseOctalExactly | controllers/ceoslabdevice_controller.go:982 | An octal mode is an optional sign and octal digits that read as a number of 32 bits |
| Reading.ToLowerExactly | controllers/ceoslabdevice_controller.go:1138 | Lower case, character by character |
| Reading.LessEqExactly | controllers/ceoslabdevice_controller.go:1108 | The order of strings: a prefix, or smaller where they differ first |
| Services.GetServiceMap | controllers/ceoslabdevice_controller.go:1100-1143 | Computes one map, or fails, whatever the map iteration order |
| Services.FailsIffConflict | controllers/ceoslabdevice_controller.go:1117-1130 | Fails if and only if two effective pairs agree on one side and differ on the other |
| Services.PortMapsInverse | controllers/ceoslabdevice_controller.go:1109-1137 | The two port maps are inverse to each other throughout |
| Services.ForwardExact | controllers/ceoslabdevice_controller.go:1109-1141 | What the loops hold after any prefix: exactly the pairs seen, and an entry for exactly their first claims |
| Services.EntryNamedAfterLeast | controllers/ceoslabdevice_controller.go:1102-1141 | Every entry forwards an effective pair under the name of the least service that wants it |
| Services.LeastClaimantGetsKey | controllers/ceoslabdevice_controller.go:1102-1141 | The least service wanting a pair owns its key |
| Services.EntriesOneToOne | controllers/ceoslabdevice_controller.go:1109-1141 | Two entries that share a port on either side are one entry |
| Services.NothingLostIffNoCollision | controllers/ceoslabdevice_controller.go:1138-1139 | No forwarded port is lost if and only if no two least claimants produce one port name |
| Services.NothingLostForPlainNames | controllers/ceoslabdevice_controller.go:1138-1139 | No port is lost when ports are non-negative and no service name ends in a digit |
| Services.DigitsInNamesLosePorts | controllers/ceoslabdevice_controller.go:1138-1139 | Service foo1 with port 22 and service foo with port 122 lose a port |
| Services.ServicePortsReadBack | controllers/ceoslabdevice_controller.go:1145-1179 | Reading the ports of the service back gives the map they were built from |
| Services.GetServicePortsApi | controllers/ceoslabdevice_controller.go:1158-1179 | The port list is a function of the map, whatever the iteration order |
| Services.GetServiceMapFromApi | controllers/ceoslabdevice_controller.go:1145-1156 | The map read from the ports |
| Volumes.GetVolumes | controllers/ceoslabdevice_controller.go:970-1019 | One list of volumes, or a panic on malformed permissions, whatever the iteration order |
| Volumes.OneVolumePerObject | controllers/ceoslabdevice_controller.go:970-1019 | One volume per object, in sorted order, with distinct names |
| Volumes.GetVolumeMounts | controllers/ceoslabdevice_controller.go:1021-1057 | One list of mounts, whatever the iteration orders |
| Volumes.MountedAsOftenAsHeld | controllers/ceoslabdevice_controller.go:1021-1057 | A file is mounted exactly as often as its object holds it: once, unless both maps of the object have the key |
| Volumes.MountsNameVolumes | controllers/ceoslabdevice_controller.go:1021-1057 | Every mount names an emitted volume |
| Volumes.ShapesAreTold | controllers/ceoslabdevice_controller.go:970-1057 | Volumes and mounts are equal if and only if the same names have the same kind, permissions and file names, each file as often |
| Volumes.ShapeDecides | controllers/ceoslabdevice_controller.go:970-1057 | Volumes and mounts depend on kinds, permissions and file names only |
| Volumes.VolumesFailExactly | controllers/ceoslabdevice_controller.go:970-1019 | Building the volumes panics if and only if some object has malformed permissions |
| Names.SecretNameInjective | controllers/ceoslabdevice_controller.go:162 | Secret names tell device and index |
| Names.KeysDistinct | controllers/ceoslabdevice_controller.go:162-243 | Within a device all keys of secretsAndConfigMaps are distinct |
| Names.VolumeNameInjective | controllers/ceoslabdevice_controller.go:966-968 | Volume names tell objects apart |
| CreationFacts.CertMapInjective | controllers/ceoslabdevice_controller.go:149-182 | The certificates by secret name determine the configured list |
| Files.GetRcEos | controllers/ceoslabdevice_controller.go:703-736 | The script, written line by line |
| Files.RcEosReadsBack | controllers/ceoslabdevice_controller.go:703-736 | The certificate and key names can be recovered, in order, from any script with newline-free names |
| Files.GetToggleOverrides | controllers/ceoslabdevice_controller.go:767-779 | The toggle file, in some order of the map |
| Files.ToggleFileReadsBack | controllers/ceoslabdevice_controller.go:767-779 | The toggle map can be recovered from the file whatever its order |
| Files.GetJsonIntfMapping | controllers/ceoslabdevice_controller.go:744-765 | Succeeds if and only if every value is an Ethernet or Management interface |
| Files.IntfMappingPartition | controllers/ceoslabdevice_controller.go:744-765 | The two halves are disjoint and their union is the mapping |
| Files.PortPathIsGrammar | controllers/ceoslabdevice_controller.go:76-77 | The scanner accepts exactly the numbers joined by slashes that the patterns describe |
| Files.NotBothGrammars | controllers/ceoslabdevice_controller.go:76-77 | No name matches both patterns |
| Files.CertSecretTellsConfig | controllers/ceoslabdevice_controller.go:663-701 | A secret tells the configuration it was made from |
| Pods.GetPod | controllers/ceoslabdevice_controller.go:783-828 | The pod as a function of device and objects; an unparsable quantity is an error, malformed permissions a panic |
| Pods.BuiltPodAgrees | controllers/ceoslabdevice_controller.go:455-599 | A pod just built passes every later comparison with its device |
| Pods.BuiltServiceAgrees | controllers/ceoslabdevice_controller.go:564-581 | A service just built passes the service comparison |
| Pods.GetService | controllers/ceoslabdevice_controller.go:1083-1098 | The service as a function of the device, failing with its map |
| Pods.EnvVarsReadBack | controllers/ceoslabdevice_controller.go:842-866 | Reading the sorted environment back gives the map |
| Pods.ResourcesReadBack | controllers/ceoslabdevice_controller.go:929-964 | Canonical quantities always parse, and are read back as they were |
| Pods.GetEnvVarsMap | controllers/ceoslabdevice_controller.go:830-840 | Defaults, overridden by the spec |
| Pods.GetArgs | controllers/ceoslabdevice_controller.go:894-911 | One argument list whatever the iteration order |
| Pods.GetResourceMap | controllers/ceoslabdevice_controller.go:929-944 | Canonical quantities, or an error if any does not parse |
| Text.SortedRange | controllers/ceoslabdevice_controller.go:1102-1108 | Ranging over a map and sorting its keys gives one list |
| Text.SortForgetsOrder | controllers/ceoslabdevice_controller.go:1102-1108 | Sorting forgets the order of iteration |
| Text.TrailingNumber | controllers/ceoslabdevice_controller.go:162 | A decimal number can be split off a name that does not end in a digit |

## Left out

- Controller.Reconciler.Reconcile: no API failures, conflicts, caches or concurrent reconciles; the store is linearizable, and creation and deletion take effect at once.
- Controller.Reconciler.Repair: the comparison and the repair of one mismatch are two methods here and one branch in the source.
- Controller.Reconciler.EnsureIntf: the source lets the recorded mapping and toggles share their maps with the spec; here the status gets maps of its own. No pass writes to either.
- Soundness.SuccessIsSynced: says nothing about a service when no services are configured; `Success.ServiceLeftExactly` says when one is left.
- MountRuns.MountsRightAtSuccess: for harmless runs, since a ledger that does not tell the truth can name any files; for every other run `MountRuns.MountsToldInAnyRun` compares shapes.
- Files.GetJsonIntfMapping: the marshalled JSON is kept as the pair of maps it encodes, and the regular expression engine is replaced by a scanner for the two patterns.
- Files.CertSecretTellsConfig: keys and certificates are opaque and tagged with their configuration; key bytes, validity dates and the default common name are not modelled.
- Pods.ResourcesReadBack: parsing and printing quantities is a parameter, assumed to print canonically.
- Pods.GetPod: container names, pull policy, security context, probe timings and the grace period, which are constants, are not fields of the model's pod.
- Pods.GetService: service type and protocol are constants and not modelled.
- Text.SortForgetsOrder: strings are ordered by character; lower-casing is ASCII only.
- Defaults that the API server adds to pods and services, asynchronous deletion, garbage collection and owner references.
- Stores with several devices: a `Reconciler` works on one device; that it leaves objects of other names alone is proved.
- Log messages, error texts, the status reason, contexts.
- main.go, scheme registration, `SetupWithManager`, clients, YAML, RBAC and the end-to-end cases.
- Deep copies of types other than `ConfigMapStatus`.

// One reconcile pass, as a relation between the worlds before and after it.
module Reconcile {
  import opened Basics
  import opened Api
  import opened Names
  import opened Quantities
  import opened Files
  import opened Volumes
  import opened Services
  import opened Pods

  // The stored device (spec and status) and every object the controller reads or writes for it.
  // `live` is Status.ConfigMapStatus, `snap` is Status.PodConfigMapStatus.
  datatype World = World(
    dev: Device,
    lib: QuantityLibrary,
    secrets: map<string, Object>,
    rcEos: Option<Object>,
    intfMap: Option<Object>,
    toggles: Option<Object>,
    startup: Option<Startup>,
    pod: Option<Pod>,
    service: Option<Service>,
    live: Ledger,
    snap: Ledger,
    state: DeviceState)

  // What a pass does not decide itself: which key generations fail (by certificate index) and the
  // order in which the toggle map is ranged over.
  datatype Draw = Draw(badKeys: set<nat>, toggleOrder: seq<string>)

  // ----- Creating what is missing -----

  // Ready: go on with the comparisons. Failed: the status is saved and an error returned.
  // Crashed: a panic, nothing is saved.
  datatype Creation = Ready(w: World) | Failed(w: World) | Crashed(w: World) {
    predicate IsFailure() { !Ready? }
    function PropagateFailure(): Creation { this }
    function Extract(): World { w }
  }

  // selfSignedCertConfigs: the configured certificates by secret name, from index `i` on.
  function CertMapFrom(device: string, certs: seq<CertConfig>, i: nat): map<string, CertConfig>
    requires i <= |certs|
    decreases |certs| - i
  {
    if i == |certs| then map[] else CertMapFrom(device, certs, i + 1)[SecretName(device, i) := certs[i]]
  }

  function CertMap(device: string, certs: seq<CertConfig>): map<string, CertConfig> {
    CertMapFrom(device, certs, 0)
  }

  function Wanted(w: World): map<string, CertConfig> { CertMap(w.dev.name, w.dev.spec.selfSignedCerts) }

  function RecordCert(l: Ledger, name: string, c: CertConfig): Ledger {
    l.(selfSignedCertStatus := Of(Entries(l.selfSignedCertStatus)[name := c]), rcEosStale := true)
  }

  function AddCert(w: World, i: nat): World
    requires i < |w.dev.spec.selfSignedCerts|
  {
    var name, c := SecretName(w.dev.name, i), w.dev.spec.selfSignedCerts[i];
    w.(secrets := w.secrets[name := CertSecret(c)], live := RecordCert(w.live, name, c))
  }

  function EnsureCerts(w: World, d: Draw, i: nat): Creation
    requires i <= |w.dev.spec.selfSignedCerts|
    decreases |w.dev.spec.selfSignedCerts| - i
  {
    if i == |w.dev.spec.selfSignedCerts| then Ready(w)
    else if SecretName(w.dev.name, i) in w.secrets then EnsureCerts(w, d, i + 1)
    else if i in d.badKeys then Failed(w)
    else EnsureCerts(AddCert(w, i), d, i + 1)
  }

  function EnsureRcEos(w: World): World {
    if w.dev.spec.selfSignedCerts == [] || w.rcEos.Some? then w
    else w.(rcEos := Some(RcEosObject(w.dev.spec.selfSignedCerts)), live := w.live.(rcEosStale := false))
  }

  function EnsureIntf(w: World): Creation {
    var mapping := w.dev.spec.intfMapping;
    if mapping == map[] || w.intfMap.Some? then Ready(w)
    else if !ValidInterfaces(mapping) then Failed(w)
    else Ready(w.(intfMap := Some(IntfObject(mapping)), live := w.live.(intfMappingStatus := Of(mapping))))
  }

  ghost predicate Draws(dev: Device, d: Draw) {
    && Enumerates(d.toggleOrder, dev.spec.toggleOverrides.Keys)
    && (forall t :: t in d.toggleOrder ==> t in dev.spec.toggleOverrides)
  }

  ghost function EnsureToggles(w: World, d: Draw): World
    requires Draws(w.dev, d)
  {
    var overrides := w.dev.spec.toggleOverrides;
    if overrides == map[] || w.toggles.Some? then w
    else w.(toggles := Some(ToggleObject(d.toggleOrder, overrides)),
            live := w.live.(toggleOverridesStatus := Of(overrides)))
  }

  function NoteStartup(w: World): World {
    if w.startup.None? then w
    else w.(live := w.live.(startupConfigResourceVersion := Some(w.startup.value.resourceVersion)))
  }

  // secretsAndConfigMaps: the objects mounted into the pod.
  function When(cond: bool, name: string, o: Option<Object>): Objects {
    if cond && o.Some? then map[name := o.value] else map[]
  }

  function ConfiguredSecrets(w: World): Objects {
    map n | n in Wanted(w) && n in w.secrets :: w.secrets[n]
  }

  function StartupObject(w: World): Option<Object> {
    if w.startup.Some? then Some(w.startup.value.configMap) else None
  }

  function ConfiguredObjects(w: World): Objects {
    var spec := w.dev.spec;
    ConfiguredSecrets(w)
    + When(spec.selfSignedCerts != [], RcEosName(w.dev.name), w.rcEos)
    + When(spec.intfMapping != map[], IntfMappingName(w.dev.name), w.intfMap)
    + When(spec.toggleOverrides != map[], ToggleOverridesName(w.dev.name), w.toggles)
    + When(true, StartupConfigName(w.dev.name), StartupObject(w))
  }

  // A new pod comes with a snapshot of the ledger.
  function AddPod(w: World, built: Built<Pod>): Creation {
    if w.pod.Some? then Ready(w)
    else
      match built
      case Built(pod) => Ready(w.(pod := Some(pod), snap := w.live))
      case Refused => Failed(w)
      case Panicked => Crashed(w)
  }

  function AddService(w: World, built: Result<Service>): Creation {
    if w.dev.spec.services == map[] || w.service.Some? then Ready(w)
    else
      match built
      case Ok(service) => Ready(w.(service := Some(service)))
      case Err => Failed(w)
  }

  // rc.eos, interface mapping, toggle overrides, startup config.
  ghost function EnsureFiles(w: World, d: Draw): Creation
    requires Draws(w.dev, d)
  {
    var m :- EnsureIntf(EnsureRcEos(w));
    Ready(NoteStartup(EnsureToggles(m, d)))
  }

  ghost function EnsureObjects(w: World, d: Draw): Creation
    requires Draws(w.dev, d)
  {
    EnsureCertsKeepsDevice(w, d, 0);
    var m :- EnsureCerts(w, d, 0);
    EnsureFiles(m, d)
  }

  function EnsureWorkloads(w: World, pod: Built<Pod>, service: Result<Service>): Creation {
    var m :- AddPod(w, pod);
    AddService(m, service)
  }

  ghost function CreateMissing(w: World, d: Draw): Creation
    requires Draws(w.dev, d)
  {
    var m :- EnsureObjects(w, d);
    EnsureWorkloads(m, PodFor(m.dev, m.lib, ConfiguredObjects(m)), ServiceFor(m.dev))
  }

  lemma {:induction false} EnsureCertsKeepsDevice(w: World, d: Draw, i: nat)
    requires i <= |w.dev.spec.selfSignedCerts|
    ensures EnsureCerts(w, d, i).w.dev == w.dev
    decreases |w.dev.spec.selfSignedCerts| - i
  {
    if i == |w.dev.spec.selfSignedCerts| {
    } else {
      EnsureCertsKeepsDevice(w, d, i + 1);
      EnsureCertsKeepsDevice(AddCert(w, i), d, i + 1);
    }
  }

  // ----- The chain of comparisons -----

  datatype Verdict =
    | NotReached
    | CertDiffers(name: string)
    | CertDropped(name: string)
    | RcEosStale
    | IntfDiffers
    | IntfDropped
    | TogglesDiffer
    | TogglesDropped
    | StartupDiffers
    | StartupDropped
    | PodOutdated
    | LabelsDiffer
    | PodDiffers(field: PodField)
    | ResourcesInvalid
    | ServicesInvalid
    | ServiceDiffers
    | InSync

  // A missing entry reads as the zero configuration.
  const ZERO_CERT := CertConfig("", "", 0, "")

  function Recorded(l: Ledger, name: string): CertConfig {
    if name in Entries(l.selfSignedCertStatus) then Entries(l.selfSignedCertStatus)[name] else ZERO_CERT
  }

  function DifferingCerts(m: World): set<string> {
    set n | n in Wanted(m) && Recorded(m.live, n) != Wanted(m)[n]
  }

  function DroppedCerts(m: World): set<string> {
    Entries(m.live.selfSignedCertStatus).Keys - Wanted(m).Keys
  }

  // Without any configured service the controller compares with a blank service.
  function ObservedPorts(m: World): seq<ServicePort> {
    if m.dev.spec.services == map[] || m.service.None? then [] else m.service.value.ports
  }

  // The comparisons of the ledger with the spec; InSync when there is nothing to repair.
  function LedgerVerdict(spec: Spec, live: Ledger, startup: Option<Startup>): Verdict {
    if live.rcEosStale then RcEosStale
    else if live.intfMappingStatus.Of? && spec.intfMapping == map[] then IntfDropped
    else if live.intfMappingStatus.Of? && Of(spec.intfMapping) != live.intfMappingStatus then IntfDiffers
    else if live.toggleOverridesStatus.Of? && spec.toggleOverrides == map[] then TogglesDropped
    else if live.toggleOverridesStatus.Of? && Of(spec.toggleOverrides) != live.toggleOverridesStatus then TogglesDiffer
    else if live.startupConfigResourceVersion.Some? && startup.None? then StartupDropped
    else if live.startupConfigResourceVersion.Some?
            && live.startupConfigResourceVersion.value != startup.value.resourceVersion then StartupDiffers
    else InSync
  }

  // The order of the comparisons after the certificates, given how they turn out.
  function ChainVerdict(ledger: Verdict, podOutdated: bool, labelsDiffer: bool, late: Verdict): Verdict {
    if !ledger.InSync? then ledger
    else if podOutdated then PodOutdated
    else if labelsDiffer then LabelsDiffer
    else late
  }

  // `late` is the outcome of the comparisons that come last.
  function Diagnose(m: World, late: Verdict): Verdict
    requires m.pod.Some?
  {
    ChainVerdict(LedgerVerdict(m.dev.spec, m.live, m.startup), m.snap != m.live,
                 LabelsOf(m.dev) != m.pod.value.labels, late)
  }

  ghost function DifferingFields(m: World): set<PodField>
    requires m.pod.Some?
  {
    set field: PodField | !FieldAgrees(m.dev, m.lib, m.pod.value, field)
  }

  ghost predicate ServiceAgrees(m: World) {
    ServiceMap(m.dev.spec.services) == Ok(ServiceMapFromApi(ObservedPorts(m)))
  }

  // Environment, image, resources, arguments, service and probe.
  ghost function LateVerdict(m: World): Verdict
    requires m.pod.Some?
  {
    FieldVerdict(DifferingFields(m), Parseable(m.lib, m.dev.spec.resources),
                 ServiceMap(m.dev.spec.services).Ok?, ServiceAgrees(m))
  }

  // The order of the last comparisons, given how each of them turns out.
  function FieldVerdict(differing: set<PodField>, parseable: bool, validServices: bool, serviceAgrees: bool): Verdict {
    if EnvVars in differing then PodDiffers(EnvVars)
    else if Image in differing then PodDiffers(Image)
    else if !parseable then ResourcesInvalid
    else if Resources in differing then PodDiffers(Resources)
    else if Args in differing then PodDiffers(Args)
    else if InitArgs in differing then PodDiffers(InitArgs)
    else if InitImage in differing then PodDiffers(InitImage)
    else if !validServices then ServicesInvalid
    else if !serviceAgrees then ServiceDiffers
    else if Agents in differing then PodDiffers(Agents)
    else InSync
  }

  predicate IsLate(v: Verdict) {
    v.PodDiffers? || v.ResourcesInvalid? || v.ServicesInvalid? || v.ServiceDiffers? || v.InSync?
  }

  // Ranging over the certificate maps may stop at any offending name.
  ghost predicate Diagnosis(m: World, v: Verdict, late: Verdict)
    requires m.pod.Some?
  {
    if DifferingCerts(m) != {} then v.CertDiffers? && v.name in DifferingCerts(m)
    else if DroppedCerts(m) != {} then v.CertDropped? && v.name in DroppedCerts(m)
    else v == Diagnose(m, late)
  }

  // ----- The one repair -----

  function MarkStale(l: Ledger): Ledger { l.(rcEosStale := true) }

  function ForgetCert(l: Ledger, name: string): Ledger {
    var rest := Entries(l.selfSignedCertStatus) - {name};
    l.(selfSignedCertStatus := if rest == map[] then Nil else Of(rest))
  }

  // The in-memory world after the repair; `w` is the world as last saved.
  function Repair(w: World, m: World, v: Verdict): World {
    var r := m.(state := ReconcilingState);
    match v
    case CertDiffers(name) => r.(live := MarkStale(r.live), secrets := r.secrets - {name})
    case CertDropped(name) => r.(live := ForgetCert(MarkStale(r.live), name), secrets := r.secrets - {name})
    case RcEosStale =>
      r.(rcEos := None, live := r.live.(rcEosStale := m.dev.spec.selfSignedCerts != []))
    case IntfDiffers => r.(intfMap := None)
    case IntfDropped => r.(intfMap := None, live := r.live.(intfMappingStatus := Nil))
    case TogglesDiffer => r.(toggles := None)
    case TogglesDropped => r.(toggles := None, live := r.live.(toggleOverridesStatus := Nil))
    case StartupDiffers => NoteStartup(r)
    case StartupDropped => r.(live := r.live.(startupConfigResourceVersion := None))
    case PodOutdated => r.(pod := None)
    case LabelsDiffer =>
      if m.pod.None? then r else r.(pod := Some(m.pod.value.(labels := LabelsOf(m.dev))))
    case PodDiffers(_) => r.(pod := None)
    case ResourcesInvalid => r.(state := FailedState)
    case ServicesInvalid => m.(live := w.live, snap := w.snap, state := w.state)
    case ServiceDiffers => r.(service := None)
    case InSync => r.(state := SuccessState)
    case NotReached => r
  }

  // ----- Saving, and the whole pass -----

  function SavedLedger(l: Ledger): Ledger {
    l.(selfSignedCertStatus := Persisted(l.selfSignedCertStatus),
       intfMappingStatus := Persisted(l.intfMappingStatus),
       toggleOverridesStatus := Persisted(l.toggleOverridesStatus))
  }

  // What the next pass will load: the status goes through JSON with omitempty.
  function Saved(m: World): World { m.(live := SavedLedger(m.live), snap := SavedLedger(m.snap)) }

  // The verdicts a pass can reach, given how its creating half ended.
  ghost predicate AllowedFrom(end: Creation, v: Verdict) {
    match end
    case Ready(m) => m.pod.Some? && Diagnosis(m, v, LateVerdict(m))
    case _ => v == NotReached
  }

  ghost predicate Allowed(w: World, d: Draw, v: Verdict) {
    Draws(w.dev, d) && AllowedFrom(CreateMissing(w, d), v)
  }

  // Before the status goes through JSON.
  function RawPassFrom(w: World, end: Creation, v: Verdict): World {
    match end
    case Ready(m) => Repair(w, m, v)
    case Failed(m) => m.(state := FailedState)
    case Crashed(m) => m.(live := w.live, snap := w.snap, state := w.state)
  }

  ghost function RawPass(w: World, d: Draw, v: Verdict): World
    requires Draws(w.dev, d)
  {
    RawPassFrom(w, CreateMissing(w, d), v)
  }

  ghost function Pass(w: World, d: Draw, v: Verdict): World
    requires Draws(w.dev, d)
  {
    Saved(RawPass(w, d, v))
  }

  // What the work queue is told.
  datatype Outcome = Done | Requeue | Error | Panic

  function OutcomeFrom(end: Creation, v: Verdict): Outcome {
    match end
    case Failed(_) => Error
    case Crashed(_) => Panic
    case Ready(_) =>
      match v
      case InSync => Done
      case ResourcesInvalid => Done
      case ServicesInvalid => Error
      case _ => Requeue
  }

  ghost function OutcomeOf(w: World, d: Draw, v: Verdict): Outcome
    requires Draws(w.dev, d)
  {
    OutcomeFrom(CreateMissing(w, d), v)
  }

  // `r` is what a pass makes of the end of its creating half.
  ghost predicate PassTaken(w: World, end: Creation, v: Verdict, r: World, outcome: Outcome) {
    AllowedFrom(end, v) && r == Saved(RawPassFrom(w, end, v)) && outcome == OutcomeFrom(end, v)
  }

  predicate DeletesPod(v: Verdict) { v.PodOutdated? || v.PodDiffers? }
}

// What every saved state satisfies: the ledger tells the truth about the objects.
module Soundness {
  import opened Basics
  import opened Api
  import opened Names
  import opened Files
  import opened Volumes
  import opened Services
  import opened Pods
  import opened Reconcile
  import opened CreationFacts

  // ----- The invariant -----

  ghost predicate CanonicalMap<K, V>(m: GoMap<K, V>) { m.Of? ==> m.entries != map[] }

  // Each ledger map is nil or non-empty.
  ghost predicate Canonical(l: Ledger) {
    && CanonicalMap(l.selfSignedCertStatus)
    && CanonicalMap(l.intfMappingStatus)
    && CanonicalMap(l.toggleOverridesStatus)
  }

  // Every certificate secret was built from its ledger entry.
  ghost predicate CertSound(w: World) {
    forall n :: n in w.secrets ==>
        RecordedAs(w.live, n, Recorded(w.live, n)) && w.secrets[n] == CertSecret(Recorded(w.live, n))
  }

  ghost predicate RcEosBuilt(w: World) {
    w.rcEos.Some? ==> exists certs :: w.rcEos.value == RcEosObject(certs)
  }

  // An interface mapping was built from the recorded one.
  ghost predicate IntfSound(w: World) {
    w.intfMap.Some? ==>
      && w.live.intfMappingStatus.Of?
      && ValidInterfaces(w.live.intfMappingStatus.entries)
      && w.intfMap.value == IntfObject(w.live.intfMappingStatus.entries)
  }

  ghost predicate ToggleSound(w: World) {
    w.toggles.Some? ==>
      && w.live.toggleOverridesStatus.Of?
      && IsToggleObject(w.toggles.value, w.live.toggleOverridesStatus.entries)
  }

  ghost predicate Core(w: World) {
    && Canonical(w.live) && Canonical(w.snap)
    && CertSound(w) && RcEosBuilt(w) && IntfSound(w) && ToggleSound(w)
  }

  ghost predicate ScriptOf(w: World, certs: seq<CertConfig>) {
    && certs != []
    && Entries(w.live.selfSignedCertStatus) == CertMap(w.dev.name, certs)
    && w.rcEos == Some(RcEosObject(certs))
  }

  // Unless marked stale, rc.eos is the script for exactly the recorded certificates.
  ghost predicate StaleSound(w: World) {
    w.rcEos.Some? && !w.live.rcEosStale ==> exists certs :: ScriptOf(w, certs)
  }

  ghost predicate Inv(w: World) { Core(w) && StaleSound(w) }

  // ----- A pass that nothing goes wrong in -----

  ghost predicate ValidSpec(w: World) {
    && ValidInterfaces(w.dev.spec.intfMapping)
    && Parseable(w.lib, w.dev.spec.resources)
    && ServiceMap(w.dev.spec.services).Ok?
  }

  ghost predicate Healthy(w: World, d: Draw) {
    && ValidSpec(w)
    && (forall i :: 0 <= i < |w.dev.spec.selfSignedCerts| ==> i !in d.badKeys)
    && (w.startup.Some? ==> DefaultMode(w.startup.value.configMap).Ok?)
  }

  // ----- Creation keeps the core -----

  lemma CertsKeepCore(w: World, m: World, made: map<string, CertConfig>)
    requires Core(w) && CertsMade(w, m, made)
    ensures Core(m)
  {
    forall n | n in m.secrets
      ensures RecordedAs(m.live, n, Recorded(m.live, n)) && m.secrets[n] == CertSecret(Recorded(m.live, n))
    {
      if n in w.secrets {
        assert SameRecord(w.live, m.live, n);
      } else {
        assert MadeFrom(m, n, made[n]);
      }
    }
    CertsKeepCanonical(w, m, made);
  }

  lemma CertsKeepCanonical(w: World, m: World, made: map<string, CertConfig>)
    requires Canonical(w.live) && CertsMade(w, m, made)
    ensures Canonical(m.live)
  {
  }

  lemma FilesKeepCore(w: World, d: Draw, m: World)
    requires Core(w) && Draws(w.dev, d) && FilesMade(w, d, m)
    ensures Core(m)
  {
    forall n | n in m.secrets
      ensures RecordedAs(m.live, n, Recorded(m.live, n)) && m.secrets[n] == CertSecret(Recorded(m.live, n))
    {
      assert RecordedAs(w.live, n, Recorded(w.live, n));
    }
    if FreshToggles(w) {
      assert TogglesInOrder(m.toggles.value, d.toggleOrder, w.dev.spec.toggleOverrides);
    }
  }

  // ----- After a creation that went through -----

  // Everything the spec asks for exists.
  ghost predicate Complete(m: World) {
    && FilesComplete(m)
    && m.pod.Some?
    && (m.dev.spec.services != map[] ==> m.service.Some?)
  }

  ghost predicate CertsInStep(m: World) { DifferingCerts(m) == {} && DroppedCerts(m) == {} }

  // Between creation and comparison: the script is right, or the comparisons will find out.
  ghost predicate StaleMid(m: World) {
    m.rcEos.Some? && !m.live.rcEosStale && CertsInStep(m) ==>
      m.dev.spec.selfSignedCerts != [] && m.rcEos == Some(RcEosObject(m.dev.spec.selfSignedCerts))
  }

  lemma RecordsAreWanted(m: World)
    requires CertSound(m) && Wanted(m).Keys <= m.secrets.Keys && CertsInStep(m)
    ensures Entries(m.live.selfSignedCertStatus) == Wanted(m)
  {
    var entries := Entries(m.live.selfSignedCertStatus);
    forall n ensures n in entries <==> n in Wanted(m) {
      if n in Wanted(m) {
        assert n in m.secrets;
      } else {
        assert n !in DroppedCerts(m);
      }
    }
    forall n | n in entries ensures entries[n] == Wanted(m)[n] {
      assert n !in DifferingCerts(m);
    }
  }

  // What the comparisons start from.
  ghost predicate Prepared(m: World) { Core(m) && Complete(m) && StaleMid(m) }

  lemma CreationPrepares(w: World, d: Draw)
    requires Inv(w) && Draws(w.dev, d) && CreateMissing(w, d).Ready?
    ensures Prepared(CreateMissing(w, d).w)
  {
    var m0, m1 := CreationStages(w, d);
    var m := CreateMissing(w, d).w;
    CertsKeepCore(w, m0, Wanted(w));
    CreationStaleMid(w, m0);
    FilesKeepPrepared(m0, d, m1);
    WorkloadsKeepPrepared(m1, m, PodOf(m1), ServiceFor(m1.dev));
  }

  // Everything but the pod and the service exists.
  ghost predicate FilesComplete(m: World) {
    && Wanted(m).Keys <= m.secrets.Keys
    && !FreshScript(m) && !FreshIntf(m) && !FreshToggles(m)
    && (m.startup.Some? ==> m.live.startupConfigResourceVersion == Some(m.startup.value.resourceVersion))
  }

  lemma FilesKeepPrepared(m0: World, d: Draw, m1: World)
    requires Core(m0) && StaleMid(m0) && Wanted(m0).Keys <= m0.secrets.Keys
    requires Draws(m0.dev, d) && FilesMade(m0, d, m1)
    ensures Core(m1) && FilesComplete(m1) && StaleMid(m1)
  {
    FilesKeepCore(m0, d, m1);
    SameCertsSameStep(m0, m1);
  }

  lemma SameCertsSameStep(a: World, b: World)
    requires a.dev == b.dev && a.live.selfSignedCertStatus == b.live.selfSignedCertStatus
    ensures Wanted(a) == Wanted(b)
    ensures DifferingCerts(a) == DifferingCerts(b) && DroppedCerts(a) == DroppedCerts(b)
  {
  }

  lemma WorkloadsKeepPrepared(m1: World, m: World, pod: Built<Pod>, service: Result<Service>)
    requires Core(m1) && FilesComplete(m1) && StaleMid(m1)
    requires WorkloadsMade(m1, m, pod, service)
    ensures Prepared(m)
  {
  }

  lemma CreationStaleMid(w: World, m0: World)
    requires Inv(w) && CertsMade(w, m0, Wanted(w)) && m0.dev == w.dev && Core(m0)
    ensures StaleMid(m0)
  {
    if m0.rcEos.Some? && !m0.live.rcEosStale && CertsInStep(m0) {
      RecordsAreWanted(m0);
      var certs :| ScriptOf(w, certs);
      CertMapInjective(w.dev.name, certs, w.dev.spec.selfSignedCerts);
    }
  }

  // ----- The repair restores the invariant -----

  lemma RepairKeepsCerts(w: World, m: World, v: Verdict)
    requires CertSound(m) && !v.ServicesInvalid?
    ensures CertSound(Repair(w, m, v))
  {
    var r := Repair(w, m, v);
    forall n | n in r.secrets
      ensures RecordedAs(r.live, n, Recorded(r.live, n)) && r.secrets[n] == CertSecret(Recorded(r.live, n))
    {
      assert n in m.secrets && RecordedAs(m.live, n, Recorded(m.live, n));
    }
  }

  lemma RepairKeepsFiles(w: World, m: World, v: Verdict)
    requires RcEosBuilt(m) && IntfSound(m) && ToggleSound(m) && !v.ServicesInvalid?
    ensures var r := Repair(w, m, v); RcEosBuilt(r) && IntfSound(r) && ToggleSound(r)
  {
    RepairKeepsScript(w, m, v);
    RepairKeepsIntf(w, m, v);
    RepairKeepsToggles(w, m, v);
  }

  lemma RepairKeepsScript(w: World, m: World, v: Verdict)
    requires RcEosBuilt(m)
    ensures RcEosBuilt(Repair(w, m, v))
  {
  }

  lemma RepairKeepsIntf(w: World, m: World, v: Verdict)
    requires IntfSound(m) && !v.ServicesInvalid?
    ensures IntfSound(Repair(w, m, v))
  {
  }

  lemma RepairKeepsToggles(w: World, m: World, v: Verdict)
    requires ToggleSound(m) && !v.ServicesInvalid?
    ensures ToggleSound(Repair(w, m, v))
  {
  }

  lemma RepairKeepsLedgers(w: World, m: World, v: Verdict)
    requires Canonical(m.live) && Canonical(m.snap) && !v.ServicesInvalid?
    ensures var r := Repair(w, m, v); Canonical(r.live) && Canonical(r.snap)
  {
  }

  lemma RepairKeepsCore(w: World, m: World, v: Verdict)
    requires Core(m) && !v.ServicesInvalid?
    ensures Core(Repair(w, m, v))
  {
    RepairKeepsCerts(w, m, v);
    RepairKeepsFiles(w, m, v);
    RepairKeepsLedgers(w, m, v);
  }

  lemma RepairKeepsStaleSound(w: World, m: World, v: Verdict, late: Verdict)
    requires Prepared(m) && Diagnosis(m, v, late) && !v.ServicesInvalid? && IsLate(late)
    ensures StaleSound(Repair(w, m, v))
  {
    var r := Repair(w, m, v);
    if r.rcEos.Some? && !r.live.rcEosStale {
      assert CertsInStep(m);
      RecordsAreWanted(m);
      assert ScriptOf(r, m.dev.spec.selfSignedCerts);
    }
  }

  // Saving a canonical ledger changes nothing: it survives omitempty.
  lemma SavedIsIdentity(m: World)
    requires Canonical(m.live) && Canonical(m.snap)
    ensures Saved(m) == m
  {
  }

  // Comparing canonical ledgers with reflect.DeepEqual compares their entries: nil and empty never differ.
  lemma CanonicalEquality(a: Ledger, b: Ledger)
    requires Canonical(a) && Canonical(b)
    ensures a == b <==>
            && Entries(a.selfSignedCertStatus) == Entries(b.selfSignedCertStatus)
            && Entries(a.intfMappingStatus) == Entries(b.intfMappingStatus)
            && Entries(a.toggleOverridesStatus) == Entries(b.toggleOverridesStatus)
            && a.rcEosStale == b.rcEosStale && a.startupConfigResourceVersion == b.startupConfigResourceVersion
  {
  }

  // ----- Success -----

  function NilIfEmpty<K, V>(m: map<K, V>): GoMap<K, V> { if m == map[] then Nil else Of(m) }

  function StartupVersion(w: World): Option<string> {
    if w.startup.Some? then Some(w.startup.value.resourceVersion) else None
  }

  // The ledger the spec demands.
  function Demanded(w: World): Ledger {
    Ledger(NilIfEmpty(Wanted(w)), NilIfEmpty(w.dev.spec.intfMapping), NilIfEmpty(w.dev.spec.toggleOverrides),
           false, StartupVersion(w))
  }

  // The cluster is what the spec describes: nothing missing, nothing left over, nothing outdated. Whether a
  // service is left over when none is configured is a matter of its own (see ServiceExact).
  ghost predicate Synced(w: World) {
    var spec := w.dev.spec;
    && w.live == w.snap == Demanded(w)
    && w.secrets == (map n | n in Wanted(w) :: CertSecret(Wanted(w)[n]))
    && w.rcEos == (if spec.selfSignedCerts == [] then None else Some(RcEosObject(spec.selfSignedCerts)))
    && w.intfMap == (if spec.intfMapping == map[] then None else Some(IntfObject(spec.intfMapping)))
    && (if spec.toggleOverrides == map[] then w.toggles.None?
        else w.toggles.Some? && IsToggleObject(w.toggles.value, spec.toggleOverrides))
    && w.pod.Some? && w.pod.value.labels == LabelsOf(w.dev) && FieldsAgree(w.dev, w.lib, w.pod.value)
    && (spec.services != map[] ==>
          w.service.Some? && ServiceMap(spec.services) == Ok(ServiceMapFromApi(w.service.value.ports)))
  }

  lemma InStepLedger(m: World)
    requires Canonical(m.live) && Entries(m.live.selfSignedCertStatus) == Wanted(m) && !m.live.rcEosStale
    requires m.live.intfMappingStatus == NilIfEmpty(m.dev.spec.intfMapping)
    requires m.live.toggleOverridesStatus == NilIfEmpty(m.dev.spec.toggleOverrides)
    requires m.live.startupConfigResourceVersion == StartupVersion(m)
    ensures m.live == Demanded(m)
  {
  }

  // Past the startup config, the ledger is the demanded one.
  ghost predicate PastLedger(v: Verdict) { v.PodOutdated? || v.LabelsDiffer? || IsLate(v) }

  lemma DiagnosedLedger(m: World, v: Verdict, late: Verdict)
    requires Prepared(m) && Diagnosis(m, v, late) && PastLedger(v) && IsLate(late)
    ensures m.live == Demanded(m) && CertsInStep(m)
    ensures v.PodOutdated? <==> m.snap != m.live
    ensures v.LabelsDiffer? ==> m.pod.value.labels != LabelsOf(m.dev)
    ensures IsLate(v) ==> m.pod.value.labels == LabelsOf(m.dev) && v == late
  {
    assert CertsInStep(m) && v == Diagnose(m, late);
    RecordsAreWanted(m);
    InStepLedger(m);
  }

  lemma SecretsAreWanted(m: World)
    requires CertSound(m) && Wanted(m).Keys <= m.secrets.Keys && CertsInStep(m)
    ensures m.secrets == (map n | n in Wanted(m) :: CertSecret(Wanted(m)[n]))
  {
    RecordsAreWanted(m);
    forall n | n in m.secrets ensures n in Wanted(m) && m.secrets[n] == CertSecret(Wanted(m)[n]) {
      assert RecordedAs(m.live, n, Recorded(m.live, n));
    }
  }

  lemma FilesAreDemanded(m: World)
    requires Prepared(m) && m.live == Demanded(m) && CertsInStep(m)
    ensures m.intfMap == (if m.dev.spec.intfMapping == map[] then None else Some(IntfObject(m.dev.spec.intfMapping)))
    ensures if m.dev.spec.toggleOverrides == map[] then m.toggles.None?
            else m.toggles.Some? && IsToggleObject(m.toggles.value, m.dev.spec.toggleOverrides)
    ensures m.rcEos
         == (if m.dev.spec.selfSignedCerts == [] then None else Some(RcEosObject(m.dev.spec.selfSignedCerts)))
  {
  }

  // ----- What the last comparisons mean -----

  lemma FieldVerdictMeans(differing: set<PodField>, parseable: bool, validServices: bool, serviceAgrees: bool)
    ensures var v := FieldVerdict(differing, parseable, validServices, serviceAgrees);
            && IsLate(v)
            && (v.PodDiffers? ==> v.field in differing)
            && (v.ResourcesInvalid? ==> !parseable)
            && (v.ServicesInvalid? ==> !validServices)
            && (v.ServiceDiffers? ==> !serviceAgrees)
            && (v.InSync? ==> differing == {} && serviceAgrees)
  {
    if FieldVerdict(differing, parseable, validServices, serviceAgrees).InSync? {
      forall field ensures field !in differing {
        match field
        case EnvVars =>
        case Image =>
        case Resources =>
        case Args =>
        case InitArgs =>
        case InitImage =>
        case Agents =>
      }
    }
  }

  lemma NoDifferingField(m: World)
    requires m.pod.Some?
    ensures DifferingFields(m) == {} <==> FieldsAgree(m.dev, m.lib, m.pod.value)
  {
    forall field ensures field in DifferingFields(m) <==> !FieldAgrees(m.dev, m.lib, m.pod.value, field) {
    }
  }

  lemma LateVerdictMeans(m: World)
    requires m.pod.Some?
    ensures var v := LateVerdict(m);
            && IsLate(v)
            && (v.PodDiffers? ==> !FieldsAgree(m.dev, m.lib, m.pod.value))
            && (v.ResourcesInvalid? ==> !Parseable(m.lib, m.dev.spec.resources))
            && (v.ServicesInvalid? ==> ServiceMap(m.dev.spec.services).Err?)
            && (v.ServiceDiffers? ==> !ServiceAgrees(m))
            && (v.InSync? ==> FieldsAgree(m.dev, m.lib, m.pod.value) && ServiceAgrees(m))
  {
    FieldVerdictMeans(DifferingFields(m), Parseable(m.lib, m.dev.spec.resources),
                      ServiceMap(m.dev.spec.services).Ok?, ServiceAgrees(m));
    NoDifferingField(m);
  }

  lemma InSyncIsSynced(m: World)
    requires Prepared(m) && Diagnosis(m, InSync, InSync)
    requires FieldsAgree(m.dev, m.lib, m.pod.value) && ServiceAgrees(m)
    ensures Synced(m)
  {
    DiagnosedLedger(m, InSync, InSync);
    SecretsAreWanted(m);
    FilesAreDemanded(m);
  }

  // ----- When creation goes through -----

  lemma RcEosMode(certs: seq<CertConfig>)
    ensures DefaultMode(RcEosObject(certs)).Ok?
  {
    assert "775"[..2] == "77" && "77"[..1] == "7" && "7"[..0] == "";
    assert OctalValue("") == 0 && OctalValue("7") == 7 && OctalValue("77") == 63 && OctalValue("775") == 509;
    assert ParseOctal32("775") == Some(509);
  }

  ghost predicate ModesFine(objects: Objects) {
    forall n :: n in objects ==> DefaultMode(objects[n]).Ok?
  }

  lemma WhenFine(cond: bool, name: string, o: Option<Object>)
    requires o.Some? ==> DefaultMode(o.value).Ok?
    ensures ModesFine(When(cond, name, o))
  {
  }

  lemma MergeFine(a: Objects, b: Objects)
    requires ModesFine(a) && ModesFine(b)
    ensures ModesFine(a + b)
  {
  }

  lemma BuiltFilesFine(m: World)
    requires RcEosBuilt(m) && IntfSound(m) && ToggleSound(m)
    ensures m.rcEos.Some? ==> DefaultMode(m.rcEos.value).Ok?
    ensures m.intfMap.Some? ==> DefaultMode(m.intfMap.value).Ok?
    ensures m.toggles.Some? ==> DefaultMode(m.toggles.value).Ok?
  {
    if m.rcEos.Some? {
      var certs :| m.rcEos.value == RcEosObject(certs);
      RcEosMode(certs);
    }
    if m.toggles.Some? {
      var order :| TogglesInOrder(m.toggles.value, order, m.live.toggleOverridesStatus.entries);
    }
  }

  lemma SecretsFine(m: World)
    requires CertSound(m)
    ensures ModesFine(ConfiguredSecrets(m))
  {
  }

  lemma ConfiguredModes(m: World)
    requires Core(m)
    requires m.startup.Some? ==> DefaultMode(m.startup.value.configMap).Ok?
    ensures ModesFine(ConfiguredObjects(m))
  {
    var spec := m.dev.spec;
    SecretsFine(m);
    BuiltFilesFine(m);
    var o1 := When(spec.selfSignedCerts != [], RcEosName(m.dev.name), m.rcEos);
    var o2 := When(spec.intfMapping != map[], IntfMappingName(m.dev.name), m.intfMap);
    var o3 := When(spec.toggleOverrides != map[], ToggleOverridesName(m.dev.name), m.toggles);
    var o4 := When(true, StartupConfigName(m.dev.name), StartupObject(m));
    WhenFine(spec.selfSignedCerts != [], RcEosName(m.dev.name), m.rcEos);
    WhenFine(spec.intfMapping != map[], IntfMappingName(m.dev.name), m.intfMap);
    WhenFine(spec.toggleOverrides != map[], ToggleOverridesName(m.dev.name), m.toggles);
    WhenFine(true, StartupConfigName(m.dev.name), StartupObject(m));
    MergeFine(ConfiguredSecrets(m), o1);
    MergeFine(ConfiguredSecrets(m) + o1, o2);
    MergeFine(ConfiguredSecrets(m) + o1 + o2, o3);
    MergeFine(ConfiguredSecrets(m) + o1 + o2 + o3, o4);
  }

  lemma {:induction false} HealthyCerts(w: World, d: Draw, i: nat)
    requires i <= |w.dev.spec.selfSignedCerts|
    requires forall j :: 0 <= j < |w.dev.spec.selfSignedCerts| ==> j !in d.badKeys
    ensures EnsureCerts(w, d, i).Ready?
    decreases |w.dev.spec.selfSignedCerts| - i
  {
    if i == |w.dev.spec.selfSignedCerts| {
    } else {
      HealthyCerts(w, d, i + 1);
      HealthyCerts(AddCert(w, i), d, i + 1);
    }
  }

  lemma HealthyObjects(w: World, d: Draw)
    requires Core(w) && Draws(w.dev, d) && Healthy(w, d)
    ensures EnsureObjects(w, d).Ready?
    ensures var m := EnsureObjects(w, d).w; Core(m) && m.dev == w.dev && m.lib == w.lib && m.startup == w.startup
  {
    HealthyCerts(w, d, 0);
    var made := EnsureCertsMakes(w, d, 0);
    var m0 := EnsureCerts(w, d, 0).w;
    CertsKeepCore(w, m0, made);
    EnsureFilesMakes(m0, d);
    FilesKeepCore(m0, d, EnsureFiles(m0, d).w);
  }

  lemma HealthyPod(m: World)
    requires Core(m) && Parseable(m.lib, m.dev.spec.resources)
    requires m.startup.Some? ==> DefaultMode(m.startup.value.configMap).Ok?
    ensures PodOf(m).Built?
  {
    ConfiguredModes(m);
    VolumesSucceed(ConfiguredObjects(m));
  }

  lemma WorkloadsSucceed(m: World, pod: Built<Pod>, service: Result<Service>)
    requires pod.Built? && service.Ok?
    ensures EnsureWorkloads(m, pod, service).Ready?
  {
  }

  // With a valid spec and working key generation nothing stops the pass before the comparisons.
  lemma HealthyCreates(w: World, d: Draw)
    requires Core(w) && Draws(w.dev, d) && Healthy(w, d)
    ensures CreateMissing(w, d).Ready?
  {
    HealthyObjects(w, d);
    var m := EnsureObjects(w, d).w;
    HealthyPod(m);
    WorkloadsSucceed(m, PodOf(m), ServiceFor(m.dev));
  }

  // ----- The ledger stays canonical, so saving it loses nothing -----

  lemma CreationCanonical(w: World, d: Draw)
    requires Draws(w.dev, d) && Canonical(w.live) && Canonical(w.snap)
    ensures var m := CreateMissing(w, d).w; Canonical(m.live) && Canonical(m.snap)
  {
    EnsureCertsKeepsDevice(w, d, 0);
    var made := EnsureCertsMakes(w, d, 0);
    CertsKeepCanonical(w, EnsureCerts(w, d, 0).w, made);
    ObjectsCanonical(w, d);
    var m := EnsureObjects(w, d).w;
    WorkloadsCanonical(m, PodOf(m), ServiceFor(m.dev));
  }

  lemma ObjectsCanonical(w: World, d: Draw)
    requires Draws(w.dev, d) && Canonical(w.snap) && Canonical(EnsureCerts(w, d, 0).w.live)
    requires EnsureCerts(w, d, 0).w.snap == w.snap
    ensures var m := EnsureObjects(w, d).w; Canonical(m.live) && Canonical(m.snap)
  {
    EnsureCertsKeepsDevice(w, d, 0);
    FilesCanonical(EnsureCerts(w, d, 0).w, d);
  }

  lemma FilesCanonical(m0: World, d: Draw)
    requires Draws(m0.dev, d) && Canonical(m0.live)
    ensures var m := EnsureFiles(m0, d).w; Canonical(m.live) && m.snap == m0.snap
  {
    IntfCanonical(EnsureRcEos(m0));
    if EnsureIntf(EnsureRcEos(m0)).Ready? {
      TogglesCanonical(EnsureIntf(EnsureRcEos(m0)).w, d);
    }
  }

  lemma IntfCanonical(a: World)
    requires Canonical(a.live)
    ensures Canonical(EnsureIntf(a).w.live) && EnsureIntf(a).w.snap == a.snap
  {
  }

  lemma TogglesCanonical(a: World, d: Draw)
    requires Draws(a.dev, d) && Canonical(a.live)
    ensures var m := NoteStartup(EnsureToggles(a, d)); Canonical(m.live) && m.snap == a.snap
  {
  }

  lemma WorkloadsCanonical(m: World, pod: Built<Pod>, service: Result<Service>)
    requires Canonical(m.live) && Canonical(m.snap)
    ensures var r := EnsureWorkloads(m, pod, service).w; Canonical(r.live) && Canonical(r.snap)
  {
  }

  lemma RepairCanonical(w: World, m: World, v: Verdict)
    requires Canonical(w.live) && Canonical(w.snap) && Canonical(m.live) && Canonical(m.snap)
    ensures var r := Repair(w, m, v); Canonical(r.live) && Canonical(r.snap)
  {
  }

  lemma RawPassCanonical(w: World, end: Creation, v: Verdict)
    requires Canonical(w.live) && Canonical(w.snap) && Canonical(end.w.live) && Canonical(end.w.snap)
    ensures var r := RawPassFrom(w, end, v); Canonical(r.live) && Canonical(r.snap)
  {
    RepairCanonical(w, end.w, v);
  }

  // In every pass, healthy or not: what is saved is exactly what was in memory, and is canonical again.
  lemma SavingLosesNothing(w: World, d: Draw, v: Verdict)
    requires Canonical(w.live) && Canonical(w.snap) && Draws(w.dev, d)
    ensures Pass(w, d, v) == RawPass(w, d, v)
    ensures Canonical(Pass(w, d, v).live) && Canonical(Pass(w, d, v).snap)
  {
    CreationCanonical(w, d);
    RawPassCanonical(w, CreateMissing(w, d), v);
    SavedIsIdentity(RawPass(w, d, v));
  }

  // From here on a pass is what becomes of the end of its creating half.
  lemma PassIsRaw(w: World, d: Draw, v: Verdict, end: Creation)
    requires Canonical(w.live) && Canonical(w.snap) && Draws(w.dev, d) && end == CreateMissing(w, d)
    ensures Pass(w, d, v) == RawPassFrom(w, end, v)
  {
    SavingLosesNothing(w, d, v);
  }

  lemma CreationNotesStartup(w: World, d: Draw)
    requires Draws(w.dev, d) && CreateMissing(w, d).Ready?
    ensures var m := CreateMissing(w, d).w;
            m.startup.Some? ==> m.live.startupConfigResourceVersion == Some(m.startup.value.resourceVersion)
  {
    var m0, m1 := CreationStages(w, d);
  }

  lemma LateIsLate(m: World)
    requires m.pod.Some?
    ensures IsLate(LateVerdict(m))
  {
    FieldVerdictMeans(DifferingFields(m), Parseable(m.lib, m.dev.spec.resources),
                      ServiceMap(m.dev.spec.services).Ok?, ServiceAgrees(m));
  }

  // The startup version was noted before the comparison, so it never differs there.
  lemma StartupNeverDiffers(w: World, d: Draw, v: Verdict)
    requires Allowed(w, d, v)
    ensures !v.StartupDiffers?
  {
    if CreateMissing(w, d).Ready? {
      CreationNotesStartup(w, d);
      var m := CreateMissing(w, d).w;
      LateIsLate(m);
      NotedStartupAgrees(m, v, LateVerdict(m));
    }
  }

  lemma NotedStartupAgrees(m: World, v: Verdict, late: Verdict)
    requires m.pod.Some? && Diagnosis(m, v, late) && IsLate(late)
    requires m.startup.Some? ==> m.live.startupConfigResourceVersion == Some(m.startup.value.resourceVersion)
    ensures !v.StartupDiffers?
  {
  }

  // ----- Passes keep the invariant -----

  lemma ValidSpecVerdict(m: World, v: Verdict, late: Verdict)
    requires m.pod.Some? && Diagnosis(m, v, late)
    requires IsLate(late) && !late.ServicesInvalid? && !late.ResourcesInvalid?
    ensures !v.ServicesInvalid? && !v.ResourcesInvalid? && !v.NotReached?
    ensures v == InSync ==> late == InSync
  {
  }

  // What the comparisons of a healthy pass start from, and how they can end.
  lemma HealthyVerdict(w: World, d: Draw, v: Verdict) returns (m: World, late: Verdict)
    requires Inv(w) && Allowed(w, d, v) && Healthy(w, d)
    ensures CreateMissing(w, d) == Ready(m) && Prepared(m)
    ensures m.dev == w.dev && m.lib == w.lib && m.startup == w.startup
    ensures Diagnosis(m, v, late) && late == LateVerdict(m)
  {
    HealthyCreates(w, d);
    CreationPrepares(w, d);
    m := CreateMissing(w, d).w;
    late := LateVerdict(m);
    var m0, m1 := CreationStages(w, d);
  }

  lemma ValidLate(m: World)
    requires m.pod.Some? && Parseable(m.lib, m.dev.spec.resources) && ServiceMap(m.dev.spec.services).Ok?
    ensures var late := LateVerdict(m); IsLate(late) && !late.ServicesInvalid? && !late.ResourcesInvalid?
  {
    LateVerdictMeans(m);
  }

  lemma RequeuesUnlessInSync(m: World, v: Verdict)
    requires !v.ServicesInvalid? && !v.ResourcesInvalid?
    ensures OutcomeFrom(Ready(m), v) == if v == InSync then Done else Requeue
  {
  }

  lemma HealthyPass(w: World, d: Draw, v: Verdict) returns (m: World, late: Verdict)
    requires Inv(w) && Allowed(w, d, v) && Healthy(w, d)
    ensures CreateMissing(w, d) == Ready(m) && Prepared(m)
    ensures m.dev == w.dev && m.lib == w.lib && m.startup == w.startup
    ensures Diagnosis(m, v, late) && late == LateVerdict(m)
    ensures IsLate(late) && !late.ServicesInvalid? && !late.ResourcesInvalid?
    ensures Pass(w, d, v) == Repair(w, m, v) && !v.ServicesInvalid? && !v.ResourcesInvalid? && !v.NotReached?
    ensures OutcomeOf(w, d, v) == if v == InSync then Done else Requeue
  {
    m, late := HealthyVerdict(w, d, v);
    ValidLate(m);
    ValidSpecVerdict(m, v, late);
    PassIsRaw(w, d, v, Ready(m));
    RequeuesUnlessInSync(m, v);
  }

  lemma HealthyPassKeepsInv(w: World, d: Draw, v: Verdict)
    requires Inv(w) && Allowed(w, d, v) && Healthy(w, d)
    ensures Inv(Pass(w, d, v))
  {
    var m, late := HealthyPass(w, d, v);
    RepairKeepsCore(w, m, v);
    RepairKeepsStaleSound(w, m, v, late);
  }

  lemma InSyncVerdict(m: World, late: Verdict)
    requires m.pod.Some? && Diagnosis(m, InSync, late)
    ensures late == InSync
  {
  }

  lemma InSyncLeavesSynced(m: World, r: World)
    requires Prepared(m) && Diagnosis(m, InSync, LateVerdict(m)) && r == m.(state := SuccessState)
    ensures Synced(r)
  {
    InSyncVerdict(m, LateVerdict(m));
    LateVerdictMeans(m);
    InSyncIsSynced(m);
    SyncedIgnoresState(m, SuccessState);
  }

  // The repair that is none.
  lemma RawSuccess(w: World, m: World, r: World)
    requires r == m.(state := SuccessState)
    ensures RawPassFrom(w, Ready(m), InSync) == r
  {
  }

  lemma SuccessPass(w: World, d: Draw, m: World, r: World)
    requires Canonical(w.live) && Canonical(w.snap) && Draws(w.dev, d) && CreateMissing(w, d) == Ready(m)
    requires r == m.(state := SuccessState)
    ensures Pass(w, d, InSync) == r
  {
    PassIsRaw(w, d, InSync, Ready(m));
    RawSuccess(w, m, r);
  }

  // A pass that reports success, healthy or not, leaves the cluster synced.
  lemma SuccessIsSynced(w: World, d: Draw, v: Verdict)
    requires Inv(w) && Allowed(w, d, v) && v == InSync
    ensures Synced(Pass(w, d, v)) && Pass(w, d, v).state == SuccessState
  {
    CreationPrepares(w, d);
    var m := CreateMissing(w, d).w;
    InSyncLeavesSynced(m, m.(state := SuccessState));
    SuccessPass(w, d, m, m.(state := SuccessState));
  }

  lemma SyncedIgnoresState(m: World, state: DeviceState)
    requires Synced(m)
    ensures Synced(m.(state := state))
  {
  }
}

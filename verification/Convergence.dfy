// How many passes it takes, exactly, and how many of them restart the pod.
module Convergence {
  import opened Basics
  import opened Api
  import opened Pods
  import opened Quantities
  import opened Reconcile
  import opened CreationFacts
  import opened Soundness

  // ----- What is left to do, read off a saved state -----

  // Configured certificates whose secret exists but was made from another configuration.
  ghost function OutdatedCerts(w: World): set<string> {
    set n | n in Wanted(w) && n in w.secrets && Recorded(w.live, n) != Wanted(w)[n]
  }

  function One(b: bool): nat { if b then 1 else 0 }

  ghost function ScriptWork(w: World): nat {
    One(if OutdatedCerts(w) != {} || DroppedCerts(w) != {} then true
        else if w.dev.spec.selfSignedCerts == [] then w.live.rcEosStale
        else w.rcEos.Some? && (w.live.rcEosStale || !(Wanted(w).Keys <= w.secrets.Keys)))
  }

  function IntfWork(w: World): nat {
    One(if w.dev.spec.intfMapping == map[] then w.live.intfMappingStatus.Of?
        else w.intfMap.Some? && w.live.intfMappingStatus != Of(w.dev.spec.intfMapping))
  }

  function ToggleWork(w: World): nat {
    One(if w.dev.spec.toggleOverrides == map[] then w.live.toggleOverridesStatus.Of?
        else w.toggles.Some? && w.live.toggleOverridesStatus != Of(w.dev.spec.toggleOverrides))
  }

  function StartupWork(w: World): nat {
    One(w.live.startupConfigResourceVersion.Some? && w.startup.None?)
  }

  ghost function LedgerWork(w: World): nat {
    |OutdatedCerts(w)| + |DroppedCerts(w)| + ScriptWork(w) + IntfWork(w) + ToggleWork(w) + StartupWork(w)
  }

  // Whether the pod has to go: a missing pod is built right away, but on an outdated ledger.
  ghost function PodWork(w: World): nat {
    One(if w.pod.None? then LedgerWork(w) > 0
        else w.snap != Demanded(w) || !FieldsAgree(w.dev, w.lib, w.pod.value))
  }

  ghost function LabelWork(w: World): nat {
    One(w.pod.Some? && w.snap == Demanded(w) && w.pod.value.labels != LabelsOf(w.dev))
  }

  ghost function ServiceWork(w: World): nat {
    One(w.dev.spec.services != map[] && w.service.Some? && !ServiceAgrees(w))
  }

  // The number of repairs ahead.
  ghost function Work(w: World): nat {
    LedgerWork(w) + PodWork(w) + LabelWork(w) + ServiceWork(w)
  }

  lemma WorkBound(w: World)
    ensures Work(w) + 1 <= |OutdatedCerts(w)| + |DroppedCerts(w)| + 8
  {
  }

  // ----- Creation changes nothing about what is left to do -----

  lemma CertsKeepWork(w: World, m: World)
    requires CertsMade(w, m, Wanted(w)) && m.dev == w.dev
    ensures OutdatedCerts(m) == OutdatedCerts(w) == DifferingCerts(m)
    ensures DroppedCerts(m) == DroppedCerts(w)
  {
  }

  lemma FilesKeepWork(w: World, m0: World, d: Draw, m1: World)
    requires CertsMade(w, m0, Wanted(w)) && m0.dev == w.dev
    requires Draws(m0.dev, d) && FilesMade(m0, d, m1)
    ensures OutdatedCerts(m1) == OutdatedCerts(w) && DroppedCerts(m1) == DroppedCerts(w)
    ensures ScriptWork(m1) == ScriptWork(w) && IntfWork(m1) == IntfWork(w)
    ensures ToggleWork(m1) == ToggleWork(w) && StartupWork(m1) == StartupWork(w)
  {
    CertsKeepWork(w, m0);
    SameCertsSameStep(m0, m1);
    assert OutdatedCerts(m1) == OutdatedCerts(m0);
    CertMapEmpty(w.dev.name, w.dev.spec.selfSignedCerts);
  }

  // Nothing is left to do for the files exactly when the ledger is the demanded one.
  lemma LedgerDoneIffDemanded(m: World)
    requires Core(m) && FilesComplete(m)
    ensures LedgerWork(m) == 0 <==> m.live == Demanded(m)
  {
    OutdatedIsDiffering(m);
    if LedgerWork(m) == 0 {
      RecordsAreWanted(m);
      CertMapEmpty(m.dev.name, m.dev.spec.selfSignedCerts);
      InStepLedger(m);
    }
    if m.live == Demanded(m) {
      assert Entries(m.live.selfSignedCertStatus) == Wanted(m);
      assert OutdatedCerts(m) == {} && DroppedCerts(m) == {};
    }
  }

  lemma OutdatedIsDiffering(m: World)
    requires Wanted(m).Keys <= m.secrets.Keys
    ensures OutdatedCerts(m) == DifferingCerts(m)
  {
  }

  lemma ServiceAgreesWithoutServices(m: World)
    requires m.dev.spec.services == map[]
    ensures ServiceAgrees(m)
  {
  }

  // The ledger's part depends on the files, the startup config and the ledger alone.
  lemma SameLedgerWork(a: World, b: World)
    requires b == a.(pod := b.pod, service := b.service, snap := b.snap, state := b.state)
    ensures LedgerWork(a) == LedgerWork(b) && Demanded(a) == Demanded(b)
  {
  }

  // Nothing but the ledger, the secrets and the files differs.
  ghost predicate SameAround(a: World, b: World) { SamePod(a, b) && a.service == b.service }

  ghost predicate SamePod(a: World, b: World) {
    && a.dev == b.dev && a.lib == b.lib && a.startup == b.startup
    && a.pod == b.pod && a.snap == b.snap
  }

  lemma SamePodWork(a: World, b: World)
    requires SamePod(a, b) && LedgerWork(a) == LedgerWork(b)
    ensures PodWork(a) == PodWork(b)
  {
  }

  lemma SameLabelWork(a: World, b: World)
    requires SamePod(a, b)
    ensures LabelWork(a) == LabelWork(b)
  {
  }

  lemma SameServiceWork(a: World, b: World)
    requires a.dev == b.dev && a.service == b.service
    ensures ServiceWork(a) == ServiceWork(b)
  {
  }

  lemma WorkloadsKeepPodWork(m1: World, m: World)
    requires Core(m1) && FilesComplete(m1)
    requires WorkloadsMade(m1, m, PodOf(m1), ServiceFor(m1.dev))
    ensures PodWork(m) == PodWork(m1)
  {
    SameLedgerWork(m1, m);
    if m1.pod.None? {
      BuiltPodAgrees(m1.dev, m1.lib, ConfiguredObjects(m1));
      LedgerDoneIffDemanded(m1);
    }
  }

  lemma WorkloadsKeepLabelWork(m1: World, m: World)
    requires WorkloadsMade(m1, m, PodOf(m1), ServiceFor(m1.dev))
    ensures LabelWork(m) == LabelWork(m1)
  {
  }

  lemma WorkloadsKeepServiceWork(m1: World, m: World)
    requires WorkloadsMade(m1, m, PodOf(m1), ServiceFor(m1.dev))
    ensures ServiceWork(m) == ServiceWork(m1)
  {
    if m1.dev.spec.services != map[] && m1.service.None? {
      BuiltServiceAgrees(m1.dev);
    }
  }

  // ----- The creating half of a pass leaves the counts alone -----

  lemma FilesKeepLedgerWork(w: World, m0: World, d: Draw, m1: World)
    requires CertsMade(w, m0, Wanted(w)) && m0.dev == w.dev
    requires Draws(m0.dev, d) && FilesMade(m0, d, m1)
    ensures LedgerWork(m1) == LedgerWork(w)
  {
    FilesKeepWork(w, m0, d, m1);
  }

  lemma CreationKeepsLedgerWork(w: World, d: Draw) returns (m1: World)
    requires Inv(w) && Draws(w.dev, d) && CreateMissing(w, d).Ready?
    ensures SameAround(w, m1) && Core(m1) && FilesComplete(m1)
    ensures WorkloadsMade(m1, CreateMissing(w, d).w, PodOf(m1), ServiceFor(m1.dev))
    ensures LedgerWork(m1) == LedgerWork(w)
  {
    var m0;
    m0, m1 := CreationStages(w, d);
    CertsKeepCore(w, m0, Wanted(w));
    CreationStaleMid(w, m0);
    FilesKeepPrepared(m0, d, m1);
    FilesKeepLedgerWork(w, m0, d, m1);
  }

  lemma CreationKeepsWork(w: World, d: Draw)
    requires Inv(w) && Draws(w.dev, d) && CreateMissing(w, d).Ready?
    ensures var m := CreateMissing(w, d).w; Work(m) == Work(w) && PodWork(m) == PodWork(w)
  {
    var m1 := CreationKeepsLedgerWork(w, d);
    var m := CreateMissing(w, d).w;
    SameLedgerWork(m1, m);
    SamePodWork(w, m1);
    SameLabelWork(w, m1);
    SameServiceWork(w, m1);
    WorkloadsKeepPodWork(m1, m);
    WorkloadsKeepLabelWork(m1, m);
    WorkloadsKeepServiceWork(m1, m);
  }

  // ----- Every repair does exactly one thing -----

  lemma RemoveOne(s: set<string>, n: string)
    requires n in s
    ensures |s - {n}| == |s| - 1
  {
  }

  // `r` is `m` after a repair of the secrets, the files or their part of the ledger.
  ghost predicate FilesRepaired(m: World, r: World) {
    r == m.(secrets := r.secrets, rcEos := r.rcEos, intfMap := r.intfMap, toggles := r.toggles,
            live := r.live, state := r.state)
  }

  lemma OutdatedCertRedone(m: World, r: World, name: string)
    requires Wanted(m).Keys <= m.secrets.Keys && name in DifferingCerts(m)
    requires r == m.(live := MarkStale(m.live), secrets := m.secrets - {name}, state := r.state)
    ensures |OutdatedCerts(r)| == |OutdatedCerts(m)| - 1 && DroppedCerts(r) == DroppedCerts(m)
  {
    OutdatedIsDiffering(m);
    SameCertsSameStep(m, r);
    assert OutdatedCerts(r) == OutdatedCerts(m) - {name};
    RemoveOne(OutdatedCerts(m), name);
  }

  lemma ForgottenRecords(l: Ledger, name: string)
    ensures var entries := Entries(ForgetCert(MarkStale(l), name).selfSignedCertStatus);
            entries == Entries(l.selfSignedCertStatus) - {name}
  {
  }

  lemma DroppedCertForgotten(m: World, r: World, name: string)
    requires name in DroppedCerts(m)
    requires r == m.(live := ForgetCert(MarkStale(m.live), name), secrets := m.secrets - {name}, state := r.state)
    ensures |DroppedCerts(r)| == |DroppedCerts(m)| - 1 && OutdatedCerts(r) == OutdatedCerts(m)
  {
    DroppedStaysOutdated(m, r, name);
    ForgottenRecords(m.live, name);
    assert DroppedCerts(r) == DroppedCerts(m) - {name};
    RemoveOne(DroppedCerts(m), name);
  }

  lemma DroppedStaysOutdated(m: World, r: World, name: string)
    requires name in DroppedCerts(m)
    requires r == m.(live := ForgetCert(MarkStale(m.live), name), secrets := m.secrets - {name}, state := r.state)
    ensures OutdatedCerts(r) == OutdatedCerts(m)
  {
  }

  // As long as a certificate is being repaired the script is going to be rewritten.
  lemma StaleScriptWork(m: World, r: World)
    requires FilesComplete(m) && FilesRepaired(m, r) && r.rcEos == m.rcEos && r.live.rcEosStale
    requires OutdatedCerts(m) != {} || DroppedCerts(m) != {}
    ensures ScriptWork(m) == ScriptWork(r) == 1
  {
  }

  lemma OutdatedCertDoesOne(m: World, r: World, name: string)
    requires FilesComplete(m) && name in DifferingCerts(m)
    requires r == m.(live := MarkStale(m.live), secrets := m.secrets - {name}, state := r.state)
    ensures LedgerWork(r) == LedgerWork(m) - 1
  {
    OutdatedIsDiffering(m);
    OutdatedCertRedone(m, r, name);
    StaleScriptWork(m, r);
    OtherWorkStays(m, r);
    OneCertLess(m, r);
  }

  lemma DroppedCertDoesOne(m: World, r: World, name: string)
    requires FilesComplete(m) && name in DroppedCerts(m)
    requires r == m.(live := ForgetCert(MarkStale(m.live), name), secrets := m.secrets - {name}, state := r.state)
    ensures LedgerWork(r) == LedgerWork(m) - 1
  {
    DroppedCertForgotten(m, r, name);
    StaleScriptWork(m, r);
    OtherWorkStays(m, r);
    OneCertLess(m, r);
  }

  // Certificates apart, a repair of them leaves the ledger's work alone.
  lemma OtherWorkStays(m: World, r: World)
    requires r.dev == m.dev && r.intfMap == m.intfMap && r.toggles == m.toggles && r.startup == m.startup
    requires r.live.intfMappingStatus == m.live.intfMappingStatus
    requires r.live.toggleOverridesStatus == m.live.toggleOverridesStatus
    requires r.live.startupConfigResourceVersion == m.live.startupConfigResourceVersion
    ensures IntfWork(r) == IntfWork(m) && ToggleWork(r) == ToggleWork(m) && StartupWork(r) == StartupWork(m)
  {
  }

  lemma OneCertLess(m: World, r: World)
    requires |OutdatedCerts(r)| + |DroppedCerts(r)| == |OutdatedCerts(m)| + |DroppedCerts(m)| - 1
    requires ScriptWork(m) == ScriptWork(r)
    requires IntfWork(r) == IntfWork(m) && ToggleWork(r) == ToggleWork(m) && StartupWork(r) == StartupWork(m)
    ensures LedgerWork(r) == LedgerWork(m) - 1
  {
  }

  lemma SameOutdated(m: World, r: World)
    requires FilesRepaired(m, r) && r.secrets == m.secrets
    requires r.live.selfSignedCertStatus == m.live.selfSignedCertStatus
    ensures OutdatedCerts(r) == OutdatedCerts(m) && DroppedCerts(r) == DroppedCerts(m)
  {
  }

  lemma ScriptDoesOne(m: World, r: World)
    requires FilesComplete(m) && CertsInStep(m) && m.live.rcEosStale
    requires r == m.(rcEos := None, live := m.live.(rcEosStale := m.dev.spec.selfSignedCerts != []), state := r.state)
    ensures LedgerWork(r) == LedgerWork(m) - 1
  {
  }

  lemma IntfDoesOne(m: World, r: World)
    requires FilesComplete(m) && FilesRepaired(m, r) && IntfWork(m) == 1 && IntfWork(r) == 0
    requires r == m.(intfMap := r.intfMap, live := m.live.(intfMappingStatus := r.live.intfMappingStatus),
             state := r.state)
    ensures LedgerWork(r) == LedgerWork(m) - 1
  {
    SameOutdated(m, r);
  }

  lemma TogglesDoOne(m: World, r: World)
    requires FilesComplete(m) && FilesRepaired(m, r) && ToggleWork(m) == 1 && ToggleWork(r) == 0
    requires r == m.(toggles := r.toggles,
             live := m.live.(toggleOverridesStatus := r.live.toggleOverridesStatus), state := r.state)
    ensures LedgerWork(r) == LedgerWork(m) - 1
  {
    SameOutdated(m, r);
  }

  lemma StartupDoesOne(m: World, r: World)
    requires FilesComplete(m) && StartupWork(m) == 1
    requires r == m.(live := m.live.(startupConfigResourceVersion := None), state := r.state)
    ensures LedgerWork(r) == LedgerWork(m) - 1
  {
    SameOutdated(m, r);
  }

  // ----- What a verdict says about the world it was reached in -----

  ghost predicate FileVerdict(v: Verdict) {
    || v.CertDiffers? || v.CertDropped? || v.RcEosStale? || v.IntfDiffers? || v.IntfDropped?
    || v.TogglesDiffer? || v.TogglesDropped? || v.StartupDropped?
  }

  lemma LedgerVerdictMeans(m: World, v: Verdict)
    requires v == LedgerVerdict(m.dev.spec, m.live, m.startup)
    ensures v.RcEosStale? ==> m.live.rcEosStale
    ensures v.IntfDropped? ==> m.dev.spec.intfMapping == map[] && m.live.intfMappingStatus.Of?
    ensures v.IntfDiffers? ==> m.dev.spec.intfMapping != map[] && m.live.intfMappingStatus != Of(m.dev.spec.intfMapping)
    ensures v.TogglesDropped? ==> m.dev.spec.toggleOverrides == map[] && m.live.toggleOverridesStatus.Of?
    ensures v.TogglesDiffer? ==>
              m.dev.spec.toggleOverrides != map[] && m.live.toggleOverridesStatus != Of(m.dev.spec.toggleOverrides)
    ensures v.StartupDropped? ==> m.live.startupConfigResourceVersion.Some? && m.startup.None?
  {
  }

  lemma FileVerdictMeans(m: World, v: Verdict, late: Verdict)
    requires m.pod.Some? && Diagnosis(m, v, late) && IsLate(late) && FileVerdict(v)
    ensures v.CertDiffers? ==> v.name in DifferingCerts(m)
    ensures v.CertDropped? ==> v.name in DroppedCerts(m)
    ensures !v.CertDiffers? && !v.CertDropped? ==> CertsInStep(m) && v == LedgerVerdict(m.dev.spec, m.live, m.startup)
  {
  }

  lemma FileRepairDoesOne(w: World, m: World, v: Verdict, late: Verdict)
    requires FilesComplete(m) && m.pod.Some? && Diagnosis(m, v, late) && IsLate(late) && FileVerdict(v)
    ensures FilesRepaired(m, Repair(w, m, v))
    ensures LedgerWork(Repair(w, m, v)) == LedgerWork(m) - 1
  {
    var r := Repair(w, m, v);
    FileVerdictMeans(m, v, late);
    if !v.CertDiffers? && !v.CertDropped? {
      LedgerVerdictMeans(m, v);
    }
    match v {
      case CertDiffers(name) => OutdatedCertDoesOne(m, r, name);
      case CertDropped(name) => DroppedCertDoesOne(m, r, name);
      case RcEosStale => ScriptDoesOne(m, r);
      case IntfDiffers => IntfDoesOne(m, r);
      case IntfDropped => IntfDoesOne(m, r);
      case TogglesDiffer => TogglesDoOne(m, r);
      case TogglesDropped => TogglesDoOne(m, r);
      case StartupDropped => StartupDoesOne(m, r);
      case _ =>
    }
  }

  // `r` is one step of the work at `m` further, and of the pod's share if the verdict deletes the pod.
  ghost predicate DoesOneTo(m: World, r: World, v: Verdict) {
    && (v == InSync <==> Work(m) == 0)
    && (v != InSync ==> Work(r) == Work(m) - 1)
    && PodWork(r) == PodWork(m) - One(DeletesPod(v))
  }

  lemma RestOfWork(m: World, r: World, v: Verdict)
    requires !v.InSync? && !DeletesPod(v)
    requires Work(m) > 0 && Work(r) == Work(m) - 1 && PodWork(m) == PodWork(r)
    ensures DoesOneTo(m, r, v)
  {
  }

  lemma LessWork(m: World, r: World)
    requires FilesRepaired(m, r) && m.pod.Some? && LedgerWork(r) == LedgerWork(m) - 1
    ensures Work(m) > 0 && Work(r) == Work(m) - 1
  {
    SamePodWorkWithPod(m, r);
    SameLabelWork(m, r);
    SameServiceWork(m, r);
  }

  lemma SamePodWorkWithPod(a: World, b: World)
    requires SamePod(a, b) && a.pod.Some?
    ensures PodWork(a) == PodWork(b)
  {
  }

  lemma LabelsDoNotMatter(dev: Device, lib: QuantityLibrary, pod: Pod, labels: map<string, string>)
    ensures FieldsAgree(dev, lib, pod) <==> FieldsAgree(dev, lib, pod.(labels := labels))
  {
    forall field ensures FieldAgrees(dev, lib, pod, field) <==> FieldAgrees(dev, lib, pod.(labels := labels), field) {
    }
  }

  lemma DisagreementIsWork(m: World)
    requires (m.dev.spec.services != map[] ==> m.service.Some?) && !ServiceAgrees(m)
    ensures ServiceWork(m) == 1
  {
  }

  // ----- Repairs of the pod and the service -----

  lemma PodDeletionDoesOne(m: World, r: World)
    requires LedgerWork(m) == 0 && m.pod.Some? && r == m.(pod := None, state := r.state)
    requires m.snap != Demanded(m) || (!FieldsAgree(m.dev, m.lib, m.pod.value) && m.pod.value.labels == LabelsOf(m.dev))
    ensures PodWork(m) == 1 && PodWork(r) == 0 && LabelWork(m) == LabelWork(r) == 0
  {
  }

  lemma LabelRepairDoesOne(m: World, r: World)
    requires m.pod.Some? && m.snap == Demanded(m) && m.pod.value.labels != LabelsOf(m.dev)
    requires r == m.(pod := Some(m.pod.value.(labels := LabelsOf(m.dev))), state := r.state)
    ensures PodWork(r) == PodWork(m) && LabelWork(m) == 1 && LabelWork(r) == 0
  {
    SameLedgerWork(m, r);
    LabelsDoNotMatter(m.dev, m.lib, m.pod.value, LabelsOf(m.dev));
  }

  lemma ServiceRepairDoesOne(m: World, r: World)
    requires ServiceWork(m) == 1 && r == m.(service := None, state := r.state)
    ensures PodWork(r) == PodWork(m) && Work(m) > 0 && Work(r) == Work(m) - 1
  {
    SameLedgerWork(m, r);
    SamePodWork(m, r);
    SameLabelWork(m, r);
    NoServiceNoWork(r);
    OneLess(m, r);
  }

  lemma NoServiceNoWork(r: World)
    requires r.service.None?
    ensures ServiceWork(r) == 0
  {
  }

  lemma PodVerdictMeans(m: World, v: Verdict, late: Verdict)
    requires Prepared(m) && Diagnosis(m, v, late) && IsLate(late) && DeletesPod(v)
    ensures m.live == Demanded(m)
    ensures m.snap != m.live || (v == late && late.PodDiffers? && m.pod.value.labels == LabelsOf(m.dev))
  {
    DiagnosedLedger(m, v, late);
  }

  lemma PodRepair(w: World, m: World, v: Verdict, r: World)
    requires DeletesPod(v) && r == Repair(w, m, v)
    ensures r == m.(pod := None, state := r.state)
  {
  }

  lemma PodVerdictDoesOne(w: World, m: World, v: Verdict, late: Verdict)
    requires Prepared(m) && Diagnosis(m, v, late) && IsLate(late) && DeletesPod(v)
    requires late.PodDiffers? ==> !FieldsAgree(m.dev, m.lib, m.pod.value)
    ensures DoesOne(w, m, v)
  {
    PodVerdictMeans(m, v, late);
    LedgerDoneIffDemanded(m);
    PodRepair(w, m, v, Repair(w, m, v));
    PodIsRest(m, Repair(w, m, v), v);
  }

  lemma PodIsRest(m: World, r: World, v: Verdict)
    requires LedgerWork(m) == 0 && m.pod.Some? && r == m.(pod := None, state := r.state) && DeletesPod(v)
    requires || m.snap != Demanded(m)
             || (!FieldsAgree(m.dev, m.lib, m.pod.value) && m.pod.value.labels == LabelsOf(m.dev))
    ensures DoesOneTo(m, r, v)
  {
    PodDeletionDoesOne(m, r);
    SameLedgerWork(m, r);
    SameServiceWork(m, r);
  }

  lemma LabelVerdictDoesOne(w: World, m: World, late: Verdict)
    requires Prepared(m) && Diagnosis(m, LabelsDiffer, late) && IsLate(late)
    ensures DoesOne(w, m, LabelsDiffer)
  {
    var r := Repair(w, m, LabelsDiffer);
    DiagnosedLedger(m, LabelsDiffer, late);
    LabelRepairDoesOne(m, r);
    SameLedgerWork(m, r);
    SameServiceWork(m, r);
    OneLess(m, r);
    RestOfWork(m, r, LabelsDiffer);
  }

  lemma ServiceVerdictDoesOne(w: World, m: World)
    requires (m.dev.spec.services != map[] ==> m.service.Some?) && !ServiceAgrees(m)
    ensures DoesOne(w, m, ServiceDiffers)
  {
    var r := Repair(w, m, ServiceDiffers);
    DisagreementIsWork(m);
    ServiceIsRest(m, r);
  }

  lemma ServiceIsRest(m: World, r: World)
    requires ServiceWork(m) == 1 && r == m.(service := None, state := r.state)
    ensures DoesOneTo(m, r, ServiceDiffers)
  {
    ServiceRepairDoesOne(m, r);
    RestOfWork(m, r, ServiceDiffers);
  }

  lemma OneLess(m: World, r: World)
    requires LedgerWork(r) == LedgerWork(m) && PodWork(r) == PodWork(m)
    requires LabelWork(r) + ServiceWork(r) + 1 == LabelWork(m) + ServiceWork(m)
    ensures Work(m) > 0 && Work(r) == Work(m) - 1
  {
  }

  lemma InSyncDoesOne(m: World, r: World)
    requires Synced(m) && LedgerWork(m) == 0 && r == m.(state := r.state)
    ensures DoesOneTo(m, r, InSync)
  {
    SyncedHasNoWork(m);
    SameLedgerWork(m, r);
    SamePodWork(m, r);
  }

  lemma SyncedHasNoWork(m: World)
    requires Synced(m) && LedgerWork(m) == 0
    ensures Work(m) == 0
  {
  }

  lemma FileVerdictKeepsPod(v: Verdict)
    requires FileVerdict(v)
    ensures !v.InSync? && !DeletesPod(v)
  {
  }

  lemma FileIsRest(m: World, r: World, v: Verdict)
    requires FilesRepaired(m, r) && m.pod.Some? && LedgerWork(r) == LedgerWork(m) - 1 && !v.InSync? && !DeletesPod(v)
    ensures DoesOneTo(m, r, v)
  {
    SamePodWorkWithPod(m, r);
    LessWork(m, r);
    RestOfWork(m, r, v);
  }

  lemma FileVerdictDoesOne(w: World, m: World, v: Verdict, late: Verdict)
    requires FilesComplete(m) && m.pod.Some? && Diagnosis(m, v, late) && IsLate(late) && FileVerdict(v)
    ensures DoesOne(w, m, v)
  {
    FileRepairDoesOne(w, m, v, late);
    FileVerdictKeepsPod(v);
    FileIsRest(m, Repair(w, m, v), v);
  }

  // ----- One pass -----

  ghost predicate DoesOne(w: World, m: World, v: Verdict) { DoesOneTo(m, Repair(w, m, v), v) }

  lemma VerdictCases(m: World, v: Verdict, late: Verdict)
    requires m.pod.Some? && Diagnosis(m, v, late) && IsLate(late)
    ensures FileVerdict(v) || v.StartupDiffers? || v.PodOutdated? || v.LabelsDiffer? || v == late
    ensures IsLate(v) ==> v == late
  {
  }

  lemma RepairDoesOne(w: World, m: World, v: Verdict, late: Verdict)
    requires Prepared(m) && Diagnosis(m, v, late) && late == LateVerdict(m)
    requires IsLate(late) && !late.ServicesInvalid? && !late.ResourcesInvalid?
    ensures DoesOne(w, m, v)
  {
    NotedStartupAgrees(m, v, late);
    VerdictCases(m, v, late);
    LateVerdictMeans(m);
    if FileVerdict(v) {
      FileVerdictDoesOne(w, m, v, late);
    } else if v.InSync? {
      InSyncIsSynced(m);
      LedgerDoneIffDemanded(m);
      InSyncDoesOne(m, Repair(w, m, InSync));
    } else if DeletesPod(v) {
      PodVerdictDoesOne(w, m, v, late);
    } else if v.LabelsDiffer? {
      LabelVerdictDoesOne(w, m, late);
    } else {
      ServiceVerdictDoesOne(w, m);
    }
  }

  // Either the work is done and success is reported, or it is one repair less. Exactly the repairs that
  // delete the pod use up the pod's share of the work.
  lemma PassDoesOne(w: World, d: Draw, v: Verdict)
    requires Inv(w) && Allowed(w, d, v) && Healthy(w, d)
    ensures v == InSync <==> Work(w) == 0
    ensures v != InSync ==> Work(Pass(w, d, v)) == Work(w) - 1
    ensures PodWork(Pass(w, d, v)) == PodWork(w) - One(DeletesPod(v))
  {
    var m, late := HealthyPass(w, d, v);
    CreationKeepsWork(w, d);
    RepairDoesOne(w, m, v, late);
  }
}

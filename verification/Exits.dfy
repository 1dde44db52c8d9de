// Every way out of a pass, healthy or not: exactly when the ledger still tells the truth afterwards.
module Exits {
  import opened Basics
  import opened Api
  import opened Names
  import opened Files
  import opened Services
  import opened Pods
  import opened Quantities
  import opened Volumes
  import opened Reconcile
  import opened CreationFacts
  import opened Soundness
  import opened Runs
  import opened Convergence

  // ----- The guards -----

  // The certificates on record once the missing ones have been made.
  function RecordedThen(w: World): map<string, CertConfig> {
    Entries(w.live.selfSignedCertStatus) + (map n | n in Wanted(w) && n !in w.secrets :: Wanted(w)[n])
  }

  // The certificates in `recorded` make the script of `certs`.
  ghost predicate MakesScript(device: string, recorded: map<string, CertConfig>, certs: seq<CertConfig>) {
    exists list :: SameScript(device, recorded, list, certs)
  }

  ghost predicate SameScript(device: string, recorded: map<string, CertConfig>, list: seq<CertConfig>,
                             certs: seq<CertConfig>)
  {
    list != [] && recorded == CertMap(device, list) && RcEosText(list) == RcEosText(certs)
  }

  // A new script is written before the certificates are compared with their records: those on record then,
  // dropped ones included, have to make the same script.
  ghost predicate ScriptGuard(w: World) {
    FreshScript(w) ==> MakesScript(w.dev.name, RecordedThen(w), w.dev.spec.selfSignedCerts)
  }

  ghost predicate MissingCertsRecorded(w: World) {
    forall n :: n in Wanted(w) && n !in w.secrets ==> RecordedAs(w.live, n, Wanted(w)[n])
  }

  // A new toggle file has to be one for the recorded toggles.
  ghost predicate TogglesGuard(w: World, d: Draw)
    requires Draws(w.dev, d)
  {
    FreshToggles(w) ==>
      && w.live.toggleOverridesStatus.Of?
      && IsToggleObject(ToggleObject(d.toggleOrder, w.dev.spec.toggleOverrides), w.live.toggleOverridesStatus.entries)
  }

  // What is created without the ledger being saved has to be on record already.
  ghost predicate UnsavedGuard(w: World, d: Draw)
    requires Draws(w.dev, d)
  {
    && MissingCertsRecorded(w) && TogglesGuard(w, d)
    && (FreshIntf(w) ==> w.live.intfMappingStatus == Of(w.dev.spec.intfMapping))
    && (!w.live.rcEosStale ==> ScriptGuard(w))
  }

  // ----- How a pass ends -----

  // No secret is missing whose key generation fails.
  ghost predicate KeysWork(w: World, badKeys: set<nat>) {
    forall i :: 0 <= i < |w.dev.spec.selfSignedCerts| && SecretName(w.dev.name, i) !in w.secrets ==> i !in badKeys
  }

  ghost predicate BadPermissions(w: World) { w.startup.Some? && DefaultMode(w.startup.value.configMap).Err? }

  // EarlyFailure: no key for a secret. LateFailure: later, with the ledger saved. Crash: a panic.
  // Through: the comparisons are reached.
  datatype Ending = EarlyFailure | LateFailure | Crash | Through

  ghost function EndingOf(w: World, badKeys: set<nat>): Ending {
    var spec := w.dev.spec;
    if !KeysWork(w, badKeys) then EarlyFailure
    else if FreshIntf(w) && !ValidInterfaces(spec.intfMapping) then LateFailure
    else if w.pod.None? && !Parseable(w.lib, spec.resources) then LateFailure
    else if w.pod.None? && BadPermissions(w) then Crash
    else if spec.services != map[] && w.service.None? && ServiceMap(spec.services).Err? then LateFailure
    else Through
  }

  ghost predicate EarlyFieldsAgree(dev: Device, lib: QuantityLibrary, pod: Pod) {
    forall field: PodField :: field != Agents ==> FieldAgrees(dev, lib, pod, field)
  }

  // Nothing is left to repair before the services are compared, and these conflict.
  ghost predicate StopsAtServices(w: World) {
    && ServiceMap(w.dev.spec.services).Err? && LedgerWork(w) == 0
    && (w.pod.Some? ==>
          && w.snap == Demanded(w) && w.pod.value.labels == LabelsOf(w.dev)
          && EarlyFieldsAgree(w.dev, w.lib, w.pod.value))
  }

  // The guard for the way the pass is going to end.
  ghost predicate Harmless(w: World, d: Draw)
    requires Draws(w.dev, d)
  {
    match EndingOf(w, d.badKeys)
    case EarlyFailure => true
    case LateFailure => ScriptGuard(w)
    case Crash => UnsavedGuard(w, d)
    case Through => StopsAtServices(w) ==> UnsavedGuard(w, d)
  }

  // ----- The guard, read off the world before the pass -----

  lemma NoDroppedMeansWanted(w: World)
    ensures DroppedCerts(w) == {} <==> forall n :: n in Entries(w.live.selfSignedCertStatus) ==> n in Wanted(w)
  {
    if DroppedCerts(w) == {} {
      forall n | n in Entries(w.live.selfSignedCertStatus) ensures n in Wanted(w) {
        assert n !in DroppedCerts(w);
      }
    }
  }

  lemma RecordedThenMade(w: World, m0: World)
    requires CertsMade(w, m0, Wanted(w))
    ensures Entries(m0.live.selfSignedCertStatus) == RecordedThen(w)
  {
    var recorded := Entries(m0.live.selfSignedCertStatus);
    forall n ensures Lookup(recorded, n) == Lookup(RecordedThen(w), n) {
      if n in Wanted(w) && n !in w.secrets {
        assert MadeFrom(m0, n, Wanted(w)[n]);
      } else {
        assert SameRecord(w.live, m0.live, n);
      }
    }
    SameLookups(recorded, RecordedThen(w));
  }

  lemma SameLookups<V>(a: map<string, V>, b: map<string, V>)
    requires forall n :: Lookup(a, n) == Lookup(b, n)
    ensures a == b
  {
    forall n ensures n in a <==> n in b ensures n in a && n in b ==> a[n] == b[n] {
      assert Lookup(a, n) == Lookup(b, n);
    }
  }

  // A script just written is sound exactly if the recorded certificates make it.
  lemma NewScriptSoundExactly(w: World, certs: seq<CertConfig>)
    requires w.rcEos == Some(RcEosObject(certs)) && !w.live.rcEosStale
    ensures StaleSound(w) <==> MakesScript(w.dev.name, Entries(w.live.selfSignedCertStatus), certs)
  {
    if StaleSound(w) {
      var list :| ScriptOf(w, list);
      SameObjectSameText(list, certs);
      assert SameScript(w.dev.name, Entries(w.live.selfSignedCertStatus), list, certs);
    }
    if MakesScript(w.dev.name, Entries(w.live.selfSignedCertStatus), certs) {
      var list :| SameScript(w.dev.name, Entries(w.live.selfSignedCertStatus), list, certs);
      assert ScriptOf(w, list);
    }
  }

  lemma SameObjectSameText(a: seq<CertConfig>, b: seq<CertConfig>)
    requires RcEosObject(a) == RcEosObject(b)
    ensures RcEosText(a) == RcEosText(b)
  {
    assert RcEosObject(a).binaryData["rc.eos"] == RcEosObject(b).binaryData["rc.eos"];
  }

  // ----- What a creation leaves behind, however far it got -----

  // Certificates, script and their part of the ledger.
  ghost predicate ScriptMade(w: World, m0: World, m: World) {
    && m.dev == w.dev && m.secrets == m0.secrets
    && m.live.selfSignedCertStatus == m0.live.selfSignedCertStatus
    && m.rcEos == (if FreshScript(w) then Some(RcEosObject(w.dev.spec.selfSignedCerts)) else w.rcEos)
    && m.live.rcEosStale == (!FreshScript(w) && m0.live.rcEosStale)
  }

  lemma CreationEndsAfterScript(w: World, d: Draw) returns (m0: World)
    requires Draws(w.dev, d) && EnsureCerts(w, d, 0).Ready?
    ensures CertsMade(w, m0, Wanted(w)) && ScriptMade(w, m0, CreateMissing(w, d).w)
  {
    EnsureCertsKeepsDevice(w, d, 0);
    var made := EnsureCertsMakes(w, d, 0);
    m0 := EnsureCerts(w, d, 0).w;
    FilesEndAfterScript(w, m0, d);
    if EnsureFiles(m0, d).Ready? {
      var m1 := EnsureFiles(m0, d).w;
      WorkloadsKeepFiles(m1, PodOf(m1), ServiceFor(m1.dev));
    }
  }

  lemma FilesEndAfterScript(w: World, m0: World, d: Draw)
    requires Draws(m0.dev, d) && m0.dev == w.dev && m0.rcEos == w.rcEos
    ensures ScriptMade(w, m0, EnsureFiles(m0, d).w)
  {
    var a := EnsureRcEos(m0);
    assert ScriptMade(w, m0, a);
    IntfKeepsScript(w, m0, a);
    if EnsureIntf(a).Ready? {
      TogglesKeepScript(w, m0, EnsureIntf(a).w, d);
    }
  }

  lemma IntfKeepsScript(w: World, m0: World, a: World)
    requires ScriptMade(w, m0, a)
    ensures ScriptMade(w, m0, EnsureIntf(a).w)
  {
  }

  lemma TogglesKeepScript(w: World, m0: World, a: World, d: Draw)
    requires Draws(a.dev, d) && ScriptMade(w, m0, a)
    ensures ScriptMade(w, m0, NoteStartup(EnsureToggles(a, d)))
  {
  }

  // Whatever happens to pod and service, the files and the ledger stay.
  lemma WorkloadsKeepFiles(m1: World, pod: Built<Pod>, service: Result<Service>)
    ensures var m := EnsureWorkloads(m1, pod, service).w;
            m == m1.(pod := m.pod, service := m.service, snap := m.snap) && m.snap in {m1.snap, m1.live}
  {
  }

  lemma FilesKeepCoreAnyway(m0: World, d: Draw)
    requires Core(m0) && Draws(m0.dev, d)
    ensures Core(EnsureFiles(m0, d).w)
  {
    if EnsureFiles(m0, d).Ready? {
      EnsureFilesMakes(m0, d);
      FilesKeepCore(m0, d, EnsureFiles(m0, d).w);
    } else {
      ScriptKeepsCore(m0);
    }
  }

  lemma ScriptKeepsCore(m0: World)
    requires Core(m0)
    ensures Core(EnsureRcEos(m0))
  {
  }

  lemma WorkloadsKeepCoreAnyway(m1: World, m: World)
    requires Core(m1) && m == m1.(pod := m.pod, service := m.service, snap := m.snap) && m.snap in {m1.snap, m1.live}
    ensures Core(m)
  {
  }

  // Creation never harms the core, even when it fails half-way.
  lemma CreationKeepsCore(w: World, d: Draw)
    requires Core(w) && Draws(w.dev, d)
    ensures Core(CreateMissing(w, d).w)
  {
    EnsureCertsKeepsDevice(w, d, 0);
    var made := EnsureCertsMakes(w, d, 0);
    var m0 := EnsureCerts(w, d, 0).w;
    CertsKeepCore(w, m0, made);
    if EnsureCerts(w, d, 0).Ready? {
      FilesKeepCoreAnyway(m0, d);
      if EnsureFiles(m0, d).Ready? {
        var m1 := EnsureFiles(m0, d).w;
        WorkloadsKeepFiles(m1, PodOf(m1), ServiceFor(m1.dev));
        WorkloadsKeepCoreAnyway(m1, EnsureWorkloads(m1, PodOf(m1), ServiceFor(m1.dev)).w);
      }
    }
  }

  // ----- Leaving with the ledger saved -----

  lemma OldScriptStaysSound(w: World, m: World, made: map<string, CertConfig>)
    requires StaleSound(w) && CertsMade(w, m, made)
    ensures StaleSound(m)
  {
    if m.rcEos.Some? && !m.live.rcEosStale {
      var certs :| ScriptOf(w, certs);
      assert ScriptOf(m, certs);
    }
  }

  lemma SameScriptPart(a: World, b: World)
    requires a.dev.name == b.dev.name && a.rcEos == b.rcEos && a.live.rcEosStale == b.live.rcEosStale
    requires a.live.selfSignedCertStatus == b.live.selfSignedCertStatus
    ensures StaleSound(a) ==> StaleSound(b)
  {
    if StaleSound(a) && b.rcEos.Some? && !b.live.rcEosStale {
      var certs :| ScriptOf(a, certs);
      assert ScriptOf(b, certs);
    }
  }

  // With a script just written, sound means the guard held; an old script stays sound.
  lemma ScriptMadeExactly(w: World, m0: World, m: World)
    requires Inv(w) && CertsMade(w, m0, Wanted(w)) && ScriptMade(w, m0, m)
    ensures StaleSound(m) <==> ScriptGuard(w)
  {
    if FreshScript(w) {
      RecordedThenMade(w, m0);
      NewScriptSoundExactly(m, w.dev.spec.selfSignedCerts);
    } else {
      OldScriptStaysSound(w, m0, Wanted(w));
      SameScriptPart(m0, m);
    }
  }

  lemma FailedExitExactly(w: World, d: Draw)
    requires Inv(w) && Draws(w.dev, d)
    ensures var m := CreateMissing(w, d).w;
            Core(m) && (StaleSound(m) <==> (EnsureCerts(w, d, 0).Ready? ==> ScriptGuard(w)))
  {
    CreationKeepsCore(w, d);
    if EnsureCerts(w, d, 0).Ready? {
      var m0 := CreationEndsAfterScript(w, d);
      ScriptMadeExactly(w, m0, CreateMissing(w, d).w);
    } else {
      var made := EnsureCertsMakes(w, d, 0);
      OldScriptStaysSound(w, EnsureCerts(w, d, 0).w, made);
    }
  }

  // ----- Leaving without saving the ledger -----

  // The secrets and files of `m`, with the ledger of `w`.
  ghost predicate Unsaved(w: World, m: World, r: World) {
    r == m.(pod := r.pod, service := r.service, live := w.live, snap := w.snap, state := r.state)
  }

  lemma UnsavedCertsExactly(w: World, m0: World, r: World)
    requires Core(w) && CertsMade(w, m0, Wanted(w)) && r.secrets == m0.secrets && r.live == w.live
    ensures CertSound(r) <==> MissingCertsRecorded(w)
  {
    forall n | n in w.secrets
      ensures RecordedAs(w.live, n, Recorded(w.live, n)) && w.secrets[n] == CertSecret(Recorded(w.live, n))
    {
    }
    forall n | n in Wanted(w) && n !in w.secrets ensures r.secrets[n] == CertSecret(Wanted(w)[n]) && n in r.secrets {
      assert MadeFrom(m0, n, Wanted(w)[n]);
    }
    if CertSound(r) {
      forall n | n in Wanted(w) && n !in w.secrets ensures RecordedAs(w.live, n, Wanted(w)[n]) {
        CertSecretTellsConfig(Recorded(w.live, n), Wanted(w)[n]);
      }
    }
  }

  lemma UnsavedIntfExactly(w: World, r: World)
    requires Core(w) && r.live == w.live && (FreshIntf(w) ==> ValidInterfaces(w.dev.spec.intfMapping))
    requires r.intfMap == (if FreshIntf(w) then Some(IntfObject(w.dev.spec.intfMapping)) else w.intfMap)
    ensures IntfSound(r) <==> (FreshIntf(w) ==> w.live.intfMappingStatus == Of(w.dev.spec.intfMapping))
  {
    if FreshIntf(w) && IntfSound(r) {
      var a, b := w.live.intfMappingStatus.entries, w.dev.spec.intfMapping;
      assert IntfObject(a).binaryData["EosIntfMapping.json"] == IntfObject(b).binaryData["EosIntfMapping.json"];
      IntfMappingPartition(a);
      IntfMappingPartition(b);
    }
  }

  lemma UnsavedTogglesExactly(w: World, d: Draw, r: World)
    requires Core(w) && Draws(w.dev, d) && r.live == w.live
    requires r.toggles
          == (if FreshToggles(w) then Some(ToggleObject(d.toggleOrder, w.dev.spec.toggleOverrides)) else w.toggles)
    ensures ToggleSound(r) <==> TogglesGuard(w, d)
  {
  }

  lemma UnsavedScriptExactly(w: World, r: World)
    requires Inv(w) && r.dev == w.dev && r.live == w.live && MissingCertsRecorded(w)
    requires r.rcEos == (if FreshScript(w) then Some(RcEosObject(w.dev.spec.selfSignedCerts)) else w.rcEos)
    ensures StaleSound(r) <==> (!w.live.rcEosStale ==> ScriptGuard(w))
  {
    if w.live.rcEosStale {
    } else if FreshScript(w) {
      assert RecordedThen(w) == Entries(w.live.selfSignedCertStatus);
      NewScriptSoundExactly(r, w.dev.spec.selfSignedCerts);
    } else {
      SameScriptPart(w, r);
    }
  }

  lemma UnsavedCoreParts(w: World, r: World)
    requires Core(w) && RcEosBuilt(r) && r.live == w.live && r.snap == w.snap
    ensures Inv(r) <==> CertSound(r) && IntfSound(r) && ToggleSound(r) && StaleSound(r)
  {
  }

  lemma UnsavedExitExactly(w: World, m0: World, d: Draw, m: World, r: World)
    requires Inv(w) && Draws(w.dev, d) && CertsMade(w, m0, Wanted(w)) && m0.dev == w.dev
    requires FilesMade(m0, d, m) && RcEosBuilt(m) && Unsaved(w, m, r)
    ensures Inv(r) <==> UnsavedGuard(w, d)
  {
    UnsavedCertsExactly(w, m0, r);
    UnsavedIntfExactly(w, r);
    UnsavedTogglesExactly(w, d, r);
    if CertSound(r) {
      UnsavedScriptExactly(w, r);
    }
    UnsavedCoreParts(w, r);
  }

  // ----- Every pass -----

  lemma {:induction false} CertsNeverCrash(w: World, d: Draw, i: nat)
    requires i <= |w.dev.spec.selfSignedCerts|
    ensures !EnsureCerts(w, d, i).Crashed?
    decreases |w.dev.spec.selfSignedCerts| - i
  {
    if i == |w.dev.spec.selfSignedCerts| {
    } else {
      CertsNeverCrash(w, d, i + 1);
      CertsNeverCrash(AddCert(w, i), d, i + 1);
    }
  }

  lemma ObjectsNeverCrash(w: World, d: Draw)
    requires Draws(w.dev, d) && !EnsureCerts(w, d, 0).Crashed?
    ensures !EnsureObjects(w, d).Crashed?
  {
  }

  lemma {:induction false} CertsReadyExactly(w: World, d: Draw, i: nat)
    requires i <= |w.dev.spec.selfSignedCerts|
    ensures EnsureCerts(w, d, i).Ready? <==>
            forall j :: i <= j < |w.dev.spec.selfSignedCerts| && SecretName(w.dev.name, j) !in w.secrets ==>
              j !in d.badKeys
    decreases |w.dev.spec.selfSignedCerts| - i
  {
    if i == |w.dev.spec.selfSignedCerts| {
    } else if SecretName(w.dev.name, i) in w.secrets {
      CertsReadyExactly(w, d, i + 1);
    } else {
      CertsReadyExactly(AddCert(w, i), d, i + 1);
      forall j | i < j < |w.dev.spec.selfSignedCerts|
        ensures SecretName(w.dev.name, j) in AddCert(w, i).secrets <==> SecretName(w.dev.name, j) in w.secrets
      {
        if SecretName(w.dev.name, j) == SecretName(w.dev.name, i) {
          SecretNameInjective(w.dev.name, j, w.dev.name, i);
        }
      }
    }
  }

  // What the creation of pod and service depends on is untouched by the files.
  lemma ObjectsEnd(w: World, d: Draw)
    requires Core(w) && Draws(w.dev, d)
    ensures EnsureObjects(w, d).Ready? <==>
            KeysWork(w, d.badKeys) && !(FreshIntf(w) && !ValidInterfaces(w.dev.spec.intfMapping))
    ensures !EnsureObjects(w, d).Crashed?
  {
    EnsureCertsKeepsDevice(w, d, 0);
    CertsReadyExactly(w, d, 0);
    CertsNeverCrash(w, d, 0);
    ObjectsNeverCrash(w, d);
    var made := EnsureCertsMakes(w, d, 0);
    FilesReadyExactly(EnsureCerts(w, d, 0).w, d);
  }

  lemma FilesReadyExactly(m0: World, d: Draw)
    requires Draws(m0.dev, d)
    ensures EnsureFiles(m0, d).Ready? <==> !(FreshIntf(m0) && !ValidInterfaces(m0.dev.spec.intfMapping))
  {
  }

  lemma ObjectsKeepRest(w: World, d: Draw)
    requires Core(w) && Draws(w.dev, d) && EnsureObjects(w, d).Ready?
    ensures var m := EnsureObjects(w, d).w;
            && Core(m) && m.dev == w.dev && m.lib == w.lib && m.startup == w.startup
            && m.pod == w.pod && m.service == w.service
  {
    var m0 := ObjectStages(w, d);
    CertsKeepCore(w, m0, Wanted(w));
    FilesKeepCore(m0, d, EnsureObjects(w, d).w);
  }

  // A pod can be built unless a quantity does not parse or the startup config's permissions are malformed;
  // the permissions of everything else are well-formed.
  lemma PodEndsExactly(m: World)
    requires Core(m)
    ensures PodOf(m).Refused? <==> !Parseable(m.lib, m.dev.spec.resources)
    ensures PodOf(m).Panicked? <==> Parseable(m.lib, m.dev.spec.resources) && BadPermissions(m)
  {
    if BadPermissions(m) {
      var n := StartupConfigName(m.dev.name);
      assert n in ConfiguredObjects(m) && ConfiguredObjects(m)[n] == m.startup.value.configMap;
    } else {
      ConfiguredModes(m);
    }
    VolumesFailExactly(ConfiguredObjects(m));
  }

  lemma WorkloadsEnd(m: World, pod: Built<Pod>, service: Result<Service>)
    ensures var end := EnsureWorkloads(m, pod, service);
            if m.pod.None? && pod.Refused? then end.Failed?
            else if m.pod.None? && pod.Panicked? then end.Crashed?
            else if m.dev.spec.services != map[] && m.service.None? && service.Err? then end.Failed?
            else end.Ready?
  {
  }

  lemma CreationAfterObjects(w: World, d: Draw)
    requires Draws(w.dev, d)
    ensures var objects := EnsureObjects(w, d);
            CreateMissing(w, d)
            == if objects.Ready?
                then EnsureWorkloads(objects.w, PodOf(objects.w), ServiceFor(objects.w.dev)) else objects
  {
  }

  lemma WorkloadsEndExactly(w: World, d: Draw)
    requires Core(w) && Draws(w.dev, d) && EnsureObjects(w, d).Ready?
    ensures var spec, end := w.dev.spec, CreateMissing(w, d);
            if w.pod.None? && !Parseable(w.lib, spec.resources) then end.Failed?
            else if w.pod.None? && BadPermissions(w) then end.Crashed?
            else if spec.services != map[] && w.service.None? && ServiceMap(spec.services).Err? then end.Failed?
            else end.Ready?
  {
    var m := EnsureObjects(w, d).w;
    CreationAfterObjects(w, d);
    ObjectsKeepRest(w, d);
    PodEndsExactly(m);
    WorkloadsEnd(m, PodOf(m), ServiceFor(m.dev));
  }

  // How the creating half ends can be read off the world before the pass.
  lemma EndsExactly(w: World, d: Draw)
    requires Core(w) && Draws(w.dev, d)
    ensures var end := CreateMissing(w, d);
            match EndingOf(w, d.badKeys)
            case EarlyFailure => end.Failed?
            case LateFailure => end.Failed?
            case Crash => end.Crashed?
            case Through => end.Ready?
    ensures EnsureCerts(w, d, 0).Ready? <==> !EndingOf(w, d.badKeys).EarlyFailure?
  {
    CertsReadyExactly(w, d, 0);
    ObjectsEnd(w, d);
    if EnsureObjects(w, d).Ready? {
      WorkloadsEndExactly(w, d);
    } else {
      CreationAfterObjects(w, d);
    }
  }

  // A pass panics exactly if it gets to build a pod although the startup config's permissions are malformed.
  lemma CrashesExactly(w: World, d: Draw)
    requires Core(w) && Draws(w.dev, d)
    ensures CreateMissing(w, d).Crashed? <==>
            && EnsureObjects(w, d).Ready? && w.pod.None?
            && Parseable(w.lib, w.dev.spec.resources) && BadPermissions(w)
  {
    EndsExactly(w, d);
    ObjectsEnd(w, d);
  }

  // ----- The exit at the services -----

  ghost predicate StopsHere(m: World)
    requires m.pod.Some?
  {
    && ServiceMap(m.dev.spec.services).Err? && m.live == m.snap == Demanded(m)
    && m.pod.value.labels == LabelsOf(m.dev) && EarlyFieldsAgree(m.dev, m.lib, m.pod.value)
  }

  lemma FieldVerdictAtServices(differing: set<PodField>, parseable: bool, validServices: bool, serviceAgrees: bool)
    requires !parseable ==> Resources in differing
    ensures FieldVerdict(differing, parseable, validServices, serviceAgrees).ServicesInvalid? <==>
            differing <= {Agents} && !validServices
  {
    forall field | field in differing && field != Agents
      ensures field in {EnvVars, Image, Resources, Args, InitArgs, InitImage}
    {
      match field
      case EnvVars =>
      case Image =>
      case Resources =>
      case Args =>
      case InitArgs =>
      case InitImage =>
    }
  }

  lemma LateVerdictAtServices(m: World)
    requires m.pod.Some?
    ensures LateVerdict(m).ServicesInvalid? <==>
            EarlyFieldsAgree(m.dev, m.lib, m.pod.value) && ServiceMap(m.dev.spec.services).Err?
  {
    FieldVerdictAtServices(DifferingFields(m), Parseable(m.lib, m.dev.spec.resources),
                           ServiceMap(m.dev.spec.services).Ok?, ServiceAgrees(m));
    forall field: PodField ensures field in DifferingFields(m) <==> !FieldAgrees(m.dev, m.lib, m.pod.value, field) {
    }
  }

  lemma StopsHereExactly(m: World, v: Verdict)
    requires Prepared(m) && Diagnosis(m, v, LateVerdict(m))
    ensures v.ServicesInvalid? <==> StopsHere(m)
  {
    LateVerdictAtServices(m);
    LateIsLate(m);
    if v.ServicesInvalid? {
      DiagnosedLedger(m, v, LateVerdict(m));
    } else if StopsHere(m) {
      StoppedInStep(m);
      assert false;
    }
  }

  lemma StoppedInStep(m: World)
    requires m.pod.Some? && m.live == m.snap == Demanded(m) && m.pod.value.labels == LabelsOf(m.dev)
    ensures CertsInStep(m) && Diagnose(m, LateVerdict(m)) == LateVerdict(m)
  {
    assert Entries(m.live.selfSignedCertStatus) == Wanted(m);
  }

  lemma StopCarriesOver(w: World, m1: World, m: World)
    requires SameAround(w, m1) && Core(m1) && FilesComplete(m1) && LedgerWork(m1) == LedgerWork(w)
    requires WorkloadsMade(m1, m, PodOf(m1), ServiceFor(m1.dev))
    ensures StopsHere(m) <==> StopsAtServices(w)
  {
    LedgerDoneIffDemanded(m1);
    SameLedgerWork(m1, m);
    if w.pod.None? {
      BuiltPodAgrees(m1.dev, m1.lib, ConfiguredObjects(m1));
    }
  }

  // Whether a pass stops at conflicting services can be read off the world before it.
  lemma StopsExactly(w: World, d: Draw, v: Verdict)
    requires Inv(w) && Allowed(w, d, v) && CreateMissing(w, d).Ready?
    ensures v.ServicesInvalid? <==> StopsAtServices(w)
  {
    CreationPrepares(w, d);
    StopsHereExactly(CreateMissing(w, d).w, v);
    var m1 := CreationKeepsLedgerWork(w, d);
    StopCarriesOver(w, m1, CreateMissing(w, d).w);
  }

  // A pass that leaves unsaved has got past its files.
  lemma UnsavedStages(w: World, d: Draw) returns (m0: World, m1: World)
    requires Draws(w.dev, d) && !CreateMissing(w, d).Failed?
    ensures CertsMade(w, m0, Wanted(w)) && m0.dev == w.dev && FilesMade(m0, d, m1)
    ensures var m := CreateMissing(w, d).w; m == m1.(pod := m.pod, service := m.service, snap := m.snap)
  {
    CertsNeverCrash(w, d, 0);
    ObjectsNeverCrash(w, d);
    CreationAfterObjects(w, d);
    m0 := ObjectStages(w, d);
    m1 := EnsureObjects(w, d).w;
    WorkloadsKeepFiles(m1, PodOf(m1), ServiceFor(m1.dev));
  }

  lemma RawUnsaved(w: World, end: Creation, v: Verdict, m1: World)
    requires end.Crashed? || (end.Ready? && v.ServicesInvalid?)
    requires end.w == m1.(pod := end.w.pod, service := end.w.service, snap := end.w.snap)
    ensures Unsaved(w, m1, RawPassFrom(w, end, v))
  {
  }

  lemma UnsavedPass(w: World, d: Draw, v: Verdict)
    requires Inv(w) && Draws(w.dev, d) && !CreateMissing(w, d).Failed?
    requires CreateMissing(w, d).Ready? ==> v.ServicesInvalid?
    ensures Inv(Pass(w, d, v)) <==> UnsavedGuard(w, d)
  {
    CreationKeepsCore(w, d);
    PassIsRaw(w, d, v, CreateMissing(w, d));
    var m0, m1 := UnsavedStages(w, d);
    RawUnsaved(w, CreateMissing(w, d), v, m1);
    UnsavedExitExactly(w, m0, d, m1, Pass(w, d, v));
  }

  lemma SavedPass(w: World, d: Draw, v: Verdict)
    requires Inv(w) && Allowed(w, d, v) && CreateMissing(w, d).Ready? && !v.ServicesInvalid?
    ensures Inv(Pass(w, d, v))
  {
    CreationPrepares(w, d);
    var m := CreateMissing(w, d).w;
    LateIsLate(m);
    RepairKeepsCore(w, m, v);
    RepairKeepsStaleSound(w, m, v, LateVerdict(m));
    PassIsRaw(w, d, v, Ready(m));
  }

  lemma FailedPass(w: World, d: Draw, v: Verdict)
    requires Inv(w) && Allowed(w, d, v) && CreateMissing(w, d).Failed?
    ensures Inv(Pass(w, d, v)) <==> StaleSound(CreateMissing(w, d).w)
  {
    CreationKeepsCore(w, d);
    SavingLosesNothing(w, d, v);
    var m := CreateMissing(w, d).w;
    StateDoesNotMatter(m, FailedState);
  }

  lemma StateDoesNotMatter(m: World, state: DeviceState)
    requires Core(m)
    ensures Inv(m.(state := state)) <==> StaleSound(m)
  {
    SameScriptPart(m, m.(state := state));
    SameScriptPart(m.(state := state), m);
  }

  // Whatever goes wrong, a pass keeps the invariant exactly if it is harmless.
  lemma InvKeptExactly(w: World, d: Draw, v: Verdict)
    requires Inv(w) && Allowed(w, d, v)
    ensures Inv(Pass(w, d, v)) <==> Harmless(w, d)
  {
    EndsExactly(w, d);
    match CreateMissing(w, d)
    case Ready(_) =>
      StopsExactly(w, d, v);
      if v.ServicesInvalid? {
        UnsavedPass(w, d, v);
      } else {
        SavedPass(w, d, v);
      }
    case Crashed(_) => UnsavedPass(w, d, v);
    case Failed(_) =>
      FailedExitExactly(w, d);
      FailedPass(w, d, v);
  }

  lemma HealthyIsHarmless(w: World, d: Draw, v: Verdict)
    requires Inv(w) && Allowed(w, d, v) && Healthy(w, d)
    ensures Harmless(w, d)
  {
    EndsExactly(w, d);
    HealthyCreates(w, d);
  }

  // ----- Whole runs -----

  ghost predicate HarmlessRun(w: World, es: seq<Event>)
    requires Run(w, es)
    decreases es
  {
    es == [] || ((es[0].PassEvent? ==> Harmless(w, es[0].d)) && HarmlessRun(After(w, es[0]), es[1..]))
  }

  lemma HarmlessEventKeepsInv(w: World, e: Event)
    requires Inv(w) && Enabled(w, e)
    requires e.PassEvent? ==> Harmless(w, e.d)
    ensures Inv(After(w, e))
  {
    if e.PassEvent? {
      InvKeptExactly(w, e.d, e.v);
    } else {
      EventKeepsInv(w, e);
    }
  }

  // In every state of a harmless run the ledger is canonical and tells the truth, whether or not the
  // specs on the way are valid.
  lemma {:induction false} RunKeepsInv(w: World, es: seq<Event>)
    requires Inv(w) && Run(w, es) && HarmlessRun(w, es)
    ensures Inv(End(w, es))
    decreases es
  {
    if es == [] {
    } else {
      HarmlessEventKeepsInv(w, es[0]);
      RunKeepsInv(After(w, es[0]), es[1..]);
    }
  }

  lemma {:induction false} HealthyRunIsHarmless(w: World, es: seq<Event>)
    requires Inv(w) && Run(w, es) && HealthyRun(w, es)
    ensures HarmlessRun(w, es)
    decreases es
  {
    if es == [] {
    } else {
      if es[0].PassEvent? {
        HealthyIsHarmless(w, es[0].d, es[0].v);
      }
      EventKeepsInv(w, es[0]);
      HealthyRunIsHarmless(After(w, es[0]), es[1..]);
    }
  }
}

// What the pod was started with. The comparisons never look at volumes or mounts: only the snapshot of
// the ledger taken when the pod was created vouches for them, and it does so exactly under a guard.
module Mounts {
  import opened Basics
  import opened Api
  import opened Names
  import opened Files
  import opened Volumes
  import opened Pods
  import opened Reconcile
  import opened CreationFacts
  import opened Soundness
  import opened Convergence
  import opened Exits

  // ----- The guard -----

  // Nothing on record is dropped from the spec. It matters when a pod is created: the pod gets no mount for
  // what is dropped, but its snapshot still names it.
  ghost predicate BootGuard(w: World) {
    && DroppedCerts(w) == {}
    && (w.dev.spec.intfMapping == map[] ==> w.live.intfMappingStatus.Nil?)
    && (w.dev.spec.toggleOverrides == map[] ==> w.live.toggleOverridesStatus.Nil?)
    && (w.startup.None? ==> w.live.startupConfigResourceVersion.None?)
  }

  ghost predicate MountsAre(pod: Pod, objects: Objects) {
    VolumesOf(objects) == Ok(pod.volumes) && MountsOf(objects) == pod.volumeMounts
  }

  // A pod built from some objects mounts those of the same shapes, and no others.
  lemma MountsAreTold(pod: Pod, a: Objects, b: Objects)
    requires MountsAre(pod, a)
    ensures MountsAre(pod, b) <==> SameShapes(a, b)
  {
    ShapesAreTold(a, b);
  }

  // `boot` has the contents configured at `r`; only the toggle file may have its lines in another order.
  ghost predicate ContentsAre(boot: Objects, r: World) {
    var now, toggles := ConfiguredObjects(r), ToggleOverridesName(r.dev.name);
    && boot.Keys == now.Keys
    && (forall n :: n in now && n != toggles ==> boot[n] == now[n])
    && TogglesFit(Lookup(boot, toggles), r.dev.spec.toggleOverrides)
  }

  ghost predicate TogglesFit(toggles: Option<Object>, overrides: map<string, bool>) {
    overrides != map[] ==> toggles.Some? && IsToggleObject(toggles.value, overrides)
  }

  // ----- What a creation makes of a world without a pod -----

  // `m` is the outcome; both guards can be read off either side.
  ghost predicate Born(b: World, m: World) {
    && m.dev == b.dev && Core(m) && FilesComplete(m) && StaleMid(m)
    && (BootGuard(m) <==> BootGuard(b))
    && (StaleSound(m) <==> ScriptGuard(b))
  }

  lemma GuardCarriesOver(b: World, m0: World, d: Draw, m1: World)
    requires CertsMade(b, m0, Wanted(b)) && m0.dev == b.dev && Draws(m0.dev, d) && FilesMade(m0, d, m1)
    ensures m1.dev == b.dev && m1.startup == b.startup && m1.pod == b.pod && m1.snap == b.snap
    ensures BootGuard(m1) <==> BootGuard(b)
  {
    CertsKeepWork(b, m0);
    SameCertsSameStep(m0, m1);
  }

  lemma GuardIgnoresWorkloads(a: World, b: World)
    requires b == a.(pod := b.pod, service := b.service, snap := b.snap)
    ensures BootGuard(a) <==> BootGuard(b)
  {
    SameCertsSameStep(a, b);
  }

  lemma ObjectsBear(b: World, d: Draw)
    requires Inv(b) && Draws(b.dev, d) && EnsureObjects(b, d).Ready?
    ensures var m1 := EnsureObjects(b, d).w;
            Born(b, m1) && m1.startup == b.startup && m1.pod == b.pod && m1.snap == b.snap
  {
    var m0 := ObjectStages(b, d);
    var m1 := EnsureObjects(b, d).w;
    CertsKeepCore(b, m0, Wanted(b));
    CreationStaleMid(b, m0);
    FilesKeepPrepared(m0, d, m1);
    GuardCarriesOver(b, m0, d, m1);
    FilesMakeScript(b, m0, d, m1);
    ScriptMadeExactly(b, m0, m1);
  }

  lemma FilesMakeScript(b: World, m0: World, d: Draw, m1: World)
    requires CertsMade(b, m0, Wanted(b)) && m0.dev == b.dev && Draws(m0.dev, d) && FilesMade(m0, d, m1)
    ensures ScriptMade(b, m0, m1)
  {
  }

  lemma BornIgnoresWorkloads(b: World, m1: World, m: World)
    requires Born(b, m1) && m == m1.(pod := m.pod, service := m.service, snap := m.snap)
    requires m.snap in {m1.snap, m1.live}
    ensures Born(b, m)
  {
    WorkloadsKeepCoreAnyway(m1, m);
    GuardIgnoresWorkloads(m1, m);
    SameCertsSameStep(m1, m);
    SameScriptPart(m1, m);
    SameScriptPart(m, m1);
  }

  // Pod and service: whatever stops the creation, a new pod is built as given and comes with the ledger of
  // the moment.
  lemma WorkloadsMount(m1: World, service: Result<Service>)
    ensures var m := EnsureWorkloads(m1, PodOf(m1), service).w;
            && m == m1.(pod := m.pod, service := m.service, snap := m.snap)
            && (if m1.pod.Some? || m.pod.None? then m.pod == m1.pod && m.snap == m1.snap
                else PodOf(m1) == Built(m.pod.value) && m.snap == m1.live)
  {
    PodStage(m1, PodOf(m1));
    ServiceStage(AddPod(m1, PodOf(m1)).w, service);
  }

  lemma PodStage(m1: World, pod: Built<Pod>)
    ensures var m := AddPod(m1, pod).w;
            && m == m1.(pod := m.pod, snap := m.snap)
            && (if m1.pod.Some? || m.pod.None? then m.pod == m1.pod && m.snap == m1.snap
                else pod == Built(m.pod.value) && m.snap == m1.live)
  {
  }

  lemma ServiceStage(m1: World, service: Result<Service>)
    ensures var m := AddService(m1, service).w; m == m1.(service := m.service)
  {
  }

  lemma SameConfigured(m1: World, m: World)
    requires m == m1.(pod := m.pod, service := m.service, snap := m.snap)
    ensures ConfiguredObjects(m) == ConfiguredObjects(m1)
  {
  }

  lemma PodMounts(m: World, pod: Pod)
    requires PodOf(m) == Built(pod)
    ensures MountsAre(pod, ConfiguredObjects(m))
  {
  }

  // A pod created by a pass, even by one that fails later on.
  lemma CreationMounts(b: World, d: Draw)
    requires Inv(b) && Draws(b.dev, d) && EnsureObjects(b, d).Ready?
    ensures var m := CreateMissing(b, d).w;
            && Born(b, m) && m.startup == b.startup
            && (if b.pod.Some? || m.pod.None? then m.pod == b.pod && m.snap == b.snap
                else MountsAre(m.pod.value, ConfiguredObjects(m)) && m.snap == m.live)
  {
    var m1 := EnsureObjects(b, d).w;
    var m := CreateMissing(b, d).w;
    ObjectsBear(b, d);
    CreationAfterObjects(b, d);
    WorkloadsMount(m1, ServiceFor(m1.dev));
    BornIgnoresWorkloads(b, m1, m);
    SameConfigured(m1, m);
    if b.pod.None? && m.pod.Some? {
      PodMounts(m1, m.pod.value);
    }
  }

  lemma ReadyHasPod(b: World, d: Draw)
    requires Draws(b.dev, d) && CreateMissing(b, d).Ready?
    ensures EnsureObjects(b, d).Ready? && CreateMissing(b, d).w.pod.Some?
  {
  }

  // ----- A later synced world with the same ledger -----

  // The snapshot at `r` is the ledger of `m`, and a startup version names one startup config.
  predicate Follows(m: World, r: World) {
    && r.dev.name == m.dev.name && r.snap == m.live
    && (m.startup.Some? && r.startup.Some?
        && m.startup.value.resourceVersion == r.startup.value.resourceVersion ==>
          m.startup.value.configMap == r.startup.value.configMap)
  }

  // What a synced world says about its ledger and its objects, part by part.
  lemma SyncedLedger(m: World, r: World)
    requires Synced(r) && Follows(m, r)
    ensures m.live.selfSignedCertStatus == NilIfEmpty(Wanted(r)) && Entries(m.live.selfSignedCertStatus) == Wanted(r)
    ensures m.live.intfMappingStatus == NilIfEmpty(r.dev.spec.intfMapping)
    ensures m.live.toggleOverridesStatus == NilIfEmpty(r.dev.spec.toggleOverrides)
    ensures m.live.startupConfigResourceVersion == StartupVersion(r) && !m.live.rcEosStale
  {
  }

  lemma SyncedObjects(r: World)
    requires Synced(r)
    ensures ConfiguredSecrets(r) == WantedSecrets(Wanted(r))
    ensures r.dev.spec.selfSignedCerts != [] ==> r.rcEos == Some(RcEosObject(r.dev.spec.selfSignedCerts))
    ensures r.dev.spec.intfMapping != map[] ==> r.intfMap == Some(IntfObject(r.dev.spec.intfMapping))
    ensures TogglesFit(r.toggles, r.dev.spec.toggleOverrides)
  {
  }

  function WantedSecrets(wanted: map<string, CertConfig>): Objects { map n | n in wanted :: CertSecret(wanted[n]) }

  lemma SameSecrets(m: World, r: World)
    requires Core(m) && FilesComplete(m) && DroppedCerts(m) == {} && Synced(r) && Follows(m, r)
    ensures Wanted(m).Keys == Wanted(r).Keys && ConfiguredSecrets(m) == ConfiguredSecrets(r)
  {
    SyncedLedger(m, r);
    SyncedObjects(r);
    RecordedSecrets(m, Wanted(r));
  }

  lemma RecordedSecrets(m: World, recorded: map<string, CertConfig>)
    requires CertSound(m) && Wanted(m).Keys <= m.secrets.Keys && DroppedCerts(m) == {}
    requires recorded == Entries(m.live.selfSignedCertStatus)
    ensures Wanted(m).Keys == recorded.Keys && ConfiguredSecrets(m) == WantedSecrets(recorded)
  {
    NoDroppedMeansWanted(m);
    forall n | n in Wanted(m) ensures n in recorded && m.secrets[n] == CertSecret(recorded[n]) {
      assert RecordedAs(m.live, n, Recorded(m.live, n));
    }
  }

  lemma SameCertsConfigured(m: World, r: World)
    requires Wanted(m).Keys == Wanted(r).Keys
    ensures m.dev.spec.selfSignedCerts == [] <==> r.dev.spec.selfSignedCerts == []
  {
    CertMapEmpty(m.dev.name, m.dev.spec.selfSignedCerts);
    CertMapEmpty(r.dev.name, r.dev.spec.selfSignedCerts);
    assert Wanted(m) == map[] <==> Wanted(m).Keys == {};
    assert Wanted(r) == map[] <==> Wanted(r).Keys == {};
  }

  function IntfPart(w: World): Objects {
    When(w.dev.spec.intfMapping != map[], IntfMappingName(w.dev.name), w.intfMap)
  }

  function TogglePart(w: World): Objects {
    When(w.dev.spec.toggleOverrides != map[], ToggleOverridesName(w.dev.name), w.toggles)
  }

  function ScriptPart(w: World): Objects {
    When(w.dev.spec.selfSignedCerts != [], RcEosName(w.dev.name), w.rcEos)
  }

  function StartupPart(w: World): Objects { When(true, StartupConfigName(w.dev.name), StartupObject(w)) }

  lemma ConfiguredParts(w: World)
    ensures ConfiguredObjects(w) == ConfiguredSecrets(w) + ScriptPart(w) + IntfPart(w) + TogglePart(w) + StartupPart(w)
  {
  }

  lemma SameIntf(m: World, r: World)
    requires Core(m) && FilesComplete(m) && Synced(r) && Follows(m, r)
    requires m.dev.spec.intfMapping == map[] ==> m.live.intfMappingStatus.Nil?
    ensures IntfPart(m) == IntfPart(r)
  {
    SyncedLedger(m, r);
    SyncedObjects(r);
  }

  lemma SameToggles(m: World, r: World)
    requires Core(m) && FilesComplete(m) && Synced(r) && Follows(m, r)
    requires m.dev.spec.toggleOverrides == map[] ==> m.live.toggleOverridesStatus.Nil?
    ensures m.dev.spec.toggleOverrides == map[] <==> r.dev.spec.toggleOverrides == map[]
    ensures TogglesFit(m.toggles, r.dev.spec.toggleOverrides) && TogglesFit(r.toggles, r.dev.spec.toggleOverrides)
  {
    SyncedLedger(m, r);
    SyncedObjects(r);
  }

  lemma SameStartup(m: World, r: World)
    requires FilesComplete(m) && Synced(r) && Follows(m, r)
    requires m.startup.None? ==> m.live.startupConfigResourceVersion.None?
    ensures StartupPart(m) == StartupPart(r)
  {
    SyncedLedger(m, r);
  }

  // ----- Shapes -----

  lemma ToggleShapes(a: Object, b: Object, overrides: map<string, bool>)
    requires IsToggleObject(a, overrides) && IsToggleObject(b, overrides)
    ensures SameShape(a, b)
  {
  }

  lemma ToggleParts(m: World, r: World)
    requires m.dev.name == r.dev.name
    requires m.dev.spec.toggleOverrides == map[] <==> r.dev.spec.toggleOverrides == map[]
    requires TogglesFit(m.toggles, r.dev.spec.toggleOverrides) && TogglesFit(r.toggles, r.dev.spec.toggleOverrides)
    ensures SameShapes(TogglePart(m), TogglePart(r)) && TogglePart(m).Keys <= {ToggleOverridesName(m.dev.name)}
  {
    if r.dev.spec.toggleOverrides != map[] {
      ToggleShapes(m.toggles.value, r.toggles.value, r.dev.spec.toggleOverrides);
    }
  }

  lemma ScriptParts(m: World, r: World)
    requires m.dev.name == r.dev.name && RcEosBuilt(m) && !FreshScript(m) && Synced(r)
    requires m.dev.spec.selfSignedCerts == [] <==> r.dev.spec.selfSignedCerts == []
    ensures SameShapes(ScriptPart(m), ScriptPart(r))
  {
    SyncedObjects(r);
  }

  lemma SameIsSameShapes(a: Objects)
    ensures SameShapes(a, a)
  {
  }

  lemma MergeShapes(a: Objects, b: Objects, c: Objects, d: Objects)
    requires SameShapes(a, b) && SameShapes(c, d)
    ensures SameShapes(a + c, b + d)
  {
  }

  ghost predicate PartsAlike(m: World, r: World) {
    && SameShapes(ConfiguredSecrets(m), ConfiguredSecrets(r))
    && SameShapes(ScriptPart(m), ScriptPart(r))
    && SameShapes(IntfPart(m), IntfPart(r))
    && SameShapes(TogglePart(m), TogglePart(r))
    && SameShapes(StartupPart(m), StartupPart(r))
  }

  lemma MergeParts(m: World, r: World)
    requires PartsAlike(m, r)
    ensures SameShapes(ConfiguredObjects(m), ConfiguredObjects(r))
  {
    var s, s' := ConfiguredSecrets(m), ConfiguredSecrets(r);
    MergeShapes(s, s', ScriptPart(m), ScriptPart(r));
    MergeShapes(s + ScriptPart(m), s' + ScriptPart(r), IntfPart(m), IntfPart(r));
    MergeShapes(s + ScriptPart(m) + IntfPart(m), s' + ScriptPart(r) + IntfPart(r), TogglePart(m), TogglePart(r));
    MergeShapes(s + ScriptPart(m) + IntfPart(m) + TogglePart(m), s' + ScriptPart(r) + IntfPart(r) + TogglePart(r),
                StartupPart(m), StartupPart(r));
    ConfiguredParts(m);
    ConfiguredParts(r);
  }

  lemma GuardedShapes(m: World, r: World)
    requires Core(m) && FilesComplete(m) && BootGuard(m) && Synced(r) && Follows(m, r)
    ensures SameShapes(ConfiguredObjects(m), ConfiguredObjects(r))
  {
    SameSecrets(m, r);
    SameCertsConfigured(m, r);
    SameIntf(m, r);
    SameToggles(m, r);
    SameStartup(m, r);
    ToggleParts(m, r);
    ScriptParts(m, r);
    SameIsSameShapes(ConfiguredSecrets(m));
    SameIsSameShapes(IntfPart(m));
    SameIsSameShapes(StartupPart(m));
    MergeParts(m, r);
  }

  // ----- Keys -----

  lemma SecretKeys(w: World, n: string)
    requires n in Wanted(w)
    ensures !ConfigMapName(w.dev.name, n)
  {
    CertMapFromAt(w.dev.name, w.dev.spec.selfSignedCerts, 0, n);
    var j :| 0 <= j < |w.dev.spec.selfSignedCerts| && n == SecretName(w.dev.name, j);
    KeysDistinct(w.dev.name, j);
  }

  lemma NoFileIsSecret(w: World)
    ensures forall n :: ConfigMapName(w.dev.name, n) ==> n !in ConfiguredSecrets(w)
  {
    forall n | n in Wanted(w) ensures !ConfigMapName(w.dev.name, n) {
      SecretKeys(w, n);
    }
  }

  // Which file is configured under its name.
  lemma FileKeys(w: World)
    ensures var name, spec, objects := w.dev.name, w.dev.spec, ConfiguredObjects(w);
            && (IntfMappingName(name) in objects <==> spec.intfMapping != map[] && w.intfMap.Some?)
            && (ToggleOverridesName(name) in objects <==> spec.toggleOverrides != map[] && w.toggles.Some?)
            && (StartupConfigName(name) in objects <==> w.startup.Some?)
  {
    KeysDistinct(w.dev.name, 0);
    NoFileIsSecret(w);
    InSomePart(w, IntfMappingName(w.dev.name));
    InSomePart(w, ToggleOverridesName(w.dev.name));
    InSomePart(w, StartupConfigName(w.dev.name));
  }

  lemma InSomePart(w: World, n: string)
    ensures n in ConfiguredObjects(w) <==>
            || n in ConfiguredSecrets(w)
            || n in ScriptPart(w) || n in IntfPart(w) || n in TogglePart(w) || n in StartupPart(w)
  {
    ConfiguredParts(w);
  }

  lemma NotOverlaid(below: Objects, part: Objects, above: Objects, n: string)
    requires n in part && n !in above
    ensures Lookup(below + part + above, n) == Some(part[n])
  {
  }

  lemma ScriptObject(w: World)
    requires w.dev.spec.selfSignedCerts != [] && w.rcEos.Some?
    ensures Lookup(ConfiguredObjects(w), RcEosName(w.dev.name)) == w.rcEos
  {
    var n := RcEosName(w.dev.name);
    KeysDistinct(w.dev.name, 0);
    ConfiguredParts(w);
    NotOverlaid(ConfiguredSecrets(w), ScriptPart(w), IntfPart(w) + TogglePart(w) + StartupPart(w), n);
    RegroupParts(ConfiguredSecrets(w) + ScriptPart(w), IntfPart(w), TogglePart(w), StartupPart(w));
  }

  lemma RegroupParts(a: Objects, b: Objects, c: Objects, d: Objects)
    ensures a + b + c + d == a + (b + c + d)
  {
  }

  lemma ToggleObjectConfigured(w: World)
    requires w.dev.spec.toggleOverrides != map[] && w.toggles.Some?
    ensures Lookup(ConfiguredObjects(w), ToggleOverridesName(w.dev.name)) == w.toggles
  {
    KeysDistinct(w.dev.name, 0);
    ConfiguredParts(w);
    NotOverlaid(ConfiguredSecrets(w) + ScriptPart(w) + IntfPart(w), TogglePart(w), StartupPart(w),
                ToggleOverridesName(w.dev.name));
  }

  lemma OnlySecretKeys(w: World, n: string)
    requires n in ConfiguredObjects(w) && !ConfigMapName(w.dev.name, n)
    ensures n in Wanted(w)
  {
  }

  lemma SameKeysNoCertDropped(m: World, r: World)
    requires Synced(r) && Follows(m, r) && ConfiguredObjects(m).Keys == ConfiguredObjects(r).Keys
    ensures DroppedCerts(m) == {}
  {
    SyncedLedger(m, r);
    SyncedObjects(r);
    forall n ensures n !in DroppedCerts(m) {
      if n in DroppedCerts(m) {
        SecretKeys(r, n);
        assert n in ConfiguredSecrets(r);
        assert n in ConfiguredObjects(r);
        OnlySecretKeys(m, n);
        assert false;
      }
    }
  }

  lemma SameKeysGuarded(m: World, r: World)
    requires Synced(r) && Follows(m, r) && ConfiguredObjects(m).Keys == ConfiguredObjects(r).Keys
    ensures BootGuard(m)
  {
    SameKeysNoCertDropped(m, r);
    SyncedLedger(m, r);
    SyncedObjects(r);
    FileKeys(m);
    FileKeys(r);
    assert forall n :: n in ConfiguredObjects(m) <==> n in ConfiguredObjects(r);
  }

  // ----- Exactly when the mounts are right -----

  lemma BornMountsExactly(b: World, m: World, r: World, pod: Pod)
    requires Born(b, m) && Synced(r) && Follows(m, r) && MountsAre(pod, ConfiguredObjects(m))
    ensures MountsAre(pod, ConfiguredObjects(r)) <==> BootGuard(b)
  {
    MountsAreTold(pod, ConfiguredObjects(m), ConfiguredObjects(r));
    if BootGuard(b) {
      GuardedShapes(m, r);
    }
    if SameShapes(ConfiguredObjects(m), ConfiguredObjects(r)) {
      SameKeysGuarded(m, r);
    }
  }

  // A pod is created at `b`, and at `r` the device is synced with that pod's snapshot, volumes and mounts.
  // They are the configured ones exactly if nothing on record was dropped from the spec at `b`.
  lemma MountsRightExactly(b: World, d: Draw, m: World, r: World)
    requires Inv(b) && b.pod.None? && Draws(b.dev, d) && CreateMissing(b, d) == Ready(m)
    requires Synced(r) && Follows(m, r) && m.pod.Some?
    requires r.pod.value.volumes == m.pod.value.volumes && r.pod.value.volumeMounts == m.pod.value.volumeMounts
    ensures MountsAre(r.pod.value, ConfiguredObjects(r)) <==> BootGuard(b)
  {
    ReadyHasPod(b, d);
    CreationMounts(b, d);
    BornMountsExactly(b, m, r, r.pod.value);
  }

  // ----- Exactly when the contents are right -----

  lemma SoundScriptIsRight(m: World, r: World)
    requires StaleSound(m) && m.rcEos.Some? && Synced(r) && Follows(m, r)
    ensures m.rcEos == Some(RcEosObject(r.dev.spec.selfSignedCerts))
  {
    SyncedLedger(m, r);
    var certs :| ScriptOf(m, certs);
    CertMapInjective(r.dev.name, certs, r.dev.spec.selfSignedCerts);
  }

  lemma RightScriptIsSound(m: World, r: World)
    requires Synced(r) && Follows(m, r) && r.dev.spec.selfSignedCerts != []
    requires m.rcEos == Some(RcEosObject(r.dev.spec.selfSignedCerts))
    ensures StaleSound(m)
  {
    SyncedLedger(m, r);
    assert ScriptOf(m, r.dev.spec.selfSignedCerts);
  }

  lemma OverlaidElsewhere(below: Objects, a: Objects, b: Objects, above: Objects, name: string)
    requires a.Keys == b.Keys <= {name}
    ensures var x, y := below + a + above, below + b + above;
            x.Keys == y.Keys && forall n :: n in x && n != name ==> x[n] == y[n]
  {
  }

  lemma EqualParts(m: World, r: World)
    requires m.dev.name == r.dev.name && ConfiguredSecrets(m) == ConfiguredSecrets(r)
    requires ScriptPart(m) == ScriptPart(r) && IntfPart(m) == IntfPart(r) && StartupPart(m) == StartupPart(r)
    requires TogglePart(m).Keys == TogglePart(r).Keys <= {ToggleOverridesName(r.dev.name)}
    requires TogglesFit(Lookup(ConfiguredObjects(m), ToggleOverridesName(r.dev.name)), r.dev.spec.toggleOverrides)
    ensures ContentsAre(ConfiguredObjects(m), r)
  {
    ConfiguredParts(m);
    ConfiguredParts(r);
    OverlaidElsewhere(ConfiguredSecrets(m) + ScriptPart(m) + IntfPart(m), TogglePart(m), TogglePart(r),
                      StartupPart(m), ToggleOverridesName(r.dev.name));
  }

  lemma SoundScriptPart(m: World, r: World)
    requires StaleSound(m) && !FreshScript(m) && Synced(r) && Follows(m, r)
    requires m.dev.spec.selfSignedCerts == [] <==> r.dev.spec.selfSignedCerts == []
    ensures ScriptPart(m) == ScriptPart(r)
  {
    SyncedObjects(r);
    if m.rcEos.Some? {
      SoundScriptIsRight(m, r);
    }
  }

  lemma TogglesConfigured(m: World, r: World)
    requires m.dev.name == r.dev.name && TogglesFit(m.toggles, r.dev.spec.toggleOverrides)
    requires m.dev.spec.toggleOverrides == map[] <==> r.dev.spec.toggleOverrides == map[]
    ensures TogglesFit(Lookup(ConfiguredObjects(m), ToggleOverridesName(r.dev.name)), r.dev.spec.toggleOverrides)
  {
    if r.dev.spec.toggleOverrides != map[] {
      ToggleObjectConfigured(m);
    }
  }

  lemma GuardedContents(m: World, r: World)
    requires Core(m) && FilesComplete(m) && BootGuard(m) && StaleSound(m) && Synced(r) && Follows(m, r)
    ensures ContentsAre(ConfiguredObjects(m), r)
  {
    SameSecrets(m, r);
    SameCertsConfigured(m, r);
    SameIntf(m, r);
    SameToggles(m, r);
    SameStartup(m, r);
    ToggleParts(m, r);
    SoundScriptPart(m, r);
    TogglesConfigured(m, r);
    EqualParts(m, r);
  }

  lemma RightContentsAreSound(b: World, m: World, r: World)
    requires Born(b, m) && BootGuard(m) && Synced(r) && Follows(m, r) && ContentsAre(ConfiguredObjects(m), r)
    requires b.dev.spec.selfSignedCerts != []
    ensures StaleSound(m)
  {
    SameSecrets(m, r);
    SameCertsConfigured(m, r);
    SyncedObjects(r);
    ScriptObject(m);
    ScriptObject(r);
    KeysDistinct(r.dev.name, 0);
    RightScriptIsSound(m, r);
  }

  // The contents are right exactly if, besides, a script written along with the pod was the right one.
  lemma BornContentsExactly(b: World, m: World, r: World)
    requires Born(b, m) && Synced(r) && Follows(m, r)
    ensures ContentsAre(ConfiguredObjects(m), r) <==> BootGuard(b) && ScriptGuard(b)
  {
    if BootGuard(b) && ScriptGuard(b) {
      GuardedContents(m, r);
    }
    if ContentsAre(ConfiguredObjects(m), r) {
      SameKeysGuarded(m, r);
      if b.dev.spec.selfSignedCerts != [] {
        RightContentsAreSound(b, m, r);
      }
    }
  }

  // ----- A pod whose snapshot was not saved -----

  // Such a pod was built while the ledger was in step with the spec, so its mounts are those of that spec.
  // They are the mounts of another spec exactly if the two specs ask for alike files.
  predicate CertsAlike(a: seq<CertConfig>, b: seq<CertConfig>) {
    && |a| == |b|
    && forall i :: 0 <= i < |a| ==> {a[i].certName, a[i].keyName} == {b[i].certName, b[i].keyName}
  }

  ghost predicate StartupsAlike(m: World, r: World) {
    && (m.startup.Some? <==> r.startup.Some?)
    && (m.startup.Some? ==> SameShape(m.startup.value.configMap, r.startup.value.configMap))
  }

  ghost predicate SpecsAlike(m: World, r: World) {
    && CertsAlike(m.dev.spec.selfSignedCerts, r.dev.spec.selfSignedCerts)
    && (m.dev.spec.intfMapping == map[] <==> r.dev.spec.intfMapping == map[])
    && (m.dev.spec.toggleOverrides == map[] <==> r.dev.spec.toggleOverrides == map[])
    && StartupsAlike(m, r)
  }

  // The files are those of the spec, the script perhaps of other certificates.
  ghost predicate InStep(m: World) {
    && ConfiguredSecrets(m) == WantedSecrets(Wanted(m))
    && (m.dev.spec.selfSignedCerts != [] ==> m.rcEos.Some? && RcEosBuilt(m))
    && (m.dev.spec.intfMapping != map[] ==> m.intfMap == Some(IntfObject(m.dev.spec.intfMapping)))
    && TogglesFit(m.toggles, m.dev.spec.toggleOverrides)
  }

  lemma DemandedSecrets(m: World)
    requires CertSound(m) && Wanted(m).Keys <= m.secrets.Keys && m.live == Demanded(m)
    ensures ConfiguredSecrets(m) == WantedSecrets(Wanted(m))
  {
    assert Entries(m.live.selfSignedCertStatus) == Wanted(m);
    forall n | n in Wanted(m) ensures m.secrets[n] == CertSecret(Wanted(m)[n]) {
      assert RecordedAs(m.live, n, Recorded(m.live, n));
    }
  }

  lemma DemandedInStep(m: World)
    requires Core(m) && FilesComplete(m) && m.live == Demanded(m)
    ensures InStep(m)
  {
    DemandedSecrets(m);
  }

  lemma SyncedInStep(r: World)
    requires Synced(r)
    ensures InStep(r)
  {
    SyncedObjects(r);
  }

  lemma CertShapes(a: CertConfig, b: CertConfig)
    ensures SameShape(CertSecret(a), CertSecret(b)) <==> {a.certName, a.keyName} == {b.certName, b.keyName}
  {
    if SameShape(CertSecret(a), CertSecret(b)) {
      assert Copies(CertSecret(a), a.certName) == Copies(CertSecret(b), a.certName);
      assert Copies(CertSecret(a), a.keyName) == Copies(CertSecret(b), a.keyName);
      assert Copies(CertSecret(a), b.certName) == Copies(CertSecret(b), b.certName);
      assert Copies(CertSecret(a), b.keyName) == Copies(CertSecret(b), b.keyName);
    }
  }

  lemma AlikeSecrets(device: string, a: seq<CertConfig>, b: seq<CertConfig>)
    requires CertsAlike(a, b)
    ensures SameShapes(WantedSecrets(CertMap(device, a)), WantedSecrets(CertMap(device, b)))
  {
    forall n ensures n in CertMap(device, a) <==> n in CertMap(device, b)
      ensures n in CertMap(device, a) ==>
                SameShape(CertSecret(CertMap(device, a)[n]), CertSecret(CertMap(device, b)[n]))
    {
      CertMapFromAt(device, a, 0, n);
      CertMapFromAt(device, b, 0, n);
      if n in CertMap(device, a) {
        var j :| 0 <= j < |a| && n == SecretName(device, j);
        CertShapes(a[j], b[j]);
      }
    }
  }

  lemma NoMoreCerts(device: string, a: seq<CertConfig>, b: seq<CertConfig>)
    requires CertMap(device, a).Keys == CertMap(device, b).Keys
    ensures |b| <= |a|
  {
    if |a| < |b| {
      var n := SecretName(device, |a|);
      CertMapFromAt(device, b, 0, n);
      CertMapFromAt(device, a, 0, n);
      var j :| 0 <= j < |a| && n == SecretName(device, j);
      SecretNameInjective(device, |a|, device, j);
    }
  }

  lemma SecretsAlike(device: string, a: seq<CertConfig>, b: seq<CertConfig>)
    requires SameShapes(WantedSecrets(CertMap(device, a)), WantedSecrets(CertMap(device, b)))
    ensures CertsAlike(a, b)
  {
    assert WantedSecrets(CertMap(device, a)).Keys == CertMap(device, a).Keys;
    assert WantedSecrets(CertMap(device, b)).Keys == CertMap(device, b).Keys;
    NoMoreCerts(device, a, b);
    NoMoreCerts(device, b, a);
    forall i | 0 <= i < |a| ensures {a[i].certName, a[i].keyName} == {b[i].certName, b[i].keyName} {
      CertMapFromAt(device, a, 0, SecretName(device, i));
      CertMapFromAt(device, b, 0, SecretName(device, i));
      CertShapes(a[i], b[i]);
    }
  }

  lemma AnyToggleShapes(a: Object, b: Object, x: map<string, bool>, y: map<string, bool>)
    requires IsToggleObject(a, x) && IsToggleObject(b, y)
    ensures SameShape(a, b)
  {
  }

  lemma AlikeScripts(m: World, r: World)
    requires InStep(m) && InStep(r) && m.dev.name == r.dev.name
    requires m.dev.spec.selfSignedCerts == [] <==> r.dev.spec.selfSignedCerts == []
    ensures SameShapes(ScriptPart(m), ScriptPart(r))
  {
  }

  lemma AlikeIntfs(m: World, r: World)
    requires InStep(m) && InStep(r) && m.dev.name == r.dev.name
    requires m.dev.spec.intfMapping == map[] <==> r.dev.spec.intfMapping == map[]
    ensures SameShapes(IntfPart(m), IntfPart(r))
  {
  }

  lemma AlikeToggles(m: World, r: World)
    requires InStep(m) && InStep(r) && m.dev.name == r.dev.name
    requires m.dev.spec.toggleOverrides == map[] <==> r.dev.spec.toggleOverrides == map[]
    ensures SameShapes(TogglePart(m), TogglePart(r))
  {
    if m.dev.spec.toggleOverrides != map[] {
      AnyToggleShapes(m.toggles.value, r.toggles.value, m.dev.spec.toggleOverrides, r.dev.spec.toggleOverrides);
    }
  }

  lemma AlikeStartups(m: World, r: World)
    requires m.dev.name == r.dev.name && StartupsAlike(m, r)
    ensures SameShapes(StartupPart(m), StartupPart(r))
  {
  }

  lemma AlikeCerts(m: World, r: World)
    requires InStep(m) && InStep(r) && m.dev.name == r.dev.name
    requires CertsAlike(m.dev.spec.selfSignedCerts, r.dev.spec.selfSignedCerts)
    ensures SameShapes(ConfiguredSecrets(m), ConfiguredSecrets(r))
  {
    AlikeSecrets(m.dev.name, m.dev.spec.selfSignedCerts, r.dev.spec.selfSignedCerts);
  }

  lemma AlikeParts(m: World, r: World)
    requires InStep(m) && InStep(r) && m.dev.name == r.dev.name && SpecsAlike(m, r)
    ensures PartsAlike(m, r)
  {
    AlikeCerts(m, r);
    AlikeScripts(m, r);
    AlikeIntfs(m, r);
    AlikeToggles(m, r);
    AlikeStartups(m, r);
  }

  lemma SecretConfigured(w: World, n: string)
    requires n in ConfiguredSecrets(w)
    ensures Lookup(ConfiguredObjects(w), n) == Some(ConfiguredSecrets(w)[n])
  {
    SecretKeys(w, n);
    ConfiguredParts(w);
  }

  lemma StartupConfigured(w: World)
    requires w.startup.Some?
    ensures Lookup(ConfiguredObjects(w), StartupConfigName(w.dev.name)) == Some(w.startup.value.configMap)
  {
    ConfiguredParts(w);
  }

  lemma IntfConfigured(w: World)
    requires w.dev.spec.intfMapping != map[] && w.intfMap.Some?
    ensures Lookup(ConfiguredObjects(w), IntfMappingName(w.dev.name)) == w.intfMap
  {
    KeysDistinct(w.dev.name, 0);
    ConfiguredParts(w);
    NotOverlaid(ConfiguredSecrets(w) + ScriptPart(w), IntfPart(w), TogglePart(w) + StartupPart(w),
                IntfMappingName(w.dev.name));
    RegroupLast(ConfiguredSecrets(w) + ScriptPart(w) + IntfPart(w), TogglePart(w), StartupPart(w));
  }

  lemma RegroupLast(a: Objects, b: Objects, c: Objects)
    ensures a + b + c == a + (b + c)
  {
  }

  lemma ConfiguredAreFiles(w: World, n: string)
    requires n in ConfiguredObjects(w) && !ConfigMapName(w.dev.name, n) && InStep(w)
    ensures n in ConfiguredSecrets(w)
  {
    InSomePart(w, n);
  }

  lemma AlikeObjectsSecrets(m: World, r: World)
    requires m.dev.name == r.dev.name && SameShapes(ConfiguredObjects(m), ConfiguredObjects(r))
    requires InStep(m) && InStep(r)
    ensures SameShapes(ConfiguredSecrets(m), ConfiguredSecrets(r))
  {
    forall n ensures n in ConfiguredSecrets(m) <==> n in ConfiguredSecrets(r)
      ensures n in ConfiguredSecrets(m) ==> SameShape(ConfiguredSecrets(m)[n], ConfiguredSecrets(r)[n])
    {
      if n in ConfiguredSecrets(m) {
        SecretKeys(m, n);
        SecretConfigured(m, n);
        ConfiguredAreFiles(r, n);
      }
      if n in ConfiguredSecrets(r) {
        SecretKeys(r, n);
        SecretConfigured(r, n);
        ConfiguredAreFiles(m, n);
      }
    }
  }

  lemma AlikeObjectsSpecs(m: World, r: World)
    requires m.dev.name == r.dev.name && SameShapes(ConfiguredObjects(m), ConfiguredObjects(r))
    requires InStep(m) && InStep(r)
    ensures SpecsAlike(m, r)
  {
    AlikeObjectsSecrets(m, r);
    SecretsAlike(m.dev.name, m.dev.spec.selfSignedCerts, r.dev.spec.selfSignedCerts);
    FileKeys(m);
    FileKeys(r);
    assert forall n :: n in ConfiguredObjects(m) <==> n in ConfiguredObjects(r);
    if m.startup.Some? {
      StartupConfigured(m);
      StartupConfigured(r);
    }
  }

  lemma UnsavedMountsExactly(m: World, r: World, pod: Pod)
    requires Core(m) && FilesComplete(m) && m.live == Demanded(m) && MountsAre(pod, ConfiguredObjects(m))
    requires Synced(r) && r.dev.name == m.dev.name
    ensures MountsAre(pod, ConfiguredObjects(r)) <==> SpecsAlike(m, r)
  {
    DemandedInStep(m);
    SyncedInStep(r);
    MountsAreTold(pod, ConfiguredObjects(m), ConfiguredObjects(r));
    if SpecsAlike(m, r) {
      AlikeParts(m, r);
      MergeParts(m, r);
    }
    if SameShapes(ConfiguredObjects(m), ConfiguredObjects(r)) {
      AlikeObjectsSpecs(m, r);
    }
  }

  // ----- Its contents -----

  predicate SameFiles(a: Spec, b: Spec) {
    && a.selfSignedCerts == b.selfSignedCerts
    && a.intfMapping == b.intfMapping
    && a.toggleOverrides == b.toggleOverrides
  }

  // `r` asks for the files `m` has.
  ghost predicate FilesAsked(m: World, r: World) {
    var was, now := m.dev.spec, r.dev.spec;
    && was.selfSignedCerts == now.selfSignedCerts && was.intfMapping == now.intfMapping
    && (was.toggleOverrides == map[] <==> now.toggleOverrides == map[]) && TogglesFit(m.toggles, now.toggleOverrides)
    && StartupObject(m) == StartupObject(r)
  }

  lemma DemandedScript(m: World)
    requires Core(m) && FilesComplete(m) && StaleMid(m) && m.live == Demanded(m)
    ensures m.dev.spec.selfSignedCerts != [] ==> m.rcEos == Some(RcEosObject(m.dev.spec.selfSignedCerts))
  {
    assert Entries(m.live.selfSignedCertStatus) == Wanted(m);
    assert CertsInStep(m);
  }

  lemma AskedParts(m: World, r: World)
    requires InStep(m) && InStep(r) && r.dev.name == m.dev.name && FilesAsked(m, r)
    requires m.dev.spec.selfSignedCerts != [] ==> m.rcEos == r.rcEos
    ensures ConfiguredSecrets(m) == ConfiguredSecrets(r) && ScriptPart(m) == ScriptPart(r)
    ensures IntfPart(m) == IntfPart(r) && StartupPart(m) == StartupPart(r)
    ensures TogglePart(m).Keys == TogglePart(r).Keys <= {ToggleOverridesName(r.dev.name)}
  {
  }

  lemma AskedContents(m: World, r: World)
    requires Core(m) && FilesComplete(m) && StaleMid(m) && m.live == Demanded(m)
    requires Synced(r) && r.dev.name == m.dev.name && FilesAsked(m, r)
    ensures ContentsAre(ConfiguredObjects(m), r)
  {
    DemandedInStep(m);
    DemandedScript(m);
    SyncedInStep(r);
    SyncedObjects(r);
    AskedParts(m, r);
    TogglesConfigured(m, r);
    EqualParts(m, r);
  }

  lemma ContentsTellCerts(m: World, r: World)
    requires InStep(m) && InStep(r) && r.dev.name == m.dev.name && ContentsAre(ConfiguredObjects(m), r)
    ensures m.dev.spec.selfSignedCerts == r.dev.spec.selfSignedCerts
  {
    forall n ensures n in Wanted(m) <==> n in Wanted(r)
      ensures n in Wanted(m) ==> Wanted(m)[n] == Wanted(r)[n]
    {
      if n in Wanted(m) {
        SecretKeys(m, n);
        SecretConfigured(m, n);
        ConfiguredAreFiles(r, n);
        SecretConfigured(r, n);
        CertSecretTellsConfig(Wanted(m)[n], Wanted(r)[n]);
      }
      if n in Wanted(r) {
        SecretKeys(r, n);
        SecretConfigured(r, n);
        ConfiguredAreFiles(m, n);
      }
    }
    assert Wanted(m) == Wanted(r);
    CertMapInjective(m.dev.name, m.dev.spec.selfSignedCerts, r.dev.spec.selfSignedCerts);
  }

  lemma ContentsTellIntf(m: World, r: World)
    requires InStep(m) && InStep(r) && r.dev.name == m.dev.name && ContentsAre(ConfiguredObjects(m), r)
    requires ValidInterfaces(m.dev.spec.intfMapping) && ValidInterfaces(r.dev.spec.intfMapping)
    ensures m.dev.spec.intfMapping == r.dev.spec.intfMapping
  {
    FileKeys(m);
    FileKeys(r);
    KeysDistinct(m.dev.name, 0);
    assert IntfMappingName(m.dev.name) in ConfiguredObjects(m) <==> IntfMappingName(m.dev.name) in ConfiguredObjects(r);
    if m.dev.spec.intfMapping != map[] {
      IntfConfigured(m);
      IntfConfigured(r);
      IntfMappingTold(m.dev.spec.intfMapping, r.dev.spec.intfMapping);
    }
  }

  lemma IntfMappingTold(a: map<string, string>, b: map<string, string>)
    requires ValidInterfaces(a) && ValidInterfaces(b) && IntfObject(a) == IntfObject(b)
    ensures a == b
  {
    assert IntfObject(a).binaryData["EosIntfMapping.json"] == IntfObject(b).binaryData["EosIntfMapping.json"];
    IntfMappingPartition(a);
    IntfMappingPartition(b);
  }

  lemma ContentsTellToggles(m: World, r: World)
    requires InStep(m) && InStep(r) && r.dev.name == m.dev.name && ContentsAre(ConfiguredObjects(m), r)
    ensures m.dev.spec.toggleOverrides == map[] <==> r.dev.spec.toggleOverrides == map[]
    ensures TogglesFit(m.toggles, r.dev.spec.toggleOverrides)
  {
    FileKeys(m);
    FileKeys(r);
    var n := ToggleOverridesName(m.dev.name);
    assert n in ConfiguredObjects(m) <==> n in ConfiguredObjects(r);
    if m.dev.spec.toggleOverrides != map[] {
      ToggleObjectConfigured(m);
    }
  }

  lemma ContentsTellStartup(m: World, r: World)
    requires r.dev.name == m.dev.name && ContentsAre(ConfiguredObjects(m), r)
    ensures StartupObject(m) == StartupObject(r)
  {
    FileKeys(m);
    FileKeys(r);
    KeysDistinct(m.dev.name, 0);
    var n := StartupConfigName(m.dev.name);
    assert n in ConfiguredObjects(m) <==> n in ConfiguredObjects(r);
    if m.startup.Some? {
      StartupConfigured(m);
      StartupConfigured(r);
    }
  }

  // Its contents are right exactly if the files asked for now are those it was built with.
  lemma UnsavedContentsExactly(m: World, r: World)
    requires Core(m) && FilesComplete(m) && StaleMid(m) && m.live == Demanded(m)
    requires Synced(r) && Core(r) && r.dev.name == m.dev.name
    ensures ContentsAre(ConfiguredObjects(m), r) <==> FilesAsked(m, r)
  {
    if FilesAsked(m, r) {
      AskedContents(m, r);
    }
    if ContentsAre(ConfiguredObjects(m), r) {
      DemandedInStep(m);
      SyncedInStep(r);
      ContentsTellCerts(m, r);
      DemandedIsValid(m);
      SyncedIsValid(r);
      ContentsTellIntf(m, r);
      ContentsTellToggles(m, r);
      ContentsTellStartup(m, r);
    }
  }

  lemma DemandedIsValid(m: World)
    requires IntfSound(m) && FilesComplete(m) && m.live == Demanded(m)
    ensures ValidInterfaces(m.dev.spec.intfMapping)
  {
  }

  lemma SyncedIsValid(r: World)
    requires Synced(r) && IntfSound(r)
    ensures ValidInterfaces(r.dev.spec.intfMapping)
  {
  }
}

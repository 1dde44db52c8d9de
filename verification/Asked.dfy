// The synced cluster in terms of the spec and of literal text, and success as what users see of it.
module Asked {
  import opened Basics
  import opened Text
  import opened Api
  import opened Names
  import opened Files
  import opened Services
  import opened Pods
  import opened Volumes
  import opened Reconcile
  import opened CreationFacts
  import opened Soundness
  import opened Runs
  import opened Exits
  import opened Success
  import opened Reading
  import opened AskedVolumes
  import opened AskedFiles
  import opened AskedServices
  import opened AskedPods

  // ----- The certificates by the name of their secret -----

  predicate CertAskedAt(dev: Device, i: int, n: string, c: CertConfig) {
    && 0 <= i < |dev.spec.selfSignedCerts| && c == dev.spec.selfSignedCerts[i]
    && n == "secret-selfsigned-" + dev.name + "-" + Digits(i)
  }

  ghost predicate CertAsked(dev: Device, n: string, c: CertConfig) {
    exists i :: CertAskedAt(dev, i, n, c)
  }

  ghost predicate CertNamed(dev: Device, n: string) {
    exists c :: CertAsked(dev, n, c)
  }

  lemma WantedExactly(w: World, n: string, c: CertConfig)
    ensures n in Wanted(w) && Wanted(w)[n] == c <==> CertAsked(w.dev, n, c)
    ensures n in Wanted(w) <==> CertNamed(w.dev, n)
  {
    CertMapFromAt(w.dev.name, w.dev.spec.selfSignedCerts, 0, n);
    if n in Wanted(w) {
      var i :| 0 <= i < |w.dev.spec.selfSignedCerts| && n == SecretName(w.dev.name, i);
      assert CertAskedAt(w.dev, i, n, Wanted(w)[n]);
      assert CertAsked(w.dev, n, Wanted(w)[n]);
    }
    if i :| CertAskedAt(w.dev, i, n, c) {
      assert n == SecretName(w.dev.name, i);
    }
    if c' :| CertAsked(w.dev, n, c') {
      var i :| CertAskedAt(w.dev, i, n, c');
      assert n == SecretName(w.dev.name, i);
    }
  }

  // ----- Everything in its place -----

  // One entry per certificate, and no others.
  ghost predicate CertEntries(dev: Device, entries: map<string, CertConfig>) {
    && (forall n :: n in entries <==> CertNamed(dev, n))
    && forall n, c :: CertAsked(dev, n, c) && n in entries ==> entries[n] == c
  }

  ghost predicate SecretsInPlace(dev: Device, secrets: map<string, Object>) {
    && (forall n :: n in secrets <==> CertNamed(dev, n))
    && forall n, c :: CertAsked(dev, n, c) && n in secrets ==> IsCertSecret(secrets[n], c)
  }

  // A map of the ledger: nil if there is nothing to record.
  predicate RecordsAll<K, V(==)>(m: GoMap<K, V>, all: map<K, V>) {
    if all == map[] then m == Nil else m == Of(all)
  }

  ghost predicate LedgerInPlace(w: World) {
    var spec, l := w.dev.spec, w.live;
    && w.snap == l && !l.rcEosStale
    && (l.selfSignedCertStatus.Nil? <==> spec.selfSignedCerts == [])
    && CertEntries(w.dev, Entries(l.selfSignedCertStatus))
    && RecordsAll(l.intfMappingStatus, spec.intfMapping) && RecordsAll(l.toggleOverridesStatus, spec.toggleOverrides)
    && l.startupConfigResourceVersion == if w.startup == None then None else Some(w.startup.value.resourceVersion)
  }

  // A file exists exactly if it is configured, and then with the right contents.
  ghost predicate FilesInPlace(w: World) {
    var spec := w.dev.spec;
    && (w.rcEos.Some? <==> spec.selfSignedCerts != [])
    && (w.rcEos.Some? ==> IsBootScript(w.rcEos.value, spec.selfSignedCerts))
    && (w.intfMap.Some? <==> spec.intfMapping != map[])
    && (w.intfMap.Some? ==> IsMappingFile(w.intfMap.value, spec.intfMapping))
    && (w.toggles.Some? <==> spec.toggleOverrides != map[])
    && (w.toggles.Some? ==> IsToggleFile(w.toggles.value, spec.toggleOverrides))
  }

  ghost predicate PodInPlace(w: World) {
    && w.pod.Some? && LabelsAsked(w.dev, w.pod.value.labels) && RunsAsAsked(w.dev, w.lib, w.pod.value)
  }

  ghost predicate ServiceInPlace(w: World) {
    w.dev.spec.services != map[] ==> w.service.Some? && PortsAsked(w.dev.spec.services, w.service.value.ports)
  }

  ghost predicate InPlace(w: World) {
    && ValidNames(w.dev.spec.intfMapping)
    && LedgerInPlace(w) && SecretsInPlace(w.dev, w.secrets) && FilesInPlace(w) && PodInPlace(w) && ServiceInPlace(w)
  }

  lemma EntriesExactly(w: World, entries: map<string, CertConfig>)
    ensures entries == Wanted(w) <==> CertEntries(w.dev, entries)
  {
    forall n ensures n in Wanted(w) <==> CertNamed(w.dev, n) {
      WantedExactly(w, n, ZERO_CERT);
    }
    forall n, c ensures CertAsked(w.dev, n, c) <==> n in Wanted(w) && Wanted(w)[n] == c {
      WantedExactly(w, n, c);
    }
    if CertEntries(w.dev, entries) {
      forall n
        ensures n in entries <==> n in Wanted(w)
        ensures n in entries && n in Wanted(w) ==> entries[n] == Wanted(w)[n]
      {
        WantedExactly(w, n, if n in Wanted(w) then Wanted(w)[n] else ZERO_CERT);
      }
    }
  }

  lemma SecretsExactly(w: World)
    ensures w.secrets == (map n | n in Wanted(w) :: CertSecret(Wanted(w)[n])) <==> SecretsInPlace(w.dev, w.secrets)
  {
    var all := map n | n in Wanted(w) :: CertSecret(Wanted(w)[n]);
    forall n, c
      ensures n in Wanted(w) && Wanted(w)[n] == c <==> CertAsked(w.dev, n, c)
      ensures n in Wanted(w) <==> CertNamed(w.dev, n)
      ensures n in w.secrets ==> (w.secrets[n] == CertSecret(c) <==> IsCertSecret(w.secrets[n], c))
    {
      WantedExactly(w, n, c);
      if n in w.secrets {
        CertSecretExactly(w.secrets[n], c);
      }
    }
    if SecretsInPlace(w.dev, w.secrets) {
      forall n ensures n in w.secrets <==> n in all ensures n in w.secrets && n in all ==> w.secrets[n] == all[n] {
        WantedExactly(w, n, if n in Wanted(w) then Wanted(w)[n] else ZERO_CERT);
      }
    }
  }

  lemma NoCertsNoEntries(w: World)
    ensures Wanted(w) == map[] <==> w.dev.spec.selfSignedCerts == []
  {
    var certs := w.dev.spec.selfSignedCerts;
    if certs != [] {
      CertMapFromAt(w.dev.name, certs, 0, SecretName(w.dev.name, 0));
    }
  }

  lemma LedgerExactly(w: World)
    ensures w.live == w.snap == Demanded(w) <==> LedgerInPlace(w)
  {
    NoCertsNoEntries(w);
    EntriesExactly(w, Entries(w.live.selfSignedCertStatus));
  }

  lemma FilesExactlyInPlace(w: World)
    requires ValidNames(w.dev.spec.intfMapping)
    ensures FilesInPlace(w) <==>
            var spec := w.dev.spec;
            && w.rcEos == (if spec.selfSignedCerts == [] then None else Some(RcEosObject(spec.selfSignedCerts)))
            && w.intfMap == (if spec.intfMapping == map[] then None else Some(IntfObject(spec.intfMapping)))
            && (if spec.toggleOverrides == map[] then w.toggles.None?
                else w.toggles.Some? && IsToggleObject(w.toggles.value, spec.toggleOverrides))
  {
    ValidNamesExactly(w.dev.spec.intfMapping);
    if w.rcEos.Some? {
      BootScriptExactly(w.rcEos.value, w.dev.spec.selfSignedCerts);
    }
    if w.intfMap.Some? {
      MappingFileExactly(w.intfMap.value, w.dev.spec.intfMapping);
    }
    if w.toggles.Some? {
      ToggleFileExactly(w.toggles.value, w.dev.spec.toggleOverrides);
    }
  }

  lemma PodExactlyInPlace(w: World)
    ensures PodInPlace(w) <==>
            w.pod.Some? && w.pod.value.labels == LabelsOf(w.dev) && FieldsAgree(w.dev, w.lib, w.pod.value)
  {
    if w.pod.Some? {
      LabelsExactly(w.dev, w.pod.value.labels);
      FieldsAgreeExactly(w.dev, w.lib, w.pod.value);
    }
  }

  lemma ServiceExactlyInPlace(w: World)
    ensures ServiceInPlace(w) <==>
            (w.dev.spec.services != map[] ==>
               w.service.Some? && ServiceMap(w.dev.spec.services) == Ok(ServiceMapFromApi(w.service.value.ports)))
  {
    if w.service.Some? {
      ServiceAgreesExactly(w.dev.spec.services, w.service.value.ports);
    }
  }

  // Synced means that everything is in its place.
  lemma SyncedExactlyInPlace(w: World)
    ensures Synced(w) && ValidNames(w.dev.spec.intfMapping) <==> InPlace(w)
  {
    LedgerExactly(w);
    SecretsExactly(w);
    if ValidNames(w.dev.spec.intfMapping) {
      FilesExactlyInPlace(w);
    }
    PodExactlyInPlace(w);
    ServiceExactlyInPlace(w);
  }

  // ----- What a new pod mounts -----

  // The object mounted under the name `n`.
  ghost predicate ConfiguredAs(m: World, n: string, o: Object) {
    var name, spec := m.dev.name, m.dev.spec;
    || (CertNamed(m.dev, n) && n in m.secrets && m.secrets[n] == o)
    || (n == "configmap-rceos-" + name && spec.selfSignedCerts != [] && m.rcEos == Some(o))
    || (n == "configmap-intfmapping-" + name && spec.intfMapping != map[] && m.intfMap == Some(o))
    || (n == "configmap-toggle-override-" + name && spec.toggleOverrides != map[] && m.toggles == Some(o))
    || (n == name + "-config" && m.startup.Some? && m.startup.value.configMap == o)
  }

  ghost predicate AllConfigured(m: World, objects: Objects) {
    && (forall n :: n in objects ==> ConfiguredAs(m, n, objects[n]))
    && forall n, o :: ConfiguredAs(m, n, o) ==> n in objects && objects[n] == o
  }

  lemma NamedApart(m: World, n: string)
    ensures CertNamed(m.dev, n) ==> !ConfigMapName(m.dev.name, n)
  {
    if c :| CertAsked(m.dev, n, c) {
      var i :| CertAskedAt(m.dev, i, n, c);
      KeysDistinct(m.dev.name, i);
      assert n == SecretName(m.dev.name, i);
    }
  }

  predicate OneOf(cond: bool, name: string, file: Option<Object>, n: string, o: Object) {
    cond && n == name && file == Some(o)
  }

  lemma Overlaid(below: Objects, cond: bool, name: string, file: Option<Object>, n: string, o: Object)
    requires name !in below
    ensures var all := below + When(cond, name, file);
            && (n in all && all[n] == o <==> (n in below && below[n] == o) || OneOf(cond, name, file, n, o))
            && all.Keys <= below.Keys + {name}
  {
  }

  lemma ConfiguredExactly(m: World)
    ensures AllConfigured(m, ConfiguredObjects(m))
  {
    forall n, o ensures ConfiguredAs(m, n, o) <==> n in ConfiguredObjects(m) && ConfiguredObjects(m)[n] == o {
      ConfiguredOne(m, n, o);
    }
  }

  lemma NoFileIsSecret(m: World, n: string)
    requires ConfigMapName(m.dev.name, n)
    ensures n !in ConfiguredSecrets(m)
  {
    WantedExactly(m, n, ZERO_CERT);
    NamedApart(m, n);
  }

  lemma ConfiguredOne(m: World, n: string, o: Object)
    ensures ConfiguredAs(m, n, o) <==> n in ConfiguredObjects(m) && ConfiguredObjects(m)[n] == o
  {
    var spec, name := m.dev.spec, m.dev.name;
    KeysDistinct(name, 0);
    NoFileIsSecret(m, RcEosName(name));
    NoFileIsSecret(m, IntfMappingName(name));
    NoFileIsSecret(m, ToggleOverridesName(name));
    NoFileIsSecret(m, StartupConfigName(name));
    WantedExactly(m, n, ZERO_CERT);
    var a := ConfiguredSecrets(m);
    var b := a + When(spec.selfSignedCerts != [], RcEosName(name), m.rcEos);
    var c := b + When(spec.intfMapping != map[], IntfMappingName(name), m.intfMap);
    var e := c + When(spec.toggleOverrides != map[], ToggleOverridesName(name), m.toggles);
    Overlaid(a, spec.selfSignedCerts != [], RcEosName(name), m.rcEos, n, o);
    Overlaid(b, spec.intfMapping != map[], IntfMappingName(name), m.intfMap, n, o);
    Overlaid(c, spec.toggleOverrides != map[], ToggleOverridesName(name), m.toggles, n, o);
    Overlaid(e, true, StartupConfigName(name), StartupObject(m), n, o);
  }

  // The boot script is mounted executable.
  lemma BootScriptMode(o: Object, certs: seq<CertConfig>)
    requires IsBootScript(o, certs)
    ensures ModeAsked(o, Some(509)) && forall mode :: ModeAsked(o, mode) ==> mode == Some(509)
  {
    Octal775();
    forall mode | ModeAsked(o, mode) ensures mode == Some(509) {
      ParseOctalExactly("775", mode.value);
    }
    ParseOctalExactly("775", 509);
  }

  // ----- Success -----

  // A recorded mapping has only valid names.
  ghost predicate ValidRecord(w: World) {
    w.live.intfMappingStatus.Of? ==> ValidInterfaces(w.live.intfMappingStatus.entries)
  }

  lemma FilesKeepValidRecord(m0: World, d: Draw)
    requires Draws(m0.dev, d) && ValidRecord(m0)
    ensures ValidRecord(EnsureFiles(m0, d).w)
  {
    IntfKeepsValidRecord(EnsureRcEos(m0));
    if EnsureIntf(EnsureRcEos(m0)).Ready? {
      TogglesKeepRecord(EnsureIntf(EnsureRcEos(m0)).w, d);
    }
  }

  lemma IntfKeepsValidRecord(a: World)
    requires ValidRecord(a)
    ensures ValidRecord(EnsureIntf(a).w)
  {
  }

  lemma TogglesKeepRecord(a: World, d: Draw)
    requires Draws(a.dev, d)
    ensures NoteStartup(EnsureToggles(a, d)).live.intfMappingStatus == a.live.intfMappingStatus
  {
  }

  lemma CreationKeepsValidRecord(w: World, d: Draw)
    requires Draws(w.dev, d) && ValidRecord(w)
    ensures ValidRecord(CreateMissing(w, d).w)
  {
    EnsureCertsKeepsDevice(w, d, 0);
    var made := EnsureCertsMakes(w, d, 0);
    var m0 := EnsureCerts(w, d, 0).w;
    FilesKeepValidRecord(m0, d);
    CreationAfterObjects(w, d);
    var m1 := EnsureObjects(w, d).w;
    WorkloadsKeepFiles(m1, PodOf(m1), ServiceFor(m1.dev));
  }

  lemma RepairKeepsValidRecord(w: World, end: Creation, v: Verdict)
    requires ValidRecord(w) && ValidRecord(end.w)
    ensures ValidRecord(RawPassFrom(w, end, v))
  {
  }

  lemma PassKeepsValidRecord(w: World, d: Draw, v: Verdict)
    requires Canonical(w.live) && Canonical(w.snap) && Draws(w.dev, d) && ValidRecord(w)
    ensures ValidRecord(Pass(w, d, v))
  {
    CreationKeepsValidRecord(w, d);
    RepairKeepsValidRecord(w, CreateMissing(w, d), v);
    PassIsRaw(w, d, v, CreateMissing(w, d));
  }

  lemma {:induction false} RunKeepsValidRecord(w: World, es: seq<Event>)
    requires Canonical(w.live) && Canonical(w.snap) && ValidRecord(w) && Run(w, es)
    ensures ValidRecord(End(w, es))
    decreases es
  {
    if es == [] {
    } else {
      if es[0].PassEvent? {
        SavingLosesNothing(w, es[0].d, es[0].v);
        PassKeepsValidRecord(w, es[0].d, es[0].v);
      }
      RunKeepsValidRecord(After(w, es[0]), es[1..]);
    }
  }

  lemma SyncedRecordIsValid(w: World)
    requires Synced(w) && ValidRecord(w)
    ensures ValidNames(w.dev.spec.intfMapping)
  {
    ValidNamesExactly(w.dev.spec.intfMapping);
  }

  // From a fresh device, under any interleaving: a reported success means everything in its place, literally,
  // if and only if what existed before the pass was right.
  lemma SuccessPutsInPlace(w: World, es: seq<Event>, d: Draw)
    requires Fresh(w) && Run(w, es) && Allowed(End(w, es), d, InSync)
    ensures InPlace(Pass(End(w, es), d, InSync)) <==> KeptRight(End(w, es))
  {
    var before, after := End(w, es), Pass(End(w, es), d, InSync);
    FreshIsCanonical(w);
    RunStaysCanonical(w, es);
    RunKeepsValidRecord(w, es);
    SuccessInAnyRun(w, es, d);
    PassKeepsValidRecord(before, d, InSync);
    SyncedExactlyInPlace(after);
    if Synced(after) {
      SyncedRecordIsValid(after);
    }
  }
}

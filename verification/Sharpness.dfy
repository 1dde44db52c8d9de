// Why the hypotheses are needed: from any synced device, short runs that end in trouble without them.
module Sharpness {
  import opened Basics
  import opened Api
  import opened Names
  import opened Files
  import opened Volumes
  import opened Services
  import opened Pods
  import opened Quantities
  import opened Reconcile
  import opened CreationFacts
  import opened Soundness
  import opened Runs
  import opened Convergence
  import opened Progress
  import opened Exits
  import opened OneLine
  import opened Mounts
  import opened Endless

  // ----- Everything the comparisons look at -----

  ghost predicate WorkloadsAgree(m: World) {
    && m.pod.Some? && m.pod.value.labels == LabelsOf(m.dev) && FieldsAgree(m.dev, m.lib, m.pod.value)
    && ServiceAgrees(m)
  }

  ghost predicate LooksSynced(m: World) {
    m.live == m.snap == Demanded(m) && WorkloadsAgree(m)
  }

  lemma AgreeingIsInSync(m: World)
    requires WorkloadsAgree(m)
    ensures LateVerdict(m) == InSync
  {
    NoDifferingField(m);
    assert FieldAgrees(m.dev, m.lib, m.pod.value, Resources);
  }

  lemma DemandedIsCanonical(m: World)
    ensures Canonical(Demanded(m))
  {
  }

  // Success is reported whenever the comparisons find nothing, however the files look.
  lemma LooksSyncedSucceeds(w: World, d: Draw, m: World, r: World)
    requires Draws(w.dev, d) && CreateMissing(w, d) == Ready(m) && LooksSynced(m)
    requires r == m.(state := SuccessState)
    ensures Leads(w, PassEvent(d, InSync), r)
  {
    LooksSyncedVerdict(m, InSync);
    InSyncRepair(w, m, r);
    RepairLeads(w, d, InSync, m, r);
  }

  lemma InSyncRepair(w: World, m: World, r: World)
    requires m.live == m.snap == Demanded(m) && r == m.(state := SuccessState)
    ensures Repair(w, m, InSync) == r && Canonical(r.live) && Canonical(r.snap)
  {
  }

  lemma LooksSyncedVerdict(m: World, v: Verdict)
    requires LooksSynced(m)
    ensures Diagnosis(m, v, LateVerdict(m)) <==> v == InSync
  {
    AgreeingIsInSync(m);
    LedgerInStep(m);
  }

  // And nothing else can be.
  lemma LooksSyncedOnly(w: World, d: Draw, m: World, v: Verdict)
    requires Draws(w.dev, d) && CreateMissing(w, d) == Ready(m) && LooksSynced(m)
    ensures Allowed(w, d, v) <==> v == InSync
  {
    LooksSyncedVerdict(m, v);
  }

  lemma SyncedAgrees(w: World)
    requires Synced(w)
    ensures WorkloadsAgree(w)
  {
  }

  function Edited(w: World, spec: Spec): World { w.(dev := w.dev.(spec := spec)) }

  lemma TwoEvents(a: Event, b: Event)
    ensures [a] + [b] == [a, b]
  {
  }

  lemma FiveEvents(a: Event, b: Event, c: Event, d: Event, e: Event)
    ensures [a] + ([b] + ([c] + [d, e])) == [a, b, c, d, e]
  {
  }

  lemma SevenEvents(a: Event, b: Event, c: Event, d: Event, e: Event, f: Event, g: Event)
    ensures [a] + ([b] + ([c] + ([d] + ([e] + ([f] + [g]))))) == [a, b, c, d, e, f, g]
  {
  }

  // ----- There is something to start from -----

  lemma OneService(services: ServiceSpec, conflicting: ServiceSpec)
    requires services == map["ssh" := [PortConfig(22, 0)]]
    requires conflicting == map["ssh" := [PortConfig(22, 1), PortConfig(22, 2)]]
    ensures ServiceMap(services).Ok? && ServiceMap(conflicting).Err?
  {
    FailsIffConflict(services);
    forall p | p in EffectivePairs(services) ensures p == PortConfig(22, 22) {
      var s := PairClaimant(services, p);
    }
    FailsIffConflict(conflicting);
    assert Effective(conflicting["ssh"][0]) == PortConfig(22, 1)
           && Effective(conflicting["ssh"][1]) == PortConfig(22, 2);
    assert Conflict(PortConfig(22, 1), PortConfig(22, 2));
  }

  lemma OneInterface(mapping: map<string, string>)
    requires mapping == map["eth0" := "Ethernet1"]
    ensures ValidInterfaces(mapping)
  {
    assert "Ethernet1"[8..] == "1" && DigitRun("1") == 1;
  }

  function NewWorld(certs: seq<CertConfig>, services: ServiceSpec, mapping: map<string, string>): World {
    World(Device("r1", "lab", map[], Spec(map[], "", [], map[], services, "", 0, 0, certs, mapping, map[], [])),
          RawQuantities((text: string) => None, (n: int) => ""),
          map[], None, None, None, None, None, None, EMPTY_LEDGER, EMPTY_LEDGER, UnsetState)
  }

  // A synced device with a mapping and services, and services that conflict.
  lemma StartingPoint() returns (w: World, d: Draw, conflicting: ServiceSpec)
    ensures Inv(w) && Synced(w) && Draws(w.dev, d) && w.startup.None?
    ensures w.dev.spec.intfMapping != map[] && ValidInterfaces(w.dev.spec.intfMapping)
    ensures w.dev.spec.services != map[] && ServiceMap(conflicting).Err?
  {
    var services: ServiceSpec := map["ssh" := [PortConfig(22, 0)]];
    conflicting := map["ssh" := [PortConfig(22, 1), PortConfig(22, 2)]];
    OneService(services, conflicting);
    OneInterface(map["eth0" := "Ethernet1"]);
    var w0 := NewWorld([], services, map["eth0" := "Ethernet1"]);
    d := Draw({}, []);
    assert Draws(w0.dev, d);
    w := FirstSuccess(w0, d);
  }

  // A synced device with a certificate, another certificate, and a malformed mapping.
  lemma StartingPointWithCerts() returns (w: World, d: Draw, certs: seq<CertConfig>, mapping: map<string, string>)
    ensures Inv(w) && Synced(w) && Draws(w.dev, d) && w.dev.spec.intfMapping == map[]
    ensures 0 < |certs| <= |w.dev.spec.selfSignedCerts| && mapping != map[] && !ValidInterfaces(mapping)
    ensures NewlineFreeCerts(certs) && NewlineFreeCerts(w.dev.spec.selfSignedCerts)
    ensures !SameNames(certs, w.dev.spec.selfSignedCerts)
  {
    var first := [CertConfig("a.crt", "a.key", 2048, "")];
    certs := [CertConfig("b.crt", "a.key", 2048, "")];
    mapping := map["eth0" := "eth1"];
    d := NewDraw(first);
    w := FirstSuccess(NewWorld(first, map[], map[]), d);
    TwoCerts(first, certs);
    OnePlainName(mapping);
  }

  lemma NewDraw(certs: seq<CertConfig>) returns (d: Draw)
    ensures d == Draw({}, []) && Draws(NewWorld(certs, map[], map[]).dev, d)
            && Healthy(NewWorld(certs, map[], map[]), d)
  {
    d := Draw({}, []);
    NoService(map[]);
  }

  lemma TwoCerts(first: seq<CertConfig>, other: seq<CertConfig>)
    requires first == [CertConfig("a.crt", "a.key", 2048, "")] && other == [CertConfig("b.crt", "a.key", 2048, "")]
    ensures NewlineFreeCerts(first) && NewlineFreeCerts(other) && !SameNames(other, first)
  {
    assert first[0].certName[0] != other[0].certName[0];
  }

  lemma OnePlainName(mapping: map<string, string>)
    requires mapping == map["eth0" := "eth1"]
    ensures !ValidInterfaces(mapping)
  {
    assert mapping["eth0"][0] == 'e' && "Ethernet"[0] == 'E' && "Management"[0] == 'M';
  }

  lemma NoService(services: ServiceSpec)
    requires services == map[]
    ensures ServiceMap(services).Ok?
  {
    FailsIffConflict(services);
  }

  lemma FirstSuccess(w0: World, d: Draw) returns (w: World)
    requires Fresh(w0) && Draws(w0.dev, d) && Healthy(w0, d)
    ensures Inv(w) && Synced(w) && w.dev == w0.dev && w.startup == w0.startup
    ensures Leads(w0, PassEvent(d, InSync), w)
  {
    FirstPass(w0, d);
    w := Pass(w0, d, InSync);
    FirstPassKeepsDevice(w0, d);
  }

  lemma FirstPass(w0: World, d: Draw)
    requires Fresh(w0) && Draws(w0.dev, d) && Healthy(w0, d)
    ensures Inv(w0) && Allowed(w0, d, InSync)
    ensures Inv(Pass(w0, d, InSync)) && Synced(Pass(w0, d, InSync))
  {
    FreshInv(w0);
    var v := PassExists(w0, d);
    FreshSucceedsAtOnce(w0, d, v);
    HealthyPassKeepsInv(w0, d, v);
  }

  lemma FirstPassKeepsDevice(w0: World, d: Draw)
    requires Inv(w0) && Allowed(w0, d, InSync) && Healthy(w0, d)
    ensures Pass(w0, d, InSync).dev == w0.dev && Pass(w0, d, InSync).startup == w0.startup
  {
    var m, late := HealthyVerdict(w0, d, InSync);
    SuccessPass(w0, d, m, m.(state := SuccessState));
  }

  // ----- A service outlives the last of its ports -----

  // With no services left the next pass can only report success, and the old service stays.
  lemma EmptiedServicesLeaveService(w: World, d: Draw, v: Verdict)
    requires Inv(w) && Synced(w) && w.dev.spec.services != map[] && Draws(w.dev, d)
    ensures var w1 := Edited(w, w.dev.spec.(services := map[]));
            && (Allowed(w1, d, v) <==> v == InSync)
            && Leads(w1, PassEvent(d, InSync), w1.(state := SuccessState)) && w1.service.Some?
  {
    var w1 := Edited(w, w.dev.spec.(services := map[]));
    EmptiedLooksSynced(w, w1);
    NothingMissing(w1, d);
    LooksSyncedSucceeds(w1, d, w1, w1.(state := SuccessState));
    LooksSyncedOnly(w1, d, w1, v);
  }

  lemma EmptiedLooksSynced(w: World, w1: World)
    requires Synced(w) && w1 == Edited(w, w.dev.spec.(services := map[]))
    ensures LooksSynced(w1)
  {
    RelabelledFields(w, w.dev.labels, map[]);
    RelabelledSameDemand(w, w.dev.labels, map[]);
    ServiceAgreesWithoutServices(w1);
  }

  // ----- A failing pass can leave the wrong script, unmarked -----

  // The same number of certificates or fewer: no secret is missing.
  lemma ShorterCertsMissNothing(device: string, a: seq<CertConfig>, b: seq<CertConfig>)
    requires |b| <= |a|
    ensures CertMap(device, b).Keys <= CertMap(device, a).Keys
  {
    forall n | n in CertMap(device, b) ensures n in CertMap(device, a) {
      CertMapFromAt(device, b, 0, n);
      CertMapFromAt(device, a, 0, n);
    }
  }

  function DamagingEdit(w: World, certs: seq<CertConfig>, mapping: map<string, string>): Event {
    Edit(w.dev.labels, w.dev.spec.(selfSignedCerts := certs, intfMapping := mapping))
  }

  // rc.eos is gone, the certificates are others, and the new interface mapping is malformed.
  function Damaged(w: World, certs: seq<CertConfig>, mapping: map<string, string>): World {
    Edited(w.(rcEos := None), w.dev.spec.(selfSignedCerts := certs, intfMapping := mapping))
  }

  lemma DamagedFails(w: World, certs: seq<CertConfig>, mapping: map<string, string>, d: Draw)
    requires Synced(w) && w.dev.spec.intfMapping == map[] && Draws(w.dev, d)
    requires 0 < |certs| <= |w.dev.spec.selfSignedCerts| && mapping != map[] && !ValidInterfaces(mapping)
    ensures var w1 := Damaged(w, certs, mapping);
            CreateMissing(w1, d) == Failed(w1.(rcEos := Some(RcEosObject(certs))))
  {
    var w1 := Damaged(w, certs, mapping);
    ShorterCertsMissNothing(w.dev.name, w.dev.spec.selfSignedCerts, certs);
    NoCertMissing(w1, d, 0);
    assert w1.live.(rcEosStale := false) == w1.live;
  }

  lemma FailedKeepsSaved(w1: World, d: Draw, m: World)
    requires Draws(w1.dev, d) && CreateMissing(w1, d) == Failed(m) && Canonical(m.live) && Canonical(m.snap)
    ensures Leads(w1, PassEvent(d, NotReached), m.(state := FailedState))
  {
  }

  // The script of a synced device replaced by another one: no comparison sees it.
  lemma ScriptIsNotCompared(w: World, w3: World, script: Object, d: Draw)
    requires Synced(w) && w.dev.spec.selfSignedCerts != [] && Draws(w.dev, d)
    requires w3 == w.(rcEos := Some(script), state := w3.state)
    ensures Leads(w3, PassEvent(d, InSync), w3.(state := SuccessState))
  {
    SyncedAgrees(w);
    NothingMissing(w3, d);
    LooksSyncedSucceeds(w3, d, w3, w3.(state := SuccessState));
  }

  predicate SameNames(a: seq<CertConfig>, b: seq<CertConfig>) {
    |a| == |b| && forall i :: 0 <= i < |a| ==> SameFileNames(a[i], b[i])
  }

  // Another script in place is as good only if it copies the same files in the same order.
  lemma OtherScriptIsWrong(w: World, certs: seq<CertConfig>)
    requires Synced(w) && w.dev.spec.selfSignedCerts != []
    requires NewlineFreeCerts(certs) && NewlineFreeCerts(w.dev.spec.selfSignedCerts)
    ensures Synced(w.(rcEos := Some(RcEosObject(certs)), state := SuccessState)) <==>
            SameNames(certs, w.dev.spec.selfSignedCerts)
  {
    var right := w.dev.spec.selfSignedCerts;
    if SameNames(certs, right) {
      SameNamesSameScript(certs, right);
      assert RcEosObject(certs) == RcEosObject(right);
      SyncedIgnoresState(w, SuccessState);
    } else if RcEosObject(certs) == RcEosObject(right) {
      SameObjectSameText(certs, right);
      SameScriptSameNames(certs, right);
    }
  }

  // rc.eos gets lost, the certificates are edited, and the interface mapping is malformed. The failing pass
  // writes the script for the new certificates and saves it as not stale; once the edit is taken back,
  // success is reported with that script in place, which is wrong.
  lemma WrongScriptReported(w: World, certs: seq<CertConfig>, mapping: map<string, string>, d: Draw)
    requires Synced(w) && w.dev.spec.intfMapping == map[] && Draws(w.dev, d)
    requires 0 < |certs| <= |w.dev.spec.selfSignedCerts| && mapping != map[] && !ValidInterfaces(mapping)
    requires NewlineFreeCerts(certs) && NewlineFreeCerts(w.dev.spec.selfSignedCerts)
    requires !SameNames(certs, w.dev.spec.selfSignedCerts)
    ensures !Synced(w.(rcEos := Some(RcEosObject(certs)), state := SuccessState))
    ensures RunsTo(w, [LoseRcEos, DamagingEdit(w, certs, mapping),
                       PassEvent(d, NotReached), Edit(w.dev.labels, w.dev.spec), PassEvent(d, InSync)],
                   w.(rcEos := Some(RcEosObject(certs)), state := SuccessState))
  {
    OtherScriptIsWrong(w, certs);
    ScriptRun(w, certs, mapping, d);
  }

  lemma ScriptRun(w: World, certs: seq<CertConfig>, mapping: map<string, string>, d: Draw)
    requires Synced(w) && w.dev.spec.intfMapping == map[] && Draws(w.dev, d)
    requires 0 < |certs| <= |w.dev.spec.selfSignedCerts| && mapping != map[] && !ValidInterfaces(mapping)
    ensures RunsTo(w, [LoseRcEos, DamagingEdit(w, certs, mapping),
                       PassEvent(d, NotReached), Edit(w.dev.labels, w.dev.spec), PassEvent(d, InSync)],
                   w.(rcEos := Some(RcEosObject(certs)), state := SuccessState))
  {
    var edit := DamagingEdit(w, certs, mapping);
    var w1 := Damaged(w, certs, mapping);
    var w2 := w1.(rcEos := Some(RcEosObject(certs)), state := FailedState);
    var r := w.(rcEos := Some(RcEosObject(certs)), state := SuccessState);
    DamagedPass(w, certs, mapping, d);
    WrongScriptStays(w, w2, RcEosObject(certs), d);
    OneMoreEvent(w1, PassEvent(d, NotReached), w2, [Edit(w.dev.labels, w.dev.spec), PassEvent(d, InSync)], r);
    DamagingRun(w, certs, mapping,
        [PassEvent(d, NotReached)] + [Edit(w.dev.labels, w.dev.spec), PassEvent(d, InSync)], r);
    FiveEvents(LoseRcEos, edit, PassEvent(d, NotReached), Edit(w.dev.labels, w.dev.spec), PassEvent(d, InSync));
  }

  lemma DamagingRun(w: World, certs: seq<CertConfig>, mapping: map<string, string>, es: seq<Event>, r: World)
    requires RunsTo(Damaged(w, certs, mapping), es, r)
    ensures RunsTo(w, [LoseRcEos] + ([DamagingEdit(w, certs, mapping)] + es), r)
  {
    var edit := DamagingEdit(w, certs, mapping);
    OneMoreEvent(w.(rcEos := None), edit, Damaged(w, certs, mapping), es, r);
    OneMoreEvent(w, LoseRcEos, w.(rcEos := None), [edit] + es, r);
  }

  lemma DamagedPass(w: World, certs: seq<CertConfig>, mapping: map<string, string>, d: Draw)
    requires Synced(w) && w.dev.spec.intfMapping == map[] && Draws(w.dev, d)
    requires 0 < |certs| <= |w.dev.spec.selfSignedCerts| && mapping != map[] && !ValidInterfaces(mapping)
    ensures var w1 := Damaged(w, certs, mapping);
            Leads(w1, PassEvent(d, NotReached), w1.(rcEos := Some(RcEosObject(certs)), state := FailedState))
  {
    var w1 := Damaged(w, certs, mapping);
    DemandedIsCanonical(w);
    DamagedFails(w, certs, mapping, d);
    FailedKeepsSaved(w1, d, w1.(rcEos := Some(RcEosObject(certs))));
  }

  lemma WrongScriptStays(w: World, w2: World, script: Object, d: Draw)
    requires Synced(w) && w.dev.spec.selfSignedCerts != [] && Draws(w.dev, d)
    requires w2 == w.(rcEos := Some(script), dev := w2.dev, state := FailedState)
             && w2.dev == w.dev.(spec := w2.dev.spec)
    ensures RunsTo(w2, [Edit(w.dev.labels, w.dev.spec), PassEvent(d, InSync)],
                   w.(rcEos := Some(script), state := SuccessState))
  {
    var w3, r := w.(rcEos := Some(script), state := FailedState), w.(rcEos := Some(script), state := SuccessState);
    ScriptIsNotCompared(w, w3, script, d);
    OneEvent(w3, PassEvent(d, InSync), r);
    EditFirst(w2, w.dev.labels, w.dev.spec, [PassEvent(d, InSync)], r);
    TwoEvents(Edit(w.dev.labels, w.dev.spec), PassEvent(d, InSync));
  }

  // ----- Harmless by accident -----

  // A pass that fails after it wrote the script of other certificates keeps the invariant: the new name
  // imitates the lines of the certificates on record. So names without newlines are needed where harm is
  // told from names.
  lemma ImitatingNameIsHarmless() returns (w: World, d: Draw)
    ensures Inv(w) && Allowed(w, d, NotReached) && Inv(Pass(w, d, NotReached))
    ensures Harmless(w, d) && !HarmlessByNames(w, d.badKeys)
  {
    var mapping := map["eth0" := "eth1"];
    d := NewDraw(THREE_CERTS);
    var synced := FirstSuccess(NewWorld(THREE_CERTS, map[], map[]), d);
    OnePlainName(mapping);
    NameImitatesLines();
    ImitationIsHarmless(synced, mapping, d);
    w := Damaged(synced, ONE_CERT, mapping);
  }

  lemma ImitationIsHarmless(synced: World, mapping: map<string, string>, d: Draw)
    requires Inv(synced) && Synced(synced) && Draws(synced.dev, d) && RcEosText(ONE_CERT) == RcEosText(THREE_CERTS)
    requires synced.dev.spec.selfSignedCerts == THREE_CERTS && synced.dev.spec.intfMapping == map[]
    requires mapping != map[] && !ValidInterfaces(mapping)
    ensures var w := Damaged(synced, ONE_CERT, mapping);
            && Inv(w) && Allowed(w, d, NotReached) && Inv(Pass(w, d, NotReached))
            && Harmless(w, d) && !HarmlessByNames(w, d.badKeys)
  {
    var w := Damaged(synced, ONE_CERT, mapping);
    DamagedPass(synced, ONE_CERT, mapping, d);
    DamagedKeepsInv(synced, ONE_CERT, mapping);
    ShorterCertsMissNothing(synced.dev.name, THREE_CERTS, ONE_CERT);
    AccidentalScript(synced, w, d.badKeys);
    assert EndingOf(w, d.badKeys) == LateFailure;
    InvKeptExactly(w, d, NotReached);
  }

  lemma DamagedKeepsInv(w: World, certs: seq<CertConfig>, mapping: map<string, string>)
    requires Inv(w)
    ensures Inv(Damaged(w, certs, mapping))
  {
    EventKeepsInv(w, LoseRcEos);
    EventKeepsInv(w.(rcEos := None), DamagingEdit(w, certs, mapping));
  }

  lemma AccidentalScript(synced: World, w: World, badKeys: set<nat>)
    requires Synced(synced) && synced.dev.spec.selfSignedCerts == THREE_CERTS
    requires w.dev.name == synced.dev.name && w.live == synced.live && w.rcEos.None? && w.secrets == synced.secrets
    requires w.dev.spec.selfSignedCerts == ONE_CERT && Wanted(w).Keys <= Wanted(synced).Keys
    requires RcEosText(ONE_CERT) == RcEosText(THREE_CERTS)
    ensures ScriptGuard(w) && !NamesGuard(w) && KeysWork(w, badKeys)
  {
    var name := w.dev.name;
    assert RecordedThen(w) == CertMap(name, THREE_CERTS);
    assert SameScript(name, RecordedThen(w), THREE_CERTS, ONE_CERT);
    SecondCertDropped(w);
    forall i | 0 <= i < |ONE_CERT| ensures SecretName(name, i) in w.secrets {
      CertMapFromAt(name, ONE_CERT, 0, SecretName(name, i));
    }
  }

  lemma SecondCertDropped(w: World)
    requires Entries(w.live.selfSignedCertStatus) == CertMap(w.dev.name, THREE_CERTS)
    requires w.dev.spec.selfSignedCerts == ONE_CERT
    ensures SecretName(w.dev.name, 1) in DroppedCerts(w)
  {
    var name := w.dev.name;
    CertMapFromAt(name, THREE_CERTS, 0, SecretName(name, 1));
    CertMapFromAt(name, ONE_CERT, 0, SecretName(name, 1));
    if SecretName(name, 0) == SecretName(name, 1) {
      SecretNameInjective(name, 0, name, 1);
    }
  }

  // ----- A mapping dropped and added again while the pod is away -----

  // The pod is gone and the mapping dropped.
  function Podless(w: World): World {
    Edited(w.(pod := None), w.dev.spec.(intfMapping := map[]))
  }

  lemma PodlessCreates(w: World, d: Draw)
    requires Inv(w) && Synced(w) && w.dev.spec.intfMapping != map[] && Draws(w.dev, d)
    requires w.startup.Some? ==> DefaultMode(w.startup.value.configMap).Ok?
    ensures var w1 := Podless(w);
            PodOf(w1).Built? && CreateMissing(w1, d) == Ready(w1.(pod := Some(PodOf(w1).value), snap := w.live))
  {
    var w1 := Podless(w);
    assert FieldAgrees(w.dev, w.lib, w.pod.value, Resources);
    OthersKeepInv(w, w.(pod := None));
    EventKeepsInv(w.(pod := None), Edit(w.dev.labels, w1.dev.spec));
    HealthyPod(w1);
    NoCertMissing(w1, d, 0);
    NoFileMissing(w1, d);
    ServiceKept(w1, PodOf(w1), ServiceFor(w1.dev));
  }

  lemma ServiceKept(w1: World, pod: Built<Pod>, service: Result<Service>)
    requires pod.Built? && w1.pod.None? && (w1.dev.spec.services != map[] ==> w1.service.Some?)
    ensures EnsureWorkloads(w1, pod, service) == Ready(w1.(pod := Some(pod.value), snap := w1.live))
  {
  }

  // Of the whole ledger only the mapping is out of step.
  lemma DroppedMappingVerdict(m: World, v: Verdict)
    requires m.pod.Some? && m.dev.spec.intfMapping == map[] && m.live.intfMappingStatus.Of?
    requires m.live == Demanded(m).(intfMappingStatus := m.live.intfMappingStatus)
    ensures Diagnosis(m, v, LateVerdict(m)) <==> v == IntfDropped
  {
  }

  lemma DroppedMappingPass(w1: World, d: Draw, m: World, r: World)
    requires Draws(w1.dev, d) && CreateMissing(w1, d) == Ready(m) && Canonical(m.live) && Canonical(m.snap)
    requires m.pod.Some? && m.dev.spec.intfMapping == map[] && m.live.intfMappingStatus.Of?
    requires m.live == Demanded(m).(intfMappingStatus := m.live.intfMappingStatus)
    requires r == m.(intfMap := None, live := m.live.(intfMappingStatus := Nil), state := ReconcilingState)
    ensures Leads(w1, PassEvent(d, IntfDropped), r)
  {
    DroppedMappingVerdict(m, IntfDropped);
    DroppedMappingRepair(w1, m, r);
    RepairLeads(w1, d, IntfDropped, m, r);
  }

  lemma DroppedMappingRepair(w1: World, m: World, r: World)
    requires Canonical(m.live) && Canonical(m.snap)
    requires r == m.(intfMap := None, live := m.live.(intfMappingStatus := Nil), state := ReconcilingState)
    ensures Repair(w1, m, IntfDropped) == r && Canonical(r.live) && Canonical(r.snap)
  {
  }

  // A pod without the mapping, after the pass that also dropped the mapping.
  function Unmapped(w: World, pod: Pod): World {
    Podless(w).(pod := Some(pod), snap := w.live, intfMap := None, live := w.live.(intfMappingStatus := Nil),
                state := ReconcilingState)
  }

  lemma PodlessPass(w: World, d: Draw)
    requires Inv(w) && Synced(w) && w.dev.spec.intfMapping != map[] && Draws(w.dev, d)
    requires w.startup.Some? ==> DefaultMode(w.startup.value.configMap).Ok?
    ensures var w1 := Podless(w);
            PodOf(w1).Built? && Leads(w1, PassEvent(d, IntfDropped), Unmapped(w, PodOf(w1).value))
  {
    var w1 := Podless(w);
    PodlessCreates(w, d);
    DroppedMappingPass(w1, d, w1.(pod := Some(PodOf(w1).value), snap := w.live), Unmapped(w, PodOf(w1).value));
  }

  // The mapping is back, perhaps with other services.
  function Remapped(w: World, pod: Pod, services: ServiceSpec): World {
    Edited(w, w.dev.spec.(services := services)).(pod := Some(pod), state := ReconcilingState)
  }

  // Its file is created again, and the ledger equals the snapshot once more.
  lemma RemappedCreates(w: World, pod: Pod, services: ServiceSpec, d: Draw)
    requires Synced(w) && w.dev.spec.intfMapping != map[] && ValidInterfaces(w.dev.spec.intfMapping) && Draws(w.dev, d)
    requires services != map[] ==> w.service.Some?
    ensures CreateMissing(Edited(Unmapped(w, pod), w.dev.spec.(services := services)), d)
            == Ready(Remapped(w, pod, services))
  {
    NoCertMissing(Edited(Unmapped(w, pod), w.dev.spec.(services := services)), d, 0);
    RemappedFiles(w, pod, services, d);
    var m := Remapped(w, pod, services);
    NoWorkloadMissing(m, PodOf(m), ServiceFor(m.dev));
  }

  lemma RemappedFiles(w: World, pod: Pod, services: ServiceSpec, d: Draw)
    requires Synced(w) && w.dev.spec.intfMapping != map[] && ValidInterfaces(w.dev.spec.intfMapping) && Draws(w.dev, d)
    ensures EnsureFiles(Edited(Unmapped(w, pod), w.dev.spec.(services := services)), d)
            == Ready(Remapped(w, pod, services))
  {
  }

  lemma MappingIsNoField(w: World, pod: Pod)
    requires pod.labels == LabelsOf(Podless(w).dev) && FieldsAgree(Podless(w).dev, w.lib, pod)
    ensures pod.labels == LabelsOf(w.dev) && FieldsAgree(w.dev, w.lib, pod)
  {
    forall field ensures FieldAgrees(w.dev, w.lib, pod, field) {
      assert FieldAgrees(Podless(w).dev, w.lib, pod, field);
    }
  }

  lemma MissingMount(w: World, pod: Pod)
    requires PodOf(Podless(w)) == Built(pod) && w.intfMap.Some? && w.dev.spec.intfMapping != map[]
    ensures !MountsAre(pod, ConfiguredObjects(w))
  {
    var name := IntfMappingName(w.dev.name);
    PodMounts(Podless(w), pod);
    MappingConfigured(w);
    VolumesTellObjects(ConfiguredObjects(Podless(w)), name);
    if MountsAre(pod, ConfiguredObjects(w)) {
      VolumesTellObjects(ConfiguredObjects(w), name);
    }
  }

  lemma MappingConfigured(w: World)
    requires w.intfMap.Some? && w.dev.spec.intfMapping != map[]
    ensures IntfMappingName(w.dev.name) in ConfiguredObjects(w)
    ensures IntfMappingName(w.dev.name) !in ConfiguredObjects(Podless(w))
  {
    FileKeys(w);
    FileKeys(Podless(w));
  }

  // Every pass of this run is healthy, and yet success is reported for a pod without the mapping's mount:
  // the files must stay fixed until success.
  lemma RemappedPodMissesMount(w: World, d: Draw) returns (r: World)
    requires Inv(w) && Synced(w) && w.dev.spec.intfMapping != map[] && ValidInterfaces(w.dev.spec.intfMapping)
    requires Draws(w.dev, d) && (w.startup.Some? ==> DefaultMode(w.startup.value.configMap).Ok?)
    ensures RunsTo(w, [LosePod, Edit(w.dev.labels, w.dev.spec.(intfMapping := map[])), PassEvent(d, IntfDropped),
                       Edit(w.dev.labels, w.dev.spec), PassEvent(d, InSync)], r)
    ensures r.dev == w.dev && r.state == SuccessState && Synced(r)
    ensures r.pod.Some? && !MountsAre(r.pod.value, ConfiguredObjects(r))
  {
    PodlessPass(w, d);
    var pod := PodOf(Podless(w)).value;
    r := w.(pod := Some(pod), state := SuccessState);
    MissingMount(w, pod);
    SameObjects(w, r);
    RemappedIsSynced(w, pod, r);
    RemappedRun(w, pod, d);
  }

  lemma RemappedIsSynced(w: World, pod: Pod, r: World)
    requires Synced(w) && PodOf(Podless(w)) == Built(pod) && r == w.(pod := Some(pod), state := SuccessState)
    ensures Synced(r)
  {
    BuiltPodAgrees(Podless(w).dev, w.lib, ConfiguredObjects(Podless(w)));
    MappingIsNoField(w, pod);
  }

  lemma RemappedRun(w: World, pod: Pod, d: Draw)
    requires Synced(w) && w.dev.spec.intfMapping != map[] && ValidInterfaces(w.dev.spec.intfMapping) && Draws(w.dev, d)
    requires PodOf(Podless(w)) == Built(pod) && Leads(Podless(w), PassEvent(d, IntfDropped), Unmapped(w, pod))
    ensures RunsTo(w, [LosePod, Edit(w.dev.labels, w.dev.spec.(intfMapping := map[])), PassEvent(d, IntfDropped),
                       Edit(w.dev.labels, w.dev.spec), PassEvent(d, InSync)],
                   w.(pod := Some(pod), state := SuccessState))
  {
    var back, r := [Edit(w.dev.labels, w.dev.spec), PassEvent(d, InSync)], w.(pod := Some(pod), state := SuccessState);
    RemappingRun(w, pod, d);
    OneMoreEvent(Podless(w), PassEvent(d, IntfDropped), Unmapped(w, pod), back, r);
    PodlessRun(w, [PassEvent(d, IntfDropped)] + back, r);
    FiveEvents(LosePod, Edit(w.dev.labels, w.dev.spec.(intfMapping := map[])), PassEvent(d, IntfDropped),
               Edit(w.dev.labels, w.dev.spec), PassEvent(d, InSync));
  }

  lemma PodlessRun(w: World, es: seq<Event>, r: World)
    requires RunsTo(Podless(w), es, r)
    ensures RunsTo(w, [LosePod] + ([Edit(w.dev.labels, w.dev.spec.(intfMapping := map[]))] + es), r)
  {
    var edit := Edit(w.dev.labels, w.dev.spec.(intfMapping := map[]));
    OneMoreEvent(w.(pod := None), edit, Podless(w), es, r);
    OneMoreEvent(w, LosePod, w.(pod := None), [edit] + es, r);
  }

  lemma RemappingRun(w: World, pod: Pod, d: Draw)
    requires Synced(w) && w.dev.spec.intfMapping != map[] && ValidInterfaces(w.dev.spec.intfMapping) && Draws(w.dev, d)
    requires PodOf(Podless(w)) == Built(pod)
    ensures RunsTo(Unmapped(w, pod), [Edit(w.dev.labels, w.dev.spec), PassEvent(d, InSync)],
                   w.(pod := Some(pod), state := SuccessState))
  {
    var r := w.(pod := Some(pod), state := SuccessState);
    RemappedPass(w, pod, d);
    OneEvent(Edited(Unmapped(w, pod), w.dev.spec), PassEvent(d, InSync), r);
    EditFirst(Unmapped(w, pod), w.dev.labels, w.dev.spec, [PassEvent(d, InSync)], r);
    TwoEvents(Edit(w.dev.labels, w.dev.spec), PassEvent(d, InSync));
  }

  lemma RemappedPass(w: World, pod: Pod, d: Draw)
    requires Synced(w) && w.dev.spec.intfMapping != map[] && ValidInterfaces(w.dev.spec.intfMapping) && Draws(w.dev, d)
    requires PodOf(Podless(w)) == Built(pod)
    ensures Leads(Edited(Unmapped(w, pod), w.dev.spec), PassEvent(d, InSync),
            w.(pod := Some(pod), state := SuccessState))
  {
    RemappedCreates(w, pod, w.dev.spec.services, d);
    RemappedLooksSynced(w, pod);
    LooksSyncedSucceeds(Edited(Unmapped(w, pod), w.dev.spec), d, w.(pod := Some(pod), state := ReconcilingState),
                        w.(pod := Some(pod), state := SuccessState));
  }

  lemma SameObjects(w: World, r: World)
    requires r == w.(pod := r.pod, state := r.state)
    ensures ConfiguredObjects(r) == ConfiguredObjects(w)
  {
  }

  lemma RemappedLooksSynced(w: World, pod: Pod)
    requires Synced(w) && PodOf(Podless(w)) == Built(pod)
    ensures LooksSynced(w.(pod := Some(pod), state := ReconcilingState))
  {
    BuiltPodAgrees(Podless(w).dev, w.lib, ConfiguredObjects(Podless(w)));
    MappingIsNoField(w, pod);
    SyncedAgrees(w);
  }

  // ----- The exit that does not save loses a record for good -----

  lemma UnmappingPass(w: World, d: Draw)
    requires Inv(w) && Synced(w) && w.dev.spec.intfMapping != map[] && Draws(w.dev, d)
    ensures var w1 := Edited(w, w.dev.spec.(intfMapping := map[]));
            Leads(w1, PassEvent(d, IntfDropped), Unmapped(w, w.pod.value))
  {
    var w1 := Edited(w, w.dev.spec.(intfMapping := map[]));
    NothingMissing(w1, d);
    DroppedMappingPass(w1, d, w1, Unmapped(w, w.pod.value));
  }

  lemma ConflictIsFound(m: World)
    requires m.pod.Some? && m.live == m.snap == Demanded(m) && m.pod.value.labels == LabelsOf(m.dev)
    requires FieldsAgree(m.dev, m.lib, m.pod.value) && ServiceMap(m.dev.spec.services).Err?
    ensures Diagnosis(m, ServicesInvalid, LateVerdict(m))
  {
    NoDifferingField(m);
    assert FieldAgrees(m.dev, m.lib, m.pod.value, Resources);
    LedgerInStep(m);
  }

  lemma RemappedConflict(w: World, services: ServiceSpec)
    requires Synced(w) && ServiceMap(services).Err?
    ensures Remapped(w, w.pod.value, services).pod.Some?
    ensures Diagnosis(Remapped(w, w.pod.value, services), ServicesInvalid,
            LateVerdict(Remapped(w, w.pod.value, services)))
  {
    RelabelledFields(w, w.dev.labels, services);
    RelabelledSameDemand(w, w.dev.labels, services);
    ConflictIsFound(Remapped(w, w.pod.value, services));
  }

  lemma UnsavedServicesPass(w3: World, d: Draw, m: World, r: World)
    requires Draws(w3.dev, d) && CreateMissing(w3, d) == Ready(m) && m.pod.Some?
    requires Diagnosis(m, ServicesInvalid, LateVerdict(m)) && Canonical(w3.live) && Canonical(w3.snap)
    requires r == m.(live := w3.live, snap := w3.snap, state := w3.state)
    ensures Leads(w3, PassEvent(d, ServicesInvalid), r)
  {
    UnsavedServicesRepair(w3, m, r);
    RepairLeads(w3, d, ServicesInvalid, m, r);
  }

  lemma UnsavedServicesRepair(w3: World, m: World, r: World)
    requires Canonical(w3.live) && Canonical(w3.snap)
    requires r == m.(live := w3.live, snap := w3.snap, state := w3.state)
    ensures Repair(w3, m, ServicesInvalid) == r && Canonical(r.live) && Canonical(r.snap)
  {
  }

  lemma UnmappedIsCanonical(w: World)
    requires Synced(w)
    ensures Canonical(Unmapped(w, w.pod.value).live) && Canonical(Unmapped(w, w.pod.value).snap)
  {
  }

  // The mapping's file is back, its record is not, and the mapping is dropped once more.
  function Orphaned(w: World): World {
    Edited(w, w.dev.spec.(intfMapping := map[])).(live := w.live.(intfMappingStatus := Nil), state := ReconcilingState)
  }

  lemma OrphanedLedger(w: World)
    requires Synced(w)
    ensures var r := Orphaned(w); Complete(r) && r.live == Demanded(r) && Canonical(r.live) && Canonical(r.snap)
    ensures w.dev.spec.intfMapping != map[] ==> Orphaned(w).snap != Orphaned(w).live
  {
  }

  lemma OutdatedPodPass(w5: World, d: Draw, r: World)
    requires Complete(w5) && w5.live == Demanded(w5) != w5.snap && Canonical(w5.snap) && Draws(w5.dev, d)
    requires r == w5.(pod := None, state := ReconcilingState)
    ensures Leads(w5, PassEvent(d, PodOutdated), r)
  {
    NothingMissing(w5, d);
    LedgerInStep(w5);
    DemandedIsCanonical(w5);
    RepairLeads(w5, d, PodOutdated, w5, r);
  }

  lemma OrphanedPass(w: World, d: Draw)
    requires Synced(w) && w.dev.spec.intfMapping != map[] && Draws(w.dev, d)
    ensures Leads(Orphaned(w), PassEvent(d, PodOutdated), Orphaned(w).(pod := None))
  {
    OrphanedLedger(w);
    OutdatedPodPass(Orphaned(w), d, Orphaned(w).(pod := None));
  }

  lemma OrphanedCore(w: World)
    requires Inv(w) && Synced(w)
    ensures Core(Orphaned(w).(pod := None, intfMap := None))
  {
  }

  lemma OrphanedPod(w: World)
    requires Inv(w) && Synced(w) && (w.startup.Some? ==> DefaultMode(w.startup.value.configMap).Ok?)
    ensures PodOf(Orphaned(w).(pod := None)).Built?
  {
    OrphanedCore(w);
    assert FieldAgrees(w.dev, w.lib, w.pod.value, Resources);
    var r := Orphaned(w).(pod := None);
    HealthyPod(r.(intfMap := None));
    OrphanNotMounted(r);
  }

  lemma OrphanNotMounted(r: World)
    requires r.dev.spec.intfMapping == map[]
    ensures ConfiguredObjects(r) == ConfiguredObjects(r.(intfMap := None))
  {
  }

  lemma OrphanedRebuilt(w: World, d: Draw)
    requires Inv(w) && Synced(w) && (w.startup.Some? ==> DefaultMode(w.startup.value.configMap).Ok?) && Draws(w.dev, d)
    ensures var r := Orphaned(w).(pod := None);
            && PodOf(r).Built?
            && CreateMissing(r, d) == Ready(r.(pod := Some(PodOf(r).value), snap := r.live))
  {
    var r := Orphaned(w).(pod := None);
    OrphanedPod(w);
    OrphanedLedger(w);
    NoCertMissing(r, d, 0);
    NoFileMissing(r, d);
    ServiceKept(r, PodOf(r), ServiceFor(r.dev));
  }

  lemma OrphanedLooksSynced(w: World, pod: Pod)
    requires Synced(w) && PodOf(Orphaned(w).(pod := None)) == Built(pod)
    ensures LooksSynced(Orphaned(w).(pod := Some(pod), snap := Orphaned(w).live))
  {
    BuiltPodAgrees(Orphaned(w).dev, w.lib, ConfiguredObjects(Orphaned(w).(pod := None)));
    OrphanedLedger(w);
    SyncedAgrees(w);
  }

  lemma OrphanedSucceeds(w: World, d: Draw) returns (r: World)
    requires Inv(w) && Synced(w) && (w.startup.Some? ==> DefaultMode(w.startup.value.configMap).Ok?) && Draws(w.dev, d)
    ensures Leads(Orphaned(w).(pod := None), PassEvent(d, InSync), r)
    ensures r.dev == Orphaned(w).dev && r.intfMap == w.intfMap && r.state == SuccessState
    ensures r.live.intfMappingStatus.Nil?
  {
    var w6 := Orphaned(w).(pod := None);
    OrphanedRebuilt(w, d);
    var m := w6.(pod := Some(PodOf(w6).value), snap := w6.live);
    OrphanedLooksSynced(w, PodOf(w6).value);
    r := m.(state := SuccessState);
    LooksSyncedSucceeds(w6, d, m, r);
  }

  // The world with the mapping's file created and not recorded.
  function Unrecorded(w: World, services: ServiceSpec): World {
    Edited(w, w.dev.spec.(services := services)).(live := w.live.(intfMappingStatus := Nil), state := ReconcilingState)
  }

  lemma ConflictPass(w: World, services: ServiceSpec, d: Draw)
    requires Synced(w) && w.dev.spec.intfMapping != map[] && ValidInterfaces(w.dev.spec.intfMapping)
    requires w.dev.spec.services != map[] && ServiceMap(services).Err? && Draws(w.dev, d)
    ensures Leads(Edited(Unmapped(w, w.pod.value), w.dev.spec.(services := services)), PassEvent(d, ServicesInvalid),
                  Unrecorded(w, services))
  {
    RemappedCreates(w, w.pod.value, services, d);
    RemappedConflict(w, services);
    UnmappedIsCanonical(w);
    UnsavedServicesPass(Edited(Unmapped(w, w.pod.value), w.dev.spec.(services := services)), d,
                        Remapped(w, w.pod.value, services), Unrecorded(w, services));
  }

  // The end of the run: the mapping's file is left over.
  lemma OrphaningRun(w: World, d: Draw) returns (r: World)
    requires Inv(w) && Synced(w) && w.dev.spec.intfMapping != map[]
    requires Draws(w.dev, d) && (w.startup.Some? ==> DefaultMode(w.startup.value.configMap).Ok?)
    ensures RunsTo(Orphaned(w), [PassEvent(d, PodOutdated)] + [PassEvent(d, InSync)], r)
    ensures r.dev == Orphaned(w).dev && r.intfMap == w.intfMap && r.state == SuccessState
    ensures r.live.intfMappingStatus.Nil?
  {
    OrphanedPass(w, d);
    r := OrphanedSucceeds(w, d);
    OneEvent(Orphaned(w).(pod := None), PassEvent(d, InSync), r);
    OneMoreEvent(Orphaned(w), PassEvent(d, PodOutdated), Orphaned(w).(pod := None), [PassEvent(d, InSync)], r);
  }

  // Its middle: the failing pass.
  lemma ConflictRun(w: World, services: ServiceSpec, d: Draw, es: seq<Event>, r: World)
    requires Synced(w) && w.dev.spec.intfMapping != map[] && ValidInterfaces(w.dev.spec.intfMapping)
    requires w.dev.spec.services != map[] && ServiceMap(services).Err? && Draws(w.dev, d)
    requires RunsTo(Orphaned(w), es, r)
    ensures RunsTo(Edited(Unmapped(w, w.pod.value), w.dev.spec.(services := services)),
                   [PassEvent(d, ServicesInvalid)] + ([Edit(w.dev.labels, w.dev.spec.(intfMapping := map[]))] + es), r)
  {
    var edit := Edit(w.dev.labels, w.dev.spec.(intfMapping := map[]));
    ConflictPass(w, services, d);
    EditFirst(Unrecorded(w, services), w.dev.labels, w.dev.spec.(intfMapping := map[]), es, r);
    OneMoreEvent(Edited(Unmapped(w, w.pod.value), w.dev.spec.(services := services)), PassEvent(d, ServicesInvalid),
                 Unrecorded(w, services), [edit] + es, r);
  }

  // Its beginning.
  lemma UnmappingRun(w: World, spec: Spec, d: Draw, es: seq<Event>, r: World)
    requires Inv(w) && Synced(w) && w.dev.spec.intfMapping != map[] && Draws(w.dev, d)
    requires RunsTo(Edited(Unmapped(w, w.pod.value), spec), es, r)
    ensures RunsTo(w, [Edit(w.dev.labels, w.dev.spec.(intfMapping := map[]))]
                      + ([PassEvent(d, IntfDropped)] + ([Edit(w.dev.labels, spec)] + es)), r)
  {
    var edit, w1, w2 := Edit(w.dev.labels, spec), Edited(w, w.dev.spec.(intfMapping := map[])),
                      Unmapped(w, w.pod.value);
    UnmappingPass(w, d);
    EditFirst(w2, w.dev.labels, spec, es, r);
    OneMoreEvent(w1, PassEvent(d, IntfDropped), w2, [edit] + es, r);
    EditFirst(w, w.dev.labels, w.dev.spec.(intfMapping := map[]), [PassEvent(d, IntfDropped)] + ([edit] + es), r);
  }

  // The mapping is dropped, comes back together with conflicting services, and is dropped for good: success
  // is reported with the mapping's file left over and no record of it.
  lemma UnsavedExitOrphans(w: World, services: ServiceSpec, d: Draw) returns (r: World)
    requires Inv(w) && Synced(w) && w.dev.spec.intfMapping != map[] && ValidInterfaces(w.dev.spec.intfMapping)
    requires w.dev.spec.services != map[] && ServiceMap(services).Err?
    requires Draws(w.dev, d) && (w.startup.Some? ==> DefaultMode(w.startup.value.configMap).Ok?)
    ensures var drop := Edit(w.dev.labels, w.dev.spec.(intfMapping := map[]));
            RunsTo(w, [drop, PassEvent(d, IntfDropped), Edit(w.dev.labels, w.dev.spec.(services := services)),
                       PassEvent(d, ServicesInvalid), drop, PassEvent(d, PodOutdated), PassEvent(d, InSync)], r)
    ensures r.state == SuccessState && r.dev.spec.intfMapping == map[]
    ensures r.intfMap.Some? && r.live.intfMappingStatus.Nil?
  {
    var drop := Edit(w.dev.labels, w.dev.spec.(intfMapping := map[]));
    var last := [PassEvent(d, PodOutdated)] + [PassEvent(d, InSync)];
    var middle := [PassEvent(d, ServicesInvalid)] + ([drop] + last);
    var conflicting := w.dev.spec.(services := services);
    r := OrphaningRun(w, d);
    ConflictRun(w, services, d, last, r);
    UnmappingRun(w, conflicting, d, middle, r);
    SevenEvents(drop, PassEvent(d, IntfDropped), Edit(w.dev.labels, conflicting),
                PassEvent(d, ServicesInvalid), drop, PassEvent(d, PodOutdated), PassEvent(d, InSync));
  }

  // ----- A snapshot that is not saved -----

  // The mapping is dropped, and the pod deleted for it.
  function Dismounted(w: World): World
    requires w.pod.Some?
  {
    Unmapped(w, w.pod.value).(pod := None)
  }

  lemma UnmappedIsComplete(w: World)
    requires Synced(w) && w.dev.spec.intfMapping != map[]
    ensures var w2 := Unmapped(w, w.pod.value); Complete(w2) && w2.live == Demanded(w2) != w2.snap && Canonical(w2.snap)
  {
  }

  lemma DismountingPass(w: World, d: Draw)
    requires Synced(w) && w.dev.spec.intfMapping != map[] && Draws(w.dev, d)
    ensures Leads(Unmapped(w, w.pod.value), PassEvent(d, PodOutdated), Dismounted(w))
  {
    UnmappedIsComplete(w);
    OutdatedPodPass(Unmapped(w, w.pod.value), d, Dismounted(w));
  }

  // Services that conflict come along.
  function Conflicting(w: World, services: ServiceSpec): World
    requires w.pod.Some?
  {
    Edited(Dismounted(w), w.dev.spec.(intfMapping := map[], services := services))
  }

  lemma ConflictingCore(w: World, services: ServiceSpec)
    requires Inv(w) && Synced(w)
    ensures Core(Conflicting(w, services))
  {
    var r := Conflicting(w, services);
    forall n | n in r.secrets
      ensures RecordedAs(r.live, n, Recorded(r.live, n)) && r.secrets[n] == CertSecret(Recorded(r.live, n))
    {
      assert RecordedAs(w.live, n, Recorded(w.live, n));
    }
  }

  lemma ConflictingLedger(w: World, services: ServiceSpec)
    requires Synced(w)
    ensures var w4 := Conflicting(w, services); FilesComplete(w4) && w4.live == Demanded(w4)
    ensures w.dev.spec.intfMapping != map[] ==> Conflicting(w, services).snap != Conflicting(w, services).live
  {
  }

  lemma SyncedParses(w: World)
    requires Synced(w)
    ensures Parseable(w.lib, w.dev.spec.resources) && (w.dev.spec.services != map[] ==> w.service.Some?)
  {
    assert FieldAgrees(w.dev, w.lib, w.pod.value, Resources);
  }

  lemma ConflictingIsSettled(w: World, services: ServiceSpec)
    requires Inv(w) && Synced(w) && w.dev.spec.intfMapping != map[] && w.dev.spec.services != map[]
    requires ServiceMap(services).Err? && !BadPermissions(w)
    ensures var w4 := Conflicting(w, services); Settled(w4) && w4.snap != w4.live
  {
    ConflictingCore(w, services);
    ConflictingLedger(w, services);
    SyncedParses(w);
  }

  // The services are no part of the pod.
  lemma ConflictingPod(w: World, services: ServiceSpec)
    requires w.pod.Some?
    ensures PodOf(Conflicting(w, services)) == PodOf(Podless(w))
  {
    ConflictingObjects(w, services);
    SamePodFor(Conflicting(w, services).dev, Podless(w).dev, w.lib, ConfiguredObjects(Podless(w)));
  }

  lemma ConflictingObjects(w: World, services: ServiceSpec)
    requires w.pod.Some?
    ensures ConfiguredObjects(Conflicting(w, services)) == ConfiguredObjects(Podless(w))
  {
  }

  lemma SamePodFor(a: Device, b: Device, lib: QuantityLibrary, objects: Objects)
    requires a == b.(spec := b.spec.(services := a.spec.services))
    ensures PodFor(a, lib, objects) == PodFor(b, lib, objects)
  {
  }

  lemma StoppingPass(w: World, services: ServiceSpec, d: Draw) returns (pod: Pod)
    requires Inv(w) && Synced(w) && w.dev.spec.intfMapping != map[] && w.dev.spec.services != map[]
    requires ServiceMap(services).Err? && !BadPermissions(w) && Draws(w.dev, d)
    ensures PodOf(Podless(w)) == Built(pod)
    ensures Leads(Conflicting(w, services), PassEvent(d, ServicesInvalid), Conflicting(w, services).(pod := Some(pod)))
  {
    var w4 := Conflicting(w, services);
    ConflictingIsSettled(w, services);
    ConflictingPod(w, services);
    SettledPod(w4);
    pod := PodOf(w4).value;
    NewPodLeads(w4, d, w4.(pod := Some(pod)));
  }

  // The end of the run: the old spec is back.
  lemma RestoringRun(w: World, services: ServiceSpec, pod: Pod, d: Draw)
    requires Synced(w) && w.dev.spec.intfMapping != map[] && ValidInterfaces(w.dev.spec.intfMapping) && Draws(w.dev, d)
    requires PodOf(Podless(w)) == Built(pod)
    ensures RunsTo(Conflicting(w, services).(pod := Some(pod)), [Edit(w.dev.labels, w.dev.spec), PassEvent(d, InSync)],
                   w.(pod := Some(pod), state := SuccessState))
  {
    RemappedPass(w, pod, d);
    OneEvent(Edited(Unmapped(w, pod), w.dev.spec), PassEvent(d, InSync), w.(pod := Some(pod), state := SuccessState));
    EditFirst(Conflicting(w, services).(pod := Some(pod)), w.dev.labels, w.dev.spec, [PassEvent(d, InSync)],
              w.(pod := Some(pod), state := SuccessState));
    TwoEvents(Edit(w.dev.labels, w.dev.spec), PassEvent(d, InSync));
  }

  // Its middle: the pod is deleted, and built again by a pass that stops unsaved.
  lemma StoppedRun(w: World, services: ServiceSpec, pod: Pod, d: Draw, es: seq<Event>, r: World)
    requires Synced(w) && w.dev.spec.intfMapping != map[] && Draws(w.dev, d)
    requires Leads(Conflicting(w, services), PassEvent(d, ServicesInvalid), Conflicting(w, services).(pod := Some(pod)))
    requires RunsTo(Conflicting(w, services).(pod := Some(pod)), es, r)
    ensures RunsTo(Dismounted(w), [Edit(w.dev.labels, w.dev.spec.(intfMapping := map[], services := services))]
                                  + ([PassEvent(d, ServicesInvalid)] + es), r)
  {
    OneMoreEvent(Conflicting(w, services), PassEvent(d, ServicesInvalid), Conflicting(w, services).(pod := Some(pod)),
                 es, r);
    EditFirst(Dismounted(w), w.dev.labels, w.dev.spec.(intfMapping := map[], services := services),
              [PassEvent(d, ServicesInvalid)] + es, r);
  }

  // Its beginning.
  lemma DismountingRun(w: World, d: Draw, es: seq<Event>, r: World)
    requires Inv(w) && Synced(w) && w.dev.spec.intfMapping != map[] && Draws(w.dev, d)
    requires RunsTo(Dismounted(w), es, r)
    ensures RunsTo(w, [Edit(w.dev.labels, w.dev.spec.(intfMapping := map[]))]
                      + ([PassEvent(d, IntfDropped)] + ([PassEvent(d, PodOutdated)] + es)), r)
  {
    var w1, w2 := Edited(w, w.dev.spec.(intfMapping := map[])), Unmapped(w, w.pod.value);
    DismountingPass(w, d);
    OneMoreEvent(w2, PassEvent(d, PodOutdated), Dismounted(w), es, r);
    UnmappingPass(w, d);
    OneMoreEvent(w1, PassEvent(d, IntfDropped), w2, [PassEvent(d, PodOutdated)] + es, r);
    EditFirst(w, w.dev.labels, w.dev.spec.(intfMapping := map[]),
              [PassEvent(d, IntfDropped)] + ([PassEvent(d, PodOutdated)] + es), r);
  }

  lemma SevenEventsOfStop(a: Event, b: Event, c: Event, d: Event, e: Event, f: Event, g: Event)
    ensures [a] + ([b] + ([c] + ([d] + ([e] + [f, g])))) == [a, b, c, d, e, f, g]
  {
  }

  // Nothing gets lost, and every guard holds at the pass that creates the pod: nothing on record is dropped,
  // and everything that pass makes is on record. But it stops at conflicting services, so the snapshot on
  // record is an older one. Once the first spec is back that one fits, and success is reported for a pod
  // without the mapping's mount.
  lemma StoppedPodMissesMount(w: World, services: ServiceSpec, d: Draw) returns (r: World)
    requires Inv(w) && Synced(w) && w.dev.spec.intfMapping != map[] && ValidInterfaces(w.dev.spec.intfMapping)
    requires w.dev.spec.services != map[] && ServiceMap(services).Err? && !BadPermissions(w) && Draws(w.dev, d)
    ensures var dropped := w.dev.spec.(intfMapping := map[]);
            RunsTo(w, [Edit(w.dev.labels, dropped), PassEvent(d, IntfDropped), PassEvent(d, PodOutdated),
                       Edit(w.dev.labels, dropped.(services := services)), PassEvent(d, ServicesInvalid),
                       Edit(w.dev.labels, w.dev.spec), PassEvent(d, InSync)], r)
    ensures BootGuard(Conflicting(w, services)) && ScriptGuard(Conflicting(w, services))
    ensures UnsavedGuard(Conflicting(w, services), d)
    ensures r.dev == w.dev && r.state == SuccessState && Synced(r)
    ensures r.pod.Some? && !MountsAre(r.pod.value, ConfiguredObjects(r))
  {
    ConflictingGuards(w, services, d);
    var pod := StoppingPass(w, services, d);
    r := w.(pod := Some(pod), state := SuccessState);
    MissingMount(w, pod);
    SameObjects(w, r);
    RemappedIsSynced(w, pod, r);
    WholeStoppedRun(w, services, pod, d);
  }

  lemma ConflictingGuards(w: World, services: ServiceSpec, d: Draw)
    requires Inv(w) && Synced(w) && Draws(w.dev, d)
    ensures BootGuard(Conflicting(w, services)) && ScriptGuard(Conflicting(w, services))
    ensures UnsavedGuard(Conflicting(w, services), d)
  {
    LedgerInStep(Conflicting(w, services));
  }

  lemma WholeStoppedRun(w: World, services: ServiceSpec, pod: Pod, d: Draw)
    requires Inv(w) && Synced(w) && w.dev.spec.intfMapping != map[] && ValidInterfaces(w.dev.spec.intfMapping)
    requires Draws(w.dev, d) && PodOf(Podless(w)) == Built(pod)
    requires Leads(Conflicting(w, services), PassEvent(d, ServicesInvalid), Conflicting(w, services).(pod := Some(pod)))
    ensures var dropped := w.dev.spec.(intfMapping := map[]);
            RunsTo(w, [Edit(w.dev.labels, dropped), PassEvent(d, IntfDropped), PassEvent(d, PodOutdated),
                       Edit(w.dev.labels, dropped.(services := services)), PassEvent(d, ServicesInvalid),
                       Edit(w.dev.labels, w.dev.spec), PassEvent(d, InSync)],
                   w.(pod := Some(pod), state := SuccessState))
  {
    var r := w.(pod := Some(pod), state := SuccessState);
    var dropped := w.dev.spec.(intfMapping := map[]);
    var back := [Edit(w.dev.labels, w.dev.spec), PassEvent(d, InSync)];
    RestoringRun(w, services, pod, d);
    StoppedRun(w, services, pod, d, back, r);
    DismountingRun(w, d,
                   [Edit(w.dev.labels, dropped.(services := services))] + ([PassEvent(d, ServicesInvalid)] + back), r);
    SevenEventsOfStop(Edit(w.dev.labels, dropped), PassEvent(d, IntfDropped), PassEvent(d, PodOutdated),
                      Edit(w.dev.labels, dropped.(services := services)), PassEvent(d, ServicesInvalid),
                      Edit(w.dev.labels, w.dev.spec), PassEvent(d, InSync));
  }

  // And if the conflicting spec stays, the pod is restarted without end, although nobody interferes.
  lemma ConflictRestartsForever(w: World, services: ServiceSpec, es: seq<Event>)
    requires Inv(w) && Synced(w) && w.dev.spec.intfMapping != map[] && w.dev.spec.services != map[]
    requires ServiceMap(services).Err? && !BadPermissions(w)
    requires Run(Conflicting(w, services), es) && OnlyPasses(es)
    ensures Restarts(es) == |es| / 2
  {
    ConflictingIsSettled(w, services);
    OutdatedRestartsForever(Conflicting(w, services), es);
  }

  // ----- Leftovers stay -----

  // A file without a record, while no mapping is configured.
  ghost predicate OrphanedMapping(w: World) {
    w.dev.spec.intfMapping == map[] && w.live.intfMappingStatus.Nil?
  }

  lemma CreationLeavesOrphan(w: World, d: Draw)
    requires Draws(w.dev, d) && OrphanedMapping(w)
    ensures var m := CreateMissing(w, d).w; OrphanedMapping(m) && m.intfMap == w.intfMap && m.dev == w.dev
  {
    EnsureCertsKeepsDevice(w, d, 0);
    var made := EnsureCertsMakes(w, d, 0);
    var m0 := EnsureCerts(w, d, 0).w;
    CreationAfterObjects(w, d);
    FilesLeaveOrphan(m0, d);
    var m1 := EnsureObjects(w, d).w;
    WorkloadsKeepFiles(m1, PodOf(m1), ServiceFor(m1.dev));
  }

  lemma FilesLeaveOrphan(m0: World, d: Draw)
    requires Draws(m0.dev, d) && OrphanedMapping(m0)
    ensures var m := EnsureFiles(m0, d).w; OrphanedMapping(m) && m.intfMap == m0.intfMap && m.dev == m0.dev
  {
  }

  lemma RepairLeavesOrphan(w: World, m: World, v: Verdict)
    requires m.pod.Some? && Diagnosis(m, v, LateVerdict(m)) && OrphanedMapping(m) && OrphanedMapping(w)
    ensures var r := Repair(w, m, v); OrphanedMapping(r) && r.intfMap == m.intfMap
  {
    LateIsLate(m);
    NoMappingVerdict(m, v, LateVerdict(m));
    OtherRepairsLeaveOrphan(w, m, v);
  }

  lemma NoMappingVerdict(m: World, v: Verdict, late: Verdict)
    requires m.pod.Some? && Diagnosis(m, v, late) && IsLate(late) && OrphanedMapping(m)
    ensures !v.IntfDiffers? && !v.IntfDropped?
  {
  }

  lemma OtherRepairsLeaveOrphan(w: World, m: World, v: Verdict)
    requires !v.IntfDiffers? && !v.IntfDropped? && OrphanedMapping(m) && OrphanedMapping(w)
    ensures var r := Repair(w, m, v); OrphanedMapping(r) && r.intfMap == m.intfMap
  {
  }

  // No pass, whatever happens in it, removes such a file.
  lemma PassLeavesOrphan(w: World, d: Draw, v: Verdict)
    requires Allowed(w, d, v) && OrphanedMapping(w)
    ensures OrphanedMapping(Pass(w, d, v)) && Pass(w, d, v).intfMap == w.intfMap
  {
    CreationLeavesOrphan(w, d);
    var m := CreateMissing(w, d).w;
    if CreateMissing(w, d).Ready? {
      RepairLeavesOrphan(w, m, v);
    }
    SavingLeavesOrphan(RawPass(w, d, v));
  }

  lemma SavingLeavesOrphan(m: World)
    requires OrphanedMapping(m)
    ensures OrphanedMapping(Saved(m)) && Saved(m).intfMap == m.intfMap
  {
  }

  predicate LeavesMapping(e: Event) { !e.LoseIntfMap? && (e.Edit? ==> e.spec.intfMapping == map[]) }

  lemma EventLeavesOrphan(w: World, e: Event)
    requires OrphanedMapping(w) && Enabled(w, e) && LeavesMapping(e)
    ensures OrphanedMapping(After(w, e)) && After(w, e).intfMap == w.intfMap
  {
    if e.PassEvent? {
      PassLeavesOrphan(w, e.d, e.v);
    }
  }

  // It stays, over any run of passes and other events, until somebody else deletes it or a mapping is
  // configured again.
  lemma {:induction false} OrphanStays(w: World, es: seq<Event>)
    requires OrphanedMapping(w) && Run(w, es) && forall e :: e in es ==> LeavesMapping(e)
    ensures OrphanedMapping(End(w, es)) && End(w, es).intfMap == w.intfMap
    decreases es
  {
    if es == [] {
    } else {
      EventLeavesOrphan(w, es[0]);
      OrphanStays(After(w, es[0]), es[1..]);
    }
  }

  // ----- A startup config can make a pass panic -----

  function Unreadable(): Startup {
    Startup(ConfigMap(map["permissions" := "rwx"], map[], map[]), "1")
  }

  lemma UnreadablePermissions()
    ensures DefaultMode(Unreadable().configMap).Err?
  {
    assert "rwx"[0] == 'r';
  }

  lemma PanicCreates(w: World, d: Draw) returns (m: World)
    requires Core(w) && Draws(w.dev, d) && CreateMissing(w, d).Crashed?
    ensures CreateMissing(w, d) == Crashed(m)
    ensures FreshIntf(w) ==> m.intfMap.Some?
  {
    m := CreateMissing(w, d).w;
    CrashesExactly(w, d);
    CreationAfterObjects(w, d);
    var m0 := ObjectStages(w, d);
    var m1 := EnsureObjects(w, d).w;
    WorkloadsKeepFiles(m1, PodOf(m1), ServiceFor(m1.dev));
  }

  lemma PanicPass(w: World, d: Draw, m: World)
    requires Draws(w.dev, d) && CreateMissing(w, d) == Crashed(m) && Canonical(w.live) && Canonical(w.snap)
    ensures Leads(w, PassEvent(d, NotReached), m.(live := w.live, snap := w.snap, state := w.state))
    ensures OutcomeOf(w, d, NotReached) == Panic
  {
    SavedIsIdentity(m.(live := w.live, snap := w.snap, state := w.state));
  }

  lemma FreshPanics(w: World, w1: World, d: Draw)
    requires Fresh(w) && Healthy(w, d) && Draws(w.dev, d) && w1 == w.(startup := Some(Unreadable()))
    ensures Inv(w1) && CreateMissing(w1, d).Crashed?
  {
    FreshInv(w1);
    UnreadablePermissions();
    EndsExactly(w1, d);
  }

  lemma NoRecordNoInv(r: World)
    requires r.intfMap.Some? && r.live.intfMappingStatus.Nil?
    ensures !Inv(r)
  {
  }

  // A fresh device with a mapping meets such a startup config: the pass panics, and leaves the mapping's
  // file without a record.
  lemma PanicLosesRecord(w: World, d: Draw) returns (r: World)
    requires Fresh(w) && Healthy(w, d) && Draws(w.dev, d) && w.dev.spec.intfMapping != map[]
    ensures RunsTo(w, [PutStartup(Unreadable()), PassEvent(d, NotReached)], r)
    ensures OutcomeOf(w.(startup := Some(Unreadable())), d, NotReached) == Panic
    ensures r.intfMap.Some? && r.live.intfMappingStatus.Nil? && !Inv(r)
  {
    var w1 := w.(startup := Some(Unreadable()));
    FreshPanics(w, w1, d);
    var m := PanicCreates(w1, d);
    r := m.(live := w1.live, snap := w1.snap, state := w1.state);
    PanicPass(w1, d, m);
    NoRecordNoInv(r);
    OneEvent(w1, PassEvent(d, NotReached), r);
    OneMoreEvent(w, PutStartup(Unreadable()), w1, [PassEvent(d, NotReached)], r);
    TwoEvents(PutStartup(Unreadable()), PassEvent(d, NotReached));
  }
}

// What the creating half of a pass does, stated once for everything that follows.
module CreationFacts {
  import opened Basics
  import opened Api
  import opened Names
  import opened Files
  import opened Pods
  import opened Reconcile

  // ----- Certificates by secret name -----

  lemma {:induction false} CertMapFromAt(device: string, certs: seq<CertConfig>, i: nat, n: string)
    requires i <= |certs|
    ensures n in CertMapFrom(device, certs, i) <==> exists j :: i <= j < |certs| && n == SecretName(device, j)
    ensures forall j :: i <= j < |certs| && n == SecretName(device, j) ==> CertMapFrom(device, certs, i)[n] == certs[j]
    decreases |certs| - i
  {
    if i == |certs| {
    } else {
      CertMapFromAt(device, certs, i + 1, n);
      forall j | i <= j < |certs| && n == SecretName(device, j) && n == SecretName(device, i) ensures j == i {
        SecretNameInjective(device, i, device, j);
      }
      assert n == SecretName(device, i) ==> n in CertMapFrom(device, certs, i);
    }
  }

  // The recorded map determines the list of certificates.
  lemma CertMapInjective(device: string, a: seq<CertConfig>, b: seq<CertConfig>)
    requires CertMap(device, a) == CertMap(device, b)
    ensures a == b
  {
    ShorterCertMap(device, a, b);
    ShorterCertMap(device, b, a);
    forall j | 0 <= j < |a| ensures a[j] == b[j] {
      CertMapFromAt(device, a, 0, SecretName(device, j));
      CertMapFromAt(device, b, 0, SecretName(device, j));
    }
  }

  lemma ShorterCertMap(device: string, a: seq<CertConfig>, b: seq<CertConfig>)
    requires CertMap(device, a) == CertMap(device, b)
    ensures |b| <= |a|
  {
    if |a| < |b| {
      var n := SecretName(device, |a|);
      CertMapFromAt(device, b, 0, n);
      CertMapFromAt(device, a, 0, n);
      var j :| 0 <= j < |a| && n == SecretName(device, j);
      SecretNameInjective(device, |a|, device, j);
    }
  }

  lemma CertMapEmpty(device: string, certs: seq<CertConfig>)
    ensures CertMap(device, certs) == map[] <==> certs == []
  {
    if certs != [] {
      CertMapFromAt(device, certs, 0, SecretName(device, 0));
    }
  }

  // ----- Certificate secrets -----

  // `m` is `w` with a secret made and recorded for every name of `wanted` that had none.
  ghost predicate CertsMade(w: World, m: World, wanted: map<string, CertConfig>) {
    && m == w.(secrets := m.secrets,
               live := w.live.(selfSignedCertStatus := m.live.selfSignedCertStatus, rcEosStale := m.live.rcEosStale))
    && m.secrets.Keys == w.secrets.Keys + wanted.Keys
    && (forall n :: n in w.secrets ==> m.secrets[n] == w.secrets[n])
    && (forall n :: n in wanted && n !in w.secrets ==> MadeFrom(m, n, wanted[n]))
    && (forall n :: n in w.secrets || n !in wanted ==> SameRecord(w.live, m.live, n))
    && (m.live.rcEosStale <==> w.live.rcEosStale || !(wanted.Keys <= w.secrets.Keys))
    && (wanted.Keys <= w.secrets.Keys ==> m.live.selfSignedCertStatus == w.live.selfSignedCertStatus)
    && (m.live.selfSignedCertStatus.Of? && w.live.selfSignedCertStatus.Nil? ==>
        Entries(m.live.selfSignedCertStatus) != map[])
  }

  ghost predicate MadeFrom(m: World, n: string, c: CertConfig) {
    n in m.secrets && m.secrets[n] == CertSecret(c) && RecordedAs(m.live, n, c)
  }

  ghost predicate RecordedAs(l: Ledger, n: string, c: CertConfig) {
    n in Entries(l.selfSignedCertStatus) && Entries(l.selfSignedCertStatus)[n] == c
  }

  ghost predicate SameRecord(a: Ledger, b: Ledger, n: string) {
    Lookup(Entries(a.selfSignedCertStatus), n) == Lookup(Entries(b.selfSignedCertStatus), n)
  }

  // `made` is everything wanted, or less when a key generation failed.
  lemma {:induction false} EnsureCertsMakes(w: World, d: Draw, i: nat) returns (made: map<string, CertConfig>)
    requires i <= |w.dev.spec.selfSignedCerts|
    ensures CertsMade(w, EnsureCerts(w, d, i).w, made)
    ensures EnsureCerts(w, d, i).Ready? ==> made == CertMapFrom(w.dev.name, w.dev.spec.selfSignedCerts, i)
    decreases |w.dev.spec.selfSignedCerts| - i
  {
    var certs := w.dev.spec.selfSignedCerts;
    made := map[];
    if i == |certs| {
    } else {
      var name := SecretName(w.dev.name, i);
      if name in w.secrets {
        var later := EnsureCertsMakes(w, d, i + 1);
        CertKept(w, EnsureCerts(w, d, i).w, i, later);
        made := later[name := certs[i]];
      } else if i !in d.badKeys {
        var later := EnsureCertsMakes(AddCert(w, i), d, i + 1);
        CertMadeFirst(w, EnsureCerts(w, d, i).w, i, later);
        made := later[name := certs[i]];
      }
    }
  }

  lemma CertKept(w: World, m: World, i: nat, later: map<string, CertConfig>)
    requires i < |w.dev.spec.selfSignedCerts|
    requires SecretName(w.dev.name, i) in w.secrets && CertsMade(w, m, later)
    ensures CertsMade(w, m, later[SecretName(w.dev.name, i) := w.dev.spec.selfSignedCerts[i]])
  {
    var name := SecretName(w.dev.name, i);
    var wanted := later[name := w.dev.spec.selfSignedCerts[i]];
    forall n | n in wanted && n !in w.secrets ensures MadeFrom(m, n, wanted[n]) {
      assert n != name;
    }
    assert m.secrets.Keys == w.secrets.Keys + wanted.Keys;
  }

  lemma CertMadeFirst(w: World, m: World, i: nat, later: map<string, CertConfig>)
    requires i < |w.dev.spec.selfSignedCerts|
    requires SecretName(w.dev.name, i) !in w.secrets
    requires CertsMade(AddCert(w, i), m, later)
    ensures CertsMade(w, m, later[SecretName(w.dev.name, i) := w.dev.spec.selfSignedCerts[i]])
  {
    var name, c := SecretName(w.dev.name, i), w.dev.spec.selfSignedCerts[i];
    var w1 := AddCert(w, i);
    var wanted := later[name := c];
    assert RecordedAs(w1.live, name, c);
    assert SameRecord(w1.live, m.live, name);
    assert MadeFrom(m, name, c);
    forall n | n in wanted && n !in w.secrets ensures MadeFrom(m, n, wanted[n]) {
      if n != name {
        assert n in later && n !in w1.secrets;
      }
    }
    forall n | n in w.secrets || n !in wanted ensures SameRecord(w.live, m.live, n) {
      assert n != name;
      assert SameRecord(w1.live, m.live, n);
    }
    assert m.secrets.Keys == w.secrets.Keys + wanted.Keys;
    assert name in wanted.Keys && name !in w.secrets.Keys;
  }

  // ----- Everything created -----

  ghost predicate FreshScript(w: World) { w.dev.spec.selfSignedCerts != [] && w.rcEos.None? }

  ghost predicate FreshIntf(w: World) { w.dev.spec.intfMapping != map[] && w.intfMap.None? }

  ghost predicate FreshToggles(w: World) { w.dev.spec.toggleOverrides != map[] && w.toggles.None? }

  // The files after a creation that went through, and their part of the ledger.
  ghost predicate FilesMade(w: World, d: Draw, m: World)
    requires Draws(w.dev, d)
  {
    var spec := w.dev.spec;
    && m == w.(rcEos := m.rcEos, intfMap := m.intfMap, toggles := m.toggles, live := m.live)
    && m.live.selfSignedCertStatus == w.live.selfSignedCertStatus
    && m.rcEos == (if FreshScript(w) then Some(RcEosObject(spec.selfSignedCerts)) else w.rcEos)
    && m.live.rcEosStale == (!FreshScript(w) && w.live.rcEosStale)
    && (FreshIntf(w) ==> ValidInterfaces(spec.intfMapping))
    && m.intfMap == (if FreshIntf(w) then Some(IntfObject(spec.intfMapping)) else w.intfMap)
    && m.live.intfMappingStatus == (if FreshIntf(w) then Of(spec.intfMapping) else w.live.intfMappingStatus)
    && m.toggles == (if FreshToggles(w) then Some(ToggleObject(d.toggleOrder, spec.toggleOverrides)) else w.toggles)
    && m.live.toggleOverridesStatus
        == (if FreshToggles(w) then Of(spec.toggleOverrides) else w.live.toggleOverridesStatus)
    && m.live.startupConfigResourceVersion
         == (if w.startup.Some? then Some(w.startup.value.resourceVersion) else w.live.startupConfigResourceVersion)
  }

  lemma EnsureFilesMakes(w: World, d: Draw)
    requires Draws(w.dev, d) && EnsureFiles(w, d).Ready?
    ensures FilesMade(w, d, EnsureFiles(w, d).w)
  {
  }

  // Pod and service, built as given when there was none.
  ghost predicate WorkloadsMade(w: World, m: World, pod: Built<Pod>, service: Result<Service>) {
    && m == w.(pod := m.pod, service := m.service, snap := m.snap)
    && m.pod.Some?
    && (if w.pod.Some? then m.pod == w.pod && m.snap == w.snap else pod == Built(m.pod.value) && m.snap == w.live)
    && (if w.dev.spec.services == map[] || w.service.Some? then m.service == w.service
        else m.service.Some? && service == Ok(m.service.value))
  }

  lemma EnsureWorkloadsMakes(w: World, pod: Built<Pod>, service: Result<Service>)
    requires EnsureWorkloads(w, pod, service).Ready?
    ensures WorkloadsMade(w, EnsureWorkloads(w, pod, service).w, pod, service)
  {
  }

  // Secrets and files of a creation that got that far.
  lemma ObjectStages(w: World, d: Draw) returns (m0: World)
    requires Draws(w.dev, d) && EnsureObjects(w, d).Ready?
    ensures CertsMade(w, m0, Wanted(w)) && m0.dev == w.dev
    ensures FilesMade(m0, d, EnsureObjects(w, d).w)
  {
    EnsureCertsKeepsDevice(w, d, 0);
    var made := EnsureCertsMakes(w, d, 0);
    m0 := EnsureCerts(w, d, 0).w;
    EnsureFilesMakes(m0, d);
  }

  ghost function PodOf(w: World): Built<Pod> { PodFor(w.dev, w.lib, ConfiguredObjects(w)) }

  // The stages of a creation that went through.
  lemma CreationStages(w: World, d: Draw) returns (m0: World, m1: World)
    requires Draws(w.dev, d) && CreateMissing(w, d).Ready?
    ensures CertsMade(w, m0, Wanted(w)) && m0.dev == w.dev
    ensures FilesMade(m0, d, m1)
    ensures WorkloadsMade(m1, CreateMissing(w, d).w, PodOf(m1), ServiceFor(m1.dev))
  {
    m0 := ObjectStages(w, d);
    m1 := EnsureObjects(w, d).w;
    EnsureWorkloadsMakes(m1, PodOf(m1), ServiceFor(m1.dev));
  }
}

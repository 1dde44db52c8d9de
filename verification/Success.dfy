// Exactly when a reported success is the truth, in any run at all.
module Success {
  import opened Basics
  import opened Api
  import opened Files
  import opened Services
  import opened Pods
  import opened Reconcile
  import opened CreationFacts
  import opened Soundness
  import opened Runs
  import opened Exits

  // ----- What has to be right before the pass -----

  // Every existing secret is wanted, recorded and built from its configuration.
  ghost predicate KeptCerts(w: World) {
    forall n :: n in w.secrets ==>
      && n in Wanted(w) && RecordedAs(w.live, n, Wanted(w)[n]) && w.secrets[n] == CertSecret(Wanted(w)[n])
  }

  predicate KeptScript(w: World) {
    w.rcEos.Some? ==>
      w.dev.spec.selfSignedCerts != [] && w.rcEos.value == RcEosObject(w.dev.spec.selfSignedCerts)
  }

  predicate KeptIntf(w: World) {
    var mapping := w.dev.spec.intfMapping;
    w.intfMap.Some? ==>
      mapping != map[] && w.live.intfMappingStatus == Of(mapping) && w.intfMap.value == IntfObject(mapping)
  }

  ghost predicate KeptToggles(w: World) {
    var overrides := w.dev.spec.toggleOverrides;
    w.toggles.Some? ==>
      && overrides != map[] && w.live.toggleOverridesStatus == Of(overrides)
      && IsToggleObject(w.toggles.value, overrides)
  }

  // What exists is configured, on record, and built from the spec.
  ghost predicate KeptRight(w: World) { KeptCerts(w) && KeptScript(w) && KeptIntf(w) && KeptToggles(w) }

  // ----- The parts of a synced world -----

  ghost predicate CertsSynced(m: World) {
    && Entries(m.live.selfSignedCertStatus) == Wanted(m)
    && m.secrets == map n | n in Wanted(m) :: CertSecret(Wanted(m)[n])
  }

  predicate ScriptSynced(m: World) {
    var certs := m.dev.spec.selfSignedCerts;
    m.rcEos == if certs == [] then None else Some(RcEosObject(certs))
  }

  predicate IntfSynced(m: World) {
    var mapping := m.dev.spec.intfMapping;
    && m.live.intfMappingStatus == NilIfEmpty(mapping)
    && m.intfMap == if mapping == map[] then None else Some(IntfObject(mapping))
  }

  ghost predicate TogglesSynced(m: World) {
    var overrides := m.dev.spec.toggleOverrides;
    && m.live.toggleOverridesStatus == NilIfEmpty(overrides)
    && (if overrides == map[] then m.toggles.None? else m.toggles.Some? && IsToggleObject(m.toggles.value, overrides))
  }

  // What the comparisons have made sure of.
  ghost predicate Compared(m: World) {
    && CertsInStep(m) && m.live == m.snap && LedgerVerdict(m.dev.spec, m.live, m.startup).InSync?
    && m.pod.Some? && m.pod.value.labels == LabelsOf(m.dev) && FieldsAgree(m.dev, m.lib, m.pod.value)
    && ServiceAgrees(m)
  }

  lemma InSyncMeans(m: World)
    requires m.pod.Some? && Diagnosis(m, InSync, LateVerdict(m))
    ensures Compared(m)
  {
    LateVerdictMeans(m);
    InSyncVerdict(m, LateVerdict(m));
    InSyncChain(m);
  }

  lemma InSyncChain(m: World)
    requires m.pod.Some? && Diagnosis(m, InSync, InSync)
    ensures CertsInStep(m) && m.live == m.snap && LedgerVerdict(m.dev.spec, m.live, m.startup).InSync?
    ensures m.pod.value.labels == LabelsOf(m.dev)
  {
  }

  lemma SyncedByParts(m: World)
    requires Compared(m) && Canonical(m.live) && (m.dev.spec.services != map[] ==> m.service.Some?)
    requires m.startup.Some? ==> m.live.startupConfigResourceVersion == Some(m.startup.value.resourceVersion)
    ensures Synced(m) <==> CertsSynced(m) && ScriptSynced(m) && IntfSynced(m) && TogglesSynced(m)
  {
    if CertsSynced(m) && ScriptSynced(m) && IntfSynced(m) && TogglesSynced(m) {
      InStepLedger(m);
    }
    if Synced(m) {
      assert Entries(m.live.selfSignedCertStatus) == Wanted(m);
    }
  }

  // ----- Each part, before and after the creation -----

  lemma CertsExactly(w: World, m: World)
    requires CertsMade(w, m, Wanted(w)) && m.dev == w.dev && CertsInStep(m)
    ensures CertsSynced(m) <==> KeptCerts(w)
  {
    forall n | n in Wanted(w) && n !in w.secrets ensures MadeFrom(m, n, Wanted(w)[n]) {
    }
    forall n | n in w.secrets || n !in Wanted(w) ensures SameRecord(w.live, m.live, n) {
    }
    if KeptCerts(w) {
      KeptCertsSynced(w, m);
    }
  }

  lemma KeptCertsSynced(w: World, m: World)
    requires CertsMade(w, m, Wanted(w)) && m.dev == w.dev && CertsInStep(m) && KeptCerts(w)
    ensures CertsSynced(m)
  {
    var entries := Entries(m.live.selfSignedCertStatus);
    forall n | n in Wanted(w)
      ensures n in entries && entries[n] == Wanted(w)[n] && n in m.secrets && m.secrets[n] == CertSecret(Wanted(w)[n])
    {
      if n in w.secrets {
        assert SameRecord(w.live, m.live, n);
      } else {
        assert MadeFrom(m, n, Wanted(w)[n]);
      }
    }
    forall n | n in entries ensures n in Wanted(w) {
      assert n !in DroppedCerts(m);
    }
  }

  lemma FilesExactly(w: World, m0: World, d: Draw, m: World)
    requires CertsMade(w, m0, Wanted(w)) && m0.dev == w.dev && Draws(m0.dev, d) && FilesMade(m0, d, m)
    requires LedgerVerdict(m.dev.spec, m.live, m.startup).InSync?
    ensures ScriptSynced(m) <==> KeptScript(w)
    ensures IntfSynced(m) <==> KeptIntf(w)
  {
  }

  lemma TogglesExactly(w: World, m0: World, d: Draw, m: World)
    requires CertsMade(w, m0, Wanted(w)) && m0.dev == w.dev && Draws(m0.dev, d) && FilesMade(m0, d, m)
    requires LedgerVerdict(m.dev.spec, m.live, m.startup).InSync?
    ensures TogglesSynced(m) <==> KeptToggles(w)
  {
    if FreshToggles(m0) {
      assert TogglesInOrder(m.toggles.value, d.toggleOrder, w.dev.spec.toggleOverrides);
    }
  }

  // The four parts ignore pod and service.
  lemma PartsIgnoreWorkloads(m1: World, m: World)
    requires m == m1.(pod := m.pod, service := m.service, snap := m.snap)
    ensures CertsSynced(m) <==> CertsSynced(m1)
    ensures ScriptSynced(m) <==> ScriptSynced(m1)
    ensures IntfSynced(m) <==> IntfSynced(m1)
    ensures TogglesSynced(m) <==> TogglesSynced(m1)
  {
  }

  lemma CertsIgnoreFiles(m0: World, d: Draw, m1: World)
    requires Draws(m0.dev, d) && FilesMade(m0, d, m1)
    ensures CertsSynced(m1) <==> CertsSynced(m0)
    ensures CertsInStep(m1) <==> CertsInStep(m0)
  {
    SameCertsSameStep(m0, m1);
  }

  lemma PartsExactly(w: World, m0: World, d: Draw, m1: World, m: World)
    requires CertsMade(w, m0, Wanted(w)) && m0.dev == w.dev && Draws(m0.dev, d) && FilesMade(m0, d, m1)
    requires m == m1.(pod := m.pod, service := m.service, snap := m.snap)
    requires CertsInStep(m) && LedgerVerdict(m.dev.spec, m.live, m.startup).InSync?
    ensures CertsSynced(m) && ScriptSynced(m) && IntfSynced(m) && TogglesSynced(m) <==> KeptRight(w)
  {
    SameCertsSameStep(m1, m);
    CertsIgnoreFiles(m0, d, m1);
    CertsExactly(w, m0);
    FilesExactly(w, m0, d, m1);
    TogglesExactly(w, m0, d, m1);
    PartsIgnoreWorkloads(m1, m);
  }

  // ----- One pass -----

  lemma CreationComplete(w: World, d: Draw) returns (m0: World, m1: World)
    requires Draws(w.dev, d) && CreateMissing(w, d).Ready?
    ensures CertsMade(w, m0, Wanted(w)) && m0.dev == w.dev && FilesMade(m0, d, m1)
    ensures var m := CreateMissing(w, d).w;
            && m == m1.(pod := m.pod, service := m.service, snap := m.snap)
            && m.pod.Some? && (m.dev.spec.services != map[] ==> m.service.Some?)
            && (m.dev.spec.services == map[] ==> m.service == w.service)
            && (m.startup.Some? ==>
                  m.live.startupConfigResourceVersion == Some(m.startup.value.resourceVersion))
  {
    m0, m1 := CreationStages(w, d);
  }

  lemma SyncedAnyState(m: World, r: World)
    requires r == m.(state := r.state)
    ensures Synced(r) <==> Synced(m)
  {
    if Synced(r) {
      SyncedIgnoresState(r, m.state);
    }
    if Synced(m) {
      SyncedIgnoresState(m, r.state);
    }
  }

  lemma ComparedSynced(w: World, d: Draw)
    requires Canonical(w.live) && Canonical(w.snap) && Draws(w.dev, d) && CreateMissing(w, d).Ready?
    requires Compared(CreateMissing(w, d).w)
    ensures Synced(CreateMissing(w, d).w) <==> KeptRight(w)
  {
    var m := CreateMissing(w, d).w;
    CreationCanonical(w, d);
    var m0, m1 := CreationComplete(w, d);
    PartsExactly(w, m0, d, m1, m);
    SyncedByParts(m);
  }

  // Success is the truth exactly if what was there before the pass was right.
  lemma SuccessIsTrueExactly(w: World, d: Draw)
    requires Canonical(w.live) && Canonical(w.snap) && Allowed(w, d, InSync)
    ensures Synced(Pass(w, d, InSync)) <==> KeptRight(w)
    ensures Pass(w, d, InSync).state == SuccessState
  {
    var m := CreateMissing(w, d).w;
    InSyncMeans(m);
    ComparedSynced(w, d);
    SuccessPass(w, d, m, m.(state := SuccessState));
    SyncedAnyState(m, m.(state := SuccessState));
  }

  // ----- The service -----

  // The service is as configured, also when none is.
  ghost predicate ServiceExact(r: World) {
    if r.dev.spec.services == map[] then r.service.None?
    else r.service.Some? && ServiceMap(r.dev.spec.services) == Ok(ServiceMapFromApi(r.service.value.ports))
  }

  // A success leaves no service behind exactly if services are configured or there was none before.
  lemma ServiceLeftExactly(w: World, d: Draw)
    requires Canonical(w.live) && Canonical(w.snap) && Allowed(w, d, InSync)
    ensures ServiceExact(Pass(w, d, InSync)) <==> w.dev.spec.services != map[] || w.service.None?
  {
    var m := CreateMissing(w, d).w;
    InSyncMeans(m);
    var m0, m1 := CreationComplete(w, d);
    SuccessPass(w, d, m, m.(state := SuccessState));
  }

  // ----- Whole runs -----

  lemma FreshIsCanonical(w: World)
    requires Fresh(w)
    ensures Canonical(w.live) && Canonical(w.snap)
  {
  }

  // Safety over whole runs: from a fresh device, under any interleaving of passes that may fail anywhere,
  // edits, external deletions and startup configs, a pass that reports success leaves the cluster synced
  // exactly if what existed before it was right; and it leaves no service behind exactly if services are
  // configured or there was none.
  lemma SuccessInAnyRun(w: World, es: seq<Event>, d: Draw)
    requires Fresh(w) && Run(w, es) && Allowed(End(w, es), d, InSync)
    ensures var before, after := End(w, es), Pass(End(w, es), d, InSync);
            && after.state == SuccessState
            && (Synced(after) <==> KeptRight(before))
            && (ServiceExact(after) <==> before.dev.spec.services != map[] || before.service.None?)
  {
    FreshIsCanonical(w);
    RunStaysCanonical(w, es);
    SuccessIsTrueExactly(End(w, es), d);
    ServiceLeftExactly(End(w, es), d);
  }

  // It was right wherever the ledger told the truth.
  lemma TruthIsKept(w: World, d: Draw)
    requires Inv(w) && Allowed(w, d, InSync)
    ensures KeptRight(w)
  {
    SuccessIsSynced(w, d, InSync);
    SuccessIsTrueExactly(w, d);
  }

  // So in harmless runs a reported success is always the truth.
  lemma HarmlessSuccessIsTrue(w: World, es: seq<Event>, d: Draw)
    requires Fresh(w) && Run(w, es) && HarmlessRun(w, es) && Allowed(End(w, es), d, InSync)
    ensures Synced(Pass(End(w, es), d, InSync))
  {
    FreshInv(w);
    RunKeepsInv(w, es);
    SuccessIsSynced(End(w, es), d, InSync);
  }
}

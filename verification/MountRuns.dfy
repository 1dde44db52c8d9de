// Mounts over whole runs.
module MountRuns {
  import opened Basics
  import opened Api
  import opened Volumes
  import opened Pods
  import opened Reconcile
  import opened CreationFacts
  import opened Soundness
  import opened Runs
  import opened Exits
  import opened Mounts

  // What no state shows: the world the current pod was created at, the world right after in memory, whether
  // the snapshot taken then was saved, and every startup config there has been, by resource version.
  datatype Past = Past(born: World, made: World, saved: bool, startups: map<string, Object>)

  // `m` is the world in memory after the creating half of a pass at `w`, `r` the world after the pass.
  function PastWith(w: World, p: Past, m: World, r: World): Past {
    if w.pod.None? && m.pod.Some? then p.(born := w, made := m, saved := r.snap == m.live) else p
  }

  ghost function PastAfter(w: World, p: Past, e: Event): Past
    requires Enabled(w, e)
  {
    match e
    case PassEvent(d, v) => PastWith(w, p, CreateMissing(w, d).w, Pass(w, d, v))
    case PutStartup(startup) => p.(startups := p.startups[startup.resourceVersion := startup.configMap])
    case _ => p
  }

  ghost function PastAtEnd(w: World, p: Past, es: seq<Event>): Past
    requires Run(w, es)
    decreases es
  {
    if es == [] then p else PastAtEnd(After(w, es[0]), PastAfter(w, p, es[0]), es[1..])
  }

  // ----- Any run at all -----

  // The pod mounts what was configured when it was created.
  ghost predicate PodIsFrom(w: World, p: Past) {
    w.pod.Some? ==> MountsAre(w.pod.value, ConfiguredObjects(p.made))
  }

  lemma NewPodMounts(w: World, d: Draw)
    requires Draws(w.dev, d) && w.pod.None? && CreateMissing(w, d).w.pod.Some?
    ensures MountsAre(CreateMissing(w, d).w.pod.value, ConfiguredObjects(CreateMissing(w, d).w))
  {
    CreationAfterObjects(w, d);
    if EnsureObjects(w, d).Ready? {
      var m1 := EnsureObjects(w, d).w;
      var m0 := ObjectStages(w, d);
      WorkloadsMount(m1, ServiceFor(m1.dev));
      PodMounts(m1, CreateMissing(w, d).w.pod.value);
      SameConfigured(m1, CreateMissing(w, d).w);
    } else {
      ObjectsStop(w, d);
    }
  }

  lemma OldPodStays(w: World, d: Draw)
    requires Draws(w.dev, d) && w.pod.Some?
    ensures CreateMissing(w, d).w.pod == w.pod
  {
    CreationAfterObjects(w, d);
    if EnsureObjects(w, d).Ready? {
      var m1 := EnsureObjects(w, d).w;
      var m0 := ObjectStages(w, d);
      WorkloadsMount(m1, ServiceFor(m1.dev));
    } else {
      ObjectsStop(w, d);
    }
  }

  // After its creating half a pass brings no pod, and changes none but for the labels.
  predicate SamePodOrNone(m: World, r: World) {
    r.pod.Some? ==> m.pod.Some? && r.pod.value == m.pod.value.(labels := r.pod.value.labels)
  }

  lemma RepairChangesNoMounts(w: World, m: World, v: Verdict)
    ensures SamePodOrNone(m, Repair(w, m, v)) && Repair(w, m, v).dev == m.dev
  {
  }

  lemma PassChangesNoMounts(w: World, end: Creation, v: Verdict)
    ensures var r := Saved(RawPassFrom(w, end, v)); SamePodOrNone(end.w, r) && r.dev == end.w.dev
  {
    if end.Ready? {
      RepairChangesNoMounts(w, end.w, v);
    }
  }

  lemma PassKeepsPodIsFrom(w: World, p: Past, d: Draw, v: Verdict)
    requires PodIsFrom(w, p) && Allowed(w, d, v)
    ensures PodIsFrom(Pass(w, d, v), PastAfter(w, p, PassEvent(d, v)))
  {
    PassChangesNoMounts(w, CreateMissing(w, d), v);
    if w.pod.Some? {
      OldPodStays(w, d);
    } else if CreateMissing(w, d).w.pod.Some? {
      NewPodMounts(w, d);
    }
  }

  lemma EventKeepsPodIsFrom(w: World, p: Past, e: Event)
    requires PodIsFrom(w, p) && Enabled(w, e)
    ensures PodIsFrom(After(w, e), PastAfter(w, p, e))
  {
    if e.PassEvent? {
      PassKeepsPodIsFrom(w, p, e.d, e.v);
    }
  }

  lemma {:induction false} RunKeepsPodIsFrom(w: World, p: Past, es: seq<Event>)
    requires PodIsFrom(w, p) && Run(w, es)
    ensures PodIsFrom(End(w, es), PastAtEnd(w, p, es))
    decreases es
  {
    if es == [] {
    } else {
      EventKeepsPodIsFrom(w, p, es[0]);
      RunKeepsPodIsFrom(After(w, es[0]), PastAfter(w, p, es[0]), es[1..]);
    }
  }

  // In every state of every run, whatever fails: the pod mounts what is configured exactly if that has the
  // shapes of what was configured when the pod was created.
  lemma MountsToldInAnyRun(w: World, p: Past, es: seq<Event>)
    requires w.pod.None? && Run(w, es) && End(w, es).pod.Some?
    ensures MountsAre(End(w, es).pod.value, ConfiguredObjects(End(w, es))) <==>
            SameShapes(ConfiguredObjects(PastAtEnd(w, p, es).made), ConfiguredObjects(End(w, es)))
  {
    RunKeepsPodIsFrom(w, p, es);
    MountsAreTold(End(w, es).pod.value, ConfiguredObjects(PastAtEnd(w, p, es).made), ConfiguredObjects(End(w, es)));
  }

  // ----- Harmless runs -----

  predicate Knows(p: Past, version: Option<string>) { version.Some? ==> version.value in p.startups }

  predicate StartupsKnown(w: World, p: Past) {
    && (w.startup.Some? ==> Lookup(p.startups, w.startup.value.resourceVersion) == Some(w.startup.value.configMap))
    && Knows(p, w.live.startupConfigResourceVersion)
    && Knows(p, w.snap.startupConfigResourceVersion)
  }

  // The startup config the pod got is still known by its version. If the pod got none although its snapshot
  // names a version, that version is gone for good.
  predicate StartupKept(w: World, p: Past) {
    var startup, version := p.made.startup, w.snap.startupConfigResourceVersion;
    && (startup.Some? ==> Lookup(p.startups, startup.value.resourceVersion) == Some(startup.value.configMap))
    && (startup.None? && version.Some? && w.startup.Some? ==> w.startup.value.resourceVersion != version.value)
  }

  // Either the snapshot is the ledger of the moment the pod was created, or it was not saved; then the
  // ledger of that moment was the one the spec demanded.
  predicate SnapshotKnown(w: World, p: Past) {
    if p.saved then w.snap == p.made.live && StartupKept(w, p) else p.made.live == Demanded(p.made)
  }

  ghost predicate Witnessed(w: World, p: Past) {
    && StartupsKnown(w, p) && PodIsFrom(w, p)
    && (w.pod.Some? ==> Born(p.born, p.made) && p.made.dev.name == w.dev.name && SnapshotKnown(w, p))
  }

  lemma WitnessedFollows(w: World, p: Past)
    requires Witnessed(w, p) && w.pod.Some? && p.saved
    ensures Follows(p.made, w)
  {
  }

  predicate NewVersion(p: Past, e: Event) { e.PutStartup? ==> e.startup.resourceVersion !in p.startups }

  // Losing objects, edits, and startup configs with new versions.
  ghost predicate Around(w: World, p: Past, r: World, q: Past) {
    && r.dev.name == w.dev.name && r.snap == w.snap && r.live == w.live && r.pod in {w.pod, None}
    && q == p.(startups := q.startups)
    && ((r.startup in {w.startup, None} && q == p)
        || (r.startup.Some? && r.startup.value.resourceVersion !in p.startups
            && q.startups == p.startups[r.startup.value.resourceVersion := r.startup.value.configMap]))
  }

  lemma OthersAreAround(w: World, p: Past, e: Event)
    requires !e.PassEvent? && NewVersion(p, e)
    ensures Around(w, p, After(w, e), PastAfter(w, p, e))
  {
  }

  lemma AroundKeepsWitnessed(w: World, p: Past, r: World, q: Past)
    requires Witnessed(w, p) && Around(w, p, r, q)
    ensures Witnessed(r, q)
  {
  }

  // ----- What a creation leaves, however it ended -----

  lemma ObjectsStop(w: World, d: Draw)
    requires Draws(w.dev, d) && !EnsureObjects(w, d).Ready?
    ensures var m := CreateMissing(w, d).w;
            && m.dev == w.dev && m.startup == w.startup && m.pod == w.pod && m.snap == w.snap
            && m.live.startupConfigResourceVersion == w.live.startupConfigResourceVersion
  {
    EnsureCertsKeepsDevice(w, d, 0);
    var made := EnsureCertsMakes(w, d, 0);
    CreationAfterObjects(w, d);
    FilesStop(EnsureCerts(w, d, 0).w, d);
  }

  lemma FilesStop(m0: World, d: Draw)
    requires Draws(m0.dev, d)
    ensures !EnsureFiles(m0, d).Ready? ==>
              var m := EnsureFiles(m0, d).w;
              && m.dev == m0.dev && m.startup == m0.startup && m.pod == m0.pod && m.snap == m0.snap
              && m.live.startupConfigResourceVersion == m0.live.startupConfigResourceVersion
  {
  }

  lemma StartupNoted(w: World, d: Draw, p: Past)
    requires StartupsKnown(w, p) && Draws(w.dev, d) && EnsureObjects(w, d).Ready?
    ensures var m := CreateMissing(w, d).w; m.dev == w.dev && Knows(p, m.live.startupConfigResourceVersion)
  {
    var m0 := ObjectStages(w, d);
    var m1 := EnsureObjects(w, d).w;
    CreationAfterObjects(w, d);
    WorkloadsMount(m1, ServiceFor(m1.dev));
  }

  // Same pod, or none, and same snapshot.
  lemma KeptIsWitnessed(w: World, p: Past, r: World)
    requires Witnessed(w, p) && r.dev.name == w.dev.name && r.startup == w.startup && r.snap == w.snap
    requires SamePodOrNone(w, r) && Knows(p, r.live.startupConfigResourceVersion)
    ensures Witnessed(r, p)
  {
  }

  // A pod just created, in memory or saved.
  lemma NewIsWitnessed(w: World, p: Past, m: World, q: Past)
    requires StartupsKnown(w, p) && Born(w, m) && m.startup == w.startup && m.pod.Some? && m.snap == m.live
    requires MountsAre(m.pod.value, ConfiguredObjects(m)) && Knows(p, m.live.startupConfigResourceVersion)
    requires q == p.(born := w, made := m, saved := true)
    ensures Witnessed(m, q)
  {
  }

  lemma MadeIsWitnessed(w: World, p: Past, m: World)
    requires Witnessed(w, p) && Born(w, m) && m.startup == w.startup && Knows(p, m.live.startupConfigResourceVersion)
    requires if w.pod.Some? || m.pod.None? then m.pod == w.pod && m.snap == w.snap
             else MountsAre(m.pod.value, ConfiguredObjects(m)) && m.snap == m.live
    ensures Witnessed(m, PastWith(w, p, m, m))
  {
    if w.pod.None? && m.pod.Some? {
      NewIsWitnessed(w, p, m, PastWith(w, p, m, m));
    } else {
      KeptIsWitnessed(w, p, m);
    }
  }

  // In memory, however the creation ended.
  lemma CreationWitnessed(w: World, p: Past, d: Draw)
    requires Inv(w) && Witnessed(w, p) && Draws(w.dev, d)
    ensures var m := CreateMissing(w, d).w;
            m.dev == w.dev && m.startup == w.startup && Witnessed(m, PastWith(w, p, m, m))
  {
    var m := CreateMissing(w, d).w;
    if EnsureObjects(w, d).Ready? {
      StartupNoted(w, d, p);
      CreationMounts(w, d);
      MadeIsWitnessed(w, p, m);
    } else {
      ObjectsStop(w, d);
      KeptIsWitnessed(w, p, m);
    }
  }

  // ----- Leaving with the ledger saved -----

  // `r` is what a pass saves of `m`.
  predicate SavedFrom(m: World, r: World) {
    && r.dev == m.dev && r.snap == m.snap && r.startup == m.startup && SamePodOrNone(m, r)
    && r.live.startupConfigResourceVersion in {m.live.startupConfigResourceVersion, None, StartupVersion(m)}
  }

  lemma RepairSaves(w: World, m: World, v: Verdict)
    requires !v.ServicesInvalid?
    ensures SavedFrom(m, Repair(w, m, v))
  {
  }

  lemma RawSaves(w: World, end: Creation, v: Verdict)
    requires end.Failed? || (end.Ready? && !v.ServicesInvalid?)
    ensures SavedFrom(end.w, RawPassFrom(w, end, v))
  {
    if end.Ready? {
      RepairSaves(w, end.w, v);
    }
  }

  lemma SavedIsWitnessed(w: World, p: Past, m: World, r: World)
    requires Witnessed(m, PastWith(w, p, m, m)) && SavedFrom(m, r) && m.dev.name == w.dev.name
    requires w.pod.None? && m.pod.Some? ==> m.snap == m.live
    ensures Witnessed(r, PastWith(w, p, m, r))
  {
    KeptIsWitnessed(m, PastWith(w, p, m, m), r);
  }

  // ----- Leaving without saving -----

  predicate UnsavedFrom(w: World, m: World, r: World) {
    && r.dev == m.dev && r.startup == m.startup && r.pod == m.pod && r.live == w.live && r.snap == w.snap
  }

  lemma RawDoesNotSave(w: World, end: Creation, v: Verdict)
    requires end.Crashed? || (end.Ready? && v.ServicesInvalid?)
    ensures UnsavedFrom(w, end.w, RawPassFrom(w, end, v))
  {
  }

  lemma UnsavedOldPod(w: World, p: Past, m: World, r: World)
    requires Witnessed(w, p) && UnsavedFrom(w, m, r) && m.dev == w.dev && m.startup == w.startup && m.pod == w.pod
    ensures Witnessed(r, PastWith(w, p, m, r))
  {
    KeptIsWitnessed(w, p, r);
  }

  lemma UnsavedNewPod(w: World, p: Past, m: World, r: World)
    requires Witnessed(w, p) && Witnessed(m, PastWith(w, p, m, m)) && UnsavedFrom(w, m, r)
    requires m.dev == w.dev && m.startup == w.startup && w.pod.None? && m.pod.Some? && m.live == Demanded(m) == m.snap
    ensures Witnessed(r, PastWith(w, p, m, r))
  {
  }

  lemma CrashHasNoPod(w: World, d: Draw)
    requires Core(w) && Draws(w.dev, d) && CreateMissing(w, d).Crashed?
    ensures w.pod.None? && CreateMissing(w, d).w.pod.None?
  {
    CrashesExactly(w, d);
    CreationAfterObjects(w, d);
    ObjectsKeepRest(w, d);
  }

  // A pass that stops at the services had nothing else to repair.
  lemma StoppedLedger(w: World, d: Draw, v: Verdict)
    requires Inv(w) && Draws(w.dev, d) && CreateMissing(w, d).Ready? && v.ServicesInvalid?
    requires AllowedFrom(CreateMissing(w, d), v)
    ensures var m := CreateMissing(w, d).w; m.live == m.snap == Demanded(m)
  {
    CreationPrepares(w, d);
    StopsHereExactly(CreateMissing(w, d).w, v);
  }

  lemma UnsavedWitnessed(w: World, p: Past, d: Draw, v: Verdict)
    requires Inv(w) && Witnessed(w, p) && Draws(w.dev, d) && AllowedFrom(CreateMissing(w, d), v)
    requires CreateMissing(w, d).Crashed? || (CreateMissing(w, d).Ready? && v.ServicesInvalid?)
    ensures var end := CreateMissing(w, d);
            var r := RawPassFrom(w, end, v);
            Witnessed(r, PastWith(w, p, end.w, r))
  {
    var end := CreateMissing(w, d);
    CreationWitnessed(w, p, d);
    RawDoesNotSave(w, end, v);
    if end.Crashed? {
      CrashHasNoPod(w, d);
      UnsavedOldPod(w, p, end.w, RawPassFrom(w, end, v));
    } else if w.pod.Some? {
      OldPodStays(w, d);
      UnsavedOldPod(w, p, end.w, RawPassFrom(w, end, v));
    } else {
      StoppedLedger(w, d, v);
      UnsavedNewPod(w, p, end.w, RawPassFrom(w, end, v));
    }
  }

  lemma SavedWitnessed(w: World, p: Past, d: Draw, v: Verdict)
    requires Inv(w) && Witnessed(w, p) && Draws(w.dev, d)
    requires CreateMissing(w, d).Failed? || (CreateMissing(w, d).Ready? && !v.ServicesInvalid?)
    ensures var end := CreateMissing(w, d);
            var r := RawPassFrom(w, end, v);
            Witnessed(r, PastWith(w, p, end.w, r))
  {
    var end := CreateMissing(w, d);
    CreationWitnessed(w, p, d);
    NewSnapshot(w, d);
    RawSaves(w, end, v);
    SavedIsWitnessed(w, p, end.w, RawPassFrom(w, end, v));
  }

  lemma NewSnapshot(w: World, d: Draw)
    requires Inv(w) && Draws(w.dev, d)
    ensures var m := CreateMissing(w, d).w; w.pod.None? && m.pod.Some? ==> m.snap == m.live
  {
    if EnsureObjects(w, d).Ready? {
      CreationMounts(w, d);
    } else {
      ObjectsStop(w, d);
    }
  }

  lemma PassKeepsWitnessed(w: World, p: Past, d: Draw, v: Verdict)
    requires Inv(w) && Witnessed(w, p) && Allowed(w, d, v)
    ensures Witnessed(Pass(w, d, v), PastAfter(w, p, PassEvent(d, v)))
  {
    var end := CreateMissing(w, d);
    PassIsRaw(w, d, v, end);
    if end.Failed? || (end.Ready? && !v.ServicesInvalid?) {
      SavedWitnessed(w, p, d, v);
    } else {
      UnsavedWitnessed(w, p, d, v);
    }
  }

  lemma EventKeepsWitnessed(w: World, p: Past, e: Event)
    requires Inv(w) && Witnessed(w, p) && Enabled(w, e) && NewVersion(p, e)
    ensures Witnessed(After(w, e), PastAfter(w, p, e))
  {
    if e.PassEvent? {
      PassKeepsWitnessed(w, p, e.d, e.v);
    } else {
      OthersAreAround(w, p, e);
      AroundKeepsWitnessed(w, p, After(w, e), PastAfter(w, p, e));
    }
  }

  // Every startup config comes with a new resource version.
  ghost predicate NewVersions(w: World, p: Past, es: seq<Event>)
    requires Run(w, es)
    decreases es
  {
    es == [] || (NewVersion(p, es[0]) && NewVersions(After(w, es[0]), PastAfter(w, p, es[0]), es[1..]))
  }

  lemma {:induction false} RunKeepsWitnessed(w: World, p: Past, es: seq<Event>)
    requires Inv(w) && Witnessed(w, p) && Run(w, es) && HarmlessRun(w, es) && NewVersions(w, p, es)
    ensures Inv(End(w, es)) && Witnessed(End(w, es), PastAtEnd(w, p, es))
    decreases es
  {
    if es == [] {
    } else {
      HarmlessEventKeepsInv(w, es[0]);
      EventKeepsWitnessed(w, p, es[0]);
      RunKeepsWitnessed(After(w, es[0]), PastAfter(w, p, es[0]), es[1..]);
    }
  }

  // ----- When a snapshot is saved -----

  // A pass that builds a pod saves its snapshot unless it stops at conflicting services, and even then if
  // the saved snapshot was the same already.
  lemma SavedExactly(w: World, d: Draw, v: Verdict)
    requires Inv(w) && Allowed(w, d, v) && w.pod.None? && CreateMissing(w, d).Ready?
    ensures Pass(w, d, v).snap == CreateMissing(w, d).w.live <==> (StopsAtServices(w) ==> w.snap == Demanded(w))
  {
    var end := CreateMissing(w, d);
    StopsExactly(w, d, v);
    PassIsRaw(w, d, v, end);
    NewSnapshot(w, d);
    CreationPrepares(w, d);
    ReadyKeepsDemand(w, d);
    if v.ServicesInvalid? {
      StoppedLedger(w, d, v);
      RawDoesNotSave(w, end, v);
    } else {
      RawSaves(w, end, v);
    }
  }

  lemma ReadyKeepsDemand(w: World, d: Draw)
    requires Inv(w) && Draws(w.dev, d) && CreateMissing(w, d).Ready?
    ensures Demanded(CreateMissing(w, d).w) == Demanded(w)
  {
    ReadyHasPod(w, d);
    CreationMounts(w, d);
  }

  // ----- At success -----

  ghost predicate MountsExact(r: World, q: Past) {
    r.pod.Some? &&
    (MountsAre(r.pod.value, ConfiguredObjects(r)) <==>
      if q.saved then BootGuard(q.born) else SpecsAlike(q.made, r))
  }

  // The contents the pod was booted from are those configured now.
  ghost predicate BootedFrom(r: World, q: Past) { ContentsAre(ConfiguredObjects(q.made), r) }

  ghost predicate ContentsExact(r: World, q: Past) {
    BootedFrom(r, q) <==> if q.saved then BootGuard(q.born) && ScriptGuard(q.born) else FilesAsked(q.made, r)
  }

  lemma SyncedExactly(r: World, q: Past)
    requires Synced(r) && Core(r) && Witnessed(r, q)
    ensures MountsExact(r, q) && ContentsExact(r, q)
  {
    if q.saved {
      WitnessedFollows(r, q);
      BornMountsExactly(q.born, q.made, r, r.pod.value);
      BornContentsExactly(q.born, q.made, r);
    } else {
      UnsavedMountsExactly(q.made, r, r.pod.value);
      UnsavedContentsExactly(q.made, r);
    }
  }

  lemma SuccessWitnessed(w: World, p: Past, d: Draw)
    requires Inv(w) && Witnessed(w, p) && Allowed(w, d, InSync)
    ensures var r, q := Pass(w, d, InSync), PastAfter(w, p, PassEvent(d, InSync));
            Synced(r) && Inv(r) && Witnessed(r, q)
  {
    SuccessIsSynced(w, d, InSync);
    PassKeepsWitnessed(w, p, d, InSync);
    SuccessIsSaved(w, d);
  }

  lemma SuccessIsSaved(w: World, d: Draw)
    requires Inv(w) && Allowed(w, d, InSync)
    ensures Inv(Pass(w, d, InSync))
  {
    SavedPass(w, d, InSync);
  }

  // Mount soundness over whole runs, under any edits, losses and new startup configs, as long as passes are
  // harmless: when success is reported, the pod mounts exactly the configured objects if and only if
  // nothing on record was dropped from the spec when the pod was created; or, if that pass did not save its
  // snapshot, if and only if the spec of then and the spec of now ask for alike files. Likewise for the
  // contents it was booted from.
  lemma MountsRightAtSuccess(w: World, p: Past, es: seq<Event>, d: Draw)
    requires Fresh(w) && Witnessed(w, p) && Run(w, es) && HarmlessRun(w, es) && NewVersions(w, p, es)
    requires Allowed(End(w, es), d, InSync)
    ensures var q := PastAfter(End(w, es), PastAtEnd(w, p, es), PassEvent(d, InSync));
            var r := Pass(End(w, es), d, InSync);
            Synced(r) && MountsExact(r, q) && ContentsExact(r, q)
  {
    FreshInv(w);
    RunKeepsWitnessed(w, p, es);
    SuccessWitnessed(End(w, es), PastAtEnd(w, p, es), d);
    SyncedExactly(Pass(End(w, es), d, InSync), PastAfter(End(w, es), PastAtEnd(w, p, es), PassEvent(d, InSync)));
  }

  // ----- Files that stay fixed -----

  // The files asked for change only when no pass has happened since the last success (`free`).
  ghost predicate FilesFixed(w: World, es: seq<Event>, free: bool)
    requires Run(w, es)
    decreases es
  {
    es == [] || (
      && (es[0].Edit? && !free ==> SameFiles(w.dev.spec, es[0].spec))
      && FilesFixed(After(w, es[0]), es[1..], FreeAfter(es[0], free)))
  }

  predicate FreeAfter(e: Event, free: bool) { if e.PassEvent? then e.v.InSync? else free }

  // The snapshot is the one a pod created for these files should have.
  predicate SnapshotFits(l: Ledger, m: World) {
    && l.selfSignedCertStatus == NilIfEmpty(Wanted(m))
    && l.intfMappingStatus == NilIfEmpty(m.dev.spec.intfMapping)
    && l.toggleOverridesStatus == NilIfEmpty(m.dev.spec.toggleOverrides)
  }

  ghost predicate OnTrack(w: World, p: Past, free: bool) {
    w.pod.Some? ==> SnapshotFits(w.snap, p.made) || (!free && SameFiles(p.made.dev.spec, w.dev.spec))
  }

  lemma NilIfEmptyInjective<K, V>(a: map<K, V>, b: map<K, V>)
    requires NilIfEmpty(a) == NilIfEmpty(b)
    ensures a == b
  {
  }

  // At a synced world the snapshot fits exactly the specs that ask for the same files.
  lemma FitsExactly(m: World, r: World)
    requires Synced(r) && m.dev.name == r.dev.name
    ensures SnapshotFits(r.snap, m) <==> SameFiles(m.dev.spec, r.dev.spec)
  {
    if SnapshotFits(r.snap, m) {
      NilIfEmptyInjective(Wanted(m), Wanted(r));
      CertMapInjective(r.dev.name, m.dev.spec.selfSignedCerts, r.dev.spec.selfSignedCerts);
      NilIfEmptyInjective(m.dev.spec.intfMapping, r.dev.spec.intfMapping);
      NilIfEmptyInjective(m.dev.spec.toggleOverrides, r.dev.spec.toggleOverrides);
    }
  }

  lemma TrackedFiles(r: World, q: Past, free: bool)
    requires Synced(r) && OnTrack(r, q, free) && q.made.dev.name == r.dev.name
    ensures SameFiles(q.made.dev.spec, r.dev.spec) && OnTrack(r, q, true)
  {
    FitsExactly(q.made, r);
  }

  lemma OldSnapshotStays(w: World, d: Draw, v: Verdict)
    requires Inv(w) && Draws(w.dev, d) && w.pod.Some?
    ensures Pass(w, d, v).snap == w.snap
  {
    PassIsRaw(w, d, v, CreateMissing(w, d));
    OldSnapshotInMemory(w, d);
    RepairKeepsSnapshot(w, CreateMissing(w, d), v);
  }

  lemma OldSnapshotInMemory(w: World, d: Draw)
    requires Inv(w) && Draws(w.dev, d) && w.pod.Some?
    ensures CreateMissing(w, d).w.snap == w.snap
  {
    if EnsureObjects(w, d).Ready? {
      CreationMounts(w, d);
    } else {
      ObjectsStop(w, d);
    }
  }

  lemma RepairKeepsSnapshot(w: World, end: Creation, v: Verdict)
    requires end.w.snap == w.snap
    ensures RawPassFrom(w, end, v).snap == w.snap
  {
  }

  lemma NewPodTracks(w: World, p: Past, m: World, r: World)
    requires w.pod.None? && m.dev == w.dev && r.dev == w.dev && SamePodOrNone(m, r)
    ensures OnTrack(r, PastWith(w, p, m, r), false)
  {
  }

  lemma OldPodTracks(w: World, p: Past, m: World, r: World, free: bool)
    requires w.pod.Some? && OnTrack(w, p, free) && r.dev == w.dev && r.snap == w.snap
    ensures OnTrack(r, PastWith(w, p, m, r), false)
  {
  }

  lemma PassTracks(w: World, p: Past, d: Draw, v: Verdict, free: bool)
    requires Inv(w) && Witnessed(w, p) && OnTrack(w, p, free) && Allowed(w, d, v)
    ensures OnTrack(Pass(w, d, v), PastAfter(w, p, PassEvent(d, v)), false)
  {
    PassChangesNoMounts(w, CreateMissing(w, d), v);
    CreationWitnessed(w, p, d);
    if w.pod.Some? {
      OldSnapshotStays(w, d, v);
      OldPodTracks(w, p, CreateMissing(w, d).w, Pass(w, d, v), free);
    } else {
      NewPodTracks(w, p, CreateMissing(w, d).w, Pass(w, d, v));
    }
  }

  lemma PassKeepsTrack(w: World, p: Past, d: Draw, v: Verdict, free: bool)
    requires Inv(w) && Witnessed(w, p) && OnTrack(w, p, free) && Allowed(w, d, v)
    ensures OnTrack(Pass(w, d, v), PastAfter(w, p, PassEvent(d, v)), v.InSync?)
  {
    PassTracks(w, p, d, v, free);
    if v == InSync {
      SuccessWitnessed(w, p, d);
      TrackedFiles(Pass(w, d, v), PastAfter(w, p, PassEvent(d, v)), false);
    }
  }

  lemma OtherKeepsTrack(w: World, p: Past, e: Event, free: bool)
    requires OnTrack(w, p, free) && !e.PassEvent? && (e.Edit? && !free ==> SameFiles(w.dev.spec, e.spec))
    ensures OnTrack(After(w, e), PastAfter(w, p, e), free)
  {
  }

  lemma {:induction false} RunKeepsTrack(w: World, p: Past, es: seq<Event>, free: bool) returns (freeAtEnd: bool)
    requires Inv(w) && Witnessed(w, p) && OnTrack(w, p, free)
    requires Run(w, es) && HarmlessRun(w, es) && NewVersions(w, p, es) && FilesFixed(w, es, free)
    ensures OnTrack(End(w, es), PastAtEnd(w, p, es), freeAtEnd)
    decreases es
  {
    freeAtEnd := free;
    if es == [] {
    } else {
      var e := es[0];
      HarmlessEventKeepsInv(w, e);
      EventKeepsWitnessed(w, p, e);
      if e.PassEvent? {
        PassKeepsTrack(w, p, e.d, e.v, free);
      } else {
        OtherKeepsTrack(w, p, e, free);
      }
      freeAtEnd := RunKeepsTrack(After(w, e), PastAfter(w, p, e), es[1..], FreeAfter(e, free));
    }
  }

  // With the same files asked for, a saved snapshot vouches for everything; otherwise it takes an alike
  // startup config.
  lemma SameFilesSaved(r: World, q: Past)
    requires Synced(r) && Witnessed(r, q) && q.saved && SameFiles(q.made.dev.spec, r.dev.spec)
    ensures MountsAre(r.pod.value, ConfiguredObjects(r)) && BootedFrom(r, q)
  {
    WitnessedFollows(r, q);
    SameFilesInStep(q.made, r);
    SameFilesScript(q.made, r);
    SameFilesGuarded(r, q);
    BornMountsExactly(q.born, q.made, r, r.pod.value);
    GuardedContents(q.made, r);
  }

  lemma SameFilesInStep(m: World, r: World)
    requires Synced(r) && Follows(m, r) && SameFiles(m.dev.spec, r.dev.spec)
    ensures Entries(m.live.selfSignedCertStatus) == Wanted(m) && CertsInStep(m)
  {
    SyncedLedger(m, r);
  }

  lemma SameFilesScript(m: World, r: World)
    requires Synced(r) && Follows(m, r) && SameFiles(m.dev.spec, r.dev.spec) && StaleMid(m) && CertsInStep(m)
    ensures StaleSound(m)
  {
    SyncedLedger(m, r);
    if m.rcEos.Some? {
      RightScriptIsSound(m, r);
    }
  }

  lemma SameFilesGuarded(r: World, q: Past)
    requires Synced(r) && Witnessed(r, q) && q.saved && SameFiles(q.made.dev.spec, r.dev.spec) && CertsInStep(q.made)
    ensures BootGuard(q.made) && BootGuard(q.born)
  {
    WitnessedFollows(r, q);
    SyncedLedger(q.made, r);
  }

  lemma SameFilesUnsaved(r: World, q: Past)
    requires Synced(r) && Core(r) && Witnessed(r, q) && !q.saved && SameFiles(q.made.dev.spec, r.dev.spec)
    ensures MountsAre(r.pod.value, ConfiguredObjects(r)) <==> StartupsAlike(q.made, r)
  {
    UnsavedMountsExactly(q.made, r, r.pod.value);
  }

  // If the files asked for stay fixed from the first pass after a success (or after a fresh start) to the
  // next success, mounts and contents are right at every success; only a pod whose snapshot was not saved
  // can still have the mounts of another startup config.
  lemma FixedFilesAreRight(w: World, p: Past, es: seq<Event>, d: Draw)
    requires Fresh(w) && Witnessed(w, p) && Run(w, es) && HarmlessRun(w, es) && NewVersions(w, p, es)
    requires FilesFixed(w, es, true) && Allowed(End(w, es), d, InSync)
    ensures var q := PastAfter(End(w, es), PastAtEnd(w, p, es), PassEvent(d, InSync));
            var r := Pass(End(w, es), d, InSync);
            && r.pod.Some? && (q.saved ==> BootedFrom(r, q))
            && (MountsAre(r.pod.value, ConfiguredObjects(r)) <==> q.saved || StartupsAlike(q.made, r))
  {
    FreshInv(w);
    RunKeepsWitnessed(w, p, es);
    var free := RunKeepsTrack(w, p, es, true);
    SuccessOnTrack(End(w, es), PastAtEnd(w, p, es), d, free);
  }

  lemma SuccessOnTrack(w: World, p: Past, d: Draw, free: bool)
    requires Inv(w) && Witnessed(w, p) && OnTrack(w, p, free) && Allowed(w, d, InSync)
    ensures var r, q := Pass(w, d, InSync), PastAfter(w, p, PassEvent(d, InSync));
            && r.pod.Some? && (q.saved ==> BootedFrom(r, q))
            && (MountsAre(r.pod.value, ConfiguredObjects(r)) <==> q.saved || StartupsAlike(q.made, r))
  {
    var r, q := Pass(w, d, InSync), PastAfter(w, p, PassEvent(d, InSync));
    PassKeepsTrack(w, p, d, InSync, free);
    SuccessWitnessed(w, p, d);
    TrackedFiles(r, q, true);
    if q.saved {
      SameFilesSaved(r, q);
    } else {
      SameFilesUnsaved(r, q);
    }
  }
}

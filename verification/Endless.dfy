// Restarts without end: conflicting services, everything else in step.
module Endless {
  import opened Basics
  import opened Api
  import opened Files
  import opened Volumes
  import opened Services
  import opened Pods
  import opened Reconcile
  import opened CreationFacts
  import opened Soundness
  import opened Runs
  import opened Convergence
  import opened Progress
  import opened Exits

  // The services conflict while an old service is there, and no ledger work is left.
  ghost predicate Settled(w: World) {
    && Core(w) && FilesComplete(w) && w.live == Demanded(w)
    && ServiceMap(w.dev.spec.services).Err? && w.service.Some?
    && Parseable(w.lib, w.dev.spec.resources) && !BadPermissions(w)
  }

  lemma SettledPod(w: World)
    requires Settled(w)
    ensures PodOf(w).Built?
  {
    ConfiguredModes(w);
    VolumesSucceed(ConfiguredObjects(w));
  }

  // The world the comparisons see: with a new pod and its snapshot, if there was none.
  ghost function Filled(w: World): World
    requires Settled(w)
  {
    SettledPod(w);
    if w.pod.Some? then w else w.(pod := Some(PodOf(w).value), snap := w.live)
  }

  lemma WorkloadsFilled(w: World, pod: Built<Pod>, service: Result<Service>, m: World)
    requires w.service.Some? && pod.Built?
    requires m == if w.pod.Some? then w else w.(pod := Some(pod.value), snap := w.live)
    ensures EnsureWorkloads(w, pod, service) == Ready(m)
  {
  }

  lemma SettledCreates(w: World, d: Draw)
    requires Settled(w) && Draws(w.dev, d)
    ensures CreateMissing(w, d) == Ready(Filled(w))
  {
    SettledPod(w);
    NoCertMissing(w, d, 0);
    NoFileMissing(w, d);
    WorkloadsFilled(w, PodOf(w), ServiceFor(w.dev), Filled(w));
    CreationAfterObjects(w, d);
  }

  lemma LedgerInStep(m: World)
    requires m.live == Demanded(m)
    ensures CertsInStep(m) && LedgerVerdict(m.dev.spec, m.live, m.startup).InSync?
  {
    assert Entries(m.live.selfSignedCertStatus) == Wanted(m);
  }

  // What the comparisons can find: an outdated snapshot, then other labels, then a pod that differs, and at
  // last the services.
  lemma SettledVerdict(m: World, v: Verdict)
    requires m.live == Demanded(m) && m.pod.Some? && Parseable(m.lib, m.dev.spec.resources)
    requires ServiceMap(m.dev.spec.services).Err? && Diagnosis(m, v, LateVerdict(m))
    ensures if m.snap != m.live then v == PodOutdated
            else if m.pod.value.labels != LabelsOf(m.dev) then v == LabelsDiffer
            else if EarlyFieldsAgree(m.dev, m.lib, m.pod.value) then v == ServicesInvalid
            else v.PodDiffers?
  {
    LedgerInStep(m);
    LateVerdictAtServices(m);
    LateVerdictMeans(m);
    ConflictComesFirst(m);
  }

  // Conflicting services are never found to agree or to differ.
  lemma ConflictComesFirst(m: World)
    requires m.pod.Some? && Parseable(m.lib, m.dev.spec.resources) && ServiceMap(m.dev.spec.services).Err?
    ensures LateVerdict(m).PodDiffers? || LateVerdict(m).ServicesInvalid?
  {
  }

  // One pass at a settled world, as a world without pod or snapshot would show it.
  ghost predicate SettledStep(w: World, v: Verdict, r: World) {
    && r == w.(pod := r.pod, state := r.state)
    && (w.pod.None? ==> v == ServicesInvalid && PodOf(w).Built? && r.pod == Some(PodOf(w).value) && r.state == w.state)
    && (w.pod.Some? && w.snap != w.live ==> v == PodOutdated && r.pod.None? && r.state == ReconcilingState)
    && (w.pod.Some? && w.snap == w.live ==>
          if DeletesPod(v) then r.pod.None? && !EarlyFieldsAgree(w.dev, w.lib, w.pod.value)
          else
            && r.pod.Some? && r.pod.value == w.pod.value.(labels := r.pod.value.labels)
            && (v == LabelsDiffer || EarlyFieldsAgree(w.dev, w.lib, w.pod.value)))
  }

  lemma NewPodVerdict(w: World, v: Verdict)
    requires Settled(w) && w.pod.None? && Diagnosis(Filled(w), v, LateVerdict(Filled(w)))
    ensures v == ServicesInvalid
  {
    SettledPod(w);
    BuiltPodAgrees(w.dev, w.lib, ConfiguredObjects(w));
    SettledVerdict(Filled(w), v);
  }

  lemma NewPodStep(w: World, m: World, r: World)
    requires w.pod.None? && PodOf(w).Built? && m == w.(pod := Some(PodOf(w).value), snap := w.live)
    requires r == RawPassFrom(w, Ready(m), ServicesInvalid)
    ensures SettledStep(w, ServicesInvalid, r)
  {
  }

  lemma OldPodVerdict(w: World, v: Verdict)
    requires w.pod.Some? && w.live == Demanded(w) && Parseable(w.lib, w.dev.spec.resources)
    requires ServiceMap(w.dev.spec.services).Err? && Diagnosis(w, v, LateVerdict(w))
    ensures v == PodOutdated || v == LabelsDiffer || v.PodDiffers? || v == ServicesInvalid
    ensures v == PodOutdated <==> w.snap != w.live
    ensures v.PodDiffers? ==> !EarlyFieldsAgree(w.dev, w.lib, w.pod.value)
    ensures v == ServicesInvalid ==> EarlyFieldsAgree(w.dev, w.lib, w.pod.value)
  {
    SettledVerdict(w, v);
  }

  lemma OldPodStep(w: World, v: Verdict, r: World)
    requires w.pod.Some? && (v == PodOutdated || v == LabelsDiffer || v.PodDiffers? || v == ServicesInvalid)
    requires v == PodOutdated <==> w.snap != w.live
    requires v.PodDiffers? ==> !EarlyFieldsAgree(w.dev, w.lib, w.pod.value)
    requires v == ServicesInvalid ==> EarlyFieldsAgree(w.dev, w.lib, w.pod.value)
    requires r == RawPassFrom(w, Ready(w), v)
    ensures SettledStep(w, v, r)
  {
  }

  lemma SettledPass(w: World, d: Draw, v: Verdict)
    requires Settled(w) && Allowed(w, d, v)
    ensures SettledStep(w, v, Pass(w, d, v)) && Settled(Pass(w, d, v))
  {
    SettledCreates(w, d);
    SettledPod(w);
    PassIsRaw(w, d, v, Ready(Filled(w)));
    if w.pod.None? {
      NewPodVerdict(w, v);
      NewPodStep(w, Filled(w), Pass(w, d, v));
    } else {
      OldPodVerdict(w, v);
      OldPodStep(w, v, Pass(w, d, v));
    }
    StepKeepsSettled(w, v, Pass(w, d, v));
  }

  lemma StepKeepsSettled(w: World, v: Verdict, r: World)
    requires Settled(w) && SettledStep(w, v, r)
    ensures Settled(r)
  {
    SettledCore(w, r);
  }

  lemma SettledCore(w: World, r: World)
    requires Core(w) && r == w.(pod := r.pod, state := r.state)
    ensures Core(r)
  {
    forall n | n in r.secrets
      ensures RecordedAs(r.live, n, Recorded(r.live, n)) && r.secrets[n] == CertSecret(Recorded(r.live, n))
    {
      assert RecordedAs(w.live, n, Recorded(w.live, n));
    }
  }

  // ----- Nobody interferes -----

  predicate OnlyPasses(es: seq<Event>) { forall i :: 0 <= i < |es| ==> es[i].PassEvent? }

  lemma OutdatedStep(w: World, v: Verdict, r: World)
    requires SettledStep(w, v, r) && w.snap != w.live
    ensures DeletesPod(v) <==> w.pod.Some?
    ensures r.pod.Some? <==> w.pod.None?
    ensures r.snap != r.live
  {
  }

  // With an outdated snapshot every second pass deletes the pod, and the next one builds it again, without
  // end: the snapshot is never saved.
  lemma {:induction false} OutdatedRestartsForever(w: World, es: seq<Event>)
    requires Settled(w) && w.snap != w.live && Run(w, es) && OnlyPasses(es)
    ensures Restarts(es) == (|es| + One(w.pod.Some?)) / 2
    decreases es
  {
    if es == [] {
    } else {
      SettledPass(w, es[0].d, es[0].v);
      OutdatedStep(w, es[0].v, After(w, es[0]));
      OutdatedRestartsForever(After(w, es[0]), es[1..]);
    }
  }

  ghost predicate FieldsOff(w: World) { w.pod.Some? && !EarlyFieldsAgree(w.dev, w.lib, w.pod.value) }

  lemma LabelsLeaveFields(dev: Device, w: World, labels: map<string, string>)
    requires w.pod.Some?
    ensures EarlyFieldsAgree(dev, w.lib, w.pod.value.(labels := labels)) <==> EarlyFieldsAgree(dev, w.lib, w.pod.value)
  {
    var relabelled := w.pod.value.(labels := labels);
    forall field ensures FieldAgrees(dev, w.lib, relabelled, field) <==> FieldAgrees(dev, w.lib, w.pod.value, field) {
    }
  }

  lemma SavedStep(w: World, v: Verdict, r: World)
    requires SettledStep(w, v, r) && w.snap == w.live
    ensures One(DeletesPod(v)) + One(FieldsOff(r)) == One(FieldsOff(w)) && r.snap == r.live
  {
    if w.pod.None? {
      BuiltPodAgrees(w.dev, w.lib, ConfiguredObjects(w));
    } else if r.pod.Some? {
      LabelsLeaveFields(w.dev, w, r.pod.value.labels);
    }
  }

  // With the right snapshot the pod is deleted at most once more.
  lemma {:induction false} SavedRestartsOnce(w: World, es: seq<Event>)
    requires Settled(w) && w.snap == w.live && Run(w, es) && OnlyPasses(es)
    ensures Restarts(es) <= One(FieldsOff(w)) <= 1
    decreases es
  {
    if es == [] {
    } else {
      SettledPass(w, es[0].d, es[0].v);
      SavedStep(w, es[0].v, After(w, es[0]));
      SavedRestartsOnce(After(w, es[0]), es[1..]);
    }
  }

  // So a fixed spec with conflicting services restarts the pod without end exactly if its snapshot is
  // outdated: from the fourth pass on the two cases are told apart.
  lemma RestartsForeverExactly(w: World, es: seq<Event>)
    requires Settled(w) && Run(w, es) && OnlyPasses(es) && |es| >= 4
    ensures Restarts(es) >= |es| / 2 <==> w.snap != w.live
    ensures Restarts(es) <= 1 <==> w.snap == w.live
  {
    if w.snap != w.live {
      OutdatedRestartsForever(w, es);
    } else {
      SavedRestartsOnce(w, es);
    }
  }

  // There is always a next pass.
  lemma SettledGoesOn(w: World, d: Draw) returns (v: Verdict)
    requires Settled(w) && Draws(w.dev, d)
    ensures Allowed(w, d, v)
  {
    SettledCreates(w, d);
    SettledPod(w);
    v := VerdictExists(Filled(w), LateVerdict(Filled(w)));
  }

  lemma NewPodLeads(w: World, d: Draw, r: World)
    requires Settled(w) && w.pod.None? && Draws(w.dev, d) && PodOf(w).Built? && r == w.(pod := Some(PodOf(w).value))
    ensures Leads(w, PassEvent(d, ServicesInvalid), r) && Settled(r)
  {
    var v := SettledGoesOn(w, d);
    SettledPass(w, d, v);
  }

  lemma OldPodLeads(w: World, d: Draw, r: World)
    requires Settled(w) && w.pod.Some? && w.snap != w.live && Draws(w.dev, d)
    requires r == w.(pod := None, state := ReconcilingState)
    ensures Leads(w, PassEvent(d, PodOutdated), r)
  {
    var v := SettledGoesOn(w, d);
    SettledPass(w, d, v);
  }

  // Two passes lead back to exactly the same world.
  lemma TwoPassesLeadBack(w: World, d: Draw)
    requires Settled(w) && w.pod.None? && w.snap != w.live && w.state == ReconcilingState && Draws(w.dev, d)
    ensures RunsTo(w, [PassEvent(d, ServicesInvalid), PassEvent(d, PodOutdated)], w)
  {
    SettledPod(w);
    var w1 := w.(pod := Some(PodOf(w).value));
    NewPodLeads(w, d, w1);
    OldPodLeads(w1, d, w);
    TwoEventRun(w, PassEvent(d, ServicesInvalid), w1, PassEvent(d, PodOutdated), w);
  }

  lemma TwoEventRun(w: World, a: Event, m: World, b: Event, r: World)
    requires Leads(w, a, m) && Leads(m, b, r)
    ensures RunsTo(w, [a, b], r)
  {
    OneEvent(m, b, r);
    OneMoreEvent(w, a, m, [b], r);
    assert [a] + [b] == [a, b];
  }

  // ----- Without a service -----

  lemma WorkloadsWithoutService(m: World, pod: Built<Pod>, service: Result<Service>)
    requires m.dev.spec.services != map[] && m.service.None? && service.Err?
    ensures var end := EnsureWorkloads(m, pod, service); !end.Ready? && end.w.service.None? && end.w.dev == m.dev
  {
  }

  lemma ObjectsKeepService(w: World, d: Draw)
    requires Draws(w.dev, d)
    ensures var m := EnsureObjects(w, d).w; m.dev == w.dev && m.service == w.service
  {
    EnsureCertsKeepsDevice(w, d, 0);
    var made := EnsureCertsMakes(w, d, 0);
    FilesKeepService(EnsureCerts(w, d, 0).w, d);
  }

  lemma FilesKeepService(m0: World, d: Draw)
    requires Draws(m0.dev, d)
    ensures var m := EnsureFiles(m0, d).w; m.dev == m0.dev && m.service == m0.service
  {
  }

  lemma NoServiceEnds(w: World, d: Draw)
    requires w.service.None? && ServiceMap(w.dev.spec.services).Err? && Draws(w.dev, d)
    ensures var end := CreateMissing(w, d); !end.Ready? && end.w.service.None? && end.w.dev == w.dev
  {
    if w.dev.spec.services == map[] {
      ServiceAgreesWithoutServices(w);
    }
    ObjectsKeepService(w, d);
    CreationAfterObjects(w, d);
    var m := EnsureObjects(w, d).w;
    WorkloadsWithoutService(m, PodOf(m), ServiceFor(m.dev));
  }

  // While no service can be built no pass gets as far as the comparisons.
  lemma {:induction false} NoServiceNeverRestarts(w: World, es: seq<Event>)
    requires w.service.None? && ServiceMap(w.dev.spec.services).Err? && Run(w, es) && OnlyPasses(es)
    ensures Restarts(es) == 0
    decreases es
  {
    if es == [] {
    } else {
      NoServiceEnds(w, es[0].d);
      NoServiceNeverRestarts(After(w, es[0]), es[1..]);
    }
  }
}

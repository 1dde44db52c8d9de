// Runs of passes with nothing changing in between: exactly when success is reported, and at what cost.
module Progress {
  import opened Basics
  import opened Api
  import opened Names
  import opened Services
  import opened Pods
  import opened Reconcile
  import opened CreationFacts
  import opened Soundness
  import opened Runs
  import opened Convergence

  datatype Turn = Turn(d: Draw, v: Verdict)

  // Pass number `i` is healthy and leads from one world to the next, whatever the map iteration orders.
  ghost predicate StepAt(ws: seq<World>, ts: seq<Turn>, i: nat)
    requires |ws| == |ts| + 1 && i < |ts|
  {
    && Allowed(ws[i], ts[i].d, ts[i].v) && Healthy(ws[i], ts[i].d)
    && ws[i + 1] == Pass(ws[i], ts[i].d, ts[i].v)
  }

  // Consecutive healthy passes through the worlds `ws`.
  ghost predicate Trace(ws: seq<World>, ts: seq<Turn>) {
    |ws| == |ts| + 1 && forall i :: 0 <= i < |ts| ==> StepAt(ws, ts, i)
  }

  function PodDeletions(ts: seq<Turn>): nat {
    if ts == [] then 0 else PodDeletions(ts[..|ts| - 1]) + One(DeletesPod(ts[|ts| - 1].v))
  }

  lemma SyncedIsDone(w: World)
    requires Synced(w) && Core(w)
    ensures Work(w) == 0
  {
    LedgerDoneIffDemanded(w);
    SyncedHasNoWork(w);
  }

  lemma SuccessHasNoWork(w: World, d: Draw, v: Verdict)
    requires Inv(w) && Allowed(w, d, v) && Healthy(w, d) && Work(w) == 0
    ensures var r := Pass(w, d, v); v == InSync && Inv(r) && Synced(r) && r.state == SuccessState && Work(r) == 0
  {
    PassDoesOne(w, d, v);
    var m, late := HealthyPass(w, d, v);
    SuccessIsSynced(w, d, v);
    HealthyPassKeepsInv(w, d, v);
    SyncedIsDone(Pass(w, d, v));
  }

  // What one pass does to the two counts; nothing else about it matters for the number of passes.
  ghost predicate Counts(w: World, t: Turn, r: World) {
    && Inv(r)
    && (t.v == InSync <==> Work(w) == 0)
    && Work(r) == (if Work(w) == 0 then 0 else Work(w) - 1)
    && PodWork(r) == PodWork(w) - One(DeletesPod(t.v))
    && (Work(w) == 0 ==> Synced(r) && r.state == SuccessState)
  }

  lemma TurnCounts(w: World, t: Turn)
    requires Inv(w) && Allowed(w, t.d, t.v) && Healthy(w, t.d)
    ensures Counts(w, t, Pass(w, t.d, t.v))
  {
    HealthyPassKeepsInv(w, t.d, t.v);
    PassDoesOne(w, t.d, t.v);
    if Work(w) == 0 {
      SuccessHasNoWork(w, t.d, t.v);
    }
  }

  lemma StepCounts(ws: seq<World>, ts: seq<Turn>, i: nat)
    requires Trace(ws, ts) && i < |ts| && Inv(ws[i])
    ensures Counts(ws[i], ts[i], ws[i + 1])
  {
    assert StepAt(ws, ts, i);
    TurnCounts(ws[i], ts[i]);
  }

  lemma StepKeepsInv(ws: seq<World>, ts: seq<Turn>, i: nat)
    requires Trace(ws, ts) && i < |ts| && Inv(ws[i])
    ensures Inv(ws[i + 1])
  {
    StepCounts(ws, ts, i);
  }

  lemma {:induction false} InvAfter(ws: seq<World>, ts: seq<Turn>, i: nat)
    requires Trace(ws, ts) && i <= |ts| && Inv(ws[0])
    ensures Inv(ws[i])
  {
    if i == 0 {
    } else {
      InvAfter(ws, ts, i - 1);
      StepKeepsInv(ws, ts, i - 1);
    }
  }

  // The two counts along a trace, as plain numbers.
  predicate CountsAt(work: seq<nat>, podWork: seq<nat>, ts: seq<Turn>, i: nat)
    requires |work| == |podWork| == |ts| + 1 && i < |ts|
  {
    && (ts[i].v == InSync <==> work[i] == 0)
    && work[i + 1] == Minus(work[i], 1)
    && podWork[i + 1] == podWork[i] - One(DeletesPod(ts[i].v))
  }

  ghost predicate CountDown(work: seq<nat>, podWork: seq<nat>, ts: seq<Turn>) {
    && |work| == |podWork| == |ts| + 1
    && forall i :: 0 <= i < |ts| ==> CountsAt(work, podWork, ts, i)
  }

  function Minus(a: nat, b: nat): nat { if a < b then 0 else a - b }

  ghost function Works(ws: seq<World>): seq<nat> { seq(|ws|, i requires 0 <= i < |ws| => Work(ws[i])) }

  ghost function PodWorks(ws: seq<World>): seq<nat> { seq(|ws|, i requires 0 <= i < |ws| => PodWork(ws[i])) }

  lemma TraceCountsDown(ws: seq<World>, ts: seq<Turn>)
    requires Trace(ws, ts) && Inv(ws[0])
    ensures CountDown(Works(ws), PodWorks(ws), ts)
  {
    forall i | 0 <= i < |ts| ensures CountsAt(Works(ws), PodWorks(ws), ts, i) {
      InvAfter(ws, ts, i);
      NumbersAt(ws, ts, i);
    }
  }

  lemma NumbersAt(ws: seq<World>, ts: seq<Turn>, i: nat)
    requires Trace(ws, ts) && i < |ts| && Inv(ws[i])
    ensures CountsAt(Works(ws), PodWorks(ws), ts, i)
  {
    StepCounts(ws, ts, i);
    CountsAsNumbers(Works(ws), PodWorks(ws), ts, i, ws[i], ws[i + 1]);
  }

  lemma CountsAsNumbers(work: seq<nat>, podWork: seq<nat>, ts: seq<Turn>, i: nat, w: World, r: World)
    requires |work| == |podWork| == |ts| + 1 && i < |ts| && Counts(w, ts[i], r)
    requires work[i] == Work(w) && work[i + 1] == Work(r) && podWork[i] == PodWork(w) && podWork[i + 1] == PodWork(r)
    ensures CountsAt(work, podWork, ts, i)
  {
  }

  // After `i` passes that much of the work is left.
  lemma {:induction false} WorkAfter(work: seq<nat>, podWork: seq<nat>, ts: seq<Turn>, i: nat)
    requires CountDown(work, podWork, ts) && i <= |ts|
    ensures work[i] == Minus(work[0], i)
  {
    if i == 0 {
    } else {
      WorkAfter(work, podWork, ts, i - 1);
      assert CountsAt(work, podWork, ts, i - 1);
    }
  }

  lemma {:induction false} DeletionsAfter(work: seq<nat>, podWork: seq<nat>, ts: seq<Turn>, i: nat)
    requires CountDown(work, podWork, ts) && i <= |ts|
    ensures PodDeletions(ts[..i]) + podWork[i] == podWork[0]
  {
    if i == 0 {
    } else {
      DeletionsAfter(work, podWork, ts, i - 1);
      assert CountsAt(work, podWork, ts, i - 1);
      assert ts[..i][..i - 1] == ts[..i - 1];
    }
  }

  lemma PodWorkIsWork(w: World)
    ensures PodWork(w) <= Work(w)
  {
  }

  // Pass number `i` reports success if and only if Work(ws[0]) passes went before it.
  lemma SucceedsExactlyWhen(ws: seq<World>, ts: seq<Turn>, i: nat)
    requires Trace(ws, ts) && i < |ts| && Inv(ws[0])
    ensures ts[i].v == InSync <==> i >= Work(ws[0])
  {
    TraceCountsDown(ws, ts);
    WorkAfter(Works(ws), PodWorks(ws), ts, i);
    assert CountsAt(Works(ws), PodWorks(ws), ts, i);
    assert Works(ws)[0] == Work(ws[0]);
  }

  // What a pass reports success for is in place.
  lemma SuccessAt(ws: seq<World>, ts: seq<Turn>, i: nat)
    requires Trace(ws, ts) && i < |ts| && Inv(ws[0]) && ts[i].v == InSync
    ensures Synced(ws[i + 1]) && ws[i + 1].state == SuccessState
  {
    InvAfter(ws, ts, i);
    StepCounts(ws, ts, i);
  }

  // Never more pod deletions than PodWork says, that is one or none; at success, exactly as many.
  lemma PodDeletedExactly(ws: seq<World>, ts: seq<Turn>, i: nat)
    requires Trace(ws, ts) && i <= |ts| && Inv(ws[0])
    ensures PodDeletions(ts[..i]) <= PodWork(ws[0]) <= 1
    ensures i >= Work(ws[0]) ==> PodDeletions(ts[..i]) == PodWork(ws[0])
  {
    TraceCountsDown(ws, ts);
    DeletionsAfter(Works(ws), PodWorks(ws), ts, i);
    WorkAfter(Works(ws), PodWorks(ws), ts, i);
    PodWorkIsWork(ws[i]);
    assert Works(ws)[0] == Work(ws[0]) && Works(ws)[i] == Work(ws[i]);
    assert PodWorks(ws)[0] == PodWork(ws[0]) && PodWorks(ws)[i] == PodWork(ws[i]);
  }

  // Success comes within m + x + 8 passes, and lasts.
  lemma SuccessWithinBound(ws: seq<World>, ts: seq<Turn>, i: nat)
    requires Trace(ws, ts) && Inv(ws[0]) && i < |ts|
    requires i + 1 >= |OutdatedCerts(ws[0])| + |DroppedCerts(ws[0])| + 8
    ensures ts[i].v == InSync
  {
    WorkBound(ws[0]);
    SucceedsExactlyWhen(ws, ts, i);
  }

  // There is always a next pass.
  lemma PassExists(w: World, d: Draw) returns (v: Verdict)
    requires Inv(w) && Draws(w.dev, d) && Healthy(w, d)
    ensures Allowed(w, d, v)
  {
    HealthyCreates(w, d);
    CreationPrepares(w, d);
    v := VerdictExists(CreateMissing(w, d).w, LateVerdict(CreateMissing(w, d).w));
  }

  lemma VerdictExists(m: World, late: Verdict) returns (v: Verdict)
    requires m.pod.Some?
    ensures Diagnosis(m, v, late)
  {
    if DifferingCerts(m) != {} {
      var n :| n in DifferingCerts(m);
      v := CertDiffers(n);
    } else if DroppedCerts(m) != {} {
      var n :| n in DroppedCerts(m);
      v := CertDropped(n);
    } else {
      v := Diagnose(m, late);
    }
  }

  // A device nobody has reconciled succeeds in its first pass.
  lemma FreshSucceedsAtOnce(w: World, d: Draw, v: Verdict)
    requires Fresh(w) && Allowed(w, d, v) && Healthy(w, d)
    ensures v == InSync && Synced(Pass(w, d, v))
  {
    FreshInv(w);
    FreshHasNoWork(w);
    SuccessHasNoWork(w, d, v);
  }

  lemma FreshHasNoWork(w: World)
    requires Fresh(w)
    ensures Work(w) == 0
  {
  }

  // ----- At rest -----

  lemma {:induction false} NoCertMissing(w: World, d: Draw, i: nat)
    requires i <= |w.dev.spec.selfSignedCerts| && Wanted(w).Keys <= w.secrets.Keys
    ensures EnsureCerts(w, d, i) == Ready(w)
    decreases |w.dev.spec.selfSignedCerts| - i
  {
    if i == |w.dev.spec.selfSignedCerts| {
    } else {
      CertMapFromAt(w.dev.name, w.dev.spec.selfSignedCerts, 0, SecretName(w.dev.name, i));
      NoCertMissing(w, d, i + 1);
    }
  }

  lemma NothingMissing(w: World, d: Draw)
    requires Complete(w) && Draws(w.dev, d)
    ensures CreateMissing(w, d) == Ready(w)
  {
    NoCertMissing(w, d, 0);
    NoFileMissing(w, d);
    NoWorkloadMissing(w, PodOf(w), ServiceFor(w.dev));
  }

  lemma NoFileMissing(w: World, d: Draw)
    requires FilesComplete(w) && Draws(w.dev, d)
    ensures EnsureFiles(w, d) == Ready(w)
  {
  }

  lemma NoWorkloadMissing(w: World, pod: Built<Pod>, service: Result<Service>)
    requires w.pod.Some? && (w.dev.spec.services != map[] ==> w.service.Some?)
    ensures EnsureWorkloads(w, pod, service) == Ready(w)
  {
  }

  // At a synced state a pass creates, deletes and changes nothing at all.
  lemma AtRest(w: World, d: Draw, v: Verdict)
    requires Inv(w) && Synced(w) && w.state == SuccessState
    requires Allowed(w, d, v) && Healthy(w, d)
    ensures v == InSync && Pass(w, d, v) == w
  {
    SyncedIsDone(w);
    PassDoesOne(w, d, v);
    SyncedIsComplete(w);
    NothingMissing(w, d);
    SuccessPass(w, d, w, w);
  }

  lemma SyncedIsComplete(w: World)
    requires Synced(w)
    ensures Complete(w)
  {
  }

  // ----- Restart economy -----

  ghost function Relabelled(w: World, labels: map<string, string>, services: ServiceSpec): World {
    w.(dev := w.dev.(labels := labels, spec := w.dev.spec.(services := services)))
  }

  // New labels or services never restart the pod of a synced device, and are in place within three passes.
  lemma RelabellingKeepsPod(w: World, labels: map<string, string>, services: ServiceSpec, ws: seq<World>,
    ts: seq<Turn>, i: nat)
    requires Inv(w) && Synced(w)
    requires Trace(ws, ts) && ws[0] == Relabelled(w, labels, services) && 2 <= i < |ts|
    ensures PodDeletions(ts) == 0 && ts[i].v == InSync
  {
    var r := Relabelled(w, labels, services);
    RelabelledInv(w, labels, services);
    RelabelledWork(w, labels, services);
    FewPasses(ws, ts, i);
  }

  lemma FewPasses(ws: seq<World>, ts: seq<Turn>, i: nat)
    requires Trace(ws, ts) && Inv(ws[0]) && PodWork(ws[0]) == 0 && Work(ws[0]) <= 2 <= i < |ts|
    ensures PodDeletions(ts) == 0 && ts[i].v == InSync
  {
    SucceedsExactlyWhen(ws, ts, i);
    PodDeletedExactly(ws, ts, |ts|);
    assert ts[..|ts|] == ts;
  }

  lemma RelabelledWork(w: World, labels: map<string, string>, services: ServiceSpec)
    requires Inv(w) && Synced(w)
    ensures var r := Relabelled(w, labels, services); PodWork(r) == 0 && Work(r) <= 2
  {
    RelabelledLedger(w, labels, services);
    RelabelledFields(w, labels, services);
    NoPodWork(Relabelled(w, labels, services));
  }

  lemma RelabelledInv(w: World, labels: map<string, string>, services: ServiceSpec)
    requires Inv(w)
    ensures Inv(Relabelled(w, labels, services))
  {
    EventKeepsInv(w, Edit(labels, w.dev.spec.(services := services)));
  }

  lemma RelabelledLedger(w: World, labels: map<string, string>, services: ServiceSpec)
    requires Synced(w) && Core(w)
    ensures var r := Relabelled(w, labels, services); LedgerWork(r) == 0 && r.snap == Demanded(r) && r.pod.Some?
  {
    LedgerDoneIffDemanded(w);
    RelabelledSameLedgerWork(w, labels, services);
    RelabelledSameDemand(w, labels, services);
  }

  lemma RelabelledSameLedgerWork(w: World, labels: map<string, string>, services: ServiceSpec)
    ensures LedgerWork(Relabelled(w, labels, services)) == LedgerWork(w)
  {
  }

  lemma RelabelledSameDemand(w: World, labels: map<string, string>, services: ServiceSpec)
    ensures Demanded(Relabelled(w, labels, services)) == Demanded(w)
  {
  }

  lemma RelabelledFields(w: World, labels: map<string, string>, services: ServiceSpec)
    requires w.pod.Some? && FieldsAgree(w.dev, w.lib, w.pod.value)
    ensures FieldsAgree(Relabelled(w, labels, services).dev, w.lib, w.pod.value)
  {
    var r := Relabelled(w, labels, services);
    forall field ensures FieldAgrees(r.dev, w.lib, w.pod.value, field) {
      assert FieldAgrees(w.dev, w.lib, w.pod.value, field);
    }
  }

  lemma NoPodWork(r: World)
    requires LedgerWork(r) == 0 && r.snap == Demanded(r) && r.pod.Some? && FieldsAgree(r.dev, r.lib, r.pod.value)
    ensures PodWork(r) == 0 && Work(r) <= 2
  {
  }

  // ----- Any number of such edits -----

  lemma RelabellingKeepsPodWork(w: World, labels: map<string, string>, services: ServiceSpec)
    ensures PodWork(Relabelled(w, labels, services)) == PodWork(w)
  {
    var r := Relabelled(w, labels, services);
    RelabelledSameLedgerWork(w, labels, services);
    RelabelledSameDemand(w, labels, services);
    if w.pod.Some? {
      RelabelledFieldsExactly(w, labels, services);
    }
  }

  lemma RelabelledFieldsExactly(w: World, labels: map<string, string>, services: ServiceSpec)
    requires w.pod.Some?
    ensures FieldsAgree(w.dev, w.lib, w.pod.value) <==>
            FieldsAgree(Relabelled(w, labels, services).dev, w.lib, w.pod.value)
  {
    var r := Relabelled(w, labels, services);
    if FieldsAgree(w.dev, w.lib, w.pod.value) {
      RelabelledFields(w, labels, services);
    }
    if FieldsAgree(r.dev, r.lib, r.pod.value) {
      RelabelledFields(r, w.dev.labels, w.dev.spec.services);
      assert Relabelled(r, w.dev.labels, w.dev.spec.services) == w;
    }
  }

  // Healthy passes and edits of labels and services, in any order.
  ghost predicate RelabellingRun(w: World, es: seq<Event>)
    requires Run(w, es)
    decreases es
  {
    es == [] || (
      && match es[0] {
           case PassEvent(d, _) => Healthy(w, d)
           case Edit(_, spec) => spec == w.dev.spec.(services := spec.services)
           case _ => false
         }
      && RelabellingRun(After(w, es[0]), es[1..]))
  }

  function Restarts(es: seq<Event>): nat {
    if es == [] then 0 else One(es[0].PassEvent? && DeletesPod(es[0].v)) + Restarts(es[1..])
  }

  lemma RelabellingEvent(w: World, e: Event)
    requires Inv(w) && Run(w, [e]) && RelabellingRun(w, [e])
    ensures Inv(After(w, e))
    ensures PodWork(After(w, e)) + One(e.PassEvent? && DeletesPod(e.v)) == PodWork(w)
  {
    EventKeepsInv(w, e);
    if e.PassEvent? {
      PassDoesOne(w, e.d, e.v);
    } else {
      RelabellingKeepsPodWork(w, e.labels, e.spec.services);
    }
  }

  // From any world, a run that edits only labels and services deletes the pod exactly as often as was due
  // before it, less what is still due at its end.
  lemma {:induction false} RelabellingRestarts(w: World, es: seq<Event>)
    requires Inv(w) && Run(w, es) && RelabellingRun(w, es)
    ensures Inv(End(w, es)) && Restarts(es) + PodWork(End(w, es)) == PodWork(w)
    decreases es
  {
    if es == [] {
    } else {
      RelabellingEvent(w, es[0]);
      RelabellingRestarts(After(w, es[0]), es[1..]);
    }
  }

  // So from a synced device there is no restart at all.
  lemma RelabellingNeverRestarts(w: World, es: seq<Event>)
    requires Inv(w) && Synced(w) && Run(w, es) && RelabellingRun(w, es)
    ensures Restarts(es) == 0
  {
    SyncedIsDone(w);
    PodWorkIsWork(w);
    RelabellingRestarts(w, es);
  }

  // ----- Any healthy run -----

  function Disturbances(es: seq<Event>): nat {
    if es == [] then 0 else One(!es[0].PassEvent?) + Disturbances(es[1..])
  }

  lemma HealthyEvent(w: World, e: Event)
    requires Inv(w) && Enabled(w, e) && (e.PassEvent? ==> Healthy(w, e.d))
    ensures Inv(After(w, e))
    ensures One(e.PassEvent? && DeletesPod(e.v)) + PodWork(After(w, e)) <= PodWork(w) + One(!e.PassEvent?)
  {
    EventKeepsInv(w, e);
    if e.PassEvent? {
      PassDoesOne(w, e.d, e.v);
    }
  }

  // Whatever happens between healthy passes, each event that is not a pass costs at most one restart.
  lemma {:induction false} DisturbancesBoundRestarts(w: World, es: seq<Event>)
    requires Inv(w) && Run(w, es) && HealthyRun(w, es)
    ensures Inv(End(w, es)) && Restarts(es) + PodWork(End(w, es)) <= PodWork(w) + Disturbances(es)
    decreases es
  {
    if es == [] {
    } else {
      HealthyEvent(w, es[0]);
      DisturbancesBoundRestarts(After(w, es[0]), es[1..]);
    }
  }
}

// What a pass does, object by object: what it creates, which mismatch it acts on, and what that changes.
module Effects {
  import opened Basics
  import opened Api
  import opened Names
  import opened Files
  import opened Services
  import opened Volumes
  import opened Pods
  import opened Reconcile
  import opened CreationFacts
  import opened Soundness
  import opened Exits
  import opened Mounts
  import opened AskedVolumes
  import opened AskedFiles
  import opened AskedServices
  import opened AskedPods
  import opened Asked

  // ----- Which mismatch -----

  // A missing record reads as the zero configuration.
  predicate RecordedOtherwise(l: Ledger, n: string, c: CertConfig) {
    c != if n in Entries(l.selfSignedCertStatus) then Entries(l.selfSignedCertStatus)[n] else CertConfig("", "", 0, "")
  }

  // A blank service is observed if none is configured.
  function PortsFound(m: World): seq<ServicePort> {
    if m.dev.spec.services != map[] && m.service.Some? then m.service.value.ports else []
  }

  // What each comparison is about.
  ghost predicate Mismatch(m: World, v: Verdict)
    requires m.pod.Some?
  {
    var spec, l := m.dev.spec, m.live;
    match v
    case NotReached => false
    case CertDiffers(n) => exists c :: CertAsked(m.dev, n, c) && RecordedOtherwise(l, n, c)
    case CertDropped(n) => n in Entries(l.selfSignedCertStatus) && !CertNamed(m.dev, n)
    case RcEosStale => l.rcEosStale
    case IntfDropped => l.intfMappingStatus.Of? && spec.intfMapping == map[]
    case IntfDiffers =>
      l.intfMappingStatus.Of? && spec.intfMapping != map[] && l.intfMappingStatus.entries != spec.intfMapping
    case TogglesDropped => l.toggleOverridesStatus.Of? && spec.toggleOverrides == map[]
    case TogglesDiffer =>
      l.toggleOverridesStatus.Of? && spec.toggleOverrides != map[]
      && l.toggleOverridesStatus.entries != spec.toggleOverrides
    case StartupDropped => l.startupConfigResourceVersion.Some? && m.startup.None?
    case StartupDiffers =>
      l.startupConfigResourceVersion.Some? && m.startup.Some?
      && l.startupConfigResourceVersion.value != m.startup.value.resourceVersion
    case PodOutdated => m.snap != l
    case LabelsDiffer => !LabelsAsked(m.dev, m.pod.value.labels)
    case PodDiffers(field) =>
      !FieldAsked(m.dev, m.lib, m.pod.value, field) && (field.Resources? ==> !Unparsable(m.lib, spec.resources))
    case ResourcesInvalid => Unparsable(m.lib, spec.resources)
    case ServicesInvalid => AsksConflict(spec.services)
    case ServiceDiffers => !AsksConflict(spec.services) && !PortsAsked(spec.services, PortsFound(m))
    case InSync => true
  }

  // The order of the comparisons.
  function Turn(v: Verdict): nat {
    match v
    case CertDiffers(_) => 0
    case CertDropped(_) => 1
    case RcEosStale => 2
    case IntfDropped => 3
    case IntfDiffers => 3
    case TogglesDropped => 4
    case TogglesDiffer => 4
    case StartupDropped => 5
    case StartupDiffers => 5
    case PodOutdated => 6
    case LabelsDiffer => 7
    case PodDiffers(field) =>
      (match field
       case EnvVars => 8
       case Image => 9
       case Resources => 11
       case Args => 12
       case InitArgs => 13
       case InitImage => 14
       case Agents => 17)
    case ResourcesInvalid => 10
    case ServicesInvalid => 15
    case ServiceDiffers => 16
    case InSync => 18
    case NotReached => 19
  }

  ghost predicate FirstMismatch(m: World, v: Verdict)
    requires m.pod.Some?
  {
    Mismatch(m, v) && forall u :: Turn(u) < Turn(v) ==> !Mismatch(m, u)
  }

  // `off` says what does not match; `v` is the first of it.
  ghost predicate IsFirst(off: Verdict -> bool, v: Verdict) {
    off(v) && forall u :: Turn(u) < Turn(v) ==> !off(u)
  }

  // The same among some of the verdicts.
  ghost predicate IsFirstOf(some: Verdict -> bool, off: Verdict -> bool, v: Verdict) {
    some(v) && off(v) && forall u :: some(u) && Turn(u) < Turn(v) ==> !off(u)
  }

  ghost predicate LateOff(differing: set<PodField>, parseable: bool, validServices: bool, serviceAgrees: bool,
                          off: Verdict -> bool)
  {
    && (forall field :: off(PodDiffers(field)) <==> field in differing && (field.Resources? ==> parseable))
    && (off(ResourcesInvalid) <==> !parseable) && (off(ServicesInvalid) <==> !validServices)
    && (off(ServiceDiffers) <==> validServices && !serviceAgrees) && off(InSync)
  }

  // The comparisons of the pod's fields and of the services.
  lemma FieldVerdictIsFirst(differing: set<PodField>, parseable: bool, validServices: bool, serviceAgrees: bool,
                            off: Verdict -> bool)
    requires LateOff(differing, parseable, validServices, serviceAgrees, off)
    ensures IsFirstOf(v => IsLate(v), off, FieldVerdict(differing, parseable, validServices, serviceAgrees))
  {
    var v := FieldVerdict(differing, parseable, validServices, serviceAgrees);
    forall u | IsLate(u) && Turn(u) < Turn(v) ensures !off(u) {
    }
  }

  lemma FieldMismatch(m: World, field: PodField)
    requires m.pod.Some?
    ensures Mismatch(m, PodDiffers(field)) <==>
            field in DifferingFields(m) && (field.Resources? ==> Parseable(m.lib, m.dev.spec.resources))
  {
    var v, resources := PodDiffers(field), m.dev.spec.resources;
    FieldExactly(m.dev, m.lib, m.pod.value, field);
    RequestsExactly(m.lib, resources, m.pod.value.requests);
    assert Mismatch(m, v) <==>
           !FieldAsked(m.dev, m.lib, m.pod.value, field) && (field.Resources? ==> !Unparsable(m.lib, resources));
  }

  lemma ResourceMismatch(m: World)
    requires m.pod.Some?
    ensures Mismatch(m, ResourcesInvalid) <==> !Parseable(m.lib, m.dev.spec.resources)
  {
    RequestsExactly(m.lib, m.dev.spec.resources, m.pod.value.requests);
  }

  lemma ConflictMismatch(m: World)
    requires m.pod.Some?
    ensures Mismatch(m, ServicesInvalid) <==> ServiceMap(m.dev.spec.services).Err?
  {
    FailsIffAsksConflict(m.dev.spec.services);
  }

  lemma ServiceMismatch(m: World)
    requires m.pod.Some?
    ensures Mismatch(m, ServiceDiffers) <==> ServiceMap(m.dev.spec.services).Ok? && !ServiceAgrees(m)
  {
    ConflictMismatch(m);
    PortsAgree(m);
    ServiceOff(m);
  }

  lemma ServiceOff(m: World)
    requires m.pod.Some?
    ensures Mismatch(m, ServiceDiffers) <==>
            !Mismatch(m, ServicesInvalid) && !PortsAsked(m.dev.spec.services, PortsFound(m))
  {
  }

  lemma PortsAgree(m: World)
    ensures ServiceAgrees(m) <==> PortsAsked(m.dev.spec.services, PortsFound(m))
  {
    ServiceAgreesExactly(m.dev.spec.services, PortsFound(m));
  }

  ghost predicate Says(off: Verdict -> bool, m: World)
    requires m.pod.Some?
  {
    forall v :: off(v) <==> Mismatch(m, v)
  }

  lemma LateOffHere(m: World, off: Verdict -> bool)
    requires m.pod.Some? && Says(off, m)
    ensures LateOff(DifferingFields(m), Parseable(m.lib, m.dev.spec.resources),
                    ServiceMap(m.dev.spec.services).Ok?, ServiceAgrees(m), off)
  {
    forall field
      ensures off(PodDiffers(field)) <==>
              field in DifferingFields(m) && (field.Resources? ==> Parseable(m.lib, m.dev.spec.resources))
    {
      FieldMismatch(m, field);
    }
    ResourceMismatch(m);
    ConflictMismatch(m);
    ServiceMismatch(m);
    assert Mismatch(m, InSync);
  }

  lemma LateIsFirst(m: World, off: Verdict -> bool)
    requires m.pod.Some? && Says(off, m)
    ensures IsFirstOf(v => IsLate(v), off, LateVerdict(m))
  {
    LateOffHere(m, off);
    FieldVerdictIsFirst(DifferingFields(m), Parseable(m.lib, m.dev.spec.resources),
                        ServiceMap(m.dev.spec.services).Ok?, ServiceAgrees(m), off);
  }

  predicate IsLedger(v: Verdict) {
    v.RcEosStale? || v.IntfDropped? || v.IntfDiffers? || v.TogglesDropped? || v.TogglesDiffer?
    || v.StartupDropped? || v.StartupDiffers?
  }

  lemma CertMismatches(m: World, n: string)
    requires m.pod.Some?
    ensures n in DifferingCerts(m) <==> Mismatch(m, CertDiffers(n))
    ensures n in DroppedCerts(m) <==> Mismatch(m, CertDropped(n))
  {
    WantedExactly(m, n, ZERO_CERT);
    if n in Wanted(m) {
      WantedExactly(m, n, Wanted(m)[n]);
    }
    if c :| CertAsked(m.dev, n, c) && RecordedOtherwise(m.live, n, c) {
      WantedExactly(m, n, c);
    }
  }

  ghost predicate LedgerOff(ledger: Verdict, off: Verdict -> bool) {
    if ledger.InSync? then forall u :: IsLedger(u) ==> !off(u)
    else
      && IsLedger(ledger) && off(ledger)
      && forall u :: IsLedger(u) && Turn(u) <= Turn(ledger) && u != ledger ==> !off(u)
  }

  lemma LedgerIsFirst(m: World, off: Verdict -> bool)
    requires m.pod.Some? && Says(off, m)
    ensures LedgerOff(LedgerVerdict(m.dev.spec, m.live, m.startup), off)
  {
  }

  lemma SameTurn(u: Verdict, v: Verdict)
    requires Turn(u) == Turn(v) && IsLate(u)
    ensures u == v
  {
  }

  // A certificate comes first; which of them is left open.
  lemma CertIsFirst(off: Verdict -> bool, differing: set<string>, dropped: set<string>, v: Verdict)
    requires forall n :: n in differing <==> off(CertDiffers(n))
    requires forall n :: n in dropped <==> off(CertDropped(n))
    requires differing != {} || dropped != {}
    ensures IsFirst(off, v) <==>
            if differing != {} then v.CertDiffers? && v.name in differing else v.CertDropped? && v.name in dropped
  {
    if n :| n in differing {
      assert off(CertDiffers(n)) && Turn(CertDiffers(n)) == 0;
    } else {
      var n :| n in dropped;
      assert off(CertDropped(n)) && Turn(CertDropped(n)) == 1;
    }
  }

  // Certificates, ledger, snapshot, labels, and the rest.
  lemma ChainIsFirst(off: Verdict -> bool, differing: set<string>, dropped: set<string>, ledger: Verdict,
                     late: Verdict, v: Verdict)
    requires forall n :: n in differing <==> off(CertDiffers(n))
    requires forall n :: n in dropped <==> off(CertDropped(n))
    requires LedgerOff(ledger, off) && IsFirstOf(v => IsLate(v), off, late) && !off(NotReached)
    ensures IsFirst(off, v) <==>
            if differing != {} then v.CertDiffers? && v.name in differing
            else if dropped != {} then v.CertDropped? && v.name in dropped
            else v == ChainVerdict(ledger, off(PodOutdated), off(LabelsDiffer), late)
  {
    if differing != {} || dropped != {} {
      CertIsFirst(off, differing, dropped, v);
    } else {
      RestIsFirst(off, ledger, late, v);
    }
  }

  ghost predicate NoCertOff(off: Verdict -> bool) { forall n :: !off(CertDiffers(n)) && !off(CertDropped(n)) }

  lemma RestIsFirst(off: Verdict -> bool, ledger: Verdict, late: Verdict, v: Verdict)
    requires NoCertOff(off) && LedgerOff(ledger, off) && IsFirstOf(v => IsLate(v), off, late) && !off(NotReached)
    ensures IsFirst(off, v) <==> v == ChainVerdict(ledger, off(PodOutdated), off(LabelsDiffer), late)
  {
    var first := ChainVerdict(ledger, off(PodOutdated), off(LabelsDiffer), late);
    ChainOff(off, ledger, late, first);
    if IsFirst(off, v) {
      assert Turn(v) == Turn(first);
      OneFirst(off, ledger, late, v, first);
    }
  }

  lemma ChainOff(off: Verdict -> bool, ledger: Verdict, late: Verdict, first: Verdict)
    requires NoCertOff(off) && LedgerOff(ledger, off) && IsFirstOf(v => IsLate(v), off, late) && !off(NotReached)
    requires first == ChainVerdict(ledger, off(PodOutdated), off(LabelsDiffer), late)
    ensures IsFirst(off, first)
  {
    forall u | Turn(u) < Turn(first) ensures !off(u) {
      NothingBefore(off, ledger, late, first, u);
    }
  }

  lemma NothingBefore(off: Verdict -> bool, ledger: Verdict, late: Verdict, first: Verdict, u: Verdict)
    requires NoCertOff(off) && LedgerOff(ledger, off) && IsFirstOf(v => IsLate(v), off, late) && !off(NotReached)
    requires first == ChainVerdict(ledger, off(PodOutdated), off(LabelsDiffer), late) && Turn(u) < Turn(first)
    ensures !off(u)
  {
  }

  // No two that do not match have one turn, except for certificates.
  lemma OneFirst(off: Verdict -> bool, ledger: Verdict, late: Verdict, v: Verdict, first: Verdict)
    requires NoCertOff(off) && LedgerOff(ledger, off) && !off(NotReached) && IsLate(late)
    requires first == ChainVerdict(ledger, off(PodOutdated), off(LabelsDiffer), late)
    requires off(v) && Turn(v) == Turn(first)
    ensures v == first
  {
    if IsLate(first) {
      SameTurn(first, v);
    }
  }

  lemma CertsOff(m: World, off: Verdict -> bool)
    requires m.pod.Some? && Says(off, m)
    ensures forall n :: n in DifferingCerts(m) <==> off(CertDiffers(n))
    ensures forall n :: n in DroppedCerts(m) <==> off(CertDropped(n))
  {
    forall n
      ensures n in DifferingCerts(m) <==> off(CertDiffers(n))
      ensures n in DroppedCerts(m) <==> off(CertDropped(n))
    {
      CertMismatches(m, n);
    }
  }

  lemma LabelsOff(m: World, off: Verdict -> bool)
    requires m.pod.Some? && Says(off, m)
    ensures off(LabelsDiffer) <==> LabelsOf(m.dev) != m.pod.value.labels
    ensures off(PodOutdated) <==> m.snap != m.live
    ensures !off(NotReached)
  {
    LabelsExactly(m.dev, m.pod.value.labels);
  }

  lemma FirstIsFirst(m: World, off: Verdict -> bool, v: Verdict)
    requires m.pod.Some? && Says(off, m)
    ensures FirstMismatch(m, v) <==> IsFirst(off, v)
  {
  }

  lemma MismatchSays(m: World) returns (off: Verdict -> bool)
    requires m.pod.Some?
    ensures Says(off, m)
  {
    off := u => Mismatch(m, u);
  }

  // The verdicts a pass can reach: exactly the first mismatches in the order of the comparisons.
  lemma VerdictIsFirstMismatch(m: World, v: Verdict)
    requires m.pod.Some?
    ensures Diagnosis(m, v, LateVerdict(m)) <==> FirstMismatch(m, v)
  {
    var off := MismatchSays(m);
    CertsOff(m, off);
    LedgerIsFirst(m, off);
    LateIsFirst(m, off);
    LabelsOff(m, off);
    ChainIsFirst(off, DifferingCerts(m), DroppedCerts(m), LedgerVerdict(m.dev.spec, m.live, m.startup),
                 LateVerdict(m), v);
    DiagnosisIsChain(m, v, off(PodOutdated), off(LabelsDiffer));
    FirstIsFirst(m, off, v);
  }

  lemma DiagnosisIsChain(m: World, v: Verdict, outdated: bool, labels: bool)
    requires m.pod.Some?
    requires (outdated <==> m.snap != m.live) && (labels <==> LabelsOf(m.dev) != m.pod.value.labels)
    ensures Diagnosis(m, v, LateVerdict(m)) <==>
            if DifferingCerts(m) != {} then v.CertDiffers? && v.name in DifferingCerts(m)
            else if DroppedCerts(m) != {} then v.CertDropped? && v.name in DroppedCerts(m)
            else v == ChainVerdict(LedgerVerdict(m.dev.spec, m.live, m.startup), outdated, labels, LateVerdict(m))
  {
  }

  // ----- What the verdict changes -----

  predicate ActsOnCert(v: Verdict) { v.CertDiffers? || v.CertDropped? }

  predicate ActsOnIntf(v: Verdict) { v.IntfDiffers? || v.IntfDropped? }

  predicate ActsOnToggles(v: Verdict) { v.TogglesDiffer? || v.TogglesDropped? }

  // The objects after a pass that found `v` in `m`, one by one: at most one of them is gone or changed.
  ghost predicate ObjectsAfter(m: World, v: Verdict, r: World) {
    && r.dev == m.dev && r.lib == m.lib && r.startup == m.startup
    && r.secrets == (if ActsOnCert(v) then m.secrets - {v.name} else m.secrets)
    && r.rcEos == (if v.RcEosStale? then None else m.rcEos)
    && r.intfMap == (if ActsOnIntf(v) then None else m.intfMap)
    && r.toggles == (if ActsOnToggles(v) then None else m.toggles)
    && r.service == (if v.ServiceDiffers? then None else m.service)
    && PodAfter(m, v, r)
  }

  // Deleted, relabelled, or left alone.
  ghost predicate PodAfter(m: World, v: Verdict, r: World) {
    if v.PodOutdated? || v.PodDiffers? then r.pod.None?
    else if v.LabelsDiffer? then
      && m.pod.Some? && r.pod.Some? && LabelsAsked(m.dev, r.pod.value.labels)
      && r.pod.value == m.pod.value.(labels := r.pod.value.labels)
    else r.pod == m.pod
  }

  predicate LedgerAfter(m: World, v: Verdict, l: Ledger) {
    && (if v.CertDropped? then
          && Entries(l.selfSignedCertStatus) == Entries(m.live.selfSignedCertStatus) - {v.name}
          && (l.selfSignedCertStatus.Nil? <==> Entries(l.selfSignedCertStatus) == map[])
        else l.selfSignedCertStatus == m.live.selfSignedCertStatus)
    && l.rcEosStale == (if ActsOnCert(v) then true
                        else if v.RcEosStale? then m.dev.spec.selfSignedCerts != [] else m.live.rcEosStale)
    && l.intfMappingStatus == (if v.IntfDropped? then Nil else m.live.intfMappingStatus)
    && l.toggleOverridesStatus == (if v.TogglesDropped? then Nil else m.live.toggleOverridesStatus)
    && (v.StartupDropped? ==> l.startupConfigResourceVersion == None)
    && (!v.StartupDropped? && !v.StartupDiffers? ==>
          l.startupConfigResourceVersion == m.live.startupConfigResourceVersion)
  }

  predicate StatusAfter(w: World, m: World, v: Verdict, r: World) {
    if v.ServicesInvalid? then r.live == w.live && r.snap == w.snap && r.state == w.state
    else
      && LedgerAfter(m, v, r.live) && r.snap == m.snap
      && r.state == (if v.InSync? then SuccessState else if v.ResourcesInvalid? then FailedState else ReconcilingState)
  }

  lemma RepairActs(w: World, m: World, v: Verdict)
    requires m.pod.Some? && v != NotReached
    ensures ObjectsAfter(m, v, Repair(w, m, v))
  {
    LabelsExactly(m.dev, LabelsOf(m.dev));
  }

  lemma RepairRecords(w: World, m: World, v: Verdict)
    requires v != NotReached
    ensures StatusAfter(w, m, v, Repair(w, m, v))
  {
  }

  // What is left by a pass, and what the work queue is told.
  ghost predicate PassLeaves(w: World, end: Creation, v: Verdict, r: World, outcome: Outcome) {
    match end
    case Failed(m) => v == NotReached && r == m.(state := FailedState) && outcome == Error
    case Crashed(m) => v == NotReached && r == m.(live := w.live, snap := w.snap, state := w.state) && outcome == Panic
    case Ready(m) =>
      && m.pod.Some? && FirstMismatch(m, v) && ObjectsAfter(m, v, r) && StatusAfter(w, m, v, r)
      && outcome == if v.InSync? || v.ResourcesInvalid? then Done else if v.ServicesInvalid? then Error else Requeue
  }

  // The whole of a pass after its creating half.
  lemma PassEffects(w: World, d: Draw, v: Verdict)
    requires Canonical(w.live) && Canonical(w.snap) && Allowed(w, d, v)
    ensures PassLeaves(w, CreateMissing(w, d), v, Pass(w, d, v), OutcomeOf(w, d, v))
  {
    var end := CreateMissing(w, d);
    PassIsRaw(w, d, v, end);
    EndEffects(w, end, v);
  }

  lemma EndEffects(w: World, end: Creation, v: Verdict)
    requires AllowedFrom(end, v)
    ensures PassLeaves(w, end, v, RawPassFrom(w, end, v), OutcomeFrom(end, v))
  {
    if end.Ready? {
      VerdictIsFirstMismatch(end.w, v);
      RepairActs(w, end.w, v);
      RepairRecords(w, end.w, v);
    }
  }

  // A pass deletes a pod it finds exactly on these verdicts, whatever else happens in it.
  lemma PodRemovedExactly(w: World, d: Draw, v: Verdict)
    requires Canonical(w.live) && Canonical(w.snap) && Allowed(w, d, v) && w.pod.Some?
    ensures Pass(w, d, v).pod.None? <==> v.PodOutdated? || v.PodDiffers?
    ensures Pass(w, d, v).pod.None? <==> DeletesPod(v)
    ensures Pass(w, d, v).pod == w.pod || v.LabelsDiffer? || Pass(w, d, v).pod.None?
  {
    PassEffects(w, d, v);
    CreationOnlyAdds(w, d);
  }

  // The state of a saved pass: success if everything was found in place, failed if the creating half failed
  // or the quantities do not parse, and otherwise reconciling.
  lemma StateTells(w: World, d: Draw, v: Verdict)
    requires Canonical(w.live) && Canonical(w.snap) && Allowed(w, d, v)
    requires !CreateMissing(w, d).Crashed? && !v.ServicesInvalid?
    ensures Pass(w, d, v).state
         == (if v.InSync? then SuccessState
             else if CreateMissing(w, d).Failed? || v.ResourcesInvalid? then FailedState else ReconcilingState)
  {
    PassEffects(w, d, v);
  }

  // Quantities that do not parse: the device has failed, and nothing else has changed.
  lemma UnparsableFailsAndKeeps(w: World, d: Draw, m: World)
    requires Canonical(w.live) && Canonical(w.snap) && Allowed(w, d, ResourcesInvalid)
    requires CreateMissing(w, d) == Ready(m)
    ensures Pass(w, d, ResourcesInvalid) == m.(state := FailedState) && OutcomeOf(w, d, ResourcesInvalid) == Done
    ensures Unparsable(w.lib, w.dev.spec.resources)
  {
    PassIsRaw(w, d, ResourcesInvalid, Ready(m));
    UnparsableRepair(w, m);
    VerdictIsFirstMismatch(m, ResourcesInvalid);
    CreationOnlyAdds(w, d);
  }

  lemma UnparsableRepair(w: World, m: World)
    requires AllowedFrom(Ready(m), ResourcesInvalid)
    ensures RawPassFrom(w, Ready(m), ResourcesInvalid) == m.(state := FailedState)
    ensures OutcomeFrom(Ready(m), ResourcesInvalid) == Done
  {
  }

  // ----- What is created -----

  // A file that was there is kept; a new one is a configured one.
  ghost predicate FilesAdded(w: World, m: World) {
    var spec := w.dev.spec;
    && (if w.rcEos.Some? || spec.selfSignedCerts == [] then m.rcEos == w.rcEos
        else m.rcEos.Some? ==> IsBootScript(m.rcEos.value, spec.selfSignedCerts))
    && (if w.intfMap.Some? || spec.intfMapping == map[] then m.intfMap == w.intfMap
        else m.intfMap.Some? ==>
               ValidNames(spec.intfMapping) && IsMappingFile(m.intfMap.value, spec.intfMapping)
               && m.live.intfMappingStatus == Of(spec.intfMapping))
    && (if w.toggles.Some? || spec.toggleOverrides == map[] then m.toggles == w.toggles
        else m.toggles.Some? ==>
               IsToggleFile(m.toggles.value, spec.toggleOverrides)
               && m.live.toggleOverridesStatus == Of(spec.toggleOverrides))
  }

  // A new secret is made from a configured certificate, and recorded.
  ghost predicate SecretsAdded(w: World, m: World) {
    && w.secrets.Keys <= m.secrets.Keys && (forall n :: n in w.secrets ==> m.secrets[n] == w.secrets[n])
    && forall n :: n in m.secrets && n !in w.secrets ==>
         exists c :: CertAsked(w.dev, n, c) && IsCertSecret(m.secrets[n], c) && RecordedAs(m.live, n, c)
  }

  // A new pod is the one for the configured objects, and comes with the ledger; a new service is the
  // configured one.
  ghost predicate WorkloadsAdded(w: World, m: World) {
    && (if w.pod.Some? || m.pod.None? then m.pod == w.pod && m.snap == w.snap
        else PodFor(w.dev, w.lib, ConfiguredObjects(m)) == Built(m.pod.value) && m.snap == m.live)
    && (if w.service.Some? || w.dev.spec.services == map[] || m.service.None? then m.service == w.service
        else ServiceFor(w.dev) == Ok(m.service.value))
  }

  // With nothing in the way everything configured is there.
  ghost predicate NothingMissing(w: World, m: World) {
    var spec := w.dev.spec;
    && (forall n :: CertNamed(w.dev, n) ==> n in m.secrets)
    && (spec.selfSignedCerts != [] ==> m.rcEos.Some?)
    && (spec.intfMapping != map[] ==> m.intfMap.Some?) && (spec.toggleOverrides != map[] ==> m.toggles.Some?)
    && m.pod.Some? && (spec.services != map[] ==> m.service.Some?)
  }

  // The ledger follows: a file that is not new keeps its record, a new script is not stale, new secrets
  // make an old one stale, and the startup config is noted by its version.
  predicate FilesNoted(w: World, m: World) {
    && (m.intfMap == w.intfMap ==> m.live.intfMappingStatus == w.live.intfMappingStatus)
    && (m.toggles == w.toggles ==> m.live.toggleOverridesStatus == w.live.toggleOverridesStatus)
    && (|| m.live.startupConfigResourceVersion == w.live.startupConfigResourceVersion
        || (w.startup.Some? && m.live.startupConfigResourceVersion == Some(w.startup.value.resourceVersion)))
  }

  ghost predicate SecretsNoted(w: World, m: World) {
    && (forall n :: n in w.secrets || n !in m.secrets ==> SameRecord(w.live, m.live, n))
    && m.live.rcEosStale == ((w.live.rcEosStale || m.secrets.Keys != w.secrets.Keys) && m.rcEos == w.rcEos)
  }

  ghost predicate ObjectsAdded(w: World, m: World) {
    SecretsAdded(w, m) && SecretsNoted(w, m) && FilesAdded(w, m) && FilesNoted(w, m)
  }

  ghost predicate Added(w: World, m: World) {
    && m.dev == w.dev && m.lib == w.lib && m.startup == w.startup && m.state == w.state
    && ObjectsAdded(w, m) && WorkloadsAdded(w, m)
  }

  lemma {:induction false} CertsAdd(w: World, d: Draw, i: nat)
    requires i <= |w.dev.spec.selfSignedCerts|
    ensures SecretsAdded(w, EnsureCerts(w, d, i).w)
    decreases |w.dev.spec.selfSignedCerts| - i
  {
    if i == |w.dev.spec.selfSignedCerts| {
    } else if SecretName(w.dev.name, i) in w.secrets {
      CertsAdd(w, d, i + 1);
    } else if i !in d.badKeys {
      var a := AddCert(w, i);
      var made := EnsureCertsMakes(a, d, i + 1);
      CertsAdd(a, d, i + 1);
      OneMoreSecret(w, i, EnsureCerts(a, d, i + 1).w, made);
    }
  }

  lemma OneMoreSecret(w: World, i: nat, m: World, made: map<string, CertConfig>)
    requires i < |w.dev.spec.selfSignedCerts| && SecretName(w.dev.name, i) !in w.secrets
    requires SecretsAdded(AddCert(w, i), m) && CertsMade(AddCert(w, i), m, made)
    ensures SecretsAdded(w, m)
  {
    var name, c := SecretName(w.dev.name, i), w.dev.spec.selfSignedCerts[i];
    var a := AddCert(w, i);
    assert CertAskedAt(w.dev, i, name, c);
    CertSecretExactly(a.secrets[name], c);
    assert SameRecord(a.live, m.live, name);
    assert CertAsked(w.dev, name, c) && IsCertSecret(m.secrets[name], c) && RecordedAs(m.live, name, c);
    forall n | n in m.secrets && n !in w.secrets
      ensures exists c :: CertAsked(w.dev, n, c) && IsCertSecret(m.secrets[n], c) && RecordedAs(m.live, n, c)
    {
      if n != name {
        assert n !in a.secrets;
      }
    }
  }

  lemma CertsNoted(w: World, m0: World, made: map<string, CertConfig>)
    requires CertsMade(w, m0, made)
    ensures SecretsNoted(w, m0)
  {
    forall n | n in w.secrets || n !in m0.secrets ensures SameRecord(w.live, m0.live, n) {
    }
    assert made.Keys <= w.secrets.Keys <==> m0.secrets.Keys == w.secrets.Keys;
  }

  lemma ScriptAdds(m0: World)
    ensures var m := EnsureRcEos(m0);
            && FilesAdded(m0, m)
            && m == m0.(rcEos := m.rcEos, live := m0.live.(rcEosStale := m.live.rcEosStale))
            && m.live.rcEosStale == (m0.live.rcEosStale && m.rcEos == m0.rcEos)
  {
    if EnsureRcEos(m0).rcEos.Some? {
      BootScriptExactly(EnsureRcEos(m0).rcEos.value, m0.dev.spec.selfSignedCerts);
    }
  }

  lemma IntfAdds(a: World)
    ensures var m := EnsureIntf(a).w;
            && FilesAdded(a, m)
            && m == a.(intfMap := m.intfMap, live := a.live.(intfMappingStatus := m.live.intfMappingStatus))
            && FilesNoted(a, m)
  {
    var m := EnsureIntf(a).w;
    ValidNamesExactly(a.dev.spec.intfMapping);
    if m.intfMap.Some? && ValidInterfaces(a.dev.spec.intfMapping) {
      MappingFileExactly(m.intfMap.value, a.dev.spec.intfMapping);
    }
  }

  lemma TogglesAdd(b: World, d: Draw)
    requires Draws(b.dev, d)
    ensures var m := EnsureToggles(b, d);
            && FilesAdded(b, m)
            && m == b.(toggles := m.toggles, live := b.live.(toggleOverridesStatus := m.live.toggleOverridesStatus))
            && FilesNoted(b, m)
  {
    var m := EnsureToggles(b, d);
    if b.dev.spec.toggleOverrides != map[] && b.toggles.None? {
      assert TogglesInOrder(m.toggles.value, d.toggleOrder, b.dev.spec.toggleOverrides);
      ToggleFileExactly(m.toggles.value, b.dev.spec.toggleOverrides);
    }
  }

  // Files, and nothing but their part of the ledger.
  ghost predicate OnlyFiles(m0: World, m: World) {
    && FilesAdded(m0, m) && FilesNoted(m0, m)
    && m.live.rcEosStale == (m0.live.rcEosStale && m.rcEos == m0.rcEos)
    && m == m0.(rcEos := m.rcEos, intfMap := m.intfMap, toggles := m.toggles, live := m.live)
    && m.live.selfSignedCertStatus == m0.live.selfSignedCertStatus
  }

  lemma FilesAdd(m0: World, d: Draw)
    requires Draws(m0.dev, d)
    ensures OnlyFiles(m0, EnsureFiles(m0, d).w)
  {
    var a := EnsureRcEos(m0);
    ScriptAdds(m0);
    IntfAdds(a);
    if EnsureIntf(a).Ready? {
      TogglesAdd(EnsureIntf(a).w, d);
      NotingAddsNoFile(m0, EnsureIntf(a).w, EnsureToggles(EnsureIntf(a).w, d));
    }
  }

  lemma NotingAddsNoFile(m0: World, b: World, c: World)
    requires OnlyFiles(m0, b) && b.live.startupConfigResourceVersion == m0.live.startupConfigResourceVersion
    requires b.toggles == m0.toggles && b.live.toggleOverridesStatus == m0.live.toggleOverridesStatus
    requires FilesAdded(b, c) && FilesNoted(b, c)
    requires c == b.(toggles := c.toggles, live := b.live.(toggleOverridesStatus := c.live.toggleOverridesStatus))
    ensures OnlyFiles(m0, NoteStartup(c))
  {
  }

  lemma WorkloadsAdd(m1: World)
    ensures var m := EnsureWorkloads(m1, PodOf(m1), ServiceFor(m1.dev)).w;
            m == m1.(pod := m.pod, service := m.service, snap := m.snap) && WorkloadsAdded(m1, m)
  {
    var m := EnsureWorkloads(m1, PodOf(m1), ServiceFor(m1.dev)).w;
    SameConfigured(m1, m);
  }

  lemma FilesKeepSecrets(w: World, m0: World, m1: World)
    requires SecretsAdded(w, m0) && SecretsNoted(w, m0) && OnlyFiles(m0, m1) && m0.rcEos == w.rcEos
    ensures SecretsAdded(w, m1) && SecretsNoted(w, m1)
  {
    forall n | n in m1.secrets && n !in w.secrets
      ensures exists c :: CertAsked(w.dev, n, c) && IsCertSecret(m1.secrets[n], c) && RecordedAs(m1.live, n, c)
    {
      var c :| CertAsked(w.dev, n, c) && IsCertSecret(m0.secrets[n], c) && RecordedAs(m0.live, n, c);
      assert RecordedAs(m1.live, n, c);
    }
    forall n | n in w.secrets || n !in m1.secrets ensures SameRecord(w.live, m1.live, n) {
      assert SameRecord(w.live, m0.live, n);
    }
  }

  lemma ObjectsAdd(w: World, m0: World, m1: World)
    requires SecretsAdded(w, m0) && SecretsNoted(w, m0) && OnlyFiles(m0, m1)
    requires m0 == w.(secrets := m0.secrets, live := w.live.(selfSignedCertStatus := m0.live.selfSignedCertStatus,
                                                             rcEosStale := m0.live.rcEosStale))
    ensures ObjectsAdded(w, m1)
  {
    FilesKeepSecrets(w, m0, m1);
  }

  lemma WorkloadsAddLast(w: World, m1: World, m: World)
    requires ObjectsAdded(w, m1) && WorkloadsAdded(m1, m)
    requires m1 == w.(secrets := m1.secrets, rcEos := m1.rcEos, intfMap := m1.intfMap, toggles := m1.toggles,
                      live := m1.live)
    requires m == m1.(pod := m.pod, service := m.service, snap := m.snap)
    ensures Added(w, m)
  {
  }

  // Whatever stops it: the creating half changes nothing that exists, and adds only what is configured.
  lemma CreationOnlyAdds(w: World, d: Draw)
    requires Draws(w.dev, d)
    ensures Added(w, CreateMissing(w, d).w)
  {
    EnsureCertsKeepsDevice(w, d, 0);
    var made := EnsureCertsMakes(w, d, 0);
    CertsAdd(w, d, 0);
    var m0 := EnsureCerts(w, d, 0).w;
    CertsNoted(w, m0, made);
    FilesAdd(m0, d);
    CreationAfterObjects(w, d);
    var m1 := EnsureObjects(w, d).w;
    WorkloadsAdd(m1);
    ObjectsAdd(w, m0, m1);
    WorkloadsAddLast(w, m1, CreateMissing(w, d).w);
  }

  // And if nothing stops it, everything configured is there.
  lemma ReadyMissesNothing(w: World, d: Draw)
    requires Draws(w.dev, d) && CreateMissing(w, d).Ready?
    ensures NothingMissing(w, CreateMissing(w, d).w)
    ensures var live := CreateMissing(w, d).w.live;
            w.startup.Some? ==> live.startupConfigResourceVersion == Some(w.startup.value.resourceVersion)
  {
    var m0, m1 := CreationStages(w, d);
    forall n | CertNamed(w.dev, n) ensures n in m0.secrets {
      WantedExactly(w, n, ZERO_CERT);
    }
  }

  // ----- A new pod -----

  // Built from everything configured, and from nothing else.
  ghost predicate BuiltFor(m: World, pod: Pod, objects: Objects) {
    && AllConfigured(m, objects)
    && VolumesAsked(objects, pod.volumes) && MountsAsked(objects, pod.volumeMounts)
    && LabelsAsked(m.dev, pod.labels) && RunsAsAsked(m.dev, m.lib, pod) && pod.command == ["/sbin/init"]
  }

  // A pod made by a pass has a volume for each configured object and a mount under /mnt/flash for each of
  // their files.
  lemma NewPodIsBuiltFor(w: World, d: Draw)
    requires Draws(w.dev, d) && w.pod.None? && CreateMissing(w, d).w.pod.Some?
    ensures var m := CreateMissing(w, d).w; BuiltFor(m, m.pod.value, ConfiguredObjects(m))
  {
    var m := CreateMissing(w, d).w;
    CreationOnlyAdds(w, d);
    PodExactly(w.dev, w.lib, ConfiguredObjects(m));
    ConfiguredExactly(m);
  }

  // ----- How far a creation gets -----

  // The secrets below `k` are there and no new ones from `k` on, whose key generation fails unless `k` is
  // the number of certificates.
  predicate SecretsUpTo(w: World, badKeys: set<nat>, i: nat, k: nat, m: World) {
    var certs, name := w.dev.spec.selfSignedCerts, w.dev.name;
    && i <= k <= |certs|
    && (k < |certs| ==> k in badKeys && SecretName(name, k) !in w.secrets)
    && (forall j :: i <= j < k ==>
          SecretName(name, j) in m.secrets && (SecretName(name, j) in w.secrets || j !in badKeys))
    && (forall n :: n in m.secrets && n !in w.secrets ==> exists j :: i <= j < k && n == SecretName(name, j))
  }

  lemma {:induction false} CertsEndAt(w: World, d: Draw, i: nat) returns (k: nat)
    requires i <= |w.dev.spec.selfSignedCerts|
    ensures SecretsUpTo(w, d.badKeys, i, k, EnsureCerts(w, d, i).w)
    ensures EnsureCerts(w, d, i).Ready? <==> k == |w.dev.spec.selfSignedCerts|
    ensures w.secrets.Keys <= EnsureCerts(w, d, i).w.secrets.Keys
    decreases |w.dev.spec.selfSignedCerts| - i
  {
    var name := w.dev.name;
    if i == |w.dev.spec.selfSignedCerts| {
      k := i;
    } else if SecretName(name, i) in w.secrets {
      k := CertsEndAt(w, d, i + 1);
    } else if i in d.badKeys {
      k := i;
    } else {
      var a := AddCert(w, i);
      k := CertsEndAt(a, d, i + 1);
      forall j | i < j <= k ensures SecretName(name, j) in a.secrets <==> SecretName(name, j) in w.secrets {
        if SecretName(name, j) == SecretName(name, i) {
          SecretNameInjective(name, j, name, i);
        }
      }
    }
  }

  // Everything up to the boot script, and nothing further.
  ghost predicate OnlyScript(w: World, m: World) {
    && m.intfMap == w.intfMap && m.toggles == w.toggles && m.pod == w.pod && m.service == w.service && m.snap == w.snap
    && m.live.startupConfigResourceVersion == w.live.startupConfigResourceVersion
  }

  ghost predicate WorkloadsReach(w: World, m: World) {
    var spec := w.dev.spec;
    if w.pod.None? && (Unparsable(w.lib, spec.resources) || MalformedStartup(w)) then
      m.pod.None? && m.service == w.service && m.snap == w.snap
    else
      && m.pod.Some?
      && (spec.services != map[] ==> (m.service.None? <==> w.service.None? && AsksConflict(spec.services)))
  }

  predicate FilesThere(w: World, m: World) {
    && (w.dev.spec.intfMapping != map[] ==> m.intfMap.Some?)
    && (w.dev.spec.toggleOverrides != map[] ==> m.toggles.Some?)
  }

  ghost predicate CertsThere(w: World, m: World) {
    && (forall n :: CertNamed(w.dev, n) ==> n in m.secrets)
    && (w.dev.spec.selfSignedCerts != [] ==> m.rcEos.Some?)
  }

  // How far the creating half got, read off the world before it.
  ghost predicate Reaches(w: World, badKeys: set<nat>, m: World) {
    var spec := w.dev.spec;
    if !KeysWork(w, badKeys) then
      && OnlyScript(w, m) && m.rcEos == w.rcEos
      && exists k: nat :: k < |spec.selfSignedCerts| && SecretsUpTo(w, badKeys, 0, k, m)
    else
      && CertsThere(w, m)
      && if spec.intfMapping != map[] && w.intfMap.None? && !ValidNames(spec.intfMapping) then OnlyScript(w, m)
         else FilesThere(w, m) && WorkloadsReach(w, m)
  }

  ghost predicate MalformedStartup(w: World) { w.startup.Some? && Malformed(w.startup.value.configMap) }

  lemma EarlyReach(w: World, d: Draw)
    requires Draws(w.dev, d) && EnsureCerts(w, d, 0).Failed?
    ensures var m := CreateMissing(w, d).w;
            && OnlyScript(w, m) && m.rcEos == w.rcEos
            && exists k: nat :: k < |w.dev.spec.selfSignedCerts| && SecretsUpTo(w, d.badKeys, 0, k, m)
  {
    EnsureCertsKeepsDevice(w, d, 0);
    var made := EnsureCertsMakes(w, d, 0);
    var k := CertsEndAt(w, d, 0);
    CreationAfterObjects(w, d);
    assert CreateMissing(w, d) == EnsureCerts(w, d, 0);
  }

  lemma IntfReach(m0: World, d: Draw)
    requires Draws(m0.dev, d)
    ensures var m, spec := EnsureFiles(m0, d).w, m0.dev.spec;
            && (spec.selfSignedCerts != [] ==> m.rcEos.Some?)
            && if EnsureFiles(m0, d).Ready? then
                 (spec.intfMapping != map[] ==> m.intfMap.Some?) && (spec.toggleOverrides != map[] ==> m.toggles.Some?)
               else OnlyScript(m0, m)
  {
    if EnsureFiles(m0, d).Ready? {
      EnsureFilesMakes(m0, d);
    } else {
      FailedIntf(EnsureRcEos(m0));
    }
  }

  lemma FailedIntf(a: World)
    ensures EnsureIntf(a).Ready? || EnsureIntf(a) == Failed(a)
  {
  }

  lemma WorkloadReach(m1: World, pod: Built<Pod>, service: Result<Service>)
    ensures var m := EnsureWorkloads(m1, pod, service).w;
            if m1.pod.None? && !pod.Built? then m == m1
            else
              && m.pod.Some?
              && (m1.dev.spec.services != map[] ==> (m.service.None? <==> m1.service.None? && service.Err?))
  {
  }

  lemma GuardsRead(w: World)
    ensures ValidInterfaces(w.dev.spec.intfMapping) <==> ValidNames(w.dev.spec.intfMapping)
    ensures Parseable(w.lib, w.dev.spec.resources) <==> !Unparsable(w.lib, w.dev.spec.resources)
    ensures BadPermissions(w) <==> MalformedStartup(w)
    ensures ServiceFor(w.dev).Err? <==> AsksConflict(w.dev.spec.services)
  {
    ValidNamesExactly(w.dev.spec.intfMapping);
    RequestsExactly(w.lib, w.dev.spec.resources, map[]);
    if w.startup.Some? {
      ModeExactly(w.startup.value.configMap, None);
    }
    ServiceExactly(w.dev);
  }

  lemma LateReach(w: World, d: Draw, m0: World)
    requires Core(w) && Draws(w.dev, d) && EnsureCerts(w, d, 0) == Ready(m0) && m0.dev == w.dev
    requires CertsMade(w, m0, Wanted(w)) && KeysWork(w, d.badKeys)
    ensures Reaches(w, d.badKeys, CreateMissing(w, d).w)
  {
    var m1, m := EnsureFiles(m0, d).w, CreateMissing(w, d).w;
    forall n | CertNamed(w.dev, n) ensures n in m0.secrets {
      WantedExactly(w, n, ZERO_CERT);
    }
    ValidNamesExactly(w.dev.spec.intfMapping);
    CreationAfterObjects(w, d);
    IntfReach(m0, d);
    FilesReadyExactly(m0, d);
    FilesAdd(m0, d);
    if EnsureFiles(m0, d).Ready? {
      ObjectsKeepRest(w, d);
      WorkloadsKeepFiles(m1, PodOf(m1), ServiceFor(m1.dev));
      LastReach(w, m1);
    }
  }

  lemma LastReach(w: World, m1: World)
    requires Core(m1) && m1.dev == w.dev && m1.lib == w.lib && m1.startup == w.startup
    requires m1.pod == w.pod && m1.service == w.service && m1.snap == w.snap
    ensures WorkloadsReach(w, EnsureWorkloads(m1, PodOf(m1), ServiceFor(m1.dev)).w)
  {
    GuardsRead(w);
    PodEndsExactly(m1);
    WorkloadReach(m1, PodOf(m1), ServiceFor(m1.dev));
  }

  // Nothing is made after what failed, and everything before it is.
  lemma CreationReaches(w: World, d: Draw)
    requires Core(w) && Draws(w.dev, d)
    ensures Reaches(w, d.badKeys, CreateMissing(w, d).w)
  {
    CertsReadyExactly(w, d, 0);
    CertsNeverCrash(w, d, 0);
    if EnsureCerts(w, d, 0).Ready? {
      EnsureCertsKeepsDevice(w, d, 0);
      var made := EnsureCertsMakes(w, d, 0);
      LateReach(w, d, EnsureCerts(w, d, 0).w);
    } else {
      EarlyReach(w, d);
    }
  }
}

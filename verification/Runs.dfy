// Whole runs: passes interleaved with edits of the device and with changes made by others.
module Runs {
  import opened Basics
  import opened Api
  import opened Files
  import opened Reconcile
  import opened CreationFacts
  import opened Soundness

  datatype Event =
    | PassEvent(d: Draw, v: Verdict)
    | Edit(labels: map<string, string>, spec: Spec)
    | LoseSecret(name: string)
    | LoseRcEos
    | LoseIntfMap
    | LoseToggles
    | LosePod
    | LoseService
    | PutStartup(startup: Startup)
    | DropStartup

  ghost predicate Enabled(w: World, e: Event) {
    e.PassEvent? ==> Allowed(w, e.d, e.v)
  }

  ghost function After(w: World, e: Event): World
    requires Enabled(w, e)
  {
    match e
    case PassEvent(d, v) => Pass(w, d, v)
    case Edit(labels, spec) => w.(dev := w.dev.(labels := labels, spec := spec))
    case LoseSecret(name) => w.(secrets := w.secrets - {name})
    case LoseRcEos => w.(rcEos := None)
    case LoseIntfMap => w.(intfMap := None)
    case LoseToggles => w.(toggles := None)
    case LosePod => w.(pod := None)
    case LoseService => w.(service := None)
    case PutStartup(startup) => w.(startup := Some(startup))
    case DropStartup => w.(startup := None)
  }

  ghost predicate Leads(w: World, e: Event, r: World) { Enabled(w, e) && After(w, e) == r }

  ghost predicate Run(w: World, es: seq<Event>)
    decreases es
  {
    es == [] || (Enabled(w, es[0]) && Run(After(w, es[0]), es[1..]))
  }

  ghost function End(w: World, es: seq<Event>): World
    requires Run(w, es)
    decreases es
  {
    if es == [] then w else End(After(w, es[0]), es[1..])
  }

  ghost predicate LeadsAt(ws: seq<World>, es: seq<Event>, i: nat)
    requires |ws| == |es| + 1 && i < |es|
  {
    Leads(ws[i], es[i], ws[i + 1])
  }

  ghost predicate Path(ws: seq<World>, es: seq<Event>) {
    |ws| == |es| + 1 && forall i :: 0 <= i < |es| ==> LeadsAt(ws, es, i)
  }

  ghost predicate RunsTo(w: World, es: seq<Event>, r: World) {
    exists ws :: Path(ws, es) && ws[0] == w && ws[|es|] == r
  }

  lemma NoEvent(w: World)
    ensures RunsTo(w, [], w)
  {
    assert Path([w], []);
  }

  lemma OneMoreEvent(w: World, e: Event, m: World, es: seq<Event>, r: World)
    requires Leads(w, e, m) && RunsTo(m, es, r)
    ensures RunsTo(w, [e] + es, r)
  {
    var ws :| Path(ws, es) && ws[0] == m && ws[|es|] == r;
    var longer := [w] + ws;
    forall i | 0 <= i < |[e] + es| ensures LeadsAt(longer, [e] + es, i) {
      if i > 0 {
        assert LeadsAt(ws, es, i - 1);
      }
    }
    assert Path(longer, [e] + es);
  }

  lemma OneEvent(w: World, e: Event, r: World)
    requires Leads(w, e, r)
    ensures RunsTo(w, [e], r)
  {
    NoEvent(r);
    OneMoreEvent(w, e, r, [], r);
    assert [e] + [] == [e];
  }

  lemma EditFirst(w: World, labels: map<string, string>, spec: Spec, es: seq<Event>, r: World)
    requires RunsTo(w.(dev := w.dev.(labels := labels, spec := spec)), es, r)
    ensures RunsTo(w, [Edit(labels, spec)] + es, r)
  {
    OneMoreEvent(w, Edit(labels, spec), w.(dev := w.dev.(labels := labels, spec := spec)), es, r);
  }

  // A pass that gets as far as the comparisons.
  lemma RepairLeads(w: World, d: Draw, v: Verdict, m: World, r: World)
    requires Draws(w.dev, d) && CreateMissing(w, d) == Ready(m) && m.pod.Some?
    requires Diagnosis(m, v, LateVerdict(m)) && Repair(w, m, v) == r
    requires Canonical(r.live) && Canonical(r.snap)
    ensures Leads(w, PassEvent(d, v), r)
  {
    RepairIsSaved(w, d, v, m, r);
  }

  lemma RepairIsSaved(w: World, d: Draw, v: Verdict, m: World, r: World)
    requires Draws(w.dev, d) && CreateMissing(w, d) == Ready(m) && Repair(w, m, v) == r
    requires Canonical(r.live) && Canonical(r.snap)
    ensures Pass(w, d, v) == r
  {
  }

  // Whenever a pass happens, the spec of the moment is valid and nothing fails.
  ghost predicate HealthyRun(w: World, es: seq<Event>)
    requires Run(w, es)
    decreases es
  {
    es == [] || ((es[0].PassEvent? ==> Healthy(w, es[0].d)) && HealthyRun(After(w, es[0]), es[1..]))
  }

  // A device nobody has reconciled yet.
  predicate Fresh(w: World) {
    && w.secrets == map[] && w.rcEos.None? && w.intfMap.None? && w.toggles.None?
    && w.pod.None? && w.service.None?
    && w.live == w.snap == EMPTY_LEDGER
  }

  lemma FreshInv(w: World)
    requires Fresh(w)
    ensures Inv(w)
  {
  }

  lemma EventKeepsInv(w: World, e: Event)
    requires Inv(w) && Enabled(w, e)
    requires e.PassEvent? ==> Healthy(w, e.d)
    ensures Inv(After(w, e))
  {
    match e
    case PassEvent(d, v) => HealthyPassKeepsInv(w, d, v);
    case Edit(labels, spec) =>
      if w.rcEos.Some? && !w.live.rcEosStale {
        var certs :| ScriptOf(w, certs);
        assert ScriptOf(After(w, e), certs);
      }
    case PutStartup(_) => OthersKeepInv(w, After(w, e));
    case DropStartup => OthersKeepInv(w, After(w, e));
    case _ => OthersKeepInv(w, After(w, e));
  }

  // Losing objects, or changing what the ledger does not speak about.
  lemma OthersKeepInv(w: World, r: World)
    requires Inv(w)
    requires r == w.(secrets := r.secrets, rcEos := r.rcEos, intfMap := r.intfMap, toggles := r.toggles,
                     startup := r.startup, pod := r.pod, service := r.service)
    requires forall n :: n in r.secrets ==> n in w.secrets && r.secrets[n] == w.secrets[n]
    requires r.rcEos in {w.rcEos, None} && r.intfMap in {w.intfMap, None} && r.toggles in {w.toggles, None}
    ensures Inv(r)
  {
    forall n | n in r.secrets
      ensures RecordedAs(r.live, n, Recorded(r.live, n)) && r.secrets[n] == CertSecret(Recorded(r.live, n))
    {
      assert RecordedAs(w.live, n, Recorded(w.live, n));
    }
    if r.rcEos.Some? && !r.live.rcEosStale {
      var certs :| ScriptOf(w, certs);
      assert ScriptOf(r, certs);
    }
  }

  // In every state of any run, harmless or not, each ledger map is nil or non-empty.
  lemma {:induction false} RunStaysCanonical(w: World, es: seq<Event>)
    requires Canonical(w.live) && Canonical(w.snap) && Run(w, es)
    ensures Canonical(End(w, es).live) && Canonical(End(w, es).snap)
    decreases es
  {
    if es == [] {
    } else {
      if es[0].PassEvent? {
        SavingLosesNothing(w, es[0].d, es[0].v);
      }
      RunStaysCanonical(After(w, es[0]), es[1..]);
    }
  }
}

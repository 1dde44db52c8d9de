// ConfigMapStatus on the heap: maps are references, and the snapshot for the pod is a deep copy.
module Status {
  import opened Basics
  import opened Api
  import opened Reconcile

  // A Go map: assigning it shares it.
  class Table<K(==), V> {
    var entries: map<K, V>

    constructor ()
      ensures entries == map[]
    {
      entries := map[];
    }

    method Put(k: K, v: V)
      modifies this
      ensures entries == old(entries)[k := v]
    {
      entries := entries[k := v];
    }

    method Delete(k: K)
      modifies this
      ensures entries == old(entries) - {k}
    {
      entries := entries - {k};
    }
  }

  class StringCell {
    var text: string

    constructor (text: string)
      ensures this.text == text
    {
      this.text := text;
    }
  }

  // `*out = make(...)` and a loop over the entries, in any order.
  method CopyTable<K, V>(from: Table<K, V>) returns (to: Table<K, V>)
    ensures fresh(to) && to.entries == from.entries
  {
    to := new Table();
    ghost var seen: set<K> := {};
    var todo := from.entries.Keys;
    while todo != {}
      invariant fresh(to)
      invariant todo !! seen && todo + seen == from.entries.Keys
      invariant to.entries == map k | k in from.entries && k in seen :: from.entries[k]
    {
      var key :| key in todo;
      to.Put(key, from.entries[key]);
      todo, seen := todo - {key}, seen + {key};
    }
    assert seen == from.entries.Keys;
  }

  method CopyIfAny<K, V>(from: Table?<K, V>) returns (to: Table?<K, V>)
    ensures (from == null) == (to == null)
    ensures to != null ==> fresh(to) && to.entries == from.entries
  {
    to := null;
    if from != null {
      to := CopyTable(from);
    }
  }

  function Shown<K, V>(t: Table?<K, V>): GoMap<K, V>
    reads t
  {
    if t == null then Nil else Of(t.entries)
  }

  method Decode<K, V>(m: GoMap<K, V>) returns (t: Table?<K, V>)
    ensures Shown(t) == m && (t != null ==> fresh(t))
  {
    match m {
      case Nil => t := null;
      case Of(entries) =>
        t := new Table();
        t.entries := entries;
    }
  }

  method DecodeVersion(version: Option<string>) returns (c: StringCell?)
    ensures version == (if c == null then None else Some(c.text)) && (c != null ==> fresh(c))
  {
    c := null;
    if version.Some? {
      c := new StringCell(version.value);
    }
  }

  class ConfigMapStatus {
    var selfSignedCertStatus: Table?<string, CertConfig>
    var intfMappingStatus: Table?<string, string>
    var toggleOverridesStatus: Table?<string, bool>
    var rcEosStale: bool
    var startupConfigResourceVersion: StringCell?

    constructor ()
      ensures Value() == EMPTY_LEDGER && Parts() == {null}
    {
      selfSignedCertStatus, intfMappingStatus, toggleOverridesStatus := null, null, null;
      rcEosStale, startupConfigResourceVersion := false, null;
    }

    // What was stored, decoded into fresh maps.
    constructor From(l: Ledger)
      ensures Value() == l && fresh(Parts() - {null})
    {
      selfSignedCertStatus, intfMappingStatus, toggleOverridesStatus := null, null, null;
      rcEosStale, startupConfigResourceVersion := l.rcEosStale, null;
      new;
      selfSignedCertStatus := Decode(l.selfSignedCertStatus);
      intfMappingStatus := Decode(l.intfMappingStatus);
      toggleOverridesStatus := Decode(l.toggleOverridesStatus);
      startupConfigResourceVersion := DecodeVersion(l.startupConfigResourceVersion);
    }

    // What it points to.
    ghost function Parts(): set<object?>
      reads this
    {
      {selfSignedCertStatus, intfMappingStatus, toggleOverridesStatus, startupConfigResourceVersion}
    }

    function Value(): Ledger
      reads this, selfSignedCertStatus, intfMappingStatus, toggleOverridesStatus, startupConfigResourceVersion
    {
      Ledger(Shown(selfSignedCertStatus), Shown(intfMappingStatus), Shown(toggleOverridesStatus), rcEosStale,
             if startupConfigResourceVersion == null then None else Some(startupConfigResourceVersion.text))
    }

    ghost predicate Apart(other: ConfigMapStatus)
      reads this, other
    {
      this != other && forall o :: o in Parts() && o in other.Parts() ==> o == null
    }

    // The copy equals its source, and shares nothing with it or with anything older.
    method DeepCopyInto(out: ConfigMapStatus)
      requires out != this
      modifies out
      ensures out.Value() == old(Value()) == Value()
      ensures fresh(out.Parts() - {null})
    {
      var certs := CopyIfAny(selfSignedCertStatus);
      var mapping := CopyIfAny(intfMappingStatus);
      var toggles := CopyIfAny(toggleOverridesStatus);
      var version := null;
      if startupConfigResourceVersion != null {
        version := new StringCell(startupConfigResourceVersion.text);
      }
      out.selfSignedCertStatus, out.intfMappingStatus, out.toggleOverridesStatus := certs, mapping, toggles;
      out.rcEosStale, out.startupConfigResourceVersion := rcEosStale, version;
    }

    method SetStale(stale: bool)
      modifies this`rcEosStale
      ensures Value() == old(Value()).(rcEosStale := stale)
    {
      rcEosStale := stale;
    }

    method SetIntf(m: GoMap<string, string>)
      modifies this`intfMappingStatus
      ensures Value() == old(Value()).(intfMappingStatus := m)
      ensures intfMappingStatus != null ==> fresh(intfMappingStatus)
    {
      intfMappingStatus := Decode(m);
    }

    method SetToggles(m: GoMap<string, bool>)
      modifies this`toggleOverridesStatus
      ensures Value() == old(Value()).(toggleOverridesStatus := m)
      ensures toggleOverridesStatus != null ==> fresh(toggleOverridesStatus)
    {
      toggleOverridesStatus := Decode(m);
    }

    method SetVersion(version: Option<string>)
      modifies this`startupConfigResourceVersion
      ensures Value() == old(Value()).(startupConfigResourceVersion := version)
      ensures startupConfigResourceVersion != null ==> fresh(startupConfigResourceVersion)
    {
      startupConfigResourceVersion := DecodeVersion(version);
    }

    // A certificate secret was made: note it, in place.
    method RecordCert(name: string, config: CertConfig)
      modifies this`selfSignedCertStatus, this`rcEosStale, selfSignedCertStatus
      ensures Value() == Reconcile.RecordCert(old(Value()), name, config)
      ensures if old(selfSignedCertStatus) == null then fresh(selfSignedCertStatus)
              else selfSignedCertStatus == old(selfSignedCertStatus)
    {
      if selfSignedCertStatus == null {
        selfSignedCertStatus := new Table();
      }
      selfSignedCertStatus.Put(name, config);
      rcEosStale := true;
    }

    // A certificate is no longer configured: drop it, in place.
    method ForgetCert(name: string)
      modifies this`selfSignedCertStatus, this`rcEosStale, selfSignedCertStatus
      ensures Value() == Reconcile.ForgetCert(MarkStale(old(Value())), name)
      ensures selfSignedCertStatus in {old(selfSignedCertStatus), null}
    {
      rcEosStale := true;
      if selfSignedCertStatus != null {
        selfSignedCertStatus.Delete(name);
      }
      if selfSignedCertStatus == null || |selfSignedCertStatus.entries| == 0 {
        selfSignedCertStatus := null;
      }
    }
  }

  // The statuses have these values, and no edit of the first reaches the second.
  ghost predicate Hold(live: ConfigMapStatus, l: Ledger, snapshot: ConfigMapStatus, s: Ledger)
    reads live, live.selfSignedCertStatus, live.intfMappingStatus
    reads live.toggleOverridesStatus, live.startupConfigResourceVersion
    reads snapshot, snapshot.selfSignedCertStatus, snapshot.intfMappingStatus
    reads snapshot.toggleOverridesStatus, snapshot.startupConfigResourceVersion
  {
    && l == live.Value() && s == snapshot.Value() && live != snapshot
    && (live.selfSignedCertStatus != null ==> live.selfSignedCertStatus != snapshot.selfSignedCertStatus)
  }

  // ----- The snapshot does not follow the live map -----

  datatype CertEdit = RecordEdit(name: string, config: CertConfig) | ForgetEdit(name: string)

  function AfterEdit(l: Ledger, e: CertEdit): Ledger {
    match e
    case RecordEdit(name, config) => Reconcile.RecordCert(l, name, config)
    case ForgetEdit(name) => Reconcile.ForgetCert(MarkStale(l), name)
  }

  function AfterEdits(l: Ledger, edits: seq<CertEdit>): Ledger {
    if edits == [] then l else AfterEdit(AfterEdits(l, edits[..|edits| - 1]), edits[|edits| - 1])
  }

  // Any number of in-place edits of the live status.
  method EditLive(live: ConfigMapStatus, snapshot: ConfigMapStatus, edits: seq<CertEdit>)
    requires live.Apart(snapshot)
    modifies live`selfSignedCertStatus, live`rcEosStale, live.selfSignedCertStatus
    ensures live.Value() == AfterEdits(old(live.Value()), edits)
    ensures snapshot.Value() == old(snapshot.Value()) && live.Apart(snapshot)
  {
    assert edits[..|edits|] == edits;
    for i := 0 to |edits|
      invariant live.Apart(snapshot)
      invariant live.selfSignedCertStatus in {old(live.selfSignedCertStatus), null} || fresh(live.selfSignedCertStatus)
      invariant live.Value() == AfterEdits(old(live.Value()), edits[..i])
      invariant snapshot.Value() == old(snapshot.Value())
    {
      assert edits[..i + 1][..i] == edits[..i];
      assert live.selfSignedCertStatus in live.Parts() && snapshot.selfSignedCertStatus in snapshot.Parts();
      match edits[i] {
        case RecordEdit(name, config) => live.RecordCert(name, config);
        case ForgetEdit(name) => live.ForgetCert(name);
      }
    }
  }

  // A pod is created and its snapshot taken; whatever happens to the live certificates afterwards, the
  // snapshot is still the ledger as it was then.
  method SnapshotThenEdit(live: ConfigMapStatus, snapshot: ConfigMapStatus, edits: seq<CertEdit>)
    requires live != snapshot
    modifies live, live.selfSignedCertStatus, snapshot
    ensures snapshot.Value() == old(live.Value())
    ensures live.Value() == AfterEdits(old(live.Value()), edits)
  {
    live.DeepCopyInto(snapshot);
    EditLive(live, snapshot, edits);
  }
}

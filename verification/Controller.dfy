// CEosLabDeviceReconciler: the imperative controller, proved to do exactly what module Reconcile says.
module Controller {
  import opened Basics
  import opened Text
  import opened Api
  import opened Names
  import opened Quantities
  import opened Files
  import opened Volumes
  import opened Services
  import opened Pods
  import Model = Reconcile
  import opened CreationFacts
  import opened Status
  import Convergence
  import Soundness

  type World = Model.World
  type Draw = Model.Draw
  type Verdict = Model.Verdict

  datatype StoredConfigMap = StoredConfigMap(configMap: Object, resourceVersion: string)

  datatype DeviceRecord = DeviceRecord(
    dev: Device,
    configMapStatus: Ledger,
    podConfigMapStatus: Ledger,
    state: DeviceState)

  // How the creating half of a pass ends.
  datatype Progress = GoOn | Stop | Blowup

  function ConfigMapObject(configMaps: map<string, StoredConfigMap>, name: string): Option<Object> {
    if name in configMaps then Some(configMaps[name].configMap) else None
  }

  function StartupOf(configMaps: map<string, StoredConfigMap>, name: string): Option<Startup> {
    if name in configMaps then Some(Startup(configMaps[name].configMap, configMaps[name].resourceVersion)) else None
  }

  // What the model sees of the API server's objects.
  function WorldOf(r: DeviceRecord, lib: QuantityLibrary, secrets: map<string, Object>,
                   configMaps: map<string, StoredConfigMap>, pods: map<string, Pod>,
                   services: map<string, Service>): World
  {
    Model.World(
      r.dev, lib, secrets,
      ConfigMapObject(configMaps, RcEosName(r.dev.name)),
      ConfigMapObject(configMaps, IntfMappingName(r.dev.name)),
      ConfigMapObject(configMaps, ToggleOverridesName(r.dev.name)),
      StartupOf(configMaps, StartupConfigName(r.dev.name)),
      Lookup(pods, r.dev.name),
      Lookup(services, ServiceName(r.dev.name)),
      r.configMapStatus, r.podConfigMapStatus, r.state)
  }

  // Under which names the model's objects are stored.
  lemma StoredUnderNames(r: DeviceRecord, lib: QuantityLibrary, secrets: map<string, Object>,
                         configMaps: map<string, StoredConfigMap>, pods: map<string, Pod>,
                         services: map<string, Service>)
    ensures var w, name := WorldOf(r, lib, secrets, configMaps, pods, services), r.dev.name;
            && w.rcEos == ConfigMapObject(configMaps, "configmap-rceos-" + name)
            && w.intfMap == ConfigMapObject(configMaps, "configmap-intfmapping-" + name)
            && w.toggles == ConfigMapObject(configMaps, "configmap-toggle-override-" + name)
            && w.startup == StartupOf(configMaps, name + "-config")
            && w.pod == Lookup(pods, name) && w.service == Lookup(services, "service-" + name)
            && w.secrets == secrets
  {
  }

  datatype Cluster = Cluster(
    configMaps: map<string, StoredConfigMap>,
    pods: map<string, Pod>,
    services: map<string, Service>)

  // The objects under other names than those of the device called `name`.
  function OthersOf(configMaps: map<string, StoredConfigMap>, pods: map<string, Pod>, services: map<string, Service>,
                    name: string): Cluster
  {
    Cluster(configMaps - {RcEosName(name), IntfMappingName(name), ToggleOverridesName(name)},
            pods - {name}, services - {ServiceName(name)})
  }

  class Reconciler {
    const lib: QuantityLibrary

    // The API server's objects in the device's namespace, and the device itself unless it was deleted.
    var stored: Option<DeviceRecord>
    var secrets: map<string, Object>
    var configMaps: map<string, StoredConfigMap>
    var pods: map<string, Pod>
    var services: map<string, Service>

    // The copy of the device a pass works on.
    var device: Device
    var configMapStatus: ConfigMapStatus
    var podConfigMapStatus: ConfigMapStatus
    var state: DeviceState

    // The values of the two statuses.
    ghost var live: Ledger
    ghost var snap: Ledger

    constructor (lib: QuantityLibrary, dev: Device)
      ensures stored == Some(DeviceRecord(dev, EMPTY_LEDGER, EMPTY_LEDGER, UnsetState)) && Valid() && Linked()
    {
      this.lib := lib;
      stored := Some(DeviceRecord(dev, EMPTY_LEDGER, EMPTY_LEDGER, UnsetState));
      secrets, configMaps, pods, services := map[], map[], map[], map[];
      configMapStatus := new ConfigMapStatus();
      podConfigMapStatus := new ConfigMapStatus();
      device, state, live, snap := dev, UnsetState, EMPTY_LEDGER, EMPTY_LEDGER;
    }

    // What is stored went through JSON.
    ghost predicate Valid()
      reads this
    {
      stored.Some? ==>
        && Model.SavedLedger(stored.value.configMapStatus) == stored.value.configMapStatus
        && Model.SavedLedger(stored.value.podConfigMapStatus) == stored.value.podConfigMapStatus
    }

    // The statuses have the noted values and share no map that is written to.
    ghost predicate Linked()
      reads this, configMapStatus, podConfigMapStatus
      reads configMapStatus.selfSignedCertStatus, podConfigMapStatus.selfSignedCertStatus
      reads configMapStatus.intfMappingStatus, podConfigMapStatus.intfMappingStatus
      reads configMapStatus.toggleOverridesStatus, podConfigMapStatus.toggleOverridesStatus
      reads configMapStatus.startupConfigResourceVersion, podConfigMapStatus.startupConfigResourceVersion
    {
      Hold(configMapStatus, live, podConfigMapStatus, snap)
    }

    // The configured certificates by the name of their secret.
    ghost function Configured(): map<string, CertConfig>
      reads this`device
    {
      Model.CertMap(device.name, device.spec.selfSignedCerts)
    }

    // The objects under other names than those of the device.
    ghost function Others(): Cluster
      reads this
    {
      OthersOf(configMaps, pods, services, device.name)
    }

    // As the next pass will find it.
    ghost function View(): World
      reads this
      requires stored.Some?
    {
      WorldOf(stored.value, lib, secrets, configMaps, pods, services)
    }

    // As the current pass sees it.
    ghost function Now(): World
      reads this
    {
      WorldOf(DeviceRecord(device, live, snap, state), lib, secrets, configMaps, pods, services)
    }

    // ----- Saving the device -----

    method UpdateDevice(newState: DeviceState)
      requires Linked()
      modifies this`state, this`stored
      ensures stored.Some? && Valid()
      ensures View() == Model.Saved(old(Now()).(state := newState))
      ensures stored.value.dev == device
    {
      state := newState;
      stored := Some(DeviceRecord(device, Model.SavedLedger(configMapStatus.Value()),
                                  Model.SavedLedger(podConfigMapStatus.Value()), state));
    }

    // ----- The status -----

    // Each change of the live status, with the noted value following it.
    method NoteStale(stale: bool)
      requires Linked()
      modifies this`live, configMapStatus`rcEosStale
      ensures Linked() && live == old(live).(rcEosStale := stale)
    {
      configMapStatus.SetStale(stale);
      live := live.(rcEosStale := stale);
    }

    method NoteIntf(m: GoMap<string, string>)
      requires Linked()
      modifies this`live, configMapStatus`intfMappingStatus
      ensures Linked() && live == old(live).(intfMappingStatus := m)
    {
      configMapStatus.SetIntf(m);
      live := live.(intfMappingStatus := m);
    }

    method NoteToggles(m: GoMap<string, bool>)
      requires Linked()
      modifies this`live, configMapStatus`toggleOverridesStatus
      ensures Linked() && live == old(live).(toggleOverridesStatus := m)
    {
      configMapStatus.SetToggles(m);
      live := live.(toggleOverridesStatus := m);
    }

    method NoteVersion(version: Option<string>)
      requires Linked()
      modifies this`live, configMapStatus`startupConfigResourceVersion
      ensures Linked() && live == old(live).(startupConfigResourceVersion := version)
    {
      configMapStatus.SetVersion(version);
      live := live.(startupConfigResourceVersion := version);
    }

    method NoteCert(name: string, config: CertConfig)
      requires Linked()
      modifies this`live
      modifies configMapStatus`selfSignedCertStatus, configMapStatus`rcEosStale, configMapStatus.selfSignedCertStatus
      ensures Linked() && live == Model.RecordCert(old(live), name, config)
      ensures configMapStatus.selfSignedCertStatus == old(configMapStatus.selfSignedCertStatus)
              || fresh(configMapStatus.selfSignedCertStatus)
    {
      configMapStatus.RecordCert(name, config);
      live := Model.RecordCert(live, name, config);
    }

    method DropCert(name: string)
      requires Linked()
      modifies this`live
      modifies configMapStatus`selfSignedCertStatus, configMapStatus`rcEosStale, configMapStatus.selfSignedCertStatus
      ensures Linked() && live == Model.ForgetCert(Model.MarkStale(old(live)), name)
    {
      configMapStatus.ForgetCert(name);
      live := Model.ForgetCert(Model.MarkStale(live), name);
    }

    method TakeSnapshot()
      requires Linked()
      modifies this`snap, podConfigMapStatus
      ensures Linked() && snap == live
      ensures configMapStatus.selfSignedCertStatus == old(configMapStatus.selfSignedCertStatus)
    {
      configMapStatus.DeepCopyInto(podConfigMapStatus);
      snap := live;
    }

    // ----- Creating what is missing -----

    // The API server picks the resource version.
    method CreateConfigMap(name: string, o: Object) returns (resourceVersion: string)
      modifies this`configMaps
      ensures configMaps == old(configMaps)[name := StoredConfigMap(o, resourceVersion)]
    {
      resourceVersion := *;
      configMaps := configMaps[name := StoredConfigMap(o, resourceVersion)];
    }

    // Writing under a name leaves the other names alone.
    lemma PutLeavesOthers<V>(m: map<string, V>, n: string, v: V, names: set<string>)
      requires n in names
      ensures m[n := v] - names == m - names
    {
    }

    lemma DropLeavesOthers<V>(m: map<string, V>, n: string, names: set<string>)
      requires n in names
      ensures (m - {n}) - names == m - names
    {
    }

    ghost function OwnConfigMaps(): set<string>
      reads this
    {
      {RcEosName(device.name), IntfMappingName(device.name), ToggleOverridesName(device.name)}
    }

    lemma {:induction false} OnlyBadKeysMatter(w: World, a: Draw, b: Draw, i: nat)
      requires a.badKeys == b.badKeys && i <= |w.dev.spec.selfSignedCerts|
      ensures Model.EnsureCerts(w, a, i) == Model.EnsureCerts(w, b, i)
      decreases |w.dev.spec.selfSignedCerts| - i
    {
      if i == |w.dev.spec.selfSignedCerts| {
      } else {
        OnlyBadKeysMatter(w, a, b, i + 1);
        OnlyBadKeysMatter(Model.AddCert(w, i), a, b, i + 1);
      }
    }

    // The loop fills the map of configurations from the front.
    lemma ConfigsStep(name: string, certs: seq<CertConfig>, i: nat, configs: map<string, CertConfig>)
      requires i < |certs|
      ensures configs + Model.CertMapFrom(name, certs, i)
           == configs[SecretName(name, i) := certs[i]] + Model.CertMapFrom(name, certs, i + 1)
    {
      CertMapFromAt(name, certs, i + 1, SecretName(name, i));
      if SecretName(name, i) in Model.CertMapFrom(name, certs, i + 1) {
        var j :| i + 1 <= j < |certs| && SecretName(name, i) == SecretName(name, j);
        SecretNameInjective(name, i, name, j);
      }
    }

    // `badKeys` are the certificates whose key generation fails.
    method EnsureCert(badKeys: set<nat>, i: nat) returns (ok: bool)
      requires Linked() && i < |device.spec.selfSignedCerts|
      modifies this`live, this`secrets
      modifies configMapStatus`selfSignedCertStatus, configMapStatus`rcEosStale, configMapStatus.selfSignedCertStatus
      ensures Linked()
      ensures configMapStatus.selfSignedCertStatus == old(configMapStatus.selfSignedCertStatus)
              || fresh(configMapStatus.selfSignedCertStatus)
      ensures ok ==> SecretName(device.name, i) in secrets
      ensures forall n :: n in old(secrets) ==> n in secrets && secrets[n] == old(secrets)[n]
      ensures var d := Model.Draw(badKeys, []);
              Model.EnsureCerts(old(Now()), d, i)
              == if ok then Model.EnsureCerts(Now(), d, i + 1) else Model.Failed(Now())
    {
      var name, config := SecretName(device.name, i), device.spec.selfSignedCerts[i];
      if name !in secrets {
        if i in badKeys {
          return false;
        }
        NoteCert(name, config);
        secrets := secrets[name := CertSecret(config)];
        assert Now() == Model.AddCert(old(Now()), i);
      }
      ok := true;
    }

    // The secrets of the certificates seen so far.
    function Collected(configs: map<string, CertConfig>, from: map<string, Object>): Objects {
      map n | n in configs && n in from :: from[n]
    }

    lemma CollectedStep(configs: map<string, CertConfig>, before: map<string, Object>, after: map<string, Object>,
                        name: string, config: CertConfig)
      requires configs.Keys <= before.Keys && name in after
      requires forall n :: n in before ==> n in after && after[n] == before[n]
      ensures Collected(configs[name := config], after) == Collected(configs, before)[name := after[name]]
      ensures configs[name := config].Keys <= after.Keys
    {
    }

    // The loop has collected the certificates below `i`.
    ghost predicate Collecting(name: string, certs: seq<CertConfig>, i: nat, configs: map<string, CertConfig>,
                               objects: Objects, from: map<string, Object>)
      requires i <= |certs|
    {
      && configs + Model.CertMapFrom(name, certs, i) == Model.CertMap(name, certs)
      && configs.Keys <= from.Keys && objects == Collected(configs, from)
    }

    lemma CollectingStep(name: string, certs: seq<CertConfig>, i: nat, configs: map<string, CertConfig>,
                         objects: Objects, before: map<string, Object>, after: map<string, Object>)
      requires i < |certs| && Collecting(name, certs, i, configs, objects, before) && SecretName(name, i) in after
      requires forall n :: n in before ==> n in after && after[n] == before[n]
      ensures Collecting(name, certs, i + 1, configs[SecretName(name, i) := certs[i]],
                         objects[SecretName(name, i) := after[SecretName(name, i)]], after)
    {
      ConfigsStep(name, certs, i, configs);
      CollectedStep(configs, before, after, SecretName(name, i), certs[i]);
    }

    lemma CollectingDone(w: World, configs: map<string, CertConfig>, objects: Objects)
      requires Collecting(w.dev.name, w.dev.spec.selfSignedCerts, |w.dev.spec.selfSignedCerts|,
                          configs, objects, w.secrets)
      ensures configs == Model.Wanted(w) && objects == Model.ConfiguredSecrets(w)
    {
    }

    method CollectCert(badKeys: set<nat>, i: nat, objects: Objects, configs: map<string, CertConfig>)
      returns (ok: bool, objects': Objects, configs': map<string, CertConfig>)
      requires Linked() && i < |device.spec.selfSignedCerts|
      requires Collecting(device.name, device.spec.selfSignedCerts, i, configs, objects, secrets)
      modifies this`live, this`secrets
      modifies configMapStatus`selfSignedCertStatus, configMapStatus`rcEosStale, configMapStatus.selfSignedCertStatus
      ensures Linked()
      ensures configMapStatus.selfSignedCertStatus == old(configMapStatus.selfSignedCertStatus)
              || fresh(configMapStatus.selfSignedCertStatus)
      ensures var d := Model.Draw(badKeys, []);
              Model.EnsureCerts(old(Now()), d, i)
              == if ok then Model.EnsureCerts(Now(), d, i + 1) else Model.Failed(Now())
      ensures ok ==> Collecting(device.name, device.spec.selfSignedCerts, i + 1, configs', objects', secrets)
    {
      objects', configs' := objects, configs;
      ghost var before := secrets;
      ok := EnsureCert(badKeys, i);
      if ok {
        var name, config := SecretName(device.name, i), device.spec.selfSignedCerts[i];
        CollectingStep(device.name, device.spec.selfSignedCerts, i, configs, objects, before, secrets);
        objects' := objects[name := secrets[name]];
        configs' := configs[name := config];
      }
    }

    method EnsureCerts(badKeys: set<nat>)
      returns (ok: bool, objects: Objects, configs: map<string, CertConfig>)
      requires Linked()
      modifies this`live, this`secrets
      modifies configMapStatus`selfSignedCertStatus, configMapStatus`rcEosStale, configMapStatus.selfSignedCertStatus
      ensures Linked()
      ensures configMapStatus.selfSignedCertStatus == old(configMapStatus.selfSignedCertStatus)
              || fresh(configMapStatus.selfSignedCertStatus)
      ensures Model.EnsureCerts(old(Now()), Model.Draw(badKeys, []), 0)
           == if ok then Model.Ready(Now()) else Model.Failed(Now())
      ensures ok ==> configs == Configured() && objects == Model.ConfiguredSecrets(Now())
    {
      objects, configs := map[], map[];
      ghost var d := Model.Draw(badKeys, []);
      for i := 0 to |device.spec.selfSignedCerts|
        invariant Linked()
        invariant configMapStatus.selfSignedCertStatus == old(configMapStatus.selfSignedCertStatus)
                  || fresh(configMapStatus.selfSignedCertStatus)
        invariant Model.EnsureCerts(old(Now()), d, 0) == Model.EnsureCerts(Now(), d, i)
        invariant Collecting(device.name, device.spec.selfSignedCerts, i, configs, objects, secrets)
      {
        ok, objects, configs := CollectCert(badKeys, i, objects, configs);
        if !ok {
          return;
        }
      }
      CollectingDone(Now(), configs, objects);
      ok := true;
    }

    // Creates a file that was just made.
    method CreateRcEos(o: Object)
      modifies this`configMaps
      ensures Now() == old(Now()).(rcEos := Some(o)) && Others() == old(Others())
    {
      KeysDistinct(device.name, 0);
      var version := CreateConfigMap(RcEosName(device.name), o);
      PutLeavesOthers(old(configMaps), RcEosName(device.name), StoredConfigMap(o, version), OwnConfigMaps());
    }

    method CreateIntf(o: Object)
      modifies this`configMaps
      ensures Now() == old(Now()).(intfMap := Some(o)) && Others() == old(Others())
    {
      KeysDistinct(device.name, 0);
      var version := CreateConfigMap(IntfMappingName(device.name), o);
      PutLeavesOthers(old(configMaps), IntfMappingName(device.name), StoredConfigMap(o, version), OwnConfigMaps());
    }

    method CreateToggles(o: Object)
      modifies this`configMaps
      ensures Now() == old(Now()).(toggles := Some(o)) && Others() == old(Others())
    {
      KeysDistinct(device.name, 0);
      var version := CreateConfigMap(ToggleOverridesName(device.name), o);
      PutLeavesOthers(old(configMaps), ToggleOverridesName(device.name), StoredConfigMap(o, version), OwnConfigMaps());
    }

    lemma WhenAdds(objects: Objects, cond: bool, name: string, o: Option<Object>)
      ensures objects + Model.When(cond, name, o) == if cond && o.Some? then objects[name := o.value] else objects
    {
    }

    method EnsureRcEos(objects: Objects) returns (r: Objects)
      requires Linked()
      modifies this`configMaps, this`live, configMapStatus`rcEosStale
      ensures Linked() && Others() == old(Others())
      ensures Now() == Model.EnsureRcEos(old(Now()))
      ensures r == objects + Model.When(device.spec.selfSignedCerts != [], RcEosName(device.name), Now().rcEos)
    {
      r := objects;
      if device.spec.selfSignedCerts != [] {
        GetOrCreateRcEos();
        r := r[RcEosName(device.name) := configMaps[RcEosName(device.name)].configMap];
      }
      WhenAdds(objects, device.spec.selfSignedCerts != [], RcEosName(device.name), Now().rcEos);
    }

    method GetOrCreateRcEos()
      requires Linked() && device.spec.selfSignedCerts != []
      modifies this`configMaps, this`live, configMapStatus`rcEosStale
      ensures Linked() && Others() == old(Others())
      ensures Now() == Model.EnsureRcEos(old(Now())) && RcEosName(device.name) in configMaps
    {
      if RcEosName(device.name) !in configMaps {
        var o := GetRcEos(device.spec.selfSignedCerts);
        NoteStale(false);
        CreateRcEos(o);
      }
    }

    // Fails on a name that is neither an Ethernet nor a Management interface.
    method EnsureIntf(objects: Objects) returns (ok: bool, r: Objects)
      requires Linked()
      modifies this`configMaps, this`live, configMapStatus`intfMappingStatus
      ensures Linked() && Others() == old(Others())
      ensures Model.EnsureIntf(old(Now())) == if ok then Model.Ready(Now()) else Model.Failed(Now())
      ensures ok ==>
                r == objects + Model.When(device.spec.intfMapping != map[], IntfMappingName(device.name), Now().intfMap)
    {
      r, ok := objects, true;
      if device.spec.intfMapping != map[] {
        ok := GetOrCreateIntf();
        if ok {
          r := r[IntfMappingName(device.name) := configMaps[IntfMappingName(device.name)].configMap];
        }
      }
      WhenAdds(objects, device.spec.intfMapping != map[], IntfMappingName(device.name), Now().intfMap);
    }

    method GetOrCreateIntf() returns (ok: bool)
      requires Linked() && device.spec.intfMapping != map[]
      modifies this`configMaps, this`live, configMapStatus`intfMappingStatus
      ensures Linked() && Others() == old(Others())
      ensures Model.EnsureIntf(old(Now())) == if ok then Model.Ready(Now()) else Model.Failed(Now())
      ensures ok ==> IntfMappingName(device.name) in configMaps
    {
      ok := true;
      if IntfMappingName(device.name) !in configMaps {
        var o := GetJsonIntfMapping(device.spec.intfMapping);
        ok := o.Ok?;
        if ok {
          MakeIntf(o.value);
        }
      }
    }

    method MakeIntf(o: Object)
      requires Linked()
      modifies this`configMaps, this`live, configMapStatus`intfMappingStatus
      ensures Linked() && Others() == old(Others()) && IntfMappingName(device.name) in configMaps
      ensures Now() == old(Now()).(intfMap := Some(o),
                                   live := old(live).(intfMappingStatus := Of(device.spec.intfMapping)))
    {
      NoteIntf(Of(device.spec.intfMapping));
      CreateIntf(o);
    }

    lemma DrawFrom(badKeys: set<nat>, order: seq<string>, dev: Device)
      requires Enumerates(order, dev.spec.toggleOverrides.Keys)
      ensures Model.Draws(dev, Model.Draw(badKeys, order))
    {
      EnumeratesMembers(order, dev.spec.toggleOverrides.Keys);
    }

    method EnsureToggles(ghost badKeys: set<nat>, objects: Objects) returns (r: Objects, ghost order: seq<string>)
      requires Linked()
      modifies this`configMaps, this`live, configMapStatus`toggleOverridesStatus
      ensures Linked() && Others() == old(Others())
      ensures var d := Model.Draw(badKeys, order);
              Model.Draws(device, d) && Now() == Model.EnsureToggles(old(Now()), d)
      ensures r == objects + Model.When(device.spec.toggleOverrides != map[], ToggleOverridesName(device.name),
              Now().toggles)
    {
      if device.spec.toggleOverrides == map[] {
        order := AnyOrder(badKeys, device);
        r := objects;
      } else {
        order := GetOrCreateToggles(badKeys);
        r := objects[ToggleOverridesName(device.name) := configMaps[ToggleOverridesName(device.name)].configMap];
      }
      WhenAdds(objects, device.spec.toggleOverrides != map[], ToggleOverridesName(device.name), Now().toggles);
    }

    lemma AnyOrder(badKeys: set<nat>, dev: Device) returns (order: seq<string>)
      ensures Model.Draws(dev, Model.Draw(badKeys, order))
    {
      order := SomeOrder(dev.spec.toggleOverrides.Keys);
      SomeOrderEnumerates(dev.spec.toggleOverrides.Keys);
      DrawFrom(badKeys, order, dev);
    }

    method GetOrCreateToggles(ghost badKeys: set<nat>) returns (ghost order: seq<string>)
      requires Linked() && device.spec.toggleOverrides != map[]
      modifies this`configMaps, this`live, configMapStatus`toggleOverridesStatus
      ensures Linked() && Others() == old(Others())
      ensures var d := Model.Draw(badKeys, order);
              Model.Draws(device, d) && Now() == Model.EnsureToggles(old(Now()), d)
      ensures ToggleOverridesName(device.name) in configMaps
    {
      if ToggleOverridesName(device.name) in configMaps {
        order := AnyOrder(badKeys, device);
      } else {
        var o;
        o, order := GetToggleOverrides(device.spec.toggleOverrides);
        DrawFrom(badKeys, order, device);
        MakeToggles(o);
      }
    }

    method MakeToggles(o: Object)
      requires Linked()
      modifies this`configMaps, this`live, configMapStatus`toggleOverridesStatus
      ensures Linked() && Others() == old(Others()) && ToggleOverridesName(device.name) in configMaps
      ensures Now() == old(Now()).(toggles := Some(o),
                                   live := old(live).(toggleOverridesStatus := Of(device.spec.toggleOverrides)))
    {
      NoteToggles(Of(device.spec.toggleOverrides));
      CreateToggles(o);
    }

    // KNE may have created a startup config.
    method NoteStartup(objects: Objects) returns (r: Objects)
      requires Linked()
      modifies this`live, configMapStatus`startupConfigResourceVersion
      ensures Linked()
      ensures Now() == Model.NoteStartup(old(Now()))
      ensures r == objects + Model.When(true, StartupConfigName(device.name), Model.StartupObject(Now()))
    {
      r := objects;
      var name := StartupConfigName(device.name);
      if name in configMaps {
        NoteVersion(Some(configMaps[name].resourceVersion));
        r := r[name := configMaps[name].configMap];
      }
      WhenAdds(objects, true, name, Model.StartupObject(Now()));
    }

    // The snapshot for the new pod is taken when the pod is built.
    method AddPod(objects: Objects) returns (progress: Progress)
      requires Linked()
      modifies this`pods, this`snap, podConfigMapStatus
      ensures Linked() && Others() == old(Others())
      ensures configMapStatus.selfSignedCertStatus == old(configMapStatus.selfSignedCertStatus)
      ensures Model.AddPod(old(Now()), PodFor(device, lib, objects)) == Ended(progress, Now())
    {
      var name := device.name;
      if name !in pods {
        var built := GetPod(device, lib, objects);
        match built {
          case Refused => return Stop;
          case Panicked => return Blowup;
          case Built(pod) => PutPod(pod);
        }
      }
      progress := GoOn;
    }

    method PutPod(pod: Pod)
      requires Linked()
      modifies this`pods, this`snap, podConfigMapStatus
      ensures Linked() && Others() == old(Others())
      ensures configMapStatus.selfSignedCertStatus == old(configMapStatus.selfSignedCertStatus)
      ensures Now() == old(Now()).(pod := Some(pod), snap := old(live))
    {
      TakeSnapshot();
      PutLeavesOthers(pods, device.name, pod, {device.name});
      pods := pods[device.name := pod];
    }

    ghost function Ended(progress: Progress, w: World): Model.Creation {
      match progress
      case GoOn => Model.Ready(w)
      case Stop => Model.Failed(w)
      case Blowup => Model.Crashed(w)
    }

    method AddService() returns (progress: Progress)
      requires Linked()
      modifies this`services
      ensures Linked() && Others() == old(Others())
      ensures Model.AddService(old(Now()), ServiceFor(device)) == Ended(progress, Now())
    {
      var name := ServiceName(device.name);
      if device.spec.services != map[] && name !in services {
        var built := GetService(device);
        if built.Err? {
          return Stop;
        }
        PutService(built.value);
      }
      progress := GoOn;
    }

    method PutService(service: Service)
      requires Linked()
      modifies this`services
      ensures Linked() && Others() == old(Others())
      ensures Now() == old(Now()).(service := Some(service))
    {
      PutLeavesOthers(services, ServiceName(device.name), service, {ServiceName(device.name)});
      services := services[ServiceName(device.name) := service];
    }

    lemma FileStages(w: World, a: World, b: World, c: World, d: Draw)
      requires Model.Draws(w.dev, d) && a == Model.EnsureRcEos(w)
      requires Model.EnsureIntf(a) == Model.Ready(b) && c == Model.EnsureToggles(b, d)
      ensures Model.EnsureFiles(w, d) == Model.Ready(Model.NoteStartup(c))
    {
    }

    lemma FileStop(w: World, b: World, d: Draw)
      requires Model.Draws(w.dev, d) && Model.EnsureIntf(Model.EnsureRcEos(w)) == Model.Failed(b)
      ensures Model.EnsureFiles(w, d) == Model.Failed(b)
    {
    }

    // What each stage contributed is what is there at the end.
    lemma FilesKept(w: World, a: World, b: World, c: World, d: Draw)
      requires Model.Draws(w.dev, d) && a == Model.EnsureRcEos(w)
      requires Model.EnsureIntf(a) == Model.Ready(b) && c == Model.EnsureToggles(b, d)
      ensures var e := Model.NoteStartup(c);
              && e.dev == w.dev && e.secrets == w.secrets
              && e.rcEos == a.rcEos && e.intfMap == b.intfMap && e.toggles == c.toggles
    {
    }

    lemma FilesConfigured(w: World, a: World, b: World, c: World, e: World)
      requires e.dev == w.dev && e.secrets == w.secrets
      requires e.rcEos == a.rcEos && e.intfMap == b.intfMap && e.toggles == c.toggles
      ensures var spec, name := w.dev.spec, w.dev.name;
              Model.ConfiguredObjects(e)
              == Model.ConfiguredSecrets(w)
                 + Model.When(spec.selfSignedCerts != [], RcEosName(name), a.rcEos)
                 + Model.When(spec.intfMapping != map[], IntfMappingName(name), b.intfMap)
                 + Model.When(spec.toggleOverrides != map[], ToggleOverridesName(name), c.toggles)
                 + Model.When(true, StartupConfigName(name), Model.StartupObject(e))
    {
    }

    lemma FilesDone(w: World, a: World, b: World, c: World, d: Draw, e: World)
      requires Model.Draws(w.dev, d) && a == Model.EnsureRcEos(w) && Model.EnsureIntf(a) == Model.Ready(b)
      requires c == Model.EnsureToggles(b, d) && e == Model.NoteStartup(c)
      ensures Model.EnsureFiles(w, d) == Model.Ready(e)
      ensures var spec, name := w.dev.spec, w.dev.name;
              Model.ConfiguredObjects(e)
              == Model.ConfiguredSecrets(w)
                 + Model.When(spec.selfSignedCerts != [], RcEosName(name), a.rcEos)
                 + Model.When(spec.intfMapping != map[], IntfMappingName(name), b.intfMap)
                 + Model.When(spec.toggleOverrides != map[], ToggleOverridesName(name), c.toggles)
                 + Model.When(true, StartupConfigName(name), Model.StartupObject(e))
    {
      FileStages(w, a, b, c, d);
      FilesKept(w, a, b, c, d);
      FilesConfigured(w, a, b, c, e);
    }

    // rc.eos, interface mapping, toggle overrides, startup config.
    method EnsureFiles(ghost badKeys: set<nat>, objects: Objects) returns (ok: bool, r: Objects, ghost d: Draw)
      requires Linked() && objects == Model.ConfiguredSecrets(Now())
      modifies this`configMaps, this`live
      modifies configMapStatus`rcEosStale, configMapStatus`intfMappingStatus,
               configMapStatus`toggleOverridesStatus, configMapStatus`startupConfigResourceVersion
      ensures Linked() && Others() == old(Others())
      ensures Model.Draws(device, d) && d.badKeys == badKeys
      ensures Model.EnsureFiles(old(Now()), d) == if ok then Model.Ready(Now()) else Model.Failed(Now())
      ensures ok ==> r == Model.ConfiguredObjects(Now())
    {
      ghost var w := Now();
      ghost var a;
      ok, r, a := EnsureScriptAndIntf(objects);
      if ok {
        r, d := EnsureLastFiles(badKeys, r, w, a);
      } else {
        d := AnyDraw(badKeys, device);
        FileStop(w, Now(), d);
      }
    }

    // `w` is the world before the files and `a` the one after rc.eos.
    method EnsureLastFiles(ghost badKeys: set<nat>, objects: Objects, ghost w: World, ghost a: World)
      returns (r: Objects, ghost d: Draw)
      requires Linked() && device == w.dev
      requires a == Model.EnsureRcEos(w) && Model.EnsureIntf(a) == Model.Ready(Now())
      requires objects == Model.ConfiguredSecrets(w)
                          + Model.When(device.spec.selfSignedCerts != [], RcEosName(device.name), a.rcEos)
                          + Model.When(device.spec.intfMapping != map[], IntfMappingName(device.name), Now().intfMap)
      modifies this`configMaps, this`live
      modifies configMapStatus`toggleOverridesStatus, configMapStatus`startupConfigResourceVersion
      ensures Linked() && Others() == old(Others())
      ensures Model.Draws(device, d) && d.badKeys == badKeys
      ensures Model.EnsureFiles(w, d) == Model.Ready(Now())
      ensures r == Model.ConfiguredObjects(Now())
    {
      ghost var b, c := Now(), Now();
      r, d, c := EnsureTogglesAndStartup(badKeys, objects);
      FilesDone(w, a, b, c, d, Now());
    }

    lemma Joined(a: Objects, b: Objects, c: Objects, first: Objects, second: Objects)
      requires b == a + first && c == b + second
      ensures c == a + first + second
    {
    }

    method EnsureScriptAndIntf(objects: Objects) returns (ok: bool, r: Objects, ghost a: World)
      requires Linked()
      modifies this`configMaps, this`live, configMapStatus`rcEosStale, configMapStatus`intfMappingStatus
      ensures Linked() && Others() == old(Others()) && a == Model.EnsureRcEos(old(Now()))
      ensures Model.EnsureIntf(a) == if ok then Model.Ready(Now()) else Model.Failed(Now())
      ensures ok ==>
                r == objects
                     + Model.When(device.spec.selfSignedCerts != [], RcEosName(device.name), a.rcEos)
                     + Model.When(device.spec.intfMapping != map[], IntfMappingName(device.name), Now().intfMap)
    {
      r := EnsureRcEos(objects);
      a := Now();
      ghost var scripted := r;
      ok, r := EnsureIntf(r);
      if ok {
        Joined(objects, scripted, r,
               Model.When(device.spec.selfSignedCerts != [], RcEosName(device.name), a.rcEos),
               Model.When(device.spec.intfMapping != map[], IntfMappingName(device.name), Now().intfMap));
      }
    }

    method EnsureTogglesAndStartup(ghost badKeys: set<nat>, objects: Objects)
      returns (r: Objects, ghost d: Draw, ghost c: World)
      requires Linked()
      modifies this`configMaps, this`live
      modifies configMapStatus`toggleOverridesStatus, configMapStatus`startupConfigResourceVersion
      ensures Linked() && Others() == old(Others()) && Model.Draws(device, d) && d.badKeys == badKeys
      ensures c == Model.EnsureToggles(old(Now()), d) && Now() == Model.NoteStartup(c)
      ensures r == objects
                   + Model.When(device.spec.toggleOverrides != map[], ToggleOverridesName(device.name), c.toggles)
                   + Model.When(true, StartupConfigName(device.name), Model.StartupObject(Now()))
    {
      ghost var order;
      r, order := EnsureToggles(badKeys, objects);
      d := Model.Draw(badKeys, order);
      c := Now();
      ghost var toggled := r;
      r := NoteStartup(r);
      Joined(objects, toggled, r,
             Model.When(device.spec.toggleOverrides != map[], ToggleOverridesName(device.name), c.toggles),
             Model.When(true, StartupConfigName(device.name), Model.StartupObject(Now())));
    }

    lemma AnyDraw(badKeys: set<nat>, dev: Device) returns (d: Draw)
      ensures Model.Draws(dev, d) && d.badKeys == badKeys
    {
      var order := AnyOrder(badKeys, dev);
      d := Model.Draw(badKeys, order);
    }

    method EnsureWorkloads(objects: Objects) returns (progress: Progress)
      requires Linked()
      modifies this`pods, this`snap, this`services, podConfigMapStatus
      ensures Linked() && Others() == old(Others())
      ensures configMapStatus.selfSignedCertStatus == old(configMapStatus.selfSignedCertStatus)
      ensures Model.EnsureWorkloads(old(Now()), PodFor(device, lib, objects), ServiceFor(device))
              == Ended(progress, Now())
    {
      progress := AddPod(objects);
      if progress.GoOn? {
        progress := AddService();
      }
    }

    // Secrets and files, given how their stages went.
    lemma ObjectsAfterCerts(w: World, d: Draw, certs: Model.Creation)
      requires Model.Draws(w.dev, d) && Model.EnsureCerts(w, d, 0) == certs && certs.w.dev == w.dev
      ensures Model.EnsureObjects(w, d) == if certs.Ready? then Model.EnsureFiles(certs.w, d) else certs
    {
    }

    method EnsureObjects(badKeys: set<nat>)
      returns (ok: bool, objects: Objects, configs: map<string, CertConfig>, ghost d: Draw)
      requires Linked()
      modifies this`configMaps, this`live, this`secrets, configMapStatus, configMapStatus.selfSignedCertStatus
      ensures Linked() && Others() == old(Others())
      ensures configMapStatus.selfSignedCertStatus == old(configMapStatus.selfSignedCertStatus)
              || fresh(configMapStatus.selfSignedCertStatus)
      ensures Model.Draws(device, d)
      ensures Model.EnsureObjects(old(Now()), d) == if ok then Model.Ready(Now()) else Model.Failed(Now())
      ensures ok ==> objects == Model.ConfiguredObjects(Now()) && configs == Configured()
    {
      ghost var w := Now();
      ok, objects, configs := EnsureCerts(badKeys);
      ghost var m0 := Now();
      if ok {
        ok, objects, d := EnsureFiles(badKeys, objects);
        OnlyBadKeysMatter(w, Model.Draw(badKeys, []), d, 0);
        ObjectsAfterCerts(w, d, Model.Ready(m0));
      } else {
        d := AnyDraw(badKeys, device);
        OnlyBadKeysMatter(w, Model.Draw(badKeys, []), d, 0);
        ObjectsAfterCerts(w, d, Model.Failed(m0));
      }
    }

    lemma WorkloadsAfterObjects(w: World, d: Draw, made: Model.Creation, objects: Objects, end: Model.Creation)
      requires Model.Draws(w.dev, d) && Model.EnsureObjects(w, d) == made
      requires if made.Ready?
               then objects == Model.ConfiguredObjects(made.w)
                    && end == Model.EnsureWorkloads(made.w, PodFor(made.w.dev, made.w.lib, objects),
                                                    ServiceFor(made.w.dev))
               else end == made
      ensures Model.CreateMissing(w, d) == end && (end.Ready? ==> end.w.pod.Some?)
    {
      if made.Ready? {
        WorkloadsMakePod(made.w, PodFor(made.w.dev, made.w.lib, objects), ServiceFor(made.w.dev));
      }
    }

    lemma WorkloadsMakePod(w: World, built: Built<Pod>, service: Result<Service>)
      ensures var end := Model.EnsureWorkloads(w, built, service);
              end.Ready? ==> end.w.pod.Some?
    {
    }

    method CreateMissing(badKeys: set<nat>)
      returns (progress: Progress, configs: map<string, CertConfig>, ghost d: Draw, ghost end: Model.Creation)
      requires Linked()
      modifies this`configMaps, this`live, this`secrets, this`pods, this`snap, this`services
      modifies configMapStatus, configMapStatus.selfSignedCertStatus, podConfigMapStatus
      ensures Linked() && Others() == old(Others())
      ensures configMapStatus.selfSignedCertStatus == old(configMapStatus.selfSignedCertStatus)
              || fresh(configMapStatus.selfSignedCertStatus)
      ensures end == Ended(progress, Now())
      ensures Model.Draws(device, d) && Model.CreateMissing(old(Now()), d) == end
      ensures progress.GoOn? ==> configs == Configured() && end.w.pod.Some?
    {
      ghost var w := Now();
      var ok, objects;
      ok, objects, configs, d := EnsureObjects(badKeys);
      ghost var made := if ok then Model.Ready(Now()) else Model.Failed(Now());
      progress := Stop;
      if ok {
        progress := EnsureWorkloads(objects);
      }
      end := Ended(progress, Now());
      WorkloadsAfterObjects(w, d, made, objects, end);
    }

    // ----- Comparing -----

    // Ranging over the configured certificates stops at the first that is recorded otherwise.
    method FindDiffering(configs: map<string, CertConfig>) returns (found: Option<string>)
      requires Linked()
      ensures found.None? ==> forall n :: n in configs ==> Model.Recorded(live, n) == configs[n]
      ensures found.Some? ==> found.value in configs && Model.Recorded(live, found.value) != configs[found.value]
    {
      var recorded := Entries(Shown(configMapStatus.selfSignedCertStatus));
      var todo := configs.Keys;
      while todo != {}
        invariant todo <= configs.Keys
        invariant forall n :: n in configs && n !in todo ==> Model.Recorded(live, n) == configs[n]
      {
        var name :| name in todo;
        var certStatus := if name in recorded then recorded[name] else Model.ZERO_CERT;
        if configs[name] != certStatus {
          return Some(name);
        }
        todo := todo - {name};
      }
      found := None;
    }

    // Ranging over the recorded certificates stops at the first that is no longer configured.
    method FindDropped(configs: map<string, CertConfig>) returns (found: Option<string>)
      requires Linked()
      ensures found.None? ==> Entries(live.selfSignedCertStatus).Keys <= configs.Keys
      ensures found.Some? ==> found.value in Entries(live.selfSignedCertStatus).Keys - configs.Keys
    {
      var recorded := Entries(Shown(configMapStatus.selfSignedCertStatus));
      var todo := recorded.Keys;
      while todo != {}
        invariant todo <= recorded.Keys && recorded.Keys - todo <= configs.Keys
      {
        var name :| name in todo;
        if name !in configs {
          return Some(name);
        }
        todo := todo - {name};
      }
      found := None;
    }

    // Script, interface mapping, toggles, startup config.
    method CompareLedger() returns (v: Verdict)
      requires Linked()
      ensures v == Model.LedgerVerdict(device.spec, live, Now().startup)
    {
      var l, spec := configMapStatus.Value(), device.spec;
      if l.rcEosStale {
        return Model.RcEosStale;
      }
      if l.intfMappingStatus.Of? {
        if spec.intfMapping == map[] {
          return Model.IntfDropped;
        }
        if spec.intfMapping != l.intfMappingStatus.entries {
          return Model.IntfDiffers;
        }
      }
      if l.toggleOverridesStatus.Of? {
        if spec.toggleOverrides == map[] {
          return Model.TogglesDropped;
        }
        if spec.toggleOverrides != l.toggleOverridesStatus.entries {
          return Model.TogglesDiffer;
        }
      }
      if l.startupConfigResourceVersion.Some? {
        var name := StartupConfigName(device.name);
        if name !in configMaps {
          return Model.StartupDropped;
        }
        if l.startupConfigResourceVersion.value != configMaps[name].resourceVersion {
          return Model.StartupDiffers;
        }
      }
      v := Model.InSync;
    }

    method SameEnvVars(pod: Pod) returns (same: bool)
      ensures same <==> FieldAgrees(device, lib, pod, EnvVars)
    {
      var envVarsMap := GetEnvVarsMap(device);
      var containerEnvVars := GetEnvMapFromApi(pod.env);
      same := envVarsMap == containerEnvVars;
    }

    method SameResources(pod: Pod) returns (parsed: bool, same: bool)
      ensures parsed <==> Parseable(lib, device.spec.resources)
      ensures same <==> FieldAgrees(device, lib, pod, Resources)
    {
      var specRequirements := GetResourceMap(lib, device.spec.resources);
      var containerRequirements := GetResourceMapFromApi(lib, pod.requests);
      parsed := specRequirements.Ok?;
      same := parsed && specRequirements.value == containerRequirements;
    }

    method SameArgs(pod: Pod) returns (same: bool)
      ensures same <==> FieldAgrees(device, lib, pod, Args)
    {
      var envVarsMap := GetEnvVarsMap(device);
      var specArgs := GetArgs(device, envVarsMap);
      same := specArgs == pod.args;
    }

    method SameAgents(pod: Pod) returns (same: bool)
      ensures same <==> FieldAgrees(device, lib, pod, Agents)
    {
      var containerWaitForAgents := AgentsFromApi(pod.startupProbe);
      var confed := |device.spec.waitForAgents| + |containerWaitForAgents| > 0;
      same := !confed || device.spec.waitForAgents == containerWaitForAgents;
    }

    method SameServices() returns (valid: bool, same: bool)
      ensures valid <==> ServiceMap(device.spec.services).Ok?
      ensures same <==> Model.ServiceAgrees(Now())
    {
      var specServiceMap := GetServiceMap(device.spec.services);
      var ports: seq<ServicePort> := [];
      if device.spec.services != map[] && ServiceName(device.name) in services {
        ports := services[ServiceName(device.name)].ports;
      }
      var containerServiceMap := GetServiceMapFromApi(ports);
      valid := specServiceMap.Ok?;
      same := valid && specServiceMap.value == containerServiceMap;
    }

    ghost predicate Differ(pod: Pod, field: PodField)
      reads this
    {
      !FieldAgrees(device, lib, pod, field)
    }

    // Environment, image and resources of the pod, in this order.
    method CompareContainer(pod: Pod) returns (v: Verdict)
      ensures v == if Differ(pod, EnvVars) then Model.PodDiffers(EnvVars)
                   else if Differ(pod, Image) then Model.PodDiffers(Image)
                   else if !Parseable(lib, device.spec.resources) then Model.ResourcesInvalid
                   else if Differ(pod, Resources) then Model.PodDiffers(Resources)
                   else Model.InSync
    {
      var same := SameEnvVars(pod);
      if !same {
        return Model.PodDiffers(EnvVars);
      }
      if ImageOf(device) != pod.image {
        return Model.PodDiffers(Image);
      }
      var parsed;
      parsed, same := SameResources(pod);
      if !parsed {
        return Model.ResourcesInvalid;
      }
      v := if same then Model.InSync else Model.PodDiffers(Resources);
    }

    // Arguments of the pod, arguments and image of its init container.
    method CompareArgs(pod: Pod) returns (v: Verdict)
      ensures v == if Differ(pod, Args) then Model.PodDiffers(Args)
                   else if Differ(pod, InitArgs) then Model.PodDiffers(InitArgs)
                   else if Differ(pod, InitImage) then Model.PodDiffers(InitImage)
                   else Model.InSync
    {
      var same := SameArgs(pod);
      if !same {
        return Model.PodDiffers(Args);
      }
      if InitArgsOf(device) != pod.initArgs {
        return Model.PodDiffers(InitArgs);
      }
      if InitImageOf(device) != pod.initImage {
        return Model.PodDiffers(InitImage);
      }
      v := Model.InSync;
    }

    // Services, and the agents the startup probe waits for.
    method CompareServices(pod: Pod) returns (v: Verdict)
      ensures v == if ServiceMap(device.spec.services).Err? then Model.ServicesInvalid
                   else if !Model.ServiceAgrees(Now()) then Model.ServiceDiffers
                   else if Differ(pod, Agents) then Model.PodDiffers(Agents)
                   else Model.InSync
    {
      var valid, same := SameServices();
      if !valid {
        return Model.ServicesInvalid;
      }
      if !same {
        return Model.ServiceDiffers;
      }
      same := SameAgents(pod);
      v := if same then Model.InSync else Model.PodDiffers(Agents);
    }

    // The comparisons one after the other; the first mismatch decides.
    method CompareLate(pod: Pod) returns (v: Verdict)
      requires Now().pod == Some(pod)
      ensures v == Model.LateVerdict(Now())
    {
      assert forall field :: field in Model.DifferingFields(Now()) <==> Differ(pod, field);
      v := CompareContainer(pod);
      if v.InSync? {
        v := CompareArgs(pod);
      }
      if v.InSync? {
        v := CompareServices(pod);
      }
    }

    method Compare(configs: map<string, CertConfig>) returns (v: Verdict)
      requires Linked() && Now().pod.Some? && configs == Configured()
      ensures Model.Diagnosis(Now(), v, Model.LateVerdict(Now()))
    {
      var pod := pods[device.name];
      var name := FindDiffering(configs);
      if name.Some? {
        assert name.value in Model.DifferingCerts(Now());
        return Model.CertDiffers(name.value);
      }
      name := FindDropped(configs);
      if name.Some? {
        assert name.value in Model.DroppedCerts(Now());
        return Model.CertDropped(name.value);
      }
      v := CompareLedger();
      if v.InSync? {
        var labels := GetLabels(device);
        if podConfigMapStatus.Value() != configMapStatus.Value() {
          v := Model.PodOutdated;
        } else if labels != pod.labels {
          v := Model.LabelsDiffer;
        } else {
          v := CompareLate(pod);
        }
      }
    }

    // ----- The one repair -----

    method DeleteRcEos()
      modifies this`configMaps
      ensures Now() == old(Now()).(rcEos := None)
      ensures Others() == old(Others())
    {
      KeysDistinct(device.name, 0);
      configMaps := configMaps - {RcEosName(device.name)};
      DropLeavesOthers(old(configMaps), RcEosName(device.name), OwnConfigMaps());
    }

    method DeleteIntf()
      modifies this`configMaps
      ensures Now() == old(Now()).(intfMap := None)
      ensures Others() == old(Others())
    {
      KeysDistinct(device.name, 0);
      configMaps := configMaps - {IntfMappingName(device.name)};
      DropLeavesOthers(old(configMaps), IntfMappingName(device.name), OwnConfigMaps());
    }

    method DeleteToggles()
      modifies this`configMaps
      ensures Now() == old(Now()).(toggles := None)
      ensures Others() == old(Others())
    {
      KeysDistinct(device.name, 0);
      configMaps := configMaps - {ToggleOverridesName(device.name)};
      DropLeavesOthers(old(configMaps), ToggleOverridesName(device.name), OwnConfigMaps());
    }

    // Every repair but the one that is not saved, up to the new state of the device.
    ghost predicate Repaired(before: World, v: Verdict)
      reads this
    {
      Now().(state := ReconcilingState) == Model.Repair(before, before, v)
    }

    method RepairCert(v: Verdict)
      requires Linked() && (v.CertDiffers? || v.CertDropped?)
      modifies this`live, this`secrets
      modifies configMapStatus`selfSignedCertStatus, configMapStatus`rcEosStale, configMapStatus.selfSignedCertStatus
      ensures Linked() && Repaired(old(Now()), v)
    {
      if v.CertDropped? {
        DropCert(v.name);
      } else {
        NoteStale(true);
      }
      secrets := secrets - {v.name};
    }

    method RepairRcEos()
      requires Linked() && configMapStatus.rcEosStale
      modifies this`live, this`configMaps, configMapStatus`rcEosStale
      ensures Linked() && Others() == old(Others()) && Repaired(old(Now()), Model.RcEosStale)
    {
      if device.spec.selfSignedCerts == [] {
        NoteStale(false);
      }
      DeleteRcEos();
    }

    method RepairIntf(v: Verdict)
      requires Linked() && (v.IntfDiffers? || v.IntfDropped?)
      modifies this`live, this`configMaps, configMapStatus`intfMappingStatus
      ensures Linked() && Others() == old(Others()) && Repaired(old(Now()), v)
    {
      if v.IntfDropped? {
        NoteIntf(Nil);
      }
      DeleteIntf();
    }

    method RepairToggles(v: Verdict)
      requires Linked() && (v.TogglesDiffer? || v.TogglesDropped?)
      modifies this`live, this`configMaps, configMapStatus`toggleOverridesStatus
      ensures Linked() && Others() == old(Others()) && Repaired(old(Now()), v)
    {
      if v.TogglesDropped? {
        NoteToggles(Nil);
      }
      DeleteToggles();
    }

    method RepairStartup(v: Verdict)
      requires Linked() && (v.StartupDiffers? || v.StartupDropped?)
      modifies this`live, configMapStatus`startupConfigResourceVersion
      ensures Linked() && Repaired(old(Now()), v)
    {
      if v.StartupDropped? {
        NoteVersion(None);
      } else {
        var _ := NoteStartup(map[]);
      }
    }

    method DeletePod(v: Verdict)
      requires Linked() && (v.PodOutdated? || v.PodDiffers?)
      modifies this`pods
      ensures Linked() && Others() == old(Others()) && Repaired(old(Now()), v)
    {
      DropLeavesOthers(pods, device.name, {device.name});
      pods := pods - {device.name};
    }

    method RepairLabels()
      requires Linked() && device.name in pods
      modifies this`pods
      ensures Linked() && Others() == old(Others()) && Repaired(old(Now()), Model.LabelsDiffer)
    {
      var labels := GetLabels(device);
      var pod := pods[device.name].(labels := labels);
      PutLeavesOthers(pods, device.name, pod, {device.name});
      pods := pods[device.name := pod];
    }

    // The service compared with is the device's only if any services are configured.
    method DeleteService()
      requires Linked() && device.spec.services != map[]
      modifies this`services
      ensures Linked() && Others() == old(Others()) && Repaired(old(Now()), Model.ServiceDiffers)
    {
      DropLeavesOthers(services, ServiceName(device.name), {ServiceName(device.name)});
      services := services - {ServiceName(device.name)};
    }

    predicate Requeues(v: Verdict) {
      !v.NotReached? && !v.ResourcesInvalid? && !v.ServicesInvalid? && !v.InSync?
    }

    method Repair(v: Verdict)
      requires Linked() && Requeues(v) && device.name in pods
      requires (v.ServiceDiffers? ==> device.spec.services != map[]) && (v.RcEosStale? ==> configMapStatus.rcEosStale)
      modifies this`live, this`secrets, this`configMaps, this`pods, this`services
      modifies configMapStatus, configMapStatus.selfSignedCertStatus
      ensures Linked() && Others() == old(Others()) && Repaired(old(Now()), v)
    {
      match v {
        case CertDiffers(_) => RepairCert(v);
        case CertDropped(_) => RepairCert(v);
        case RcEosStale => RepairRcEos();
        case IntfDiffers => RepairIntf(v);
        case IntfDropped => RepairIntf(v);
        case TogglesDiffer => RepairToggles(v);
        case TogglesDropped => RepairToggles(v);
        case StartupDiffers => RepairStartup(v);
        case StartupDropped => RepairStartup(v);
        case PodOutdated => DeletePod(v);
        case LabelsDiffer => RepairLabels();
        case PodDiffers(_) => DeletePod(v);
        case ServiceDiffers => DeleteService();
      }
    }

    // ----- One pass -----

    // Fetches the device.
    method Load()
      requires stored.Some?
      modifies this`device, this`configMapStatus, this`podConfigMapStatus, this`state, this`live, this`snap
      ensures Linked() && fresh(configMapStatus) && fresh(podConfigMapStatus)
      ensures configMapStatus.selfSignedCertStatus != null ==> fresh(configMapStatus.selfSignedCertStatus)
      ensures Now() == View() == old(View()) && device == stored.value.dev
    {
      device, state := stored.value.dev, stored.value.state;
      LoadStatus(stored.value.configMapStatus, stored.value.podConfigMapStatus);
    }

    method LoadStatus(l: Ledger, s: Ledger)
      modifies this`configMapStatus, this`podConfigMapStatus, this`live, this`snap
      ensures Linked() && fresh(configMapStatus) && fresh(podConfigMapStatus)
      ensures configMapStatus.selfSignedCertStatus != null ==> fresh(configMapStatus.selfSignedCertStatus)
      ensures live == l && snap == s
    {
      live, snap := l, s;
      configMapStatus := new ConfigMapStatus.From(l);
      podConfigMapStatus := new ConfigMapStatus.From(s);
    }

    // The status in `w` is the stored one.
    ghost predicate Loaded(w: World)
      reads this
    {
      && stored.Some? && stored.value.dev == device == w.dev
      && stored.value.configMapStatus == w.live && stored.value.podConfigMapStatus == w.snap
      && stored.value.state == w.state
    }

    // Acts on the verdict and leaves.
    method Conclude(v: Verdict, ghost w: World) returns (outcome: Model.Outcome)
      requires Valid() && Linked() && Loaded(w) && !v.NotReached? && device.name in pods
      requires (v.ServiceDiffers? ==> device.spec.services != map[]) && (v.RcEosStale? ==> configMapStatus.rcEosStale)
      modifies this`state, this`stored, this`live, this`secrets, this`configMaps, this`pods, this`services
      modifies configMapStatus, configMapStatus.selfSignedCertStatus
      ensures Valid() && stored.Some? && Others() == old(Others())
      ensures View() == Model.Saved(Model.Repair(w, old(Now()), v))
      ensures outcome == if v.InSync? || v.ResourcesInvalid? then Model.Done
                         else if v.ServicesInvalid? then Model.Error else Model.Requeue
    {
      if v.ServicesInvalid? {
        outcome := Model.Error;
      } else if v.ResourcesInvalid? {
        UpdateDevice(FailedState);
        outcome := Model.Done;
      } else if v.InSync? {
        UpdateDevice(SuccessState);
        outcome := Model.Done;
      } else {
        Repair(v);
        RepairIgnoresSaved(w, old(Now()), v);
        UpdateDevice(ReconcilingState);
        outcome := Model.Requeue;
      }
    }

    lemma RepairIgnoresSaved(w: World, m: World, v: Verdict)
      requires !v.ServicesInvalid?
      ensures Model.Repair(w, m, v) == Model.Repair(m, m, v)
    {
    }

    lemma VerdictReached(m: World, v: Verdict)
      requires m.pod.Some? && Model.Diagnosis(m, v, Model.LateVerdict(m))
      ensures !v.NotReached? && (v.ServiceDiffers? ==> m.dev.spec.services != map[])
      ensures v.RcEosStale? ==> m.live.rcEosStale
    {
      Soundness.LateVerdictMeans(m);
      ReachedVerdict(m, v, Model.LateVerdict(m));
      if m.dev.spec.services == map[] {
        Convergence.ServiceAgreesWithoutServices(m);
      }
    }

    lemma ReachedVerdict(m: World, v: Verdict, late: Verdict)
      requires m.pod.Some? && Model.Diagnosis(m, v, late) && Model.IsLate(late)
      ensures !v.NotReached? && (v.ServiceDiffers? ==> late == v) && (v.RcEosStale? ==> m.live.rcEosStale)
    {
    }

    // One pass does what the model says, for the choices `d` and `v` it happened to make, and leaves the
    // objects of other names alone.
    method Reconcile(badKeys: set<nat>) returns (outcome: Model.Outcome, ghost d: Draw, ghost v: Verdict)
      requires Valid()
      modifies this
      ensures Valid() && stored.Some? == old(stored).Some?
      ensures old(stored).None? ==> outcome == Model.Done && stored == old(stored)
      ensures old(stored).None? ==> secrets == old(secrets) && configMaps == old(configMaps)
      ensures old(stored).None? ==> pods == old(pods) && services == old(services)
      ensures old(stored).Some? ==>
                var name := old(stored).value.dev.name;
                OthersOf(configMaps, pods, services, name)
                == OthersOf(old(configMaps), old(pods), old(services), name)
      ensures old(stored).Some? ==> Model.Allowed(old(View()), d, v)
      ensures old(stored).Some? ==> View() == Model.Pass(old(View()), d, v)
      ensures old(stored).Some? ==> outcome == Model.OutcomeOf(old(View()), d, v)
    {
      d, v := Model.Draw(badKeys, []), Model.NotReached;
      if stored.None? {
        return Model.Done, d, v;
      }
      Load();
      outcome, d, v := Continue(badKeys);
    }

    // What follows once the device was fetched.
    method Continue(badKeys: set<nat>) returns (outcome: Model.Outcome, ghost d: Draw, ghost v: Verdict)
      requires Valid() && Linked() && Loaded(Now())
      modifies this`state, this`stored, this`live, this`snap, this`secrets, this`configMaps, this`pods, this`services
      modifies configMapStatus, configMapStatus.selfSignedCertStatus, podConfigMapStatus
      ensures Valid() && stored.Some? && Others() == old(Others())
      ensures Model.Draws(device, d)
      ensures Model.PassTaken(old(Now()), Model.CreateMissing(old(Now()), d), v, View(), outcome)
    {
      ghost var w := Now();
      var progress, configs;
      ghost var end;
      progress, configs, d, end := CreateMissing(badKeys);
      outcome, v := Finish(progress, configs, w, end);
    }

    // The second half of a pass.
    method Finish(progress: Progress, configs: map<string, CertConfig>, ghost w: World, ghost end: Model.Creation)
      returns (outcome: Model.Outcome, ghost v: Verdict)
      requires Valid() && Linked() && Loaded(w) && end == Ended(progress, Now())
      requires progress.GoOn? ==> configs == Configured() && end.w.pod.Some?
      modifies this`state, this`stored, this`live, this`secrets, this`configMaps, this`pods, this`services
      modifies configMapStatus, configMapStatus.selfSignedCertStatus
      ensures Valid() && stored.Some? && Others() == old(Others())
      ensures Model.PassTaken(w, end, v, View(), outcome)
    {
      v := Model.NotReached;
      match progress {
        case Stop =>
          UpdateDevice(FailedState);
          outcome := Model.Error;
        case Blowup =>
          BlowupKeeps(w);
          outcome := Model.Panic;
        case GoOn =>
          outcome, v := CompareAndAct(configs, w);
      }
    }

    // A panic leaves the stored device as it was.
    lemma BlowupKeeps(w: World)
      requires Valid() && Loaded(w)
      ensures View() == Model.Saved(Now().(live := w.live, snap := w.snap, state := w.state))
    {
    }

    method CompareAndAct(configs: map<string, CertConfig>, ghost w: World)
      returns (outcome: Model.Outcome, ghost v: Verdict)
      requires Valid() && Linked() && Loaded(w) && configs == Configured() && Now().pod.Some?
      modifies this`state, this`stored, this`live, this`secrets, this`configMaps, this`pods, this`services
      modifies configMapStatus, configMapStatus.selfSignedCertStatus
      ensures Valid() && stored.Some? && Others() == old(Others())
      ensures Model.PassTaken(w, Model.Ready(old(Now())), v, View(), outcome)
    {
      ghost var m := Now();
      var verdict := Compare(configs);
      v := verdict;
      VerdictReached(m, v);
      outcome := Conclude(verdict, w);
      VerdictTaken(w, m, v, View(), outcome);
    }

    lemma VerdictTaken(w: World, m: World, v: Verdict, r: World, outcome: Model.Outcome)
      requires m.pod.Some? && Model.Diagnosis(m, v, Model.LateVerdict(m)) && !v.NotReached?
      requires r == Model.Saved(Model.Repair(w, m, v))
      requires outcome == if v.InSync? || v.ResourcesInvalid? then Model.Done
                          else if v.ServicesInvalid? then Model.Error else Model.Requeue
      ensures Model.PassTaken(w, Model.Ready(m), v, r, outcome)
    {
    }
  }
}

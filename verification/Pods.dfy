// Building the pod and the service, and reading their settings back for comparison.
module Pods {
  import opened Basics
  import opened Text
  import opened Api
  import opened Quantities
  import opened Volumes
  import opened Services

  const CEOS_COMMAND := "/sbin/init"
  const DEFAULT_CEOS_IMAGE := "ceos:latest"
  const DEFAULT_INIT_CONTAINER_IMAGE := "networkop/init-wait:latest"
  const DEFAULT_ENV_VARS: map<string, string> := map[
    "CEOS" := "1",
    "EOS_PLATFORM" := "ceoslab",
    "container" := "docker",
    "ETBA" := "1",
    "SKIP_ZEROTOUCH_BARRIER_IN_SYSDBINIT" := "1",
    "INTFTYPE" := "eth"]

  // Assigning every entry of `over`, in any order, on top of `base`.
  method Override(base: map<string, string>, over: map<string, string>) returns (m: map<string, string>)
    ensures m == base + over
  {
    m := base;
    ghost var seen: set<string> := {};
    var todo := over.Keys;
    while todo != {}
      invariant todo !! seen && todo + seen == over.Keys
      invariant m == base + map k | k in seen :: over[k]
    {
      var k :| k in todo;
      m := m[k := over[k]];
      todo, seen := todo - {k}, seen + {k};
    }
    assert (map k | k in seen :: over[k]) == over;
  }

  // ----- Environment variables -----

  function EnvVarsMap(dev: Device): map<string, string> { DEFAULT_ENV_VARS + dev.spec.envVar }

  method GetEnvVarsMap(dev: Device) returns (m: map<string, string>)
    ensures m == EnvVarsMap(dev)
  {
    m := Override(map[], DEFAULT_ENV_VARS);
    m := Override(m, dev.spec.envVar);
    assert map[] + DEFAULT_ENV_VARS == DEFAULT_ENV_VARS;
  }

  function EnvIn(order: seq<string>, m: map<string, string>): seq<EnvVar>
    requires forall k :: k in order ==> k in m
  {
    if order == [] then []
    else EnvIn(order[..|order| - 1], m) + [EnvVar(order[|order| - 1], m[order[|order| - 1]])]
  }

  ghost function EnvVarsApi(m: map<string, string>): seq<EnvVar> {
    SortedKeysMembers(m.Keys);
    EnvIn(SortedKeys(m.Keys), m)
  }

  method GetEnvVarsApi(m: map<string, string>) returns (env: seq<EnvVar>)
    ensures env == EnvVarsApi(m)
  {
    var names := SortedRange(m.Keys);
    env := [];
    for i := 0 to |names|
      invariant env == EnvIn(names[..i], m)
    {
      assert names[..i + 1][..i] == names[..i];
      env := env + [EnvVar(names[i], m[names[i]])];
    }
    assert names[..|names|] == names;
  }

  function EnvMapFromApi(env: seq<EnvVar>): map<string, string> {
    if env == [] then map[]
    else EnvMapFromApi(env[..|env| - 1])[env[|env| - 1].name := env[|env| - 1].value]
  }

  method GetEnvMapFromApi(env: seq<EnvVar>) returns (m: map<string, string>)
    ensures m == EnvMapFromApi(env)
  {
    m := map[];
    for i := 0 to |env|
      invariant m == EnvMapFromApi(env[..i])
    {
      assert env[..i + 1][..i] == env[..i];
      m := m[env[i].name := env[i].value];
    }
    assert env[..|env|] == env;
  }

  lemma {:induction false} EnvInReadsBack(order: seq<string>, m: map<string, string>)
    requires forall k :: k in order ==> k in m
    ensures EnvMapFromApi(EnvIn(order, m)) == map k | k in order :: m[k]
  {
    if order == [] {
    } else {
      var rest, last := order[..|order| - 1], order[|order| - 1];
      assert order == rest + [last];
      EnvInReadsBack(rest, m);
      assert EnvIn(order, m)[..|EnvIn(order, m)| - 1] == EnvIn(rest, m);
    }
  }

  lemma EnvVarsReadBack(m: map<string, string>)
    ensures EnvMapFromApi(EnvVarsApi(m)) == m
  {
    SortedKeysMembers(m.Keys);
    EnvInReadsBack(SortedKeys(m.Keys), m);
    assert (map k | k in SortedKeys(m.Keys) :: m[k]) == m;
  }

  // ----- Labels, arguments, images, probe -----

  function LabelsOf(dev: Device): map<string, string> {
    map["app" := dev.name]["topo" := dev.namespace] + dev.labels
  }

  method GetLabels(dev: Device) returns (m: map<string, string>)
    ensures m == LabelsOf(dev)
  {
    m := Override(map["app" := dev.name]["topo" := dev.namespace], dev.labels);
  }

  function SetEnvArg(name: string, val: string): string { "systemd.setenv=" + name + "=" + val }

  function SetEnvArgs(order: seq<string>, m: map<string, string>): seq<string>
    requires forall k :: k in order ==> k in m
  {
    if order == [] then []
    else
      var last := order[|order| - 1];
      SetEnvArgs(order[..|order| - 1], m) + [SetEnvArg(last, m[last])]
  }

  ghost function SortedSetEnvArgs(m: map<string, string>): seq<string> {
    SortedKeysMembers(m.Keys);
    SetEnvArgs(SortedKeys(m.Keys), m)
  }

  ghost function ArgsOf(dev: Device): seq<string> {
    SortedSetEnvArgs(EnvVarsMap(dev)) + dev.spec.args
  }

  method GetSetEnvArgs(m: map<string, string>) returns (args: seq<string>)
    ensures args == SortedSetEnvArgs(m)
  {
    var names := SortedRange(m.Keys);
    args := [];
    for i := 0 to |names|
      invariant args == SetEnvArgs(names[..i], m)
    {
      assert names[..i + 1][..i] == names[..i];
      args := args + [SetEnvArg(names[i], m[names[i]])];
    }
    assert names[..|names|] == names;
  }

  method GetArgs(dev: Device, m: map<string, string>) returns (args: seq<string>)
    requires m == EnvVarsMap(dev)
    ensures args == ArgsOf(dev)
  {
    args := GetSetEnvArgs(m);
    args := AppendAll(args, dev.spec.args);
  }

  method AppendAll(before: seq<string>, more: seq<string>) returns (r: seq<string>)
    ensures r == before + more
  {
    r := before;
    for i := 0 to |more|
      invariant r == before + more[..i]
    {
      r := r + [more[i]];
    }
    assert more[..|more|] == more;
  }

  function ImageOf(dev: Device): string {
    if dev.spec.image != "" then dev.spec.image else DEFAULT_CEOS_IMAGE
  }

  function InitImageOf(dev: Device): string {
    if dev.spec.initContainerImage != "" then dev.spec.initContainerImage else DEFAULT_INIT_CONTAINER_IMAGE
  }

  // Go's int32 arithmetic wraps around.
  function Wrap32(n: int): int { (n + 0x8000_0000) % 0x1_0000_0000 - 0x8000_0000 }

  function InitArgsOf(dev: Device): seq<string> {
    [Decimal(Wrap32(dev.spec.numInterfaces + 1)), Decimal(dev.spec.sleep)]
  }

  function StartupProbeOf(dev: Device): ProbeCommand { ["wfw", "-t", "5"] + dev.spec.waitForAgents }

  function AgentsFromApi(probe: ProbeCommand): seq<string> { probe[3..] }

  // ----- Resources -----

  predicate Parseable(lib: QuantityLibrary, resources: map<string, string>) {
    forall k :: k in resources ==> lib.parse(resources[k]).Some?
  }

  // Every quantity in its canonical printed form.
  function ResourceMap(lib: QuantityLibrary, resources: map<string, string>): Result<map<string, string>> {
    if Parseable(lib, resources) then Ok(map k | k in resources :: lib.show(lib.parse(resources[k]).value)) else Err
  }

  method GetResourceMap(lib: QuantityLibrary, resources: map<string, string>) returns (r: Result<map<string, string>>)
    ensures r == ResourceMap(lib, resources)
  {
    var m: map<string, string> := map[];
    ghost var seen: set<string> := {};
    var todo := resources.Keys;
    while todo != {}
      invariant todo !! seen && todo + seen == resources.Keys
      invariant forall k :: k in seen ==> lib.parse(resources[k]).Some?
      invariant m == map k | k in seen :: lib.show(lib.parse(resources[k]).value)
    {
      var k :| k in todo;
      var quantity := lib.parse(resources[k]);
      if quantity.None? {
        return Err;
      }
      m := m[k := lib.show(quantity.value)];
      todo, seen := todo - {k}, seen + {k};
    }
    assert seen == resources.Keys;
    r := Ok(m);
  }

  function ResourceMapFromApi(lib: QuantityLibrary, requests: map<string, int>): map<string, string> {
    map k | k in requests :: lib.show(requests[k])
  }

  method GetResourceMapFromApi(lib: QuantityLibrary, requests: map<string, int>) returns (m: map<string, string>)
    ensures m == ResourceMapFromApi(lib, requests)
  {
    m := map[];
    ghost var seen: set<string> := {};
    var todo := requests.Keys;
    while todo != {}
      invariant todo !! seen && todo + seen == requests.Keys
      invariant m == map k | k in seen :: lib.show(requests[k])
    {
      var k :| k in todo;
      m := m[k := lib.show(requests[k])];
      todo, seen := todo - {k}, seen + {k};
    }
    assert seen == requests.Keys;
  }

  // MustParse on every entry: it panics on an entry that does not parse.
  function ResourcesApi(lib: QuantityLibrary, m: map<string, string>): map<string, int>
    requires Parseable(lib, m)
  {
    map k | k in m :: lib.parse(m[k]).value
  }

  method GetResourcesApi(lib: QuantityLibrary, m: map<string, string>) returns (requests: map<string, int>)
    requires Parseable(lib, m)
    ensures requests == ResourcesApi(lib, m)
  {
    requests := map[];
    ghost var seen: set<string> := {};
    var todo := m.Keys;
    while todo != {}
      invariant todo !! seen && todo + seen == m.Keys
      invariant requests == map k | k in seen :: lib.parse(m[k]).value
    {
      var k :| k in todo;
      requests := requests[k := lib.parse(m[k]).value];
      todo, seen := todo - {k}, seen + {k};
    }
    assert seen == m.Keys;
  }

  // A canonical map always parses, and is what is read back from the pod.
  lemma ResourcesReadBack(lib: QuantityLibrary, resources: map<string, string>)
    requires Parseable(lib, resources)
    ensures var m := ResourceMap(lib, resources).value;
            Parseable(lib, m) && ResourceMapFromApi(lib, ResourcesApi(lib, m)) == m
  {
    forall k | k in resources ensures Stable(lib, resources[k]) {
    }
  }

  // ----- The pod -----

  // getPod can fail (Refused) or panic.
  datatype Built<T> = Built(value: T) | Refused | Panicked

  ghost function PodFor(dev: Device, lib: QuantityLibrary, objects: Objects): Built<Pod> {
    if !Parseable(lib, dev.spec.resources) then Refused
    else
      ResourcesReadBack(lib, dev.spec.resources);
      match VolumesOf(objects)
      case Err => Panicked
      case Ok(volumes) =>
        Built(Pod(
          LabelsOf(dev), [CEOS_COMMAND], ArgsOf(dev), EnvVarsApi(EnvVarsMap(dev)), ImageOf(dev),
          ResourcesApi(lib, ResourceMap(lib, dev.spec.resources).value), StartupProbeOf(dev),
          InitArgsOf(dev), InitImageOf(dev), volumes, MountsOf(objects)))
  }

  method GetPod(dev: Device, lib: QuantityLibrary, objects: Objects) returns (r: Built<Pod>)
    ensures r == PodFor(dev, lib, objects)
  {
    var labels := GetLabels(dev);
    var envVarsMap := GetEnvVarsMap(dev);
    var env := GetEnvVarsApi(envVarsMap);
    var args := GetArgs(dev, envVarsMap);
    var resourceMap := GetResourceMap(lib, dev.spec.resources);
    if resourceMap.Err? {
      return Refused;
    }
    var volumes := GetVolumes(objects);
    if volumes.Err? {
      return Panicked;
    }
    var mounts := GetVolumeMounts(objects);
    ResourcesReadBack(lib, dev.spec.resources);
    var requests := GetResourcesApi(lib, resourceMap.value);
    r := Built(Pod(labels, [CEOS_COMMAND], args, env, ImageOf(dev), requests, StartupProbeOf(dev),
                   InitArgsOf(dev), InitImageOf(dev), volumes.value, mounts));
  }

  // The settings compared by the chain at the end of a pass, labels apart.
  datatype PodField = EnvVars | Image | Resources | Args | InitArgs | InitImage | Agents

  ghost predicate FieldAgrees(dev: Device, lib: QuantityLibrary, pod: Pod, field: PodField) {
    match field
    case EnvVars => EnvVarsMap(dev) == EnvMapFromApi(pod.env)
    case Image => ImageOf(dev) == pod.image
    case Resources => ResourceMap(lib, dev.spec.resources) == Ok(ResourceMapFromApi(lib, pod.requests))
    case Args => ArgsOf(dev) == pod.args
    case InitArgs => InitArgsOf(dev) == pod.initArgs
    case InitImage => InitImageOf(dev) == pod.initImage
    case Agents => dev.spec.waitForAgents == AgentsFromApi(pod.startupProbe)
  }

  ghost predicate FieldsAgree(dev: Device, lib: QuantityLibrary, pod: Pod) {
    forall field :: FieldAgrees(dev, lib, pod, field)
  }

  // No self-inflicted restart: a pod built from a device passes every later comparison with it.
  lemma BuiltPodAgrees(dev: Device, lib: QuantityLibrary, objects: Objects)
    requires PodFor(dev, lib, objects).Built?
    ensures var pod := PodFor(dev, lib, objects).value;
            pod.labels == LabelsOf(dev) && FieldsAgree(dev, lib, pod)
  {
    ResourcesReadBack(lib, dev.spec.resources);
    EnvVarsReadBack(EnvVarsMap(dev));
    var pod := PodFor(dev, lib, objects).value;
    forall field ensures FieldAgrees(dev, lib, pod, field) {
      match field
      case EnvVars =>
      case Image =>
      case Resources =>
      case Args =>
      case InitArgs =>
      case InitImage =>
      case Agents => assert (["wfw", "-t", "5"] + dev.spec.waitForAgents)[3..] == dev.spec.waitForAgents;
    }
  }

  // ----- The service -----

  ghost function ServiceFor(dev: Device): Result<Service> {
    var m :- ServiceMap(dev.spec.services);
    Ok(Service(map["pod" := dev.name], map["app" := dev.name], ServicePortsApi(m)))
  }

  method GetService(dev: Device) returns (r: Result<Service>)
    ensures r == ServiceFor(dev)
  {
    var serviceMap := GetServiceMap(dev.spec.services);
    if serviceMap.Err? {
      return Err;
    }
    var ports := GetServicePortsApi(serviceMap.value);
    r := Ok(Service(map["pod" := dev.name], map["app" := dev.name], ports));
  }

  lemma BuiltServiceAgrees(dev: Device)
    requires ServiceFor(dev).Ok?
    ensures Ok(ServiceMapFromApi(ServiceFor(dev).value.ports)) == ServiceMap(dev.spec.services)
  {
    ServicePortsReadBack(ServiceMap(dev.spec.services).value);
  }
}

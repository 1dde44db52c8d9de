// Pod and service in terms of the spec and of literal text.
module AskedPods {
  import opened Basics
  import opened Text
  import opened Api
  import opened Quantities
  import opened Volumes
  import opened Pods
  import opened Reading
  import opened AskedServices
  import opened AskedVolumes

  // ----- Labels -----

  // The device's own labels; besides, "app" and "topo".
  predicate LabelAsked(dev: Device, k: string, v: string) {
    if k in dev.labels then v == dev.labels[k]
    else (k == "app" && v == dev.name) || (k == "topo" && v == dev.namespace)
  }

  ghost predicate LabelsAsked(dev: Device, labels: map<string, string>) {
    && (forall k :: k in labels ==> LabelAsked(dev, k, labels[k]))
    && forall k, v :: LabelAsked(dev, k, v) ==> k in labels
  }

  lemma LabelsExactly(dev: Device, labels: map<string, string>)
    ensures labels == LabelsOf(dev) <==> LabelsAsked(dev, labels)
  {
    var all := LabelsOf(dev);
    forall k, v ensures LabelAsked(dev, k, v) <==> k in all && all[k] == v {
      assert "app" != "topo" by { assert "app"[0] != "topo"[0]; }
    }
    if LabelsAsked(dev, labels) {
      forall k ensures k in labels <==> k in all ensures k in labels && k in all ==> labels[k] == all[k] {
        if k in all {
          assert LabelAsked(dev, k, all[k]);
        }
        if k in labels {
          assert LabelAsked(dev, k, labels[k]);
        }
      }
    }
  }

  // ----- Environment -----

  predicate DefaultVar(k: string, v: string) {
    (k, v) in {("CEOS", "1"), ("EOS_PLATFORM", "ceoslab"), ("container", "docker"), ("ETBA", "1"),
               ("SKIP_ZEROTOUCH_BARRIER_IN_SYSDBINIT", "1"), ("INTFTYPE", "eth")}
  }

  // The variables of the spec; besides, the default ones.
  predicate VarAsked(dev: Device, k: string, v: string) {
    if k in dev.spec.envVar then v == dev.spec.envVar[k] else DefaultVar(k, v)
  }

  predicate LastVar(env: seq<EnvVar>, i: int, k: string, v: string) {
    0 <= i < |env| && env[i] == EnvVar(k, v) && forall j :: i < j < |env| ==> env[j].name != k
  }

  // Of several variables with one name the last counts.
  ghost predicate VarRead(env: seq<EnvVar>, k: string, v: string) {
    exists i :: LastVar(env, i, k, v)
  }

  ghost predicate EnvAsked(dev: Device, env: seq<EnvVar>) {
    forall k, v :: VarRead(env, k, v) <==> VarAsked(dev, k, v)
  }

  lemma DefaultsExactly(k: string, v: string)
    ensures k in DEFAULT_ENV_VARS && DEFAULT_ENV_VARS[k] == v <==> DefaultVar(k, v)
  {
    assert |"CEOS"| == |"ETBA"| == 4 && "CEOS"[0] != "ETBA"[0];
    assert |"EOS_PLATFORM"| == 12 && |"container"| == 9 && |"INTFTYPE"| == 8;
    assert |"SKIP_ZEROTOUCH_BARRIER_IN_SYSDBINIT"| == 35;
  }

  lemma VarsExactly(dev: Device, k: string, v: string)
    ensures k in EnvVarsMap(dev) && EnvVarsMap(dev)[k] == v <==> VarAsked(dev, k, v)
  {
    DefaultsExactly(k, v);
  }

  lemma {:induction false} EnvMapReads(env: seq<EnvVar>, k: string, v: string)
    ensures k in EnvMapFromApi(env) && EnvMapFromApi(env)[k] == v <==> VarRead(env, k, v)
  {
    if env == [] {
    } else {
      var last := |env| - 1;
      var rest := env[..last];
      EnvMapReads(rest, k, v);
      if env[last].name == k {
        forall i | LastVar(env, i, k, v) ensures i == last {
        }
        if env[last] == EnvVar(k, v) {
          assert LastVar(env, last, k, v);
        }
      } else {
        forall i ensures LastVar(env, i, k, v) <==> LastVar(rest, i, k, v) {
        }
      }
    }
  }

  lemma EnvExactly(dev: Device, env: seq<EnvVar>)
    ensures EnvVarsMap(dev) == EnvMapFromApi(env) <==> EnvAsked(dev, env)
  {
    var asked, read := EnvVarsMap(dev), EnvMapFromApi(env);
    forall k, v
      ensures k in asked && asked[k] == v <==> VarAsked(dev, k, v)
      ensures k in read && read[k] == v <==> VarRead(env, k, v)
    {
      VarsExactly(dev, k, v);
      EnvMapReads(env, k, v);
    }
    if EnvAsked(dev, env) {
      forall k ensures k in asked <==> k in read ensures k in asked && k in read ==> asked[k] == read[k] {
        if k in asked {
          assert VarAsked(dev, k, asked[k]);
        }
        if k in read {
          assert VarRead(env, k, read[k]);
        }
      }
    }
  }

  // ----- Arguments -----

  ghost predicate IsVar(dev: Device, k: string) { exists v :: VarAsked(dev, k, v) }

  // One setenv per variable, sorted, then the arguments of the spec.
  ghost predicate ArgsAskedBy(dev: Device, args: seq<string>, names: seq<string>) {
    && StrictlyAscending(names) && (forall k :: k in names <==> IsVar(dev, k))
    && |args| == |names| + |dev.spec.args|
    && (forall i, v :: 0 <= i < |names| && VarAsked(dev, names[i], v) ==>
          args[i] == "systemd.setenv=" + names[i] + "=" + v)
    && args[|names|..] == dev.spec.args
  }

  ghost predicate ArgsAsked(dev: Device, args: seq<string>) {
    exists names :: ArgsAskedBy(dev, args, names)
  }

  lemma {:induction false} SetEnvArgsAt(order: seq<string>, m: map<string, string>)
    requires forall k :: k in order ==> k in m
    ensures |SetEnvArgs(order, m)| == |order|
    ensures forall i :: 0 <= i < |order| ==> SetEnvArgs(order, m)[i] == SetEnvArg(order[i], m[order[i]])
  {
    if order == [] {
    } else {
      SetEnvArgsAt(order[..|order| - 1], m);
    }
  }

  lemma NamesAreVars(dev: Device, names: seq<string>)
    ensures StrictlyAscending(names) && (forall k :: k in names <==> IsVar(dev, k)) <==>
            names == SortedKeys(EnvVarsMap(dev).Keys)
  {
    var m := EnvVarsMap(dev);
    forall k ensures k in m <==> IsVar(dev, k) {
      if k in m {
        VarsExactly(dev, k, m[k]);
      }
      if v :| VarAsked(dev, k, v) {
        VarsExactly(dev, k, v);
      }
    }
    ListsExactly(names, m.Keys);
  }

  lemma ArgsExactly(dev: Device, args: seq<string>)
    ensures args == ArgsOf(dev) <==> ArgsAsked(dev, args)
  {
    var m := EnvVarsMap(dev);
    var order := SortedKeys(m.Keys);
    SortedKeysMembers(m.Keys);
    SetEnvArgsAt(order, m);
    NamesAreVars(dev, order);
    forall i, v | 0 <= i < |order| && VarAsked(dev, order[i], v) ensures v == m[order[i]] {
      VarsExactly(dev, order[i], v);
    }
    if args == ArgsOf(dev) {
      assert ArgsAskedBy(dev, args, order);
    }
    if names :| ArgsAskedBy(dev, args, names) {
      NamesAreVars(dev, names);
      AskedArgs(dev, args);
    }
  }

  lemma AskedArgs(dev: Device, args: seq<string>)
    requires ArgsAskedBy(dev, args, SortedKeys(EnvVarsMap(dev).Keys))
    ensures args == ArgsOf(dev)
  {
    var m := EnvVarsMap(dev);
    var order := SortedKeys(m.Keys);
    SortedKeysMembers(m.Keys);
    SetEnvArgsAt(order, m);
    forall i | 0 <= i < |order| ensures args[i] == SetEnvArgs(order, m)[i] {
      VarsExactly(dev, order[i], m[order[i]]);
    }
    assert args[..|order|] == SetEnvArgs(order, m);
    assert args == args[..|order|] + args[|order|..];
  }

  // ----- Init container, quantities, agents -----

  // `n` is what is left of `m` in 32 bits.
  predicate Wraps32(m: int, n: int) {
    -0x8000_0000 <= n <= 0x7fff_ffff && (m - n) % 0x1_0000_0000 == 0
  }

  ghost predicate InitArgsAsked(dev: Device, args: seq<string>) {
    exists n :: InitArgsAskedBy(dev, args, n)
  }

  predicate InitArgsAskedBy(dev: Device, args: seq<string>, n: int) {
    && |args| == 2 && Wraps32(dev.spec.numInterfaces + 1, n)
    && SignedNumeral(args[0], n) && SignedNumeral(args[1], dev.spec.sleep)
  }

  lemma Wrap32Exactly(m: int, n: int)
    ensures n == Wrap32(m) <==> Wraps32(m, n)
  {
  }

  lemma InitArgsExactly(dev: Device, args: seq<string>)
    ensures args == InitArgsOf(dev) <==> InitArgsAsked(dev, args)
  {
    var n := Wrap32(dev.spec.numInterfaces + 1);
    Wrap32Exactly(dev.spec.numInterfaces + 1, n);
    if |args| == 2 {
      DecimalExactly(n, args[0]);
      DecimalExactly(dev.spec.sleep, args[1]);
    }
    if args == InitArgsOf(dev) {
      assert InitArgsAskedBy(dev, args, n);
    }
    if n' :| InitArgsAskedBy(dev, args, n') {
      Wrap32Exactly(dev.spec.numInterfaces + 1, n');
      assert args == [args[0], args[1]];
    }
  }

  ghost predicate Unparsable(lib: QuantityLibrary, resources: map<string, string>) {
    exists k :: k in resources && lib.parse(resources[k]).None?
  }

  // Exactly the resources of the spec, each printed as the spec's quantity prints.
  ghost predicate RequestsAsked(lib: QuantityLibrary, resources: map<string, string>, requests: map<string, int>) {
    && requests.Keys == resources.Keys
    && forall k :: k in resources ==>
         lib.parse(resources[k]).Some? && lib.show(requests[k]) == lib.show(lib.parse(resources[k]).value)
  }

  lemma RequestsExactly(lib: QuantityLibrary, resources: map<string, string>, requests: map<string, int>)
    ensures Parseable(lib, resources) <==> !Unparsable(lib, resources)
    ensures ResourceMap(lib, resources) == Ok(ResourceMapFromApi(lib, requests)) <==>
            RequestsAsked(lib, resources, requests)
  {
    if ResourceMap(lib, resources) == Ok(ResourceMapFromApi(lib, requests)) {
      var m := ResourceMap(lib, resources).value;
      assert m.Keys == resources.Keys && ResourceMapFromApi(lib, requests).Keys == requests.Keys;
      forall k | k in resources ensures lib.show(requests[k]) == m[k] {
      }
    }
    if RequestsAsked(lib, resources, requests) {
      var m := ResourceMap(lib, resources).value;
      var shown := ResourceMapFromApi(lib, requests);
      assert m.Keys == shown.Keys;
      forall k | k in m ensures m[k] == shown[k] {
      }
      assert m == shown;
    }
  }

  predicate ImageAsked(image: string, asked: string, standard: string) {
    image == if asked == "" then standard else asked
  }

  // ----- The whole pod -----

  ghost predicate FieldAsked(dev: Device, lib: QuantityLibrary, pod: Pod, field: PodField) {
    match field
    case EnvVars => EnvAsked(dev, pod.env)
    case Image => ImageAsked(pod.image, dev.spec.image, "ceos:latest")
    case Resources => RequestsAsked(lib, dev.spec.resources, pod.requests)
    case Args => ArgsAsked(dev, pod.args)
    case InitArgs => InitArgsAsked(dev, pod.initArgs)
    case InitImage => ImageAsked(pod.initImage, dev.spec.initContainerImage, "networkop/init-wait:latest")
    case Agents => pod.startupProbe[3..] == dev.spec.waitForAgents
  }

  // Every setting that is compared, labels apart, is the one asked for.
  ghost predicate RunsAsAsked(dev: Device, lib: QuantityLibrary, pod: Pod) {
    forall field :: FieldAsked(dev, lib, pod, field)
  }

  lemma FieldExactly(dev: Device, lib: QuantityLibrary, pod: Pod, field: PodField)
    ensures FieldAgrees(dev, lib, pod, field) <==> FieldAsked(dev, lib, pod, field)
  {
    match field
    case EnvVars => EnvExactly(dev, pod.env);
    case Image =>
    case Resources => RequestsExactly(lib, dev.spec.resources, pod.requests);
    case Args => ArgsExactly(dev, pod.args);
    case InitArgs => InitArgsExactly(dev, pod.initArgs);
    case InitImage =>
    case Agents =>
  }

  // The comparisons of a pass find nothing in exactly the pods that run as asked.
  lemma FieldsAgreeExactly(dev: Device, lib: QuantityLibrary, pod: Pod)
    ensures FieldsAgree(dev, lib, pod) <==> RunsAsAsked(dev, lib, pod)
  {
    forall field ensures FieldAgrees(dev, lib, pod, field) <==> FieldAsked(dev, lib, pod, field) {
      FieldExactly(dev, lib, pod, field);
    }
  }

  // ----- A pod just built -----

  function VarNames(env: seq<EnvVar>): seq<string> {
    seq(|env|, i requires 0 <= i < |env| => env[i].name)
  }

  lemma {:induction false} EnvInAt(order: seq<string>, m: map<string, string>)
    requires forall k :: k in order ==> k in m
    ensures VarNames(EnvIn(order, m)) == order
  {
    if order == [] {
    } else {
      EnvInAt(order[..|order| - 1], m);
      var before, last := EnvIn(order[..|order| - 1], m), order[|order| - 1];
      assert VarNames(before + [EnvVar(last, m[last])]) == VarNames(before) + [last];
    }
  }

  lemma EnvSorted(m: map<string, string>)
    ensures StrictlyAscending(VarNames(EnvVarsApi(m)))
  {
    SortedKeysMembers(m.Keys);
    SortedKeysAscend(m.Keys);
    EnvInAt(SortedKeys(m.Keys), m);
  }

  // The requests of a new pod are the canonical quantities.
  ghost predicate RequestsBuilt(lib: QuantityLibrary, resources: map<string, string>, requests: map<string, int>) {
    && RequestsAsked(lib, resources, requests)
    && forall k :: k in requests ==> lib.parse(lib.show(lib.parse(resources[k]).value)) == Some(requests[k])
  }

  // getPod, exactly where it fails and panics, and in full where it builds.
  lemma PodExactly(dev: Device, lib: QuantityLibrary, objects: Objects)
    ensures PodFor(dev, lib, objects).Refused? <==> Unparsable(lib, dev.spec.resources)
    ensures PodFor(dev, lib, objects).Panicked? <==>
            !Unparsable(lib, dev.spec.resources) && exists n :: n in objects && Malformed(objects[n])
    ensures PodFor(dev, lib, objects).Built? ==>
              var pod := PodFor(dev, lib, objects).value;
              && LabelsAsked(dev, pod.labels) && RunsAsAsked(dev, lib, pod)
              && pod.command == ["/sbin/init"] && pod.startupProbe[..3] == ["wfw", "-t", "5"]
              && StrictlyAscending(VarNames(pod.env))
              && RequestsBuilt(lib, dev.spec.resources, pod.requests)
              && VolumesAsked(objects, pod.volumes) && MountsAsked(objects, pod.volumeMounts)
  {
    RequestsExactly(lib, dev.spec.resources, map[]);
    VolumesExactly(objects, []);
    if PodFor(dev, lib, objects).Built? {
      var pod := PodFor(dev, lib, objects).value;
      BuiltPodAgrees(dev, lib, objects);
      LabelsExactly(dev, pod.labels);
      FieldsAgreeExactly(dev, lib, pod);
      EnvSorted(EnvVarsMap(dev));
      VolumesExactly(objects, pod.volumes);
      MountsExactly(objects);
      BuiltRequests(dev, lib, objects);
    }
  }

  lemma BuiltRequests(dev: Device, lib: QuantityLibrary, objects: Objects)
    requires PodFor(dev, lib, objects).Built?
    ensures RequestsBuilt(lib, dev.spec.resources, PodFor(dev, lib, objects).value.requests)
  {
    var resources := dev.spec.resources;
    ResourcesReadBack(lib, resources);
    RequestsExactly(lib, resources, PodFor(dev, lib, objects).value.requests);
  }

  // ----- The service -----

  // getService, exactly.
  lemma ServiceExactly(dev: Device)
    ensures ServiceFor(dev).Err? <==> AsksConflict(dev.spec.services)
    ensures ServiceFor(dev).Ok? ==>
              var service := ServiceFor(dev).value;
              && service.labels == map["pod" := dev.name] && service.selector == map["app" := dev.name]
              && StrictlyAscending(PortNames(service.ports))
              && forall e :: e in service.ports <==> Forwarded(dev.spec.services, e.name, e.targetPort, e.port)
  {
    FailsIffAsksConflict(dev.spec.services);
    if ServiceFor(dev).Ok? {
      ServicePortsExactly(dev.spec.services);
    }
  }
}

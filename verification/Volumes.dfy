// Volumes and mounts of the pod, one volume per object and one mount per file.
module Volumes {
  import opened Basics
  import opened Text
  import opened Api
  import opened Names

  // ----- strconv.ParseInt(s, 8, 32) -----

  predicate IsOctal(s: string) {
    |s| > 0 && forall i :: 0 <= i < |s| ==> '0' <= s[i] <= '7'
  }

  function OctalValue(s: string): nat
    requires forall i :: 0 <= i < |s| ==> '0' <= s[i] <= '7'
  {
    if s == "" then 0 else
      assert '0' <= s[|s| - 1] <= '7';
      8 * OctalValue(s[..|s| - 1]) + DigitValue(s[|s| - 1])
  }

  function ParseOctal32(s: string): Option<int> {
    var signed := |s| > 0 && (s[0] == '-' || s[0] == '+');
    var body := if signed then s[1..] else s;
    if !IsOctal(body) then None
    else
      var magnitude: int := OctalValue(body);
      var n := if signed && s[0] == '-' then -magnitude else magnitude;
      if -0x8000_0000 <= n < 0x8000_0000 then Some(n) else None
  }

  // ----- Volumes -----

  // The mode asked for by the "permissions" annotation; a malformed one panics (Err).
  function DefaultMode(o: Object): Result<Option<int>> {
    if "permissions" !in o.annotations then Ok(None)
    else
      match ParseOctal32(o.annotations["permissions"])
      case None => Err
      case Some(mode) => Ok(Some(mode))
  }

  function VolumeFor(name: string, o: Object): Result<Volume> {
    var mode :- DefaultMode(o);
    Ok(Volume(VolumeName(name), if o.ConfigMap? then FromConfigMap(name, mode) else FromSecret(name, mode)))
  }

  type Objects = map<string, Object>

  function VolumesIn(order: seq<string>, objects: Objects): Result<seq<Volume>>
    requires forall n :: n in order ==> n in objects
  {
    if order == [] then Ok([])
    else
      var last := order[|order| - 1];
      var before :- VolumesIn(order[..|order| - 1], objects);
      var volume :- VolumeFor(last, objects[last]);
      Ok(before + [volume])
  }

  ghost function VolumesOf(objects: Objects): Result<seq<Volume>> {
    SortedKeysMembers(objects.Keys);
    VolumesIn(SortedKeys(objects.Keys), objects)
  }

  lemma {:induction false} VolumesInFails(order: seq<string>, objects: Objects, i: nat)
    requires forall n :: n in order ==> n in objects
    requires i < |order| && VolumeFor(order[i], objects[order[i]]).Err?
    ensures VolumesIn(order, objects).Err?
  {
    if i == |order| - 1 {
    } else {
      VolumesInFails(order[..|order| - 1], objects, i);
    }
  }

  lemma {:induction false} VolumesInSucceed(order: seq<string>, objects: Objects)
    requires forall n :: n in order ==> n in objects && DefaultMode(objects[n]).Ok?
    ensures VolumesIn(order, objects).Ok?
  {
    if order == [] {
    } else {
      VolumesInSucceed(order[..|order| - 1], objects);
    }
  }

  // Well-formed permissions never panic.
  lemma VolumesSucceed(objects: Objects)
    requires forall n :: n in objects ==> DefaultMode(objects[n]).Ok?
    ensures VolumesOf(objects).Ok?
  {
    SortedKeysMembers(objects.Keys);
    VolumesInSucceed(SortedKeys(objects.Keys), objects);
  }

  // Malformed permissions, on any one object, are exactly what panics.
  lemma VolumesFailExactly(objects: Objects)
    ensures VolumesOf(objects).Err? <==> exists n :: n in objects && DefaultMode(objects[n]).Err?
  {
    if n :| n in objects && DefaultMode(objects[n]).Err? {
      SortedKeysMembers(objects.Keys);
      var names := SortedKeys(objects.Keys);
      var i :| 0 <= i < |names| && names[i] == n;
      VolumesInFails(names, objects, i);
    } else {
      VolumesSucceed(objects);
    }
  }

  lemma VolumesInStep(names: seq<string>, objects: Objects, i: nat, before: seq<Volume>, volume: Volume)
    requires forall n :: n in names ==> n in objects
    requires i < |names| && VolumesIn(names[..i], objects) == Ok(before)
    requires VolumeFor(names[i], objects[names[i]]) == Ok(volume)
    ensures VolumesIn(names[..i + 1], objects) == Ok(before + [volume])
  {
    assert names[..i + 1][..i] == names[..i];
  }

  method GetVolume(name: string, o: Object) returns (r: Result<Volume>)
    ensures r == VolumeFor(name, o)
  {
    var permissions: Option<int> := None;
    if "permissions" in o.annotations {
      permissions := ParseOctal32(o.annotations["permissions"]);
      if permissions.None? {
        return Err;
      }
    }
    var source: VolumeSource;
    match o {
      case ConfigMap(_, _, _) => source := FromConfigMap(name, permissions);
      case Secret(_, _, _) => source := FromSecret(name, permissions);
    }
    r := Ok(Volume(VolumeName(name), source));
  }

  method GetVolumes(objects: Objects) returns (r: Result<seq<Volume>>)
    ensures r == VolumesOf(objects)
  {
    var names := SortedRange(objects.Keys);
    var volumes: seq<Volume> := [];
    for i := 0 to |names|
      invariant VolumesIn(names[..i], objects) == Ok(volumes)
    {
      var volume := GetVolume(names[i], objects[names[i]]);
      if volume.Err? {
        VolumesInFails(names, objects, i);
        return Err;
      }
      VolumesInStep(names, objects, i, volumes, volume.value);
      volumes := volumes + [volume.value];
    }
    assert names[..|names|] == names;
    r := Ok(volumes);
  }

  // ----- Mounts -----

  function FirstFiles(o: Object): set<string> {
    match o
    case ConfigMap(_, binaryData, _) => binaryData.Keys
    case Secret(_, data, _) => data.Keys
  }

  function SecondFiles(o: Object): set<string> {
    match o
    case ConfigMap(_, _, data) => data.Keys
    case Secret(_, _, stringData) => stringData.Keys
  }

  ghost function FileNames(o: Object): seq<string> {
    Sort(SomeOrder(FirstFiles(o)) + SomeOrder(SecondFiles(o)))
  }

  function MountFor(name: string, file: string): VolumeMount {
    VolumeMount(VolumeName(name), "/mnt/flash/" + file, file)
  }

  function MountsFor(name: string, files: seq<string>): seq<VolumeMount> {
    if files == [] then [] else MountsFor(name, files[..|files| - 1]) + [MountFor(name, files[|files| - 1])]
  }

  ghost function MountsIn(order: seq<string>, objects: Objects): seq<VolumeMount>
    requires forall n :: n in order ==> n in objects
  {
    if order == [] then []
    else
      var last := order[|order| - 1];
      MountsIn(order[..|order| - 1], objects) + MountsFor(last, FileNames(objects[last]))
  }

  ghost function MountsOf(objects: Objects): seq<VolumeMount> {
    SortedKeysMembers(objects.Keys);
    MountsIn(SortedKeys(objects.Keys), objects)
  }

  lemma FileNamesSorted(o: Object)
    ensures Ascending(FileNames(o))
    ensures multiset(FileNames(o)) == multiset(FirstFiles(o)) + multiset(SecondFiles(o))
  {
    var collected := SomeOrder(FirstFiles(o)) + SomeOrder(SecondFiles(o));
    SomeOrderEnumerates(FirstFiles(o));
    SomeOrderEnumerates(SecondFiles(o));
    SortAscends(collected);
    SortPermutes(collected);
  }

  // The file names of one object, both of its maps ranged over in any order, then sorted.
  method GetFileNames(o: Object) returns (files: seq<string>)
    ensures files == FileNames(o)
  {
    var first, second;
    match o {
      case ConfigMap(_, binaryData, data) =>
        first := RangeKeys(binaryData.Keys);
        second := RangeKeys(data.Keys);
      case Secret(_, data, stringData) =>
        first := RangeKeys(data.Keys);
        second := RangeKeys(stringData.Keys);
    }
    FileNamesSorted(o);
    SortAscends(first + second);
    SortPermutes(first + second);
    AscendingUnique(Sort(first + second), FileNames(o));
    files := Sort(first + second);
  }

  lemma MountsInStep(names: seq<string>, objects: Objects, i: nat)
    requires forall n :: n in names ==> n in objects
    requires i < |names|
    ensures MountsIn(names[..i + 1], objects)
            == MountsIn(names[..i], objects) + MountsFor(names[i], FileNames(objects[names[i]]))
  {
    assert names[..i + 1][..i] == names[..i];
  }

  lemma MountsForStep(name: string, files: seq<string>, j: nat)
    requires j < |files|
    ensures MountsFor(name, files[..j + 1]) == MountsFor(name, files[..j]) + [MountFor(name, files[j])]
  {
    assert files[..j + 1][..j] == files[..j];
  }

  // The inner loop: one mount per file.
  method AppendMounts(before: seq<VolumeMount>, name: string, files: seq<string>) returns (mounts: seq<VolumeMount>)
    ensures mounts == before + MountsFor(name, files)
  {
    mounts := before;
    for j := 0 to |files|
      invariant mounts == before + MountsFor(name, files[..j])
    {
      MountsForStep(name, files, j);
      mounts := mounts + [MountFor(name, files[j])];
    }
    assert files[..|files|] == files;
  }

  method GetVolumeMounts(objects: Objects) returns (mounts: seq<VolumeMount>)
    ensures mounts == MountsOf(objects)
  {
    var names := SortedRange(objects.Keys);
    mounts := [];
    for i := 0 to |names|
      invariant mounts == MountsIn(names[..i], objects)
    {
      var files := GetFileNames(objects[names[i]]);
      mounts := AppendMounts(mounts, names[i], files);
      MountsInStep(names, objects, i);
    }
    assert names[..|names|] == names;
  }

  // ----- Consistency -----

  lemma {:induction false} VolumesAt(order: seq<string>, objects: Objects)
    requires forall n :: n in order ==> n in objects
    requires VolumesIn(order, objects).Ok?
    ensures var vs := VolumesIn(order, objects).value;
            && |vs| == |order|
            && forall i :: 0 <= i < |order| ==> Ok(vs[i]) == VolumeFor(order[i], objects[order[i]])
  {
    if order == [] {
    } else {
      VolumesAt(order[..|order| - 1], objects);
    }
  }

  lemma VolumeForName(name: string, o: Object)
    ensures VolumeFor(name, o).Ok? ==> VolumeFor(name, o).value.name == VolumeName(name)
  {
  }

  // One volume per object, sorted by object name, all with different names.
  lemma OneVolumePerObject(objects: Objects)
    requires VolumesOf(objects).Ok?
    ensures var vs, names := VolumesOf(objects).value, SortedKeys(objects.Keys);
            && |vs| == |names| == |objects|
            && (forall n :: n in names <==> n in objects)
            && (forall i :: 0 <= i < |vs| ==> Ok(vs[i]) == VolumeFor(names[i], objects[names[i]]))
            && (forall i, j :: 0 <= i < j < |vs| ==> vs[i].name != vs[j].name)
  {
    var names := SortedKeys(objects.Keys);
    SortedKeysMembers(objects.Keys);
    var vs := VolumesOf(objects).value;
    VolumesAt(names, objects);
    forall i, j | 0 <= i < j < |vs| ensures vs[i].name != vs[j].name {
      VolumeForName(names[i], objects[names[i]]);
      VolumeForName(names[j], objects[names[j]]);
      if VolumeName(names[i]) == VolumeName(names[j]) {
        VolumeNameInjective(names[i], names[j]);
      }
    }
    DistinctCount(names, objects.Keys);
  }

  lemma {:induction false} DistinctCount(order: seq<string>, keys: set<string>)
    requires forall k :: k in order <==> k in keys
    requires forall i, j :: 0 <= i < j < |order| ==> order[i] != order[j]
    ensures |order| == |keys|
  {
    if order == [] {
      assert keys == {};
    } else {
      var rest, last := order[..|order| - 1], order[|order| - 1];
      assert order == rest + [last];
      assert last !in rest;
      assert forall k :: k in order <==> k in rest || k == last;
      DistinctCount(rest, keys - {last});
    }
  }

  // Exactly the objects have a volume.
  lemma VolumesTellObjects(objects: Objects, name: string)
    requires VolumesOf(objects).Ok?
    ensures var vs := VolumesOf(objects).value;
            name in objects <==> exists i :: 0 <= i < |vs| && vs[i].name == VolumeName(name)
  {
    OneVolumePerObject(objects);
    var vs, names := VolumesOf(objects).value, SortedKeys(objects.Keys);
    forall i | 0 <= i < |vs| ensures vs[i].name == VolumeName(names[i]) && names[i] in objects {
      VolumeForName(names[i], objects[names[i]]);
    }
    if name in objects {
      var i :| 0 <= i < |names| && names[i] == name;
      assert vs[i].name == VolumeName(name);
    } else if i :| 0 <= i < |vs| && vs[i].name == VolumeName(name) {
      VolumeNameInjective(names[i], name);
    }
  }

  function Copies(o: Object, file: string): nat {
    (if file in FirstFiles(o) then 1 else 0) + (if file in SecondFiles(o) then 1 else 0)
  }

  lemma MountForInjective(n1: string, f1: string, n2: string, f2: string)
    requires MountFor(n1, f1) == MountFor(n2, f2)
    ensures n1 == n2 && f1 == f2
  {
    VolumeNameInjective(n1, n2);
  }

  lemma {:induction false} MountsForCount(name: string, files: seq<string>, n: string, f: string)
    ensures multiset(MountsFor(name, files))[MountFor(n, f)] == if n == name then multiset(files)[f] else 0
  {
    if files != [] {
      var rest, last := files[..|files| - 1], files[|files| - 1];
      MountsForCount(name, rest, n, f);
      assert files == rest + [last];
      if MountFor(n, f) == MountFor(name, last) {
        MountForInjective(n, f, name, last);
      }
    } else {
      assert multiset(files) == multiset{};
    }
  }

  lemma {:induction false} MountsInCount(order: seq<string>, objects: Objects, n: string, f: string)
    requires forall k :: k in order ==> k in objects
    requires forall i, j :: 0 <= i < j < |order| ==> order[i] != order[j]
    ensures multiset(MountsIn(order, objects))[MountFor(n, f)] == if n in order then Copies(objects[n], f) else 0
  {
    if order == [] {
    } else {
      var rest, last := order[..|order| - 1], order[|order| - 1];
      assert order == rest + [last];
      assert last !in rest;
      MountsInCount(rest, objects, n, f);
      MountsForCount(last, FileNames(objects[last]), n, f);
      FileNamesCount(objects[last], f);
    }
  }

  lemma FileNamesCount(o: Object, file: string)
    ensures multiset(FileNames(o))[file] == Copies(o, file)
  {
    FileNamesSorted(o);
  }

  // A file is mounted as often as its object holds it: once, unless both of the object's maps have the key.
  lemma MountedAsOftenAsHeld(objects: Objects, name: string, file: string)
    ensures multiset(MountsOf(objects))[MountFor(name, file)]
            == if name in objects then Copies(objects[name], file) else 0
  {
    SortedKeysMembers(objects.Keys);
    MountsInCount(SortedKeys(objects.Keys), objects, name, file);
  }

  lemma {:induction false} MountsInOrigin(order: seq<string>, objects: Objects, m: VolumeMount)
    returns (name: string, file: string)
    requires forall k :: k in order ==> k in objects
    requires m in MountsIn(order, objects)
    ensures name in order && m == MountFor(name, file)
  {
    var rest, last := order[..|order| - 1], order[|order| - 1];
    if m in MountsIn(rest, objects) {
      name, file := MountsInOrigin(rest, objects, m);
    } else {
      name := last;
      file := MountsForOrigin(last, FileNames(objects[last]), m);
    }
  }

  lemma {:induction false} MountsForOrigin(name: string, files: seq<string>, m: VolumeMount) returns (file: string)
    requires m in MountsFor(name, files)
    ensures m == MountFor(name, file)
  {
    var last := files[|files| - 1];
    if m == MountFor(name, last) {
      file := last;
    } else {
      file := MountsForOrigin(name, files[..|files| - 1], m);
    }
  }

  // Every mount names an emitted volume.
  lemma MountsNameVolumes(objects: Objects, m: VolumeMount)
    requires VolumesOf(objects).Ok? && m in MountsOf(objects)
    ensures exists i :: 0 <= i < |VolumesOf(objects).value| && VolumesOf(objects).value[i].name == m.name
  {
    var names := SortedKeys(objects.Keys);
    SortedKeysMembers(objects.Keys);
    var name, file := MountsInOrigin(names, objects, m);
    VolumesAt(names, objects);
    var i :| 0 <= i < |names| && names[i] == name;
    VolumeForName(name, objects[name]);
    assert VolumesOf(objects).value[i].name == VolumeName(name);
  }

  // ----- What volumes and mounts depend on -----

  // Same kind, same permissions, every file as often: contents may differ.
  ghost predicate SameShape(a: Object, b: Object) {
    && a.ConfigMap? == b.ConfigMap?
    && DefaultMode(a) == DefaultMode(b)
    && forall file :: Copies(a, file) == Copies(b, file)
  }

  ghost predicate SameShapes(a: Objects, b: Objects) {
    a.Keys == b.Keys && forall n :: n in a ==> SameShape(a[n], b[n])
  }

  lemma SameShapeSameNames(a: Object, b: Object)
    requires SameShape(a, b)
    ensures FileNames(a) == FileNames(b)
  {
    FileNamesSorted(a);
    FileNamesSorted(b);
    forall file ensures multiset(FileNames(a))[file] == multiset(FileNames(b))[file] {
      FileNamesCount(a, file);
      FileNamesCount(b, file);
    }
    assert multiset(FileNames(a)) == multiset(FileNames(b));
    AscendingUnique(FileNames(a), FileNames(b));
  }

  lemma {:induction false} ShapeDecidesIn(order: seq<string>, a: Objects, b: Objects)
    requires SameShapes(a, b)
    requires forall n :: n in order ==> n in a
    ensures VolumesIn(order, a) == VolumesIn(order, b)
    ensures MountsIn(order, a) == MountsIn(order, b)
  {
    if order == [] {
    } else {
      var last := order[|order| - 1];
      ShapeDecidesIn(order[..|order| - 1], a, b);
      assert SameShape(a[last], b[last]);
      SameShapeSameNames(a[last], b[last]);
    }
  }

  lemma ShapeDecides(a: Objects, b: Objects)
    requires SameShapes(a, b)
    ensures VolumesOf(a) == VolumesOf(b) && MountsOf(a) == MountsOf(b)
  {
    SortedKeysMembers(a.Keys);
    ShapeDecidesIn(SortedKeys(a.Keys), a, b);
  }

  lemma VolumeTellsObject(name: string, a: Object, b: Object)
    requires VolumeFor(name, a).Ok? && VolumeFor(name, a) == VolumeFor(name, b)
    ensures a.ConfigMap? == b.ConfigMap? && DefaultMode(a) == DefaultMode(b)
  {
  }

  lemma VolumesTellKinds(a: Objects, b: Objects, n: string)
    requires VolumesOf(a).Ok? && VolumesOf(a) == VolumesOf(b) && a.Keys == b.Keys && n in a
    ensures a[n].ConfigMap? == b[n].ConfigMap? && DefaultMode(a[n]) == DefaultMode(b[n])
  {
    OneVolumePerObject(a);
    OneVolumePerObject(b);
    var names := SortedKeys(a.Keys);
    var i :| 0 <= i < |names| && names[i] == n;
    VolumeTellsObject(n, a[n], b[n]);
  }

  lemma MountsTellFiles(a: Objects, b: Objects, n: string)
    requires MountsOf(a) == MountsOf(b) && n in a && n in b
    ensures forall file :: Copies(a[n], file) == Copies(b[n], file)
  {
    forall file ensures Copies(a[n], file) == Copies(b[n], file) {
      MountedAsOftenAsHeld(a, n, file);
      MountedAsOftenAsHeld(b, n, file);
    }
  }

  // Volumes and mounts tell the shapes of the objects, and nothing more.
  lemma ShapesAreTold(a: Objects, b: Objects)
    requires VolumesOf(a).Ok?
    ensures VolumesOf(a) == VolumesOf(b) && MountsOf(a) == MountsOf(b) <==> SameShapes(a, b)
  {
    if SameShapes(a, b) {
      ShapeDecides(a, b);
    }
    if VolumesOf(a) == VolumesOf(b) && MountsOf(a) == MountsOf(b) {
      SameVolumesSameKeys(a, b);
      forall n | n in a ensures SameShape(a[n], b[n]) {
        VolumesTellKinds(a, b, n);
        MountsTellFiles(a, b, n);
      }
    }
  }

  lemma SameVolumesSameKeys(a: Objects, b: Objects)
    requires VolumesOf(a).Ok? && VolumesOf(a) == VolumesOf(b)
    ensures a.Keys == b.Keys
  {
    forall n ensures n in a <==> n in b {
      VolumesTellObjects(a, n);
      VolumesTellObjects(b, n);
    }
  }
}

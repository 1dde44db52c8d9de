// Volumes and mounts in terms of the objects alone.
module AskedVolumes {
  import opened Basics
  import opened Text
  import opened Api
  import opened Volumes
  import opened Reading

  // ----- Volumes -----

  // No mode without the annotation; with it, the number it is the octal numeral of.
  predicate ModeAsked(o: Object, mode: Option<int>) {
    if "permissions" !in o.annotations then mode == None
    else mode.Some? && OctalNumeral(o.annotations["permissions"], mode.value)
  }

  ghost predicate Malformed(o: Object) {
    "permissions" in o.annotations && forall n :: !OctalNumeral(o.annotations["permissions"], n)
  }

  // A volume backed by the object of that name and kind.
  predicate VolumeAsked(n: string, o: Object, v: Volume) {
    && v.name == "volume-" + n
    && match v.source
       case FromConfigMap(name, mode) => o.ConfigMap? && name == n && ModeAsked(o, mode)
       case FromSecret(name, mode) => o.Secret? && name == n && ModeAsked(o, mode)
  }

  ghost predicate VolumesFor(names: seq<string>, objects: Objects, vs: seq<Volume>) {
    && Lists(names, objects.Keys) && |vs| == |names|
    && forall i :: 0 <= i < |vs| ==> VolumeAsked(names[i], objects[names[i]], vs[i])
  }

  ghost predicate VolumesAsked(objects: Objects, vs: seq<Volume>) {
    exists names :: VolumesFor(names, objects, vs)
  }

  lemma ModeExactly(o: Object, mode: Option<int>)
    ensures DefaultMode(o) == Ok(mode) <==> ModeAsked(o, mode)
    ensures DefaultMode(o).Err? <==> Malformed(o)
  {
    if "permissions" in o.annotations {
      var text := o.annotations["permissions"];
      forall n ensures ParseOctal32(text) == Some(n) <==> OctalNumeral(text, n) {
        ParseOctalExactly(text, n);
      }
    }
  }

  lemma VolumeExactly(n: string, o: Object, v: Volume)
    ensures VolumeFor(n, o) == Ok(v) <==> VolumeAsked(n, o, v)
  {
    ModeExactly(o, v.source.defaultMode);
  }

  lemma {:induction false} VolumesInExactly(order: seq<string>, objects: Objects, vs: seq<Volume>)
    requires forall n :: n in order ==> n in objects
    ensures VolumesIn(order, objects) == Ok(vs) <==>
            |vs| == |order| && forall i :: 0 <= i < |vs| ==> VolumeFor(order[i], objects[order[i]]) == Ok(vs[i])
  {
    if order == [] {
    } else if vs == [] {
    } else {
      var rest, before := order[..|order| - 1], vs[..|vs| - 1];
      VolumesInExactly(rest, objects, before);
      assert vs == before + [vs[|vs| - 1]];
      if VolumesIn(order, objects) == Ok(vs) {
        var front := VolumesIn(rest, objects).value;
        assert front == before;
      }
    }
  }

  // getVolumes, exactly: the volumes asked for, or a panic on malformed permissions.
  lemma VolumesExactly(objects: Objects, vs: seq<Volume>)
    ensures VolumesOf(objects) == Ok(vs) <==> VolumesAsked(objects, vs)
    ensures VolumesOf(objects).Err? <==> exists n :: n in objects && Malformed(objects[n])
  {
    var order := SortedKeys(objects.Keys);
    SortedKeysMembers(objects.Keys);
    VolumesInExactly(order, objects, vs);
    ListsExactly(order, objects.Keys);
    forall n, v ensures n in objects ==> (VolumeFor(n, objects[n]) == Ok(v) <==> VolumeAsked(n, objects[n], v)) {
      if n in objects {
        VolumeExactly(n, objects[n], v);
      }
    }
    if VolumesOf(objects) == Ok(vs) {
      assert VolumesFor(order, objects, vs);
    }
    if names :| VolumesFor(names, objects, vs) {
      ListsExactly(names, objects.Keys);
    }
    VolumesFailExactly(objects);
    forall n | n in objects ensures DefaultMode(objects[n]).Err? <==> Malformed(objects[n]) {
      ModeExactly(objects[n], None);
    }
  }

  // ----- Mounts -----

  function MountAt(n: string, file: string): VolumeMount {
    VolumeMount("volume-" + n, "/mnt/flash/" + file, file)
  }

  // How many of an object's two maps have the file.
  function TimesHeld(o: Object, file: string): nat {
    match o
    case ConfigMap(_, binaryData, data) => (if file in binaryData then 1 else 0) + (if file in data then 1 else 0)
    case Secret(_, data, stringData) => (if file in data then 1 else 0) + (if file in stringData then 1 else 0)
  }

  predicate NotLater(n: string, file: string, n': string, file': string) {
    if n == n' then LessEq(file, file') else LessEq(n, n')
  }

  // Every file held is mounted by its name under /mnt/flash, nothing else is, and the mounts are sorted.
  ghost predicate MountsAsked(objects: Objects, mounts: seq<VolumeMount>) {
    && (forall n, file :: multiset(mounts)[MountAt(n, file)] == if n in objects then TimesHeld(objects[n], file) else 0)
    && (forall m :: m in mounts ==> exists n, file :: m == MountAt(n, file))
    && forall i, j, n, file, n', file' ::
         0 <= i < j < |mounts| && mounts[i] == MountAt(n, file) && mounts[j] == MountAt(n', file') ==>
         NotLater(n, file, n', file')
  }

  lemma {:induction false} MountsForAt(name: string, files: seq<string>)
    ensures |MountsFor(name, files)| == |files|
    ensures forall i :: 0 <= i < |files| ==> MountsFor(name, files)[i] == MountAt(name, files[i])
  {
    if files == [] {
    } else {
      var rest := files[..|files| - 1];
      MountsForAt(name, rest);
    }
  }

  // A name and a file for every mount.
  ghost predicate Labelled(mounts: seq<VolumeMount>, ns: seq<string>, files: seq<string>) {
    && |mounts| == |ns| == |files|
    && (forall i :: 0 <= i < |mounts| ==> mounts[i] == MountAt(ns[i], files[i]))
    && forall i, j :: 0 <= i < j < |mounts| ==> NotLater(ns[i], files[i], ns[j], files[j])
  }

  lemma {:induction false} MountsInLabelled(order: seq<string>, objects: Objects)
    returns (ns: seq<string>, files: seq<string>)
    requires forall k :: k in order ==> k in objects
    requires StrictlyAscending(order)
    ensures Labelled(MountsIn(order, objects), ns, files)
    ensures forall n :: n in ns ==> n in order
  {
    if order == [] {
      ns, files := [], [];
    } else {
      var rest, last := order[..|order| - 1], order[|order| - 1];
      var before, names := MountsInLabelled(rest, objects);
      var mine := FileNames(objects[last]);
      FileNamesSorted(objects[last]);
      MountsForAt(last, mine);
      ns, files := before + seq(|mine|, i => last), names + mine;
      forall i | 0 <= i < |before| ensures before[i] != last && LessEq(before[i], last) {
        assert before[i] in before;
        var x :| 0 <= x < |rest| && rest[x] == before[i];
        assert order[x] == before[i];
      }
    }
  }

  lemma MountAtTells(n: string, file: string, n': string, file': string)
    requires MountAt(n, file) == MountAt(n', file')
    ensures n == n' && file == file'
  {
    assert n == MountAt(n, file).name[7..] && n' == MountAt(n', file').name[7..];
  }

  // getVolumeMounts, exactly.
  lemma MountsExactly(objects: Objects)
    ensures MountsAsked(objects, MountsOf(objects))
  {
    var mounts := MountsOf(objects);
    SortedKeysMembers(objects.Keys);
    SortedKeysAscend(objects.Keys);
    var ns, files := MountsInLabelled(SortedKeys(objects.Keys), objects);
    forall n, file
      ensures multiset(mounts)[MountAt(n, file)] == if n in objects then TimesHeld(objects[n], file) else 0
    {
      MountedAsOftenAsHeld(objects, n, file);
    }
    forall m | m in mounts ensures exists n, file :: m == MountAt(n, file) {
      var i :| 0 <= i < |mounts| && mounts[i] == m;
      assert m == MountAt(ns[i], files[i]);
    }
    forall i, j, n, file, n', file'
      | 0 <= i < j < |mounts| && mounts[i] == MountAt(n, file) && mounts[j] == MountAt(n', file')
      ensures NotLater(n, file, n', file')
    {
      MountAtTells(n, file, ns[i], files[i]);
      MountAtTells(n', file', ns[j], files[j]);
    }
  }
}

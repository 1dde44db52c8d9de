// Names without newlines: the guards of module Exits in terms of names.
module OneLine {
  import opened Basics
  import opened Api
  import opened Names
  import opened Files
  import opened Reconcile
  import opened CreationFacts
  import opened Soundness
  import opened Exits

  // ----- The guards -----

  predicate SameFileNames(a: CertConfig, b: CertConfig) { a.certName == b.certName && a.keyName == b.keyName }

  // No recorded certificate is dropped, and none that exists changes its file names.
  ghost predicate NamesGuard(w: World) {
    FreshScript(w) ==>
      && DroppedCerts(w) == {}
      && forall n :: n in Wanted(w) && n in w.secrets ==> SameFileNames(Recorded(w.live, n), Wanted(w)[n])
  }

  ghost predicate UnsavedNamesGuard(w: World) {
    && MissingCertsRecorded(w)
    && (FreshIntf(w) ==> w.live.intfMappingStatus == Of(w.dev.spec.intfMapping))
    && (FreshToggles(w) ==> w.live.toggleOverridesStatus == Of(w.dev.spec.toggleOverrides))
    && (!w.live.rcEosStale ==> NamesGuard(w))
  }

  ghost predicate HarmlessByNames(w: World, badKeys: set<nat>) {
    match EndingOf(w, badKeys)
    case EarlyFailure => true
    case LateFailure => NamesGuard(w)
    case Crash => UnsavedNamesGuard(w)
    case Through => StopsAtServices(w) ==> UnsavedNamesGuard(w)
  }

  // ----- Names that fit on one line -----

  ghost predicate PlainCerts(certs: map<string, CertConfig>) {
    forall n :: n in certs ==> NewlineFree(certs[n].certName) && NewlineFree(certs[n].keyName)
  }

  predicate PlainToggles(toggles: map<string, bool>) { forall t :: t in toggles ==> NewlineFree(t) }

  ghost predicate PlainNames(w: World) {
    && NewlineFreeCerts(w.dev.spec.selfSignedCerts)
    && PlainCerts(Entries(w.live.selfSignedCertStatus))
    && PlainToggles(w.dev.spec.toggleOverrides)
    && PlainToggles(Entries(w.live.toggleOverridesStatus))
  }

  // ----- Scripts -----

  // The certificates of one map have the file names of those of the other.
  ghost predicate NamesFit(recorded: map<string, CertConfig>, wanted: map<string, CertConfig>) {
    recorded.Keys == wanted.Keys && forall n :: n in wanted ==> SameFileNames(recorded[n], wanted[n])
  }

  lemma {:induction false} SameNamesSameScript(a: seq<CertConfig>, b: seq<CertConfig>)
    requires |a| == |b| && forall i :: 0 <= i < |a| ==> SameFileNames(a[i], b[i])
    ensures CopyLines(a) == CopyLines(b)
  {
    if a == [] {
    } else {
      SameNamesSameScript(a[1..], b[1..]);
    }
  }

  // The recorded certificates, in the order of their secret names.
  lemma RecordedList(device: string, recorded: map<string, CertConfig>, certs: seq<CertConfig>)
    returns (list: seq<CertConfig>)
    requires recorded.Keys == CertMap(device, certs).Keys
    ensures |list| == |certs| && CertMap(device, list) == recorded
  {
    forall i | 0 <= i < |certs| ensures SecretName(device, i) in recorded {
      CertMapFromAt(device, certs, 0, SecretName(device, i));
    }
    list := seq(|certs|, i requires 0 <= i < |certs| => recorded[SecretName(device, i)]);
    forall n ensures n in CertMap(device, list) <==> n in recorded
      ensures n in recorded ==> CertMap(device, list)[n] == recorded[n]
    {
      CertMapFromAt(device, list, 0, n);
      CertMapFromAt(device, certs, 0, n);
    }
  }

  lemma FittingNamesMakeScript(device: string, recorded: map<string, CertConfig>, certs: seq<CertConfig>)
    requires certs != [] && NamesFit(recorded, CertMap(device, certs))
    ensures MakesScript(device, recorded, certs)
  {
    var list := RecordedList(device, recorded, certs);
    forall i | 0 <= i < |certs| ensures SameFileNames(list[i], certs[i]) {
      CertMapFromAt(device, certs, 0, SecretName(device, i));
      CertMapFromAt(device, list, 0, SecretName(device, i));
    }
    SameNamesSameScript(list, certs);
    assert SameScript(device, recorded, list, certs);
  }

  lemma NewlineFreeList(device: string, list: seq<CertConfig>)
    requires PlainCerts(CertMap(device, list))
    ensures NewlineFreeCerts(list)
  {
    forall i | 0 <= i < |list| ensures NewlineFree(list[i].certName) && NewlineFree(list[i].keyName) {
      CertMapFromAt(device, list, 0, SecretName(device, i));
    }
  }

  lemma SameScriptSameNames(a: seq<CertConfig>, b: seq<CertConfig>)
    requires NewlineFreeCerts(a) && NewlineFreeCerts(b) && RcEosText(a) == RcEosText(b)
    ensures |a| == |b| && forall i :: 0 <= i < |a| ==> SameFileNames(a[i], b[i])
  {
    RcEosReadsBack(a);
    RcEosReadsBack(b);
    assert |FilesOf(a)| == |a| && |FilesOf(b)| == |b|;
    forall i | 0 <= i < |a| ensures SameFileNames(a[i], b[i]) {
      assert FilesOf(a)[i] == FilesOf(b)[i];
    }
  }

  lemma ListsFit(device: string, list: seq<CertConfig>, certs: seq<CertConfig>)
    requires |list| == |certs| && forall i :: 0 <= i < |list| ==> SameFileNames(list[i], certs[i])
    ensures NamesFit(CertMap(device, list), CertMap(device, certs))
  {
    forall n ensures n in CertMap(device, list) <==> n in CertMap(device, certs)
      ensures n in CertMap(device, list) ==> SameFileNames(CertMap(device, list)[n], CertMap(device, certs)[n])
    {
      CertMapFromAt(device, list, 0, n);
      CertMapFromAt(device, certs, 0, n);
    }
  }

  // Certificates make the script of others if the file names fit, and only then if no name has a newline.
  lemma ScriptFitsExactly(device: string, recorded: map<string, CertConfig>, certs: seq<CertConfig>)
    requires certs != []
    ensures NamesFit(recorded, CertMap(device, certs)) ==> MakesScript(device, recorded, certs)
    ensures NewlineFreeCerts(certs) && PlainCerts(recorded) && MakesScript(device, recorded, certs) ==>
              NamesFit(recorded, CertMap(device, certs))
  {
    if NamesFit(recorded, CertMap(device, certs)) {
      FittingNamesMakeScript(device, recorded, certs);
    }
    if NewlineFreeCerts(certs) && PlainCerts(recorded) && MakesScript(device, recorded, certs) {
      var list :| SameScript(device, recorded, list, certs);
      NewlineFreeList(device, list);
      SameScriptSameNames(list, certs);
      ListsFit(device, list, certs);
    }
  }

  // ----- The guards compared -----

  lemma NamesGuardMeansFit(w: World)
    requires Core(w) && FreshScript(w)
    ensures NamesGuard(w) <==> NamesFit(RecordedThen(w), Wanted(w))
  {
    forall n | n in w.secrets ensures RecordedAs(w.live, n, Recorded(w.live, n)) {
    }
    NoDroppedMeansWanted(w);
  }

  lemma PlainThen(w: World)
    requires PlainNames(w)
    ensures PlainCerts(RecordedThen(w))
  {
    forall n | n in Wanted(w) ensures NewlineFree(Wanted(w)[n].certName) && NewlineFree(Wanted(w)[n].keyName) {
      CertMapFromAt(w.dev.name, w.dev.spec.selfSignedCerts, 0, n);
    }
  }

  lemma NamesGuardExactly(w: World)
    requires Core(w)
    ensures NamesGuard(w) ==> ScriptGuard(w)
    ensures PlainNames(w) ==> (ScriptGuard(w) <==> NamesGuard(w))
  {
    if FreshScript(w) {
      NamesGuardMeansFit(w);
      ScriptFitsExactly(w.dev.name, RecordedThen(w), w.dev.spec.selfSignedCerts);
      if PlainNames(w) {
        PlainThen(w);
      }
    }
  }

  lemma TogglesGuardExactly(w: World, d: Draw)
    requires Draws(w.dev, d)
    ensures w.live.toggleOverridesStatus == Of(w.dev.spec.toggleOverrides) ==> TogglesGuard(w, d)
    ensures PlainNames(w) && FreshToggles(w) && TogglesGuard(w, d) ==>
              w.live.toggleOverridesStatus == Of(w.dev.spec.toggleOverrides)
  {
    var o := ToggleObject(d.toggleOrder, w.dev.spec.toggleOverrides);
    assert TogglesInOrder(o, d.toggleOrder, w.dev.spec.toggleOverrides);
    if PlainNames(w) && FreshToggles(w) && TogglesGuard(w, d) {
      ToggleFileReadsBack(o, w.dev.spec.toggleOverrides);
      ToggleFileReadsBack(o, w.live.toggleOverridesStatus.entries);
    }
  }

  // What is right by its names is harmless; and nothing else is, if no name has a newline.
  lemma HarmlessByNamesExactly(w: World, d: Draw)
    requires Core(w) && Draws(w.dev, d)
    ensures HarmlessByNames(w, d.badKeys) ==> Harmless(w, d)
    ensures PlainNames(w) ==> (Harmless(w, d) <==> HarmlessByNames(w, d.badKeys))
  {
    NamesGuardExactly(w);
    TogglesGuardExactly(w, d);
  }

  // ----- A name can imitate lines -----

  // Three certificates, and one with a key name of three lines.
  const THREE_CERTS :=
    [CertConfig("", "", 2048, ""), CertConfig("", TO_SSL_KEY, 2048, ""), CertConfig("", "", 2048, "")]
  const IMITATION := TO_SSL_KEY + "\n" + CERT_COPY + TO_CERTIFICATE + "\n" + CERT_COPY + TO_SSL_KEY
  const ONE_CERT := [CertConfig("", IMITATION, 2048, "")]

  function CertText(c: CertConfig): string {
    CopyLine(c.certName, TO_CERTIFICATE) + "\n" + (CopyLine(c.keyName, TO_SSL_KEY) + "\n")
  }

  lemma TextStep(c: CertConfig, rest: seq<CertConfig>)
    ensures Unlines(CopyLines([c] + rest)) == CertText(c) + Unlines(CopyLines(rest))
  {
    var first, second := CopyLine(c.certName, TO_CERTIFICATE), CopyLine(c.keyName, TO_SSL_KEY);
    assert ([c] + rest)[1..] == rest;
    assert CopyLines([c] + rest)[1..] == [second] + CopyLines(rest);
    assert ([second] + CopyLines(rest))[1..] == CopyLines(rest);
  }

  lemma EmptyName(destination: string)
    ensures CopyLine("", destination) == CERT_COPY + destination
  {
  }

  lemma Imitates(p: string, c: string, s: string, name: string)
    requires name == s + "\n" + p + c + "\n" + p + s
    ensures p + c + "\n" + (p + name + s + name + "\n")
         == (p + c + "\n" + (p + s + "\n"))
            + ((p + c + "\n" + (p + s + s + s + "\n")) + (p + c + "\n" + (p + s + "\n")))
  {
    var line := p + c + "\n";
    assert name == s + "\n" + line + p + s;
    assert p + name + s + name + "\n" == (p + s + "\n") + (line + (p + s + s + s + "\n") + (line + (p + s + "\n")));
  }

  // One script, and certificates of different number.
  lemma NameImitatesLines()
    ensures RcEosText(ONE_CERT) == RcEosText(THREE_CERTS) && |ONE_CERT| != |THREE_CERTS|
  {
    var a, b := CertConfig("", "", 2048, ""), CertConfig("", TO_SSL_KEY, 2048, "");
    EmptyName(TO_CERTIFICATE);
    EmptyName(TO_SSL_KEY);
    TextStep(a, [b, a]);
    TextStep(b, [a]);
    TextStep(a, []);
    TextStep(ONE_CERT[0], []);
    assert THREE_CERTS == [a] + [b, a] && [b, a] == [b] + [a] && [a] == [a] + [] && ONE_CERT == [ONE_CERT[0]] + [];
    Imitates(CERT_COPY, TO_CERTIFICATE, TO_SSL_KEY, IMITATION);
    SameBodySameText(ONE_CERT, THREE_CERTS);
  }

  lemma SameBodySameText(a: seq<CertConfig>, b: seq<CertConfig>)
    requires Unlines(CopyLines(a)) == Unlines(CopyLines(b))
    ensures RcEosText(a) == RcEosText(b)
  {
    UnlinesAppend(RC_EOS_HEADER + CopyLines(a), RC_EOS_TRAILER);
    UnlinesAppend(RC_EOS_HEADER, CopyLines(a));
    UnlinesAppend(RC_EOS_HEADER + CopyLines(b), RC_EOS_TRAILER);
    UnlinesAppend(RC_EOS_HEADER, CopyLines(b));
  }
}

// The files the controller generates, and parsers that read them back.
module Files {
  import opened Basics
  import opened Text
  import opened Api

  // ----- Self-signed certificates -----

  // A map literal with two keys: when both names agree the key wins.
  function CertSecret(config: CertConfig): Object {
    Secret(map[], map[config.certName := CertPem(config)][config.keyName := KeyPem(config)], map[])
  }

  lemma CertSecretTellsConfig(c1: CertConfig, c2: CertConfig)
    requires CertSecret(c1) == CertSecret(c2)
    ensures c1 == c2
  {
    assert CertSecret(c1).data[c1.keyName] == KeyPem(c1);
    assert c1.keyName in CertSecret(c2).data;
    assert CertSecret(c2).data[c1.keyName] in {CertPem(c2), KeyPem(c2)};
  }

  // ----- rc.eos -----

  const CERT_COPY := "copy file:/mnt/flash/"
  const TO_CERTIFICATE := " certificate:"
  const TO_SSL_KEY := " sslkey:"
  const RC_EOS_HEADER := ["#!/bin/bash", "{", "wfw ConfigAgent", "Cli -Ac 'enable"]
  const RC_EOS_TRAILER := ["'", "} 2>/mnt/flash/rc.eos.log >&2 &"]

  function CopyLine(name: string, destination: string): string {
    CERT_COPY + name + destination + name
  }

  function Unlines(lines: seq<string>): string {
    if lines == [] then "" else lines[0] + "\n" + Unlines(lines[1..])
  }

  function CopyLines(certs: seq<CertConfig>): (lines: seq<string>)
    ensures |lines| == 2 * |certs|
  {
    if certs == [] then []
    else [CopyLine(certs[0].certName, TO_CERTIFICATE), CopyLine(certs[0].keyName, TO_SSL_KEY)] + CopyLines(certs[1..])
  }

  function RcEosLines(certs: seq<CertConfig>): seq<string> {
    RC_EOS_HEADER + CopyLines(certs) + RC_EOS_TRAILER
  }

  function RcEosText(certs: seq<CertConfig>): string { Unlines(RcEosLines(certs)) }

  function RcEosObject(certs: seq<CertConfig>): Object {
    ConfigMap(map["permissions" := "775"], map["rc.eos" := Plain(RcEosText(certs))], map[])
  }

  lemma {:induction false} UnlinesAppend(a: seq<string>, b: seq<string>)
    ensures Unlines(a + b) == Unlines(a) + Unlines(b)
  {
    if a == [] {
      assert a + b == b;
    } else {
      UnlinesAppend(a[1..], b);
      assert (a + b)[1..] == a[1..] + b;
    }
  }

  lemma UnlinesOne(a: seq<string>, line: string)
    ensures Unlines(a + [line]) == Unlines(a) + line + "\n"
  {
    UnlinesAppend(a, [line]);
    assert Unlines([line]) == line + "\n" + Unlines([]);
  }

  lemma {:induction false} CopyLinesOne(certs: seq<CertConfig>, c: CertConfig)
    ensures CopyLines(certs + [c])
         == CopyLines(certs) + [CopyLine(c.certName, TO_CERTIFICATE)] + [CopyLine(c.keyName, TO_SSL_KEY)]
  {
    if certs == [] {
      assert certs + [c] == [c];
    } else {
      CopyLinesOne(certs[1..], c);
      assert (certs + [c])[1..] == certs[1..] + [c];
    }
  }

  // The buffer after one more line.
  method WriteLn(buffer: string, ghost lines: seq<string>, line: string) returns (r: string)
    requires buffer == Unlines(lines)
    ensures r == Unlines(lines + [line])
  {
    UnlinesOne(lines, line);
    r := buffer + line + "\n";
  }

  lemma CopyLinesStep(certs: seq<CertConfig>, i: nat)
    requires i < |certs|
    ensures RC_EOS_HEADER + CopyLines(certs[..i + 1])
         == RC_EOS_HEADER + CopyLines(certs[..i])
            + [CopyLine(certs[i].certName, TO_CERTIFICATE)] + [CopyLine(certs[i].keyName, TO_SSL_KEY)]
  {
    assert certs[..i + 1] == certs[..i] + [certs[i]];
    CopyLinesOne(certs[..i], certs[i]);
  }

  method WriteHeader() returns (buffer: string)
    ensures buffer == Unlines(RC_EOS_HEADER)
  {
    ghost var one := [] + ["#!/bin/bash"];
    ghost var two := one + ["{"];
    ghost var three := two + ["wfw ConfigAgent"];
    buffer := WriteLn("", [], "#!/bin/bash");
    buffer := WriteLn(buffer, one, "{");
    buffer := WriteLn(buffer, two, "wfw ConfigAgent");
    buffer := WriteLn(buffer, three, "Cli -Ac 'enable");
    assert three + ["Cli -Ac 'enable"] == RC_EOS_HEADER;
  }

  // The script, written line by line into a buffer.
  method GetRcEos(certs: seq<CertConfig>) returns (o: Object)
    ensures o == RcEosObject(certs)
  {
    var buffer := WriteHeader();
    ghost var lines := RC_EOS_HEADER;
    assert lines == RC_EOS_HEADER + CopyLines(certs[..0]);
    for i := 0 to |certs|
      invariant buffer == Unlines(lines)
      invariant lines == RC_EOS_HEADER + CopyLines(certs[..i])
    {
      var toCertificate := CopyLine(certs[i].certName, TO_CERTIFICATE);
      var toSslKey := CopyLine(certs[i].keyName, TO_SSL_KEY);
      buffer := WriteLn(buffer, lines, toCertificate);
      buffer := WriteLn(buffer, lines + [toCertificate], toSslKey);
      lines := lines + [toCertificate] + [toSslKey];
      CopyLinesStep(certs, i);
    }
    assert certs[..|certs|] == certs;
    buffer := WriteLn(buffer, lines, RC_EOS_TRAILER[0]);
    buffer := WriteLn(buffer, lines + [RC_EOS_TRAILER[0]], RC_EOS_TRAILER[1]);
    assert lines + [RC_EOS_TRAILER[0]] + [RC_EOS_TRAILER[1]] == RcEosLines(certs);
    o := ConfigMap(map["permissions" := "775"], map["rc.eos" := Plain(buffer)], map[]);
  }

  predicate NewlineFree(s: string) { '\n' !in s }

  function LineLength(text: string): (n: nat)
    ensures n <= |text|
    ensures NewlineFree(text[..n])
    ensures n < |text| ==> text[n] == '\n'
  {
    if text == "" || text[0] == '\n' then 0 else
      var n := LineLength(text[1..]);
      assert text[..n + 1] == [text[0]] + text[1..][..n];
      n + 1
  }

  // Every newline-terminated line of a text.
  function Lines(text: string): seq<string>
    decreases |text|
  {
    var n := LineLength(text);
    if n == |text| then [] else [text[..n]] + Lines(text[n + 1..])
  }

  lemma {:induction false} LineLengthAt(line: string, rest: string)
    requires NewlineFree(line)
    ensures LineLength(line + "\n" + rest) == |line|
  {
    var text := line + "\n" + rest;
    if line == "" {
    } else {
      LineLengthAt(line[1..], rest);
      assert text[0] == line[0] && line[0] in line;
      assert text[1..] == line[1..] + "\n" + rest;
    }
  }

  lemma {:induction false} LinesReadBack(lines: seq<string>)
    requires forall l :: l in lines ==> NewlineFree(l)
    ensures Lines(Unlines(lines)) == lines
  {
    if lines == [] {
    } else {
      var text := Unlines(lines);
      assert lines[0] in lines;
      LineLengthAt(lines[0], Unlines(lines[1..]));
      assert text[..|lines[0]|] == lines[0];
      assert text[|lines[0]| + 1..] == Unlines(lines[1..]);
      LinesReadBack(lines[1..]);
    }
  }

  // The name occurs twice in a copy line, so its length tells where it is.
  function CopiedName(line: string, destination: string): string {
    var extra := |line| - |CERT_COPY| - |destination|;
    if extra < 0 then "" else line[|CERT_COPY|..|CERT_COPY| + extra / 2]
  }

  datatype CertFiles = CertFiles(certName: string, keyName: string)

  function ReadCopies(lines: seq<string>): seq<CertFiles> {
    if |lines| < 2 then []
    else [CertFiles(CopiedName(lines[0], TO_CERTIFICATE), CopiedName(lines[1], TO_SSL_KEY))] + ReadCopies(lines[2..])
  }

  function ReadRcEos(text: string): seq<CertFiles> {
    var lines := Lines(text);
    if |lines| < 6 then [] else ReadCopies(lines[4..|lines| - 2])
  }

  function FilesOf(certs: seq<CertConfig>): seq<CertFiles> {
    seq(|certs|, i requires 0 <= i < |certs| => CertFiles(certs[i].certName, certs[i].keyName))
  }

  predicate NewlineFreeCerts(certs: seq<CertConfig>) {
    forall c :: c in certs ==> NewlineFree(c.certName) && NewlineFree(c.keyName)
  }

  lemma CopiedNameReadsBack(name: string, destination: string)
    ensures CopiedName(CopyLine(name, destination), destination) == name
  {
  }

  lemma CopyLineNewlineFree(name: string, destination: string)
    requires NewlineFree(name) && destination in {TO_CERTIFICATE, TO_SSL_KEY}
    ensures NewlineFree(CopyLine(name, destination))
  {
  }

  lemma {:induction false} CopyLinesReadBack(certs: seq<CertConfig>)
    ensures ReadCopies(CopyLines(certs)) == FilesOf(certs)
    ensures NewlineFreeCerts(certs) ==> forall l :: l in CopyLines(certs) ==> NewlineFree(l)
  {
    if certs == [] {
    } else {
      var lines := CopyLines(certs);
      CopyLinesReadBack(certs[1..]);
      CopiedNameReadsBack(certs[0].certName, TO_CERTIFICATE);
      CopiedNameReadsBack(certs[0].keyName, TO_SSL_KEY);
      assert lines[2..] == CopyLines(certs[1..]);
      assert FilesOf(certs) == [CertFiles(certs[0].certName, certs[0].keyName)] + FilesOf(certs[1..]);
      if NewlineFreeCerts(certs) {
        assert certs[0] in certs;
        CopyLineNewlineFree(certs[0].certName, TO_CERTIFICATE);
        CopyLineNewlineFree(certs[0].keyName, TO_SSL_KEY);
      }
    }
  }

  // The certificate and key names, in order, can be recovered from any generated script.
  lemma RcEosReadsBack(certs: seq<CertConfig>)
    requires NewlineFreeCerts(certs)
    ensures ReadRcEos(RcEosText(certs)) == FilesOf(certs)
  {
    CopyLinesReadBack(certs);
    FixedLinesNewlineFree();
    LinesReadBack(RcEosLines(certs));
    BodyOfScript(RC_EOS_HEADER, CopyLines(certs), RC_EOS_TRAILER);
  }

  lemma FixedLinesNewlineFree()
    ensures forall l :: l in RC_EOS_HEADER || l in RC_EOS_TRAILER ==> NewlineFree(l)
  {
  }

  lemma BodyOfScript(header: seq<string>, body: seq<string>, trailer: seq<string>)
    requires |header| == 4 && |trailer| == 2
    ensures var lines := header + body + trailer; lines[4..|lines| - 2] == body
  {
  }

  // ----- Toggle overrides -----

  function ToggleLine(toggle: string, enabled: bool): string {
    toggle + (if enabled then "=1" else "=0")
  }

  function ToggleLines(order: seq<string>, toggles: map<string, bool>): seq<string>
    requires forall t :: t in order ==> t in toggles
  {
    seq(|order|, i requires 0 <= i < |order| => ToggleLine(order[i], toggles[order[i]]))
  }

  function ToggleObject(order: seq<string>, toggles: map<string, bool>): Object
    requires forall t :: t in order ==> t in toggles
  {
    ConfigMap(map[], map["toggle_override" := Plain(Unlines(ToggleLines(order, toggles)))], map[])
  }

  // `o` is the config map for `toggles`, for some iteration order.
  ghost predicate IsToggleObject(o: Object, toggles: map<string, bool>) {
    exists order :: TogglesInOrder(o, order, toggles)
  }

  ghost predicate TogglesInOrder(o: Object, order: seq<string>, toggles: map<string, bool>) {
    && Enumerates(order, toggles.Keys)
    && (forall t :: t in order ==> t in toggles)
    && o == ToggleObject(order, toggles)
  }

  method GetToggleOverrides(toggles: map<string, bool>) returns (o: Object, ghost order: seq<string>)
    ensures TogglesInOrder(o, order, toggles)
    ensures IsToggleObject(o, toggles)
  {
    var keys := RangeKeys(toggles.Keys);
    EnumeratesMembers(keys, toggles.Keys);
    order := keys;
    var buffer := "";
    for i := 0 to |keys|
      invariant buffer == Unlines(ToggleLines(keys[..i], toggles))
    {
      UnlinesOne(ToggleLines(keys[..i], toggles), ToggleLine(keys[i], toggles[keys[i]]));
      assert ToggleLines(keys[..i + 1], toggles)
          == ToggleLines(keys[..i], toggles) + [ToggleLine(keys[i], toggles[keys[i]])];
      if toggles[keys[i]] {
        buffer := buffer + keys[i] + "=1\n";
      } else {
        buffer := buffer + keys[i] + "=0\n";
      }
    }
    assert keys[..|keys|] == keys;
    o := ConfigMap(map[], map["toggle_override" := Plain(buffer)], map[]);
    assert TogglesInOrder(o, order, toggles);
  }

  function ReadToggleLines(lines: seq<string>): map<string, bool> {
    if lines == [] then map[]
    else
      var rest, last := lines[..|lines| - 1], lines[|lines| - 1];
      var m := ReadToggleLines(rest);
      if |last| < 2 then m else m[last[..|last| - 2] := last[|last| - 1] == '1']
  }

  lemma {:induction false} ToggleLinesReadBack(order: seq<string>, toggles: map<string, bool>)
    requires forall t :: t in order ==> t in toggles
    ensures ReadToggleLines(ToggleLines(order, toggles)) == (map t | t in order :: toggles[t])
  {
    var lines := ToggleLines(order, toggles);
    if order == [] {
    } else {
      var rest := order[..|order| - 1];
      var last := order[|order| - 1];
      assert order == rest + [last];
      ToggleLinesReadBack(rest, toggles);
      assert lines[..|lines| - 1] == ToggleLines(rest, toggles);
      assert ToggleLine(last, toggles[last])[..|last|] == last;
    }
  }

  // The toggle map can be recovered from the file, whatever order it was written in.
  lemma ToggleFileReadsBack(o: Object, toggles: map<string, bool>)
    requires IsToggleObject(o, toggles) && forall t :: t in toggles ==> NewlineFree(t)
    ensures o.ConfigMap? && "toggle_override" in o.binaryData && o.binaryData["toggle_override"].Plain?
    ensures ReadToggleLines(Lines(o.binaryData["toggle_override"].text)) == toggles
  {
    var order :| TogglesInOrder(o, order, toggles);
    EnumeratesMembers(order, toggles.Keys);
    ToggleLinesNewlineFree(order, toggles);
    LinesReadBack(ToggleLines(order, toggles));
    ToggleLinesReadBack(order, toggles);
    assert (map t | t in order :: toggles[t]) == toggles;
  }

  lemma ToggleLinesNewlineFree(order: seq<string>, toggles: map<string, bool>)
    requires forall t :: t in order ==> t in toggles && NewlineFree(t)
    ensures forall l :: l in ToggleLines(order, toggles) ==> NewlineFree(l)
  {
  }

  // ----- Interface mapping -----

  function DigitRun(s: string): (n: nat)
    ensures n <= |s| && (forall i :: 0 <= i < n ==> IsDigit(s[i])) && (n < |s| ==> !IsDigit(s[n]))
  {
    if s == "" || !IsDigit(s[0]) then 0 else
      var n := DigitRun(s[1..]);
      assert forall i :: 0 < i <= n ==> s[i] == s[1..][i - 1];
      n + 1
  }

  // `\d+(?:/\d+)?...$` with at most `more` groups.
  predicate PortPath(s: string, more: nat) {
    var k := DigitRun(s);
    k > 0 && (k == |s| || (more > 0 && s[k] == '/' && PortPath(s[k + 1..], more - 1)))
  }

  predicate EthernetName(s: string) { "Ethernet" <= s && PortPath(s[8..], 2) }

  predicate ManagementName(s: string) { "Management" <= s && PortPath(s[10..], 1) }

  // The grammar itself: numbers joined by slashes.
  function Joined(parts: seq<string>): string {
    if parts == [] then "" else if |parts| == 1 then parts[0] else parts[0] + "/" + Joined(parts[1..])
  }

  predicate Numbers(parts: seq<string>) {
    forall i :: 0 <= i < |parts| ==> |parts[i]| > 0 && forall j :: 0 <= j < |parts[i]| ==> IsDigit(parts[i][j])
  }

  ghost predicate InGrammar(s: string, more: nat) {
    exists parts :: Parses(s, parts, more)
  }

  ghost predicate Parses(s: string, parts: seq<string>, more: nat) {
    1 <= |parts| <= more + 1 && Numbers(parts) && s == Joined(parts)
  }

  lemma {:induction false} PortPathComplete(s: string, parts: seq<string>, more: nat)
    requires Parses(s, parts, more)
    ensures PortPath(s, more)
  {
    var first := parts[0];
    assert first <= s;
    if |parts| == 1 {
      assert DigitRun(s) >= |s|;
    } else {
      assert s[|first|] == '/' && s[|first| + 1..] == Joined(parts[1..]);
      assert DigitRun(s) == |first|;
      PortPathComplete(s[|first| + 1..], parts[1..], more - 1);
    }
  }

  lemma {:induction false} PortPathSound(s: string, more: nat) returns (parts: seq<string>)
    requires PortPath(s, more)
    ensures Parses(s, parts, more)
  {
    var k := DigitRun(s);
    if k == |s| {
      parts := [s];
    } else {
      var rest := PortPathSound(s[k + 1..], more - 1);
      parts := [s[..k]] + rest;
      assert parts[1..] == rest;
      assert s == s[..k] + "/" + s[k + 1..];
    }
  }

  // The scanner accepts exactly the grammar of the regular expression.
  lemma PortPathIsGrammar(s: string, more: nat)
    ensures PortPath(s, more) <==> InGrammar(s, more)
  {
    if PortPath(s, more) {
      var parts := PortPathSound(s, more);
    }
    if InGrammar(s, more) {
      var parts :| Parses(s, parts, more);
      PortPathComplete(s, parts, more);
    }
  }

  predicate ValidInterfaces(mapping: map<string, string>) {
    forall k :: k in mapping ==> EthernetName(mapping[k]) || ManagementName(mapping[k])
  }

  function IntfObject(mapping: map<string, string>): Object {
    ConfigMap(map[], map["EosIntfMapping.json" := IntfJson(
      Matching(mapping, mapping.Keys, EthernetName),
      Matching(mapping, mapping.Keys, ManagementName))], map[])
  }

  // The entries under `keys` whose value is accepted by `grammar`.
  function Matching(mapping: map<string, string>, keys: set<string>, grammar: string -> bool): map<string, string> {
    map k | k in keys && k in mapping && grammar(mapping[k]) :: mapping[k]
  }

  lemma MatchingOneMore(mapping: map<string, string>, keys: set<string>, k: string, grammar: string -> bool)
    requires k in mapping && k !in keys
    ensures Matching(mapping, keys + {k}, grammar)
         == if grammar(mapping[k])
             then Matching(mapping, keys, grammar)[k := mapping[k]] else Matching(mapping, keys, grammar)
  {
  }

  lemma NotBothGrammars(s: string)
    ensures !(EthernetName(s) && ManagementName(s))
  {
  }

  // Succeeds exactly on the two interface grammars, and then splits the mapping in two.
  method GetJsonIntfMapping(mapping: map<string, string>) returns (r: Result<Object>)
    ensures r.Ok? <==> ValidInterfaces(mapping)
    ensures r.Ok? ==> r.value == IntfObject(mapping)
  {
    var ethernet: map<string, string>, management: map<string, string> := map[], map[];
    ghost var seen: set<string> := {};
    var todo := mapping.Keys;
    while todo != {}
      invariant todo !! seen && todo + seen == mapping.Keys
      invariant forall k :: k in seen ==> EthernetName(mapping[k]) || ManagementName(mapping[k])
      invariant ethernet == Matching(mapping, seen, EthernetName)
      invariant management == Matching(mapping, seen, ManagementName)
    {
      var kernelDevice :| kernelDevice in todo;
      var eosInterface := mapping[kernelDevice];
      NotBothGrammars(eosInterface);
      MatchingOneMore(mapping, seen, kernelDevice, EthernetName);
      MatchingOneMore(mapping, seen, kernelDevice, ManagementName);
      if EthernetName(eosInterface) {
        ethernet := ethernet[kernelDevice := eosInterface];
      } else if ManagementName(eosInterface) {
        management := management[kernelDevice := eosInterface];
      } else {
        return Err;
      }
      todo, seen := todo - {kernelDevice}, seen + {kernelDevice};
    }
    assert seen == mapping.Keys;
    r := Ok(ConfigMap(map[], map["EosIntfMapping.json" := IntfJson(ethernet, management)], map[]));
  }

  // The two halves are disjoint and lose nothing, so the file determines the mapping.
  lemma IntfMappingPartition(mapping: map<string, string>)
    requires ValidInterfaces(mapping)
    ensures var f := IntfObject(mapping).binaryData["EosIntfMapping.json"];
            && f.ethernetIntf.Keys !! f.managementIntf.Keys
            && f.ethernetIntf + f.managementIntf == mapping
  {
  }
}

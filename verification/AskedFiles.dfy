// The generated files in terms of the spec and of their literal text.
module AskedFiles {
  import opened Basics
  import opened Api
  import opened Files

  // ----- Certificates -----

  // Certificate and key under the names of the configuration; if both names agree the key is what is there.
  predicate IsCertSecret(o: Object, c: CertConfig) {
    && o.Secret? && o.annotations == map[] && o.stringData == map[]
    && o.data.Keys == {c.certName, c.keyName}
    && o.data[c.keyName] == KeyPem(c)
    && (c.certName != c.keyName ==> o.data[c.certName] == CertPem(c))
  }

  lemma CertSecretExactly(o: Object, c: CertConfig)
    ensures o == CertSecret(c) <==> IsCertSecret(o, c)
  {
    if IsCertSecret(o, c) {
      assert o.data == CertSecret(c).data;
    }
  }

  // ----- rc.eos -----

  // The commands for one certificate.
  function CertCommands(c: CertConfig): string {
    "copy file:/mnt/flash/" + c.certName + " certificate:" + c.certName + "\n"
    + "copy file:/mnt/flash/" + c.keyName + " sslkey:" + c.keyName + "\n"
  }

  // In the order of the spec.
  function CopyCommands(certs: seq<CertConfig>): string {
    if certs == [] then "" else CopyCommands(certs[..|certs| - 1]) + CertCommands(certs[|certs| - 1])
  }

  function BootScript(certs: seq<CertConfig>): string {
    "#!/bin/bash\n" + "{\n" + "wfw ConfigAgent\n" + "Cli -Ac 'enable\n"
    + CopyCommands(certs)
    + ("'\n" + "} 2>/mnt/flash/rc.eos.log >&2 &\n")
  }

  // An executable file.
  predicate IsBootScript(o: Object, certs: seq<CertConfig>) {
    o == ConfigMap(map["permissions" := "775"], map["rc.eos" := Plain(BootScript(certs))], map[])
  }

  lemma CertCommandsExactly(c: CertConfig)
    ensures CopyLine(c.certName, TO_CERTIFICATE) + "\n" + CopyLine(c.keyName, TO_SSL_KEY) + "\n" == CertCommands(c)
  {
  }

  lemma {:induction false} CopyCommandsExactly(certs: seq<CertConfig>)
    ensures Unlines(CopyLines(certs)) == CopyCommands(certs)
  {
    if certs == [] {
    } else {
      var rest, c := certs[..|certs| - 1], certs[|certs| - 1];
      var one, two := CopyLine(c.certName, TO_CERTIFICATE), CopyLine(c.keyName, TO_SSL_KEY);
      assert certs == rest + [c];
      CopyCommandsExactly(rest);
      CopyLinesOne(rest, c);
      UnlinesOne(CopyLines(rest), one);
      UnlinesOne(CopyLines(rest) + [one], two);
      CertCommandsExactly(c);
    }
  }

  lemma HeaderText()
    ensures Unlines(RC_EOS_HEADER) == "#!/bin/bash\n" + "{\n" + "wfw ConfigAgent\n" + "Cli -Ac 'enable\n"
  {
    var lines := RC_EOS_HEADER;
    UnlinesOne([], lines[0]);
    UnlinesOne(lines[..1], lines[1]);
    UnlinesOne(lines[..2], lines[2]);
    UnlinesOne(lines[..3], lines[3]);
    assert lines[..1] == [] + [lines[0]] && lines[..2] == lines[..1] + [lines[1]];
    assert lines[..3] == lines[..2] + [lines[2]] && lines == lines[..3] + [lines[3]];
    assert "#!/bin/bash" + "\n" == "#!/bin/bash\n" && "{" + "\n" == "{\n";
    assert "wfw ConfigAgent" + "\n" == "wfw ConfigAgent\n" && "Cli -Ac 'enable" + "\n" == "Cli -Ac 'enable\n";
  }

  lemma TrailerText()
    ensures Unlines(RC_EOS_TRAILER) == "'\n" + "} 2>/mnt/flash/rc.eos.log >&2 &\n"
  {
    assert RC_EOS_TRAILER[1..] == ["} 2>/mnt/flash/rc.eos.log >&2 &"];
    assert Unlines(RC_EOS_TRAILER[1..]) == "} 2>/mnt/flash/rc.eos.log >&2 &\n";
  }

  lemma BootScriptExactly(o: Object, certs: seq<CertConfig>)
    ensures o == RcEosObject(certs) <==> IsBootScript(o, certs)
  {
    UnlinesAppend(RC_EOS_HEADER + CopyLines(certs), RC_EOS_TRAILER);
    UnlinesAppend(RC_EOS_HEADER, CopyLines(certs));
    CopyCommandsExactly(certs);
    HeaderText();
    TrailerText();
    assert RcEosText(certs) == BootScript(certs);
  }

  // ----- Toggle overrides -----

  function ToggleText(order: seq<string>, toggles: map<string, bool>): string {
    if order == [] then ""
    else
      var t := order[|order| - 1];
      ToggleText(order[..|order| - 1], toggles) + t + (if t in toggles && toggles[t] then "=1\n" else "=0\n")
  }

  // One line per toggle, in some order.
  ghost predicate IsToggleFile(o: Object, toggles: map<string, bool>) {
    exists order :: ToggleFileIn(o, order, toggles)
  }

  ghost predicate ToggleFileIn(o: Object, order: seq<string>, toggles: map<string, bool>) {
    && (forall t :: t in order <==> t in toggles)
    && (forall i, j :: 0 <= i < j < |order| ==> order[i] != order[j])
    && o == ConfigMap(map[], map["toggle_override" := Plain(ToggleText(order, toggles))], map[])
  }

  lemma {:induction false} ToggleTextExactly(order: seq<string>, toggles: map<string, bool>)
    requires forall t :: t in order ==> t in toggles
    ensures Unlines(ToggleLines(order, toggles)) == ToggleText(order, toggles)
  {
    if order == [] {
    } else {
      var rest, t := order[..|order| - 1], order[|order| - 1];
      assert order == rest + [t];
      ToggleTextExactly(rest, toggles);
      assert ToggleLines(order, toggles) == ToggleLines(rest, toggles) + [ToggleLine(t, toggles[t])];
      UnlinesOne(ToggleLines(rest, toggles), ToggleLine(t, toggles[t]));
      assert ToggleLine(t, toggles[t]) + "\n" == t + (if toggles[t] then "=1\n" else "=0\n");
    }
  }

  lemma ToggleFileExactly(o: Object, toggles: map<string, bool>)
    ensures IsToggleObject(o, toggles) <==> IsToggleFile(o, toggles)
  {
    if order :| TogglesInOrder(o, order, toggles) {
      EnumeratesMembers(order, toggles.Keys);
      ToggleTextExactly(order, toggles);
      assert ToggleFileIn(o, order, toggles);
    }
    if order :| ToggleFileIn(o, order, toggles) {
      DistinctEnumerates(order, toggles.Keys);
      ToggleTextExactly(order, toggles);
      assert TogglesInOrder(o, order, toggles);
    }
  }

  // ----- Interface mapping -----

  // At most three numbers after Ethernet, at most two after Management, joined by slashes.
  ghost predicate IsEthernet(s: string) {
    exists parts :: NamesInterface(s, "Ethernet", parts, 3)
  }

  ghost predicate IsManagement(s: string) {
    exists parts :: NamesInterface(s, "Management", parts, 2)
  }

  ghost predicate NamesInterface(s: string, kind: string, parts: seq<string>, most: nat) {
    && 1 <= |parts| <= most && s == kind + Joined(parts)
    && forall i :: 0 <= i < |parts| ==> parts[i] != "" && forall j :: 0 <= j < |parts[i]| ==> '0' <= parts[i][j] <= '9'
  }

  lemma InterfacesExactly(s: string)
    ensures EthernetName(s) <==> IsEthernet(s)
    ensures ManagementName(s) <==> IsManagement(s)
  {
    KindExactly(s, "Ethernet", 3);
    KindExactly(s, "Management", 2);
  }

  lemma KindExactly(s: string, kind: string, most: nat)
    requires most > 0
    ensures kind <= s && PortPath(s[|kind|..], most - 1) <==> exists parts :: NamesInterface(s, kind, parts, most)
  {
    if kind <= s && PortPath(s[|kind|..], most - 1) {
      var parts := PortPathSound(s[|kind|..], most - 1);
      assert s == kind + s[|kind|..];
      assert NamesInterface(s, kind, parts, most);
    }
    if parts :| NamesInterface(s, kind, parts, most) {
      assert s[|kind|..] == Joined(parts);
      assert Parses(s[|kind|..], parts, most - 1);
      PortPathComplete(s[|kind|..], parts, most - 1);
    }
  }

  ghost predicate ValidNames(mapping: map<string, string>) {
    forall k :: k in mapping ==> IsEthernet(mapping[k]) || IsManagement(mapping[k])
  }

  // Half of the mapping: the entries whose interface starts with `kind`.
  ghost predicate HalfOf(half: map<string, string>, mapping: map<string, string>, kind: string) {
    && (forall k :: k in half <==> k in mapping && kind <= mapping[k])
    && (forall k :: k in half ==> half[k] == mapping[k])
  }

  ghost predicate IsMappingFile(o: Object, mapping: map<string, string>) {
    && o.ConfigMap? && o.annotations == map[] && o.data == map[]
    && o.binaryData.Keys == {"EosIntfMapping.json"} && o.binaryData["EosIntfMapping.json"].IntfJson?
    && HalfOf(o.binaryData["EosIntfMapping.json"].ethernetIntf, mapping, "Ethernet")
    && HalfOf(o.binaryData["EosIntfMapping.json"].managementIntf, mapping, "Management")
  }

  lemma ValidNamesExactly(mapping: map<string, string>)
    ensures ValidInterfaces(mapping) <==> ValidNames(mapping)
  {
    forall k | k in mapping
      ensures EthernetName(mapping[k]) <==> IsEthernet(mapping[k])
      ensures ManagementName(mapping[k]) <==> IsManagement(mapping[k])
    {
      InterfacesExactly(mapping[k]);
    }
  }

  lemma HalfExactly(half: map<string, string>, mapping: map<string, string>, grammar: string -> bool, kind: string)
    requires forall k :: k in mapping ==> (grammar(mapping[k]) <==> kind <= mapping[k])
    ensures half == Matching(mapping, mapping.Keys, grammar) <==> HalfOf(half, mapping, kind)
  {
    var all := Matching(mapping, mapping.Keys, grammar);
    if HalfOf(half, mapping, kind) {
      assert half.Keys == all.Keys;
    }
  }

  // The prefix tells which of the two a valid name is.
  lemma KindByPrefix(s: string)
    requires EthernetName(s) || ManagementName(s)
    ensures EthernetName(s) <==> "Ethernet" <= s
    ensures ManagementName(s) <==> "Management" <= s
  {
    assert "Ethernet" <= s ==> s[0] == 'E';
    assert "Management" <= s ==> s[0] == 'M';
  }

  lemma MappingFileExactly(o: Object, mapping: map<string, string>)
    requires ValidInterfaces(mapping)
    ensures o == IntfObject(mapping) <==> IsMappingFile(o, mapping)
  {
    forall k | k in mapping
      ensures EthernetName(mapping[k]) <==> "Ethernet" <= mapping[k]
      ensures ManagementName(mapping[k]) <==> "Management" <= mapping[k]
    {
      KindByPrefix(mapping[k]);
    }
    if o.ConfigMap? && o.binaryData.Keys == {"EosIntfMapping.json"} && o.binaryData["EosIntfMapping.json"].IntfJson? {
      var f := o.binaryData["EosIntfMapping.json"];
      HalfExactly(f.ethernetIntf, mapping, EthernetName, "Ethernet");
      HalfExactly(f.managementIntf, mapping, ManagementName, "Management");
      assert o.binaryData == map["EosIntfMapping.json" := IntfJson(f.ethernetIntf, f.managementIntf)];
    }
    assert IntfObject(mapping).binaryData.Keys == {"EosIntfMapping.json"};
  }
}

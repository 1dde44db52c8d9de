// Names of the owned objects, and why they never collide.
module Names {
  import opened Text

  function SecretName(device: string, index: nat): string {
    "secret-selfsigned-" + device + "-" + Digits(index)
  }

  function RcEosName(device: string): string { "configmap-rceos-" + device }

  function IntfMappingName(device: string): string { "configmap-intfmapping-" + device }

  function ToggleOverridesName(device: string): string { "configmap-toggle-override-" + device }

  function StartupConfigName(device: string): string { device + "-config" }

  function ServiceName(device: string): string { "service-" + device }

  function VolumeName(name: string): string { "volume-" + name }

  // No two certificates of any two devices share a secret.
  lemma SecretNameInjective(d1: string, i1: nat, d2: string, i2: nat)
    requires SecretName(d1, i1) == SecretName(d2, i2)
    ensures d1 == d2 && i1 == i2
  {
    var p := "secret-selfsigned-";
    var a, b := p + d1 + "-", p + d2 + "-";
    assert a[|a| - 1] == '-' && b[|b| - 1] == '-';
    TrailingNumber(a, i1, b, i2);
    assert d1 == a[|p|..|a| - 1] == b[|p|..|b| - 1] == d2;
  }

  ghost predicate ConfigMapName(device: string, name: string) {
    name in {RcEosName(device), IntfMappingName(device), ToggleOverridesName(device), StartupConfigName(device)}
  }

  // Within one device every key of secretsAndConfigMaps is distinct.
  lemma KeysDistinct(device: string, index: nat)
    ensures RcEosName(device) != IntfMappingName(device)
    ensures ToggleOverridesName(device) !in {RcEosName(device), IntfMappingName(device)}
    ensures StartupConfigName(device) !in {RcEosName(device), IntfMappingName(device), ToggleOverridesName(device)}
    ensures !ConfigMapName(device, SecretName(device, index))
  {
    var s := SecretName(device, index);
    assert RcEosName(device)[10] == 'r' && IntfMappingName(device)[10] == 'i' && ToggleOverridesName(device)[10] == 't';
    assert |StartupConfigName(device)| == |device| + 7 < |RcEosName(device)|;
    assert s[0] == 's' && RcEosName(device)[0] == IntfMappingName(device)[0] == ToggleOverridesName(device)[0] == 'c';
    assert |s| > |StartupConfigName(device)|;
  }

  lemma VolumeNameInjective(a: string, b: string)
    requires VolumeName(a) == VolumeName(b)
    ensures a == b
  {
    assert a == VolumeName(a)[7..] && b == VolumeName(b)[7..];
  }
}

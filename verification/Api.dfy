// The custom resource and the Kubernetes objects the controller handles.
module Api {
  import opened Basics

  // ----- api/v1alpha1: CEosLabDevice -----

  datatype CertConfig = CertConfig(certName: string, keyName: string, keySize: int, commonName: string)

  datatype PortConfig = PortConfig(inside: int, outside: int)

  datatype Spec = Spec(
    envVar: map<string, string>,
    image: string,
    args: seq<string>,
    resources: map<string, string>,
    services: map<string, seq<PortConfig>>,
    initContainerImage: string,
    numInterfaces: int,
    sleep: int,
    selfSignedCerts: seq<CertConfig>,
    intfMapping: map<string, string>,
    toggleOverrides: map<string, bool>,
    waitForAgents: seq<string>)

  // Metadata and spec: what users edit (name and namespace never change).
  datatype Device = Device(name: string, namespace: string, labels: map<string, string>, spec: Spec)

  // ConfigMapStatus, as a value.
  datatype Ledger = Ledger(
    selfSignedCertStatus: GoMap<string, CertConfig>,
    intfMappingStatus: GoMap<string, string>,
    toggleOverridesStatus: GoMap<string, bool>,
    rcEosStale: bool,
    startupConfigResourceVersion: Option<string>)

  const EMPTY_LEDGER := Ledger(Nil, Nil, Nil, false, None)

  datatype DeviceState = UnsetState | FailedState | ReconcilingState | SuccessState

  // ----- core/v1 -----

  // File contents. Generated key material is opaque: it is tagged with the configuration it was
  // generated from. A marshalled interface mapping is kept as the value that was marshalled.
  datatype File =
    | Plain(text: string)
    | IntfJson(ethernetIntf: map<string, string>, managementIntf: map<string, string>)
    | CertPem(config: CertConfig)
    | KeyPem(config: CertConfig)

  datatype Object =
    | ConfigMap(annotations: map<string, string>, binaryData: map<string, File>, data: map<string, File>)
    | Secret(annotations: map<string, string>, data: map<string, File>, stringData: map<string, File>)

  datatype Startup = Startup(configMap: Object, resourceVersion: string)

  datatype VolumeSource =
    | FromConfigMap(name: string, defaultMode: Option<int>)
    | FromSecret(name: string, defaultMode: Option<int>)

  datatype Volume = Volume(name: string, source: VolumeSource)

  datatype VolumeMount = VolumeMount(name: string, mountPath: string, subPath: string)

  datatype EnvVar = EnvVar(name: string, value: string)

  // The probe's command always starts with the three words the controller puts there.
  type ProbeCommand = s: seq<string> | |s| >= 3 witness ["wfw", "-t", "5"]

  // The one container and the one init container of the pod are folded into it. `requests` holds
  // quantities (see module Quantities).
  datatype Pod = Pod(
    labels: map<string, string>,
    command: seq<string>,
    args: seq<string>,
    env: seq<EnvVar>,
    image: string,
    requests: map<string, int>,
    startupProbe: ProbeCommand,
    initArgs: seq<string>,
    initImage: string,
    volumes: seq<Volume>,
    volumeMounts: seq<VolumeMount>)

  datatype ServicePort = ServicePort(name: string, port: int, targetPort: int)

  datatype Service = Service(labels: map<string, string>, selector: map<string, string>, ports: seq<ServicePort>)
}

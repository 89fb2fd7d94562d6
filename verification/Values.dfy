// Plain values of the two custom resources and of the pod built from them.
// Parts of the Kubernetes API that are only carried from one object to another
// (affinity, tolerations, volumes, resources, ...) are opaque.
module Values {

  datatype Option<+T> = None | Some(value: T) {
    function GetOr(default: T): T {
      if Some? then value else default
    }
  }

  datatype Opaque = Opaque(raw: string)

  datatype EnvVar = EnvVar(name: string, value: string, valueFrom: Option<Opaque>)

  datatype ContainerPort = ContainerPort(name: string, containerPort: int, protocol: string, hostPort: int)

  // An entry of `sidecars` or `initContainers`. Environment lists are read by
  // variable name, the last entry of a name counting.
  datatype Sidecar = Sidecar(
    name: string,
    image: string,
    command: Option<seq<string>>,
    workingDir: Option<string>,
    ports: Option<seq<ContainerPort>>,
    env: Option<map<string, EnvVar>>,
    mounts: Option<seq<Opaque>>,
    pullPolicy: string,
    resources: Option<Opaque>)

  // The fields that a template and a browser version have in common.
  datatype Fields = Fields(
    labels: Option<map<string, string>>,
    annotations: Option<map<string, string>>,
    env: Option<map<string, EnvVar>>,
    resources: Option<Opaque>,
    pullPolicy: string,
    volumes: Option<seq<Opaque>>,
    mounts: Option<seq<Opaque>>,
    nodeSelector: Option<map<string, string>>,
    affinity: Option<Opaque>,
    tolerations: Option<seq<Opaque>>,
    hostAliases: Option<seq<Opaque>>,
    initContainers: Option<seq<Sidecar>>,
    sidecars: Option<seq<Sidecar>>,
    privileged: Option<bool>,
    pullSecrets: Option<seq<Opaque>>,
    dns: Option<Opaque>,
    security: Option<Opaque>,
    workingDir: Option<string>)

  // The configuration of one version of one browser.
  datatype Version = Version(image: string, fields: Fields)

  datatype Container = Container(
    name: string,
    image: string,
    pullPolicy: string,
    command: seq<string>,
    workingDir: string,
    ports: seq<ContainerPort>,
    env: map<string, EnvVar>,
    mounts: seq<Opaque>,
    resources: Option<Opaque>,
    privileged: bool)

  datatype PodSpec = PodSpec(
    initContainers: seq<Container>,
    containers: seq<Container>,
    volumes: seq<Opaque>,
    security: Option<Opaque>,
    nodeSelector: map<string, string>,
    affinity: Option<Opaque>,
    tolerations: seq<Opaque>,
    hostAliases: seq<Opaque>,
    pullSecrets: seq<Opaque>,
    dns: Option<Opaque>,
    hostname: string,
    restartPolicy: string)

  // The JSON value of the `selenosis.io/options` annotation.
  datatype SelenosisOptions = SelenosisOptions(
    labels: Option<map<string, string>>,
    containers: map<string, map<string, string>>)

  datatype ParsedOptions = NoOptions | Options(options: SelenosisOptions) | BadOptions(message: string)
}

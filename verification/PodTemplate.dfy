// The pod that a Browser, its configuration and its options call for. These
// functions are the specification of the imperative builder in PodBuilder.
module PodTemplate {
  import opened Values
  import opened Kube

  function SidecarContainer(s: Sidecar): Container {
    Container(s.name, s.image, s.pullPolicy, s.command.GetOr([]), s.workingDir.GetOr(""),
              s.ports.GetOr([]), s.env.GetOr(map[]), s.mounts.GetOr([]), s.resources, false)
  }

  // A working directory of the version overrides the one of every init container.
  function InitContainer(v: Version, s: Sidecar): Container {
    SidecarContainer(s).(workingDir :=
      if v.fields.workingDir.Some? then v.fields.workingDir.value else s.workingDir.GetOr(""))
  }

  function MainContainer(v: Version): Container {
    var f := v.fields;
    Container(BROWSER_CONTAINER, v.image, f.pullPolicy, [], f.workingDir.GetOr(""), [],
              f.env.GetOr(map[]), f.mounts.GetOr([]), f.resources, f.privileged.GetOr(false))
  }

  function InitContainers(v: Version): (cs: seq<Container>)
    ensures |cs| == |v.fields.initContainers.GetOr([])|
  {
    var ics := v.fields.initContainers.GetOr([]);
    seq(|ics|, i requires 0 <= i < |ics| => InitContainer(v, ics[i]))
  }

  function SidecarContainers(v: Version): (cs: seq<Container>)
    ensures |cs| == |v.fields.sidecars.GetOr([])|
  {
    var ss := v.fields.sidecars.GetOr([]);
    seq(|ss|, i requires 0 <= i < |ss| => SidecarContainer(ss[i]))
  }

  function SpecOf(hostname: string, v: Version): PodSpec {
    var f := v.fields;
    PodSpec(InitContainers(v), [MainContainer(v)] + SidecarContainers(v), f.volumes.GetOr([]), f.security,
            f.nodeSelector.GetOr(map[]), f.affinity, f.tolerations.GetOr([]), f.hostAliases.GetOr([]),
            f.pullSecrets.GetOr([]), f.dns, hostname, "Never")
  }

  function OptionEnv(o: map<string, string>): map<string, EnvVar> {
    map k | k in o :: EnvVar(k, o[k], None)
  }

  function WithOption(c: Container, containers: map<string, map<string, string>>): Container {
    if c.name in containers then c.(env := c.env + OptionEnv(containers[c.name])) else c
  }

  function WithOptions(cs: seq<Container>, containers: map<string, map<string, string>>): seq<Container> {
    seq(|cs|, i requires 0 <= i < |cs| => WithOption(cs[i], containers))
  }

  function ContainerOptions(opts: ParsedOptions): map<string, map<string, string>> {
    if opts.Options? then opts.options.containers else map[]
  }

  function LabelOptions(opts: ParsedOptions): map<string, string> {
    if opts.Options? then opts.options.labels.GetOr(map[]) else map[]
  }

  // The options of a Browser once they are parsed; nil if it has none.
  function Parsed(opts: Option<SelenosisOptions>): ParsedOptions {
    if opts.None? then NoOptions else Options(opts.value)
  }

  function PodSpecFor(hostname: string, v: Version, opts: ParsedOptions): PodSpec {
    var spec := SpecOf(hostname, v);
    spec.(containers := WithOptions(spec.containers, ContainerOptions(opts)))
  }

  function PodLabels(b: Browser, v: Version, opts: ParsedOptions): map<string, string> {
    b.labels + v.fields.labels.GetOr(map[]) + LabelOptions(opts)
  }

  function PodAnnotations(b: Browser, v: Version): map<string, string> {
    (b.annotations - {OPTIONS_ANNOTATION}) + v.fields.annotations.GetOr(map[])
  }

  const NO_STATUS := PodStatus(NO_PHASE, "", "", "", None, [])

  // The object handed to the create call; the API server fills in the rest.
  function BuildPod(b: Browser, v: Version, opts: ParsedOptions): (p: Pod)
    ensures p.name == b.name && p.namespace == b.namespace && p.owner == b.uid
  {
    Pod(b.name, b.namespace, b.uid, PodLabels(b, v, opts), PodAnnotations(b, v),
        PodSpecFor(b.name, v, opts), None, None, 0, false, NO_STATUS)
  }

  // parseSelenosisOptions, with the JSON decoding left to `decode`.
  function ParseOptions(annotations: map<string, string>, decode: string -> ParsedOptions): ParsedOptions {
    var raw := LabelOf(annotations, OPTIONS_ANNOTATION);
    if raw == "" then NoOptions else decode(raw)
  }
}

// The pod of a Browser, setting by setting: what it takes from the options, from the version
// and from the template, which may be missing.
module PodFacts {
  import opened Values
  import opened Kube
  import opened ConfigMerge
  import opened MergeFacts
  import opened PodTemplate

  // The variable that the options set for containers of that name.
  function OptionFor(opts: ParsedOptions, container: string, name: string): Option<EnvVar> {
    if opts.Options? && container in opts.options.containers && name in opts.options.containers[container]
    then Some(EnvVar(name, opts.options.containers[container][name], None)) else None
  }

  function LabelOption(opts: ParsedOptions, name: string): Option<string> {
    if opts.Options? then ValueAt(opts.options.labels, name) else None
  }

  lemma ListOf(b: Browser, v: Version, opts: ParsedOptions)
    ensures BuildPod(b, v, opts).spec.containers
      == WithOptions([MainContainer(v)] + SidecarContainers(v), ContainerOptions(opts))
  {
    hide MainContainer, SidecarContainers, WithOptions, ContainerOptions, InitContainers, PodLabels, PodAnnotations;
  }

  // The containers of the pod, each with the options for its name.
  lemma ContainersOf(b: Browser, v: Version, opts: ParsedOptions)
    ensures var cs, ss := BuildPod(b, v, opts).spec.containers, v.fields.sidecars.GetOr([]);
            && |cs| == |ss| + 1
            && cs[0] == WithOption(MainContainer(v), ContainerOptions(opts))
            && forall i :: 0 <= i < |ss| ==> cs[i + 1] == WithOption(SidecarContainer(ss[i]), ContainerOptions(opts))
  {
    ListOf(b, v, opts);
    hide BuildPod, MainContainer, WithOption, SidecarContainer, ContainerOptions;
    var all, ss := [MainContainer(v)] + SidecarContainers(v), v.fields.sidecars.GetOr([]);
    assert all[0] == MainContainer(v);
    assert forall i :: 0 <= i < |ss| ==> all[i + 1] == SidecarContainer(ss[i]);
  }

  lemma OptionWins(c: Container, opts: ParsedOptions, name: string)
    ensures var r := WithOption(c, ContainerOptions(opts));
            && r == c.(env := r.env)
            && Wins(ValueAt(Some(r.env), name), [OptionFor(opts, c.name, name), ValueAt(Some(c.env), name)])
  {
    var r := WithOption(c, ContainerOptions(opts));
    WinsOfTwo(ValueAt(Some(r.env), name), OptionFor(opts, c.name, name), ValueAt(Some(c.env), name));
  }

  // ----- the browser container ----------------------------------------------------------

  // Its settings come from the version, or else from the template.
  lemma MainSettings(b: Browser, template: Option<Fields>, own: Version, opts: ParsedOptions)
    ensures var t, f, cs := template.GetOr(NO_FIELDS), own.fields,
                            BuildPod(b, MergeVersion(template, own), opts).spec.containers;
            && |cs| > 0
            && cs[0].name == "browser" && cs[0].image == own.image && cs[0].command == [] && cs[0].ports == []
            && (cs[0].privileged <==>
                  f.privileged == Some(true) || (f.privileged.None? && t.privileged == Some(true)))
            && cs[0].mounts == f.mounts.GetOr([]) + t.mounts.GetOr([])
            && Wins(cs[0].resources, [f.resources, t.resources])
            && cs[0].workingDir == (if f.workingDir.Some? then f.workingDir.value else t.workingDir.GetOr(""))
            && cs[0].pullPolicy == (if f.pullPolicy != "" then f.pullPolicy else t.pullPolicy)
  {
    hide Wins, MapsMerged, SidecarsMerged, InitsMerged, MergeVersion, BuildPod;
    var v, t := MergeVersion(template, own), template.GetOr(NO_FIELDS);
    VersionByField(template, own);
    ContainersOf(b, v, opts);
    WinsOfTwo(v.fields.privileged, own.fields.privileged, t.privileged);
    WinsOfTwo(v.fields.workingDir, own.fields.workingDir, t.workingDir);
  }

  // A variable of the browser container: options over version over template.
  lemma EnvPrecedence(b: Browser, template: Option<Fields>, own: Version, opts: ParsedOptions, name: string)
    ensures var t, cs := template.GetOr(NO_FIELDS), BuildPod(b, MergeVersion(template, own), opts).spec.containers;
            && |cs| > 0 && cs[0].name == "browser"
            && Wins(ValueAt(Some(cs[0].env), name),
                    [OptionFor(opts, "browser", name), ValueAt(own.fields.env, name), ValueAt(t.env, name)])
  {
    hide Wins, SidecarsMerged, InitsMerged, MergeVersion, BuildPod;
    var v, t := MergeVersion(template, own), template.GetOr(NO_FIELDS);
    var c := MainContainer(v);
    VersionByField(template, own);
    ContainersOf(b, v, opts);
    OptionWins(c, opts, name);
    var r := ValueAt(Some(WithOption(c, ContainerOptions(opts)).env), name);
    var o, x, y := OptionFor(opts, "browser", name), ValueAt(own.fields.env, name), ValueAt(t.env, name);
    assert ValueAt(Some(c.env), name) == ValueAt(v.fields.env, name);
    WinsOfTwo(r, o, ValueAt(v.fields.env, name));
    WinsOfTwo(ValueAt(v.fields.env, name), x, y);
    WinsOfThree(r, o, x, y);
  }

  // ----- the other containers -----------------------------------------------------------

  // A container for an entry. Nothing but the working directory may come from elsewhere.
  predicate RunsEntry(c: Container, s: Sidecar) {
    && c.name == s.name && c.image == s.image && c.pullPolicy == s.pullPolicy
    && c.command == s.command.GetOr([]) && c.ports == s.ports.GetOr([]) && c.mounts == s.mounts.GetOr([])
    && c.resources == s.resources && !c.privileged
  }

  ghost predicate RunsSidecar(c: Container, s: Sidecar, opts: ParsedOptions) {
    && RunsEntry(c, s) && c.workingDir == s.workingDir.GetOr("")
    && forall k :: Wins(ValueAt(Some(c.env), k), [OptionFor(opts, s.name, k), ValueAt(s.env, k)])
  }

  lemma SidecarRuns(s: Sidecar, opts: ParsedOptions)
    ensures RunsSidecar(WithOption(SidecarContainer(s), ContainerOptions(opts)), s, opts)
  {
    hide Wins, WithOption, ContainerOptions;
    var c := SidecarContainer(s);
    var r := WithOption(c, ContainerOptions(opts));
    OptionWins(c, opts, "");
    forall k ensures Wins(ValueAt(Some(r.env), k), [OptionFor(opts, s.name, k), ValueAt(s.env, k)]) {
      OptionWins(c, opts, k);
      assert ValueAt(Some(c.env), k) == ValueAt(s.env, k);
    }
  }

  // After the browser container there is one for each merged sidecar (see
  // MergeFacts.SidecarsMerged), in order; its variables may be overridden by the options.
  lemma SidecarSettings(b: Browser, template: Option<Fields>, own: Version, opts: ParsedOptions)
    ensures var cs := BuildPod(b, MergeVersion(template, own), opts).spec.containers;
            |cs| == |MergeVersion(template, own).fields.sidecars.GetOr([])| + 1
    ensures SidecarsMerged(MergeVersion(template, own).fields.sidecars, own.fields.sidecars,
                           template.GetOr(NO_FIELDS).sidecars)
    ensures var cs := BuildPod(b, MergeVersion(template, own), opts).spec.containers;
            var ss := MergeVersion(template, own).fields.sidecars.GetOr([]);
            forall i :: 0 <= i < |ss| ==> RunsSidecar(cs[i + 1], ss[i], opts)
  {
    hide Wins, SidecarsMerged, InitsMerged, MergeVersion, BuildPod, WithOption;
    var v := MergeVersion(template, own);
    VersionByField(template, own);
    ContainersOf(b, v, opts);
    var cs, ss := BuildPod(b, v, opts).spec.containers, v.fields.sidecars.GetOr([]);
    forall i | 0 <= i < |ss| ensures RunsSidecar(cs[i + 1], ss[i], opts) {
      SidecarRuns(ss[i], opts);
    }
  }

  // Init containers take the version's working directory first, and nothing of the options.
  lemma InitSettings(b: Browser, template: Option<Fields>, own: Version, opts: ParsedOptions)
    ensures InitsMerged(MergeVersion(template, own).fields.initContainers, own.fields.initContainers,
                        template.GetOr(NO_FIELDS).initContainers)
    ensures var cs := BuildPod(b, MergeVersion(template, own), opts).spec.initContainers;
            var t, ss := template.GetOr(NO_FIELDS), MergeVersion(template, own).fields.initContainers.GetOr([]);
            && |cs| == |ss|
            && forall i :: 0 <= i < |ss| ==>
                 && RunsEntry(cs[i], ss[i]) && cs[i].env == ss[i].env.GetOr(map[])
                 && cs[i].workingDir == (if own.fields.workingDir.Some? then own.fields.workingDir.value
                                         else if t.workingDir.Some? then t.workingDir.value
                                         else ss[i].workingDir.GetOr(""))
  {
    hide Wins, MapsMerged, SidecarsMerged, InitsMerged, MergeVersion, WithOptions, SidecarContainers;
    var v, t := MergeVersion(template, own), template.GetOr(NO_FIELDS);
    VersionByField(template, own);
    WinsOfTwo(v.fields.workingDir, own.fields.workingDir, t.workingDir);
    assert BuildPod(b, v, opts).spec.initContainers == InitContainers(v);
  }

  // ----- the pod itself -------------------------------------------------------------------

  lemma PodSettings(b: Browser, template: Option<Fields>, own: Version, opts: ParsedOptions)
    ensures var t, f, p := template.GetOr(NO_FIELDS), own.fields, BuildPod(b, MergeVersion(template, own), opts);
            && p.name == b.name && p.namespace == b.namespace && p.owner == b.uid && p.spec.hostname == b.name
            && p.spec.restartPolicy == "Never"
            && p.spec.volumes == t.volumes.GetOr([]) + f.volumes.GetOr([])
            && p.spec.tolerations == t.tolerations.GetOr([]) + f.tolerations.GetOr([])
            && p.spec.hostAliases == t.hostAliases.GetOr([]) + f.hostAliases.GetOr([])
            && p.spec.pullSecrets == t.pullSecrets.GetOr([]) + f.pullSecrets.GetOr([])
            && Wins(p.spec.security, [f.security, t.security])
            && Wins(p.spec.affinity, [f.affinity, t.affinity])
            && Wins(p.spec.dns, [f.dns, t.dns])
            && forall k ::
                 Wins(ValueAt(Some(p.spec.nodeSelector), k), [ValueAt(f.nodeSelector, k), ValueAt(t.nodeSelector, k)])
  {
    hide Wins, SidecarsMerged, InitsMerged, MergeVersion, WithOptions, InitContainers, SidecarContainers, MainContainer;
    var v := MergeVersion(template, own);
    VersionByField(template, own);
    assert forall k :: ValueAt(Some(v.fields.nodeSelector.GetOr(map[])), k) == ValueAt(v.fields.nodeSelector, k);
  }

  // A label of the pod: options over version over template over the Browser's own.
  lemma LabelPrecedence(b: Browser, template: Option<Fields>, own: Version, opts: ParsedOptions, name: string)
    ensures var t, p := template.GetOr(NO_FIELDS), BuildPod(b, MergeVersion(template, own), opts);
            Wins(ValueAt(Some(p.labels), name),
                 [LabelOption(opts, name), ValueAt(own.fields.labels, name), ValueAt(t.labels, name),
                  ValueAt(Some(b.labels), name)])
  {
    hide Wins, SidecarsMerged, InitsMerged, MergeVersion, PodSpecFor, PodAnnotations;
    var v, t := MergeVersion(template, own), template.GetOr(NO_FIELDS);
    VersionByField(template, own);
    var r, o := ValueAt(Some(PodLabels(b, v, opts)), name), LabelOption(opts, name);
    var x, y, z := ValueAt(own.fields.labels, name), ValueAt(t.labels, name), ValueAt(Some(b.labels), name);
    WinsOfTwo(ValueAt(v.fields.labels, name), x, y);
    WinsOfFour(r, o, x, y, z);
  }

  // An annotation: version over template over the Browser's own, and of those not the options.
  lemma AnnotationPrecedence(b: Browser, template: Option<Fields>, own: Version, opts: ParsedOptions, name: string)
    ensures var t, p := template.GetOr(NO_FIELDS), BuildPod(b, MergeVersion(template, own), opts);
            Wins(ValueAt(Some(p.annotations), name),
                 [ValueAt(own.fields.annotations, name), ValueAt(t.annotations, name),
                  if name == "selenosis.io/options" then None else ValueAt(Some(b.annotations), name)])
  {
    hide Wins, SidecarsMerged, InitsMerged, MergeVersion, PodSpecFor, PodLabels;
    var v, t := MergeVersion(template, own), template.GetOr(NO_FIELDS);
    VersionByField(template, own);
    var r, z := ValueAt(Some(PodAnnotations(b, v)), name),
                if name == "selenosis.io/options" then None else ValueAt(Some(b.annotations), name);
    var x, y := ValueAt(own.fields.annotations, name), ValueAt(t.annotations, name);
    WinsOfTwo(ValueAt(v.fields.annotations, name), x, y);
    WinsOfThree(r, x, y, z);
  }
}

// The pod object of a Browser, as the builder fills it: arrays, maps and pointers of the
// cached configuration are shared with it.
module PodBuilder {
  import opened Values
  import opened Kube
  import opened ConfigMerge
  import opened ConfigHeap
  import opened ConfigObjects
  import opened DeepCopy
  import opened PodTemplate

  datatype ContainerRef = ContainerRef(
    name: string,
    image: string,
    pullPolicy: string,
    command: array?<string>,
    workingDir: string,
    ports: array?<ContainerPort>,
    env: array?<EnvVar>,
    mounts: array?<Opaque>,
    resources: Option<Opaque>,
    privileged: bool)

  ghost function ContainerV(c: ContainerRef): Container
    reads ContainerParts(c)
  {
    Container(c.name, c.image, c.pullPolicy, ListV(c.command).GetOr([]), c.workingDir, ListV(c.ports).GetOr([]),
              EnvV(c.env).GetOr(map[]), ListV(c.mounts).GetOr([]), c.resources, c.privileged)
  }

  ghost function ContainerParts(c: ContainerRef): set<object?> {
    {c.command, c.ports, c.env, c.mounts}
  }

  // ----- options ---------------------------------------------------------------------

  // The last variable of a name is the one that counts.
  predicate LastOf(s: seq<EnvVar>, i: int, name: string) {
    0 <= i < |s| && s[i].name == name && forall j :: i < j < |s| ==> s[j].name != name
  }

  lemma {:induction false} EnvMapLast(s: seq<EnvVar>, name: string)
    ensures name in EnvMap(s) <==> exists i :: LastOf(s, i, name)
    ensures forall i :: LastOf(s, i, name) ==> name in EnvMap(s) && EnvMap(s)[name] == s[i]
  {
    if s != [] {
      var n := |s| - 1;
      EnvMapLast(s[..n], name);
      if s[n].name == name {
        assert LastOf(s, n, name);
      } else {
        assert forall i :: LastOf(s, i, name) <==> LastOf(s[..n], i, name);
      }
    }
  }

  lemma {:induction false} EnvMapReplaced(s: seq<EnvVar>, i: int, x: EnvVar)
    requires LastOf(s, i, x.name)
    ensures EnvMap(s[i := x]) == EnvMap(s)[x.name := x]
  {
    var n := |s| - 1;
    var t := s[i := x];
    if i == n {
      assert t[..n] == s[..n];
    } else {
      assert LastOf(s[..n], i, x.name) && t[..n] == s[..n][i := x] && t[n] == s[n];
      EnvMapReplaced(s[..n], i, x);
    }
  }

  lemma EnvMapAppended(s: seq<EnvVar>, x: EnvVar)
    ensures EnvMap(s + [x]) == EnvMap(s)[x.name := x]
  {
    assert (s + [x])[..|s|] == s;
  }

  // idx holds the place of the last variable of every name.
  predicate Indexes(idx: map<string, int>, s: seq<EnvVar>) {
    && (forall k :: k in idx ==> LastOf(s, idx[k], k))
    && (forall i :: 0 <= i < |s| ==> s[i].name in idx)
  }

  // Writing one variable: over the last one of its name, or at the end.
  lemma Written(idx: map<string, int>, s: seq<EnvVar>, x: EnvVar)
    requires Indexes(idx, s)
    ensures x.name in idx ==> 0 <= idx[x.name] < |s|
    ensures x.name in idx ==> Indexes(idx, s[idx[x.name] := x]) && EnvMap(s[idx[x.name] := x]) == EnvMap(s)[x.name := x]
    ensures Indexes(idx[x.name := |s|], s + [x]) && EnvMap(s + [x]) == EnvMap(s)[x.name := x]
  {
    hide EnvMap;
    EnvMapAppended(s, x);
    if x.name in idx {
      EnvMapReplaced(s, idx[x.name], x);
    }
  }

  // The first loop: the place of every variable of the list.
  method IndexOf(out: seq<EnvVar>) returns (idx: map<string, int>)
    ensures Indexes(idx, out)
  {
    hide EnvMap, Indexes;
    idx := map[];
    assert Indexes(map[], []) by { NothingIndexed(); }
    for i := 0 to |out|
      invariant Indexes(idx, out[..i])
    {
      Written(idx, out[..i], out[i]);
      assert out[..i + 1] == out[..i] + [out[i]];
      idx := idx[out[i].name := i];
    }
    assert out[..|out|] == out;
  }

  lemma NothingIndexed()
    ensures Indexes(map[], [])
  {
  }

  // The options outside `rest`, as variables.
  ghost function Overriding(override: map<string, string>, rest: set<string>): map<string, EnvVar> {
    map k | k in override && k !in rest :: EnvVar(k, override[k], None)
  }

  lemma OverridingStep(table: map<string, EnvVar>, override: map<string, string>, rest: set<string>, k: string)
    requires k in rest && k in override
    ensures (table + Overriding(override, rest))[k := EnvVar(k, override[k], None)] == table + Overriding(override,
        rest - {k})
    ensures Overriding(override, {}) == OptionEnv(override) && table + Overriding(override, override.Keys) == table
  {
  }

  method MergeEnvVars(base: array?<EnvVar>, override: map<string, string>) returns (r: array?<EnvVar>)
    ensures EnvV(r).GetOr(map[]) == old(EnvV(base)).GetOr(map[]) + OptionEnv(override)
    ensures r == base || fresh(r)
  {
    if |override| == 0 {
      assert override == map[];
      return base;
    }
    hide EnvMap, Indexes, LastOf, Overriding, OptionEnv;
    var out: seq<EnvVar> := if base == null then [] else base[..];
    ghost var table := EnvMap(out);
    var idx := IndexOf(out);
    var rest := override.Keys;
    ghost var some :| some in override;
    OverridingStep(table, override, rest, some);
    while rest != {}
      invariant rest <= override.Keys && Indexes(idx, out)
      invariant EnvMap(out) == table + Overriding(override, rest)
      decreases rest
    {
      var k :| k in rest;
      var ev := EnvVar(k, override[k], None);
      Written(idx, out, ev);
      OverridingStep(table, override, rest, k);
      if k in idx {
        out := out[idx[k] := ev];
      } else {
        idx := idx[k := |out|];
        out := out + [ev];
      }
      rest := rest - {k};
    }
    r := ToArray(out);
  }

  // ----- containers ------------------------------------------------------------------

  ghost function ArrayParts(a: array<ContainerRef>): set<object?>
    reads a
  {
    set k, o | 0 <= k < a.Length && o in ContainerParts(a[k]) :: o
  }

  ghost predicate ContainersAre(a: array<ContainerRef>, vs: seq<Container>)
    reads a, ArrayParts(a)
  {
    a.Length == |vs| && forall k :: 0 <= k < a.Length ==> ContainerV(a[k]) == vs[k]
  }

  method FromSidecar(s: SidecarRef) returns (c: ContainerRef)
    ensures ContainerV(c) == SidecarContainer(old(SidecarV(s)))
  {
    var env := CopyEnv(s.env);
    var mounts := CopyArray(s.mounts);
    c := ContainerRef(s.name, s.image, s.pullPolicy, s.command, if s.workingDir == null then "" else s.workingDir.v,
                      s.ports, env, mounts, if s.resources == null then None else Some(s.resources.v), false);
  }

  method FromInit(s: SidecarRef, workingDir: Ptr?<string>, ghost v: Version) returns (c: ContainerRef)
    requires PtrV(workingDir) == v.fields.workingDir
    ensures ContainerV(c) == InitContainer(v, old(SidecarV(s)))
  {
    var env := CopyEnv(s.env);
    var mounts := CopyArray(s.mounts);
    var dir := "";
    if workingDir != null {
      dir := workingDir.v;
    } else if s.workingDir != null {
      dir := s.workingDir.v;
    }
    c := ContainerRef(s.name, s.image, s.pullPolicy, s.command, dir,
                      s.ports, env, mounts, if s.resources == null then None else Some(s.resources.v), false);
  }

  ghost predicate ListIs(list: seq<ContainerRef>, vs: seq<Container>)
    reads set c, o | c in list && o in ContainerParts(c) :: o
  {
    |list| == |vs| && forall k :: 0 <= k < |list| ==> ContainerV(list[k]) == vs[k]
  }

  method AppendInit(list: seq<ContainerRef>, s: SidecarRef, workingDir: Ptr?<string>, ghost v: Version,
                    ghost vs: seq<Container>) returns (r: seq<ContainerRef>)
    requires ListIs(list, vs) && PtrV(workingDir) == v.fields.workingDir
    ensures ListIs(r, vs + [InitContainer(v, old(SidecarV(s)))]) && PtrV(workingDir) == v.fields.workingDir
  {
    hide InitContainer, SidecarV;
    var c := FromInit(s, workingDir, v);
    r := list + [c];
  }

  method InitList(inits: array?<SidecarRef>, workingDir: Ptr?<string>, ghost v: Version)
      returns (r: array<ContainerRef>)
    requires Means(inits, v.fields.initContainers) && PtrV(workingDir) == v.fields.workingDir
    ensures fresh(r) && ContainersAre(r, InitContainers(v))
  {
    hide InitContainer, ContainerV;
    ghost var want := InitContainers(v);
    var list: seq<ContainerRef> := [];
    if inits != null {
      for i := 0 to inits.Length
        invariant |list| == i && PtrV(workingDir) == v.fields.workingDir && ListIs(list, want[..i])
        invariant forall k :: 0 <= k < inits.Length ==> SidecarV(inits[k]) == v.fields.initContainers.value[k]
      {
        assert want[..i + 1] == want[..i] + [want[i]];
        list := AppendInit(list, inits[i], workingDir, v, want[..i]);
      }
    }
    assert want[..|list|] == want;
    r := Sliced(list, want);
  }

  method Sliced(list: seq<ContainerRef>, ghost vs: seq<Container>) returns (r: array<ContainerRef>)
    requires ListIs(list, vs)
    ensures fresh(r) && ContainersAre(r, vs)
  {
    r := ToArray(list);
    assert forall k :: 0 <= k < r.Length ==> r[k] == r[..][k];
  }

  // The browser container, not privileged yet.
  method FromVersion(image: string, f: FieldRefs, ghost v: Version) returns (c: ContainerRef)
    requires image == v.image && f.pullPolicy == v.fields.pullPolicy
    requires EnvV(f.env) == v.fields.env && ListV(f.mounts) == v.fields.mounts
    requires PtrV(f.resources) == v.fields.resources && PtrV(f.workingDir) == v.fields.workingDir
    ensures ContainerV(c) == MainContainer(v).(privileged := false) && c.env == f.env
  {
    var mounts := CopyArray(f.mounts);
    c := ContainerRef(BROWSER_CONTAINER, image, f.pullPolicy, null, if f.workingDir == null then "" else f.workingDir.v,
                      null, f.env, mounts, if f.resources == null then None else Some(f.resources.v), false);
  }

  method AppendSidecar(list: seq<ContainerRef>, s: SidecarRef, ghost vs: seq<Container>) returns (r: seq<ContainerRef>)
    requires ListIs(list, vs)
    ensures ListIs(r, vs + [SidecarContainer(old(SidecarV(s)))])
  {
    hide SidecarContainer, SidecarV;
    var c := FromSidecar(s);
    r := list + [c];
  }

  // The browser container and the sidecars after it.
  method ContainerList(main: ContainerRef, sidecars: array?<SidecarRef>, ghost mv: Container, ghost v: Version)
    returns (r: array<ContainerRef>)
    requires Means(sidecars, v.fields.sidecars) && ContainerV(main) == mv
    ensures fresh(r) && ContainersAre(r, [mv] + SidecarContainers(v))
  {
    var list := [main];
    ghost var want := [mv] + SidecarContainers(v);
    assert want[..1] == [mv];
    hide SidecarContainer, SidecarContainers, ContainerV, EnvMap;
    if sidecars != null {
      for i := 0 to sidecars.Length
        invariant |list| == i + 1 && ListIs(list, want[..i + 1])
        invariant forall k :: 0 <= k < sidecars.Length ==> SidecarV(sidecars[k]) == v.fields.sidecars.value[k]
      {
        assert want[..i + 2] == want[..i + 1] + [want[i + 1]];
        list := AppendSidecar(list, sidecars[i], want[..i + 1]);
      }
    }
    assert want[..|list|] == want;
    r := Sliced(list, want);
  }

  // ----- options on the containers -----------------------------------------------------

  method SetEnv(a: array<ContainerRef>, i: nat, env: array?<EnvVar>, ghost vs: seq<Container>)
    requires i < a.Length && ContainersAre(a, vs)
    modifies a
    ensures ContainersAre(a, vs[i := vs[i].(env := old(EnvV(env)).GetOr(map[]))])
  {
    hide EnvMap, ListV;
    a[i] := a[i].(env := env);
  }

  method OptionAt(a: array<ContainerRef>, i: nat, options: map<string, map<string, string>>, ghost vs: seq<Container>)
    requires i < a.Length && ContainersAre(a, vs)
    modifies a
    ensures ContainersAre(a, vs[i := WithOption(vs[i], options)])
  {
    var name := a[i].name;
    assert name == vs[i].name;
    if name in options && |options[name]| > 0 {
      var env := MergeEnvVars(a[i].env, options[name]);
      SetEnv(a, i, env, vs);
    } else {
      assert name in options ==> options[name] == map[];
      assert WithOption(vs[i], options) == vs[i];
    }
  }

  // The first n containers have their options, the others not yet.
  ghost function FirstWithOptions(vs: seq<Container>, options: map<string, map<string, string>>,
                                  n: int): (r: seq<Container>)
    requires 0 <= n <= |vs|
    ensures |r| == |vs|
  {
    WithOptions(vs[..n], options) + vs[n..]
  }

  lemma OneMoreWithOptions(vs: seq<Container>, options: map<string, map<string, string>>, n: int)
    requires 0 <= n <= |vs|
    ensures FirstWithOptions(vs, options, 0) == vs && FirstWithOptions(vs, options, |vs|) == WithOptions(vs, options)
    ensures n < |vs| ==>
      var now := FirstWithOptions(vs, options, n);
      now[n := WithOption(now[n], options)] == FirstWithOptions(vs, options, n + 1)
  {
    hide WithOption;
    assert vs[..|vs|] == vs;
  }

  method ContainersWithOptions(a: array<ContainerRef>, options: map<string, map<string, string>>,
                               ghost vs: seq<Container>)
    requires ContainersAre(a, vs)
    modifies a
    ensures ContainersAre(a, WithOptions(vs, options))
  {
    assert a.Length == |vs|;
    hide ContainersAre, WithOption, WithOptions, FirstWithOptions;
    OneMoreWithOptions(vs, options, 0);
    for i := 0 to a.Length
      invariant ContainersAre(a, FirstWithOptions(vs, options, i))
    {
      OneMoreWithOptions(vs, options, i);
      OptionAt(a, i, options, FirstWithOptions(vs, options, i));
    }
  }

  // ----- the pod -------------------------------------------------------------------------

  method SetPrivileged(a: array<ContainerRef>, privileged: Ptr?<bool>, ghost v: Version)
    requires PtrV(privileged) == v.fields.privileged
    requires ContainersAre(a, [MainContainer(v).(privileged := false)] + SidecarContainers(v))
    modifies a
    ensures ContainersAre(a, [MainContainer(v)] + SidecarContainers(v))
  {
    hide SidecarContainers;
    if privileged != null && privileged.v {
      a[0] := a[0].(privileged := true);
    }
  }

  // The references of a version, its containers aside, mean the fields of v.
  ghost predicate ReadsPlain(image: string, f: FieldRefs, v: Version)
    reads OwnParts(f)
  {
    && image == v.image && f.pullPolicy == v.fields.pullPolicy
    && MapsMean(f.labels, f.annotations, f.nodeSelector, f.env, v.fields)
    && ListsMean(f.volumes, f.mounts, f.tolerations, f.hostAliases, f.pullSecrets, v.fields)
    && PointersMean(f.resources, f.affinity, f.privileged, f.dns, f.security, f.workingDir, v.fields, {})
  }

  ghost predicate Reads(image: string, f: FieldRefs, v: Version)
    reads OwnParts(f), ListParts(f.initContainers), ListParts(f.sidecars)
  {
    && ReadsPlain(image, f, v)
    && Means(f.initContainers, v.fields.initContainers) && Means(f.sidecars, v.fields.sidecars)
  }

  lemma ReadsView(cfg: VersionObj)
    requires cfg.Valid()
    ensures Reads(cfg.image, cfg.f, cfg.View())
  {
    hide FieldsV, MapsMean, ListsMean, PointersMean, EntriesV, EntryParts, ListParts;
    FieldsSplit(cfg.f, {});
    ListsOf(cfg.f, {});
    MeansExact(cfg.f.initContainers, SidecarsV(cfg.f.initContainers));
    MeansExact(cfg.f.sidecars, SidecarsV(cfg.f.sidecars));
  }

  method BuildInits(image: string, f: FieldRefs, ghost v: Version) returns (r: array<ContainerRef>)
    requires Reads(image, f, v)
    ensures fresh(r) && ContainersAre(r, InitContainers(v)) && Reads(image, f, v)
  {
    hide EntriesV, EntryParts, MapsMean, ListsMean, InitContainers, ContainersAre;
    r := InitList(f.initContainers, f.workingDir, v);
  }

  method BuildMain(image: string, f: FieldRefs, ghost v: Version) returns (c: ContainerRef)
    requires Reads(image, f, v)
    ensures ContainerV(c) == MainContainer(v).(privileged := false) && Reads(image, f, v)
  {
    hide EntriesV, EntryParts, MainContainer, ContainerV, EnvMap;
    c := FromVersion(image, f, v);
  }

  method BuildUnprivileged(image: string, f: FieldRefs, ghost v: Version) returns (r: array<ContainerRef>)
    requires Reads(image, f, v)
    ensures ReadsPlain(image, f, v)
    ensures fresh(r) && ContainersAre(r, [MainContainer(v).(privileged := false)] + SidecarContainers(v))
  {
    hide EntriesV, EntryParts, SidecarContainers, MainContainer, ContainersAre, MapsMean, ListsMean, PointersMean,
      ContainerV;
    var main := BuildMain(image, f, v);
    r := ContainerList(main, f.sidecars, MainContainer(v).(privileged := false), v);
  }

  method BuildContainers(image: string, f: FieldRefs, ghost v: Version) returns (r: array<ContainerRef>)
    requires Reads(image, f, v)
    ensures ReadsPlain(image, f, v)
    ensures fresh(r) && ContainersAre(r, [MainContainer(v)] + SidecarContainers(v))
  {
    hide EntriesV, EntryParts, SidecarContainers, MainContainer, ContainersAre, MapsMean, ListsMean;
    r := BuildUnprivileged(image, f, v);
    SetPrivileged(r, f.privileged, v);
  }

  method BuildLabels(labels: map<string, string>, own: StrMap?) returns (r: map<string, string>)
    ensures r == labels + old(MapV(own)).GetOr(map[])
  {
    r := Overlay(map[], labels);
    assert r == labels;
    if own != null {
      r := Overlay(r, own.m);
    }
  }

  // The Browser's annotations without its options, then the configuration's.
  method BuildAnnotations(annotations: map<string, string>, own: StrMap?) returns (r: map<string, string>)
    ensures r == (annotations - {OPTIONS_ANNOTATION}) + old(MapV(own)).GetOr(map[])
  {
    r := map[];
    var rest := annotations.Keys;
    while rest != {}
      invariant rest <= annotations.Keys
      invariant r == map k | k in annotations && k !in rest && k != OPTIONS_ANNOTATION :: annotations[k]
      decreases rest
    {
      var k :| k in rest;
      rest := rest - {k};
      if k == OPTIONS_ANNOTATION {
        continue;
      }
      r := r[k := annotations[k]];
    }
    assert r == annotations - {OPTIONS_ANNOTATION};
    if own != null {
      r := Overlay(r, own.m);
    }
  }

  datatype SpecRefs = SpecRefs(
    initContainers: array<ContainerRef>,
    containers: array<ContainerRef>,
    volumes: array?<Opaque>,
    security: Ptr?<Opaque>,
    nodeSelector: StrMap?,
    affinity: Ptr?<Opaque>,
    tolerations: array?<Opaque>,
    hostAliases: array?<Opaque>,
    pullSecrets: array?<Opaque>,
    dns: Ptr?<Opaque>,
    hostname: string,
    restartPolicy: string)

  ghost predicate ListsAre(volumes: array?<Opaque>, tolerations: array?<Opaque>, hostAliases: array?<Opaque>,
                           pullSecrets: array?<Opaque>, v: PodSpec)
    reads volumes, tolerations, hostAliases, pullSecrets
  {
    && ListV(volumes).GetOr([]) == v.volumes && ListV(tolerations).GetOr([]) == v.tolerations
    && ListV(hostAliases).GetOr([]) == v.hostAliases && ListV(pullSecrets).GetOr([]) == v.pullSecrets
  }

  ghost predicate PointersAre(security: Ptr?<Opaque>, nodeSelector: StrMap?, affinity: Ptr?<Opaque>, dns: Ptr?<Opaque>,
                              v: PodSpec)
    reads security, nodeSelector, affinity, dns
  {
    && PtrV(security) == v.security && MapV(nodeSelector).GetOr(map[]) == v.nodeSelector
    && PtrV(affinity) == v.affinity && PtrV(dns) == v.dns
  }

  ghost function CarriedParts(s: SpecRefs): set<object?> {
    {s.volumes, s.tolerations, s.hostAliases, s.pullSecrets, s.security, s.nodeSelector, s.affinity, s.dns}
  }

  ghost predicate CarriedAre(s: SpecRefs, v: PodSpec)
    reads CarriedParts(s)
  {
    && ListsAre(s.volumes, s.tolerations, s.hostAliases, s.pullSecrets, v)
    && PointersAre(s.security, s.nodeSelector, s.affinity, s.dns, v)
    && s.hostname == v.hostname && s.restartPolicy == v.restartPolicy
  }

  method CopyVolumes(ghost image: string, f: FieldRefs, ghost v: Version) returns (r: array?<Opaque>)
    requires ReadsPlain(image, f, v)
    ensures ReadsPlain(image, f, v) && ListV(r) == v.fields.volumes
  {
    hide EnvMap;
    r := CopyArray(f.volumes);
  }

  // The volumes are copied, everything else is shared with the configuration.
  method BuildCarried(browser: string, f: FieldRefs, inits: array<ContainerRef>, containers: array<ContainerRef>,
                      ghost v: Version) returns (s: SpecRefs)
    requires ReadsPlain(v.image, f, v)
    ensures ReadsPlain(v.image, f, v)
    ensures CarriedAre(s, SpecOf(browser, v)) && s.initContainers == inits && s.containers == containers
  {
    hide EnvMap, InitContainers, MainContainer, SidecarContainers;
    var volumes := CopyVolumes(v.image, f, v);
    s := SpecRefs(inits, containers, volumes, f.security, f.nodeSelector, f.affinity, f.tolerations, f.hostAliases,
                  f.pullSecrets, f.dns, browser, "Never");
  }

  ghost predicate SpecIs(s: SpecRefs, v: PodSpec)
    reads CarriedParts(s)
    reads s.initContainers, ArrayParts(s.initContainers)
    reads s.containers, ArrayParts(s.containers)
  {
    && s.initContainers != s.containers && CarriedAre(s, v)
    && ContainersAre(s.initContainers, v.initContainers) && ContainersAre(s.containers, v.containers)
  }

  method BuildSpec(browser: string, image: string, f: FieldRefs, ghost v: Version) returns (s: SpecRefs)
    requires Reads(image, f, v)
    ensures fresh(s.containers) && SpecIs(s, SpecOf(browser, v)) && ReadsPlain(image, f, v)
  {
    hide EntriesV, EntryParts, MapsMean, ListsMean, PointersMean, InitContainers, MainContainer, SidecarContainers,
      CarriedAre,
      Means, EnvMap, ContainerParts;
    var inits := BuildInits(image, f, v);
    var containers := BuildContainers(image, f, v);
    s := BuildCarried(browser, f, inits, containers, v);
  }

  class PodObj {
    const name: string
    const namespace: string
    const owner: string
    var labels: map<string, string>
    var annotations: map<string, string>
    var spec: SpecRefs

    constructor (b: Browser, labels: map<string, string>, annotations: map<string, string>, spec: SpecRefs)
      ensures name == b.name && namespace == b.namespace && owner == b.uid
      ensures this.labels == labels && this.annotations == annotations && this.spec == spec
    {
      name, namespace, owner := b.name, b.namespace, b.uid;
      this.labels, this.annotations, this.spec := labels, annotations, spec;
    }

    ghost predicate MetaIs(v: Pod)
      reads this
    {
      && name == v.name && namespace == v.namespace && owner == v.owner
      && labels == v.labels && annotations == v.annotations
    }
  }

  method ApplySelenosisOptions(pod: PodObj, opts: Option<SelenosisOptions>, ghost v: PodSpec)
    requires SpecIs(pod.spec, v)
    modifies pod, pod.spec.containers
    ensures pod.spec == old(pod.spec) && pod.annotations == old(pod.annotations)
    ensures opts.None? ==> pod.labels == old(pod.labels) && SpecIs(pod.spec, v)
    ensures opts.Some? ==> pod.labels == old(pod.labels) + opts.value.labels.GetOr(map[])
    ensures opts.Some? ==> SpecIs(pod.spec, v.(containers := WithOptions(v.containers, opts.value.containers)))
  {
    hide WithOptions, SpecIs;
    if opts.None? {
      return;
    }
    ghost var want := v.(containers := WithOptions(v.containers, opts.value.containers));
    OptionsOnSpec(pod.spec, opts.value.containers, v);
    if opts.value.labels.Some? {
      var labels := OverlayBeside(pod.labels, opts.value.labels.value, pod.spec, want);
      SetLabels(pod, labels, want);
    }
  }

  method OverlayBeside(base: map<string, string>, over: map<string, string>, ghost s: SpecRefs, ghost v: PodSpec)
    returns (r: map<string, string>)
    requires SpecIs(s, v)
    ensures r == base + over && SpecIs(s, v)
  {
    hide EnvMap, ListsAre, PointersAre;
    r := Overlay(base, over);
  }

  method SetLabels(pod: PodObj, labels: map<string, string>, ghost v: PodSpec)
    requires SpecIs(pod.spec, v)
    modifies pod
    ensures pod.spec == old(pod.spec) && pod.annotations == old(pod.annotations) && SpecIs(pod.spec, v)
    ensures pod.labels == labels
  {
    hide EnvMap, ListsAre, PointersAre;
    pod.labels := labels;
  }

  method OptionsOnSpec(s: SpecRefs, options: map<string, map<string, string>>, ghost v: PodSpec)
    requires SpecIs(s, v)
    modifies s.containers
    ensures SpecIs(s, v.(containers := WithOptions(v.containers, options)))
  {
    hide WithOptions, EnvMap;
    ContainersWithOptions(s.containers, options, v.containers);
  }

  // Labels and annotations, read off the Browser and the configuration.
  method BuildMeta(b: Browser, image: string, f: FieldRefs, s: SpecRefs, ghost v: Version)
    returns (labels: map<string, string>, annotations: map<string, string>)
    requires ReadsPlain(image, f, v) && SpecIs(s, SpecOf(b.name, v))
    ensures labels == b.labels + v.fields.labels.GetOr(map[]) && annotations == PodAnnotations(b, v)
    ensures SpecIs(s, SpecOf(b.name, v))
  {
    hide EnvMap, ListsAre, PointersAre, SpecOf, ListsMean, PointersMean;
    labels := BuildLabels(b.labels, f.labels);
    annotations := BuildAnnotations(b.annotations, f.annotations);
  }

  method NewPod(b: Browser, labels: map<string, string>, annotations: map<string, string>, spec: SpecRefs,
                ghost v: PodSpec)
    returns (pod: PodObj)
    requires SpecIs(spec, v)
    ensures fresh(pod) && pod.name == b.name && pod.namespace == b.namespace && pod.owner == b.uid
    ensures pod.labels == labels && pod.annotations == annotations && pod.spec == spec && SpecIs(pod.spec, v)
  {
    hide EnvMap, ListsAre, PointersAre;
    pod := new PodObj(b, labels, annotations, spec);
  }

  method FillPod(b: Browser, image: string, f: FieldRefs, opts: Option<SelenosisOptions>, ghost v: Version)
    returns (pod: PodObj)
    requires Reads(image, f, v)
    ensures fresh(pod) && pod.MetaIs(BuildPod(b, v, Parsed(opts)))
    ensures SpecIs(pod.spec, PodSpecFor(b.name, v, Parsed(opts)))
  {
    hide Reads, ReadsPlain, SpecIs, SpecOf, WithOptions;
    var spec := BuildSpec(b.name, image, f, v);
    var labels, annotations := BuildMeta(b, image, f, spec, v);
    pod := NewPod(b, labels, annotations, spec, SpecOf(b.name, v));
    ApplySelenosisOptions(pod, opts, SpecOf(b.name, v));
    NoOptionsNoChange(SpecOf(b.name, v).containers);
  }

  lemma NoOptionsNoChange(vs: seq<Container>)
    ensures WithOptions(vs, map[]) == vs
  {
  }

  // The pod of a Browser; the method changes nothing that exists already.
  method BuildBrowserPod(b: Browser, cfg: VersionObj, opts: Option<SelenosisOptions>) returns (pod: PodObj)
    requires cfg.Valid()
    ensures fresh(pod) && pod.MetaIs(BuildPod(b, old(cfg.View()), Parsed(opts)))
    ensures SpecIs(pod.spec, PodSpecFor(b.name, old(cfg.View()), Parsed(opts)))
  {
    hide Reads, SpecIs, SpecOf, WithOptions, FieldsV;
    ReadsView(cfg);
    pod := FillPod(b, cfg.image, cfg.f, opts, cfg.View());
  }
}

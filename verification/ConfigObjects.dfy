// The template, the versions and the whole specification as objects, and the in-place
// merge of every version with the template.
module ConfigObjects {
  import opened Values
  import opened ConfigMerge
  import opened ConfigHeap

  class TemplateObj {
    var f: FieldRefs
    ghost var repr: set<object?>

    ghost predicate Valid()
      reads this, f.initContainers, f.sidecars
    {
      Parts(f) <= repr
    }

    constructor (f: FieldRefs)
      ensures this.f == f && Valid() && repr == Parts(f)
      ensures FieldsV(f) == old(FieldsV(f)) && Parts(f) == old(Parts(f))
    {
      this.f := f;
      repr := Parts(f);
      new;
      TemplateIsNoPart(this, f);
    }
  }

  lemma {:induction false} TemplateIsNoEntryPart(t: TemplateObj, ss: seq<SidecarRef>)
    ensures t !in EntryParts(ss)
  {
    if ss != [] {
      TemplateIsNoEntryPart(t, ss[..|ss| - 1]);
    }
  }

  lemma TemplateIsNoListPart(t: TemplateObj, a: array?<SidecarRef>)
    ensures t !in ListParts(a)
  {
    hide EntryParts;
    if a != null {
      TemplateIsNoEntryPart(t, a[..]);
    }
  }

  // A template is never what a record of pointers points to.
  lemma TemplateIsNoPart(t: TemplateObj, f: FieldRefs)
    ensures t !in Parts(f)
  {
    hide ListParts;
    TemplateIsNoListPart(t, f.sidecars);
    TemplateIsNoListPart(t, f.initContainers);
  }

  // A list of containers and what its entries mean, in a form that survives allocation.
  ghost predicate Means(a: array?<SidecarRef>, v: Option<seq<Sidecar>>)
    reads a, ListParts(a)
  {
    if a == null then v.None?
    else v.Some? && |v.value| == a.Length && forall k :: 0 <= k < a.Length ==> SidecarV(a[k]) == v.value[k]
  }

  lemma MeansExact(a: array?<SidecarRef>, v: Option<seq<Sidecar>>)
    ensures Means(a, v) <==> SidecarsV(a) == v
  {
    hide EntriesV, EntryParts;
    if a != null {
      forall k | 0 <= k < a.Length ensures EntriesV(a[..])[k] == SidecarV(a[k]) { EntryAt(a, k); }
      if Means(a, v) {
        EntriesAre(a, v.value);
      }
    }
  }

  method MergeContainers(rest: array?<SidecarRef>, win: array?<SidecarRef>,
                         originals: array?<SidecarRef>, templates: array?<SidecarRef>, ghost foreign: set<object>)
    returns (r: array?<SidecarRef>)
    requires ListParts(rest) !! foreign && ListParts(win) !! foreign && ListParts(templates) !! foreign
    requires originals != null && templates != null ==> rest != null || win != null
    ensures SidecarsV(r) == Resolve(Combine(old(SidecarsV(rest)), old(SidecarsV(win))),
                                    old(SidecarsV(originals)), old(SidecarsV(templates)))
    ensures r != null ==> fresh(r)
    ensures ListParts(r) !! foreign
  {
    hide EntriesV, EntryParts, Unclashing, ResolveEntry, SidecarParts;
    ghost var ov, tv := SidecarsV(originals), SidecarsV(templates);
    MeansExact(originals, ov);
    MeansExact(templates, tv);
    r := MergeSidecarPtr(rest, win, foreign);
    MeansExact(originals, ov);
    MeansExact(templates, tv);
    if originals != null && templates != null {
      ResolveClashes(r, originals, templates, foreign);
    }
    if r != null {
      AvoidsAll(r[..], foreign);
    }
  }

  lemma {:induction false} AvoidsAll(ss: seq<SidecarRef>, foreign: set<object>)
    requires forall k :: 0 <= k < |ss| ==> SidecarParts(ss[k]) !! foreign
    ensures EntryParts(ss) !! foreign
  {
    if ss != [] {
      AvoidsAll(ss[..|ss| - 1], foreign);
    }
  }

  // The references of f outside its container lists.
  ghost function OwnParts(f: FieldRefs): set<object?> {
    {f.labels, f.annotations, f.env, f.resources, f.volumes, f.mounts, f.nodeSelector, f.affinity, f.tolerations,
     f.hostAliases, f.initContainers, f.sidecars, f.privileged, f.pullSecrets, f.dns, f.security, f.workingDir}
  }

  // ----- what they mean, in three groups -------------------------------------------------

  ghost predicate MapsMean(labels: StrMap?, annotations: StrMap?, nodeSelector: StrMap?, env: array?<EnvVar>, v: Fields)
    reads labels, annotations, nodeSelector, env
  {
    MapV(labels) == v.labels && MapV(annotations) == v.annotations && MapV(nodeSelector) == v.nodeSelector
    && EnvV(env) == v.env
  }

  ghost predicate ListsMean(volumes: array?<Opaque>, mounts: array?<Opaque>, tolerations: array?<Opaque>,
                            hostAliases: array?<Opaque>, pullSecrets: array?<Opaque>, v: Fields)
    reads volumes, mounts, tolerations, hostAliases, pullSecrets
  {
    ListV(volumes) == v.volumes && ListV(mounts) == v.mounts && ListV(tolerations) == v.tolerations
    && ListV(hostAliases) == v.hostAliases && ListV(pullSecrets) == v.pullSecrets
  }

  ghost predicate PointersMean(resources: Ptr?<Opaque>, affinity: Ptr?<Opaque>, privileged: Ptr?<bool>,
                               dns: Ptr?<Opaque>, security: Ptr?<Opaque>, workingDir: Ptr?<string>,
                               v: Fields, foreign: set<object>)
    reads resources, affinity, privileged, dns, security, workingDir
  {
    && PtrV(resources) == v.resources && PtrV(affinity) == v.affinity && PtrV(privileged) == v.privileged
    && PtrV(dns) == v.dns && PtrV(security) == v.security && PtrV(workingDir) == v.workingDir
    && resources !in foreign && affinity !in foreign && privileged !in foreign
    && dns !in foreign && security !in foreign && workingDir !in foreign
  }

  lemma FieldsSplit(f: FieldRefs, foreign: set<object>)
    requires Parts(f) !! foreign
    ensures MapsMean(f.labels, f.annotations, f.nodeSelector, f.env, FieldsV(f))
    ensures ListsMean(f.volumes, f.mounts, f.tolerations, f.hostAliases, f.pullSecrets, FieldsV(f))
    ensures PointersMean(f.resources, f.affinity, f.privileged, f.dns, f.security, f.workingDir, FieldsV(f), foreign)
    ensures FieldsV(f).pullPolicy == f.pullPolicy
  {
    hide MapV, ListV, PtrV, EnvV, SidecarsV, ListParts;
  }

  // ----- the merged fields, in three groups ---------------------------------------------

  ghost predicate MergedMaps(labels: StrMap?, annotations: StrMap?, nodeSelector: StrMap?, env: array?<EnvVar>,
                             t: Fields, own: Fields, foreign: set<object>)
    reads labels, annotations, nodeSelector, env
  {
    && MapV(labels) == MergeMap(t.labels, own.labels)
    && MapV(annotations) == MergeMap(t.annotations, own.annotations)
    && MapV(nodeSelector) == MergeMap(t.nodeSelector, own.nodeSelector)
    && EnvV(env) == MergeMap(t.env, own.env)
    && labels !in foreign && annotations !in foreign && nodeSelector !in foreign && env !in foreign
  }

  method MergeMaps(t: FieldRefs, own: FieldRefs, ghost tv: Fields, ghost ov: Fields, ghost foreign: set<object>)
    returns (labels: StrMap?, annotations: StrMap?, nodeSelector: StrMap?, env: array?<EnvVar>)
    requires MapsMean(t.labels, t.annotations, t.nodeSelector, t.env, tv)
    requires MapsMean(own.labels, own.annotations, own.nodeSelector, own.env, ov)
    ensures MergedMaps(labels, annotations, nodeSelector, env, tv, ov, foreign)
  {
    hide MergeMap;
    labels := MergeMapPtr(t.labels, own.labels);
    annotations := MergeMapPtr(t.annotations, own.annotations);
    env := MergeEnvPtr(t.env, own.env);
    nodeSelector := MergeMapPtr(t.nodeSelector, own.nodeSelector);
  }

  ghost predicate MergedLists(volumes: array?<Opaque>, mounts: array?<Opaque>, tolerations: array?<Opaque>,
                              hostAliases: array?<Opaque>, pullSecrets: array?<Opaque>,
                              t: Fields, own: Fields, foreign: set<object>)
    reads volumes, mounts, tolerations, hostAliases, pullSecrets
  {
    && ListV(volumes) == MergeList(t.volumes, own.volumes)
    && ListV(mounts) == MergeList(own.mounts, t.mounts)
    && ListV(tolerations) == MergeList(t.tolerations, own.tolerations)
    && ListV(hostAliases) == MergeList(t.hostAliases, own.hostAliases)
    && ListV(pullSecrets) == MergeList(t.pullSecrets, own.pullSecrets)
    && volumes !in foreign && mounts !in foreign && tolerations !in foreign
    && hostAliases !in foreign && pullSecrets !in foreign
  }

  method MergeLists(t: FieldRefs, own: FieldRefs, ghost tv: Fields, ghost ov: Fields, ghost foreign: set<object>)
    returns (volumes: array?<Opaque>, mounts: array?<Opaque>, tolerations: array?<Opaque>,
             hostAliases: array?<Opaque>, pullSecrets: array?<Opaque>)
    requires ListsMean(t.volumes, t.mounts, t.tolerations, t.hostAliases, t.pullSecrets, tv)
    requires ListsMean(own.volumes, own.mounts, own.tolerations, own.hostAliases, own.pullSecrets, ov)
    ensures MergedLists(volumes, mounts, tolerations, hostAliases, pullSecrets, tv, ov, foreign)
  {
    hide MergeList;
    volumes := Append(t.volumes, own.volumes);
    tolerations := Append(t.tolerations, own.tolerations);
    hostAliases := Append(t.hostAliases, own.hostAliases);
    mounts := Append(own.mounts, t.mounts);
    pullSecrets := Append(t.pullSecrets, own.pullSecrets);
  }

  ghost predicate MergedPointers(resources: Ptr?<Opaque>, affinity: Ptr?<Opaque>, privileged: Ptr?<bool>,
                                 dns: Ptr?<Opaque>, security: Ptr?<Opaque>, workingDir: Ptr?<string>,
                                 t: Fields, own: Fields, foreign: set<object>)
    reads resources, affinity, privileged, dns, security, workingDir
  {
    && PtrV(resources) == OwnOr(own.resources, t.resources)
    && PtrV(affinity) == OwnOr(own.affinity, t.affinity)
    && PtrV(privileged) == OwnOr(own.privileged, t.privileged)
    && PtrV(dns) == OwnOr(own.dns, t.dns)
    && PtrV(security) == OwnOr(own.security, t.security)
    && PtrV(workingDir) == OwnOr(own.workingDir, t.workingDir)
    && resources !in foreign && affinity !in foreign && privileged !in foreign
    && dns !in foreign && security !in foreign && workingDir !in foreign
  }

  // The own pointer, or the template's if there is none.
  method OwnPtr<T>(own: Ptr?<T>, template: Ptr?<T>, ghost foreign: set<object>) returns (r: Ptr?<T>)
    requires own !in foreign && template !in foreign
    ensures PtrV(r) == OwnOr(old(PtrV(own)), old(PtrV(template))) && r !in foreign
  {
    r := if own == null then template else own;
  }

  method MergePointers(t: FieldRefs, own: FieldRefs, ghost tv: Fields, ghost ov: Fields, ghost foreign: set<object>)
    returns (resources: Ptr?<Opaque>, affinity: Ptr?<Opaque>, privileged: Ptr?<bool>, dns: Ptr?<Opaque>,
             security: Ptr?<Opaque>, workingDir: Ptr?<string>)
    requires PointersMean(t.resources, t.affinity, t.privileged, t.dns, t.security, t.workingDir, tv, foreign)
    requires PointersMean(own.resources, own.affinity, own.privileged, own.dns, own.security, own.workingDir, ov,
        foreign)
    ensures MergedPointers(resources, affinity, privileged, dns, security, workingDir, tv, ov, foreign)
  {
    hide OwnOr;
    resources := OwnPtr(own.resources, t.resources, foreign);
    affinity := OwnPtr(own.affinity, t.affinity, foreign);
    privileged := OwnPtr(own.privileged, t.privileged, foreign);
    dns := OwnPtr(own.dns, t.dns, foreign);
    security := OwnPtr(own.security, t.security, foreign);
    workingDir := OwnPtr(own.workingDir, t.workingDir, foreign);
  }

  // The three groups and the containers make up the merged record.
  lemma Assembled(r: FieldRefs, t: Fields, own: Fields, foreign: set<object>)
    requires AllMerged(r, t, own, foreign)
    requires SidecarsV(r.sidecars) == MergeSidecars(t.sidecars, own.sidecars)
    requires SidecarsV(r.initContainers) == MergeInits(t.initContainers, own.initContainers)
    requires r.sidecars !in foreign && r.initContainers !in foreign
    requires ListParts(r.sidecars) !! foreign && ListParts(r.initContainers) !! foreign
    ensures FieldsV(r) == MergeFields(t, own) && Parts(r) !! foreign
  {
    hide MergeMap, MergeList, OwnOr, MergeSidecars, MergeInits, MapV, ListV, PtrV, EnvV, SidecarsV, ListParts;
  }

  class VersionObj {
    var image: string
    var f: FieldRefs
    ghost var repr: set<object?>

    ghost function Lists(): set<object?>
      reads this
    {
      {f.initContainers, f.sidecars}
    }

    ghost predicate Valid()
      reads this, Lists()
    {
      Parts(f) <= repr
    }

    ghost predicate ApartFrom(foreign: set<object>)
      reads this, Lists()
    {
      Valid() && Parts(f) !! foreign
    }

    ghost function View(): Version
      reads this, Parts(f)
    {
      Version(image, FieldsV(f))
    }

    constructor (image: string, f: FieldRefs)
      ensures this.image == image && this.f == f && Valid() && repr == Parts(f)
      ensures FieldsV(f) == old(FieldsV(f)) && Parts(f) == old(Parts(f))
    {
      this.image, this.f := image, f;
      repr := Parts(f);
      new;
      VersionIsNoPart(this, f);
    }

    // mergeWithSpec: the version takes over what the template adds, in place.
    method MergeWithSpec(t: FieldRefs, ghost foreign: set<object>)
      requires Parts(t) !! foreign && Parts(f) !! foreign
      modifies this
      ensures Valid() && Parts(f) !! foreign
      ensures View() == MergeVersion(Some(old(FieldsV(t))), old(View()))
    {
      hide EntriesV, EntryParts, MergeFields, FieldsV, ListParts;
      var merged := MergeRefs(t, f, foreign);
      VersionIsNoPart(this, merged);
      f := merged;
      repr := Parts(merged);
    }
  }

  lemma {:induction false} VersionIsNoEntryPart(v: VersionObj, ss: seq<SidecarRef>)
    ensures v !in EntryParts(ss)
  {
    if ss != [] {
      VersionIsNoEntryPart(v, ss[..|ss| - 1]);
    }
  }

  lemma VersionIsNoListPart(v: VersionObj, a: array?<SidecarRef>)
    ensures v !in ListParts(a)
  {
    hide EntryParts;
    if a != null {
      VersionIsNoEntryPart(v, a[..]);
    }
  }

  // A version is never what a record of pointers points to.
  lemma VersionIsNoPart(v: VersionObj, f: FieldRefs)
    ensures v !in Parts(f)
  {
    hide ListParts;
    VersionIsNoListPart(v, f.sidecars);
    VersionIsNoListPart(v, f.initContainers);
  }

  method MergeSidecarLists(t: array?<SidecarRef>, own: array?<SidecarRef>, ti: array?<SidecarRef>,
                           owni: array?<SidecarRef>, ghost foreign: set<object>)
    returns (sidecars: array?<SidecarRef>, inits: array?<SidecarRef>)
    requires ListParts(t) !! foreign && ListParts(own) !! foreign
    requires ListParts(ti) !! foreign && ListParts(owni) !! foreign
    ensures Means(sidecars, MergeSidecars(old(SidecarsV(t)), old(SidecarsV(own))))
    ensures Means(inits, MergeInits(old(SidecarsV(ti)), old(SidecarsV(owni))))
    ensures ListParts(sidecars) !! foreign && ListParts(inits) !! foreign
    ensures sidecars !in foreign && inits !in foreign
  {
    hide EntriesV, EntryParts, Combine, Resolve;
    ghost var tv, ov := SidecarsV(ti), SidecarsV(owni);
    MeansExact(ti, tv);
    MeansExact(owni, ov);
    sidecars := MergeContainers(t, own, own, t, foreign);
    ghost var sv := SidecarsV(sidecars);
    MeansExact(sidecars, sv);
    MeansExact(ti, tv);
    MeansExact(owni, ov);
    inits := MergeContainers(owni, ti, owni, ti, foreign);
    MeansExact(inits, SidecarsV(inits));
  }

  ghost predicate AllMerged(r: FieldRefs, t: Fields, own: Fields, foreign: set<object>)
    reads OwnParts(r)
  {
    && MergedMaps(r.labels, r.annotations, r.nodeSelector, r.env, t, own, foreign)
    && MergedLists(r.volumes, r.mounts, r.tolerations, r.hostAliases, r.pullSecrets, t, own, foreign)
    && MergedPointers(r.resources, r.affinity, r.privileged, r.dns, r.security, r.workingDir, t, own, foreign)
    && r.pullPolicy == if own.pullPolicy == "" then t.pullPolicy else own.pullPolicy
  }

  // mergeWithSpec on the fields other than the containers, which are given.
  method MergePlain(t: FieldRefs, own: FieldRefs, inits: array?<SidecarRef>, sidecars: array?<SidecarRef>,
                    ghost tv: Fields, ghost ov: Fields, ghost foreign: set<object>)
    returns (r: FieldRefs)
    requires MapsMean(t.labels, t.annotations, t.nodeSelector, t.env, tv)
    requires ListsMean(t.volumes, t.mounts, t.tolerations, t.hostAliases, t.pullSecrets, tv)
    requires PointersMean(t.resources, t.affinity, t.privileged, t.dns, t.security, t.workingDir, tv, foreign)
    requires MapsMean(own.labels, own.annotations, own.nodeSelector, own.env, ov)
    requires ListsMean(own.volumes, own.mounts, own.tolerations, own.hostAliases, own.pullSecrets, ov)
    requires PointersMean(own.resources, own.affinity, own.privileged, own.dns, own.security, own.workingDir, ov,
        foreign)
    requires t.pullPolicy == tv.pullPolicy && own.pullPolicy == ov.pullPolicy
    ensures AllMerged(r, tv, ov, foreign) && r.initContainers == inits && r.sidecars == sidecars
  {
    hide MapsMean, ListsMean, PointersMean, MergedMaps, MergedLists, MergedPointers;
    var labels, annotations, nodeSelector, env := MergeMaps(t, own, tv, ov, foreign);
    var volumes, mounts, tolerations, hostAliases, pullSecrets := MergeLists(t, own, tv, ov, foreign);
    var resources, affinity, privileged, dns, security, workingDir := MergePointers(t, own, tv, ov, foreign);
    r := FieldRefs(labels, annotations, env, resources, if own.pullPolicy == "" then t.pullPolicy else own.pullPolicy,
                   volumes, mounts, nodeSelector, affinity, tolerations, hostAliases, inits, sidecars,
                   privileged, pullSecrets, dns, security, workingDir);
  }

  // The merged record of pointers; neither of the two records changes.
  method MergeRefs(t: FieldRefs, own: FieldRefs, ghost foreign: set<object>) returns (r: FieldRefs)
    requires Parts(t) !! foreign && Parts(own) !! foreign
    ensures FieldsV(r) == MergeFields(old(FieldsV(t)), old(FieldsV(own)))
    ensures Parts(r) !! foreign
  {
    hide FieldsV, MapsMean, ListsMean, PointersMean, AllMerged, MergeFields, MergeSidecars, MergeInits, EntriesV,
      EntryParts, ListParts;
    ghost var tv, ov := FieldsV(t), FieldsV(own);
    FieldsSplit(t, foreign);
    FieldsSplit(own, foreign);
    ListsOf(t, foreign);
    ListsOf(own, foreign);
    var sidecars, inits := MergeSidecarLists(t.sidecars, own.sidecars, t.initContainers, own.initContainers, foreign);
    r := MergePlain(t, own, inits, sidecars, tv, ov, foreign);
    MeansExact(sidecars, MergeSidecars(tv.sidecars, ov.sidecars));
    MeansExact(inits, MergeInits(tv.initContainers, ov.initContainers));
    Assembled(r, tv, ov, foreign);
  }

  lemma ListsOf(f: FieldRefs, foreign: set<object>)
    requires Parts(f) !! foreign
    ensures ListParts(f.sidecars) !! foreign && ListParts(f.initContainers) !! foreign
    ensures FieldsV(f).sidecars == SidecarsV(f.sidecars) && FieldsV(f).initContainers == SidecarsV(f.initContainers)
  {
  }

  // ----- the whole specification ----------------------------------------------------------

  type Browsers = map<string, map<string, VersionObj?>>

  ghost function Listed(versions: map<string, VersionObj?>): set<VersionObj> {
    set v | v in versions && versions[v] != null :: versions[v]
  }

  ghost function Versions(browsers: Browsers): set<VersionObj> {
    set name, p | name in browsers && p in Listed(browsers[name]) :: p
  }

  // What an entry means; it may be nil.
  ghost function EntryV(p: VersionObj?): Option<Version>
    reads p
    reads if p == null then {} else p.Lists()
    reads if p == null then {} else Parts(p.f)
  {
    if p == null then None else Some(p.View())
  }

  ghost function VersionsV(versions: map<string, VersionObj?>): map<string, Option<Version>>
    reads Listed(versions), set p, o | p in Listed(versions) && o in p.Lists() :: o
    reads set p, o | p in Listed(versions) && o in Parts(p.f) :: o
  {
    map v | v in versions :: EntryV(versions[v])
  }

  ghost function BrowsersV(browsers: Browsers): map<string, map<string, Option<Version>>>
    reads Versions(browsers), set p, o | p in Versions(browsers) && o in p.Lists() :: o
    reads set p, o | p in Versions(browsers) && o in Parts(p.f) :: o
  {
    map n | n in browsers :: VersionsV(browsers[n])
  }

  lemma EntryListed(browsers: Browsers, n: string, v: string)
    requires n in browsers && v in browsers[n]
    ensures browsers[n][v] != null ==> browsers[n][v] in Versions(browsers)
  {
    assert browsers[n][v] != null ==> browsers[n][v] in Listed(browsers[n]);
  }

  lemma BrowsersMerged(browsers: Browsers, before: Spec)
    requires browsers.Keys == before.browsers.Keys
    requires forall n :: n in browsers ==> browsers[n].Keys == before.browsers[n].Keys
    requires forall n, v :: n in browsers && v in browsers[n] ==>
      EntryV(browsers[n][v]) == MergeEntryV(before.template, before.browsers[n][v])
    ensures BrowsersV(browsers) == MergeSpec(before).browsers
  {
    hide MergeEntryV, Listed;
    var after := MergeSpec(before).browsers;
    forall n | n in browsers ensures VersionsV(browsers[n]) == after[n] {
    }
  }

  // No version object is listed twice.
  ghost predicate Distinct(browsers: Browsers) {
    && (forall n :: n in browsers ==> DistinctVersions(browsers[n]))
    && (forall m, n :: m in browsers && n in browsers && m != n ==> Listed(browsers[m]) !! Listed(browsers[n]))
  }

  ghost predicate DistinctVersions(versions: map<string, VersionObj?>) {
    forall v, w :: v in versions && w in versions && v != w && versions[v] != null ==> versions[v] != versions[w]
  }

  // The pointers of every version of `all` are known to it and lie outside `foreign`.
  ghost predicate AllApart(all: set<VersionObj>, foreign: set<object>)
    reads all, set p, o | p in all && o in p.Lists() :: o
  {
    forall p :: p in all ==> p.ApartFrom(foreign)
  }

  // Merges one version; what every other version and the template mean stays.
  method MergeOne(b: VersionObj, t: TemplateObj, ghost all: set<VersionObj>, ghost foreign: set<object>)
    requires b in all && AllApart(all, foreign) && t.Valid() && Parts(t.f) !! foreign
    modifies b
    ensures AllApart(all, foreign) && t.Valid() && Parts(t.f) !! foreign
    ensures FieldsV(t.f) == old(FieldsV(t.f))
    ensures b.View() == MergeVersion(Some(old(FieldsV(t.f))), old(b.View()))
    ensures forall p :: p in all && p != b ==> p.View() == old(p.View())
  {
    hide EntriesV, EntryParts, FieldsV, MergeVersion;
    VersionIsNoPart(b, t.f);
    forall p | p in all ensures b !in Parts(p.f) { VersionIsNoPart(b, p.f); }
    b.MergeWithSpec(t.f, foreign);
  }

  // What merging the versions in `done` has made of those in `all`.
  twostate predicate Progress(all: set<VersionObj>, done: set<VersionObj>, t: Fields)
    reads all, set p, o | p in all && o in Parts(p.f) :: o, set p, o | p in all && o in p.Lists() :: o
  {
    forall p :: p in all ==> p.View() == if p in done then MergeVersion(Some(t), old(p.View())) else old(p.View())
  }

  // The inner loop: all versions of one browser, in any order.
  method MergeListed(versions: map<string, VersionObj?>, t: TemplateObj, ghost all: set<VersionObj>,
                     ghost foreign: set<object>)
    returns (result: map<string, VersionObj?>)
    requires DistinctVersions(versions) && Listed(versions) <= all
    requires AllApart(all, foreign) && t.Valid() && Parts(t.f) !! foreign
    modifies Listed(versions)
    ensures result == versions
    ensures AllApart(all, foreign) && t.Valid() && Parts(t.f) !! foreign && FieldsV(t.f) == old(FieldsV(t.f))
    ensures Progress(all, Listed(versions), old(FieldsV(t.f)))
  {
    hide EntriesV, EntryParts, FieldsV, MergeVersion, Parts;
    result := versions;
    var rest := versions.Keys;
    ghost var done: set<VersionObj> := {};
    while rest != {}
      invariant result == versions && rest <= versions.Keys && done <= Listed(versions)
      invariant AllApart(all, foreign) && t.Valid() && Parts(t.f) !! foreign && FieldsV(t.f) == old(FieldsV(t.f))
      invariant forall v :: v in versions && versions[v] != null ==> (versions[v] in done <==> v !in rest)
      invariant Progress(all, done, old(FieldsV(t.f)))
      decreases rest
    {
      var v :| v in rest;
      var b := versions[v];
      if b != null {
        MergeOne(b, t, all, foreign);
        done := done + {b};
      }
      result := result[v := b];
      rest := rest - {v};
    }
    assert done == Listed(versions);
  }

  class SpecObj {
    var template: TemplateObj?
    var browsers: Browsers

    constructor (template: TemplateObj?, browsers: Browsers)
      ensures this.template == template && this.browsers == browsers
    {
      this.template, this.browsers := template, browsers;
    }

    // The specification's objects are its own, and none of them is in `foreign`.
    ghost predicate Apart(foreign: set<object>)
      reads this, template, Versions(browsers)
      reads if template == null then {} else {template.f.initContainers, template.f.sidecars}
      reads set p, o | p in Versions(browsers) && o in p.Lists() :: o
    {
      && Distinct(browsers) && AllApart(Versions(browsers), foreign)
      && (template != null ==> template.Valid() && Parts(template.f) !! foreign)
    }

    ghost function TemplateV(): Option<Fields>
      reads this, template
      reads if template == null then {} else Parts(template.f)
    {
      if template == null then None else Some(FieldsV(template.f))
    }

    ghost function Value(): Spec
      reads this, template
      reads if template == null then {} else Parts(template.f)
      reads Versions(browsers), set p, o | p in Versions(browsers) && o in p.Lists() :: o
      reads set p, o | p in Versions(browsers) && o in Parts(p.f) :: o
    {
      Spec(TemplateV(), BrowsersV(browsers))
    }

    // The outer loop's body: all versions of one browser.
    method MergeBrowser(name: string, ghost foreign: set<object>)
      requires template != null && name in browsers && Apart(foreign)
      modifies this, Listed(browsers[name])
      ensures template == old(template) && browsers == old(browsers) && Apart(foreign)
      ensures FieldsV(template.f) == old(FieldsV(template.f))
      ensures Progress(Versions(browsers), Listed(browsers[name]), old(FieldsV(template.f)))
    {
      hide EntriesV, EntryParts, FieldsV, MergeVersion, Parts, DistinctVersions, Listed;
      var versions := MergeListed(browsers[name], template, Versions(browsers), foreign);
      browsers := browsers[name := versions];
    }

    // The outer loop: all browsers, in any order.
    method MergeAll(ghost foreign: set<object>)
      requires template != null && Apart(foreign)
      modifies this, Versions(browsers)
      ensures template == old(template) && browsers == old(browsers) && Apart(foreign)
      ensures FieldsV(template.f) == old(FieldsV(template.f))
      ensures Progress(Versions(browsers), Versions(browsers), old(FieldsV(template.f)))
    {
      hide EntriesV, EntryParts, FieldsV, MergeVersion, Parts, DistinctVersions, Listed, AllApart;
      ghost var all, done := Versions(browsers), {};
      var names := browsers.Keys;
      while names != {}
        invariant template == old(template) && browsers == old(browsers) && Apart(foreign)
        invariant FieldsV(template.f) == old(FieldsV(template.f))
        invariant names <= browsers.Keys && done <= all
        invariant forall n :: n in browsers ==>
          if n in names then Listed(browsers[n]) !! done else Listed(browsers[n]) <= done
        invariant Progress(all, done, old(FieldsV(template.f)))
        decreases names
      {
        var name :| name in names;
        MergeBrowser(name, foreign);
        done := done + Listed(browsers[name]);
        names := names - {name};
      }
      assert done == all;
    }

    // Every version takes over what the template adds.
    method MergeWithTemplate(ghost foreign: set<object>)
      requires Apart(foreign)
      modifies this, Versions(browsers)
      ensures template == old(template) && browsers == old(browsers) && Apart(foreign)
      ensures TemplateV() == old(TemplateV()) && Value() == MergeSpec(old(Value()))
      ensures forall p :: p in Versions(browsers) ==> p.View() == MergeVersion(old(TemplateV()), old(p.View()))
    {
      hide MergeFields, FieldsV, Parts, Versions;
      ghost var before := Value();
      if template != null {
        MergeAll(foreign);
      }
      forall n, v | n in browsers && v in browsers[n]
        ensures EntryV(browsers[n][v]) == MergeEntryV(before.template, before.browsers[n][v])
      {
        EntryListed(browsers, n, v);
      }
      BrowsersMerged(browsers, before);
    }
  }
}

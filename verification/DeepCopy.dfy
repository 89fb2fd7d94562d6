// The generated deep copies: the copy means the same and shares no object with what
// was there before. `foreign` is any set of objects that exist already.
module DeepCopy {
  import opened Values
  import opened ConfigHeap
  import opened ConfigObjects

  method CopyMap(p: StrMap?) returns (r: StrMap?)
    ensures MapV(r) == old(MapV(p)) && (r != null ==> fresh(r))
  {
    if p == null {
      return null;
    }
    var result: map<string, string> := map[];
    result := Overlay(result, p.m);
    assert result == p.m;
    r := new StrMap(result);
  }

  method CopyArray<T>(a: array?<T>) returns (r: array?<T>)
    ensures ListV(r) == old(ListV(a)) && (r != null ==> fresh(r))
  {
    if a == null {
      return null;
    }
    r := ToArray(a[..]);
  }

  method CopyPtr<T>(p: Ptr?<T>) returns (r: Ptr?<T>)
    ensures PtrV(r) == old(PtrV(p)) && (r != null ==> fresh(r))
  {
    if p == null {
      return null;
    }
    r := new Ptr(p.v);
  }

  method CopyEnv(a: array?<EnvVar>) returns (r: array?<EnvVar>)
    ensures EnvV(r) == old(EnvV(a)) && (r != null ==> fresh(r))
  {
    r := CopyArray(a);
  }

  method CopySidecar(s: SidecarRef, ghost foreign: set<object>) returns (r: SidecarRef)
    ensures SidecarV(r) == old(SidecarV(s)) && SidecarParts(r) !! foreign
  {
    var command := CopyArray(s.command);
    var workingDir := CopyPtr(s.workingDir);
    var ports := CopyArray(s.ports);
    var env := CopyEnv(s.env);
    var mounts := CopyArray(s.mounts);
    var resources := CopyPtr(s.resources);
    r := SidecarRef(s.name, s.image, command, workingDir, ports, env, mounts, s.pullPolicy, resources);
  }

  // The entries of a slice under construction mean vs, and none of their parts is foreign.
  ghost predicate CopiedEntries(list: seq<SidecarRef>, vs: seq<Sidecar>, foreign: set<object>)
    reads set s, o | s in list && o in SidecarParts(s) :: o
  {
    && |list| == |vs|
    && forall k :: 0 <= k < |list| ==> SidecarV(list[k]) == vs[k] && SidecarParts(list[k]) !! foreign
  }

  method AppendCopy(list: seq<SidecarRef>, s: SidecarRef, ghost vs: seq<Sidecar>, ghost foreign: set<object>)
    returns (r: seq<SidecarRef>)
    requires CopiedEntries(list, vs, foreign)
    ensures CopiedEntries(r, vs + [old(SidecarV(s))], foreign)
  {
    hide EnvMap;
    var copy := CopySidecar(s, foreign);
    r := list + [copy];
  }

  method CopySidecars(a: array?<SidecarRef>, ghost foreign: set<object>) returns (r: array?<SidecarRef>)
    ensures Means(r, old(SidecarsV(a)))
    ensures r !in foreign && ListParts(r) !! foreign
  {
    if a == null {
      return null;
    }
    hide EntriesV, EntryParts, EnvMap;
    ghost var v := EntriesV(a[..]);
    forall k | 0 <= k < a.Length ensures v[k] == SidecarV(a[k]) { EntryAt(a, k); }
    var result: seq<SidecarRef> := [];
    for i := 0 to a.Length
      invariant |result| == i && CopiedEntries(result, v[..i], foreign)
      invariant forall k :: 0 <= k < a.Length ==> SidecarV(a[k]) == v[k]
    {
      assert v[..i + 1] == v[..i] + [v[i]];
      result := AppendCopy(result, a[i], v[..i], foreign);
    }
    assert v[..|result|] == v;
    r := ToEntries(result, v, foreign);
    MeansExact(r, Some(v));
    AvoidsAll(r[..], foreign);
  }

  ghost predicate CopiedMaps(labels: StrMap?, annotations: StrMap?, nodeSelector: StrMap?, env: array?<EnvVar>,
                             v: Fields, foreign: set<object>)
    reads labels, annotations, nodeSelector, env
  {
    && MapsMean(labels, annotations, nodeSelector, env, v)
    && labels !in foreign && annotations !in foreign && nodeSelector !in foreign && env !in foreign
  }

  ghost predicate CopiedLists(volumes: array?<Opaque>, mounts: array?<Opaque>, tolerations: array?<Opaque>,
                              hostAliases: array?<Opaque>, pullSecrets: array?<Opaque>, v: Fields, foreign: set<object>)
    reads volumes, mounts, tolerations, hostAliases, pullSecrets
  {
    && ListsMean(volumes, mounts, tolerations, hostAliases, pullSecrets, v)
    && volumes !in foreign && mounts !in foreign && tolerations !in foreign
    && hostAliases !in foreign && pullSecrets !in foreign
  }

  ghost predicate AllCopied(r: FieldRefs, v: Fields, foreign: set<object>)
    reads OwnParts(r)
  {
    && CopiedMaps(r.labels, r.annotations, r.nodeSelector, r.env, v, foreign)
    && CopiedLists(r.volumes, r.mounts, r.tolerations, r.hostAliases, r.pullSecrets, v, foreign)
    && PointersMean(r.resources, r.affinity, r.privileged, r.dns, r.security, r.workingDir, v, foreign)
    && r.pullPolicy == v.pullPolicy
  }

  method CopyMaps(f: FieldRefs, ghost v: Fields, ghost foreign: set<object>)
    returns (labels: StrMap?, annotations: StrMap?, nodeSelector: StrMap?, env: array?<EnvVar>)
    requires MapsMean(f.labels, f.annotations, f.nodeSelector, f.env, v)
    ensures CopiedMaps(labels, annotations, nodeSelector, env, v, foreign)
  {
    labels := CopyMap(f.labels);
    annotations := CopyMap(f.annotations);
    env := CopyEnv(f.env);
    nodeSelector := CopyMap(f.nodeSelector);
  }

  method CopyLists(f: FieldRefs, ghost v: Fields, ghost foreign: set<object>)
    returns (volumes: array?<Opaque>, mounts: array?<Opaque>, tolerations: array?<Opaque>,
             hostAliases: array?<Opaque>, pullSecrets: array?<Opaque>)
    requires ListsMean(f.volumes, f.mounts, f.tolerations, f.hostAliases, f.pullSecrets, v)
    ensures CopiedLists(volumes, mounts, tolerations, hostAliases, pullSecrets, v, foreign)
  {
    volumes := CopyArray(f.volumes);
    mounts := CopyArray(f.mounts);
    tolerations := CopyArray(f.tolerations);
    hostAliases := CopyArray(f.hostAliases);
    pullSecrets := CopyArray(f.pullSecrets);
  }

  method CopyPointers(f: FieldRefs, ghost v: Fields, ghost foreign: set<object>)
    returns (resources: Ptr?<Opaque>, affinity: Ptr?<Opaque>, privileged: Ptr?<bool>, dns: Ptr?<Opaque>,
             security: Ptr?<Opaque>, workingDir: Ptr?<string>)
    requires PointersMean(f.resources, f.affinity, f.privileged, f.dns, f.security, f.workingDir, v, {})
    ensures PointersMean(resources, affinity, privileged, dns, security, workingDir, v, foreign)
  {
    resources := CopyPtr(f.resources);
    affinity := CopyPtr(f.affinity);
    privileged := CopyPtr(f.privileged);
    dns := CopyPtr(f.dns);
    security := CopyPtr(f.security);
    workingDir := CopyPtr(f.workingDir);
  }

  method CopyContainers(f: FieldRefs, ghost foreign: set<object>)
    returns (inits: array?<SidecarRef>, sidecars: array?<SidecarRef>)
    ensures Means(inits, old(SidecarsV(f.initContainers))) && Means(sidecars, old(SidecarsV(f.sidecars)))
    ensures inits !in foreign && ListParts(inits) !! foreign
    ensures sidecars !in foreign && ListParts(sidecars) !! foreign
  {
    hide EntriesV, EntryParts;
    ghost var v := SidecarsV(f.sidecars);
    MeansExact(f.sidecars, v);
    inits := CopySidecars(f.initContainers, foreign);
    MeansExact(f.sidecars, v);
    sidecars := CopySidecars(f.sidecars, foreign);
  }

  lemma Reassembled(r: FieldRefs, v: Fields, foreign: set<object>)
    requires AllCopied(r, v, foreign)
    requires SidecarsV(r.initContainers) == v.initContainers && SidecarsV(r.sidecars) == v.sidecars
    requires r.initContainers !in foreign && ListParts(r.initContainers) !! foreign
    requires r.sidecars !in foreign && ListParts(r.sidecars) !! foreign
    ensures FieldsV(r) == v && Parts(r) !! foreign
  {
  }

  method CopyPlain(f: FieldRefs, inits: array?<SidecarRef>, sidecars: array?<SidecarRef>,
                   ghost v: Fields, ghost foreign: set<object>) returns (r: FieldRefs)
    requires MapsMean(f.labels, f.annotations, f.nodeSelector, f.env, v)
    requires ListsMean(f.volumes, f.mounts, f.tolerations, f.hostAliases, f.pullSecrets, v)
    requires PointersMean(f.resources, f.affinity, f.privileged, f.dns, f.security, f.workingDir, v, {})
    requires f.pullPolicy == v.pullPolicy
    ensures AllCopied(r, v, foreign) && r.initContainers == inits && r.sidecars == sidecars
  {
    hide MapsMean, ListsMean, PointersMean, CopiedMaps, CopiedLists;
    var labels, annotations, nodeSelector, env := CopyMaps(f, v, foreign);
    var volumes, mounts, tolerations, hostAliases, pullSecrets := CopyLists(f, v, foreign);
    var resources, affinity, privileged, dns, security, workingDir := CopyPointers(f, v, foreign);
    r := FieldRefs(labels, annotations, env, resources, f.pullPolicy, volumes, mounts, nodeSelector, affinity,
                   tolerations, hostAliases, inits, sidecars, privileged, pullSecrets, dns, security, workingDir);
  }

  method CopyFields(f: FieldRefs, ghost foreign: set<object>) returns (r: FieldRefs)
    ensures FieldsV(r) == old(FieldsV(f)) && Parts(r) !! foreign
  {
    hide FieldsV, MapsMean, ListsMean, PointersMean, AllCopied, EntriesV, EntryParts, ListParts;
    ghost var v := FieldsV(f);
    FieldsSplit(f, {});
    ListsOf(f, {});
    var inits, sidecars := CopyContainers(f, foreign);
    r := CopyPlain(f, inits, sidecars, v, foreign);
    MeansExact(inits, v.initContainers);
    MeansExact(sidecars, v.sidecars);
    Reassembled(r, v, foreign);
  }

  method CopyVersion(v: VersionObj, ghost foreign: set<object>) returns (r: VersionObj)
    requires v.Valid()
    ensures fresh(r) && r.ApartFrom(foreign) && r.View() == old(v.View())
  {
    hide FieldsV, ListParts;
    var f := CopyFields(v.f, foreign);
    r := new VersionObj(v.image, f);
  }

  // Copies an entry, which may be nil. The versions in `kept` and the copies made before
  // stay what they are.
  method CopyEntry(p: VersionObj?, ghost kept: set<VersionObj>, ghost copies: set<VersionObj>,
                   ghost foreign: set<object>)
    returns (r: VersionObj?)
    requires AllApart(kept, {}) && AllApart(copies, foreign) && (p != null ==> p in kept)
    ensures r == null <==> p == null
    ensures r != null ==> fresh(r) && r.ApartFrom(foreign) && r.View() == old(p.View())
    ensures AllApart(kept, {}) && forall q :: q in kept ==> q.View() == old(q.View())
    ensures AllApart(copies, foreign) && forall q :: q in copies ==> q.View() == old(q.View())
  {
    hide EntriesV, EntryParts, FieldsV;
    if p == null {
      return null;
    }
    r := CopyVersion(p, foreign);
  }

  lemma ListedPut(versions: map<string, VersionObj?>, v: string, p: VersionObj?)
    requires v !in versions
    ensures Listed(versions[v := p]) == Listed(versions) + if p == null then {} else {p}
  {
    var after := versions[v := p];
    assert forall w :: w in versions ==> w in after && after[w] == versions[w];
    assert p != null ==> after[v] in Listed(after);
  }

  lemma VersionsPut(browsers: Browsers, n: string, versions: map<string, VersionObj?>)
    requires n !in browsers
    ensures Versions(browsers[n := versions]) == Versions(browsers) + Listed(versions)
  {
    hide Listed;
    var after := browsers[n := versions];
    assert forall m :: m in browsers ==> m in after && after[m] == browsers[m];
    assert after[n] == versions;
  }

  // The inner loop: the versions of one browser, in any order.
  method CopyVersions(versions: map<string, VersionObj?>, ghost kept: set<VersionObj>, ghost earlier: set<VersionObj>,
                      ghost foreign: set<object>)
    returns (result: map<string, VersionObj?>)
    requires Listed(versions) <= kept && AllApart(kept, {}) && AllApart(earlier, foreign)
    ensures result.Keys == versions.Keys && DistinctVersions(result)
    ensures fresh(Listed(result)) && AllApart(earlier + Listed(result), foreign)
    ensures forall v :: v in versions ==> (result[v] == null <==> versions[v] == null)
    ensures forall v :: v in versions && result[v] != null ==> result[v].View() == old(versions[v].View())
    ensures AllApart(kept, {}) && forall q :: q in kept ==> q.View() == old(q.View())
    ensures forall q :: q in earlier ==> q.View() == old(q.View())
  {
    hide EntriesV, EntryParts, FieldsV, Parts;
    result := map[];
    ghost var copies: set<VersionObj> := {};
    var rest := versions.Keys;
    while rest != {}
      invariant rest <= versions.Keys && result.Keys == versions.Keys - rest && DistinctVersions(result)
      invariant AllApart(kept, {}) && forall q :: q in kept ==> q.View() == old(q.View())
      invariant AllApart(earlier + copies, foreign) && forall q :: q in earlier ==> q.View() == old(q.View())
      invariant fresh(copies) && copies == Listed(result)
      invariant forall v :: v in result ==> (result[v] == null <==> versions[v] == null)
      invariant forall v :: v in result && result[v] != null ==>
        result[v] in copies && result[v].View() == old(versions[v].View())
      decreases rest
    {
      var v :| v in rest;
      assert versions[v] != null ==> versions[v] in Listed(versions);
      var copy := CopyEntry(versions[v], kept, earlier + copies, foreign);
      ListedPut(result, v, copy);
      result := result[v := copy];
      copies := copies + if copy == null then {} else {copy};
      rest := rest - {v};
    }
  }

  // The outer loop: every browser, in any order.
  method CopyBrowsers(browsers: Browsers, ghost foreign: set<object>) returns (result: Browsers)
    requires AllApart(Versions(browsers), {})
    ensures result.Keys == browsers.Keys && Distinct(result)
    ensures fresh(Versions(result)) && AllApart(Versions(result), foreign)
    ensures forall n :: n in browsers ==> result[n].Keys == browsers[n].Keys
    ensures forall n, v :: n in browsers && v in browsers[n] ==>
      && (result[n][v] == null <==> browsers[n][v] == null)
      && (result[n][v] != null ==> result[n][v].View() == old(browsers[n][v].View()))
  {
    hide EntriesV, EntryParts, FieldsV, Parts, DistinctVersions;
    result := map[];
    ghost var kept, copies: set<VersionObj> := Versions(browsers), {};
    var rest := browsers.Keys;
    while rest != {}
      invariant rest <= browsers.Keys && result.Keys == browsers.Keys - rest && Distinct(result)
      invariant AllApart(kept, {}) && forall q :: q in kept ==> q.View() == old(q.View())
      invariant AllApart(copies, foreign) && fresh(copies) && copies == Versions(result)
      invariant forall n :: n in result ==> result[n].Keys == browsers[n].Keys
      invariant forall n, v :: n in result && v in result[n] ==>
        && (result[n][v] == null <==> browsers[n][v] == null)
        && (result[n][v] != null ==> result[n][v] in copies && result[n][v].View() == old(browsers[n][v].View()))
      decreases rest
    {
      var n :| n in rest;
      var versions := CopyVersions(browsers[n], kept, copies, foreign);
      VersionsPut(result, n, versions);
      result := result[n := versions];
      copies := copies + Listed(versions);
      rest := rest - {n};
    }
  }

  lemma BrowsersCopied(browsers: Browsers, before: map<string, map<string, Option<Version>>>)
    requires browsers.Keys == before.Keys
    requires forall n :: n in browsers ==> browsers[n].Keys == before[n].Keys
    requires forall n, v :: n in browsers && v in browsers[n] ==> EntryV(browsers[n][v]) == before[n][v]
    ensures BrowsersV(browsers) == before
  {
    hide Listed;
    forall n | n in browsers ensures VersionsV(browsers[n]) == before[n] {
    }
  }

  method CopyTemplate(t: TemplateObj?, ghost browsers: Browsers, ghost foreign: set<object>) returns (r: TemplateObj?)
    requires (t != null ==> t.Valid()) && AllApart(Versions(browsers), {})
    ensures r == null <==> t == null
    ensures r != null ==> fresh(r) && r.Valid() && Parts(r.f) !! foreign && FieldsV(r.f) == old(FieldsV(t.f))
    ensures AllApart(Versions(browsers), {}) && BrowsersV(browsers) == old(BrowsersV(browsers))
  {
    hide EntriesV, EntryParts, FieldsV, DistinctVersions;
    ghost var before := BrowsersV(browsers);
    if t == null {
      return null;
    }
    var f := CopyFields(t.f, foreign);
    r := new TemplateObj(f);
    forall n, v | n in browsers && v in browsers[n] ensures EntryV(browsers[n][v]) == before[n][v] {
      EntryListed(browsers, n, v);
    }
    BrowsersCopied(browsers, before);
  }

  method NewSpec(template: TemplateObj?, browsers: Browsers, ghost foreign: set<object>) returns (r: SpecObj)
    requires Distinct(browsers) && AllApart(Versions(browsers), foreign)
    requires template != null ==> template.Valid() && Parts(template.f) !! foreign
    ensures fresh(r) && r.template == template && r.browsers == browsers && r.Apart(foreign)
    ensures r.TemplateV() == old(if template == null then None else Some(FieldsV(template.f)))
    ensures BrowsersV(browsers) == old(BrowsersV(browsers))
  {
    hide EntriesV, EntryParts, FieldsV, DistinctVersions;
    ghost var before := BrowsersV(browsers);
    r := new SpecObj(template, browsers);
    forall n, v | n in browsers && v in browsers[n] ensures EntryV(browsers[n][v]) == before[n][v] {
      EntryListed(browsers, n, v);
    }
    BrowsersCopied(browsers, before);
  }

  // CopyBrowsers, beside a template: what that means stays.
  method CopyBrowsersBeside(t: TemplateObj?, browsers: Browsers, ghost foreign: set<object>) returns (result: Browsers)
    requires AllApart(Versions(browsers), {})
    requires t != null ==> t.Valid() && Parts(t.f) !! foreign
    ensures t != null ==> t.Valid() && Parts(t.f) !! foreign && t.f == old(t.f) && FieldsV(t.f) == old(FieldsV(t.f))
    ensures fresh(Versions(result)) && Distinct(result) && AllApart(Versions(result), foreign)
    ensures BrowsersV(result) == old(BrowsersV(browsers))
  {
    hide EntriesV, EntryParts, FieldsV, DistinctVersions, Distinct, AllApart, Listed;
    ghost var before := BrowsersV(browsers);
    result := CopyBrowsers(browsers, foreign);
    BrowsersCopied(result, before);
  }

  // DeepCopy of a specification: an equal one, all of whose objects are new.
  method CopySpec(spec: SpecObj, ghost foreign: set<object>) returns (r: SpecObj)
    requires AllApart(Versions(spec.browsers), {}) && (spec.template != null ==> spec.template.Valid())
    ensures fresh(r) && fresh(Versions(r.browsers)) && (r.template != null ==> fresh(r.template))
    ensures r.Apart(foreign) && r.Value() == old(spec.Value())
  {
    hide EntriesV, EntryParts, FieldsV, Versions, DistinctVersions, Parts, AllApart, Listed;
    var template := CopyTemplate(spec.template, spec.browsers, foreign);
    var browsers := CopyBrowsersBeside(template, spec.browsers, foreign);
    r := NewSpec(template, browsers, foreign);
  }
}

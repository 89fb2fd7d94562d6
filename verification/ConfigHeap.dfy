// The configuration objects as the program holds them: records of pointers, shared
// between the template and the versions once they are merged. A pointer to a slice is
// an array reference, a pointer to a map a StrMap, any other pointer a Ptr.
module ConfigHeap {
  import opened Values
  import opened ConfigMerge

  class StrMap {
    var m: map<string, string>

    constructor (m: map<string, string>)
      ensures this.m == m
    {
      this.m := m;
    }
  }

  class Ptr<T> {
    var v: T

    constructor (v: T)
      ensures this.v == v
    {
      this.v := v;
    }
  }

  datatype SidecarRef = SidecarRef(
    name: string,
    image: string,
    command: array?<string>,
    workingDir: Ptr?<string>,
    ports: array?<ContainerPort>,
    env: array?<EnvVar>,
    mounts: array?<Opaque>,
    pullPolicy: string,
    resources: Ptr?<Opaque>)

  datatype FieldRefs = FieldRefs(
    labels: StrMap?,
    annotations: StrMap?,
    env: array?<EnvVar>,
    resources: Ptr?<Opaque>,
    pullPolicy: string,
    volumes: array?<Opaque>,
    mounts: array?<Opaque>,
    nodeSelector: StrMap?,
    affinity: Ptr?<Opaque>,
    tolerations: array?<Opaque>,
    hostAliases: array?<Opaque>,
    initContainers: array?<SidecarRef>,
    sidecars: array?<SidecarRef>,
    privileged: Ptr?<bool>,
    pullSecrets: array?<Opaque>,
    dns: Ptr?<Opaque>,
    security: Ptr?<Opaque>,
    workingDir: Ptr?<string>)

  // ----- what the objects mean ----------------------------------------------------

  ghost function MapV(p: StrMap?): Option<map<string, string>>
    reads p
  {
    if p == null then None else Some(p.m)
  }

  ghost function ListV<T>(a: array?<T>): Option<seq<T>>
    reads a
  {
    if a == null then None else Some(a[..])
  }

  ghost function PtrV<T>(p: Ptr?<T>): Option<T>
    reads p
  {
    if p == null then None else Some(p.v)
  }

  // A list of variables read by name: the last one of a name counts.
  function EnvMap(s: seq<EnvVar>): map<string, EnvVar> {
    if s == [] then map[] else EnvMap(s[..|s| - 1])[s[|s| - 1].name := s[|s| - 1]]
  }

  ghost function EnvV(a: array?<EnvVar>): Option<map<string, EnvVar>>
    reads a
  {
    if a == null then None else Some(EnvMap(a[..]))
  }

  ghost function SidecarParts(s: SidecarRef): set<object?> {
    {s.command, s.workingDir, s.ports, s.env, s.mounts, s.resources}
  }

  ghost function SidecarV(s: SidecarRef): Sidecar
    reads SidecarParts(s)
  {
    Sidecar(s.name, s.image, ListV(s.command), PtrV(s.workingDir), ListV(s.ports), EnvV(s.env),
            ListV(s.mounts), s.pullPolicy, PtrV(s.resources))
  }

  ghost function EntryParts(ss: seq<SidecarRef>): (r: set<object?>)
    ensures forall i :: 0 <= i < |ss| ==> SidecarParts(ss[i]) <= r
  {
    if ss == [] then {} else EntryParts(ss[..|ss| - 1]) + SidecarParts(ss[|ss| - 1])
  }

  ghost function EntriesV(ss: seq<SidecarRef>): (r: seq<Sidecar>)
    reads EntryParts(ss)
    ensures |r| == |ss|
    ensures forall i :: 0 <= i < |ss| ==> r[i] == SidecarV(ss[i])
  {
    if ss == [] then [] else EntriesV(ss[..|ss| - 1]) + [SidecarV(ss[|ss| - 1])]
  }

  ghost function ListParts(a: array?<SidecarRef>): set<object?>
    reads a
  {
    if a == null then {} else EntryParts(a[..])
  }

  ghost function SidecarsV(a: array?<SidecarRef>): Option<seq<Sidecar>>
    reads a, ListParts(a)
  {
    if a == null then None else Some(EntriesV(a[..]))
  }

  ghost function Parts(f: FieldRefs): set<object?>
    reads f.initContainers, f.sidecars
  {
    {f.labels, f.annotations, f.env, f.resources, f.volumes, f.mounts, f.nodeSelector, f.affinity, f.tolerations,
     f.hostAliases, f.initContainers, f.sidecars, f.privileged, f.pullSecrets, f.dns, f.security, f.workingDir}
    + ListParts(f.initContainers) + ListParts(f.sidecars)
  }

  ghost function FieldsV(f: FieldRefs): Fields
    reads Parts(f)
  {
    Fields(MapV(f.labels), MapV(f.annotations), EnvV(f.env), PtrV(f.resources), f.pullPolicy, ListV(f.volumes),
           ListV(f.mounts), MapV(f.nodeSelector), PtrV(f.affinity), ListV(f.tolerations), ListV(f.hostAliases),
           SidecarsV(f.initContainers), SidecarsV(f.sidecars), PtrV(f.privileged), ListV(f.pullSecrets),
           PtrV(f.dns), PtrV(f.security), PtrV(f.workingDir))
  }

  // ----- the helpers of the merge -----------------------------------------------------

  // Writes every pair of `over` into a copy of `base`, in any order.
  method Overlay<V>(base: map<string, V>, over: map<string, V>) returns (result: map<string, V>)
    ensures result == base + over
  {
    result := base;
    var rest := over.Keys;
    while rest != {}
      invariant rest <= over.Keys
      invariant result == base + (map k | k in over && k !in rest :: over[k])
      decreases rest
    {
      var k :| k in rest;
      result := result[k := over[k]];
      rest := rest - {k};
    }
    assert over == map k | k in over && k !in rest :: over[k];
  }

  method MergeMapPtr(template: StrMap?, override: StrMap?) returns (r: StrMap?)
    ensures MapV(r) == MergeMap(old(MapV(template)), old(MapV(override)))
    ensures r != null ==> fresh(r)
  {
    if template == null && override == null {
      return null;
    }
    var result := map[];
    if template != null {
      result := Overlay(result, template.m);
    }
    if override != null {
      result := Overlay(result, override.m);
    }
    assert result == MapV(template).GetOr(map[]) + MapV(override).GetOr(map[]);
    r := new StrMap(result);
  }

  // Adds a list of variables to a table of them, later ones replacing earlier ones.
  method Index(table: map<string, EnvVar>, envs: array<EnvVar>) returns (result: map<string, EnvVar>)
    ensures result == table + EnvMap(envs[..])
  {
    result := table;
    for i := 0 to envs.Length
      invariant result == table + EnvMap(envs[..i])
    {
      assert envs[..i + 1][..i] == envs[..i];
      result := result[envs[i].name := envs[i]];
    }
    assert envs[..envs.Length] == envs[..];
  }

  // Lists the values of a table, in any order.
  method Listing(table: map<string, EnvVar>) returns (merged: seq<EnvVar>)
    requires forall k :: k in table ==> table[k].name == k
    ensures EnvMap(merged) == table && |merged| == |table|
  {
    merged := [];
    var rest := table.Keys;
    while rest != {}
      invariant rest <= table.Keys && |merged| + |rest| == |table.Keys|
      invariant EnvMap(merged) == map k | k in table && k !in rest :: table[k]
      decreases rest
    {
      var k :| k in rest;
      assert (merged + [table[k]])[..|merged|] == merged;
      merged := merged + [table[k]];
      rest := rest - {k};
    }
    assert table == map k | k in table && k !in rest :: table[k];
  }

  lemma {:induction false} EnvMapNames(s: seq<EnvVar>)
    ensures forall k :: k in EnvMap(s) ==> EnvMap(s)[k].name == k
  {
    if s != [] {
      EnvMapNames(s[..|s| - 1]);
    }
  }

  method ToArray<T>(s: seq<T>) returns (a: array<T>)
    ensures a[..] == s && fresh(a)
  {
    a := new T[|s|](i requires 0 <= i < |s| => s[i]);
  }

  method MergeEnvPtr(template: array?<EnvVar>, override: array?<EnvVar>) returns (r: array?<EnvVar>)
    ensures EnvV(r) == MergeMap(old(EnvV(template)), old(EnvV(override)))
    ensures r != null ==> fresh(r) && |EnvMap(r[..])| == r.Length
  {
    if template == null && override == null {
      return null;
    }
    var result := map[];
    if template != null {
      result := Index(result, template);
      EnvMapNames(template[..]);
    }
    if override != null {
      result := Index(result, override);
      EnvMapNames(override[..]);
    }
    assert result == EnvV(template).GetOr(map[]) + EnvV(override).GetOr(map[]);
    var merged := Listing(result);
    r := ToArray(merged);
  }

  // mergeVolumePtr and its six likes.
  method Append<T>(first: array?<T>, second: array?<T>) returns (r: array?<T>)
    ensures ListV(r) == MergeList(old(ListV(first)), old(ListV(second)))
    ensures r != null ==> fresh(r)
  {
    var result: seq<T> := [];
    if first != null {
      result := result + first[..];
    }
    if second != null {
      result := result + second[..];
    }
    assert result == ListV(first).GetOr([]) + ListV(second).GetOr([]);
    if |result| == 0 {
      return null;
    }
    r := ToArray(result);
  }

  // ----- containers ------------------------------------------------------------------

  // Sidecar.mergeWithTemplate on a copy of the entry.
  method MergeWithEntry(s: SidecarRef, t: SidecarRef, ghost foreign: set<object>) returns (r: SidecarRef)
    requires SidecarParts(s) !! foreign && SidecarParts(t) !! foreign
    ensures SidecarV(r) == MergeEntry(old(SidecarV(t)), old(SidecarV(s)))
    ensures SidecarParts(r) !! foreign
  {
    hide EnvMap, MergeMap, MergeList;
    var env := MergeEnvPtr(t.env, s.env);
    var ports := Append(t.ports, s.ports);
    var mounts := Append(t.mounts, s.mounts);
    r := SidecarRef(s.name, s.image, if s.command == null then t.command else s.command, t.workingDir,
                    ports, env, mounts, s.pullPolicy, if s.resources == null then t.resources else s.resources);
  }

  lemma UnclashingAppend(vs: seq<Sidecar>, v: Sidecar, taken: seq<Sidecar>)
    ensures Unclashing(vs + [v], taken) == Unclashing(vs, taken) + if Named(taken, v.name) then [] else [v]
  {
    assert (vs + [v])[..|vs|] == vs;
  }

  // The entries of `override`, then the entries of `template` under other names.
  method CombineEntries(template: array<SidecarRef>, override: array<SidecarRef>, ghost foreign: set<object>)
    returns (result: seq<SidecarRef>)
    requires EntryParts(template[..]) !! foreign && EntryParts(override[..]) !! foreign
    ensures EntriesV(result) ==
      old(EntriesV(override[..])) + Unclashing(old(EntriesV(template[..])), old(EntriesV(override[..])))
    ensures forall k :: 0 <= k < |result| ==> SidecarParts(result[k]) !! foreign
  {
    hide EntriesV, EntryParts, Unclashing, SidecarParts;
    ghost var own, tv := EntriesV(override[..]), EntriesV(template[..]);
    forall k | 0 <= k < override.Length
        ensures own[k] == SidecarV(override[k]) && SidecarParts(override[k]) !! foreign {
      EntryAt(override, k);
    }
    forall k | 0 <= k < template.Length ensures tv[k] == SidecarV(template[k]) && SidecarParts(template[k]) !! foreign {
      EntryAt(template, k);
    }
    var names: set<string> := {};
    for i := 0 to override.Length
      invariant forall x :: x in names <==> exists k :: 0 <= k < i && own[k].name == x
    {
      names := names + {override[i].name};
    }
    result := override[..];
    ghost var rv := own;
    NoEntries(own);
    for i := 0 to template.Length
      invariant rv == own + Unclashing(tv[..i], own)
      invariant |rv| == |result|
      invariant forall k :: 0 <= k < |result| ==> SidecarV(result[k]) == rv[k] && SidecarParts(result[k]) !! foreign
    {
      assert tv[..i + 1] == tv[..i] + [tv[i]];
      UnclashingAppend(tv[..i], tv[i], own);
      if template[i].name !in names {
        result := result + [template[i]];
        rv := rv + [tv[i]];
      }
    }
    assert tv[..template.Length] == tv;
    assert EntriesV(result) == rv;
  }

  lemma NoEntries(own: seq<Sidecar>)
    ensures EntriesV([]) == [] && Unclashing([], own) == []
  {
  }

  // The three cases of a missing list.
  method Combined(template: array?<SidecarRef>, override: array?<SidecarRef>, ghost foreign: set<object>)
    returns (result: seq<SidecarRef>)
    requires template != null || override != null
    requires ListParts(template) !! foreign && ListParts(override) !! foreign
    ensures Some(EntriesV(result)) == Combine(old(SidecarsV(template)), old(SidecarsV(override)))
    ensures forall k :: 0 <= k < |result| ==> SidecarParts(result[k]) !! foreign
  {
    hide EntriesV, EntryParts, SidecarParts, Unclashing;
    if override == null {
      result := template[..];
      ghost var tv := EntriesV(template[..]);
      assert [] + tv == tv;
      assert Combine(Some(tv), None) == Some(tv);
    } else if template == null {
      result := override[..];
      ghost var own := EntriesV(override[..]);
      NoEntries(own);
      assert own + [] == own;
      assert Combine(None, Some(own)) == Some(own);
    } else {
      ghost var own, tv := EntriesV(override[..]), EntriesV(template[..]);
      result := CombineEntries(template, override, foreign);
      assert Combine(Some(tv), Some(own)) == Some(own + Unclashing(tv, own));
    }
  }

  // A new slice of entries.
  method ToEntries(result: seq<SidecarRef>, ghost vs: seq<Sidecar>, ghost foreign: set<object>)
    returns (r: array<SidecarRef>)
    requires |result| == |vs|
    requires forall k :: 0 <= k < |result| ==> SidecarV(result[k]) == vs[k] && SidecarParts(result[k]) !! foreign
    ensures fresh(r) && SidecarsV(r) == Some(vs)
    ensures forall k :: 0 <= k < r.Length ==> SidecarParts(r[k]) !! foreign
  {
    hide EntriesV, EntryParts, EnvMap;
    r := ToArray(result);
    assert forall k :: 0 <= k < r.Length ==> r[k] == r[..][k];
    EntriesAre(r, vs);
  }

  method MergeSidecarPtr(template: array?<SidecarRef>, override: array?<SidecarRef>, ghost foreign: set<object>)
    returns (r: array?<SidecarRef>)
    requires ListParts(template) !! foreign && ListParts(override) !! foreign
    ensures SidecarsV(r) == Combine(old(SidecarsV(template)), old(SidecarsV(override)))
    ensures r != null ==> fresh(r) && forall k :: 0 <= k < r.Length ==> SidecarParts(r[k]) !! foreign
  {
    if template == null && override == null {
      return null;
    }
    hide EntriesV, EntryParts, SidecarParts, SidecarV, Combine;
    var result := Combined(template, override, foreign);
    r := ToEntries(result, EntriesV(result), foreign);
  }

  // If the version used the name: the place of the first template entry of that name.
  // Otherwise, or if there is none, the length of the template's list.
  method FindClash(name: string, originals: array<SidecarRef>, templates: array<SidecarRef>) returns (k: nat)
    ensures k <= templates.Length
    ensures k < templates.Length ==>
      && Named(old(EntriesV(originals[..])), name)
      && FirstNamed(old(EntriesV(templates[..])), name) == Some(old(SidecarV(templates[k])))
    ensures k == templates.Length ==>
      !Named(old(EntriesV(originals[..])), name) || FirstNamed(old(EntriesV(templates[..])), name).None?
  {
    hide EntriesV;
    ghost var own, tmpl := EntriesV(originals[..]), EntriesV(templates[..]);
    var j := 0;
    while j < originals.Length && originals[j].name != name
      invariant j <= originals.Length && forall m :: 0 <= m < j ==> own[m].name != name
    {
      assert own[j] == SidecarV(originals[..][j]);
      j := j + 1;
    }
    if j == originals.Length {
      return templates.Length;
    }
    assert own[j] == SidecarV(originals[..][j]);
    k := 0;
    while k < templates.Length && templates[k].name != name
      invariant k <= templates.Length && FirstNamed(tmpl, name) == FirstNamed(tmpl[k..], name)
    {
      assert tmpl[k] == SidecarV(templates[..][k]);
      k := k + 1;
    }
    assert k < templates.Length ==> tmpl[k] == SidecarV(templates[..][k]);
  }

  // The entry s, merged with the first template entry of its name if the version used
  // that name.
  method ResolvedEntry(s: SidecarRef, originals: array<SidecarRef>, templates: array<SidecarRef>,
                       ghost foreign: set<object>)
    returns (x: SidecarRef)
    requires SidecarParts(s) !! foreign && EntryParts(templates[..]) !! foreign
    ensures SidecarV(x) == ResolveEntry(old(SidecarV(s)), old(EntriesV(originals[..])), old(EntriesV(templates[..])))
    ensures SidecarParts(x) !! foreign
  {
    hide EntriesV, EntryParts, FirstNamed, MergeEntry, SidecarParts, Named;
    x := s;
    var k := FindClash(s.name, originals, templates);
    if k < templates.Length {
      assert templates[k] == templates[..][k];
      x := MergeWithEntry(s, templates[k], foreign);
    }
  }

  lemma EntriesAre(a: array<SidecarRef>, vs: seq<Sidecar>)
    requires a.Length == |vs| && forall k :: 0 <= k < a.Length ==> SidecarV(a[k]) == vs[k]
    ensures EntriesV(a[..]) == vs
  {
    hide EntriesV;
    assert forall k :: 0 <= k < a.Length ==> EntriesV(a[..])[k] == SidecarV(a[..][k]);
  }

  lemma EntryAt(a: array<SidecarRef>, k: nat)
    requires k < a.Length
    ensures EntriesV(a[..])[k] == SidecarV(a[k]) && SidecarParts(a[k]) <= EntryParts(a[..])
  {
    assert a[..][k] == a[k];
  }

  // One assignment to the slice: what its other entries and the two lists mean stays.
  method Assign(r: array<SidecarRef>, i: nat, x: SidecarRef, originals: array<SidecarRef>, templates: array<SidecarRef>)
    requires i < r.Length && r != originals && r != templates
    modifies r
    ensures r[i] == x && SidecarV(x) == old(SidecarV(x))
    ensures forall k :: 0 <= k < r.Length && k != i ==> r[k] == old(r[k]) && SidecarV(r[k]) == old(SidecarV(r[k]))
    ensures forall k :: 0 <= k < originals.Length ==> SidecarV(originals[k]) == old(SidecarV(originals[k]))
    ensures forall k :: 0 <= k < templates.Length ==> SidecarV(templates[k]) == old(SidecarV(templates[k]))
  {
    r[i] := x;
  }

  // Resolves entry i of the slice.
  method ResolveAt(r: array<SidecarRef>, i: nat, originals: array<SidecarRef>, templates: array<SidecarRef>,
                   ghost own: seq<Sidecar>, ghost tmpl: seq<Sidecar>, ghost foreign: set<object>)
    requires i < r.Length && r != originals && r != templates
    requires own == EntriesV(originals[..]) && tmpl == EntriesV(templates[..])
    requires SidecarParts(r[i]) !! foreign && EntryParts(templates[..]) !! foreign
    modifies r
    ensures SidecarV(r[i]) == ResolveEntry(old(SidecarV(r[i])), own, tmpl) && SidecarParts(r[i]) !! foreign
    ensures forall k :: 0 <= k < r.Length && k != i ==> r[k] == old(r[k]) && SidecarV(r[k]) == old(SidecarV(r[k]))
    ensures EntriesV(originals[..]) == own && EntriesV(templates[..]) == tmpl
  {
    hide EntriesV, EntryParts, ResolveEntry;
    forall k | 0 <= k < originals.Length ensures own[k] == SidecarV(originals[k]) { EntryAt(originals, k); }
    forall k | 0 <= k < templates.Length ensures tmpl[k] == SidecarV(templates[k]) { EntryAt(templates, k); }
    var x := ResolvedEntry(r[i], originals, templates, foreign);
    Assign(r, i, x, originals, templates);
    EntriesAre(originals, own);
    EntriesAre(templates, tmpl);
  }

  // Merges every entry of r whose name the version used with the first template entry of
  // that name, in place.
  method ResolveClashes(r: array<SidecarRef>, originals: array<SidecarRef>, templates: array<SidecarRef>,
                        ghost foreign: set<object>)
    requires r != originals && r != templates
    requires forall k :: 0 <= k < r.Length ==> SidecarParts(r[k]) !! foreign
    requires EntryParts(templates[..]) !! foreign
    modifies r
    ensures Some(EntriesV(r[..])) ==
      Resolve(Some(old(EntriesV(r[..]))), Some(old(EntriesV(originals[..]))), Some(old(EntriesV(templates[..]))))
    ensures forall k :: 0 <= k < r.Length ==> SidecarParts(r[k]) !! foreign
  {
    hide EntriesV, EntryParts, ResolveEntry;
    ghost var before, own, tmpl := EntriesV(r[..]), EntriesV(originals[..]), EntriesV(templates[..]);
    forall k | 0 <= k < r.Length ensures before[k] == SidecarV(r[k]) { EntryAt(r, k); }
    ghost var after := Resolve(Some(before), Some(own), Some(tmpl)).value;
    for i := 0 to r.Length
      invariant EntriesV(originals[..]) == own && EntriesV(templates[..]) == tmpl
      invariant forall k :: 0 <= k < r.Length ==> SidecarV(r[k]) == if k < i then after[k] else before[k]
      invariant forall k :: 0 <= k < r.Length ==> SidecarParts(r[k]) !! foreign
    {
      ResolveAt(r, i, originals, templates, own, tmpl, foreign);
    }
    EntriesAre(r, after);
  }
}

// What the merge of a version with its template gives, setting by setting.
module MergeFacts {
  import opened Values
  import opened ConfigMerge

  function ValueAt<V>(m: Option<map<string, V>>, name: string): Option<V> {
    if m.Some? && name in m.value then Some(m.value[name]) else None
  }

  // r is the first of the sources that is set, if any is.
  predicate Wins<T(==)>(r: Option<T>, sources: seq<Option<T>>) {
    || (r.None? && forall i :: 0 <= i < |sources| ==> sources[i].None?)
    || (r.Some? && exists i :: 0 <= i < |sources| && sources[i] == r && forall j :: 0 <= j < i ==> sources[j].None?)
  }

  lemma WinsOfTwo<T>(r: Option<T>, own: Option<T>, template: Option<T>)
    ensures Wins(r, [own, template]) <==> r == if own.Some? then own else template
  {
    var sources := [own, template];
    assert sources[0] == own && sources[1] == template;
  }

  lemma WinsOfThree<T>(r: Option<T>, a: Option<T>, b: Option<T>, c: Option<T>)
    ensures Wins(r, [a, b, c]) <==> r == if a.Some? then a else if b.Some? then b else c
  {
    var sources := [a, b, c];
    assert sources[0] == a && sources[1] == b && sources[2] == c;
  }

  lemma WinsOfFour<T>(r: Option<T>, a: Option<T>, b: Option<T>, c: Option<T>, d: Option<T>)
    ensures Wins(r, [a, b, c, d]) <==> r == if a.Some? then a else if b.Some? then b else if c.Some? then c else d
  {
    var sources := [a, b, c, d];
    assert sources[0] == a && sources[1] == b && sources[2] == c && sources[3] == d;
  }

  // ----- settings that two sides have in common -----------------------------------------

  ghost predicate MapsMerged<V>(r: Option<map<string, V>>, own: Option<map<string, V>>,
                                template: Option<map<string, V>>) {
    && (r.None? <==> own.None? && template.None?)
    && forall k :: Wins(ValueAt(r, k), [ValueAt(own, k), ValueAt(template, k)])
  }

  predicate ListsMerged<T(==)>(r: Option<seq<T>>, first: Option<seq<T>>, second: Option<seq<T>>) {
    r.GetOr([]) == first.GetOr([]) + second.GetOr([])
  }

  lemma MapMerged<V>(template: Option<map<string, V>>, own: Option<map<string, V>>)
    ensures MapsMerged(MergeMap(template, own), own, template)
  {
    var r := MergeMap(template, own);
    forall k ensures Wins(ValueAt(r, k), [ValueAt(own, k), ValueAt(template, k)]) {
      WinsOfTwo(ValueAt(r, k), ValueAt(own, k), ValueAt(template, k));
    }
  }

  lemma ListMerged<T>(first: Option<seq<T>>, second: Option<seq<T>>)
    ensures ListsMerged(MergeList(first, second), first, second) && MergeList(first, second) != Some([])
  {
  }

  lemma OwnWins<T>(own: Option<T>, template: Option<T>)
    ensures Wins(OwnOr(own, template), [own, template])
  {
    WinsOfTwo(OwnOr(own, template), own, template);
  }

  // ----- sidecars and init containers -----------------------------------------------------

  // What an entry becomes that is merged with a template entry: its own settings win, but
  // for the working directory; ports and mounts are added to the template's.
  ghost predicate EntryMerged(r: Sidecar, own: Sidecar, template: Sidecar) {
    && r.name == own.name && r.image == own.image && r.pullPolicy == own.pullPolicy
    && Wins(r.command, [own.command, template.command])
    && Wins(r.resources, [own.resources, template.resources])
    && r.workingDir == template.workingDir
    && MapsMerged(r.env, own.env, template.env)
    && ListsMerged(r.ports, template.ports, own.ports)
    && ListsMerged(r.mounts, template.mounts, own.mounts)
  }

  lemma EntryByField(template: Sidecar, own: Sidecar)
    ensures EntryMerged(MergeEntry(template, own), own, template)
  {
    hide MergeMap, MergeList, OwnOr, MapsMerged, ListsMerged, Wins;
    OwnWins(own.command, template.command);
    OwnWins(own.resources, template.resources);
    MapMerged(template.env, own.env);
    ListMerged(template.ports, own.ports);
    ListMerged(template.mounts, own.mounts);
  }

  // ss[k] is the first entry of that name.
  predicate IsFirst(ss: seq<Sidecar>, k: int, name: string) {
    0 <= k < |ss| && ss[k].name == name && forall j :: 0 <= j < k ==> ss[j].name != name
  }

  lemma {:induction false} FirstNamedIsFirst(ss: seq<Sidecar>, name: string)
    ensures match FirstNamed(ss, name)
            case None => forall j :: 0 <= j < |ss| ==> ss[j].name != name
            case Some(t) => exists k :: IsFirst(ss, k, name) && ss[k] == t
  {
    if ss == [] {
    } else if ss[0].name == name {
      assert IsFirst(ss, 0, name);
    } else {
      FirstNamedIsFirst(ss[1..], name);
      assert forall j :: 0 < j < |ss| ==> ss[j] == ss[1..][j - 1];
      if FirstNamed(ss, name).Some? {
        var k :| IsFirst(ss[1..], k, name) && ss[1..][k] == FirstNamed(ss, name).value;
        assert IsFirst(ss, k + 1, name);
      }
    }
  }

  // r picks the entries of ss whose name does not occur in `taken`, each once, in order;
  // entry i comes from position at[i].
  ghost predicate PicksAt(r: seq<Sidecar>, ss: seq<Sidecar>, taken: seq<Sidecar>, at: seq<int>) {
    && |at| == |r|
    && (forall i :: 0 <= i < |at| ==> 0 <= at[i] < |ss| && r[i] == ss[at[i]])
    && (forall i, j :: 0 <= i < j < |at| ==> at[i] < at[j])
    && (forall k :: 0 <= k < |ss| ==> (k in at <==> !Named(taken, ss[k].name)))
  }

  ghost predicate Picks(r: seq<Sidecar>, ss: seq<Sidecar>, taken: seq<Sidecar>) {
    exists at :: PicksAt(r, ss, taken, at)
  }

  lemma NothingPicked(taken: seq<Sidecar>)
    ensures PicksAt([], [], taken, [])
  {
  }

  lemma PicksOneMore(r: seq<Sidecar>, ss: seq<Sidecar>, taken: seq<Sidecar>, at: seq<int>)
    requires ss != [] && PicksAt(r, ss[..|ss| - 1], taken, at)
    ensures var n := |ss| - 1;
            if Named(taken, ss[n].name) then PicksAt(r, ss, taken, at) else PicksAt(r + [ss[n]], ss, taken, at + [n])
  {
    hide Named;
    var n := |ss| - 1;
    assert forall k :: 0 <= k < n ==> ss[..n][k] == ss[k];
    if !Named(taken, ss[n].name) {
      var more := at + [n];
      assert more[|at|] == n && forall k :: k in more <==> k in at || k == n;
    }
  }

  lemma {:induction false} UnclashingPicks(ss: seq<Sidecar>, taken: seq<Sidecar>)
    ensures Picks(Unclashing(ss, taken), ss, taken)
  {
    hide Named, PicksAt;
    if ss == [] {
      NothingPicked(taken);
    } else {
      var n := |ss| - 1;
      UnclashingPicks(ss[..n], taken);
      var at :| PicksAt(Unclashing(ss[..n], taken), ss[..n], taken, at);
      var r := Unclashing(ss[..n], taken);
      PicksOneMore(r, ss, taken, at);
      assert r + [] == r;
      assert Picks(if Named(taken, ss[n].name) then r else r + [ss[n]], ss, taken);
    }
  }

  // The entries of `main`, each merged with the first template entry of its name if the
  // version uses that name, and then those of `rest` under other names.
  ghost predicate EntriesMerged(r: seq<Sidecar>, main: seq<Sidecar>, rest: seq<Sidecar>, own: seq<Sidecar>,
                                template: seq<Sidecar>) {
    && |main| <= |r|
    && (forall i :: 0 <= i < |main| ==>
          if Named(own, main[i].name) && Named(template, main[i].name)
          then MergedWithFirst(r[i], main[i], template) else r[i] == main[i])
    && Picks(r[|main|..], rest, main)
  }

  ghost predicate MergedWithFirst(r: Sidecar, x: Sidecar, template: seq<Sidecar>) {
    exists k :: IsFirst(template, k, x.name) && EntryMerged(r, x, template[k])
  }

  lemma WithFirst(x: Sidecar, template: seq<Sidecar>)
    requires Named(template, x.name)
    ensures MergedWithFirst(MergeEntry(FirstNamed(template, x.name).value, x), x, template)
  {
    hide MergeEntry, EntryMerged, FirstNamed;
    FirstNamedIsFirst(template, x.name);
    var k :| IsFirst(template, k, x.name) && template[k] == FirstNamed(template, x.name).value;
    EntryByField(template[k], x);
  }

  // Sidecars: the version's come first, and win.
  lemma SidecarsByName(template: seq<Sidecar>, own: seq<Sidecar>)
    ensures EntriesMerged(MergeSidecars(Some(template), Some(own)).value, own, template, own, template)
  {
    var r := MergeSidecars(Some(template), Some(own)).value;
    hide MergeSidecars, MergeEntry, MergedWithFirst, Picks, Unclashing;
    ResolvedSidecars(template, own);
    UnclashingPicks(template, own);
    forall i | 0 <= i < |own| && Named(template, own[i].name)
      ensures MergedWithFirst(r[i], own[i], template)
    {
      WithFirst(own[i], template);
    }
  }

  // Init containers: the template's come first, and win.
  lemma InitsByTemplate(template: seq<Sidecar>, own: seq<Sidecar>)
    ensures EntriesMerged(MergeInits(Some(template), Some(own)).value, template, own, own, template)
  {
    var r := MergeInits(Some(template), Some(own)).value;
    hide MergeInits, MergeEntry, MergedWithFirst, Picks, Unclashing;
    ResolvedInits(template, own);
    UnclashingPicks(own, template);
    forall i | 0 <= i < |template| && Named(own, template[i].name)
      ensures MergedWithFirst(r[i], template[i], template)
    {
      WithFirst(template[i], template);
    }
  }

  // A side that has no list leaves the other's.
  ghost predicate SidecarsMerged(r: Option<seq<Sidecar>>, own: Option<seq<Sidecar>>, template: Option<seq<Sidecar>>) {
    if own.None? then r == template
    else if template.None? then r == own
    else r.Some? && EntriesMerged(r.value, own.value, template.value, own.value, template.value)
  }

  ghost predicate InitsMerged(r: Option<seq<Sidecar>>, own: Option<seq<Sidecar>>, template: Option<seq<Sidecar>>) {
    if own.None? then r == template
    else if template.None? then r == own
    else r.Some? && EntriesMerged(r.value, template.value, own.value, own.value, template.value)
  }

  lemma NothingUnclashing(own: seq<Sidecar>)
    ensures Unclashing([], own) == []
  {
  }

  lemma EntryListsMerged(own: Option<seq<Sidecar>>, template: Option<seq<Sidecar>>)
    ensures SidecarsMerged(MergeSidecars(template, own), own, template)
    ensures InitsMerged(MergeInits(template, own), own, template)
  {
    hide EntriesMerged, ResolveEntry, Unclashing;
    if own.Some? && template.Some? {
      SidecarsByName(template.value, own.value);
      InitsByTemplate(template.value, own.value);
    } else {
      var mine, theirs := own.GetOr([]), template.GetOr([]);
      NothingUnclashing(mine);
      NothingUnclashing(theirs);
      assert mine + [] == mine && theirs + [] == theirs;
      assert [] + mine == mine && [] + theirs == theirs;
    }
  }

  const NO_FIELDS := Fields(None, None, None, None, "", None, None, None, None, None, None, None, None, None, None,
                            None, None, None)

  // ----- the whole version --------------------------------------------------------------

  // The version's setting wins where there can be one only; maps are merged by key, lists
  // appended to the template's, the version's volume mounts before them.
  ghost predicate FieldsMerged(r: Fields, own: Fields, template: Fields) {
    && MapsMerged(r.labels, own.labels, template.labels)
    && MapsMerged(r.annotations, own.annotations, template.annotations)
    && MapsMerged(r.env, own.env, template.env)
    && MapsMerged(r.nodeSelector, own.nodeSelector, template.nodeSelector)
    && Wins(r.resources, [own.resources, template.resources])
    && Wins(r.affinity, [own.affinity, template.affinity])
    && Wins(r.privileged, [own.privileged, template.privileged])
    && Wins(r.dns, [own.dns, template.dns])
    && Wins(r.security, [own.security, template.security])
    && Wins(r.workingDir, [own.workingDir, template.workingDir])
    && (own.pullPolicy != "" ==> r.pullPolicy == own.pullPolicy)
    && (own.pullPolicy == "" ==> r.pullPolicy == template.pullPolicy)
    && ListsMerged(r.volumes, template.volumes, own.volumes)
    && ListsMerged(r.tolerations, template.tolerations, own.tolerations)
    && ListsMerged(r.hostAliases, template.hostAliases, own.hostAliases)
    && ListsMerged(r.pullSecrets, template.pullSecrets, own.pullSecrets)
    && ListsMerged(r.mounts, own.mounts, template.mounts)
    && SidecarsMerged(r.sidecars, own.sidecars, template.sidecars)
    && InitsMerged(r.initContainers, own.initContainers, template.initContainers)
  }

  // Merged lists are missing rather than empty.
  predicate NoEmptyList(f: Fields) {
    Some([]) !in [f.volumes, f.mounts, f.tolerations, f.hostAliases, f.pullSecrets]
  }

  lemma FieldByField(template: Fields, own: Fields)
    ensures FieldsMerged(MergeFields(template, own), own, template) && NoEmptyList(MergeFields(template, own))
  {
    hide MergeMap, MergeList, OwnOr, MergeSidecars, MergeInits, MapsMerged, ListsMerged, Wins,
      SidecarsMerged, InitsMerged;
    MapMerged(template.labels, own.labels);
    MapMerged(template.annotations, own.annotations);
    MapMerged(template.env, own.env);
    MapMerged(template.nodeSelector, own.nodeSelector);
    OwnWins(own.resources, template.resources);
    OwnWins(own.affinity, template.affinity);
    OwnWins(own.privileged, template.privileged);
    OwnWins(own.dns, template.dns);
    OwnWins(own.security, template.security);
    OwnWins(own.workingDir, template.workingDir);
    ListMerged(template.volumes, own.volumes);
    ListMerged(template.tolerations, own.tolerations);
    ListMerged(template.hostAliases, own.hostAliases);
    ListMerged(template.pullSecrets, own.pullSecrets);
    ListMerged(own.mounts, template.mounts);
    EntryListsMerged(own.sidecars, template.sidecars);
    EntryListsMerged(own.initContainers, template.initContainers);
  }

  // A missing template is like one that sets nothing.
  lemma VersionByField(template: Option<Fields>, own: Version)
    ensures var v := MergeVersion(template, own);
            v.image == own.image && FieldsMerged(v.fields, own.fields, template.GetOr(NO_FIELDS))
    ensures template.None? ==> MergeVersion(template, own) == own
  {
    hide FieldsMerged, MergeFields;
    if template.Some? {
      FieldByField(template.value, own.fields);
    } else {
      OwnAlone(own.fields);
    }
  }

  lemma OwnAlone(own: Fields)
    ensures FieldsMerged(own, own, NO_FIELDS)
  {
    hide Wins, EntriesMerged;
    MapAlone(own.labels);
    MapAlone(own.annotations);
    MapAlone(own.env);
    MapAlone(own.nodeSelector);
    WinsOfTwo(own.resources, own.resources, None);
    WinsOfTwo(own.affinity, own.affinity, None);
    WinsOfTwo(own.privileged, own.privileged, None);
    WinsOfTwo(own.dns, own.dns, None);
    WinsOfTwo(own.security, own.security, None);
    WinsOfTwo(own.workingDir, own.workingDir, None);
  }

  lemma MapAlone<V>(own: Option<map<string, V>>)
    ensures MapsMerged(own, own, None)
  {
    forall k ensures Wins(ValueAt(own, k), [ValueAt(own, k), ValueAt<V>(None, k)]) {
      WinsOfTwo(ValueAt(own, k), ValueAt(own, k), None);
    }
  }

  // A specification: every version that is there stays there, with its image; those that
  // are nil stay nil, and without a template nothing changes.
  ghost predicate VersionMerged(r: Option<Version>, v: Option<Version>, template: Option<Fields>) {
    if v.None? || template.None? then r == v
    else
      && r.Some? && r.value.image == v.value.image
      && FieldsMerged(r.value.fields, v.value.fields, template.value)
  }

  lemma SpecByVersion(s: Spec)
    ensures MergeSpec(s).template == s.template && MergeSpec(s).browsers.Keys == s.browsers.Keys
    ensures forall n :: n in s.browsers ==> MergeSpec(s).browsers[n].Keys == s.browsers[n].Keys
    ensures forall n, v :: n in s.browsers && v in s.browsers[n] ==>
      VersionMerged(MergeSpec(s).browsers[n][v], s.browsers[n][v], s.template)
  {
    hide FieldsMerged, MergeFields;
    forall n, v | n in s.browsers && v in s.browsers[n]
      ensures VersionMerged(MergeSpec(s).browsers[n][v], s.browsers[n][v], s.template)
    {
      if s.template.Some? && s.browsers[n][v].Some? {
        FieldByField(s.template.value, s.browsers[n][v].value.fields);
      }
    }
  }
}

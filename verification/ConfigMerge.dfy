// How a browser version's configuration is combined with the shared template: the
// pure, field by field meaning of the merge, and what it implies.
module ConfigMerge {
  import opened Values

  function MergeMap<V>(template: Option<map<string, V>>, own: Option<map<string, V>>): Option<map<string, V>> {
    if template.None? && own.None? then None else Some(template.GetOr(map[]) + own.GetOr(map[]))
  }

  // Lists are appended; an empty result is dropped.
  function MergeList<T>(first: Option<seq<T>>, second: Option<seq<T>>): Option<seq<T>> {
    var all := first.GetOr([]) + second.GetOr([]);
    if all == [] then None else Some(all)
  }

  function OwnOr<T>(own: Option<T>, fallback: Option<T>): Option<T> {
    if own.Some? then own else fallback
  }

  // An entry merged with the template entry of its name. The working directory is
  // always the template's.
  function MergeEntry(template: Sidecar, own: Sidecar): Sidecar {
    own.(command := OwnOr(own.command, template.command),
         workingDir := template.workingDir,
         env := MergeMap(template.env, own.env),
         ports := MergeList(template.ports, own.ports),
         mounts := MergeList(template.mounts, own.mounts),
         resources := OwnOr(own.resources, template.resources))
  }

  predicate Named(ss: seq<Sidecar>, name: string) {
    exists i :: 0 <= i < |ss| && ss[i].name == name
  }

  // The entries of ss whose name does not occur in `taken`, in order.
  function Unclashing(ss: seq<Sidecar>, taken: seq<Sidecar>): (r: seq<Sidecar>)
    ensures forall x :: x in r <==> x in ss && !Named(taken, x.name)
  {
    if ss == [] then []
    else
      var n := |ss| - 1;
      Unclashing(ss[..n], taken) + if Named(taken, ss[n].name) then [] else [ss[n]]
  }

  // The first entry of a name.
  function FirstNamed(ss: seq<Sidecar>, name: string): (r: Option<Sidecar>)
    ensures r.Some? <==> Named(ss, name)
    ensures r.Some? ==> r.value in ss && r.value.name == name
  {
    if ss == [] then None
    else if ss[0].name == name then Some(ss[0])
    else
      assert forall i :: 0 <= i < |ss| - 1 ==> ss[1..][i] == ss[i + 1];
      FirstNamed(ss[1..], name)
  }

  // The entries of `win`, then those of `rest` whose name `win` does not use.
  function Combine(rest: Option<seq<Sidecar>>, win: Option<seq<Sidecar>>): Option<seq<Sidecar>> {
    if rest.None? && win.None? then None
    else Some(win.GetOr([]) + if win.Some? then Unclashing(rest.GetOr([]), win.value) else rest.GetOr([]))
  }

  // An entry whose name the version used is merged with the first template entry of it.
  function ResolveEntry(r: Sidecar, own: seq<Sidecar>, template: seq<Sidecar>): Sidecar {
    var t := FirstNamed(template, r.name);
    if Named(own, r.name) && t.Some? then MergeEntry(t.value, r) else r
  }

  function Resolve(rs: Option<seq<Sidecar>>, own: Option<seq<Sidecar>>, template: Option<seq<Sidecar>>)
    : Option<seq<Sidecar>>
  {
    if rs.None? || own.None? || template.None? then rs
    else Some(seq(|rs.value|, i requires 0 <= i < |rs.value| => ResolveEntry(rs.value[i], own.value, template.value)))
  }

  function MergeSidecars(template: Option<seq<Sidecar>>, own: Option<seq<Sidecar>>): Option<seq<Sidecar>> {
    Resolve(Combine(template, own), own, template)
  }

  // As the code has it: the two lists are combined the other way round.
  function MergeInits(template: Option<seq<Sidecar>>, own: Option<seq<Sidecar>>): Option<seq<Sidecar>> {
    Resolve(Combine(own, template), own, template)
  }

  function MergeFields(t: Fields, own: Fields): Fields {
    Fields(
      MergeMap(t.labels, own.labels),
      MergeMap(t.annotations, own.annotations),
      MergeMap(t.env, own.env),
      OwnOr(own.resources, t.resources),
      if own.pullPolicy == "" then t.pullPolicy else own.pullPolicy,
      MergeList(t.volumes, own.volumes),
      MergeList(own.mounts, t.mounts),
      MergeMap(t.nodeSelector, own.nodeSelector),
      OwnOr(own.affinity, t.affinity),
      MergeList(t.tolerations, own.tolerations),
      MergeList(t.hostAliases, own.hostAliases),
      MergeInits(t.initContainers, own.initContainers),
      MergeSidecars(t.sidecars, own.sidecars),
      OwnOr(own.privileged, t.privileged),
      MergeList(t.pullSecrets, own.pullSecrets),
      OwnOr(own.dns, t.dns),
      OwnOr(own.security, t.security),
      OwnOr(own.workingDir, t.workingDir))
  }

  function MergeVersion(template: Option<Fields>, v: Version): Version {
    if template.None? then v else Version(v.image, MergeFields(template.value, v.fields))
  }

  // A whole specification: browser name, version name, and the entry, which may be nil.
  datatype Spec = Spec(template: Option<Fields>, browsers: map<string, map<string, Option<Version>>>)

  function MergeEntryV(template: Option<Fields>, v: Option<Version>): Option<Version> {
    if v.None? then None else Some(MergeVersion(template, v.value))
  }

  function MergeSpec(s: Spec): Spec {
    s.(browsers := map n | n in s.browsers ::
         map v | v in s.browsers[n] :: MergeEntryV(s.template, s.browsers[n][v]))
  }

  // ----- sidecars are merged by name ------------------------------------------------

  // The version's entries come first, in order, each clashing one merged exactly once
  // with the first template entry of its name; then the other template entries, as is.
  lemma ResolvedSidecars(template: seq<Sidecar>, own: seq<Sidecar>)
    ensures var r := MergeSidecars(Some(template), Some(own)).value;
            && |own| <= |r|
            && (forall i :: 0 <= i < |own| ==>
                  r[i] == match FirstNamed(template, own[i].name)
                          case None => own[i]
                          case Some(t) => MergeEntry(t, own[i]))
            && r[|own|..] == Unclashing(template, own)
  {
    hide MergeEntry, FirstNamed, Unclashing;
    var r := MergeSidecars(Some(template), Some(own)).value;
    var rest := Unclashing(template, own);
    assert forall i :: 0 <= i < |own| ==> Named(own, own[i].name);
    assert forall i :: 0 <= i < |rest| ==> rest[i] in rest && !Named(own, rest[i].name);
    assert r[|own|..] == rest;
  }

  // A working directory that the version sets for a sidecar overrides the template's
  // exactly when they do not differ, or the template has no sidecar of that name.
  lemma OwnWorkingDir(template: seq<Sidecar>, own: seq<Sidecar>, i: nat)
    requires i < |own|
    ensures var r := MergeSidecars(Some(template), Some(own)).value;
            && i < |r|
            && (r[i].workingDir == own[i].workingDir <==>
                  var t := FirstNamed(template, own[i].name);
                  t.None? || t.value.workingDir == own[i].workingDir)
  {
    ResolvedSidecars(template, own);
  }

  // ----- init containers are not -------------------------------------------------------

  // The template's entries come first; a clashing one is merged with the first template
  // entry of its name, usually itself. The version's clashing entries are gone.
  lemma ResolvedInits(template: seq<Sidecar>, own: seq<Sidecar>)
    ensures var r := MergeInits(Some(template), Some(own)).value;
            && |template| <= |r|
            && (forall i :: 0 <= i < |template| ==>
                  r[i] == if Named(own, template[i].name)
                          then MergeEntry(FirstNamed(template, template[i].name).value, template[i])
                          else template[i])
            && r[|template|..] == Unclashing(own, template)
  {
    hide MergeEntry, FirstNamed, Unclashing;
    var r := MergeInits(Some(template), Some(own)).value;
    var rest := Unclashing(own, template);
    assert forall i :: 0 <= i < |template| ==> Named(template, template[i].name);
    assert forall i :: 0 <= i < |rest| ==> rest[i] in rest && !Named(template, rest[i].name);
    assert r[|template|..] == rest;
  }

  predicate Offers(ss: seq<Sidecar>, name: string, image: string) {
    exists i :: 0 <= i < |ss| && ss[i].name == name && ss[i].image == image
  }

  lemma InitImages(template: seq<Sidecar>, own: seq<Sidecar>)
    ensures MergeInits(Some(template), Some(own)).Some?
    ensures var r := MergeInits(Some(template), Some(own)).value;
            && |template| <= |r| && r[|template|..] == Unclashing(own, template)
            && forall i :: 0 <= i < |template| ==> r[i].name == template[i].name && r[i].image == template[i].image
  {
    ResolvedInits(template, own);
  }

  // An init container of the version is still there, with its image, exactly when the
  // template has none of its name or one of that name with the very same image.
  lemma OwnInitSurvives(template: seq<Sidecar>, own: seq<Sidecar>, x: Sidecar)
    requires x in own
    ensures Offers(MergeInits(Some(template), Some(own)).value, x.name, x.image)
       <==> !Named(template, x.name) || Offers(template, x.name, x.image)
  {
    InitImages(template, own);
    hide MergeInits;
    var r, rest := MergeInits(Some(template), Some(own)).value, Unclashing(own, template);
    OffersSplit(r, |template|, x.name, x.image);
    assert Offers(r[..|template|], x.name, x.image) <==> Offers(template, x.name, x.image);
    assert forall k :: 0 <= k < |rest| ==> rest[k] in rest && !Named(template, rest[k].name);
    if !Named(template, x.name) {
      var k :| 0 <= k < |rest| && rest[k] == x;
      assert Offers(rest, x.name, x.image);
    }
  }

  lemma OffersSplit(ss: seq<Sidecar>, n: nat, name: string, image: string)
    requires n <= |ss|
    ensures Offers(ss, name, image) <==> Offers(ss[..n], name, image) || Offers(ss[n..], name, image)
  {
    if Offers(ss, name, image) {
      var i :| 0 <= i < |ss| && ss[i].name == name && ss[i].image == image;
      if i < n {
        assert ss[..n][i] == ss[i];
      } else {
        assert ss[n..][i - n] == ss[i];
      }
    }
  }

  // A sidecar of the version is always there, with its image.
  lemma OwnSidecarSurvives(template: seq<Sidecar>, own: seq<Sidecar>, x: Sidecar)
    requires x in own
    ensures Offers(MergeSidecars(Some(template), Some(own)).value, x.name, x.image)
  {
    ResolvedSidecars(template, own);
    var k :| 0 <= k < |own| && own[k] == x;
    var r := MergeSidecars(Some(template), Some(own)).value;
    assert r[k].name == x.name && r[k].image == x.image;
  }

  // ----- repeating the merge --------------------------------------------------------------

  // Appended lists grow when the merge is repeated, unless the template has nothing to add.
  lemma ListMergeIdempotent<T>(template: Option<seq<T>>, own: Option<seq<T>>)
    ensures MergeList(template, MergeList(template, own)) == MergeList(template, own)
       <==> template.GetOr([]) == []
  {
    var t, once := template.GetOr([]), template.GetOr([]) + own.GetOr([]);
    var twice := t + once;
    assert |twice| == |t| + |once| && (t == [] ==> twice == once);
    assert MergeList(template, MergeList(template, own)) == if twice == [] then None else Some(twice);
  }

  lemma MapMergeIdempotent<V>(template: Option<map<string, V>>, own: Option<map<string, V>>)
    ensures MergeMap(template, MergeMap(template, own)) == MergeMap(template, own)
  {
    var t, o := template.GetOr(map[]), own.GetOr(map[]);
    assert t + (t + o) == t + o;
  }
}

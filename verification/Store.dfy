// The in-memory cache of browser configurations, fed by informer events.
module Store {
  import opened Values
  import opened ConfigMerge
  import opened ConfigHeap
  import opened ConfigObjects
  import opened DeepCopy
  import opened Keys
  import opened StoreModel

  class BrowserConfig {
    const namespace: string
    const name: string
    const spec: SpecObj

    constructor (namespace: string, name: string, spec: SpecObj)
      ensures this.namespace == namespace && this.name == name && this.spec == spec
    {
      this.namespace, this.name, this.spec := namespace, name, spec;
    }

    // The pointers of the specification are known to it.
    ghost predicate Owned()
      reads spec, spec.template, Versions(spec.browsers)
      reads if spec.template == null then {} else {spec.template.f.initContainers, spec.template.f.sidecars}
      reads set p, o | p in Versions(spec.browsers) && o in p.Lists() :: o
    {
      AllApart(Versions(spec.browsers), {}) && (spec.template != null ==> spec.template.Valid())
    }
  }

  // What an informer hands over: a configuration, which may be nil; the last known state
  // of a deleted object, nil if that is of another type; or anything else.
  datatype Delivery = Config(bc: BrowserConfig?) | Tombstone(bc: BrowserConfig?) | Other

  // The delivery brings a configuration, stored or deleted.
  predicate HasObject(obj: Delivery) {
    !obj.Other? && obj.bc != null
  }

  function Unwrap(obj: Delivery): BrowserConfig? {
    match obj
    case Config(t) => t
    case Tombstone(v) => v
    case Other => null
  }

  // The pointers of the versions in `kept` are known to them, and they mean the given values.
  ghost predicate Untouched(kept: set<VersionObj>, views: map<VersionObj, Version>)
    reads kept, set p, o | p in kept && o in p.Lists() :: o, set p, o | p in kept && o in Parts(p.f) :: o
  {
    AllApart(kept, {}) && forall q :: q in kept ==> q in views && q.View() == views[q]
  }

  // The same for a template, which may be missing.
  ghost predicate Intact(t: TemplateObj?, v: Option<Fields>)
    reads t
    reads if t == null then {} else {t.f.initContainers, t.f.sidecars}
    reads if t == null then {} else Parts(t.f)
  {
    (t == null <==> v.None?) && (t != null ==> t.Valid() && Some(FieldsV(t.f)) == v)
  }

  ghost function ViewsOf(all: set<VersionObj>): map<VersionObj, Version>
    reads all, set p, o | p in all && o in p.Lists() :: o, set p, o | p in all && o in Parts(p.f) :: o
  {
    map q | q in all :: q.View()
  }

  lemma Snapshot(a: set<VersionObj>, b: set<VersionObj>, foreign: set<object>)
    requires AllApart(a, {}) && AllApart(b, foreign)
    ensures Untouched(a + b, ViewsOf(a + b))
  {
    hide EntryParts, FieldsV, ListParts;
  }

  lemma UntouchedPart(a: set<VersionObj>, kept: set<VersionObj>, views: map<VersionObj, Version>)
    requires Untouched(kept, views) && a <= kept
    ensures AllApart(a, {})
  {
  }

  method CopyBeside(spec: SpecObj, ghost kept: set<VersionObj>, ghost views: map<VersionObj, Version>,
                    ghost tv: Option<Fields>, ghost foreign: set<object>) returns (r: SpecObj)
    requires AllApart(Versions(spec.browsers), {}) && Untouched(kept, views) && Intact(spec.template, tv)
    ensures Untouched(kept, views) && Intact(spec.template, tv)
    ensures fresh(r) && fresh(Versions(r.browsers)) && (r.template != null ==> fresh(r.template))
    ensures r.Apart(foreign) && r.Value() == old(spec.Value())
  {
    hide EntriesV, EntryParts, ListParts, FieldsV, DistinctVersions, Listed, EntryV, BrowsersV;
    r := CopySpec(spec, foreign);
  }

  method MergeBeside(r: SpecObj, t: TemplateObj?, ghost kept: set<VersionObj>, ghost views: map<VersionObj, Version>,
                     ghost tv: Option<Fields>, ghost foreign: set<object>)
    requires r.Apart(foreign) && Untouched(kept, views) && Intact(t, tv)
    requires Versions(r.browsers) !! kept && (forall q :: q in kept ==> r !in q.repr) && (t != null ==> r !in t.repr)
    modifies r, Versions(r.browsers)
    ensures Untouched(kept, views) && Intact(t, tv)
    ensures r.browsers == old(r.browsers) && r.Apart(foreign) && r.Value() == MergeSpec(old(r.Value()))
  {
    hide EntriesV, EntryParts, ListParts, FieldsV, DistinctVersions, Distinct, Listed, EntryV, BrowsersV, MergeSpec;
    forall p, q | p in Versions(r.browsers) && q in kept ensures p !in Parts(q.f) { VersionIsNoPart(p, q.f); }
    if t != null {
      forall p | p in Versions(r.browsers) ensures p !in Parts(t.f) { VersionIsNoPart(p, t.f); }
    }
    r.MergeWithTemplate(foreign);
    assert forall q :: q in kept ==> q.ApartFrom({}) && q.View() == views[q];
  }

  // The copy of a specification that goes into the store, merged with its template.
  method Prepare(spec: SpecObj, ghost kept: set<VersionObj>, ghost views: map<VersionObj, Version>,
                 ghost tv: Option<Fields>, ghost foreign: set<object>) returns (r: SpecObj)
    requires AllApart(Versions(spec.browsers), {}) && Untouched(kept, views) && Intact(spec.template, tv)
    ensures Untouched(kept, views) && Intact(spec.template, tv)
    ensures fresh(Versions(r.browsers)) && AllApart(Versions(r.browsers), foreign)
    ensures BrowsersV(r.browsers) == MergeSpec(old(spec.Value())).browsers
  {
    hide EntriesV, EntryParts, ListParts, Parts, FieldsV, DistinctVersions, Distinct, Listed, EntryV, BrowsersV,
      MergeSpec, Versions;
    r := CopyBeside(spec, kept, views, tv, foreign);
    MergeBeside(r, spec.template, kept, views, tv, foreign);
  }

  lemma {:induction false} StoreIsNoEntryPart(s: BrowserConfigStore, ss: seq<SidecarRef>)
    ensures s !in EntryParts(ss)
  {
    if ss != [] {
      StoreIsNoEntryPart(s, ss[..|ss| - 1]);
    }
  }

  lemma StoreIsNoListPart(s: BrowserConfigStore, a: array?<SidecarRef>)
    ensures s !in ListParts(a)
  {
    hide EntryParts;
    if a != null {
      StoreIsNoEntryPart(s, a[..]);
    }
  }

  // A store is never what a record of pointers points to.
  lemma StoreIsNoPart(s: BrowserConfigStore, f: FieldRefs)
    ensures s !in Parts(f)
  {
    hide ListParts;
    StoreIsNoListPart(s, f.sidecars);
    StoreIsNoListPart(s, f.initContainers);
  }

  ghost function VersionsBy(versions: map<string, VersionObj?>, views: map<VersionObj, Version>): Contents
    requires Listed(versions) <= views.Keys
  {
    map v | v in versions ::
      if versions[v] == null then None else assert versions[v] in Listed(versions); Some(views[versions[v]])
  }

  lemma VersionsByExact(versions: map<string, VersionObj?>, kept: set<VersionObj>, views: map<VersionObj, Version>)
    requires Untouched(kept, views) && Listed(versions) <= kept && kept <= views.Keys
    ensures VersionsV(versions) == VersionsBy(versions, views)
  {
    hide AllApart;
    assert forall v :: v in versions && versions[v] != null ==> versions[v] in Listed(versions);
  }

  ghost function BrowsersBy(browsers: Browsers, views: map<VersionObj, Version>)
    : Entries<Option<Version>>
    requires Versions(browsers) <= views.Keys
  {
    map n | n in browsers :: VersionsBy(browsers[n], views)
  }

  lemma BrowsersByExact(browsers: Browsers, kept: set<VersionObj>, views: map<VersionObj, Version>)
    requires Untouched(kept, views) && Versions(browsers) <= kept && kept <= views.Keys
    ensures BrowsersV(browsers) == BrowsersBy(browsers, views)
  {
    hide AllApart, Listed, VersionsV, VersionsBy;
    forall n | n in browsers ensures VersionsV(browsers[n]) == VersionsBy(browsers[n], views) {
      VersionsByExact(browsers[n], kept, views);
    }
  }

  // What is written as references is written as what they mean.
  lemma PutsV(before: map<string, VersionObj?>, after: map<string, VersionObj?>, was: Contents, ns: string,
              browsers: Browsers)
    requires Puts(before, after, ns, browsers) && VersionsV(before) == was
    ensures Puts(was, VersionsV(after), ns, BrowsersV(browsers))
  {
    hide KeyFor, EntryV, Names;
    NamesAlike(ns, browsers, BrowsersV(browsers));
    forall k | k in after && Names(ns, browsers, k) ensures Holds(ns, BrowsersV(browsers), k, VersionsV(after)[k]) {
      var n, v :| n in browsers && v in browsers[n] && KeyFor(ns, n, v) == k && browsers[n][v] == after[k];
      assert BrowsersV(browsers)[n][v] == EntryV(after[k]);
    }
  }

  lemma PutsListed(before: map<string, VersionObj?>, after: map<string, VersionObj?>, ns: string, browsers: Browsers)
    requires Puts(before, after, ns, browsers)
    ensures Listed(after) <= Listed(before) + Versions(browsers)
  {
    hide KeyFor, Names;
    forall k | k in after && after[k] != null ensures after[k] in Listed(before) + Versions(browsers) {
      if Names(ns, browsers, k) {
        var n, v :| n in browsers && v in browsers[n] && KeyFor(ns, n, v) == k && browsers[n][v] == after[k];
        EntryListed(browsers, n, v);
      } else {
        assert before[k] == after[k];
      }
    }
  }

  lemma DropsListed(before: map<string, VersionObj?>, after: map<string, VersionObj?>, ns: string, browsers: Browsers)
    requires Drops(before, after, ns, browsers)
    ensures Listed(after) <= Listed(before)
  {
  }

  lemma EachApart(all: set<VersionObj>, foreign: set<object>)
    requires AllApart(all, foreign)
    ensures forall p :: p in all ==> p.ApartFrom(foreign)
  {
  }

  lemma DropsV(before: map<string, VersionObj?>, after: map<string, VersionObj?>, was: Contents, ns: string,
               browsers: Browsers)
    requires Drops(before, after, ns, browsers) && VersionsV(before) == was
    ensures Drops(was, VersionsV(after), ns, BrowsersV(browsers))
  {
    hide KeyFor, EntryV, Names;
    NamesAlike(ns, browsers, BrowsersV(browsers));
  }

  class BrowserConfigStore {
    var config: map<string, VersionObj?>
    // The events so far, and what the store held before each of them and at the end.
    ghost var events: seq<Event>
    ghost var past: seq<Contents>

    ghost predicate Sound()
      reads this, Listed(config), set p, o | p in Listed(config) && o in p.Lists() :: o
    {
      AllApart(Listed(config), {})
    }

    ghost function Contents(): Contents
      reads this, Listed(config), set p, o | p in Listed(config) && o in p.Lists() :: o
      reads set p, o | p in Listed(config) && o in Parts(p.f) :: o
    {
      VersionsV(config)
    }

    ghost predicate Valid()
      reads this, Listed(config), set p, o | p in Listed(config) && o in p.Lists() :: o
      reads set p, o | p in Listed(config) && o in Parts(p.f) :: o
    {
      Sound() && History(past, events) && Contents() == past[|events|]
    }

    constructor ()
      ensures Valid() && events == [] && Contents() == map[]
    {
      config := map[];
      events, past := [], [map[]];
    }

    // The inner loop of onAddOrUpdate: the versions of one browser, in any order.
    method WriteVersions(ns: string, n: string, versions: map<string, VersionObj?>,
                         ghost before: map<string, VersionObj?>, ghost done: Browsers)
      requires n !in done && Puts(before, config, ns, done)
      modifies this`config
      ensures Puts(before, config, ns, done[n := versions])
    {
      hide Names, Holds, KeyFor;
      NamesNone(ns, done, n);
      ghost var part: map<string, VersionObj?> := map[];
      var rest := versions.Keys;
      while rest != {}
        invariant rest <= versions.Keys && part == map v | v in versions && v !in rest :: versions[v]
        invariant Puts(before, config, ns, done[n := part])
        decreases rest
      {
        var v :| v in rest;
        PutOne(before, config, ns, done[n := part], n, v, versions[v]);
        assert Grown(done[n := part], n, v, versions[v]) == done[n := part[v := versions[v]]];
        config := config[KeyFor(ns, n, v) := versions[v]];
        part := part[v := versions[v]];
        rest := rest - {v};
      }
      assert part == versions;
    }

    // The outer loop: every browser, in any order.
    method WriteAll(ns: string, browsers: Browsers, ghost views: map<VersionObj, Version>, ghost e: Event)
      requires Listed(config) + Versions(browsers) <= views.Keys
      modifies this
      ensures Puts(old(config), config, ns, browsers) && Listed(config) <= old(Listed(config)) + Versions(browsers)
      ensures events == old(events) + [e] && past == old(past) + [VersionsBy(config, views)]
    {
      hide VersionsBy, Listed, Names, Holds, KeyFor;
      NoNames<VersionObj?>(ns);
      ghost var done: Browsers := map[];
      var rest := browsers.Keys;
      while rest != {}
        invariant rest <= browsers.Keys && done == map n | n in browsers && n !in rest :: browsers[n]
        invariant Puts(old(config), config, ns, done) && events == old(events) && past == old(past)
        decreases rest
      {
        var n :| n in rest;
        WriteVersions(ns, n, browsers[n], old(config), done);
        done := done[n := browsers[n]];
        rest := rest - {n};
      }
      assert done == browsers;
      PutsListed(old(config), config, ns, browsers);
      events, past := events + [e], past + [VersionsBy(config, views)];
    }

    method RemoveVersions(ns: string, n: string, versions: map<string, VersionObj?>,
                          ghost before: map<string, VersionObj?>, ghost done: Browsers)
      requires n !in done && Drops(before, config, ns, done)
      modifies this`config
      ensures Drops(before, config, ns, done[n := versions])
    {
      hide Names, Holds, KeyFor;
      NamesNone(ns, done, n);
      ghost var part: map<string, VersionObj?> := map[];
      var rest := versions.Keys;
      while rest != {}
        invariant rest <= versions.Keys && part == map v | v in versions && v !in rest :: versions[v]
        invariant Drops(before, config, ns, done[n := part])
        decreases rest
      {
        var v :| v in rest;
        DropOne(before, config, ns, done[n := part], n, v, versions[v]);
        assert Grown(done[n := part], n, v, versions[v]) == done[n := part[v := versions[v]]];
        config := config - {KeyFor(ns, n, v)};
        part := part[v := versions[v]];
        rest := rest - {v};
      }
      assert part == versions;
    }

    method RemoveAll(ns: string, browsers: Browsers, ghost views: map<VersionObj, Version>, ghost e: Event)
      requires Listed(config) + Versions(browsers) <= views.Keys
      modifies this
      ensures Drops(old(config), config, ns, browsers) && Listed(config) <= old(Listed(config))
      ensures events == old(events) + [e] && past == old(past) + [VersionsBy(config, views)]
    {
      hide VersionsBy, Listed, Names, Holds, KeyFor;
      NoNames<VersionObj?>(ns);
      ghost var done: Browsers := map[];
      var rest := browsers.Keys;
      while rest != {}
        invariant rest <= browsers.Keys && done == map n | n in browsers && n !in rest :: browsers[n]
        invariant Drops(old(config), config, ns, done) && events == old(events) && past == old(past)
        decreases rest
      {
        var n :| n in rest;
        RemoveVersions(ns, n, browsers[n], old(config), done);
        done := done[n := browsers[n]];
        rest := rest - {n};
      }
      assert done == browsers;
      DropsListed(old(config), config, ns, browsers);
      events, past := events + [e], past + [VersionsBy(config, views)];
    }

    // WriteAll, beside versions: what those mean stays.
    method WriteKept(ns: string, browsers: Browsers, ghost kept: set<VersionObj>, ghost views: map<VersionObj, Version>,
                     ghost e: Event)
      requires Untouched(kept, views) && Listed(config) + Versions(browsers) <= kept <= views.Keys
      modifies this
      ensures Untouched(kept, views)
      ensures Puts(old(config), config, ns, browsers) && Listed(config) <= kept
      ensures events == old(events) + [e] && past == old(past) + [VersionsBy(config, views)]
    {
      hide Versions, Listed, VersionsBy, EntriesV, EntryParts, ListParts, FieldsV, Puts;
      forall q | q in kept ensures this !in Parts(q.f) { StoreIsNoPart(this, q.f); }
      WriteAll(ns, browsers, views, e);
      assert forall q :: q in kept ==> q.ApartFrom({}) && q.View() == views[q];
    }

    // The same beside a template, too.
    method WriteBeside(ns: string, browsers: Browsers, t: TemplateObj?, ghost kept: set<VersionObj>,
                       ghost views: map<VersionObj, Version>, ghost tv: Option<Fields>, ghost foreign: set<object>,
                       ghost e: Event)
      requires Untouched(kept, views) && Intact(t, tv) && AllApart(Versions(browsers), foreign)
      requires Listed(config) + Versions(browsers) <= kept <= views.Keys
      modifies this
      ensures Untouched(kept, views) && Intact(t, tv) && AllApart(Versions(browsers), foreign)
      ensures Puts(old(config), config, ns, browsers) && Listed(config) <= kept
      ensures events == old(events) + [e] && past == old(past) + [VersionsBy(config, views)]
    {
      hide Untouched, Versions, Listed, VersionsBy, EntriesV, EntryParts, ListParts, FieldsV, Puts;
      if t != null {
        StoreIsNoPart(this, t.f);
      }
      WriteKept(ns, browsers, kept, views, e);
    }

    method Add(bc: BrowserConfig, ghost foreign: set<object>)
      requires Valid() && bc.Owned()
      modifies this
      ensures Valid() && bc.Owned() && bc.spec.Value() == old(bc.spec.Value())
      ensures events == old(events) + [Put(bc.namespace, bc.name, old(bc.spec.Value()))]
      ensures past == old(past) + [Contents()] && Applied(old(Contents()), Contents(), events[|old(events)|])
      ensures forall p :: p in Listed(config) ==> p in old(Listed(config)) || (fresh(p) && p.ApartFrom(foreign))
    {
      hide EntriesV, EntryParts, ListParts, Parts, FieldsV, Listed, Versions, EntryV, BrowsersV, VersionsV, MergeSpec,
        VersionsBy, BrowsersBy, Puts, AllApart, Untouched;
      ghost var browsers, before, e := bc.spec.browsers, config, Put(bc.namespace, bc.name, bc.spec.Value());
      ghost var olds, views, tv := Listed(config) + Versions(browsers), ViewsOf(Listed(config) + Versions(browsers)),
        bc.spec.TemplateV();
      Snapshot(Listed(config), Versions(browsers), {});
      VersionsByExact(before, olds, views);
      BrowsersByExact(browsers, olds, views);
      var copy := Prepare(bc.spec, olds, views, tv, foreign);
      VersionsByExact(before, olds, views);
      BrowsersByExact(browsers, olds, views);
      ghost var kept := olds + Versions(copy.browsers);
      ghost var now := ViewsOf(kept);
      UntouchedPart(olds, olds, views);
      Snapshot(olds, Versions(copy.browsers), foreign);
      VersionsByExact(before, kept, now);
      BrowsersByExact(browsers, kept, now);
      BrowsersByExact(copy.browsers, kept, now);
      WriteBeside(bc.namespace, copy.browsers, bc.spec.template, kept, now, tv, foreign, e);
      VersionsByExact(before, kept, now);
      BrowsersByExact(browsers, kept, now);
      BrowsersByExact(copy.browsers, kept, now);
      VersionsByExact(config, kept, now);
      PutsV(before, config, old(Contents()), bc.namespace, copy.browsers);
      PutsListed(before, config, bc.namespace, copy.browsers);
      UntouchedPart(Listed(config), kept, now);
      UntouchedPart(Versions(browsers), kept, now);
      EachApart(Versions(copy.browsers), foreign);
    }

    // The informer's object goes into the store as a merged copy that shares no object
    // with it: `foreign` is any set of objects that exist already.
    method OnAddOrUpdate(obj: Delivery, ghost foreign: set<object>)
      requires Valid() && (HasObject(obj) ==> obj.bc.Owned())
      modifies this
      ensures Valid()
      ensures !HasObject(obj) ==> config == old(config) && Contents() == old(Contents()) && events == old(events)
      ensures HasObject(obj) ==>
        && events == old(events) + [Put(obj.bc.namespace, obj.bc.name, old(obj.bc.spec.Value()))]
        && Applied(old(Contents()), Contents(), events[|old(events)|])
      ensures HasObject(obj) ==> obj.bc.Owned() && obj.bc.spec.Value() == old(obj.bc.spec.Value())
      ensures forall p :: p in Listed(config) ==> p in old(Listed(config)) || (fresh(p) && p.ApartFrom(foreign))
    {
      hide EntriesV, EntryParts, ListParts, Parts, FieldsV, Listed, Versions, BrowsersV, VersionsV, Puts, AllApart;
      var bc := Unwrap(obj);
      if bc == null {
        return;
      }
      Add(bc, foreign);
    }

    // RemoveAll, beside versions: what those mean stays.
    method RemoveKept(ns: string, browsers: Browsers, ghost kept: set<VersionObj>,
                      ghost views: map<VersionObj, Version>, ghost e: Event)
      requires Untouched(kept, views) && Listed(config) + Versions(browsers) <= kept <= views.Keys
      modifies this
      ensures Untouched(kept, views)
      ensures Drops(old(config), config, ns, browsers) && Listed(config) <= old(Listed(config))
      ensures events == old(events) + [e] && past == old(past) + [VersionsBy(config, views)]
    {
      hide Versions, VersionsBy, EntriesV, EntryParts, ListParts, FieldsV, Drops;
      forall q | q in kept ensures this !in Parts(q.f) { StoreIsNoPart(this, q.f); }
      RemoveAll(ns, browsers, views, e);
      assert forall q :: q in kept ==> q.ApartFrom({}) && q.View() == views[q];
    }

    // The same beside a template, too.
    method RemoveBeside(ns: string, browsers: Browsers, ghost t: TemplateObj?, ghost kept: set<VersionObj>,
                        ghost views: map<VersionObj, Version>, ghost tv: Option<Fields>, ghost e: Event)
      requires Untouched(kept, views) && Intact(t, tv) && Listed(config) + Versions(browsers) <= kept <= views.Keys
      modifies this
      ensures Untouched(kept, views) && Intact(t, tv)
      ensures Drops(old(config), config, ns, browsers) && Listed(config) <= old(Listed(config))
      ensures events == old(events) + [e] && past == old(past) + [VersionsBy(config, views)]
    {
      hide Untouched, Versions, Listed, VersionsBy, EntriesV, EntryParts, ListParts, FieldsV, Drops;
      if t != null {
        StoreIsNoPart(this, t.f);
      }
      RemoveKept(ns, browsers, kept, views, e);
    }

    method Remove(bc: BrowserConfig)
      requires Valid() && bc.Owned()
      modifies this
      ensures Valid() && bc.Owned() && bc.spec.Value() == old(bc.spec.Value())
      ensures events == old(events) + [Drop(bc.namespace, bc.name, old(bc.spec.Value()))]
      ensures past == old(past) + [Contents()] && Applied(old(Contents()), Contents(), events[|old(events)|])
      ensures Listed(config) <= old(Listed(config))
    {
      hide EntriesV, EntryParts, ListParts, Parts, FieldsV, Versions, EntryV, BrowsersV, VersionsV,
        VersionsBy, BrowsersBy, AllApart, Untouched, Names;
      ghost var browsers, before, e := bc.spec.browsers, config, Drop(bc.namespace, bc.name, bc.spec.Value());
      ghost var kept, now := Listed(config) + Versions(browsers), ViewsOf(Listed(config) + Versions(browsers));
      Snapshot(Listed(config), Versions(browsers), {});
      VersionsByExact(before, kept, now);
      BrowsersByExact(browsers, kept, now);
      RemoveBeside(bc.namespace, bc.spec.browsers, bc.spec.template, kept, now, bc.spec.TemplateV(), e);
      VersionsByExact(before, kept, now);
      BrowsersByExact(browsers, kept, now);
      VersionsByExact(config, kept, now);
      DropsV(before, config, old(Contents()), bc.namespace, browsers);
      UntouchedPart(Listed(config), kept, now);
      UntouchedPart(Versions(browsers), kept, now);
    }

    method OnDelete(obj: Delivery)
      requires Valid() && (HasObject(obj) ==> obj.bc.Owned())
      modifies this
      ensures Valid()
      ensures !HasObject(obj) ==> config == old(config) && Contents() == old(Contents()) && events == old(events)
      ensures HasObject(obj) ==>
        && events == old(events) + [Drop(obj.bc.namespace, obj.bc.name, old(obj.bc.spec.Value()))]
        && Applied(old(Contents()), Contents(), events[|old(events)|])
      ensures HasObject(obj) ==> obj.bc.Owned() && obj.bc.spec.Value() == old(obj.bc.spec.Value())
      ensures Listed(config) <= old(Listed(config))
    {
      hide EntriesV, EntryParts, ListParts, Parts, FieldsV, Listed, Versions, BrowsersV, VersionsV, Drops, AllApart;
      var bc := Unwrap(obj);
      if bc == null {
        return;
      }
      Remove(bc);
    }

    // The entry is there exactly when the latest event naming its key was an addition or
    // update, and is a merged entry of that event.
    method Get(namespace: string, browser: string, version: string) returns (cfg: VersionObj?, found: bool)
      requires Valid()
      ensures var key := KeyFor(namespace, browser, version);
              var e := LastNaming(events, key);
              && (found <==> e.Some? && e.value.Put?)
              && (found ==> Holds(e.value.ns, MergeSpec(e.value.spec).browsers, key, EntryV(cfg)))
      ensures AllPlain(events, namespace, browser) ==>
        var e := LastConcerning(events, namespace, browser, version);
        && (found <==> e.Some? && e.value.Put?)
        && (found ==> Delivers(MergeSpec(e.value.spec).browsers, browser, version, EntryV(cfg)))
      ensures cfg != null ==> found && cfg in Listed(config)
      ensures var key := KeyFor(namespace, browser, version);
              && (found <==> key in Contents()) && (found ==> Contents()[key] == EntryV(cfg))
              && (found ==> key in config && config[key] == cfg)
      ensures Valid() && config == old(config) && events == old(events) && past == old(past)
      ensures Contents() == old(Contents())
    {
      var key := KeyFor(namespace, browser, version);
      found := key in config;
      cfg := if found then config[key] else null;
      LastWriter(past, events, key);
      if AllPlain(events, namespace, browser) {
        LastInAnyCase(events, namespace, browser, version);
      }
    }
  }
}

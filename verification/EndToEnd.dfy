// From informer events to the pod that is created, and which setting wins on the way.
module EndToEnd {
  import opened Values
  import opened Kube
  import opened ConfigMerge
  import opened MergeFacts
  import opened ConfigHeap
  import opened ConfigObjects
  import opened Keys
  import opened StoreModel
  import opened Store
  import opened PodTemplate
  import opened PodBuilder
  import opened PodFacts
  import ClusterModel
  import Convergence
  import ReconcileFacts

  ghost predicate CallsFor(e: Event, key: string, v: Version) {
    e.Put? && Holds(e.ns, MergeSpec(e.spec).browsers, key, Some(v))
  }

  // What was delivered is found under any casing of its names.
  method AskAfterDelivery(store: BrowserConfigStore, bc: BrowserConfig, browser: string, version: string,
                          ghost name: string, ghost v: string)
    returns (cfg: VersionObj?, found: bool)
    requires store.Valid() && bc.Owned()
    requires name in bc.spec.Value().browsers && v in bc.spec.Value().browsers[name]
    requires SameName(name, browser) && SameName(v, version)
    requires AllPlain(store.events + [Put(bc.namespace, bc.name, bc.spec.Value())], bc.namespace, browser)
    modifies store
    ensures store.Valid() && found
    ensures Delivers(MergeSpec(old(bc.spec.Value())).browsers, browser, version, EntryV(cfg))
  {
    hide EntriesV, EntryParts, ListParts, Parts, FieldsV, Listed, VersionsV, AllApart, Untouched, History, Applied,
      MergeSpec, Delivers, Holds, LastNaming, SameName;
    ghost var e := Put(bc.namespace, bc.name, bc.spec.Value());
    store.OnAddOrUpdate(Config(bc), {});
    assert store.events[|store.events| - 1] == e && Concerns(e, bc.namespace, browser, version);
    cfg, found := store.Get(bc.namespace, browser, version);
  }

  // Building a pod leaves every cached configuration as it is.
  method BuildBeside(b: Browser, cfg: VersionObj, opts: Option<SelenosisOptions>, ghost kept: set<VersionObj>,
                     ghost views: map<VersionObj, Version>) returns (pod: PodObj)
    requires Untouched(kept, views) && cfg in kept
    ensures Untouched(kept, views)
    ensures pod.MetaIs(BuildPod(b, views[cfg], Parsed(opts)))
    ensures SpecIs(pod.spec, PodSpecFor(b.name, views[cfg], Parsed(opts)))
  {
    hide EntriesV, EntryParts, ListParts, FieldsV, SpecIs, PodSpecFor, BuildPod;
    pod := BuildBrowserPod(b, cfg, opts);
    assert forall q :: q in kept ==> q.ApartFrom({}) && q.View() == views[q];
  }

  // Lookup and build, as done for a Browser without a pod: the pod is built from a merged
  // entry of the latest event that names the Browser's configuration, and the store still
  // holds what it held.
  method PodFor(store: BrowserConfigStore, b: Browser, opts: Option<SelenosisOptions>) returns (pod: PodObj?)
    requires store.Valid()
    ensures store.Valid() && store.Contents() == old(store.Contents()) && store.events == old(store.events)
    ensures var key := KeyFor(b.namespace, b.browserName, b.browserVersion);
            var e := LastNaming(store.events, key);
            && (pod == null <==> key !in store.Contents() || store.Contents()[key].None?)
            && (pod == null ==>
                  e.None? || !e.value.Put? || Holds(e.value.ns, MergeSpec(e.value.spec).browsers, key, None))
            && (pod != null ==>
                  && e.Some? && CallsFor(e.value, key, store.Contents()[key].value)
                  && pod.MetaIs(BuildPod(b, store.Contents()[key].value, Parsed(opts)))
                  && SpecIs(pod.spec, PodSpecFor(b.name, store.Contents()[key].value, Parsed(opts))))
  {
    hide EntriesV, EntryParts, ListParts, Parts, FieldsV, Listed, VersionsV, VersionsBy, AllApart, Untouched, SpecIs,
      PodSpecFor, BuildPod, History;
    var cfg, found := store.Get(b.namespace, b.browserName, b.browserVersion);
    if !found || cfg == null {
      return null;
    }
    ghost var kept, views := Listed(store.config), ViewsOf(Listed(store.config));
    Snapshot(kept, kept, {});
    assert kept + kept == kept;
    VersionsByExact(store.config, kept, views);
    assert EntryV(cfg) == Some(views[cfg]);
    pod := BuildBeside(b, cfg, opts, kept, views);
    VersionsByExact(store.config, kept, views);
    UntouchedPart(kept, kept, views);
    assert CallsFor(LastNaming(store.events, KeyFor(b.namespace, b.browserName, b.browserVersion)).value,
                    KeyFor(b.namespace, b.browserName, b.browserVersion), views[cfg]);
  }

  // The world of the reconciler reads its configurations from the store: the pod built from
  // the store is the one that the next quiet reconcile creates.
  method PodOfWorld(store: BrowserConfigStore, w: ClusterModel.World, decode: string -> ParsedOptions)
    returns (pod: PodObj?)
    requires store.Valid() && w.configs == store.Contents()
    requires ReconcileFacts.Buildable(w, decode) && w.pod.None?
    ensures store.Valid() && w.configs == store.Contents()
    ensures var want := ReconcileFacts.BuiltPod(w, decode);
            && pod != null && pod.MetaIs(want) && SpecIs(pod.spec, want.spec)
            && Convergence.Next(w, decode).pod == Some(ClusterModel.Created(want, w.clock))
  {
    hide SpecIs, PodSpecFor, LastNaming, Holds, History, Convergence.Next;
    ReconcileFacts.PodGetsBuilt(w, decode);
    var b := w.browser.value;
    var parsed := ParseOptions(b.annotations, decode);
    pod := PodFor(store, b, if parsed.Options? then Some(parsed.options) else None);
  }

  // ----- which setting wins -------------------------------------------------------------

  // PodFacts.EnvPrecedence read off the lists as they are written, the last of a name counting.
  lemma EnvPrecedenceOnLists(b: Browser, template: Option<Fields>, own: Version, opts: ParsedOptions, name: string,
                             ts: seq<EnvVar>, os: seq<EnvVar>)
    requires template.GetOr(NO_FIELDS).env.GetOr(map[]) == EnvMap(ts) && own.fields.env.GetOr(map[]) == EnvMap(os)
    ensures var env := BuildPod(b, MergeVersion(template, own), opts).spec.containers[0].env;
            && (OptionFor(opts, "browser", name).Some? ==> ValueAt(Some(env), name) == OptionFor(opts, "browser", name))
            && (OptionFor(opts, "browser", name).None? ==>
                  && (forall i :: LastOf(os, i, name) ==> ValueAt(Some(env), name) == Some(os[i]))
                  && ((forall i :: !LastOf(os, i, name)) ==>
                        && (forall i :: LastOf(ts, i, name) ==> ValueAt(Some(env), name) == Some(ts[i]))
                        && ((forall i :: !LastOf(ts, i, name)) ==> name !in env)))
  {
    hide MergeVersion, BuildPod, LastOf, EnvMap, Wins;
    EnvPrecedence(b, template, own, opts, name);
    var r := ValueAt(Some(BuildPod(b, MergeVersion(template, own), opts).spec.containers[0].env), name);
    var x, y := ValueAt(own.fields.env, name), ValueAt(template.GetOr(NO_FIELDS).env, name);
    WinsOfThree(r, OptionFor(opts, "browser", name), x, y);
    EnvMapLast(ts, name);
    EnvMapLast(os, name);
  }
}

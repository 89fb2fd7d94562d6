// What the options annotation of a Browser does to its pod.
module OptionFacts {
  import opened Values
  import opened Kube
  import opened ConfigMerge
  import opened MergeFacts
  import opened ClusterModel
  import opened Updates
  import opened Convergence
  import opened Reconciler
  import opened PodFacts
  import PodTemplate
  import Keys

  // A live Browser that has no pod yet, and v is its configuration.
  predicate Awaits(w: World, v: Version) {
    && w.browser.Some? && w.pod.None?
    && var b := w.browser.value;
       var key := Keys.KeyFor(b.namespace, b.browserName, b.browserVersion);
       b.deletion.None? && b.status.phase != "Failed" && key in w.configs && w.configs[key] == Some(v)
  }

  // The Browser is annotated with these options.
  predicate Annotated(b: Browser, raw: string) {
    HasLabel(b.annotations, "selenosis.io/options", raw) && raw != ""
  }

  predicate Unannotated(b: Browser) {
    "selenosis.io/options" in b.annotations ==> b.annotations["selenosis.io/options"] == ""
  }

  lemma NextOfAwaiting(w: World, v: Version, decode: string -> ParsedOptions)
    requires Awaits(w, v)
    ensures var p := CalmPrepare(w, w.browser.value);
            && p.browser.Some? && p.pod.None? && p.configs == w.configs && p.clock == w.clock
            && Next(w, decode) == CalmMissing(p, w.browser.value, decode).0
  {
    hide CalmMissing, CalmPod, CalmPrepare;
    Prepares(w);
  }

  // Options that cannot be decoded fail the Browser, and no pod is created.
  lemma BadOptionsFail(w: World, v: Version, decode: string -> ParsedOptions, raw: string, m: string)
    requires Awaits(w, v) && Annotated(w.browser.value, raw) && decode(raw) == BadOptions(m)
    ensures var after := Next(w, decode);
            && after.pod.None? && after.browser.Some?
            && var s := after.browser.value.status;
               s.phase == "Failed" && s.reason == "InvalidSelenosisOptions" && s.message == m
  {
    hide CalmPrepare, PodTemplate.BuildPod;
    NextOfAwaiting(w, v, decode);
  }

  // Options that can be decoded win over the version and the template in the pod created.
  lemma OptionsWin(w: World, template: Option<Fields>, own: Version, decode: string -> ParsedOptions, raw: string,
                   o: SelenosisOptions, name: string)
    requires Awaits(w, MergeVersion(template, own))
    requires Annotated(w.browser.value, raw) && decode(raw) == Options(o)
    ensures var after, t := Next(w, decode), template.GetOr(NO_FIELDS);
            && after.pod.Some?
            && var p := after.pod.value;
               && |p.spec.containers| > 0
               && Wins(ValueAt(Some(p.spec.containers[0].env), name),
                       [OptionFor(Options(o), "browser", name), ValueAt(own.fields.env, name), ValueAt(t.env, name)])
               && Wins(ValueAt(Some(p.labels), name),
                       [ValueAt(o.labels, name), ValueAt(own.fields.labels, name), ValueAt(t.labels, name),
                        ValueAt(Some(w.browser.value.labels), name)])
  {
    hide CalmPrepare, PodTemplate.BuildPod, MergeVersion, Wins, OptionFor;
    var b := w.browser.value;
    NextOfAwaiting(w, MergeVersion(template, own), decode);
    EnvPrecedence(b, template, own, Options(o), name);
    LabelPrecedence(b, template, own, Options(o), name);
  }

  // Without options the pod is that of the configuration alone, whatever the decoder does.
  lemma NoOptionsNoChange(w: World, template: Option<Fields>, own: Version, decode: string -> ParsedOptions,
                          name: string)
    requires Awaits(w, MergeVersion(template, own)) && Unannotated(w.browser.value)
    ensures var after, t := Next(w, decode), template.GetOr(NO_FIELDS);
            && after.pod.Some?
            && var p := after.pod.value;
               && |p.spec.containers| > 0
               && Wins(ValueAt(Some(p.spec.containers[0].env), name),
                       [ValueAt(own.fields.env, name), ValueAt(t.env, name)])
               && Wins(ValueAt(Some(p.labels), name),
                       [ValueAt(own.fields.labels, name), ValueAt(t.labels, name),
                        ValueAt(Some(w.browser.value.labels), name)])
  {
    hide CalmPrepare, PodTemplate.BuildPod, MergeVersion, Wins;
    var b, t := w.browser.value, template.GetOr(NO_FIELDS);
    NextOfAwaiting(w, MergeVersion(template, own), decode);
    EnvPrecedence(b, template, own, NoOptions, name);
    LabelPrecedence(b, template, own, NoOptions, name);
    var p := Next(w, decode).pod.value;
    var env, x, y := ValueAt(Some(p.spec.containers[0].env), name), ValueAt(own.fields.env, name), ValueAt(t.env, name);
    WinsOfThree(env, None, x, y);
    WinsOfTwo(env, x, y);
    var labeled, l, m, n := ValueAt(Some(p.labels), name), ValueAt(own.fields.labels, name), ValueAt(t.labels, name),
                            ValueAt(Some(b.labels), name);
    WinsOfFour(labeled, None, l, m, n);
    WinsOfThree(labeled, l, m, n);
  }

  // No reconcile depends on the decoder but by what it makes of the annotation.
  lemma OnlyTheAnnotationIsDecoded(w: World, decode: string -> ParsedOptions, other: string -> ParsedOptions)
    requires w.browser.Some? ==> forall raw :: Annotated(w.browser.value, raw) ==> decode(raw) == other(raw)
    ensures CalmReconcile(w, decode) == CalmReconcile(w, other)
  {
    hide CalmPrepare, CalmPod, CalmDeletion, PodTemplate.BuildPod;
    if w.browser.Some? {
      var b := w.browser.value;
      assert "selenosis.io/options" in b.annotations && b.annotations["selenosis.io/options"] != "" ==>
        Annotated(b, b.annotations["selenosis.io/options"]);
    }
  }

  // Under interference: what decides whether the pod can be built, and the options it gets.
  lemma OptionsOfMissingPod(b: Browser, v: Version, decode: string -> ParsedOptions)
    ensures CanBuild(b, Some(Some(v)), decode) <==> forall raw :: Annotated(b, raw) ==> !decode(raw).BadOptions?
    ensures forall raw :: Annotated(b, raw) ==> PodFrom(b, v, decode) == PodTemplate.BuildPod(b, v, decode(raw))
    ensures Unannotated(b) ==> PodFrom(b, v, decode) == PodTemplate.BuildPod(b, v, NoOptions)
  {
    hide PodTemplate.BuildPod;
    if "selenosis.io/options" in b.annotations {
      var raw := b.annotations["selenosis.io/options"];
      assert raw != "" ==> Annotated(b, raw);
    }
  }
}

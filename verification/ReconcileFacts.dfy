// Consequences of single calls and single reconciles that their code does not show.
module ReconcileFacts {
  import opened Values
  import opened Kube
  import opened ClusterModel
  import opened Updates
  import opened Reconciler
  import opened Convergence
  import opened StatusFacts
  import PodTemplate
  import Keys

  // ----- merge patches under interference --------------------------------------------

  lemma UntouchedKey(before: map<string, string>, after: map<string, string>, stored: map<string, string>, k: string)
    requires k in before <==> k in after
    requires k in before ==> before[k] == after[k]
    ensures var r := PatchMap(before, after, stored);
            (k in r <==> k in stored) && (k in r ==> r[k] == stored[k])
  {
  }

  // What the update did not alter keeps the value it has when the patch arrives.
  lemma PatchKeepsTheRest(u: MetaUpdate, read: Browser, stored: Browser)
    ensures var r := PatchBrowser(read, ApplyMeta(u, read), stored);
            && r == stored.(finalizers := r.finalizers, labels := r.labels)
            && (if u.SetLabels? then r.finalizers == stored.finalizers else r.labels == stored.labels)
    ensures var r := PatchBrowser(read, ApplyMeta(u, read), stored);
            forall k :: k !in {BROWSER_LABEL, NAME_LABEL, VERSION_LABEL} ==>
              (k in r.labels <==> k in stored.labels) && (k in r.labels ==> r.labels[k] == stored.labels[k])
  {
    hide PatchMap;
    var after := ApplyMeta(u, read);
    forall k | k !in {BROWSER_LABEL, NAME_LABEL, VERSION_LABEL}
      ensures var l := PatchMap(read.labels, after.labels, stored.labels);
              (k in l <==> k in stored.labels) && (k in l ==> l[k] == stored.labels[k])
    {
      UntouchedKey(read.labels, after.labels, stored.labels, k);
    }
    SamePatch(read.annotations, stored.annotations);
    SamePatch(read.labels, stored.labels);
  }

  lemma SamePatch(same: map<string, string>, stored: map<string, string>)
    ensures PatchMap(same, same, stored) == stored
  {
    assert ChangedKeys(same, same) == map[];
  }

  // The value of a label that Labelled asks for.
  predicate LabelValue(b: Browser, key: string, value: string) {
    || (key == "selenosis.io/browser" && value == b.name)
    || (key == "selenosis.io/browser.name" && value == b.browserName)
    || (key == "selenosis.io/browser.version" && value == b.browserVersion)
  }

  // Labelling sets a label exactly unless the copy read had it already and somebody took it
  // away before the patch arrived.
  lemma LabelSetExactly(read: Browser, stored: Browser, key: string, value: string)
    requires LabelValue(read, key, value)
    ensures HasLabel(PatchBrowser(read, ApplyMeta(SetLabels, read), stored).labels, key, value)
       <==> !HasLabel(read.labels, key, value) || HasLabel(stored.labels, key, value)
  {
    var after := ApplyMeta(SetLabels, read);
    AmendsExact(SetLabels, read);
    assert HasLabel(after.labels, key, value);
    var r := PatchMap(read.labels, after.labels, stored.labels);
    assert key in ChangedKeys(read.labels, after.labels) <==> !HasLabel(read.labels, key, after.labels[key]);
  }

  // Finalizer lists are replaced whole: those that other controllers set between the
  // read and the patch survive exactly when the patch has nothing to say or they are
  // the ones that were read.
  lemma ForeignFinalizers(u: MetaUpdate, read: Browser, stored: Browser)
    requires !u.SetLabels?
    ensures var r := PatchBrowser(read, ApplyMeta(u, read), stored);
            (forall x :: x != FINALIZER ==> (x in r.finalizers <==> x in stored.finalizers))
            <==> (|| ApplyMeta(u, read).finalizers == read.finalizers
                  || (forall x :: x != FINALIZER ==> (x in read.finalizers <==> x in stored.finalizers)))
  {
    var after := ApplyMeta(u, read);
    assert forall x :: x != FINALIZER ==> (x in after.finalizers <==> x in read.finalizers);
  }

  // ----- deletion ----------------------------------------------------------------------

  lemma {:induction false} Spaced(vs: seq<Visit>, k: nat)
    requires k < |vs|
    requires forall i :: 0 < i < |vs| ==> vs[i].now >= vs[i - 1].now + QUICK_CHECK
    ensures vs[k].now >= vs[0].now + QUICK_CHECK * k
  {
    if k > 0 {
      Spaced(vs, k - 1);
    }
  }

  // Waiting visits at least quickCheck apart, the later ones of a pod deleted at d or sooner.
  lemma DeletionBound(vs: seq<Visit>, d: Time)
    requires vs != [] && forall i :: 0 <= i < |vs| ==> vs[i].pod.Some? && Waits(vs[i])
    requires forall i :: 0 < i < |vs| ==> vs[i].now >= vs[i - 1].now + QUICK_CHECK
    requires forall i :: 0 < i < |vs| ==> vs[i].pod.value.deletion.Some? && vs[i].pod.value.deletion.value <= d
    requires vs[0].now <= d + FIVE_MINUTES
    ensures |vs| <= (d + FIVE_MINUTES - vs[0].now) / 3_000 + 1
  {
    var n := |vs| - 1;
    Spaced(vs, n);
    assert vs[n].now <= d + POD_DELETION_TIMEOUT;
  }

  // The pod was to be gone five minutes ago.
  predicate Overdue(p: Pod, now: Time) {
    p.deletion.Some? && now - p.deletion.value > FIVE_MINUTES
  }

  // On a quiet cluster the finalizer of a Browser under deletion goes with the first
  // reconcile that finds the pod gone or overdue, and never earlier.
  lemma FinalizerGoesOnTime(w: World, decode: string -> ParsedOptions)
    requires Held(w) && w.browser.value.deletion.Some?
    ensures Held(Next(w, decode)) <==> w.pod.Some? && !Overdue(w.pod.value, w.clock)
    ensures !Held(Next(w, decode)) && w.browser.value.finalizers == [FINALIZER] ==> Next(w, decode).browser.None?
  {
    hide CalmPod, CalmMissing;
    if w.browser.value.finalizers == [FINALIZER] {
      OnlyOurs(w.browser.value.finalizers);
    }
  }

  // ----- creation ------------------------------------------------------------------------

  // A Browser not under deletion in a world whose store and options let its pod be built.
  predicate Configured(w: World, decode: string -> ParsedOptions) {
    && w.browser.Some? && w.browser.value.deletion.None?
    && var b := w.browser.value;
       var key := Keys.KeyFor(b.namespace, b.browserName, b.browserVersion);
       && key in w.configs && w.configs[key].Some?
       && !PodTemplate.ParseOptions(b.annotations, decode).BadOptions?
  }

  predicate Buildable(w: World, decode: string -> ParsedOptions) {
    Configured(w, decode) && w.browser.value.status.phase != FAILED
  }

  function BuiltPod(w: World, decode: string -> ParsedOptions): Pod
    requires Buildable(w, decode)
  {
    var b := w.browser.value;
    PodFrom(b, w.configs[Keys.KeyFor(b.namespace, b.browserName, b.browserVersion)].value, decode)
  }

  lemma PodGetsBuilt(w: World, decode: string -> ParsedOptions)
    requires Buildable(w, decode) && w.pod.None?
    ensures Next(w, decode).pod == Some(Created(BuiltPod(w, decode), w.clock))
    ensures Next(w, decode).browser == CalmPrepare(w, w.browser.value).browser
  {
    hide CalmPrepare, CalmPod, PodTemplate.BuildPod;
    Prepares(w);
  }

  // Without a configuration the Browser fails.
  lemma MissingConfigFails(w: World, decode: string -> ParsedOptions)
    requires w.browser.Some? && w.pod.None? && w.browser.value.deletion.None? && !IsFailed(w)
    requires var b := w.browser.value;
             var key := Keys.KeyFor(b.namespace, b.browserName, b.browserVersion);
             key in w.configs ==> w.configs[key].None?
    ensures var after := Next(w, decode);
            && after.pod.None? && after.browser.Some?
            && var s := after.browser.value.status;
               s.phase == "Failed" && s.reason == "BrowserPodSpec" && s.message == "Browser configuration not found"
  {
    hide CalmPrepare, CalmPod;
    Prepares(w);
  }

  // A live Browser gets all three labels unless it has the first one already.
  lemma LabelsPrepared(w: World)
    requires w.browser.Some? && w.browser.value.deletion.None?
    ensures var b, after := w.browser.value, CalmPrepare(w, w.browser.value).browser;
            && after.Some?
            && if LabelOf(b.labels, "selenosis.io/browser") == b.name then after.value.labels == b.labels
               else Labelled(after.value.labels, b)
  {
    AmendsExact(SetLabels, w.browser.value);
    AmendsExact(AddFinalizer, w.browser.value);
  }

  // ----- the next reconcile --------------------------------------------------------------

  predicate AnyOffends(p: Pod, now: Time) {
    exists i :: 0 <= i < |p.status.containers| && Offends(p.status.containers[i], p.creation, now)
  }

  // The reconcile asked for in three seconds: while a pod is awaited, or was just created.
  predicate ComesSoon(w: World, decode: string -> ParsedOptions) {
    && w.browser.Some?
    && if w.browser.value.deletion.Some? then Held(w) && w.pod.Some? && !Overdue(w.pod.value, w.clock)
       else w.pod.None? && Buildable(w, decode)
  }

  // In half a minute: while there is nothing to do but to mirror the pod.
  predicate ComesLater(w: World) {
    && w.browser.Some? && w.pod.Some? && w.browser.value.deletion.None? && !IsFailed(w)
    && w.pod.value.deletion.None?
    && if w.pod.value.status.phase == "Pending" then !AnyOffends(w.pod.value, w.clock)
       else !CriticallyTerminated(w.pod.value)
  }

  lemma WhenItComesBack(w: World, decode: string -> ParsedOptions)
    ensures CalmReconcile(w, decode).1 ==
      if ComesSoon(w, decode) then After(3_000) else if ComesLater(w) then After(30_000) else Done
  {
    hide CalmPrepare, CalmMeta, CalmStatus, CalmRemovePod, CalmDeleteBrowser, MirrorOf, PodTemplate.BuildPod, Effect;
    if w.browser.Some? && w.browser.value.deletion.None? && !IsFailed(w) {
      Prepares(w);
      if w.pod.Some? {
        PodComesBack(CalmPrepare(w, w.browser.value), w.browser.value, w.pod.value);
      }
    }
  }

  lemma PodComesBack(w: World, b: Browser, p: Pod)
    ensures CalmPod(w, b, p).1 ==
      if p.deletion.None?
         && (if p.status.phase == PENDING then !AnyOffends(p, w.clock) else !CriticallyTerminated(p))
      then After(30_000) else Done
  {
    hide CalmMeta, CalmStatus, CalmRemovePod, CalmDeleteBrowser, MirrorOf;
    var cs := p.status.containers;
    forall j | 0 <= j < |cs|
      ensures Judge(cs[j], p.creation, w.clock).Fine? <==> !Offends(cs[j], p.creation, w.clock)
    {
      JudgeExact(cs[j], p.creation, w.clock);
    }
    if p.status.phase == PENDING && !AnyOffends(p, w.clock) {
      assert forall j :: 0 <= j < |cs| ==> !IsCritical(cs[j]);
    }
  }

  // A pod created by the reconcile that labels its Browser is built from the unlabelled
  // copy: it carries the label only if it comes from elsewhere.
  lemma FirstPodLabel(w: World, decode: string -> ParsedOptions)
    requires Buildable(w, decode) && w.pod.None?
    requires LabelOf(w.browser.value.labels, BROWSER_LABEL) != w.browser.value.name
    ensures var after := Next(w, decode);
            && after.browser.Some? && Labelled(after.browser.value.labels, w.browser.value)
            && after.pod.Some? && after.pod.value.labels == BuiltPod(w, decode).labels
    ensures var b := w.browser.value;
            var v := w.configs[Keys.KeyFor(b.namespace, b.browserName, b.browserVersion)].value;
            var opts := PodTemplate.ParseOptions(b.annotations, decode);
            BROWSER_LABEL in BuiltPod(w, decode).labels <==>
              (|| BROWSER_LABEL in b.labels || BROWSER_LABEL in v.fields.labels.GetOr(map[])
               || BROWSER_LABEL in PodTemplate.LabelOptions(opts))
  {
    hide CalmPrepare, CalmPod, CalmReconcile;
    PodGetsBuilt(w, decode);
    LabelsPrepared(w);
  }
}

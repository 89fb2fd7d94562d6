// What the modelled API server makes of patches, creates and deletes, value by value.
module ServerFacts {
  import opened Values
  import opened Kube
  import opened ClusterModel

  // Section 2 of RFC 7396: a member in which the copies differ gets the value it has in the
  // second one, or goes if that lacks it; any other member stays.
  lemma MergePatchExact(before: map<string, string>, after: map<string, string>, stored: map<string, string>,
                        key: string)
    ensures var r := PatchMap(before, after, stored);
            var same := if key in before then key in after && before[key] == after[key] else key !in after;
            && (same ==> (key in r <==> key in stored) && (key in r ==> r[key] == stored[key]))
            && (!same ==> (key in r <==> key in after) && (key in r ==> r[key] == after[key]))
  {
  }

  // Fields in which the copies differ are written, the others stay; the metadata endpoint
  // leaves the status alone, the status endpoint everything else.
  predicate Written<T(==)>(before: T, after: T, stored: T, r: T) {
    (before != after ==> r == after) && (before == after ==> r == stored)
  }

  lemma MetaPatchExact(before: Browser, after: Browser, stored: Browser)
    ensures var r := PatchBrowser(before, after, stored);
            && r.uid == stored.uid && r.name == stored.name && r.namespace == stored.namespace
            && r.deletion == stored.deletion && r.status == stored.status
            && Written(before.finalizers, after.finalizers, stored.finalizers, r.finalizers)
            && Written(before.browserName, after.browserName, stored.browserName, r.browserName)
            && Written(before.browserVersion, after.browserVersion, stored.browserVersion, r.browserVersion)
            && r.labels == PatchMap(before.labels, after.labels, stored.labels)
            && r.annotations == PatchMap(before.annotations, after.annotations, stored.annotations)
  {
  }

  lemma StatusPatchExact(w: World, before: Browser, after: Browser)
    requires w.browser.Some?
    ensures var v := Effect(PatchStatus(before, after, None), w);
            && v == w.(browser := v.browser) && v.browser.Some?
            && var r := v.browser.value;
               && r == w.browser.value.(status := r.status)
               && var x, y, s := before.status, after.status, w.browser.value.status;
                  && Written(x.podIP, y.podIP, s.podIP, r.status.podIP)
                  && Written(x.phase, y.phase, s.phase, r.status.phase)
                  && Written(x.message, y.message, s.message, r.status.message)
                  && Written(x.reason, y.reason, s.reason, r.status.reason)
                  && Written(x.startTime, y.startTime, s.startTime, r.status.startTime)
                  && Written(x.containers, y.containers, s.containers, r.status.containers)
  {
  }

  // A delete removes the pod exactly if it is due at once and nothing holds it. Otherwise the
  // pod has to go by the end of the grace period, or sooner if it had to already.
  lemma DeletePodExact(w: World, force: bool)
    requires w.pod.Some?
    ensures var p, v := w.pod.value, Effect(DeletePod(force, None), w);
            && v == w.(pod := v.pod)
            && (v.pod.None? <==> (force || p.grace == 0) && !p.held)
            && (v.pod.Some? ==>
                  && v.pod.value == p.(deletion := v.pod.value.deletion) && v.pod.value.deletion.Some?
                  && var d, due := v.pod.value.deletion.value, if force then w.clock else w.clock + p.grace;
                     && d <= due && (p.deletion.Some? ==> d <= p.deletion.value)
                     && (d == due || p.deletion == Some(d)))
  {
  }

  // A Browser with finalizers is only marked, with the time of the first delete.
  lemma DeleteBrowserExact(w: World)
    requires w.browser.Some?
    ensures var b, v := w.browser.value, Effect(DeleteBrowser(None), w);
            && v == w.(browser := v.browser)
            && (v.browser.None? <==> b.finalizers == [])
            && (v.browser.Some? ==>
                  v.browser.value == if b.deletion.Some? then b else b.(deletion := Some(w.clock)))
  {
  }

  // A patch removes the Browser exactly if it is under deletion and loses its last finalizer.
  lemma LastFinalizer(w: World, before: Browser, after: Browser)
    requires w.browser.Some?
    ensures var r := PatchBrowser(before, after, w.browser.value);
            var v := Effect(PatchMeta(before, after, None), w);
            && v == w.(browser := v.browser)
            && (v.browser.None? <==> w.browser.value.deletion.Some? && r.finalizers == [])
            && (v.browser.Some? ==> v.browser.value == r)
  {
  }

  // A created pod is pending, new and not on its way out; what was sent is kept.
  lemma CreateExact(w: World, p: Pod)
    ensures var v := Effect(CreatePod(p, None), w);
            && v == w.(pod := v.pod) && v.pod.Some?
            && var c := v.pod.value;
               && c.name == p.name && c.namespace == p.namespace && c.owner == p.owner && c.spec == p.spec
               && c.labels == p.labels && c.annotations == p.annotations && c.grace == p.grace && c.held == p.held
               && c.creation == Some(w.clock) && c.deletion.None?
               && c.status.phase == "Pending" && c.status.containers == []
  {
  }

  // A call that fails, and one that only reads, changes nothing.
  lemma OnlyWritesWrite(w: World, act: Act)
    requires act.Env? || act.GetBrowser? || act.GetPod? || act.ReadClock? || act.Lookup? || act.error.Some?
    ensures Effect(act, w) == w
  {
  }
}

// On a quiet cluster (clock, configuration and pod status frozen but for the
// controller's own calls) repeated reconciles come to rest after at most three writes.
module Convergence {
  import opened Values
  import opened Kube
  import opened ClusterModel
  import opened Updates
  import opened StatusFacts
  import PodTemplate

  predicate Prepared(b: Browser) {
    HasFinalizer(b) && LabelOf(b.labels, BROWSER_LABEL) == b.name && b.status.phase != NO_PHASE
  }

  // A pod whose status is only mirrored.
  predicate Healthy(p: Pod, now: Time) {
    && p.deletion.None? && p.status.phase != FAILED && !CriticallyTerminated(p)
    && (p.status.phase == PENDING ==>
          forall i :: 0 <= i < |p.status.containers| ==> Judge(p.status.containers[i], p.creation, now).Fine?)
  }

  // How many more reconciles may write, by deletion stage, finalizer, label, phase, pod
  // and status mismatch.
  function Rank(w: World): nat {
    if w.browser.None? then 0
    else
      var b := w.browser.value;
      if b.deletion.Some? then
        if !HasFinalizer(b) then 0
        else if w.pod.None? then 1
        else if w.pod.value.deletion.None? then 2
        else if w.clock - w.pod.value.deletion.value > POD_DELETION_TIMEOUT then 1
        else 0
      else if b.status.phase == FAILED then if HasFinalizer(b) then 1 else 0
      else if Prepared(b) && w.pod.Some? && Healthy(w.pod.value, w.clock) then
        if Mirrors(b.status, w.pod.value) then 0 else 1
      else 3
  }

  function Next(w: World, decode: string -> ParsedOptions): World {
    CalmReconcile(w, decode).0
  }

  lemma HealthyMirrored(w: World, b: Browser, p: Pod)
    requires w.pod == Some(p) && Healthy(p, w.clock)
    ensures CalmPod(w, b, p) == CalmMirror(w, b, p)
  {
    hide CalmMirror;
  }

  // A reconcile of a deleting or Failed Browser.
  lemma EndingDrops(w: World, decode: string -> ParsedOptions)
    requires w.browser.Some? && (w.browser.value.deletion.Some? || w.browser.value.status.phase == FAILED)
    ensures if Rank(w) == 0 then Next(w, decode) == w else Rank(Next(w, decode)) < Rank(w)
  {
    hide CalmPod, CalmMissing;
  }

  // What the preparation of a live Browser establishes.
  lemma Prepares(w: World)
    requires w.browser.Some? && w.browser.value.deletion.None?
    ensures var b, v := w.browser.value, CalmPrepare(w, w.browser.value);
            && v.browser.Some? && v.pod == w.pod && v.clock == w.clock && v.configs == w.configs
            && Prepared(v.browser.value) && v.browser.value.deletion.None?
            && v.browser.value.status == (if b.status.phase == NO_PHASE then b.status.(phase := PENDING) else b.status)
            && (Prepared(b) ==> v == w)
  {
    assert |BROWSER_LABEL| != |NAME_LABEL| && |BROWSER_LABEL| != |VERSION_LABEL|;
  }

  // A live Browser whose pod is only mirrored is at rest after one write.
  lemma HealthyDrops(w: World, decode: string -> ParsedOptions)
    requires WellFormed(w) && w.browser.Some? && w.pod.Some? && Healthy(w.pod.value, w.clock)
    requires w.browser.value.deletion.None? && w.browser.value.status.phase != FAILED
    ensures Rank(Next(w, decode)) == 0
    ensures Rank(w) == 0 ==> Next(w, decode) == w
  {
    hide CalmMirror, Mirrors, CalmPrepare, CalmMissing, CalmPod;
    var b, p := w.browser.value, w.pod.value;
    var v := CalmPrepare(w, b);
    Prepares(w);
    HealthyMirrored(v, b, p);
    MirrorReached(v, b, p);
    MirrorShape(v, b, p);
    if Mirrors(b.status, p) {
      NothingChanged(b.status, p);
      MirrorIdle(v, b, p);
    }
  }

  lemma MirrorIdle(v: World, b: Browser, p: Pod)
    requires !PodFieldsChanged(b.status, p.status) && !ContainersChanged(b.status, p) && !CriticallyTerminated(p)
    ensures CalmMirror(v, b, p).0 == v
  {
  }

  // Mirroring touches nothing but the status.
  lemma MirrorShape(v: World, b: Browser, p: Pod)
    requires v.browser.Some? && !CriticallyTerminated(p)
    ensures var after := CalmMirror(v, b, p).0;
            && after.browser.Some? && after == v.(browser := after.browser)
            && after.browser.value == v.browser.value.(status := after.browser.value.status)
  {
  }

  lemma DeletingRank(v: World, b: Browser)
    requires v.browser.Some?
    ensures Rank(CalmDeleteBrowser(v, b)) <= 2
  {
  }

  lemma FailingRank(v: World, u: StatusUpdate)
    requires v.browser.Some? && v.browser.value.deletion.None? && NewPhase(u) == FAILED
    ensures Rank(CalmStatus(v, u)) <= 1
    ensures var after := CalmStatus(v, u).browser; after.Some? && after.value.deletion.None?
  {
  }

  lemma RemovePodKeepsBrowser(v: World)
    ensures CalmRemovePod(v, true).browser == v.browser
  {
  }

  // A terminated critical container ends in deletion.
  lemma CriticalRank(v: World, b: Browser, p: Pod)
    requires v.browser.Some? && CriticallyTerminated(p)
    ensures Rank(CalmMirror(v, b, p).0) <= 2
  {
    hide Rank;
    DeletingRank(if b.status.phase != FAILED then CalmStatus(v, Terminal(p)) else v, b);
  }

  lemma FailedPodRank(v: World, b: Browser, p: Pod)
    requires v.browser.Some? && v.browser.value.deletion.None?
    requires p.status.phase == FAILED && b.status.phase != FAILED
    ensures Rank(CalmMirror(CalmStatus(CalmRemovePod(v, true), FailedPod(p)), b, p).0) <= 2
  {
    hide Rank, CalmRemovePod;
    RemovePodKeepsBrowser(v);
    var x := CalmStatus(CalmRemovePod(v, true), FailedPod(p));
    if CriticallyTerminated(p) {
      CriticalRank(x, b, p);
    } else {
      FailingRank(x, MirrorOf(b.status, p));
    }
  }

  // A live Browser with any other pod ends up Failed or under deletion.
  lemma SickDrops(w: World, decode: string -> ParsedOptions)
    requires w.browser.Some? && w.pod.Some? && !Healthy(w.pod.value, w.clock)
    requires w.browser.value.deletion.None? && w.browser.value.status.phase != FAILED
    ensures Rank(Next(w, decode)) < 3
  {
    hide CalmPrepare, CalmMissing, CalmMirror, CalmDeleteBrowser, CalmStatus, CalmRemovePod, Rank, Judge;
    Prepares(w);
    var b, p := w.browser.value, w.pod.value;
    var v := CalmPrepare(w, b);
    if p.deletion.Some? {
      DeletingRank(v, b);
    } else if p.status.phase == FAILED {
      FailedPodRank(v, b, p);
    } else if && p.status.phase == PENDING
              && FirstOffender(p.status.containers, p.creation, v.clock, 0) < |p.status.containers| {
      OffenderRank(v, p, FirstOffender(p.status.containers, p.creation, v.clock, 0));
    } else {
      CriticalRank(v, b, p);
    }
  }

  lemma OffenderRank(v: World, p: Pod, i: nat)
    requires v.browser.Some? && v.browser.value.deletion.None? && i < |p.status.containers|
    requires !Judge(p.status.containers[i], p.creation, v.clock).Fine?
    ensures var c := p.status.containers[i]; Rank(CalmVerdict(v, c, Judge(c, p.creation, v.clock))) <= 1
  {
    hide Rank, CalmStatus, CalmRemovePod;
    var c := p.status.containers[i];
    RemovePodKeepsBrowser(v);
    match Judge(c, p.creation, v.clock)
    case Stopped => FailingRank(v, StoppedContainer(c));
    case Late => FailingRank(v, CREATION_TIMEOUT);
    case Stuck => FailingRank(CalmRemovePod(v, true), StuckContainer(c));
  }

  // A live Browser without a pod gets one, or fails.
  lemma MissingDrops(w: World, decode: string -> ParsedOptions)
    requires w.browser.Some? && w.pod.None?
    requires w.browser.value.deletion.None? && w.browser.value.status.phase != FAILED
    ensures Rank(Next(w, decode)) < 3
  {
    hide CalmPrepare, CalmPod, Mirrors, PodTemplate.BuildPod;
    Prepares(w);
  }

  // Every reconcile either writes and lowers the rank, or writes nothing.
  lemma RankDrops(w: World, decode: string -> ParsedOptions)
    requires WellFormed(w)
    ensures if Rank(w) == 0 then Next(w, decode) == w else Rank(Next(w, decode)) < Rank(w)
  {
    if w.browser.Some? {
      var b := w.browser.value;
      if b.deletion.Some? || b.status.phase == FAILED {
        EndingDrops(w, decode);
      } else if w.pod.None? {
        MissingDrops(w, decode);
      } else if Healthy(w.pod.value, w.clock) {
        HealthyDrops(w, decode);
      } else {
        SickDrops(w, decode);
      }
    }
  }

  // ----- any number of reconciles -----------------------------------------------------

  function Iterate(w: World, decode: string -> ParsedOptions, n: nat): World
    decreases n
  {
    if n == 0 then w else Iterate(Next(w, decode), decode, n - 1)
  }

  lemma {:induction false} IterateNext(w: World, decode: string -> ParsedOptions, n: nat)
    ensures Iterate(w, decode, n + 1) == Next(Iterate(w, decode, n), decode)
    decreases n
  {
    hide Next;
    if n > 0 {
      IterateNext(Next(w, decode), decode, n - 1);
    }
  }

  lemma {:induction false} AtRest(w: World, decode: string -> ParsedOptions, n: nat)
    requires WellFormed(w) && Rank(w) == 0
    ensures Iterate(w, decode, n) == w
    decreases n
  {
    RankDrops(w, decode);
    if n > 0 {
      AtRest(w, decode, n - 1);
    }
  }

  lemma MirrorPod(w: World, b: Browser, p: Pod)
    ensures CalmMirror(w, b, p).0.pod == w.pod
  {
    hide ApplyMeta, ApplyStatus, MirrorOf;
  }

  lemma PodWellFormed(w: World, b: Browser, p: Pod)
    requires WellFormed(w)
    ensures WellFormed(CalmPod(w, b, p).0)
  {
    hide CalmMirror, ApplyMeta, ApplyStatus, Judge;
    MirrorPod(w, b, p);
    MirrorPod(CalmStatus(CalmRemovePod(w, true), FailedPod(p)), b, p);
  }

  lemma NextWellFormed(w: World, decode: string -> ParsedOptions)
    requires WellFormed(w)
    ensures WellFormed(Next(w, decode))
  {
    hide CalmPod, CalmPrepare, ApplyMeta, ApplyStatus;
    if w.browser.Some? && w.browser.value.deletion.None? {
      Prepares(w);
      var v := CalmPrepare(w, w.browser.value);
      if v.pod.Some? {
        PodWellFormed(v, w.browser.value, v.pod.value);
      }
    }
  }

  lemma {:induction false} ConvergesIn(w: World, decode: string -> ParsedOptions, k: nat, n: nat)
    requires WellFormed(w) && Rank(w) <= k <= n
    ensures Iterate(w, decode, n) == Iterate(w, decode, k)
    decreases k
  {
    RankDrops(w, decode);
    if Rank(w) == 0 {
      AtRest(w, decode, n);
      AtRest(w, decode, k);
    } else {
      NextWellFormed(w, decode);
      ConvergesIn(Next(w, decode), decode, k - 1, n - 1);
    }
  }

  // From any state at most the first three reconciles change anything.
  lemma Converges(w: World, decode: string -> ParsedOptions, n: nat)
    requires WellFormed(w) && n >= 3
    ensures Iterate(w, decode, n) == Iterate(w, decode, 3)
  {
    ConvergesIn(w, decode, 3, n);
  }

  // Three can be needed: when this reconcile added the finalizer itself, deleteBrowser
  // does not see it on its copy, so the Browser waits for its pod to be deleted first.
  lemma ThreeNeeded(w: World, decode: string -> ParsedOptions)
    requires w.browser.Some? && w.browser.value.finalizers == [] && w.browser.value.deletion.None?
    requires w.browser.value.status.phase != FAILED
    requires w.pod.Some? && CriticallyTerminated(w.pod.value)
    requires var p := w.pod.value; p.deletion.None? && p.status.phase !in {FAILED, PENDING} && p.grace == 0 && !p.held
    ensures var w1 := Next(w, decode); var w2 := Next(w1, decode); var w3 := Next(w2, decode);
            && Held(w1) && w1.browser.value.deletion.Some? && w1.pod == w.pod
            && w2 == w1.(pod := None) && w3 == w2.(browser := None)
  {
    hide CalmPrepare;
    Prepares(w);
    var b := w.browser.value;
    var v := CalmPrepare(w, b);
    assert !HasFinalizer(b) && CalmPod(v, b, w.pod.value) == CalmMirror(v, b, w.pod.value);
    var w1 := Next(w, decode);
    assert Held(w1) && w1.browser.value.deletion.Some? && w1.pod == w.pod;
    var w2 := Next(w1, decode);
    assert w2 == w1.(pod := None);
    PrepareAddsOnlyOurs(w);
    OnlyOurs(w1.browser.value.finalizers);
  }

  lemma PrepareAddsOnlyOurs(w: World)
    requires w.browser.Some? && w.browser.value.finalizers == [] && w.browser.value.deletion.None?
    ensures CalmPrepare(w, w.browser.value).browser.value.finalizers == [FINALIZER]
  {
  }

  lemma OnlyOurs(s: seq<string>)
    requires s == [FINALIZER]
    ensures Without(s, FINALIZER) == []
  {
  }
}

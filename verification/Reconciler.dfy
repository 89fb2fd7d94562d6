// The Browser reconciler, call by call. Every method keeps the run guarded (see
// ClusterModel.GuardedRun) whatever the other actors and faults do, and on a quiet cluster
// computes exactly the reconcile of module Updates.
module Reconciler {
  import opened Values
  import opened Kube
  import opened ClusterModel
  import opened Updates
  import opened StatusFacts
  import PodTemplate
  import Keys

  function Backoff(i: nat): nat {
    if i == 0 then 100 else 2 * Backoff(i - 1)
  }

  lemma BackoffBound(i: nat)
    requires i <= MAX_RETRIES
    ensures Backoff(i) <= 3200 && (i == 5 ==> Backoff(i) == 3200)
  {
    assert Backoff(2) == 400 && Backoff(4) == 1600;
  }

  // The stored Browser, if it is still there, is the one b was read from, with status s.
  predicate Knows(b: Browser, w: World, s: BrowserStatus) {
    w.browser.Some? ==>
      && w.browser.value.uid == b.uid && w.browser.value.name == b.name && w.browser.value.namespace == b.namespace
      && w.browser.value.status == s
  }

  function StatusAfterPrepare(b: Browser): BrowserStatus {
    if b.status.phase == NO_PHASE then b.status.(phase := PENDING) else b.status
  }

  // What one reconcile read of the pod, and the time.
  datatype Visit = Visit(pod: Option<Pod>, now: Time)

  // The finalizer of a Browser under deletion has to wait for the pod.
  predicate Waits(v: Visit) {
    && v.pod.Some?
    && (v.pod.value.deletion.Some? ==> v.now - v.pod.value.deletion.value <= POD_DELETION_TIMEOUT)
  }

  // The pod grew older between the worlds x and y, where it was read as v in between.
  predicate Aged(x: World, v: Visit, y: World) {
    Older(x.pod, v.pod) && Older(v.pod, y.pod) && Going(y)
  }

  // The reading v of a Browser under deletion is what the calls of this round returned.
  ghost predicate VisitOf(t: seq<Step>, round: nat, b: Browser, v: Visit) {
    match v.pod
    case None => exists x :: Saw(t, round, GetPod(b, Err(x)))
    case Some(p) => Saw(t, round, GetPod(b, Ok(p))) && (p.deletion.Some? ==> Saw(t, round, ReadClock(v.now)))
  }

  lemma VisitOfExtends(t: seq<Step>, t': seq<Step>, round: nat, b: Browser, v: Visit)
    requires t <= t' && VisitOf(t, round, b, v)
    ensures VisitOf(t', round, b, v)
  {
    hide Saw;
    match v.pod
    case None =>
      var x :| Saw(t, round, GetPod(b, Err(x)));
      SawExtends(t, t', round, GetPod(b, Err(x)));
    case Some(p) =>
      SawExtends(t, t', round, GetPod(b, Ok(p)));
      if p.deletion.Some? {
        SawExtends(t, t', round, ReadClock(v.now));
      }
  }

  // The last call, made in this round, was an accepted patch, in world `at`, of what u makes
  // of the copy `read`; the call before it read that copy.
  ghost predicate SentMeta(t: seq<Step>, round: nat, u: MetaUpdate, read: Browser, at: World) {
    && |t| > 2 && t[|t| - 1].round == round && t[|t| - 3].act == GetBrowser(Ok(read))
    && t[|t| - 1].pre == at && t[|t| - 1].act == PatchMeta(read, ApplyMeta(u, read), None)
    && Amends(u, read, t[|t| - 1].act.after)
  }

  // The same for a patch of the status.
  ghost predicate SentStatus(t: seq<Step>, round: nat, u: StatusUpdate, at: World) {
    && |t| > 2 && t[|t| - 1].round == round && t[|t| - 1].pre == at
    && t[|t| - 1].act.PatchStatus? && t[|t| - 1].act.error.None?
    && var read := t[|t| - 1].act.before;
       && t[|t| - 3].act == GetBrowser(Ok(read))
       && t[|t| - 1].act.after == read.(status := ApplyStatus(u, read.status))
  }

  // In this round the update was applied to a copy, and the patch accepted.
  ghost predicate Patched(t: seq<Step>, round: nat, u: MetaUpdate) {
    exists read, after :: Saw(t, round, PatchMeta(read, after, None)) && Amends(u, read, after)
  }

  // The phase was, to Pending.
  ghost predicate PendingPatched(t: seq<Step>, round: nat) {
    exists read: Browser ::
      Saw(t, round, PatchStatus(read, read.(status := read.status.(phase := "Pending")), None))
  }

  // What the copy b was missing of finalizer, labels and first phase has been patched.
  ghost predicate Prepared(t: seq<Step>, round: nat, b: Browser) {
    && (!HasFinalizer(b) ==> Patched(t, round, AddFinalizer))
    && (LabelOf(b.labels, BROWSER_LABEL) != b.name ==> Patched(t, round, SetLabels))
    && (b.status.phase == NO_PHASE ==> PendingPatched(t, round))
  }

  lemma SentIsPatched(t: seq<Step>, round: nat, u: MetaUpdate, read: Browser, at: World)
    requires SentMeta(t, round, u, read, at)
    ensures Patched(t, round, u)
  {
    SawLast(t, round, PatchMeta(read, ApplyMeta(u, read), None));
  }

  lemma SentIsPending(t: seq<Step>, round: nat, at: World)
    requires SentStatus(t, round, SetPending, at)
    ensures PendingPatched(t, round)
  {
    var read := t[|t| - 1].act.before;
    SawLast(t, round, PatchStatus(read, read.(status := read.status.(phase := "Pending")), None));
  }

  lemma PatchedExtends(t: seq<Step>, t': seq<Step>, round: nat, u: MetaUpdate)
    requires t <= t'
    ensures Patched(t, round, u) ==> Patched(t', round, u)
  {
    hide Saw, Amends;
    if Patched(t, round, u) {
      var read, after :| Saw(t, round, PatchMeta(read, after, None)) && Amends(u, read, after);
      SawExtends(t, t', round, PatchMeta(read, after, None));
    }
  }

  lemma PreparedExtends(t: seq<Step>, t': seq<Step>, round: nat, b: Browser)
    requires t <= t' && Prepared(t, round, b)
    ensures Prepared(t', round, b)
  {
    hide Saw, Patched;
    PatchedExtends(t, t', round, AddFinalizer);
    PatchedExtends(t, t', round, SetLabels);
    if b.status.phase == NO_PHASE {
      var read: Browser :|
        Saw(t, round, PatchStatus(read, read.(status := read.status.(phase := "Pending")), None));
      SawExtends(t, t', round, PatchStatus(read, read.(status := read.status.(phase := "Pending")), None));
    }
  }

  // The status stored in w is what u makes of the one stored in v.
  predicate Stored(u: StatusUpdate, v: World, w: World) {
    v.browser.Some? && w.browser.Some? && w.browser.value.status == ApplyStatus(u, v.browser.value.status)
  }

  // What the scan stores about an offending container.
  function VerdictUpdate(c: ContainerStatus, v: Verdict): StatusUpdate
    requires !v.Fine? && (v.Stuck? ==> IsStuck(c))
    ensures NewPhase(VerdictUpdate(c, v)) == FAILED
  {
    match v
    case Stopped => StoppedContainer(c)
    case Late => CREATION_TIMEOUT
    case Stuck => StuckContainer(c)
  }

  // The verdict on the container depends on the age of the pod.
  predicate TimeMatters(c: ContainerStatus, creation: Option<Time>) {
    c.state.terminated.None? && c.state.waiting.Some? && creation.Some?
  }

  // The times at which the first containers of p were judged were read from step `from` on.
  ghost predicate TimesRead(t: seq<Step>, from: nat, p: Pod, times: seq<Time>) {
    && |times| <= |p.status.containers|
    && forall j :: 0 <= j < |times| && TimeMatters(p.status.containers[j], p.creation) ==> ClockRead(t, from, times[j])
  }

  lemma NoTimesRead(t: seq<Step>, p: Pod)
    ensures TimesRead(t, |t|, p, [])
  {
  }

  lemma OneMoreTime(t: seq<Step>, t': seq<Step>, from: nat, p: Pod, times: seq<Time>, now: Time)
    requires TimesRead(t, from, p, times) && t <= t' && from <= |t| && |times| < |p.status.containers|
    requires TimeMatters(p.status.containers[|times|], p.creation) ==> ClockRead(t', |t|, now)
    ensures TimesRead(t', from, p, times + [now])
  {
    hide ClockRead, TimeMatters;
    forall j | 0 <= j < |times| && TimeMatters(p.status.containers[j], p.creation)
      ensures ClockRead(t', from, times[j])
    {
      ClockReadExtends(t, t', from, from, times[j]);
    }
    if TimeMatters(p.status.containers[|times|], p.creation) {
      ClockReadExtends(t', t', |t|, from, now);
    }
  }

  lemma StoredFrom(x: StatusUpdate, u: World, v: World, w: World)
    requires Rely(u, v)
    ensures Stored(x, v, w) ==> Stored(x, u, w)
    ensures Stored(x, u, w) && NewPhase(x) == FAILED ==> IsFailed(w)
  {
  }

  lemma StoredSays(x: StatusUpdate, v: World, w: World)
    requires Stored(x, v, w) && NewPhase(x) == FAILED
    ensures Says(x, w)
  {
  }

  // What holds of the part of a call counts for the whole call.
  lemma JudgedLater(t: seq<Step>, t': seq<Step>, from: nat, u: World, v: World, w: World)
    requires t <= t' && from <= |t| && Rely(u, v)
    ensures Forced(t', |t|) ==> Forced(t', from)
    ensures Faulted(t', |t|) ==> Faulted(t', from)
    ensures forall x :: Stored(x, v, w) ==> Stored(x, u, w) && (NewPhase(x) == FAILED ==> IsFailed(w))
  {
  }

  lemma FaultLast(t: seq<Step>, from: nat)
    requires from < |t| && IsFault(t[|t| - 1].act)
    ensures Faulted(t, from)
  {
  }

  lemma FaultsCount(t: seq<Step>, from: nat, from': nat)
    requires from' <= from
    ensures Faulted(t, from) ==> Faulted(t, from')
  {
  }

  // The Browser is gone or on its way, and rid of a finalizer that the copy b had.
  predicate Dismissed(b: Browser, w: World) {
    (w.browser.Some? ==> w.browser.value.deletion.Some?) && (HasFinalizer(b) ==> !Held(w))
  }

  // The configuration found and the Browser's options let its pod be built.
  predicate CanBuild(b: Browser, found: Option<Option<Version>>, decode: string -> ParsedOptions) {
    found.Some? && found.value.Some? && !PodTemplate.ParseOptions(b.annotations, decode).BadOptions?
  }

  function PodFrom(b: Browser, v: Version, decode: string -> ParsedOptions): Pod {
    PodTemplate.BuildPod(b, v, PodTemplate.ParseOptions(b.annotations, decode))
  }

  // The stored status says what the failure u says.
  predicate Says(u: StatusUpdate, w: World) {
    && IsFailed(w)
    && match u
       case Fail(m) => w.browser.value.status.message == m
       case FailBecause(r, m) => w.browser.value.status.reason == r && w.browser.value.status.message == m
       case _ => true
  }

  // The containers of p were judged in order, at times read from step `from` on, up to the
  // first offender if the scan `ended`, else all of them.
  ghost predicate ScanOf(t: seq<Step>, from: nat, p: Pod, times: seq<Time>, ended: bool) {
    && TimesRead(t, from, p, times) && (if ended then times != [] else |times| == |p.status.containers|)
    && forall j :: 0 <= j < |times| ==>
         (Judge(p.status.containers[j], p.creation, times[j]).Fine? <==> !(ended && j == |times| - 1))
  }

  ghost predicate ScanPassed(t: seq<Step>, from: nat, p: Pod) {
    exists times :: ScanOf(t, from, p, times, false)
  }

  // The failure that the offender calls for is stored, after a forced delete for a bad wait.
  ghost predicate ScanEnded(t: seq<Step>, from: nat, p: Pod, w: World) {
    exists times :: ScanOf(t, from, p, times, true) && OffenderStored(t, from, p, times, w)
  }

  ghost predicate OffenderStored(t: seq<Step>, from: nat, p: Pod, times: seq<Time>, w: World)
    requires ScanOf(t, from, p, times, true)
  {
    var c := p.status.containers[|times| - 1];
    var v := Judge(c, p.creation, times[|times| - 1]);
    Says(VerdictUpdate(c, v), w) && (v.Stuck? ==> Forced(t, from))
  }

  // What a reconcile of a live Browser leaves behind, and asks for, that read the pod p and
  // met no error; `from` is where it began.
  ghost predicate PodSettled(t: seq<Step>, from: nat, b: Browser, p: Pod, w: World, r: Requeue) {
    if p.deletion.Some? then Dismissed(b, w) && r == Done
    else
      && (p.status.phase == FAILED ==> Forced(t, from))
      && if p.status.phase != PENDING && CriticallyTerminated(p) then Dismissed(b, w) && r == Done
         else
           || (p.status.phase == PENDING && ScanEnded(t, from, p, w) && r == Done)
           || ((p.status.phase == PENDING ==> ScanPassed(t, from, p)) && r == After(PERIODIC_RECONCILE)
               && (w.browser.Some? ==> Mirrors(w.browser.value.status, p)))
  }

  lemma Passed(t: seq<Step>, from: nat, p: Pod, times: seq<Time>)
    requires ScanOf(t, from, p, times, false)
    ensures ScanPassed(t, from, p) && !CriticallyTerminated(p)
  {
    assert forall j :: 0 <= j < |times| ==> Judge(p.status.containers[j], p.creation, times[j]).Fine?;
  }

  lemma EndScan(t: seq<Step>, from: nat, from': nat, p: Pod, times: seq<Time>, v: World, w: World)
    requires from <= from' && TimesRead(t, from, p, times) && 0 < |times| <= |p.status.containers|
    requires forall j :: 0 <= j < |times| - 1 ==> Judge(p.status.containers[j], p.creation, times[j]).Fine?
    requires !Judge(p.status.containers[|times| - 1], p.creation, times[|times| - 1]).Fine?
    ensures ScanOf(t, from, p, times, true)
    ensures var c := p.status.containers[|times| - 1];
            var u := Judge(c, p.creation, times[|times| - 1]);
            Stored(VerdictUpdate(c, u), v, w) && (u.Stuck? ==> Forced(t, from')) ==> ScanEnded(t, from, p, w)
  {
    hide TimesRead;
    var c := p.status.containers[|times| - 1];
    var u := Judge(c, p.creation, times[|times| - 1]);
    assert ScanOf(t, from, p, times, true);
    if Stored(VerdictUpdate(c, u), v, w) && (u.Stuck? ==> Forced(t, from')) {
      StoredSays(VerdictUpdate(c, u), v, w);
      assert OffenderStored(t, from, p, times, w);
    }
  }

  lemma StillAhead(b: Browser, p: Pod, w: World)
    requires Knows(b, w, StatusAfterPrepare(b))
    ensures w.browser.Some? ==> AheadOf(w.browser.value.status, b, p)
  {
  }

  // What was done to the pod stays done.
  lemma PodActsExtend(t: seq<Step>, t': seq<Step>, from: nat, p: Pod)
    requires t <= t'
    ensures ForceDeleted(t, from) ==> ForceDeleted(t', from) && Forced(t', from)
    ensures ScanPassed(t, from, p) ==> ScanPassed(t', from, p)
  {
    hide ScanPassed, ForceDeleted, Forced;
    if ForceDeleted(t, from) {
      ForceDeletedExtends(t, t', from);
      ForceDeletedForced(t', from);
    }
    if ScanPassed(t, from, p) {
      ScanPassedExtends(t, t', from, from, p);
    }
  }

  lemma ForceDeletedForced(t: seq<Step>, from: nat)
    requires ForceDeleted(t, from)
    ensures Forced(t, from)
  {
  }

  lemma TimesReadExtend(t: seq<Step>, t': seq<Step>, from: nat, from': nat, p: Pod, times: seq<Time>)
    requires t <= t' && from' <= from && TimesRead(t, from, p, times)
    ensures TimesRead(t', from', p, times)
  {
    hide ClockRead, TimeMatters;
    forall j | 0 <= j < |times| && TimeMatters(p.status.containers[j], p.creation)
      ensures ClockRead(t', from', times[j])
    {
      ClockReadExtends(t, t', from, from', times[j]);
    }
  }

  lemma ScanPassedExtends(t: seq<Step>, t': seq<Step>, from: nat, from': nat, p: Pod)
    requires t <= t' && from' <= from && ScanPassed(t, from, p)
    ensures ScanPassed(t', from', p)
  {
    var times :| ScanOf(t, from, p, times, false);
    TimesReadExtend(t, t', from, from', p, times);
    assert ScanOf(t', from', p, times, false);
  }

  lemma ScanEndedEarlier(t: seq<Step>, from: nat, from': nat, p: Pod, w: World)
    requires from' <= from && ScanEnded(t, from, p, w)
    ensures ScanEnded(t, from', p, w)
  {
    hide Judge, Says, VerdictUpdate;
    var times :| ScanOf(t, from, p, times, true) && OffenderStored(t, from, p, times, w);
    TimesReadExtend(t, t, from, from', p, times);
    assert ScanOf(t, from', p, times, true);
    assert OffenderStored(t, from', p, times, w);
  }

  lemma PodSettledEarlier(t: seq<Step>, from: nat, from': nat, b: Browser, p: Pod, w: World, r: Requeue)
    requires from' <= from && PodSettled(t, from, b, p, w, r)
    ensures PodSettled(t, from', b, p, w, r)
  {
    hide ScanEnded, ScanPassed, Dismissed, Mirrors;
    if ScanEnded(t, from, p, w) {
      ScanEndedEarlier(t, from, from', p, w);
    }
    if ScanPassed(t, from, p) {
      ScanPassedExtends(t, t, from, from', p);
    }
  }

  // The same for one that found no pod: the configuration was looked up, and the Browser
  // failed or its pod was created, unless there was one by then.
  ghost predicate Provided(t: seq<Step>, round: nat, b: Browser, decode: string -> ParsedOptions,
                           w: World, r: Requeue) {
    exists found ::
      && Saw(t, round, Lookup(Keys.KeyFor(b.namespace, b.browserName, b.browserVersion), found))
      && ProvidedWith(t, round, b, found, decode, w, r)
  }

  ghost predicate ProvidedWith(t: seq<Step>, round: nat, b: Browser, found: Option<Option<Version>>,
                               decode: string -> ParsedOptions, w: World, r: Requeue) {
    if CanBuild(b, found, decode) then
      && w.pod.Some? && r == After(QUICK_CHECK)
      && (|| Saw(t, round, CreatePod(PodFrom(b, found.value.value, decode), None))
          || Saw(t, round, CreatePod(PodFrom(b, found.value.value, decode), Some(AlreadyExists))))
    else
      && r == Done
      && Says(if found.None? || found.value.None? then NO_CONFIG
              else BadOptionsUpdate(PodTemplate.ParseOptions(b.annotations, decode).message), w)
  }

  lemma LookedUp(t: seq<Step>, k: nat, round: nat, b: Browser, found: Option<Option<Version>>,
                 decode: string -> ParsedOptions, w: World, r: Requeue)
    requires k < |t| && t[k].round == round && ProvidedWith(t, round, b, found, decode, w, r)
    requires t[k].act == Lookup(Keys.KeyFor(b.namespace, b.browserName, b.browserVersion), found)
    ensures Provided(t, round, b, decode, w, r)
  {
    hide ProvidedWith;
  }

  // The same whatever was read of the pod in this round.
  ghost predicate SeenTo(t: seq<Step>, from: nat, round: nat, b: Browser, pod: Option<Pod>,
                         decode: string -> ParsedOptions, w: World, r: Requeue) {
    match pod
    case None => Saw(t, round, GetPod(b, Err(NotFound))) && Provided(t, round, b, decode, w, r)
    case Some(p) => Saw(t, round, GetPod(b, Ok(p))) && PodSettled(t, from, b, p, w, r)
  }

  // The same for any reconcile of a Browser that is not under deletion. The round began at
  // step `from`.
  ghost predicate Settled(t: seq<Step>, from: nat, round: nat, b: Browser, pod: Option<Pod>,
                          decode: string -> ParsedOptions, w: World, r: Requeue) {
    if b.status.phase == FAILED then !Held(w) && r == Done
    else Prepared(t, round, b) && SeenTo(t, from, round, b, pod, decode, w, r)
  }

  lemma SeenToEarlier(t: seq<Step>, from: nat, from': nat, round: nat, b: Browser, pod: Option<Pod>,
                      decode: string -> ParsedOptions, w: World, r: Requeue)
    requires from' <= from && SeenTo(t, from, round, b, pod, decode, w, r)
    ensures SeenTo(t, from', round, b, pod, decode, w, r)
  {
    hide PodSettled, Provided, Saw;
    if pod.Some? {
      PodSettledEarlier(t, from, from', b, pod.value, w, r);
    }
  }

  lemma SettledEarlier(t: seq<Step>, from: nat, from': nat, round: nat, b: Browser, pod: Option<Pod>,
                       decode: string -> ParsedOptions, w: World, r: Requeue)
    requires from' <= from && Settled(t, from, round, b, pod, decode, w, r)
    ensures Settled(t, from', round, b, pod, decode, w, r)
  {
    hide SeenTo, Prepared;
    if b.status.phase != FAILED {
      SeenToEarlier(t, from, from', round, b, pod, decode, w, r);
    }
  }

  class BrowserReconciler {
    const cluster: Cluster
    const decode: string -> ParsedOptions

    constructor (cluster: Cluster, decode: string -> ParsedOptions)
      ensures this.cluster == cluster && this.decode == decode
    {
      this.cluster, this.decode := cluster, decode;
    }

    // One turn of the retry loop. `again` asks for another turn.
    method TryUpdate(u: MetaUpdate)
      returns (e: Option<ApiError>, again: bool, ghost read: Browser, ghost at: World)
      requires cluster.Valid()
      requires u.RemoveFinalizer? ==> Justified(cluster.trace, cluster.round)
      modifies cluster`w, cluster`trace
      ensures cluster.Valid() && old(cluster.trace) <= cluster.trace
      ensures e.Some? ==> Faulted(cluster.trace, |old(cluster.trace)|)
      ensures e.None? ==> |cluster.trace| >= |old(cluster.trace)| + 4
      ensures e.None? ==> SentMeta(cluster.trace, cluster.round, u, read, at)
      ensures e.Some? ==> Rely(old(cluster.w), cluster.w)
      ensures e.None? ==>
        && Rely(old(cluster.w), at) && at.browser.Some? && BrowserRely(Some(read), at.browser)
        && cluster.w == Effect(PatchMeta(read, ApplyMeta(u, read), None), at)
      ensures Writes(cluster.trace) == Writes(old(cluster.trace)) + if e.None? then 1 else 0
      ensures Attempts(cluster.trace) <= Attempts(old(cluster.trace)) + 1
      ensures again ==> e.Some? && Attempts(cluster.trace) == Attempts(old(cluster.trace)) + 1
      ensures e.Some? && !again ==> cluster.trace != [] && GivesUp(cluster.trace[|cluster.trace| - 1].act)
      ensures u.RemoveFinalizer? && e.None? ==> !Held(cluster.w)
      ensures cluster.reliable && Held(old(cluster.w)) ==> e.None?
      ensures cluster.Quiet() && old(cluster.w).browser.Some? ==> e.None? && cluster.w == CalmMeta(old(cluster.w), u)
    {
      hide GuardedRun, Writes, Attempts, Faulted, Justified, Amends;
      again, read, at := false, *, cluster.w;
      var got, seen := cluster.GetBrowser();
      if got.Err? {
        FaultLast(cluster.trace, |old(cluster.trace)|);
        return Some(got.error), false, read, at;
      }
      var before := got.value;
      if u.RemoveFinalizer? {
        JustifiedExtends(old(cluster.trace), cluster.trace, cluster.round);
      }
      read := before;
      AmendsExact(u, before);
      e, at := cluster.Patch(before, ApplyMeta(u, before));
      again := e == Some(Conflict);
      if e.Some? {
        FaultLast(cluster.trace, |old(cluster.trace)|);
      }
      if cluster.Quiet() {
        PatchOnQuiet(at, u);
      }
    }

    // The update is applied at most once, exactly when no error is returned, to the
    // Browser stored at that moment (`at`) as the difference between the Browser read
    // before (`read`) and its updated copy, as the last call of the run. At most MAX_RETRIES
    // patches are sent. An error is one that a call returned.
    method RetryUpdate(u: MetaUpdate) returns (e: Option<ApiError>, ghost read: Browser, ghost at: World)
      requires cluster.Valid()
      requires u.RemoveFinalizer? ==> Justified(cluster.trace, cluster.round)
      modifies cluster`w, cluster`trace, cluster`slept
      ensures cluster.Valid() && old(cluster.trace) <= cluster.trace
      ensures e.Some? ==> Faulted(cluster.trace, |old(cluster.trace)|)
      ensures e.None? ==> |cluster.trace| >= |old(cluster.trace)| + 4
      ensures e.None? ==> SentMeta(cluster.trace, cluster.round, u, read, at)
      ensures e.Some? ==> Rely(old(cluster.w), cluster.w)
      ensures e.None? ==>
        && Rely(old(cluster.w), at) && at.browser.Some? && BrowserRely(Some(read), at.browser)
        && cluster.w == Effect(PatchMeta(read, ApplyMeta(u, read), None), at)
      ensures Writes(cluster.trace) == Writes(old(cluster.trace)) + if e.None? then 1 else 0
      ensures Attempts(cluster.trace) <= Attempts(old(cluster.trace)) + 5
      ensures cluster.slept <= old(cluster.slept) + 3100
      ensures e.Some? ==>
        || (cluster.trace != [] && GivesUp(cluster.trace[|cluster.trace| - 1].act))
        || (Attempts(cluster.trace) == Attempts(old(cluster.trace)) + 5 && cluster.slept == old(cluster.slept) + 3100)
      ensures u.RemoveFinalizer? && e.None? ==> !Held(cluster.w)
      ensures cluster.reliable && Held(old(cluster.w)) ==> e.None?
      ensures cluster.Quiet() && old(cluster.w).browser.Some? ==>
        e.None? && cluster.w == CalmMeta(old(cluster.w), u) && cluster.slept == old(cluster.slept)
    {
      hide GuardedRun, Writes, Attempts, CalmMeta, Faulted, SentMeta;
      var i := 0;
      read, at := *, cluster.w;
      while i < MAX_RETRIES
        invariant 0 <= i <= MAX_RETRIES
        invariant cluster.Valid() && old(cluster.trace) <= cluster.trace
        invariant Rely(old(cluster.w), cluster.w)
        invariant i > 0 ==> Faulted(cluster.trace, |old(cluster.trace)|)
        invariant Writes(cluster.trace) == Writes(old(cluster.trace))
        invariant Attempts(cluster.trace) == Attempts(old(cluster.trace)) + i
        invariant cluster.slept == old(cluster.slept) + Backoff(i) - 100
        invariant cluster.reliable && Held(old(cluster.w)) ==> i == 0
        invariant cluster.Quiet() && old(cluster.w).browser.Some? ==> i == 0 && cluster.w == old(cluster.w)
      {
        BackoffBound(i);
        if u.RemoveFinalizer? {
          JustifiedExtends(old(cluster.trace), cluster.trace, cluster.round);
        }
        ghost var start, before := |cluster.trace|, cluster.w;
        var again;
        e, again, read, at := TryUpdate(u);
        if !again {
          FaultsCount(cluster.trace, start, |old(cluster.trace)|);
          return;
        }
        ghost var t := cluster.trace;
        cluster.Sleep(Backoff(i));
        FaultedExtends(t, cluster.trace, start, |old(cluster.trace)|);
        i := i + 1;
      }
      BackoffBound(i);
      e := Some(OtherError);
    }

    method TryStatusUpdate(u: StatusUpdate) returns (e: Option<ApiError>, again: bool, ghost at: World)
      requires cluster.Valid()
      requires IsFailed(cluster.w) ==> NewPhase(u) == FAILED
      modifies cluster`w, cluster`trace
      ensures cluster.Valid() && old(cluster.trace) <= cluster.trace
      ensures old(cluster.w).clock <= cluster.w.clock
      ensures e.Some? ==> Faulted(cluster.trace, |old(cluster.trace)|)
      ensures e.None? ==> |cluster.trace| >= |old(cluster.trace)| + 4
      ensures e.None? ==> SentStatus(cluster.trace, cluster.round, u, at)
      ensures e.None? ==> Stored(u, old(cluster.w), cluster.w)
      ensures cluster.reliable && Held(old(cluster.w)) ==> e.None?
      ensures e.Some? ==> Rely(old(cluster.w), cluster.w)
      ensures e.None? ==> Rely(old(cluster.w), at) && at.browser.Some? && cluster.w == CalmStatus(at, u)
      ensures Writes(cluster.trace) == Writes(old(cluster.trace)) + if e.None? then 1 else 0
      ensures Attempts(cluster.trace) <= Attempts(old(cluster.trace)) + 1
      ensures again ==> e.Some? && Attempts(cluster.trace) == Attempts(old(cluster.trace)) + 1
      ensures e.Some? && !again ==> cluster.trace != [] && GivesUp(cluster.trace[|cluster.trace| - 1].act)
      ensures cluster.Quiet() && old(cluster.w).browser.Some? ==> e.None? && at == old(cluster.w)
    {
      hide GuardedRun, Writes, Attempts, Faulted;
      again, at := false, cluster.w;
      var got, seen := cluster.GetBrowser();
      if got.Err? {
        FaultLast(cluster.trace, |old(cluster.trace)|);
        return Some(got.error), false, at;
      }
      var before := got.value;
      e, at := cluster.PatchBrowserStatus(before, before.(status := ApplyStatus(u, before.status)));
      again := e == Some(Conflict);
      if e.Some? {
        FaultLast(cluster.trace, |old(cluster.trace)|);
      }
      if e.None? {
        StatusPatchOnStored(at, before, u);
      }
    }

    // As RetryUpdate, for the status; what is written does not depend on the copy read.
    method RetryStatusUpdate(u: StatusUpdate) returns (e: Option<ApiError>, ghost at: World)
      requires cluster.Valid()
      requires IsFailed(cluster.w) ==> NewPhase(u) == FAILED
      modifies cluster`w, cluster`trace, cluster`slept
      ensures cluster.Valid() && old(cluster.trace) <= cluster.trace
      ensures old(cluster.w).clock <= cluster.w.clock
      ensures e.Some? ==> Faulted(cluster.trace, |old(cluster.trace)|)
      ensures e.None? ==> |cluster.trace| >= |old(cluster.trace)| + 4
      ensures e.None? ==> SentStatus(cluster.trace, cluster.round, u, at)
      ensures e.None? ==> Stored(u, old(cluster.w), cluster.w)
      ensures cluster.reliable && Held(old(cluster.w)) ==> e.None?
      ensures e.Some? ==> Rely(old(cluster.w), cluster.w)
      ensures e.None? ==> Rely(old(cluster.w), at) && at.browser.Some? && cluster.w == CalmStatus(at, u)
      ensures Writes(cluster.trace) == Writes(old(cluster.trace)) + if e.None? then 1 else 0
      ensures Attempts(cluster.trace) <= Attempts(old(cluster.trace)) + 5
      ensures cluster.slept <= old(cluster.slept) + 3100
      ensures e.Some? ==>
        || (cluster.trace != [] && GivesUp(cluster.trace[|cluster.trace| - 1].act))
        || (Attempts(cluster.trace) == Attempts(old(cluster.trace)) + 5 && cluster.slept == old(cluster.slept) + 3100)
      ensures cluster.Quiet() && old(cluster.w).browser.Some? ==>
        e.None? && at == old(cluster.w) && cluster.slept == old(cluster.slept)
    {
      hide GuardedRun, Writes, Attempts, CalmStatus, Faulted, SentStatus, Stored;
      var i := 0;
      at := cluster.w;
      while i < MAX_RETRIES
        invariant 0 <= i <= MAX_RETRIES
        invariant cluster.Valid() && old(cluster.trace) <= cluster.trace
        invariant Rely(old(cluster.w), cluster.w)
        invariant i > 0 ==> Faulted(cluster.trace, |old(cluster.trace)|)
        invariant Writes(cluster.trace) == Writes(old(cluster.trace))
        invariant Attempts(cluster.trace) == Attempts(old(cluster.trace)) + i
        invariant cluster.slept == old(cluster.slept) + Backoff(i) - 100
        invariant cluster.reliable && Held(old(cluster.w)) ==> i == 0
        invariant cluster.Quiet() && old(cluster.w).browser.Some? ==> i == 0 && cluster.w == old(cluster.w)
      {
        BackoffBound(i);
        ghost var start, before := |cluster.trace|, cluster.w;
        var again;
        e, again, at := TryStatusUpdate(u);
        if !again {
          FaultsCount(cluster.trace, start, |old(cluster.trace)|);
          StoredFrom(u, old(cluster.w), before, cluster.w);
          return;
        }
        ghost var t := cluster.trace;
        cluster.Sleep(Backoff(i));
        FaultedExtends(t, cluster.trace, start, |old(cluster.trace)|);
        i := i + 1;
      }
      BackoffBound(i);
      e := Some(OtherError);
    }

    // Stores a failure; without an error the Browser is Failed afterwards.
    method MarkFailed(u: StatusUpdate) returns (r: Requeue, e: Option<ApiError>)
      requires cluster.Valid() && NewPhase(u) == FAILED
      modifies cluster`w, cluster`trace, cluster`slept
      ensures cluster.Valid() && old(cluster.trace) <= cluster.trace
      ensures old(cluster.w).clock <= cluster.w.clock
      ensures e.Some? ==> Faulted(cluster.trace, |old(cluster.trace)|)
      ensures e.None? ==> Stored(u, old(cluster.w), cluster.w) && Says(u, cluster.w)
      ensures cluster.reliable && Held(old(cluster.w)) ==> e.None?
      ensures e.None? ==> IsFailed(cluster.w) && r == Done && (Held(cluster.w) <==> Held(old(cluster.w)))
      ensures cluster.Quiet() && old(cluster.w).browser.Some? ==> e.None? && cluster.w == CalmStatus(old(cluster.w), u)
    {
      hide GuardedRun, Writes, Attempts, Faulted, SentStatus;
      ghost var at;
      e, at := RetryStatusUpdate(u);
      r := if e.Some? then After(MEDIUM_RETRY) else Done;
    }

    // ----- finalizer, label and first phase ---------------------------------------

    method EnsureFinalizer(b: Browser) returns (e: Option<ApiError>)
      requires cluster.Valid() && BrowserRely(Some(b), cluster.w.browser)
      modifies cluster`w, cluster`trace, cluster`slept
      ensures cluster.Valid() && old(cluster.trace) <= cluster.trace
      ensures e.Some? ==> Faulted(cluster.trace, |old(cluster.trace)|)
      ensures HasFinalizer(b) ==> e.None? && cluster.trace == old(cluster.trace)
      ensures !HasFinalizer(b) && e.None? ==> Patched(cluster.trace, cluster.round, AddFinalizer)
      ensures cluster.reliable && Held(old(cluster.w)) ==> e.None?
      ensures e.None? ==> Held(cluster.w) && Knows(b, cluster.w, b.status)
      ensures cluster.Quiet() && old(cluster.w).browser.Some? ==>
        e.None? && cluster.w == (if HasFinalizer(b) then old(cluster.w) else CalmMeta(old(cluster.w), AddFinalizer))
    {
      hide GuardedRun;
      e := None;
      if !HasFinalizer(b) {
        ghost var read, at;
        e, read, at := RetryUpdate(AddFinalizer);
        if e.None? {
          SentIsPatched(cluster.trace, cluster.round, AddFinalizer, read, at);
        }
      }
    }

    // When labels are missing they are patched like any update (see RetryUpdate).
    method EnsureLabels(b: Browser) returns (e: Option<ApiError>, ghost read: Browser, ghost at: World)
      requires cluster.Valid() && Held(cluster.w) && Knows(b, cluster.w, b.status)
      modifies cluster`w, cluster`trace, cluster`slept
      ensures cluster.Valid() && old(cluster.trace) <= cluster.trace
      ensures e.Some? ==> Faulted(cluster.trace, |old(cluster.trace)|)
      ensures LabelOf(b.labels, BROWSER_LABEL) == b.name ==> e.None? && cluster.trace == old(cluster.trace)
      ensures cluster.reliable && Held(old(cluster.w)) ==> e.None?
      ensures e.None? ==> Held(cluster.w) && Knows(b, cluster.w, b.status)
      ensures e.None? && LabelOf(b.labels, BROWSER_LABEL) != b.name ==>
        && |cluster.trace| >= |old(cluster.trace)| + 4 && SentMeta(cluster.trace, cluster.round, SetLabels, read, at)
        && Labelled(cluster.trace[|cluster.trace| - 1].act.after.labels, read)
        && Rely(old(cluster.w), at) && at.browser.Some? && BrowserRely(Some(read), at.browser)
        && cluster.w == Effect(PatchMeta(read, ApplyMeta(SetLabels, read), None), at)
      ensures cluster.Quiet() ==>
        e.None? && cluster.w == (if LabelOf(b.labels, BROWSER_LABEL) == b.name then old(cluster.w)
                                 else CalmMeta(old(cluster.w), SetLabels))
    {
      hide GuardedRun;
      e, read, at := None, b, cluster.w;
      if LabelOf(b.labels, BROWSER_LABEL) != b.name {
        e, read, at := RetryUpdate(SetLabels);
      }
    }

    method EnsurePhase(b: Browser) returns (e: Option<ApiError>)
      requires cluster.Valid() && Held(cluster.w) && Knows(b, cluster.w, b.status)
      requires b.status.phase != FAILED
      modifies cluster`w, cluster`trace, cluster`slept
      ensures cluster.Valid() && old(cluster.trace) <= cluster.trace
      ensures e.Some? ==> Faulted(cluster.trace, |old(cluster.trace)|)
      ensures b.status.phase != NO_PHASE ==> e.None? && cluster.trace == old(cluster.trace)
      ensures b.status.phase == NO_PHASE && e.None? ==> PendingPatched(cluster.trace, cluster.round)
      ensures cluster.reliable && Held(old(cluster.w)) ==> e.None?
      ensures e.None? ==> Held(cluster.w) && Knows(b, cluster.w, StatusAfterPrepare(b))
      ensures cluster.Quiet() ==>
        e.None? && cluster.w == (if b.status.phase == NO_PHASE then CalmStatus(old(cluster.w), SetPending)
                                 else old(cluster.w))
    {
      hide GuardedRun;
      e := None;
      if b.status.phase == NO_PHASE {
        ghost var at;
        e, at := RetryStatusUpdate(SetPending);
        if e.None? {
          SentIsPending(cluster.trace, cluster.round, at);
        }
      }
    }

    // ----- deletion ------------------------------------------------------------------

    // The finalizer is looked up on the copy b, which may be older than the stored Browser.
    method DeleteBrowser(b: Browser) returns (r: Requeue, e: Option<ApiError>)
      requires cluster.Valid()
      requires HasFinalizer(b) ==> Justified(cluster.trace, cluster.round)
      modifies cluster`w, cluster`trace, cluster`slept
      ensures cluster.Valid() && old(cluster.trace) <= cluster.trace
      ensures e.Some? ==> Faulted(cluster.trace, |old(cluster.trace)|)
      ensures cluster.reliable && Held(old(cluster.w)) ==> e.None?
      ensures e.None? ==> Dismissed(b, cluster.w) && r == Done
      ensures cluster.Quiet() && old(cluster.w).browser.Some? ==>
        e.None? && r == Done && cluster.w == CalmDeleteBrowser(old(cluster.w), b)
    {
      hide GuardedRun, Writes, Attempts, SentMeta, Faulted, Justified;
      if HasFinalizer(b) {
        ghost var read, at;
        e, read, at := RetryUpdate(RemoveFinalizer);
        if e.Some? {
          return After(MEDIUM_RETRY), e;
        }
      }
      ghost var seen;
      e, seen := cluster.RemoveBrowser();
      if e.Some? {
        FaultLast(cluster.trace, |old(cluster.trace)|);
      }
      r := Done;
      if e == Some(NotFound) {
        e := None;
      }
    }

    method DeletePod() returns (e: Option<ApiError>)
      requires cluster.Valid()
      modifies cluster`w, cluster`trace
      ensures cluster.Valid() && old(cluster.trace) <= cluster.trace
      ensures e.Some? ==> Faulted(cluster.trace, |old(cluster.trace)|)
      ensures cluster.reliable ==> e.None?
      ensures BrowserRely(old(cluster.w).browser, cluster.w.browser) && old(cluster.w).clock <= cluster.w.clock
      ensures Writes(cluster.trace) == Writes(old(cluster.trace))
      ensures ForceTried(cluster.trace, |old(cluster.trace)|)
      ensures e.None? ==> ForceDeleted(cluster.trace, |old(cluster.trace)|)
      ensures cluster.Quiet() ==> e.None? && cluster.w == CalmRemovePod(old(cluster.w), true)
    {
      hide GuardedRun;
      ghost var seen;
      e, seen := cluster.RemovePod(true);
      assert cluster.trace[|old(cluster.trace)| + 1].act == ClusterModel.DeletePod(true, e);
      if e == Some(NotFound) {
        e := None;
      }
    }

    // The branch of a pod under deletion: waits for it, or deletes it by force when overdue.
    method CheckOverdue(b: Browser, p: Pod, ghost i: nat) returns (gone: bool, now: Time)
      requires cluster.Valid() && b.deletion.Some? && p.deletion.Some?
      requires i < |cluster.trace| && cluster.trace[i].act == GetPod(b, Ok(p))
      requires cluster.trace[i].round == cluster.round
      modifies cluster`w, cluster`trace
      ensures cluster.Valid() && old(cluster.trace) <= cluster.trace
      ensures BrowserRely(old(cluster.w).browser, cluster.w.browser)
      ensures old(cluster.w).clock <= now <= cluster.w.clock
      ensures Saw(cluster.trace, cluster.round, ReadClock(now))
      ensures gone ==> ForceTried(cluster.trace, |old(cluster.trace)|)
      ensures gone <==> now - p.deletion.value > POD_DELETION_TIMEOUT
      ensures gone ==> Justified(cluster.trace, cluster.round)
      ensures !gone && Steady(cluster.trace, |old(cluster.trace)|) ==> Older(old(cluster.w).pod, cluster.w.pod)
      ensures cluster.Quiet() ==> now == old(cluster.w).clock
      ensures cluster.Quiet() ==> cluster.w == if gone then CalmRemovePod(old(cluster.w), true) else old(cluster.w)
    {
      hide GuardedRun, Writes, Attempts, Justified, CalmRemovePod, Saw, ForceTried;
      ghost var seen;
      now, seen := cluster.Now();
      if Steady(cluster.trace, |old(cluster.trace)|) {
        SteadyCall(old(cluster.trace), cluster.trace, cluster.round, old(cluster.w), seen, ReadClock(now));
      }
      SawLast(cluster.trace, cluster.round, ReadClock(now));
      gone := now - p.deletion.value > POD_DELETION_TIMEOUT;
      if gone {
        ghost var t := cluster.trace;
        LateDeletionJustifies(t, i, |t| - 1, b, p);
        var ignored := DeletePod();
        JustifiedExtends(t, cluster.trace, cluster.round);
        SawExtends(t, cluster.trace, cluster.round, ReadClock(now));
        ForceTriedEarlier(cluster.trace, |t|, |old(cluster.trace)|);
      }
    }

    // The branch of a pod not yet under deletion.
    method StartDeletion(p: Pod) returns (r: Requeue, e: Option<ApiError>)
      requires cluster.Valid()
      modifies cluster`w, cluster`trace
      ensures cluster.Valid() && old(cluster.trace) <= cluster.trace
      ensures e.Some? ==> Faulted(cluster.trace, |old(cluster.trace)|)
      ensures e.None? ==> Going(cluster.w)
      ensures cluster.trace != [] && cluster.trace[|cluster.trace| - 1].act.DeletePod?
        && cluster.trace[|cluster.trace| - 1].act.force == (p.status.phase == FAILED)
      ensures BrowserRely(old(cluster.w).browser, cluster.w.browser) && old(cluster.w).clock <= cluster.w.clock
      ensures e.None? ==> r == After(QUICK_CHECK)
      ensures cluster.reliable ==> e.None?
      ensures e.None? && Steady(cluster.trace, |old(cluster.trace)|) ==>
        Older(old(cluster.w).pod, cluster.w.pod)
      ensures cluster.Quiet() ==> cluster.w == CalmRemovePod(old(cluster.w), p.status.phase == FAILED)
    {
      hide GuardedRun, Writes, Attempts;
      ghost var seen;
      e, seen := cluster.RemovePod(p.status.phase == FAILED);
      if Steady(cluster.trace, |old(cluster.trace)|) {
        SteadyCall(old(cluster.trace), cluster.trace, cluster.round, old(cluster.w), seen,
                   ClusterModel.DeletePod(p.status.phase == FAILED, e));
      }
      if e.Some? && e != Some(NotFound) {
        FaultLast(cluster.trace, |old(cluster.trace)|);
        return After(MEDIUM_RETRY), e;
      }
      return After(QUICK_CHECK), None;
    }

    // Reads the pod of a Browser under deletion and has it deleted. `gone` tells that the
    // finalizer need not wait any longer; `v` is what was read of the pod and the clock.
    method AwaitPod(b: Browser) returns (gone: bool, r: Requeue, e: Option<ApiError>, ghost v: Visit)
      requires cluster.Valid() && b.deletion.Some?
      modifies cluster`w, cluster`trace
      ensures cluster.Valid() && old(cluster.trace) <= cluster.trace
      ensures e.Some? ==> Faulted(cluster.trace, |old(cluster.trace)|)
      ensures BrowserRely(old(cluster.w).browser, cluster.w.browser)
      ensures old(cluster.w).clock <= v.now <= cluster.w.clock
      ensures VisitOf(cluster.trace, cluster.round, b, v)
      ensures gone ==> Justified(cluster.trace, cluster.round)
      ensures (gone <==> !Waits(v)) && (!gone && e.None? ==> r == After(QUICK_CHECK))
      ensures gone || cluster.reliable ==> e.None?
      ensures gone && v.pod.Some? ==> ForceTried(cluster.trace, |old(cluster.trace)|)
      ensures !gone && e.None? && v.pod.value.deletion.None? ==> Going(cluster.w)
      ensures !gone && e.None? && Steady(cluster.trace, |old(cluster.trace)|) ==> Aged(old(cluster.w), v, cluster.w)
      ensures cluster.Quiet() && HasFinalizer(b) ==>
        if gone then
          cluster.w == (if old(cluster.w).pod.Some? then CalmRemovePod(old(cluster.w), true) else old(cluster.w))
        else (cluster.w, r) == CalmDeletion(old(cluster.w), b)
      ensures cluster.Quiet() ==> v == Visit(old(cluster.w).pod, old(cluster.w).clock)
    {
      hide GuardedRun, Writes, Attempts, Justified, CalmMeta;
      r, e := After(QUICK_CHECK), None;
      var got, seen := cluster.GetPod(b);
      ghost var t := cluster.trace;
      ghost var i := |t| - 1;
      if got.Err? {
        MissingPodJustifies(t, i, b, got.error);
        return true, r, e, Visit(None, cluster.w.clock);
      }
      var p := got.value;
      v := Visit(Some(p), cluster.w.clock);
      assert t[i].act == GetPod(b, Ok(p));
      if p.deletion.None? {
        gone := false;
        r, e := StartDeletion(p);
      } else {
        var now;
        gone, now := CheckOverdue(b, p, i);
        v := v.(now := now);
      }
      if !gone && Steady(cluster.trace, |old(cluster.trace)|) {
        SteadyPart(t, cluster.trace, |old(cluster.trace)|);
        SteadyCall(old(cluster.trace), t, cluster.round, old(cluster.w), seen, GetPod(b, got));
      }
      SawExtends(t, cluster.trace, cluster.round, GetPod(b, Ok(p)));
    }

    // Without an error the finalizer goes exactly at a visit that need not wait.
    method HandleDeletion(b: Browser) returns (r: Requeue, e: Option<ApiError>, ghost v: Visit)
      requires cluster.Valid() && b.deletion.Some?
      modifies cluster`w, cluster`trace, cluster`slept
      ensures cluster.Valid() && old(cluster.trace) <= cluster.trace
      ensures e.Some? ==> Faulted(cluster.trace, |old(cluster.trace)|)
      ensures HasFinalizer(b) ==> old(cluster.w).clock <= v.now <= cluster.w.clock
      ensures HasFinalizer(b) ==> VisitOf(cluster.trace, cluster.round, b, v)
      ensures cluster.reliable && Held(old(cluster.w)) ==> e.None?
      ensures HasFinalizer(b) && e.None? ==> if Waits(v) then r == After(QUICK_CHECK) else r == Done && !Held(cluster.w)
      ensures HasFinalizer(b) && e.None? && Waits(v) ==>
        && BrowserRely(old(cluster.w).browser, cluster.w.browser)
        && (Steady(cluster.trace, |old(cluster.trace)|) ==> Aged(old(cluster.w), v, cluster.w))
      ensures cluster.Quiet() && old(cluster.w).browser.Some? ==>
        e.None? && (cluster.w, r) == CalmDeletion(old(cluster.w), b)
    {
      hide GuardedRun, Writes, Attempts, Justified, CalmMeta, VisitOf, Faulted, Steady, Aged, SentMeta, Saw;
      v := Visit(None, cluster.w.clock);
      if !HasFinalizer(b) {
        return Done, None, v;
      }
      var gone;
      gone, r, e, v := AwaitPod(b);
      if gone {
        ghost var t := cluster.trace;
        ghost var read, at;
        e, read, at := RetryUpdate(RemoveFinalizer);
        r := if e.Some? then After(MEDIUM_RETRY) else Done;
        VisitOfExtends(t, cluster.trace, cluster.round, b, v);
        FaultsCount(cluster.trace, |t|, |old(cluster.trace)|);
      }
    }

    // ----- creation -------------------------------------------------------------------

    // The creation of the pod is the last call; it is fine if there is a pod by then.
    method MakePod(b: Browser, v: Version, opts: ParsedOptions) returns (r: Requeue, e: Option<ApiError>)
      requires cluster.Valid() && Protected(cluster.w, PodTemplate.BuildPod(b, v, opts))
      modifies cluster`w, cluster`trace
      ensures cluster.Valid() && |old(cluster.trace)| + 2 == |cluster.trace| && old(cluster.trace) <= cluster.trace
      ensures e.Some? ==> Faulted(cluster.trace, |old(cluster.trace)|)
      ensures cluster.reliable ==> e.None?
      ensures exists x ::
        && cluster.trace[|cluster.trace| - 1].act == CreatePod(PodTemplate.BuildPod(b, v, opts), x)
        && (e.None? <==> x.None? || x == Some(AlreadyExists))
      ensures e.None? ==>
        && cluster.w.pod.Some? && r == After(QUICK_CHECK)
        && (|| Saw(cluster.trace, cluster.round, CreatePod(PodTemplate.BuildPod(b, v, opts), None))
            || Saw(cluster.trace, cluster.round, CreatePod(PodTemplate.BuildPod(b, v, opts), Some(AlreadyExists))))
      ensures cluster.Quiet() ==>
        && e.None? && r == After(QUICK_CHECK)
        && cluster.w == if old(cluster.w).pod.Some? then old(cluster.w)
                        else Effect(CreatePod(PodTemplate.BuildPod(b, v, opts), None), old(cluster.w))
    {
      hide GuardedRun, Writes, Attempts, PodTemplate.BuildPod, Faulted, Saw;
      ghost var seen;
      e, seen := cluster.Create(PodTemplate.BuildPod(b, v, opts));
      assert cluster.trace[|cluster.trace| - 1].act == CreatePod(PodTemplate.BuildPod(b, v, opts), e);
      SawLast(cluster.trace, cluster.round, CreatePod(PodTemplate.BuildPod(b, v, opts), e));
      if e.None? || e == Some(AlreadyExists) {
        return After(QUICK_CHECK), None;
      }
      FaultLast(cluster.trace, |old(cluster.trace)|);
      r := Done;
    }

    // Under any interference and faults: without an error the Browser is Failed if there is
    // no configuration or the options are bad; otherwise the last call was the creation of
    // its pod, which was accepted or found one.
    method HandleMissingPod(b: Browser) returns (r: Requeue, e: Option<ApiError>, ghost found: Option<Option<Version>>)
      requires cluster.Valid() && Held(cluster.w) && Knows(b, cluster.w, StatusAfterPrepare(b))
      requires b.status.phase != FAILED
      modifies cluster`w, cluster`trace, cluster`slept
      ensures cluster.Valid() && old(cluster.trace) <= cluster.trace
      ensures e.Some? ==> Faulted(cluster.trace, |old(cluster.trace)|)
      ensures cluster.reliable && Held(old(cluster.w)) ==> e.None?
      ensures |cluster.trace| >= |old(cluster.trace)| + 2
      ensures cluster.trace[|old(cluster.trace)| + 1].round == cluster.round
      ensures cluster.trace[|old(cluster.trace)| + 1].act
        == Lookup(Keys.KeyFor(b.namespace, b.browserName, b.browserVersion), found)
      ensures !CanBuild(b, found, decode) && e.None? ==> IsFailed(cluster.w) && r == Done
      ensures CanBuild(b, found, decode) ==> exists x ::
        && cluster.trace[|cluster.trace| - 1].act == CreatePod(PodFrom(b, found.value.value, decode), x)
        && (e.None? <==> x.None? || x == Some(AlreadyExists))
      ensures CanBuild(b, found, decode) && e.None? ==> cluster.w.pod.Some? && r == After(QUICK_CHECK)
      ensures e.None? ==> ProvidedWith(cluster.trace, cluster.round, b, found, decode, cluster.w, r)
      ensures cluster.Quiet() ==> e.None? && (cluster.w, r) == CalmMissing(old(cluster.w), b, decode)
    {
      hide GuardedRun, Writes, Attempts, PodTemplate.BuildPod, CalmStatus, Faulted, Saw, Stored, Says;
      ghost var seen;
      var entry;
      entry, seen := cluster.Config(Keys.KeyFor(b.namespace, b.browserName, b.browserVersion));
      found := entry;
      ghost var from := |cluster.trace|;
      if entry.None? || entry.value.None? {
        r, e := MarkFailed(NO_CONFIG);
        FaultsCount(cluster.trace, from, |old(cluster.trace)|);
        return Done, e, found;
      }
      var opts := PodTemplate.ParseOptions(b.annotations, decode);
      if opts.BadOptions? {
        r, e := MarkFailed(BadOptionsUpdate(opts.message));
        FaultsCount(cluster.trace, from, |old(cluster.trace)|);
        return Done, e, found;
      }
      r, e := MakePod(b, entry.value.value, opts);
      FaultsCount(cluster.trace, from, |old(cluster.trace)|);
    }

    // ----- status ----------------------------------------------------------------------

    method ContainerPorts(name: string, p: Pod) returns (ports: seq<ContainerPort>)
      ensures ports == PortsOf(p.spec.containers, name)
    {
      var cs := p.spec.containers;
      for i := 0 to |cs|
        invariant PortsOf(cs, name) == PortsOf(cs[i..], name)
      {
        if cs[i].name == name && |cs[i].ports| > 0 {
          return cs[i].ports;
        }
      }
      ports := [];
    }

    method CollectStatuses(p: Pod) returns (cs: seq<ContainerStatus>)
      ensures cs == Collected(p)
    {
      cs := [];
      var src := p.status.containers;
      for i := 0 to |src|
        invariant cs == Collected(p)[..i]
      {
        var ports := ContainerPorts(src[i].name, p);
        cs := cs + [src[i].(ports := ports)];
      }
    }

    method StatusesDiffer(a: seq<ContainerStatus>, b: seq<ContainerStatus>) returns (differ: bool)
      ensures differ <==> |a| != |b| || exists i :: 0 <= i < |a| && EntryChanged(a[i], b[i])
    {
      if |a| != |b| {
        return true;
      }
      for i := 0 to |a|
        invariant forall j :: 0 <= j < i ==> !EntryChanged(a[j], b[j])
      {
        if EntryChanged(a[i], b[i]) {
          return true;
        }
      }
      differ := false;
    }

    method FindCritical(p: Pod) returns (found: bool)
      ensures found <==> CriticallyTerminated(p)
    {
      for i := 0 to |p.status.containers|
        invariant forall j :: 0 <= j < i ==> !IsCritical(p.status.containers[j])
      {
        if IsCritical(p.status.containers[i]) {
          return true;
        }
      }
      found := false;
    }

    // A critical container has terminated: the Browser fails and is deleted.
    method EndBrowser(b: Browser, p: Pod) returns (r: Requeue, e: Option<ApiError>)
      requires cluster.Valid() && (HasFinalizer(b) ==> Justified(cluster.trace, cluster.round))
      modifies cluster`w, cluster`trace, cluster`slept
      ensures cluster.Valid() && old(cluster.trace) <= cluster.trace
      ensures e.Some? ==> Faulted(cluster.trace, |old(cluster.trace)|)
      ensures cluster.reliable && Held(old(cluster.w)) ==> e.None?
      ensures e.None? ==> Dismissed(b, cluster.w) && r == Done
      ensures cluster.Quiet() && old(cluster.w).browser.Some? ==>
        && e.None? && r == Done
        && cluster.w == CalmDeleteBrowser(
             if b.status.phase != FAILED then CalmStatus(old(cluster.w), Terminal(p)) else old(cluster.w), b)
    {
      hide GuardedRun, Writes, Attempts, Justified, CalmDeleteBrowser;
      ghost var t := cluster.trace;
      if b.status.phase != FAILED {
        r, e := MarkFailed(Terminal(p));
        if e.Some? {
          return Done, e;
        }
      }
      if HasFinalizer(b) {
        JustifiedExtends(t, cluster.trace, cluster.round);
      }
      r, e := DeleteBrowser(b);
    }

    method UpdateBrowserStatus(b: Browser, p: Pod) returns (r: Requeue, e: Option<ApiError>)
      requires cluster.Valid() && b.deletion.None? && Saw(cluster.trace, cluster.round, GetPod(b, Ok(p)))
      requires IsFailed(cluster.w) ==> p.status.phase == FAILED
      modifies cluster`w, cluster`trace, cluster`slept
      ensures cluster.Valid() && old(cluster.trace) <= cluster.trace
      ensures e.Some? ==> Faulted(cluster.trace, |old(cluster.trace)|)
      ensures cluster.reliable && Held(old(cluster.w)) ==> e.None?
      ensures cluster.Quiet() && old(cluster.w).browser.Some? ==>
        e.None? && (cluster.w, r) == CalmMirror(old(cluster.w), b, p)
      ensures e.None? && CriticallyTerminated(p) ==> Dismissed(b, cluster.w) && r == Done
      ensures e.None? && !CriticallyTerminated(p) ==> r == After(PERIODIC_RECONCILE)
      ensures e.None? && !CriticallyTerminated(p) && p.status.phase != NO_PHASE && cluster.w.browser.Some? ==>
        old(cluster.w).browser.Some? && (AheadOf(old(cluster.w).browser.value.status, b, p) ==>
          Mirrors(cluster.w.browser.value.status, p))
    {
      hide GuardedRun, Writes, Attempts, Mirrors, AheadOf, Faulted, SentStatus, Saw, Justified;
      ghost var at;
      var critical := FindCritical(p);
      if critical {
        PodSeenJustifies(cluster.trace, cluster.round, b, p);
        r, e := EndBrowser(b, p);
        return;
      }
      var podChanged := PodFieldsChanged(b.status, p.status);
      var statuses := CollectStatuses(p);
      var containersChanged := false;
      if |statuses| > 0 {
        containersChanged := StatusesDiffer(statuses, b.status.containers);
      }
      if podChanged || containersChanged {
        e, at := RetryStatusUpdate(Mirror(p.status, podChanged, statuses, containersChanged));
        if e.Some? {
          return Done, e;
        }
      } else {
        at := cluster.w;
      }
      if p.status.phase != NO_PHASE && at.browser.Some? && AheadOf(at.browser.value.status, b, p) {
        MirrorReached(at, b, p);
      }
      return After(PERIODIC_RECONCILE), None;
    }

    // A container waits for a bad reason: the pod is deleted by force, then the failure stored.
    method FailStuck(c: ContainerStatus) returns (r: Requeue, e: Option<ApiError>)
      requires cluster.Valid() && IsStuck(c)
      modifies cluster`w, cluster`trace, cluster`slept
      ensures cluster.Valid() && old(cluster.trace) <= cluster.trace
      ensures old(cluster.w).clock <= cluster.w.clock
      ensures e.Some? ==> Faulted(cluster.trace, |old(cluster.trace)|)
      ensures cluster.reliable && Held(old(cluster.w)) ==> e.None?
      ensures e.None? ==> ForceDeleted(cluster.trace, |old(cluster.trace)|)
      ensures e.None? ==> Forced(cluster.trace, |old(cluster.trace)|)
      ensures e.None? ==> Stored(StuckContainer(c), old(cluster.w), cluster.w) && r == Done
      ensures cluster.Quiet() && old(cluster.w).browser.Some? ==>
        e.None? && cluster.w == CalmStatus(CalmRemovePod(old(cluster.w), true), StuckContainer(c))
    {
      hide GuardedRun, Writes, Attempts, CalmStatus;
      e := DeletePod();
      if e.Some? {
        return After(MEDIUM_RETRY), e;
      }
      ghost var t, w := cluster.trace, cluster.w;
      r, e := MarkFailed(StuckContainer(c));
      ForceDeletedExtends(t, cluster.trace, |old(cluster.trace)|);
      if e.Some? {
        FaultedExtends(cluster.trace, cluster.trace, |t|, |old(cluster.trace)|);
      }
    }

    // The age of a pod with a waiting container: beyond the timeout the Browser fails.
    method CheckAge(c: ContainerStatus, creation: Time)
      returns (ended: bool, r: Requeue, e: Option<ApiError>, ghost now: Time)
      requires cluster.Valid()
      modifies cluster`w, cluster`trace, cluster`slept
      ensures cluster.Valid() && old(cluster.trace) <= cluster.trace
      ensures e.Some? ==> Faulted(cluster.trace, |old(cluster.trace)|)
      ensures cluster.reliable && Held(old(cluster.w)) ==> e.None?
      ensures old(cluster.w).clock <= now <= cluster.w.clock && ClockRead(cluster.trace, |old(cluster.trace)|, now)
      ensures ended <==> IsLate(Some(creation), now)
      ensures !ended ==> e.None? && Rely(old(cluster.w), cluster.w)
      ensures ended && e.None? ==> Stored(CREATION_TIMEOUT, old(cluster.w), cluster.w) && r == Done
      ensures cluster.Quiet() && old(cluster.w).browser.Some? ==>
        && now == old(cluster.w).clock && e.None?
        && cluster.w == if ended then CalmStatus(old(cluster.w), CREATION_TIMEOUT) else old(cluster.w)
    {
      hide GuardedRun, Writes, Attempts, CalmStatus;
      var time, seen := cluster.Now();
      now := time;
      ghost var t := cluster.trace;
      assert t[|old(cluster.trace)| + 1].act == ReadClock(now);
      r, e, ended := Done, None, time - creation > POD_CREATION_TIMEOUT;
      if ended {
        r, e := MarkFailed(CREATION_TIMEOUT);
        ClockReadExtends(t, cluster.trace, |old(cluster.trace)|, |old(cluster.trace)|, now);
        if e.Some? {
          FaultedExtends(cluster.trace, cluster.trace, |t|, |old(cluster.trace)|);
        }
      }
    }

    // One turn of the scan: it ends the reconcile exactly for an offending container, judged
    // at the time read, and without an error leaves the Browser Failed.
    method JudgeContainer(c: ContainerStatus, creation: Option<Time>)
      returns (ended: bool, r: Requeue, e: Option<ApiError>, ghost now: Time)
      requires cluster.Valid()
      modifies cluster`w, cluster`trace, cluster`slept
      ensures cluster.Valid() && old(cluster.trace) <= cluster.trace
      ensures e.Some? ==> Faulted(cluster.trace, |old(cluster.trace)|)
      ensures cluster.reliable && Held(old(cluster.w)) ==> e.None?
      ensures old(cluster.w).clock <= now <= cluster.w.clock
      ensures TimeMatters(c, creation) ==> ClockRead(cluster.trace, |old(cluster.trace)|, now)
      ensures ended <==> !Judge(c, creation, now).Fine?
      ensures !ended ==> Rely(old(cluster.w), cluster.w) && e.None?
      ensures ended && e.None? ==>
        && Stored(VerdictUpdate(c, Judge(c, creation, now)), old(cluster.w), cluster.w) && r == Done
        && (Judge(c, creation, now).Stuck? ==> Forced(cluster.trace, |old(cluster.trace)|))
      ensures cluster.Quiet() && old(cluster.w).browser.Some? ==>
        && now == old(cluster.w).clock && (ended ==> e.None?)
        && cluster.w == CalmVerdict(old(cluster.w), c, Judge(c, creation, now))
    {
      hide GuardedRun, Writes, Attempts, CalmStatus, CalmRemovePod, Stored, ForceDeleted, Faulted, ClockRead;
      now := cluster.w.clock;
      if c.state.terminated.Some? {
        r, e := MarkFailed(StoppedContainer(c));
        return true, r, e, now;
      }
      if c.state.waiting.Some? {
        if creation.Some? {
          ended, r, e, now := CheckAge(c, creation.value);
          if ended {
            return;
          }
        }
        if IsStuck(c) {
          ghost var t, w := cluster.trace, cluster.w;
          r, e := FailStuck(c);
          ended := true;
          JudgedLater(t, cluster.trace, |old(cluster.trace)|, old(cluster.w), w, cluster.w);
          if TimeMatters(c, creation) {
            ClockReadExtends(t, cluster.trace, |old(cluster.trace)|, |old(cluster.trace)|, now);
          }
          return;
        }
      }
      return false, Done, None, now;
    }

    // The scan goes through the containers in order, each judged at the time read for it,
    // and stops at the first offender.
    method ScanPending(b: Browser, p: Pod)
      returns (ended: bool, r: Requeue, e: Option<ApiError>, ghost times: seq<Time>)
      requires cluster.Valid()
      modifies cluster`w, cluster`trace, cluster`slept
      ensures cluster.Valid() && old(cluster.trace) <= cluster.trace
      ensures e.Some? ==> Faulted(cluster.trace, |old(cluster.trace)|)
      ensures cluster.reliable && Held(old(cluster.w)) ==> e.None?
      ensures !ended ==> Rely(old(cluster.w), cluster.w) && e.None?
      ensures ScanOf(cluster.trace, |old(cluster.trace)|, p, times, ended)
      ensures forall j :: 0 <= j < |times| ==> old(cluster.w).clock <= times[j] <= cluster.w.clock
      ensures ended && e.None? ==> ScanEnded(cluster.trace, |old(cluster.trace)|, p, cluster.w) && r == Done
      ensures cluster.Quiet() && old(cluster.w).browser.Some? ==>
        if FirstOffender(p.status.containers, p.creation, old(cluster.w).clock, 0) == |p.status.containers|
        then !ended && cluster.w == old(cluster.w)
        else ended && e.None? && (cluster.w, r) == CalmPending(old(cluster.w), b, p)
    {
      hide GuardedRun, Writes, Attempts, CalmMirror, Rely, Stored, Forced, Faulted, TimesRead, ScanEnded,
        VerdictUpdate;
      var cs := p.status.containers;
      times := [];
      RelyReflexive(cluster.w);
      NoTimesRead(cluster.trace, p);
      for i := 0 to |cs|
        invariant cluster.Valid() && old(cluster.trace) <= cluster.trace
        invariant Rely(old(cluster.w), cluster.w) && old(cluster.w).clock <= cluster.w.clock && |times| == i
        invariant TimesRead(cluster.trace, |old(cluster.trace)|, p, times)
        invariant forall j :: 0 <= j < i ==> old(cluster.w).clock <= times[j] <= cluster.w.clock
        invariant forall j :: 0 <= j < i ==> Judge(cs[j], p.creation, times[j]).Fine?
        invariant cluster.Quiet() && old(cluster.w).browser.Some? ==>
          cluster.w == old(cluster.w) && forall j :: 0 <= j < i ==> times[j] == old(cluster.w).clock
      {
        ghost var now, before, t := *, cluster.w, cluster.trace;
        RelyHolds(old(cluster.w), before);
        ended, r, e, now := JudgeContainer(cs[i], p.creation);
        OneMoreTime(t, cluster.trace, |old(cluster.trace)|, p, times, now);
        times := times + [now];
        if ended {
          FaultsCount(cluster.trace, |t|, |old(cluster.trace)|);
          EndScan(cluster.trace, |old(cluster.trace)|, |t|, p, times, before, cluster.w);
          return;
        }
        RelyTransitive(old(cluster.w), before, cluster.w);
      }
      return false, Done, None, times;
    }

    // A failed pod is deleted by force, then the Browser fails as well.
    method FailPod(b: Browser, p: Pod) returns (r: Requeue, e: Option<ApiError>)
      requires cluster.Valid() && b.status.phase != FAILED && p.status.phase == FAILED
      requires Knows(b, cluster.w, StatusAfterPrepare(b))
      modifies cluster`w, cluster`trace, cluster`slept
      ensures cluster.Valid() && old(cluster.trace) <= cluster.trace
      ensures e.Some? ==> Faulted(cluster.trace, |old(cluster.trace)|)
      ensures cluster.reliable && Held(old(cluster.w)) ==> e.None?
      ensures e.None? ==> Stored(FailedPod(p), old(cluster.w), cluster.w)
      ensures e.None? ==> Held(cluster.w) == Held(old(cluster.w)) && AheadOf(cluster.w.browser.value.status, b, p)
      ensures cluster.Quiet() && old(cluster.w).browser.Some? ==>
        e.None? && cluster.w == CalmStatus(CalmRemovePod(old(cluster.w), true), FailedPod(p))
      ensures e.None? ==> ForceDeleted(cluster.trace, |old(cluster.trace)|)
      ensures || ForceDeleted(cluster.trace, |old(cluster.trace)|)
              || (e.Some? && Writes(cluster.trace) == Writes(old(cluster.trace)))
    {
      hide GuardedRun, Writes, Attempts, ForceDeleted, Faulted, SentStatus;
      r := After(MEDIUM_RETRY);
      e := DeletePod();
      if e.None? {
        ghost var t, at := cluster.trace, cluster.w;
        e, at := RetryStatusUpdate(FailedPod(p));
        ForceDeletedExtends(t, cluster.trace, |old(cluster.trace)|);
        FaultsCount(cluster.trace, |t|, |old(cluster.trace)|);
      }
    }

    // Under any interference and faults: the forced delete of a failed pod comes before
    // anything is stored about it, and without an error the pod's state has been acted on.
    method HandlePod(b: Browser, p: Pod) returns (r: Requeue, e: Option<ApiError>)
      requires cluster.Valid() && b.deletion.None? && Saw(cluster.trace, cluster.round, GetPod(b, Ok(p)))
      requires b.status.phase != FAILED && p.status.phase != NO_PHASE
      requires Knows(b, cluster.w, StatusAfterPrepare(b))
      modifies cluster`w, cluster`trace, cluster`slept
      ensures cluster.Valid() && old(cluster.trace) <= cluster.trace
      ensures e.Some? ==> Faulted(cluster.trace, |old(cluster.trace)|)
      ensures cluster.reliable && Held(old(cluster.w)) ==> e.None?
      ensures e.None? ==> PodSettled(cluster.trace, |old(cluster.trace)|, b, p, cluster.w, r)
      ensures cluster.Quiet() && old(cluster.w).browser.Some? ==>
        e.None? && (cluster.w, r) == CalmPod(old(cluster.w), b, p)
      ensures p.deletion.None? && p.status.phase == FAILED ==>
        || ForceDeleted(cluster.trace, |old(cluster.trace)|)
        || (e.Some? && Writes(cluster.trace) == Writes(old(cluster.trace)))
    {
      hide GuardedRun, Writes, Attempts, Saw, CalmMirror, ForceDeleted, Mirrors, Dismissed, Faulted, Forced, AheadOf,
        ScanPassed, ScanEnded, ScanOf;
      if p.deletion.Some? {
        PodSeenJustifies(cluster.trace, cluster.round, b, p);
        r, e := DeleteBrowser(b);
        return;
      }
      StillAhead(b, p, cluster.w);
      if p.status.phase == FAILED {
        r, e := FailPod(b, p);
        if e.Some? {
          return;
        }
      }
      ghost var times := [];
      if p.status.phase == PENDING {
        var ended;
        ended, r, e, times := ScanPending(b, p);
        if ended {
          return;
        }
        Passed(cluster.trace, |old(cluster.trace)|, p, times);
      }
      SawExtends(old(cluster.trace), cluster.trace, cluster.round, GetPod(b, Ok(p)));
      ghost var u := cluster.trace;
      r, e := UpdateBrowserStatus(b, p);
      FaultsCount(cluster.trace, |u|, |old(cluster.trace)|);
      PodActsExtend(u, cluster.trace, |old(cluster.trace)|, p);
    }

    // ----- one reconcile ------------------------------------------------------------------

    // A Failed Browser only loses its finalizer.
    method HandleFailed(b: Browser) returns (r: Requeue, e: Option<ApiError>)
      requires cluster.Valid() && b.status.phase == FAILED && cluster.trace != []
      requires cluster.trace[|cluster.trace| - 1].act == GetBrowser(Ok(b))
      requires cluster.trace[|cluster.trace| - 1].round == cluster.round && cluster.w.browser == Some(b)
      modifies cluster`w, cluster`trace, cluster`slept
      ensures cluster.Valid() && old(cluster.trace) <= cluster.trace
      ensures e.Some? ==> Faulted(cluster.trace, |old(cluster.trace)|)
      ensures cluster.reliable && Held(old(cluster.w)) ==> e.None?
      ensures e.None? ==> !Held(cluster.w) && r == Done
      ensures cluster.Quiet() ==>
        && e.None?
        && cluster.w == if HasFinalizer(b) then CalmMeta(old(cluster.w), RemoveFinalizer) else old(cluster.w)
    {
      hide GuardedRun, Writes, Attempts;
      r, e := Done, None;
      if HasFinalizer(b) {
        FailedJustifies(cluster.trace, |cluster.trace| - 1, b);
        ghost var read, seen;
        e, read, seen := RetryUpdate(RemoveFinalizer);
        r := if e.Some? then After(MEDIUM_RETRY) else Done;
      }
    }

    // Finalizer, labels and first phase of a live Browser.
    method PrepareBrowser(b: Browser) returns (r: Requeue, e: Option<ApiError>)
      requires cluster.Valid() && BrowserRely(Some(b), cluster.w.browser)
      requires b.deletion.None? && b.status.phase != FAILED
      modifies cluster`w, cluster`trace, cluster`slept
      ensures cluster.Valid() && old(cluster.trace) <= cluster.trace
      ensures e.Some? ==> Faulted(cluster.trace, |old(cluster.trace)|)
      ensures cluster.reliable && Held(old(cluster.w)) ==> e.None?
      ensures e.None? ==> Held(cluster.w) && Knows(b, cluster.w, StatusAfterPrepare(b))
      ensures e.None? ==> Prepared(cluster.trace, cluster.round, b)
      ensures cluster.Quiet() && old(cluster.w).browser == Some(b) ==>
        e.None? && cluster.w == CalmPrepare(old(cluster.w), b)
    {
      hide GuardedRun, Writes, Attempts, Faulted, SentMeta, Patched, PendingPatched;
      ghost var read, seen, t;
      r, t := Done, cluster.trace;
      e := EnsureFinalizer(b);
      if e.Some? {
        return;
      }
      t := cluster.trace;
      e, read, seen := EnsureLabels(b);
      FaultsCount(cluster.trace, |t|, |old(cluster.trace)|);
      if e.Some? {
        return After(MEDIUM_RETRY), e;
      }
      PatchedExtends(t, cluster.trace, cluster.round, AddFinalizer);
      if LabelOf(b.labels, BROWSER_LABEL) != b.name {
        SentIsPatched(cluster.trace, cluster.round, SetLabels, read, seen);
      }
      t := cluster.trace;
      e := EnsurePhase(b);
      FaultsCount(cluster.trace, |t|, |old(cluster.trace)|);
      PatchedExtends(t, cluster.trace, cluster.round, AddFinalizer);
      PatchedExtends(t, cluster.trace, cluster.round, SetLabels);
    }

    // Reads the pod of a prepared Browser and sees to it, or to the missing pod.
    method SeeToPod(b: Browser) returns (r: Requeue, e: Option<ApiError>, ghost v: Visit)
      requires cluster.Valid() && Held(cluster.w) && Knows(b, cluster.w, StatusAfterPrepare(b))
      requires b.deletion.None? && b.status.phase != FAILED
      modifies cluster`w, cluster`trace, cluster`slept
      ensures cluster.Valid() && old(cluster.trace) <= cluster.trace
      ensures e.Some? ==> Faulted(cluster.trace, |old(cluster.trace)|)
      ensures cluster.reliable ==> e.None?
      ensures e.None? ==> SeenTo(cluster.trace, |old(cluster.trace)|, cluster.round, b, v.pod, decode, cluster.w, r)
      ensures cluster.Quiet() ==>
        && e.None?
        && (cluster.w, r) == if old(cluster.w).pod.None? then CalmMissing(old(cluster.w), b, decode)
                             else CalmPod(old(cluster.w), b, old(cluster.w).pod.value)
    {
      hide GuardedRun, Writes, Attempts, CalmPod, CalmMissing, PodSettled, Provided, Saw, Faulted;
      v := Visit(None, cluster.w.clock);
      var got, seen := cluster.GetPod(b);
      ghost var t := cluster.trace;
      SawLast(t, cluster.round, GetPod(b, got));
      if got.Ok? {
        v := v.(pod := Some(got.value));
        r, e := HandlePod(b, got.value);
        SawExtends(t, cluster.trace, cluster.round, GetPod(b, got));
        if e.None? {
          PodSettledEarlier(cluster.trace, |t|, |old(cluster.trace)|, b, got.value, cluster.w, r);
        }
      } else if got.error == NotFound {
        ghost var found;
        r, e, found := HandleMissingPod(b);
        SawExtends(t, cluster.trace, cluster.round, GetPod(b, got));
        if e.None? {
          LookedUp(cluster.trace, |t| + 1, cluster.round, b, found, decode, cluster.w, r);
        }
      } else {
        FaultLast(t, |old(cluster.trace)|);
        return Done, Some(got.error), v;
      }
      FaultsCount(cluster.trace, |t|, |old(cluster.trace)|);
    }

    // The part of Reconcile for a Browser that is neither Failed nor under deletion.
    method ReconcileLive(b: Browser) returns (r: Requeue, e: Option<ApiError>, ghost v: Visit)
      requires cluster.Valid() && BrowserRely(Some(b), cluster.w.browser)
      requires b.deletion.None? && b.status.phase != FAILED
      modifies cluster`w, cluster`trace, cluster`slept
      ensures cluster.Valid() && old(cluster.trace) <= cluster.trace
      ensures e.Some? ==> Faulted(cluster.trace, |old(cluster.trace)|)
      ensures cluster.reliable && Held(old(cluster.w)) ==> e.None?
      ensures e.None? ==> Settled(cluster.trace, |old(cluster.trace)|, cluster.round, b, v.pod, decode, cluster.w, r)
      ensures cluster.Quiet() && old(cluster.w).browser == Some(b) ==>
        e.None? && (cluster.w, r) == CalmReconcile(old(cluster.w), decode)
    {
      hide GuardedRun, Writes, Attempts, CalmPod, CalmMissing, CalmPrepare, CalmDeletion, SeenTo, Prepared, Faulted;
      v := Visit(None, cluster.w.clock);
      r, e := PrepareBrowser(b);
      if e.Some? {
        return;
      }
      ghost var t := cluster.trace;
      r, e, v := SeeToPod(b);
      if e.None? {
        PreparedExtends(t, cluster.trace, cluster.round, b);
        SeenToEarlier(cluster.trace, |t|, |old(cluster.trace)|, cluster.round, b, v.pod, decode, cluster.w, r);
      }
      FaultsCount(cluster.trace, |t|, |old(cluster.trace)|);
    }

    // The Browser's copy is read once, by the first call; all later tests use it, also after
    // the stored Browser got its finalizer, its labels or its first phase. `got` is that
    // reading and `v` the reading of the pod.
    method Reconcile() returns (r: Requeue, e: Option<ApiError>, ghost got: Reply<Browser>, ghost v: Visit)
      requires cluster.Valid()
      modifies cluster
      ensures cluster.Valid() && old(cluster.trace) <= cluster.trace
      ensures e.Some? ==> Faulted(cluster.trace, |old(cluster.trace)|)
      ensures cluster.reliable && Held(old(cluster.w)) ==> e.None?
      ensures cluster.round == old(cluster.round) + 1
      ensures |cluster.trace| >= |old(cluster.trace)| + 2
      ensures cluster.trace[|old(cluster.trace)|].pre == old(cluster.w)
      ensures cluster.trace[|old(cluster.trace)| + 1].act == GetBrowser(got)
      ensures cluster.trace[|old(cluster.trace)| + 1].round == cluster.round
      ensures got.Err? ==> e == (if got.error == NotFound then None else Some(got.error))
      ensures got.Ok? && got.value.deletion.None? && e.None? ==>
        Settled(cluster.trace, |old(cluster.trace)|, cluster.round, got.value, v.pod, decode, cluster.w, r)
      ensures got.Ok? && got.value.deletion.Some? && HasFinalizer(got.value) && e.None? ==>
        && VisitOf(cluster.trace, cluster.round, got.value, v) && old(cluster.w).clock <= v.now <= cluster.w.clock
        && if Waits(v) then r == After(QUICK_CHECK) else r == Done && !Held(cluster.w)
      ensures Held(old(cluster.w)) && old(cluster.w).browser.value.deletion.Some? && e.None? ==>
        && got.Ok? && HasFinalizer(got.value) && got.value.deletion.Some?
        && (Held(cluster.w) <==> Waits(v)) && (Held(cluster.w) ==> cluster.w.browser.value.deletion.Some?)
        && (Waits(v) && Steady(cluster.trace, |old(cluster.trace)|) ==> Aged(old(cluster.w), v, cluster.w))
      ensures cluster.Quiet() ==> e.None? && (cluster.w, r) == CalmReconcile(old(cluster.w), decode)
    {
      hide GuardedRun, Writes, Attempts, CalmPod, CalmMissing, CalmDeletion, SeenTo, Prepared, VisitOf, Faulted,
        Waits;
      v := Visit(None, cluster.w.clock);
      cluster.BeginRound();
      var reply, seen := cluster.GetBrowser();
      got := reply;
      ghost var t := cluster.trace;
      if reply.Err? {
        FaultLast(t, |old(cluster.trace)|);
        return Done, if reply.error == NotFound then None else Some(reply.error), got, v;
      }
      var b := reply.value;
      if b.deletion.Some? {
        r, e, v := HandleDeletion(b);
        if Steady(cluster.trace, |old(cluster.trace)|) {
          SteadyPart(t, cluster.trace, |old(cluster.trace)|);
          SteadyCall(old(cluster.trace), t, cluster.round, old(cluster.w), seen, GetBrowser(got));
        }
      } else if b.status.phase == FAILED {
        r, e := HandleFailed(b);
      } else {
        r, e, v := ReconcileLive(b);
        if e.None? {
          SettledEarlier(cluster.trace, |t|, |old(cluster.trace)|, cluster.round, b, v.pod, decode, cluster.w, r);
        }
      }
      FaultsCount(cluster.trace, |t|, |old(cluster.trace)|);
    }
  }
}

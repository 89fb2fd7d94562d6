// The updates that the controller applies to a Browser, the pure decisions it takes
// about a pod's status, and one whole reconcile on a quiet cluster.
module Updates {
  import opened Values
  import opened Kube
  import opened ClusterModel
  import PodTemplate
  import Keys

  // ----- the update functions handed to the retry loops -------------------------

  datatype MetaUpdate = AddFinalizer | RemoveFinalizer | SetLabels

  function ApplyMeta(u: MetaUpdate, b: Browser): Browser {
    match u
    case AddFinalizer => if HasFinalizer(b) then b else b.(finalizers := b.finalizers + [FINALIZER])
    case RemoveFinalizer => b.(finalizers := Without(b.finalizers, FINALIZER))
    case SetLabels => b.(labels :=
      b.labels[BROWSER_LABEL := b.name][NAME_LABEL := b.browserName][VERSION_LABEL := b.browserVersion])
  }

  predicate HasLabel(labels: map<string, string>, key: string, value: string) {
    key in labels && labels[key] == value
  }

  // The labels that tell which Browser this is, and what browser it asks for.
  predicate Labelled(labels: map<string, string>, b: Browser) {
    && HasLabel(labels, "selenosis.io/browser", b.name)
    && HasLabel(labels, "selenosis.io/browser.name", b.browserName)
    && HasLabel(labels, "selenosis.io/browser.version", b.browserVersion)
  }

  predicate IsBrowserLabel(key: string) {
    key in {"selenosis.io/browser", "selenosis.io/browser.name", "selenosis.io/browser.version"}
  }

  // What an update is for: it changes this about the copy b, and nothing else.
  ghost predicate Amends(u: MetaUpdate, b: Browser, after: Browser) {
    match u
    case AddFinalizer =>
      && after == b.(finalizers := after.finalizers) && b.finalizers <= after.finalizers
      && forall x :: x in after.finalizers <==> x in b.finalizers || x == "browserpod.selenosis.io/finalizer"
    case RemoveFinalizer =>
      && after == b.(finalizers := after.finalizers)
      && forall x :: x in after.finalizers <==> x in b.finalizers && x != "browserpod.selenosis.io/finalizer"
    case SetLabels =>
      && after == b.(labels := after.labels) && Labelled(after.labels, b)
      && forall k :: !IsBrowserLabel(k) ==>
           (k in after.labels <==> k in b.labels) && (k in after.labels ==> after.labels[k] == b.labels[k])
  }

  lemma AmendsExact(u: MetaUpdate, b: Browser)
    ensures Amends(u, b, ApplyMeta(u, b))
  {
    assert |BROWSER_LABEL| != |NAME_LABEL| && |BROWSER_LABEL| != |VERSION_LABEL| && |NAME_LABEL| != |VERSION_LABEL|;
  }

  datatype StatusUpdate =
    | SetPending
    | Fail(message: string)
    | FailBecause(reason: string, message: string)
    | Mirror(pod: PodStatus, withPod: bool, containers: seq<ContainerStatus>, withContainers: bool)

  function NewPhase(u: StatusUpdate): string {
    match u
    case SetPending => PENDING
    case Fail(_) => FAILED
    case FailBecause(_, _) => FAILED
    case Mirror(p, _, _, _) => p.phase
  }

  function ApplyStatus(u: StatusUpdate, s: BrowserStatus): BrowserStatus {
    var t := s.(phase := NewPhase(u));
    match u
    case SetPending => t
    case Fail(m) => t.(message := m)
    case FailBecause(r, m) => t.(reason := r, message := m)
    case Mirror(p, withPod, cs, withContainers) =>
      t.(podIP := if withPod then p.podIP else s.podIP,
         startTime := if withPod then p.startTime else s.startTime,
         containers := if withContainers then cs else s.containers)
  }

  // A patch computed from the stored object itself yields the updated copy.
  lemma PatchOfStored(u: MetaUpdate, b: Browser)
    ensures PatchBrowser(b, ApplyMeta(u, b), b) == ApplyMeta(u, b)
  {
    PatchMapOfStored(b.labels, ApplyMeta(u, b).labels);
    PatchMapOfStored(b.annotations, ApplyMeta(u, b).annotations);
  }

  // ----- decisions on a pod's status --------------------------------------------

  predicate StateEqual(a: ContainerState, b: ContainerState) {
    if a.running.Some? != b.running.Some? || a.terminated.Some? != b.terminated.Some?
       || a.waiting.Some? != b.waiting.Some? then false
    else if a.running.Some? then a.running == b.running
    else if a.terminated.Some? then
      a.terminated.value.(rest := Opaque("")) == b.terminated.value.(rest := Opaque(""))
    else a.waiting == b.waiting
  }

  function PortsOf(cs: seq<Container>, name: string): seq<ContainerPort> {
    if cs == [] then []
    else if cs[0].name == name && cs[0].ports != [] then cs[0].ports
    else PortsOf(cs[1..], name)
  }

  function Collected(p: Pod): (cs: seq<ContainerStatus>)
    ensures |cs| == |p.status.containers|
  {
    var src := p.status.containers;
    seq(|src|, i requires 0 <= i < |src| => src[i].(ports := PortsOf(p.spec.containers, src[i].name)))
  }

  predicate EntryChanged(a: ContainerStatus, b: ContainerStatus) {
    a.restartCount != b.restartCount || !StateEqual(a.state, b.state)
  }

  predicate PodFieldsChanged(s: BrowserStatus, p: PodStatus) {
    s.phase != p.phase || s.podIP != p.podIP || (p.startTime.Some? && s.startTime != p.startTime)
  }

  predicate ContainersChanged(s: BrowserStatus, p: Pod) {
    var current := Collected(p);
    && current != []
    && (|current| != |s.containers|
        || exists i :: 0 <= i < |current| && EntryChanged(current[i], s.containers[i]))
  }

  function MirrorOf(s: BrowserStatus, p: Pod): StatusUpdate {
    Mirror(p.status, PodFieldsChanged(s, p.status), Collected(p), ContainersChanged(s, p))
  }

  // What the scan of a pending pod makes of one container.
  datatype Verdict = Fine | Stopped | Late | Stuck

  predicate IsLate(creation: Option<Time>, now: Time) {
    creation.Some? && now - creation.value > POD_CREATION_TIMEOUT
  }

  predicate IsStuck(c: ContainerStatus) {
    && c.state.waiting.Some?
    && c.state.waiting.value.reason != "ContainerCreating" && c.state.waiting.value.reason != "PodInitializing"
  }

  function Judge(c: ContainerStatus, creation: Option<Time>, now: Time): (v: Verdict)
    ensures v.Stuck? ==> IsStuck(c)
  {
    if c.state.terminated.Some? then Stopped
    else if c.state.waiting.Some? && IsLate(creation, now) then Late
    else if IsStuck(c) then Stuck
    else Fine
  }

  // The index of the first offending container from `from` on, or |cs|.
  function FirstOffender(cs: seq<ContainerStatus>, creation: Option<Time>, now: Time, from: nat): (i: nat)
    requires from <= |cs|
    ensures from <= i <= |cs|
    ensures i < |cs| ==> !Judge(cs[i], creation, now).Fine?
    ensures forall j :: from <= j < i ==> Judge(cs[j], creation, now).Fine?
    decreases |cs| - from
  {
    if from == |cs| || !Judge(cs[from], creation, now).Fine? then from
    else FirstOffender(cs, creation, now, from + 1)
  }

  function FailedPod(p: Pod): StatusUpdate {
    Fail("pod has failed with reason: " + p.status.reason + " - " + p.status.message)
  }

  function StoppedContainer(c: ContainerStatus): StatusUpdate {
    Fail("pod container " + c.name + " terminated")
  }

  const CREATION_TIMEOUT := Fail("pod creation timeout exceeded after 5m0s")

  function StuckContainer(c: ContainerStatus): StatusUpdate
    requires c.state.waiting.Some?
  {
    Fail("pod container " + c.name + " failed: " + c.state.waiting.value.reason + " - "
         + c.state.waiting.value.message)
  }

  const NO_CONFIG := FailBecause("BrowserPodSpec", "Browser configuration not found")

  function BadOptionsUpdate(message: string): StatusUpdate {
    FailBecause("InvalidSelenosisOptions", message)
  }

  function Terminal(p: Pod): StatusUpdate {
    FailBecause(p.status.reason, p.status.message)
  }

  // ----- one reconcile without interference and faults ---------------------------
  // The second component is the request to the work queue. `b` is the copy of the
  // Browser read at the start; it is never refreshed.

  function CalmMeta(w: World, u: MetaUpdate): World {
    if w.browser.Some? then w.(browser := Settle(ApplyMeta(u, w.browser.value))) else w
  }

  lemma PatchOnQuiet(w: World, u: MetaUpdate)
    requires w.browser.Some?
    ensures var b := w.browser.value; Effect(PatchMeta(b, ApplyMeta(u, b), None), w) == CalmMeta(w, u)
  {
    PatchOfStored(u, w.browser.value);
  }

  function CalmStatus(w: World, u: StatusUpdate): World {
    if w.browser.Some? then
      var b := w.browser.value;
      w.(browser := Some(b.(status := ApplyStatus(u, b.status))))
    else w
  }

  // Nobody else writes the status, so a status patch computed from an older copy of
  // the Browser acts like the update itself.
  lemma StatusPatchOnStored(w: World, read: Browser, u: StatusUpdate)
    requires w.browser.Some? && read.status == w.browser.value.status
    ensures Effect(PatchStatus(read, read.(status := ApplyStatus(u, read.status)), None), w) == CalmStatus(w, u)
  {
  }

  function CalmRemovePod(w: World, force: bool): World {
    Effect(DeletePod(force, None), w)
  }

  function CalmDeleteBrowser(w: World, b: Browser): World {
    Effect(DeleteBrowser(None), if HasFinalizer(b) then CalmMeta(w, RemoveFinalizer) else w)
  }

  function CalmMirror(w: World, b: Browser, p: Pod): (World, Requeue) {
    if CriticallyTerminated(p) then
      (CalmDeleteBrowser(if b.status.phase != FAILED then CalmStatus(w, Terminal(p)) else w, b), Done)
    else if PodFieldsChanged(b.status, p.status) || ContainersChanged(b.status, p) then
      (CalmStatus(w, MirrorOf(b.status, p)), After(PERIODIC_RECONCILE))
    else (w, After(PERIODIC_RECONCILE))
  }

  function CalmMissing(w: World, b: Browser, decode: string -> ParsedOptions): (World, Requeue) {
    var key := Keys.KeyFor(b.namespace, b.browserName, b.browserVersion);
    if key !in w.configs || w.configs[key].None? then
      (if b.status.phase != FAILED then CalmStatus(w, NO_CONFIG) else w, Done)
    else
      var opts := PodTemplate.ParseOptions(b.annotations, decode);
      if opts.BadOptions? then (CalmStatus(w, BadOptionsUpdate(opts.message)), Done)
      else if w.pod.Some? then (w, After(QUICK_CHECK))
      else (Effect(CreatePod(PodTemplate.BuildPod(b, w.configs[key].value, opts), None), w), After(QUICK_CHECK))
  }

  function CalmDeletion(w: World, b: Browser): (World, Requeue) {
    if !HasFinalizer(b) then (w, Done)
    else if w.pod.Some? then
      var p := w.pod.value;
      if p.deletion.None? then (CalmRemovePod(w, p.status.phase == FAILED), After(QUICK_CHECK))
      else if w.clock - p.deletion.value > POD_DELETION_TIMEOUT then
        (CalmMeta(CalmRemovePod(w, true), RemoveFinalizer), Done)
      else (w, After(QUICK_CHECK))
    else (CalmMeta(w, RemoveFinalizer), Done)
  }

  function CalmVerdict(w: World, c: ContainerStatus, v: Verdict): World
    requires v.Stuck? ==> IsStuck(c)
  {
    match v
    case Fine => w
    case Stopped => CalmStatus(w, StoppedContainer(c))
    case Late => CalmStatus(w, CREATION_TIMEOUT)
    case Stuck => CalmStatus(CalmRemovePod(w, true), StuckContainer(c))
  }

  function CalmPending(w: World, b: Browser, p: Pod): (World, Requeue) {
    var cs := p.status.containers;
    var i := FirstOffender(cs, p.creation, w.clock, 0);
    if i == |cs| then CalmMirror(w, b, p)
    else (CalmVerdict(w, cs[i], Judge(cs[i], p.creation, w.clock)), Done)
  }

  function CalmPod(w: World, b: Browser, p: Pod): (World, Requeue) {
    if p.deletion.Some? then (CalmDeleteBrowser(w, b), Done)
    else if p.status.phase == FAILED then
      CalmMirror(CalmStatus(CalmRemovePod(w, true), FailedPod(p)), b, p)
    else if p.status.phase == PENDING then CalmPending(w, b, p)
    else CalmMirror(w, b, p)
  }

  function CalmPrepare(w: World, b: Browser): World {
    var w1 := if HasFinalizer(b) then w else CalmMeta(w, AddFinalizer);
    var w2 := if LabelOf(b.labels, BROWSER_LABEL) == b.name then w1 else CalmMeta(w1, SetLabels);
    if b.status.phase == NO_PHASE then CalmStatus(w2, SetPending) else w2
  }

  function CalmReconcile(w: World, decode: string -> ParsedOptions): (World, Requeue) {
    if w.browser.None? then (w, Done)
    else
      var b := w.browser.value;
      if b.deletion.Some? then CalmDeletion(w, b)
      else if b.status.phase == FAILED then (if HasFinalizer(b) then CalmMeta(w, RemoveFinalizer) else w, Done)
      else
        var w3 := CalmPrepare(w, b);
        if w3.pod.None? then CalmMissing(w3, b, decode) else CalmPod(w3, b, w3.pod.value)
  }
}

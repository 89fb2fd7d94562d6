// What the controller's reading of a pod's status amounts to.
module StatusFacts {
  import opened Values
  import opened Kube
  import opened ClusterModel
  import opened Updates

  // ----- comparison of container states ---------------------------------------------

  // The API server keeps at most one of the three members of a container state.
  predicate OneOf(s: ContainerState) {
    (s.running.None? || s.waiting.None?) && (s.running.None? || s.terminated.None?)
    && (s.waiting.None? || s.terminated.None?)
  }

  function Visible(s: ContainerState): ContainerState {
    if s.terminated.Some? then s.(terminated := Some(s.terminated.value.(rest := Opaque("")))) else s
  }

  // On states with one member the comparison is equality of everything it looks at.
  lemma StateEqualExact(a: ContainerState, b: ContainerState)
    requires OneOf(a) && OneOf(b)
    ensures StateEqual(a, b) <==> Visible(a) == Visible(b)
  {
  }

  // Without that convention a running state hides a change of the other members.
  lemma StateEqualOverlooks(run: Running, x: Waiting, y: Waiting)
    requires x != y
    ensures var a := ContainerState(Some(run), Some(x), None);
            var b := ContainerState(Some(run), Some(y), None);
            StateEqual(a, b) && Visible(a) != Visible(b)
  {
  }

  // In milliseconds.
  const FIVE_MINUTES := 5 * 60 * 1000

  // ----- the scan of a pending pod ------------------------------------------------------

  predicate Offends(c: ContainerStatus, creation: Option<Time>, now: Time) {
    || c.state.terminated.Some?
    || (c.state.waiting.Some?
        && ((creation.Some? && now - creation.value > FIVE_MINUTES)
            || c.state.waiting.value.reason !in {"ContainerCreating", "PodInitializing"}))
  }

  // A wait with a bad reason, inside the timeout, in a container that has not terminated.
  predicate BadWait(c: ContainerStatus, creation: Option<Time>, now: Time) {
    && c.state.terminated.None? && c.state.waiting.Some?
    && !(creation.Some? && now - creation.value > FIVE_MINUTES)
    && c.state.waiting.value.reason !in {"ContainerCreating", "PodInitializing"}
  }

  lemma JudgeExact(c: ContainerStatus, creation: Option<Time>, now: Time)
    ensures Judge(c, creation, now).Fine? <==> !Offends(c, creation, now)
    ensures Judge(c, creation, now).Stuck? <==> BadWait(c, creation, now)
  {
  }

  lemma MirrorKeepsPod(w: World, b: Browser, p: Pod)
    requires w.browser.Some? && !IsFailed(w) && p.status.phase != FAILED && !CriticallyTerminated(p)
    ensures CalmMirror(w, b, p).0.pod == w.pod && !IsFailed(CalmMirror(w, b, p).0)
  {
  }

  // A pending pod makes its Browser Failed exactly when some container offends, and is
  // deleted exactly when the first offender is a bad wait.
  lemma PendingScanExact(w: World, b: Browser, p: Pod)
    requires w.browser.Some? && !IsFailed(w) && w.pod == Some(p)
    requires p.status.phase == PENDING && p.deletion.None?
    ensures var cs := p.status.containers;
            IsFailed(CalmPod(w, b, p).0) <==> exists i :: 0 <= i < |cs| && Offends(cs[i], p.creation, w.clock)
    ensures var cs := p.status.containers;
            CalmPod(w, b, p).0.pod != w.pod <==>
              (exists i :: 0 <= i < |cs| && BadWait(cs[i], p.creation, w.clock)
                           && forall j :: 0 <= j < i ==> !Offends(cs[j], p.creation, w.clock))
  {
    hide CalmMirror;
    var cs := p.status.containers;
    forall j | 0 <= j < |cs|
      ensures Judge(cs[j], p.creation, w.clock).Fine? <==> !Offends(cs[j], p.creation, w.clock)
      ensures Judge(cs[j], p.creation, w.clock).Stuck? <==> BadWait(cs[j], p.creation, w.clock)
    {
      JudgeExact(cs[j], p.creation, w.clock);
    }
    var i := FirstOffender(cs, p.creation, w.clock, 0);
    if i == |cs| {
      MirrorKeepsPod(w, b, p);
    }
  }

  predicate FirstToOffend(cs: seq<ContainerStatus>, i: int, creation: Option<Time>, now: Time) {
    0 <= i < |cs| && Offends(cs[i], creation, now) && forall j :: 0 <= j < i ==> !Offends(cs[j], creation, now)
  }

  // The failure stored is that of the first offender.
  lemma OffenderText(w: World, b: Browser, p: Pod, i: int)
    requires w.browser.Some? && p.status.phase == PENDING && p.deletion.None?
    requires FirstToOffend(p.status.containers, i, p.creation, w.clock)
    ensures var after, c := CalmPod(w, b, p).0, p.status.containers[i];
            && after.browser.Some? && after.browser.value.status.phase == "Failed"
            && after.browser.value.status.message ==
                 if c.state.terminated.Some? then "pod container " + c.name + " terminated"
                 else if p.creation.Some? && w.clock - p.creation.value > FIVE_MINUTES then
                   "pod creation timeout exceeded after 5m0s"
                 else
                   "pod container " + c.name + " failed: " + c.state.waiting.value.reason + " - "
                   + c.state.waiting.value.message
  {
    var cs := p.status.containers;
    forall j | 0 <= j < |cs|
      ensures Judge(cs[j], p.creation, w.clock).Fine? <==> !Offends(cs[j], p.creation, w.clock)
    {
      JudgeExact(cs[j], p.creation, w.clock);
    }
    assert FirstOffender(cs, p.creation, w.clock, 0) == i;
  }

  // ----- failed pods and critical containers --------------------------------------------

  lemma CriticalExact(p: Pod)
    ensures CriticallyTerminated(p) <==>
      exists i :: && 0 <= i < |p.status.containers| && p.status.containers[i].state.terminated.Some?
                  && p.status.containers[i].name in {"browser", "seleniferous"}
  {
    var cs := p.status.containers;
    assert forall i :: 0 <= i < |cs| ==>
      (IsCritical(cs[i]) <==> cs[i].state.terminated.Some? && cs[i].name in {"browser", "seleniferous"});
  }

  // A failed pod fails its Browser with the pod's reason and message in one line ...
  lemma FailedPodText(w: World, b: Browser, p: Pod)
    requires w.browser.Some? && b.status.phase != FAILED
    requires p.deletion.None? && p.status.phase == "Failed" && !CriticallyTerminated(p)
    ensures var after := CalmPod(w, b, p).0;
            && after.browser.Some? && after.browser.value.status.phase == "Failed"
            && after.browser.value.status.message
                 == "pod has failed with reason: " + p.status.reason + " - " + p.status.message
  {
  }

  // ... a terminated critical container with both, and the Browser is deleted.
  lemma CriticalText(w: World, b: Browser, p: Pod)
    requires w.browser.Some? && b.status.phase != FAILED
    requires p.deletion.None? && p.status.phase != PENDING && CriticallyTerminated(p)
    ensures var after := CalmPod(w, b, p).0;
            after.browser.Some? ==>
              && after.browser.value.deletion.Some?
              && after.browser.value.status.phase == "Failed"
              && after.browser.value.status.reason == p.status.reason
              && after.browser.value.status.message == p.status.message
  {
    hide CriticallyTerminated, PodFieldsChanged, ContainersChanged, MirrorOf, CalmPending, CalmRemovePod, FailedPod;
    assert CalmPod(w, b, p) == CalmMirror(if p.status.phase == FAILED then
      CalmStatus(CalmRemovePod(w, true), FailedPod(p)) else w, b, p);
  }

  // A pod without container statuses is never found late, however old it is.
  lemma NoContainersNoTimeout(w: World, b: Browser, p: Pod)
    requires w.browser.Some? && !IsFailed(w) && w.pod == Some(p)
    requires p.status.phase == PENDING && p.deletion.None? && p.status.containers == []
    ensures !IsFailed(CalmPod(w, b, p).0) && CalmPod(w, b, p).0.pod == w.pod
  {
  }

  // ----- the mirrored status -----------------------------------------------------------

  predicate Mirrors(s: BrowserStatus, p: Pod) {
    var cs := p.status.containers;
    && s.phase == p.status.phase && s.podIP == p.status.podIP
    && (p.status.startTime.Some? ==> s.startTime == p.status.startTime)
    && (cs != [] ==>
          && |s.containers| == |cs|
          && forall i :: 0 <= i < |cs| ==>
               cs[i].restartCount == s.containers[i].restartCount && StateEqual(cs[i].state, s.containers[i].state))
  }

  // What is stored may be ahead of the copy b by this reconcile's own writes: the first
  // phase, or the phase and message of a failed pod.
  predicate AheadOf(stored: BrowserStatus, b: Browser, p: Pod) {
    || stored == b.status
    || (b.status.phase == NO_PHASE && stored == b.status.(phase := PENDING))
    || (p.status.phase == FAILED && b.status.phase != FAILED
        && (stored == ApplyStatus(FailedPod(p), b.status)
            || stored == ApplyStatus(FailedPod(p), b.status.(phase := PENDING))))
  }

  lemma NothingChanged(s: BrowserStatus, p: Pod)
    ensures Mirrors(s, p) <==> !PodFieldsChanged(s, p.status) && !ContainersChanged(s, p)
  {
    var cs := Collected(p);
    assert forall i :: 0 <= i < |cs| ==>
      cs[i].restartCount == p.status.containers[i].restartCount && cs[i].state == p.status.containers[i].state;
    if Mirrors(s, p) {
      assert forall i :: 0 <= i < |cs| ==> !EntryChanged(cs[i], s.containers[i]);
    }
    if !PodFieldsChanged(s, p.status) && !ContainersChanged(s, p) && cs != [] {
      assert forall i :: 0 <= i < |cs| ==> !EntryChanged(cs[i], s.containers[i]);
    }
  }

  // cs[i] is the first container of that name that has any ports.
  predicate Supplies(cs: seq<Container>, i: int, name: string) {
    && 0 <= i < |cs| && cs[i].name == name && cs[i].ports != []
    && forall j :: 0 <= j < i ==> cs[j].name != name || cs[j].ports == []
  }

  lemma {:induction false} PortsExact(cs: seq<Container>, name: string)
    ensures if PortsOf(cs, name) == [] then forall i :: 0 <= i < |cs| ==> cs[i].name != name || cs[i].ports == []
            else exists i :: Supplies(cs, i, name) && PortsOf(cs, name) == cs[i].ports
  {
    if cs != [] {
      PortsExact(cs[1..], name);
      assert forall i :: 0 < i < |cs| ==> cs[i] == cs[1..][i - 1];
      if cs[0].name == name && cs[0].ports != [] {
        assert Supplies(cs, 0, name);
      } else if PortsOf(cs, name) != [] {
        var i :| Supplies(cs[1..], i, name) && PortsOf(cs, name) == cs[1..][i].ports;
        assert Supplies(cs, i + 1, name);
      }
    }
  }

  // When the containers changed, the stored entries are those of the pod, with the ports
  // that its specification gives to containers of that name.
  lemma EntriesStored(w: World, b: Browser, p: Pod, i: nat)
    requires w.browser.Some? && !CriticallyTerminated(p) && ContainersChanged(b.status, p)
    requires i < |p.status.containers|
    ensures var after, c := CalmMirror(w, b, p).0, p.status.containers[i];
            && after.browser.Some? && |after.browser.value.status.containers| == |p.status.containers|
            && var e := after.browser.value.status.containers[i];
               && e == c.(ports := e.ports)
               && if e.ports == [] then
                    forall k :: 0 <= k < |p.spec.containers| && p.spec.containers[k].name == c.name ==>
                      p.spec.containers[k].ports == []
                  else exists k :: Supplies(p.spec.containers, k, c.name) && e.ports == p.spec.containers[k].ports
  {
    PortsExact(p.spec.containers, p.status.containers[i].name);
  }

  // Mirroring never touches reason and message; what the test found unchanged stays, too.
  lemma MirrorKeepsTheRest(w: World, b: Browser, p: Pod)
    requires w.browser.Some? && !CriticallyTerminated(p)
    ensures var after, was := CalmMirror(w, b, p).0, w.browser.value.status;
            && after == w.(browser := after.browser) && after.browser.Some?
            && var s := after.browser.value.status;
               && after.browser.value == w.browser.value.(status := s)
               && s.reason == was.reason && s.message == was.message
               && (!ContainersChanged(b.status, p) ==> s.containers == was.containers)
               && (!PodFieldsChanged(b.status, p.status) ==> s.podIP == was.podIP && s.startTime == was.startTime)
               && (PodFieldsChanged(b.status, p.status) ==>
                     s.phase == p.status.phase && s.podIP == p.status.podIP && s.startTime == p.status.startTime)
  {
  }

  // After updateBrowserStatus the stored status mirrors the pod, although the test looks
  // at an older copy, and a second call with a re-read Browser writes nothing.
  lemma MirrorReached(w: World, b: Browser, p: Pod)
    requires w.browser.Some? && AheadOf(w.browser.value.status, b, p)
    requires p.status.phase != NO_PHASE && !CriticallyTerminated(p)
    ensures var after := CalmMirror(w, b, p).0;
            && after.browser.Some? && Mirrors(after.browser.value.status, p)
            && CalmMirror(after, after.browser.value, p).0 == after
  {
    var stored := w.browser.value.status;
    var after := CalmMirror(w, b, p).0;
    NothingChanged(b.status, p);
    if !Mirrors(b.status, p) {
      var cs := Collected(p);
      var s := ApplyStatus(MirrorOf(b.status, p), stored);
      assert after.browser.value.status == s;
      assert stored.containers == b.status.containers;
      if cs != [] && !ContainersChanged(b.status, p) {
        assert forall i :: 0 <= i < |cs| ==> !EntryChanged(cs[i], b.status.containers[i]);
      }
      assert forall i :: 0 <= i < |cs| ==> StateEqual(cs[i].state, p.status.containers[i].state);
      assert Mirrors(s, p);
    }
    NothingChanged(after.browser.value.status, p);
  }
}

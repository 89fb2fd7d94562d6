// The API server as one reconcile sees it: every call is one atomic step, before
// which other actors may move and which may fail. `trace` records each step.
module ClusterModel {
  import opened Values
  import opened Kube
  import PodTemplate

  // `configs` is the content of the configuration store, by key.
  datatype World = World(
    browser: Option<Browser>, pod: Option<Pod>, clock: Time, configs: map<string, Option<Version>>)

  predicate WellFormed(w: World) {
    w.pod.Some? ==> w.pod.value.status.phase != NO_PHASE
  }

  // ----- what other actors may do ---------------------------------------------

  predicate BrowserRely(x: Option<Browser>, y: Option<Browser>) {
    match (x, y)
    case (None, _) => y.None?
    case (Some(b), None) => !HasFinalizer(b)
    case (Some(b), Some(c)) =>
      && b.uid == c.uid && b.name == c.name && b.namespace == c.namespace
      && b.status == c.status
      && (HasFinalizer(b) <==> HasFinalizer(c))
      && (b.deletion.Some? ==> b.deletion == c.deletion)
  }

  // Any number of steps of users, kubelet, scheduler, garbage collector and clock.
  predicate Rely(w: World, v: World) {
    BrowserRely(w.browser, v.browser) && w.clock <= v.clock && WellFormed(v)
  }

  lemma RelyReflexive(w: World)
    requires WellFormed(w)
    ensures Rely(w, w)
  {
  }

  lemma RelyTransitive(u: World, v: World, w: World)
    requires Rely(u, v) && Rely(v, w)
    ensures Rely(u, w)
  {
  }

  // A pod grows older: it may vanish, and once it has a deletion time that can only come
  // closer. No other actor makes a new pod of the same name.
  predicate Older(x: Option<Pod>, y: Option<Pod>) {
    y.Some? ==>
      && x.Some?
      && (x.value.deletion.Some? ==> y.value.deletion.Some? && y.value.deletion.value <= x.value.deletion.value)
  }

  predicate Going(w: World) {
    w.pod.Some? ==> w.pod.value.deletion.Some?
  }

  // ----- JSON merge patches (section 2 of RFC 7396) ---------------------------

  function PatchField<T(==)>(before: T, after: T, stored: T): T {
    if before == after then stored else after
  }

  function ChangedKeys(before: map<string, string>, after: map<string, string>): map<string, string> {
    map k | k in after && (k !in before || before[k] != after[k]) :: after[k]
  }

  function PatchMap(before: map<string, string>, after: map<string, string>, stored: map<string, string>)
    : map<string, string>
  {
    (stored - (before.Keys - after.Keys)) + ChangedKeys(before, after)
  }

  lemma PatchMapOfStored(before: map<string, string>, after: map<string, string>)
    ensures PatchMap(before, after, before) == after
  {
  }

  // The main endpoint ignores the status; arrays are replaced whole.
  function PatchBrowser(before: Browser, after: Browser, stored: Browser): Browser {
    stored.(finalizers := PatchField(before.finalizers, after.finalizers, stored.finalizers),
            labels := PatchMap(before.labels, after.labels, stored.labels),
            annotations := PatchMap(before.annotations, after.annotations, stored.annotations),
            browserName := PatchField(before.browserName, after.browserName, stored.browserName),
            browserVersion := PatchField(before.browserVersion, after.browserVersion, stored.browserVersion))
  }

  // The status endpoint ignores everything but the status.
  function PatchStatusOf(before: BrowserStatus, after: BrowserStatus, stored: BrowserStatus): BrowserStatus {
    BrowserStatus(PatchField(before.podIP, after.podIP, stored.podIP),
                  PatchField(before.phase, after.phase, stored.phase),
                  PatchField(before.message, after.message, stored.message),
                  PatchField(before.reason, after.reason, stored.reason),
                  PatchField(before.startTime, after.startTime, stored.startTime),
                  PatchField(before.containers, after.containers, stored.containers))
  }

  predicate DropsFinalizer(before: Browser, after: Browser) {
    before.finalizers != after.finalizers && !HasFinalizer(after)
  }

  // ----- calls, their effects and the replies they may get ---------------------

  // `GetPod` keeps the Browser on whose behalf the pod was read.
  datatype Act =
    | Env
    | GetBrowser(browserReply: Reply<Browser>)
    | GetPod(asker: Browser, podReply: Reply<Pod>)
    | ReadClock(now: Time)
    | Lookup(key: string, found: Option<Option<Version>>)
    | PatchMeta(before: Browser, after: Browser, error: Option<ApiError>)
    | PatchStatus(before: Browser, after: Browser, error: Option<ApiError>)
    | CreatePod(pod: Pod, error: Option<ApiError>)
    | DeletePod(force: bool, error: Option<ApiError>)
    | DeleteBrowser(error: Option<ApiError>)

  // A Browser under deletion disappears with its last finalizer.
  function Settle(b: Browser): Option<Browser> {
    if b.deletion.Some? && b.finalizers == [] then None else Some(b)
  }

  function Deleted(b: Browser, now: Time): Option<Browser> {
    Settle(if b.deletion.Some? then b else b.(deletion := Some(now)))
  }

  function Terminating(p: Pod, force: bool, now: Time): Option<Pod> {
    var due := now + if force then 0 else p.grace;
    if due <= now && !p.held then None
    else if p.deletion.Some? && p.deletion.value <= due then Some(p)
    else Some(p.(deletion := Some(due)))
  }

  function Created(p: Pod, now: Time): Pod {
    p.(creation := Some(now), deletion := None, status := PodTemplate.NO_STATUS.(phase := PENDING))
  }

  function Effect(act: Act, w: World): World {
    match act
    case PatchMeta(x, y, None) =>
      if w.browser.Some? then w.(browser := Settle(PatchBrowser(x, y, w.browser.value))) else w
    case PatchStatus(x, y, None) =>
      if w.browser.Some? then
        var b := w.browser.value;
        w.(browser := Some(b.(status := PatchStatusOf(x.status, y.status, b.status))))
      else w
    case CreatePod(p, None) => w.(pod := Some(Created(p, w.clock)))
    case DeletePod(force, None) =>
      if w.pod.Some? then w.(pod := Terminating(w.pod.value, force, w.clock)) else w
    case DeleteBrowser(None) =>
      if w.browser.Some? then w.(browser := Deleted(w.browser.value, w.clock)) else w
    case _ => w
  }

  // The replies that a linearizable server may give in world w.
  predicate ReplyOk(act: Act, w: World) {
    match act
    case Env => false
    case GetBrowser(Ok(b)) => w.browser == Some(b)
    case GetBrowser(Err(e)) => e == NotFound ==> w.browser.None?
    case GetPod(_, Ok(p)) => w.pod == Some(p)
    case GetPod(_, Err(e)) => e == NotFound ==> w.pod.None?
    case ReadClock(now) => now == w.clock
    case Lookup(k, found) => found == if k in w.configs then Some(w.configs[k]) else None
    case PatchMeta(_, _, e) => e.None? ==> w.browser.Some?
    case PatchStatus(_, _, e) => e.None? ==> w.browser.Some?
    case CreatePod(_, e) => (e.None? ==> w.pod.None?) && (e == Some(AlreadyExists) ==> w.pod.Some?)
    case DeletePod(_, e) => (e.None? ==> w.pod.Some?) && (e == Some(NotFound) ==> w.pod.None?)
    case DeleteBrowser(e) => (e.None? ==> w.browser.Some?) && (e == Some(NotFound) ==> w.browser.None?)
  }

  // The replies of a server that never fails.
  predicate FaultFree(act: Act, w: World) {
    match act
    case GetBrowser(r) => r == if w.browser.Some? then Ok(w.browser.value) else Err(NotFound)
    case GetPod(_, r) => r == if w.pod.Some? then Ok(w.pod.value) else Err(NotFound)
    case PatchMeta(_, _, e) => e == if w.browser.Some? then None else Some(NotFound)
    case PatchStatus(_, _, e) => e == if w.browser.Some? then None else Some(NotFound)
    case CreatePod(_, e) => e == if w.pod.None? then None else Some(AlreadyExists)
    case DeletePod(_, e) => e == if w.pod.Some? then None else Some(NotFound)
    case DeleteBrowser(e) => e == if w.browser.Some? then None else Some(NotFound)
    case _ => true
  }

  // ----- runs ------------------------------------------------------------------

  // One step of the run; `round` numbers the reconciles.
  datatype Step = Step(round: nat, pre: World, act: Act, post: World)

  ghost predicate Legal(s: Step) {
    if s.act.Env? then Rely(s.pre, s.post)
    else ReplyOk(s.act, s.pre) && s.post == Effect(s.act, s.pre)
  }

  predicate IsFailed(w: World) {
    w.browser.Some? && w.browser.value.status.phase == FAILED
  }

  predicate Held(w: World) {
    w.browser.Some? && HasFinalizer(w.browser.value)
  }

  lemma RelyHolds(v: World, w: World)
    requires Rely(v, w)
    ensures Held(v) <==> Held(w)
  {
  }

  // Pod p may be created: its Browser is stored, held by the finalizer, not Failed.
  predicate Protected(w: World, p: Pod) {
    && Held(w) && !IsFailed(w)
    && w.browser.value.uid == p.owner
    && w.browser.value.name == p.name && w.browser.value.namespace == p.namespace
  }

  predicate CriticallyTerminated(p: Pod) {
    exists i :: 0 <= i < |p.status.containers| && IsCritical(p.status.containers[i])
  }

  predicate IsCritical(c: ContainerStatus) {
    (c.name == BROWSER_CONTAINER || c.name == SIDECAR_CONTAINER) && c.state.terminated.Some?
  }

  // Step t[i] read something that justifies dropping the finalizer.
  ghost predicate Evidence(t: seq<Step>, i: nat)
    requires i < |t|
  {
    match t[i].act
    case GetBrowser(Ok(b)) => b.status.phase == FAILED
    case GetPod(b, Err(_)) => b.deletion.Some?
    case GetPod(b, Ok(p)) =>
      if b.deletion.None? then p.deletion.Some? || CriticallyTerminated(p)
      else p.deletion.Some? && SawTime(t, i, t[i].round, p.deletion.value + POD_DELETION_TIMEOUT)
    case _ => false
  }

  // After step i the same reconcile read a time later than `limit`.
  ghost predicate SawTime(t: seq<Step>, i: nat, round: nat, limit: Time) {
    exists k :: i < k < |t| && t[k].round == round && t[k].act.ReadClock? && t[k].act.now > limit
  }

  ghost predicate Justified(t: seq<Step>, round: nat) {
    exists i :: 0 <= i < |t| && t[i].round == round && Evidence(t, i)
  }

  // What this controller owes on top of the server's rules, given the steps before s.
  ghost predicate Guarded(t: seq<Step>, s: Step) {
    match s.act
    case PatchStatus(_, _, None) => IsFailed(s.pre) ==> IsFailed(s.post)
    case CreatePod(p, None) => Protected(s.pre, p)
    case PatchMeta(_, _, None) => Held(s.pre) && !Held(s.post) ==> Justified(t, s.round)
    case _ => true
  }

  // t is a run that ends in w: what the server and the other actors allow, whatever the
  // controller does.
  ghost predicate Run(t: seq<Step>, w: World)
    decreases |t|
  {
    if t == [] then WellFormed(w)
    else
      Run(t[..|t| - 1], t[|t| - 1].pre) && Follows(t[..|t| - 1], t[|t| - 1]) && t[|t| - 1].post == w
  }

  ghost predicate Follows(t: seq<Step>, s: Step) {
    Legal(s) && forall i :: 0 <= i < |t| ==> t[i].round <= s.round
  }

  // A run in which the controller does what it owes at every step.
  ghost predicate GuardedRun(t: seq<Step>, w: World) {
    Run(t, w) && forall i :: 0 <= i < |t| ==> Guarded(t[..i], t[i])
  }

  lemma GuardedExtends(t: seq<Step>, s: Step)
    requires GuardedRun(t, s.pre) && Follows(t, s) && Guarded(t, s)
    ensures GuardedRun(t + [s], s.post)
  {
    var u := t + [s];
    assert u != [] && u[|u| - 1] == s && u[..|u| - 1] == t;
    assert forall i :: 0 <= i < |t| ==> u[i] == t[i] && u[..i] == t[..i];
  }

  lemma JustifiedExtends(t: seq<Step>, t': seq<Step>, round: nat)
    requires t <= t' && Justified(t, round)
    ensures Justified(t', round)
  {
    var i :| 0 <= i < |t| && t[i].round == round && Evidence(t, i);
    assert t'[i] == t[i];
    if t[i].act.GetPod? && t[i].act.asker.deletion.Some? && t[i].act.podReply.Ok? {
      var limit := t[i].act.podReply.value.deletion.value + POD_DELETION_TIMEOUT;
      var k :| i < k < |t| && t[k].round == round && t[k].act.ReadClock? && t[k].act.now > limit;
      assert t'[k] == t[k];
      assert SawTime(t', i, round, limit);
    }
    assert Evidence(t', i);
  }

  // The call was made, and answered so, in this round.
  ghost predicate Saw(t: seq<Step>, round: nat, act: Act) {
    exists i :: 0 <= i < |t| && t[i].round == round && t[i].act == act
  }

  lemma SawExtends(t: seq<Step>, t': seq<Step>, round: nat, act: Act)
    requires t <= t' && Saw(t, round, act)
    ensures Saw(t', round, act)
  {
    var i :| 0 <= i < |t| && t[i].round == round && t[i].act == act;
    assert t'[i] == t[i];
  }

  lemma SawLast(t: seq<Step>, round: nat, act: Act)
    requires t != [] && t[|t| - 1].round == round && t[|t| - 1].act == act
    ensures Saw(t, round, act)
  {
  }

  // From step `from` on, the clock was read as `now`.
  ghost predicate ClockRead(t: seq<Step>, from: nat, now: Time) {
    exists k :: from <= k < |t| && t[k].act == ReadClock(now)
  }

  lemma ClockReadExtends(t: seq<Step>, t': seq<Step>, from: nat, from': nat, now: Time)
    requires t <= t' && from' <= from && ClockRead(t, from, now)
    ensures ClockRead(t', from', now)
  {
    var k :| from <= k < |t| && t[k].act == ReadClock(now);
    assert t'[k] == t[k];
  }

  // A read or a patch of the Browser failed, and for another reason than a conflict.
  predicate GivesUp(a: Act) {
    match a
    case GetBrowser(r) => r.Err?
    case PatchMeta(_, _, e) => e.Some? && e != Some(Conflict)
    case PatchStatus(_, _, e) => e.Some? && e != Some(Conflict)
    case _ => false
  }

  // The call was answered by an error.
  predicate IsFault(a: Act) {
    match a
    case GetBrowser(r) => r.Err?
    case GetPod(_, r) => r.Err?
    case PatchMeta(_, _, e) => e.Some?
    case PatchStatus(_, _, e) => e.Some?
    case CreatePod(_, e) => e.Some?
    case DeletePod(_, e) => e.Some?
    case DeleteBrowser(e) => e.Some?
    case _ => false
  }

  // From step `from` on, some call was.
  ghost predicate Faulted(t: seq<Step>, from: nat) {
    exists k :: from <= k < |t| && IsFault(t[k].act)
  }

  lemma FaultedExtends(t: seq<Step>, t': seq<Step>, from: nat, from': nat)
    requires t <= t' && from' <= from && Faulted(t, from)
    ensures Faulted(t', from')
  {
    var k :| from <= k < |t| && IsFault(t[k].act);
    assert t'[k] == t[k];
  }

  lemma PodSeenJustifies(t: seq<Step>, round: nat, b: Browser, p: Pod)
    requires Saw(t, round, GetPod(b, Ok(p)))
    requires b.deletion.None? && (p.deletion.Some? || CriticallyTerminated(p))
    ensures Justified(t, round)
  {
    var i :| 0 <= i < |t| && t[i].round == round && t[i].act == GetPod(b, Ok(p));
    assert Evidence(t, i);
  }

  lemma FailedJustifies(t: seq<Step>, i: nat, b: Browser)
    requires i < |t| && t[i].act == GetBrowser(Ok(b)) && b.status.phase == FAILED
    ensures Justified(t, t[i].round)
  {
    assert Evidence(t, i);
  }

  lemma MissingPodJustifies(t: seq<Step>, i: nat, b: Browser, e: ApiError)
    requires i < |t| && t[i].act == GetPod(b, Err(e)) && b.deletion.Some?
    ensures Justified(t, t[i].round)
  {
    assert Evidence(t, i);
  }

  lemma LateDeletionJustifies(t: seq<Step>, i: nat, k: nat, b: Browser, p: Pod)
    requires i < k < |t| && t[i].round == t[k].round
    requires t[i].act == GetPod(b, Ok(p)) && b.deletion.Some? && p.deletion.Some?
    requires t[k].act.ReadClock? && t[k].act.now - p.deletion.value > 5 * 60 * 1000
    ensures Justified(t, t[i].round)
  {
    assert SawTime(t, i, t[i].round, p.deletion.value + POD_DELETION_TIMEOUT);
    assert Evidence(t, i);
  }

  // From step `from` on, a forced delete of the pod was accepted or found no pod, and no
  // write of the Browser was accepted before that.
  ghost predicate ForceDeleted(t: seq<Step>, from: nat) {
    exists k :: from <= k < |t| && IsForced(t[k].act) && forall i :: from <= i < k ==> !IsWrite(t[i].act)
  }

  // From step `from` on, a forced delete of the pod was accepted or found no pod.
  ghost predicate Forced(t: seq<Step>, from: nat) {
    exists k :: from <= k < |t| && IsForced(t[k].act)
  }

  // From step `from` on, a forced delete of the pod was sent.
  ghost predicate ForceTried(t: seq<Step>, from: nat) {
    exists k :: from <= k < |t| && t[k].act.DeletePod? && t[k].act.force
  }

  lemma ForceTriedEarlier(t: seq<Step>, from: nat, from': nat)
    requires from' <= from && ForceTried(t, from)
    ensures ForceTried(t, from')
  {
  }

  predicate IsForced(a: Act) {
    a.DeletePod? && a.force && (a.error.None? || a.error == Some(NotFound))
  }

  lemma ForceDeletedExtends(t: seq<Step>, t': seq<Step>, from: nat)
    requires t <= t' && ForceDeleted(t, from)
    ensures ForceDeleted(t', from)
  {
    var k :| from <= k < |t| && IsForced(t[k].act) && forall i :: from <= i < k ==> !IsWrite(t[i].act);
    assert t'[k] == t[k] && forall i :: from <= i < k ==> t'[i] == t[i];
  }

  predicate IsAttempt(a: Act) {
    a.PatchMeta? || a.PatchStatus?
  }

  predicate IsWrite(a: Act) {
    IsAttempt(a) && a.error.None?
  }

  // Patches of the Browser that were sent.
  function Attempts(t: seq<Step>): nat {
    if t == [] then 0
    else Attempts(t[..|t| - 1]) + if IsAttempt(t[|t| - 1].act) then 1 else 0
  }

  // Patches of the Browser that were accepted.
  function Writes(t: seq<Step>): nat {
    if t == [] then 0
    else Writes(t[..|t| - 1]) + if IsWrite(t[|t| - 1].act) then 1 else 0
  }

  lemma CountsExtend(t: seq<Step>, s: Step)
    ensures Writes(t + [s]) == Writes(t) + if IsWrite(s.act) then 1 else 0
    ensures Attempts(t + [s]) == Attempts(t) + if IsAttempt(s.act) then 1 else 0
  {
    assert (t + [s])[..|t|] == t;
  }

  // From step `from` on, other actors only let the pod grow older.
  ghost predicate Steady(t: seq<Step>, from: nat) {
    forall k :: from <= k < |t| && t[k].act.Env? ==> Older(t[k].pre.pod, t[k].post.pod)
  }

  lemma SteadyPart(t: seq<Step>, t': seq<Step>, from: nat)
    requires t <= t' && from <= |t| && Steady(t', from)
    ensures Steady(t, from) && Steady(t', |t|)
  {
    assert forall k :: from <= k < |t| ==> t[k] == t'[k];
  }

  // What one call means for the pod when other actors are steady.
  lemma SteadyCall(t: seq<Step>, t': seq<Step>, round: nat, w: World, at: World, act: Act)
    requires Steady(t', |t|) && t' == t + [Step(round, w, Env, at), Step(round, at, act, Effect(act, at))]
    requires act.CreatePod? ==> act.error.Some?
    ensures Older(w.pod, at.pod) && Older(w.pod, Effect(act, at).pod)
    ensures act.DeletePod? && act.error.None? ==> Going(Effect(act, at))
  {
    assert t'[|t|].act.Env?;
  }

  // ----- the server ------------------------------------------------------------

  class Cluster {
    // No other actor moves; no call fails.
    const alone: bool
    const reliable: bool
    var w: World
    var slept: nat
    ghost var round: nat
    ghost var trace: seq<Step>

    ghost predicate Valid()
      reads this
    {
      && GuardedRun(trace, w) && WellFormed(w)
      && forall i :: 0 <= i < |trace| ==> trace[i].round <= round
    }

    predicate Quiet() {
      alone && reliable
    }

    constructor (world: World, alone: bool, reliable: bool)
      requires WellFormed(world)
      ensures Valid() && w == world && this.alone == alone && this.reliable == reliable
      ensures trace == [] && slept == 0 && round == 0
    {
      this.alone, this.reliable := alone, reliable;
      w, slept, round, trace := world, 0, 0, [];
    }

    // Between two states: other actors moved, then the server answered `act` in world `at`.
    twostate predicate Did(at: World, act: Act)
      reads this
    {
      && Valid() && round == old(round) && slept == old(slept)
      && trace == old(trace) + [Step(round, old(w), Env, at), Step(round, at, act, w)]
      && Writes(trace) == Writes(old(trace)) + (if IsWrite(act) then 1 else 0)
      && Attempts(trace) == Attempts(old(trace)) + (if IsAttempt(act) then 1 else 0)
      && Rely(old(w), at) && ReplyOk(act, at) && w == Effect(act, at)
      && (alone ==> at == old(w)) && (reliable ==> FaultFree(act, at))
    }

    method BeginRound()
      requires Valid()
      modifies this`round
      ensures Valid() && round == old(round) + 1
    {
      round := round + 1;
    }

    method Interfere()
      requires Valid()
      modifies this`w, this`trace
      ensures Valid() && Rely(old(w), w) && (alone ==> w == old(w))
      ensures trace == old(trace) + [Step(round, old(w), Env, w)]
      ensures Writes(trace) == Writes(old(trace)) && Attempts(trace) == Attempts(old(trace))
    {
      hide Run, GuardedRun, Writes, Attempts;
      ghost var before := w;
      if !alone {
        assert Rely(w, w);
        var v: World :| Rely(w, v);
        w := v;
      }
      GuardedExtends(trace, Step(round, before, Env, w));
      CountsExtend(trace, Step(round, before, Env, w));
      trace := trace + [Step(round, before, Env, w)];
    }

    method Fault() returns (e: Option<ApiError>)
      ensures reliable ==> e.None?
      ensures e.Some? ==> e.value == Conflict || e.value == OtherError
    {
      e := None;
      if !reliable {
        if * {
          e := Some(Conflict);
        } else if * {
          e := Some(OtherError);
        }
      }
    }

    method Commit(act: Act)
      requires Valid() && ReplyOk(act, w)
      requires Guarded(trace, Step(round, w, act, Effect(act, w)))
      modifies this`w, this`trace
      ensures Valid() && w == Effect(act, old(w))
      ensures trace == old(trace) + [Step(round, old(w), act, w)]
      ensures Writes(trace) == Writes(old(trace)) + if IsWrite(act) then 1 else 0
      ensures Attempts(trace) == Attempts(old(trace)) + if IsAttempt(act) then 1 else 0
    {
      hide Run, GuardedRun, Writes, Attempts, Guarded;
      ghost var s := Step(round, w, act, Effect(act, w));
      GuardedExtends(trace, s);
      CountsExtend(trace, s);
      trace := trace + [s];
      w := Effect(act, w);
    }

    method GetBrowser() returns (r: Reply<Browser>, ghost at: World)
      requires Valid()
      modifies this`w, this`trace
      ensures Did(at, Act.GetBrowser(r))
    {
      hide Run, GuardedRun, Writes, Attempts;
      Interfere();
      at := w;
      var fault := Fault();
      r := if fault.Some? then Err(fault.value) else if w.browser.Some? then Ok(w.browser.value) else Err(NotFound);
      Commit(Act.GetBrowser(r));
    }

    method GetPod(browser: Browser) returns (r: Reply<Pod>, ghost at: World)
      requires Valid()
      modifies this`w, this`trace
      ensures Did(at, Act.GetPod(browser, r))
    {
      hide Run, GuardedRun, Writes, Attempts;
      Interfere();
      at := w;
      var fault := Fault();
      r := if fault.Some? then Err(fault.value) else if w.pod.Some? then Ok(w.pod.value) else Err(NotFound);
      Commit(Act.GetPod(browser, r));
    }

    method Now() returns (now: Time, ghost at: World)
      requires Valid()
      modifies this`w, this`trace
      ensures Did(at, ReadClock(now))
    {
      hide Run, GuardedRun, Writes, Attempts;
      Interfere();
      at := w;
      now := w.clock;
      Commit(ReadClock(now));
    }

    method Config(key: string) returns (found: Option<Option<Version>>, ghost at: World)
      requires Valid()
      modifies this`w, this`trace
      ensures Did(at, Lookup(key, found))
    {
      hide Run, GuardedRun, Writes, Attempts;
      Interfere();
      at := w;
      found := if key in w.configs then Some(w.configs[key]) else None;
      Commit(Lookup(key, found));
    }

    method Patch(before: Browser, after: Browser) returns (e: Option<ApiError>, ghost at: World)
      requires Valid()
      requires DropsFinalizer(before, after) ==> Justified(trace, round)
      modifies this`w, this`trace
      ensures Did(at, PatchMeta(before, after, e))
    {
      hide Run, GuardedRun, Writes, Attempts;
      ghost var t := trace;
      Interfere();
      at := w;
      e := Fault();
      if e.None? && w.browser.None? {
        e := Some(NotFound);
      }
      if DropsFinalizer(before, after) {
        JustifiedExtends(t, trace, round);
      }
      Commit(PatchMeta(before, after, e));
    }

    method PatchBrowserStatus(before: Browser, after: Browser) returns (e: Option<ApiError>, ghost at: World)
      requires Valid()
      requires IsFailed(w) && after.status.phase != FAILED ==> before.status.phase == after.status.phase
      modifies this`w, this`trace
      ensures Did(at, PatchStatus(before, after, e))
    {
      hide Run, GuardedRun, Writes, Attempts;
      Interfere();
      at := w;
      e := Fault();
      if e.None? && w.browser.None? {
        e := Some(NotFound);
      }
      Commit(PatchStatus(before, after, e));
    }

    method Create(pod: Pod) returns (e: Option<ApiError>, ghost at: World)
      requires Valid() && Protected(w, pod)
      modifies this`w, this`trace
      ensures Did(at, CreatePod(pod, e))
    {
      hide Run, GuardedRun, Writes, Attempts;
      Interfere();
      at := w;
      e := Fault();
      if e.None? && w.pod.Some? {
        e := Some(AlreadyExists);
      }
      Commit(CreatePod(pod, e));
    }

    method RemovePod(force: bool) returns (e: Option<ApiError>, ghost at: World)
      requires Valid()
      modifies this`w, this`trace
      ensures Did(at, DeletePod(force, e))
    {
      hide Run, GuardedRun, Writes, Attempts;
      Interfere();
      at := w;
      e := Fault();
      if e.None? && w.pod.None? {
        e := Some(NotFound);
      }
      Commit(DeletePod(force, e));
    }

    method RemoveBrowser() returns (e: Option<ApiError>, ghost at: World)
      requires Valid()
      modifies this`w, this`trace
      ensures Did(at, DeleteBrowser(e))
    {
      hide Run, GuardedRun, Writes, Attempts;
      Interfere();
      at := w;
      e := Fault();
      if e.None? && w.browser.None? {
        e := Some(NotFound);
      }
      Commit(DeleteBrowser(e));
    }

    method Sleep(delay: nat)
      requires Valid()
      modifies this`w, this`trace, this`slept
      ensures Valid() && Rely(old(w), w) && slept == old(slept) + delay
      ensures trace == old(trace) + [Step(round, old(w), Env, w)]
      ensures Writes(trace) == Writes(old(trace)) && Attempts(trace) == Attempts(old(trace))
    {
      Interfere();
      slept := slept + delay;
    }

    // The work queue delivers the Browser again after at least `delay`.
    method Wait(delay: nat)
      requires Valid()
      modifies this`w, this`trace
      ensures Valid() && Rely(old(w), w) && w.clock >= old(w).clock + delay
      ensures trace == old(trace) + [Step(round, old(w), Env, w)]
    {
      hide Run, GuardedRun;
      ghost var before := w;
      var later := w.(clock := w.clock + delay);
      assert Rely(w, later);
      if alone {
        w := later;
      } else {
        var v: World :| Rely(w, v) && v.clock >= later.clock;
        w := v;
      }
      GuardedExtends(trace, Step(round, before, Env, w));
      trace := trace + [Step(round, before, Env, w)];
    }
  }
}

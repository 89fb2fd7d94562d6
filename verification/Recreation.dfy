// Failures are not quite terminal: the failed pod is deleted before Failed is stored. As
// long as that is not stored another pod can be created; these are the runs in which that
// happens.
module Recreation {
  import opened Values
  import opened Kube
  import opened ClusterModel
  import opened Updates
  import opened Reconciler
  import opened Convergence
  import opened ReconcileFacts
  import opened Runs
  import Keys

  // ----- runs from a list of calls and replies -------------------------------------------

  // The call may be made and answered so in w, whatever happened before.
  predicate Plays(act: Act, w: World) {
    && ReplyOk(act, w)
    && match act
       case PatchStatus(_, _, None) => IsFailed(w) ==> IsFailed(Effect(act, w))
       case CreatePod(p, None) => Protected(w, p)
       case PatchMeta(_, _, None) => Held(w) ==> Held(Effect(act, w))
       case _ => true
  }

  predicate AllPlay(acts: seq<Act>, w: World) {
    acts != [] ==> Plays(acts[0], w) && AllPlay(acts[1..], Effect(acts[0], w))
  }

  function Left(acts: seq<Act>, w: World): World {
    if acts == [] then w else Left(acts[1..], Effect(acts[0], w))
  }

  function Steps(acts: seq<Act>, w: World, round: nat): (t: seq<Step>)
    ensures |t| == |acts| && (t != [] ==> t[0].pre == w)
    ensures forall i :: 0 <= i < |t| ==> t[i].act == acts[i] && t[i].round == round
  {
    if acts == [] then []
    else [Step(round, w, acts[0], Effect(acts[0], w))] + Steps(acts[1..], Effect(acts[0], w), round)
  }

  lemma FirstStep(acts: seq<Act>, w: World, round: nat)
    requires acts != []
    ensures var s := Step(round, w, acts[0], Effect(acts[0], w));
            && Steps(acts, w, round) == [s] + Steps(acts[1..], s.post, round)
            && Left(acts, w) == Left(acts[1..], s.post)
            && (AllPlay(acts, w) ==> Plays(acts[0], w) && AllPlay(acts[1..], s.post))
  {
    hide Plays, Effect;
  }

  lemma {:induction false} StepsAreRun(t: seq<Step>, acts: seq<Act>, w: World, round: nat)
    requires GuardedRun(t, w) && AllPlay(acts, w) && forall i :: 0 <= i < |t| ==> t[i].round <= round
    ensures GuardedRun(t + Steps(acts, w, round), Left(acts, w))
    decreases |acts|
  {
    hide GuardedRun, Effect, Plays, Justified, Rely;
    if acts == [] {
      assert t + Steps(acts, w, round) == t;
    } else {
      hide Steps, AllPlay, Left;
      var s := Step(round, w, acts[0], Effect(acts[0], w));
      FirstStep(acts, w, round);
      GuardedStep(t, s);
      StepsAreRun(t + [s], acts[1..], s.post, round);
      Regroup(t, s, Steps(acts[1..], s.post, round));
    }
  }

  lemma Regroup(t: seq<Step>, s: Step, u: seq<Step>)
    ensures t + ([s] + u) == (t + [s]) + u
  {
  }

  lemma GuardedStep(t: seq<Step>, s: Step)
    requires GuardedRun(t, s.pre) && Plays(s.act, s.pre) && s.post == Effect(s.act, s.pre)
    requires forall i :: 0 <= i < |t| ==> t[i].round <= s.round
    ensures GuardedRun(t + [s], s.post)
  {
    hide GuardedRun, Justified;
    GuardedExtends(t, s);
  }

  lemma {:induction false} PlaysOn(acts: seq<Act>, more: seq<Act>, w: World)
    requires AllPlay(acts, w) && AllPlay(more, Left(acts, w))
    ensures AllPlay(acts + more, w) && Left(acts + more, w) == Left(more, Left(acts, w))
    decreases |acts|
  {
    hide Plays, Effect;
    if acts == [] {
      assert acts + more == more;
    } else {
      PlaysOn(acts[1..], more, Effect(acts[0], w));
      assert (acts + more)[1..] == acts[1..] + more;
    }
  }

  lemma OnePlays(x: Act, w: World)
    requires Plays(x, w)
    ensures AllPlay([x], w) && Left([x], w) == Effect(x, w)
  {
    hide Plays, Effect;
    assert [x][1..] == [];
    assert AllPlay([], Effect(x, w)) && Left([], Effect(x, w)) == Effect(x, w);
  }

  lemma PairPlays(x: Act, y: Act, w: World)
    requires Plays(x, w) && Plays(y, Effect(x, w))
    ensures AllPlay([x, y], w) && Left([x, y], w) == Effect(y, Effect(x, w))
  {
    hide Plays, Effect;
    assert [x, y][1..] == [y];
    assert [y][1..] == [];
    assert AllPlay([], Effect(y, Effect(x, w)));
    assert Left([y], Effect(x, w)) == Effect(y, Effect(x, w));
  }

  // ----- the calls of two reconciles ----------------------------------------------------

  // One successful turn of retryUpdate and of retryStatusUpdate.
  function MetaCalls(w: World, u: MetaUpdate): seq<Act>
    requires w.browser.Some?
  {
    var b := w.browser.value;
    [GetBrowser(Ok(b)), PatchMeta(b, ApplyMeta(u, b), None)]
  }

  lemma MetaPlays(w: World, u: MetaUpdate)
    requires w.browser.Some? && w.browser.value.deletion.None? && !u.RemoveFinalizer?
    ensures AllPlay(MetaCalls(w, u), w) && Left(MetaCalls(w, u), w) == CalmMeta(w, u)
  {
    PatchOnQuiet(w, u);
    PairPlays(MetaCalls(w, u)[0], MetaCalls(w, u)[1], w);
  }

  function StatusCalls(w: World, u: StatusUpdate, error: Option<ApiError>): seq<Act>
    requires w.browser.Some?
  {
    var b := w.browser.value;
    [GetBrowser(Ok(b)), PatchStatus(b, b.(status := ApplyStatus(u, b.status)), error)]
  }

  lemma StatusPlays(w: World, u: StatusUpdate, error: Option<ApiError>)
    requires w.browser.Some? && !IsFailed(w)
    ensures AllPlay(StatusCalls(w, u, error), w)
    ensures Left(StatusCalls(w, u, error), w) == if error.None? then CalmStatus(w, u) else w
  {
    StatusPatchOnStored(w, w.browser.value, u);
    PairPlays(StatusCalls(w, u, error)[0], StatusCalls(w, u, error)[1], w);
  }

  // The preparation of the live Browser of w: finalizer, labels and first phase, as needed.
  function PrepareCalls(w: World): seq<Act>
    requires w.browser.Some? && w.browser.value.deletion.None?
  {
    var b := w.browser.value;
    var w1 := if HasFinalizer(b) then w else CalmMeta(w, AddFinalizer);
    var w2 := if LabelOf(b.labels, BROWSER_LABEL) == b.name then w1 else CalmMeta(w1, SetLabels);
    (if HasFinalizer(b) then [] else MetaCalls(w, AddFinalizer))
    + (if LabelOf(b.labels, BROWSER_LABEL) == b.name then [] else MetaCalls(w1, SetLabels))
    + (if b.status.phase == NO_PHASE then StatusCalls(w2, SetPending, None) else [])
  }

  lemma PreparePlays(w: World)
    requires w.browser.Some? && w.browser.value.deletion.None? && !IsFailed(w)
    ensures AllPlay(PrepareCalls(w), w) && Left(PrepareCalls(w), w) == CalmPrepare(w, w.browser.value)
  {
    hide AllPlay, Left, MetaCalls, StatusCalls, ApplyMeta;
    var b := w.browser.value;
    var w1 := if HasFinalizer(b) then w else CalmMeta(w, AddFinalizer);
    var w2 := if LabelOf(b.labels, BROWSER_LABEL) == b.name then w1 else CalmMeta(w1, SetLabels);
    KeepsLive(w, AddFinalizer);
    KeepsLive(w1, SetLabels);
    NothingPlays(w);
    NothingPlays(w1);
    NothingPlays(w2);
    var first := if HasFinalizer(b) then [] else MetaCalls(w, AddFinalizer);
    var second := if LabelOf(b.labels, BROWSER_LABEL) == b.name then [] else MetaCalls(w1, SetLabels);
    var third := if b.status.phase == NO_PHASE then StatusCalls(w2, SetPending, None) else [];
    MetaPlays(w, AddFinalizer);
    MetaPlays(w1, SetLabels);
    StatusPlays(w2, SetPending, None);
    PlaysOn(first, second, w);
    PlaysOn(first + second, third, w);
  }

  lemma NothingPlays(w: World)
    ensures AllPlay([], w) && Left([], w) == w
  {
  }

  lemma KeepsLive(w: World, u: MetaUpdate)
    requires w.browser.Some? && w.browser.value.deletion.None?
    ensures var v := CalmMeta(w, u);
            v.browser.Some? && v.browser.value.deletion.None? && v.browser.value.status == w.browser.value.status
  {
  }

  // From a prepared world: the failed pod is read and deleted by force, and then the failure
  // is not stored, because its write, or the read before the write, returns an error.
  function FailCalls(b: Browser, p: Pod, w: World, sent: bool): seq<Act>
    requires w.browser.Some?
  {
    [GetPod(b, Ok(p)), DeletePod(true, None)]
    + if sent then StatusCalls(w, FailedPod(p), Some(OtherError)) else [GetBrowser(Err(OtherError))]
  }

  lemma FailPlays(b: Browser, p: Pod, w: World, sent: bool)
    requires w.browser.Some? && !IsFailed(w) && w.pod == Some(p) && p.deletion.None? && !p.held
    ensures AllPlay(FailCalls(b, p, w, sent), w) && Left(FailCalls(b, p, w, sent), w) == w.(pod := None)
  {
    var gone := w.(pod := None);
    var head: seq<Act> := [GetPod(b, Ok(p)), DeletePod(true, None)];
    PairPlays(head[0], head[1], w);
    assert Left(head, w) == gone;
    StatusPlays(gone, FailedPod(p), Some(OtherError));
    assert StatusCalls(gone, FailedPod(p), Some(OtherError)) == StatusCalls(w, FailedPod(p), Some(OtherError));
    OnePlays(GetBrowser(Err(OtherError)), gone);
    hide StatusCalls;
    PlaysOn(head, FailCalls(b, p, w, sent)[2..], w);
  }

  // A later reconcile of a prepared Browser without a pod.
  function CreateCalls(w: World, decode: string -> ParsedOptions): seq<Act>
    requires Buildable(w, decode)
  {
    var b := w.browser.value;
    var key := Keys.KeyFor(b.namespace, b.browserName, b.browserVersion);
    [GetBrowser(Ok(b)), GetPod(b, Err(NotFound)),
     Lookup(key, Some(w.configs[key])), CreatePod(BuiltPod(w, decode), None)]
  }

  lemma CreatePlays(w: World, decode: string -> ParsedOptions)
    requires Buildable(w, decode) && Held(w) && w.pod.None?
    ensures AllPlay(CreateCalls(w, decode), w)
  {
    var acts := CreateCalls(w, decode);
    hide AllPlay, Left;
    PairPlays(acts[0], acts[1], w);
    PairPlays(acts[2], acts[3], w);
    PlaysOn([acts[0], acts[1]], [acts[2], acts[3]], w);
    assert acts == [acts[0], acts[1]] + [acts[2], acts[3]];
  }

  // ----- when a failure is lost -----------------------------------------------------------

  // A write that is to take the Browser to Failed.
  predicate MarksFailed(a: Act) {
    a.PatchStatus? && a.before.status.phase != FAILED && a.after.status.phase == FAILED
  }

  // One reconcile reads the failed pod p and has its forced delete accepted, but the write of
  // Failed, or if it is not `sent` the read before it, returns an error; a later reconcile
  // creates a pod.
  ghost predicate LostAndRecreated(t: seq<Step>, p: Pod, sent: bool) {
    && (!sent ==> forall i :: 0 <= i < |t| ==> !MarksFailed(t[i].act))
    && exists k :: 1 <= k < |t| - 3 && LostAt(t, p, k, sent) && Creates(t[|t| - 1]) && t[|t| - 1].round > t[k].round
  }

  predicate LostAt(t: seq<Step>, p: Pod, k: int, sent: bool)
    requires 1 <= k < |t| - 2
  {
    && t[k - 1].act.GetPod? && t[k - 1].act.podReply == Ok(p) && t[k].act == DeletePod(true, None)
    && t[k - 1].round == t[k].round == t[k + 1].round
    && if sent then MarksFailed(t[k + 2].act) && t[k + 2].act.error.Some? && t[k + 2].round == t[k].round
       else t[k + 1].act == GetBrowser(Err(OtherError))
  }

  // What a Browser's preparation leaves buildable.
  lemma StillBuildable(w: World, decode: string -> ParsedOptions)
    requires Buildable(w, decode)
    ensures var v := CalmPrepare(w, w.browser.value);
            && v.browser.Some? && Held(v) && !IsFailed(v) && v.pod == w.pod
            && Buildable(v.(pod := None), decode) && Held(v.(pod := None))
  {
    Prepares(w);
  }

  // The calls of a reconcile that finds the pod failed and cannot store that.
  function LosingCalls(w: World, sent: bool): seq<Act>
    requires w.browser.Some? && w.browser.value.deletion.None? && w.pod.Some?
    requires CalmPrepare(w, w.browser.value).browser.Some?
  {
    var b := w.browser.value;
    [GetBrowser(Ok(b))] + PrepareCalls(w) + FailCalls(b, w.pod.value, CalmPrepare(w, b), sent)
  }

  lemma LosingPlays(w: World, decode: string -> ParsedOptions, sent: bool)
    requires Buildable(w, decode) && w.pod.Some?
    requires var p := w.pod.value; p.deletion.None? && !p.held
    ensures CalmPrepare(w, w.browser.value).browser.Some?
    ensures AllPlay(LosingCalls(w, sent), w)
    ensures Left(LosingCalls(w, sent), w) == CalmPrepare(w, w.browser.value).(pod := None)
  {
    hide CalmPrepare, PrepareCalls, FailCalls, Plays, Effect;
    StillBuildable(w, decode);
    var b := w.browser.value;
    var v, open := CalmPrepare(w, b), [GetBrowser(Ok(b))];
    OpenPlays(w);
    PreparePlays(w);
    FailPlays(b, w.pod.value, v, sent);
    hide AllPlay, Left;
    PlaysOn(open, PrepareCalls(w), w);
    PlaysOn(open + PrepareCalls(w), FailCalls(b, w.pod.value, v, sent), w);
  }

  lemma OpenPlays(w: World)
    requires w.browser.Some?
    ensures var open := [GetBrowser(Ok(w.browser.value))]; AllPlay(open, w) && Left(open, w) == w
  {
  }

  lemma LosingEnds(w: World, decode: string -> ParsedOptions, sent: bool)
    requires Buildable(w, decode) && w.pod.Some?
    ensures CalmPrepare(w, w.browser.value).browser.Some?
    ensures var acts := LosingCalls(w, sent);
            var k := |acts| - if sent then 3 else 2;
            && k > 0 && acts[k - 1] == GetPod(w.browser.value, Ok(w.pod.value)) && acts[k] == DeletePod(true, None)
            && if sent then MarksFailed(acts[k + 2]) && acts[k + 2].error.Some?
               else acts[k + 1] == GetBrowser(Err(OtherError)) && forall i :: 0 <= i < |acts| ==> !MarksFailed(acts[i])
  {
    hide CalmPrepare, PrepareCalls;
    StillBuildable(w, decode);
    PrepareMarksNothing(w);
  }

  lemma PrepareMarksNothing(w: World)
    requires w.browser.Some? && w.browser.value.deletion.None?
    ensures forall i :: 0 <= i < |PrepareCalls(w)| ==> !MarksFailed(PrepareCalls(w)[i])
  {
    hide CalmMeta, ApplyMeta, CalmStatus;
    var b := w.browser.value;
    var w1 := if HasFinalizer(b) then w else CalmMeta(w, AddFinalizer);
    KeepsLive(w, AddFinalizer);
    KeepsLive(w1, SetLabels);
    var w2 := if LabelOf(b.labels, BROWSER_LABEL) == b.name then w1 else CalmMeta(w1, SetLabels);
    CallsMarkNothing(w, AddFinalizer);
    CallsMarkNothing(w1, SetLabels);
    CallsMarkNothing(w2, SetLabels);
    hide MarksFailed, MetaCalls, StatusCalls;
  }

  lemma CallsMarkNothing(w: World, u: MetaUpdate)
    requires w.browser.Some?
    ensures forall i :: 0 <= i < |MetaCalls(w, u)| ==> !MarksFailed(MetaCalls(w, u)[i])
    ensures forall i :: 0 <= i < |StatusCalls(w, SetPending, None)| ==>
      !MarksFailed(StatusCalls(w, SetPending, None)[i])
  {
  }

  // From every world with a failed pod that nothing holds back, and that can be built again;
  // in both ways.
  lemma FailureCanBeLost(w: World, decode: string -> ParsedOptions, sent: bool)
    requires WellFormed(w) && Buildable(w, decode) && w.pod.Some?
    requires var p := w.pod.value; p.status.phase == FAILED && p.deletion.None? && !p.held
    ensures exists t: seq<Step>, end ::
      GuardedRun(t, end) && t != [] && t[0].pre == w && LostAndRecreated(t, w.pod.value, sent)
  {
    hide GuardedRun, CalmPrepare, AllPlay, Left, LosingCalls, MarksFailed, CreateCalls;
    StillBuildable(w, decode);
    LosingRun(w, decode, sent);
    LosingEnds(w, decode, sent);
    var t, lost := Steps(LosingCalls(w, sent), w, 1), CalmPrepare(w, w.browser.value).(pod := None);
    var more := CreateCalls(lost, decode);
    CreatePlays(lost, decode);
    StepsAreRun(t, more, lost, 2);
    var u := t + Steps(more, lost, 2);
    CreateCallsEnd(lost, decode);
    LostShape(LosingCalls(w, sent), w, more, lost, w.pod.value, sent);
  }

  lemma NeverMarked(acts: seq<Act>, w: World, more: seq<Act>, lost: World)
    requires forall i :: 0 <= i < |acts| ==> !MarksFailed(acts[i])
    requires forall i :: 0 <= i < |more| ==> !MarksFailed(more[i])
    ensures var u := Steps(acts, w, 1) + Steps(more, lost, 2); forall i :: 0 <= i < |u| ==> !MarksFailed(u[i].act)
  {
    hide MarksFailed, Steps;
    var t, v := Steps(acts, w, 1), Steps(more, lost, 2);
    var u: seq<Step> := t + v;
    forall i | 0 <= i < |u| ensures !MarksFailed(u[i].act) {
      assert u[i].act == if i < |t| then acts[i] else more[i - |t|];
    }
  }

  // The run of the two reconciles has the shape described.
  lemma LostShape(acts: seq<Act>, w: World, more: seq<Act>, lost: World, p: Pod, sent: bool)
    requires var k := |acts| - if sent then 3 else 2;
             && k > 0 && acts[k - 1].GetPod? && acts[k - 1].podReply == Ok(p) && acts[k] == DeletePod(true, None)
             && if sent then MarksFailed(acts[k + 2]) && acts[k + 2].error.Some?
                else acts[k + 1] == GetBrowser(Err(OtherError)) && forall i :: 0 <= i < |acts| ==> !MarksFailed(acts[i])
    requires |more| == 4 && more[3].CreatePod? && more[3].error.None?
    requires forall i :: 0 <= i < |more| ==> !MarksFailed(more[i])
    ensures LostAndRecreated(Steps(acts, w, 1) + Steps(more, lost, 2), p, sent)
  {
    hide MarksFailed, Steps;
    var t, v := Steps(acts, w, 1), Steps(more, lost, 2);
    var u := t + v;
    var k := |t| - if sent then 3 else 2;
    assert u[k - 1] == t[k - 1] && u[k] == t[k] && u[k + 1] == t[k + 1] && u[|u| - 1] == v[3];
    assert sent ==> u[k + 2] == t[k + 2];
    if !sent {
      NeverMarked(acts, w, more, lost);
    }
    assert LostAt(u, p, k, sent);
    assert Creates(u[|u| - 1]);
  }

  lemma LosingRun(w: World, decode: string -> ParsedOptions, sent: bool)
    requires WellFormed(w) && Buildable(w, decode) && w.pod.Some?
    requires var p := w.pod.value; p.deletion.None? && !p.held
    ensures CalmPrepare(w, w.browser.value).browser.Some?
    ensures GuardedRun(Steps(LosingCalls(w, sent), w, 1), CalmPrepare(w, w.browser.value).(pod := None))
  {
    hide GuardedRun, CalmPrepare, AllPlay, Left, LosingCalls;
    LosingPlays(w, decode, sent);
    NoStepsYet(w);
    StepsAreRun([], LosingCalls(w, sent), w, 1);
    assert [] + Steps(LosingCalls(w, sent), w, 1) == Steps(LosingCalls(w, sent), w, 1);
  }

  lemma CreateCallsEnd(w: World, decode: string -> ParsedOptions)
    requires Buildable(w, decode)
    ensures var acts := CreateCalls(w, decode); |acts| == 4 && acts[3].CreatePod? && acts[3].error.None?
    ensures var acts := CreateCalls(w, decode); forall i :: 0 <= i < |acts| ==> !MarksFailed(acts[i])
  {
  }

  lemma NoStepsYet(w: World)
    requires WellFormed(w)
    ensures GuardedRun([], w)
  {
  }

  // And only so: in any run, a creation after such a write means that it was not accepted.
  lemma CreationMeansLost(t: seq<Step>, w: World, k: nat, l: nat)
    requires GuardedRun(t, w) && k < l < |t| && MarksFailed(t[k].act) && Creates(t[l])
    ensures t[k].act.error.Some?
  {
    hide GuardedRun;
    assert Run(t, w) by { RunOf(t, w); }
    RunAt(t, w, k);
    if t[k].act.error.None? {
      NoPodAfterFailed(t, w, k + 1, l);
    }
  }

  lemma RunOf(t: seq<Step>, w: World)
    requires GuardedRun(t, w)
    ensures Run(t, w)
  {
  }

  lemma LastRound(t: seq<Step>, w: World)
    requires Run(t, w) && t != []
    ensures forall i :: 0 <= i < |t| ==> t[i].round <= t[|t| - 1].round
  {
    var n := |t| - 1;
    assert Follows(t[..n], t[n]);
    assert forall i :: 0 <= i < n ==> t[..n][i] == t[i];
  }

  // Some continuation of the run, from the world w where it ends, creates a pod.
  ghost predicate CanCreate(t: seq<Step>, w: World) {
    exists u, end ::
      GuardedRun(u, end) && t <= u && WorldAt(u, end, |t|) == w && exists l :: |t| <= l < |u| && Creates(u[l])
  }

  // Exactly: when the pod of a configured Browser that has its finalizer is gone, the run
  // can go on to create another one if and only if Failed is not stored, for whatever reason.
  lemma RecreatedExactlyUnlessFailed(t: seq<Step>, w: World, decode: string -> ParsedOptions)
    requires GuardedRun(t, w) && Configured(w, decode) && Held(w) && w.pod.None?
    ensures CanCreate(t, w) <==> !IsFailed(w)
  {
    hide GuardedRun, Configured, AllPlay;
    if !IsFailed(w) {
      var round := if t == [] then 1 else t[|t| - 1].round + 1;
      if t != [] {
        RunOf(t, w);
        LastRound(t, w);
      }
      CreatePlays(w, decode);
      var more := CreateCalls(w, decode);
      StepsAreRun(t, more, w, round);
      CreateCallsEnd(w, decode);
      CreatesAfter(t, more, w, round);
    } else {
      forall u, end, l | GuardedRun(u, end) && t <= u && WorldAt(u, end, |t|) == w && |t| <= l < |u|
        ensures !Creates(u[l])
      {
        NoPodAfterFailed(u, end, |t|, l);
      }
    }
  }

  lemma CreatesAfter(t: seq<Step>, more: seq<Act>, w: World, round: nat)
    requires GuardedRun(t + Steps(more, w, round), Left(more, w))
    requires |more| == 4 && more[3].CreatePod? && more[3].error.None?
    ensures CanCreate(t, w)
  {
    hide GuardedRun, Left;
    var v := Steps(more, w, round);
    hide Steps;
    var u := t + v;
    assert Creates(u[|u| - 1]);
    assert WorldAt(u, Left(more, w), |t|) == w;
    assert t <= u;
  }

  // In particular, right after a write of Failed: if and only if that returned an error.
  lemma RecreatedExactlyIfLost(t: seq<Step>, w: World, decode: string -> ParsedOptions)
    requires GuardedRun(t, w) && t != [] && MarksFailed(t[|t| - 1].act)
    requires Configured(w, decode) && Held(w) && w.pod.None? && !IsFailed(t[|t| - 1].pre)
    ensures CanCreate(t, w) <==> t[|t| - 1].act.error.Some?
  {
    hide GuardedRun, CanCreate;
    RecreatedExactlyUnlessFailed(t, w, decode);
    RunOf(t, w);
    RunAt(t, w, |t| - 1);
  }
}

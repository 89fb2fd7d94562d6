// What holds over whole runs: any number of reconciles from any state, with other
// actors moving before every call and any call failing.
module Runs {
  import opened Values
  import opened Kube
  import opened ClusterModel
  import opened Updates
  import opened Reconciler
  import opened Convergence

  // The world before step j of t, or the last world w.
  function WorldAt(t: seq<Step>, w: World, j: nat): World {
    if j < |t| then t[j].pre else w
  }

  lemma {:induction false} RunAt(t: seq<Step>, w: World, j: nat)
    requires Run(t, w) && j < |t|
    ensures Run(t[..j], t[j].pre) && Legal(t[j]) && t[j].post == WorldAt(t, w, j + 1)
    decreases |t|
  {
    var n := |t| - 1;
    if j < n {
      RunAt(t[..n], t[n].pre, j);
      assert t[..n][..j] == t[..j];
    }
  }

  // ----- Failed is final --------------------------------------------------------

  // Once Failed is stored, the Browser stays Failed until it is gone for good.
  lemma {:induction false} FailedIsFinal(t: seq<Step>, w: World, i: nat, j: nat)
    requires GuardedRun(t, w) && i <= j <= |t|
    requires IsFailed(WorldAt(t, w, i))
    ensures WorldAt(t, w, j).browser.None? || IsFailed(WorldAt(t, w, j))
    decreases j - i
  {
    if i < j {
      FailedIsFinal(t, w, i, j - 1);
      RunAt(t, w, j - 1);
    }
  }

  predicate Creates(s: Step) {
    s.act.CreatePod? && s.act.error.None?
  }

  // No pod is created after Failed was stored, in this reconcile or any later one.
  lemma NoPodAfterFailed(t: seq<Step>, w: World, i: nat, j: nat)
    requires GuardedRun(t, w) && i <= j < |t|
    requires IsFailed(WorldAt(t, w, i))
    ensures !Creates(t[j])
  {
    FailedIsFinal(t, w, i, j);
    RunAt(t, w, j);
  }

  // ----- creation is protected by the finalizer -----------------------------------

  // When a pod is created its Browser is stored under the owner's uid and carries the
  // finalizer, before and after the creation.
  lemma CreationProtected(t: seq<Step>, w: World, j: nat)
    requires GuardedRun(t, w) && j < |t| && Creates(t[j])
    ensures Protected(t[j].pre, t[j].act.pod) && Protected(t[j].post, t[j].act.pod)
    ensures t[j].pre.pod.None? && t[j].post.pod == Some(Created(t[j].act.pod, t[j].pre.clock))
  {
    RunAt(t, w, j);
  }

  // ----- the finalizer goes only for a reason --------------------------------------

  lemma RemovalJustified(t: seq<Step>, w: World, j: nat)
    requires GuardedRun(t, w) && j < |t| && Held(t[j].pre) && !Held(t[j].post)
    ensures t[j].act.PatchMeta? && Justified(t[..j], t[j].round)
  {
    RunAt(t, w, j);
  }

  // While a reconcile has read nothing that justifies it, the finalizer stays.
  lemma {:induction false} FinalizerStays(t: seq<Step>, w: World, i: nat, j: nat, round: nat)
    requires GuardedRun(t, w) && i <= j <= |t| && Held(WorldAt(t, w, i))
    requires forall k :: i <= k < j ==> t[k].round == round
    requires !Justified(t[..j], round)
    ensures Held(WorldAt(t, w, j))
    decreases j - i
  {
    if i < j {
      if Justified(t[..j - 1], round) {
        JustifiedExtends(t[..j - 1], t[..j], round);
      }
      FinalizerStays(t, w, i, j - 1, round);
      RunAt(t, w, j - 1);
      if !Held(WorldAt(t, w, j)) {
        RemovalJustified(t, w, j - 1);
      }
    }
  }

  // ----- whole runs ---------------------------------------------------------------------

  // The four claims about a run.
  ghost predicate Disciplined(t: seq<Step>, w: World) {
    && (forall i, j :: 0 <= i <= j <= |t| && IsFailed(WorldAt(t, w, i)) ==>
          WorldAt(t, w, j).browser.None? || IsFailed(WorldAt(t, w, j)))
    && (forall i, j :: 0 <= i <= j < |t| && IsFailed(WorldAt(t, w, i)) ==> !Creates(t[j]))
    && (forall j :: 0 <= j < |t| && Creates(t[j]) ==> Protected(t[j].pre, t[j].act.pod))
    && (forall j :: 0 <= j < |t| && Held(t[j].pre) && !Held(t[j].post) ==> Justified(t[..j], t[j].round))
  }

  lemma RunsAreDisciplined(t: seq<Step>, w: World)
    requires GuardedRun(t, w)
    ensures Disciplined(t, w)
  {
    forall i, j | 0 <= i <= j <= |t| && IsFailed(WorldAt(t, w, i))
      ensures WorldAt(t, w, j).browser.None? || IsFailed(WorldAt(t, w, j))
    {
      FailedIsFinal(t, w, i, j);
    }
    forall i, j | 0 <= i <= j < |t| && IsFailed(WorldAt(t, w, i))
      ensures !Creates(t[j])
    {
      NoPodAfterFailed(t, w, i, j);
    }
    forall j | 0 <= j < |t| && Creates(t[j])
      ensures Protected(t[j].pre, t[j].act.pod)
    {
      CreationProtected(t, w, j);
    }
    forall j | 0 <= j < |t| && Held(t[j].pre) && !Held(t[j].post)
      ensures Justified(t[..j], t[j].round)
    {
      RemovalJustified(t, w, j);
    }
  }

  // The Browser was read in a reconcile, and in every one of the first reconciles.
  ghost predicate ReadIn(t: seq<Step>, round: nat) {
    exists k :: 0 <= k < |t| && t[k].round == round && t[k].act.GetBrowser?
  }

  ghost predicate ReadInEvery(t: seq<Step>, rounds: nat) {
    forall r: nat :: 1 <= r <= rounds ==> ReadIn(t, r)
  }

  lemma ReadOnceMore(t: seq<Step>, t': seq<Step>, rounds: nat)
    requires t <= t' && ReadInEvery(t, rounds)
    requires |t'| > |t| + 1 && t'[|t| + 1].round == rounds + 1 && t'[|t| + 1].act.GetBrowser?
    ensures ReadInEvery(t', rounds + 1)
  {
    forall r: nat | 1 <= r <= rounds ensures ReadIn(t', r) {
      assert ReadIn(t, r);
      var k :| 0 <= k < |t| && t[k].round == r && t[k].act.GetBrowser?;
      assert t'[k] == t[k];
    }
  }

  lemma NoRounds(world: World, decode: string -> ParsedOptions)
    ensures ReadInEvery([], 0) && Iterate(world, decode, 0) == world
  {
  }

  lemma IterateStep(world: World, decode: string -> ParsedOptions, n: nat)
    ensures Iterate(world, decode, n + 1) == CalmReconcile(Iterate(world, decode, n), decode).0
  {
    hide CalmReconcile;
    IterateNext(world, decode, n);
  }

  // The single worker of a Browser: reconcile after reconcile, from any world. If nobody
  // interferes and nothing fails, it computes the iterated quiet reconcile, and so is at
  // rest after three.
  method Work(world: World, alone: bool, reliable: bool, decode: string -> ParsedOptions, rounds: nat)
    returns (c: Cluster)
    requires WellFormed(world)
    ensures c.Valid() && c.round == rounds && WorldAt(c.trace, c.w, 0) == world
    ensures ReadInEvery(c.trace, rounds) && Disciplined(c.trace, c.w)
    ensures alone && reliable ==> c.w == Iterate(world, decode, rounds)
    ensures alone && reliable && rounds >= 3 ==> c.w == Iterate(world, decode, 3)
  {
    hide GuardedRun, Settled, Next, CalmReconcile, ReadInEvery, Disciplined, Iterate, WellFormed;
    c := new Cluster(world, alone, reliable);
    var reconciler := new BrowserReconciler(c, decode);
    NoRounds(world, decode);
    for i := 0 to rounds
      invariant reconciler.cluster == c && c.Valid() && c.round == i && fresh(c)
      invariant c.alone == alone && c.reliable == reliable && reconciler.decode == decode
      invariant WorldAt(c.trace, c.w, 0) == world && ReadInEvery(c.trace, i)
      invariant alone && reliable ==> c.w == Iterate(world, decode, i)
    {
      ghost var t := c.trace;
      ghost var got, visit;
      var requeue, e;
      requeue, e, got, visit := reconciler.Reconcile();
      ReadOnceMore(t, c.trace, i);
      IterateStep(world, decode, i);
    }
    RunsAreDisciplined(c.trace, c.w);
    if rounds >= 3 {
      Converges(world, decode, rounds);
    }
  }
}

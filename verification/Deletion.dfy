// A Browser under deletion, reconcile after reconcile: how long its finalizer stays.
module Deletion {
  import opened Values
  import opened Kube
  import opened ClusterModel
  import opened Reconciler
  import opened ReconcileFacts

  // The pod was read by all these waiting visits; since the first one it has a deletion
  // time, which only came closer. w is the world after them.
  ghost predicate Pursued(vs: seq<Visit>, w: World) {
    && (forall i :: 0 <= i < |vs| ==> vs[i].pod.Some? && Waits(vs[i]))
    && (vs != [] ==> Going(w) && Older(vs[0].pod, w.pod))
    && (|vs| > 1 ==> Older(vs[1].pod, w.pod))
    && (forall i :: 0 < i < |vs| ==>
          && vs[i].pod.value.deletion.Some? && vs[1].pod.value.deletion.Some?
          && vs[i].pod.value.deletion.value <= vs[1].pod.value.deletion.value
          && (vs[0].pod.value.deletion.Some? ==> vs[i].pod.value.deletion.value <= vs[0].pod.value.deletion.value))
  }

  lemma PursuedOn(vs: seq<Visit>, x: World, v: Visit, y: World)
    requires Pursued(vs, x) && Waits(v) && Aged(x, v, y)
    ensures Pursued(vs + [v], y)
  {
  }

  // How many reconciles may wait for a pod deleted at d, the first of them at t0.
  function Bound(d: Time, t0: Time): int {
    (d + POD_DELETION_TIMEOUT - t0) / QUICK_CHECK + 1
  }

  lemma PursuitEnds(vs: seq<Visit>, w: World)
    requires Pursued(vs, w) && forall i :: 0 < i < |vs| ==> vs[i].now >= vs[i - 1].now + QUICK_CHECK
    ensures |vs| > 1 ==>
      vs[1].pod.value.deletion.Some? && |vs| <= Bound(vs[1].pod.value.deletion.value, vs[0].now)
    ensures vs != [] && vs[0].pod.value.deletion.Some? ==> |vs| <= Bound(vs[0].pod.value.deletion.value, vs[0].now)
  {
    if |vs| > 1 {
      DeletionBound(vs, vs[1].pod.value.deletion.value);
    }
    if vs != [] && vs[0].pod.value.deletion.Some? {
      DeletionBound(vs, vs[0].pod.value.deletion.value);
    }
  }

  // A later start and an earlier deletion leave room for fewer.
  lemma BoundShrinks(d: Time, t0: Time, d': Time, t0': Time)
    requires d' <= d && t0 <= t0'
    ensures Bound(d', t0') <= Bound(d, t0)
  {
  }

  // The visit v was made in this round.
  ghost predicate Visited(t: seq<Step>, round: nat, v: Visit) {
    exists b :: VisitOf(t, round, b, v)
  }

  lemma VisitedExtends(t: seq<Step>, t': seq<Step>, round: nat, v: Visit)
    requires t <= t' && Visited(t, round, v)
    ensures Visited(t', round, v)
  {
    hide VisitOf;
    var b :| VisitOf(t, round, b, v);
    VisitOfExtends(t, t', round, b, v);
  }

  // The visits were made in the rounds after `round`, one in each.
  ghost predicate AllVisited(t: seq<Step>, round: nat, vs: seq<Visit>) {
    forall i :: 0 <= i < |vs| ==> Visited(t, round + i + 1, vs[i])
  }

  lemma NotYet(w: World, t: seq<Step>, round: nat)
    ensures Pursued([], w) && AllVisited(t, round, [])
  {
  }

  lemma AllVisitedOn(t: seq<Step>, t': seq<Step>, round: nat, vs: seq<Visit>, v: Visit)
    requires t <= t' && AllVisited(t, round, vs) && Visited(t', round + |vs| + 1, v)
    ensures AllVisited(t', round, vs) && AllVisited(t', round, vs + [v])
  {
    hide Visited;
    forall i | 0 <= i < |vs| ensures Visited(t', round + i + 1, vs[i]) {
      VisitedExtends(t, t', round + i + 1, vs[i]);
    }
  }

  // One reconcile of a held Browser under deletion, and the delay it asks for, if any.
  method Turn(reconciler: BrowserReconciler) returns (again: bool, ghost v: Visit)
    requires reconciler.cluster.Valid() && reconciler.cluster.reliable
    requires Held(reconciler.cluster.w) && reconciler.cluster.w.browser.value.deletion.Some?
    modifies reconciler.cluster
    ensures reconciler.cluster.Valid() && old(reconciler.cluster.trace) <= reconciler.cluster.trace
    ensures reconciler.cluster.round == old(reconciler.cluster.round) + 1
    ensures Visited(reconciler.cluster.trace, reconciler.cluster.round, v)
    ensures old(reconciler.cluster.w).clock <= v.now <= reconciler.cluster.w.clock
    ensures again <==> Waits(v)
    ensures again <==> Held(reconciler.cluster.w)
    ensures again ==>
      reconciler.cluster.w.browser.value.deletion.Some? && v.now <= reconciler.cluster.w.clock - QUICK_CHECK
    ensures Steady(reconciler.cluster.trace, |old(reconciler.cluster.trace)|) && again ==>
      Aged(old(reconciler.cluster.w), v, reconciler.cluster.w)
  {
    hide GuardedRun, Steady, Settled, Waits, VisitOf, Faulted;
    var c := reconciler.cluster;
    ghost var got;
    var r, e;
    r, e, got, v := reconciler.Reconcile();
    ghost var t := c.trace;
    assert Visited(t, c.round, v);
    again := r.After?;
    if again {
      c.Wait(r.delay);
      VisitedExtends(t, c.trace, c.round, v);
      if Steady(c.trace, |old(c.trace)|) {
        SteadyPart(t, c.trace, |old(c.trace)|);
        SteadyWait(t, c.trace);
      }
    }
  }

  lemma SteadyWait(t: seq<Step>, t': seq<Step>)
    requires t < t' && Steady(t', |t|) && t'[|t|].act.Env?
    ensures Older(t'[|t|].pre.pod, t'[|t|].post.pod)
  {
  }

  lemma AgedSince(x: World, v: Visit, y: World)
    requires Aged(x, v, y)
    ensures Older(x.pod, v.pod)
  {
  }

  // The worker reconciles a held Browser under deletion, up to n times, each time after the
  // delay that the reconcile before asked for. Calls do not fail, other actors move. The
  // visits vs are what its waiting reconciles read, one in each round; the finalizer goes
  // with the first visit, `last`, that need not wait.
  //
  // If other actors only let the pod grow older, at most Bound reconciles wait, counted
  // from the deletion time the pod has in the world at the start, or has after the first of
  // them. So with a larger n the finalizer goes.
  method Drain(reconciler: BrowserReconciler, n: nat) returns (ghost vs: seq<Visit>, ghost last: Visit)
    requires reconciler.cluster.Valid() && reconciler.cluster.reliable
    requires Held(reconciler.cluster.w) && reconciler.cluster.w.browser.value.deletion.Some?
    modifies reconciler.cluster
    ensures reconciler.cluster.Valid() && old(reconciler.cluster.trace) <= reconciler.cluster.trace
    ensures AllVisited(reconciler.cluster.trace, old(reconciler.cluster.round), vs)
    ensures forall i :: 0 <= i < |vs| ==> vs[i].pod.Some? && Waits(vs[i])
    ensures forall i :: 0 < i < |vs| ==> vs[i].now >= vs[i - 1].now + QUICK_CHECK
    ensures vs != [] ==> old(reconciler.cluster.w).clock <= vs[0].now
    ensures Held(reconciler.cluster.w) ==> |vs| == n && reconciler.cluster.round == old(reconciler.cluster.round) + n
    ensures !Held(reconciler.cluster.w) ==>
      && reconciler.cluster.round == old(reconciler.cluster.round) + |vs| + 1
      && Visited(reconciler.cluster.trace, reconciler.cluster.round, last) && !Waits(last)
    ensures Steady(reconciler.cluster.trace, |old(reconciler.cluster.trace)|) && vs != [] ==>
      Older(old(reconciler.cluster.w).pod, vs[0].pod)
    ensures Steady(reconciler.cluster.trace, |old(reconciler.cluster.trace)|) && |vs| > 1 ==>
      vs[1].pod.value.deletion.Some? && |vs| <= Bound(vs[1].pod.value.deletion.value, vs[0].now)
    ensures Steady(reconciler.cluster.trace, |old(reconciler.cluster.trace)|) && vs != [] ==>
      var p := old(reconciler.cluster.w).pod;
      p.Some? && (p.value.deletion.Some? ==> |vs| <= Bound(p.value.deletion.value, old(reconciler.cluster.w).clock))
    ensures Steady(reconciler.cluster.trace, |old(reconciler.cluster.trace)|) && n > 0 ==>
      var w := old(reconciler.cluster.w);
      && (w.pod.None? ==> !Held(reconciler.cluster.w))
      && (w.pod.Some? && w.pod.value.deletion.Some? && n > Bound(w.pod.value.deletion.value, w.clock) ==>
            !Held(reconciler.cluster.w))
  {
    hide GuardedRun, Pursued, Steady, Aged, Visited, AllVisited;
    var c := reconciler.cluster;
    ghost var from, start, end := |c.trace|, c.round, c.w;
    vs, last := [], *;
    assert Pursued(vs, end) && AllVisited(c.trace, start, vs) by { NotYet(end, c.trace, start); }
    var i, again := 0, true;
    while i < n && again
      invariant c.Valid() && old(c.trace) <= c.trace && i <= n
      invariant again <==> Held(c.w)
      invariant again ==> c.w.browser.value.deletion.Some? && end == c.w && |vs| == i
      invariant c.round == start + i && AllVisited(c.trace, start, vs)
      invariant !again ==> i == |vs| + 1 && Visited(c.trace, c.round, last) && !Waits(last)
      invariant forall k :: 0 <= k < |vs| ==> vs[k].pod.Some? && Waits(vs[k])
      invariant forall k :: 0 < k < |vs| ==> vs[k].now >= vs[k - 1].now + QUICK_CHECK
      invariant vs != [] ==> old(c.w).clock <= vs[0].now
      invariant vs != [] && again ==> c.w.clock >= vs[|vs| - 1].now + QUICK_CHECK
      invariant vs == [] && again ==> c.w == old(c.w)
      invariant Steady(c.trace, from) ==> Pursued(vs, end)
      invariant Steady(c.trace, from) && vs != [] ==> Older(old(c.w).pod, vs[0].pod)
    {
      ghost var t, v := c.trace, *;
      again, v := Turn(reconciler);
      i := i + 1;
      AllVisitedOn(t, c.trace, start, vs, v);
      if Steady(c.trace, from) {
        SteadyPart(t, c.trace, from);
      }
      if again {
        if Steady(c.trace, from) {
          PursuedOn(vs, end, v, c.w);
          AgedSince(end, v, c.w);
        }
        vs, end := vs + [v], c.w;
      } else {
        last := v;
      }
    }
    if Steady(c.trace, from) {
      PursuitEnds(vs, end);
      if vs != [] && old(c.w).pod.value.deletion.Some? {
        BoundShrinks(old(c.w).pod.value.deletion.value, old(c.w).clock, vs[0].pod.value.deletion.value, vs[0].now);
      }
    }
  }
}

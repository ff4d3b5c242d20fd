/** What undisturbed runs end in: convergence and quiescence, stated on the store. */
module Quiescence {
  import opened Prelude
  import opened Objects
  import opened Server
  import opened Passes
  import opened Runs
  import opened Locals
  import opened Calm
  import opened Convergence
  import Resources
  import Status

  // ---------- Undisturbed runs ----------

  /** Passes for this name in which no call fails; time passes, and others write elsewhere only. */
  predicate CalmFor(requests: seq<Request>, k: Key) {
    forall i :: 0 <= i < |requests| ==> requests[i].key == k && Undisturbed(requests[i].schedule)
  }

  /** The same objects under every name, and the same surroundings. */
  ghost predicate SameEverywhere(s: Store, s': Store) {
    Around(s') == Around(s) && forall q :: At(s', q) == At(s, q)
  }

  /** An NFDeployment that the operator serves. */
  predicate Served(s: Store, k: Key) {
    k in s.nfs && s.nfs[k].spec.provider.Free5gc?
  }

  function CurrentPlan(s: Store, k: Key): Plan
    requires Served(s, k)
  {
    PlanOf(s.nfs[k].spec.provider.kind, Around(s), k, s.nfs[k].spec)
  }

  lemma CalmServe(w: World, request: Request) returns (m: Moment)
    requires Served(w.store, request.key) && Undisturbed(request.schedule)
    ensures var k, w' := request.key, Serve(w, request);
            && OnlyAt(w.store, w'.store, k)
            && At(w'.store, k) == Settle(CurrentPlan(w.store, k), m, At(w.store, k)).0
  {
    var k, w0 := request.key, Begin(w, request);
    var (w1, got) := GetNF(w0, k);
    CalmReads(w0, k);
    assert At(w1.store, k) == At(w.store, k) && Around(w1.store) == Around(w.store);
    m := CalmReconcile(w.store.nfs[k].spec.provider.kind, w1, k);
    ReadsLeave(w0, w1, Serve(w, request), k, At(Serve(w, request).store, k));
  }

  lemma OnlyAtThen(s: Store, s1: Store, s2: Store, k: Key)
    requires OnlyAt(s, s1, k) && OnlyAt(s1, s2, k)
    ensures OnlyAt(s, s2, k)
  {
    forall q | q != k ensures At(s2, q) == At(s, q) {
      assert At(s1, q) == At(s, q);
    }
  }

  /** After a pass the NFDeployment is there with the same spec, so the plan is the same. */
  lemma PlanStays(s: Store, s': Store, k: Key, m: Moment)
    requires Served(s, k) && OnlyAt(s, s', k) && At(s', k) == Settle(CurrentPlan(s, k), m, At(s, k)).0
    ensures Served(s', k) && CurrentPlan(s', k) == CurrentPlan(s, k)
  {
    SettleKeepsNF(CurrentPlan(s, k), m, At(s, k));
    FoundAt(s', k);
  }

  lemma {:induction false} CalmRun(w: World, k: Key, requests: seq<Request>) returns (moments: seq<Moment>)
    requires Served(w.store, k) && CalmFor(requests, k)
    ensures |moments| == |requests|
    ensures var w' := RunAll(w, requests);
            && OnlyAt(w.store, w'.store, k) && Served(w'.store, k)
            && CurrentPlan(w'.store, k) == CurrentPlan(w.store, k)
            && At(w'.store, k) == SettleAll(CurrentPlan(w.store, k), moments, At(w.store, k))
    decreases |requests|
  {
    moments := [];
    if requests != [] {
      var w1 := Serve(w, requests[0]);
      var m := CalmServe(w, requests[0]);
      PlanStays(w.store, w1.store, k, m);
      var rest := CalmRun(w1, k, requests[1..]);
      moments := [m] + rest;
      OneMore(CurrentPlan(w.store, k), moments, At(w.store, k));
      assert moments[1..] == rest;
      OnlyAtThen(w.store, w1.store, RunAll(w, requests).store, k);
    }
  }

  lemma {:induction false} RunAllThen(w: World, requests: seq<Request>, more: seq<Request>)
    ensures RunAll(w, requests + more) == RunAll(RunAll(w, requests), more)
    decreases |requests|
  {
    if requests == [] {
      assert requests + more == more;
    } else {
      assert (requests + more)[1..] == requests[1..] + more;
      RunAllThen(Serve(w, requests[0]), requests[1..], more);
    }
  }

  /** The passes after which an undisturbed run has settled. */
  function Bound(l: Local): nat {
    if l.nf.Some? && l.deployment.Some?
        && Unknown(l.deployment.value.conditions, l.nf.value.status.conditions) then 4 else 3
  }

  /**
   Convergence: from every store, unless a live Deployment keeps failing, undisturbed passes change nothing any
   more after the third (after the fourth when the Deployment's first condition is of a type the operator does
   not know), whatever the builds and the gate say, and however much time passes.
   */
  lemma {:induction false} SettlesInThreePasses(w: World, k: Key, requests: seq<Request>, more: seq<Request>)
    requires Served(w.store, k) && CalmFor(requests, k) && CalmFor(more, k)
    requires !Diverges(At(w.store, k)) && |requests| >= Bound(At(w.store, k))
    ensures SameEverywhere(RunAll(w, requests).store, RunAll(w, requests + more).store)
  {
    var l, plan := At(w.store, k), CurrentPlan(w.store, k);
    var w1 := RunAll(w, requests);
    var moments := CalmRun(w, k, requests);
    RankBound(plan, l);
    Converges(plan, moments, [], l);
    var later := CalmRun(w1, k, more);
    SettledStays(plan, later, At(w1.store, k));
    RunAllThen(w, requests, more);
    EverywhereSame(w1.store, RunAll(w1, more).store, k);
  }

  lemma EverywhereSame(s: Store, s': Store, k: Key)
    requires OnlyAt(s, s', k) && At(s', k) == At(s, k)
    ensures SameEverywhere(s, s')
  {
  }

  /** And while a live Deployment keeps failing, every pass adds a condition to the log. */
  lemma {:induction false} FailingNeverSettles(w: World, k: Key, requests: seq<Request>)
    requires Served(w.store, k) && CalmFor(requests, k) && Diverges(At(w.store, k))
    ensures var s := RunAll(w, requests).store;
            k in s.nfs && |s.nfs[k].status.conditions| == |w.store.nfs[k].status.conditions| + |requests|
  {
    var moments := CalmRun(w, k, requests);
    GrowsForever(CurrentPlan(w.store, k), moments, At(w.store, k));
  }

  // ---------- Quiescence ----------

  /** The Deployment is the desired one for the current spec and the live ConfigMap, and has lost its owner. */
  predicate Refined(kind: Kind, s: Store, k: Key) {
    && k in s.nfs && k in s.configMaps && k in s.deployments && (kind != UPF ==> k in s.services)
    && Resources.Desired(kind, Rev(s.configMaps[k].version), k.name, s.nfs[k].spec) == Built(s.deployments[k].template)
    && !s.deployments[k].owned
  }

  lemma FoundAt(s: Store, k: Key)
    ensures At(s, k).nf.Some? ==> k in s.nfs && s.nfs[k] == At(s, k).nf.value
    ensures At(s, k).configMap.Some? ==> k in s.configMaps && s.configMaps[k] == At(s, k).configMap.value
    ensures At(s, k).service.Some? ==> k in s.services
    ensures At(s, k).deployment.Some? ==> k in s.deployments && s.deployments[k] == At(s, k).deployment.value
  {
  }

  lemma RefinedLocally(kind: Kind, s: Store, k: Key, plan: Plan, around: Surroundings)
    requires k in s.nfs && plan == PlanOf(kind, around, k, s.nfs[k].spec)
    requires k in s.configMaps && k in s.deployments && (kind != UPF ==> k in s.services) && !s.deployments[k].owned
    requires plan.template.Built? && s.deployments[k].template == WithVersion(plan.template.value, VersionOf(At(s, k)))
    ensures Refined(kind, s, k)
  {
    DesiredOfPlan(kind, around, k, s.nfs[k].spec, Rev(s.configMaps[k].version));
  }

  lemma FinishedPlaces(plan: Plan, m: Moment, l: Local)
    requires l.nf.Some? && Settle(plan, m, l).1 == Finished
    ensures l.deployment.Some? && InStep(l) && plan.template.Built?
    ensures var l' := Settle(plan, m, l).0;
            && l'.configMap.Some? && l'.deployment.Some? && (plan.kind != UPF ==> l'.service.Some?)
            && (plan.kind != AMF ==>
                  !l'.deployment.value.owned
                      && l'.deployment.value.template == WithVersion(plan.template.value, VersionOf(l')))
            && (plan.kind == AMF ==>
                  && l'.deployment.value == l.deployment.value
                  && (l.configMap.Some? ==> l'.configMap == l.configMap)
                      && (l.configMap.None? ==> VersionOf(l) == Empty))
  {
  }

  /**
   Quiescence: an undisturbed UPF or SMF pass that ends without error and without asking for another leaves the
   Deployment desired for the current spec, annotated with the version of the live ConfigMap.
   */
  lemma QuietPassRefines(kind: Kind, w: World, k: Key)
    requires Undisturbed(w.schedule) && k in w.store.nfs && kind != AMF && Reconcile(kind, w, k).1 == Finished
    ensures Refined(kind, Reconcile(kind, w, k).0.store, k)
    ensures Reconcile(kind, w, k).0.store.nfs[k].spec == w.store.nfs[k].spec
  {
    var plan, l := PlanOf(kind, Around(w.store), k, w.store.nfs[k].spec), At(w.store, k);
    var m := CalmReconcile(kind, w, k);
    FinishedPlaces(plan, m, l);
    SettleKeepsNF(plan, m, l);
    var s := Reconcile(kind, w, k).0.store;
    FoundAt(s, k);
    RefinedLocally(kind, s, k, plan, Around(w.store));
  }

  /**
   For the AMF the annotation agrees with the live ConfigMap after such a pass exactly when the ConfigMap was
   there before it; when it was missing, the annotation was empty, and the next pass repairs it.
   */
  lemma QuietAmfPass(w: World, k: Key, w': World)
    requires Undisturbed(w.schedule) && k in w.store.nfs && Reconcile(AMF, w, k) == (w', Finished)
    ensures At(w.store, k).deployment.Some? && At(w'.store, k).configMap.Some?
    ensures InStep(At(w'.store, k)) <==> k in w.store.configMaps
    ensures k !in w.store.configMaps && !CannotRoll(At(w.store, k)) ==>
              var (w'', outcome) := Reconcile(AMF, w', k);
              outcome == Requeue && InStep(At(w''.store, k)) && At(w''.store, k).configMap == At(w'.store, k).configMap
  {
    var plan, l := PlanOf(AMF, Around(w.store), k, w.store.nfs[k].spec), At(w.store, k);
    var m := CalmReconcile(AMF, w, k);
    FinishedPlaces(plan, m, l);
    SettleKeepsNF(plan, m, l);
    if k !in w.store.configMaps && !CannotRoll(l) {
      RepairingPass(w', k);
    }
  }

  lemma RepairingPass(w: World, k: Key)
    requires Undisturbed(w.schedule) && At(w.store, k).nf.Some? && At(w.store, k).deployment.Some?
    requires !InStep(At(w.store, k)) && !CannotRoll(At(w.store, k))
    ensures var (w', outcome) := Reconcile(AMF, w, k);
            outcome == Requeue && InStep(At(w'.store, k)) && At(w'.store, k).configMap == At(w.store, k).configMap
  {
    var l := At(w.store, k);
    var plan := PlanOf(AMF, Around(w.store), k, l.nf.value.spec);
    var m := CalmReconcile(AMF, w, k);
    SyncKeepsWork(plan, m, l);
    RollIsInStep(plan, Synced(AMF, m, l), m.deployment);
  }

  lemma SettleObserves(plan: Plan, m: Moment, l: Local)
    requires l.nf.Some? && Settle(plan, m, l).0.nf != l.nf
    ensures l.deployment.Some? && Settle(plan, m, l).0.nf.Some?
    ensures Status.Holds(Settle(plan, m, l).0.nf.value.status.observedGeneration, l.deployment.value.generation)
  {
    SettleParts(plan, m, l);
    WorkKeepsStatus(plan, m, l);
    if l.deployment.Some? {
      SyncKeepsWork(plan, m, l);
      WorkKeepsStatus(plan, m, Synced(plan.kind, m, l));
    }
  }

  /** An undisturbed pass that writes the status leaves the generation from before the pass, or 2^31 - 1. */
  lemma QuietPassObserves(kind: Kind, w: World, k: Key)
    requires Undisturbed(w.schedule) && k in w.store.nfs
    requires At(Reconcile(kind, w, k).0.store, k).nf != At(w.store, k).nf
    ensures k in w.store.deployments && k in Reconcile(kind, w, k).0.store.nfs
    ensures Status.Holds(Reconcile(kind, w, k).0.store.nfs[k].status.observedGeneration,
                                w.store.deployments[k].generation)
  {
    var m := CalmReconcile(kind, w, k);
    SettleObserves(PlanOf(kind, Around(w.store), k, w.store.nfs[k].spec), m, At(w.store, k));
    FoundAt(Reconcile(kind, w, k).0.store, k);
  }
}

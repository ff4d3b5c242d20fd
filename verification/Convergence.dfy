/**
 Convergence of undisturbed passes, each at its own moment. Two measures count the passes that still change
 something: one for the ConfigMap, the Service and the Deployment, one for the status. The larger of the two
 decreases with every pass until the pass changes nothing, except when a failing Deployment makes the status log
 grow forever.
 */
module Convergence {
  import opened Prelude
  import opened Objects
  import opened Passes
  import opened Locals
  import opened Calm
  import Status

  // ---------- The objects ----------

  /** The Deployment differs from the one a full pass would write. */
  predicate Stale(plan: Plan, l: Local)
    requires l.deployment.Some?
  {
    plan.kind != AMF && plan.template.Built? &&
    (l.deployment.value.template != WithVersion(plan.template.value, VersionOf(l)) || l.deployment.value.owned)
  }

  predicate LacksService(plan: Plan, l: Local) {
    plan.kind != UPF && l.service.None?
  }

  /** The passes that still change the objects of a Deployment whose annotation is in step. */
  function BuildRank(plan: Plan, l: Local): nat
    requires l.deployment.Some?
  {
    if !plan.data.Built? then 0
    else if l.configMap.Some? then if LacksService(plan, l) || Stale(plan, l) then 1 else 0
    else if (plan.kind != AMF && plan.template.Built?) || CannotRoll(l) then 1
    else 2
  }

  predicate WillCreate(plan: Plan) {
    plan.data.Built? && plan.template.Built? && plan.admitted
  }

  function WorkRank(plan: Plan, l: Local): nat {
    if l.deployment.None? then
      if WillCreate(plan) then if plan.kind == AMF then 1 else 2
      else if plan.data.Built? && (l.configMap.None? || LacksService(plan, l)) then 1
      else 0
    else if InStep(l) then BuildRank(plan, l)
    else if CannotRoll(l) then 0
    else 1 + BuildRank(plan, Rolled(l, 0))
  }

  /** A pass without its status synchronisation. */
  function Worked(plan: Plan, m: Moment, l: Local): Local {
    if l.deployment.None? then BuiltUp(plan, m, l).0 else Continued(plan, m, l).0
  }

  lemma WorkDone(plan: Plan, m: Moment, l: Local)
    ensures WorkRank(plan, l) == 0 <==> Worked(plan, m, l) == l
  {
  }

  lemma RollIsInStep(plan: Plan, l: Local, version: nat)
    requires l.deployment.Some?
    ensures InStep(Rolled(l, version)) && !CannotRoll(Rolled(l, version))
    ensures BuildRank(plan, Rolled(l, version)) == BuildRank(plan, Rolled(l, 0))
  {
  }

  lemma WorkDecreases(plan: Plan, m: Moment, l: Local)
    requires WorkRank(plan, l) > 0
    ensures WorkRank(plan, Worked(plan, m, l)) < WorkRank(plan, l)
  {
    if l.deployment.None? {
      CreationDecreases(plan, m, l);
    } else if InStep(l) {
      BuildDecreases(plan, m, l);
    } else {
      RollIsInStep(plan, l, m.deployment);
    }
  }

  lemma CreationDecreases(plan: Plan, m: Moment, l: Local)
    requires l.deployment.None? && WorkRank(plan, l) > 0
    ensures WorkRank(plan, Worked(plan, m, l)) < WorkRank(plan, l)
  {
  }

  lemma BuildDecreases(plan: Plan, m: Moment, l: Local)
    requires l.deployment.Some? && InStep(l) && WorkRank(plan, l) > 0
    ensures WorkRank(plan, Worked(plan, m, l)) < WorkRank(plan, l)
  {
  }

  /** The objects do not depend on the status, nor the status on the objects, except for the generation. */
  lemma WorkKeepsStatus(plan: Plan, m: Moment, l: Local)
    ensures var l' := Worked(plan, m, l);
            && l'.nf == l.nf
            && (l.deployment.Some? ==>
                  && l'.deployment.Some? && l'.deployment.value.conditions == l.deployment.value.conditions
                  && l'.deployment.value.deleting == l.deployment.value.deleting
                  && (WorkRank(plan, l) == 0 ==> l'.deployment == l.deployment))
            && (l.deployment.None? ==>
                  && (WillCreate(plan) <==> l'.deployment.Some?)
                  && (l'.deployment.Some? ==> l'.deployment.value.conditions == [] && !l'.deployment.value.deleting))
  {
  }

  lemma SyncKeepsWork(plan: Plan, m: Moment, l: Local)
    requires l.nf.Some? && l.deployment.Some?
    ensures var l' := Synced(plan.kind, m, l);
            && l'.nf.Some? && l'.nf.value.spec == l.nf.value.spec
            && l'.configMap == l.configMap && l'.service == l.service && l'.deployment == l.deployment
            && WorkRank(plan, l') == WorkRank(plan, l)
  {
  }

  // ---------- The status ----------

  /** The Deployment's first condition means nothing to the operator, and is not the log's last type. */
  predicate Unknown(conditions: seq<ConditionType>, log: seq<Condition>) {
    conditions != [] && Status.Meaning(conditions) == [] && (log != [] ==> log[|log| - 1].kind != conditions[0])
  }

  /** The passes that still change the status when a Deployment is there and its objects need `work` more passes. */
  function SyncRank(status: NFStatus, d: Deployment, work: nat): nat {
    var log := status.conditions;
    if d.deleting then 0
    else if Unknown(d.conditions, log) then
      if log != [] && work == 0 && status.observedGeneration == Status.Clamp(d.generation) then 0 else work + 1
    else if log == [] then if d.conditions != [] && d.conditions[0] == Available then 2 else 1
    else if Status.WantsUpdate(Seen(d), log) then 1
    else 0
  }

  function StatusRank(plan: Plan, l: Local): nat
    requires l.nf.Some?
  {
    if l.deployment.Some? then SyncRank(l.nf.value.status, l.deployment.value, WorkRank(plan, l))
    else if WillCreate(plan) && l.nf.value.status.conditions == [] then 2
    else 0
  }

  /** A live Deployment keeps failing, and the log takes note on every pass. */
  predicate Diverges(l: Local) {
    && l.nf.Some? && l.deployment.Some? && !l.deployment.value.deleting
    && Status.KeepsFailing(l.deployment.value.conditions, l.nf.value.status.conditions)
  }

  lemma SyncDone(kind: Kind, m: Moment, l: Local, work: nat)
    requires l.nf.Some? && l.deployment.Some? && !Diverges(l)
    ensures SyncRank(l.nf.value.status, l.deployment.value, work) == 0 ==> Synced(kind, m, l) == l
    ensures Synced(kind, m, l) == l ==> SyncRank(l.nf.value.status, l.deployment.value, work) == 0 || work > 0
  {
  }

  lemma SyncDecreases(kind: Kind, m: Moment, l: Local, work: nat, d': Deployment, work': nat)
    requires l.nf.Some? && l.deployment.Some? && !Diverges(l)
    requires var d := l.deployment.value;
             && d'.conditions == d.conditions && d'.deleting == d.deleting
             && (work > 0 ==> work' < work) && (work == 0 ==> work' == 0 && d' == d)
    ensures var rank, rank' := SyncRank(l.nf.value.status, l.deployment.value, work),
                               SyncRank(Synced(kind, m, l).nf.value.status, d', work');
            rank' < rank || (rank' == 0 && rank == 0)
  {
  }

  lemma SyncKeepsSteady(kind: Kind, m: Moment, l: Local)
    requires l.nf.Some? && l.deployment.Some? && !Diverges(l)
    ensures !Diverges(Synced(kind, m, l))
  {
  }

  // ---------- Both together ----------

  function Max(a: nat, b: nat): nat {
    if a < b then b else a
  }

  /** How many more undisturbed passes change anything. */
  function Rank(plan: Plan, l: Local): nat
    requires l.nf.Some?
  {
    Max(WorkRank(plan, l), StatusRank(plan, l))
  }

  lemma SettleParts(plan: Plan, m: Moment, l: Local)
    requires l.nf.Some?
    ensures l.deployment.None? ==> Settle(plan, m, l).0 == Worked(plan, m, l)
    ensures l.deployment.Some? ==> Settle(plan, m, l).0 == Worked(plan, m, Synced(plan.kind, m, l))
  {
  }

  /** A pass that has nothing left to do changes nothing, whenever it comes, and only such a pass. */
  lemma RankZero(plan: Plan, m: Moment, l: Local)
    requires l.nf.Some? && !Diverges(l)
    ensures Rank(plan, l) == 0 <==> Settle(plan, m, l).0 == l
  {
    SettleParts(plan, m, l);
    WorkDone(plan, m, l);
    if l.deployment.Some? {
      var l1 := Synced(plan.kind, m, l);
      SyncKeepsWork(plan, m, l);
      WorkDone(plan, m, l1);
      WorkKeepsStatus(plan, m, l1);
      SyncDone(plan.kind, m, l, WorkRank(plan, l));
    } else {
      WorkKeepsStatus(plan, m, l);
    }
  }

  /** As long as something is left to do, every pass leaves less. */
  lemma RankDecreases(plan: Plan, m: Moment, l: Local)
    requires l.nf.Some? && !Diverges(l)
    ensures var l' := Settle(plan, m, l).0;
            && l'.nf.Some? && l'.nf.value.spec == l.nf.value.spec && !Diverges(l')
            && (Rank(plan, l) > 0 ==> Rank(plan, l') < Rank(plan, l))
  {
    SettleParts(plan, m, l);
    if l.deployment.Some? {
      PresentDecreases(plan, m, l);
    } else {
      WorkKeepsStatus(plan, m, l);
      if WorkRank(plan, l) > 0 {
        WorkDecreases(plan, m, l);
      } else {
        WorkDone(plan, m, l);
      }
    }
  }

  lemma PresentDecreases(plan: Plan, m: Moment, l: Local)
    requires l.nf.Some? && !Diverges(l) && l.deployment.Some?
    ensures var l' := Worked(plan, m, Synced(plan.kind, m, l));
            && l'.nf.Some? && l'.nf.value.spec == l.nf.value.spec && !Diverges(l')
            && (Rank(plan, l) > 0 ==> Rank(plan, l') < Rank(plan, l))
  {
    var l1 := Synced(plan.kind, m, l);
    var l' := Worked(plan, m, l1);
    SyncKeepsWork(plan, m, l);
    SyncKeepsSteady(plan.kind, m, l);
    WorkKeepsStatus(plan, m, l1);
    WorkDone(plan, m, l1);
    if WorkRank(plan, l1) > 0 {
      WorkDecreases(plan, m, l1);
    }
    SyncDecreases(plan.kind, m, l, WorkRank(plan, l), l'.deployment.value, WorkRank(plan, l'));
  }

  /** Three passes at most change anything; one more when the Deployment's first condition is of a foreign type. */
  lemma RankBound(plan: Plan, l: Local)
    requires l.nf.Some?
    ensures Rank(plan, l) <= if l.deployment.Some?
            && Unknown(l.deployment.value.conditions, l.nf.value.status.conditions) then 4 else 3
  {
  }

  /** A ConfigMap is gone whose version is still in the annotation, and can be rebuilt. */
  predicate LostConfigMap(plan: Plan, l: Local) {
    l.configMap.None? && l.deployment.Some? && !InStep(l) && plan.data.Built?
  }

  /** What the three objects are after a pass. */
  predicate SameObjects(l: Local, l': Local) {
    l'.configMap == l.configMap && l'.service == l.service && l'.deployment == l.deployment
  }

  /** The Deployment is there, with an annotation map that holds this version. */
  predicate Carries(l: Local, version: Version) {
    l.nf.Some? && l.deployment.Some? && !CannotRoll(l) && Annotation(l) == version
  }

  lemma LostIsEmptied(plan: Plan, m: Moment, l: Local)
    requires l.nf.Some? && LostConfigMap(plan, l) && !CannotRoll(l)
    ensures var (l', outcome) := Settle(plan, m, l);
            outcome == Requeue && l'.configMap.None? && Carries(l', Empty)
  {
  }

  lemma EmptiedIsRebuilt(plan: Plan, m: Moment, l: Local)
    requires plan.kind == AMF && l.configMap.None? && Carries(l, Empty) && plan.data.Built?
    ensures var l' := Settle(plan, m, l).0;
            && l'.configMap == Some(ConfigMap(plan.data.value, true, m.configMap))
            && l'.service.Some? && Carries(l', Empty)
  {
  }

  lemma RebuiltIsFollowed(plan: Plan, m: Moment, l: Local)
    requires l.configMap.Some? && Carries(l, Empty)
    ensures var (l', outcome) := Settle(plan, m, l);
            && outcome == Requeue && l'.configMap == l.configMap && l'.service == l.service
            && Carries(l', Rev(l.configMap.value.version))
  {
  }

  lemma FollowedStays(plan: Plan, m: Moment, l: Local)
    requires plan.kind == AMF && l.configMap.Some? && l.service.Some? && Carries(l, VersionOf(l))
    ensures SameObjects(l, Settle(plan, m, l).0)
  {
  }

  /**
   The longest path, walked by the AMF: the annotation is emptied, the ConfigMap is recreated with a new version,
   and only then the annotation follows it. All three passes are needed, and a fourth leaves the objects alone.
   */
  lemma AmfRecovery(plan: Plan, m1: Moment, m2: Moment, m3: Moment, m4: Moment, l: Local)
      returns (l1: Local, l2: Local, l3: Local)
    requires plan.kind == AMF && l.nf.Some? && LostConfigMap(plan, l) && !CannotRoll(l)
    ensures Settle(plan, m1, l) == (l1, Requeue) && l1.configMap.None? && Carries(l1, Empty)
    ensures Settle(plan, m2, l1).0 == l2 && Carries(l2, Empty)
    ensures l2.configMap == Some(ConfigMap(plan.data.value, true, m2.configMap))
    ensures Settle(plan, m3, l2) == (l3, Requeue) && Carries(l3, Rev(m2.configMap)) && l3.configMap == l2.configMap
    ensures SameObjects(l3, Settle(plan, m4, l3).0)
  {
    l1 := Settle(plan, m1, l).0;
    LostIsEmptied(plan, m1, l);
    l2 := Settle(plan, m2, l1).0;
    EmptiedIsRebuilt(plan, m2, l1);
    l3 := Settle(plan, m3, l2).0;
    RebuiltIsFollowed(plan, m3, l2);
    FollowedStays(plan, m4, l3);
  }

  function Annotation(l: Local): Version {
    if l.deployment.Some? then l.deployment.value.template.annotations.ConfigMapVersion() else Empty
  }

  // ---------- Repeated passes ----------

  /** The objects after one pass at each of these moments. */
  function SettleAll(plan: Plan, moments: seq<Moment>, l: Local): Local
    requires l.nf.Some?
    decreases |moments|
  {
    if moments == [] then l else
    SettleKeepsNF(plan, moments[0], l);
    SettleAll(plan, moments[1..], Settle(plan, moments[0], l).0)
  }

  lemma SettleKeepsNF(plan: Plan, m: Moment, l: Local)
    requires l.nf.Some?
    ensures Settle(plan, m, l).0.nf.Some? && Settle(plan, m, l).0.nf.value.spec == l.nf.value.spec
  {
    SettleParts(plan, m, l);
    WorkKeepsStatus(plan, m, l);
    if l.deployment.Some? {
      SyncKeepsWork(plan, m, l);
      WorkKeepsStatus(plan, m, Synced(plan.kind, m, l));
    }
  }

  /** Nothing is left to do at any moment. */
  ghost predicate Settled(plan: Plan, l: Local) {
    l.nf.Some? && forall m :: Settle(plan, m, l).0 == l
  }

  lemma {:induction false} SettledStays(plan: Plan, moments: seq<Moment>, l: Local)
    requires Settled(plan, l)
    ensures SettleAll(plan, moments, l) == l
    decreases |moments|
  {
    if moments != [] {
      assert Settle(plan, moments[0], l).0 == l;
      SettledStays(plan, moments[1..], l);
    }
  }

  lemma {:induction false} OneMore(plan: Plan, moments: seq<Moment>, l: Local)
    requires l.nf.Some? && moments != []
    ensures Settle(plan, moments[0], l).0.nf.Some?
    ensures SettleAll(plan, moments, l) == SettleAll(plan, moments[1..], Settle(plan, moments[0], l).0)
  {
    SettleKeepsNF(plan, moments[0], l);
  }

  lemma RankZeroSettled(plan: Plan, l: Local)
    requires l.nf.Some? && !Diverges(l) && Rank(plan, l) == 0
    ensures Settled(plan, l)
  {
    forall m ensures Settle(plan, m, l).0 == l {
      RankZero(plan, m, l);
    }
  }

  /**
   Convergence: after `Rank` passes at most, whenever they come, the objects are settled, and no number of further
   passes changes them.
   */
  lemma {:induction false} Converges(plan: Plan, moments: seq<Moment>, more: seq<Moment>, l: Local)
    requires l.nf.Some? && !Diverges(l) && Rank(plan, l) <= |moments|
    ensures Settled(plan, SettleAll(plan, moments, l))
    ensures SettleAll(plan, moments + more, l) == SettleAll(plan, moments, l)
    decreases |moments|
  {
    if Rank(plan, l) == 0 {
      RankZeroSettled(plan, l);
      SettledStays(plan, moments, l);
      SettledStays(plan, moments + more, l);
    } else {
      RankDecreases(plan, moments[0], l);
      OneMore(plan, moments, l);
      OneMore(plan, moments + more, l);
      assert (moments + more)[1..] == moments[1..] + more;
      Converges(plan, moments[1..], more, Settle(plan, moments[0], l).0);
    }
  }

  function LogLength(l: Local): nat {
    if l.nf.Some? then |l.nf.value.status.conditions| else 0
  }

  lemma FailingGoesOn(plan: Plan, m: Moment, l: Local)
    requires Diverges(l)
    ensures var l' := Settle(plan, m, l).0;
            Diverges(l') && LogLength(l') == LogLength(l) + 1
  {
    var l1 := Synced(plan.kind, m, l);
    SettleParts(plan, m, l);
    SyncKeepsWork(plan, m, l);
    WorkKeepsStatus(plan, m, l1);
  }

  /** And when a live Deployment keeps failing, every pass adds a condition: there is no fixpoint. */
  lemma {:induction false} GrowsForever(plan: Plan, moments: seq<Moment>, l: Local)
    requires Diverges(l)
    ensures LogLength(SettleAll(plan, moments, l)) == LogLength(l) + |moments|
    decreases |moments|
  {
    if moments != [] {
      var l1 := Settle(plan, moments[0], l).0;
      FailingGoesOn(plan, moments[0], l);
      GrowsForever(plan, moments[1..], l1);
      OneMore(plan, moments, l);
    }
  }
}

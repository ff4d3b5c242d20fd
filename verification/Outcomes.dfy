/**
 How passes end and what they leave, by the objects in the store: which passes ask for another one, when a
 Deployment comes into being, what the status shows, and what remains of this when calls fail or others interfere.
 */
module Outcomes {
  import opened Prelude
  import opened Objects
  import opened Server
  import opened Passes
  import opened Locals
  import opened Calm
  import opened Convergence
  import opened Networks
  import opened Annotations
  import opened References
  import Json
  import Quiescence
  import Resources
  import Status

  // ---------- What a pass finds ----------

  /** The ConfigMap data of a stored NFDeployment, from the Configs it refers to. */
  function DataFor(kind: Kind, s: Store, k: Key): Build<ConfigData>
    requires k in s.nfs
  {
    var spec := s.nfs[k].spec;
    if kind != SMF then Resources.ConfigMapData(kind, k.name, spec, []) else
    FirstsMembers(spec.parametersRefs);
    if AllStored(s.configs, k.namespace, spec.parametersRefs)
    then Resources.ConfigMapData(SMF, k.name, spec, RefsOf(s.configs, k.namespace, Firsts(spec.parametersRefs)))
    else Rejected(BadConfigRef)
  }

  /** Every attached interface has a gateway. */
  ghost predicate Attachable(kind: Kind, spec: Spec) {
    forall x :: x in spec.interfaces && MustAttach(kind, x.name) ==> x.gateway.Some?
  }

  /** Every text in the network annotation is one that JSON can read back. */
  ghost predicate Legible(kind: Kind, name: string, spec: Spec) {
    forall x :: x in spec.interfaces && MustAttach(kind, x.name) ==> LegibleInterface(name, x)
  }

  predicate LegibleInterface(name: string, x: InterfaceConfig) {
    && Json.Quotable(name + "-" + x.name) && Json.Quotable(x.name) && Json.Quotable(x.address)
    && (x.gateway.Some? ==> Json.Quotable(x.gateway.value))
  }

  /** Every attachment definition the spec needs is there. */
  ghost predicate Defined(kind: Kind, nads: set<Key>, k: Key, spec: Spec) {
    forall x :: x in spec.interfaces && MustAttach(kind, x.name) ==> Key(k.namespace, k.name + "-" + x.name) in nads
  }

  function LiveVersion(s: Store, k: Key): Version {
    if k in s.configMaps then Rev(s.configMaps[k].version) else Empty
  }

  function AnnotatedVersion(s: Store, k: Key): Version
    requires k in s.deployments
  {
    s.deployments[k].template.annotations.ConfigMapVersion()
  }

  predicate NoAnnotations(s: Store, k: Key)
    requires k in s.deployments
  {
    s.deployments[k].template.annotations.IsNil()
  }

  // ---------- What that means for the plan ----------

  lemma {:induction false} DataIsPlanned(kind: Kind, s: Store, k: Key)
    requires k in s.nfs
    ensures PlanOf(kind, Around(s), k, s.nfs[k].spec).data == DataFor(kind, s, k)
  {
    ResolveKeepsFirsts(s.configs, k.namespace, s.nfs[k].spec.parametersRefs);
  }

  lemma {:induction false} AttachedMembers(kind: Kind, interfaces: seq<InterfaceConfig>)
    ensures forall x: InterfaceConfig :: x in Grouped(interfaces, AttachedNames(kind)) <==>
            x in interfaces && MustAttach(kind, x.name)
  {
    GroupedMembers(interfaces, AttachedNames(kind));
    forall x: InterfaceConfig ensures x.name in AttachedNames(kind) <==> MustAttach(kind, x.name) {
      AttachedAre(kind, x.name);
    }
  }

  lemma {:induction false} GatewaysAll(flat: seq<InterfaceConfig>)
    ensures AllHaveGateway(flat) <==> forall x :: x in flat ==> x.gateway.Some?
  {
    if forall x :: x in flat ==> x.gateway.Some? {
      forall i | 0 <= i < |flat| ensures flat[i].gateway.Some? {
        assert flat[i] in flat;
      }
    }
  }

  lemma {:induction false} QuotableAll(name: string, flat: seq<InterfaceConfig>)
    requires AllHaveGateway(flat)
    ensures QuotableEntries(EntriesOf(name, flat)) <==> forall x :: x in flat ==> LegibleInterface(name, x)
  {
    var es := EntriesOf(name, flat);
    forall i | 0 <= i < |flat| ensures QuotableEntry(es[i]) <==> LegibleInterface(name, flat[i]) {
      assert es[i] == EntryOf(name, flat[i].name, flat[i]);
    }
    if QuotableEntries(es) {
      forall x | x in flat ensures LegibleInterface(name, x) {
        var i :| 0 <= i < |flat| && flat[i] == x;
        assert QuotableEntry(es[i]);
      }
    }
    if forall x :: x in flat ==> LegibleInterface(name, x) {
      forall i | 0 <= i < |es| ensures QuotableEntry(es[i]) {
        assert flat[i] in flat;
      }
    }
  }

  lemma {:induction false} FoundAll(nads: set<Key>, namespace: string, networks: seq<Network>, names: set<string>)
    requires NamesOf(networks) == names
    ensures AllFound(nads, namespace, networks) <==> forall n :: n in names ==> Key(namespace, n) in nads
  {
    if AllFound(nads, namespace, networks) {
      forall n | n in names ensures Key(namespace, n) in nads {
        var network :| network in networks && network.name == n;
      }
    }
    if forall n :: n in names ==> Key(namespace, n) in nads {
      forall network | network in networks ensures Key(namespace, network.name) in nads {
        assert network.name in NamesOf(networks);
      }
    }
  }

  lemma DefinedAll(kind: Kind, nads: set<Key>, k: Key, spec: Spec)
    ensures Defined(kind, nads, k, spec) <==>
            forall n :: n in NeededNames(kind, k.name, spec.interfaces) ==> Key(k.namespace, n) in nads
  {
    if forall n :: n in NeededNames(kind, k.name, spec.interfaces) ==> Key(k.namespace, n) in nads {
      forall x | x in spec.interfaces
          && MustAttach(kind, x.name) ensures Key(k.namespace, k.name + "-" + x.name) in nads {
        assert k.name + "-" + x.name in NeededNames(kind, k.name, spec.interfaces);
      }
    }
  }

  /** The gate opens exactly for an annotation that can be read and names definitions that are all there. */
  lemma {:induction false} GateMeans(kind: Kind, around: Surroundings, k: Key, spec: Spec)
    ensures var plan := PlanOf(kind, around, k, spec);
            && (plan.template.Built? <==> Attachable(kind, spec))
            && (plan.template.Built? ==>
                  (plan.admitted <==> Legible(kind, k.name, spec) && Defined(kind, around.nads, k, spec)))
  {
    var flat := Grouped(spec.interfaces, AttachedNames(kind));
    GroupingIsStableSort(kind, spec.interfaces);
    Resources.TemplateHolds(kind, Empty, k.name, spec, flat);
    AttachedMembers(kind, spec.interfaces);
    GatewaysAll(flat);
    if AllHaveGateway(flat) {
      OpenGate(kind, around, k, spec, flat);
    }
  }

  lemma {:induction false} OpenGate(kind: Kind, around: Surroundings, k: Key, spec: Spec, flat: seq<InterfaceConfig>)
    requires AllHaveGateway(flat)
    requires forall x :: x in flat <==> x in spec.interfaces && MustAttach(kind, x.name)
    ensures var annotation := Some(Print(EntriesOf(k.name, flat)));
            Admits(around, k.namespace, annotation) <==>
                Legible(kind, k.name, spec) && Defined(kind, around.nads, k, spec)
  {
    var es := EntriesOf(k.name, flat);
    UnmarshalPrinted(es);
    QuotableAll(k.name, flat);
    if QuotableEntries(es) {
      EntryNames(k.name, flat);
      NeededOf(kind, k.name, spec, flat);
      FoundAll(around.nads, k.namespace, VisibleAll(es), NeededNames(kind, k.name, spec.interfaces));
      DefinedAll(kind, around.nads, k, spec);
    }
  }

  lemma NeededOf(kind: Kind, name: string, spec: Spec, flat: seq<InterfaceConfig>)
    requires forall x :: x in flat <==> x in spec.interfaces && MustAttach(kind, x.name)
    ensures NeededNames(kind, name, spec.interfaces) == set x | x in flat ::
            CreateNetworkAttachmentDefinitionName(name, x.name)
  {
  }

  // ---------- How undisturbed passes end ----------

  /** How a pass of a network function ends, by what it finds. */
  ghost function Ending(kind: Kind, s: Store, k: Key): Outcome
    requires k in s.nfs
  {
    if k in s.deployments && AnnotatedVersion(s, k) != LiveVersion(s, k) then
      if NoAnnotations(s, k) then Panicked else Requeue
    else match DataFor(kind, s, k)
      case Crashed => Panicked
      case Rejected(_) => Errored
      case Built(_) =>
        if !Attachable(kind, s.nfs[k].spec) then Errored
        else if k in s.deployments then Finished
        else if Legible(kind, k.name, s.nfs[k].spec) && Defined(kind, s.nads, k, s.nfs[k].spec) then RequeueAfter(30)
        else RequeueAfter(10)
  }

  lemma SettleEnding(plan: Plan, m: Moment, l: Local)
    requires l.nf.Some?
    ensures var outcome := Settle(plan, m, l).1;
            if l.deployment.Some? && !InStep(l) then outcome == if CannotRoll(l) then Panicked else Requeue
            else if plan.data.Crashed? then outcome == Panicked
            else if !plan.data.Built? || !plan.template.Built? then outcome == Errored
            else if l.deployment.Some? then outcome == Finished
            else outcome == if plan.admitted then RequeueAfter(30) else RequeueAfter(10)
  {
    if l.deployment.Some? {
      SyncKeepsWork(plan, m, l);
    }
  }

  /** The end of an undisturbed pass of a network function. */
  lemma QuietEnding(kind: Kind, w: World, k: Key)
    requires Undisturbed(w.schedule) && k in w.store.nfs
    ensures Reconcile(kind, w, k).1 == Ending(kind, w.store, k)
  {
    var m := CalmReconcile(kind, w, k);
    SettleEnding(PlanOf(kind, Around(w.store), k, w.store.nfs[k].spec), m, At(w.store, k));
    DataIsPlanned(kind, w.store, k);
    GateMeans(kind, Around(w.store), k, w.store.nfs[k].spec);
  }

  lemma EndingLater(kind: Kind, s: Store, s': Store, k: Key)
    requires Later(s, s') && k in s.nfs
    ensures Ending(kind, s', k) == Ending(kind, s, k)
  {
    assert DataFor(kind, s', k) == DataFor(kind, s, k);
  }

  /** The dispatcher's pass is the chosen network function's, after one more read. */
  lemma QuietDispatch(w: World, k: Key) returns (w1: World)
    requires Undisturbed(w.schedule) && Quiescence.Served(w.store, k)
    ensures Reads(w, w1) && k in w1.store.nfs && w1.store.nfs[k] == w.store.nfs[k]
    ensures var kind := w.store.nfs[k].spec.provider.kind;
            && Dispatch(w, k).0 == Reconcile(kind, w1, k).0
            && (Dispatch(w, k).1 == if Reconcile(kind, w1, k).1.Errored? then Finished else Reconcile(kind, w1, k).1)
  {
    w1 := GetNF(w, k).0;
    CalmReads(w, k);
  }

  /**
   The end of an undisturbed pass, as the work queue sees it: again at once when the pods had to be rolled; again
   after 30 seconds when a Deployment was created and after 10 when definitions are missing or cannot be read; not
   again when the pass finished, failed to build, or there was nothing to do.
   */
  lemma DispatchEnds(w: World, k: Key)
    requires Undisturbed(w.schedule)
    ensures !Quiescence.Served(w.store, k) ==> Dispatch(w, k).1 == Finished
    ensures Quiescence.Served(w.store, k) ==>
              var kind, s := w.store.nfs[k].spec.provider.kind, w.store;
              var rolls := k in s.deployments && AnnotatedVersion(s, k) != LiveVersion(s, k);
              var builds := DataFor(kind, s, k).Built? && Attachable(kind, s.nfs[k].spec);
              var opens := Legible(kind, k.name, s.nfs[k].spec) && Defined(kind, s.nads, k, s.nfs[k].spec);
              && (rolls && !NoAnnotations(s, k) ==> Dispatch(w, k).1 == Requeue)
              && (rolls && NoAnnotations(s, k) ==> Dispatch(w, k).1 == Panicked)
              && (!rolls && DataFor(kind, s, k).Crashed? ==> Dispatch(w, k).1 == Panicked)
              && (!rolls && !builds && !DataFor(kind, s, k).Crashed? ==> Dispatch(w, k).1 == Finished)
              && (!rolls && builds && k in s.deployments ==> Dispatch(w, k).1 == Finished)
              && (!rolls && builds && k !in s.deployments && opens ==> Dispatch(w, k).1 == RequeueAfter(30))
              && (!rolls && builds && k !in s.deployments && !opens ==> Dispatch(w, k).1 == RequeueAfter(10))
  {
    if Quiescence.Served(w.store, k) {
      var kind := w.store.nfs[k].spec.provider.kind;
      var w1 := QuietDispatch(w, k);
      QuietEnding(kind, w1, k);
      EndingLater(kind, w.store, w1.store, k);
    } else {
      CalmReads(w, k);
    }
  }

  /** Whatever is disturbed, the dispatcher reports an error exactly when its own read failed. */
  lemma DispatchErrs(w: World, k: Key)
    ensures Dispatch(w, k).1 == Errored <==> Upcoming(w).fault != NoFault
  {
  }

  // ---------- What undisturbed passes leave ----------

  /** An annotation shows the attached interfaces of a spec, in the stable order by name. */
  ghost predicate AnnotatedFor(kind: Kind, name: string, spec: Spec, annotation: Option<string>) {
    annotation.Some? &&
    forall sorted :: IsStableSort(sorted, Chosen(spec.interfaces, AttachedNames(kind))) ==>
      Resources.Annotates(annotation.value, name, sorted)
  }

  /** A new Deployment of this kind for the current spec and the live ConfigMap, with all it needs. */
  ghost predicate Deployed(kind: Kind, s: Store, k: Key) {
    && k in s.nfs && k in s.configMaps && k in s.deployments && (kind != UPF ==> k in s.services)
    && var d := s.deployments[k];
       && d.template.annotations.configMapVersion == Some(Rev(s.configMaps[k].version))
       && d.template.annotations.others == map[]
       && AnnotatedFor(kind, k.name, s.nfs[k].spec, d.template.annotations.networks)
       && d.template.image == OperatorImage(kind) && d.owned && d.generation == 1
  }

  lemma PlannedAnnotation(kind: Kind, around: Surroundings, k: Key, spec: Spec)
    requires PlanOf(kind, around, k, spec).template.Built?
    ensures var t := PlanOf(kind, around, k, spec).template.value;
            && AnnotatedFor(kind, k.name, spec, t.annotations.networks)
            && t.annotations.others == map[] && t.image == OperatorImage(kind)
  {
    GroupingIsStableSort(kind, spec.interfaces);
    Resources.TemplateHolds(kind, Empty, k.name, spec, Grouped(spec.interfaces, AttachedNames(kind)));
    forall sorted | IsStableSort(sorted, Chosen(spec.interfaces, AttachedNames(kind)))
      ensures Resources.Annotates(PlanOf(kind, around, k, spec).template.value.annotations.networks.value, k.name,
              sorted)
    {
      Resources.TemplateHolds(kind, Empty, k.name, spec, sorted);
    }
  }

  lemma SettleLeaves(plan: Plan, m: Moment, l: Local)
    requires l.nf.Some?
    ensures var (l', outcome) := Settle(plan, m, l);
            && (outcome == Requeue ==>
                  l'.deployment.Some? && l'.configMap == l.configMap && InStep(l'))
            && (outcome == RequeueAfter(30) ==>
                  && plan.template.Built? && l'.configMap.Some? && l'.deployment.Some?
                  && (plan.kind != UPF ==> l'.service.Some?)
                  && l'.deployment.value.template == WithVersion(plan.template.value, VersionOf(l'))
                  && l'.deployment.value.owned && l'.deployment.value.generation == 1)
            && (outcome == RequeueAfter(10) ==>
                  l'.deployment.None? && l'.configMap.Some? && (plan.kind != UPF ==> l'.service.Some?))
  {
  }

  /**
   The gate, from the side of the cluster: in an undisturbed pass without a Deployment, with ConfigMap data that
   builds and a gateway, legible texts and a definition for every attached interface, the Deployment comes into being.
   */
  lemma GateOpens(kind: Kind, w: World, k: Key)
    requires Undisturbed(w.schedule) && k in w.store.nfs && k !in w.store.deployments
    requires DataFor(kind, w.store, k).Built? && Attachable(kind, w.store.nfs[k].spec)
    requires Legible(kind, k.name, w.store.nfs[k].spec) && Defined(kind, w.store.nads, k, w.store.nfs[k].spec)
    ensures Reconcile(kind, w, k).1 == RequeueAfter(30)
    ensures Deployed(kind, Reconcile(kind, w, k).0.store, k)
  {
    var l, spec := At(w.store, k), w.store.nfs[k].spec;
    var plan := PlanOf(kind, Around(w.store), k, spec);
    var s' := Reconcile(kind, w, k).0.store;
    QuietEnding(kind, w, k);
    var m := CalmReconcile(kind, w, k);
    SettleLeaves(plan, m, l);
    SettleKeepsNF(plan, m, l);
    Quiescence.FoundAt(s', k);
    PlannedAnnotation(kind, Around(w.store), k, spec);
  }

  /** And it stays shut, with everything else in place, when a definition is missing or a text is not legible. */
  lemma GateStaysShut(kind: Kind, w: World, k: Key)
    requires Undisturbed(w.schedule) && k in w.store.nfs && k !in w.store.deployments
    requires DataFor(kind, w.store, k).Built? && Attachable(kind, w.store.nfs[k].spec)
    requires !(Legible(kind, k.name, w.store.nfs[k].spec) && Defined(kind, w.store.nads, k, w.store.nfs[k].spec))
    ensures var (w', outcome) := Reconcile(kind, w, k);
            && outcome == RequeueAfter(10) && k !in w'.store.deployments
            && k in w'.store.configMaps && (kind != UPF ==> k in w'.store.services)
  {
    var plan := PlanOf(kind, Around(w.store), k, w.store.nfs[k].spec);
    QuietEnding(kind, w, k);
    var m := CalmReconcile(kind, w, k);
    SettleLeaves(plan, m, At(w.store, k));
    Quiescence.FoundAt(Reconcile(kind, w, k).0.store, k);
    assert At(Reconcile(kind, w, k).0.store, k).deployment.None?;
  }

  /** A pass that asks to be repeated at once has brought the annotation to the live ConfigMap's version. */
  lemma RolledPassAgrees(kind: Kind, w: World, k: Key)
    requires Undisturbed(w.schedule) && k in w.store.nfs && Reconcile(kind, w, k).1 == Requeue
    ensures var s' := Reconcile(kind, w, k).0.store;
            && k in s'.deployments && AnnotatedVersion(s', k) == LiveVersion(s', k) == LiveVersion(w.store, k)
  {
    var plan := PlanOf(kind, Around(w.store), k, w.store.nfs[k].spec);
    var m := CalmReconcile(kind, w, k);
    SettleLeaves(plan, m, At(w.store, k));
    Quiescence.FoundAt(Reconcile(kind, w, k).0.store, k);
    assert At(Reconcile(kind, w, k).0.store, k).configMap == At(w.store, k).configMap;
  }

  // ---------- What the status shows ----------

  function SyncedStatus(kind: Kind, now: nat, l: Local): NFStatus
    requires l.nf.Some?
  {
    var status := l.nf.value.status;
    if l.deployment.None? || l.deployment.value.deleting then status
    else Status.Sync(Subject(kind), Seen(l.deployment.value), status, now)
  }

  lemma SettleSyncs(plan: Plan, m: Moment, l: Local)
    requires l.nf.Some?
    ensures Settle(plan, m, l).0.nf.Some? && Settle(plan, m, l).0.nf.value.status == SyncedStatus(plan.kind, m.now, l)
  {
    SettleParts(plan, m, l);
    WorkKeepsStatus(plan, m, l);
    if l.deployment.Some? {
      WorkKeepsStatus(plan, m, Synced(plan.kind, m, l));
    }
  }

  /**
   An undisturbed pass over a live Deployment leaves its status synchronised, at a time during the pass; over one
   that is being deleted, or without one, it leaves the status alone.
   */
  lemma QuietPassSyncs(kind: Kind, w: World, k: Key) returns (now: nat)
    requires Undisturbed(w.schedule) && k in w.store.nfs
    ensures w.store.clock <= now <= Reconcile(kind, w, k).0.store.clock && k in Reconcile(kind, w, k).0.store.nfs
    ensures var before, after := w.store.nfs[k].status, Reconcile(kind, w, k).0.store.nfs[k].status;
            if k in w.store.deployments && !w.store.deployments[k].deleting then
              var d := w.store.deployments[k];
              after == Status.Sync(if kind == SMF then "SMFDeployment" else "NFDeployment",
                                   Status.Observation(d.generation, d.conditions), before, now)
            else after == before
  {
    var l, plan := At(w.store, k), PlanOf(kind, Around(w.store), k, w.store.nfs[k].spec);
    var m := CalmReconcile(kind, w, k);
    now := m.now;
    SettleSyncs(plan, m, l);
    Quiescence.FoundAt(Reconcile(kind, w, k).0.store, k);
  }

  /** After such a pass the log ends in what the Deployment's first condition says, unless it began only now. */
  lemma StatusShows(kind: Kind, w: World, k: Key)
    requires Undisturbed(w.schedule) && k in w.store.nfs && k in w.store.deployments && !w.store.deployments[k].deleting
    requires Status.WellFormed(w.store.nfs[k].status.conditions) && w.store.deployments[k].conditions != []
    ensures k in Reconcile(kind, w, k).0.store.nfs
    ensures var before, after :=
            w.store.nfs[k].status.conditions, Reconcile(kind, w, k).0.store.nfs[k].status.conditions;
            var first := w.store.deployments[k].conditions[0];
            && after != []
            && (before == [] ==> after[|after| - 1].kind == Reconciling)
            && (before != [] && first == Available ==> after[|after| - 1].kind == Available)
            && (before != [] && first == Progressing ==> after[|after| - 1].kind == Reconciling)
            && (before != [] && first == ReplicaFailure ==>
                after[|after| - 1].kind == Stalled && |after| == |before| + 1)
  {
    var now := QuietPassSyncs(kind, w, k);
    var d, log := w.store.deployments[k], w.store.nfs[k].status.conditions;
    var subject := if kind == SMF then "SMFDeployment" else "NFDeployment";
    SyncShows(subject, Status.Observation(d.generation, d.conditions), w.store.nfs[k].status, now);
  }

  lemma SyncShows(subject: string, seen: Status.Observation, status: NFStatus, now: nat)
    requires Status.WellFormed(status.conditions) && seen.conditions != []
    ensures var before, after := status.conditions, Status.Sync(subject, seen, status, now).conditions;
            && after != []
            && (before == [] ==> after[|after| - 1].kind == Reconciling)
            && (before != [] && seen.conditions[0] == Available ==> after[|after| - 1].kind == Available)
            && (before != [] && seen.conditions[0] == Progressing ==> after[|after| - 1].kind == Reconciling)
            && (before != [] && seen.conditions[0] == ReplicaFailure ==>
                  after[|after| - 1].kind == Stalled && |after| == |before| + 1)
  {
    var log := status.conditions;
    var more := Status.Appended(subject, seen, log, now);
    if more != [] {
      assert more == [more[0]] && (log + more)[|log + more| - 1] == more[0];
    }
  }
}

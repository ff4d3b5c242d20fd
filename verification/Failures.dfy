/** What passes do when calls fail, and when others interfere although none fails. */
module Failures {
  import opened Prelude
  import opened Objects
  import opened Server
  import opened Passes
  import opened Networks
  import opened Locals
  import opened Calm
  import Outcomes
  import Quiescence
  import Resources
  import Runs
  import SmfResources
  import Status

  // ---------- A write without effect ends the pass ----------

  /** The operator tries to write the Deployment. */
  predicate Attempts(act: Act) {
    (act.Made? || act.Changed? || act.NoEffect?) && act.what == DEP
  }

  /** No write in between was without effect, and none was to the Deployment. */
  ghost predicate Clean(w: World, w': World) {
    w.trace <= w'.trace && forall i :: |w.trace| <= i < |w'.trace| ==> IsClean(w'.trace[i].act)
  }

  predicate IsClean(act: Act) {
    !act.NoEffect? && !Attempts(act)
  }

  /**
   A write without effect comes last, and unless it concerns the Deployment the pass ends with an error. After an
   attempt to write the Deployment, which comes last too, it ends in one of the given ways.
   */
  ghost predicate EndsThere(w: World, w': World, outcome: Outcome, after: set<Outcome>) {
    && w.trace <= w'.trace
    && (forall i :: |w.trace| <= i < |w'.trace| - 1 ==> IsClean(w'.trace[i].act))
    && (|w.trace| < |w'.trace| ==> EndsIn(w'.trace[|w'.trace| - 1].act, outcome, after))
  }

  predicate EndsIn(act: Act, outcome: Outcome, after: set<Outcome>) {
    (act.NoEffect? && act.what != DEP ==> outcome == Errored) && (Attempts(act) ==> outcome in after)
  }

  lemma CleanThen(w: World, w1: World, w2: World)
    requires Clean(w, w1) && Clean(w1, w2)
    ensures Clean(w, w2)
  {
    forall i | |w.trace| <= i < |w2.trace| ensures IsClean(w2.trace[i].act) {
      assert i < |w1.trace| ==> w2.trace[i] == w1.trace[i];
    }
  }

  lemma CleanEnds(w: World, w': World, outcome: Outcome, after: set<Outcome>)
    requires Clean(w, w')
    ensures EndsThere(w, w', outcome, after)
  {
  }

  lemma CleanThenEnds(w: World, w1: World, w2: World, outcome: Outcome, after: set<Outcome>)
    requires Clean(w, w1) && EndsThere(w1, w2, outcome, after)
    ensures EndsThere(w, w2, outcome, after)
  {
    forall i | |w.trace| <= i < |w2.trace| - 1 ensures IsClean(w2.trace[i].act) {
      assert i < |w1.trace| ==> w2.trace[i] == w1.trace[i];
    }
    if |w1.trace| == |w2.trace| && |w.trace| < |w2.trace| {
      assert w2.trace[|w2.trace| - 1] == w1.trace[|w2.trace| - 1];
    }
  }

  lemma ArriveClean(w: World)
    ensures Clean(w, Arrive(w))
  {
    var a := Arrive(w);
    Runs.DisturbActs(w, Upcoming(w).before, |w.trace|);
    forall i | |w.trace| <= i < |a.trace| ensures IsClean(a.trace[i].act) {
      Runs.DisturbActs(w, Upcoming(w).before, i);
    }
  }

  lemma FinishClean(w: World, store: Store, act: Act)
    requires IsClean(act)
    ensures Clean(w, Finish(Arrive(w), store, act))
  {
    var a := Arrive(w);
    ArriveClean(w);
    assert Clean(a, Finish(a, store, act));
    CleanThen(w, a, Finish(a, store, act));
  }

  lemma ReadsClean(w: World, k: Key)
    ensures Clean(w, GetNF(w, k).0) && Clean(w, GetConfigMap(w, k).0) && Clean(w, GetService(w, k).0)
    ensures Clean(w, GetDeployment(w, k).0) && Clean(w, GetNad(w, k).0) && Clean(w, GetConfig(w, k).0)
  {
    var a := Arrive(w);
    forall what ensures Clean(w, Finish(a, a.store, Saw(what, k))) && Clean(w, Finish(a, a.store, Missed(what, k))) {
      FinishClean(w, a.store, Saw(what, k));
      FinishClean(w, a.store, Missed(what, k));
    }
  }

  lemma WriteEnds(w: World, effect: Option<Store>, done: Act, what: Resource, k: Key, outcome: Outcome,
      after: set<Outcome>)
    requires (done.Made? || done.Changed?) && done.what == what
    ensures var (w', ok) := Write(Arrive(w), effect, done, what, k);
            && (ok && what != DEP ==> Clean(w, w'))
            && ((if what == DEP then outcome in after else outcome == Errored) ==> EndsThere(w, w', outcome, after))
  {
    var a := Arrive(w);
    ArriveClean(w);
    var act := if effect.None? || Upcoming(a).fault == Refused then NoEffect(what, k) else done;
    var store := if effect.None? || Upcoming(a).fault == Refused then a.store else effect.value;
    if if what == DEP then outcome in after else outcome == Errored {
      assert EndsThere(a, Finish(a, store, act), outcome, after);
      CleanThenEnds(w, a, Finish(a, store, act), outcome, after);
    }
    if IsClean(act) {
      FinishClean(w, store, act);
    }
  }

  lemma ObserveClean(kind: Kind, w: World, k: Key, nf: NFDeployment)
    ensures Clean(w, Observe(kind, w, k, nf).0)
  {
    var w1 := GetConfigMap(w, k).0;
    var w2 := if kind == UPF then w1 else GetService(w1, k).0;
    ReadsClean(w, k);
    ReadsClean(w1, k);
    ReadsClean(w2, k);
    if kind != UPF {
      CleanThen(w, w1, w2);
    }
    CleanThen(w, w2, GetDeployment(w2, k).0);
  }

  lemma {:induction false} FindNadsClean(w: World, namespace: string, networks: seq<Network>)
    ensures Clean(w, FindNads(w, namespace, networks).0)
    decreases |networks|
  {
    if networks != [] {
      var key := Key(namespace, networks[0].name);
      var w1 := GetNad(w, key).0;
      ReadsClean(w, key);
      FindNadsClean(w1, namespace, networks[1..]);
      CleanThen(w, w1, FindNads(w1, namespace, networks[1..]).0);
    }
  }

  lemma {:induction false} FetchClean(w: World, namespace: string, names: seq<string>, kept: seq<ConfigRef>)
    ensures Clean(w, FetchRefs(w, namespace, names, kept).0)
    decreases |names|
  {
    if names != [] {
      var key := Key(namespace, names[0]);
      var (w1, payload) := GetConfig(w, key);
      ReadsClean(w, key);
      if payload.Some? {
        var kept' := SmfResources.AddRef(kept, ConfigRef(key, payload.value));
        FetchClean(w1, namespace, names[1..], kept');
        CleanThen(w, w1, FetchRefs(w1, namespace, names[1..], kept').0);
      }
    }
  }

  lemma ValidateClean(w: World, namespace: string, annotation: Option<string>)
    ensures Clean(w, Validate(w, namespace, annotation).0)
  {
    if annotation.Some? && Unmarshal(annotation.value).Some? {
      FindNadsClean(w, namespace, Unmarshal(annotation.value).value);
    }
  }

  lemma UpdateEnds(w: World, k: Key, template: Template, owned: bool, expected: Option<nat>, outcome: Outcome,
      after: set<Outcome>)
    requires outcome in after
    ensures EndsThere(w, UpdateDeployment(w, k, template, owned, expected).0, outcome, after)
  {
    var a := Arrive(w);
    var effect := UpdateEffect(a.store, k, template, owned, expected);
    WriteEnds(w, effect, Changed(DEP, k), DEP, k, outcome, after);
  }

  /** How a pass ends after it tried to write the Deployment in its last stage: a failure is only logged. */
  function Logged(seen: Snapshot): set<Outcome> {
    if seen.deployment.None? then {RequeueAfter(30)} else {Finished}
  }

  lemma DeployEnds(kind: Kind, w: World, k: Key, seen: Snapshot, version: Version)
    ensures var (w', outcome) := Deploy(kind, w, k, seen, version); EndsThere(w, w', outcome, Logged(seen))
  {
    var desired := Resources.Desired(kind, version, k.name, seen.nf.spec);
    if desired.Built? {
      var template := desired.value;
      if seen.deployment.None? {
        ValidateClean(w, k.namespace, template.annotations.networks);
        var (w1, ok) := Validate(w, k.namespace, template.annotations.networks);
        CleanEnds(w, w1, RequeueAfter(10), Logged(seen));
        if ok {
          var a := Arrive(w1);
          WriteEnds(w1, if k in a.store.deployments then None else Some(AddDeployment(a.store, k, template)),
                    Made(DEP, k), DEP, k, RequeueAfter(30), Logged(seen));
          CleanThenEnds(w, w1, CreateDeployment(w1, k, template).0, RequeueAfter(30), Logged(seen));
        }
      } else if kind != AMF {
        UpdateEnds(w, k, template, false, None, Finished, Logged(seen));
      }
    }
  }

  lemma EnsureServiceEnds(kind: Kind, w: World, k: Key, seen: Snapshot, version: Version)
    ensures var (w', outcome) := EnsureService(kind, w, k, seen, version); EndsThere(w, w', outcome, Logged(seen))
  {
    if kind == UPF || seen.service {
      DeployEnds(kind, w, k, seen, version);
    } else {
      var (w1, ok) := CreateService(w, k);
      var a := Arrive(w);
      WriteEnds(w, if k in a.store.services then None else Some(AddService(a.store, k, true)), Made(SVC, k), SVC, k,
                Errored, Logged(seen));
      if ok {
        DeployEnds(kind, w1, k, seen, version);
        var (w2, outcome) := Deploy(kind, w1, k, seen, version);
        CleanThenEnds(w, w1, w2, outcome, Logged(seen));
      }
    }
  }

  lemma CreateEnds(w: World, k: Key, data: ConfigData, after: set<Outcome>)
    ensures var (w', version) := CreateConfigMap(w, k, data);
            EndsThere(w, w', Errored, after) && (version.Some? ==> Clean(w, w'))
  {
    var a := Arrive(w);
    WriteEnds(w, if k in a.store.configMaps then None
        else Some(AddConfigMap(a.store, k, data, true)), Made(CM, k), CM, k,
              Errored, after);
  }

  lemma EnsureConfigMapEnds(kind: Kind, w: World, k: Key, seen: Snapshot, refs: seq<ConfigRef>)
    ensures var (w', outcome) := EnsureConfigMap(kind, w, k, seen, refs); EndsThere(w, w', outcome, Logged(seen))
  {
    var built := Resources.ConfigMapData(kind, k.name, seen.nf.spec, refs);
    if built.Built? {
      if seen.configMap.Some? {
        EnsureServiceEnds(kind, w, k, seen, seen.Version());
      } else {
        var (w1, version) := CreateConfigMap(w, k, built.value);
        CreateEnds(w, k, built.value, Logged(seen));
        if version.Some? {
          EnsureServiceEnds(kind, w1, k, seen, version.value);
          var (w2, outcome) := EnsureService(kind, w1, k, seen, version.value);
          CleanThenEnds(w, w1, w2, outcome, Logged(seen));
        }
      }
    }
  }

  lemma BuildUpEnds(kind: Kind, w: World, k: Key, seen: Snapshot)
    ensures var (w', outcome) := BuildUp(kind, w, k, seen); EndsThere(w, w', outcome, Logged(seen))
  {
    if kind == SMF {
      var names := seen.nf.spec.parametersRefs;
      FetchClean(w, k.namespace, names, []);
      var (w1, refs) := FetchRefs(w, k.namespace, names, []);
      CleanEnds(w, w1, Errored, Logged(seen));
      if refs.Some? {
        EnsureConfigMapEnds(kind, w1, k, seen, refs.value);
        var (w2, outcome) := EnsureConfigMap(kind, w1, k, seen, refs.value);
        CleanThenEnds(w, w1, w2, outcome, Logged(seen));
      }
    } else {
      EnsureConfigMapEnds(kind, w, k, seen, []);
    }
  }

  /** How a pass ends after it tried to write the Deployment: only the failure to roll the pods is an error. */
  function After(seen: Snapshot): set<Outcome> {
    if seen.deployment.Some? && seen.deployment.value.template.annotations.ConfigMapVersion() != seen.Version()
    then {Requeue, Errored} else Logged(seen)
  }

  lemma AfterSyncEnds(kind: Kind, w: World, k: Key, seen: Snapshot)
    requires seen.deployment.Some?
    ensures var (w', outcome) :=
            AfterSync(kind, w, k, seen, seen.deployment.value); EndsThere(w, w', outcome, After(seen))
  {
    var d := seen.deployment.value;
    if d.template.annotations.ConfigMapVersion() == seen.Version() {
      BuildUpEnds(kind, w, k, seen);
    } else if !d.template.annotations.IsNil() {
      var (w', outcome) := AfterSync(kind, w, k, seen, d);
      UpdateEnds(w, k, WithVersion(d.template, seen.Version()), d.owned, Some(d.version), outcome, After(seen));
    }
  }

  lemma SyncEnds(kind: Kind, w: World, k: Key, nf: NFDeployment, d: Deployment, after: set<Outcome>)
    ensures var (w', ok) := SyncStatus(kind, w, k, nf, d);
            EndsThere(w, w', Errored, after) && (ok ==> Clean(w, w'))
  {
    var seen := Status.Observation(d.generation, d.conditions);
    if Status.WantsUpdate(seen, nf.status.conditions) {
      var status, a := Status.NextStatus(Subject(kind), seen, nf.status, w.store.clock), Arrive(w);
      var effect := if k !in a.store.nfs
          || nf.version != a.store.nfs[k].version then None else Some(WriteStatus(a.store, k, status));
      WriteEnds(w, effect, Changed(NF, k), NF, k, Errored, after);
    }
  }

  lemma MaintainEnds(kind: Kind, w: World, k: Key, seen: Snapshot)
    requires seen.deployment.Some?
    ensures var (w', outcome) :=
            Maintain(kind, w, k, seen, seen.deployment.value); EndsThere(w, w', outcome, After(seen))
  {
    var d := seen.deployment.value;
    if d.deleting {
      AfterSyncEnds(kind, w, k, seen);
    } else {
      SyncEnds(kind, w, k, seen.nf, d, After(seen));
      var (w1, ok) := SyncStatus(kind, w, k, seen.nf, d);
      if ok {
        AfterSyncEnds(kind, w1, k, seen);
        var (w2, outcome) := AfterSync(kind, w1, k, seen, d);
        CleanThenEnds(w, w1, w2, outcome, After(seen));
      }
    }
  }

  lemma FoundEnds(kind: Kind, w: World, k: Key, seen: Snapshot)
    ensures var (w', outcome) := if seen.deployment.Some? then Maintain(kind, w, k, seen, seen.deployment.value)
                                 else BuildUp(kind, w, k, seen);
            EndsThere(w, w', outcome, After(seen))
  {
    if seen.deployment.Some? {
      MaintainEnds(kind, w, k, seen);
    } else {
      BuildUpEnds(kind, w, k, seen);
    }
  }

  /**
   Whatever is disturbed, a write without effect is the last thing a pass does: nothing is built on it. If it was to
   the status, the ConfigMap or the Service, the pass ends with an error. Creating or replacing the Deployment is the
   last thing too, and its failure is only logged: the pass ends as if it had succeeded. Failing to roll is an error.
   */
  lemma FailedWriteEndsPass(kind: Kind, w: World, k: Key)
    ensures GetNF(w, k).1.Found? ==>
              var (w', outcome) := Reconcile(kind, w, k);
              EndsThere(w, w', outcome, After(Observe(kind, GetNF(w, k).0, k, GetNF(w, k).1.nf).1))
    ensures !GetNF(w, k).1.Found? ==> Clean(w, Reconcile(kind, w, k).0)
  {
    var (w1, got) := GetNF(w, k);
    ReadsClean(w, k);
    if got.Found? {
      var (w2, seen) := Observe(kind, w1, k, got.nf);
      ObserveClean(kind, w1, k, got.nf);
      CleanThen(w, w1, w2);
      FoundEnds(kind, w2, k, seen);
      CleanThenEnds(w, w2, Reconcile(kind, w, k).0, Reconcile(kind, w, k).1, After(seen));
    }
  }

  // ---------- When no call fails, whatever others do ----------

  predicate Faultless(schedule: seq<Call>) {
    forall i :: 0 <= i < |schedule| ==> schedule[i].fault == NoFault
  }

  lemma FaultlessGoesOn(w: World, store: Store, act: Act)
    requires Faultless(w.schedule)
    ensures Upcoming(w).fault == NoFault && Faultless(Finish(Arrive(w), store, act).schedule)
  {
  }

  lemma FaultlessReads(w: World, k: Key)
    requires Faultless(w.schedule)
    ensures Faultless(GetNF(w, k).0.schedule) && Faultless(GetConfigMap(w, k).0.schedule)
    ensures Faultless(GetService(w, k).0.schedule) && Faultless(GetDeployment(w, k).0.schedule)
    ensures Faultless(GetConfig(w, k).0.schedule)
  {
  }

  lemma {:induction false} FaultlessFetch(w: World, namespace: string, names: seq<string>, kept: seq<ConfigRef>)
    requires Faultless(w.schedule)
    ensures Faultless(FetchRefs(w, namespace, names, kept).0.schedule)
    decreases |names|
  {
    if names != [] {
      var key := Key(namespace, names[0]);
      var (w1, payload) := GetConfig(w, key);
      FaultlessReads(w, key);
      if payload.Some? {
        FaultlessFetch(w1, namespace, names[1..], SmfResources.AddRef(kept, ConfigRef(key, payload.value)));
      }
    }
  }

  /** If the Deployment is there, it is the desired one for this spec and some ConfigMap version, without an owner. */
  ghost predicate ReplacedFor(kind: Kind, s: Store, k: Key, spec: Spec) {
    k in s.deployments ==>
      !s.deployments[k].owned && exists version :: IsFor(kind, version, k, spec, s.deployments[k].template)
  }

  predicate IsFor(kind: Kind, version: Version, k: Key, spec: Spec, template: Template) {
    version != Empty && Resources.Desired(kind, version, k.name, spec) == Built(template)
  }

  lemma ReplaceIsFor(kind: Kind, s: Store, k: Key, version: Version, spec: Spec, template: Template)
    requires k in s.deployments && IsFor(kind, version, k, spec, template)
    ensures ReplacedFor(kind, WriteTemplate(s, k, template, false), k, spec)
  {
    var s' := WriteTemplate(s, k, template, false);
    assert s'.deployments[k].template == template && !s'.deployments[k].owned;
  }

  lemma DeployReplaces(kind: Kind, w: World, k: Key, seen: Snapshot, version: Version)
    requires kind != AMF && Faultless(w.schedule) && version != Empty && Deploy(kind, w, k, seen, version).1 == Finished
    ensures ReplacedFor(kind, Deploy(kind, w, k, seen, version).0.store, k, seen.nf.spec)
  {
    var template := Resources.Desired(kind, version, k.name, seen.nf.spec).value;
    var a := Arrive(w);
    FaultlessGoesOn(w, a.store, Changed(DEP, k));
    if k in a.store.deployments {
      ReplaceIsFor(kind, a.store, k, version, seen.nf.spec, template);
    }
  }

  lemma EnsureServiceReplaces(kind: Kind, w: World, k: Key, seen: Snapshot, version: Version)
    requires kind != AMF && Faultless(w.schedule) && version != Empty
             && EnsureService(kind, w, k, seen, version).1 == Finished
    ensures ReplacedFor(kind, EnsureService(kind, w, k, seen, version).0.store, k, seen.nf.spec)
  {
    if kind == UPF || seen.service {
      DeployReplaces(kind, w, k, seen, version);
    } else {
      FaultlessGoesOn(w, Arrive(w).store, NoEffect(SVC, k));
      DeployReplaces(kind, CreateService(w, k).0, k, seen, version);
    }
  }

  lemma EnsureConfigMapReplaces(kind: Kind, w: World, k: Key, seen: Snapshot, refs: seq<ConfigRef>)
    requires kind != AMF && Faultless(w.schedule) && EnsureConfigMap(kind, w, k, seen, refs).1 == Finished
    ensures ReplacedFor(kind, EnsureConfigMap(kind, w, k, seen, refs).0.store, k, seen.nf.spec)
  {
    var data := Resources.ConfigMapData(kind, k.name, seen.nf.spec, refs).value;
    if seen.configMap.Some? {
      EnsureServiceReplaces(kind, w, k, seen, seen.Version());
    } else {
      var (w1, version) := CreateConfigMap(w, k, data);
      FaultlessGoesOn(w, Arrive(w).store, NoEffect(CM, k));
      EnsureServiceReplaces(kind, w1, k, seen, version.value);
    }
  }

  lemma BuildUpReplaces(kind: Kind, w: World, k: Key, seen: Snapshot)
    requires kind != AMF && Faultless(w.schedule) && BuildUp(kind, w, k, seen).1 == Finished
    ensures ReplacedFor(kind, BuildUp(kind, w, k, seen).0.store, k, seen.nf.spec)
  {
    if kind == SMF {
      FaultlessFetch(w, k.namespace, seen.nf.spec.parametersRefs, []);
      var (w1, refs) := FetchRefs(w, k.namespace, seen.nf.spec.parametersRefs, []);
      EnsureConfigMapReplaces(kind, w1, k, seen, refs.value);
    } else {
      EnsureConfigMapReplaces(kind, w, k, seen, []);
    }
  }

  lemma MaintainReplaces(kind: Kind, w: World, k: Key, seen: Snapshot, d: Deployment)
    requires kind != AMF && Faultless(w.schedule) && Maintain(kind, w, k, seen, d).1 == Finished
    ensures ReplacedFor(kind, Maintain(kind, w, k, seen, d).0.store, k, seen.nf.spec)
  {
    var (w1, ok) := if d.deleting then (w, true) else SyncStatus(kind, w, k, seen.nf, d);
    FaultlessGoesOn(w, Arrive(w).store, NoEffect(NF, k));
    assert Faultless(w1.schedule);
    BuildUpReplaces(kind, w1, k, seen);
  }

  lemma FaultlessObserve(kind: Kind, w: World, k: Key, nf: NFDeployment)
    requires Faultless(w.schedule)
    ensures Faultless(Observe(kind, w, k, nf).0.schedule)
  {
    var w1 := GetConfigMap(w, k).0;
    var w2 := if kind == UPF then w1 else GetService(w1, k).0;
    FaultlessReads(w, k);
    FaultlessReads(w1, k);
    FaultlessReads(w2, k);
  }

  /**
   The last update replaces blindly: when a UPF or SMF pass whose calls all succeed finishes, then whatever others did
   during it, a Deployment that is still there is the desired one for the NFDeployment this pass read.
   */
  lemma FaultlessPassReplaces(kind: Kind, w: World, k: Key)
    requires kind != AMF && Faultless(w.schedule)
    requires GetNF(w, k).1.Found? && Reconcile(kind, w, k).1 == Finished
    ensures ReplacedFor(kind, Reconcile(kind, w, k).0.store, k, GetNF(w, k).1.nf.spec)
  {
    var (w1, got) := GetNF(w, k);
    var (w2, seen) := Observe(kind, w1, k, got.nf);
    FaultlessReads(w, k);
    FaultlessObserve(kind, w1, k, got.nf);
    if seen.deployment.Some? {
      MaintainReplaces(kind, w2, k, seen, seen.deployment.value);
    } else {
      BuildUpReplaces(kind, w2, k, seen);
    }
  }

  // ---------- A failed read counts as absence ----------

  /**
   When only the read of the ConfigMap fails, the ConfigMap counts as missing: the pass empties the version annotation
   of a Deployment that carries one, rolling its pods, and asks to be repeated, although the ConfigMap never changed.
   */
  lemma FailedReadRollsPods(kind: Kind, w: World, k: Key)
    requires w.schedule == [Call([], NoFault), Call([], Refused)]
    requires k in w.store.nfs && k in w.store.configMaps && k in w.store.deployments
    requires Outcomes.AnnotatedVersion(w.store, k) != Empty && !Outcomes.NoAnnotations(w.store, k)
    ensures var (w', outcome) := Reconcile(kind, w, k);
            && outcome == Requeue && k in w'.store.configMaps && w'.store.configMaps[k] == w.store.configMaps[k]
            && k in w'.store.deployments && Outcomes.AnnotatedVersion(w'.store, k) == Empty
  {
    var w1 := GetNF(w, k).0;
    assert w1.store == w.store && w1.schedule == [Call([], Refused)];
    var w2 := GetConfigMap(w1, k).0;
    assert w2.store == w.store && w2.schedule == [] && GetConfigMap(w1, k).1.None?;
    ObserveWithout(kind, w1, w2, k);
    var (w3, seen) := Observe(kind, w1, k, w.store.nfs[k]);
    var d := w.store.deployments[k];
    RollWithout(kind, w3, k, seen);
  }

  lemma ObserveWithout(kind: Kind, w1: World, w2: World, k: Key)
    requires k in w1.store.nfs && k in w1.store.deployments
    requires GetConfigMap(w1, k) == (w2, None) && w2.store == w1.store && w2.schedule == []
    ensures var (w3, seen) := Observe(kind, w1, k, w1.store.nfs[k]);
            && w3.schedule == [] && w3.store == w1.store && seen.configMap.None?
            && seen.nf == w1.store.nfs[k] && seen.deployment == Some(w1.store.deployments[k])
  {
  }

  lemma RollWithout(kind: Kind, w: World, k: Key, seen: Snapshot)
    requires w.schedule == [] && k in w.store.nfs && k in w.store.configMaps && k in w.store.deployments
    requires seen.configMap.None? && seen.nf == w.store.nfs[k] && seen.deployment == Some(w.store.deployments[k])
    requires Outcomes.AnnotatedVersion(w.store, k) != Empty && !Outcomes.NoAnnotations(w.store, k)
    ensures var (w', outcome) := Maintain(kind, w, k, seen, seen.deployment.value);
            && outcome == Requeue && k in w'.store.configMaps && w'.store.configMaps[k] == w.store.configMaps[k]
            && k in w'.store.deployments && Outcomes.AnnotatedVersion(w'.store, k) == Empty
  {
    var d := w.store.deployments[k];
    var w1 := w;
    if !d.deleting {
      var m := CalmSync(kind, w, k, Moment(0, 1, 1, 1, 1), 0);
      w1 := SyncStatus(kind, w, k, seen.nf, d).0;
    }
    assert w1.schedule == [] && At(w1.store, k).deployment == At(w.store, k).deployment;
    assert At(w1.store, k).configMap == At(w.store, k).configMap;
    Quiescence.FoundAt(w1.store, k);
    var version := CalmUpdate(w1, k, WithVersion(d.template, Empty), d.owned, Some(d.version));
    Quiescence.FoundAt(UpdateDeployment(w1, k, WithVersion(d.template, Empty), d.owned, Some(d.version)).0.store, k);
  }
}

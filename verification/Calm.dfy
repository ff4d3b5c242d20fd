/**
 A pass that nothing disturbs, as a function of the objects under its name. Time may pass during it and objects
 elsewhere may be written; its calls succeed, and nobody else touches what it reads.
 */
module Calm {
  import opened Prelude
  import opened Objects
  import opened Server
  import opened Passes
  import opened Locals
  import opened Networks
  import References
  import Resources
  import SmfResources
  import Status

  // ---------- The pass, in closed form ----------

  /** When a pass computes the status, and the versions its writes get. */
  datatype Moment = Moment(now: nat, status: nat, configMap: nat, service: nat, deployment: nat)

  predicate Above(m: Moment, base: nat) {
    m.status > base && m.configMap > base && m.service > base && m.deployment > base
  }

  function VersionOf(l: Local): Version {
    if l.configMap.Some? then Rev(l.configMap.value.version) else Empty
  }

  function Seen(d: Deployment): Status.Observation {
    Status.Observation(d.generation, d.conditions)
  }

  function Synced(kind: Kind, m: Moment, l: Local): Local
    requires l.nf.Some? && l.deployment.Some?
  {
    var nf, d := l.nf.value, l.deployment.value;
    if d.deleting || !Status.WantsUpdate(Seen(d), nf.status.conditions) then l
    else SetStatus(l, Status.NextStatus(Subject(kind), Seen(d), nf.status, m.now), m.status)
  }

  function Rolled(l: Local, version: nat): Local
    requires l.deployment.Some?
  {
    Replace(l, WithVersion(l.deployment.value.template, VersionOf(l)), l.deployment.value.owned, version)
  }

  function Data(kind: Kind, around: Surroundings, k: Key, spec: Spec): Build<ConfigData> {
    var refs := if kind == SMF then References.Resolve(around.configs, k.namespace, spec.parametersRefs, [])
        else Some([]);
    if refs.None? then Rejected(BadConfigRef) else Resources.ConfigMapData(kind, k.name, spec, refs.value)
  }

  predicate AllFound(nads: set<Key>, namespace: string, networks: seq<Network>) {
    forall n :: n in networks ==> Key(namespace, n.name) in nads
  }

  predicate Admits(around: Surroundings, namespace: string, annotation: Option<string>) {
    annotation.Some? && Unmarshal(annotation.value).Some?
        && AllFound(around.nads, namespace, Unmarshal(annotation.value).value)
  }

  /** Everything a pass derives from a spec and the surroundings; `template` has the version left empty. */
  datatype Plan = Plan(kind: Kind, data: Build<ConfigData>, template: Build<Template>, admitted: bool)

  function PlanOf(kind: Kind, around: Surroundings, k: Key, spec: Spec): Plan {
    var template := Resources.Desired(kind, Empty, k.name, spec);
    Plan(kind, Data(kind, around, k, spec), template,
         template.Built? && Admits(around, k.namespace, template.value.annotations.networks))
  }

  /** The last stage, with the ConfigMap and the Service in place. */
  function Placed(plan: Plan, m: Moment, l: Local): (Local, Outcome) {
    if !plan.template.Built? then (l, Errored) else
    var template := WithVersion(plan.template.value, VersionOf(l));
    if l.deployment.None? then
      if plan.admitted then (GainDeployment(l, template, m.deployment), RequeueAfter(30)) else (l, RequeueAfter(10))
    else if plan.kind == AMF then (l, Finished)
    else (Replace(l, template, false, m.deployment), Finished)
  }

  function WithService(kind: Kind, m: Moment, l: Local): Local {
    if kind == UPF || l.service.Some? then l else GainService(l, m.service)
  }

  function Equipped(kind: Kind, m: Moment, l: Local, data: ConfigData): Local {
    WithService(kind, m, if l.configMap.Some? then l else GainConfigMap(l, data, m.configMap))
  }

  function BuiltUp(plan: Plan, m: Moment, l: Local): (Local, Outcome) {
    match plan.data
    case Rejected(_) => (l, Errored)
    case Crashed => (l, Panicked)
    case Built(data) => Placed(plan, m, Equipped(plan.kind, m, l, data))
  }

  predicate InStep(l: Local) {
    l.deployment.Some? ==> l.deployment.value.template.annotations.ConfigMapVersion() == VersionOf(l)
  }

  predicate CannotRoll(l: Local)
    requires l.deployment.Some?
  {
    l.deployment.value.template.annotations.IsNil()
  }

  /** What follows the status synchronisation of an existing Deployment. */
  function Continued(plan: Plan, m: Moment, l: Local): (Local, Outcome)
    requires l.deployment.Some?
  {
    if InStep(l) then BuiltUp(plan, m, l)
    else if CannotRoll(l) then (l, Panicked)
    else (Rolled(l, m.deployment), Requeue)
  }

  /** The pass for an NFDeployment that is there. */
  function Settle(plan: Plan, m: Moment, l: Local): (Local, Outcome)
    requires l.nf.Some?
  {
    if l.deployment.None? then BuiltUp(plan, m, l) else Continued(plan, m, Synced(plan.kind, m, l))
  }

  function Pass(kind: Kind, around: Surroundings, k: Key, m: Moment, l: Local): (Local, Outcome) {
    if l.nf.None? then (l, Finished) else Settle(PlanOf(kind, around, k, l.nf.value.spec), m, l)
  }

  /** The version is all that `Desired` takes from the ConfigMap. */
  lemma DesiredOfPlan(kind: Kind, around: Surroundings, k: Key, spec: Spec, version: Version)
    ensures var plan, desired := PlanOf(kind, around, k, spec), Resources.Desired(kind, version, k.name, spec);
            && (desired.Built? <==> plan.template.Built?)
            && (desired.Built? ==> desired.value == WithVersion(plan.template.value, version))
            && (desired.Built? ==> plan.admitted == Admits(around, k.namespace, desired.value.annotations.networks))
  {
  }

  // ---------- Undisturbed calls ----------

  predicate IsElsewhere(e: EnvStep) {
    e.Tick? || e.WriteElsewhere?
  }

  predicate AllElsewhere(steps: seq<EnvStep>) {
    forall e :: e in steps ==> IsElsewhere(e)
  }

  /** No call fails, and others only let time pass and write elsewhere. */
  predicate Undisturbed(schedule: seq<Call>) {
    forall i :: 0 <= i < |schedule| ==> schedule[i].fault == NoFault && AllElsewhere(schedule[i].before)
  }

  /** A later store with the same objects. */
  predicate Later(s: Store, s': Store) {
    s' == s.(clock := s'.clock, revision := s'.revision) && s.clock <= s'.clock && s.revision <= s'.revision
  }

  lemma {:induction false} ElsewhereIsLater(w: World, steps: seq<EnvStep>)
    requires AllElsewhere(steps)
    ensures Later(w.store, Disturb(w, steps).store)
    decreases |steps|
  {
    if steps != [] {
      assert IsElsewhere(steps[0]);
      var s := Apply(w.store, steps[0]);
      ElsewhereIsLater(w.(store := s, trace := w.trace + [Mark(Env(steps[0]), s)]), steps[1..]);
    }
  }

  lemma CalmArrive(w: World)
    requires Undisturbed(w.schedule)
    ensures Upcoming(w).fault == NoFault && Later(w.store, Arrive(w).store)
    ensures Undisturbed(if w.schedule == [] then [] else w.schedule[1..])
  {
    assert Upcoming(w).fault == NoFault && AllElsewhere(Upcoming(w).before);
    ElsewhereIsLater(w, Upcoming(w).before);
  }

  /** `w'` is `w` after an undisturbed stretch of a pass for `k` that leaves `l` under its name. */
  ghost predicate Leaves(w: World, w': World, k: Key, l: Local) {
    Undisturbed(w'.schedule) && OnlyAt(w.store, w'.store, k) && At(w'.store, k) == l
  }

  lemma LeavesThen(w: World, w1: World, w2: World, k: Key, l: Local, l': Local)
    requires Leaves(w, w1, k, l) && Leaves(w1, w2, k, l')
    ensures Leaves(w, w2, k, l')
  {
    forall q | q != k ensures At(w2.store, q) == At(w.store, q) {
      assert At(w1.store, q) == At(w.store, q);
    }
  }

  /** Reads see the objects and change none. */
  ghost predicate Reads(w: World, w': World) {
    Undisturbed(w'.schedule) && Later(w.store, w'.store)
  }

  lemma CalmReads(w: World, k: Key)
    requires Undisturbed(w.schedule)
    ensures var (w', got) := GetNF(w, k);
            Reads(w, w') && got == if k in w.store.nfs then Found(w.store.nfs[k]) else NotFound
    ensures var (w', configMap) := GetConfigMap(w, k); Reads(w, w') && configMap == At(w.store, k).configMap
    ensures var (w', service) := GetService(w, k); Reads(w, w') && service == At(w.store, k).service.Some?
    ensures var (w', deployment) := GetDeployment(w, k); Reads(w, w') && deployment == At(w.store, k).deployment
    ensures var (w', found) := GetNad(w, k); Reads(w, w') && found == (k in w.store.nads)
    ensures var (w', payload) := GetConfig(w, k); Reads(w, w') && payload == Lookup(w.store.configs, k)
  {
    CalmArrive(w);
  }

  lemma ReadsThen(w: World, w1: World, w2: World)
    requires Reads(w, w1) && Reads(w1, w2)
    ensures Reads(w, w2)
  {
  }

  /** Objects do not change while reading, so a stretch after reads is a stretch from before them. */
  lemma ReadsLeave(w: World, w1: World, w2: World, k: Key, l: Local)
    requires Reads(w, w1) && Leaves(w1, w2, k, l)
    ensures Leaves(w, w2, k, l)
  {
    forall q | q != k ensures At(w2.store, q) == At(w.store, q) {
      assert At(w1.store, q) == At(w.store, q);
    }
  }

  lemma CalmObserve(kind: Kind, w: World, k: Key, nf: NFDeployment)
    requires Undisturbed(w.schedule)
    ensures var (w', seen) := Observe(kind, w, k, nf);
            && Reads(w, w') && seen.nf == nf
            && seen.configMap == At(w.store, k).configMap && seen.deployment == At(w.store, k).deployment
            && (kind != UPF ==> seen.service == At(w.store, k).service.Some?)
  {
    CalmReads(w, k);
    var w1 := GetConfigMap(w, k).0;
    CalmReads(w1, k);
    var w2 := if kind == UPF then w1 else GetService(w1, k).0;
    CalmReads(w2, k);
  }

  // ---------- Undisturbed writes ----------

  lemma CalmSync(kind: Kind, w: World, k: Key, m: Moment, base: nat) returns (m': Moment)
    requires Undisturbed(w.schedule) && k in w.store.nfs && k in w.store.deployments && !w.store.deployments[k].deleting
    requires Above(m, base) && base <= w.store.revision
    ensures Above(m', base)
    ensures var (w', ok) := SyncStatus(kind, w, k, w.store.nfs[k], w.store.deployments[k]);
            && m' == m.(now := w.store.clock, status := m'.status)
            && ok && Leaves(w, w', k, Synced(kind, m', At(w.store, k)))
  {
    CalmArrive(w);
    var nf, d, a := w.store.nfs[k], w.store.deployments[k], Arrive(w);
    m' := m.(now := w.store.clock, status := Next(a.store));
    if Status.WantsUpdate(Seen(d), nf.status.conditions) {
      SetStatusAt(a.store, k, Status.NextStatus(Subject(kind), Seen(d), nf.status, w.store.clock));
    }
  }

  lemma CalmUpdate(w: World, k: Key, template: Template, owned: bool, expected: Option<nat>) returns (version: nat)
    requires Undisturbed(w.schedule) && k in w.store.deployments
    requires expected.Some? ==> expected.value == w.store.deployments[k].version
    ensures version > w.store.revision
    ensures var (w', ok) := UpdateDeployment(w, k, template, owned, expected);
            ok && Leaves(w, w', k, Replace(At(w.store, k), template, owned, version))
  {
    CalmArrive(w);
    version := Next(Arrive(w).store);
    ReplaceAt(Arrive(w).store, k, template, owned);
  }

  lemma CalmCreateConfigMap(w: World, k: Key, data: ConfigData) returns (version: nat)
    requires Undisturbed(w.schedule) && k !in w.store.configMaps
    ensures version > w.store.revision
    ensures var (w', got) := CreateConfigMap(w, k, data);
            got == Some(Rev(version)) && Leaves(w, w', k, GainConfigMap(At(w.store, k), data, version))
  {
    CalmArrive(w);
    version := Next(Arrive(w).store);
    GainConfigMapAt(Arrive(w).store, k, data);
  }

  lemma CalmCreateService(w: World, k: Key) returns (version: nat)
    requires Undisturbed(w.schedule) && k !in w.store.services
    ensures version > w.store.revision
    ensures var (w', ok) := CreateService(w, k);
            ok && Leaves(w, w', k, GainService(At(w.store, k), version))
  {
    CalmArrive(w);
    version := Next(Arrive(w).store);
    GainServiceAt(Arrive(w).store, k);
  }

  lemma CalmCreateDeployment(w: World, k: Key, template: Template) returns (version: nat)
    requires Undisturbed(w.schedule) && k !in w.store.deployments
    ensures version > w.store.revision
    ensures Leaves(w, CreateDeployment(w, k, template).0, k, GainDeployment(At(w.store, k), template, version))
  {
    CalmArrive(w);
    version := Next(Arrive(w).store);
    GainDeploymentAt(Arrive(w).store, k, template);
  }

  // ---------- Undisturbed stages ----------

  lemma {:induction false} CalmFindNads(w: World, namespace: string, networks: seq<Network>)
    requires Undisturbed(w.schedule)
    ensures var (w', ok) := FindNads(w, namespace, networks);
            Reads(w, w') && (ok <==> AllFound(w.store.nads, namespace, networks))
    decreases |networks|
  {
    if networks != [] {
      var key := Key(namespace, networks[0].name);
      var (w1, ok) := GetNad(w, key);
      CalmReads(w, key);
      if ok {
        CalmFindNads(w1, namespace, networks[1..]);
      }
    }
  }

  lemma {:induction false} CalmFetchRefs(w: World, namespace: string, names: seq<string>, kept: seq<ConfigRef>)
    requires Undisturbed(w.schedule)
    ensures var (w', refs) := FetchRefs(w, namespace, names, kept);
            Reads(w, w') && refs == References.Resolve(w.store.configs, namespace, names, kept)
    decreases |names|
  {
    if names != [] {
      var key := Key(namespace, names[0]);
      var (w1, payload) := GetConfig(w, key);
      CalmReads(w, key);
      if payload.Some? {
        CalmFetchRefs(w1, namespace, names[1..], SmfResources.AddRef(kept, ConfigRef(key, payload.value)));
      }
    }
  }

  lemma CalmValidate(w: World, namespace: string, annotation: Option<string>)
    requires Undisturbed(w.schedule)
    ensures var (w', ok) := Validate(w, namespace, annotation);
            Reads(w, w') && (ok <==> Admits(Around(w.store), namespace, annotation))
  {
    if annotation.Some? && Unmarshal(annotation.value).Some? {
      CalmFindNads(w, namespace, Unmarshal(annotation.value).value);
    }
  }

  lemma CalmGate(w: World, k: Key, template: Template) returns (version: nat)
    requires Undisturbed(w.schedule) && k !in w.store.deployments
    ensures version > w.store.revision
    ensures var (w', outcome) := CreateBehindGate(w, k, template);
            if Admits(Around(w.store), k.namespace, template.annotations.networks)
            then outcome == RequeueAfter(30) && Leaves(w, w', k, GainDeployment(At(w.store, k), template, version))
            else outcome == RequeueAfter(10) && Leaves(w, w', k, At(w.store, k))
  {
    CalmValidate(w, k.namespace, template.annotations.networks);
    var (w1, ok) := Validate(w, k.namespace, template.annotations.networks);
    version := Next(w.store);
    if ok {
      version := CalmCreateDeployment(w1, k, template);
      assert At(w1.store, k) == At(w.store, k);
      ReadsLeave(w, w1, CreateDeployment(w1, k, template).0, k, GainDeployment(At(w.store, k), template, version));
    }
  }

  /** A snapshot that agrees with the store on the objects the later stages look at. */
  ghost predicate Agrees(kind: Kind, w: World, k: Key, seen: Snapshot) {
    && Undisturbed(w.schedule) && At(w.store, k).nf.Some? && At(w.store, k).nf.value.spec == seen.nf.spec
    && (seen.deployment.Some? <==> At(w.store, k).deployment.Some?)
  }

  lemma CalmDeploy(kind: Kind, w: World, k: Key, seen: Snapshot, m: Moment, base: nat) returns (m': Moment)
    requires Agrees(kind, w, k, seen)
    requires Above(m, base) && base <= w.store.revision
    ensures Above(m', base)
    ensures m' == m.(deployment := m'.deployment)
    ensures var l := At(w.store, k);
            var (w', outcome) := Deploy(kind, w, k, seen, VersionOf(l));
            var (l', outcome') := Placed(PlanOf(kind, Around(w.store), k, seen.nf.spec), m', l);
            outcome == outcome' && Leaves(w, w', k, l')
  {
    var desired := Resources.Desired(kind, VersionOf(At(w.store, k)), k.name, seen.nf.spec);
    DesiredOfPlan(kind, Around(w.store), k, seen.nf.spec, VersionOf(At(w.store, k)));
    m' := m;
    if desired.Built? {
      if seen.deployment.None? {
        var version := CalmGate(w, k, desired.value);
        m' := m.(deployment := version);
      } else if kind != AMF {
        var version := CalmUpdate(w, k, desired.value, false, None);
        m' := m.(deployment := version);
      }
    }
  }

  lemma CalmEnsureService(kind: Kind, w: World, k: Key, seen: Snapshot, m: Moment, base: nat) returns (m': Moment)
    requires Agrees(kind, w, k, seen) && (kind != UPF ==> seen.service == At(w.store, k).service.Some?)
    requires Above(m, base) && base <= w.store.revision
    ensures Above(m', base)
    ensures m' == m.(service := m'.service, deployment := m'.deployment)
    ensures var l := At(w.store, k);
            var (w', outcome) := EnsureService(kind, w, k, seen, VersionOf(l));
            var (l', outcome') := Placed(PlanOf(kind, Around(w.store), k, seen.nf.spec), m', WithService(kind, m', l));
            outcome == outcome' && Leaves(w, w', k, l')
  {
    if kind == UPF || seen.service {
      m' := CalmDeploy(kind, w, k, seen, m, base);
    } else {
      var l, plan := At(w.store, k), PlanOf(kind, Around(w.store), k, seen.nf.spec);
      var w1 := CreateService(w, k).0;
      var version := CalmCreateService(w, k);
      m' := CalmDeploy(kind, w1, k, seen, m.(service := version), base);
      LeavesThen(w, w1, Deploy(kind, w1, k, seen, VersionOf(l)).0, k, GainService(l, version),
          Placed(plan, m', GainService(l, version)).0);
    }
  }

  lemma CalmEnsureConfigMap(kind: Kind, w: World, k: Key, seen: Snapshot, refs: seq<ConfigRef>, m: Moment, base: nat)
      returns (m': Moment)
    requires Agrees(kind, w, k, seen) && (kind != UPF ==> seen.service == At(w.store, k).service.Some?)
    requires seen.configMap == At(w.store, k).configMap
    requires Resources.ConfigMapData(kind, k.name, seen.nf.spec, refs).Built?
    requires Above(m, base) && base <= w.store.revision
    ensures Above(m', base)
    ensures m' == m.(configMap := m'.configMap, service := m'.service, deployment := m'.deployment)
    ensures var l := At(w.store, k);
            var (w', outcome) := EnsureConfigMap(kind, w, k, seen, refs);
            var data := Resources.ConfigMapData(kind, k.name, seen.nf.spec, refs).value;
            var (l', outcome') := Placed(PlanOf(kind, Around(w.store), k, seen.nf.spec), m',
                Equipped(kind, m', l, data));
            outcome == outcome' && Leaves(w, w', k, l')
  {
    var l, data := At(w.store, k), Resources.ConfigMapData(kind, k.name, seen.nf.spec, refs).value;
    if seen.configMap.Some? {
      m' := CalmEnsureService(kind, w, k, seen, m, base);
    } else {
      var (w1, got) := CreateConfigMap(w, k, data);
      var version := CalmCreateConfigMap(w, k, data);
      m' := CalmEnsureService(kind, w1, k, seen, m.(configMap := version), base);
      LeavesThen(w, w1, EnsureService(kind, w1, k, seen, got.value).0, k, GainConfigMap(l, data, version),
                 Placed(PlanOf(kind, Around(w.store), k, seen.nf.spec), m', Equipped(kind, m', l, data)).0);
    }
  }

  lemma CalmBuildUp(kind: Kind, w: World, k: Key, seen: Snapshot, m: Moment, base: nat) returns (m': Moment)
    requires Agrees(kind, w, k, seen) && (kind != UPF ==> seen.service == At(w.store, k).service.Some?)
    requires seen.configMap == At(w.store, k).configMap
    requires Above(m, base) && base <= w.store.revision
    ensures Above(m', base)
    ensures m' == m.(configMap := m'.configMap, service := m'.service, deployment := m'.deployment)
    ensures var (w', outcome) := BuildUp(kind, w, k, seen);
            var (l', outcome') := BuiltUp(PlanOf(kind, Around(w.store), k, seen.nf.spec), m', At(w.store, k));
            outcome == outcome' && Leaves(w, w', k, l')
  {
    var (w1, refs) := if kind == SMF then FetchRefs(w, k.namespace, seen.nf.spec.parametersRefs, []) else (w, Some([]));
    if kind == SMF {
      CalmFetchRefs(w, k.namespace, seen.nf.spec.parametersRefs, []);
    }
    assert Reads(w, w1) && At(w1.store, k) == At(w.store, k) && Around(w1.store) == Around(w.store);
    m' := m;
    if refs.Some? && Resources.ConfigMapData(kind, k.name, seen.nf.spec, refs.value).Built? {
      m' := CalmEnsureConfigMap(kind, w1, k, seen, refs.value, m, base);
      ReadsLeave(w, w1, BuildUp(kind, w, k, seen).0, k, At(BuildUp(kind, w, k, seen).0.store, k));
    }
  }

  lemma CalmAfterSync(kind: Kind, w: World, k: Key, seen: Snapshot, l: Local, m: Moment, base: nat) returns (m': Moment)
    requires Agrees(kind, w, k, seen) && (kind != UPF ==> seen.service == At(w.store, k).service.Some?)
    requires seen.configMap == At(w.store, k).configMap && seen.deployment == At(w.store, k).deployment
             && seen.deployment.Some?
    requires l == At(w.store, k)
    requires Above(m, base) && base <= w.store.revision
    ensures Above(m', base)
    ensures m' == m.(configMap := m'.configMap, service := m'.service, deployment := m'.deployment)
    ensures var (w', outcome) := AfterSync(kind, w, k, seen, seen.deployment.value);
            var (l', outcome') := Continued(PlanOf(kind, Around(w.store), k, seen.nf.spec), m', l);
            outcome == outcome' && Leaves(w, w', k, l')
  {
    var d := seen.deployment.value;
    m' := m;
    if InStep(l) {
      m' := CalmBuildUp(kind, w, k, seen, m, base);
    } else if !CannotRoll(l) {
      var version := CalmUpdate(w, k, WithVersion(d.template, seen.Version()), d.owned, Some(d.version));
      m' := m.(deployment := version);
    }
  }

  lemma CalmMaintain(kind: Kind, w: World, k: Key, seen: Snapshot, base: nat) returns (m: Moment)
    requires Undisturbed(w.schedule) && Some(seen.nf) == At(w.store, k).nf
    requires kind != UPF ==> seen.service == At(w.store, k).service.Some?
    requires seen.configMap == At(w.store, k).configMap && seen.deployment == At(w.store, k).deployment
             && seen.deployment.Some?
    requires base <= w.store.revision
    ensures m.now == w.store.clock && Above(m, base)
    ensures var (w', outcome) := Maintain(kind, w, k, seen, seen.deployment.value);
            var (l', outcome') := Settle(PlanOf(kind, Around(w.store), k, seen.nf.spec), m, At(w.store, k));
            outcome == outcome' && Leaves(w, w', k, l')
  {
    var l, d, plan := At(w.store, k), seen.deployment.value, PlanOf(kind, Around(w.store), k, seen.nf.spec);
    m := Moment(w.store.clock, base + 1, base + 1, base + 1, base + 1);
    if d.deleting {
      m := CalmAfterSync(kind, w, k, seen, l, m, base);
    } else {
      m := CalmSync(kind, w, k, m, base);
      var (w1, ok) := SyncStatus(kind, w, k, seen.nf, d);
      var l1 := Synced(kind, m, l);
      m := CalmAfterSync(kind, w1, k, seen, l1, m, base);
      LeavesThen(w, w1, AfterSync(kind, w1, k, seen, d).0, k, l1, Continued(plan, m, l1).0);
    }
  }

  /**
   An undisturbed pass does exactly what `Pass` says under its name, and nothing elsewhere, at a moment during the
   pass and with versions that nothing had before.
   */
  lemma CalmReconcile(kind: Kind, w: World, k: Key) returns (m: Moment)
    requires Undisturbed(w.schedule)
    ensures w.store.clock <= m.now <= Reconcile(kind, w, k).0.store.clock && Above(m, w.store.revision)
    ensures var (w', outcome) := Reconcile(kind, w, k);
            var (l', outcome') := Pass(kind, Around(w.store), k, m, At(w.store, k));
            outcome == outcome' && Leaves(w, w', k, l')
  {
    var (w1, got) := GetNF(w, k);
    CalmReads(w, k);
    var base := w.store.revision;
    m := Moment(w.store.clock, base + 1, base + 1, base + 1, base + 1);
    if got.Found? {
      var (w2, seen) := Observe(kind, w1, k, got.nf);
      CalmObserve(kind, w1, k, got.nf);
      ReadsThen(w, w1, w2);
      assert At(w2.store, k) == At(w.store, k) && Around(w2.store) == Around(w.store);
      if seen.deployment.None? {
        m := CalmBuildUp(kind, w2, k, seen, m, base);
      } else {
        m := CalmMaintain(kind, w2, k, seen, base);
      }
      ReadsLeave(w, w2, Reconcile(kind, w, k).0, k, At(Reconcile(kind, w, k).0.store, k));
    }
  }
}

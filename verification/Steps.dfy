/**
 What every single step of a reconcile pass does. A pass extends the trace; each new mark is a step of another
 writer, a read, a write without effect, or one of five writes whose content is justified by earlier marks.
 */
module Steps {
  import opened Prelude
  import opened Objects
  import opened Server
  import opened Passes
  import Annotations
  import Resources
  import References
  import Status

  type Trace = seq<Mark>

  /** Versions are handed out in order: none is ahead of the counter. */
  ghost predicate VersionsBounded(s: Store) {
    && (forall k :: k in s.nfs ==> s.nfs[k].version <= s.revision)
    && (forall k :: k in s.deployments ==> s.deployments[k].version <= s.revision)
    && (forall k :: k in s.configMaps ==> s.configMaps[k].version <= s.revision)
  }

  /** The trace ends in the current store. */
  ghost predicate ValidWorld(w: World) {
    && w.trace != [] && w.trace[|w.trace| - 1].store == w.store
    && VersionsBounded(w.store)
  }

  predicate Present(s: Store, what: Resource, k: Key) {
    match what
    case NF => k in s.nfs
    case CM => k in s.configMaps
    case SVC => k in s.services
    case DEP => k in s.deployments
    case NAD => k in s.nads
    case CFG => k in s.configs
  }

  // ---------- Facts about a pass that began at index `from` of the trace ----------

  /** The last successful read of this object is the one at `h`. */
  ghost predicate LastSaw(from: nat, tr: Trace, h: nat, what: Resource, k: Key) {
    from <= h < |tr| && tr[h].act == Saw(what, k) && forall m :: h < m < |tr| ==> tr[m].act != Saw(what, k)
  }

  ghost predicate SawNF(from: nat, tr: Trace, h: nat, k: Key, nf: NFDeployment) {
    LastSaw(from, tr, h, NF, k) && k in tr[h].store.nfs && tr[h].store.nfs[k] == nf
  }

  ghost predicate SawDeployment(from: nat, tr: Trace, h: nat, k: Key, d: Deployment) {
    LastSaw(from, tr, h, DEP, k) && k in tr[h].store.deployments && tr[h].store.deployments[k] == d
  }

  /** The pass found the object or created it. */
  ghost predicate Existed(from: nat, tr: Trace, what: Resource, k: Key) {
    exists j :: from <= j < |tr| && tr[j].act in {Saw(what, k), Made(what, k)} && Present(tr[j].store, what, k)
  }

  /** The pass found or created the ConfigMap at this version, or found none and takes the empty version. */
  ghost predicate VersionSeen(from: nat, tr: Trace, k: Key, version: Version) {
    exists j :: from <= j < |tr| && VersionAt(tr[j], k, version)
  }

  predicate VersionAt(mark: Mark, k: Key, version: Version) {
    if version == Empty then mark.act == Missed(CM, k)
    else mark.act in {Saw(CM, k), Made(CM, k)} && HasVersion(mark.store, k, version)
  }

  predicate HasVersion(s: Store, k: Key, version: Version) {
    k in s.configMaps && version == Rev(s.configMaps[k].version)
  }

  ghost predicate RefSeen(from: nat, tr: Trace, ref: ConfigRef) {
    exists j :: from <= j < |tr| && ReadsConfig(tr[j], ref)
  }

  predicate ReadsConfig(mark: Mark, ref: ConfigRef) {
    mark.act == Saw(CFG, ref.key) && ref.key in mark.store.configs && mark.store.configs[ref.key] == ref.payload
  }

  /** Each of these references was read by the pass, with this content. */
  ghost predicate RefsSeen(from: nat, tr: Trace, refs: seq<ConfigRef>) {
    forall i :: 0 <= i < |refs| ==> RefSeen(from, tr, refs[i])
  }

  predicate IsDeploymentWrite(act: Act, k: Key) {
    act == Made(DEP, k) || act == Changed(DEP, k)
  }

  ghost predicate NoDeploymentWrite(from: nat, tr: Trace, k: Key) {
    forall m :: from <= m < |tr| ==> !IsDeploymentWrite(tr[m].act, k)
  }

  /** Every attachment definition the spec needs was found, each at a moment of this pass. */
  ghost predicate NadsSeen(from: nat, tr: Trace, k: Key, names: set<string>) {
    forall name :: name in names ==> Existed(from, tr, NAD, Key(k.namespace, name))
  }

  // ---------- The step relation ----------

  /** A created ConfigMap holds what the spec read in this pass, with the Configs it refers to, is rendered to. */
  ghost predicate ConfigMapCreated(kind: Kind, k: Key, from: nat, past: Trace, s: Store, s': Store) {
    k !in s.configMaps && exists h: nat, nf, refs :: ConfigMapFrom(kind, k, from, past, s, s', h, nf, refs)
  }

  ghost predicate ConfigMapFrom(kind: Kind, k: Key, from: nat, past: Trace, s: Store, s': Store, h: nat,
      nf: NFDeployment, refs: seq<ConfigRef>) {
    && SawNF(from, past, h, k, nf)
    && References.AreReferences(kind, k.namespace, nf.spec, refs) && RefsSeen(from, past, refs)
    && var data := Resources.ConfigMapData(kind, k.name, nf.spec, refs);
       data.Built? && s' == AddConfigMap(s, k, data.value, true)
  }

  /**
   The creation gate: the ConfigMap, the Service (AMF and SMF) and every needed attachment definition were there,
   and the template is the desired one for the spec read in this pass and a ConfigMap version seen in it.
   */
  ghost predicate DeploymentCreated(kind: Kind, k: Key, from: nat, past: Trace, s: Store, s': Store) {
    && k !in s.deployments && NoDeploymentWrite(from, past, k)
    && Existed(from, past, CM, k) && (kind != UPF ==> Existed(from, past, SVC, k))
    && exists h: nat, nf, version :: DeploymentFrom(kind, k, from, past, s, s', h, nf, version)
  }

  ghost predicate DeploymentFrom(kind: Kind, k: Key, from: nat, past: Trace, s: Store, s': Store, h: nat,
      nf: NFDeployment, version: Version) {
    && SawNF(from, past, h, k, nf) && VersionSeen(from, past, k, version) && version != Empty
    && NadsSeen(from, past, k, Annotations.NeededNames(kind, k.name, nf.spec.interfaces))
    && var template := Resources.Desired(kind, version, k.name, nf.spec);
       template.Built? && s' == AddDeployment(s, k, template.value)
  }

  /** The pods are rolled: the Deployment changes in its version annotation only. */
  function Roll(s: Store, k: Key, version: Version): Store
    requires k in s.deployments
  {
    WriteTemplate(s, k, WithVersion(s.deployments[k].template, version), s.deployments[k].owned)
  }

  /** The Deployment becomes the desired one for a spec read in this pass, without an owner. */
  ghost predicate ReplacedFrom(kind: Kind, k: Key, from: nat, past: Trace, s: Store, s': Store, version: Version,
      h: nat, nf: NFDeployment) {
    && k in s.deployments && version != Empty && SawNF(from, past, h, k, nf)
    && var template := Resources.Desired(kind, version, k.name, nf.spec);
       template.Built? && s' == WriteTemplate(s, k, template.value, false)
  }

  ghost predicate Replaced(kind: Kind, k: Key, from: nat, past: Trace, s: Store, s': Store, version: Version) {
    exists h: nat, nf :: ReplacedFrom(kind, k, from, past, s, s', version, h, nf)
  }

  /** A changed Deployment is rolled, or (UPF and SMF only) replaced, with the ConfigMap version of this pass. */
  ghost predicate DeploymentChanged(kind: Kind, k: Key, from: nat, past: Trace, s: Store, s': Store) {
    && k in s.deployments && NoDeploymentWrite(from, past, k)
    && exists version :: ChangedTo(kind, k, from, past, s, s', version)
  }

  ghost predicate ChangedTo(kind: Kind, k: Key, from: nat, past: Trace, s: Store, s': Store, version: Version) {
    && k in s.deployments && VersionSeen(from, past, k, version)
    && (s' == Roll(s, k, version) || (kind != AMF && Replaced(kind, k, from, past, s, s', version)))
  }

  /** A written status follows the current one by exactly one synchronisation with a Deployment read in this pass. */
  ghost predicate StatusChanged(kind: Kind, k: Key, from: nat, past: Trace, s: Store, s': Store) {
    k in s.nfs && exists h: nat, h': nat, d, now :: StatusFrom(kind, k, from, past, s, s', h, h', d, now)
  }

  ghost predicate StatusFrom(kind: Kind, k: Key, from: nat, past: Trace, s: Store, s': Store, h: nat, h': nat,
      d: Deployment, now: nat) {
    && k in s.nfs && SawNF(from, past, h, k, s.nfs[k]) && SawDeployment(from, past, h', k, d) && h < h' && !d.deleting
    && past[h].store.clock <= now <= s.clock
    && var seen := Status.Observation(d.generation, d.conditions);
       Status.WantsUpdate(seen, s.nfs[k].status.conditions)
       && s' == WriteStatus(s, k, Status.NextStatus(Subject(kind), seen, s.nfs[k].status, now))
  }

  /** A mark that follows `past` as a legitimate step of a pass for `k` that began at index `from`. */
  ghost predicate Step(kind: Kind, k: Key, from: nat, past: Trace, mark: Mark) {
    past != [] &&
    var s, s' := past[|past| - 1].store, mark.store;
    match mark.act
    case Started => false
    case Env(e) => s' == Apply(s, e)
    case Saw(what, q) => s' == s && Present(s, what, q)
    case Missed(_, _) => s' == s
    case NoEffect(_, q) => s' == s && q == k
    case Made(CM, q) => q == k && ConfigMapCreated(kind, k, from, past, s, s')
    case Made(SVC, q) => q == k && kind != UPF && k !in s.services && s' == AddService(s, k, true)
    case Made(DEP, q) => q == k && DeploymentCreated(kind, k, from, past, s, s')
    case Changed(DEP, q) => q == k && DeploymentChanged(kind, k, from, past, s, s')
    case Changed(NF, q) => q == k && StatusChanged(kind, k, from, past, s, s')
    case _ => false
  }

  ghost predicate StepAt(kind: Kind, k: Key, from: nat, tr: Trace, i: int) {
    0 < i < |tr| && Step(kind, k, from, tr[..i], tr[i])
  }

  lemma PastEnds(tr: Trace, i: int)
    requires 0 < i < |tr|
    ensures |tr[..i]| == i && tr[..i] != [] && tr[..i][|tr[..i]| - 1] == tr[i - 1]
  {
  }

  ghost predicate Scheduled(e: EnvStep, schedule: seq<Call>) {
    exists c :: c in schedule && e in c.before
  }

  /** Other writers' steps between `w` and `w'` come from the schedule, of which a part may be left. */
  ghost predicate Drawn(w: World, w': World) {
    && (forall e :: Scheduled(e, w'.schedule) ==> Scheduled(e, w.schedule))
    && (forall i :: |w.trace| <= i < |w'.trace| && w'.trace[i].act.Env? ==> Scheduled(w'.trace[i].act.step, w.schedule))
  }

  lemma DrawnTransitive(w: World, w': World, w'': World)
    requires Drawn(w, w') && Drawn(w', w'') && w.trace <= w'.trace <= w''.trace
    ensures Drawn(w, w'')
  {
  }

  /** `w'` is reached from `w` by legitimate steps. */
  ghost predicate Ran(kind: Kind, k: Key, from: nat, w: World, w': World) {
    && ValidWorld(w) && ValidWorld(w') && Drawn(w, w')
    && w.trace <= w'.trace && w.store.clock <= w'.store.clock
    && forall i :: |w.trace| <= i < |w'.trace| ==> StepAt(kind, k, from, w'.trace, i)
  }

  lemma RanTransitive(kind: Kind, k: Key, from: nat, w: World, w': World, w'': World)
    requires Ran(kind, k, from, w, w') && Ran(kind, k, from, w', w'')
    ensures Ran(kind, k, from, w, w'')
  {
    DrawnTransitive(w, w', w'');
    forall i | |w.trace| <= i < |w''.trace| ensures StepAt(kind, k, from, w''.trace, i) {
      if i < |w'.trace| {
        assert w''.trace[..i] == w'.trace[..i] && StepAt(kind, k, from, w'.trace, i);
      }
    }
  }

  /** Under one name: the counter does not fall, and an object is unchanged, gone, or carries a new version. */
  predicate Advance(s: Store, s': Store, q: Key) {
    && s.revision <= s'.revision
    && (q in s'.nfs ==> (q in s.nfs && s'.nfs[q] == s.nfs[q]) || s.revision < s'.nfs[q].version <= s'.revision)
    && (q in s'.deployments ==> (q in s.deployments && s'.deployments[q] == s.deployments[q])
                                || s.revision < s'.deployments[q].version <= s'.revision)
    && (q in s'.configMaps ==> (q in s.configMaps && s'.configMaps[q] == s.configMaps[q])
                               || s.revision < s'.configMaps[q].version <= s'.revision)
  }

  lemma WriteTemplateAdvance(s: Store, k: Key, template: Template, owned: bool, q: Key)
    requires k in s.deployments
    ensures Advance(s, WriteTemplate(s, k, template, owned), q)
  {
  }

  lemma WriteStatusAdvance(s: Store, k: Key, status: NFStatus, q: Key)
    requires k in s.nfs
    ensures Advance(s, WriteStatus(s, k, status), q)
  {
  }

  lemma ApplyToNFAdvance(s: Store, e: EnvStep, q: Key)
    requires e.PutNF? || e.DeleteNF?
    ensures Advance(s, Apply(s, e), q)
  {
  }

  lemma ApplyToConfigMapAdvance(s: Store, e: EnvStep, q: Key)
    requires e.PutConfigMap? || e.DeleteConfigMap? || e.PutService? || e.DeleteService?
    ensures Advance(s, Apply(s, e), q)
  {
  }

  lemma ApplyToDeploymentAdvance(s: Store, e: EnvStep, q: Key)
    requires e.SetConditions? || e.StartDeletion? || e.DeleteDeployment?
    ensures Advance(s, Apply(s, e), q)
  {
  }

  lemma ApplyAdvance(s: Store, e: EnvStep, q: Key)
    ensures Advance(s, Apply(s, e), q)
  {
    if e.PutNF? || e.DeleteNF? {
      ApplyToNFAdvance(s, e, q);
    } else if e.PutConfigMap? || e.DeleteConfigMap? || e.PutService? || e.DeleteService? {
      ApplyToConfigMapAdvance(s, e, q);
    } else if e.SetConditions? || e.StartDeletion? || e.DeleteDeployment? {
      ApplyToDeploymentAdvance(s, e, q);
    } else if e.EditWorkload? && e.key in s.deployments {
      WriteTemplateAdvance(s, e.key, s.deployments[e.key].template.(image := e.image, large := e.large),
          s.deployments[e.key].owned, q);
    }
  }

  lemma ApplyClock(s: Store, e: EnvStep)
    ensures s.clock <= Apply(s, e).clock
  {
  }

  // ---------- The writes without their justification ----------

  lemma ConfigMapShape(kind: Kind, k: Key, from: nat, past: Trace, s: Store, s': Store) returns (data: ConfigData)
    requires ConfigMapCreated(kind, k, from, past, s, s')
    ensures s' == AddConfigMap(s, k, data, true)
  {
    var h: nat, nf, refs :| ConfigMapFrom(kind, k, from, past, s, s', h, nf, refs);
    data := Resources.ConfigMapData(kind, k.name, nf.spec, refs).value;
  }

  lemma DeploymentShape(kind: Kind, k: Key, from: nat, past: Trace, s: Store, s': Store) returns (template: Template)
    requires DeploymentCreated(kind, k, from, past, s, s')
    ensures s' == AddDeployment(s, k, template)
  {
    var h: nat, nf, version :| DeploymentFrom(kind, k, from, past, s, s', h, nf, version);
    template := Resources.Desired(kind, version, k.name, nf.spec).value;
  }

  lemma ReplacementShape(kind: Kind, k: Key, from: nat, past: Trace, s: Store, s': Store, version: Version)
      returns (template: Template)
    requires Replaced(kind, k, from, past, s, s', version)
    ensures k in s.deployments && s' == WriteTemplate(s, k, template, false)
  {
    var h: nat, nf :| ReplacedFrom(kind, k, from, past, s, s', version, h, nf);
    template := Resources.Desired(kind, version, k.name, nf.spec).value;
  }

  lemma ChangeShape(kind: Kind, k: Key, from: nat, past: Trace, s: Store, s': Store)
      returns (template: Template, owned: bool)
    requires DeploymentChanged(kind, k, from, past, s, s')
    ensures s' == WriteTemplate(s, k, template, owned)
  {
    var version :| ChangedTo(kind, k, from, past, s, s', version);
    if s' == Roll(s, k, version) {
      template, owned := WithVersion(s.deployments[k].template, version), s.deployments[k].owned;
    } else {
      template := ReplacementShape(kind, k, from, past, s, s', version);
      owned := false;
    }
  }

  lemma StatusShape(kind: Kind, k: Key, from: nat, past: Trace, s: Store, s': Store) returns (status: NFStatus)
    requires StatusChanged(kind, k, from, past, s, s')
    ensures s' == WriteStatus(s, k, status)
  {
    var h: nat, h': nat, d, now :| StatusFrom(kind, k, from, past, s, s', h, h', d, now);
    status := Status.NextStatus(Subject(kind), Status.Observation(d.generation, d.conditions), s.nfs[k].status, now);
  }

  lemma StepAdvance(kind: Kind, k: Key, from: nat, past: Trace, mark: Mark, q: Key)
    requires Step(kind, k, from, past, mark)
    ensures Advance(past[|past| - 1].store, mark.store, q)
  {
    var s, s' := past[|past| - 1].store, mark.store;
    match mark.act
    case Env(e) => ApplyAdvance(s, e, q);
    case Made(CM, _) =>
      var data := ConfigMapShape(kind, k, from, past, s, s');
    case Made(DEP, _) =>
      var template := DeploymentShape(kind, k, from, past, s, s');
    case Changed(DEP, _) =>
      var template, owned := ChangeShape(kind, k, from, past, s, s');
      WriteTemplateAdvance(s, k, template, owned, q);
    case Changed(NF, _) =>
      var status := StatusShape(kind, k, from, past, s, s');
      WriteStatusAdvance(s, k, status, q);
    case _ =>
  }

  lemma AdvanceBounded(s: Store, s': Store)
    requires VersionsBounded(s) && forall q :: Advance(s, s', q)
    ensures VersionsBounded(s')
  {
    forall k | k in s'.nfs ensures s'.nfs[k].version <= s'.revision {
      assert Advance(s, s', k);
    }
    forall k | k in s'.deployments ensures s'.deployments[k].version <= s'.revision {
      assert Advance(s, s', k);
    }
    forall k | k in s'.configMaps ensures s'.configMaps[k].version <= s'.revision {
      assert Advance(s, s', k);
    }
  }

  lemma StepBounded(kind: Kind, k: Key, from: nat, past: Trace, mark: Mark)
    requires Step(kind, k, from, past, mark) && VersionsBounded(past[|past| - 1].store)
    ensures VersionsBounded(mark.store)
  {
    var s, s' := past[|past| - 1].store, mark.store;
    forall q ensures Advance(s, s', q) {
      StepAdvance(kind, k, from, past, mark, q);
    }
    AdvanceBounded(s, s');
  }

  lemma StepClock(kind: Kind, k: Key, from: nat, past: Trace, mark: Mark)
    requires Step(kind, k, from, past, mark)
    ensures past[|past| - 1].store.clock <= mark.store.clock
  {
    var s, s' := past[|past| - 1].store, mark.store;
    match mark.act
    case Env(e) => ApplyClock(s, e);
    case Made(CM, _) =>
      var data := ConfigMapShape(kind, k, from, past, s, s');
    case Made(DEP, _) =>
      var template := DeploymentShape(kind, k, from, past, s, s');
    case Changed(DEP, _) =>
      var template, owned := ChangeShape(kind, k, from, past, s, s');
    case Changed(NF, _) =>
      var status := StatusShape(kind, k, from, past, s, s');
    case _ =>
  }

  lemma StepIsAt(kind: Kind, k: Key, from: nat, tr: Trace, mark: Mark)
    requires tr != [] && Step(kind, k, from, tr, mark)
    ensures StepAt(kind, k, from, tr + [mark], |tr|)
  {
    assert (tr + [mark])[..|tr|] == tr;
  }

  lemma OneStepDrawn(w: World, mark: Mark, w': World)
    requires w'.trace == w.trace + [mark]
    requires mark.act.Env? ==> Scheduled(mark.act.step, w.schedule)
    requires forall c :: c in w'.schedule ==> c in w.schedule
    ensures Drawn(w, w')
  {
    forall e | Scheduled(e, w'.schedule) ensures Scheduled(e, w.schedule) {
      var c :| c in w'.schedule && e in c.before;
    }
  }

  lemma OneStepRan(kind: Kind, k: Key, from: nat, w: World, mark: Mark, w': World)
    requires ValidWorld(w) && Step(kind, k, from, w.trace, mark)
    requires w'.store == mark.store && w'.trace == w.trace + [mark]
    requires mark.act.Env? ==> Scheduled(mark.act.step, w.schedule)
    requires forall c :: c in w'.schedule ==> c in w.schedule
    ensures Ran(kind, k, from, w, w')
  {
    OneStepDrawn(w, mark, w');
    StepIsAt(kind, k, from, w.trace, mark);
    StepBounded(kind, k, from, w.trace, mark);
    StepClock(kind, k, from, w.trace, mark);
  }

  // ---------- Calls ----------

  /** How much a stretch of a pass leaves alone: `Quietly` at a level means no act of that level or a lower one. */
  predicate Harmless(act: Act, k: Key, level: nat) {
    !IsDeploymentWrite(act, k) && (level >= 1 ==> act != Saw(NF, k)) && (level >= 2 ==> act != Saw(DEP, k))
  }

  ghost predicate Quietly(w: World, w': World, k: Key, level: nat) {
    w.trace <= w'.trace && forall i :: |w.trace| <= i < |w'.trace| ==> Harmless(w'.trace[i].act, k, level)
  }

  lemma QuietlyTransitive(w: World, w': World, w'': World, k: Key, level: nat)
    requires Quietly(w, w', k, level) && Quietly(w', w'', k, level)
    ensures Quietly(w, w'', k, level)
  {
    forall i | |w.trace| <= i < |w''.trace| ensures Harmless(w''.trace[i].act, k, level) {
      if i < |w'.trace| {
        assert w''.trace[i] == w'.trace[i];
      }
    }
  }

  lemma NoWriteQuietly(from: nat, w: World, w': World, k: Key, level: nat)
    requires NoDeploymentWrite(from, w.trace, k) && Quietly(w, w', k, level)
    ensures NoDeploymentWrite(from, w'.trace, k)
  {
    forall m | from <= m < |w'.trace| ensures !IsDeploymentWrite(w'.trace[m].act, k) {
      if m < |w.trace| {
        assert w'.trace[m] == w.trace[m];
      } else {
        assert Harmless(w'.trace[m].act, k, level);
      }
    }
  }

  lemma {:induction false} DisturbRan(kind: Kind, k: Key, from: nat, w: World, steps: seq<EnvStep>)
    requires ValidWorld(w) && forall e :: e in steps ==> Scheduled(e, w.schedule)
    ensures Ran(kind, k, from, w, Disturb(w, steps)) && Quietly(w, Disturb(w, steps), k, 2)
    decreases |steps|
  {
    if steps != [] {
      var mark := Mark(Env(steps[0]), Apply(w.store, steps[0]));
      var w1 := w.(store := mark.store, trace := w.trace + [mark]);
      OneStepRan(kind, k, from, w, mark, w1);
      DisturbRan(kind, k, from, w1, steps[1..]);
      RanTransitive(kind, k, from, w, w1, Disturb(w, steps));
      QuietlyTransitive(w, w1, Disturb(w, steps), k, 2);
    }
  }

  lemma ArriveRan(kind: Kind, k: Key, from: nat, w: World)
    requires ValidWorld(w)
    ensures Ran(kind, k, from, w, Arrive(w)) && Arrive(w).schedule == w.schedule && Quietly(w, Arrive(w), k, 2)
  {
    var before := Upcoming(w).before;
    forall e | e in before ensures Scheduled(e, w.schedule) {
      assert w.schedule[0] in w.schedule;
    }
    DisturbRan(kind, k, from, w, before);
  }

  lemma FinishRan(kind: Kind, k: Key, from: nat, a: World, store: Store, act: Act)
    requires ValidWorld(a) && Step(kind, k, from, a.trace, Mark(act, store)) && !act.Env?
    ensures Ran(kind, k, from, a, Finish(a, store, act))
  {
    OneStepRan(kind, k, from, a, Mark(act, store), Finish(a, store, act));
  }

  lemma FinishQuietly(a: World, store: Store, act: Act, k: Key, level: nat)
    requires Harmless(act, k, level)
    ensures Quietly(a, Finish(a, store, act), k, level)
  {
  }

  lemma LowerLevel(w: World, w': World, k: Key, level: nat)
    requires Quietly(w, w', k, 2) && level <= 2
    ensures Quietly(w, w', k, level)
  {
    forall i | |w.trace| <= i < |w'.trace| ensures Harmless(w'.trace[i].act, k, level) {
      assert Harmless(w'.trace[i].act, k, 2);
    }
  }

  /** A call: other writers act, then one mark is added. */
  lemma CallRan(kind: Kind, k: Key, from: nat, w: World, store: Store, act: Act, level: nat)
    requires ValidWorld(w) && !act.Env? && level <= 2 && Harmless(act, k, level)
    requires Step(kind, k, from, Arrive(w).trace, Mark(act, store))
    ensures var w' := Finish(Arrive(w), store, act);
            Ran(kind, k, from, w, w') && Quietly(w, w', k, level)
  {
    var a := Arrive(w);
    var w' := Finish(a, store, act);
    ArriveRan(kind, k, from, w);
    FinishRan(kind, k, from, a, store, act);
    RanTransitive(kind, k, from, w, a, w');
    LowerLevel(w, a, k, level);
    FinishQuietly(a, store, act, k, level);
    QuietlyTransitive(w, a, w', k, level);
  }

  /** Any read. What it disturbs depends on what it reads. */
  lemma ReadRan(kind: Kind, k: Key, from: nat, w: World, what: Resource, q: Key)
    requires ValidWorld(w) && from <= |w.trace|
    ensures var a := Arrive(w);
            var w' := Read(a, Present(a.store, what, q), what, q);
            var seen := Present(a.store, what, q) && Upcoming(w).fault == NoFault;
            && Ran(kind, k, from, w, w') && w'.store == a.store
            && Quietly(w, w', k, if what == NF then 0 else if what == DEP then 1 else 2)
            && |w'.trace| > |w.trace|
            && w'.trace[|w'.trace| - 1] == Mark(if seen then Saw(what, q) else Missed(what, q), a.store)
  {
    var a := Arrive(w);
    ArriveRan(kind, k, from, w);
    var seen := Present(a.store, what, q) && Upcoming(w).fault == NoFault;
    CallRan(kind, k, from, w, a.store, if seen then Saw(what, q) else Missed(what, q),
            if what == NF then 0 else if what == DEP then 1 else 2);
  }

  /** Any write of the operator, given what justifies it. */
  lemma WriteRan(kind: Kind, k: Key, from: nat, w: World, effect: Option<Store>, done: Act, what: Resource)
    requires ValidWorld(w) && from <= |w.trace| && (done.Made? || done.Changed?)
    requires effect.Some? ==> Step(kind, k, from, Arrive(w).trace, Mark(done, effect.value))
    ensures Ran(kind, k, from, w, Write(Arrive(w), effect, done, what, k).0)
    ensures !IsDeploymentWrite(done, k) ==> Quietly(w, Write(Arrive(w), effect, done, what, k).0, k, 2)
    ensures var (w', ok) := Write(Arrive(w), effect, done, what, k);
            ok ==> && effect.Some? && w'.store == effect.value && |w'.trace| > |w.trace|
                   && w'.trace[|w'.trace| - 1] == Mark(done, effect.value)
  {
    var a := Arrive(w);
    ArriveRan(kind, k, from, w);
    var act := if effect.None? || Upcoming(a).fault == Refused then NoEffect(what, k) else done;
    var store := if effect.None? || Upcoming(a).fault == Refused then a.store else effect.value;
    FinishRan(kind, k, from, a, store, act);
    RanTransitive(kind, k, from, w, a, Finish(a, store, act));
    if !IsDeploymentWrite(done, k) {
      FinishQuietly(a, store, act, k, 2);
      QuietlyTransitive(w, a, Finish(a, store, act), k, 2);
    }
  }

  // ---------- Facts persist as the trace grows ----------

  lemma ExistedPersists(from: nat, tr: Trace, tr': Trace, what: Resource, q: Key)
    requires tr <= tr' && Existed(from, tr, what, q)
    ensures Existed(from, tr', what, q)
  {
  }

  lemma NadsPersist(from: nat, tr: Trace, tr': Trace, k: Key, names: set<string>)
    requires tr <= tr' && NadsSeen(from, tr, k, names)
    ensures NadsSeen(from, tr', k, names)
  {
  }

  lemma VersionPersists(from: nat, tr: Trace, tr': Trace, k: Key, version: Version)
    requires tr <= tr' && VersionSeen(from, tr, k, version)
    ensures VersionSeen(from, tr', k, version)
  {
    var j :| from <= j < |tr| && VersionAt(tr[j], k, version);
    assert tr'[j] == tr[j];
  }

  lemma RefsPersist(from: nat, tr: Trace, tr': Trace, refs: seq<ConfigRef>)
    requires tr <= tr' && RefsSeen(from, tr, refs)
    ensures RefsSeen(from, tr', refs)
  {
    forall i | 0 <= i < |refs| ensures RefSeen(from, tr', refs[i]) {
      assert RefSeen(from, tr, refs[i]);
      var j :| from <= j < |tr| && ReadsConfig(tr[j], refs[i]);
      assert tr'[j] == tr[j];
    }
  }

  lemma LastSawPersists(from: nat, w: World, w': World, h: nat, what: Resource, k: Key, level: nat)
    requires LastSaw(from, w.trace, h, what, k) && Quietly(w, w', k, level)
    requires (what == NF && level >= 1) || (what == DEP && level >= 2)
    ensures LastSaw(from, w'.trace, h, what, k)
  {
    forall m | h < m < |w'.trace| ensures w'.trace[m].act != Saw(what, k) {
      if m < |w.trace| {
        assert w'.trace[m] == w.trace[m];
      } else {
        assert Harmless(w'.trace[m].act, k, level);
      }
    }
  }

  // ---------- Optimistic concurrency ----------

  /** An object whose version has not moved has not changed. */
  ghost predicate PinnedNF(s: Store, k: Key, nf: NFDeployment) {
    nf.version <= s.revision && (k in s.nfs && s.nfs[k].version == nf.version ==> s.nfs[k] == nf)
  }

  ghost predicate PinnedDeployment(s: Store, k: Key, d: Deployment) {
    d.version <= s.revision && (k in s.deployments && s.deployments[k].version == d.version ==> s.deployments[k] == d)
  }

  lemma StepAtAdvance(kind: Kind, k: Key, from: nat, tr: Trace, i: int, q: Key)
    requires StepAt(kind, k, from, tr, i)
    ensures 1 <= i && Advance(tr[i - 1].store, tr[i].store, q)
  {
    StepAdvance(kind, k, from, tr[..i], tr[i], q);
    assert |tr[..i]| == i && tr[..i][i - 1] == tr[i - 1];
  }

  lemma AdvancePinned(s: Store, s': Store, q: Key)
    requires Advance(s, s', q)
    ensures forall nf :: PinnedNF(s, q, nf) ==> PinnedNF(s', q, nf)
    ensures forall d :: PinnedDeployment(s, q, d) ==> PinnedDeployment(s', q, d)
  {
  }

  lemma {:induction false} RanPinned(kind: Kind, k: Key, from: nat, w: World, w': World, q: Key, i: nat)
    requires Ran(kind, k, from, w, w') && |w.trace| - 1 <= i < |w'.trace|
    ensures forall nf :: PinnedNF(w.store, q, nf) ==> PinnedNF(w'.trace[i].store, q, nf)
    ensures forall d :: PinnedDeployment(w.store, q, d) ==> PinnedDeployment(w'.trace[i].store, q, d)
  {
    if i == |w.trace| - 1 {
      assert w'.trace[i] == w.trace[i];
    } else {
      RanPinned(kind, k, from, w, w', q, i - 1);
      assert StepAt(kind, k, from, w'.trace, i);
      StepAtAdvance(kind, k, from, w'.trace, i, q);
      AdvancePinned(w'.trace[i - 1].store, w'.trace[i].store, q);
    }
  }
}

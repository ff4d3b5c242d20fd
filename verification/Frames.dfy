/** What a single step of a run can do to each object, and what it leaves alone. */
module Frames {
  import opened Objects
  import opened Server
  import opened Steps
  import opened Runs

  /** The same objects, under one name. */
  predicate SameAt(s: Store, s': Store, q: Key) {
    && (q in s.nfs <==> q in s'.nfs) && (q in s.nfs ==> s'.nfs[q] == s.nfs[q])
    && (q in s.configMaps <==> q in s'.configMaps) && (q in s.configMaps ==> s'.configMaps[q] == s.configMaps[q])
    && (q in s.services <==> q in s'.services) && (q in s.services ==> s'.services[q] == s.services[q])
    && (q in s.deployments <==> q in s'.deployments) && (q in s.deployments ==> s'.deployments[q] == s.deployments[q])
  }

  /**
   What the operator never does, under any name q: touch another name than its pass's; touch an attachment
   definition, a Config or a spec; create or delete an NFDeployment; delete anything; alter an existing
   ConfigMap or Service.
   */
  predicate OperatorFrame(k: Key, s: Store, s': Store, q: Key) {
    && s'.nads == s.nads && s'.configs == s.configs && s'.clock == s.clock
    && (q != k ==> SameAt(s, s', q))
    && (q in s.nfs <==> q in s'.nfs) && (q in s.nfs ==> s'.nfs[q].spec == s.nfs[q].spec)
    && (q in s.configMaps ==> q in s'.configMaps && s'.configMaps[q] == s.configMaps[q])
    && (q in s.services ==> q in s'.services && s'.services[q] == s.services[q])
    && (q in s.deployments ==> q in s'.deployments)
  }

  /** What the operator's writes to a Deployment leave alone under the very name. */
  predicate KeepsRest(s: Store, s': Store) {
    s'.nfs == s.nfs && s'.configMaps == s.configMaps && s'.services == s.services
  }

  lemma TemplateRest(k: Key, s: Store, template: Template, owned: bool)
    requires k in s.deployments
    ensures KeepsRest(s, WriteTemplate(s, k, template, owned))
  {
  }

  lemma TemplateElsewhere(k: Key, s: Store, template: Template, owned: bool, q: Key)
    requires k in s.deployments && q != k
    ensures SameAt(s, WriteTemplate(s, k, template, owned), q)
  {
  }

  lemma TemplateFrame(k: Key, s: Store, template: Template, owned: bool, q: Key)
    requires k in s.deployments
    ensures OperatorFrame(k, s, WriteTemplate(s, k, template, owned), q)
  {
    TemplateRest(k, s, template, owned);
    if q != k {
      TemplateElsewhere(k, s, template, owned, q);
    }
  }

  lemma StatusFrame(k: Key, s: Store, status: NFStatus, q: Key)
    requires k in s.nfs
    ensures OperatorFrame(k, s, WriteStatus(s, k, status), q)
    ensures WriteStatus(s, k, status).deployments == s.deployments
            && WriteStatus(s, k, status).configMaps == s.configMaps
  {
    var s' := WriteStatus(s, k, status);
    if s.nfs[k].status != status {
      assert s'.nfs == s.nfs[k := s.nfs[k].(status := status, version := Next(s))];
    }
  }

  lemma ConfigMapFrame(k: Key, s: Store, data: ConfigData, q: Key)
    requires k !in s.configMaps
    ensures OperatorFrame(k, s, AddConfigMap(s, k, data, true), q)
  {
  }

  lemma ServiceFrame(k: Key, s: Store, q: Key)
    requires k !in s.services
    ensures OperatorFrame(k, s, AddService(s, k, true), q)
  {
  }

  lemma DeploymentFrame(k: Key, s: Store, template: Template, q: Key)
    requires k !in s.deployments
    ensures OperatorFrame(k, s, AddDeployment(s, k, template), q)
  {
  }

  lemma DeploymentChangeFrame(kind: Kind, k: Key, from: nat, past: Trace, s: Store, s': Store, q: Key)
    requires DeploymentChanged(kind, k, from, past, s, s')
    ensures OperatorFrame(k, s, s', q) && KeepsRest(s, s')
  {
    var template, owned := ChangeShape(kind, k, from, past, s, s');
    TemplateFrame(k, s, template, owned, q);
    TemplateRest(k, s, template, owned);
  }

  lemma StatusChangeFrame(kind: Kind, k: Key, from: nat, past: Trace, s: Store, s': Store, q: Key)
    requires StatusChanged(kind, k, from, past, s, s')
    ensures OperatorFrame(k, s, s', q) && s'.deployments == s.deployments && s'.configMaps == s.configMaps
  {
    var status := StatusShape(kind, k, from, past, s, s');
    StatusFrame(k, s, status, q);
  }

  // ---------- What justifies a write ----------

  lemma JustifiedConfigMap(kind: Kind, k: Key, from: nat, past: Trace, s: Store, mark: Mark, q: Key)
    requires past != [] && s == past[|past| - 1].store
    requires Step(kind, k, from, past, mark) && mark.act == Made(CM, q)
    ensures q == k && ConfigMapCreated(kind, q, from, past, s, mark.store)
  {
  }

  lemma JustifiedCreation(kind: Kind, k: Key, from: nat, past: Trace, s: Store, mark: Mark, q: Key)
    requires past != [] && s == past[|past| - 1].store
    requires Step(kind, k, from, past, mark) && mark.act == Made(DEP, q)
    ensures q == k && DeploymentCreated(kind, q, from, past, s, mark.store)
  {
  }

  lemma JustifiedChange(kind: Kind, k: Key, from: nat, past: Trace, s: Store, mark: Mark, q: Key)
    requires past != [] && s == past[|past| - 1].store
    requires Step(kind, k, from, past, mark) && mark.act == Changed(DEP, q)
    ensures q == k && DeploymentChanged(kind, q, from, past, s, mark.store)
  {
  }

  lemma JustifiedStatus(kind: Kind, k: Key, from: nat, past: Trace, s: Store, mark: Mark, q: Key)
    requires past != [] && s == past[|past| - 1].store
    requires Step(kind, k, from, past, mark) && mark.act == Changed(NF, q)
    ensures q == k && StatusChanged(kind, q, from, past, s, mark.store)
  {
  }

  /** Every step of a pass that is not another writer's respects the frame. */
  lemma StepFrame(kind: Kind, k: Key, from: nat, past: Trace, mark: Mark, q: Key)
    requires Step(kind, k, from, past, mark) && !mark.act.Env?
    ensures OperatorFrame(k, past[|past| - 1].store, mark.store, q)
  {
    var s, s' := past[|past| - 1].store, mark.store;
    match mark.act
    case Made(CM, _) =>
      var data := ConfigMapShape(kind, k, from, past, s, s');
      ConfigMapFrame(k, s, data, q);
    case Made(SVC, _) => ServiceFrame(k, s, q);
    case Made(DEP, _) =>
      var template := DeploymentShape(kind, k, from, past, s, s');
      DeploymentFrame(k, s, template, q);
    case Changed(DEP, _) => DeploymentChangeFrame(kind, k, from, past, s, s', q);
    case Changed(NF, _) => StatusChangeFrame(kind, k, from, past, s, s', q);
    case _ =>
  }

  // ---------- One object at a time ----------

  predicate PutsConfigMap(act: Act, q: Key) {
    act.Env? && act.step.PutConfigMap? && act.step.key == q
  }

  predicate EditsConfigMap(act: Act, q: Key) {
    PutsConfigMap(act, q) || act == Env(DeleteConfigMap(q))
  }

  /** Outside other writers' edits, a ConfigMap stays as it is and appears only when the operator creates it. */
  predicate ConfigMapFollows(s: Store, act: Act, s': Store, q: Key) {
    !EditsConfigMap(act, q) ==>
      && (q in s.configMaps ==> q in s'.configMaps && s'.configMaps[q] == s.configMaps[q])
      && (q in s'.configMaps && q !in s.configMaps ==> act == Made(CM, q))
  }

  /** What other writers leave alone in a Deployment: its annotations and owner. Its generation only grows. */
  predicate SameButLoad(d: Deployment, d': Deployment) {
    d'.template.annotations == d.template.annotations && d'.owned == d.owned && d.generation <= d'.generation
  }

  /** Without a write of the operator a Deployment changes only in those respects, or goes. */
  predicate DeploymentFollows(s: Store, act: Act, s': Store, q: Key) {
    !IsDeploymentWrite(act, q) && q in s'.deployments ==>
      && q in s.deployments && SameButLoad(s.deployments[q], s'.deployments[q])
      && (!act.Env? ==> s'.deployments[q] == s.deployments[q])
  }

  /** Outside the operator's own status writes, a status stays; a new object's is empty. Only deletion removes one. */
  predicate StatusFollows(s: Store, act: Act, s': Store, q: Key) {
    && (act != Changed(NF, q) && q in s'.nfs ==>
          s'.nfs[q].status == if q in s.nfs then s.nfs[q].status else NFStatus(0, []))
    && (act != Env(DeleteNF(q)) && q in s.nfs ==> q in s'.nfs)
  }

  /** Everything a step of a run respects, under one name. */
  predicate Follows(s: Store, act: Act, s': Store, q: Key) {
    && s.clock <= s'.clock && Advance(s, s', q)
    && ConfigMapFollows(s, act, s', q) && DeploymentFollows(s, act, s', q) && StatusFollows(s, act, s', q)
    && !act.Started? && (!act.Env? ==> OperatorFrame(act.key, s, s', q))
  }

  lemma EnvKeepsConfigMap(s: Store, e: EnvStep, q: Key)
    ensures ConfigMapFollows(s, Env(e), Apply(s, e), q)
  {
  }

  lemma EnvKeepsDeployment(s: Store, e: EnvStep, q: Key)
    ensures DeploymentFollows(s, Env(e), Apply(s, e), q)
  {
    if e.EditWorkload? && e.key in s.deployments {
      WorkloadKeepsAnnotations(s, e.key, e.image, e.large, q);
    }
  }

  lemma WorkloadKeepsAnnotations(s: Store, k: Key, image: Image, large: bool, q: Key)
    requires k in s.deployments
    ensures var s' := WriteTemplate(s, k, s.deployments[k].template.(image := image, large := large),
            s.deployments[k].owned);
            q in s'.deployments ==> q in s.deployments && SameButLoad(s.deployments[q], s'.deployments[q])
  {
  }

  lemma EnvKeepsStatus(s: Store, e: EnvStep, q: Key)
    ensures StatusFollows(s, Env(e), Apply(s, e), q)
  {
  }

  lemma WriteFollows(kind: Kind, k: Key, from: nat, past: Trace, mark: Mark, q: Key)
    requires Step(kind, k, from, past, mark) && !mark.act.Env?
    ensures ConfigMapFollows(past[|past| - 1].store, mark.act, mark.store, q)
    ensures DeploymentFollows(past[|past| - 1].store, mark.act, mark.store, q)
    ensures StatusFollows(past[|past| - 1].store, mark.act, mark.store, q)
    ensures OperatorFrame(mark.act.key, past[|past| - 1].store, mark.store, q)
  {
    var s, s' := past[|past| - 1].store, mark.store;
    StepFrame(kind, k, from, past, mark, q);
    match mark.act
    case Changed(DEP, _) => DeploymentChangeFrame(kind, k, from, past, s, s', q);
    case Changed(NF, _) => StatusChangeFrame(kind, k, from, past, s, s', q);
    case _ =>
  }

  lemma EnvFollows(s: Store, e: EnvStep, q: Key)
    ensures Follows(s, Env(e), Apply(s, e), q)
  {
    ApplyClock(s, e);
    ApplyAdvance(s, e, q);
    EnvKeepsConfigMap(s, e, q);
    EnvKeepsDeployment(s, e, q);
    EnvKeepsStatus(s, e, q);
  }

  lemma MarkFollows(kind: Kind, k: Key, from: nat, past: Trace, mark: Mark, q: Key)
    requires Step(kind, k, from, past, mark)
    ensures Follows(past[|past| - 1].store, mark.act, mark.store, q)
  {
    if mark.act.Env? {
      EnvFollows(past[|past| - 1].store, mark.act.step, q);
    } else {
      StepAdvance(kind, k, from, past, mark, q);
      StepClock(kind, k, from, past, mark);
      WriteFollows(kind, k, from, past, mark, q);
    }
  }

  lemma StepFollows(kind: Kind, k: Key, from: nat, tr: Trace, i: int, q: Key)
    requires StepAt(kind, k, from, tr, i)
    ensures 1 <= i && Follows(tr[i - 1].store, tr[i].act, tr[i].store, q)
  {
    MarkFollows(kind, k, from, tr[..i], tr[i], q);
    assert |tr[..i]| == i && tr[..i][i - 1] == tr[i - 1];
  }

  /** A mark of a run that begins no pass, given by the pass it belongs to. */
  lemma LegalStep(start: nat, tr: Trace, i: int) returns (kind: Kind, k: Key, from: nat)
    requires LegalAt(start, tr, i) && 0 <= i < |tr| && !tr[i].act.Began?
    ensures start <= from < i && InPass(tr, from, i, k)
    ensures StepAt(kind, k, from, tr, i) && (IsWrite(tr[i].act) ==> Dispatched(kind, k, from, tr, i))
  {
    k, from :| start <= from && PassStep(k, from, tr, i);
    kind := PassKind(k, from, tr, i);
  }

  lemma BeginningFollows(s: Store, act: Act, q: Key)
    requires act.Began?
    ensures Follows(s, act, s, q)
  {
  }

  lemma LegalIndex(start: nat, tr: Trace, i: int)
    requires LegalAt(start, tr, i)
    ensures 0 < i < |tr|
  {
    if !Begins(tr, i) {
      var k, from: nat :| start <= from && PassStep(k, from, tr, i);
      var kind := PassKind(k, from, tr, i);
    }
  }

  /** Every step of a run, under every name. */
  lemma RunFollows(start: nat, tr: Trace, i: int, q: Key)
    requires LegalAt(start, tr, i)
    ensures 1 <= i < |tr| && Follows(tr[i - 1].store, tr[i].act, tr[i].store, q)
  {
    LegalIndex(start, tr, i);
    if tr[i].act.Began? {
      LegalBeginning(start, tr, i);
      BeginningFollows(tr[i].store, tr[i].act, q);
    } else {
      var kind, k, from := LegalStep(start, tr, i);
      StepFollows(kind, k, from, tr, i, q);
    }
  }

  lemma LegalBeginning(start: nat, tr: Trace, i: int)
    requires LegalAt(start, tr, i) && 0 < i < |tr| && tr[i].act.Began?
    ensures tr[i].store == tr[i - 1].store
  {
    if !Begins(tr, i) {
      var k, from: nat :| start <= from && PassStep(k, from, tr, i);
      var kind := PassKind(k, from, tr, i);
      StepIsNoBeginning(kind, k, from, tr, i);
    }
  }
}

/** What holds along every run: how Deployments come into being, and what AMF Deployments keep. */
module DeploymentHistory {
  import opened Prelude
  import opened Objects
  import opened Server
  import opened Passes
  import opened Steps
  import opened Runs
  import opened Frames
  import opened History
  import Annotations
  import Resources

  // ---------- The creation gate ----------

  /** The object was found, or created, by the pass that began at mark `from`, before mark `i`. */
  ghost predicate ExistedIn(tr: Trace, from: nat, i: nat, what: Resource, q: Key) {
    exists j :: from <= j < i <= |tr| && Present(tr[j].store, what, q) && tr[j].act in {Saw(what, q), Made(what, q)}
  }

  lemma ExistedIsIn(tr: Trace, from: nat, i: nat, what: Resource, q: Key)
    requires i <= |tr| && Existed(from, tr[..i], what, q)
    ensures ExistedIn(tr, from, i, what, q)
  {
  }

  /** The pass found or created the ConfigMap at this version. */
  ghost predicate VersionIn(tr: Trace, from: nat, i: nat, q: Key, version: Version) {
    version != Empty && exists j :: from <= j < i <= |tr| && VersionAt(tr[j], q, version)
  }

  lemma VersionIsIn(tr: Trace, from: nat, i: nat, q: Key, version: Version)
    requires i <= |tr| && VersionSeen(from, tr[..i], q, version) && version != Empty
    ensures VersionIn(tr, from, i, q, version)
  {
    var past := tr[..i];
    var j :| from <= j < |past| && VersionAt(past[j], q, version);
    assert tr[j] == past[j];
  }

  /**
   What creation behind the gate means, for the spec of `nf`: the objects and definitions were there, and the new
   Deployment is the desired one for that spec and a version of the ConfigMap, all found by the same pass.
   */
  ghost predicate GateOpen(kind: Kind, k: Key, from: nat, tr: Trace, i: nat, nf: NFDeployment) {
    && i < |tr|
    && ExistedIn(tr, from, i, CM, k) && (kind != UPF ==> ExistedIn(tr, from, i, SVC, k))
    && (forall x :: x in nf.spec.interfaces && Annotations.MustAttach(kind, x.name) ==>
        NadFound(tr, from, i, k, x.name))
    && k in tr[i].store.deployments
    && var d := tr[i].store.deployments[k];
       var version := d.template.annotations.ConfigMapVersion();
       && d.owned && d.generation == 1 && VersionIn(tr, from, i, k, version)
       && Resources.Desired(kind, version, k.name, nf.spec) == Built(d.template)
  }

  ghost predicate NadFound(tr: Trace, from: nat, i: nat, k: Key, interface: string) {
    ExistedIn(tr, from, i, NAD, Key(k.namespace, k.name + "-" + interface))
  }

  lemma NadsAreFound(kind: Kind, k: Key, from: nat, tr: Trace, i: nat, interfaces: seq<InterfaceConfig>)
    requires i <= |tr| && NadsSeen(from, tr[..i], k, Annotations.NeededNames(kind, k.name, interfaces))
    ensures forall x :: x in interfaces && Annotations.MustAttach(kind, x.name) ==>
            NadFound(tr, from, i, k, x.name)
  {
  }

  lemma CreatedBehindGate(kind: Kind, k: Key, from: nat, tr: Trace, i: nat) returns (h: nat, nf: NFDeployment)
    requires 1 <= i < |tr| && DeploymentCreated(kind, k, from, tr[..i], tr[i - 1].store, tr[i].store)
    ensures LastSawBefore(tr, from, h, i, NF, k) && k in tr[h].store.nfs && tr[h].store.nfs[k] == nf
    ensures GateOpen(kind, k, from, tr, i, nf)
  {
    var past, s, s' := tr[..i], tr[i - 1].store, tr[i].store;
    var version;
    h, nf, version :| DeploymentFrom(kind, k, from, past, s, s', h, nf, version);
    LastSawIsBefore(tr, from, h, i, NF, k);
    ExistedIsIn(tr, from, i, CM, k);
    if kind != UPF {
      ExistedIsIn(tr, from, i, SVC, k);
    }
    NadsAreFound(kind, k, from, tr, i, nf.spec.interfaces);
    DesiredVersion(kind, version, k.name, nf.spec);
    VersionIsIn(tr, from, i, k, version);
    assert past[h] == tr[h];
  }

  /**
   Creation gate: whenever a pass creates a Deployment, then for the NFDeployment it last read, the ConfigMap (and
   the Service, for AMF and SMF) was there, the definition `<nf>-<interface>` of every attached interface was found
   in the namespace, and the new Deployment is the desired one; all of it within this pass.
   */
  lemma CreationGate(w: World, request: Request, i: nat, q: Key) returns (kind: Kind, h: nat, nf: NFDeployment)
    requires ValidWorld(w) && |w.trace| <= i < |Serve(w, request).trace|
    requires Serve(w, request).trace[i].act == Made(DEP, q)
    ensures var tr, from := Serve(w, request).trace, |w.trace|;
            && q == request.key && InPass(tr, from, i, q)
            && LastSawBefore(tr, from, h, i, NF, q) && q in tr[h].store.nfs && tr[h].store.nfs[q] == nf
            && GateOpen(kind, q, from, tr, i, nf) && Dispatched(kind, q, from, tr, i)
  {
    ServeSteps(w, request);
    kind, h, nf := PassGate(request.key, |w.trace|, Serve(w, request).trace, i, q);
  }

  lemma StepGate(kind: Kind, k: Key, from: nat, tr: Trace, i: nat, q: Key)
    requires StepAt(kind, k, from, tr, i) && tr[i].act == Made(DEP, q)
    ensures 1 <= i && q == k && DeploymentCreated(kind, q, from, tr[..i], tr[i - 1].store, tr[i].store)
  {
    PastEnds(tr, i);
    JustifiedCreation(kind, k, from, tr[..i], tr[i - 1].store, tr[i], q);
  }

  lemma PassGate(k: Key, from: nat, tr: Trace, i: nat, q: Key) returns (kind: Kind, h: nat, nf: NFDeployment)
    requires i < |tr| && PassStep(k, from, tr, i) && tr[i].act == Made(DEP, q)
    ensures q == k && InPass(tr, from, i, q)
    ensures LastSawBefore(tr, from, h, i, NF, q) && q in tr[h].store.nfs && tr[h].store.nfs[q] == nf
    ensures GateOpen(kind, q, from, tr, i, nf) && Dispatched(kind, q, from, tr, i)
  {
    kind := PassKind(k, from, tr, i);
    StepGate(kind, k, from, tr, i, q);
    h, nf := CreatedBehindGate(kind, q, from, tr, i);
  }

  // ---------- AMF Deployments ----------

  /** Whatever is stored under this name as an NFDeployment is an AMF. */
  ghost predicate OnlyAmf(tr: Trace, q: Key) {
    forall m :: 0 <= m < |tr| && q in tr[m].store.nfs ==> tr[m].store.nfs[q].spec.provider == Free5gc(AMF)
  }

  predicate EditsDeployment(act: Act, q: Key) {
    act == Env(DeleteDeployment(q)) || (act.Env? && act.step.EditWorkload? && act.step.key == q)
  }

  predicate KeepsDeployment(s: Store, s': Store, q: Key) {
    q in s.deployments ==> q in s'.deployments && s'.deployments[q].owned == s.deployments[q].owned
                           && SameButVersion(s.deployments[q].template, s'.deployments[q].template)
  }

  lemma EnvKeeps(s: Store, e: EnvStep, q: Key)
    requires !EditsDeployment(Env(e), q)
    ensures KeepsDeployment(s, Apply(s, e), q)
  {
  }

  lemma AmfChangeKeeps(k: Key, from: nat, past: Trace, s: Store, s': Store)
    requires DeploymentChanged(AMF, k, from, past, s, s')
    ensures KeepsDeployment(s, s', k)
  {
  }

  lemma AmfStepKeeps(kind: Kind, k: Key, from: nat, past: Trace, s: Store, mark: Mark, q: Key)
    requires past != [] && s == past[|past| - 1].store
    requires Step(kind, k, from, past, mark) && !EditsDeployment(mark.act, q)
             && (mark.act == Changed(DEP, q) ==> kind == AMF)
    ensures KeepsDeployment(s, mark.store, q)
  {
    var s' := mark.store;
    if mark.act.Env? {
      EnvKeeps(s, mark.act.step, q);
    } else if mark.act == Changed(DEP, q) {
      JustifiedChange(kind, k, from, past, s, mark, q);
      AmfChangeKeeps(q, from, past, s, s');
    } else if mark.act == Made(DEP, q) {
      JustifiedCreation(kind, k, from, past, s, mark, q);
    } else {
      StepFrame(kind, k, from, past, mark, q);
      WriteFollows(kind, k, from, past, mark, q);
    }
  }

  lemma AmfKeepsAt(kind: Kind, k: Key, from: nat, tr: Trace, i: int, q: Key)
    requires StepAt(kind, k, from, tr, i) && !EditsDeployment(tr[i].act, q)
    requires tr[i].act == Changed(DEP, q) ==> kind == AMF
    ensures 1 <= i && KeepsDeployment(tr[i - 1].store, tr[i].store, q)
  {
    PastEnds(tr, i);
    AmfStepKeeps(kind, k, from, tr[..i], tr[i - 1].store, tr[i], q);
  }

  lemma ChangeIsOwn(kind: Kind, k: Key, from: nat, tr: Trace, i: int, q: Key)
    requires StepAt(kind, k, from, tr, i) && tr[i].act == Changed(DEP, q)
    ensures q == k
  {
  }

  lemma AmfRunKeeps(start: nat, tr: Trace, i: int, q: Key)
    requires LegalAt(start, tr, i) && 0 <= i < |tr| && !EditsDeployment(tr[i].act, q) && OnlyAmf(tr, q)
    ensures 1 <= i && KeepsDeployment(tr[i - 1].store, tr[i].store, q)
  {
    if tr[i].act.Began? {
      LegalIndex(start, tr, i);
      LegalBeginning(start, tr, i);
    } else {
      var kind, k, from := LegalStep(start, tr, i);
      if tr[i].act == Changed(DEP, q) {
        ChangeIsOwn(kind, k, from, tr, i, q);
        assert Dispatched(kind, q, from, tr, i);
      }
      AmfKeepsAt(kind, k, from, tr, i, q);
    }
  }

  /** An AMF Deployment, once there, keeps everything but its version annotation along every run. */
  lemma {:induction false} AmfDeploymentKept(start: nat, tr: Trace, i: int, j: int, q: Key)
    requires Legal(start, tr) && start - 1 <= i <= j < |tr| && OnlyAmf(tr, q)
    requires forall m :: i < m <= j ==> !EditsDeployment(tr[m].act, q)
    ensures KeepsDeployment(tr[i].store, tr[j].store, q)
    decreases j
  {
    if i < j {
      AmfDeploymentKept(start, tr, i, j - 1, q);
      assert LegalAt(start, tr, j);
      AmfRunKeeps(start, tr, j, q);
    }
  }
}

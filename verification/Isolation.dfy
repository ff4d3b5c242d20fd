/**
 Names do not interfere: what a pass does under its name depends, up to the numbering of versions, only on the
 objects under that name, the surroundings and the clock; and a pass for another name touches none of them.
 */
module Isolation {
  import opened Prelude
  import opened Objects
  import opened Server
  import opened Passes
  import opened Steps
  import opened Runs
  import opened Locals
  import opened Networks
  import opened Renamings
  import opened Views
  import Frames
  import Resources
  import SmfResources
  import Status

  // ---------- A pass in two worlds that look the same ----------

  predicate SameSnapshot(r: Renaming, seen: Snapshot, seen': Snapshot) {
    && SameNF(r, seen.nf, seen'.nf) && seen'.service == seen.service
    && Both(seen.configMap, seen'.configMap)
    && (seen.configMap.Some? ==> SameConfigMap(r, seen.configMap.value, seen'.configMap.value))
    && Both(seen.deployment, seen'.deployment)
    && (seen.deployment.Some? ==> SameDeployment(r, seen.deployment.value, seen'.deployment.value))
  }

  lemma SameSnapshotGrows(r: Renaming, r': Renaming, seen: Snapshot, seen': Snapshot)
    requires Extends(r, r') && SameSnapshot(r, seen, seen')
    ensures SameSnapshot(r', seen, seen') && SameVersion(r', seen.Version(), seen'.Version())
  {
    if seen.deployment.Some? {
      SameDeploymentGrows(r, r', seen.deployment.value, seen'.deployment.value);
    }
  }

  lemma {:induction false} FetchTwins(r: Renaming, w: World, w': World, k: Key, namespace: string, names: seq<string>,
      kept: seq<ConfigRef>)
      returns (r': Renaming)
    requires Twins(r, w, w', k)
    ensures var (f, f') := (FetchRefs(w, namespace, names, kept), FetchRefs(w', namespace, names, kept));
            LaterTwins(r, r', f.0, f'.0, k) && f.1 == f'.1
    decreases |names|
  {
    r' := r;
    if names != [] {
      var key := Key(namespace, names[0]);
      var r1 := GetConfigTwins(r, w, w', k, key);
      var (w1, payload) := GetConfig(w, key);
      r' := r1;
      if payload.Some? {
        r' := FetchTwins(r1, w1, GetConfig(w', key).0, k, namespace, names[1..],
                         SmfResources.AddRef(kept, ConfigRef(key, payload.value)));
        ExtendsThen(r, r1, r');
      }
    }
  }

  lemma {:induction false} NadsTwins(r: Renaming, w: World, w': World, k: Key, namespace: string,
      networks: seq<Network>)
      returns (r': Renaming)
    requires Twins(r, w, w', k)
    ensures var (f, f') := (FindNads(w, namespace, networks), FindNads(w', namespace, networks));
            LaterTwins(r, r', f.0, f'.0, k) && f.1 == f'.1
    decreases |networks|
  {
    r' := r;
    if networks != [] {
      var key := Key(namespace, networks[0].name);
      var r1 := GetNadTwins(r, w, w', k, key);
      r' := r1;
      if GetNad(w, key).1 {
        r' := NadsTwins(r1, GetNad(w, key).0, GetNad(w', key).0, k, namespace, networks[1..]);
        ExtendsThen(r, r1, r');
      }
    }
  }

  lemma ValidateTwins(r: Renaming, w: World, w': World, k: Key, namespace: string, annotation: Option<string>)
      returns (r': Renaming)
    requires Twins(r, w, w', k)
    ensures var (v, v') := (Validate(w, namespace, annotation), Validate(w', namespace, annotation));
            LaterTwins(r, r', v.0, v'.0, k) && v.1 == v'.1
  {
    r' := r;
    if annotation.Some? && Unmarshal(annotation.value).Some? {
      r' := NadsTwins(r, w, w', k, namespace, Unmarshal(annotation.value).value);
    }
  }

  lemma GateTwins(r: Renaming, w: World, w': World, k: Key, template: Template, template': Template)
      returns (r': Renaming)
    requires Twins(r, w, w', k) && SameTemplate(r, template, template')
    ensures var (g, g') := (CreateBehindGate(w, k, template), CreateBehindGate(w', k, template'));
            LaterTwins(r, r', g.0, g'.0, k) && g.1 == g'.1
  {
    var annotation := template.annotations.networks;
    var r1 := ValidateTwins(r, w, w', k, k.namespace, annotation);
    var (w1, ok) := Validate(w, k.namespace, annotation);
    r' := r1;
    if ok {
      SameTemplateGrows(r, r1, template, template');
      r' := CreateDeploymentTwins(r1, w1, Validate(w', k.namespace, annotation).0, k, template, template');
      ExtendsThen(r, r1, r');
    }
  }

  lemma DesiredTwins(r: Renaming, kind: Kind, version: Version, version': Version, name: string, spec: Spec)
    requires SameVersion(r, version, version')
    ensures var (d, d') := (Resources.Desired(kind, version, name, spec),
            Resources.Desired(kind, version', name, spec));
            (d.Built? <==> d'.Built?) && (d.Built? ==> SameTemplate(r, d.value, d'.value))
  {
  }

  lemma DeployTwins(r: Renaming, kind: Kind, w: World, w': World, k: Key, seen: Snapshot, seen': Snapshot,
      version: Version, version': Version)
      returns (r': Renaming)
    requires Twins(r, w, w', k) && SameSnapshot(r, seen, seen') && SameVersion(r, version, version')
    ensures var (d, d') := (Deploy(kind, w, k, seen, version), Deploy(kind, w', k, seen', version'));
            LaterTwins(r, r', d.0, d'.0, k) && d.1 == d'.1
  {
    DesiredTwins(r, kind, version, version', k.name, seen.nf.spec);
    var desired, desired' :=
        Resources.Desired(kind, version, k.name, seen.nf.spec), Resources.Desired(kind, version', k.name, seen.nf.spec);
    r' := r;
    if desired.Built? {
      if seen.deployment.None? {
        r' := GateTwins(r, w, w', k, desired.value, desired'.value);
      } else if kind != AMF {
        r' := UpdateTwins(r, w, w', k, desired.value, desired'.value, false, None, None);
      }
    }
  }

  lemma EnsureServiceTwins(r: Renaming, kind: Kind, w: World, w': World, k: Key, seen: Snapshot, seen': Snapshot,
                           version: Version, version': Version) returns (r': Renaming)
    requires Twins(r, w, w', k) && SameSnapshot(r, seen, seen') && SameVersion(r, version, version')
    ensures var (e, e') := (EnsureService(kind, w, k, seen, version), EnsureService(kind, w', k, seen', version'));
            LaterTwins(r, r', e.0, e'.0, k) && e.1 == e'.1
  {
    if kind == UPF || seen.service {
      r' := DeployTwins(r, kind, w, w', k, seen, seen', version, version');
    } else {
      var r1 := CreateServiceTwins(r, w, w', k);
      r' := r1;
      if CreateService(w, k).1 {
        SameSnapshotGrows(r, r1, seen, seen');
        SameVersionGrows(r, r1, version, version');
        r' := DeployTwins(r1, kind, CreateService(w, k).0, CreateService(w', k).0, k, seen, seen', version, version');
        ExtendsThen(r, r1, r');
      }
    }
  }

  lemma CreateTwins(r: Renaming, kind: Kind, w: World, w': World, k: Key, seen: Snapshot, seen': Snapshot,
      data: ConfigData)
      returns (r': Renaming)
    requires Twins(r, w, w', k) && SameSnapshot(r, seen, seen')
    ensures var (c, c') := (CreateConfigMap(w, k, data), CreateConfigMap(w', k, data));
            && Both(c.1, c'.1)
            && (c.1.None? ==> LaterTwins(r, r', c.0, c'.0, k))
            && (c.1.Some? ==>
                  var (e, e') := (EnsureService(kind, c.0, k, seen, c.1.value),
                      EnsureService(kind, c'.0, k, seen', c'.1.value));
                  LaterTwins(r, r', e.0, e'.0, k) && e.1 == e'.1)
  {
    var (w1, version) := CreateConfigMap(w, k, data);
    var (w1', version') := CreateConfigMap(w', k, data);
    var r1 := CreateConfigMapTwins(r, w, w', k, data);
    r' := r1;
    if version.Some? {
      SameSnapshotGrows(r, r1, seen, seen');
      r' := EnsureServiceTwins(r1, kind, w1, w1', k, seen, seen', version.value, version'.value);
      ExtendsThen(r, r1, r');
    }
  }

  lemma EnsureConfigMapTwins(r: Renaming, kind: Kind, w: World, w': World, k: Key, seen: Snapshot, seen': Snapshot,
      refs: seq<ConfigRef>)
      returns (r': Renaming)
    requires Twins(r, w, w', k) && SameSnapshot(r, seen, seen')
    ensures var (e, e') := (EnsureConfigMap(kind, w, k, seen, refs), EnsureConfigMap(kind, w', k, seen', refs));
            LaterTwins(r, r', e.0, e'.0, k) && e.1 == e'.1
  {
    var built := Resources.ConfigMapData(kind, k.name, seen.nf.spec, refs);
    r' := r;
    if built.Built? {
      if seen.configMap.Some? {
        r' := EnsureServiceTwins(r, kind, w, w', k, seen, seen', seen.Version(), seen'.Version());
      } else {
        r' := CreateTwins(r, kind, w, w', k, seen, seen', built.value);
      }
    }
  }

  lemma BuildUpTwins(r: Renaming, kind: Kind, w: World, w': World, k: Key, seen: Snapshot, seen': Snapshot)
      returns (r': Renaming)
    requires Twins(r, w, w', k) && SameSnapshot(r, seen, seen')
    ensures var (b, b') := (BuildUp(kind, w, k, seen), BuildUp(kind, w', k, seen'));
            LaterTwins(r, r', b.0, b'.0, k) && b.1 == b'.1
  {
    if kind == SMF {
      var names := seen.nf.spec.parametersRefs;
      var r1 := FetchTwins(r, w, w', k, k.namespace, names, []);
      var (w1, refs) := FetchRefs(w, k.namespace, names, []);
      r' := r1;
      if refs.Some? {
        SameSnapshotGrows(r, r1, seen, seen');
        r' := EnsureConfigMapTwins(r1, kind, w1, FetchRefs(w', k.namespace, names, []).0, k, seen, seen', refs.value);
        ExtendsThen(r, r1, r');
      }
    } else {
      r' := EnsureConfigMapTwins(r, kind, w, w', k, seen, seen', []);
    }
  }

  lemma RollTwins(r: Renaming, w: World, w': World, k: Key, seen: Snapshot, seen': Snapshot) returns (r': Renaming)
    requires Twins(r, w, w', k) && SameSnapshot(r, seen, seen') && seen.deployment.Some?
    ensures var d, d' := seen.deployment.value, seen'.deployment.value;
            var u := UpdateDeployment(w, k, WithVersion(d.template, seen.Version()), d.owned, Some(d.version));
            var u' := UpdateDeployment(w', k, WithVersion(d'.template, seen'.Version()), d'.owned, Some(d'.version));
            LaterTwins(r, r', u.0, u'.0, k) && u.1 == u'.1
  {
    var d, d' := seen.deployment.value, seen'.deployment.value;
    assert SameTemplate(r, WithVersion(d.template, seen.Version()), WithVersion(d'.template, seen'.Version()));
    r' := UpdateTwins(r, w, w', k, WithVersion(d.template, seen.Version()), WithVersion(d'.template, seen'.Version()),
                      d.owned, Some(d.version), Some(d'.version));
  }

  /** Whether the pods must be rolled, and whether they can be, does not depend on the numbering. */
  lemma RollAlike(r: Renaming, seen: Snapshot, seen': Snapshot)
    requires Injective(r) && SameSnapshot(r, seen, seen') && seen.deployment.Some?
    ensures var a, a' := seen.deployment.value.template.annotations, seen'.deployment.value.template.annotations;
            && (a.ConfigMapVersion() == seen.Version() <==> a'.ConfigMapVersion() == seen'.Version())
            && (a.IsNil() <==> a'.IsNil())
  {
    var a, a' := seen.deployment.value.template.annotations, seen'.deployment.value.template.annotations;
    VersionsApart(r, a.ConfigMapVersion(), a'.ConfigMapVersion(), seen.Version(), seen'.Version());
  }

  lemma AfterSyncTwins(r: Renaming, kind: Kind, w: World, w': World, k: Key, seen: Snapshot, seen': Snapshot)
      returns (r': Renaming)
    requires Twins(r, w, w', k) && SameSnapshot(r, seen, seen') && seen.deployment.Some?
    ensures var (a, a') := (AfterSync(kind, w, k, seen, seen.deployment.value),
            AfterSync(kind, w', k, seen', seen'.deployment.value));
            LaterTwins(r, r', a.0, a'.0, k) && a.1 == a'.1
  {
    RollAlike(r, seen, seen');
    var annotations := seen.deployment.value.template.annotations;
    r' := r;
    if annotations.ConfigMapVersion() == seen.Version() {
      r' := BuildUpTwins(r, kind, w, w', k, seen, seen');
    } else if !annotations.IsNil() {
      r' := RollTwins(r, w, w', k, seen, seen');
    }
  }

  lemma SyncTwins(r: Renaming, kind: Kind, w: World, w': World, k: Key, nf: NFDeployment, nf': NFDeployment,
      d: Deployment, d': Deployment)
      returns (r': Renaming)
    requires Twins(r, w, w', k) && SameNF(r, nf, nf') && SameDeployment(r, d, d')
    ensures var (s, s') := (SyncStatus(kind, w, k, nf, d), SyncStatus(kind, w', k, nf', d'));
            LaterTwins(r, r', s.0, s'.0, k) && s.1 == s'.1
  {
    var seen := Status.Observation(d.generation, d.conditions);
    r' := r;
    if Status.WantsUpdate(seen, nf.status.conditions) {
      r' := StatusTwins(r, w, w', k, Status.NextStatus(Subject(kind), seen, nf.status, w.store.clock), nf.version,
          nf'.version);
    }
  }

  lemma MaintainTwins(r: Renaming, kind: Kind, w: World, w': World, k: Key, seen: Snapshot, seen': Snapshot)
      returns (r': Renaming)
    requires Twins(r, w, w', k) && SameSnapshot(r, seen, seen') && seen.deployment.Some?
    ensures var (m, m') := (Maintain(kind, w, k, seen, seen.deployment.value),
            Maintain(kind, w', k, seen', seen'.deployment.value));
            LaterTwins(r, r', m.0, m'.0, k) && m.1 == m'.1
  {
    var d, d' := seen.deployment.value, seen'.deployment.value;
    if d.deleting {
      r' := AfterSyncTwins(r, kind, w, w', k, seen, seen');
    } else {
      var r1 := SyncTwins(r, kind, w, w', k, seen.nf, seen'.nf, d, d');
      var (w1, ok) := SyncStatus(kind, w, k, seen.nf, d);
      r' := r1;
      if ok {
        SameSnapshotGrows(r, r1, seen, seen');
        r' := AfterSyncTwins(r1, kind, w1, SyncStatus(kind, w', k, seen'.nf, d').0, k, seen, seen');
        ExtendsThen(r, r1, r');
      }
    }
  }

  lemma ObserveTwins(r: Renaming, kind: Kind, w: World, w': World, k: Key, nf: NFDeployment, nf': NFDeployment)
      returns (r': Renaming)
    requires Twins(r, w, w', k) && SameNF(r, nf, nf')
    ensures var (o, o') := (Observe(kind, w, k, nf), Observe(kind, w', k, nf'));
            LaterTwins(r, r', o.0, o'.0, k) && SameSnapshot(r', o.1, o'.1)
  {
    var (w1, configMap) := GetConfigMap(w, k);
    var (w1', configMap') := GetConfigMap(w', k);
    var r1 := GetConfigMapTwins(r, w, w', k);
    var r2 := r1;
    if kind != UPF {
      r2 := GetServiceTwins(r1, w1, w1', k);
    }
    var (w2, service) := if kind == UPF then (w1, true) else GetService(w1, k);
    var w2' := if kind == UPF then w1' else GetService(w1', k).0;
    r' := GetDeploymentTwins(r2, w2, w2', k);
    ExtendsThen(r, r1, r2);
    ExtendsThen(r, r2, r');
    ExtendsThen(r1, r2, r');
    SnapshotTwins(r, r1, r', Snapshot(nf, configMap, service, GetDeployment(w2, k).1),
        Snapshot(nf', configMap', service, GetDeployment(w2', k).1));
  }

  lemma SnapshotTwins(r: Renaming, r1: Renaming, r2: Renaming, seen: Snapshot, seen': Snapshot)
    requires Extends(r, r2) && Extends(r1, r2) && SameNF(r, seen.nf, seen'.nf) && seen.service == seen'.service
    requires Both(seen.configMap, seen'.configMap)
             && (seen.configMap.Some? ==> SameConfigMap(r1, seen.configMap.value, seen'.configMap.value))
    requires Both(seen.deployment, seen'.deployment)
             && (seen.deployment.Some? ==> SameDeployment(r2, seen.deployment.value, seen'.deployment.value))
    ensures SameSnapshot(r2, seen, seen')
  {
  }

  lemma FoundTwins(r: Renaming, kind: Kind, w: World, w': World, k: Key, nf: NFDeployment, nf': NFDeployment)
      returns (r': Renaming)
    requires Twins(r, w, w', k) && SameNF(r, nf, nf')
    ensures var (w2, seen) := Observe(kind, w, k, nf);
            var (w2', seen') := Observe(kind, w', k, nf');
            && Both(seen.deployment, seen'.deployment)
            && var (x, x') := if seen.deployment.Some?
                              then (Maintain(kind, w2, k, seen, seen.deployment.value),
                                  Maintain(kind, w2', k, seen', seen'.deployment.value))
                              else (BuildUp(kind, w2, k, seen), BuildUp(kind, w2', k, seen'));
               LaterTwins(r, r', x.0, x'.0, k) && x.1 == x'.1
  {
    var (w2, seen) := Observe(kind, w, k, nf);
    var (w2', seen') := Observe(kind, w', k, nf');
    var r1 := ObserveTwins(r, kind, w, w', k, nf, nf');
    if seen.deployment.Some? {
      r' := MaintainTwins(r1, kind, w2, w2', k, seen, seen');
    } else {
      r' := BuildUpTwins(r1, kind, w2, w2', k, seen, seen');
    }
    ExtendsThen(r, r1, r');
  }

  lemma ReconcileTwins(r: Renaming, kind: Kind, w: World, w': World, k: Key) returns (r': Renaming)
    requires Twins(r, w, w', k)
    ensures var (x, x') := (Reconcile(kind, w, k), Reconcile(kind, w', k));
            LaterTwins(r, r', x.0, x'.0, k) && x.1 == x'.1
  {
    var (w1, got) := GetNF(w, k);
    var (w1', got') := GetNF(w', k);
    var r1 := GetNFTwins(r, w, w', k);
    r' := r1;
    if got.Found? {
      r' := FoundTwins(r1, kind, w1, w1', k, got.nf, got'.nf);
      ExtendsThen(r, r1, r');
    }
  }

  /** A pass does the same, and ends the same, in two worlds that look the same under its name. */
  lemma DispatchTwins(r: Renaming, w: World, w': World, k: Key) returns (r': Renaming)
    requires Twins(r, w, w', k)
    ensures var (x, x') := (Dispatch(w, k), Dispatch(w', k));
            LaterTwins(r, r', x.0, x'.0, k) && x.1 == x'.1
  {
    var (w1, got) := GetNF(w, k);
    var (w1', got') := GetNF(w', k);
    var r1 := GetNFTwins(r, w, w', k);
    r' := r1;
    if got.Found? && got.nf.spec.provider.Free5gc? {
      r' := ReconcileTwins(r1, got.nf.spec.provider.kind, w1, w1', k);
      ExtendsThen(r, r1, r');
    }
  }

  // ---------- Passes for other names ----------

  /** The steps of other writers among these marks. */
  function Outside(marks: Trace): seq<EnvStep> {
    if marks == [] then [] else
    var before, last := Outside(marks[..|marks| - 1]), marks[|marks| - 1].act;
    if last.Env? then before + [last.step] else before
  }

  lemma {:induction false} OutsideMore(marks: Trace, mark: Mark)
    ensures Outside(marks + [mark]) == if mark.act.Env? then Outside(marks) + [mark.act.step] else Outside(marks)
  {
    assert (marks + [mark])[..|marks|] == marks;
  }

  lemma {:induction false} DisturbMore(w: World, steps: seq<EnvStep>, e: EnvStep)
    ensures Disturb(w, steps + [e]).store == Apply(Disturb(w, steps).store, e)
    decreases |steps|
  {
    if steps == [] {
      assert steps + [e] == [e];
    } else {
      assert (steps + [e])[1..] == steps[1..] + [e];
      var s := Apply(w.store, steps[0]);
      DisturbMore(w.(store := s, trace := w.trace + [Mark(Env(steps[0]), s)]), steps[1..], e);
    }
  }

  /** A mark that is a step of another writer, or that this name's passes do not notice. */
  predicate Unnoticed(tr: Trace, i: int, k: Key) {
    0 < i < |tr| &&
    if tr[i].act.Env? then tr[i].store == Apply(tr[i - 1].store, tr[i].act.step)
        else Unmoved(tr[i - 1].store, tr[i].store, k)
  }

  lemma ForeignStep(kind: Kind, q: Key, from: nat, past: Trace, s: Store, mark: Mark, k: Key)
    requires past != [] && s == past[|past| - 1].store
    requires Step(kind, q, from, past, mark) && q != k
    ensures if mark.act.Env? then mark.store == Apply(s, mark.act.step) else Unmoved(s, mark.store, k)
  {
    if !mark.act.Env? {
      Frames.StepFrame(kind, q, from, past, mark, k);
      StepAdvance(kind, q, from, past, mark, k);
      assert Frames.SameAt(s, mark.store, k);
    }
  }

  lemma ForeignMark(kind: Kind, q: Key, from: nat, tr: Trace, i: int, k: Key)
    requires StepAt(kind, q, from, tr, i) && q != k
    ensures Unnoticed(tr, i, k)
  {
    PastEnds(tr, i);
    ForeignStep(kind, q, from, tr[..i], tr[i - 1].store, tr[i], k);
  }

  /** All that a pass for another name does is unnoticed, apart from what other writers do during it. */
  lemma ForeignServe(w: World, request: Request, k: Key)
    requires ValidWorld(w) && request.key != k
    ensures var w' := Serve(w, request);
            ValidWorld(w') && w.trace <= w'.trace && forall i :: |w.trace| <= i < |w'.trace| ==>
                Unnoticed(w'.trace, i, k)
  {
    var w' := Serve(w, request);
    ServeSteps(w, request);
    forall i | |w.trace| <= i < |w'.trace| ensures Unnoticed(w'.trace, i, k) {
      if i > |w.trace| {
        var kind := PassKind(request.key, |w.trace|, w'.trace, i);
        ForeignMark(kind, request.key, |w.trace|, w'.trace, i, k);
      }
    }
  }

  /** Up to mark `i`, the outside steps alone lead to the same view. */
  lemma {:induction false} ForeignMarks(r: Renaming, start: nat, tr: Trace, i: nat, w': World, k: Key)
      returns (r': Renaming)
    requires 1 <= start && start - 1 <= i < |tr| && SameView(r, tr[start - 1].store, w'.store, k)
    requires forall m :: start <= m < |tr| ==> Unnoticed(tr, m, k)
    ensures Extends(r, r') && SameView(r', tr[i].store, Disturb(w', Outside(tr[start..i + 1])).store, k)
    decreases i
  {
    if i == start - 1 {
      r' := r;
      assert tr[start..i + 1] == [];
    } else {
      var r1 := ForeignMarks(r, start, tr, i - 1, w', k);
      var before := Outside(tr[start..i]);
      assert tr[start..i + 1] == tr[start..i] + [tr[i]];
      OutsideMore(tr[start..i], tr[i]);
      assert Unnoticed(tr, i, k);
      r' := ForeignMarkTwins(r1, tr, i, w', before, k);
      ExtendsThen(r, r1, r');
    }
  }

  lemma ForeignMarkTwins(r: Renaming, tr: Trace, i: nat, w': World, before: seq<EnvStep>, k: Key) returns (r': Renaming)
    requires Unnoticed(tr, i, k) && SameView(r, tr[i - 1].store, Disturb(w', before).store, k)
    ensures Extends(r, r')
    ensures SameView(r', tr[i].store, Disturb(w', if tr[i].act.Env? then before + [tr[i].act.step] else before).store,
            k)
  {
    var d := Disturb(w', before).store;
    if tr[i].act.Env? {
      r' := ApplyTwins(r, tr[i - 1].store, d, tr[i].act.step, k);
      DisturbMore(w', before, tr[i].act.step);
    } else {
      r' := r;
      UnmovedView(r, tr[i - 1].store, d, tr[i].store, d, k);
    }
  }

  /**
   A pass for another name changes nothing that this name's passes see, but for what other writers do during it:
   taking their steps alone leads to the same view.
   */
  lemma ForeignPass(r: Renaming, w: World, w': World, request: Request, k: Key) returns (r': Renaming)
    requires ValidWorld(w) && request.key != k && SameView(r, w.store, w'.store, k)
    ensures ValidWorld(Serve(w, request)) && Extends(r, r')
    ensures SameView(r', Serve(w, request).store, Disturb(w', OutsideOf(w, request)).store, k)
  {
    ForeignServe(w, request, k);
    r' := ForeignMarksOf(r, w, Serve(w, request), w', k);
  }

  lemma ForeignMarksOf(r: Renaming, w: World, w1: World, w': World, k: Key) returns (r': Renaming)
    requires ValidWorld(w) && ValidWorld(w1) && w.trace <= w1.trace && SameView(r, w.store, w'.store, k)
    requires forall i :: |w.trace| <= i < |w1.trace| ==> Unnoticed(w1.trace, i, k)
    ensures Extends(r, r') && SameView(r', w1.store, Disturb(w', Outside(w1.trace[|w.trace|..])).store, k)
  {
    var n := |w.trace|;
    assert w1.trace[n - 1] == w.trace[n - 1];
    r' := ForeignMarks(r, n, w1.trace, |w1.trace| - 1, w', k);
    assert w1.trace[n..|w1.trace| - 1 + 1] == w1.trace[n..];
  }

  /** What other writers do while a pass is served. */
  function OutsideOf(w: World, request: Request): seq<EnvStep> {
    var tr := Serve(w, request).trace;
    if |w.trace| <= |tr| then Outside(tr[|w.trace|..]) else []
  }

  // ---------- Runs ----------

  /** A run seen from one name: its own passes, and what other writers do during the others. */
  datatype Item = Pass(request: Request) | Others(steps: seq<EnvStep>)

  function Play(w: World, items: seq<Item>): World
    decreases |items|
  {
    if items == [] then w else Play(PlayItem(w, items[0]), items[1..])
  }

  function PlayItem(w: World, item: Item): World {
    match item
    case Pass(request) => Serve(w, request)
    case Others(steps) => Disturb(w, steps)
  }

  /** The run without the passes for other names. */
  function Thinned(w: World, requests: seq<Request>, k: Key): seq<Item>
    decreases |requests|
  {
    if requests == [] then []
    else [ItemOf(w, requests[0], k)] + Thinned(Serve(w, requests[0]), requests[1..], k)
  }

  function ItemOf(w: World, request: Request, k: Key): Item {
    if request.key == k then Pass(request) else Others(OutsideOf(w, request))
  }

  lemma {:induction false} DisturbValid(w: World, steps: seq<EnvStep>)
    requires ValidWorld(w)
    ensures ValidWorld(Disturb(w, steps))
    decreases |steps|
  {
    var w0 := w.(schedule := [Call(steps, NoFault)]);
    forall e | e in steps ensures Scheduled(e, w0.schedule) {
      assert w0.schedule[0] in w0.schedule;
    }
    DisturbRan(UPF, Key("", ""), 0, w0, steps);
    SameDisturb(w, w0, steps);
  }

  lemma {:induction false} SameDisturb(w: World, w': World, steps: seq<EnvStep>)
    requires w.store == w'.store && w.trace == w'.trace
    ensures Disturb(w, steps).store == Disturb(w', steps).store && Disturb(w, steps).trace == Disturb(w', steps).trace
    decreases |steps|
  {
    if steps != [] {
      var s := Apply(w.store, steps[0]);
      SameDisturb(w.(store := s, trace := w.trace + [Mark(Env(steps[0]), s)]),
                  w'.(store := s, trace := w'.trace + [Mark(Env(steps[0]), s)]), steps[1..]);
    }
  }

  lemma OwnPass(r: Renaming, w: World, w': World, request: Request) returns (r': Renaming)
    requires ValidWorld(w) && ValidWorld(w') && SameView(r, w.store, w'.store, request.key)
    ensures ValidWorld(Serve(w, request)) && ValidWorld(Serve(w', request)) && Extends(r, r')
    ensures SameView(r', Serve(w, request).store, Serve(w', request).store, request.key)
  {
    ServeSteps(w, request);
    ServeSteps(w', request);
    r' := DispatchTwins(r, Begin(w, request), Begin(w', request), request.key);
  }

  lemma {:induction false} ThinnedTwins(r: Renaming, w: World, w': World, requests: seq<Request>, k: Key)
      returns (r': Renaming)
    requires ValidWorld(w) && ValidWorld(w') && SameView(r, w.store, w'.store, k)
    ensures Extends(r, r') && SameView(r', RunAll(w, requests).store, Play(w', Thinned(w, requests, k)).store, k)
    decreases |requests|
  {
    r' := r;
    if requests != [] {
      var first, rest := requests[0], requests[1..];
      var w1 := Serve(w, first);
      assert Thinned(w, requests, k)[1..] == Thinned(w1, rest, k);
      if first.key == k {
        var r1 := OwnPass(r, w, w', first);
        r' := ThinnedTwins(r1, w1, Serve(w', first), rest, k);
        ExtendsThen(r, r1, r');
      } else {
        var r1 := ForeignPass(r, w, w', first, k);
        DisturbValid(w', OutsideOf(w, first));
        r' := ThinnedTwins(r1, w1, Disturb(w', OutsideOf(w, first)), rest, k);
        ExtendsThen(r, r1, r');
      }
    }
  }

  /** The same objects under a name, up to an injective renaming of versions, and the same surroundings and time. */
  ghost predicate SameBut(r: Renaming, s: Store, s': Store, k: Key) {
    Injective(r) && Renames(r, At(s, k), At(s', k)) && Around(s) == Around(s') && s.clock == s'.clock
  }

  /**
   Non-interference: after any interleaving of passes over any names, whatever fails and whatever other writers do,
   the objects under a name are, up to the numbering of versions, those that its own passes leave when all other
   passes are taken out and only what other writers did during them is kept.
   */
  lemma NonInterference(w: World, requests: seq<Request>, k: Key) returns (r: Renaming)
    requires ValidWorld(w) && Numbered(w.store, k)
    ensures SameBut(r, RunAll(w, requests).store, Play(w, Thinned(w, requests, k)).store, k)
  {
    IdentityRenames(w.store, k);
    r := ThinnedTwins(Identity(w.store.revision), w, w, requests, k);
  }

  // ---------- Runs in which others mind their own names ----------

  /** Every step of other writers in this schedule is away from this name. */
  ghost predicate AllAway(schedule: seq<Call>, k: Key) {
    forall e :: Scheduled(e, schedule) ==> Away(e, k)
  }

  lemma AwayMark(tr: Trace, i: int, k: Key)
    requires Unnoticed(tr, i, k) && (tr[i].act.Env? ==> Away(tr[i].act.step, k))
    ensures Unmoved(tr[i - 1].store, tr[i].store, k)
  {
    if tr[i].act.Env? {
      AwayKeeps(tr[i - 1].store, tr[i].act.step, k);
    }
  }

  lemma {:induction false} AwayMarks(start: nat, tr: Trace, i: nat, k: Key)
    requires 1 <= start && start - 1 <= i < |tr|
    requires forall m :: start <= m < |tr| ==> Unnoticed(tr, m, k)
    requires forall m :: start <= m < |tr| && tr[m].act.Env? ==> Away(tr[m].act.step, k)
    ensures Unmoved(tr[start - 1].store, tr[i].store, k)
    decreases i
  {
    if i >= start {
      AwayMarks(start, tr, i - 1, k);
      assert Unnoticed(tr, i, k);
      AwayMark(tr, i, k);
    }
  }

  lemma ScheduledAway(w: World, w': World, k: Key)
    requires Drawn(w, w') && AllAway(w.schedule, k)
    ensures forall m :: |w.trace| <= m < |w'.trace| && w'.trace[m].act.Env? ==> Away(w'.trace[m].act.step, k)
  {
  }

  lemma WorldEnds(w: World, w': World)
    requires ValidWorld(w) && ValidWorld(w') && w.trace <= w'.trace
    ensures |w.trace| > 0 && w'.trace[|w.trace| - 1].store == w.store && w'.trace[|w'.trace| - 1].store == w'.store
  {
  }

  lemma AwayPass(w: World, request: Request, k: Key)
    requires ValidWorld(w) && request.key != k && AllAway(request.schedule, k)
    ensures ValidWorld(Serve(w, request)) && Unmoved(w.store, Serve(w, request).store, k)
  {
    var w' := Serve(w, request);
    ServeSteps(w, request);
    ForeignServe(w, request, k);
    ScheduledAway(Begin(w, request), w', k);
    AwayMarksOf(w, w', k);
  }

  lemma AwayMarksOf(w: World, w': World, k: Key)
    requires ValidWorld(w) && ValidWorld(w') && w.trace <= w'.trace
    requires forall m :: |w.trace| <= m < |w'.trace| ==> Unnoticed(w'.trace, m, k)
    requires forall m :: |w.trace| < m < |w'.trace| && w'.trace[m].act.Env? ==> Away(w'.trace[m].act.step, k)
    requires |w.trace| < |w'.trace| && !w'.trace[|w.trace|].act.Env?
    ensures Unmoved(w.store, w'.store, k)
  {
    WorldEnds(w, w');
    AwayMarks(|w.trace|, w'.trace, |w'.trace| - 1, k);
  }

  /** The requests for one name. */
  function Own(requests: seq<Request>, k: Key): seq<Request> {
    if requests == [] then []
    else if requests[0].key == k then [requests[0]] + Own(requests[1..], k)
    else Own(requests[1..], k)
  }

  lemma {:induction false} OwnTwins(r: Renaming, w: World, w': World, requests: seq<Request>, k: Key)
      returns (r': Renaming)
    requires ValidWorld(w) && ValidWorld(w') && SameView(r, w.store, w'.store, k)
    requires forall x :: x in requests && x.key != k ==> AllAway(x.schedule, k)
    ensures Extends(r, r') && SameView(r', RunAll(w, requests).store, RunAll(w', Own(requests, k)).store, k)
    decreases |requests|
  {
    r' := r;
    if requests != [] {
      var first, rest := requests[0], requests[1..];
      if first.key == k {
        var r1 := OwnPass(r, w, w', first);
        r' := OwnTwins(r1, Serve(w, first), Serve(w', first), rest, k);
        ExtendsThen(r, r1, r');
        assert Own(requests, k)[1..] == Own(rest, k);
      } else {
        AwayPass(w, first, k);
        UnmovedView(r, w.store, w'.store, Serve(w, first).store, w'.store, k);
        r' := OwnTwins(r, Serve(w, first), w', rest, k);
      }
    }
  }

  /** When others touch neither the name nor shared objects nor the clock during foreign passes, filtering is enough. */
  lemma {:induction false} OwnPassesSuffice(w: World, requests: seq<Request>, k: Key) returns (r: Renaming)
    requires ValidWorld(w) && Numbered(w.store, k)
    requires forall x :: x in requests && x.key != k ==> AllAway(x.schedule, k)
    ensures SameBut(r, RunAll(w, requests).store, RunAll(w, Own(requests, k)).store, k)
  {
    IdentityRenames(w.store, k);
    r := OwnTwins(Identity(w.store.revision), w, w, requests, k);
  }

  /** Other writers' steps, if any, concern the pass's own name or objects that no pass looks at. */
  ghost predicate KeepsToItself(x: Request) {
    forall k :: k != x.key ==> AllAway(x.schedule, k)
  }

  lemma SameButBack(r: Renaming, s: Store, s': Store, k: Key)
    requires SameBut(r, s, s', k)
    ensures SameBut(Inverse(r), s', s, k)
  {
    InverseRenames(r, At(s, k), At(s', k));
  }

  lemma SameButOn(r: Renaming, r': Renaming, s: Store, s': Store, s'': Store, k: Key)
    requires SameBut(r, s, s', k) && SameBut(r', s', s'', k)
    ensures SameBut(Then(r, r'), s, s'', k)
  {
    ThenRenames(r, r', At(s, k), At(s', k), At(s'', k));
  }

  lemma SameButTogether(r: Renaming, r': Renaming, s: Store, s': Store, s'': Store, k: Key)
    requires SameBut(r, s, s'', k) && SameBut(r', s', s'', k)
    ensures SameBut(Then(r, Inverse(r')), s, s', k)
  {
    SameButBack(r', s', s'', k);
    SameButOn(r, Inverse(r'), s, s'', s', k);
  }

  /** Passes for different names commute, under every name. */
  lemma {:induction false} PassesCommute(w: World, a: Request, b: Request, q: Key) returns (r: Renaming)
    requires ValidWorld(w) && Numbered(w.store, q) && a.key != b.key && KeepsToItself(a) && KeepsToItself(b)
    ensures SameBut(r, RunAll(w, [a, b]).store, RunAll(w, [b, a]).store, q)
  {
    var r1 := OwnPassesSuffice(w, [a, b], q);
    var r2 := OwnPassesSuffice(w, [b, a], q);
    assert [a, b][1..] == [b] && [b, a][1..] == [a] && [a][1..] == [] && [b][1..] == [];
    assert Own([a], q) == if a.key == q then [a] else [];
    assert Own([b], q) == if b.key == q then [b] else [];
    assert Own([a, b], q) == Own([b, a], q);
    SameButTogether(r1, r2, RunAll(w, [a, b]).store, RunAll(w, [b, a]).store, RunAll(w, Own([a, b], q)).store, q);
    r := Then(r1, Inverse(r2));
  }

  lemma {:induction false} ThinnedTwo(w: World, a: Request, b: Request, k: Key)
    ensures Thinned(w, [a, b], k) == [ItemOf(w, a, k), ItemOf(Serve(w, a), b, k)]
  {
    var two, one := [a, b], [b];
    assert two[1..] == one && one[1..] == [];
    assert Thinned(Serve(w, a), one, k) == [ItemOf(Serve(w, a), b, k)] + Thinned(Serve(Serve(w, a), b), one[1..], k);
  }

  lemma {:induction false} PlayTwo(w: World, one: Item, two: Item)
    ensures Play(w, [one, two]) == PlayItem(PlayItem(w, one), two)
  {
    var items, rest := [one, two], [two];
    assert items[1..] == rest && rest[1..] == [];
    assert Play(PlayItem(w, one), rest) == Play(PlayItem(PlayItem(w, one), two), rest[1..]);
  }

  /**
   Without that condition the order matters by exactly this much: seen from one of the names, the other pass is what
   other writers do during it, taken after the own pass or before it.
   */
  lemma {:induction false} PassesExchange(w: World, a: Request, b: Request) returns (r: Renaming, r': Renaming)
    requires ValidWorld(w) && Numbered(w.store, a.key) && a.key != b.key
    ensures SameBut(r, RunAll(w, [a, b]).store, Disturb(Serve(w, a), OutsideOf(Serve(w, a), b)).store, a.key)
    ensures SameBut(r', RunAll(w, [b, a]).store, Serve(Disturb(w, OutsideOf(w, b)), a).store, a.key)
  {
    var own, after, before := Pass(a), Others(OutsideOf(Serve(w, a), b)), Others(OutsideOf(w, b));
    r := NonInterference(w, [a, b], a.key);
    ThinnedTwo(w, a, b, a.key);
    PlayTwo(w, own, after);
    r' := NonInterference(w, [b, a], a.key);
    ThinnedTwo(w, b, a, a.key);
    PlayTwo(w, before, own);
  }

  /**
   So under a name two passes commute exactly when the own pass commutes with what other writers do during the other
   pass, in whichever order.
   */
  lemma {:induction false} PassesCommuteExactly(w: World, a: Request, b: Request)
    requires ValidWorld(w) && Numbered(w.store, a.key) && a.key != b.key
    ensures var after, before := OutsideOf(Serve(w, a), b), OutsideOf(w, b);
            SameUpToVersions(RunAll(w, [a, b]).store, RunAll(w, [b, a]).store, a.key) <==>
            SameUpToVersions(Disturb(Serve(w, a), after).store, Serve(Disturb(w, before), a).store, a.key)
  {
    var r1, r2 := PassesExchange(w, a, b);
    SameButLinked(r1, r2, RunAll(w, [a, b]).store, Disturb(Serve(w, a), OutsideOf(Serve(w, a), b)).store,
                  RunAll(w, [b, a]).store, Serve(Disturb(w, OutsideOf(w, b)), a).store, a.key);
  }

  ghost predicate SameUpToVersions(s: Store, s': Store, k: Key) {
    exists r :: SameBut(r, s, s', k)
  }

  lemma SameButLinked(r1: Renaming, r2: Renaming, s: Store, t: Store, s': Store, t': Store, k: Key)
    requires SameBut(r1, s, t, k) && SameBut(r2, s', t', k)
    ensures SameUpToVersions(s, s', k) <==> SameUpToVersions(t, t', k)
  {
    SameButBack(r1, s, t, k);
    SameButBack(r2, s', t', k);
    if r :| SameBut(r, s, s', k) {
      SameButOn(Inverse(r1), r, t, s, s', k);
      SameButOn(Then(Inverse(r1), r), r2, t, s', t', k);
    }
    if r :| SameBut(r, t, t', k) {
      SameButOn(r1, r, s, t, t', k);
      SameButOn(Then(r1, r), Inverse(r2), s, t', s', k);
    }
  }
}

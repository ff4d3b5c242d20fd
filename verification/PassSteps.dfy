/** Every pass, whatever other writers do during it and whichever of its calls fail, runs by legitimate steps. */
module PassSteps {
  import opened Prelude
  import opened Objects
  import opened Server
  import opened Passes
  import opened Steps
  import opened Networks
  import Annotations
  import References
  import Resources
  import SmfResources
  import Status

  /** What a pass that began at `from` and read its NFDeployment at `h` may rely on, before it has read more. */
  ghost predicate KnowsNF(k: Key, from: nat, w: World, h: nat, nf: NFDeployment) {
    && ValidWorld(w) && from <= |w.trace|
    && SawNF(from, w.trace, h, k, nf) && PinnedNF(w.store, k, nf) && w.trace[h].store.clock <= w.store.clock
    && NoDeploymentWrite(from, w.trace, k)
  }

  /** What it may rely on when it has read all its objects. */
  ghost predicate Knows(kind: Kind, k: Key, from: nat, w: World, h: nat, seen: Snapshot) {
    && KnowsNF(k, from, w, h, seen.nf)
    && VersionSeen(from, w.trace, k, seen.Version())
    && (seen.configMap.Some? ==> Existed(from, w.trace, CM, k))
    && (kind != UPF && seen.service ==> Existed(from, w.trace, SVC, k))
    && (seen.deployment.Some? ==> KnowsDeployment(k, from, w, h, seen.deployment.value))
  }

  ghost predicate KnowsDeployment(k: Key, from: nat, w: World, h: nat, d: Deployment) {
    PinnedDeployment(w.store, k, d) && exists h': nat :: h < h' && SawDeployment(from, w.trace, h', k, d)
  }

  lemma KnowsNFPersists(kind: Kind, k: Key, from: nat, w: World, w': World, h: nat, nf: NFDeployment, level: nat)
    requires KnowsNF(k, from, w, h, nf) && Ran(kind, k, from, w, w') && Quietly(w, w', k, level) && level >= 1
    ensures KnowsNF(k, from, w', h, nf)
  {
    LastSawPersists(from, w, w', h, NF, k, level);
    RanPinned(kind, k, from, w, w', k, |w'.trace| - 1);
    NoWriteQuietly(from, w, w', k, level);
  }

  lemma KnowsDeploymentPersists(kind: Kind, k: Key, from: nat, w: World, w': World, h: nat, d: Deployment)
    requires KnowsDeployment(k, from, w, h, d) && Ran(kind, k, from, w, w') && Quietly(w, w', k, 2)
    ensures KnowsDeployment(k, from, w', h, d)
  {
    RanPinned(kind, k, from, w, w', k, |w'.trace| - 1);
    var h': nat :| h < h' && SawDeployment(from, w.trace, h', k, d);
    LastSawPersists(from, w, w', h', DEP, k, 2);
    assert SawDeployment(from, w'.trace, h', k, d);
  }

  lemma KnowsPersists(kind: Kind, k: Key, from: nat, w: World, w': World, h: nat, seen: Snapshot)
    requires Knows(kind, k, from, w, h, seen) && Ran(kind, k, from, w, w') && Quietly(w, w', k, 2)
    ensures Knows(kind, k, from, w', h, seen)
  {
    KnowsNFPersists(kind, k, from, w, w', h, seen.nf, 2);
    VersionPersists(from, w.trace, w'.trace, k, seen.Version());
    if seen.configMap.Some? {
      ExistedPersists(from, w.trace, w'.trace, CM, k);
    }
    if kind != UPF && seen.service {
      ExistedPersists(from, w.trace, w'.trace, SVC, k);
    }
    if seen.deployment.Some? {
      KnowsDeploymentPersists(kind, k, from, w, w', h, seen.deployment.value);
    }
  }

  /** Other writers' steps before a call change nothing a pass relies on. */
  lemma ArriveKnows(kind: Kind, k: Key, from: nat, w: World, h: nat, seen: Snapshot)
    requires Knows(kind, k, from, w, h, seen)
    ensures var a := Arrive(w);
            && Ran(kind, k, from, w, a) && Knows(kind, k, from, a, h, seen)
            && a.trace != [] && a.trace[|a.trace| - 1].store == a.store
  {
    ArriveRan(kind, k, from, w);
    KnowsPersists(kind, k, from, w, Arrive(w), h, seen);
  }

  // ---------- Observation ----------

  lemma ObserveConfigMapRan(kind: Kind, k: Key, from: nat, w: World)
    requires ValidWorld(w) && from <= |w.trace|
    ensures var (w', configMap) := GetConfigMap(w, k);
            && Ran(kind, k, from, w, w') && Quietly(w, w', k, 2)
            && VersionSeen(from, w'.trace, k, if configMap.Some? then Rev(configMap.value.version) else Empty)
            && (configMap.Some? ==> Existed(from, w'.trace, CM, k))
  {
    ReadRan(kind, k, from, w, CM, k);
    var (w', configMap) := GetConfigMap(w, k);
    var last := |w'.trace| - 1;
    assert VersionAt(w'.trace[last], k, if configMap.Some? then Rev(configMap.value.version) else Empty);
    assert configMap.Some? ==> w'.trace[last].act == Saw(CM, k) && Present(w'.trace[last].store, CM, k);
  }

  lemma ObserveServiceRan(kind: Kind, k: Key, from: nat, w: World)
    requires ValidWorld(w) && from <= |w.trace|
    ensures var (w', service) := GetService(w, k);
            Ran(kind, k, from, w, w') && Quietly(w, w', k, 2) && (service ==> Existed(from, w'.trace, SVC, k))
  {
    ReadRan(kind, k, from, w, SVC, k);
    var (w', service) := GetService(w, k);
    var last := |w'.trace| - 1;
    assert service ==> w'.trace[last].act == Saw(SVC, k) && Present(w'.trace[last].store, SVC, k);
  }

  lemma ObserveDeploymentRan(kind: Kind, k: Key, from: nat, w: World, h: nat)
    requires ValidWorld(w) && from <= |w.trace| && h < |w.trace|
    ensures var (w', deployment) := GetDeployment(w, k);
            && Ran(kind, k, from, w, w') && Quietly(w, w', k, 1)
            && (deployment.Some? ==> KnowsDeployment(k, from, w', h, deployment.value))
  {
    ReadRan(kind, k, from, w, DEP, k);
    var (w', deployment) := GetDeployment(w, k);
    if deployment.Some? {
      assert SawDeployment(from, w'.trace, |w'.trace| - 1, k, deployment.value);
    }
  }

  lemma ObserveRan(kind: Kind, k: Key, from: nat, w: World, h: nat, nf: NFDeployment)
    requires KnowsNF(k, from, w, h, nf)
    ensures var (w', seen) := Observe(kind, w, k, nf);
            Ran(kind, k, from, w, w') && Knows(kind, k, from, w', h, seen) && seen.nf == nf
  {
    var (w1, configMap) := GetConfigMap(w, k);
    ObserveConfigMapRan(kind, k, from, w);
    KnowsNFPersists(kind, k, from, w, w1, h, nf, 2);
    var seen := Snapshot(nf, configMap, false, None);
    assert Knows(kind, k, from, w1, h, seen);
    ObserveRest(kind, k, from, w1, h, seen);
    RanTransitive(kind, k, from, w, w1, Observe(kind, w, k, nf).0);
  }

  lemma ObserveRest(kind: Kind, k: Key, from: nat, w1: World, h: nat, seen: Snapshot)
    requires Knows(kind, k, from, w1, h, seen) && seen.deployment.None? && !seen.service
    ensures var (w2, service) := if kind == UPF then (w1, true) else GetService(w1, k);
            var (w3, deployment) := GetDeployment(w2, k);
            Ran(kind, k, from, w1, w3)
                && Knows(kind, k, from, w3, h, Snapshot(seen.nf, seen.configMap, service, deployment))
  {
    var (w2, service) := if kind == UPF then (w1, true) else GetService(w1, k);
    if kind != UPF {
      ObserveServiceRan(kind, k, from, w1);
      KnowsPersists(kind, k, from, w1, w2, h, seen);
    }
    var withService := seen.(service := service);
    assert Knows(kind, k, from, w2, h, withService);
    ObserveDeployment(kind, k, from, w2, h, withService);
    RanTransitive(kind, k, from, w1, w2, GetDeployment(w2, k).0);
  }

  lemma ObserveDeployment(kind: Kind, k: Key, from: nat, w: World, h: nat, seen: Snapshot)
    requires Knows(kind, k, from, w, h, seen) && seen.deployment.None?
    ensures var (w', deployment) := GetDeployment(w, k);
            Ran(kind, k, from, w, w') && Knows(kind, k, from, w', h, seen.(deployment := deployment))
  {
    var (w', deployment) := GetDeployment(w, k);
    ObserveDeploymentRan(kind, k, from, w, h);
    KnowsNFPersists(kind, k, from, w, w', h, seen.nf, 1);
    VersionPersists(from, w.trace, w'.trace, k, seen.Version());
    if seen.configMap.Some? {
      ExistedPersists(from, w.trace, w'.trace, CM, k);
    }
    if kind != UPF && seen.service {
      ExistedPersists(from, w.trace, w'.trace, SVC, k);
    }
  }

  // ---------- Writes ----------

  lemma StatusIsJustified(kind: Kind, k: Key, from: nat, w: World, h: nat, seen: Snapshot, obs: Status.Observation)
    requires Knows(kind, k, from, w, h, seen) && seen.deployment.Some? && !seen.deployment.value.deleting
    requires obs == Status.Observation(seen.deployment.value.generation, seen.deployment.value.conditions)
    requires Status.WantsUpdate(obs, seen.nf.status.conditions)
    ensures var a, status := Arrive(w), Status.NextStatus(Subject(kind), obs, seen.nf.status, w.store.clock);
            k in a.store.nfs && seen.nf.version == a.store.nfs[k].version ==>
              StatusChanged(kind, k, from, a.trace, a.store, WriteStatus(a.store, k, status))
  {
    var a := Arrive(w);
    if k in a.store.nfs && seen.nf.version == a.store.nfs[k].version {
      ArriveKnows(kind, k, from, w, h, seen);
      assert a.trace[h] == w.trace[h] && a.store.nfs[k] == seen.nf;
      var d := seen.deployment.value;
      var h': nat :| h < h' && SawDeployment(from, a.trace, h', k, d);
      var s' := WriteStatus(a.store, k, Status.NextStatus(Subject(kind), obs, seen.nf.status, w.store.clock));
      assert StatusFrom(kind, k, from, a.trace, a.store, s', h, h', d, w.store.clock);
    }
  }

  lemma StatusIsStep(kind: Kind, k: Key, from: nat, past: Trace, s': Store)
    requires past != [] && StatusChanged(kind, k, from, past, past[|past| - 1].store, s')
    ensures Step(kind, k, from, past, Mark(Changed(NF, k), s'))
  {
  }

  lemma StatusWriteRan(kind: Kind, k: Key, from: nat, w: World, status: NFStatus, expected: nat)
    requires ValidWorld(w) && from <= |w.trace|
    requires var a := Arrive(w);
             k in a.store.nfs && expected == a.store.nfs[k].version ==>
               StatusChanged(kind, k, from, a.trace, a.store, WriteStatus(a.store, k, status))
    ensures var w' := UpdateStatus(w, k, status, expected).0;
            Ran(kind, k, from, w, w') && Quietly(w, w', k, 2)
  {
    var a := Arrive(w);
    ArriveRan(kind, k, from, w);
    var current := k in a.store.nfs && expected == a.store.nfs[k].version;
    if current {
      StatusIsStep(kind, k, from, a.trace, WriteStatus(a.store, k, status));
    }
    WriteRan(kind, k, from, w, if current then Some(WriteStatus(a.store, k, status)) else None, Changed(NF, k), NF);
  }

  lemma SyncStatusRan(kind: Kind, k: Key, from: nat, w: World, h: nat, seen: Snapshot)
    requires Knows(kind, k, from, w, h, seen) && seen.deployment.Some? && !seen.deployment.value.deleting
    ensures var w' := SyncStatus(kind, w, k, seen.nf, seen.deployment.value).0;
            Ran(kind, k, from, w, w') && Knows(kind, k, from, w', h, seen)
  {
    var d := seen.deployment.value;
    var obs := Status.Observation(d.generation, d.conditions);
    if Status.WantsUpdate(obs, seen.nf.status.conditions) {
      StatusIsJustified(kind, k, from, w, h, seen, obs);
      StatusWriteRan(kind, k, from, w, Status.NextStatus(Subject(kind), obs, seen.nf.status, w.store.clock),
          seen.nf.version);
      KnowsPersists(kind, k, from, w, SyncStatus(kind, w, k, seen.nf, d).0, h, seen);
    }
  }

  lemma ChangeIsStep(kind: Kind, k: Key, from: nat, past: Trace, s': Store)
    requires past != [] && DeploymentChanged(kind, k, from, past, past[|past| - 1].store, s')
    ensures Step(kind, k, from, past, Mark(Changed(DEP, k), s'))
  {
  }

  lemma UpdateRan(kind: Kind, k: Key, from: nat, w: World, template: Template, owned: bool, expected: Option<nat>)
    requires ValidWorld(w) && from <= |w.trace|
    requires var a := Arrive(w);
             k in a.store.deployments && (expected.Some? ==> expected.value == a.store.deployments[k].version) ==>
               DeploymentChanged(kind, k, from, a.trace, a.store, WriteTemplate(a.store, k, template, owned))
    ensures Ran(kind, k, from, w, UpdateDeployment(w, k, template, owned, expected).0)
  {
    var a := Arrive(w);
    ArriveRan(kind, k, from, w);
    var effect := UpdateEffect(a.store, k, template, owned, expected);
    if effect.Some? {
      ChangeIsStep(kind, k, from, a.trace, effect.value);
    }
    WriteRan(kind, k, from, w, effect, Changed(DEP, k), DEP);
  }

  lemma RollRan(kind: Kind, k: Key, from: nat, w: World, h: nat, seen: Snapshot)
    requires Knows(kind, k, from, w, h, seen) && seen.deployment.Some?
    ensures var d := seen.deployment.value;
            Ran(kind, k, from, w,
                UpdateDeployment(w, k, WithVersion(d.template, seen.Version()), d.owned, Some(d.version)).0)
  {
    var d := seen.deployment.value;
    var a := Arrive(w);
    ArriveKnows(kind, k, from, w, h, seen);
    if k in a.store.deployments && d.version == a.store.deployments[k].version {
      assert a.store.deployments[k] == d;
      assert ChangedTo(kind, k, from, a.trace, a.store, Roll(a.store, k, seen.Version()), seen.Version());
    }
    UpdateRan(kind, k, from, w, WithVersion(d.template, seen.Version()), d.owned, Some(d.version));
  }

  lemma RefRead(from: nat, tr: Trace, ref: ConfigRef)
    requires from < |tr| && tr[|tr| - 1].act == Saw(CFG, ref.key)
    requires var configs := tr[|tr| - 1].store.configs; ref.key in configs && configs[ref.key] == ref.payload
    ensures RefSeen(from, tr, ref)
  {
  }

  lemma OneMoreRef(from: nat, tr: Trace, tr': Trace, kept: seq<ConfigRef>, ref: ConfigRef)
    requires tr <= tr' && RefsSeen(from, tr, kept) && RefSeen(from, tr', ref)
    ensures RefsSeen(from, tr', SmfResources.AddRef(kept, ref))
  {
    RefsPersist(from, tr, tr', kept);
  }

  /** One reference is fetched. */
  lemma FetchOneRan(kind: Kind, k: Key, from: nat, w: World, h: nat, seen: Snapshot, key: Key, kept: seq<ConfigRef>)
    requires Knows(kind, k, from, w, h, seen) && RefsSeen(from, w.trace, kept)
    ensures var (w', payload) := GetConfig(w, key);
            && Ran(kind, k, from, w, w') && Knows(kind, k, from, w', h, seen)
            && (payload.Some? ==> RefsSeen(from, w'.trace, SmfResources.AddRef(kept, ConfigRef(key, payload.value))))
  {
    var (w', payload) := GetConfig(w, key);
    ReadRan(kind, k, from, w, CFG, key);
    KnowsPersists(kind, k, from, w, w', h, seen);
    if payload.Some? {
      RefRead(from, w'.trace, ConfigRef(key, payload.value));
      OneMoreRef(from, w.trace, w'.trace, kept, ConfigRef(key, payload.value));
    }
  }

  lemma {:induction false} FetchRefsRan(kind: Kind, k: Key, from: nat, w: World, h: nat, seen: Snapshot,
      names: seq<string>, kept: seq<ConfigRef>)
    requires Knows(kind, k, from, w, h, seen) && RefsSeen(from, w.trace, kept)
    ensures var (w', refs) := FetchRefs(w, k.namespace, names, kept);
            && Ran(kind, k, from, w, w') && Knows(kind, k, from, w', h, seen)
            && (refs.Some? ==> RefsSeen(from, w'.trace, refs.value))
    decreases |names|
  {
    if names != [] {
      var key := Key(k.namespace, names[0]);
      var (w1, payload) := GetConfig(w, key);
      FetchOneRan(kind, k, from, w, h, seen, key, kept);
      if payload.Some? {
        var kept' := SmfResources.AddRef(kept, ConfigRef(key, payload.value));
        FetchRefsRan(kind, k, from, w1, h, seen, names[1..], kept');
        RanTransitive(kind, k, from, w, w1, FetchRefs(w1, k.namespace, names[1..], kept').0);
      }
    }
  }

  /** Whatever the calls return, fetching keeps the first occurrence of every name. */
  lemma {:induction false} FetchedKeys(w: World, namespace: string, done: seq<string>, names: seq<string>,
      kept: seq<ConfigRef>, all: seq<string>)
    requires References.KeysAre(kept, namespace, References.Firsts(done)) && all == done + names
    ensures var refs := FetchRefs(w, namespace, names, kept).1;
            refs.Some? ==> References.KeysAre(refs.value, namespace, References.Firsts(all))
    decreases |names|
  {
    if names == [] {
      assert all == done;
    } else {
      var key, done' := Key(namespace, names[0]), done + [names[0]];
      var (w1, payload) := GetConfig(w, key);
      if payload.Some? {
        References.KeptKeys(kept, namespace, done, names[0], payload.value);
        assert all == done' + names[1..];
        FetchedKeys(w1, namespace, done', names[1..], SmfResources.AddRef(kept, ConfigRef(key, payload.value)), all);
      }
    }
  }

  lemma NadsFound(kind: Kind, k: Key, from: nat, w1: World, w2: World, networks: seq<Network>)
    requires networks != [] && Ran(kind, k, from, w1, w2) && from < |w1.trace|
    requires w1.trace[|w1.trace| - 1].act == Saw(NAD, Key(k.namespace, networks[0].name))
    requires Key(k.namespace, networks[0].name) in w1.store.nads
    requires NadsSeen(from, w2.trace, k, Annotations.NamesOf(networks[1..]))
    ensures NadsSeen(from, w2.trace, k, Annotations.NamesOf(networks))
  {
  }

  lemma {:induction false} FindNadsRan(kind: Kind, k: Key, from: nat, w: World, h: nat, seen: Snapshot,
      networks: seq<Network>)
    requires Knows(kind, k, from, w, h, seen)
    ensures var (w', ok) := FindNads(w, k.namespace, networks);
            && Ran(kind, k, from, w, w') && Knows(kind, k, from, w', h, seen)
            && (ok ==> NadsSeen(from, w'.trace, k, Annotations.NamesOf(networks)))
    decreases |networks|
  {
    if networks != [] {
      var key := Key(k.namespace, networks[0].name);
      var (w1, ok) := GetNad(w, key);
      ReadRan(kind, k, from, w, NAD, key);
      KnowsPersists(kind, k, from, w, w1, h, seen);
      if ok {
        var (w2, all) := FindNads(w1, k.namespace, networks[1..]);
        FindNadsRan(kind, k, from, w1, h, seen, networks[1..]);
        RanTransitive(kind, k, from, w, w1, w2);
        if all {
          NadsFound(kind, k, from, w1, w2, networks);
        }
      }
    }
  }

  // ---------- The last stage ----------

  /** What the Deployment stage may rely on: the ConfigMap and the Service are there, `version` is the ConfigMap's. */
  ghost predicate Ready(kind: Kind, k: Key, from: nat, w: World, h: nat, seen: Snapshot, version: Version) {
    && Knows(kind, k, from, w, h, seen)
    && VersionSeen(from, w.trace, k, version) && version != Empty
    && Existed(from, w.trace, CM, k) && (kind != UPF ==> Existed(from, w.trace, SVC, k))
  }

  lemma ReadyPersists(kind: Kind, k: Key, from: nat, w: World, w': World, h: nat, seen: Snapshot, version: Version)
    requires Ready(kind, k, from, w, h, seen, version) && Knows(kind, k, from, w', h, seen) && w.trace <= w'.trace
    ensures Ready(kind, k, from, w', h, seen, version)
  {
  }

  lemma CreationIsJustified(kind: Kind, k: Key, from: nat, a: World, h: nat, seen: Snapshot, version: Version,
      template: Template)
    requires Ready(kind, k, from, a, h, seen, version) && k !in a.store.deployments
    requires Resources.Desired(kind, version, k.name, seen.nf.spec) == Built(template)
    requires NadsSeen(from, a.trace, k, Annotations.NeededNames(kind, k.name, seen.nf.spec.interfaces))
    ensures DeploymentCreated(kind, k, from, a.trace, a.store, AddDeployment(a.store, k, template))
  {
    assert DeploymentFrom(kind, k, from, a.trace, a.store, AddDeployment(a.store, k, template), h, seen.nf, version);
  }

  lemma CreationIsStep(kind: Kind, k: Key, from: nat, past: Trace, s': Store)
    requires past != [] && DeploymentCreated(kind, k, from, past, past[|past| - 1].store, s')
    ensures Step(kind, k, from, past, Mark(Made(DEP, k), s'))
  {
  }

  lemma CreationRan(kind: Kind, k: Key, from: nat, w: World, template: Template)
    requires ValidWorld(w) && from <= |w.trace|
    requires var a := Arrive(w);
             k !in a.store.deployments ==>
                 DeploymentCreated(kind, k, from, a.trace, a.store, AddDeployment(a.store, k, template))
    ensures Ran(kind, k, from, w, CreateDeployment(w, k, template).0)
  {
    var a := Arrive(w);
    ArriveRan(kind, k, from, w);
    if k !in a.store.deployments {
      CreationIsStep(kind, k, from, a.trace, AddDeployment(a.store, k, template));
    }
    WriteRan(kind, k, from, w, if k in a.store.deployments then None
        else Some(AddDeployment(a.store, k, template)), Made(DEP, k), DEP);
  }

  lemma CreationWillBeStep(kind: Kind, k: Key, from: nat, w: World, h: nat, seen: Snapshot, version: Version,
      template: Template)
    requires Ready(kind, k, from, w, h, seen, version)
    requires Resources.Desired(kind, version, k.name, seen.nf.spec) == Built(template)
    requires NadsSeen(from, w.trace, k, Annotations.NeededNames(kind, k.name, seen.nf.spec.interfaces))
    ensures var a := Arrive(w);
            k !in a.store.deployments ==>
                DeploymentCreated(kind, k, from, a.trace, a.store, AddDeployment(a.store, k, template))
  {
    var a := Arrive(w);
    if k !in a.store.deployments {
      ArriveKnows(kind, k, from, w, h, seen);
      ReadyPersists(kind, k, from, w, a, h, seen, version);
      NadsPersist(from, w.trace, a.trace, k, Annotations.NeededNames(kind, k.name, seen.nf.spec.interfaces));
      CreationIsJustified(kind, k, from, a, h, seen, version, template);
    }
  }

  lemma CreateDeploymentRan(kind: Kind, k: Key, from: nat, w: World, h: nat, seen: Snapshot, version: Version,
      template: Template)
    requires Ready(kind, k, from, w, h, seen, version)
    requires Resources.Desired(kind, version, k.name, seen.nf.spec) == Built(template)
    requires NadsSeen(from, w.trace, k, Annotations.NeededNames(kind, k.name, seen.nf.spec.interfaces))
    ensures Ran(kind, k, from, w, CreateDeployment(w, k, template).0)
  {
    CreationWillBeStep(kind, k, from, w, h, seen, version, template);
    CreationRan(kind, k, from, w, template);
  }

  lemma ReplacementIsJustified(kind: Kind, k: Key, from: nat, a: World, h: nat, seen: Snapshot, version: Version,
      template: Template)
    requires Ready(kind, k, from, a, h, seen, version) && k in a.store.deployments && kind != AMF
    requires Resources.Desired(kind, version, k.name, seen.nf.spec) == Built(template)
    ensures DeploymentChanged(kind, k, from, a.trace, a.store, WriteTemplate(a.store, k, template, false))
  {
    var s' := WriteTemplate(a.store, k, template, false);
    assert ReplacedFrom(kind, k, from, a.trace, a.store, s', version, h, seen.nf);
    assert ChangedTo(kind, k, from, a.trace, a.store, s', version);
  }

  lemma ReplacementWillBeStep(kind: Kind, k: Key, from: nat, w: World, h: nat, seen: Snapshot, version: Version,
      template: Template)
    requires Ready(kind, k, from, w, h, seen, version) && kind != AMF
    requires Resources.Desired(kind, version, k.name, seen.nf.spec) == Built(template)
    ensures var a := Arrive(w);
            k in a.store.deployments ==>
                DeploymentChanged(kind, k, from, a.trace, a.store, WriteTemplate(a.store, k, template, false))
  {
    var a := Arrive(w);
    if k in a.store.deployments {
      ArriveKnows(kind, k, from, w, h, seen);
      ReadyPersists(kind, k, from, w, a, h, seen, version);
      ReplacementIsJustified(kind, k, from, a, h, seen, version, template);
    }
  }

  lemma ReplaceDeploymentRan(kind: Kind, k: Key, from: nat, w: World, h: nat, seen: Snapshot, version: Version,
      template: Template)
    requires Ready(kind, k, from, w, h, seen, version) && kind != AMF
    requires Resources.Desired(kind, version, k.name, seen.nf.spec) == Built(template)
    ensures Ran(kind, k, from, w, UpdateDeployment(w, k, template, false, None).0)
  {
    ReplacementWillBeStep(kind, k, from, w, h, seen, version, template);
    UpdateRan(kind, k, from, w, template, false, None);
  }

  lemma ValidateRan(kind: Kind, k: Key, from: nat, w: World, h: nat, seen: Snapshot, annotation: string)
    requires Knows(kind, k, from, w, h, seen)
    ensures var (w', ok) := Validate(w, k.namespace, Some(annotation));
            && Ran(kind, k, from, w, w') && Knows(kind, k, from, w', h, seen)
            && (ok ==>
                  && Unmarshal(annotation).Some?
                  && NadsSeen(from, w'.trace, k, Annotations.NamesOf(Unmarshal(annotation).value)))
  {
    var networks := Unmarshal(annotation);
    if networks.Some? {
      FindNadsRan(kind, k, from, w, h, seen, networks.value);
    }
  }

  lemma BehindGateRan(kind: Kind, k: Key, from: nat, w: World, h: nat, seen: Snapshot, version: Version,
      template: Template)
    requires Ready(kind, k, from, w, h, seen, version)
    requires Resources.Desired(kind, version, k.name, seen.nf.spec) == Built(template)
    ensures Ran(kind, k, from, w, CreateBehindGate(w, k, template).0)
  {
    Resources.AnnotatedNames(kind, version, k.name, seen.nf.spec);
    ValidateRan(kind, k, from, w, h, seen, template.annotations.networks.value);
    var (w1, ok) := Validate(w, k.namespace, template.annotations.networks);
    if ok {
      ReadyPersists(kind, k, from, w, w1, h, seen, version);
      CreateDeploymentRan(kind, k, from, w1, h, seen, version, template);
      RanTransitive(kind, k, from, w, w1, CreateDeployment(w1, k, template).0);
    }
  }

  lemma DeployRan(kind: Kind, k: Key, from: nat, w: World, h: nat, seen: Snapshot, version: Version)
    requires Ready(kind, k, from, w, h, seen, version)
    ensures Ran(kind, k, from, w, Deploy(kind, w, k, seen, version).0)
  {
    var desired := Resources.Desired(kind, version, k.name, seen.nf.spec);
    if desired.Built? {
      if seen.deployment.None? {
        BehindGateRan(kind, k, from, w, h, seen, version, desired.value);
      } else if kind != AMF {
        ReplaceDeploymentRan(kind, k, from, w, h, seen, version, desired.value);
      }
    }
  }

  lemma CreateServiceRan(kind: Kind, k: Key, from: nat, w: World, h: nat, seen: Snapshot)
    requires Knows(kind, k, from, w, h, seen) && kind != UPF
    ensures var (w', ok) := CreateService(w, k);
            Ran(kind, k, from, w, w') && Knows(kind, k, from, w', h, seen) && (ok ==> Existed(from, w'.trace, SVC, k))
  {
    var (w', ok) := CreateService(w, k);
    var a := Arrive(w);
    ArriveKnows(kind, k, from, w, h, seen);
    WriteRan(kind, k, from, w, if k in a.store.services then None
        else Some(AddService(a.store, k, true)), Made(SVC, k), SVC);
    KnowsPersists(kind, k, from, w, w', h, seen);
    if ok {
      var last := |w'.trace| - 1;
      assert w'.trace[last].act == Made(SVC, k) && Present(w'.trace[last].store, SVC, k);
    }
  }

  lemma EnsureServiceRan(kind: Kind, k: Key, from: nat, w: World, h: nat, seen: Snapshot, version: Version)
    requires Knows(kind, k, from, w, h, seen)
    requires VersionSeen(from, w.trace, k, version) && version != Empty && Existed(from, w.trace, CM, k)
    ensures Ran(kind, k, from, w, EnsureService(kind, w, k, seen, version).0)
  {
    if kind == UPF || seen.service {
      DeployRan(kind, k, from, w, h, seen, version);
    } else {
      CreateServiceRan(kind, k, from, w, h, seen);
      var (w1, ok) := CreateService(w, k);
      if ok {
        VersionPersists(from, w.trace, w1.trace, k, version);
        ExistedPersists(from, w.trace, w1.trace, CM, k);
        DeployRan(kind, k, from, w1, h, seen, version);
        RanTransitive(kind, k, from, w, w1, Deploy(kind, w1, k, seen, version).0);
      }
    }
  }

  /** These are the references of the spec, each read by this pass. */
  ghost predicate Fetched(kind: Kind, k: Key, from: nat, w: World, seen: Snapshot, refs: seq<ConfigRef>) {
    References.AreReferences(kind, k.namespace, seen.nf.spec, refs) && RefsSeen(from, w.trace, refs)
  }

  lemma ConfigMapIsJustified(kind: Kind, k: Key, from: nat, w: World, h: nat, seen: Snapshot, refs: seq<ConfigRef>,
      data: ConfigData)
    requires Knows(kind, k, from, w, h, seen) && Fetched(kind, k, from, w, seen, refs)
    requires Resources.ConfigMapData(kind, k.name, seen.nf.spec, refs) == Built(data)
    ensures var a := Arrive(w);
            k !in a.store.configMaps ==>
                ConfigMapCreated(kind, k, from, a.trace, a.store, AddConfigMap(a.store, k, data, true))
  {
    var a := Arrive(w);
    if k !in a.store.configMaps {
      ArriveKnows(kind, k, from, w, h, seen);
      RefsPersist(from, w.trace, a.trace, refs);
      assert ConfigMapFrom(kind, k, from, a.trace, a.store, AddConfigMap(a.store, k, data, true), h, seen.nf, refs);
    }
  }

  lemma ConfigMapIsStep(kind: Kind, k: Key, from: nat, past: Trace, s': Store)
    requires past != [] && ConfigMapCreated(kind, k, from, past, past[|past| - 1].store, s')
    ensures Step(kind, k, from, past, Mark(Made(CM, k), s'))
  {
  }

  lemma ConfigMapRan(kind: Kind, k: Key, from: nat, w: World, data: ConfigData)
    requires ValidWorld(w) && from <= |w.trace|
    requires var a := Arrive(w);
             k !in a.store.configMaps ==>
                 ConfigMapCreated(kind, k, from, a.trace, a.store, AddConfigMap(a.store, k, data, true))
    ensures var (w', version) := CreateConfigMap(w, k, data);
            && Ran(kind, k, from, w, w') && Quietly(w, w', k, 2)
            && (version.Some? ==>
                  && version.value.Rev? && VersionSeen(from, w'.trace, k, version.value)
                  && Existed(from, w'.trace, CM, k))
  {
    var (w', version) := CreateConfigMap(w, k, data);
    var a := Arrive(w);
    ArriveRan(kind, k, from, w);
    if k !in a.store.configMaps {
      ConfigMapIsStep(kind, k, from, a.trace, AddConfigMap(a.store, k, data, true));
    }
    WriteRan(kind, k, from, w, if k in a.store.configMaps then None
        else Some(AddConfigMap(a.store, k, data, true)), Made(CM, k), CM);
    if version.Some? {
      var last := |w'.trace| - 1;
      assert w'.trace[last] == Mark(Made(CM, k), AddConfigMap(a.store, k, data, true));
      assert VersionAt(w'.trace[last], k, version.value) && Present(w'.trace[last].store, CM, k);
    }
  }

  lemma CreateConfigMapRan(kind: Kind, k: Key, from: nat, w: World, h: nat, seen: Snapshot, refs: seq<ConfigRef>,
      data: ConfigData)
    requires Knows(kind, k, from, w, h, seen) && Fetched(kind, k, from, w, seen, refs)
    requires Resources.ConfigMapData(kind, k.name, seen.nf.spec, refs) == Built(data)
    ensures var (w', version) := CreateConfigMap(w, k, data);
            && Ran(kind, k, from, w, w') && Knows(kind, k, from, w', h, seen)
            && (version.Some? ==>
                  && version.value.Rev? && VersionSeen(from, w'.trace, k, version.value)
                  && Existed(from, w'.trace, CM, k))
  {
    ConfigMapIsJustified(kind, k, from, w, h, seen, refs, data);
    ConfigMapRan(kind, k, from, w, data);
    KnowsPersists(kind, k, from, w, CreateConfigMap(w, k, data).0, h, seen);
  }

  lemma EnsureConfigMapRan(kind: Kind, k: Key, from: nat, w: World, h: nat, seen: Snapshot, refs: seq<ConfigRef>)
    requires Knows(kind, k, from, w, h, seen) && Fetched(kind, k, from, w, seen, refs)
    ensures Ran(kind, k, from, w, EnsureConfigMap(kind, w, k, seen, refs).0)
  {
    var built := Resources.ConfigMapData(kind, k.name, seen.nf.spec, refs);
    if built.Built? {
      if seen.configMap.Some? {
        EnsureServiceRan(kind, k, from, w, h, seen, seen.Version());
      } else {
        CreateConfigMapRan(kind, k, from, w, h, seen, refs, built.value);
        var (w1, version) := CreateConfigMap(w, k, built.value);
        if version.Some? {
          EnsureServiceRan(kind, k, from, w1, h, seen, version.value);
          RanTransitive(kind, k, from, w, w1, EnsureService(kind, w1, k, seen, version.value).0);
        }
      }
    }
  }

  lemma BuildUpRan(kind: Kind, k: Key, from: nat, w: World, h: nat, seen: Snapshot)
    requires Knows(kind, k, from, w, h, seen)
    ensures Ran(kind, k, from, w, BuildUp(kind, w, k, seen).0)
  {
    if kind == SMF {
      var names := seen.nf.spec.parametersRefs;
      FetchRefsRan(kind, k, from, w, h, seen, names, []);
      FetchedKeys(w, k.namespace, [], names, [], names);
      var (w1, refs) := FetchRefs(w, k.namespace, names, []);
      if refs.Some? {
        EnsureConfigMapRan(kind, k, from, w1, h, seen, refs.value);
        RanTransitive(kind, k, from, w, w1, EnsureConfigMap(kind, w1, k, seen, refs.value).0);
      }
    } else {
      EnsureConfigMapRan(kind, k, from, w, h, seen, []);
    }
  }

  /** What follows a successful status synchronisation. */
  lemma AfterSyncRan(kind: Kind, k: Key, from: nat, w: World, h: nat, seen: Snapshot)
    requires Knows(kind, k, from, w, h, seen) && seen.deployment.Some?
    ensures Ran(kind, k, from, w, AfterSync(kind, w, k, seen, seen.deployment.value).0)
  {
    var d := seen.deployment.value;
    if d.template.annotations.ConfigMapVersion() == seen.Version() {
      BuildUpRan(kind, k, from, w, h, seen);
    } else {
      RollRan(kind, k, from, w, h, seen);
    }
  }

  lemma MaintainRan(kind: Kind, k: Key, from: nat, w: World, h: nat, seen: Snapshot)
    requires Knows(kind, k, from, w, h, seen) && seen.deployment.Some?
    ensures Ran(kind, k, from, w, Maintain(kind, w, k, seen, seen.deployment.value).0)
  {
    var d := seen.deployment.value;
    if d.deleting {
      AfterSyncRan(kind, k, from, w, h, seen);
    } else {
      SyncStatusRan(kind, k, from, w, h, seen);
      var (w1, ok) := SyncStatus(kind, w, k, seen.nf, d);
      if ok {
        AfterSyncRan(kind, k, from, w1, h, seen);
        RanTransitive(kind, k, from, w, w1, AfterSync(kind, w1, k, seen, d).0);
      }
    }
  }

  /** A pass of a network function, begun at `from` or later, runs by legitimate steps. */
  lemma ReconcileRan(kind: Kind, k: Key, from: nat, w: World)
    requires ValidWorld(w) && from <= |w.trace| && NoDeploymentWrite(from, w.trace, k)
    ensures Ran(kind, k, from, w, Reconcile(kind, w, k).0)
  {
    var (w1, got) := GetNF(w, k);
    ReadRan(kind, k, from, w, NF, k);
    if got.Found? {
      NoWriteQuietly(from, w, w1, k, 0);
      FoundRan(kind, k, from, w1, |w1.trace| - 1, got.nf);
      RanTransitive(kind, k, from, w, w1, Reconcile(kind, w, k).0);
    }
  }

  /** The pass after its read of the NFDeployment. */
  lemma FoundRan(kind: Kind, k: Key, from: nat, w: World, h: nat, nf: NFDeployment)
    requires KnowsNF(k, from, w, h, nf)
    ensures var (w', seen) := Observe(kind, w, k, nf);
            seen.deployment.Some? ==> Ran(kind, k, from, w, Maintain(kind, w', k, seen, seen.deployment.value).0)
    ensures var (w', seen) := Observe(kind, w, k, nf);
            seen.deployment.None? ==> Ran(kind, k, from, w, BuildUp(kind, w', k, seen).0)
  {
    var (w', seen) := Observe(kind, w, k, nf);
    ObserveRan(kind, k, from, w, h, nf);
    if seen.deployment.Some? {
      MaintainRan(kind, k, from, w', h, seen);
      RanTransitive(kind, k, from, w, w', Maintain(kind, w', k, seen, seen.deployment.value).0);
    } else {
      BuildUpRan(kind, k, from, w', h, seen);
      RanTransitive(kind, k, from, w, w', BuildUp(kind, w', k, seen).0);
    }
  }
}

/**
 Two stores that look the same to the passes for a name, up to the numbering of versions, stay so when the same call
 is made or the same outside step taken in both.
 */
module Views {
  import opened Prelude
  import opened Objects
  import opened Server
  import opened Locals
  import opened Renamings

  // ---------- Twins: two worlds that look the same to the passes for a name ----------

  ghost predicate SameView(r: Renaming, s: Store, s': Store, k: Key) {
    && Injective(r) && Bounded(r, s.revision, s'.revision)
    && Renames(r, At(s, k), At(s', k)) && Around(s) == Around(s') && s.clock == s'.clock
  }

  ghost predicate Twins(r: Renaming, w: World, w': World, k: Key) {
    w.schedule == w'.schedule && SameView(r, w.store, w'.store, k)
  }

  /** A later pair of worlds, under a renaming that knows more versions. */
  ghost predicate LaterTwins(r: Renaming, r': Renaming, w: World, w': World, k: Key) {
    Extends(r, r') && Twins(r', w, w', k)
  }

  lemma ExtendsThen(r: Renaming, r1: Renaming, r2: Renaming)
    requires Extends(r, r1) && Extends(r1, r2)
    ensures Extends(r, r2)
  {
  }

  // ---------- Writes ----------

  /** Both counters go up by one, and the two new versions correspond. */
  lemma NewVersions(r: Renaming, s: Store, s': Store, k: Key) returns (r': Renaming)
    requires SameView(r, s, s', k)
    ensures Injective(r') && Bounded(r', Next(s), Next(s')) && Extends(r, r') && Same(r', Next(s), Next(s'))
    ensures Renames(r', At(s, k), At(s', k))
  {
    r' := Pair(r, s.revision + 1, s'.revision + 1);
    PairExtends(r, s.revision, s'.revision);
    RenamesGrows(r, r', At(s, k), At(s', k));
  }

  function Rewritten(d: Deployment, template: Template, owned: bool, version: nat): Deployment {
    var generation := if d.template == template then d.generation else d.generation + 1;
    d.(template := template, owned := owned, generation := generation, version := version)
  }

  lemma TemplateWritten(s: Store, k: Key, template: Template, owned: bool)
    requires k in s.deployments
    ensures var d := s.deployments[k];
            WriteTemplate(s, k, template, owned) ==
              if d.template == template && d.owned == owned then s
              else Bump(s.(deployments := s.deployments[k := Rewritten(d, template, owned, Next(s))]))
  {
  }

  lemma RewrittenTwins(r: Renaming, d: Deployment, d': Deployment, template: Template, template': Template, owned: bool,
                       version: nat, version': nat)
    requires Injective(r) && SameDeployment(r, d, d') && SameTemplate(r, template, template')
             && Same(r, version, version')
    ensures SameDeployment(r, Rewritten(d, template, owned, version), Rewritten(d', template', owned, version'))
  {
    TemplatesApart(r, d.template, d'.template, template, template');
  }

  lemma ReplaceTwins(r: Renaming, s: Store, s': Store, k: Key, template: Template, template': Template, owned: bool)
      returns (r': Renaming)
    requires SameView(r, s, s', k) && k in s.deployments && SameTemplate(r, template, template')
    ensures k in s'.deployments && Extends(r, r')
    ensures SameView(r', WriteTemplate(s, k, template, owned), WriteTemplate(s', k, template', owned), k)
  {
    Presence(r, s, s', k);
    var d, d' := s.deployments[k], s'.deployments[k];
    TemplatesApart(r, d.template, d'.template, template, template');
    TemplateWritten(s, k, template, owned);
    TemplateWritten(s', k, template', owned);
    if d.template == template && d.owned == owned {
      r' := r;
    } else {
      r' := NewVersions(r, s, s', k);
      RewriteTwins(r, r', s, s', k, template, template', owned);
    }
  }

  lemma RewriteTwins(r: Renaming, r': Renaming, s: Store, s': Store, k: Key, template: Template, template': Template,
      owned: bool)
    requires SameView(r, s, s', k) && k in s.deployments && k in s'.deployments && SameTemplate(r, template, template')
    requires SameDeployment(r, s.deployments[k], s'.deployments[k])
    requires Injective(r') && Bounded(r', Next(s), Next(s')) && Extends(r, r') && Same(r', Next(s), Next(s'))
    requires Renames(r', At(s, k), At(s', k))
    ensures var d, d' := Rewritten(s.deployments[k], template, owned, Next(s)),
            Rewritten(s'.deployments[k], template', owned, Next(s'));
            SameView(r', Bump(s.(deployments := s.deployments[k := d])),
                Bump(s'.(deployments := s'.deployments[k := d'])), k)
  {
    var d, d' := s.deployments[k], s'.deployments[k];
    SameTemplateGrows(r, r', template, template');
    SameDeploymentGrows(r, r', d, d');
    RewrittenTwins(r', d, d', template, template', owned, Next(s), Next(s'));
    NewDeployment(r', s, s', k, Rewritten(d, template, owned, Next(s)), Rewritten(d', template', owned, Next(s')));
  }

  lemma SetStatusTwins(r: Renaming, s: Store, s': Store, k: Key, status: NFStatus) returns (r': Renaming)
    requires SameView(r, s, s', k) && k in s.nfs
    ensures k in s'.nfs && Extends(r, r') && SameView(r', WriteStatus(s, k, status), WriteStatus(s', k, status), k)
  {
    assert At(s', k).nf.Some?;
    SetStatusAt(s, k, status);
    SetStatusAt(s', k, status);
    if s.nfs[k].status == status {
      r' := r;
    } else {
      r' := NewVersions(r, s, s', k);
    }
  }

  lemma AddConfigMapTwins(r: Renaming, s: Store, s': Store, k: Key, data: ConfigData, owned: bool)
      returns (r': Renaming)
    requires SameView(r, s, s', k)
    ensures Extends(r, r') && Same(r', Next(s), Next(s'))
    ensures SameView(r', AddConfigMap(s, k, data, owned), AddConfigMap(s', k, data, owned), k)
  {
    r' := NewVersions(r, s, s', k);
  }

  lemma AddServiceTwins(r: Renaming, s: Store, s': Store, k: Key, owned: bool) returns (r': Renaming)
    requires SameView(r, s, s', k)
    ensures Extends(r, r') && SameView(r', AddService(s, k, owned), AddService(s', k, owned), k)
  {
    r' := NewVersions(r, s, s', k);
  }

  lemma AddDeploymentTwins(r: Renaming, s: Store, s': Store, k: Key, template: Template, template': Template)
      returns (r': Renaming)
    requires SameView(r, s, s', k) && SameTemplate(r, template, template')
    ensures Extends(r, r') && SameView(r', AddDeployment(s, k, template), AddDeployment(s', k, template'), k)
  {
    r' := NewVersions(r, s, s', k);
    SameTemplateGrows(r, r', template, template');
  }

  // ---------- Other writers ----------

  /** A step of another writer that touches neither the name nor the surroundings nor the clock. */
  predicate Away(e: EnvStep, k: Key) {
    match e
    case AddNad(_) => false
    case RemoveNad(_) => false
    case PutConfig(_, _) => false
    case DeleteConfig(_) => false
    case WriteElsewhere(_) => true
    case Tick(_) => false
    case _ => e.key != k
  }

  /** The view is the same but for a counter that may have moved on. */
  predicate Unmoved(s: Store, s': Store, k: Key) {
    At(s', k) == At(s, k) && Around(s') == Around(s) && s'.clock == s.clock && s.revision <= s'.revision
  }

  lemma AwayKeeps(s: Store, e: EnvStep, k: Key)
    requires Away(e, k)
    ensures Unmoved(s, Apply(s, e), k)
  {
  }

  lemma UnmovedView(r: Renaming, s: Store, s': Store, s1: Store, s1': Store, k: Key)
    requires SameView(r, s, s', k) && Unmoved(s, s1, k) && Unmoved(s', s1', k)
    ensures SameView(r, s1, s1', k)
  {
  }

  lemma SharedTwins(r: Renaming, s: Store, s': Store, e: EnvStep, k: Key)
    requires SameView(r, s, s', k) && (e.AddNad? || e.RemoveNad? || e.PutConfig? || e.DeleteConfig? || e.Tick?)
    ensures SameView(r, Apply(s, e), Apply(s', e), k)
  {
    assert Around(s).nads == s.nads && Around(s).configs == s.configs;
    assert Around(s').nads == s'.nads && Around(s').configs == s'.configs;
    assert At(Apply(s, e), k) == At(s, k) && At(Apply(s', e), k) == At(s', k);
  }

  lemma Presence(r: Renaming, s: Store, s': Store, k: Key)
    requires SameView(r, s, s', k)
    ensures (k in s.nfs <==> k in s'.nfs) && (k in s.nfs ==> SameNF(r, s.nfs[k], s'.nfs[k]))
    ensures (k in s.configMaps <==> k in s'.configMaps)
            && (k in s.configMaps ==> SameConfigMap(r, s.configMaps[k], s'.configMaps[k]))
    ensures k in s.services <==> k in s'.services
    ensures (k in s.deployments <==> k in s'.deployments)
            && (k in s.deployments ==> SameDeployment(r, s.deployments[k], s'.deployments[k]))
  {
    assert Both(At(s, k).nf, At(s', k).nf) && Both(At(s, k).configMap, At(s', k).configMap);
    assert Both(At(s, k).service, At(s', k).service) && Both(At(s, k).deployment, At(s', k).deployment);
  }

  lemma DeletionTwins(r: Renaming, s: Store, s': Store, e: EnvStep, k: Key)
    requires SameView(r, s, s', k) && (e.DeleteNF? || e.DeleteConfigMap? || e.DeleteService? || e.DeleteDeployment?)
             && e.key == k
    ensures SameView(r, Apply(s, e), Apply(s', e), k)
  {
    Presence(r, s, s', k);
  }

  lemma PutNFTwins(r: Renaming, s: Store, s': Store, k: Key, spec: Spec) returns (r': Renaming)
    requires SameView(r, s, s', k)
    ensures Extends(r, r') && SameView(r', Apply(s, PutNF(k, spec)), Apply(s', PutNF(k, spec)), k)
  {
    Presence(r, s, s', k);
    if k in s.nfs && s.nfs[k].spec == spec {
      r' := r;
    } else {
      r' := NewVersions(r, s, s', k);
      var status := if k in s.nfs then s.nfs[k].status else NFStatus(0, []);
      NewNF(r', s, s', k, NFDeployment(spec, status, Next(s)), NFDeployment(spec, status, Next(s')));
    }
  }

  lemma NewNF(r: Renaming, s: Store, s': Store, k: Key, nf: NFDeployment, nf': NFDeployment)
    requires Injective(r) && Bounded(r, Next(s), Next(s')) && Renames(r, At(s, k), At(s', k)) && SameNF(r, nf, nf')
    requires Around(s) == Around(s') && s.clock == s'.clock
    ensures SameView(r, Bump(s.(nfs := s.nfs[k := nf])), Bump(s'.(nfs := s'.nfs[k := nf'])), k)
  {
  }

  lemma NewDeployment(r: Renaming, s: Store, s': Store, k: Key, d: Deployment, d': Deployment)
    requires Injective(r) && Bounded(r, Next(s), Next(s')) && Renames(r, At(s, k), At(s', k))
             && SameDeployment(r, d, d')
    requires Around(s) == Around(s') && s.clock == s'.clock
    ensures SameView(r, Bump(s.(deployments := s.deployments[k := d])),
            Bump(s'.(deployments := s'.deployments[k := d'])), k)
  {
  }

  lemma PutConfigMapTwins(r: Renaming, s: Store, s': Store, k: Key, data: ConfigData) returns (r': Renaming)
    requires SameView(r, s, s', k)
    ensures Extends(r, r') && SameView(r', Apply(s, PutConfigMap(k, data)), Apply(s', PutConfigMap(k, data)), k)
  {
    Presence(r, s, s', k);
    if k in s.configMaps && s.configMaps[k].data == data {
      r' := r;
    } else {
      r' := AddConfigMapTwins(r, s, s', k, data, k in s.configMaps && s.configMaps[k].owned);
    }
  }

  lemma ConditionsTwins(r: Renaming, s: Store, s': Store, k: Key, conditions: seq<ConditionType>) returns (r': Renaming)
    requires SameView(r, s, s', k)
    ensures Extends(r, r')
            && SameView(r', Apply(s, SetConditions(k, conditions)), Apply(s', SetConditions(k, conditions)), k)
  {
    Presence(r, s, s', k);
    if k !in s.deployments || s.deployments[k].conditions == conditions {
      r' := r;
    } else {
      r' := NewVersions(r, s, s', k);
      SameDeploymentGrows(r, r', s.deployments[k], s'.deployments[k]);
      NewDeployment(r', s, s', k, s.deployments[k].(conditions := conditions, version := Next(s)),
                    s'.deployments[k].(conditions := conditions, version := Next(s')));
    }
  }

  lemma StartDeletionTwins(r: Renaming, s: Store, s': Store, k: Key) returns (r': Renaming)
    requires SameView(r, s, s', k)
    ensures Extends(r, r') && SameView(r', Apply(s, StartDeletion(k)), Apply(s', StartDeletion(k)), k)
  {
    Presence(r, s, s', k);
    if k !in s.deployments || s.deployments[k].deleting {
      r' := r;
    } else {
      r' := NewVersions(r, s, s', k);
      SameDeploymentGrows(r, r', s.deployments[k], s'.deployments[k]);
      NewDeployment(r', s, s', k, s.deployments[k].(deleting := true, version := Next(s)),
                    s'.deployments[k].(deleting := true, version := Next(s')));
    }
  }

  lemma WorkloadTwins(r: Renaming, s: Store, s': Store, k: Key, image: Image, large: bool) returns (r': Renaming)
    requires SameView(r, s, s', k)
    ensures Extends(r, r')
            && SameView(r', Apply(s, EditWorkload(k, image, large)), Apply(s', EditWorkload(k, image, large)), k)
  {
    Presence(r, s, s', k);
    r' := r;
    if k in s.deployments {
      r' := ReplaceTwins(r, s, s', k, s.deployments[k].template.(image := image, large := large),
                         s'.deployments[k].template.(image := image, large := large), s.deployments[k].owned);
    }
  }

  lemma ApplyTwins(r: Renaming, s: Store, s': Store, e: EnvStep, k: Key) returns (r': Renaming)
    requires SameView(r, s, s', k)
    ensures Extends(r, r') && SameView(r', Apply(s, e), Apply(s', e), k)
  {
    r' := r;
    if Away(e, k) {
      AwayKeeps(s, e, k);
      AwayKeeps(s', e, k);
      UnmovedView(r, s, s', Apply(s, e), Apply(s', e), k);
    } else {
      match e {
        case PutNF(_, spec) => r' := PutNFTwins(r, s, s', k, spec);
        case PutConfigMap(_, data) => r' := PutConfigMapTwins(r, s, s', k, data);
        case PutService(_) =>
          Presence(r, s, s', k);
          if k !in s.services {
            r' := AddServiceTwins(r, s, s', k, false);
          }
        case SetConditions(_, conditions) => r' := ConditionsTwins(r, s, s', k, conditions);
        case EditWorkload(_, image, large) => r' := WorkloadTwins(r, s, s', k, image, large);
        case StartDeletion(_) => r' := StartDeletionTwins(r, s, s', k);
        case DeleteNF(_) => DeletionTwins(r, s, s', e, k);
        case DeleteConfigMap(_) => DeletionTwins(r, s, s', e, k);
        case DeleteService(_) => DeletionTwins(r, s, s', e, k);
        case DeleteDeployment(_) => DeletionTwins(r, s, s', e, k);
        case _ => SharedTwins(r, s, s', e, k);
      }
    }
  }

  lemma {:induction false} DisturbTwins(r: Renaming, w: World, w': World, k: Key, steps: seq<EnvStep>)
      returns (r': Renaming)
    requires SameView(r, w.store, w'.store, k)
    ensures Extends(r, r') && SameView(r', Disturb(w, steps).store, Disturb(w', steps).store, k)
    decreases |steps|
  {
    r' := r;
    if steps != [] {
      var r1 := ApplyTwins(r, w.store, w'.store, steps[0], k);
      var s, s' := Apply(w.store, steps[0]), Apply(w'.store, steps[0]);
      r' := DisturbTwins(r1, w.(store := s, trace := w.trace + [Mark(Env(steps[0]), s)]),
                         w'.(store := s', trace := w'.trace + [Mark(Env(steps[0]), s')]), k, steps[1..]);
      ExtendsThen(r, r1, r');
    }
  }

  lemma ArriveTwins(r: Renaming, w: World, w': World, k: Key) returns (r': Renaming)
    requires Twins(r, w, w', k)
    ensures LaterTwins(r, r', Arrive(w), Arrive(w'), k)
  {
    r' := DisturbTwins(r, w, w', k, Upcoming(w).before);
  }

  // ---------- Reads ----------

  lemma GetNFTwins(r: Renaming, w: World, w': World, k: Key) returns (r': Renaming)
    requires Twins(r, w, w', k)
    ensures LaterTwins(r, r', GetNF(w, k).0, GetNF(w', k).0, k)
    ensures var (got, got') := (GetNF(w, k).1, GetNF(w', k).1);
            if got.Found? then got'.Found? && SameNF(r', got.nf, got'.nf) else got' == got
  {
    r' := ArriveTwins(r, w, w', k);
    Presence(r', Arrive(w).store, Arrive(w').store, k);
  }

  lemma GetConfigMapTwins(r: Renaming, w: World, w': World, k: Key) returns (r': Renaming)
    requires Twins(r, w, w', k)
    ensures LaterTwins(r, r', GetConfigMap(w, k).0, GetConfigMap(w', k).0, k)
    ensures var (got, got') := (GetConfigMap(w, k).1, GetConfigMap(w', k).1);
            Both(got, got') && (got.Some? ==> SameConfigMap(r', got.value, got'.value))
  {
    r' := ArriveTwins(r, w, w', k);
    Presence(r', Arrive(w).store, Arrive(w').store, k);
  }

  lemma GetServiceTwins(r: Renaming, w: World, w': World, k: Key) returns (r': Renaming)
    requires Twins(r, w, w', k)
    ensures LaterTwins(r, r', GetService(w, k).0, GetService(w', k).0, k) && GetService(w, k).1 == GetService(w', k).1
  {
    r' := ArriveTwins(r, w, w', k);
    Presence(r', Arrive(w).store, Arrive(w').store, k);
  }

  lemma GetDeploymentTwins(r: Renaming, w: World, w': World, k: Key) returns (r': Renaming)
    requires Twins(r, w, w', k)
    ensures LaterTwins(r, r', GetDeployment(w, k).0, GetDeployment(w', k).0, k)
    ensures var (got, got') := (GetDeployment(w, k).1, GetDeployment(w', k).1);
            Both(got, got') && (got.Some? ==> SameDeployment(r', got.value, got'.value))
  {
    r' := ArriveTwins(r, w, w', k);
    Presence(r', Arrive(w).store, Arrive(w').store, k);
  }

  lemma GetNadTwins(r: Renaming, w: World, w': World, k: Key, q: Key) returns (r': Renaming)
    requires Twins(r, w, w', k)
    ensures LaterTwins(r, r', GetNad(w, q).0, GetNad(w', q).0, k) && GetNad(w, q).1 == GetNad(w', q).1
  {
    r' := ArriveTwins(r, w, w', k);
    assert Around(Arrive(w).store).nads == Around(Arrive(w').store).nads;
  }

  lemma GetConfigTwins(r: Renaming, w: World, w': World, k: Key, q: Key) returns (r': Renaming)
    requires Twins(r, w, w', k)
    ensures LaterTwins(r, r', GetConfig(w, q).0, GetConfig(w', q).0, k) && GetConfig(w, q).1 == GetConfig(w', q).1
  {
    r' := ArriveTwins(r, w, w', k);
    assert Around(Arrive(w).store).configs == Around(Arrive(w').store).configs;
  }

  // ---------- Writing calls ----------

  /** The same write in both worlds. */
  lemma WriteTwins(r: Renaming, r1: Renaming, a: World, a': World, effect: Option<Store>, effect': Option<Store>,
                   done: Act, what: Resource, k: Key) returns (r': Renaming)
    requires Twins(r, a, a', k) && Both(effect, effect')
    requires effect.Some? ==> Extends(r, r1) && SameView(r1, effect.value, effect'.value, k)
    ensures r' == if effect.None? || Upcoming(a).fault == Refused then r else r1
    ensures var (x, x') := (Write(a, effect, done, what, k), Write(a', effect', done, what, k));
            LaterTwins(r, r', x.0, x'.0, k) && x.1 == x'.1
  {
    r' := if effect.None? || Upcoming(a).fault == Refused then r else r1;
  }

  predicate SameExpected(r: Renaming, expected: Option<nat>, expected': Option<nat>) {
    Both(expected, expected') && (expected.Some? ==> Same(r, expected.value, expected'.value))
  }

  lemma ExpectedTwins(r: Renaming, r1: Renaming, expected: Option<nat>, expected': Option<nat>, n: nat, n': nat)
    requires Injective(r1) && Extends(r, r1) && SameExpected(r, expected, expected') && Same(r1, n, n')
    ensures (expected.Some? ==> expected.value == n) <==> (expected'.Some? ==> expected'.value == n')
  {
  }

  lemma UpdateEffectTwins(r: Renaming, r1: Renaming, s: Store, s': Store, k: Key, template: Template,
      template': Template,
                          owned: bool, expected: Option<nat>, expected': Option<nat>) returns (r': Renaming)
    requires SameView(r1, s, s', k) && Extends(r, r1)
    requires SameTemplate(r, template, template') && SameExpected(r, expected, expected')
    ensures var (e, e') := (UpdateEffect(s, k, template, owned, expected),
            UpdateEffect(s', k, template', owned, expected'));
            Extends(r1, r') && Both(e, e') && (e.Some? ==> SameView(r', e.value, e'.value, k))
  {
    Presence(r1, s, s', k);
    SameTemplateGrows(r, r1, template, template');
    r' := r1;
    if k in s.deployments {
      ExpectedTwins(r, r1, expected, expected', s.deployments[k].version, s'.deployments[k].version);
      r' := ReplaceTwins(r1, s, s', k, template, template', owned);
    }
  }

  lemma UpdateTwins(r: Renaming, w: World, w': World, k: Key, template: Template, template': Template, owned: bool,
                    expected: Option<nat>, expected': Option<nat>) returns (r': Renaming)
    requires Twins(r, w, w', k) && SameTemplate(r, template, template') && SameExpected(r, expected, expected')
    ensures var (u, u') := (UpdateDeployment(w, k, template, owned, expected),
            UpdateDeployment(w', k, template', owned, expected'));
            LaterTwins(r, r', u.0, u'.0, k) && u.1 == u'.1
  {
    var a, a' := Arrive(w), Arrive(w');
    var r1 := ArriveTwins(r, w, w', k);
    var r2 := UpdateEffectTwins(r, r1, a.store, a'.store, k, template, template', owned, expected, expected');
    r' := WriteTwins(r1, r2, a, a', UpdateEffect(a.store, k, template, owned, expected),
                     UpdateEffect(a'.store, k, template', owned, expected'), Changed(DEP, k), DEP, k);
    ExtendsThen(r, r1, r');
  }

  lemma StatusTwins(r: Renaming, w: World, w': World, k: Key, status: NFStatus, expected: nat, expected': nat)
      returns (r': Renaming)
    requires Twins(r, w, w', k) && Same(r, expected, expected')
    ensures var (u, u') := (UpdateStatus(w, k, status, expected), UpdateStatus(w', k, status, expected'));
            LaterTwins(r, r', u.0, u'.0, k) && u.1 == u'.1
  {
    var a, a' := Arrive(w), Arrive(w');
    var r1 := ArriveTwins(r, w, w', k);
    Presence(r1, a.store, a'.store, k);
    r' := r1;
    if k in a.store.nfs && expected == a.store.nfs[k].version && Upcoming(w).fault != Refused {
      r' := SetStatusTwins(r1, a.store, a'.store, k, status);
      ExtendsThen(r, r1, r');
    }
  }

  lemma CreateConfigMapTwins(r: Renaming, w: World, w': World, k: Key, data: ConfigData) returns (r': Renaming)
    requires Twins(r, w, w', k)
    ensures var (u, u') := (CreateConfigMap(w, k, data), CreateConfigMap(w', k, data));
            && LaterTwins(r, r', u.0, u'.0, k)
            && Both(u.1, u'.1) && (u.1.Some? ==> SameVersion(r', u.1.value, u'.1.value))
  {
    var a, a' := Arrive(w), Arrive(w');
    var r1 := ArriveTwins(r, w, w', k);
    Presence(r1, a.store, a'.store, k);
    var r2 := AddConfigMapTwins(r1, a.store, a'.store, k, data, true);
    r' := WriteTwins(r1, r2, a, a', if k in a.store.configMaps then None
        else Some(AddConfigMap(a.store, k, data, true)),
                     if k in a'.store.configMaps then None
                         else Some(AddConfigMap(a'.store, k, data, true)), Made(CM, k), CM, k);
    ExtendsThen(r, r1, r');
  }

  lemma CreateServiceTwins(r: Renaming, w: World, w': World, k: Key) returns (r': Renaming)
    requires Twins(r, w, w', k)
    ensures LaterTwins(r, r', CreateService(w, k).0, CreateService(w', k).0, k)
            && CreateService(w, k).1 == CreateService(w', k).1
  {
    var a, a' := Arrive(w), Arrive(w');
    var r1 := ArriveTwins(r, w, w', k);
    Presence(r1, a.store, a'.store, k);
    var r2 := AddServiceTwins(r1, a.store, a'.store, k, true);
    r' := WriteTwins(r1, r2, a, a', if k in a.store.services then None else Some(AddService(a.store, k, true)),
                     if k in a'.store.services then None
                         else Some(AddService(a'.store, k, true)), Made(SVC, k), SVC, k);
    ExtendsThen(r, r1, r');
  }

  lemma CreateDeploymentTwins(r: Renaming, w: World, w': World, k: Key, template: Template, template': Template)
      returns (r': Renaming)
    requires Twins(r, w, w', k) && SameTemplate(r, template, template')
    ensures var (u, u') := (CreateDeployment(w, k, template), CreateDeployment(w', k, template'));
            LaterTwins(r, r', u.0, u'.0, k) && u.1 == u'.1
  {
    var a, a' := Arrive(w), Arrive(w');
    var r1 := ArriveTwins(r, w, w', k);
    Presence(r1, a.store, a'.store, k);
    SameTemplateGrows(r, r1, template, template');
    var r2 := AddDeploymentTwins(r1, a.store, a'.store, k, template, template');
    r' := WriteTwins(r1, r2, a, a', if k in a.store.deployments then None
        else Some(AddDeployment(a.store, k, template)),
                     if k in a'.store.deployments then None
                         else Some(AddDeployment(a'.store, k, template')), Made(DEP, k), DEP, k);
    ExtendsThen(r, r1, r');
  }
}

/** Repeated Config references make no difference, from the spec of an SMF to the objects its passes leave. */
module Repeats {
  import opened Prelude
  import opened Objects
  import opened Server
  import opened Passes
  import opened Locals
  import opened Calm
  import opened References
  import Status

  lemma {:induction false} SameFirstsResolveAlike(configs: map<Key, Payload>, namespace: string, names: seq<string>,
      names': seq<string>)
    requires Firsts(names) == Firsts(names')
    ensures Resolve(configs, namespace, names, []) == Resolve(configs, namespace, names', [])
  {
    ResolveKeepsFirsts(configs, namespace, names);
    ResolveKeepsFirsts(configs, namespace, names');
  }

  /** What the SMF builds for a spec does not depend on the references themselves, only on what they resolve to. */
  lemma {:induction false} SmfPlanOfRefs(around: Surroundings, k: Key, spec: Spec, names: seq<string>)
    requires Firsts(spec.parametersRefs) == Firsts(names)
    ensures PlanOf(SMF, around, k, spec.(parametersRefs := names)) == PlanOf(SMF, around, k, spec)
  {
    SameFirstsResolveAlike(around.configs, k.namespace, spec.parametersRefs, names);
  }

  /** The same objects, with other references in the spec. */
  function WithRefs(l: Local, names: seq<string>): Local {
    if l.nf.None? then l else l.(nf := Some(l.nf.value.(spec := l.nf.value.spec.(parametersRefs := names))))
  }

  lemma BuiltUpIgnoresRefs(plan: Plan, m: Moment, l: Local, names: seq<string>)
    ensures BuiltUp(plan, m, WithRefs(l, names)) == (WithRefs(BuiltUp(plan, m, l).0, names), BuiltUp(plan, m, l).1)
  {
  }

  lemma SyncedIgnoresRefs(kind: Kind, m: Moment, l: Local, names: seq<string>)
    requires l.nf.Some? && l.deployment.Some?
    ensures Synced(kind, m, WithRefs(l, names)) == WithRefs(Synced(kind, m, l), names)
  {
  }

  lemma ContinuedIgnoresRefs(plan: Plan, m: Moment, l: Local, names: seq<string>)
    requires l.deployment.Some?
    ensures Continued(plan, m, WithRefs(l, names)) ==
            (WithRefs(Continued(plan, m, l).0, names), Continued(plan, m, l).1)
  {
    if InStep(l) {
      BuiltUpIgnoresRefs(plan, m, l, names);
    } else {
      assert Rolled(WithRefs(l, names), m.deployment) == WithRefs(Rolled(l, m.deployment), names);
    }
  }

  lemma SettleIgnoresRefs(plan: Plan, m: Moment, l: Local, names: seq<string>)
    requires l.nf.Some?
    ensures Settle(plan, m, WithRefs(l, names)) == (WithRefs(Settle(plan, m, l).0, names), Settle(plan, m, l).1)
  {
    if l.deployment.None? {
      BuiltUpIgnoresRefs(plan, m, l, names);
    } else {
      SyncedIgnoresRefs(plan.kind, m, l, names);
      ContinuedIgnoresRefs(plan, m, Synced(plan.kind, m, l), names);
    }
  }

  // ---------- Passes at different moments ----------

  predicate AlikeDeployments(d: Deployment, d': Deployment) {
    && SameButVersion(d.template, d'.template) && d'.owned == d.owned
    && d'.conditions == d.conditions && d'.deleting == d.deleting && d'.generation == d.generation
  }

  predicate AlikeStatus(status: NFStatus, status': NFStatus) {
    && status'.observedGeneration == status.observedGeneration
    && Status.Kinds(status'.conditions) == Status.Kinds(status.conditions)
  }

  /** The same objects but for version numbers and times. */
  predicate Alike(l: Local, l': Local) {
    && (l'.nf.Some? <==> l.nf.Some?) && (l.nf.Some? ==> l'.nf.value.spec == l.nf.value.spec)
    && (l.nf.Some? ==> AlikeStatus(l.nf.value.status, l'.nf.value.status))
    && (l'.configMap.Some? <==> l.configMap.Some?)
        && (l.configMap.Some? ==> l'.configMap.value.data == l.configMap.value.data)
    && (l'.service.Some? <==> l.service.Some?)
    && (l'.deployment.Some? <==> l.deployment.Some?)
    && (l.deployment.Some? ==> AlikeDeployments(l.deployment.value, l'.deployment.value))
    && (InStep(l') <==> InStep(l))
  }

  lemma ReplaceAlike(l: Local, l': Local, t: Template, version: nat, version': nat)
    requires Alike(l, l') && l.deployment.Some? && l'.deployment == l.deployment
    ensures var one := Replace(l, WithVersion(t, VersionOf(l)), false, version);
            Alike(one, Replace(l', WithVersion(t, VersionOf(l')), false, version'))
  {
    assert InStep(Replace(l, WithVersion(t, VersionOf(l)), false, version));
    assert InStep(Replace(l', WithVersion(t, VersionOf(l')), false, version'));
  }

  lemma PlacedAlike(plan: Plan, m: Moment, m': Moment, l: Local, l': Local)
    requires Alike(l, l') && l'.deployment == l.deployment
    ensures Placed(plan, m, l).1 == Placed(plan, m', l').1 && Alike(Placed(plan, m, l).0, Placed(plan, m', l').0)
  {
    if plan.template.Built? && l.deployment.Some? {
      ReplaceAlike(l, l', plan.template.value, m.deployment, m'.deployment);
    }
  }

  lemma EquippedAlike(kind: Kind, m: Moment, m': Moment, l: Local, l': Local, data: ConfigData)
    requires Alike(l, l') && InStep(l)
    ensures Alike(Equipped(kind, m, l, data), Equipped(kind, m', l', data))
  {
  }

  lemma ContinuedAlike(plan: Plan, m: Moment, m': Moment, l: Local, l': Local)
    requires Alike(l, l') && l'.configMap == l.configMap && l'.deployment == l.deployment && l.deployment.Some?
    ensures Continued(plan, m, l).1 == Continued(plan, m', l').1
            && Alike(Continued(plan, m, l).0, Continued(plan, m', l').0)
  {
    if InStep(l) && plan.data.Built? {
      EquippedAlike(plan.kind, m, m', l, l', plan.data.value);
      PlacedAlike(plan, m, m', Equipped(plan.kind, m, l, plan.data.value),
          Equipped(plan.kind, m', l', plan.data.value));
    }
  }

  lemma SyncedAlike(kind: Kind, m: Moment, m': Moment, l: Local)
    requires l.nf.Some? && l.deployment.Some?
    ensures Alike(Synced(kind, m, l), Synced(kind, m', l))
    ensures Synced(kind, m, l).configMap == l.configMap && Synced(kind, m, l).deployment == l.deployment
  {
    var nf, seen := l.nf.value, Seen(l.deployment.value);
    var one, two := Status.Appended(Subject(kind), seen, nf.status.conditions, m.now),
        Status.Appended(Subject(kind), seen, nf.status.conditions, m'.now);
    assert Status.Kinds(nf.status.conditions + one) == Status.Kinds(nf.status.conditions) + Status.Kinds(one);
    assert Status.Kinds(nf.status.conditions + two) == Status.Kinds(nf.status.conditions) + Status.Kinds(two);
    assert Status.Kinds(one) == Status.Kinds(two);
  }

  /** When a pass comes, and which versions its writes get, makes no other difference. */
  lemma SettleAlike(plan: Plan, m: Moment, m': Moment, l: Local)
    requires l.nf.Some?
    ensures Settle(plan, m, l).1 == Settle(plan, m', l).1 && Alike(Settle(plan, m, l).0, Settle(plan, m', l).0)
  {
    if l.deployment.None? {
      if plan.data.Built? {
        EquippedAlike(plan.kind, m, m', l, l, plan.data.value);
        PlacedAlike(plan, m, m', Equipped(plan.kind, m, l, plan.data.value),
            Equipped(plan.kind, m', l, plan.data.value));
      }
    } else {
      SyncedAlike(plan.kind, m, m', l);
      SyncedAlike(plan.kind, m', m, l);
      ContinuedAlike(plan, m, m', Synced(plan.kind, m, l), Synced(plan.kind, m', l));
    }
  }

  // ---------- End to end ----------

  /**
   Reference deduplication end to end: two SMFs whose references have the same first occurrences, and nothing else
   apart, are treated alike by undisturbed passes. The passes end the same way and leave the same objects, the
   ConfigMap's data included, up to version numbers, times and the references themselves.
   */
  lemma {:induction false} RepeatsChangeNothing(w: World, w': World, k: Key, names: seq<string>)
    requires Undisturbed(w.schedule) && Undisturbed(w'.schedule) && Around(w.store) == Around(w'.store)
    requires At(w.store, k).nf.Some? && Firsts(At(w.store, k).nf.value.spec.parametersRefs) == Firsts(names)
    requires At(w'.store, k) == WithRefs(At(w.store, k), names)
    ensures Reconcile(SMF, w', k).1 == Reconcile(SMF, w, k).1
    ensures Alike(WithRefs(At(Reconcile(SMF, w, k).0.store, k), names), At(Reconcile(SMF, w', k).0.store, k))
  {
    var l, around := At(w.store, k), Around(w.store);
    var plan := PlanOf(SMF, around, k, l.nf.value.spec);
    SmfPlanOfRefs(around, k, l.nf.value.spec, names);
    var m := CalmReconcile(SMF, w, k);
    var m' := CalmReconcile(SMF, w', k);
    SettleIgnoresRefs(plan, m', l, names);
    SettleIgnoresRefs(plan, m, l, names);
    SettleAlike(plan, m, m', WithRefs(l, names));
  }

  /** Inserting a repeat of a listed reference anywhere behind it is one such change. */
  lemma {:induction false} RepeatedOnceChangesNothing(w: World, w': World, k: Key, a: seq<string>, x: string,
      b: seq<string>)
    requires Undisturbed(w.schedule) && Undisturbed(w'.schedule) && Around(w.store) == Around(w'.store)
    requires At(w.store, k).nf.Some? && x in a && At(w.store, k).nf.value.spec.parametersRefs == a + b
    requires At(w'.store, k) == WithRefs(At(w.store, k), a + [x] + b)
    ensures Alike(WithRefs(At(Reconcile(SMF, w, k).0.store, k), a + [x] + b), At(Reconcile(SMF, w', k).0.store, k))
  {
    RepeatsDoNotMatter(a, x, b);
    RepeatsChangeNothing(w, w', k, a + [x] + b);
  }
}

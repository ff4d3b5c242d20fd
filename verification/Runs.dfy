/** Whole runs: any sequence of dispatched passes, for any keys, with any other writers and any failing calls. */
module Runs {
  import opened Objects
  import opened Server
  import opened Passes
  import opened Steps
  import opened PassSteps

  /** One work item of the queue, and what happens around the calls of its pass. */
  datatype Request = Request(key: Key, schedule: seq<Call>)

  /** The queue hands over a work item: the trace records where its pass begins. */
  function Begin(w: World, request: Request): World {
    World(w.store, request.schedule, w.trace + [Mark(Began(request.key), w.store)])
  }

  function Serve(w: World, request: Request): World {
    Dispatch(Begin(w, request), request.key).0
  }

  function RunAll(w: World, requests: seq<Request>): World
    decreases |requests|
  {
    if requests == [] then w else RunAll(Serve(w, requests[0]), requests[1..])
  }

  predicate IsWrite(act: Act) {
    act.Made? || act.Changed?
  }

  /** Mark `i` belongs to the pass for `k` that began at mark `from`: no other pass began in between. */
  ghost predicate InPass(tr: Trace, from: nat, i: int, k: Key) {
    from < i <= |tr| && tr[from].act == Began(k) && forall m :: from < m < i ==> !tr[m].act.Began?
  }

  /** The first NFDeployment this pass read, which is the dispatcher's, is of this kind. */
  ghost predicate Dispatched(kind: Kind, k: Key, from: nat, tr: Trace, i: int) {
    exists h: nat :: from <= h < i <= |tr| && FirstSaw(tr, from, h, k)
                     && k in tr[h].store.nfs && tr[h].store.nfs[k].spec.provider == Free5gc(kind)
  }

  ghost predicate FirstSaw(tr: Trace, from: nat, h: nat, k: Key) {
    from <= h < |tr| && tr[h].act == Saw(NF, k) && forall m :: from <= m < h ==> tr[m].act != Saw(NF, k)
  }

  /** The last read of this object before mark `i`, in the pass that began at `from`. */
  ghost predicate LastSawBefore(tr: Trace, from: nat, h: nat, i: nat, what: Resource, k: Key) {
    from <= h < i <= |tr| && tr[h].act == Saw(what, k) && forall m :: h < m < i ==> tr[m].act != Saw(what, k)
  }

  lemma LastSawIsBefore(tr: Trace, from: nat, h: nat, i: nat, what: Resource, k: Key)
    requires i <= |tr| && LastSaw(from, tr[..i], h, what, k)
    ensures LastSawBefore(tr, from, h, i, what, k)
  {
    var past := tr[..i];
    assert |past| == i;
    forall m | h < m < i ensures tr[m].act != Saw(what, k) {
      assert tr[m] == past[m];
    }
  }

  /** A step of the pass for `k` that began at `from`; its writes are those of the kind it was dispatched to. */
  ghost predicate PassStep(k: Key, from: nat, tr: Trace, i: int) {
    InPass(tr, from, i, k) &&
    exists kind :: StepAt(kind, k, from, tr, i) && (IsWrite(tr[i].act) ==> Dispatched(kind, k, from, tr, i))
  }

  predicate Begins(tr: Trace, i: int) {
    0 < i < |tr| && tr[i].act.Began? && tr[i].store == tr[i - 1].store
  }

  /** In a run whose marks start at `start`: the beginning of a pass, or a step of the pass that began last. */
  ghost predicate LegalAt(start: nat, tr: Trace, i: int) {
    Begins(tr, i) || exists k, from: nat :: start <= from && PassStep(k, from, tr, i)
  }

  ghost predicate Reaches(w: World, w': World) {
    && ValidWorld(w') && w.trace <= w'.trace
    && forall i :: |w.trace| <= i < |w'.trace| ==> LegalAt(|w.trace|, w'.trace, i)
  }

  lemma {:induction false} DisturbActs(w: World, steps: seq<EnvStep>, i: nat)
    requires |w.trace| <= i
    ensures w.trace <= Disturb(w, steps).trace
    ensures i < |Disturb(w, steps).trace| ==> Disturb(w, steps).trace[i].act.Env?
    decreases |steps|
  {
    if steps != [] {
      var store := Apply(w.store, steps[0]);
      var w1 := w.(store := store, trace := w.trace + [Mark(Env(steps[0]), store)]);
      if i >= |w1.trace| {
        DisturbActs(w1, steps[1..], i);
      } else {
        DisturbActs(w1, steps[1..], i + 1);
        assert Disturb(w1, steps[1..]).trace[i] == w1.trace[i];
      }
    }
  }

  lemma StepIsNoBeginning(kind: Kind, k: Key, from: nat, tr: Trace, i: int)
    requires StepAt(kind, k, from, tr, i)
    ensures !tr[i].act.Began?
  {
  }

  // ---------- The dispatcher's read ----------

  lemma BeginValid(w: World, request: Request)
    requires ValidWorld(w)
    ensures ValidWorld(Begin(w, request)) && Begins(Begin(w, request).trace, |w.trace|)
    ensures NoDeploymentWrite(|w.trace|, Begin(w, request).trace, request.key)
  {
  }

  lemma LookUpActs(k: Key, w: World, i: nat)
    requires |w.trace| <= i
    ensures i < |GetNF(w, k).0.trace| - 1 ==> GetNF(w, k).0.trace[i].act.Env?
    ensures w.trace <= GetNF(w, k).0.trace
  {
    DisturbActs(w, Upcoming(w).before, i);
  }

  /** The dispatcher's own read, in a pass that began at the last mark. */
  lemma LookUpSteps(k: Key, from: nat, w: World)
    requires ValidWorld(w) && |w.trace| == from + 1 && w.trace[from].act == Began(k)
    ensures var w' := GetNF(w, k).0;
            && (forall kind :: Ran(kind, k, from, w, w'))
            && Quietly(w, w', k, 0) && |w.trace| < |w'.trace|
            && forall i :: |w.trace| <= i < |w'.trace| ==> !IsWrite(w'.trace[i].act)
    ensures var (w', got) := GetNF(w, k);
            var last := |w'.trace| - 1;
            got.Found? ==>
              && FirstSaw(w'.trace, from, last, k) && k in w'.trace[last].store.nfs
              && w'.trace[last].store.nfs[k] == got.nf
  {
    var w' := GetNF(w, k).0;
    forall kind ensures Ran(kind, k, from, w, w') {
      ReadRan(kind, k, from, w, NF, k);
    }
    ReadRan(UPF, k, from, w, NF, k);
    forall i | |w.trace| <= i < |w'.trace| ensures !IsWrite(w'.trace[i].act)
        && (i < |w'.trace| - 1 ==> w'.trace[i].act.Env?) {
      LookUpActs(k, w, i);
    }
    assert w'.trace[from] == w.trace[from];
  }

  // ---------- The whole pass ----------

  /** Steps of one kind are steps of the pass that begins with them. */
  lemma RanIsPass(kind: Kind, k: Key, from: nat, w: World, w': World)
    requires Ran(kind, k, from, w, w') && |w.trace| == from + 1 && w.trace[from].act == Began(k)
    requires forall i :: |w.trace| <= i < |w'.trace| && IsWrite(w'.trace[i].act) ==>
             Dispatched(kind, k, from, w'.trace, i)
    ensures forall i :: |w.trace| <= i < |w'.trace| ==> PassStep(k, from, w'.trace, i)
  {
    assert w'.trace[from] == w.trace[from];
    forall m | from < m < |w'.trace| ensures !w'.trace[m].act.Began? {
      assert StepAt(kind, k, from, w'.trace, m);
      StepIsNoBeginning(kind, k, from, w'.trace, m);
    }
    forall i | |w.trace| <= i < |w'.trace| ensures PassStep(k, from, w'.trace, i) {
      assert StepAt(kind, k, from, w'.trace, i);
    }
  }

  /** What was dispatched after the dispatcher's read stays dispatched. */
  lemma StaysDispatched(kind: Kind, k: Key, from: nat, tr: Trace, tr': Trace, i: int)
    requires tr <= tr' && |tr| <= i < |tr'| && from < |tr| && FirstSaw(tr, from, |tr| - 1, k)
    requires k in tr[|tr| - 1].store.nfs && tr[|tr| - 1].store.nfs[k].spec.provider == Free5gc(kind)
    ensures Dispatched(kind, k, from, tr', i)
  {
    var h := |tr| - 1;
    assert forall m :: from <= m < |tr| ==> tr'[m] == tr[m];
    assert FirstSaw(tr', from, h, k);
  }

  ghost predicate WritesDispatched(kind: Kind, k: Key, from: nat, w: World, w': World) {
    forall i :: |w.trace| <= i < |w'.trace| && IsWrite(w'.trace[i].act) ==> Dispatched(kind, k, from, w'.trace, i)
  }

  /** The dispatcher's read writes nothing; all writes come after it. */
  lemma DelegatedWrites(kind: Kind, k: Key, from: nat, w: World, w1: World, w': World)
    requires w.trace <= w1.trace <= w'.trace && from < |w1.trace| && FirstSaw(w1.trace, from, |w1.trace| - 1, k)
    requires var last := w1.trace[|w1.trace| - 1];
             k in last.store.nfs && last.store.nfs[k].spec.provider == Free5gc(kind)
    requires forall i :: |w.trace| <= i < |w1.trace| ==> !IsWrite(w1.trace[i].act)
    ensures WritesDispatched(kind, k, from, w, w')
  {
    assert forall i :: |w.trace| <= i < |w1.trace| ==> w'.trace[i] == w1.trace[i];
    forall i | |w1.trace| <= i < |w'.trace| ensures Dispatched(kind, k, from, w'.trace, i) {
      StaysDispatched(kind, k, from, w1.trace, w'.trace, i);
    }
  }

  lemma DelegatedRan(kind: Kind, k: Key, from: nat, w: World, w1: World)
    requires Ran(kind, k, from, w, w1) && Quietly(w, w1, k, 0) && from <= |w1.trace|
             && NoDeploymentWrite(from, w.trace, k)
    ensures Ran(kind, k, from, w, Reconcile(kind, w1, k).0) && w1.trace <= Reconcile(kind, w1, k).0.trace
  {
    NoWriteQuietly(from, w, w1, k, 0);
    ReconcileRan(kind, k, from, w1);
    RanTransitive(kind, k, from, w, w1, Reconcile(kind, w1, k).0);
  }

  lemma DispatchRan(k: Key, from: nat, w: World) returns (kind: Kind)
    requires ValidWorld(w) && |w.trace| == from + 1 && w.trace[from].act == Began(k)
    ensures Ran(kind, k, from, w, Dispatch(w, k).0) && WritesDispatched(kind, k, from, w, Dispatch(w, k).0)
  {
    var (w1, got) := GetNF(w, k);
    LookUpSteps(k, from, w);
    kind := UPF;
    assert Ran(kind, k, from, w, w1);
    if got.Found? && got.nf.spec.provider.Free5gc? {
      kind := got.nf.spec.provider.kind;
      assert Ran(kind, k, from, w, w1);
      DelegatedRan(kind, k, from, w, w1);
      DelegatedWrites(kind, k, from, w, w1, Reconcile(kind, w1, k).0);
    }
  }

  /** Every mark of a dispatched pass is a step of that pass. */
  lemma ServeSteps(w: World, request: Request)
    requires ValidWorld(w)
    ensures var w' := Serve(w, request);
            && ValidWorld(w') && w.trace <= w'.trace && |w.trace| < |w'.trace| && Begins(w'.trace, |w.trace|)
            && (forall i :: |w.trace| < i < |w'.trace| ==> PassStep(request.key, |w.trace|, w'.trace, i))
            && Drawn(Begin(w, request), w')
  {
    var w0 := Begin(w, request);
    BeginValid(w, request);
    var kind := DispatchRan(request.key, |w.trace|, w0);
    RanIsPass(kind, request.key, |w.trace|, w0, Serve(w, request));
    assert Serve(w, request).trace[|w.trace|] == w0.trace[|w.trace|];
  }

  lemma PassKind(k: Key, from: nat, tr: Trace, i: int) returns (kind: Kind)
    requires PassStep(k, from, tr, i)
    ensures StepAt(kind, k, from, tr, i) && (IsWrite(tr[i].act) ==> Dispatched(kind, k, from, tr, i))
  {
    kind :| StepAt(kind, k, from, tr, i) && (IsWrite(tr[i].act) ==> Dispatched(kind, k, from, tr, i));
  }

  // ---------- Runs ----------

  lemma StepAtIsLocal(kind: Kind, k: Key, from: nat, tr: Trace, tr': Trace, i: int)
    requires StepAt(kind, k, from, tr, i) && tr <= tr'
    ensures StepAt(kind, k, from, tr', i)
  {
    assert tr'[..i] == tr[..i];
  }

  lemma DispatchedIsLocal(kind: Kind, k: Key, from: nat, tr: Trace, tr': Trace, i: int)
    requires Dispatched(kind, k, from, tr, i) && tr <= tr'
    ensures Dispatched(kind, k, from, tr', i)
  {
    var h: nat :| from <= h < i && FirstSaw(tr, from, h, k) && k in tr[h].store.nfs
        && tr[h].store.nfs[k].spec.provider == Free5gc(kind);
    assert forall m :: from <= m < |tr| ==> tr'[m] == tr[m];
    assert FirstSaw(tr', from, h, k);
  }

  lemma PassStepIsLocal(k: Key, from: nat, tr: Trace, tr': Trace, i: int)
    requires PassStep(k, from, tr, i) && tr <= tr'
    ensures PassStep(k, from, tr', i)
  {
    var kind := PassKind(k, from, tr, i);
    StepAtIsLocal(kind, k, from, tr, tr', i);
    assert forall m :: 0 <= m < |tr| ==> tr'[m] == tr[m];
    if IsWrite(tr[i].act) {
      DispatchedIsLocal(kind, k, from, tr, tr', i);
    }
  }

  /** Every mark of a run begins a pass or is a step of the pass that began last. */
  lemma {:induction false} RunIsLegal(w: World, requests: seq<Request>)
    requires ValidWorld(w)
    ensures Reaches(w, RunAll(w, requests))
    decreases |requests|
  {
    if requests != [] {
      var w1, w' := Serve(w, requests[0]), RunAll(w, requests);
      ServeSteps(w, requests[0]);
      RunIsLegal(w1, requests[1..]);
      ReachesFurther(w, requests[0].key, w1, w');
    }
  }

  lemma ReachesFurther(w: World, k: Key, w1: World, w': World)
    requires ValidWorld(w1) && w.trace <= w1.trace && |w.trace| < |w1.trace| && Begins(w1.trace, |w.trace|)
    requires forall i :: |w.trace| < i < |w1.trace| ==> PassStep(k, |w.trace|, w1.trace, i)
    requires Reaches(w1, w')
    ensures Reaches(w, w')
  {
    forall i | |w.trace| <= i < |w'.trace| ensures LegalAt(|w.trace|, w'.trace, i) {
      if i == |w.trace| {
        assert w'.trace[i] == w1.trace[i] && w'.trace[i - 1] == w1.trace[i - 1];
      } else if i < |w1.trace| {
        PassStepIsLocal(k, |w.trace|, w1.trace, w'.trace, i);
      } else {
        assert LegalAt(|w1.trace|, w'.trace, i);
      }
    }
  }
}

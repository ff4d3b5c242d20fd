/** What holds along every run: the status log and the observed generation of a name. */
module StatusHistory {
  import opened Objects
  import opened Server
  import opened Passes
  import opened Steps
  import opened Runs
  import opened Frames
  import opened History
  import Status

  function Log(s: Store, q: Key): seq<Condition> {
    if q in s.nfs then s.nfs[q].status.conditions else []
  }

  /**
   The write at `i` stores one synchronisation of the status read at `h` with the Deployment read at `h'`: the last
   reads of the two objects in the pass that began at `from`.
   */
  ghost predicate SyncedAt(tr: Trace, from: nat, i: int, q: Key, h: nat, h': nat, d: Deployment, now: nat,
      subject: string) {
    && from <= h < h' < i < |tr| && q in tr[i - 1].store.nfs && q in tr[i].store.nfs
    && LastSawBefore(tr, from, h, i, NF, q) && LastSawBefore(tr, from, h', i, DEP, q)
    && q in tr[h].store.nfs && tr[h].store.nfs[q] == tr[i - 1].store.nfs[q]
    && q in tr[h'].store.deployments && tr[h'].store.deployments[q] == d && !d.deleting
    && tr[h].store.clock <= now <= tr[i - 1].store.clock
    && var seen := Status.Observation(d.generation, d.conditions);
       && Status.WantsUpdate(seen, tr[i - 1].store.nfs[q].status.conditions)
       && tr[i].store.nfs[q].status == Status.NextStatus(subject, seen, tr[i - 1].store.nfs[q].status, now)
  }

  lemma WrittenStatus(s: Store, k: Key, status: NFStatus)
    requires k in s.nfs
    ensures var s' := WriteStatus(s, k, status); k in s'.nfs && s'.nfs[k].status == status
  {
  }

  lemma StatusSource(kind: Kind, k: Key, from: nat, tr: Trace, i: int, h: nat, h': nat, d: Deployment, now: nat)
    requires 1 <= i < |tr| && StatusFrom(kind, k, from, tr[..i], tr[i - 1].store, tr[i].store, h, h', d, now)
    ensures SyncedAt(tr, from, i, k, h, h', d, now, Subject(kind))
  {
    var past, seen := tr[..i], Status.Observation(d.generation, d.conditions);
    LastSawIsBefore(tr, from, h, i, NF, k);
    LastSawIsBefore(tr, from, h', i, DEP, k);
    assert past[h] == tr[h] && past[h'] == tr[h'];
    WrittenStatus(tr[i - 1].store, k, Status.NextStatus(Subject(kind), seen, tr[i - 1].store.nfs[k].status, now));
  }

  lemma StepSource(kind: Kind, k: Key, from: nat, tr: Trace, i: int, q: Key)
      returns (h: nat, h': nat, d: Deployment, now: nat)
    requires StepAt(kind, k, from, tr, i) && tr[i].act == Changed(NF, q)
    ensures 1 <= i && q == k && SyncedAt(tr, from, i, q, h, h', d, now, Subject(kind))
  {
    var past := tr[..i];
    PastEnds(tr, i);
    JustifiedStatus(kind, k, from, past, tr[i - 1].store, tr[i], q);
    h, h', d, now :| StatusFrom(kind, q, from, past, tr[i - 1].store, tr[i].store, h, h', d, now);
    StatusSource(kind, q, from, tr, i, h, h', d, now);
  }

  /** Every status write of a run is a synchronisation of what its pass read last. */
  lemma StatusWrite(start: nat, tr: Trace, i: int, q: Key)
      returns (from: nat, h: nat, h': nat, d: Deployment, now: nat, subject: string)
    requires LegalAt(start, tr, i) && 0 <= i < |tr| && tr[i].act == Changed(NF, q)
    ensures 1 <= i && start <= from && InPass(tr, from, i, q) && SyncedAt(tr, from, i, q, h, h', d, now, subject)
  {
    var kind, k;
    kind, k, from := LegalStep(start, tr, i);
    h, h', d, now := StepSource(kind, k, from, tr, i, q);
    subject := Subject(kind);
  }

  // ---------- The log ----------

  ghost predicate LogOk(s: Store, q: Key) {
    Status.WellFormed(Log(s, q)) && forall c :: c in Log(s, q) ==> c.at <= s.clock
  }

  lemma SyncedLog(tr: Trace, from: nat, i: int, q: Key, h: nat, h': nat, d: Deployment, now: nat, subject: string)
    requires SyncedAt(tr, from, i, q, h, h', d, now, subject)
    ensures Log(tr[i].store, q) ==
            Status.Sync(subject, Status.Observation(d.generation, d.conditions), tr[i - 1].store.nfs[q].status,
                now).conditions
    ensures Status.Extends(Log(tr[i - 1].store, q), Log(tr[i].store, q))
    ensures LogOk(tr[h].store, q) && tr[i - 1].store.clock <= tr[i].store.clock ==> LogOk(tr[i].store, q)
  {
    if LogOk(tr[h].store, q) {
      Status.SyncKeepsLog(subject, Status.Observation(d.generation, d.conditions), tr[i - 1].store.nfs[q].status, now);
    }
  }

  /**
   Along every run, whatever fails and whatever other writers do, the log of each NFDeployment starts with
   Reconciling, its transition times never decrease, and equal neighbours are both Stalled.
   */
  lemma {:induction false} LogStaysWellFormed(start: nat, tr: Trace, i: int, q: Key)
    requires Legal(start, tr) && start - 1 <= i < |tr| && LogOk(tr[start - 1].store, q)
    ensures LogOk(tr[i].store, q)
    decreases i
  {
    if i >= start {
      assert LegalAt(start, tr, i);
      RunFollows(start, tr, i, q);
      if tr[i].act == Changed(NF, q) {
        var from, h, h', d, now, subject := StatusWrite(start, tr, i, q);
        LogStaysWellFormed(start, tr, h, q);
        SyncedLog(tr, from, i, q, h, h', d, now, subject);
      } else {
        LogStaysWellFormed(start, tr, i - 1, q);
      }
    }
  }

  /** How often the operator wrote the status in marks `i + 1` to `j`. */
  function StatusWrites(tr: Trace, i: int, j: int, q: Key): nat
    requires -1 <= i <= j < |tr|
    decreases j
  {
    if i == j then 0 else StatusWrites(tr, i, j - 1, q) + if tr[j].act == Changed(NF, q) then 1 else 0
  }

  predicate DeletesNF(act: Act, q: Key) {
    act == Env(DeleteNF(q))
  }

  /** Append-only: while the object lives its log only grows, by at most one condition per status write. */
  lemma {:induction false} LogOnlyGrows(start: nat, tr: Trace, i: int, j: int, q: Key)
    requires Legal(start, tr) && start - 1 <= i <= j < |tr| && q in tr[i].store.nfs
    requires forall m :: i < m <= j ==> !DeletesNF(tr[m].act, q)
    ensures q in tr[j].store.nfs
    ensures Log(tr[i].store, q) <= Log(tr[j].store, q)
    ensures |Log(tr[j].store, q)| <= |Log(tr[i].store, q)| + StatusWrites(tr, i, j, q)
    decreases j
  {
    if i < j {
      LogOnlyGrows(start, tr, i, j - 1, q);
      assert LegalAt(start, tr, j);
      RunFollows(start, tr, j, q);
      if tr[j].act == Changed(NF, q) {
        var from, h, h', d, now, subject := StatusWrite(start, tr, j, q);
        SyncedLog(tr, from, j, q, h, h', d, now, subject);
      }
    }
  }

  // ---------- The observed generation ----------

  /** Nobody deletes the NFDeployment or its Deployment. */
  ghost predicate NothingDeleted(start: nat, tr: Trace, q: Key) {
    forall m :: start <= m < |tr| ==> !DeletesNF(tr[m].act, q) && tr[m].act != Env(DeleteDeployment(q))
  }

  function Generation(s: Store, q: Key): nat {
    if q in s.deployments then s.deployments[q].generation else 0
  }

  function Observed(s: Store, q: Key): nat {
    if q in s.nfs then s.nfs[q].status.observedGeneration else 0
  }

  predicate ObservedNotAhead(s: Store, q: Key) {
    Observed(s, q) <= Generation(s, q) && Observed(s, q) <= 2147483647
  }

  lemma CreationGeneration(kind: Kind, k: Key, from: nat, past: Trace, s: Store, s': Store)
    requires DeploymentCreated(kind, k, from, past, s, s')
    ensures Generation(s, k) <= Generation(s', k)
  {
    var template := DeploymentShape(kind, k, from, past, s, s');
  }

  lemma ChangeGeneration(kind: Kind, k: Key, from: nat, past: Trace, s: Store, s': Store)
    requires DeploymentChanged(kind, k, from, past, s, s')
    ensures Generation(s, k) <= Generation(s', k)
  {
    var template, owned := ChangeShape(kind, k, from, past, s, s');
  }

  lemma EnvGeneration(s: Store, e: EnvStep, q: Key)
    requires e != DeleteDeployment(q)
    ensures Generation(s, q) <= Generation(Apply(s, e), q)
  {
  }

  lemma StepGeneration(kind: Kind, k: Key, from: nat, past: Trace, s: Store, mark: Mark, q: Key)
    requires past != [] && s == past[|past| - 1].store
    requires Step(kind, k, from, past, mark) && mark.act != Env(DeleteDeployment(q))
    ensures Generation(s, q) <= Generation(mark.store, q)
  {
    var s' := mark.store;
    if mark.act.Env? {
      EnvGeneration(s, mark.act.step, q);
    } else if mark.act == Made(DEP, q) {
      JustifiedCreation(kind, k, from, past, s, mark, q);
      CreationGeneration(kind, k, from, past, s, s');
    } else if mark.act == Changed(DEP, q) {
      JustifiedChange(kind, k, from, past, s, mark, q);
      ChangeGeneration(kind, k, from, past, s, s');
    } else {
      StepFrame(kind, k, from, past, mark, q);
      WriteFollows(kind, k, from, past, mark, q);
    }
  }

  lemma GenerationAt(kind: Kind, k: Key, from: nat, tr: Trace, i: int, q: Key)
    requires StepAt(kind, k, from, tr, i) && tr[i].act != Env(DeleteDeployment(q))
    ensures 1 <= i && Generation(tr[i - 1].store, q) <= Generation(tr[i].store, q)
  {
    PastEnds(tr, i);
    StepGeneration(kind, k, from, tr[..i], tr[i - 1].store, tr[i], q);
  }

  lemma RunGeneration(start: nat, tr: Trace, i: int, q: Key)
    requires LegalAt(start, tr, i) && 0 <= i < |tr| && tr[i].act != Env(DeleteDeployment(q))
    ensures 1 <= i && Generation(tr[i - 1].store, q) <= Generation(tr[i].store, q)
  {
    if tr[i].act.Began? {
      LegalIndex(start, tr, i);
      LegalBeginning(start, tr, i);
    } else {
      var kind, k, from := LegalStep(start, tr, i);
      GenerationAt(kind, k, from, tr, i, q);
    }
  }

  lemma {:induction false} GenerationGrows(start: nat, tr: Trace, i: int, j: int, q: Key)
    requires Legal(start, tr) && start - 1 <= i <= j < |tr| && NothingDeleted(start, tr, q)
    ensures Generation(tr[i].store, q) <= Generation(tr[j].store, q)
    decreases j
  {
    if i < j {
      GenerationGrows(start, tr, i, j - 1, q);
      assert LegalAt(start, tr, j);
      RunGeneration(start, tr, j, q);
    }
  }

  /**
   A pass that writes the status stores the generation of the Deployment as the same pass read it last,
       or 2^31 - 1 when it
   is larger.
   */
  lemma ObservedIsExact(w: World, request: Request, i: nat, q: Key) returns (h: nat)
    requires ValidWorld(w) && |w.trace| <= i < |Serve(w, request).trace|
    requires Serve(w, request).trace[i].act == Changed(NF, q)
    ensures var tr, from := Serve(w, request).trace, |w.trace|;
            && q == request.key && InPass(tr, from, i, q)
            && LastSawBefore(tr, from, h, i, DEP, q) && q in tr[h].store.deployments
            && Status.Holds(Observed(tr[i].store, q), tr[h].store.deployments[q].generation)
  {
    var tr := Serve(w, request).trace;
    ServeSteps(w, request);
    var kind := PassKind(request.key, |w.trace|, tr, i);
    var h0, h', d, now := StepSource(kind, request.key, |w.trace|, tr, i, q);
    h := h';
  }

  /** The observed generation never gets ahead of the Deployment's, clamped to 32 bits. */
  lemma {:induction false} ObservedNeverAhead(start: nat, tr: Trace, i: int, q: Key)
    requires Legal(start, tr) && start - 1 <= i < |tr| && NothingDeleted(start, tr, q)
    requires ObservedNotAhead(tr[start - 1].store, q)
    ensures ObservedNotAhead(tr[i].store, q)
    decreases i
  {
    if i >= start {
      assert LegalAt(start, tr, i);
      if tr[i].act == Changed(NF, q) {
        var from, h, h', d, now, subject := StatusWrite(start, tr, i, q);
        GenerationGrows(start, tr, h', i, q);
      } else {
        RunFollows(start, tr, i, q);
        ObservedNeverAhead(start, tr, i - 1, q);
        GenerationGrows(start, tr, i - 1, i, q);
      }
    }
  }

  lemma ObservedStays(start: nat, tr: Trace, i: int, q: Key)
    requires LegalAt(start, tr, i) && 0 <= i < |tr| && tr[i].act != Changed(NF, q) && !DeletesNF(tr[i].act, q)
    ensures 1 <= i && Observed(tr[i - 1].store, q) <= Observed(tr[i].store, q)
  {
    RunFollows(start, tr, i, q);
  }

  lemma ObservedGrows(start: nat, tr: Trace, i: int, q: Key)
    requires Legal(start, tr) && start <= i < |tr| && NothingDeleted(start, tr, q) && tr[i].act == Changed(NF, q)
    requires ObservedNotAhead(tr[start - 1].store, q)
    ensures Observed(tr[i - 1].store, q) <= Observed(tr[i].store, q)
  {
    assert LegalAt(start, tr, i);
    var from, h, h', d, now, subject := StatusWrite(start, tr, i, q);
    ObservedNeverAhead(start, tr, h, q);
    GenerationGrows(start, tr, h, h', q);
  }

  lemma ObservedStep(start: nat, tr: Trace, i: int, q: Key)
    requires Legal(start, tr) && start <= i < |tr| && NothingDeleted(start, tr, q)
    requires ObservedNotAhead(tr[start - 1].store, q)
    ensures Observed(tr[i - 1].store, q) <= Observed(tr[i].store, q)
  {
    assert LegalAt(start, tr, i);
    if tr[i].act == Changed(NF, q) {
      ObservedGrows(start, tr, i, q);
    } else {
      ObservedStays(start, tr, i, q);
    }
  }

  /** And it never decreases. */
  lemma {:induction false} ObservedNeverDecreases(start: nat, tr: Trace, i: int, j: int, q: Key)
    requires Legal(start, tr) && start - 1 <= i <= j < |tr| && NothingDeleted(start, tr, q)
    requires ObservedNotAhead(tr[start - 1].store, q)
    ensures Observed(tr[i].store, q) <= Observed(tr[j].store, q)
    decreases j
  {
    if i < j {
      ObservedNeverDecreases(start, tr, i, j - 1, q);
      ObservedStep(start, tr, j, q);
    }
  }
}

/** What holds along every run: safety properties of the whole history of a name. */
module History {
  import opened Prelude
  import opened Objects
  import opened Server
  import opened Passes
  import opened Steps
  import opened Runs
  import opened Frames
  import References
  import Resources

  /** A trace whose marks from `start` on are steps of passes. */
  ghost predicate Legal(start: nat, tr: Trace) {
    1 <= start <= |tr| && forall i :: start <= i < |tr| ==> LegalAt(start, tr, i)
  }

  /** A legal trace leads from `w` to `w'`. */
  ghost predicate IsRun(w: World, w': World) {
    && w.trace != [] && w.trace <= w'.trace && Legal(|w.trace|, w'.trace)
    && w'.trace[|w.trace| - 1].store == w.store && w'.trace[|w'.trace| - 1].store == w'.store
  }

  lemma ReachedIsRun(w: World, w': World)
    requires ValidWorld(w) && Reaches(w, w')
    ensures IsRun(w, w')
  {
  }

  /** Whatever is requested, whichever calls fail and whatever other writers do, a legal trace comes out. */
  lemma {:induction false} LegalRun(w: World, requests: seq<Request>)
    requires ValidWorld(w)
    ensures IsRun(w, RunAll(w, requests))
  {
    RunIsLegal(w, requests);
    ReachedIsRun(w, RunAll(w, requests));
  }

  // ---------- ConfigMaps are written once ----------

  /**
   The ConfigMap was created at `i` by the pass that began at `from`, for the kind that pass was dispatched to: it
   holds what the NFDeployment last read by that pass, with the Configs it refers to as read by that pass, is
   rendered to.
   */
  ghost predicate CreatedBy(tr: Trace, from: nat, i: int, q: Key, configMap: ConfigMap) {
    && 0 <= i < |tr| && tr[i].act == Made(CM, q) && configMap.owned && InPass(tr, from, i, q)
    && exists kind, h: nat, nf, refs ::
         Dispatched(kind, q, from, tr, i) && Rendered(kind, q, from, tr[..i], h, nf, refs, configMap.data)
  }

  ghost predicate CreatedAt(start: nat, tr: Trace, i: int, q: Key, configMap: ConfigMap) {
    exists from: nat :: start <= from && CreatedBy(tr, from, i, q, configMap)
  }

  ghost predicate Rendered(kind: Kind, q: Key, from: nat, past: Trace, h: nat, nf: NFDeployment,
                           refs: seq<ConfigRef>, data: ConfigData) {
    && SawNF(from, past, h, q, nf)
    && References.AreReferences(kind, q.namespace, nf.spec, refs) && RefsSeen(from, past, refs)
    && Resources.ConfigMapData(kind, q.name, nf.spec, refs) == Built(data)
  }

  lemma CreatedIsRendered(kind: Kind, k: Key, from: nat, past: Trace, s: Store, s': Store)
      returns (h: nat, nf: NFDeployment, refs: seq<ConfigRef>)
    requires ConfigMapCreated(kind, k, from, past, s, s')
    ensures k in s'.configMaps && s'.configMaps[k].owned
    ensures Rendered(kind, k, from, past, h, nf, refs, s'.configMaps[k].data)
  {
    h, nf, refs :| ConfigMapFrom(kind, k, from, past, s, s', h, nf, refs);
  }

  lemma StepRenders(kind: Kind, k: Key, from: nat, tr: Trace, i: int, q: Key)
    requires StepAt(kind, k, from, tr, i) && tr[i].act == Made(CM, q) && InPass(tr, from, i, k)
    requires Dispatched(kind, k, from, tr, i)
    ensures q in tr[i].store.configMaps && CreatedBy(tr, from, i, q, tr[i].store.configMaps[q])
  {
    var past := tr[..i];
    PastEnds(tr, i);
    JustifiedConfigMap(kind, k, from, past, tr[i - 1].store, tr[i], q);
    var h, nf, refs := CreatedIsRendered(kind, k, from, past, tr[i - 1].store, tr[i].store);
  }

  lemma CreationIsRendering(start: nat, tr: Trace, i: int, q: Key)
    requires LegalAt(start, tr, i) && 0 <= i < |tr| && tr[i].act == Made(CM, q)
    ensures q in tr[i].store.configMaps && CreatedAt(start, tr, i, q, tr[i].store.configMaps[q])
  {
    var kind, k, from := LegalStep(start, tr, i);
    StepRenders(kind, k, from, tr, i, q);
  }

  /** Nothing but the operator puts a ConfigMap under this name after `i`. */
  ghost predicate NotPut(tr: Trace, i: int, q: Key) {
    forall m :: i < m < |tr| && 0 <= m ==> !PutsConfigMap(tr[m].act, q)
  }

  ghost predicate NotEdited(tr: Trace, i: int, q: Key) {
    forall m :: i < m < |tr| && 0 <= m ==> !EditsConfigMap(tr[m].act, q)
  }

  /**
   Write-once ConfigMaps: along every run in which nobody else puts the ConfigMap (deletions are allowed), it is
   the one of the start, or the one a pass of this run created, unchanged.
   */
  lemma {:induction false} ConfigMapProvenance(start: nat, tr: Trace, i: int, q: Key)
    requires Legal(start, tr) && start - 1 <= i < |tr| && NotPut(tr, start - 1, q)
    requires q in tr[i].store.configMaps
    ensures (q in tr[start - 1].store.configMaps && tr[i].store.configMaps[q] == tr[start - 1].store.configMaps[q])
            || exists j :: start <= j <= i && CreatedAt(start, tr, j, q, tr[i].store.configMaps[q])
    decreases i
  {
    if i >= start {
      assert LegalAt(start, tr, i);
      RunFollows(start, tr, i, q);
      if tr[i].act == Made(CM, q) {
        CreationIsRendering(start, tr, i, q);
      } else {
        assert tr[i].act != Env(DeleteConfigMap(q)) by {
          if tr[i].act == Env(DeleteConfigMap(q)) {
            DeletedConfigMap(start, tr, i, q);
          }
        }
        ConfigMapProvenance(start, tr, i - 1, q);
      }
    }
  }

  lemma DeletedConfigMap(start: nat, tr: Trace, i: int, q: Key)
    requires LegalAt(start, tr, i) && 0 <= i < |tr| && tr[i].act == Env(DeleteConfigMap(q))
    ensures q !in tr[i].store.configMaps
  {
  }

  /** And without outside edits at all, a ConfigMap that is there stays, whatever calls fail. */
  lemma {:induction false} ConfigMapStays(start: nat, tr: Trace, i: int, j: int, q: Key)
    requires Legal(start, tr) && start - 1 <= i <= j < |tr| && NotEdited(tr, i, q)
    requires q in tr[i].store.configMaps
    ensures q in tr[j].store.configMaps && tr[j].store.configMaps[q] == tr[i].store.configMaps[q]
    decreases j
  {
    if i < j {
      ConfigMapStays(start, tr, i, j - 1, q);
      assert LegalAt(start, tr, j);
      RunFollows(start, tr, j, q);
    }
  }

  // ---------- The version annotation ----------

  /** The Deployment's version annotation; a missing Deployment has the empty one. */
  function Annotation(s: Store, q: Key): Version {
    if q in s.deployments then s.deployments[q].template.annotations.ConfigMapVersion() else Empty
  }

  lemma DesiredVersion(kind: Kind, version: Version, name: string, spec: Spec)
    requires Resources.Desired(kind, version, name, spec).Built?
    ensures Resources.Desired(kind, version, name, spec).value.annotations.ConfigMapVersion() == version
  {
  }

  ghost predicate HadVersion(tr: Trace, m: int, i: int, q: Key, version: Version) {
    && 0 <= m < i <= |tr| && HasVersion(tr[m].store, q, version)
    && forall x :: m <= x < i ==> !IsDeploymentWrite(tr[x].act, q)
  }

  lemma SeenIsHad(start: nat, from: nat, tr: Trace, i: int, q: Key, version: Version)
    requires 0 <= i < |tr| && start <= from && VersionSeen(from, tr[..i], q, version)
             && NoDeploymentWrite(from, tr[..i], q)
    ensures version == Empty || exists m :: start <= m && HadVersion(tr, m, i, q, version)
  {
    if version != Empty {
      var m :| from <= m < i && VersionAt(tr[..i][m], q, version);
      assert tr[..i][m] == tr[m];
      forall x | m <= x < i ensures !IsDeploymentWrite(tr[x].act, q) {
        assert tr[..i][x] == tr[x];
      }
      assert HadVersion(tr, m, i, q, version);
    }
  }

  lemma CreatedAnnotation(kind: Kind, k: Key, from: nat, past: Trace, s: Store, s': Store)
    requires DeploymentCreated(kind, k, from, past, s, s')
    ensures VersionSeen(from, past, k, Annotation(s', k)) && NoDeploymentWrite(from, past, k)
  {
  }

  lemma ReplacedAnnotation(kind: Kind, k: Key, from: nat, past: Trace, s: Store, s': Store, version: Version)
    requires Replaced(kind, k, from, past, s, s', version)
    ensures Annotation(s', k) == version
  {
  }

  lemma RolledAnnotation(s: Store, k: Key, version: Version)
    requires k in s.deployments
    ensures Annotation(Roll(s, k, version), k) == version
  {
  }

  lemma ChangedAnnotation(kind: Kind, k: Key, from: nat, past: Trace, s: Store, s': Store)
    requires DeploymentChanged(kind, k, from, past, s, s')
    ensures VersionSeen(from, past, k, Annotation(s', k)) && NoDeploymentWrite(from, past, k)
  {
    var version :| ChangedTo(kind, k, from, past, s, s', version);
    if s' == Roll(s, k, version) {
      RolledAnnotation(s, k, version);
    } else {
      ReplacedAnnotation(kind, k, from, past, s, s', version);
    }
  }

  lemma CreationAnnotates(kind: Kind, k: Key, from: nat, tr: Trace, i: int, q: Key)
    requires StepAt(kind, k, from, tr, i) && tr[i].act == Made(DEP, q)
    ensures q == k && VersionSeen(from, tr[..i], q, Annotation(tr[i].store, q)) && NoDeploymentWrite(from, tr[..i], q)
  {
    var past := tr[..i];
    PastEnds(tr, i);
    JustifiedCreation(kind, k, from, past, tr[i - 1].store, tr[i], q);
    CreatedAnnotation(kind, k, from, past, tr[i - 1].store, tr[i].store);
  }

  lemma ChangeAnnotates(kind: Kind, k: Key, from: nat, tr: Trace, i: int, q: Key)
    requires StepAt(kind, k, from, tr, i) && tr[i].act == Changed(DEP, q)
    ensures q == k && VersionSeen(from, tr[..i], q, Annotation(tr[i].store, q)) && NoDeploymentWrite(from, tr[..i], q)
  {
    var past := tr[..i];
    PastEnds(tr, i);
    JustifiedChange(kind, k, from, past, tr[i - 1].store, tr[i], q);
    ChangedAnnotation(kind, k, from, past, tr[i - 1].store, tr[i].store);
  }

  /** A written annotation is empty or a version the ConfigMap had after the last write of the Deployment. */
  lemma AnnotationSource(start: nat, tr: Trace, i: int, q: Key)
    requires LegalAt(start, tr, i) && 0 <= i < |tr| && IsDeploymentWrite(tr[i].act, q)
    ensures var version := Annotation(tr[i].store, q);
            version == Empty || exists m :: start <= m && HadVersion(tr, m, i, q, version)
  {
    var kind, k, from := LegalStep(start, tr, i);
    if tr[i].act.Made? {
      CreationAnnotates(kind, k, from, tr, i, q);
    } else {
      ChangeAnnotates(kind, k, from, tr, i, q);
    }
    SeenIsHad(start, from, tr, i, q, Annotation(tr[i].store, q));
  }

  /** The ConfigMap of this name had this version at some moment up to `i`. */
  ghost predicate WasVersion(tr: Trace, i: int, q: Key, version: Version) {
    exists m :: 0 <= m <= i && m < |tr| && HasVersion(tr[m].store, q, version)
  }

  /** Along every run the version annotation is empty or a version the ConfigMap of that name really had. */
  lemma {:induction false} AnnotationIsReal(start: nat, tr: Trace, i: int, q: Key)
    requires Legal(start, tr) && start - 1 <= i < |tr|
    requires var initial := Annotation(tr[start - 1].store, q);
             initial == Empty || WasVersion(tr, start - 1, q, initial)
    ensures var version := Annotation(tr[i].store, q); version == Empty || WasVersion(tr, i, q, version)
    decreases i
  {
    if i >= start {
      assert LegalAt(start, tr, i);
      if IsDeploymentWrite(tr[i].act, q) {
        AnnotationSource(start, tr, i, q);
      } else {
        RunFollows(start, tr, i, q);
        AnnotationIsReal(start, tr, i - 1, q);
      }
    }
  }

  /** No ConfigMap from here on will have a smaller version than `n`. */
  predicate AtMost(n: nat, s: Store, q: Key) {
    n <= s.revision && (q in s.configMaps ==> n <= s.configMaps[q].version)
  }

  predicate AnnotationNotAhead(s: Store, q: Key) {
    Annotation(s, q).Rev? ==> AtMost(Annotation(s, q).n, s, q)
  }

  lemma {:induction false} AtMostStays(start: nat, tr: Trace, i: int, j: int, q: Key, n: nat)
    requires Legal(start, tr) && start - 1 <= i <= j < |tr| && AtMost(n, tr[i].store, q)
    ensures AtMost(n, tr[j].store, q)
    decreases j
  {
    if i < j {
      AtMostStays(start, tr, i, j - 1, q, n);
      assert LegalAt(start, tr, j);
      RunFollows(start, tr, j, q);
    }
  }

  predicate ConfigMapBounded(s: Store, q: Key) {
    q in s.configMaps ==> s.configMaps[q].version <= s.revision
  }

  lemma {:induction false} ConfigMapsBounded(start: nat, tr: Trace, i: int, q: Key)
    requires Legal(start, tr) && start - 1 <= i < |tr| && ConfigMapBounded(tr[start - 1].store, q)
    ensures ConfigMapBounded(tr[i].store, q)
    decreases i
  {
    if i >= start {
      ConfigMapsBounded(start, tr, i - 1, q);
      assert LegalAt(start, tr, i);
      RunFollows(start, tr, i, q);
    }
  }

  lemma {:induction false} NotAheadStays(start: nat, tr: Trace, i: int, q: Key)
    requires Legal(start, tr) && start - 1 <= i < |tr|
    requires ConfigMapBounded(tr[start - 1].store, q) && AnnotationNotAhead(tr[start - 1].store, q)
    ensures AnnotationNotAhead(tr[i].store, q)
    decreases i
  {
    if i >= start && Annotation(tr[i].store, q).Rev? {
      var version := Annotation(tr[i].store, q);
      assert LegalAt(start, tr, i);
      if IsDeploymentWrite(tr[i].act, q) {
        AnnotationSource(start, tr, i, q);
        var m :| start <= m && HadVersion(tr, m, i, q, version);
        ConfigMapsBounded(start, tr, m, q);
        AtMostStays(start, tr, m, i, q, version.n);
      } else {
        RunFollows(start, tr, i, q);
        NotAheadStays(start, tr, i - 1, q);
        AtMostStays(start, tr, i - 1, i, q, version.n);
      }
    }
  }

  /** Without writes of the operator, a Deployment's annotation at `i` was there at `m`. */
  lemma {:induction false} AnnotationUnchanged(start: nat, tr: Trace, m: int, i: int, q: Key)
    requires Legal(start, tr) && start - 1 <= m <= i < |tr|
    requires forall x :: m < x <= i ==> !IsDeploymentWrite(tr[x].act, q)
    ensures Annotation(tr[i].store, q) in {Empty, Annotation(tr[m].store, q)}
    decreases i
  {
    if m < i {
      AnnotationUnchanged(start, tr, m, i - 1, q);
      assert LegalAt(start, tr, i);
      RunFollows(start, tr, i, q);
    }
  }

  /**
   The version annotation never goes backwards: apart from resets to empty, an annotation later in the run is no
   smaller than one earlier, although ConfigMaps come and go and Deployments are recreated.
   */
  lemma {:induction false} AnnotationNeverGoesBack(start: nat, tr: Trace, i: int, j: int, q: Key)
    requires Legal(start, tr) && start - 1 <= i <= j < |tr|
    requires ConfigMapBounded(tr[start - 1].store, q) && AnnotationNotAhead(tr[start - 1].store, q)
    requires Annotation(tr[i].store, q).Rev? && Annotation(tr[j].store, q).Rev?
    ensures Annotation(tr[i].store, q).n <= Annotation(tr[j].store, q).n
    decreases j
  {
    if i < j {
      var before, after := Annotation(tr[i].store, q), Annotation(tr[j].store, q);
      assert LegalAt(start, tr, j);
      if IsDeploymentWrite(tr[j].act, q) {
        AnnotationSource(start, tr, j, q);
        var m :| start <= m && HadVersion(tr, m, j, q, after);
        if i <= m {
          NotAheadStays(start, tr, i, q);
          AtMostStays(start, tr, i, m, q, before.n);
        } else {
          AnnotationUnchanged(start, tr, m, i, q);
          NotAheadStays(start, tr, m, q);
        }
      } else {
        RunFollows(start, tr, j, q);
        AnnotationNeverGoesBack(start, tr, i, j - 1, q);
      }
    }
  }
}

/**
 Objects up to version numbers: the cluster hands out versions from one counter, so the same objects get different
 versions when other objects are written in between.
 */
module Renamings {
  import opened Prelude
  import opened Objects
  import opened Server
  import opened Passes
  import opened Locals

  type Renaming = map<nat, nat>

  ghost predicate Injective(r: Renaming) {
    forall x, y :: x in r && y in r && r[x] == r[y] ==> x == y
  }

  /** No version is ahead of the counters. */
  ghost predicate Bounded(r: Renaming, n: nat, n': nat) {
    forall x :: x in r ==> x <= n && r[x] <= n'
  }

  ghost predicate Extends(r: Renaming, r': Renaming) {
    forall x :: x in r ==> x in r' && r'[x] == r[x]
  }

  /** The next version on either side. */
  function Pair(r: Renaming, n: nat, n': nat): Renaming {
    r[n := n']
  }

  lemma PairExtends(r: Renaming, n: nat, n': nat)
    requires Injective(r) && Bounded(r, n, n')
    ensures var r' := Pair(r, n + 1, n' + 1);
            Injective(r') && Bounded(r', n + 1, n' + 1) && Extends(r, r') && n + 1 in r' && r'[n + 1] == n' + 1
  {
  }

  // ---------- Objects ----------

  predicate Same(r: Renaming, n: nat, n': nat) {
    n in r && r[n] == n'
  }

  predicate SameVersion(r: Renaming, v: Version, v': Version) {
    if v.Rev? then v'.Rev? && Same(r, v.n, v'.n) else v' == v
  }

  predicate SameAnnotations(r: Renaming, a: Annotations, a': Annotations) {
    && a'.networks == a.networks && a'.others == a.others
    && (a.configMapVersion.Some? <==> a'.configMapVersion.Some?)
    && (a.configMapVersion.Some? ==> SameVersion(r, a.configMapVersion.value, a'.configMapVersion.value))
  }

  predicate SameTemplate(r: Renaming, t: Template, t': Template) {
    t'.image == t.image && t'.large == t.large && SameAnnotations(r, t.annotations, t'.annotations)
  }

  predicate SameNF(r: Renaming, nf: NFDeployment, nf': NFDeployment) {
    nf'.spec == nf.spec && nf'.status == nf.status && Same(r, nf.version, nf'.version)
  }

  predicate SameConfigMap(r: Renaming, c: ConfigMap, c': ConfigMap) {
    c'.data == c.data && c'.owned == c.owned && Same(r, c.version, c'.version)
  }

  predicate SameDeployment(r: Renaming, d: Deployment, d': Deployment) {
    && SameTemplate(r, d.template, d'.template) && d'.owned == d.owned && d'.generation == d.generation
    && d'.conditions == d.conditions && d'.deleting == d.deleting && Same(r, d.version, d'.version)
  }

  predicate Both<T>(a: Option<T>, b: Option<T>) {
    a.Some? <==> b.Some?
  }

  /** The objects under a name, up to renaming. */
  predicate Renames(r: Renaming, l: Local, l': Local) {
    && Both(l.nf, l'.nf) && (l.nf.Some? ==> SameNF(r, l.nf.value, l'.nf.value))
    && Both(l.configMap, l'.configMap)
    && (l.configMap.Some? ==> SameConfigMap(r, l.configMap.value, l'.configMap.value))
    && Both(l.service, l'.service) && (l.service.Some? ==> l'.service.value.owned == l.service.value.owned)
    && Both(l.deployment, l'.deployment)
    && (l.deployment.Some? ==> SameDeployment(r, l.deployment.value, l'.deployment.value))
  }

  lemma SameVersionGrows(r: Renaming, r': Renaming, v: Version, v': Version)
    requires Extends(r, r') && SameVersion(r, v, v')
    ensures SameVersion(r', v, v')
  {
  }

  lemma SameTemplateGrows(r: Renaming, r': Renaming, t: Template, t': Template)
    requires Extends(r, r') && SameTemplate(r, t, t')
    ensures SameTemplate(r', t, t')
  {
  }

  lemma SameDeploymentGrows(r: Renaming, r': Renaming, d: Deployment, d': Deployment)
    requires Extends(r, r') && SameDeployment(r, d, d')
    ensures SameDeployment(r', d, d')
  {
  }

  lemma RenamesGrows(r: Renaming, r': Renaming, l: Local, l': Local)
    requires Extends(r, r') && Renames(r, l, l')
    ensures Renames(r', l, l')
  {
  }

  /** Renaming keeps versions, and with them templates, apart. */
  lemma VersionsApart(r: Renaming, v: Version, v': Version, u: Version, u': Version)
    requires Injective(r) && SameVersion(r, v, v') && SameVersion(r, u, u')
    ensures v == u <==> v' == u'
  {
  }

  lemma TemplatesApart(r: Renaming, t: Template, t': Template, u: Template, u': Template)
    requires Injective(r) && SameTemplate(r, t, t') && SameTemplate(r, u, u')
    ensures t == u <==> t' == u'
  {
    if t.annotations.configMapVersion.Some? && u.annotations.configMapVersion.Some? {
      VersionsApart(r, t.annotations.configMapVersion.value, t'.annotations.configMapVersion.value,
                    u.annotations.configMapVersion.value, u'.annotations.configMapVersion.value);
    }
  }

  // ---------- Inverse and composition ----------

  function Inverse(r: Renaming): Renaming
    requires Injective(r)
  {
    map x | x in r :: r[x] := x
  }

  function Then(r: Renaming, r': Renaming): Renaming {
    map x | x in r && r[x] in r' :: r'[r[x]]
  }

  lemma InverseRenames(r: Renaming, l: Local, l': Local)
    requires Injective(r) && Renames(r, l, l')
    ensures Injective(Inverse(r)) && Renames(Inverse(r), l', l)
  {
  }

  lemma ThenRenames(r: Renaming, r': Renaming, l: Local, l': Local, l'': Local)
    requires Injective(r) && Injective(r') && Renames(r, l, l') && Renames(r', l', l'')
    ensures Injective(Then(r, r')) && Renames(Then(r, r'), l, l'')
  {
  }

  // ---------- The identity ----------

  function Identity(n: nat): (r: Renaming)
    ensures forall x: nat :: x in r <==> x <= n
    ensures forall x :: x in r ==> r[x] == x
  {
    if n == 0 then map[0 := 0] else Identity(n - 1)[n := n]
  }

  /** All versions under this name were handed out by the counter. */
  predicate Numbered(s: Store, k: Key) {
    && (k in s.nfs ==> s.nfs[k].version <= s.revision)
    && (k in s.configMaps ==> s.configMaps[k].version <= s.revision)
    && (k in s.deployments ==>
        s.deployments[k].version <= s.revision && AnnotationNumbered(s.deployments[k], s.revision))
  }

  predicate AnnotationNumbered(d: Deployment, n: nat) {
    d.template.annotations.ConfigMapVersion().Rev? ==> d.template.annotations.ConfigMapVersion().n <= n
  }

  lemma IdentityRenames(s: Store, k: Key)
    requires Numbered(s, k)
    ensures Injective(Identity(s.revision)) && Bounded(Identity(s.revision), s.revision, s.revision)
    ensures Renames(Identity(s.revision), At(s, k), At(s, k))
  {
  }
}

/** The objects under one name, and what the API's writes do to them. */
module Locals {
  import opened Prelude
  import opened Objects
  import opened Server

  datatype Local = Local(nf: Option<NFDeployment>, configMap: Option<ConfigMap>, service: Option<Service>,
      deployment: Option<Deployment>)

  /** What passes read besides the objects under their name. */
  datatype Surroundings = Surroundings(nads: set<Key>, configs: map<Key, Payload>)

  function Lookup<V>(m: map<Key, V>, k: Key): Option<V> {
    if k in m then Some(m[k]) else None
  }

  function At(s: Store, k: Key): Local {
    Local(Lookup(s.nfs, k), Lookup(s.configMaps, k), Lookup(s.services, k), Lookup(s.deployments, k))
  }

  function Around(s: Store): Surroundings {
    Surroundings(s.nads, s.configs)
  }

  // ---------- Writes under one name, each given the version it gets ----------

  function Replace(l: Local, template: Template, owned: bool, version: nat): Local
    requires l.deployment.Some?
  {
    var d := l.deployment.value;
    if d.template == template && d.owned == owned then l else
    var generation := if d.template == template then d.generation else d.generation + 1;
    l.(deployment := Some(d.(template := template, owned := owned, generation := generation, version := version)))
  }

  function SetStatus(l: Local, status: NFStatus, version: nat): Local
    requires l.nf.Some?
  {
    if l.nf.value.status == status then l else l.(nf := Some(l.nf.value.(status := status, version := version)))
  }

  function GainConfigMap(l: Local, data: ConfigData, version: nat): Local {
    l.(configMap := Some(ConfigMap(data, true, version)))
  }

  function GainService(l: Local, version: nat): Local {
    l.(service := Some(Service(true, version)))
  }

  function GainDeployment(l: Local, template: Template, version: nat): Local {
    l.(deployment := Some(Deployment(template, true, 1, [], false, version)))
  }

  // ---------- The server's writes are these, and touch nothing else ----------

  /** `s'` differs from `s` at most under the name `k`, in its clock and in its counter. */
  ghost predicate OnlyAt(s: Store, s': Store, k: Key) {
    && Around(s') == Around(s) && s.clock <= s'.clock && s.revision <= s'.revision
    && forall q :: q != k ==> At(s', q) == At(s, q)
  }

  lemma ReplaceAt(s: Store, k: Key, template: Template, owned: bool)
    requires k in s.deployments
    ensures OnlyAt(s, WriteTemplate(s, k, template, owned), k)
    ensures At(WriteTemplate(s, k, template, owned), k) == Replace(At(s, k), template, owned, Next(s))
  {
  }

  lemma SetStatusAt(s: Store, k: Key, status: NFStatus)
    requires k in s.nfs
    ensures OnlyAt(s, WriteStatus(s, k, status), k)
    ensures At(WriteStatus(s, k, status), k) == SetStatus(At(s, k), status, Next(s))
  {
  }

  lemma GainConfigMapAt(s: Store, k: Key, data: ConfigData)
    ensures OnlyAt(s, AddConfigMap(s, k, data, true), k)
    ensures At(AddConfigMap(s, k, data, true), k) == GainConfigMap(At(s, k), data, Next(s))
  {
  }

  lemma GainServiceAt(s: Store, k: Key)
    ensures OnlyAt(s, AddService(s, k, true), k)
    ensures At(AddService(s, k, true), k) == GainService(At(s, k), Next(s))
  {
  }

  lemma GainDeploymentAt(s: Store, k: Key, template: Template)
    ensures OnlyAt(s, AddDeployment(s, k, template), k)
    ensures At(AddDeployment(s, k, template), k) == GainDeployment(At(s, k), template, Next(s))
  {
  }
}

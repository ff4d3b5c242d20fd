/** One reconcile pass as a function of the world: the specification of the reconcilers' methods. */
module Passes {
  import opened Prelude
  import opened Objects
  import opened Server
  import opened Networks
  import Resources
  import SmfResources
  import Status

  /** How a pass ends: done, asking for another pass (at once or later), with an error, or by a nil dereference. */
  datatype Outcome = Finished | Requeue | RequeueAfter(seconds: nat) | Errored | Panicked

  /** What a pass has read before it acts. */
  datatype Snapshot = Snapshot(nf: NFDeployment, configMap: Option<ConfigMap>, service: bool,
      deployment: Option<Deployment>)
  {
    /** `configMapVersion`: the empty string when no ConfigMap was found. */
    function Version(): Version {
      if configMap.Some? then Rev(configMap.value.version) else Empty
    }
  }

  /** The resource name in the status messages. */
  function Subject(kind: Kind): string {
    if kind == SMF then "SMFDeployment" else "NFDeployment"
  }

  function Observe(kind: Kind, w: World, k: Key, nf: NFDeployment): (World, Snapshot) {
    var (w1, configMap) := GetConfigMap(w, k);
    var (w2, service) := if kind == UPF then (w1, true) else GetService(w1, k);
    var (w3, deployment) := GetDeployment(w2, k);
    (w3, Snapshot(nf, configMap, service, deployment))
  }

  function SyncStatus(kind: Kind, w: World, k: Key, nf: NFDeployment, d: Deployment): (World, bool) {
    var seen := Status.Observation(d.generation, d.conditions);
    if Status.WantsUpdate(seen, nf.status.conditions)
    then UpdateStatus(w, k, Status.NextStatus(Subject(kind), seen, nf.status, w.store.clock), nf.version)
    else (w, true)
  }

  /** `GetAllConfigRefs`: fetch the referenced Configs in order, keeping the first of each name. */
  function FetchRefs(w: World, namespace: string, names: seq<string>, kept: seq<ConfigRef>): (World,
      Option<seq<ConfigRef>>)
    decreases |names|
  {
    if names == [] then (w, Some(kept)) else
    var key := Key(namespace, names[0]);
    var (w', payload) := GetConfig(w, key);
    if payload.None? then (w', None)
    else FetchRefs(w', namespace, names[1..], SmfResources.AddRef(kept, ConfigRef(key, payload.value)))
  }

  function FindNads(w: World, namespace: string, networks: seq<Network>): (World, bool)
    decreases |networks|
  {
    if networks == [] then (w, true) else
    var (w', ok) := GetNad(w, Key(namespace, networks[0].name));
    if ok then FindNads(w', namespace, networks[1..]) else (w', false)
  }

  /** `ValidateNetworkAttachmentDefinitions` on a Deployment's annotation. */
  function Validate(w: World, namespace: string, annotation: Option<string>): (World, bool) {
    if annotation.None? then (w, false) else
    match Unmarshal(annotation.value)
    case None => (w, false)
    case Some(networks) => FindNads(w, namespace, networks)
  }

  function CreateBehindGate(w: World, k: Key, template: Template): (World, Outcome) {
    var (w', ok) := Validate(w, k.namespace, template.annotations.networks);
    if ok then (CreateDeployment(w', k, template).0, RequeueAfter(30)) else (w', RequeueAfter(10))
  }

  /** The last stage: create the Deployment behind the gate, or (UPF and SMF) replace it. */
  function Deploy(kind: Kind, w: World, k: Key, seen: Snapshot, version: Version): (World, Outcome) {
    match Resources.Desired(kind, version, k.name, seen.nf.spec)
    case Rejected(_) => (w, Errored)
    case Built(template) =>
      if seen.deployment.None? then CreateBehindGate(w, k, template)
      else if kind == AMF then (w, Finished)
      else (UpdateDeployment(w, k, template, false, None).0, Finished)
  }

  function EnsureService(kind: Kind, w: World, k: Key, seen: Snapshot, version: Version): (World, Outcome) {
    if kind == UPF || seen.service then Deploy(kind, w, k, seen, version) else
    var (w', ok) := CreateService(w, k);
    if ok then Deploy(kind, w', k, seen, version) else (w', Errored)
  }

  /** The ConfigMap is built on every pass, even when it is not going to be created. */
  function EnsureConfigMap(kind: Kind, w: World, k: Key, seen: Snapshot, refs: seq<ConfigRef>): (World, Outcome) {
    match Resources.ConfigMapData(kind, k.name, seen.nf.spec, refs)
    case Rejected(_) => (w, Errored)
    case Crashed => (w, Panicked)
    case Built(data) =>
      if seen.configMap.Some? then EnsureService(kind, w, k, seen, seen.Version()) else
      var (w', version) := CreateConfigMap(w, k, data);
      if version.Some? then EnsureService(kind, w', k, seen, version.value) else (w', Errored)
  }

  function BuildUp(kind: Kind, w: World, k: Key, seen: Snapshot): (World, Outcome) {
    var (w', refs) := if kind == SMF then FetchRefs(w, k.namespace, seen.nf.spec.parametersRefs, []) else (w, Some([]));
    if refs.None? then (w', Errored) else EnsureConfigMap(kind, w', k, seen, refs.value)
  }

  function WithVersion(template: Template, version: Version): Template {
    template.(annotations := template.annotations.(configMapVersion := Some(version)))
  }

  /** Two templates that differ at most in the version annotation. */
  predicate SameButVersion(t: Template, t': Template) {
    && t'.image == t.image && t'.large == t.large
    && t'.annotations.networks == t.annotations.networks && t'.annotations.others == t.annotations.others
  }

  /** An existing Deployment whose status is synchronised: roll the pods if the ConfigMap's version changed. */
  function AfterSync(kind: Kind, w: World, k: Key, seen: Snapshot, d: Deployment): (World, Outcome) {
    if d.template.annotations.ConfigMapVersion() == seen.Version() then BuildUp(kind, w, k, seen)
    else if d.template.annotations.IsNil() then (w, Panicked)
    else
      var (w', rolled) := UpdateDeployment(w, k, WithVersion(d.template, seen.Version()), d.owned, Some(d.version));
      (w', if rolled then Requeue else Errored)
  }

  function Maintain(kind: Kind, w: World, k: Key, seen: Snapshot, d: Deployment): (World, Outcome) {
    var (w', ok) := if d.deleting then (w, true) else SyncStatus(kind, w, k, seen.nf, d);
    if ok then AfterSync(kind, w', k, seen, d) else (w', Errored)
  }

  /** `Reconcile` of one network function. */
  function Reconcile(kind: Kind, w: World, k: Key): (World, Outcome) {
    var (w1, got) := GetNF(w, k);
    match got
    case NotFound => (w1, Finished)
    case Unavailable => (w1, Errored)
    case Found(nf) =>
      var (w2, seen) := Observe(kind, w1, k, nf);
      if seen.deployment.Some? then Maintain(kind, w2, k, seen, seen.deployment.value) else BuildUp(kind, w2, k, seen)
  }

  /** The dispatcher: an error of the network function's own reconciler is dropped, so nothing asks for a retry. */
  function Dispatch(w: World, k: Key): (World, Outcome) {
    var (w1, got) := GetNF(w, k);
    match got
    case NotFound => (w1, Finished)
    case Unavailable => (w1, Errored)
    case Found(nf) =>
      if nf.spec.provider.OtherProvider? then (w1, Finished) else
      var (w2, outcome) := Reconcile(nf.spec.provider.kind, w1, k);
      (w2, if outcome.Errored? then Finished else outcome)
  }
}

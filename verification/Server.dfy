/**
 The API server as the operator meets it: a versioned object store, shared with other writers, whose calls may
 fail. Every call first lets other writers act and then takes effect, is refused, or takes effect while its
 reply is lost. A trace records every step with the store it leads to.
 */
module Server {
  import opened Prelude
  import opened Objects

  /** `revision` counts the writes to the cluster; the next write gets the next number as its version. */
  datatype Store = Store(
    nfs: map<Key, NFDeployment>,
    configMaps: map<Key, ConfigMap>,
    services: map<Key, Service>,
    deployments: map<Key, Deployment>,
    nads: set<Key>,
    configs: map<Key, Payload>,
    revision: nat,
    clock: nat)

  /** The version the next write gets. */
  function Next(s: Store): nat {
    s.revision + 1
  }

  function Bump(s: Store): Store {
    s.(revision := Next(s))
  }

  // ---------- Object updates ----------

  /** A new pod template or owner; the generation counts changes of the template, an equal object is not written. */
  function WriteTemplate(s: Store, k: Key, template: Template, owned: bool): Store
    requires k in s.deployments
  {
    var d := s.deployments[k];
    if d.template == template && d.owned == owned then s else
    var generation := if d.template == template then d.generation else d.generation + 1;
    Bump(s.(deployments := s.deployments[k :=
        d.(template := template, owned := owned, generation := generation, version := Next(s))]))
  }

  function WriteStatus(s: Store, k: Key, status: NFStatus): Store
    requires k in s.nfs
  {
    if s.nfs[k].status == status then s
    else Bump(s.(nfs := s.nfs[k := s.nfs[k].(status := status, version := Next(s))]))
  }

  function AddConfigMap(s: Store, k: Key, data: ConfigData, owned: bool): Store {
    Bump(s.(configMaps := s.configMaps[k := ConfigMap(data, owned, Next(s))]))
  }

  function AddService(s: Store, k: Key, owned: bool): Store {
    Bump(s.(services := s.services[k := Service(owned, Next(s))]))
  }

  function AddDeployment(s: Store, k: Key, template: Template): Store {
    Bump(s.(deployments := s.deployments[k := Deployment(template, true, 1, [], false, Next(s))]))
  }

  // ---------- Other writers ----------

  /** What users and other controllers do between the operator's calls. */
  datatype EnvStep =
    | PutNF(key: Key, spec: Spec)
    | DeleteNF(key: Key)
    | PutConfigMap(key: Key, data: ConfigData)
    | DeleteConfigMap(key: Key)
    | PutService(key: Key)
    | DeleteService(key: Key)
    | SetConditions(key: Key, conditions: seq<ConditionType>)
    | EditWorkload(key: Key, image: Image, large: bool)
    | StartDeletion(key: Key)
    | DeleteDeployment(key: Key)
    | AddNad(key: Key)
    | RemoveNad(key: Key)
    | PutConfig(key: Key, payload: Payload)
    | DeleteConfig(key: Key)
    | WriteElsewhere(writes: nat)
    | Tick(seconds: nat)

  function Apply(s: Store, e: EnvStep): Store {
    match e
    case PutNF(k, spec) =>
      if k in s.nfs && s.nfs[k].spec == spec then s else
      var status := if k in s.nfs then s.nfs[k].status else NFStatus(0, []);
      Bump(s.(nfs := s.nfs[k := NFDeployment(spec, status, Next(s))]))
    case DeleteNF(k) => s.(nfs := s.nfs - {k})
    case PutConfigMap(k, data) =>
      if k in s.configMaps && s.configMaps[k].data == data then s
      else AddConfigMap(s, k, data, k in s.configMaps && s.configMaps[k].owned)
    case DeleteConfigMap(k) => s.(configMaps := s.configMaps - {k})
    case PutService(k) => if k in s.services then s else AddService(s, k, false)
    case DeleteService(k) => s.(services := s.services - {k})
    case SetConditions(k, conditions) =>
      if k !in s.deployments || s.deployments[k].conditions == conditions then s
      else Bump(s.(deployments := s.deployments[k := s.deployments[k].(conditions := conditions, version := Next(s))]))
    case EditWorkload(k, image, large) =>
      if k !in s.deployments then s
      else WriteTemplate(s, k, s.deployments[k].template.(image := image, large := large), s.deployments[k].owned)
    case StartDeletion(k) =>
      if k !in s.deployments || s.deployments[k].deleting then s
      else Bump(s.(deployments := s.deployments[k := s.deployments[k].(deleting := true, version := Next(s))]))
    case DeleteDeployment(k) => s.(deployments := s.deployments - {k})
    case AddNad(k) => s.(nads := s.nads + {k})
    case RemoveNad(k) => s.(nads := s.nads - {k})
    case PutConfig(k, payload) => s.(configs := s.configs[k := payload])
    case DeleteConfig(k) => s.(configs := s.configs - {k})
    case WriteElsewhere(writes) => s.(revision := s.revision + writes)
    case Tick(seconds) => s.(clock := s.clock + seconds)
  }

  // ---------- Worlds ----------

  datatype Fault = NoFault | Refused | ReplyLost

  /** What surrounds one API call: the other writers' steps just before it, and whether it fails. */
  datatype Call = Call(before: seq<EnvStep>, fault: Fault)

  datatype Resource = NF | CM | SVC | DEP | NAD | CFG

  /**
   A step of a run. `Began` marks the start of a pass; `Saw` and `Missed` are reads; `Made`, `Changed` and
   `NoEffect` are the operator's writes.
   */
  datatype Act =
    | Started
    | Began(key: Key)
    | Env(step: EnvStep)
    | Saw(what: Resource, key: Key)
    | Missed(what: Resource, key: Key)
    | Made(what: Resource, key: Key)
    | Changed(what: Resource, key: Key)
    | NoEffect(what: Resource, key: Key)

  /** A step and the store right after it. */
  datatype Mark = Mark(act: Act, store: Store)

  /** The calls not listed in `schedule` are undisturbed and succeed. */
  datatype World = World(store: Store, schedule: seq<Call>, trace: seq<Mark>)

  function Upcoming(w: World): Call {
    if w.schedule == [] then Call([], NoFault) else w.schedule[0]
  }

  /** Other writers act. */
  function Disturb(w: World, steps: seq<EnvStep>): (r: World)
    ensures r.schedule == w.schedule
    decreases |steps|
  {
    if steps == [] then w else
    var store := Apply(w.store, steps[0]);
    Disturb(w.(store := store, trace := w.trace + [Mark(Env(steps[0]), store)]), steps[1..])
  }

  /** The situation in which the next call is served. */
  function Arrive(w: World): World {
    Disturb(w, Upcoming(w).before)
  }

  /** The call is over. */
  function Finish(w: World, store: Store, act: Act): World {
    World(store, if w.schedule == [] then [] else w.schedule[1..], w.trace + [Mark(act, store)])
  }

  /** A read: it sees the object if it is there and the call does not fail. */
  function Read(w: World, present: bool, what: Resource, k: Key): World {
    Finish(w, w.store, if present && Upcoming(w).fault == NoFault then Saw(what, k) else Missed(what, k))
  }

  /** A write with a given effect, or one the server rejects. The caller hears of success only without a fault. */
  function Write(w: World, effect: Option<Store>, done: Act, what: Resource, k: Key): (r: (World, bool)) {
    if effect.None? || Upcoming(w).fault == Refused then (Finish(w, w.store, NoEffect(what, k)), false)
    else (Finish(w, effect.value, done), Upcoming(w).fault == NoFault)
  }

  // ---------- Reads ----------

  datatype GetResult = Found(nf: NFDeployment) | NotFound | Unavailable

  function GetNF(w: World, k: Key): (World, GetResult) {
    var a := Arrive(w);
    (Read(a, k in a.store.nfs, NF, k),
     if Upcoming(w).fault != NoFault then Unavailable else if k in a.store.nfs then Found(a.store.nfs[k]) else NotFound)
  }

  function GetConfigMap(w: World, k: Key): (World, Option<ConfigMap>) {
    var a := Arrive(w);
    (Read(a, k in a.store.configMaps, CM, k),
     if Upcoming(w).fault == NoFault && k in a.store.configMaps then Some(a.store.configMaps[k]) else None)
  }

  function GetService(w: World, k: Key): (World, bool) {
    var a := Arrive(w);
    (Read(a, k in a.store.services, SVC, k), Upcoming(w).fault == NoFault && k in a.store.services)
  }

  function GetDeployment(w: World, k: Key): (World, Option<Deployment>) {
    var a := Arrive(w);
    (Read(a, k in a.store.deployments, DEP, k),
     if Upcoming(w).fault == NoFault && k in a.store.deployments then Some(a.store.deployments[k]) else None)
  }

  function GetNad(w: World, k: Key): (World, bool) {
    var a := Arrive(w);
    (Read(a, k in a.store.nads, NAD, k), Upcoming(w).fault == NoFault && k in a.store.nads)
  }

  function GetConfig(w: World, k: Key): (World, Option<Payload>) {
    var a := Arrive(w);
    (Read(a, k in a.store.configs, CFG, k),
     if Upcoming(w).fault == NoFault && k in a.store.configs then Some(a.store.configs[k]) else None)
  }

  // ---------- Writes ----------

  /** Creation refuses an existing name; the reply carries the new version. */
  function CreateConfigMap(w: World, k: Key, data: ConfigData): (World, Option<Version>) {
    var a := Arrive(w);
    var (w', ok) := Write(a, if k in a.store.configMaps then None
        else Some(AddConfigMap(a.store, k, data, true)), Made(CM, k), CM, k);
    (w', if ok then Some(Rev(Next(a.store))) else None)
  }

  function CreateService(w: World, k: Key): (World, bool) {
    var a := Arrive(w);
    Write(a, if k in a.store.services then None else Some(AddService(a.store, k, true)), Made(SVC, k), SVC, k)
  }

  function CreateDeployment(w: World, k: Key, template: Template): (World, bool) {
    var a := Arrive(w);
    Write(a, if k in a.store.deployments then None else Some(AddDeployment(a.store, k, template)), Made(DEP, k), DEP, k)
  }

  /** An update that carries a version is refused when the object has moved on; without one it replaces blindly. */
  function UpdateEffect(s: Store, k: Key, template: Template, owned: bool, expected: Option<nat>): Option<Store> {
    if k !in s.deployments then None
    else if expected.Some? && expected.value != s.deployments[k].version then None
    else Some(WriteTemplate(s, k, template, owned))
  }

  function UpdateDeployment(w: World, k: Key, template: Template, owned: bool, expected: Option<nat>): (World, bool) {
    var a := Arrive(w);
    Write(a, UpdateEffect(a.store, k, template, owned, expected), Changed(DEP, k), DEP, k)
  }

  function UpdateStatus(w: World, k: Key, status: NFStatus, expected: nat): (World, bool) {
    var a := Arrive(w);
    var effect :=
      if k !in a.store.nfs || expected != a.store.nfs[k].version then None
      else Some(WriteStatus(a.store, k, status));
    Write(a, effect, Changed(NF, k), NF, k)
  }
}

/** The API objects the operator reads and writes, reduced to the fields its behaviour depends on. */
module Objects {
  import opened Prelude

  datatype Key = Key(namespace: string, name: string)

  /** The three network functions, one per provider string. */
  datatype Kind = AMF | SMF | UPF

  // ---------- NFDeployment ----------

  /** `ip` is what `net.ParseCIDR` makes of `address`: an address, or nothing when it does not parse. */
  datatype InterfaceConfig = InterfaceConfig(name: string, address: string, ip: Option<string>, gateway: Option<string>)

  datatype DataNetwork = DataNetwork(name: string, pool: seq<string>)

  datatype NetworkInstance = NetworkInstance(interfaces: seq<string>, dataNetworks: seq<DataNetwork>)

  datatype Capacity = Capacity(maxDownlink: int, maxSessions: int, maxSubscribers: int, maxNFConnections: int)

  /** `spec.provider`: one of the three strings the operator serves, or any other. */
  datatype Provider = Free5gc(kind: Kind) | OtherProvider(text: string)

  /** `parametersRefs` holds the names of the referenced Config objects. */
  datatype Spec = Spec(provider: Provider, capacity: Capacity, interfaces: seq<InterfaceConfig>,
                       networkInstances: seq<NetworkInstance>, parametersRefs: seq<string>)

  /**
   Condition types. NFDeployments and Deployments draw theirs from one pool of strings, and the operator
   compares them across the two; `OtherType` is any string that is not one of the five.
   */
  datatype ConditionType = Available | Progressing | ReplicaFailure | Reconciling | Stalled | OtherType(text: string)

  datatype Condition = Condition(kind: ConditionType, status: bool, reason: string, message: string, at: nat)

  datatype NFStatus = NFStatus(observedGeneration: nat, conditions: seq<Condition>)

  datatype NFDeployment = NFDeployment(spec: Spec, status: NFStatus, version: nat)

  // ---------- Referenced Config objects ----------

  /** An NFDeployment decoded out of a Config. */
  datatype PeerDocument = PeerDocument(name: string, spec: Spec)

  /** The embedded document of a Config: raw JSON or a typed object; `decoded` is what JSON decoding makes of it. */
  datatype Payload =
    | Raw(decoded: Option<PeerDocument>)
    | Typed(isNFDeployment: bool, decoded: Option<PeerDocument>)

  datatype ConfigRef = ConfigRef(key: Key, payload: Payload)

  // ---------- Rendered configuration ----------

  datatype DnnEntry = DnnEntry(cidr: string, dnn: string, natInterface: string)

  datatype Rule =
    | Masquerade(cidr: string, interface: string)
    | RuleFrom(cidr: string)
    | DefaultRoute(gateway: string, interface: string)

  datatype DnnPool = DnnPool(dnn: string, cidr: string)

  datatype UpNode =
    | AccessNode
    | UserPlaneNode(n4: string, n3: string, slices: seq<seq<DnnPool>>)

  datatype NamedNode = NamedNode(name: string, node: UpNode)

  datatype Link = Link(a: string, b: string)

  /** The interpolated part of a ConfigMap's data; `OtherData` is anything the operator did not render. */
  datatype ConfigData =
    | AmfData(serviceName: string, n2: string)
    | UpfData(pfcp: string, gtpu: string, n6Gateway: string, dnnList: seq<DnnEntry>, rules: seq<Rule>)
    | SmfData(serviceName: string, pfcp: string, upNodes: seq<NamedNode>, links: seq<Link>)
    | OtherData(text: string)

  datatype ConfigMap = ConfigMap(data: ConfigData, owned: bool, version: nat)

  datatype Service = Service(owned: bool, version: nat)

  // ---------- Deployment ----------

  /** A resource version as the pod annotation holds it; `Empty` is the empty string. */
  datatype Version = Empty | Rev(n: nat) | OtherText(text: string)

  /** The pod template's annotations: the two the operator writes and whatever else is there. */
  datatype Annotations = Annotations(configMapVersion: Option<Version>, networks: Option<string>, others: map<string,
      string>)
  {
    /** An object without annotations comes back from the API with a nil map. */
    predicate IsNil() {
      configMapVersion.None? && networks.None? && others == map[]
    }

    /** Reading a missing key of a Go map gives the empty string. */
    function ConfigMapVersion(): Version {
      if configMapVersion.Some? then configMapVersion.value else Empty
    }
  }

  /** A container image: the operator's own for a network function, or any other. */
  datatype Image = OperatorImage(kind: Kind) | OtherImage(text: string)

  datatype Template = Template(annotations: Annotations, image: Image, large: bool)

  /** `conditions` lists the condition types of the Deployment's status, first one first. */
  datatype Deployment = Deployment(template: Template, owned: bool, generation: nat,
                                   conditions: seq<ConditionType>, deleting: bool, version: nat)
}

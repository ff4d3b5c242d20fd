/** What each network function's reconciler builds from a spec: ConfigMap data and a Deployment template. */
module Resources {
  import opened Prelude
  import opened Objects
  import opened Interfaces
  import opened Networks
  import opened Annotations
  import UpfResources
  import SmfResources

  /** `createConfigMap` of each network function; only the SMF uses Config references. */
  function ConfigMapData(kind: Kind, name: string, spec: Spec, refs: seq<ConfigRef>): Build<ConfigData> {
    match kind
    case AMF =>
      (match FirstIP(spec.interfaces, "n2")
       case Rejected(error) => Rejected(error)
       case Built(n2) => Built(AmfData(name, n2)))
    case SMF => SmfResources.ConfigMapData(name, spec, refs)
    case UPF => UpfResources.ConfigMapData(spec)
  }

  method CreateConfigMap(kind: Kind, name: string, spec: Spec, refs: seq<ConfigRef>) returns (r: Build<ConfigData>)
    ensures r == ConfigMapData(kind, name, spec, refs)
  {
    match kind {
      case AMF =>
        var n2ip := GetFirstInterfaceConfigIPv4(spec.interfaces, "n2");
        if n2ip.Rejected? {
          return Rejected(n2ip.error);
        }
        r := Built(AmfData(name, n2ip.value));
      case SMF => r := SmfResources.CreateConfigMap(name, spec, refs);
      case UPF => r := UpfResources.CreateConfigMap(spec);
    }
  }

  /** Whether `createResourceRequirements` picks the larger of its two sizes. */
  predicate NeedsLarge(kind: Kind, capacity: Capacity) {
    match kind
    case AMF => capacity.maxSubscribers > 1000
    case SMF => !(capacity.maxSessions < 1000 && capacity.maxNFConnections < 10)
    case UPF => capacity.maxDownlink > 5_000_000_000
  }

  /** `createDeployment`: the pod template, annotated with the ConfigMap's version and the networks. */
  function Desired(kind: Kind, version: Version, name: string, spec: Spec): (r: Build<Template>)
    ensures !r.Crashed?
  {
    match NetworksAnnotation(kind, name, spec.interfaces)
    case Rejected(error) => Rejected(error)
    case Built(networks) =>
      Built(Template(Annotations(Some(version), Some(networks), map[]), OperatorImage(kind),
          NeedsLarge(kind, spec.capacity)))
  }

  method CreateDeployment(kind: Kind, version: Version, name: string, spec: Spec) returns (r: Build<Template>)
    ensures r == Desired(kind, version, name, spec)
  {
    var networks: Build<string>;
    match kind {
      case AMF => networks := CreateAmfNetworks(name, spec);
      case SMF => networks := CreateSmfNetworks(name, spec);
      case UPF => networks := CreateUpfNetworks(name, spec);
    }
    if networks.Rejected? {
      return Rejected(networks.error);
    }
    var podAnnotations := Annotations(Some(version), Some(networks.value), map[]);
    return Built(Template(podAnnotations, OperatorImage(kind), NeedsLarge(kind, spec.capacity)));
  }

  /** An entry shows an interface: the definition's name, the interface's name, its address and its gateway. */
  predicate Shows(e: Entry, nfName: string, x: InterfaceConfig) {
    e.name == nfName + "-" + x.name && e.interface == x.name && e.ip == x.address && x.gateway == Some(e.gateway)
  }

  /** An annotation is the print of the entries that show these interfaces, in order. */
  ghost predicate Annotates(annotation: string, nfName: string, sorted: seq<InterfaceConfig>) {
    exists es :: annotation == Print(es) && ShowsAll(es, nfName, sorted)
  }

  ghost predicate ShowsAll(es: seq<Entry>, nfName: string, sorted: seq<InterfaceConfig>) {
    |es| == |sorted| && forall i :: 0 <= i < |es| ==> Shows(es[i], nfName, sorted[i])
  }

  lemma EntriesShow(nfName: string, sorted: seq<InterfaceConfig>)
    requires AllHaveGateway(sorted)
    ensures ShowsAll(EntriesOf(nfName, sorted), nfName, sorted)
  {
  }

  /**
   What a built pod template holds, for the stable sort by name of the spec's attached interfaces: the annotation
   that shows them, the ConfigMap's version, no other annotation, the operator's image for this network function, and
   the size its capacity calls for.
   It is built exactly when each of them has a gateway.
   */
  lemma TemplateHolds(kind: Kind, version: Version, name: string, spec: Spec, sorted: seq<InterfaceConfig>)
    requires IsStableSort(sorted, Chosen(spec.interfaces, AttachedNames(kind)))
    ensures Desired(kind, version, name, spec).Built? <==> AllHaveGateway(sorted)
    ensures Desired(kind, version, name, spec).Built? ==>
              var t := Desired(kind, version, name, spec).value;
              && t.annotations.configMapVersion == Some(version) && t.annotations.others == map[]
              && t.annotations.networks == Some(Print(EntriesOf(name, sorted)))
              && Annotates(t.annotations.networks.value, name, sorted)
              && t.image == OperatorImage(kind) && t.large == NeedsLarge(kind, spec.capacity)
  {
    AnnotationIsStableSort(kind, name, spec.interfaces, sorted);
    if AllHaveGateway(sorted) {
      EntriesShow(name, sorted);
    }
  }

  predicate NoLess(c: Capacity, c': Capacity) {
    && c.maxSubscribers <= c'.maxSubscribers && c.maxSessions <= c'.maxSessions
    && c.maxNFConnections <= c'.maxNFConnections && c.maxDownlink <= c'.maxDownlink
  }

  /** The larger size is for more, and starts right above the thresholds of the three network functions. */
  lemma SizeThresholds(kind: Kind, c: Capacity, c': Capacity)
    ensures kind == AMF && c.maxSubscribers == 1000 ==> !NeedsLarge(kind, c)
    ensures kind == AMF && c.maxSubscribers == 1001 ==> NeedsLarge(kind, c)
    ensures kind == SMF && c.maxSessions == 999 && c.maxNFConnections == 9 ==> !NeedsLarge(kind, c)
    ensures kind == SMF && (c.maxSessions == 1000 || c.maxNFConnections == 10) ==> NeedsLarge(kind, c)
    ensures kind == UPF && c.maxDownlink == 5_000_000_000 ==> !NeedsLarge(kind, c)
    ensures kind == UPF && c.maxDownlink == 5_000_000_001 ==> NeedsLarge(kind, c)
    ensures NeedsLarge(kind, c) && NoLess(c, c') ==> NeedsLarge(kind, c')
  {
  }

  /** The AMF's ConfigMap holds its name and the address of its first n2 interface; it is built when that has one. */
  lemma AmfConfigMapHolds(name: string, spec: Spec, refs: seq<ConfigRef>)
    ensures ConfigMapData(AMF, name, spec, refs).Built? <==>
            HasIP(spec.interfaces, "n2")
    ensures ConfigMapData(AMF, name, spec, refs).Built? ==>
              var data := ConfigMapData(AMF, name, spec, refs).value;
              data.AmfData? && data.serviceName == name && HasFirstIP(spec.interfaces, "n2", data.n2)
  {
  }

  /** The names an annotation decodes to are those the spec needs. */
  lemma AnnotatedNames(kind: Kind, version: Version, name: string, spec: Spec)
    requires Desired(kind, version, name, spec).Built?
    ensures var annotation := Desired(kind, version, name, spec).value.annotations.networks;
            annotation.Some? &&
            var networks := Unmarshal(annotation.value);
            networks.Some? ==> NamesOf(networks.value) == NeededNames(kind, name, spec.interfaces)
  {
    ValidatedNames(kind, name, spec.interfaces);
  }

  // ---------- Configuration and annotation agree ----------

  /** The first entry of the annotation that carries an interface name. */
  ghost predicate IsFirstEntry(entries: seq<Entry>, i: int, interface: string) {
    && 0 <= i < |entries| && entries[i].interface == interface
    && forall j :: 0 <= j < i ==> entries[j].interface != interface
  }

  lemma {:induction false} FirstNamedAt(interfaces: seq<InterfaceConfig>, name: string) returns (i: nat)
    requires FirstNamed(interfaces, name).Built?
    ensures i < |interfaces| && interfaces[i] == FirstNamed(interfaces, name).value && interfaces[i].name == name
    ensures forall j :: 0 <= j < i ==> interfaces[j].name != name
  {
    if interfaces[0].name == name {
      i := 0;
    } else {
      i := FirstNamedAt(interfaces[1..], name);
      i := i + 1;
    }
  }

  /** The entry the printer puts first for a name comes from the interface the configuration search finds. */
  lemma FirstEntryIsFirstInterface(kind: Kind, name: string, interfaces: seq<InterfaceConfig>, interface: string)
      returns (i: nat)
    requires NetworkEntries(kind, name, interfaces).Built?
    requires interface in AttachedNames(kind) && FirstNamed(interfaces, interface).Built?
    ensures var es, first := NetworkEntries(kind, name, interfaces).value, FirstNamed(interfaces, interface).value;
            && IsFirstEntry(es, i, interface) && first.gateway.Some?
            && es[i].ip == first.address && es[i].gateway == first.gateway.value
  {
    var flat := Grouped(interfaces, AttachedNames(kind));
    AttachedNamesSorted(kind);
    NamedOfGrouped(interfaces, AttachedNames(kind), interface);
    FirstIsHead(flat, interface);
    FirstIsHead(interfaces, interface);
    GroupingIsStableSort(kind, interfaces);
    AnnotationIsStableSort(kind, name, interfaces, flat);
    i := FirstNamedAt(flat, interface);
    assert forall j :: 0 <= j < |flat| ==>
        NetworkEntries(kind, name, interfaces).value[j] == EntryOf(name, flat[j].name, flat[j]);
  }

  /**
   When both builds succeed, the UPF's PFCP and GTPU addresses are those of the interfaces behind the first n4 and n3
   entries of the annotation, and its n6 gateway is the gateway of the first n6 entry.
   */
  lemma UpfConfigurationMatchesAnnotation(name: string, spec: Spec) returns (n3: nat, n4: nat, n6: nat)
    requires UpfResources.ConfigMapData(spec).Built?
    requires NetworkEntries(UPF, name, spec.interfaces).Built?
    ensures var data, es := UpfResources.ConfigMapData(spec).value, NetworkEntries(UPF, name, spec.interfaces).value;
            && IsFirstEntry(es, n4, "n4") && IsFirstEntry(es, n3, "n3") && IsFirstEntry(es, n6, "n6")
            && data.UpfData?
            && FirstNamed(spec.interfaces, "n4").Built? && FirstNamed(spec.interfaces, "n3").Built?
            && var (first4, first3) :=
                (FirstNamed(spec.interfaces, "n4").value, FirstNamed(spec.interfaces, "n3").value);
               && es[n4].ip == first4.address && first4.ip == Some(data.pfcp)
               && es[n3].ip == first3.address && first3.ip == Some(data.gtpu)
               && es[n6].gateway == data.n6Gateway
  {
    n4 := FirstEntryIsFirstInterface(UPF, name, spec.interfaces, "n4");
    n3 := FirstEntryIsFirstInterface(UPF, name, spec.interfaces, "n3");
    n6 := FirstEntryIsFirstInterface(UPF, name, spec.interfaces, "n6");
  }

  /** For AMF and SMF too, the address in the configuration is that of the interface behind the first entry. */
  lemma AddressMatchesAnnotation(kind: Kind, name: string, spec: Spec, refs: seq<ConfigRef>) returns (i: nat)
    requires kind != UPF && ConfigMapData(kind, name, spec, refs).Built?
    requires NetworkEntries(kind, name, spec.interfaces).Built?
    ensures var data, es :=
            ConfigMapData(kind, name, spec, refs).value, NetworkEntries(kind, name, spec.interfaces).value;
            var interface := if kind == AMF then "n2" else "n4";
            && FirstNamed(spec.interfaces, interface).Built?
            && var first := FirstNamed(spec.interfaces, interface).value;
               && IsFirstEntry(es, i, interface) && es[i].ip == first.address
               && (kind == AMF ==> data.AmfData? && first.ip == Some(data.n2))
               && (kind == SMF ==> data.SmfData? && first.ip == Some(data.pfcp))
  {
    if kind == AMF {
      AmfConfigMapHolds(name, spec, refs);
      i := FirstEntryIsFirstInterface(AMF, name, spec.interfaces, "n2");
    } else {
      SmfResources.SmfConfigMapHolds(name, spec, refs);
      i := FirstEntryIsFirstInterface(SMF, name, spec.interfaces, "n4");
    }
  }
}

/** The SMF's configuration: peers decoded from referenced Configs, and the user-plane topology they form. */
module SmfResources {
  import opened Prelude
  import opened Objects
  import opened Text
  import opened Interfaces
  import opened Instances

  // ---------- Config references ----------

  predicate HasKey(refs: seq<ConfigRef>, key: Key) {
    exists i :: 0 <= i < |refs| && refs[i].key == key
  }

  /** Keep a fetched reference unless one with its namespace and name is already kept. */
  function AddRef(refs: seq<ConfigRef>, ref: ConfigRef): seq<ConfigRef> {
    if HasKey(refs, ref.key) then refs else refs + [ref]
  }

  /** The duplicate check: an inner loop that breaks at the first match. */
  method IsDuplicate(configRefs: seq<ConfigRef>, configRef: ConfigRef) returns (duplicate: bool)
    ensures duplicate <==> HasKey(configRefs, configRef.key)
  {
    duplicate := false;
    for i := 0 to |configRefs|
      invariant !duplicate && !HasKey(configRefs[..i], configRef.key)
    {
      if configRefs[i].key.namespace == configRef.key.namespace && configRefs[i].key.name == configRef.key.name {
        duplicate := true;
        break;
      }
      assert configRefs[..i + 1] == configRefs[..i] + [configRefs[i]];
    }
    assert configRefs[..|configRefs|] == configRefs;
  }

  // ---------- Peers ----------

  function PeersOf(refs: seq<ConfigRef>): (r: Build<seq<PeerDocument>>)
    ensures !r.Crashed?
  {
    if refs == [] then Built([]) else
    var payload := refs[0].payload;
    if payload.Typed? && !payload.isNFDeployment then PeersOf(refs[1..])
    else if payload.decoded.None? then Rejected(BadConfigRef)
    else match PeersOf(refs[1..])
      case Rejected(error) => Rejected(error)
      case Built(rest) => Built([payload.decoded.value] + rest)
  }

  /** A raw document, or a typed object that is an NFDeployment. */
  predicate IsPeer(ref: ConfigRef) {
    ref.payload.Raw? || ref.payload.isNFDeployment
  }

  /** The references to peers, in order. */
  function PeerRefs(refs: seq<ConfigRef>): seq<ConfigRef> {
    if refs == [] then []
    else if IsPeer(refs[0]) then [refs[0]] + PeerRefs(refs[1..])
    else PeerRefs(refs[1..])
  }

  ghost predicate AllDecode(refs: seq<ConfigRef>) {
    forall i :: 0 <= i < |refs| ==> refs[i].payload.decoded.Some?
  }

  ghost predicate AreDecoded(documents: seq<PeerDocument>, refs: seq<ConfigRef>) {
    |documents| == |refs| && forall i :: 0 <= i < |refs| ==> refs[i].payload.decoded == Some(documents[i])
  }

  lemma OneMoreDecoded(documents: seq<PeerDocument>, refs: seq<ConfigRef>, document: PeerDocument, ref: ConfigRef)
    requires AreDecoded(documents, refs) && ref.payload.decoded == Some(document)
    ensures AreDecoded([document] + documents, [ref] + refs)
  {
  }

  lemma DecodedMore(refs: seq<ConfigRef>, ref: ConfigRef)
    ensures AllDecode([ref] + refs) <==> ref.payload.decoded.Some? && AllDecode(refs)
  {
    assert forall i :: 0 <= i < |refs| ==> ([ref] + refs)[i + 1] == refs[i];
    assert ([ref] + refs)[0] == ref;
  }

  /** The documents are what the peers' payloads decode to, in order; extraction fails exactly when one does not. */
  lemma {:induction false} PeersAreDecoded(refs: seq<ConfigRef>)
    ensures PeersOf(refs).Built? <==> AllDecode(PeerRefs(refs))
    ensures PeersOf(refs).Built? ==> AreDecoded(PeersOf(refs).value, PeerRefs(refs))
  {
    if refs != [] {
      PeersAreDecoded(refs[1..]);
      var rest, ref := PeersOf(refs[1..]), refs[0];
      if IsPeer(ref) {
        DecodedMore(PeerRefs(refs[1..]), ref);
        if rest.Built? && ref.payload.decoded.Some? {
          OneMoreDecoded(rest.value, PeerRefs(refs[1..]), ref.payload.decoded.value, ref);
        }
      }
    }
  }

  method ExtractConfigRefUPFDeployments(refs: seq<ConfigRef>) returns (r: Build<seq<PeerDocument>>)
    ensures r == PeersOf(refs)
  {
    var upfDeployments: seq<PeerDocument> := [];
    assert refs[0..] == refs;
    BehindNothing(PeersOf(refs));
    for i := 0 to |refs|
      invariant PeersOf(refs) == Behind(upfDeployments, PeersOf(refs[i..]))
    {
      var payload := refs[i].payload;
      assert refs[i..][1..] == refs[i + 1..];
      if payload.Typed? && !payload.isNFDeployment {
        continue;
      }
      if payload.decoded.None? {
        return Rejected(BadConfigRef);
      }
      BehindMore(upfDeployments, [payload.decoded.value], PeersOf(refs[i + 1..]));
      upfDeployments := upfDeployments + [payload.decoded.value];
    }
    assert refs[|refs|..] == [];
    BehindEverything(upfDeployments);
    return Built(upfDeployments);
  }

  /** `UpfPeerConfigTemplate`: what the template sees of a peer. */
  datatype Peer = Peer(name: string, n4: string, n3: string, instances: seq<NetworkInstance>)

  function PeerConfig(document: PeerDocument): (r: Build<Peer>)
    ensures !r.Crashed?
  {
    match FirstIP(document.spec.interfaces, "n4")
    case Rejected(error) => Rejected(error)
    case Built(n4) =>
      match FirstIP(document.spec.interfaces, "n3")
      case Rejected(error) => Rejected(error)
      case Built(n3) =>
        var instances := Listing(document.spec.networkInstances, "n6");
        if instances == [] then Rejected(NoInstances("n6")) else Built(Peer(document.name, n4, n3, instances))
  }

  function PeerConfigs(documents: seq<PeerDocument>): (r: Build<seq<Peer>>)
    ensures !r.Crashed?
    ensures r.Built? ==> |r.value| == |documents|
    ensures r.Built? ==> forall i :: 0 <= i < |documents| ==> PeerConfig(documents[i]) == Built(r.value[i])
  {
    if documents == [] then Built([]) else
    match PeerConfig(documents[0])
    case Rejected(error) => Rejected(error)
    case Built(peer) =>
      match PeerConfigs(documents[1..])
      case Rejected(error) => Rejected(error)
      case Built(rest) => Built([peer] + rest)
  }

  // ---------- The userplaneInformation template ----------

  /** One of the three `dnnUpfInfoList` blocks: the pool at index `p` of every data network. */
  function DnnPools(rows: seq<Row>, p: nat): (r: Build<seq<DnnPool>>)
    ensures !r.Crashed?
  {
    if rows == [] then Built([])
    else if |rows[0].network.pool| <= p then Rejected(IndexOutOfRange)
    else match DnnPools(rows[1..], p)
      case Rejected(error) => Rejected(error)
      case Built(rest) => Built([DnnPool(rows[0].network.name, rows[0].network.pool[p])] + rest)
  }

  function Slices(rows: seq<Row>): (r: Build<seq<seq<DnnPool>>>)
    ensures !r.Crashed?
  {
    match DnnPools(rows, 0)
    case Rejected(error) => Rejected(error)
    case Built(first) =>
      match DnnPools(rows, 1)
      case Rejected(error) => Rejected(error)
      case Built(second) =>
        match DnnPools(rows, 2)
        case Rejected(error) => Rejected(error)
        case Built(third) => Built([first, second, third])
  }

  function AccessName(index: nat): string {
    "gNB" + Decimal(index)
  }

  /** The `upNodes` block: an access node and a user-plane node per peer, from the peer at `index` on. */
  function UpNodes(peers: seq<Peer>, index: nat): (r: Build<seq<NamedNode>>)
    ensures !r.Crashed?
    ensures r.Built? ==> |r.value| == 2 * |peers|
    decreases |peers|
  {
    if peers == [] then Built([]) else
    match Slices(Rows(peers[0].instances))
    case Rejected(error) => Rejected(error)
    case Built(slices) =>
      match UpNodes(peers[1..], index + 1)
      case Rejected(error) => Rejected(error)
      case Built(rest) =>
        Built([NamedNode(AccessName(index), AccessNode),
            NamedNode(peers[0].name, UserPlaneNode(peers[0].n4, peers[0].n3, slices))] + rest)
  }

  /** The `links` block. */
  function Links(peers: seq<Peer>, index: nat): (links: seq<Link>)
    ensures |links| == |peers|
    ensures forall i :: 0 <= i < |peers| ==> links[i] == Link(AccessName(index + i), peers[i].name)
    decreases |peers|
  {
    if peers == [] then [] else [Link(AccessName(index), peers[0].name)] + Links(peers[1..], index + 1)
  }

  function Render(serviceName: string, pfcp: string, peers: seq<Peer>): (r: Build<ConfigData>)
    ensures !r.Crashed?
  {
    match UpNodes(peers, 0)
    case Rejected(error) => Rejected(error)
    case Built(upNodes) => Built(SmfData(serviceName, pfcp, upNodes, Links(peers, 0)))
  }

  // ---------- createConfigMap ----------

  function ConfigMapData(name: string, spec: Spec, refs: seq<ConfigRef>): (r: Build<ConfigData>)
    ensures !r.Crashed?
  {
    match FirstIP(spec.interfaces, "n4")
    case Rejected(error) => Rejected(error)
    case Built(pfcp) =>
      match PeersOf(refs)
      case Rejected(error) => Rejected(error)
      case Built(documents) =>
        match PeerConfigs(documents)
        case Rejected(error) => Rejected(error)
        case Built(peers) => Render(name, pfcp, peers)
  }

  method CreateConfigMap(name: string, spec: Spec, refs: seq<ConfigRef>) returns (r: Build<ConfigData>)
    ensures r == ConfigMapData(name, spec, refs)
  {
    var n4ip := GetFirstInterfaceConfigIPv4(spec.interfaces, "n4");
    if n4ip.Rejected? {
      return Rejected(n4ip.error);
    }
    var extracted := ExtractConfigRefUPFDeployments(refs);
    if extracted.Rejected? {
      return Rejected(extracted.error);
    }
    var upfDeployments := extracted.value;
    var upfList: seq<Peer> := [];
    assert upfDeployments[0..] == upfDeployments;
    BehindNothing(PeerConfigs(upfDeployments));
    for i := 0 to |upfDeployments|
      invariant PeerConfigs(upfDeployments) == Behind(upfList, PeerConfigs(upfDeployments[i..]))
    {
      var upfDeployment := upfDeployments[i];
      assert upfDeployments[i..][1..] == upfDeployments[i + 1..];
      var upfN4Ip := GetFirstInterfaceConfigIPv4(upfDeployment.spec.interfaces, "n4");
      if upfN4Ip.Rejected? {
        return Rejected(upfN4Ip.error);
      }
      var upfN3Ip := GetFirstInterfaceConfigIPv4(upfDeployment.spec.interfaces, "n3");
      if upfN3Ip.Rejected? {
        return Rejected(upfN3Ip.error);
      }
      var upfN6Cfg, ok := GetNetworkInstances(upfDeployment.spec, "n6");
      if !ok {
        return Rejected(NoInstances("n6"));
      }
      var upfConfig := Peer(upfDeployment.name, upfN4Ip.value, upfN3Ip.value, upfN6Cfg);
      BehindMore(upfList, [upfConfig], PeerConfigs(upfDeployments[i + 1..]));
      upfList := upfList + [upfConfig];
    }
    assert upfDeployments[|upfDeployments|..] == [];
    BehindEverything(upfList);
    r := Render(name, n4ip.value, upfList);
  }

  // ---------- Rendering totality ----------

  ghost predicate RowsHave(rows: seq<Row>, n: nat) {
    forall r :: r in rows ==> |r.network.pool| >= n
  }

  lemma {:induction false} DnnPoolsRender(rows: seq<Row>, p: nat)
    ensures DnnPools(rows, p).Built? <==> RowsHave(rows, p + 1)
    ensures DnnPools(rows, p).Rejected? ==> DnnPools(rows, p).error == IndexOutOfRange
  {
    if rows != [] {
      DnnPoolsRender(rows[1..], p);
      assert rows == [rows[0]] + rows[1..];
    }
  }

  lemma SlicesRender(rows: seq<Row>)
    ensures Slices(rows).Built? <==> RowsHave(rows, 3)
    ensures Slices(rows).Rejected? ==> Slices(rows).error == IndexOutOfRange
  {
    DnnPoolsRender(rows, 0);
    DnnPoolsRender(rows, 1);
    DnnPoolsRender(rows, 2);
  }

  lemma {:induction false} UpNodesRender(documents: seq<PeerDocument>, peers: seq<Peer>, index: nat)
    requires PeerConfigs(documents) == Built(peers)
    ensures UpNodes(peers, index).Built? <==> forall d :: d in documents ==>
            PoolsSuffice(d.spec.networkInstances, "n6", 3)
    ensures UpNodes(peers, index).Rejected? ==> UpNodes(peers, index).error == IndexOutOfRange
    decreases |documents|
  {
    if documents != [] {
      var d := documents[0];
      assert documents == [d] + documents[1..];
      assert peers[0] == PeerConfig(d).value && PeerConfigs(documents[1..]) == Built(peers[1..]);
      RowsOfListing(d.spec.networkInstances, "n6", 3);
      SlicesRender(Rows(peers[0].instances));
      UpNodesRender(documents[1..], peers[1..], index + 1);
    }
  }

  /**
   Rendering totality: once every interface resolves and every peer has an n6 instance, the ConfigMap is built
   exactly when every data network of an n6 instance of a peer has at least three pools.
   */
  lemma {:induction false} SmfRendersIffPools(name: string, spec: Spec, refs: seq<ConfigRef>)
    requires FirstIP(spec.interfaces, "n4").Built?
    requires PeersOf(refs).Built? && PeerConfigs(PeersOf(refs).value).Built?
    ensures ConfigMapData(name, spec, refs).Built? <==>
            forall d :: d in PeersOf(refs).value ==> PoolsSuffice(d.spec.networkInstances, "n6", 3)
    ensures !ConfigMapData(name, spec, refs).Built? ==> ConfigMapData(name, spec, refs) == Rejected(IndexOutOfRange)
  {
    UpNodesRender(PeersOf(refs).value, PeerConfigs(PeersOf(refs).value).value, 0);
  }

  // ---------- Topology ----------

  ghost predicate DistinctNames(nodes: seq<NamedNode>) {
    forall i, j :: 0 <= i < j < |nodes| ==> nodes[i].name != nodes[j].name
  }

  lemma AccessNameInjective(i: nat, j: nat)
    requires AccessName(i) == AccessName(j)
    ensures i == j
  {
    assert AccessName(i)[3..] == Decimal(i) && AccessName(j)[3..] == Decimal(j);
    DecimalInjective(i, j);
  }

  /** The peers' names differ from each other and from the generated access names. */
  ghost predicate NamesDoNotClash(peers: seq<Peer>) {
    && (forall i, j :: 0 <= i < j < |peers| ==> peers[i].name != peers[j].name)
    && (forall i, j :: 0 <= i < |peers| && 0 <= j < |peers| ==> peers[i].name != AccessName(j))
  }

  /** The nodes of the first peer, and those of the others behind them. */
  lemma {:induction false} FirstNodes(peers: seq<Peer>, index: nat)
    requires UpNodes(peers, index).Built? && peers != []
    ensures Slices(Rows(peers[0].instances)).Built? && UpNodes(peers[1..], index + 1).Built?
    ensures var node := NamedNode(peers[0].name,
            UserPlaneNode(peers[0].n4, peers[0].n3, Slices(Rows(peers[0].instances)).value));
            UpNodes(peers, index).value ==
                [NamedNode(AccessName(index), AccessNode), node] + UpNodes(peers[1..], index + 1).value
  {
  }

  /** Where a peer's two nodes are. */
  lemma {:induction false} NodesOfPeer(peers: seq<Peer>, index: nat, i: nat)
    requires UpNodes(peers, index).Built? && i < |peers|
    ensures var nodes := UpNodes(peers, index).value;
            && nodes[2 * i] == NamedNode(AccessName(index + i), AccessNode)
            && Slices(Rows(peers[i].instances)).Built?
            && nodes[2 * i + 1] == NamedNode(peers[i].name,
                UserPlaneNode(peers[i].n4, peers[i].n3, Slices(Rows(peers[i].instances)).value))
    decreases i
  {
    FirstNodes(peers, index);
    if i > 0 {
      NodesOfPeer(peers[1..], index + 1, i - 1);
      var nodes, rest := UpNodes(peers, index).value, UpNodes(peers[1..], index + 1).value;
      assert nodes[2 * i] == rest[2 * (i - 1)] && nodes[2 * i + 1] == rest[2 * (i - 1) + 1];
    }
  }

  lemma {:induction false} NodeNames(peers: seq<Peer>, k: nat)
    requires UpNodes(peers, 0).Built? && k < 2 * |peers|
    ensures var node := UpNodes(peers, 0).value[k];
            if k % 2 == 0 then node == NamedNode(AccessName(k / 2), AccessNode)
            else node.name == peers[k / 2].name && !IsAccess(node)
  {
    var p := k / 2;
    NodesOfPeer(peers, 0, p);
    if k % 2 == 0 {
      assert k == 2 * p;
    } else {
      assert k == 2 * p + 1;
    }
  }

  /** All keys of the `upNodes` mapping are distinct exactly when the peers' names do not clash. */
  lemma {:induction false} NodeNamesDistinct(peers: seq<Peer>)
    requires UpNodes(peers, 0).Built?
    ensures DistinctNames(UpNodes(peers, 0).value) <==> NamesDoNotClash(peers)
  {
    var nodes := UpNodes(peers, 0).value;
    if NamesDoNotClash(peers) {
      forall i, j | 0 <= i < j < |nodes| ensures nodes[i].name != nodes[j].name {
        NodeNames(peers, i);
        NodeNames(peers, j);
        if i % 2 == 0 && j % 2 == 0 && nodes[i].name == nodes[j].name {
          AccessNameInjective(i / 2, j / 2);
        }
      }
    }
    if DistinctNames(nodes) {
      forall i, j | 0 <= i < j < |peers| ensures peers[i].name != peers[j].name {
        NodesOfPeer(peers, 0, i);
        NodesOfPeer(peers, 0, j);
        assert nodes[2 * i + 1].name != nodes[2 * j + 1].name;
      }
      forall i, j | 0 <= i < |peers| && 0 <= j < |peers| ensures peers[i].name != AccessName(j) {
        NodesOfPeer(peers, 0, i);
        NodesOfPeer(peers, 0, j);
        assert nodes[2 * j].name == AccessName(j);
        assert if i < j then nodes[2 * i + 1].name != nodes[2 * j].name else nodes[2 * j].name != nodes[2 * i + 1].name;
      }
    }
  }

  predicate IsAccess(node: NamedNode) {
    node.node.AccessNode?
  }

  predicate Touches(link: Link, name: string) {
    link.a == name || link.b == name
  }

  /** A link joins a declared access node to a declared user-plane node. */
  ghost predicate Joins(link: Link, nodes: seq<NamedNode>) {
    && (exists n :: 0 <= n < |nodes| && IsAccess(nodes[n]) && nodes[n].name == link.a)
    && (exists n :: 0 <= n < |nodes| && !IsAccess(nodes[n]) && nodes[n].name == link.b)
  }

  /** A name is the end of exactly one link. */
  ghost predicate EndsOneLink(name: string, links: seq<Link>) {
    exists l :: 0 <= l < |links| && Touches(links[l], name) &&
                forall l' :: 0 <= l' < |links| && Touches(links[l'], name) ==> l' == l
  }

  /**
   The links are a perfect matching between access nodes and user-plane nodes: one per peer, every link joins
   declared nodes of the two kinds, and every declared node is the end of exactly one link.
   */
  lemma {:induction false} LinksMatchNodes(peers: seq<Peer>)
    requires UpNodes(peers, 0).Built? && NamesDoNotClash(peers)
    ensures var nodes, links := UpNodes(peers, 0).value, Links(peers, 0);
            && |links| == |peers| && |nodes| == 2 * |links|
            && (forall l :: 0 <= l < |links| ==> Joins(links[l], nodes))
            && (forall n :: 0 <= n < |nodes| ==> EndsOneLink(nodes[n].name, links))
  {
    var nodes, links := UpNodes(peers, 0).value, Links(peers, 0);
    forall l | 0 <= l < |links| ensures Joins(links[l], nodes) {
      NodesOfPeer(peers, 0, l);
      assert IsAccess(nodes[2 * l]) && !IsAccess(nodes[2 * l + 1]);
    }
    forall n | 0 <= n < |nodes| ensures EndsOneLink(nodes[n].name, links) {
      NodeNames(peers, n);
      var p := n / 2;
      assert links[p] == Link(AccessName(0 + p), peers[p].name);
      assert Touches(links[p], nodes[n].name);
      forall l | 0 <= l < |links| && Touches(links[l], nodes[n].name) ensures l == p {
        assert links[l] == Link(AccessName(0 + l), peers[l].name);
        if n % 2 == 0 && links[l].a == AccessName(p) {
          AccessNameInjective(p, l);
        }
      }
    }
  }

  // ---------- What the SMF's ConfigMap holds ----------

  /** The pools a slice lists: the one at index `p` of each data network, with the network's name, in order. */
  predicate ListsPools(pools: seq<DnnPool>, rows: seq<Row>, p: nat) {
    |pools| == |rows| && forall j :: 0 <= j < |rows| ==> ListsPool(pools[j], rows[j], p)
  }

  predicate ListsPool(pool: DnnPool, row: Row, p: nat) {
    p < |row.network.pool| && pool.dnn == row.network.name && pool.cidr == row.network.pool[p]
  }

  lemma {:induction false} DnnPoolsRows(rows: seq<Row>, p: nat)
    requires DnnPools(rows, p).Built?
    ensures ListsPools(DnnPools(rows, p).value, rows, p)
  {
    if rows != [] {
      DnnPoolsRows(rows[1..], p);
      forall j | 0 <= j < |rows| ensures ListsPool(DnnPools(rows, p).value[j], rows[j], p) {
        if j > 0 {
          assert ListsPool(DnnPools(rows[1..], p).value[j - 1], rows[1..][j - 1], p);
        }
      }
    }
  }

  lemma SlicesRows(rows: seq<Row>)
    requires Slices(rows).Built?
    ensures |Slices(rows).value| == 3 && forall p :: 0 <= p < 3 ==> ListsPools(Slices(rows).value[p], rows, p)
  {
    DnnPoolsRows(rows, 0);
    DnnPoolsRows(rows, 1);
    DnnPoolsRows(rows, 2);
  }

  /** A node describes a document: its name, its first n4 and n3 addresses, and the pools of its n6 instances. */
  predicate Describes(node: NamedNode, d: PeerDocument) {
    && node.name == d.name && node.node.UserPlaneNode?
    && HasFirstIP(d.spec.interfaces, "n4", node.node.n4) && HasFirstIP(d.spec.interfaces, "n3", node.node.n3)
    && |node.node.slices| == 3
    && forall p :: 0 <= p < 3 ==> ListsPools(node.node.slices[p], Rows(Listing(d.spec.networkInstances, "n6")), p)
  }

  lemma PeerDescribes(d: PeerDocument)
    requires PeerConfig(d).Built? && Slices(Rows(PeerConfig(d).value.instances)).Built?
    ensures var peer := PeerConfig(d).value;
            Describes(NamedNode(peer.name, UserPlaneNode(peer.n4, peer.n3, Slices(Rows(peer.instances)).value)), d)
  {
    SlicesRows(Rows(PeerConfig(d).value.instances));
  }

  /** What the ConfigMap holds for one document: an access node, a node that describes it, and a link between them. */
  predicate HoldsPeer(upNodes: seq<NamedNode>, links: seq<Link>, i: nat, d: PeerDocument) {
    && 2 * i + 1 < |upNodes| && i < |links|
    && upNodes[2 * i].name == "gNB" + Decimal(i) && upNodes[2 * i].node.AccessNode?
    && Describes(upNodes[2 * i + 1], d)
    && links[i].a == "gNB" + Decimal(i) && links[i].b == d.name
  }

  lemma HeldByParts(upNodes: seq<NamedNode>, links: seq<Link>, i: nat, peer: Peer, d: PeerDocument)
    requires 2 * i + 1 < |upNodes| && i < |links| && PeerConfig(d) == Built(peer) && Slices(Rows(peer.instances)).Built?
    requires upNodes[2 * i] == NamedNode(AccessName(i), AccessNode) && links[i] == Link(AccessName(i), peer.name)
    requires upNodes[2 * i + 1] ==
             NamedNode(peer.name, UserPlaneNode(peer.n4, peer.n3, Slices(Rows(peer.instances)).value))
    ensures HoldsPeer(upNodes, links, i, d)
  {
    PeerDescribes(d);
  }

  lemma {:induction false} PeerParts(peers: seq<Peer>, index: nat, i: nat)
    requires UpNodes(peers, index).Built? && i < |peers|
    ensures Slices(Rows(peers[i].instances)).Built?
    ensures var nodes, links, peer := UpNodes(peers, index).value, Links(peers, index), peers[i];
            && 2 * i + 1 < |nodes| && i < |links|
            && nodes[2 * i] == NamedNode(AccessName(index + i), AccessNode)
            && links[i] == Link(AccessName(index + i), peer.name)
            && nodes[2 * i + 1] == NamedNode(peer.name,
                UserPlaneNode(peer.n4, peer.n3, Slices(Rows(peer.instances)).value))
  {
    NodesOfPeer(peers, index, i);
  }

  lemma {:induction false} PeerIsHeld(documents: seq<PeerDocument>, peers: seq<Peer>, index: nat, i: nat)
    requires PeerConfigs(documents) == Built(peers) && UpNodes(peers, index).Built? && i < |documents| && index == 0
    ensures HoldsPeer(UpNodes(peers, index).value, Links(peers, index), i, documents[i])
  {
    PeerParts(peers, index, i);
    assert index + i == i;
    HeldByParts(UpNodes(peers, index).value, Links(peers, index), i, peers[i], documents[i]);
  }

  /**
   What the SMF's ConfigMap holds: its own name, the address of its first n4 interface, and for the i-th decoded
   document an access node gNB<i>, a node that describes the document, and a link from the one to the other.
   */
  lemma {:induction false} SmfConfigMapHolds(name: string, spec: Spec, refs: seq<ConfigRef>)
    requires ConfigMapData(name, spec, refs).Built?
    ensures PeersOf(refs).Built?
    ensures var data, documents := ConfigMapData(name, spec, refs).value, PeersOf(refs).value;
            && data.SmfData? && data.serviceName == name && HasFirstIP(spec.interfaces, "n4", data.pfcp)
            && |data.upNodes| == 2 * |documents| && |data.links| == |documents|
            && forall i :: 0 <= i < |documents| ==> HoldsPeer(data.upNodes, data.links, i, documents[i])
  {
    var documents := PeersOf(refs).value;
    forall i | 0 <= i < |documents|
      ensures HoldsPeer(ConfigMapData(name, spec, refs).value.upNodes, ConfigMapData(name, spec, refs).value.links, i,
              documents[i])
    {
      PeerIsHeld(documents, PeerConfigs(documents).value, 0, i);
    }
  }

  /** A document that can become a peer: its addresses resolve, it has an n6 instance, and every pool it needs. */
  ghost predicate CanPeer(d: PeerDocument) {
    && HasIP(d.spec.interfaces, "n4") && HasIP(d.spec.interfaces, "n3")
    && (exists i :: i in d.spec.networkInstances && "n6" in i.interfaces)
  }

  lemma PeerBuilds(d: PeerDocument)
    ensures PeerConfig(d).Built? <==> CanPeer(d)
  {
    ListingMembers(d.spec.networkInstances, "n6");
    var listing := Listing(d.spec.networkInstances, "n6");
    if listing != [] {
      assert listing[0] in listing;
    }
  }

  lemma {:induction false} PeersBuild(documents: seq<PeerDocument>)
    ensures PeerConfigs(documents).Built? <==> forall d :: d in documents ==> CanPeer(d)
  {
    if documents != [] {
      PeerBuilds(documents[0]);
      PeersBuild(documents[1..]);
      assert documents == [documents[0]] + documents[1..];
    }
  }

  /**
   When the SMF's ConfigMap is built: its n4 address resolves, every referenced peer decodes, and each decoded document
   resolves, has an n6 instance, and three pools for every data network of its n6 instances. It never dereferences nil.
   */
  lemma {:induction false} SmfBuilds(name: string, spec: Spec, refs: seq<ConfigRef>)
    ensures ConfigMapData(name, spec, refs).Built? <==>
            && HasIP(spec.interfaces, "n4") && PeersOf(refs).Built?
            && forall d :: d in PeersOf(refs).value ==> CanPeer(d) && PoolsSuffice(d.spec.networkInstances, "n6", 3)
  {
    if HasIP(spec.interfaces, "n4") && PeersOf(refs).Built? {
      PeersBuild(PeersOf(refs).value);
      if PeerConfigs(PeersOf(refs).value).Built? {
        SmfRendersIffPools(name, spec, refs);
      }
    }
  }
}

/** The UPF's configuration: templates, and what they need from the spec. */
module UpfResources {
  import opened Prelude
  import opened Objects
  import opened Interfaces
  import opened Instances

  // ---------- Templates ----------

  /** The `dnnList` block: indexing an empty pool or interface list is a template error. */
  function DnnList(rows: seq<Row>): (r: Build<seq<DnnEntry>>)
    ensures !r.Crashed?
  {
    if rows == [] then Built([])
    else if rows[0].network.pool == [] || rows[0].instance.interfaces == [] then Rejected(IndexOutOfRange)
    else match DnnList(rows[1..])
      case Rejected(error) => Rejected(error)
      case Built(rest) =>
        Built([DnnEntry(rows[0].network.pool[0], rows[0].network.name, rows[0].instance.interfaces[0])] + rest)
  }

  /** The first loop of the wrapper script. */
  function MasqueradeRules(rows: seq<Row>): (r: Build<seq<Rule>>)
    ensures !r.Crashed?
  {
    if rows == [] then Built([])
    else if rows[0].network.pool == [] || rows[0].instance.interfaces == [] then Rejected(IndexOutOfRange)
    else match MasqueradeRules(rows[1..])
      case Rejected(error) => Rejected(error)
      case Built(rest) => Built([Masquerade(rows[0].network.pool[0], rows[0].instance.interfaces[0])] + rest)
  }

  /** The second loop of the wrapper script. */
  function RouteRules(rows: seq<Row>, gateway: string): (r: Build<seq<Rule>>)
    ensures !r.Crashed?
  {
    if rows == [] then Built([])
    else if rows[0].network.pool == [] || rows[0].instance.interfaces == [] then Rejected(IndexOutOfRange)
    else match RouteRules(rows[1..], gateway)
      case Rejected(error) => Rejected(error)
      case Built(rest) =>
        Built([RuleFrom(rows[0].network.pool[0]), DefaultRoute(gateway, rows[0].instance.interfaces[0])] + rest)
  }

  function WrapperScript(rows: seq<Row>, gateway: string): (r: Build<seq<Rule>>)
    ensures !r.Crashed?
  {
    match MasqueradeRules(rows)
    case Rejected(error) => Rejected(error)
    case Built(first) =>
      match RouteRules(rows, gateway)
      case Rejected(error) => Rejected(error)
      case Built(second) => Built(first + second)
  }

  predicate Indexable(rows: seq<Row>) {
    forall i :: 0 <= i < |rows| ==> rows[i].network.pool != [] && rows[i].instance.interfaces != []
  }

  /** All three loops fail on the same rows, so the script renders whenever the configuration does. */
  lemma {:induction false} TemplatesAgree(rows: seq<Row>, gateway: string)
    ensures DnnList(rows).Built? <==> Indexable(rows)
    ensures WrapperScript(rows, gateway).Built? <==> Indexable(rows)
    ensures MasqueradeRules(rows).Built? <==> Indexable(rows)
    ensures RouteRules(rows, gateway).Built? <==> Indexable(rows)
  {
    if rows != [] {
      TemplatesAgree(rows[1..], gateway);
      assert rows == [rows[0]] + rows[1..];
    }
  }

  /** What the configuration lists for a row: its first pool, its data network and its instance's first interface. */
  predicate Lists(entry: DnnEntry, row: Row) {
    && row.network.pool != [] && row.instance.interfaces != []
    && entry.cidr == row.network.pool[0] && entry.dnn == row.network.name
    && entry.natInterface == row.instance.interfaces[0]
  }

  predicate Masquerades(rule: Rule, row: Row) {
    && row.network.pool != [] && row.instance.interfaces != []
    && rule.Masquerade? && rule.cidr == row.network.pool[0] && rule.interface == row.instance.interfaces[0]
  }

  predicate Routes(one: Rule, two: Rule, row: Row, gateway: string) {
    && row.network.pool != [] && row.instance.interfaces != []
    && one.RuleFrom? && one.cidr == row.network.pool[0]
    && two.DefaultRoute? && two.gateway == gateway && two.interface == row.instance.interfaces[0]
  }

  lemma {:induction false} DnnListRows(rows: seq<Row>)
    requires DnnList(rows).Built?
    ensures |DnnList(rows).value| == |rows| && forall i :: 0 <= i < |rows| ==> Lists(DnnList(rows).value[i], rows[i])
  {
    if rows != [] {
      DnnListRows(rows[1..]);
    }
  }

  lemma {:induction false} MasqueradeRows(rows: seq<Row>)
    requires MasqueradeRules(rows).Built?
    ensures var rules := MasqueradeRules(rows).value;
            |rules| == |rows| && forall i :: 0 <= i < |rows| ==> Masquerades(rules[i], rows[i])
  {
    if rows != [] {
      MasqueradeRows(rows[1..]);
    }
  }

  lemma {:induction false} RouteRows(rows: seq<Row>, gateway: string)
    requires RouteRules(rows, gateway).Built?
    ensures var rules := RouteRules(rows, gateway).value;
            && |rules| == 2 * |rows|
            && forall i :: 0 <= i < |rows| ==> Routes(rules[2 * i], rules[2 * i + 1], rows[i], gateway)
  {
    if rows != [] {
      RouteRows(rows[1..], gateway);
      var rules, rest := RouteRules(rows, gateway).value, RouteRules(rows[1..], gateway).value;
      assert rules[2..] == rest;
      forall i | 0 < i < |rows| ensures Routes(rules[2 * i], rules[2 * i + 1], rows[i], gateway) {
        var j := i - 1;
        assert Routes(rest[2 * j], rest[2 * j + 1], rows[1..][j], gateway);
        assert rules[2 * i] == rest[2 * j] && rules[2 * i + 1] == rest[2 * j + 1];
      }
    }
  }

  // ---------- createConfigMap ----------

  function ConfigMapData(spec: Spec): Build<ConfigData> {
    match FirstIP(spec.interfaces, "n4")
    case Rejected(error) => Rejected(error)
    case Built(n4) =>
      match FirstIP(spec.interfaces, "n3")
      case Rejected(error) => Rejected(error)
      case Built(n3) =>
        match FirstNamed(spec.interfaces, "n6")
        case Rejected(error) => Rejected(error)
        case Built(n6) =>
          if n6.gateway.None? then Crashed else
          var instances := Listing(spec.networkInstances, "n6");
          if instances == [] then Rejected(NoInstances("n6")) else
          match DnnList(Rows(instances))
          case Rejected(error) => Rejected(error)
          case Built(dnnList) =>
            match WrapperScript(Rows(instances), n6.gateway.value)
            case Rejected(error) => Rejected(error)
            case Built(rules) => Built(UpfData(n4, n3, n6.gateway.value, dnnList, rules))
  }

  method CreateConfigMap(spec: Spec) returns (r: Build<ConfigData>)
    ensures r == ConfigMapData(spec)
  {
    var n4ip := GetFirstInterfaceConfigIPv4(spec.interfaces, "n4");
    if n4ip.Rejected? {
      return Rejected(n4ip.error);
    }
    var n3ip := GetFirstInterfaceConfigIPv4(spec.interfaces, "n3");
    if n3ip.Rejected? {
      return Rejected(n3ip.error);
    }
    var n6ip := GetFirstInterfaceConfig(spec.interfaces, "n6");
    if n6ip.Rejected? {
      return Rejected(n6ip.error);
    }
    if n6ip.value.gateway.None? {
      return Crashed;
    }
    var n6Instances, ok := GetNetworkInstances(spec, "n6");
    if !ok {
      return Rejected(NoInstances("n6"));
    }
    var configuration := DnnList(Rows(n6Instances));
    if configuration.Rejected? {
      return Rejected(configuration.error);
    }
    var wrapperScript := WrapperScript(Rows(n6Instances), n6ip.value.gateway.value);
    if wrapperScript.Rejected? {
      return Rejected(wrapperScript.error);
    }
    return Built(UpfData(n4ip.value, n3ip.value, n6ip.value.gateway.value, configuration.value, wrapperScript.value));
  }

  /**
   What the UPF's ConfigMap holds: the addresses of the first n4 and n3 interfaces and the gateway of the first n6
   interface; then, for each data network of each n6 instance in order, an entry and a masquerade rule, and behind
   all those a source rule and a default route for each. There are no others.
   */
  lemma UpfConfigMapHolds(spec: Spec)
    requires ConfigMapData(spec).Built?
    ensures FirstNamed(spec.interfaces, "n6").Built?
    ensures var data, rows := ConfigMapData(spec).value, Rows(Listing(spec.networkInstances, "n6"));
            && data.UpfData?
            && HasFirstIP(spec.interfaces, "n4", data.pfcp) && HasFirstIP(spec.interfaces, "n3", data.gtpu)
            && FirstNamed(spec.interfaces, "n6").value.gateway == Some(data.n6Gateway)
            && |data.dnnList| == |rows| && |data.rules| == 3 * |rows|
            && (forall i :: 0 <= i < |rows| ==> Lists(data.dnnList[i], rows[i]))
            && (forall i :: 0 <= i < |rows| ==> Masquerades(data.rules[i], rows[i]))
            && (forall i :: 0 <= i < |rows| ==>
                  Routes(data.rules[|rows| + 2 * i], data.rules[|rows| + 2 * i + 1], rows[i], data.n6Gateway))
  {
    var data, rows := ConfigMapData(spec).value, Rows(Listing(spec.networkInstances, "n6"));
    DnnListRows(rows);
    MasqueradeRows(rows);
    RouteRows(rows, data.n6Gateway);
    ScriptRules(rows, data.n6Gateway);
  }

  lemma {:induction false} ScriptRules(rows: seq<Row>, gateway: string)
    requires WrapperScript(rows, gateway).Built? && |MasqueradeRules(rows).value| == |rows|
    requires |RouteRules(rows, gateway).value| == 2 * |rows|
    ensures var rules := WrapperScript(rows, gateway).value;
            && |rules| == 3 * |rows| && rules[..|rows|] == MasqueradeRules(rows).value
            && rules[|rows|..] == RouteRules(rows, gateway).value
            && forall i :: 0 <= i < 2 * |rows| ==> rules[|rows| + i] == RouteRules(rows, gateway).value[i]
  {
  }

  /**
   Rendering totality: once the interfaces resolve and an n6 instance exists, the ConfigMap is built exactly
   when every data network of an n6 instance has a pool. The index into an instance's interfaces never fails.
   */
  lemma UpfRendersIffPools(spec: Spec)
    requires FirstIP(spec.interfaces, "n4").Built? && FirstIP(spec.interfaces, "n3").Built?
    requires FirstNamed(spec.interfaces, "n6").Built? && FirstNamed(spec.interfaces, "n6").value.gateway.Some?
    requires exists i :: i in spec.networkInstances && "n6" in i.interfaces
    ensures ConfigMapData(spec).Built? <==> PoolsSuffice(spec.networkInstances, "n6", 1)
    ensures !ConfigMapData(spec).Built? ==> ConfigMapData(spec) == Rejected(IndexOutOfRange)
  {
    var rows := Rows(Listing(spec.networkInstances, "n6"));
    var gateway := FirstNamed(spec.interfaces, "n6").value.gateway.value;
    ListingMembers(spec.networkInstances, "n6");
    RowsOfListing(spec.networkInstances, "n6", 1);
    TemplatesAgree(rows, gateway);
    TemplateErrors(rows, gateway);
    assert Indexable(rows) <==> PoolsSuffice(spec.networkInstances, "n6", 1) by {
      if Indexable(rows) {
        forall r | r in rows ensures |r.network.pool| >= 1 {
          var i :| 0 <= i < |rows| && rows[i] == r;
        }
      }
      if forall r :: r in rows ==> |r.network.pool| >= 1 {
        forall i | 0 <= i < |rows| ensures rows[i].network.pool != [] && rows[i].instance.interfaces != [] {
          assert rows[i] in rows;
        }
      }
    }
  }

  /** When the UPF's ConfigMap is built, and when building it dereferences nil: for a first n6 without gateway. */
  lemma UpfBuilds(spec: Spec)
    ensures ConfigMapData(spec).Built? <==>
            && HasIP(spec.interfaces, "n4") && HasIP(spec.interfaces, "n3")
            && FirstNamed(spec.interfaces, "n6").Built? && FirstNamed(spec.interfaces, "n6").value.gateway.Some?
            && (exists i :: i in spec.networkInstances && "n6" in i.interfaces)
            && PoolsSuffice(spec.networkInstances, "n6", 1)
    ensures ConfigMapData(spec).Crashed? <==>
            && HasIP(spec.interfaces, "n4") && HasIP(spec.interfaces, "n3")
            && FirstNamed(spec.interfaces, "n6").Built? && FirstNamed(spec.interfaces, "n6").value.gateway.None?
  {
    ListingMembers(spec.networkInstances, "n6");
    var listing := Listing(spec.networkInstances, "n6");
    if listing != [] {
      assert listing[0] in listing;
    }
    if HasIP(spec.interfaces, "n4") && HasIP(spec.interfaces, "n3") && listing != []
       && FirstNamed(spec.interfaces, "n6").Built? && FirstNamed(spec.interfaces, "n6").value.gateway.Some? {
      UpfRendersIffPools(spec);
    }
  }

  lemma {:induction false} TemplateErrors(rows: seq<Row>, gateway: string)
    ensures DnnList(rows).Rejected? ==> DnnList(rows).error == IndexOutOfRange
    ensures MasqueradeRules(rows).Rejected? ==> MasqueradeRules(rows).error == IndexOutOfRange
    ensures RouteRules(rows, gateway).Rejected? ==> RouteRules(rows, gateway).error == IndexOutOfRange
  {
    if rows != [] {
      TemplateErrors(rows[1..], gateway);
    }
  }
}

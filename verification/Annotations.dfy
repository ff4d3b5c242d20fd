/** The network annotation of each network function, and what its entries are in terms of the spec. */
module Annotations {
  import opened Prelude
  import opened Objects
  import opened Text
  import opened Interfaces
  import opened Networks

  /** The interface names a network function attaches, in sorted order. */
  function AttachedNames(kind: Kind): seq<string> {
    match kind
    case AMF => ["n2"]
    case SMF => ["n4"]
    case UPF => ["n3", "n4", "n6", "n9"]
  }

  function OneGroup(interfaces: seq<InterfaceConfig>, a: string): (groups: Groups)
    ensures groups.Keys == set n | n in [a]
    ensures forall n :: n in [a] ==> n in groups && groups[n] == Named(interfaces, n)
  {
    map[a := Named(interfaces, a)]
  }

  function FourGroups(interfaces: seq<InterfaceConfig>, a: string, b: string, c: string, d: string): (groups: Groups)
    ensures groups.Keys == set n | n in [a, b, c, d]
    ensures forall n :: n in [a, b, c, d] ==> n in groups && groups[n] == Named(interfaces, n)
  {
    assert (set n | n in [a, b, c, d]) == {a, b, c, d};
    map[a := Named(interfaces, a), b := Named(interfaces, b), c := Named(interfaces, c), d := Named(interfaces, d)]
  }

  /** The map handed to the printer. */
  function GroupsOf(kind: Kind, interfaces: seq<InterfaceConfig>): (groups: Groups)
    ensures groups.Keys == set n | n in AttachedNames(kind)
    ensures forall n :: n in AttachedNames(kind) ==> n in groups && groups[n] == Named(interfaces, n)
  {
    match kind
    case AMF => OneGroup(interfaces, "n2")
    case SMF => OneGroup(interfaces, "n4")
    case UPF => FourGroups(interfaces, "n3", "n4", "n6", "n9")
  }

  function NetworkEntries(kind: Kind, nfName: string, interfaces: seq<InterfaceConfig>): (r: Build<seq<Entry>>)
    ensures !r.Crashed?
  {
    Entries(nfName, AttachedNames(kind), GroupsOf(kind, interfaces))
  }

  function NetworksAnnotation(kind: Kind, nfName: string, interfaces: seq<InterfaceConfig>): Build<string> {
    Printed(NetworkEntries(kind, nfName, interfaces))
  }

  predicate Distinct<T(==)>(s: seq<T>) {
    forall i, j :: 0 <= i < j < |s| ==> s[i] != s[j]
  }

  lemma {:induction false} DistinctContent<T>(s: seq<T>)
    requires Distinct(s)
    ensures multiset(s) == multiset(set x | x in s)
  {
    if s != [] {
      var rest := s[1..];
      DistinctContent(rest);
      assert s == [s[0]] + rest;
      assert (set x | x in s) == {s[0]} + set x | x in rest;
    }
  }

  lemma AttachedNamesOrdered(kind: Kind)
    ensures IsSorted(AttachedNames(kind)) && Distinct(AttachedNames(kind))
  {
  }

  lemma AttachedNamesSorted(kind: Kind)
    ensures IsSorted(AttachedNames(kind)) && Distinct(AttachedNames(kind))
    ensures SortedNames(set n | n in AttachedNames(kind)) == AttachedNames(kind)
  {
    AttachedNamesOrdered(kind);
    DistinctContent(AttachedNames(kind));
    SortedUnique(SortedNames(set n | n in AttachedNames(kind)), AttachedNames(kind));
  }

  method CreateUpfNetworks(nfName: string, spec: Spec) returns (r: Build<string>)
    ensures r == NetworksAnnotation(UPF, nfName, spec.interfaces)
  {
    var n3 := GetInterfaceConfigs(spec.interfaces, "n3");
    var n4 := GetInterfaceConfigs(spec.interfaces, "n4");
    var n6 := GetInterfaceConfigs(spec.interfaces, "n6");
    var n9 := GetInterfaceConfigs(spec.interfaces, "n9");
    AttachedNamesSorted(UPF);
    r := CreateNetworkAttachmentDefinitionNetworks(nfName, map["n3" := n3, "n4" := n4, "n6" := n6, "n9" := n9]);
  }

  method CreateSmfNetworks(nfName: string, spec: Spec) returns (r: Build<string>)
    ensures r == NetworksAnnotation(SMF, nfName, spec.interfaces)
  {
    var n4 := GetInterfaceConfigs(spec.interfaces, "n4");
    AttachedNamesSorted(SMF);
    r := CreateNetworkAttachmentDefinitionNetworks(nfName, map["n4" := n4]);
  }

  method CreateAmfNetworks(nfName: string, spec: Spec) returns (r: Build<string>)
    ensures r == NetworksAnnotation(AMF, nfName, spec.interfaces)
  {
    var n2 := GetInterfaceConfigs(spec.interfaces, "n2");
    AttachedNamesSorted(AMF);
    r := CreateNetworkAttachmentDefinitionNetworks(nfName, map["n2" := n2]);
  }

  // ---------- The entries are a stable sort of the selected interfaces ----------

  /** The interfaces whose name is one of `names`, in spec order. */
  function Chosen(interfaces: seq<InterfaceConfig>, names: seq<string>): seq<InterfaceConfig> {
    if interfaces == [] then []
    else if interfaces[0].name in names then [interfaces[0]] + Chosen(interfaces[1..], names)
    else Chosen(interfaces[1..], names)
  }

  ghost predicate SortedByName(s: seq<InterfaceConfig>) {
    forall i, j :: 0 <= i < j < |s| ==> LessEq(s[i].name, s[j].name)
  }

  /** `sorted` orders `input` by name and keeps the interfaces of each name in their order. */
  ghost predicate IsStableSort(sorted: seq<InterfaceConfig>, input: seq<InterfaceConfig>) {
    SortedByName(sorted) && forall name :: Named(sorted, name) == Named(input, name)
  }

  /** There is only one stable sort. */
  lemma {:induction false} StableSortUnique(a: seq<InterfaceConfig>, b: seq<InterfaceConfig>)
    requires SortedByName(a) && SortedByName(b)
    requires forall name :: Named(a, name) == Named(b, name)
    ensures a == b
  {
    if a == [] {
      assert b != [] ==> Named(a, b[0].name) == Named(b, b[0].name);
    } else if b == [] {
      assert Named(a, a[0].name) != Named(b, a[0].name);
    } else {
      var m, n := a[0].name, b[0].name;
      NamedHaveName(a, n);
      NamedHaveName(b, m);
      assert a[0] in Named(b, m) && b[0] in Named(a, n);
      LessEqTotal(m, m);
      LessEqTotal(n, n);
      LessEqAntisymmetric(m, n);
      assert Named(a, m) == Named(b, m);
      assert Named(a, m)[0] == a[0] && Named(b, m)[0] == b[0];
      forall name ensures Named(a[1..], name) == Named(b[1..], name) {
        assert Named(a, name) == Named(b, name);
        if name == m {
          assert Named(a, name)[1..] == Named(a[1..], name) && Named(b, name)[1..] == Named(b[1..], name);
        }
      }
      StableSortUnique(a[1..], b[1..]);
      assert a == [a[0]] + a[1..] && b == [b[0]] + b[1..];
    }
  }

  /** The groups of the given names, one after the other. */
  function Grouped(interfaces: seq<InterfaceConfig>, names: seq<string>): seq<InterfaceConfig> {
    if names == [] then [] else Named(interfaces, names[0]) + Grouped(interfaces, names[1..])
  }

  lemma {:induction false} NamedOfNamed(interfaces: seq<InterfaceConfig>, m: string, n: string)
    ensures Named(Named(interfaces, m), n) == if m == n then Named(interfaces, n) else []
  {
    if interfaces != [] {
      NamedOfNamed(interfaces[1..], m, n);
      if interfaces[0].name == m {
        assert Named(interfaces, m)[1..] == Named(interfaces[1..], m);
      }
    }
  }

  lemma {:induction false} NamedOfChosen(interfaces: seq<InterfaceConfig>, names: seq<string>, n: string)
    ensures Named(Chosen(interfaces, names), n) == if n in names then Named(interfaces, n) else []
  {
    if interfaces != [] {
      NamedOfChosen(interfaces[1..], names, n);
      if interfaces[0].name in names {
        assert Chosen(interfaces, names)[1..] == Chosen(interfaces[1..], names);
      }
    }
  }

  lemma {:induction false} NamedOfGrouped(interfaces: seq<InterfaceConfig>, names: seq<string>, n: string)
    requires Distinct(names)
    ensures Named(Grouped(interfaces, names), n) == if n in names then Named(interfaces, n) else []
  {
    if names != [] {
      NamedAppend(Named(interfaces, names[0]), Grouped(interfaces, names[1..]), n);
      NamedOfNamed(interfaces, names[0], n);
      assert names == [names[0]] + names[1..];
      assert n == names[0] ==> n !in names[1..];
      NamedOfGrouped(interfaces, names[1..], n);
    }
  }

  lemma {:induction false} GroupedMembers(interfaces: seq<InterfaceConfig>, names: seq<string>)
    ensures forall x :: x in Grouped(interfaces, names) <==> x in interfaces && x.name in names
  {
    if names != [] {
      NamedHaveName(interfaces, names[0]);
      GroupedMembers(interfaces, names[1..]);
      assert names == [names[0]] + names[1..];
    }
  }

  lemma {:induction false} GroupedSorted(interfaces: seq<InterfaceConfig>, names: seq<string>)
    requires IsSorted(names)
    ensures SortedByName(Grouped(interfaces, names))
  {
    if names != [] {
      var first, rest := Named(interfaces, names[0]), Grouped(interfaces, names[1..]);
      NamedHaveName(interfaces, names[0]);
      GroupedMembers(interfaces, names[1..]);
      GroupedSorted(interfaces, names[1..]);
      LessEqTotal(names[0], names[0]);
      var all := first + rest;
      forall i, j | 0 <= i < j < |all| ensures LessEq(all[i].name, all[j].name) {
        if i < |first| {
          assert all[i] in first;
          if j >= |first| {
            assert all[j] in rest;
          } else {
            assert all[j] in first;
          }
        }
      }
    }
  }

  /** Grouping by sorted names is the stable sort of the chosen interfaces. */
  lemma {:induction false} GroupingIsStableSort(kind: Kind, interfaces: seq<InterfaceConfig>)
    ensures IsStableSort(Grouped(interfaces, AttachedNames(kind)), Chosen(interfaces, AttachedNames(kind)))
  {
    var names := AttachedNames(kind);
    AttachedNamesSorted(kind);
    GroupedSorted(interfaces, names);
    forall name ensures Named(Grouped(interfaces, names), name) == Named(Chosen(interfaces, names), name) {
      NamedOfGrouped(interfaces, names, name);
      NamedOfChosen(interfaces, names, name);
    }
  }

  function EntriesOf(nfName: string, interfaces: seq<InterfaceConfig>): (entries: seq<Entry>)
    requires AllHaveGateway(interfaces)
    ensures |entries| == |interfaces|
    ensures forall i :: 0 <= i < |entries| ==> entries[i] == EntryOf(nfName, interfaces[i].name, interfaces[i])
  {
    seq(|interfaces|, i requires 0 <= i < |interfaces| => EntryOf(nfName, interfaces[i].name, interfaces[i]))
  }

  /** Printing the groups of sorted names: all entries, or the least name with an interface that lacks a gateway. */
  lemma {:induction false} EntriesOfGroups(nfName: string, names: seq<string>, groups: Groups,
      interfaces: seq<InterfaceConfig>)
    requires IsSorted(names)
    requires forall n :: n in names ==> n in groups && groups[n] == Named(interfaces, n)
    ensures var flat := Grouped(interfaces, names);
            match Entries(nfName, names, groups)
            case Built(es) => AllHaveGateway(flat) && es == EntriesOf(nfName, flat)
            case Rejected(error) => error.MissingGateway? && IsLeastWithoutGateway(error.name, flat)
            case Crashed => false
  {
    if names != [] {
      var n := names[0];
      var first, rest := Named(interfaces, n), Grouped(interfaces, names[1..]);
      NamedHaveName(interfaces, n);
      GroupedMembers(interfaces, names[1..]);
      EntriesOfGroups(nfName, names[1..], groups, interfaces);
      if AllHaveGateway(first) {
        if AllHaveGateway(rest) {
          GroupIsOf(nfName, n, first, rest);
        } else {
          GatewayInRest(first, rest);
        }
      } else {
        LessEqTotal(n, n);
        GatewayInFirst(n, first, rest);
      }
    }
  }

  lemma GroupIsOf(nfName: string, n: string, first: seq<InterfaceConfig>, rest: seq<InterfaceConfig>)
    requires AllHaveGateway(first) && AllHaveGateway(rest)
    requires forall x :: x in first ==> x.name == n
    ensures AllHaveGateway(first + rest)
    ensures GroupEntries(nfName, n, first) + EntriesOf(nfName, rest) == EntriesOf(nfName, first + rest)
  {
  }

  lemma {:induction false} GatewayInFirst(n: string, first: seq<InterfaceConfig>, rest: seq<InterfaceConfig>)
    requires !AllHaveGateway(first)
    requires forall x :: x in first ==> x.name == n
    requires forall x :: x in rest ==> LessEq(n, x.name)
    requires LessEq(n, n)
    ensures IsLeastWithoutGateway(n, first + rest)
  {
  }

  lemma GatewayInRest(first: seq<InterfaceConfig>, rest: seq<InterfaceConfig>)
    requires AllHaveGateway(first)
    ensures forall name :: IsLeastWithoutGateway(name, rest) ==> IsLeastWithoutGateway(name, first + rest)
  {
  }

  /** Some interface of this name lacks a gateway, and none of a smaller name does. */
  ghost predicate IsLeastWithoutGateway(name: string, interfaces: seq<InterfaceConfig>) {
    && (exists x :: x in interfaces && x.name == name && x.gateway.None?)
    && (forall x :: x in interfaces && x.gateway.None? ==> LessEq(name, x.name))
  }

  /**
   The annotation of a network function: when it is built its entries are, in order, the stable sort by
   name of the spec's interfaces of the attached names; it is refused exactly when one of them lacks a
   gateway, and the error names the least such interface.
   */
  lemma {:induction false} AnnotationIsStableSort(kind: Kind, nfName: string, interfaces: seq<InterfaceConfig>,
      sorted: seq<InterfaceConfig>)
    requires IsStableSort(sorted, Chosen(interfaces, AttachedNames(kind)))
    ensures NetworkEntries(kind, nfName, interfaces).Built? <==> AllHaveGateway(sorted)
    ensures match NetworkEntries(kind, nfName, interfaces)
            case Built(es) => es == EntriesOf(nfName, sorted)
            case Rejected(error) => error.MissingGateway? && IsLeastWithoutGateway(error.name, sorted)
            case Crashed => false
  {
    var names := AttachedNames(kind);
    AttachedNamesSorted(kind);
    GroupingIsStableSort(kind, interfaces);
    forall name ensures Named(sorted, name) == Named(Grouped(interfaces, names), name) {
      assert Named(Grouped(interfaces, names), name) == Named(Chosen(interfaces, names), name);
      assert Named(sorted, name) == Named(Chosen(interfaces, names), name);
    }
    StableSortUnique(sorted, Grouped(interfaces, names));
    EntriesOfGroups(nfName, names, GroupsOf(kind, interfaces), interfaces);
    if AllHaveGateway(sorted) {
      assert forall x :: x in sorted ==> x.gateway.Some?;
    }
  }

  /** The interfaces that attach a network function to a network. */
  predicate MustAttach(kind: Kind, interface: string) {
    match kind
    case AMF => interface == "n2"
    case SMF => interface == "n4"
    case UPF => interface == "n3" || interface == "n4" || interface == "n6" || interface == "n9"
  }

  lemma AttachedAre(kind: Kind, interface: string)
    ensures interface in AttachedNames(kind) <==> MustAttach(kind, interface)
  {
  }

  /** The attachment definitions a network function needs: `<nf>-<interface>` for each attached interface. */
  function NeededNames(kind: Kind, nfName: string, interfaces: seq<InterfaceConfig>): set<string> {
    set x | x in interfaces && MustAttach(kind, x.name) :: nfName + "-" + x.name
  }

  function NamesOf(networks: seq<Network>): set<string> {
    set n | n in networks :: n.name
  }

  lemma NeededAre(kind: Kind, nfName: string, interfaces: seq<InterfaceConfig>, flat: seq<InterfaceConfig>)
    requires forall x :: x in flat <==> x in interfaces && x.name in AttachedNames(kind)
    ensures NeededNames(kind, nfName, interfaces) == set x | x in flat ::
            CreateNetworkAttachmentDefinitionName(nfName, x.name)
  {
    forall x ensures x in flat <==> x in interfaces && MustAttach(kind, x.name) {
      AttachedAre(kind, x.name);
    }
  }

  /** The names the validator looks up are exactly those the spec's attached interfaces need. */
  lemma ValidatedNames(kind: Kind, nfName: string, interfaces: seq<InterfaceConfig>)
    requires NetworksAnnotation(kind, nfName, interfaces).Built?
    ensures NetworkEntries(kind, nfName, interfaces).Built?
    ensures match Unmarshal(NetworksAnnotation(kind, nfName, interfaces).value)
            case None => !QuotableEntries(NetworkEntries(kind, nfName, interfaces).value)
            case Some(networks) => NamesOf(networks) == NeededNames(kind, nfName, interfaces)
  {
    var es := NetworkEntries(kind, nfName, interfaces).value;
    var flat := Grouped(interfaces, AttachedNames(kind));
    UnmarshalPrinted(es);
    GroupingIsStableSort(kind, interfaces);
    AnnotationIsStableSort(kind, nfName, interfaces, flat);
    GroupedMembers(interfaces, AttachedNames(kind));
    NeededAre(kind, nfName, interfaces, flat);
    EntryNames(nfName, flat);
  }

  lemma EntryNames(nfName: string, flat: seq<InterfaceConfig>)
    requires AllHaveGateway(flat)
    ensures NamesOf(VisibleAll(EntriesOf(nfName, flat))) == set x | x in flat ::
            CreateNetworkAttachmentDefinitionName(nfName, x.name)
  {
  }
}

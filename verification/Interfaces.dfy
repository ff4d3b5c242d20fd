/** Selecting interfaces of a spec by name. */
module Interfaces {
  import opened Prelude
  import opened Objects

  /** The interfaces of one name, in their order in the spec. */
  function Named(interfaces: seq<InterfaceConfig>, name: string): seq<InterfaceConfig> {
    if interfaces == [] then []
    else if interfaces[0].name == name then [interfaces[0]] + Named(interfaces[1..], name)
    else Named(interfaces[1..], name)
  }

  lemma {:induction false} NamedAppend(a: seq<InterfaceConfig>, b: seq<InterfaceConfig>, name: string)
    ensures Named(a + b, name) == Named(a, name) + Named(b, name)
  {
    if a == [] {
      assert a + b == b;
    } else {
      assert (a + b)[1..] == a[1..] + b;
      NamedAppend(a[1..], b, name);
    }
  }

  lemma {:induction false} NamedHaveName(interfaces: seq<InterfaceConfig>, name: string)
    ensures forall i :: i in Named(interfaces, name) <==> i in interfaces && i.name == name
  {
    if interfaces != [] {
      NamedHaveName(interfaces[1..], name);
    }
  }

  method GetInterfaceConfigs(interfaces: seq<InterfaceConfig>, name: string) returns (selected: seq<InterfaceConfig>)
    ensures selected == Named(interfaces, name)
  {
    selected := [];
    for i := 0 to |interfaces|
      invariant selected == Named(interfaces[..i], name)
    {
      NamedAppend(interfaces[..i], [interfaces[i]], name);
      assert interfaces[..i + 1] == interfaces[..i] + [interfaces[i]];
      if interfaces[i].name == name {
        selected := selected + [interfaces[i]];
      }
    }
    assert interfaces[..|interfaces|] == interfaces;
  }

  /** The first interface of a name. */
  function FirstNamed(interfaces: seq<InterfaceConfig>, name: string): (r: Build<InterfaceConfig>)
    ensures !r.Crashed?
  {
    if interfaces == [] then Rejected(InterfaceNotFound(name))
    else if interfaces[0].name == name then Built(interfaces[0])
    else FirstNamed(interfaces[1..], name)
  }

  /** The search and the filter agree: the first match is the head of all matches. */
  lemma {:induction false} FirstIsHead(interfaces: seq<InterfaceConfig>, name: string)
    ensures var all := Named(interfaces, name);
            FirstNamed(interfaces, name) == if all == [] then Rejected(InterfaceNotFound(name)) else Built(all[0])
  {
    if interfaces != [] && interfaces[0].name != name {
      FirstIsHead(interfaces[1..], name);
    }
  }

  method GetFirstInterfaceConfig(interfaces: seq<InterfaceConfig>, name: string) returns (r: Build<InterfaceConfig>)
    ensures r == FirstNamed(interfaces, name)
  {
    for i := 0 to |interfaces|
      invariant FirstNamed(interfaces, name) == FirstNamed(interfaces[i..], name)
    {
      if interfaces[i].name == name {
        return Built(interfaces[i]);
      }
    }
    return Rejected(InterfaceNotFound(name));
  }

  /** The IP address of the first interface of a name. */
  function FirstIP(interfaces: seq<InterfaceConfig>, name: string): (r: Build<string>)
    ensures !r.Crashed?
  {
    match FirstNamed(interfaces, name)
    case Rejected(error) => Rejected(error)
    case Built(interface) => if interface.ip.Some? then Built(interface.ip.value)
        else Rejected(BadAddress(interface.address))
  }

  /** The first interface of this name is there and has an address. */
  predicate HasIP(interfaces: seq<InterfaceConfig>, name: string) {
    FirstNamed(interfaces, name).Built? && FirstNamed(interfaces, name).value.ip.Some?
  }

  /** The first interface of this name is there and has this address. */
  predicate HasFirstIP(interfaces: seq<InterfaceConfig>, name: string, ip: string) {
    FirstNamed(interfaces, name).Built? && FirstNamed(interfaces, name).value.ip == Some(ip)
  }

  method GetFirstInterfaceConfigIPv4(interfaces: seq<InterfaceConfig>, name: string) returns (r: Build<string>)
    ensures r == FirstIP(interfaces, name)
  {
    var found := GetFirstInterfaceConfig(interfaces, name);
    if found.Rejected? {
      return Rejected(found.error);
    }
    var interface := found.value;
    if interface.ip.None? {
      return Rejected(BadAddress(interface.address));
    }
    return Built(interface.ip.value);
  }
}

/** Network instances of a spec: selection by interface name, and the rows a template ranges over. */
module Instances {
  import opened Objects

  function Copies(instance: NetworkInstance, interfaces: seq<string>, name: string): seq<NetworkInstance> {
    if interfaces == [] then []
    else if interfaces[0] == name then [instance] + Copies(instance, interfaces[1..], name)
    else Copies(instance, interfaces[1..], name)
  }

  /** The instances that list an interface, once for every time they list it. */
  function Listing(instances: seq<NetworkInstance>, name: string): seq<NetworkInstance> {
    if instances == [] then []
    else Copies(instances[0], instances[0].interfaces, name) + Listing(instances[1..], name)
  }

  lemma {:induction false} CopiesAppend(instance: NetworkInstance, a: seq<string>, b: seq<string>, name: string)
    ensures Copies(instance, a + b, name) == Copies(instance, a, name) + Copies(instance, b, name)
  {
    if a == [] {
      assert a + b == b;
    } else {
      assert (a + b)[1..] == a[1..] + b;
      CopiesAppend(instance, a[1..], b, name);
    }
  }

  lemma {:induction false} ListingAppend(a: seq<NetworkInstance>, b: seq<NetworkInstance>, name: string)
    ensures Listing(a + b, name) == Listing(a, name) + Listing(b, name)
  {
    if a == [] {
      assert a + b == b;
    } else {
      assert (a + b)[1..] == a[1..] + b;
      ListingAppend(a[1..], b, name);
    }
  }

  lemma {:induction false} CopiesMembers(instance: NetworkInstance, interfaces: seq<string>, name: string)
    ensures forall i :: i in Copies(instance, interfaces, name) <==> i == instance && name in interfaces
  {
    if interfaces != [] {
      CopiesMembers(instance, interfaces[1..], name);
    }
  }

  lemma {:induction false} CopiesCount(instance: NetworkInstance, interfaces: seq<string>, name: string)
    ensures var copies := Copies(instance, interfaces, name);
            |copies| == multiset(interfaces)[name] && forall i :: 0 <= i < |copies| ==> copies[i] == instance
  {
    if interfaces != [] {
      CopiesCount(instance, interfaces[1..], name);
      assert interfaces == [interfaces[0]] + interfaces[1..];
    }
  }

  /** Selection goes through the instances in order and takes each one once for every time it lists the interface. */
  lemma {:induction false} ListingOrder(before: seq<NetworkInstance>, instance: NetworkInstance,
      after: seq<NetworkInstance>, name: string)
    ensures var n, m := |Listing(before, name)|, multiset(instance.interfaces)[name];
            var all := Listing(before + [instance] + after, name);
            && |all| == n + m + |Listing(after, name)|
            && all[..n] == Listing(before, name) && all[n + m..] == Listing(after, name)
            && forall i :: n <= i < n + m ==> all[i] == instance
  {
    ListingAppend(before + [instance], after, name);
    ListingAppend(before, [instance], name);
    assert Listing([instance], name) == Copies(instance, instance.interfaces, name);
    CopiesCount(instance, instance.interfaces, name);
  }

  /** Selection keeps exactly the instances that list the interface. */
  lemma {:induction false} ListingMembers(instances: seq<NetworkInstance>, name: string)
    ensures forall i :: i in Listing(instances, name) <==> i in instances && name in i.interfaces
  {
    if instances != [] {
      CopiesMembers(instances[0], instances[0].interfaces, name);
      ListingMembers(instances[1..], name);
    }
  }

  method GetNetworkInstances(spec: Spec, interfaceName: string)
      returns (networkInstances: seq<NetworkInstance>, found: bool)
    ensures networkInstances == Listing(spec.networkInstances, interfaceName)
    ensures found <==> networkInstances != []
    ensures found <==> exists i :: i in spec.networkInstances && interfaceName in i.interfaces
  {
    networkInstances := [];
    var all := spec.networkInstances;
    for i := 0 to |all|
      invariant networkInstances == Listing(all[..i], interfaceName)
    {
      ghost var before := networkInstances;
      for j := 0 to |all[i].interfaces|
        invariant networkInstances == before + Copies(all[i], all[i].interfaces[..j], interfaceName)
      {
        CopiesAppend(all[i], all[i].interfaces[..j], [all[i].interfaces[j]], interfaceName);
        assert all[i].interfaces[..j + 1] == all[i].interfaces[..j] + [all[i].interfaces[j]];
        if all[i].interfaces[j] == interfaceName {
          networkInstances := networkInstances + [all[i]];
        }
      }
      assert all[i].interfaces[..|all[i].interfaces|] == all[i].interfaces;
      ListingAppend(all[..i], [all[i]], interfaceName);
      assert all[..i + 1] == all[..i] + [all[i]];
      assert Listing([all[i]], interfaceName) == Copies(all[i], all[i].interfaces, interfaceName);
    }
    assert all[..|all|] == all;
    found := |networkInstances| != 0;
    ListingMembers(all, interfaceName);
    if found {
      assert networkInstances[0] in networkInstances;
    }
  }

  // ---------- Rows of a nested range ----------

  /** One data network of one instance: what the inner body of a nested range sees. */
  datatype Row = Row(instance: NetworkInstance, network: DataNetwork)

  function RowsOf(instance: NetworkInstance): (rows: seq<Row>)
    ensures |rows| == |instance.dataNetworks|
    ensures forall i :: 0 <= i < |rows| ==> rows[i] == Row(instance, instance.dataNetworks[i])
  {
    seq(|instance.dataNetworks|, i requires 0 <= i < |instance.dataNetworks| => Row(instance, instance.dataNetworks[i]))
  }

  function Rows(instances: seq<NetworkInstance>): seq<Row> {
    if instances == [] then [] else RowsOf(instances[0]) + Rows(instances[1..])
  }

  lemma {:induction false} RowsAppend(a: seq<NetworkInstance>, b: seq<NetworkInstance>)
    ensures Rows(a + b) == Rows(a) + Rows(b)
  {
    if a == [] {
      assert a + b == b;
    } else {
      assert (a + b)[1..] == a[1..] + b;
      RowsAppend(a[1..], b);
    }
  }

  lemma {:induction false} RowsOfOne(instance: NetworkInstance)
    ensures Rows([instance]) == RowsOf(instance)
  {
    assert [instance][1..] == [];
  }

  /** A nested range goes through the instances in order, and through the data networks of each in order. */
  lemma {:induction false} RowsOrder(before: seq<NetworkInstance>, instance: NetworkInstance,
      after: seq<NetworkInstance>)
    ensures Rows(before + [instance] + after) == Rows(before) + RowsOf(instance) + Rows(after)
  {
    RowsOfOne(instance);
    RowsAppend(before + [instance], after);
    RowsAppend(before, [instance]);
  }

  lemma {:induction false} RowsMembers(instances: seq<NetworkInstance>)
    ensures forall r :: r in Rows(instances) <==> r.instance in instances && r.network in r.instance.dataNetworks
  {
    if instances != [] {
      RowsMembers(instances[1..]);
      forall r ensures r in RowsOf(instances[0]) <==>
          r.instance == instances[0] && r.network in r.instance.dataNetworks {
        if r.instance == instances[0] && r.network in r.instance.dataNetworks {
          var i :| 0 <= i < |r.instance.dataNetworks| && r.instance.dataNetworks[i] == r.network;
          assert RowsOf(instances[0])[i] == r;
        }
      }
    }
  }

  /** Every data network of every instance that lists the interface has at least `n` pools. */
  ghost predicate PoolsSuffice(instances: seq<NetworkInstance>, name: string, n: nat) {
    forall i, d :: i in instances && name in i.interfaces && d in i.dataNetworks ==> |d.pool| >= n
  }

  lemma {:induction false} RowsOfListing(instances: seq<NetworkInstance>, name: string, n: nat)
    ensures (forall r :: r in Rows(Listing(instances, name)) ==> |r.network.pool| >= n) <==>
            PoolsSuffice(instances, name, n)
    ensures forall r :: r in Rows(Listing(instances, name)) ==> name in r.instance.interfaces
  {
    ListingMembers(instances, name);
    RowsMembers(Listing(instances, name));
    forall i, d | i in instances && name in i.interfaces && d in i.dataNetworks
      ensures Row(i, d) in Rows(Listing(instances, name))
    {
    }
  }
}

/** The Config references of a spec: first occurrences, and what fetching them returns. */
module References {
  import opened Prelude
  import opened Objects
  import SmfResources

  /** The first occurrence of every element, in order. */
  function Firsts<T(==)>(s: seq<T>): seq<T> {
    if s == [] then [] else
    var before, last := s[..|s| - 1], s[|s| - 1];
    if last in before then Firsts(before) else Firsts(before) + [last]
  }

  lemma {:induction false} FirstsMembers<T>(s: seq<T>)
    ensures forall x :: x in Firsts(s) <==> x in s
  {
    if s != [] {
      FirstsMembers(s[..|s| - 1]);
      assert s == s[..|s| - 1] + [s[|s| - 1]];
    }
  }

  lemma {:induction false} FirstsDistinct<T>(s: seq<T>)
    ensures forall i, j :: 0 <= i < j < |Firsts(s)| ==> Firsts(s)[i] != Firsts(s)[j]
  {
    if s != [] {
      FirstsDistinct(s[..|s| - 1]);
      FirstsMembers(s[..|s| - 1]);
      if s[|s| - 1] !in s[..|s| - 1] {
        var rest := Firsts(s[..|s| - 1]);
        forall i, j | 0 <= i < j < |Firsts(s)| ensures Firsts(s)[i] != Firsts(s)[j] {
          assert rest[i] in rest;
        }
      }
    }
  }

  lemma {:induction false} FirstsSnoc<T>(s: seq<T>, x: T)
    ensures Firsts(s + [x]) == if x in s then Firsts(s) else Firsts(s) + [x]
  {
  }

  /** Repeating an element that is already there changes no first occurrence. */
  lemma {:induction false} RepeatsDoNotMatter<T>(a: seq<T>, x: T, b: seq<T>)
    requires x in a
    ensures Firsts(a + [x] + b) == Firsts(a + b)
  {
    if b == [] {
      FirstsSnoc(a, x);
      assert a + [x] + b == a + [x] && a + b == a;
    } else {
      var before, last := b[..|b| - 1], b[|b| - 1];
      RepeatsDoNotMatter(a, x, before);
      FirstsSnoc(a + [x] + before, last);
      FirstsSnoc(a + before, last);
      assert a + [x] + b == a + [x] + before + [last] && a + b == a + before + [last];
    }
  }

  // ---------- The references of a spec ----------

  /** These references carry these names, in order. */
  ghost predicate KeysAre(refs: seq<ConfigRef>, namespace: string, names: seq<string>) {
    |refs| == |names| && forall i :: 0 <= i < |refs| ==> refs[i].key == Key(namespace, names[i])
  }

  /** What a spec refers to: for the SMF the first occurrences of its references, for the others nothing. */
  ghost predicate AreReferences(kind: Kind, namespace: string, spec: Spec, refs: seq<ConfigRef>) {
    if kind == SMF then KeysAre(refs, namespace, Firsts(spec.parametersRefs)) else refs == []
  }

  /** Keeping a fetched reference unless its name is kept already goes from first occurrences to first occurrences. */
  lemma {:induction false} KeptKeys(refs: seq<ConfigRef>, namespace: string, done: seq<string>, x: string,
      payload: Payload)
    requires KeysAre(refs, namespace, Firsts(done))
    ensures KeysAre(SmfResources.AddRef(refs, ConfigRef(Key(namespace, x), payload)), namespace, Firsts(done + [x]))
  {
    FirstsSnoc(done, x);
    FirstsMembers(done);
    if x in done {
      var i :| 0 <= i < |Firsts(done)| && Firsts(done)[i] == x;
      assert refs[i].key == Key(namespace, x);
    } else {
      forall i | 0 <= i < |refs| ensures refs[i].key != Key(namespace, x) {
        assert Firsts(done)[i] in Firsts(done) && refs[i].key.name == Firsts(done)[i];
      }
      assert !SmfResources.HasKey(refs, Key(namespace, x));
    }
  }

  // ---------- What the fetching loop returns ----------

  /** The referenced Configs, first occurrences in order; nothing when one is missing. */
  function Resolve(configs: map<Key, Payload>, namespace: string, names: seq<string>,
      kept: seq<ConfigRef>): Option<seq<ConfigRef>>
    decreases |names|
  {
    if names == [] then Some(kept) else
    var key := Key(namespace, names[0]);
    if key !in configs then None
    else Resolve(configs, namespace, names[1..], SmfResources.AddRef(kept, ConfigRef(key, configs[key])))
  }

  predicate AllStored(configs: map<Key, Payload>, namespace: string, names: seq<string>) {
    forall n :: n in names ==> Key(namespace, n) in configs
  }

  function RefsOf(configs: map<Key, Payload>, namespace: string, names: seq<string>): (refs: seq<ConfigRef>)
    requires AllStored(configs, namespace, names)
    ensures |refs| == |names|
    ensures forall i :: 0 <= i < |refs| ==>
            refs[i].key == Key(namespace, names[i]) && refs[i].payload == configs[refs[i].key]
  {
    seq(|names|, i requires 0 <= i < |names| =>
      assert names[i] in names;
      ConfigRef(Key(namespace, names[i]), configs[Key(namespace, names[i])]))
  }

  lemma {:induction false} ResolveFrom(configs: map<Key, Payload>, namespace: string, done: seq<string>,
      rest: seq<string>)
    requires AllStored(configs, namespace, done) && AllStored(configs, namespace, Firsts(done))
    ensures AllStored(configs, namespace, rest) ==> AllStored(configs, namespace, Firsts(done + rest))
    ensures Resolve(configs, namespace, rest, RefsOf(configs, namespace, Firsts(done)))
            == if AllStored(configs, namespace, rest) then Some(RefsOf(configs, namespace, Firsts(done + rest)))
                else None
    decreases |rest|
  {
    FirstsMembers(done + rest);
    if rest == [] {
      assert done + rest == done;
    } else {
      var x, key := rest[0], Key(namespace, rest[0]);
      assert rest == [x] + rest[1..];
      if key in configs {
        AddFetched(configs, namespace, done, x);
        ResolveFrom(configs, namespace, done + [x], rest[1..]);
        assert done + [x] + rest[1..] == done + rest;
      }
    }
  }

  lemma {:induction false} AddFetched(configs: map<Key, Payload>, namespace: string, done: seq<string>, x: string)
    requires AllStored(configs, namespace, done) && AllStored(configs, namespace, Firsts(done))
             && Key(namespace, x) in configs
    ensures AllStored(configs, namespace, done + [x]) && AllStored(configs, namespace, Firsts(done + [x]))
    ensures SmfResources.AddRef(RefsOf(configs, namespace, Firsts(done)),
            ConfigRef(Key(namespace, x), configs[Key(namespace, x)]))
            == RefsOf(configs, namespace, Firsts(done + [x]))
  {
    var refs := RefsOf(configs, namespace, Firsts(done));
    FirstsSnoc(done, x);
    FirstsMembers(done);
    if x in done {
      var i :| 0 <= i < |Firsts(done)| && Firsts(done)[i] == x;
      assert refs[i].key == Key(namespace, x);
    } else {
      assert forall i :: 0 <= i < |refs| ==> Firsts(done)[i] in Firsts(done) && refs[i].key.name == Firsts(done)[i];
      assert !SmfResources.HasKey(refs, Key(namespace, x));
    }
  }

  /**
   Reference deduplication: the fetched references are the first occurrences in order, each with the content of
   its Config, no name twice and none left out; nothing is returned exactly when a referenced Config is missing.
   */
  lemma {:induction false} ResolveKeepsFirsts(configs: map<Key, Payload>, namespace: string, names: seq<string>)
    ensures Resolve(configs, namespace, names, []).Some? <==> AllStored(configs, namespace, names)
    ensures AllStored(configs, namespace, names) ==>
              && AllStored(configs, namespace, Firsts(names))
              && Resolve(configs, namespace, names, []).value == RefsOf(configs, namespace, Firsts(names))
    ensures forall i, j :: 0 <= i < j < |Firsts(names)| ==> Firsts(names)[i] != Firsts(names)[j]
    ensures forall n :: n in Firsts(names) <==> n in names
  {
    ResolveFrom(configs, namespace, [], names);
    assert [] + names == names;
    FirstsDistinct(names);
    FirstsMembers(names);
  }
}

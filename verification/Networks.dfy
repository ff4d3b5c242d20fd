/**
 The `k8s.v1.cni.cncf.io/networks` annotation: how it is printed from grouped interfaces, and how the
 validator reads it back.
 */
module Networks {
  import opened Prelude
  import opened Objects
  import opened Text
  import opened Json

  /** One network of the annotation. */
  datatype Entry = Entry(name: string, interface: string, ip: string, gateway: string)

  function CreateNetworkAttachmentDefinitionName(templateName: string, suffix: string): string {
    templateName + "-" + suffix
  }

  // ---------- Printing ----------

  /** A key and a value on a line of their own, indented by two spaces. */
  function Line(key: string, value: string): string {
    "\n  \"" + key + "\": " + value
  }

  /** One network: the quoted name and interface, and one-element lists for the address and the gateway. */
  function Show(e: Entry): string {
    " {" + Line("name", Quote(e.name)) +
    "," + Line("interface", Quote(e.interface)) +
    "," + Line("ips", "[" + Quote(e.ip) + "]") +
    "," + Line("gateways", "[" + Quote(e.gateway) + "]") + "\n }"
  }

  function ShowAll(entries: seq<Entry>): (shown: seq<string>)
    ensures |shown| == |entries|
    ensures forall i :: 0 <= i < |entries| ==> shown[i] == Show(entries[i])
  {
    seq(|entries|, i requires 0 <= i < |entries| => Show(entries[i]))
  }

  function Print(entries: seq<Entry>): string {
    "[\n" + Join(ShowAll(entries), ",\n") + "\n]"
  }

  type Groups = map<string, seq<InterfaceConfig>>

  function EntryOf(templateName: string, group: string, interface: InterfaceConfig): Entry
    requires interface.gateway.Some?
  {
    Entry(CreateNetworkAttachmentDefinitionName(templateName, group), interface.name, interface.address,
        interface.gateway.value)
  }

  predicate AllHaveGateway(interfaces: seq<InterfaceConfig>) {
    forall i :: 0 <= i < |interfaces| ==> interfaces[i].gateway.Some?
  }

  function GroupEntries(templateName: string, group: string, interfaces: seq<InterfaceConfig>): (entries: seq<Entry>)
    requires AllHaveGateway(interfaces)
    ensures |entries| == |interfaces|
    ensures forall i :: 0 <= i < |entries| ==> entries[i] == EntryOf(templateName, group, interfaces[i])
  {
    seq(|interfaces|, i requires 0 <= i < |interfaces| => EntryOf(templateName, group, interfaces[i]))
  }

  /** The entries of the named groups, or the first name whose group has an interface without a gateway. */
  function Entries(templateName: string, names: seq<string>, groups: Groups): (r: Build<seq<Entry>>)
    requires forall i :: 0 <= i < |names| ==> names[i] in groups
    ensures !r.Crashed?
  {
    if names == [] then Built([])
    else if !AllHaveGateway(groups[names[0]]) then Rejected(MissingGateway(names[0]))
    else match Entries(templateName, names[1..], groups)
      case Rejected(error) => Rejected(error)
      case Built(rest) => Built(GroupEntries(templateName, names[0], groups[names[0]]) + rest)
  }

  function Printed(entries: Build<seq<Entry>>): Build<string> {
    match entries
    case Built(es) => Built(Print(es))
    case Rejected(error) => Rejected(error)
    case Crashed => Crashed
  }

  ghost predicate IsLeast(least: string, names: set<string>) {
    least in names && forall n :: n in names ==> LessEq(least, n)
  }

  /** The names of a set in sorted order. */
  ghost function SortedNames(names: set<string>): (s: seq<string>)
    ensures IsSorted(s) && multiset(s) == multiset(names)
    ensures forall i :: 0 <= i < |s| ==> s[i] in names
  {
    if names == {} then [] else
    LeastExists(names);
    var least :| IsLeast(least, names);
    var s := [least] + SortedNames(names - {least});
    assert multiset(names) == multiset{least} + multiset(names - {least});
    s
  }

  lemma {:induction false} LeastOfMore(x: string, y: string, names: set<string>)
    requires x in names && IsLeast(y, names - {x})
    ensures IsLeast(if LessEq(x, y) then x else y, names)
  {
    LessEqTotal(x, y);
    LessEqTotal(x, x);
    forall n | n in names ensures LessEq(if LessEq(x, y) then x else y, n) {
      if n != x {
        assert LessEq(y, n);
        if LessEq(x, y) {
          LessEqTransitive(x, y, n);
        }
      }
    }
  }

  lemma {:induction false} LeastExists(names: set<string>)
    requires names != {}
    ensures exists least :: IsLeast(least, names)
  {
    var x :| x in names;
    if names == {x} {
      LessEqTotal(x, x);
      assert IsLeast(x, names);
    } else {
      LeastExists(names - {x});
      var y :| IsLeast(y, names - {x});
      LeastOfMore(x, y, names);
    }
  }

  /** The keys of a Go map come in an unspecified order, so the loop picks them arbitrarily; then they are sorted. */
  method SortedKeys(groups: Groups) returns (interfaceNames: seq<string>)
    ensures interfaceNames == SortedNames(groups.Keys)
  {
    interfaceNames := [];
    var unvisited := groups.Keys;
    while unvisited != {}
      invariant unvisited <= groups.Keys
      invariant multiset(interfaceNames) + multiset(unvisited) == multiset(groups.Keys)
      decreases |unvisited|
    {
      var interfaceName :| interfaceName in unvisited;
      interfaceNames := interfaceNames + [interfaceName];
      unvisited := unvisited - {interfaceName};
    }
    interfaceNames := SortStrings(interfaceNames);
    SortedUnique(interfaceNames, SortedNames(groups.Keys));
  }

  /** The printer: its result is a function of the groups alone, whatever order the map was visited in. */
  method CreateNetworkAttachmentDefinitionNetworks(templateName: string, groups: Groups) returns (r: Build<string>)
    ensures r == Printed(Entries(templateName, SortedNames(groups.Keys), groups))
  {
    var interfaceNames := SortedKeys(groups);
    var networksJson: seq<string> := [];
    ghost var entries: seq<Entry> := [];
    assert interfaceNames[0..] == interfaceNames;
    BehindNothing(Entries(templateName, interfaceNames, groups));
    for i := 0 to |interfaceNames|
      invariant networksJson == ShowAll(entries)
      invariant Entries(templateName, interfaceNames, groups) ==
                Behind(entries, Entries(templateName, interfaceNames[i..], groups))
    {
      var interfaceName := interfaceNames[i];
      ghost var before := entries;
      for j := 0 to |groups[interfaceName]|
        invariant AllHaveGateway(groups[interfaceName][..j])
        invariant entries == before + GroupEntries(templateName, interfaceName, groups[interfaceName][..j])
        invariant networksJson == ShowAll(entries)
      {
        var interfaceConfig := groups[interfaceName][j];
        if interfaceConfig.gateway.None? {
          EntriesStep(templateName, interfaceNames, groups, i, before);
          return Rejected(MissingGateway(interfaceName));
        }
        networksJson := networksJson + [Show(EntryOf(templateName, interfaceName, interfaceConfig))];
        EntryOneMore(templateName, interfaceName, groups[interfaceName], j, before, entries);
        entries := entries + [EntryOf(templateName, interfaceName, interfaceConfig)];
      }
      assert groups[interfaceName][..|groups[interfaceName]|] == groups[interfaceName];
      EntriesStep(templateName, interfaceNames, groups, i, before);
    }
    assert interfaceNames[|interfaceNames|..] == [];
    BehindEverything(entries);
    return Built("[\n" + Join(networksJson, ",\n") + "\n]");
  }

  lemma {:induction false} EntriesStep(templateName: string, names: seq<string>, groups: Groups, i: nat,
      before: seq<Entry>)
    requires forall i :: 0 <= i < |names| ==> names[i] in groups
    requires i < |names|
    ensures Behind(before, Entries(templateName, names[i..], groups)) ==
            if !AllHaveGateway(groups[names[i]]) then Rejected(MissingGateway(names[i]))
            else Behind(before + GroupEntries(templateName, names[i], groups[names[i]]),
                Entries(templateName, names[i + 1..], groups))
  {
    assert names[i..][1..] == names[i + 1..];
    if AllHaveGateway(groups[names[i]]) {
      BehindMore(before, GroupEntries(templateName, names[i], groups[names[i]]),
          Entries(templateName, names[i + 1..], groups));
    }
  }

  /** One more interface of a group is printed. */
  lemma EntryOneMore(templateName: string, group: string, interfaces: seq<InterfaceConfig>, j: nat, before: seq<Entry>,
      entries: seq<Entry>)
    requires j < |interfaces| && AllHaveGateway(interfaces[..j]) && interfaces[j].gateway.Some?
    requires entries == before + GroupEntries(templateName, group, interfaces[..j])
    ensures AllHaveGateway(interfaces[..j + 1])
    ensures var e := EntryOf(templateName, group, interfaces[j]);
            && entries + [e] == before + GroupEntries(templateName, group, interfaces[..j + 1])
            && ShowAll(entries + [e]) == ShowAll(entries) + [Show(e)]
  {
    assert interfaces[..j + 1] == interfaces[..j] + [interfaces[j]];
  }

  // ---------- Reading the annotation as JSON ----------

  predicate QuotableEntry(e: Entry) {
    Quotable(e.name) && Quotable(e.interface) && Quotable(e.ip) && Quotable(e.gateway)
  }

  predicate QuotableEntries(entries: seq<Entry>) {
    forall i :: 0 <= i < |entries| ==> QuotableEntry(entries[i])
  }

  /** The JSON value an entry stands for. */
  function EntryJson(e: Entry): Json {
    Obj([Member("name", Str(e.name)), Member("interface", Str(e.interface)),
         Member("ips", Arr([Str(e.ip)])), Member("gateways", Arr([Str(e.gateway)]))])
  }

  function EntriesJson(entries: seq<Entry>): (items: seq<Json>)
    ensures |items| == |entries|
    ensures forall i :: 0 <= i < |entries| ==> items[i] == EntryJson(entries[i])
  {
    seq(|entries|, i requires 0 <= i < |entries| => EntryJson(entries[i]))
  }

  lemma {:induction false} StringReads(x: string, tail: string)
    ensures ParseValue(Quote(x) + tail) == if Quotable(x) then Done(Str(x), tail) else Fail
  {
    var s := Quote(x) + tail;
    assert s == "\"" + (EscapeAll(x) + "\"" + tail);
    assert SkipSpace(s) == s && s[1..] == EscapeAll(x) + "\"" + tail;
    QuoteReadsBack(x, tail);
  }

  lemma {:induction false} ListReads(x: string, tail: string)
    ensures ParseValue("[" + Quote(x) + "]" + tail) == if Quotable(x) then Done(Arr([Str(x)]), tail) else Fail
  {
    var s := "[" + Quote(x) + "]" + tail;
    var t := Quote(x) + ("]" + tail);
    assert s == "[" + t;
    assert SkipSpace(s) == s && s[1..] == t;
    assert t[0] == '\"' && SkipSpace(t) == t;
    StringReads(x, "]" + tail);
    assert ("]" + tail)[1..] == tail;
    assert ParseItems(t) == if Quotable(x) then Done([Str(x)], tail) else Fail;
  }

  /** A text `%q` leaves as it is. */
  predicate Plain(s: string) {
    forall i :: 0 <= i < |s| ==> 'a' <= s[i] <= 'z'
  }

  lemma {:induction false} PlainIsUnchanged(s: string)
    requires Plain(s)
    ensures EscapeAll(s) == s && Quotable(s)
  {
    if s != [] {
      PlainIsUnchanged(s[1..]);
      assert s == [s[0]] + s[1..];
    }
  }

  lemma {:induction false} LineOpens(key: string, value: string, tail: string)
    ensures SkipSpace(Line(key, value) + tail) == "\"" + (key + "\"" + (": " + (value + tail)))
  {
    var s := Line(key, value) + tail;
    var quoted := key + "\"" + (": " + (value + tail));
    assert s == "\n  \"" + quoted;
    assert s[1..] == "  \"" + quoted && s[2..] == " \"" + quoted && s[3..] == "\"" + quoted;
    assert SkipSpace(s) == SkipSpace(s[1..]) == SkipSpace(s[2..]) == s[3..];
  }

  lemma {:induction false} MemberReads(key: string, value: string, tail: string)
    requires Plain(key)
    ensures StartsWith(SkipSpace(Line(key, value) + tail), '\"')
    ensures ParseMember(Line(key, value) + tail) ==
            match ParseValue(" " + (value + tail))
            case Fail => Fail
            case Done(v, rest) => Done(Member(key, v), rest)
  {
    var after := ": " + (value + tail);
    LineOpens(key, value, tail);
    assert ("\"" + (key + "\"" + after))[1..] == key + "\"" + after;
    PlainIsUnchanged(key);
    QuoteReadsBack(key, after);
    assert after[1..] == " " + (value + tail);
  }

  lemma {:induction false} SpaceIsSkipped(s: string)
    ensures ParseValue(" " + s) == ParseValue(s)
  {
  }

  /** A member followed by a comma and further members. */
  lemma {:induction false} MemberThenMore(key: string, value: string, v: Json, ok: bool, more: string)
    requires Plain(key)
    requires ParseValue(value + ("," + more)) == if ok then Done(v, "," + more) else Fail
    ensures ParseMembers(Line(key, value) + ("," + more)) ==
            if !ok || ParseMembers(more).Fail? then Fail
            else Done([Member(key, v)] + ParseMembers(more).value, ParseMembers(more).rest)
  {
    MemberReads(key, value, "," + more);
    SpaceIsSkipped(value + ("," + more));
    assert ("," + more)[1..] == more;
    assert SkipSpace("," + more) == "," + more;
  }

  /** The last member and the closing brace. */
  lemma {:induction false} LastMember(key: string, value: string, v: Json, ok: bool, tail: string)
    requires Plain(key)
    requires ParseValue(value + ("\n }" + tail)) == if ok then Done(v, "\n }" + tail) else Fail
    ensures ParseMembers(Line(key, value) + ("\n }" + tail)) == if ok then Done([Member(key, v)], tail) else Fail
  {
    MemberReads(key, value, "\n }" + tail);
    SpaceIsSkipped(value + ("\n }" + tail));
    var s := "\n }" + tail;
    assert s[1..] == " }" + tail && s[2..] == "}" + tail && s[2..][1..] == tail;
    assert SkipSpace(s) == SkipSpace(s[1..]) == s[2..];
  }

  lemma Associates(a: string, b: string, c: string, d: string, end: string, tail: string)
    ensures " {" + a + "," + b + "," + c + "," + d + end + tail ==
            " {" + (a + ("," + (b + ("," + (c + ("," + (d + (end + tail))))))))
  {
  }

  lemma {:induction false} OpensObject(members: string)
    requires StartsWith(SkipSpace(members), '\"')
    ensures ParseValue(" {" + members) ==
            if ParseMembers(members).Fail? then Fail
                else Done(Obj(ParseMembers(members).value), ParseMembers(members).rest)
  {
    var s := " {" + members;
    assert s[1..] == "{" + members && s[1..][1..] == members;
    assert SkipSpace(s) == s[1..];
  }

  lemma {:induction false} TwoLists(k: string, x: string, k': string, x': string, tail: string)
    requires Plain(k) && Plain(k')
    ensures ParseMembers(Line(k, "[" + Quote(x) + "]") + ("," + (Line(k', "[" + Quote(x') + "]") + ("\n }" + tail)))) ==
            if Quotable(x) && Quotable(x') then Done([Member(k, Arr([Str(x)])), Member(k', Arr([Str(x')]))], tail)
                else Fail
  {
    ListReads(x', "\n }" + tail);
    LastMember(k', "[" + Quote(x') + "]", Arr([Str(x')]), Quotable(x'), tail);
    var more := Line(k', "[" + Quote(x') + "]") + ("\n }" + tail);
    ListReads(x, "," + more);
    MemberThenMore(k, "[" + Quote(x) + "]", Arr([Str(x)]), Quotable(x), more);
    assert [Member(k, Arr([Str(x)]))] + [Member(k', Arr([Str(x')]))] ==
        [Member(k, Arr([Str(x)])), Member(k', Arr([Str(x')]))];
  }

  lemma {:induction false} TwoStrings(k: string, x: string, k': string, x': string, more: string)
    requires Plain(k) && Plain(k')
    ensures ParseMembers(Line(k, Quote(x)) + ("," + (Line(k', Quote(x')) + ("," + more)))) ==
            if Quotable(x) && Quotable(x') && ParseMembers(more).Done?
            then Done([Member(k, Str(x)), Member(k', Str(x'))] + ParseMembers(more).value, ParseMembers(more).rest)
            else Fail
  {
    StringReads(x', "," + more);
    MemberThenMore(k', Quote(x'), Str(x'), Quotable(x'), more);
    var more' := Line(k', Quote(x')) + ("," + more);
    StringReads(x, "," + more');
    MemberThenMore(k, Quote(x), Str(x), Quotable(x), more');
    if Quotable(x) && Quotable(x') && ParseMembers(more).Done? {
      assert [Member(k, Str(x))] + ([Member(k', Str(x'))] + ParseMembers(more).value)
          == [Member(k, Str(x)), Member(k', Str(x'))] + ParseMembers(more).value;
    }
  }

  /** The four lines of an entry, whatever their keys. */
  lemma {:induction false} FourLines(k1: string, x1: string, k2: string, x2: string, k3: string, x3: string,
      k4: string, x4: string, tail: string)
    requires Plain(k1) && Plain(k2) && Plain(k3) && Plain(k4)
    ensures ParseValue(" {" + Line(k1, Quote(x1)) + "," + Line(k2, Quote(x2)) + "," + Line(k3, "[" + Quote(x3) + "]")
                       + "," + Line(k4, "[" + Quote(x4) + "]") + "\n }" + tail) ==
            if Quotable(x1) && Quotable(x2) && Quotable(x3) && Quotable(x4)
            then Done(Obj([Member(k1, Str(x1)), Member(k2, Str(x2)), Member(k3, Arr([Str(x3)])),
                Member(k4, Arr([Str(x4)]))]), tail)
            else Fail
  {
    var lists := Line(k3, "[" + Quote(x3) + "]") + ("," + (Line(k4, "[" + Quote(x4) + "]") + ("\n }" + tail)));
    TwoLists(k3, x3, k4, x4, tail);
    TwoStrings(k1, x1, k2, x2, lists);
    LineOpens(k1, Quote(x1), "," + (Line(k2, Quote(x2)) + ("," + lists)));
    OpensObject(Line(k1, Quote(x1)) + ("," + (Line(k2, Quote(x2)) + ("," + lists))));
    Associates(Line(k1, Quote(x1)), Line(k2, Quote(x2)), Line(k3, "[" + Quote(x3) + "]"),
        Line(k4, "[" + Quote(x4) + "]"), "\n }", tail);
    assert [Member(k1, Str(x1)), Member(k2, Str(x2))] + [Member(k3, Arr([Str(x3)])), Member(k4, Arr([Str(x4)]))]
        == [Member(k1, Str(x1)), Member(k2, Str(x2)), Member(k3, Arr([Str(x3)])), Member(k4, Arr([Str(x4)]))];
  }

  /** A printed entry in front of any text reads as the entry's JSON value, if it is readable at all. */
  lemma {:induction false} EntryReads(e: Entry, tail: string)
    ensures ParseValue(Show(e) + tail) == if QuotableEntry(e) then Done(EntryJson(e), tail) else Fail
  {
    FourLines("name", e.name, "interface", e.interface, "ips", e.ip, "gateways", e.gateway, tail);
  }

  /** Each text reads as its value in front of anything, or is unreadable. */
  ghost predicate ReadsAs(shown: seq<string>, values: seq<Json>, ok: seq<bool>) {
    && |shown| == |values| == |ok|
    && forall i, tail: string :: 0 <= i < |shown| ==>
         && ParseValue(shown[i] + tail) == (if ok[i] then Done(values[i], tail) else Fail)
         && !StartsWith(SkipSpace(shown[i] + tail), ']')
  }

  predicate AllTrue(ok: seq<bool>) {
    forall i :: 0 <= i < |ok| ==> ok[i]
  }

  lemma {:induction false} SpaceBeforeItems(s: string)
    ensures SkipSpace("\n" + s) == SkipSpace(s)
    ensures ParseItems("\n" + s) == ParseItems(s)
  {
    assert ("\n" + s)[1..] == s;
    assert ParseValue("\n" + s) == ParseValue(s);
  }

  /** Joined texts up to the closing bracket. */
  lemma {:induction false} ItemsRead(shown: seq<string>, values: seq<Json>, ok: seq<bool>)
    requires shown != [] && ReadsAs(shown, values, ok)
    ensures ParseItems(Join(shown, ",\n") + "\n]") == if AllTrue(ok) then Done(values, "") else Fail
  {
    assert values == [values[0]] + values[1..] && ok == [ok[0]] + ok[1..];
    if |shown| == 1 {
      assert ParseValue(shown[0] + "\n]") == if ok[0] then Done(values[0], "\n]") else Fail;
      assert "\n]"[1..] == "]" && "]"[1..] == "";
      assert SkipSpace("\n]") == SkipSpace("]") == "]";
      assert values == [values[0]];
    } else {
      var more := Join(shown[1..], ",\n") + "\n]";
      assert Join(shown, ",\n") + "\n]" == shown[0] + (",\n" + more);
      assert ParseValue(shown[0] + (",\n" + more)) == if ok[0] then Done(values[0], ",\n" + more) else Fail;
      assert (",\n" + more)[1..] == "\n" + more;
      assert SkipSpace(",\n" + more) == ",\n" + more;
      SpaceBeforeItems(more);
      ItemsRead(shown[1..], values[1..], ok[1..]);
    }
  }

  lemma NothingReads()
    ensures ParseDocument("[\n\n]") == Done(Arr([]), "")
  {
  }

  lemma {:induction false} DocumentReads(shown: seq<string>, values: seq<Json>, ok: seq<bool>)
    requires shown != [] && ReadsAs(shown, values, ok)
    ensures ParseDocument("[\n" + Join(shown, ",\n") + "\n]") == if AllTrue(ok) then Done(Arr(values), "") else Fail
  {
    ItemsRead(shown, values, ok);
    var tail := if |shown| == 1 then "\n]" else ",\n" + (Join(shown[1..], ",\n") + "\n]");
    assert Join(shown, ",\n") + "\n]" == shown[0] + tail;
    BracketOpens(shown[0] + tail);
    assert "[\n" + Join(shown, ",\n") + "\n]" == "[\n" + (shown[0] + tail);
  }

  lemma {:induction false} BracketOpens(body: string)
    requires !StartsWith(SkipSpace(body), ']')
    ensures ParseValue("[\n" + body) == if ParseItems(body).Fail? then Fail
            else Done(Arr(ParseItems(body).value), ParseItems(body).rest)
  {
    var s := "[\n" + body;
    assert s[1..] == "\n" + body;
    assert SkipSpace(s) == s;
    SpaceBeforeItems(body);
  }

  lemma EntriesReadAs(entries: seq<Entry>)
    ensures ReadsAs(ShowAll(entries), EntriesJson(entries),
            seq(|entries|, i requires 0 <= i < |entries| => QuotableEntry(entries[i])))
  {
    var shown, values := ShowAll(entries), EntriesJson(entries);
    var ok := seq(|entries|, i requires 0 <= i < |entries| => QuotableEntry(entries[i]));
    forall i, tail: string | 0 <= i < |shown|
      ensures ParseValue(shown[i] + tail) == if ok[i] then Done(values[i], tail) else Fail
      ensures !StartsWith(SkipSpace(shown[i] + tail), ']')
    {
      EntryReads(entries[i], tail);
      ShowOpensBrace(entries[i], tail);
    }
  }

  lemma {:induction false} ShowOpensBrace(e: Entry, tail: string)
    ensures !StartsWith(SkipSpace(Show(e) + tail), ']')
  {
  }

  /**
   Round trip: the printed annotation reads as exactly its entries in order, if and only if no character
   of them has a Go escape that JSON lacks.
   */
  lemma AnnotationRoundTrip(entries: seq<Entry>)
    ensures ParseDocument(Print(entries)) == if QuotableEntries(entries) then Done(Arr(EntriesJson(entries)), "")
            else Fail
  {
    EntriesReadAs(entries);
    var ok := seq(|entries|, i requires 0 <= i < |entries| => QuotableEntry(entries[i]));
    if entries == [] {
      NothingReads();
      assert Print(entries) == "[\n\n]";
    } else {
      DocumentReads(ShowAll(entries), EntriesJson(entries), ok);
      if AllTrue(ok) {
        forall i | 0 <= i < |entries| ensures QuotableEntry(entries[i]) {
          assert ok[i];
        }
      }
    }
  }

  /** Two lists of readable entries with the same annotation are the same list. */
  lemma AnnotationInjective(a: seq<Entry>, b: seq<Entry>)
    requires QuotableEntries(a) && Print(a) == Print(b)
    ensures a == b
  {
    AnnotationRoundTrip(a);
    AnnotationRoundTrip(b);
    assert |EntriesJson(a)| == |EntriesJson(b)|;
    forall i | 0 <= i < |a| ensures a[i] == b[i] {
      assert EntriesJson(a)[i] == EntriesJson(b)[i];
      assert EntryJson(a[i]).members == EntryJson(b[i]).members;
    }
  }

  // ---------- The validator's reader ----------

  /** The struct the validator decodes into, with the JSON keys `name`, `interface`, `ip` and `gateway`. */
  datatype Network = Network(name: string, interface: string, ip: string, gateway: string)

  function LowerCase(s: string): string {
    seq(|s|, i requires 0 <= i < |s| => if 'A' <= s[i] <= 'Z' then (s[i] as int + 32) as char else s[i])
  }

  /** Decoding the members in order: keys match up to case, later ones win, unknown ones are ignored. */
  function DecodeMembers(members: seq<Member>, n: Network): Option<Network> {
    if members == [] then Some(n) else
    var key := LowerCase(members[0].key);
    if key !in {"name", "interface", "ip", "gateway"} then DecodeMembers(members[1..], n)
    else if !members[0].value.Str? then None
    else
      var text := members[0].value.text;
      DecodeMembers(members[1..],
                    if key == "name" then n.(name := text)
                    else if key == "interface" then n.(interface := text)
                    else if key == "ip" then n.(ip := text)
                    else n.(gateway := text))
  }

  function DecodeItems(items: seq<Json>): Option<seq<Network>> {
    if items == [] then Some([])
    else if !items[0].Obj? then None
    else
      match DecodeMembers(items[0].members, Network("", "", "", ""))
      case None => None
      case Some(n) =>
        match DecodeItems(items[1..])
        case None => None
        case Some(rest) => Some([n] + rest)
  }

  /** `json.Unmarshal` of an annotation into the validator's list of networks. */
  function Unmarshal(annotation: string): Option<seq<Network>> {
    match ParseDocument(annotation)
    case Fail => None
    case Done(value, _) => if value.Arr? then DecodeItems(value.items) else None
  }

  /** What the validator sees of an entry: the printed keys `ips` and `gateways` are not its own. */
  function Visible(e: Entry): Network {
    Network(e.name, e.interface, "", "")
  }

  function VisibleAll(entries: seq<Entry>): (r: seq<Network>)
    ensures |r| == |entries|
    ensures forall i :: 0 <= i < |entries| ==> r[i] == Visible(entries[i])
  {
    seq(|entries|, i requires 0 <= i < |entries| => Visible(entries[i]))
  }

  lemma LowerKeys()
    ensures LowerCase("name") == "name" && LowerCase("interface") == "interface"
    ensures LowerCase("ips") !in {"name", "interface", "ip", "gateway"}
    ensures LowerCase("gateways") !in {"name", "interface", "ip", "gateway"}
  {
  }

  lemma {:induction false} EntryDecodes(e: Entry)
    ensures DecodeMembers(EntryJson(e).members, Network("", "", "", "")) == Some(Visible(e))
  {
    LowerKeys();
    var m := EntryJson(e).members;
    var n := Network("", "", "", "");
    calc {
      DecodeMembers(m, n);
      DecodeMembers(m[1..], n.(name := e.name));
      { assert m[1..][1..] == m[2..]; }
      DecodeMembers(m[2..], Visible(e));
      { assert m[2..][1..] == m[3..]; }
      DecodeMembers(m[3..], Visible(e));
      { assert m[3..][1..] == []; }
      Some(Visible(e));
    }
  }

  lemma {:induction false} EntriesDecode(entries: seq<Entry>)
    ensures DecodeItems(EntriesJson(entries)) == Some(VisibleAll(entries))
  {
    if entries != [] {
      EntryDecodes(entries[0]);
      EntriesDecode(entries[1..]);
      assert EntriesJson(entries)[1..] == EntriesJson(entries[1..]);
      assert VisibleAll(entries) == [Visible(entries[0])] + VisibleAll(entries[1..]);
    }
  }

  /**
   Printer and validator: decoding the annotation recovers every name and interface in order and leaves
   the address and gateway empty; it fails exactly when an entry is not quotable.
   */
  lemma UnmarshalPrinted(entries: seq<Entry>)
    ensures Unmarshal(Print(entries)) == if QuotableEntries(entries) then Some(VisibleAll(entries)) else None
  {
    AnnotationRoundTrip(entries);
    EntriesDecode(entries);
  }
}

/** Strings as the operator's libraries handle them: order, sorting, joining and decimal numerals. */
module Text {

  // ---------- Byte-wise order (Go's string comparison) ----------

  predicate LessEq(a: string, b: string) {
    a == [] || (b != [] && (a[0] < b[0] || (a[0] == b[0] && LessEq(a[1..], b[1..]))))
  }

  lemma {:induction false} LessEqTotal(a: string, b: string)
    ensures LessEq(a, b) || LessEq(b, a)
  {
    if a != [] && b != [] {
      LessEqTotal(a[1..], b[1..]);
    }
  }

  lemma {:induction false} LessEqAntisymmetric(a: string, b: string)
    requires LessEq(a, b) && LessEq(b, a)
    ensures a == b
  {
    if a != [] && b != [] {
      LessEqAntisymmetric(a[1..], b[1..]);
      assert a == [a[0]] + a[1..] && b == [b[0]] + b[1..];
    }
  }

  lemma {:induction false} LessEqTransitive(a: string, b: string, c: string)
    requires LessEq(a, b) && LessEq(b, c)
    ensures LessEq(a, c)
  {
    if a != [] && a[0] == b[0] == c[0] {
      LessEqTransitive(a[1..], b[1..], c[1..]);
    }
  }

  predicate IsSorted(s: seq<string>) {
    forall i, j :: 0 <= i < j < |s| ==> LessEq(s[i], s[j])
  }

  /** `sort.Strings`: the library guarantees order and content, nothing more is used. */
  method SortStrings(names: seq<string>) returns (sorted: seq<string>)
    ensures IsSorted(sorted)
    ensures multiset(sorted) == multiset(names)
  {
    sorted := [];
    for i := 0 to |names|
      invariant IsSorted(sorted)
      invariant multiset(sorted) == multiset(names[..i])
    {
      var j := 0;
      while j < |sorted| && LessEq(sorted[j], names[i])
        invariant 0 <= j <= |sorted|
        invariant forall t :: 0 <= t < j ==> LessEq(sorted[t], names[i])
      {
        j := j + 1;
      }
      InsertKeepsOrder(sorted, j, names[i]);
      assert sorted == sorted[..j] + sorted[j..];
      assert names[..i + 1] == names[..i] + [names[i]];
      sorted := sorted[..j] + [names[i]] + sorted[j..];
    }
    assert names[..|names|] == names;
  }

  lemma {:induction false} InsertKeepsOrder(s: seq<string>, j: nat, x: string)
    requires IsSorted(s) && j <= |s|
    requires forall t :: 0 <= t < j ==> LessEq(s[t], x)
    requires j < |s| ==> !LessEq(s[j], x)
    ensures IsSorted(s[..j] + [x] + s[j..])
  {
    if j < |s| {
      LessEqTotal(s[j], x);
      forall t | j <= t < |s| ensures LessEq(x, s[t]) {
        if t > j {
          LessEqTransitive(x, s[j], s[t]);
        }
      }
    }
  }

  lemma {:induction false} SameHead(a: seq<string>, b: seq<string>)
    requires IsSorted(a) && IsSorted(b) && multiset(a) == multiset(b) && a != []
    ensures b != [] && a[0] == b[0]
  {
    assert |multiset(b)| == |multiset(a)|;
    assert a[0] in multiset(b) && b[0] in multiset(a);
    var i :| 0 <= i < |b| && b[i] == a[0];
    var j :| 0 <= j < |a| && a[j] == b[0];
    LessEqTotal(a[0], a[0]);
    LessEqAntisymmetric(a[0], b[0]);
  }

  /** A sorted sequence is determined by its content. */
  lemma {:induction false} SortedUnique(a: seq<string>, b: seq<string>)
    requires IsSorted(a) && IsSorted(b) && multiset(a) == multiset(b)
    ensures a == b
  {
    if a == [] {
      assert |multiset(b)| == 0;
    } else {
      SameHead(a, b);
      assert a == [a[0]] + a[1..] && b == [b[0]] + b[1..];
      assert multiset(a[1..]) == multiset(a) - multiset{a[0]} == multiset(b[1..]);
      SortedUnique(a[1..], b[1..]);
    }
  }

  // ---------- Joining ----------

  /** `strings.Join`. */
  function Join(parts: seq<string>, separator: string): string {
    if parts == [] then "" else
    if |parts| == 1 then parts[0] else parts[0] + separator + Join(parts[1..], separator)
  }

  // ---------- Decimal numerals ----------

  function Digit(d: nat): char
    requires d < 10
  {
    "0123456789"[d]
  }

  /** The decimal numeral a template prints for an index. */
  function Decimal(n: nat): (s: string)
    ensures s != []
  {
    if n < 10 then [Digit(n)] else Decimal(n / 10) + [Digit(n % 10)]
  }

  /** The number a string of digits stands for. */
  function ValueOf(s: string): int {
    if s == "" then 0 else 10 * ValueOf(s[..|s| - 1]) + (s[|s| - 1] as int - '0' as int)
  }

  lemma DigitValue(d: nat)
    requires d < 10
    ensures '0' <= Digit(d) <= '9' && Digit(d) as int - '0' as int == d
  {
  }

  /** The numeral consists of digits, does not start with a zero unless it is one, and stands for the number. */
  lemma {:induction false} DecimalReads(n: nat)
    ensures ValueOf(Decimal(n)) == n
    ensures forall i :: 0 <= i < |Decimal(n)| ==> '0' <= Decimal(n)[i] <= '9'
    ensures n > 0 ==> Decimal(n)[0] != '0'
  {
    DigitValue(n % 10);
    if n >= 10 {
      DecimalReads(n / 10);
      assert Decimal(n)[..|Decimal(n)| - 1] == Decimal(n / 10);
    } else {
      assert Decimal(n)[..0] == "";
    }
  }

  lemma {:induction false} DecimalInjective(m: nat, n: nat)
    requires Decimal(m) == Decimal(n)
    ensures m == n
  {
    DecimalReads(m);
    DecimalReads(n);
  }
}

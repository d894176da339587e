/** Labels of virtual nodes: the provider name, a NUL and the decimal vnode index. */
module Labels {

  const INT64_LIMIT: int := 0x8000_0000_0000_0000

  function Digit(d: nat): (c: char)
    requires d < 10
    ensures '0' <= c <= '9'
  {
    '0' + d as char
  }

  predicate IsNumeral(s: string) {
    forall k | 0 <= k < |s| :: '0' <= s[k] <= '9'
  }

  /** The decimal numeral of `i`, most significant digit first. */
  function Decimal(i: nat): (s: string)
    ensures s != [] && IsNumeral(s)
  {
    if i < 10 then [Digit(i)] else Decimal(i / 10) + [Digit(i % 10)]
  }

  /** Reads a numeral back. */
  function Value(s: string): nat
    requires IsNumeral(s)
  {
    if s == [] then 0 else 10 * Value(s[..|s| - 1]) + (s[|s| - 1] as int - '0' as int)
  }

  lemma {:induction false} DecimalReadsBack(i: nat)
    ensures Value(Decimal(i)) == i
  {
    if i < 10 {
      assert Decimal(i)[..0] == [];
    } else {
      DecimalReadsBack(i / 10);
      var s := Decimal(i);
      assert s[..|s| - 1] == Decimal(i / 10);
    }
  }

  function Pow10(n: nat): (p: nat)
    ensures p > 0
  {
    if n == 0 then 1 else 10 * Pow10(n - 1)
  }

  /** Fills a 20-byte buffer from its end; a negative index yields the empty string. */
  method Itoa(i: int) returns (s: string)
    requires -INT64_LIMIT <= i < INT64_LIMIT
    ensures i >= 0 ==> s == Decimal(i)
    ensures i < 0 ==> s == ""
  {
    if i == 0 {
      return "0";
    }
    var b := new char[20];
    var pos := b.Length;
    var rest := i;
    assert Pow10(19) == 10_000_000_000_000_000_000 by {
      assert Pow10(4) == 10_000;
      assert Pow10(9) == 1_000_000_000;
      assert Pow10(14) == 100_000_000_000_000;
    }
    while rest > 0
      invariant 0 < pos <= 20
      invariant i > 0 ==> 0 <= rest < Pow10(pos - 1)
      invariant i < 0 ==> rest == i && pos == 20
      invariant i > 0 && rest > 0 ==> Decimal(i) == Decimal(rest) + b[pos..]
      invariant i > 0 && rest == 0 ==> Decimal(i) == b[pos..]
    {
      ghost var tail := b[pos..];
      pos := pos - 1;
      b[pos] := Digit(rest % 10);
      assert b[pos..] == [Digit(rest % 10)] + tail;
      rest := rest / 10;
    }
    s := b[pos..];
  }

  function Label(name: string, i: nat): string {
    name + "\0" + Decimal(i)
  }

  /** The NUL that ends the name is the last one of the label. */
  lemma NulEndsName(name: string, i: nat)
    ensures Label(name, i)[|name|] == '\0'
    ensures forall k | |name| < k < |Label(name, i)| :: Label(name, i)[k] >= '0'
  {
    forall k | |name| < k < |Label(name, i)| ensures Label(name, i)[k] >= '0' {
      assert Label(name, i)[k] == Decimal(i)[k - |name| - 1];
    }
  }

  /** No two (name, index) pairs share a label, even when names contain NULs. */
  lemma LabelsAreDistinct(a: string, i: nat, b: string, j: nat)
    requires Label(a, i) == Label(b, j)
    ensures a == b && i == j
  {
    NulEndsName(a, i);
    NulEndsName(b, j);
    assert |a| == |b|;
    assert Label(a, i)[..|a|] == a && Label(b, j)[..|b|] == b;
    assert Label(a, i)[|a| + 1..] == Decimal(i) && Label(b, j)[|b| + 1..] == Decimal(j);
    DecimalReadsBack(i);
    DecimalReadsBack(j);
  }
}

/** Decimal rendering and the two identifier formats the flight code relies on being unique:
    the request id `cmd-{source}-{seq}` and the storage entry id `{order:08d}_{item}`. */
module Naming {

  function Digit(d: nat): (c: char)
    requires d < 10
    ensures '0' <= c <= '9'
  {
    '0' + d as char
  }

  function Decimal(n: nat): (s: string)
    ensures s != "" && forall i :: 0 <= i < |s| ==> '0' <= s[i] <= '9'
  {
    if n < 10 then [Digit(n)] else Decimal(n / 10) + [Digit(n % 10)]
  }

  /** Python's rendering of an int: a minus sign before the digits of a negative number. */
  function Rendered(n: int): string {
    if n < 0 then "-" + Decimal(-n) else Decimal(n)
  }

  function Value(s: string): int {
    if s == "" then 0 else Value(s[..|s| - 1]) * 10 + (s[|s| - 1] as int - '0' as int)
  }

  lemma {:induction false} ValueOfDecimal(n: nat)
    ensures Value(Decimal(n)) == n
  {
    var s := Decimal(n);
    if n < 10 {
      assert s[..|s| - 1] == "";
    } else {
      assert s[..|s| - 1] == Decimal(n / 10);
      ValueOfDecimal(n / 10);
    }
  }

  // --- Request ids ------------------------------------------------------------------------

  function CommandRequestId(source: string, seqNo: int): string {
    "cmd-" + source + "-" + Rendered(seqNo)
  }

  /** Two texts that end in a hyphen followed by digits only agree on where that hyphen is. */
  lemma SplitAtLastHyphen(a: string, x: string, b: string, y: string)
    requires a + "-" + x == b + "-" + y
    requires forall i :: 0 <= i < |x| ==> x[i] != '-'
    requires forall i :: 0 <= i < |y| ==> y[i] != '-'
    ensures a == b && x == y
  {
    var w := a + "-" + x;
    assert w == b + "-" + y;
    assert w[|a|] == '-' && w[|b|] == '-';
    assert |a| == |b|;
    assert a == w[..|a|] && b == w[..|b|];
    assert x == w[|a| + 1..] && y == w[|b| + 1..];
  }

  /** The request id of a routed command names its source and sequence, as long as both
      sequences are ones ingress can accept (never negative). */
  lemma CommandRequestIdInjective(s1: string, n1: int, s2: string, n2: int)
    requires 0 <= n1 && 0 <= n2
    requires CommandRequestId(s1, n1) == CommandRequestId(s2, n2)
    ensures s1 == s2 && n1 == n2
  {
    var a, b := "cmd-" + s1, "cmd-" + s2;
    assert a + "-" + Decimal(n1) == CommandRequestId(s1, n1);
    assert b + "-" + Decimal(n2) == CommandRequestId(s2, n2);
    SplitAtLastHyphen(a, Decimal(n1), b, Decimal(n2));
    assert s1 == a[4..] && s2 == b[4..];
    ValueOfDecimal(n1);
    ValueOfDecimal(n2);
  }

  /** Without the sign guard the format is ambiguous. */
  lemma NegativeSequencesCollide()
    ensures CommandRequestId("a", -2) == CommandRequestId("a-", 2)
  {
    assert Rendered(-2) == "-2" && Rendered(2) == "2";
  }

  // --- Storage entry ids ------------------------------------------------------------------

  function Zeros(n: nat): (s: string)
    ensures |s| == n && forall i :: 0 <= i < n ==> s[i] == '0'
  {
    seq(n, _ => '0')
  }

  /** Python's `08d`: at least eight digits, padded on the left with zeros. */
  function Padded(n: nat): (s: string)
    ensures s != "" && forall i :: 0 <= i < |s| ==> '0' <= s[i] <= '9'
  {
    var d := Decimal(n);
    if |d| < 8 then Zeros(8 - |d|) + d else d
  }

  /** Eight digits or as many as the number needs, the number's own at the end. */
  lemma PaddedIsWide(n: nat)
    ensures |Padded(n)| == (if |Decimal(n)| < 8 then 8 else |Decimal(n)|)
    ensures Padded(n)[|Padded(n)| - |Decimal(n)|..] == Decimal(n)
  {
  }

  function EntryId(order: nat, item: string): string {
    Padded(order) + "_" + item
  }

  lemma {:induction false} ValueIgnoresZeros(k: nat, s: string)
    ensures Value(Zeros(k) + s) == Value(s)
  {
    if s == "" {
      assert Zeros(k) + s == Zeros(k);
      if k > 0 {
        assert Zeros(k)[..k - 1] == Zeros(k - 1) + "";
        ValueIgnoresZeros(k - 1, "");
      }
    } else {
      var w := Zeros(k) + s;
      assert w[..|w| - 1] == Zeros(k) + s[..|s| - 1];
      ValueIgnoresZeros(k, s[..|s| - 1]);
    }
  }

  lemma ValueOfPadded(n: nat)
    ensures Value(Padded(n)) == n
  {
    ValueOfDecimal(n);
    var d := Decimal(n);
    if |d| < 8 {
      ValueIgnoresZeros(8 - |d|, d);
    }
  }

  /** Whatever the item text, even one holding underscores and digits, the order is recoverable. */
  lemma EntryIdFixesOrder(m: nat, x: string, n: nat, y: string)
    requires EntryId(m, x) == EntryId(n, y)
    ensures m == n && x == y
  {
    var p, q := Padded(m), Padded(n);
    var w := EntryId(m, x);
    assert w[|p|] == '_' && w[|q|] == '_';
    assert |p| == |q|;
    assert p == w[..|p|] && q == w[..|q|];
    assert x == w[|p| + 1..] && y == w[|q| + 1..];
    ValueOfPadded(m);
    ValueOfPadded(n);
  }
}

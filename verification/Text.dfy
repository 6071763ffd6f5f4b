/** Decimal rendering, joining and lexicographic order of strings. */
module Text {

  function Digit(d: nat): char
    requires d < 10
  {
    ['0', '1', '2', '3', '4', '5', '6', '7', '8', '9'][d]
  }

  predicate IsDigit(c: char) { '0' <= c <= '9' }

  predicate AllDigits(s: string) { forall i :: 0 <= i < |s| ==> IsDigit(s[i]) }

  function Decimal(n: nat): string {
    if n < 10 then [Digit(n)] else Decimal(n / 10) + [Digit(n % 10)]
  }

  /** strconv.Itoa */
  function Itoa(i: int): string {
    if i < 0 then "-" + Decimal(-i) else Decimal(i)
  }

  /** The value of a digit string. */
  function ParseDecimal(s: string): nat
    requires AllDigits(s)
  {
    if |s| == 0 then 0
    else 10 * ParseDecimal(s[..|s| - 1]) + (s[|s| - 1] as int - '0' as int)
  }

  lemma {:induction false} DecimalRoundTrip(n: nat)
    ensures AllDigits(Decimal(n)) && |Decimal(n)| > 0
    ensures ParseDecimal(Decimal(n)) == n
  {
    if n >= 10 {
      DecimalRoundTrip(n / 10);
      assert Decimal(n)[..|Decimal(n)| - 1] == Decimal(n / 10);
    } else {
      assert Decimal(n)[..0] == "";
    }
  }

  lemma ItoaInjective(i: int, j: int)
    requires Itoa(i) == Itoa(j)
    ensures i == j
  {
    DecimalRoundTrip(if i < 0 then -i else i);
    DecimalRoundTrip(if j < 0 then -j else j);
    assert i < 0 <==> Itoa(i)[0] == '-';
    assert j < 0 <==> Itoa(j)[0] == '-';
    assert i < 0 ==> Itoa(i)[1..] == Decimal(-i);
    assert j < 0 ==> Itoa(j)[1..] == Decimal(-j);
  }

  predicate Free(c: char, s: string) { c !in s }

  lemma ItoaFree(i: int, c: char)
    requires !IsDigit(c) && c != '-'
    ensures Free(c, Itoa(i))
  {
    DecimalRoundTrip(if i < 0 then -i else i);
  }

  /** strings.Join */
  function Join(parts: seq<string>, sep: string): string {
    if |parts| == 0 then ""
    else if |parts| == 1 then parts[0]
    else parts[0] + sep + Join(parts[1..], sep)
  }

  function FirstIndex(sep: char, s: string): nat {
    if |s| == 0 || s[0] == sep then 0 else 1 + FirstIndex(sep, s[1..])
  }

  /** The number of characters after the last separator. */
  function TailLength(sep: char, s: string): (n: nat)
    ensures n <= |s|
  {
    if |s| == 0 || s[|s| - 1] == sep then 0 else 1 + TailLength(sep, s[..|s| - 1])
  }

  lemma {:induction false} TailIsFree(sep: char, s: string, k: nat)
    requires |s| - TailLength(sep, s) <= k < |s|
    ensures s[k] != sep
  {
    if k < |s| - 1 { TailIsFree(sep, s[..|s| - 1], k); }
  }

  lemma {:induction false} SeparatorBeforeTail(sep: char, s: string)
    requires TailLength(sep, s) < |s|
    ensures s[|s| - TailLength(sep, s) - 1] == sep
  {
    if s[|s| - 1] != sep { SeparatorBeforeTail(sep, s[..|s| - 1]); }
  }

  lemma {:induction false} FirstIndexIs(a: string, x: string, sep: char)
    requires Free(sep, a)
    ensures FirstIndex(sep, a + [sep] + x) == |a|
  {
    if |a| > 0 {
      FirstIndexIs(a[1..], x, sep);
      assert (a + [sep] + x)[1..] == a[1..] + [sep] + x;
    }
  }

  lemma {:induction false} TailLengthIs(x: string, a: string, sep: char)
    requires Free(sep, a)
    ensures TailLength(sep, x + [sep] + a) == |a|
  {
    var s := x + [sep] + a;
    if |a| > 0 {
      TailLengthIs(x, a[..|a| - 1], sep);
      assert s[..|s| - 1] == x + [sep] + a[..|a| - 1];
    }
  }

  /** A first field that is free of the separator can be read back. */
  lemma FirstField(a: string, x: string, b: string, y: string, sep: char)
    requires Free(sep, a) && Free(sep, b)
    requires a + [sep] + x == b + [sep] + y
    ensures a == b && x == y
  {
    var u, v := a + [sep] + x, b + [sep] + y;
    FirstIndexIs(a, x, sep);
    FirstIndexIs(b, y, sep);
    assert a == u[..|a|] && b == v[..|b|];
    assert x == u[|a| + 1..] && y == v[|b| + 1..];
  }

  /** A last field that is free of the separator can be read back. */
  lemma LastField(x: string, a: string, y: string, b: string, sep: char)
    requires Free(sep, a) && Free(sep, b)
    requires x + [sep] + a == y + [sep] + b
    ensures a == b && x == y
  {
    var u, v := x + [sep] + a, y + [sep] + b;
    TailLengthIs(x, a, sep);
    TailLengthIs(y, b, sep);
    assert |x| == |y|;
    assert x == u[..|x|] && y == v[..|y|];
    assert a == u[|x| + 1..] && b == v[|y| + 1..];
  }

  /** Byte order of strings. */
  predicate Less(a: string, b: string) {
    |b| > 0 && (|a| == 0 || a[0] < b[0] || (a[0] == b[0] && Less(a[1..], b[1..])))
  }

  /** A common beginning does not matter to the order. */
  lemma {:induction false} LessAfter(p: string, a: string, b: string)
    requires Less(a, b)
    ensures Less(p + a, p + b)
  {
    if |p| > 0 {
      assert (p + a)[1..] == p[1..] + a && (p + b)[1..] == p[1..] + b;
      LessAfter(p[1..], a, b);
    } else {
      assert p + a == a && p + b == b;
    }
  }

  lemma {:induction false} LessTotal(a: string, b: string)
    ensures !(Less(a, b) && Less(b, a))
    ensures !Less(a, b) && !Less(b, a) ==> a == b
  {
    if |a| > 0 && |b| > 0 {
      LessTotal(a[1..], b[1..]);
      assert a == [a[0]] + a[1..] && b == [b[0]] + b[1..];
    }
  }

  lemma {:induction false} LessTransitive(a: string, b: string, c: string)
    requires !Less(b, a) && !Less(c, b)
    ensures !Less(c, a)
  {
    if |a| > 0 && |b| > 0 && |c| > 0 && a[0] == b[0] == c[0] {
      LessTransitive(a[1..], b[1..], c[1..]);
    }
  }
}

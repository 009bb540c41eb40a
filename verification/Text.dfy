/** Decimal digits and the byte order of strings. */
module Text {

  function Pow10(n: nat): (p: nat)
    ensures p > 0
  {
    if n == 0 then 1 else 10 * Pow10(n - 1)
  }

  function Digit(d: int): char
    requires 0 <= d < 10
  {
    (48 + d) as char
  }

  predicate AllDigits(s: string) {
    forall i :: 0 <= i < |s| ==> '0' <= s[i] <= '9'
  }

  /** `printf` with `%0<width>d` for a non-negative number: at least `width` digits. */
  function Decimal(v: nat, width: nat): (s: string)
    ensures s != ""
    decreases v, width
  {
    if v < 10 && width <= 1 then [Digit(v)]
    else Decimal(v / 10, if width > 0 then width - 1 else 0) + [Digit(v % 10)]
  }

  function DecimalValue(s: string): (v: nat)
    requires AllDigits(s)
  {
    if s == "" then 0
    else 10 * DecimalValue(s[..|s| - 1]) + (s[|s| - 1] as int - 48)
  }

  /** Byte-wise lexicographic order, the order in which the store compares strings. */
  predicate Less(a: string, b: string) {
    if b == "" then false
    else if a == "" then true
    else a[0] < b[0] || (a[0] == b[0] && Less(a[1..], b[1..]))
  }

  lemma {:induction false} DecimalRoundTrip(v: nat, width: nat)
    requires 1 <= width && v < Pow10(width)
    ensures |Decimal(v, width)| == width
    ensures AllDigits(Decimal(v, width)) && DecimalValue(Decimal(v, width)) == v
    decreases width
  {
    if width > 1 {
      DecimalRoundTrip(v / 10, width - 1);
      var s := Decimal(v, width);
      assert s[..|s| - 1] == Decimal(v / 10, width - 1);
    } else {
      assert Pow10(1) == 10 * Pow10(0);
      assert Decimal(v, 1) == [Digit(v)];
      assert DecimalValue([]) == 0;
    }
  }

  lemma {:induction false} DecimalOfValue(s: string)
    requires AllDigits(s) && s != ""
    ensures DecimalValue(s) < Pow10(|s|)
    ensures Decimal(DecimalValue(s), |s|) == s
    decreases |s|
  {
    var init, last := s[..|s| - 1], s[|s| - 1] as int - 48;
    if |s| == 1 {
      assert DecimalValue(init) == 0 && Pow10(1) == 10 * Pow10(0);
      assert s == [s[0]];
    } else {
      DecimalOfValue(init);
      assert DecimalValue(s) / 10 == DecimalValue(init);
      assert s == init + [s[|s| - 1]];
    }
  }

  lemma {:induction false} ConcatLess(a: string, b: string, x: string, y: string)
    requires |a| == |b|
    ensures Less(a + x, b + y) <==> Less(a, b) || (a == b && Less(x, y))
    decreases |a|
  {
    if a == "" {
      assert a + x == x && b + y == y;
    } else {
      ConcatLess(a[1..], b[1..], x, y);
      assert (a + x)[1..] == a[1..] + x && (b + y)[1..] == b[1..] + y;
      assert a == [a[0]] + a[1..] && b == [b[0]] + b[1..];
    }
  }

  /** On digit strings of one length, byte order is numeric order. */
  lemma {:induction false} DigitsOrder(a: string, b: string)
    requires |a| == |b| && AllDigits(a) && AllDigits(b)
    ensures Less(a, b) <==> DecimalValue(a) < DecimalValue(b)
    ensures a == b <==> DecimalValue(a) == DecimalValue(b)
    decreases |a|
  {
    if a != "" {
      var n := |a| - 1;
      DigitsOrder(a[..n], b[..n]);
      ConcatLess(a[..n], b[..n], [a[n]], [b[n]]);
      assert a == a[..n] + [a[n]] && b == b[..n] + [b[n]];
      assert Less([a[n]], [b[n]]) <==> a[n] < b[n];
    }
  }
}

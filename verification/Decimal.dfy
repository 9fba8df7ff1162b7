/**
 Decimal strings of integers, as `strconv.Itoa` writes and `strconv.Atoi` reads them.
 Ledger keys and device names are made of these.
 */
module Decimal {
  import opened Nas

  predicate IsDigit(c: char) {
    '0' <= c <= '9'
  }

  predicate AllDigits(s: string) {
    forall i :: 0 <= i < |s| ==> IsDigit(s[i])
  }

  function Digit(n: nat): (c: char)
    requires n < 10
    ensures IsDigit(c) && c as int - '0' as int == n
  {
    ('0' as int + n) as char
  }

  function Digits(n: nat): (s: string)
    ensures s != [] && AllDigits(s)
  {
    if n < 10 then [Digit(n)] else Digits(n / 10) + [Digit(n % 10)]
  }

  function Itoa(n: int): (s: string)
    ensures s != []
  {
    if n < 0 then "-" + Digits(-n) else Digits(n)
  }

  function Value(s: string): nat
    requires AllDigits(s)
  {
    if s == [] then 0 else Value(s[..|s| - 1]) * 10 + (s[|s| - 1] as int - '0' as int)
  }

  function AtoiDigits(s: string): Option<nat> {
    if s != [] && AllDigits(s) then Some(Value(s)) else None
  }

  /** Reading accepts a sign and leading zeros; the width limit of Go's integers is not modelled. */
  function Atoi(s: string): Option<int> {
    if s != [] && s[0] == '-' then
      var digits := AtoiDigits(s[1..]);
      if digits.Some? then Some(-(digits.value as int)) else None
    else if s != [] && s[0] == '+' then AtoiDigits(s[1..])
    else AtoiDigits(s)
  }

  lemma {:induction false} ValueOfDigits(n: nat)
    ensures Value(Digits(n)) == n
  {
    if n >= 10 {
      ValueOfDigits(n / 10);
      assert Digits(n)[..|Digits(n)| - 1] == Digits(n / 10);
    }
  }

  /** Every integer survives being used as a ledger key. */
  lemma AtoiOfItoa(n: int)
    ensures Atoi(Itoa(n)) == Some(n)
  {
    if n < 0 {
      ValueOfDigits(-n);
      assert Itoa(n)[1..] == Digits(-n);
    } else {
      ValueOfDigits(n);
      assert IsDigit(Itoa(n)[0]);
    }
  }

  function Pow10(i: nat): (p: nat)
    ensures p > 0
  {
    if i == 0 then 1 else 10 * Pow10(i - 1)
  }

  /**
   Digits are decimal, most significant first, without a leading zero: the `i`-th from the
   end is that of the `i`-th power of ten.
   */
  lemma {:induction false} DigitsArePositional(n: nat, i: nat)
    requires i < |Digits(n)|
    ensures Digits(n)[|Digits(n)| - 1 - i] as int - '0' as int == n / Pow10(i) % 10
    ensures n > 0 ==> Digits(n)[0] != '0'
  {
    if n < 10 {
      assert Pow10(0) == 1;
    } else {
      DigitsArePositional(n / 10, if i == 0 then 0 else i - 1);
      if i > 0 {
        DivideTwice(n, 10, Pow10(i - 1));
      }
    }
  }

  lemma DivideTwice(n: nat, a: nat, b: nat)
    requires a > 0 && b > 0
    ensures n / a / b == n / (a * b)
  {
    var q, r := n / a, n % a;
    var q', r' := q / b, q % b;
    assert n == a * q + r && q == b * q' + r';
    Expand(a, b, q', r');
    assert n == (a * b) * q' + (a * r' + r);
    Below(a, b, r', r);
    QuotientIs(n, a * b, q', a * r' + r);
  }

  lemma Expand(a: nat, b: nat, q: nat, r: nat)
    ensures a * (b * q + r) == (a * b) * q + a * r
  {
  }

  lemma Below(a: nat, b: nat, r': nat, r: nat)
    requires r' < b && r < a
    ensures 0 <= a * r' + r < a * b
  {
    assert a * r' <= a * (b - 1);
    assert a * (b - 1) == a * b - a;
  }

  lemma QuotientIs(n: nat, d: nat, q: nat, r: nat)
    requires d > 0 && n == d * q + r && r < d
    ensures n / d == q
  {
    var q' := n / d;
    assert n == d * q' + n % d;
    assert d * (q - q') == d * q - d * q';
    SmallMultiple(d, q - q');
  }

  lemma SmallMultiple(d: int, x: int)
    requires -d < d * x < d
    ensures x == 0
  {
    assert x >= 1 ==> d * x >= d;
    assert x <= -1 ==> d * x <= -d;
  }

  predicate StartsPlain(s: string) {
    s == [] || !IsDigit(s[0])
  }

  lemma DigitsNotPlain(b: string, t: string)
    requires AllDigits(b)
    ensures StartsPlain(b + t) ==> b == []
  {
  }

  lemma {:induction false} DigitsEnd(a: string, s: string, b: string, t: string)
    requires AllDigits(a) && AllDigits(b) && StartsPlain(s) && StartsPlain(t)
    requires a + s == b + t
    ensures a == b && s == t
    decreases |a|
  {
    if a == [] {
      assert s == a + s == b + t;
      DigitsNotPlain(b, t);
      assert b + t == t;
    } else {
      assert (b + t)[0] == (a + s)[0] == a[0];
      assert b != [];
      assert (a + s)[1..] == a[1..] + s && (b + t)[1..] == b[1..] + t;
      DigitsEnd(a[1..], s, b[1..], t);
    }
  }

  lemma Signed(x: int, s: string)
    ensures (Itoa(x) + s)[0] == '-' <==> x < 0
    ensures x < 0 ==> (Itoa(x) + s)[1..] == Digits(-x) + s
  {
  }

  lemma NaturalEnds(x: nat, s: string, y: nat, t: string)
    requires StartsPlain(s) && StartsPlain(t)
    requires Digits(x) + s == Digits(y) + t
    ensures x == y && s == t
  {
    DigitsEnd(Digits(x), s, Digits(y), t);
    ValueOfDigits(x);
    ValueOfDigits(y);
  }

  /** A decimal followed by something that does not start with a digit determines both parts. */
  lemma ItoaEnds(x: int, s: string, y: int, t: string)
    requires StartsPlain(s) && StartsPlain(t)
    requires Itoa(x) + s == Itoa(y) + t
    ensures x == y && s == t
  {
    hide Digits;
    Signed(x, s);
    Signed(y, t);
    if x < 0 {
      NaturalEnds(-x, s, -y, t);
    } else {
      NaturalEnds(x, s, y, t);
    }
  }

  // ----- Reading a decimal in front of other text -----

  /** How many digits the text starts with. */
  function DigitSpan(s: string): (n: nat)
    ensures n <= |s|
  {
    if s == [] || !IsDigit(s[0]) then 0 else 1 + DigitSpan(s[1..])
  }

  /** Where the decimal that the text starts with ends. */
  function DecimalEnd(s: string): (n: nat)
    ensures n <= |s|
  {
    if s != [] && s[0] == '-' then 1 + DigitSpan(s[1..]) else DigitSpan(s)
  }

  lemma {:induction false} DigitSpanOf(d: string, t: string)
    requires AllDigits(d) && StartsPlain(t)
    ensures DigitSpan(d + t) == |d|
  {
    if d == [] {
      assert d + t == t;
    } else {
      assert (d + t)[1..] == d[1..] + t;
      DigitSpanOf(d[1..], t);
    }
  }

  /** A reader finds a written decimal and what follows it. */
  lemma DecimalEndOfItoa(n: int, t: string)
    requires StartsPlain(t)
    ensures var s, e := Itoa(n) + t, |Itoa(n)|;
            DecimalEnd(s) == e && s[..e] == Itoa(n) && s[e..] == t
  {
    hide Digits;
    Signed(n, t);
    DigitSpanOf(Digits(if n < 0 then -n else n), t);
  }
}

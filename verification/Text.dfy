/** The C library's number formats that the messages and file names use: `%d`, `strtol`, `%2.1f`, `strtod`. */
module Text {

  predicate IsDigit(c: char) { '0' <= c <= '9' }

  function Digit(d: nat): char
    requires d < 10
  {
    '0' + d as char
  }

  function DigitValue(c: char): nat
    requires IsDigit(c)
  {
    (c - '0') as nat
  }

  predicate AllDigits(s: string) { forall k :: 0 <= k < |s| ==> IsDigit(s[k]) }

  // ----- integers --------------------------------------------------------------------------------

  function NatToString(n: nat): (s: string)
    ensures 0 < |s| && AllDigits(s)
  {
    if n < 10 then [Digit(n)] else NatToString(n / 10) + [Digit(n % 10)]
  }

  /** `%d`. */
  function IntToString(n: int): (s: string)
  {
    if n < 0 then "-" + NatToString(-n) else NatToString(n)
  }

  /** The value of the leading digits of `s`, behind digits of value `acc`. */
  function ParseNat(s: string, acc: nat): nat
  {
    if s == [] || !IsDigit(s[0]) then acc else ParseNat(s[1..], acc * 10 + DigitValue(s[0]))
  }

  predicate IsSpace(c: char) { c == ' ' || '\t' <= c <= '\r' }

  function SkipSpaces(s: string): string
  {
    if s == [] || !IsSpace(s[0]) then s else SkipSpaces(s[1..])
  }

  const LONG_MAX: int := 0x7fff_ffff_ffff_ffff
  const INT_MAX: int := 0x7fff_ffff

  /** `strtol(s, NULL, 10)`: saturates at the range of `long`. */
  function Strtol(s: string): (n: int)
  {
    var t := SkipSpaces(s);
    if t != [] && t[0] == '-' then
      var v := 0 - ParseNat(t[1..], 0); if v < -LONG_MAX - 1 then -LONG_MAX - 1 else v
    else
      var v := ParseNat(if t != [] && t[0] == '+' then t[1..] else t, 0); if LONG_MAX < v then LONG_MAX else v
  }

  /** Assigning a `long` to an `int`. */
  function ToInt(n: int): (r: int)
    ensures -INT_MAX - 1 <= n <= INT_MAX ==> r == n
  {
    (n + INT_MAX + 1) % 0x1_0000_0000 - INT_MAX - 1
  }

  lemma {:induction false} ParseNatSplit(s: string, t: string, acc: nat)
    requires AllDigits(s)
    ensures ParseNat(s + t, acc) == ParseNat(t, ParseNat(s, acc))
    decreases |s|
  {
    if s == [] {
      assert s + t == t;
    } else {
      assert (s + t)[1..] == s[1..] + t;
      ParseNatSplit(s[1..], t, acc * 10 + DigitValue(s[0]));
    }
  }

  lemma {:induction false} ParseNatOfString(n: nat, t: string)
    requires t == [] || !IsDigit(t[0])
    ensures ParseNat(NatToString(n) + t, 0) == n
  {
    if n < 10 {
      ParseNatOne(n, t, 0);
    } else {
      ParseNatOfString(n / 10, []);
      assert NatToString(n / 10) + [] == NatToString(n / 10);
      ParseNatSplit(NatToString(n / 10), [Digit(n % 10)] + t, 0);
      assert NatToString(n) + t == NatToString(n / 10) + ([Digit(n % 10)] + t);
      ParseNatOne(n % 10, t, n / 10);
    }
  }

  lemma ParseNatOne(d: nat, t: string, acc: nat)
    requires d < 10 && (t == [] || !IsDigit(t[0]))
    ensures ParseNat([Digit(d)] + t, acc) == acc * 10 + d
  {
    assert ([Digit(d)] + t)[1..] == t;
  }

  /** The notation is the usual one. */
  lemma NumbersSpelled()
    ensures IntToString(907) == "907" && IntToString(-31) == "-31" && Strtol(" +26x") == 26
  {
    assert NatToString(9) == "9" && NatToString(90) == "90" && NatToString(3) == "3";
    assert " +26x"[1..] == "+26x" && "+26x"[1..] == "26x" && "26x"[1..] == "6x" && "6x"[1..] == "x";
    assert ParseNat("26x", 0) == ParseNat("6x", 2) == ParseNat("x", 26) == 26;
  }

  /** Printing with `%d` and reading back with `strtol` is the identity on every C `int`. */
  lemma IntRoundTrip(n: int)
    requires -INT_MAX - 1 <= n <= INT_MAX
    ensures ToInt(Strtol(IntToString(n))) == n
  {
    var m := if n < 0 then -n else n;
    ParseNatOfString(m, []);
    assert NatToString(m) + [] == NatToString(m);
    if n < 0 {
      assert IntToString(n)[1..] == NatToString(m);
    }
  }

  // ----- decimals --------------------------------------------------------------------------------

  /** The value of the leading digits of `s` as a fraction 0.s. */
  function Fraction(s: string): real
  {
    if s == [] || !IsDigit(s[0]) then 0.0 else (DigitValue(s[0]) as real + Fraction(s[1..])) / 10.0
  }

  function DropDigits(s: string): string
  {
    if s == [] || !IsDigit(s[0]) then s else DropDigits(s[1..])
  }

  /** The value of an unsigned decimal: digits, and digits behind a point. */
  function Decimal(s: string): real
  {
    var t := DropDigits(s);
    ParseNat(s, 0) as real + if t != [] && t[0] == '.' then Fraction(t[1..]) else 0.0
  }

  /** `strtod` on plain decimal notation; exponents, hexadecimals and the names of the infinities and
      not-a-number do not occur in the messages. */
  function Strtod(s: string): (x: real)
  {
    var t := SkipSpaces(s);
    if t != [] && t[0] == '-' then -Decimal(t[1..])
    else Decimal(if t != [] && t[0] == '+' then t[1..] else t)
  }

  /** The nearest integer; an exact half goes to the even neighbour. */
  function RoundHalfEven(x: real): (n: nat)
    requires 0.0 <= x
  {
    var q := x.Floor;
    var f := x - q as real;
    if f < 0.5 || (f == 0.5 && q % 2 == 0) then q else q + 1
  }

  function Abs(x: real): (r: real)
    ensures 0.0 <= r
  {
    if x < 0.0 then -x else x
  }

  /** `%2.1f`. */
  function FormatTenths(x: real): (s: string)
  {
    var t := RoundHalfEven(Abs(x) * 10.0);
    (if x < 0.0 then "-" else "") + NatToString(t / 10) + "." + [Digit(t % 10)]
  }

  /** The multiple of a tenth that `%2.1f` shows. */
  function NearestTenth(x: real): real
  {
    var t := RoundHalfEven(Abs(x) * 10.0) as real / 10.0;
    if x < 0.0 then -t else t
  }

  predicate InTenths(x: real) { (x * 10.0).Floor as real == x * 10.0 }

  lemma {:induction false} DropDigitsOf(s: string, t: string)
    requires AllDigits(s) && (t == [] || !IsDigit(t[0]))
    ensures DropDigits(s + t) == t
  {
    if s == [] {
      assert s + t == t;
    } else {
      assert (s + t)[1..] == s[1..] + t;
      DropDigitsOf(s[1..], t);
    }
  }

  lemma DecimalOfTenths(t: nat)
    ensures Decimal(NatToString(t / 10) + "." + [Digit(t % 10)]) == t as real / 10.0
  {
    var tail := "." + [Digit(t % 10)];
    var s := NatToString(t / 10) + tail;
    assert NatToString(t / 10) + "." + [Digit(t % 10)] == s;
    ParseNatOfString(t / 10, tail);
    DropDigitsOf(NatToString(t / 10), tail);
    assert tail[1..] == [Digit(t % 10)] && [Digit(t % 10)][1..] == [];
    assert Fraction([]) == 0.0;
    assert Fraction([Digit(t % 10)]) == (t % 10) as real / 10.0;
    assert t as real == (t / 10) as real * 10.0 + (t % 10) as real;
  }

  /** Reading back what `%2.1f` printed gives the nearest tenth, for every value. */
  lemma DecimalRoundTrip(x: real)
    ensures Strtod(FormatTenths(x)) == NearestTenth(x)
  {
    var t := RoundHalfEven(Abs(x) * 10.0);
    DecimalOfTenths(t);
    var body := NatToString(t / 10) + "." + [Digit(t % 10)];
    if x < 0.0 {
      assert FormatTenths(x) == "-" + body;
      assert ("-" + body)[1..] == body;
    } else {
      assert FormatTenths(x) == body;
    }
  }

  lemma IntegersAreKept(n: nat)
    ensures RoundHalfEven(n as real) == n
  {
  }

  /** So the decimal formats are inverse to each other exactly on the multiples of a tenth. */
  lemma TenthsRoundTrip(x: real)
    ensures Strtod(FormatTenths(x)) == x <==> InTenths(x)
  {
    DecimalRoundTrip(x);
    if InTenths(x) {
      InTenthsIsNearest(x, (x * 10.0).Floor);
    } else if NearestTenth(x) == x {
      NearestIsInTenths(x, RoundHalfEven(Abs(x) * 10.0));
    }
  }

  lemma InTenthsIsNearest(x: real, k: int)
    requires x * 10.0 == k as real
    ensures NearestTenth(x) == x
  {
    var n: nat := if k < 0 then -k else k;
    assert Abs(x) * 10.0 == n as real;
    IntegersAreKept(n);
    assert Abs(x) == n as real / 10.0;
  }

  lemma TenTimes(x: real, n: nat, k: int)
    requires Abs(x) == n as real / 10.0 && k == if x < 0.0 then 0 - n else n
    ensures x * 10.0 == k as real
  {
    assert n as real / 10.0 * 10.0 == n as real;
  }

  lemma NearestIsInTenths(x: real, n: nat)
    requires Abs(x) == n as real / 10.0
    ensures InTenths(x)
  {
    var k: int := if x < 0.0 then 0 - n else n;
    TenTimes(x, n, k);
    assert (k as real).Floor == k;
  }
}

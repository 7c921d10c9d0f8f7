/**
 * The parts of the C library the driver relies on, over `string`:
 * `printf`-style decimal formatting (`%d`, `%ld`, `%02d`), `sscanf`
 * conversions (`%d`, `%i`, `%N[A-Z]`), and `strstr`.
 * Numbers are unbounded; C's `int` overflow is not modelled.
 */
module CText {
  import opened Options

  predicate IsDigit(c: char) { '0' <= c <= '9' }
  predicate IsOctal(c: char) { '0' <= c <= '7' }
  predicate IsHex(c: char) { IsDigit(c) || 'a' <= c <= 'f' || 'A' <= c <= 'F' }
  predicate IsUpper(c: char) { 'A' <= c <= 'Z' }
  /** C's `isspace` in the "C" locale. */
  predicate IsSpace(c: char) {
    c == ' ' || c == '\t' || c == '\n' || c == '\r' || c == '\U{B}' || c == '\U{C}'
  }
  predicate IsNotNul(c: char) { c != '\0' }

  function Min(a: int, b: int): int { if a <= b then a else b }
  function Abs(a: int): nat { if a < 0 then -a else a }

  /** Length of the longest prefix of `s` whose characters all satisfy `p`. */
  function Span(s: string, p: char -> bool): (k: nat)
    ensures k <= |s|
    ensures forall i :: 0 <= i < k ==> p(s[i])
    ensures k < |s| ==> !p(s[k])
  {
    if s == [] || !p(s[0]) then 0 else 1 + Span(s[1..], p)
  }

  lemma {:induction false} SpanOfPrefix(a: string, rest: string, p: char -> bool)
    requires forall i :: 0 <= i < |a| ==> p(a[i])
    requires rest == [] || !p(rest[0])
    ensures Span(a + rest, p) == |a|
  {
    if a != [] {
      assert (a + rest)[1..] == a[1..] + rest;
      SpanOfPrefix(a[1..], rest, p);
    } else {
      assert a + rest == rest;
    }
  }

  // ---------------------------------------------------------------- formatting

  function DigitChar(d: nat): char
    requires d < 10
  {
    ('0' as int + d) as char
  }

  /** The value of one digit character, hexadecimal letters included. */
  function DigitValue(c: char): nat {
    if IsDigit(c) then c as int - '0' as int
    else if 'a' <= c <= 'f' then c as int - 'a' as int + 10
    else if 'A' <= c <= 'F' then c as int - 'A' as int + 10
    else 0
  }

  /** The number a digit string denotes in the given base (most significant digit first). */
  function ValueIn(s: string, base: nat): nat {
    if s == [] then 0 else ValueIn(s[..|s| - 1], base) * base + DigitValue(s[|s| - 1])
  }

  /** `printf("%u", n)`: decimal digits, no leading zero. */
  function NatString(n: nat): (s: string)
    ensures |s| >= 1
    ensures forall i :: 0 <= i < |s| ==> IsDigit(s[i])
    ensures n > 0 ==> s[0] != '0'
    ensures ValueIn(s, 10) == n
    ensures |s| == 1 <==> n < 10
  {
    if n < 10 then [DigitChar(n)]
    else
      var s := NatString(n / 10) + [DigitChar(n % 10)];
      assert s[..|s| - 1] == NatString(n / 10);
      s
  }

  /** `printf("%d", n)` and `printf("%ld", n)`. */
  function Decimal(n: int): string {
    if n < 0 then "-" + NatString(-n) else NatString(n)
  }

  /** `printf("%02d", n)`: zero-padded to a width of two characters. */
  function Pad2(n: int): string {
    if 0 <= n < 10 then "0" + NatString(n) else Decimal(n)
  }

  lemma NatStringLength(n: nat)
    ensures |NatString(n)| <= 2 <==> n < 100
  {
    if n >= 10 {
      NatStringLength(n / 10);
    }
  }

  /** `%02d` fits in two characters exactly for -9 ..= 99. */
  lemma Pad2Length(n: int)
    ensures |Pad2(n)| <= 2 <==> -9 <= n <= 99
    ensures |Pad2(n)| >= 2
  {
    NatStringLength(Abs(n));
    if n < 0 {
      assert |NatString(-n)| == 1 <==> -n < 10;
    } else if n >= 10 {
      assert |NatString(n)| != 1;
    }
  }

  // ---------------------------------------------------------------- scanning

  datatype Scanned<T> = Scanned(value: T, rest: string)

  /** What the white space a conversion skips leaves over. */
  function SkipSpace(s: string): (t: string)
    ensures |t| <= |s| && t == s[|s| - |t|..]
    ensures t == [] || !IsSpace(t[0])
  {
    s[Span(s, IsSpace)..]
  }

  /** Splits off an optional sign, as `%d` and `%i` accept it. */
  function Sign(t: string): (bool, string) {
    if t != [] && (t[0] == '-' || t[0] == '+') then (t[0] == '-', t[1..]) else (false, t)
  }

  function Signed(negative: bool, v: nat): int { if negative then -(v as int) else v }

  /** `sscanf(s, "%d", &v)`: None on a matching failure. */
  function ScanDecimal(s: string): Option<Scanned<int>>
  {
    var (neg, u) := Sign(SkipSpace(s));
    var k := Span(u, IsDigit);
    if k == 0 then None else Some(Scanned(Signed(neg, ValueIn(u[..k], 10)), u[k..]))
  }

  /**
   * `sscanf(s, "%i", &v)`: the base follows the prefix, `0x`/`0X`
   * hexadecimal, `0` octal, decimal otherwise. A `0x` with no hexadecimal
   * digit after it is a matching failure, as the C standard has it.
   */
  function ScanInteger(s: string): Option<Scanned<int>>
  {
    var (neg, u) := Sign(SkipSpace(s));
    if |u| >= 2 && u[0] == '0' && (u[1] == 'x' || u[1] == 'X') then
      var k := Span(u[2..], IsHex);
      if k == 0 then None else Some(Scanned(Signed(neg, ValueIn(u[2..2 + k], 16)), u[2 + k..]))
    else if u != [] && u[0] == '0' then
      var k := Span(u, IsOctal);
      Some(Scanned(Signed(neg, ValueIn(u[..k], 8)), u[k..]))
    else
      var k := Span(u, IsDigit);
      if k == 0 then None else Some(Scanned(Signed(neg, ValueIn(u[..k], 10)), u[k..]))
  }

  /** `sscanf(s, "%N[A-Z]", buf)`: one to `width` upper-case letters, no white space skipped. */
  function ScanUpper(s: string, width: nat): (r: Option<Scanned<string>>)
    ensures r.Some? ==> 1 <= |r.value.value| <= width && s == r.value.value + r.value.rest
    ensures r.Some? ==> forall i :: 0 <= i < |r.value.value| ==> IsUpper(r.value.value[i])
  {
    var k := Min(Span(s, IsUpper), width);
    if k == 0 then None else Some(Scanned(s[..k], s[k..]))
  }

  /** A character that ends the digits of a number and does not turn `0` into a `0x` prefix. */
  predicate EndsNumber(rest: string) {
    rest == [] || (!IsDigit(rest[0]) && rest[0] != 'x' && rest[0] != 'X')
  }

  lemma {:induction false} NatStringScans(n: nat, rest: string)
    requires rest == [] || !IsDigit(rest[0])
    ensures Span(NatString(n) + rest, IsDigit) == |NatString(n)|
    ensures (NatString(n) + rest)[..|NatString(n)|] == NatString(n)
    ensures (NatString(n) + rest)[|NatString(n)|..] == rest
  {
    SpanOfPrefix(NatString(n), rest, IsDigit);
  }

  lemma SkipNoSpace(s: string)
    requires s != [] && !IsSpace(s[0])
    ensures SkipSpace(s) == s
  {
    assert Span(s, IsSpace) == 0;
  }

  /** A printed number starts with a sign or a digit, so nothing is skipped and the sign splits off. */
  lemma DecimalSign(n: int, rest: string)
    ensures SkipSpace(Decimal(n) + rest) == Decimal(n) + rest
    ensures Sign(Decimal(n) + rest) == (n < 0, NatString(Abs(n)) + rest)
  {
    var t := NatString(Abs(n)) + rest;
    assert IsDigit(t[0]);
    if n < 0 {
      NegativeSign(Decimal(n) + rest, t);
    } else {
      UnsignedSign(Decimal(n) + rest);
    }
  }

  lemma NegativeSign(s: string, t: string)
    requires s == ['-'] + t
    ensures SkipSpace(s) == s && Sign(s) == (true, t)
  {
    SkipNoSpace(s);
  }

  lemma UnsignedSign(s: string)
    requires s != [] && IsDigit(s[0])
    ensures SkipSpace(s) == s && Sign(s) == (false, s)
  {
    SkipNoSpace(s);
  }

  /** `%d` reads back what `%d` printed. */
  lemma ScanDecimalOfDecimal(n: int, rest: string)
    requires rest == [] || !IsDigit(rest[0])
    ensures ScanDecimal(Decimal(n) + rest) == Some(Scanned(n, rest))
  {
    var digits := NatString(Abs(n));
    var u := digits + rest;
    assert Sign(SkipSpace(Decimal(n) + rest)) == (n < 0, u) by {
      DecimalSign(n, rest);
    }
    assert Span(u, IsDigit) == |digits| && u[..|digits|] == digits && u[|digits|..] == rest by {
      NatStringScans(Abs(n), rest);
    }
    assert Signed(n < 0, ValueIn(digits, 10)) == n;
  }

  /** `%i` reads back what `%d` printed (a printed number never has a leading zero). */
  lemma ScanIntegerOfDecimal(n: int, rest: string)
    requires EndsNumber(rest)
    ensures ScanInteger(Decimal(n) + rest) == Some(Scanned(n, rest))
  {
    var digits := NatString(Abs(n));
    var u := digits + rest;
    assert Sign(SkipSpace(Decimal(n) + rest)) == (n < 0, u) by {
      DecimalSign(n, rest);
    }
    if Abs(n) == 0 {
      assert digits == "0";
      assert Span(u, IsOctal) == 1 && u[..1] == "0" && u[1..] == rest by {
        SpanOfPrefix("0", rest, IsOctal);
      }
      assert !(|u| >= 2 && u[0] == '0' && (u[1] == 'x' || u[1] == 'X'));
      assert Signed(n < 0, ValueIn("0", 8)) == n;
    } else {
      assert Span(u, IsDigit) == |digits| && u[..|digits|] == digits && u[|digits|..] == rest by {
        NatStringScans(Abs(n), rest);
      }
      assert u[0] != '0';
      assert Signed(n < 0, ValueIn(digits, 10)) == n;
    }
  }

  // ---------------------------------------------------------------- strstr

  /** `strstr(h, n) != NULL`. */
  predicate Contains(h: string, n: string)
    decreases |h|
  {
    |n| <= |h| && (h[..|n|] == n || Contains(h[1..], n))
  }

  /** `n` occurs in `h` starting at offset `i`. */
  predicate OccursAt(h: string, n: string, i: int) {
    0 <= i <= |h| - |n| && h[i..i + |n|] == n
  }

  /** The recursive search agrees with "occurs at some offset". */
  lemma {:induction false} ContainsAtOffset(h: string, n: string)
    ensures Contains(h, n) <==> exists i :: OccursAt(h, n, i)
    decreases |h|
  {
    if |n| <= |h| && h[..|n|] != n {
      ContainsAtOffset(h[1..], n);
      if Contains(h[1..], n) {
        var i :| OccursAt(h[1..], n, i);
        assert h[i + 1..i + 1 + |n|] == n;
        assert OccursAt(h, n, i + 1);
      }
      if exists i :: OccursAt(h, n, i) {
        var i :| OccursAt(h, n, i);
        assert i != 0;
        assert h[1..][i - 1..i - 1 + |n|] == n;
        assert OccursAt(h[1..], n, i - 1);
      }
    } else if |n| <= |h| {
      assert OccursAt(h, n, 0);
    }
  }

  lemma ContainsItself(s: string)
    ensures Contains(s, s)
  {
    assert s[..|s|] == s;
  }

  /** The characters C sees of a buffer: everything before the first NUL. */
  function CString(s: string): (c: string)
      ensures |c| <= |s| && c == s[..|c|]
    ensures forall i :: 0 <= i < |c| ==> c[i] != '\0'
  {
    s[..Span(s, IsNotNul)]
  }

  lemma CStringOfNulFree(s: string)
    requires forall i :: 0 <= i < |s| ==> s[i] != '\0'
    ensures CString(s) == s
  {
  }
}

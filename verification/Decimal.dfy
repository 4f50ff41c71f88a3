/** Decimal numbers in headers: %zu as snprintf prints it, and strtoul with base
    10 as section 7.22.1.4 of the C standard defines it for a 64-bit long. */
module Decimal {

  const ULONG_MAX := 0xFFFF_FFFF_FFFF_FFFF
  const MAX_BODY := 1048576

  predicate IsDigit(ch: char) { '0' <= ch <= '9' }

  predicate AllDigits(s: string) { forall i :: 0 <= i < |s| ==> IsDigit(s[i]) }

  function DigitValue(ch: char): nat
    requires IsDigit(ch)
  {
    ch as int - '0' as int
  }

  /** The number a string of digits stands for. */
  function Value(s: string): nat
    requires AllDigits(s)
  {
    if s == "" then 0 else 10 * Value(s[..|s| - 1]) + DigitValue(s[|s| - 1])
  }

  /** %zu and %d of a number that is not negative. */
  function Print(n: nat): (s: string)
    ensures s != "" && AllDigits(s) && Value(s) == n
  {
    if n < 10 then
      var s := [('0' as int + n) as char];
      assert s[..0] == "";
      s
    else
      var init := Print(n / 10);
      var s := init + [('0' as int + n % 10) as char];
      assert s[..|s| - 1] == init;
      s
  }

  predicate IsSpace(ch: char) {
    ch == ' ' || ch == '\t' || ch == '\n' || ch == 11 as char || ch == 12 as char || ch == '\r'
  }

  /** How many leading characters satisfy isspace; how many are digits. */
  function Spaces(s: string): (n: nat)
    ensures n <= |s|
  {
    if s != "" && IsSpace(s[0]) then 1 + Spaces(s[1..]) else 0
  }

  function Digits(s: string): (n: nat)
    ensures n <= |s| && AllDigits(s[..n]) && (n < |s| ==> !IsDigit(s[n]))
  {
    if s != "" && IsDigit(s[0]) then 1 + Digits(s[1..]) else 0
  }

  function Saturate(n: nat): nat { if n <= ULONG_MAX then n else ULONG_MAX }

  /** The number, and the index at which parsing ended; 0 when there was nothing
      to convert. A minus sign negates the result in unsigned arithmetic. */
  function Strtoul(s: string): (nat, nat) {
    var at := Spaces(s);
    var signed := at < |s| && (s[at] == '-' || s[at] == '+');
    var from := if signed then at + 1 else at;
    var n := Digits(s[from..]);
    if n == 0 then (0, 0)
    else
      var value := Value(s[from..][..n]);
      var result :=
        if value > ULONG_MAX then ULONG_MAX
        else if signed && s[at] == '-' then (if value == 0 then 0 else ULONG_MAX + 1 - value)
        else value;
      (result, from + n)
  }

  /** The server's test on a Content-Length (src/mcp_http.c:714-719, 778, 827). */
  predicate Accepts(s: string) {
    var (n, end) := Strtoul(s);
    end != 0 && n != 0 && n <= MAX_BODY
  }

  lemma DigitsOfAll(s: string)
    requires AllDigits(s)
    ensures Digits(s) == |s|
  {
    if s != "" {
      assert forall i :: 0 <= i < |s| - 1 ==> s[1..][i] == s[i + 1];
      DigitsOfAll(s[1..]);
    }
  }

  lemma StrtoulDigits(s: string)
    requires s != "" && AllDigits(s)
    ensures Strtoul(s) == (Saturate(Value(s)), |s|)
  {
    assert IsDigit(s[0]) && !IsSpace(s[0]);
    assert s[0..] == s;
    DigitsOfAll(s);
    assert s[..|s|] == s;
  }

  /** Printing and parsing are inverse on every size_t. */
  lemma ParsePrinted(n: nat)
    requires n <= ULONG_MAX
    ensures Strtoul(Print(n)) == (n, |Print(n)|)
  {
    StrtoulDigits(Print(n));
  }

  /** An all-digit field of any length, a valid Content-Length by section 8.6 of
      RFC 9110, is accepted exactly when it stands for 1 to 1048576. */
  lemma AcceptsExactly(s: string)
    requires s != "" && AllDigits(s)
    ensures Accepts(s) <==> 1 <= Value(s) <= 1048576
  {
    StrtoulDigits(s);
  }

  /** Digits followed by something else count as the digits alone. */
  lemma AcceptsPrefix(s: string, rest: string)
    requires s != "" && AllDigits(s) && (rest != "" ==> !IsDigit(rest[0]))
    ensures Accepts(s + rest) <==> 1 <= Value(s) <= 1048576
  {
    var t := s + rest;
    assert t[0] == s[0] && IsDigit(s[0]) && !IsSpace(s[0]);
    DigitsThen(s, rest);
    assert t[0..] == t && t[..|s|] == s;
  }

  lemma {:induction false} DigitsThen(s: string, rest: string)
    requires AllDigits(s) && (rest != "" ==> !IsDigit(rest[0]))
    ensures Digits(s + rest) == |s|
  {
    if s == "" {
      assert s + rest == rest;
    } else {
      assert (s + rest)[0] == s[0] && (s + rest)[1..] == s[1..] + rest;
      assert forall i :: 0 <= i < |s| - 1 ==> s[1..][i] == s[i + 1];
      DigitsThen(s[1..], rest);
    }
  }

  /** A negative field is not refused as such: it is accepted exactly when its
      negation, taken modulo 2^64, is in range. */
  lemma AcceptsNegative(s: string)
    requires s != "" && AllDigits(s)
    ensures Accepts("-" + s) <==> 0x1_0000_0000_0000_0000 - 1048576 <= Value(s) < 0x1_0000_0000_0000_0000
  {
    var t := "-" + s;
    assert t[0] == '-' && !IsSpace(t[0]);
    assert t[1..] == s && s[..|s|] == s;
    DigitsOfAll(s);
  }

  // ----- the largest number, in digits -----

  const BIGGEST := "18" + "44" + "67" + "44" + "07" + "37" + "09" + "55" + "16" + "15"

  function Digit(d: nat): char
    requires d < 10
  {
    ('0' as int + d) as char
  }

  lemma PrintTwo(m: nat, a: nat, b: nat)
    requires 0 < m && a < 10 && b < 10
    ensures Print(100 * m + 10 * a + b) == Print(m) + [Digit(a), Digit(b)]
  {
    var n := 100 * m + 10 * a + b;
    assert n / 10 == 10 * m + a && n % 10 == b && (10 * m + a) / 10 == m && (10 * m + a) % 10 == a;
    assert Print(n) == Print(10 * m + a) + [Digit(b)];
    assert Print(10 * m + a) == Print(m) + [Digit(a)];
  }

  lemma PrintEighteen()
    ensures Print(18) == "18"
  {
    assert Print(1) == "1";
    assert Print(18) == Print(1) + "8";
  }

  lemma PrintBiggest()
    ensures Print(ULONG_MAX) == BIGGEST
  {
    hide Print;
    PrintEighteen();
    PrintTwo(18, 4, 4);
    PrintTwo(1844, 6, 7);
    PrintTwo(184467, 4, 4);
    PrintTwo(18446744, 0, 7);
    PrintTwo(1844674407, 3, 7);
    PrintTwo(184467440737, 0, 9);
    PrintTwo(18446744073709, 5, 5);
    PrintTwo(1844674407370955, 1, 6);
    PrintTwo(184467440737095516, 1, 5);
  }
}

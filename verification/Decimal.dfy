/** Decimal text: `std::to_string` on the printing side and `std::stoi` on the parsing side. */
module Decimal {
  import opened Common

  const INT_MAX := 0x7fff_ffff
  const INT_MIN := -0x8000_0000
  const UNSIGNED_RANGE := 0x1_0000_0000

  predicate IsDigit(c: char) {
    '0' <= c <= '9'
  }

  predicate AllDigits(s: string) {
    forall i :: 0 <= i < |s| ==> IsDigit(s[i])
  }

  function DigitChar(d: int): char
    requires 0 <= d < 10
  {
    ('0' as int + d) as char
  }

  function DigitValue(c: char): int
    requires IsDigit(c)
  {
    c as int - '0' as int
  }

  /** `std::to_string` of a non-negative number. */
  function NatToString(n: nat): (s: string)
    ensures s != ""
    ensures AllDigits(s)
  {
    if n < 10 then [DigitChar(n)] else NatToString(n / 10) + [DigitChar(n % 10)]
  }

  /** `std::to_string` of an `int`. */
  function IntToString(n: int): string {
    if n < 0 then "-" + NatToString(-n) else NatToString(n)
  }

  /** The number a string of digits denotes. */
  function Value(s: string): nat
    requires AllDigits(s)
  {
    if s == "" then 0 else 10 * Value(s[..|s| - 1]) + DigitValue(s[|s| - 1])
  }

  function LeadingDigits(s: string): (k: nat)
    ensures k <= |s|
    ensures AllDigits(s[..k])
    ensures k < |s| ==> !IsDigit(s[k])
  {
    if s == "" || !IsDigit(s[0]) then 0
    else
      var k := LeadingDigits(s[1..]);
      assert s[..k + 1] == [s[0]] + s[1..][..k];
      k + 1
  }

  /** `std::stoi` on a token of letters and digits: the leading digits are converted and what follows
      them is ignored; no leading digit and a value above `INT_MAX` are errors (`None`).  Tokens hold
      no space and no sign, so the part of `stoi` that skips and reads those never applies. */
  function Stoi(s: string): (r: Option<int>)
    ensures r.Some? ==> 0 <= r.value <= INT_MAX
  {
    var k := LeadingDigits(s);
    if k == 0 then None
    else
      var v := Value(s[..k]);
      if v > INT_MAX then None else Some(v)
  }

  /** Reading back a printed number gives the number. */
  lemma {:induction false} ValueOfPrinted(n: nat)
    ensures Value(NatToString(n)) == n
  {
    if n < 10 {
      assert NatToString(n)[..0] == "";
    } else {
      ValueOfPrinted(n / 10);
      var s := NatToString(n);
      assert s[..|s| - 1] == NatToString(n / 10);
    }
  }

  lemma {:induction false} AllLeading(s: string)
    requires AllDigits(s)
    ensures LeadingDigits(s) == |s|
  {
    if s != "" {
      AllLeading(s[1..]);
    }
  }

  /** On a string of digits `Stoi` is `Value`, cut off at the largest `int`. */
  lemma StoiOfDigits(s: string)
    requires AllDigits(s) && s != ""
    ensures Stoi(s) == if Value(s) > INT_MAX then None else Some(Value(s))
  {
    AllLeading(s);
    assert s[..|s|] == s;
  }

  /** `stoi` inverts `to_string` exactly on the non-negative `int`s. */
  lemma StoiOfPrinted(n: nat)
    ensures Stoi(NatToString(n)) == if n > 2147483647 then None else Some(n)
  {
    ValueOfPrinted(n);
    StoiOfDigits(NatToString(n));
  }

  // ----- in decimal digits -----

  lemma DigitIs(c: char)
    ensures IsDigit(c) <==> c in "0123456789"
  {
    if IsDigit(c) {
      assert "0123456789"[c as int - '0' as int] == c;
    }
  }

  /** Numbers are printed in decimal digits, the most significant first. */
  lemma PrintedDigits(n: nat)
    ensures NatToString(n)
         == if n < 10 then ["0123456789"[n]] else NatToString(n / 10) + ["0123456789"[n % 10]]
  {
    assert forall d :: 0 <= d < 10 ==> DigitChar(d) == "0123456789"[d];
  }

  function Zeros(k: nat): string {
    seq(k, _ => '0')
  }

  /** A token that begins with the number `n`, printed with `k` zeros before it. */
  ghost predicate Begins(token: string, k: nat, n: nat, rest: string) {
    token == Zeros(k) + NatToString(n) + rest && (rest == "" || rest[0] !in "0123456789")
  }

  lemma {:induction false} ValueWithZeros(k: nat, n: nat)
    ensures AllDigits(Zeros(k) + NatToString(n)) && Value(Zeros(k) + NatToString(n)) == n
  {
    var s := Zeros(k) + NatToString(n);
    var before := s[..|s| - 1];
    if n >= 10 {
      assert before == Zeros(k) + NatToString(n / 10);
      ValueWithZeros(k, n / 10);
    } else if k > 0 {
      assert before == Zeros(k - 1) + NatToString(0);
      ValueWithZeros(k - 1, 0);
    } else {
      assert before == "" && s == NatToString(n);
    }
  }

  lemma {:induction false} LeadingBefore(s: string, rest: string)
    requires AllDigits(s) && (rest == "" || !IsDigit(rest[0]))
    ensures LeadingDigits(s + rest) == |s|
  {
    if s == "" {
      assert s + rest == rest;
    } else {
      assert (s + rest)[1..] == s[1..] + rest;
      LeadingBefore(s[1..], rest);
    }
  }

  /** Every string of digits is a printed number with zeros before it. */
  lemma {:induction false} DigitsArePrinted(s: string) returns (k: nat)
    requires AllDigits(s) && s != ""
    ensures s == Zeros(k) + NatToString(Value(s))
  {
    var before, d := s[..|s| - 1], DigitValue(s[|s| - 1]);
    assert DigitChar(d) == s[|s| - 1] && s == before + [DigitChar(d)];
    if before == "" {
      k := 0;
      assert Value(s) == d;
    } else {
      k := DigitsArePrinted(before);
      var v := Value(before);
      if v == 0 {
        assert Zeros(k) + "0" == Zeros(k + 1);
        k := k + 1;
      } else {
        assert (10 * v + d) / 10 == v && (10 * v + d) % 10 == d;
      }
    }
  }

  /** `stoi` takes a token for the number it begins with, if that is an `int` of 32 bits, and for nothing
      else. */
  lemma StoiExact(token: string, n: nat)
    ensures Stoi(token) == Some(n) <==> n <= 2147483647 && exists k, rest :: Begins(token, k, n, rest)
  {
    if Stoi(token) == Some(n) {
      var l := LeadingDigits(token);
      var k := DigitsArePrinted(token[..l]);
      assert token == token[..l] + token[l..];
      if l < |token| {
        DigitIs(token[l]);
      }
      assert Begins(token, k, n, token[l..]);
    }
    forall k, rest | Begins(token, k, n, rest) ensures Stoi(token) == if n <= 2147483647 then Some(n) else None {
      var s := Zeros(k) + NatToString(n);
      ValueWithZeros(k, n);
      if rest != "" {
        DigitIs(rest[0]);
      }
      LeadingBefore(s, rest);
      assert token[..|s|] == s;
    }
  }
}

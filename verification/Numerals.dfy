/** Decimal numerals as Go's strconv reads and writes them: job ids, pids, ports and poll intervals. */
module Numerals {
  import opened Wrappers

  const INT64_MIN: int := -0x8000_0000_0000_0000
  const INT64_MAX: int := 0x7fff_ffff_ffff_ffff

  predicate IsInt64(n: int) {
    INT64_MIN <= n <= INT64_MAX
  }

  predicate IsDigit(c: char) {
    '0' <= c <= '9'
  }

  predicate AllDigits(s: string) {
    forall i :: 0 <= i < |s| ==> IsDigit(s[i])
  }

  function DigitChar(d: nat): (c: char)
    requires d < 10
    ensures IsDigit(c) && c as int - '0' as int == d
  {
    (('0' as int) + d) as char
  }

  /** The value of a digit string, most significant digit first. */
  function DigitsValue(s: string): nat
    requires AllDigits(s)
  {
    if s == "" then 0
    else 10 * DigitsValue(s[..|s| - 1]) + (s[|s| - 1] as int - '0' as int)
  }

  function FormatNat(n: nat): (s: string)
    ensures s != "" && AllDigits(s)
  {
    if n < 10 then [DigitChar(n)] else FormatNat(n / 10) + [DigitChar(n % 10)]
  }

  /** strconv.FormatInt(n, 10). */
  function FormatInt(n: int): string {
    if n < 0 then "-" + FormatNat(-n) else FormatNat(n)
  }

  /** strconv.ParseInt(s, 10, 64), which strconv.Atoi agrees with on a 64-bit machine:
      an optional sign, at least one digit, nothing else, and a value that fits 64 bits. */
  function ParseInt(s: string): Option<int> {
    if s == "" then None
    else
      var negative := s[0] == '-';
      var digits := if s[0] == '-' || s[0] == '+' then s[1..] else s;
      if digits == "" || !AllDigits(digits) then None
      else
        var v: int := DigitsValue(digits);
        var n := if negative then -v else v;
        if IsInt64(n) then Some(n) else None
  }

  lemma {:induction false} FormatNatValue(n: nat)
    ensures DigitsValue(FormatNat(n)) == n
  {
    if n >= 10 {
      FormatNatValue(n / 10);
      var s := FormatNat(n);
      assert s[..|s| - 1] == FormatNat(n / 10);
    } else {
      var s := FormatNat(n);
      assert s[..|s| - 1] == "";
    }
  }

  function Zeros(k: nat): (s: string)
    ensures |s| == k
  {
    if k == 0 then "" else Zeros(k - 1) + "0"
  }

  /** The digits of a number with k zeros in front. */
  function Padded(k: nat, n: nat): (s: string)
    ensures s != ""
  {
    Zeros(k) + FormatNat(n)
  }

  /** They are all there is to a number's digit strings. */
  lemma {:induction false} DigitsOf(s: string) returns (k: nat)
    requires s != "" && AllDigits(s)
    ensures s == Padded(k, DigitsValue(s))
  {
    var front, last := s[..|s| - 1], s[|s| - 1];
    assert s == front + [last];
    if front == "" {
      k := 0;
      assert FormatNat(DigitsValue(s)) == [last];
    } else {
      k := DigitsOf(front);
      var v := DigitsValue(front);
      assert last == DigitChar(last as int - '0' as int);
      if v == 0 {
        k := k + 1;
        assert s == Zeros(k) + [last];
      } else {
        assert DigitsValue(s) / 10 == v;
        assert s == Zeros(k) + (FormatNat(v) + [last]);
      }
    }
  }

  lemma {:induction false} ZerosInFront(k: nat, n: nat)
    ensures AllDigits(Padded(k, n)) && DigitsValue(Padded(k, n)) == n
  {
    if n >= 10 {
      ZerosInFront(k, n / 10);
      var s := Zeros(k) + FormatNat(n);
      assert s[..|s| - 1] == Zeros(k) + FormatNat(n / 10);
    } else {
      ZerosAreZero(k);
      var s := Zeros(k) + FormatNat(n);
      assert s[..|s| - 1] == Zeros(k);
    }
  }

  lemma {:induction false} ZerosAreZero(k: nat)
    ensures AllDigits(Zeros(k)) && DigitsValue(Zeros(k)) == 0
  {
    if k > 0 {
      ZerosAreZero(k - 1);
      assert Zeros(k)[..k - 1] == Zeros(k - 1);
    }
  }

  function Abs(n: int): nat {
    if n < 0 then -n else n
  }

  predicate SignFits(sign: string, n: int) {
    (sign == "" && n >= 0) || (sign == "+" && n >= 0) || (sign == "-" && n <= 0)
  }

  /** s is the sign, k zeros, and the digits of n without leading zeros. */
  predicate Spelling(s: string, sign: string, k: nat, n: int) {
    SignFits(sign, n) && s == sign + Padded(k, Abs(n))
  }

  /** What parses as n: its digits behind any number of zeros and a fitting sign, if it fits 64 bits, and nothing
      else. */
  lemma SpellingsOf(s: string, n: int)
    ensures ParseInt(s) == Some(n) <==> IsInt64(n) && exists sign, k :: Spelling(s, sign, k, n)
  {
    if ParseInt(s) == Some(n) {
      var _, _ := SpellingFound(s, n);
    }
    if sign, k :| IsInt64(n) && Spelling(s, sign, k, n) {
      SpellingParses(s, sign, k, n);
    }
  }

  predicate IsSign(sign: string) {
    sign == "" || sign == "+" || sign == "-"
  }

  /** How a sign and digits parse. */
  lemma ParseSigned(sign: string, digits: string)
    requires IsSign(sign) && digits != "" && AllDigits(digits)
    ensures var v: int := DigitsValue(digits);
            var n := if sign == "-" then -v else v;
            ParseInt(sign + digits) == if IsInt64(n) then Some(n) else None
  {
    var s := sign + digits;
    assert IsDigit(digits[0]);
    if sign == "" {
      assert s == digits;
    } else {
      assert s[0] == sign[0] && s[1..] == digits;
    }
  }

  /** Only a sign and digits parse. */
  lemma ParsedIsSigned(s: string) returns (sign: string, digits: string)
    requires ParseInt(s).Some?
    ensures IsSign(sign) && digits != "" && AllDigits(digits) && s == sign + digits
  {
    sign := if s[0] == '-' || s[0] == '+' then s[..1] else "";
    digits := s[|sign|..];
    if s[0] == '-' || s[0] == '+' {
      assert sign == [s[0]];
    }
  }

  lemma SpellingFound(s: string, n: int) returns (sign: string, k: nat)
    requires ParseInt(s) == Some(n)
    ensures Spelling(s, sign, k, n)
  {
    var digits;
    sign, digits := ParsedIsSigned(s);
    ParseSigned(sign, digits);
    k := DigitsOf(digits);
    assert Abs(n) == DigitsValue(digits);
  }

  lemma SignedParses(sign: string, digits: string, n: int)
    requires SignFits(sign, n) && digits != "" && AllDigits(digits) && DigitsValue(digits) == Abs(n) && IsInt64(n)
    ensures ParseInt(sign + digits) == Some(n)
  {
    ParseSigned(sign, digits);
  }

  lemma SpellingParses(s: string, sign: string, k: nat, n: int)
    requires IsInt64(n) && Spelling(s, sign, k, n)
    ensures ParseInt(s) == Some(n)
  {
    ZerosInFront(k, Abs(n));
    SignedParses(sign, Padded(k, Abs(n)), n);
  }

  lemma FormatIsSpelling(n: int)
    ensures Spelling(FormatInt(n), if n < 0 then "-" else "", 0, n)
  {
    assert Padded(0, Abs(n)) == FormatNat(Abs(n));
  }

  /** What the store writes as an id, without needless signs or zeros, it reads back as the same id. */
  lemma ParseFormat(n: int)
    requires IsInt64(n)
    ensures ParseInt(FormatInt(n)) == Some(n)
  {
    FormatIsSpelling(n);
    SpellingParses(FormatInt(n), if n < 0 then "-" else "", 0, n);
  }

  /** Distinct ids have distinct spellings, so default checkpoint directories never coincide. */
  lemma FormatInjective(m: nat, n: nat)
    requires FormatInt(m) == FormatInt(n)
    ensures m == n
  {
    FormatNatValue(m);
    FormatNatValue(n);
  }
}

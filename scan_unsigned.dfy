/** The `%u` conversion of sscanf as validate_cogl_attribute uses it to read
    the texture unit out of a name such as "tex_coord2_in": after optional
    white space and an optional sign comes a run of decimal digits, read as
    strtoul reads it with base 10 on an LP64 glibc target (ULONG_MAX when
    the digits overflow it, the unsigned negation for a leading '-') and
    then stored in an `unsigned int`.

    A digit string is decoded here and rendered by Decimal, its independent
    partner; the two round-trip. */
module ScanUnsigned {
  import opened Base

  predicate IsDigit(c: char) {
    '0' <= c <= '9'
  }

  /** The characters isspace accepts in the C locale. */
  predicate IsCSpace(c: char) {
    c == ' ' || c == '\t' || c == '\n' || c == '\r' || c == '\U{000B}' || c == '\U{000C}'
  }

  predicate AllDigits(s: string) {
    forall i :: 0 <= i < |s| ==> IsDigit(s[i])
  }

  /** The number of leading white-space characters of `s`. */
  function LeadingSpaces(s: string): (k: nat)
    ensures k <= |s|
    ensures forall i :: 0 <= i < k ==> IsCSpace(s[i])
    ensures k < |s| ==> !IsCSpace(s[k])
  {
    if s == [] || !IsCSpace(s[0]) then 0 else 1 + LeadingSpaces(s[1..])
  }

  /** The length of the run of digits `s` starts with. */
  function DigitRun(s: string): (k: nat)
    ensures k <= |s|
    ensures AllDigits(s[..k])
    ensures k < |s| ==> !IsDigit(s[k])
  {
    if s == [] || !IsDigit(s[0]) then 0
    else
      var k := 1 + DigitRun(s[1..]);
      assert s[..k] == [s[0]] + s[1..][..k - 1];
      k
  }

  function DigitValue(c: char): (d: nat)
    requires IsDigit(c)
    ensures d < 10
  {
    (c as int - '0' as int) as nat
  }

  function DigitChar(d: nat): (c: char)
    requires d < 10
    ensures IsDigit(c) && DigitValue(c) == d
  {
    ('0' as int + d) as char
  }

  /** The number a digit string spells, most significant digit first. */
  function DigitsValue(s: string): nat
    requires AllDigits(s)
  {
    if s == [] then 0 else DigitsValue(s[..|s| - 1]) * 10 + DigitValue(s[|s| - 1])
  }

  /** The decimal rendering of `k`, without leading zeros. */
  function Decimal(k: nat): (s: string)
    ensures |s| >= 1 && AllDigits(s)
  {
    if k < 10 then [DigitChar(k)] else Decimal(k / 10) + [DigitChar(k % 10)]
  }

  lemma {:induction false} DecimalRoundTrip(k: nat)
    ensures DigitsValue(Decimal(k)) == k
  {
    if k >= 10 {
      var s := Decimal(k);
      assert s[..|s| - 1] == Decimal(k / 10);
      DecimalRoundTrip(k / 10);
    }
  }

  /** A run of digits ends where the first non-digit begins. */
  lemma {:induction false} DigitRunOfConcat(s: string, t: string)
    requires AllDigits(s)
    requires t == [] || !IsDigit(t[0])
    ensures DigitRun(s + t) == |s|
  {
    if s != [] {
      assert (s + t)[1..] == s[1..] + t;
      DigitRunOfConcat(s[1..], t);
    }
  }

  /** What strtoul(…, 10) followed by a conversion to `unsigned int` makes
      of the magnitude `v` read with a sign. */
  function UnsignedFromDigits(v: nat, negative: bool): (r: nat)
    ensures IsUint32(r)
    ensures v < UINT32_MODULUS && !negative ==> r == v
    ensures v < UINT64_MODULUS && !negative ==> r == v % UINT32_MODULUS
    ensures v < UINT64_MODULUS && negative ==> (r + v) % UINT32_MODULUS == 0
    ensures v >= UINT64_MODULUS ==> r == UINT32_MODULUS - 1
  {
    var asLong: nat :=
      if v >= UINT64_MODULUS then UINT64_MODULUS - 1
      else if negative then (UINT64_MODULUS - v) % UINT64_MODULUS
      else v;
    NegationWraps(v);
    asLong % UINT32_MODULUS
  }

  /** strtoul's negation modulo 2^64, truncated to 32 bits, is the negation
      modulo 2^32. */
  lemma NegationWraps(v: nat)
    ensures v < UINT64_MODULUS ==> ((UINT64_MODULUS - v) % UINT64_MODULUS % UINT32_MODULUS + v) % UINT32_MODULUS == 0
  {
    var m := UINT32_MODULUS;
    if v >= UINT64_MODULUS {
    } else if v == 0 {
      DivUnique(UINT64_MODULUS, UINT64_MODULUS, 1, 0);
      DivUnique(0, m, 0, 0);
    } else {
      var a := UINT64_MODULUS - v;
      DivUnique(a, UINT64_MODULUS, 0, a);
      var q, r := a / m, a % m;
      assert a == m * q + r;
      assert r + v == m * (m - q);
      DivUnique(r + v, m, m - q, 0);
    }
  }

  /** The `%u` conversion applied to the start of `s`: the stored value, or
      None when no digits follow the white space and sign (then sscanf
      assigns nothing and returns 0 or EOF). A leading digit always starts
      a conversion; a leading character that is neither white space, a
      sign nor a digit never does. */
  function ScanU(s: string): (r: Option<nat>)
    ensures r.Some? ==> IsUint32(r.value)
    ensures |s| > 0 && IsDigit(s[0]) ==> r.Some?
    ensures s == [] || !(IsCSpace(s[0]) || s[0] == '+' || s[0] == '-' || IsDigit(s[0])) ==> r.None?
  {
    ScanSigned(s[LeadingSpaces(s)..])
  }

  /** `%u` once the white space is skipped: an optional sign, then digits. */
  function ScanSigned(t: string): Option<nat> {
    var signed := |t| > 0 && (t[0] == '+' || t[0] == '-');
    var negative := |t| > 0 && t[0] == '-';
    var u := if signed then t[1..] else t;
    var k := DigitRun(u);
    if k == 0 then None
    else Some(UnsignedFromDigits(DigitsValue(u[..k]), negative))
  }

  predicate AllSpaces(s: string) {
    forall i :: 0 <= i < |s| ==> IsCSpace(s[i])
  }

  /** The optional sign strtoul accepts. */
  predicate IsSign(sign: string) {
    sign == "" || sign == "+" || sign == "-"
  }

  /** The white space skipped ends where the first other character begins. */
  lemma {:induction false} LeadingSpacesOfConcat(w: string, t: string)
    requires AllSpaces(w)
    requires t == [] || !IsCSpace(t[0])
    ensures LeadingSpaces(w + t) == |w|
  {
    if w != [] {
      assert (w + t)[1..] == w[1..] + t;
      LeadingSpacesOfConcat(w[1..], t);
    }
  }

  /** `%u` skips the leading white space and scans what follows it. */
  lemma SkipSpaces(spaces: string, t: string)
    requires AllSpaces(spaces)
    requires t == [] || !IsCSpace(t[0])
    ensures ScanU(spaces + t) == ScanSigned(t)
  {
    LeadingSpacesOfConcat(spaces, t);
    assert (spaces + t)[|spaces|..] == t;
  }

  /** Leading zeros do not change the value of a digit string. */
  lemma {:induction false} LeadingZeros(zeros: string, digits: string)
    requires forall i :: 0 <= i < |zeros| ==> zeros[i] == '0'
    requires AllDigits(digits)
    ensures AllDigits(zeros + digits)
    ensures DigitsValue(zeros + digits) == DigitsValue(digits)
  {
    var s := zeros + digits;
    if digits == [] {
      assert s == zeros;
      if zeros != [] {
        assert zeros[..|zeros| - 1] + [] == zeros[..|zeros| - 1];
        LeadingZeros(zeros[..|zeros| - 1], []);
      }
    } else {
      var front := digits[..|digits| - 1];
      assert s[..|s| - 1] == zeros + front;
      LeadingZeros(zeros, front);
    }
  }

  /** `%u` on white space, an optional sign and a run of digits: the value
      strtoul makes of the digits, with the sign, stored as an `unsigned
      int`; the run ends at the first non-digit. */
  lemma {:induction false} ScanNumber(spaces: string, sign: string, digits: string, tail: string)
    requires AllSpaces(spaces) && IsSign(sign)
    requires |digits| > 0 && AllDigits(digits)
    requires tail == [] || !IsDigit(tail[0])
    ensures ScanU(spaces + sign + digits + tail) == Some(UnsignedFromDigits(DigitsValue(digits), sign == "-"))
  {
    var t := sign + (digits + tail);
    assert spaces + sign + digits + tail == spaces + t;
    assert t[0] == if sign == "" then digits[0] else sign[0];
    SkipSpaces(spaces, t);
    ScanSignedNumber(sign, digits, tail);
  }

  lemma ScanSignedNumber(sign: string, digits: string, tail: string)
    requires IsSign(sign)
    requires |digits| > 0 && AllDigits(digits)
    requires tail == [] || !IsDigit(tail[0])
    ensures ScanSigned(sign + (digits + tail)) == Some(UnsignedFromDigits(DigitsValue(digits), sign == "-"))
  {
    var u := digits + tail;
    DigitRunOfConcat(digits, tail);
    assert u[..|digits|] == digits;
    var t := sign + u;
    if sign == "" {
      assert t == u;
    } else if sign == "+" {
      assert t[0] == '+' && t[1..] == u;
    } else {
      assert t[0] == '-' && t[1..] == u;
    }
  }

  /** `%u` converts nothing when no digit follows the white space and the
      optional sign. */
  lemma {:induction false} ScanNoNumber(spaces: string, sign: string, rest: string)
    requires AllSpaces(spaces) && IsSign(sign)
    requires rest == [] || !IsDigit(rest[0])
    requires sign == "" && rest != [] ==> !(IsCSpace(rest[0]) || rest[0] == '+' || rest[0] == '-')
    ensures ScanU(spaces + sign + rest) == None
  {
    var t := sign + rest;
    assert spaces + sign + rest == spaces + t;
    SkipSpaces(spaces, t);
    if sign != "" {
      assert t[1..] == rest;
    } else {
      assert t == rest;
    }
  }

  /** Round trip: the decimal rendering of any `unsigned int`, followed by
      anything that does not continue the digit run, is read back as that
      number. */
  lemma {:induction false} ScanDecimal(k: nat, tail: string)
    requires IsUint32(k)
    requires tail == [] || !IsDigit(tail[0])
    ensures ScanU(Decimal(k) + tail) == Some(k)
  {
    var s := Decimal(k) + tail;
    assert !IsCSpace(s[0]) && s[0] != '+' && s[0] != '-';
    assert LeadingSpaces(s) == 0;
    assert s[0..] == s;
    DigitRunOfConcat(Decimal(k), tail);
    assert s[..|Decimal(k)|] == Decimal(k);
    DecimalRoundTrip(k);
  }
}

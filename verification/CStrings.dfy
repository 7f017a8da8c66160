/** NUL-terminated strings and the two library functions the device parser calls on them:
    strncmp against a literal, and strtol as section 7.22.1.4 of ISO/IEC 9899:2011 defines it. */
module CStrings {

  const NUL: char := '\0'
  const LONG_MAX: int := 0x7fff_ffff_ffff_ffff
  const LONG_MIN: int := -LONG_MAX - 1

  /** The characters before the terminator. */
  type CString = s: string | forall i :: 0 <= i < |s| ==> s[i] != NUL

  /** Reading through a pointer; the terminator may be read, nothing after it. */
  function At(s: CString, p: nat): char
    requires p <= |s|
  {
    if p < |s| then s[p] else NUL
  }

  /** strncmp(s + p, literal, length of literal) == 0, comparing character by character from `k`;
      a mismatch, in particular at the terminator, ends the comparison. */
  predicate StrncmpIsZero(s: CString, p: nat, literal: CString, k: nat)
    requires k <= |literal| && p + k <= |s|
    decreases |literal| - k
  {
    k == |literal| || (At(s, p + k) == literal[k] && StrncmpIsZero(s, p, literal, k + 1))
  }

  lemma {:induction false} StrncmpIsPrefix(s: CString, p: nat, literal: CString, k: nat)
    requires k <= |literal| && p + k <= |s|
    ensures StrncmpIsZero(s, p, literal, k) <==> literal[k..] <= s[p + k..]
    decreases |literal| - k
  {
    if k < |literal| && p + k < |s| {
      StrncmpIsPrefix(s, p, literal, k + 1);
      assert literal[k..] == [literal[k]] + literal[k + 1..];
      assert s[p + k..] == [s[p + k]] + s[p + k + 1..];
    }
  }

  // ----- Decimal numerals -----

  predicate IsSpace(c: char) {
    c == ' ' || c == '\t' || c == '\n' || c == '\U{0B}' || c == '\U{0C}' || c == '\r'
  }

  predicate IsDigit(c: char) {
    '0' <= c <= '9'
  }

  /** The classes by character code, as in the "C" locale. */
  lemma CharacterClasses(c: char)
    ensures IsSpace(c) <==> c as int == 32 || 9 <= c as int <= 13
    ensures IsDigit(c) <==> 48 <= c as int <= 57
  {}

  predicate AllSpaces(s: string) {
    forall i :: 0 <= i < |s| ==> IsSpace(s[i])
  }

  predicate AllDigits(s: string) {
    forall i :: 0 <= i < |s| ==> IsDigit(s[i])
  }

  /** The number a string of digits denotes. */
  function Decimal(digits: string): nat
    requires AllDigits(digits)
  {
    if digits == [] then 0
    else
      var n := |digits| - 1;
      Decimal(digits[..n]) * 10 + (digits[n] as int - '0' as int)
  }

  function ToDecimal(n: nat): string {
    var last := [('0' as int + n % 10) as char];
    if n < 10 then last else ToDecimal(n / 10) + last
  }

  lemma {:induction false} DecimalRoundTrip(n: nat)
    ensures AllDigits(ToDecimal(n)) && ToDecimal(n) != []
    ensures Decimal(ToDecimal(n)) == n
  {
    var last := [('0' as int + n % 10) as char];
    if n < 10 {
      assert last[..0] == [];
    } else {
      DecimalRoundTrip(n / 10);
      var front := ToDecimal(n / 10);
      assert (front + last)[..|front|] == front;
    }
  }

  function Signed(negative: bool, magnitude: nat): int {
    if negative then -(magnitude as int) else magnitude
  }

  /** The subject sequence of strtol: white space, an optional sign and at least one digit. */
  datatype Numeral = Numeral(spaces: string, sign: string, digits: string) {
    predicate Valid() {
      AllSpaces(spaces) && (sign == "" || sign == "+" || sign == "-") && digits != "" && AllDigits(digits)
    }

    function Text(): string {
      spaces + sign + digits
    }

    function Value(): int
      requires Valid()
    {
      Signed(sign == "-", Decimal(digits))
    }
  }

  // ----- strtol -----

  function SkipSpaces(s: CString, p: nat): (q: nat)
    requires p <= |s|
    ensures p <= q <= |s| && AllSpaces(s[p..q]) && !IsSpace(At(s, q))
    decreases |s| - p
  {
    if IsSpace(At(s, p)) then SkipSpaces(s, p + 1) else p
  }

  function SkipDigits(s: CString, p: nat): (q: nat)
    requires p <= |s|
    ensures p <= q <= |s| && AllDigits(s[p..q]) && !IsDigit(At(s, q))
    decreases |s| - p
  {
    if IsDigit(At(s, p)) then SkipDigits(s, p + 1) else p
  }

  function Saturate(v: int): int {
    if v > LONG_MAX then LONG_MAX else if v < LONG_MIN then LONG_MIN else v
  }

  /** The value strtol returns and the pointer it stores through its second argument. */
  datatype LongAndEnd = LongAndEnd(value: int, end: nat)

  /** strtol(s + p, &end, 10). Without a digit it converts nothing and points back at p. */
  function Strtol(s: CString, p: nat): (r: LongAndEnd)
    requires p <= |s|
    ensures p <= r.end <= |s| && LONG_MIN <= r.value <= LONG_MAX
  {
    var i := SkipSpaces(s, p);
    var negative := At(s, i) == '-';
    var j := if negative || At(s, i) == '+' then i + 1 else i;
    var k := SkipDigits(s, j);
    if k == j then LongAndEnd(0, p)
    else LongAndEnd(Saturate(Signed(negative, Decimal(s[j..k]))), k)
  }

  /** A result other than zero comes from a numeral that starts at p, ends at the end pointer and
      is not followed by another digit. */
  lemma StrtolReadsNumeral(s: CString, p: nat) returns (n: Numeral)
    requires p <= |s| && Strtol(s, p).value != 0
    ensures n.Valid() && s[p..Strtol(s, p).end] == n.Text()
    ensures Strtol(s, p).value == Saturate(n.Value()) && !IsDigit(At(s, Strtol(s, p).end))
  {
    hide SkipSpaces, SkipDigits, AllSpaces, AllDigits, IsDigit, IsSpace, Decimal, Saturate;
    var i := SkipSpaces(s, p);
    var j := if At(s, i) == '-' || At(s, i) == '+' then i + 1 else i;
    var k := SkipDigits(s, j);
    n := Numeral(s[p..i], s[i..j], s[j..k]);
    assert s[i..j] == if j == i then "" else [At(s, i)];
    JoinedSlices(s, p, i, j, k);
  }

  lemma JoinedSlices(s: string, p: nat, i: nat, j: nat, k: nat)
    requires p <= i <= j <= k <= |s|
    ensures s[p..k] == s[p..i] + s[i..j] + s[j..k]
  {}

  lemma {:induction false} SkipSpacesStops(s: CString, p: nat, q: nat)
    requires p <= q <= |s| && AllSpaces(s[p..q]) && !IsSpace(At(s, q))
    ensures SkipSpaces(s, p) == q
    decreases q - p
  {
    if p < q {
      assert s[p] == s[p..q][0];
      assert s[p + 1..q] == s[p..q][1..];
      SkipSpacesStops(s, p + 1, q);
    }
  }

  lemma {:induction false} SkipDigitsStops(s: CString, p: nat, q: nat)
    requires p <= q <= |s| && AllDigits(s[p..q]) && !IsDigit(At(s, q))
    ensures SkipDigits(s, p) == q
    decreases q - p
  {
    if p < q {
      assert s[p] == s[p..q][0];
      assert s[p + 1..q] == s[p..q][1..];
      SkipDigitsStops(s, p + 1, q);
    }
  }

  /** Every numeral that is not followed by a digit is read whole, and saturated. */
  lemma StrtolReadsAll(s: CString, p: nat, n: Numeral)
    requires n.Valid() && p + |n.Text()| <= |s| && s[p..p + |n.Text()|] == n.Text()
    requires !IsDigit(At(s, p + |n.Text()|))
    ensures Strtol(s, p) == LongAndEnd(Saturate(n.Value()), p + |n.Text()|)
    ensures n.Value() > 0x7fff_ffff_ffff_ffff ==> Strtol(s, p).value == 0x7fff_ffff_ffff_ffff
    ensures n.Value() < -0x8000_0000_0000_0000 ==> Strtol(s, p).value == -0x8000_0000_0000_0000
    ensures -0x8000_0000_0000_0000 <= n.Value() <= 0x7fff_ffff_ffff_ffff ==> Strtol(s, p).value == n.Value()
  {
    hide Strtol, Decimal, AllSpaces, AllDigits;
    var i := p + |n.spaces|;
    var j := i + |n.sign|;
    var k := j + |n.digits|;
    Pieces(s[p..k], n.spaces, n.sign, n.digits);
    SliceOfSlice(s, p, k, 0, |n.spaces|);
    SliceOfSlice(s, p, k, |n.spaces|, |n.spaces| + |n.sign|);
    SliceOfSlice(s, p, k, |n.spaces| + |n.sign|, k - p);
    StrtolOfPieces(s, p, i, j, k, n);
  }

  lemma SliceOfSlice(s: string, p: nat, k: nat, a: nat, b: nat)
    requires p <= k <= |s| && a <= b <= k - p
    ensures s[p..k][a..b] == s[p + a..p + b]
  {
    var u, v := s[p..k][a..b], s[p + a..p + b];
    assert |u| == |v| && forall i :: 0 <= i < |u| ==> u[i] == v[i];
  }

  lemma Pieces(u: string, a: string, b: string, c: string)
    requires u == a + b + c
    ensures u[..|a|] == a && u[|a|..|a| + |b|] == b && u[|a| + |b|..] == c
  {}

  lemma StrtolOfPieces(s: CString, p: nat, i: nat, j: nat, k: nat, n: Numeral)
    requires p <= i <= j <= k <= |s| && n.Valid()
    requires s[p..i] == n.spaces && s[i..j] == n.sign && s[j..k] == n.digits && !IsDigit(At(s, k))
    ensures Strtol(s, p) == LongAndEnd(Saturate(n.Value()), k)
  {
    assert s[j] == n.digits[0];
    if n.sign != "" {
      assert s[i] == n.sign[0];
    }
    SkipSpacesStops(s, p, i);
    SkipDigitsStops(s, j, k);
  }
}

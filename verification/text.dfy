/** String helpers shared by the rule tables, the normaliser and the path
    model: ASCII lower-casing, the "lower-case with a leading dot" extension
    form, and decimal rendering of counters. */
module Text {

  predicate IsUpper(c: char) {
    'A' <= c <= 'Z'
  }

  function LowerChar(c: char): char {
    if IsUpper(c) then (c as int + 32) as char else c
  }

  /** `str.lower()` restricted to ASCII letters. */
  function Lower(s: string): (r: string)
    ensures |r| == |s|
    ensures forall i :: 0 <= i < |s| ==> r[i] == LowerChar(s[i])
    ensures IsLower(r)
    ensures IsLower(s) ==> r == s
  {
    seq(|s|, i requires 0 <= i < |s| => LowerChar(s[i]))
  }

  /** A string with no upper-case letter. */
  predicate IsLower(s: string) {
    forall i :: 0 <= i < |s| ==> !IsUpper(s[i])
  }

  lemma LowerIsLower(s: string)
    ensures IsLower(Lower(s))
  {
  }

  /** Lower-casing leaves a string that is already lower-case unchanged. */
  lemma LowerOfLower(s: string)
    requires IsLower(s)
    ensures Lower(s) == s
  {
  }

  predicate StartsWithDot(s: string) {
    |s| > 0 && s[0] == '.'
  }

  /** A normalised extension: lower-case and starting with a dot. */
  predicate IsDotted(s: string) {
    StartsWithDot(s) && IsLower(s)
  }

  /** Lower-case `s` and prepend a `.` unless it already starts with one:
      the key normalisation of both rule managers and the value
      normalisation `rule_mg` of the configuration normaliser. */
  function Dotted(s: string): (r: string)
    ensures IsDotted(r)
    ensures r == Lower(s) || r == "." + Lower(s)
  {
    var l := Lower(s);
    if StartsWithDot(l) then l else "." + l
  }

  /** The normalised strings are exactly the fixed points of `Dotted`. */
  lemma DottedFixedPoints(s: string)
    ensures Dotted(s) == s <==> IsDotted(s)
  {
    if IsDotted(s) {
      LowerOfLower(s);
    }
  }

  /** Normalising twice is normalising once. */
  lemma DottedIdempotent(s: string)
    ensures Dotted(Dotted(s)) == Dotted(s)
  {
    DottedFixedPoints(Dotted(s));
  }

  /** Two strings that differ only in letter case normalise alike. */
  lemma DottedIgnoresCase(s: string)
    ensures Dotted(Lower(s)) == Dotted(s)
  {
    LowerIsLower(s);
    LowerOfLower(Lower(s));
  }

  // ---- decimal rendering of the collision counter ------------------------

  predicate IsDigit(c: char) {
    '0' <= c <= '9'
  }

  predicate AllDigits(s: string) {
    forall i :: 0 <= i < |s| ==> IsDigit(s[i])
  }

  function DigitChar(d: nat): (c: char)
    requires d < 10
    ensures IsDigit(c)
  {
    ('0' as int + d) as char
  }

  function DigitValue(c: char): (d: nat)
    requires IsDigit(c)
    ensures d < 10
  {
    c as int - '0' as int
  }

  /** `str(n)` for a natural number: its decimal digits, no leading zero. */
  function NatToString(n: nat): (r: string)
    ensures |r| >= 1 && AllDigits(r)
    decreases n
  {
    if n < 10 then [DigitChar(n)] else NatToString(n / 10) + [DigitChar(n % 10)]
  }

  /** The value of a string of decimal digits. */
  function ParseNat(s: string): nat
    requires AllDigits(s)
  {
    if s == [] then 0 else ParseNat(s[..|s| - 1]) * 10 + DigitValue(s[|s| - 1])
  }

  /** Reading back the rendered digits gives the number: rendering is injective. */
  lemma {:induction false} ParseNatToString(n: nat)
    ensures ParseNat(NatToString(n)) == n
    decreases n
  {
    if n >= 10 {
      var s := NatToString(n);
      assert s[..|s| - 1] == NatToString(n / 10);
      ParseNatToString(n / 10);
    }
  }

  lemma NatToStringInjective(a: nat, b: nat)
    requires NatToString(a) == NatToString(b)
    ensures a == b
  {
    ParseNatToString(a);
    ParseNatToString(b);
  }
}

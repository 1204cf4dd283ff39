/**
 * The parts of java.lang.String and java.lang.Integer that the gateway relies on,
 * with Java's semantics: `startsWith`, `indexOf`, `trim`, `toLowerCase` (ASCII letters
 * only), `Integer.parseInt` and the decimal rendering of an `int` in string concatenation.
 */
module JavaText {
  import opened Wrappers

  /** Concatenation regroups: what Java's `s += a + b` appends is `a + b` as a whole. */
  lemma ConcatAssoc(a: string, b: string, c: string)
    ensures a + b + c == a + (b + c)
  {
  }

  /** The same regrouping over four parts */
  lemma AppendAssoc(a: string, b: string, c: string, d: string)
    ensures a + b + c + d == a + (b + c + d)
  {
  }

  /** `s.startsWith(p)` */
  predicate StartsWith(s: string, p: string) {
    |p| <= |s| && s[..|p|] == p
  }

  /** `s.endsWith(p)` */
  predicate EndsWith(s: string, p: string) {
    |p| <= |s| && s[|s| - |p|..] == p
  }

  /** A concatenation starts with its first part. */
  lemma StartsWithConcat(p: string, t: string)
    ensures StartsWith(p + t, p)
  {
    assert (p + t)[..|p|] == p;
  }

  /** Appending keeps a prefix. */
  lemma StartsWithExtend(s: string, p: string, t: string)
    requires StartsWith(s, p)
    ensures StartsWith(s + t, p)
  {
    assert (s + t)[..|p|] == s[..|p|];
  }

  /** A concatenation ends with its last part. */
  lemma EndsWithConcat(s: string, t: string)
    ensures EndsWith(s + t, t)
  {
    assert (s + t)[|s|..] == t;
  }

  /** `pat` occurs in `s` starting at index `i` */
  predicate OccursAt(s: string, pat: string, i: int) {
    0 <= i && i + |pat| <= |s| && s[i..i + |pat|] == pat
  }

  /** `s.indexOf(pat, from)`: the first occurrence at or after `from`, or -1 */
  function IndexFrom(s: string, pat: string, from: nat): (r: int)
    requires from <= |s|
    ensures r == -1 || (from <= r && r + |pat| <= |s|)
    decreases |s| - from
  {
    if OccursAt(s, pat, from) then from
    else if from == |s| then -1
    else IndexFrom(s, pat, from + 1)
  }

  /** `s.indexOf(pat)`: the index of the first occurrence of `pat` in `s`, or -1 if there is none */
  function IndexOf(s: string, pat: string): (r: int)
    ensures r == -1 || (0 <= r && r + |pat| <= |s|)
  {
    IndexFrom(s, pat, 0)
  }

  /** `indexOf(pat, from)` finds an occurrence, and none lies between `from` and it */
  lemma {:induction false} IndexFromIsFirst(s: string, pat: string, from: nat)
    requires from <= |s|
    ensures IndexFrom(s, pat, from) != -1 ==> OccursAt(s, pat, IndexFrom(s, pat, from))
    ensures forall j :: from <= j && (IndexFrom(s, pat, from) == -1 || j < IndexFrom(s, pat, from)) ==> !OccursAt(s, pat, j)
    decreases |s| - from
  {
    if !OccursAt(s, pat, from) && from < |s| {
      IndexFromIsFirst(s, pat, from + 1);
    }
  }

  /** `indexOf` is -1 exactly when `pat` does not occur, and otherwise its first occurrence. */
  lemma IndexOfIsFirst(s: string, pat: string)
    ensures IndexOf(s, pat) == -1 <==> forall j :: !OccursAt(s, pat, j)
    ensures IndexOf(s, pat) != -1 ==>
              OccursAt(s, pat, IndexOf(s, pat)) && forall j :: 0 <= j < IndexOf(s, pat) ==> !OccursAt(s, pat, j)
  {
    IndexFromIsFirst(s, pat, 0);
  }

  /** The index of a character is where it first occurs, if nothing before it is that character. */
  lemma IndexOfFirstChar(a: string, c: char, b: string)
    requires c !in a
    ensures IndexOf(a + [c] + b, [c]) == |a|
  {
    var s := a + [c] + b;
    IndexOfIsFirst(s, [c]);
    assert OccursAt(s, [c], |a|);
    forall j | 0 <= j < |a| ensures !OccursAt(s, [c], j) {
      assert s[j] == a[j];
    }
  }

  /** The characters `String.trim` removes: every code point up to U+0020 */
  predicate IsTrimmed(c: char) {
    c <= ' '
  }

  /** The number of characters `trim` removes from the front of `s` */
  function LeadingTrimmed(s: string): (n: nat)
    ensures n <= |s|
  {
    if s == [] || !IsTrimmed(s[0]) then 0 else 1 + LeadingTrimmed(s[1..])
  }

  /** The number of characters `trim` removes from the back of `s` */
  function TrailingTrimmed(s: string): (n: nat)
    ensures n <= |s|
  {
    if s == [] || !IsTrimmed(s[|s| - 1]) then 0 else 1 + TrailingTrimmed(s[..|s| - 1])
  }

  /** `s.trim()`: `s` without its leading and trailing characters up to U+0020 */
  function Trim(s: string): (r: string)
    ensures |r| <= |s|
    ensures r != "" ==> !IsTrimmed(r[0]) && !IsTrimmed(r[|r| - 1])
  {
    var lo, hi := LeadingTrimmed(s), |s| - TrailingTrimmed(s);
    if hi <= lo then ""
    else
      LeadingTrimmedIsMaximal(s);
      TrailingTrimmedIsMaximal(s);
      s[lo..hi]
  }

  /** The characters counted by `LeadingTrimmed` are trimmable, and the next one is not. */
  lemma {:induction false} LeadingTrimmedIsMaximal(s: string)
    ensures forall i :: 0 <= i < LeadingTrimmed(s) ==> IsTrimmed(s[i])
    ensures LeadingTrimmed(s) < |s| ==> !IsTrimmed(s[LeadingTrimmed(s)])
  {
    if s != [] && IsTrimmed(s[0]) {
      LeadingTrimmedIsMaximal(s[1..]);
    }
  }

  /** The characters counted by `TrailingTrimmed` are trimmable, and the one before them is not. */
  lemma {:induction false} TrailingTrimmedIsMaximal(s: string)
    ensures forall i :: |s| - TrailingTrimmed(s) <= i < |s| ==> IsTrimmed(s[i])
    ensures TrailingTrimmed(s) < |s| ==> !IsTrimmed(s[|s| - 1 - TrailingTrimmed(s)])
  {
    if s != [] && IsTrimmed(s[|s| - 1]) {
      TrailingTrimmedIsMaximal(s[..|s| - 1]);
    }
  }

  /** When the trimmed runs at both ends meet, the leading run is all of `s`. */
  lemma TrimmedRunsMeet(s: string)
    requires |s| - TrailingTrimmed(s) <= LeadingTrimmed(s)
    ensures LeadingTrimmed(s) == |s|
  {
    LeadingTrimmedIsMaximal(s);
    TrailingTrimmedIsMaximal(s);
  }

  /** `trim` keeps `s` between its two trimmed runs, which meet when nothing is kept. */
  lemma TrimSlice(s: string)
    ensures var lo, hi := LeadingTrimmed(s), |s| - TrailingTrimmed(s);
            if hi <= lo then Trim(s) == "" && lo == |s| else Trim(s) == s[lo..hi]
  {
    if |s| - TrailingTrimmed(s) <= LeadingTrimmed(s) {
      TrimmedRunsMeet(s);
    }
  }

  /**
   * `trim` yields "" exactly for an all-whitespace string; otherwise a contiguous part of
   * `s` that neither starts nor ends with a trimmable character, with only trimmable
   * characters around it.
   */
  lemma TrimIsMaximal(s: string)
    ensures Trim(s) == "" <==> forall i :: 0 <= i < |s| ==> IsTrimmed(s[i])
    ensures Trim(s) != "" ==> !IsTrimmed(Trim(s)[0]) && !IsTrimmed(Trim(s)[|Trim(s)| - 1])
    ensures var lo := LeadingTrimmed(s);
            lo + |Trim(s)| <= |s| && Trim(s) == s[lo..lo + |Trim(s)|] &&
            (forall i :: 0 <= i < lo ==> IsTrimmed(s[i])) &&
            forall i :: lo + |Trim(s)| <= i < |s| ==> IsTrimmed(s[i])
  {
    var lo, hi := LeadingTrimmed(s), |s| - TrailingTrimmed(s);
    var t := Trim(s);
    TrimSlice(s);
    LeadingTrimmedIsMaximal(s);
    TrailingTrimmedIsMaximal(s);
    if lo < hi {
      assert t[0] == s[lo] && t[|t| - 1] == s[hi - 1];
      assert lo + |t| == hi;
    }
  }

  /** `Character.toLowerCase` restricted to ASCII letters */
  function LowerChar(c: char): char {
    if 'A' <= c <= 'Z' then (c as int + ('a' as int - 'A' as int)) as char else c
  }

  /** `s.toLowerCase()`, on ASCII letters */
  function ToLowerCase(s: string): (r: string)
    ensures |r| == |s|
  {
    if s == [] then [] else [LowerChar(s[0])] + ToLowerCase(s[1..])
  }

  /** `toLowerCase` maps every character on its own and leaves no upper-case ASCII letter. */
  lemma {:induction false} ToLowerCaseMapsEachChar(s: string)
    ensures forall i :: 0 <= i < |s| ==> ToLowerCase(s)[i] == LowerChar(s[i])
    ensures forall i :: 0 <= i < |s| ==> !('A' <= ToLowerCase(s)[i] <= 'Z')
  {
    if s != [] {
      ToLowerCaseMapsEachChar(s[1..]);
      assert ToLowerCase(s) == [LowerChar(s[0])] + ToLowerCase(s[1..]);
    }
  }

  /** Lower-casing twice is lower-casing once, so the alias keys, stored lower-cased, are fixed points. */
  lemma ToLowerCaseIdempotent(s: string)
    ensures ToLowerCase(ToLowerCase(s)) == ToLowerCase(s)
  {
    var once := ToLowerCase(s);
    var twice := ToLowerCase(once);
    ToLowerCaseMapsEachChar(s);
    ToLowerCaseMapsEachChar(once);
    assert forall i :: 0 <= i < |s| ==> twice[i] == LowerChar(once[i]) == once[i];
  }

  // Decimal numbers

  predicate IsDigit(c: char) {
    '0' <= c <= '9'
  }

  predicate AllDigits(s: string) {
    forall i :: 0 <= i < |s| ==> IsDigit(s[i])
  }

  function DigitChar(d: int): (c: char)
    requires 0 <= d < 10
    ensures IsDigit(c)
  {
    ('0' as int + d) as char
  }

  function DigitValue(c: char): (d: nat)
    requires IsDigit(c)
    ensures d < 10 && DigitChar(d) == c
  {
    c as int - '0' as int
  }

  /** The value of a decimal digit string, most significant digit first */
  function DigitsValue(s: string): nat
    requires AllDigits(s)
  {
    if s == [] then 0 else DigitsValue(s[..|s| - 1]) * 10 + DigitValue(s[|s| - 1])
  }

  /** The decimal digits of `n`, with no leading zero */
  function NatToString(n: nat): (s: string)
    ensures s != [] && AllDigits(s)
    ensures s[0] != '0' || n == 0
  {
    if n < 10 then [DigitChar(n)] else NatToString(n / 10) + [DigitChar(n % 10)]
  }

  /** How Java renders an `int` in a string concatenation */
  function IntToString(n: int): (s: string)
    ensures s != []
  {
    if n < 0 then "-" + NatToString(-n) else NatToString(n)
  }

  const INT_MIN: int := -0x8000_0000
  const INT_MAX: int := 0x7fff_ffff

  /** The range of Java's 32-bit `int` */
  predicate IsInt32(n: int) {
    INT_MIN <= n <= INT_MAX
  }

  /** The value of a signed digit string if it fits in an `int` */
  function SignedValue(negative: bool, digits: string): (r: Option<int>)
    requires AllDigits(digits)
    ensures r.Some? ==> IsInt32(r.value)
  {
    var v: int := if negative then 0 - DigitsValue(digits) as int else DigitsValue(digits);
    if IsInt32(v) then Some(v) else None
  }

  /** The digits after an optional leading `-` or `+` */
  function Unsigned(t: string): string
    requires t != []
  {
    if t[0] == '-' || t[0] == '+' then t[1..] else t
  }

  /** An optional sign followed by at least one ASCII digit */
  predicate Numeral(t: string) {
    t != [] && Unsigned(t) != [] && AllDigits(Unsigned(t))
  }

  /** The value a numeral denotes, negated after a `-` */
  function NumeralValue(t: string): int
    requires Numeral(t)
  {
    if t[0] == '-' then 0 - DigitsValue(Unsigned(t)) else DigitsValue(Unsigned(t))
  }

  /**
   * `Integer.parseInt(s)`: None stands for the NumberFormatException it throws on a null
   * string, an empty string, a lone sign, a non-digit, or a value outside the `int` range.
   */
  function ParseInt(s: Option<string>): (r: Option<int>)
    ensures r.Some? ==> IsInt32(r.value)
    ensures r.Some? ==> s.Some? && s.value != []
    ensures r.Some? <==> s.Some? && s.value != [] && Numeral(s.value) && IsInt32(NumeralValue(s.value))
    ensures r.Some? ==> r.value == NumeralValue(s.value)
  {
    match s
    case None => None
    case Some(t) =>
      if t == [] then None
      else if t[0] == '-' || t[0] == '+' then
        if |t| > 1 && AllDigits(t[1..]) then SignedValue(t[0] == '-', t[1..]) else None
      else if AllDigits(t) then SignedValue(false, t)
      else None
  }

  lemma {:induction false} NatToStringValue(n: nat)
    ensures DigitsValue(NatToString(n)) == n
  {
    if n >= 10 {
      var s := NatToString(n);
      assert s[..|s| - 1] == NatToString(n / 10);
      NatToStringValue(n / 10);
    }
  }

  /** Reading back the decimal rendering of any `int` gives that `int`. */
  lemma ParseIntRoundTrip(n: int)
    requires IsInt32(n)
    ensures ParseInt(Some(IntToString(n))) == Some(n)
  {
    var s := IntToString(n);
    if n < 0 {
      assert s[1..] == NatToString(-n);
      NatToStringValue(-n);
    } else {
      NatToStringValue(n);
    }
  }
}

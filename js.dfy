/** JavaScript runtime behaviour the application relies on: optional values,
    string prefixes and suffixes, `String(n)`, `parseInt(s, 10)`,
    `String.prototype.replace` with a string pattern, and the string order
    used for sorting. */
module Js {

  datatype Option<T> = None | Some(value: T)

  /** The outcome of a form check: the value to submit, or the error shown. */
  datatype Checked<T> = Accepted(value: T) | Rejected(message: string)

  predicate StartsWith(s: string, prefix: string) {
    |prefix| <= |s| && s[..|prefix|] == prefix
  }

  /** `s.endsWith(suffix)` */
  predicate EndsWith(s: string, suffix: string) {
    |suffix| <= |s| && s[|s| - |suffix|..] == suffix
  }

  lemma EndsWithConcat(s: string, t: string)
    ensures EndsWith(s + t, t)
  {
    assert (s + t)[|s + t| - |t|..] == t;
  }

  // ---------------------------------------------------------------------------
  // String order. `localeCompare` and the default `Array.prototype.sort` order
  // are both modelled by lexicographic comparison of characters.

  /** Negative, zero or positive as `a` sorts before, equal to or after `b`. */
  function CompareStrings(a: string, b: string): (r: int)
    ensures -1 <= r <= 1
    ensures r == 0 <==> a == b
  {
    if a == [] && b == [] then 0
    else if a == [] then -1
    else if b == [] then 1
    else if a[0] < b[0] then -1
    else if a[0] > b[0] then 1
    else
      var r := CompareStrings(a[1..], b[1..]);
      assert a == [a[0]] + a[1..] && b == [b[0]] + b[1..];
      r
  }

  lemma {:induction false} CompareStringsAntisymmetric(a: string, b: string)
    ensures CompareStrings(a, b) == -CompareStrings(b, a)
  {
    if a != [] && b != [] && a[0] == b[0] {
      CompareStringsAntisymmetric(a[1..], b[1..]);
    }
  }

  lemma {:induction false} CompareStringsTransitive(a: string, b: string, c: string)
    requires CompareStrings(a, b) <= 0 && CompareStrings(b, c) <= 0
    ensures CompareStrings(a, c) <= 0
  {
    if a != [] && b != [] && c != [] && a[0] == b[0] && b[0] == c[0] {
      CompareStringsTransitive(a[1..], b[1..], c[1..]);
    }
  }

  /** The strict order of `CompareStrings` is transitive too. */
  lemma CompareStringsStrictTransitive(a: string, b: string, c: string)
    requires CompareStrings(a, b) < 0 && CompareStrings(b, c) <= 0
    ensures CompareStrings(a, c) < 0
  {
    CompareStringsTransitive(a, b, c);
    if CompareStrings(a, c) == 0 {
      assert a == c;
      CompareStringsAntisymmetric(b, c);
    }
  }

  // ---------------------------------------------------------------------------
  // `String(n)`: decimal rendering of an integer (as `n.toString()` does).

  predicate IsDigit(c: char) {
    '0' <= c <= '9'
  }

  function DigitChar(d: nat): (c: char)
    requires d < 10
    ensures IsDigit(c) && DigitValue(c) == d
  {
    (('0' as int) + d) as char
  }

  function DigitValue(c: char): nat
    requires IsDigit(c)
  {
    (c as int) - ('0' as int)
  }

  predicate AllDigits(s: string) {
    forall i :: 0 <= i < |s| ==> IsDigit(s[i])
  }

  function NatToString(n: nat): (s: string)
    ensures |s| > 0 && AllDigits(s)
    decreases n
  {
    if n < 10 then [DigitChar(n)] else NatToString(n / 10) + [DigitChar(n % 10)]
  }

  /** `String(i)`: a minus sign exactly for a negative integer, then its
      digits. */
  function IntToString(i: int): (s: string)
    ensures |s| > 0 && (s[0] == '-' <==> i < 0)
    ensures i >= 0 ==> AllDigits(s)
    ensures i < 0 ==> |s| > 1 && AllDigits(s[1..])
  {
    if i < 0 then "-" + NatToString(-i) else NatToString(i)
  }

  // ---------------------------------------------------------------------------
  // `parseInt(s, 10)`: skip leading white space, read one optional sign and the
  // longest run of decimal digits; without any digit the result is NaN (None).

  /** JavaScript's white space and line terminators: tab, vertical tab, form
      feed, the byte order mark, every space separator (category Zs), line
      feed, carriage return and the line and paragraph separators. */
  predicate IsWhiteSpace(c: char) {
    || c == '\t' || c == '\U{000B}' || c == '\U{000C}' || c == '\U{FEFF}'
    || c == ' ' || c == '\U{00A0}' || c == '\U{1680}' || ('\U{2000}' <= c <= '\U{200A}')
    || c == '\U{202F}' || c == '\U{205F}' || c == '\U{3000}'
    || c == '\n' || c == '\r' || c == '\U{2028}' || c == '\U{2029}'
  }

  function SkipWhiteSpace(s: string): (r: string)
    ensures |r| <= |s| && r == s[|s| - |r|..]
    ensures r == [] || !IsWhiteSpace(r[0])
  {
    if s != [] && IsWhiteSpace(s[0]) then SkipWhiteSpace(s[1..]) else s
  }

  /** Length of the run of digits at the start of `s`. */
  function DigitRunLength(s: string): (n: nat)
    ensures n <= |s| && AllDigits(s[..n])
    ensures n < |s| ==> !IsDigit(s[n])
  {
    if s != [] && IsDigit(s[0]) then
      var n := 1 + DigitRunLength(s[1..]);
      assert forall i :: 1 <= i < n ==> s[..n][i] == s[1..][..n - 1][i - 1];
      n
    else 0
  }

  /** The value of a string of decimal digits, read most significant first. */
  function DigitsValue(ds: string): nat
    requires AllDigits(ds)
  {
    if ds == [] then 0 else DigitsValue(ds[..|ds| - 1]) * 10 + DigitValue(ds[|ds| - 1])
  }

  /** The leading digits of `s` read as a number, if there are any. */
  function ParseDigits(s: string): Option<int> {
    var n := DigitRunLength(s);
    if n == 0 then None else Some(DigitsValue(s[..n]))
  }

  function ParseInt(s: string): (r: Option<int>)
    ensures SkipWhiteSpace(s) == [] ==> r.None?
    ensures r.Some? && r.value < 0 ==> SkipWhiteSpace(s)[0] == '-'
  {
    var t := SkipWhiteSpace(s);
    if t != [] && t[0] == '-' then
      match ParseDigits(t[1..])
      case None => None
      case Some(v) => Some(-v)
    else if t != [] && t[0] == '+' then ParseDigits(t[1..])
    else ParseDigits(t)
  }

  lemma {:induction false} DigitsValueOfNatToString(n: nat)
    ensures DigitsValue(NatToString(n)) == n
    decreases n
  {
    if n >= 10 {
      DigitsValueOfNatToString(n / 10);
      var s := NatToString(n);
      assert s[..|s| - 1] == NatToString(n / 10);
    }
  }

  lemma {:induction false} DigitRunOfDigits(s: string)
    requires AllDigits(s)
    ensures DigitRunLength(s) == |s|
  {
    if s != [] {
      DigitRunOfDigits(s[1..]);
    }
  }

  lemma ParseDigitsOfNatToString(m: nat)
    ensures ParseDigits(NatToString(m)) == Some(m)
  {
    var digits := NatToString(m);
    DigitRunOfDigits(digits);
    DigitsValueOfNatToString(m);
    assert digits[..|digits|] == digits;
  }

  /** Every kind of leading white space is skipped, the ideographic space
      U+3000 included: `parseInt("\u30005", 10)` is 5. */
  lemma ParseIntSkipsIdeographicSpace()
    ensures ParseInt("\U{3000}5") == Some(5)
  {
    assert SkipWhiteSpace("\U{3000}5") == "5";
    DigitRunOfDigits("5");
    assert "5"[..1] == "5";
  }

  lemma SkipWhiteSpaceOfNonBlank(s: string)
    requires s != [] && !IsWhiteSpace(s[0])
    ensures SkipWhiteSpace(s) == s
  {
  }

  /** `parseInt(String(i), 10) === i`: rendering an integer and parsing it back
      gives the same integer. */
  lemma ParseIntOfIntToString(i: int)
    ensures ParseInt(IntToString(i)) == Some(i)
  {
    var m: nat := if i < 0 then -i else i;
    var digits := NatToString(m);
    ParseDigitsOfNatToString(m);
    var s := if i < 0 then "-" + digits else digits;
    assert s == IntToString(i);
    assert IsDigit(digits[0]);
    SkipWhiteSpaceOfNonBlank(s);
    if i < 0 {
      assert s[1..] == digits;
    }
  }

  /** The form checks' test: `parseInt(s, 10)` is a number and it is above
      zero. */
  predicate IsPositiveInt(s: string) {
    ParseInt(s).Some? && ParseInt(s).value > 0
  }

  lemma ParseIntOfEmpty()
    ensures ParseInt("") == None
  {
  }

  // ---------------------------------------------------------------------------
  // `s.replace(pattern, replacement)` with a string pattern: only the first
  // occurrence is replaced.

  predicate OccursAt(s: string, pattern: string, i: nat) {
    i + |pattern| <= |s| && s[i..i + |pattern|] == pattern
  }

  function IndexOf(s: string, pattern: string): (r: Option<nat>)
    ensures r.Some? ==> OccursAt(s, pattern, r.value)
    ensures r.Some? ==> forall j :: 0 <= j < r.value ==> !OccursAt(s, pattern, j)
    ensures r.None? ==> forall j :: 0 <= j <= |s| ==> !OccursAt(s, pattern, j)
    decreases |s|
  {
    if |pattern| > |s| then None
    else if s[..|pattern|] == pattern then Some(0)
    else
      match IndexOf(s[1..], pattern)
      case None =>
        assert forall j :: 1 <= j <= |s| ==> OccursAt(s, pattern, j) == OccursAt(s[1..], pattern, j - 1);
        None
      case Some(k) =>
        assert forall j :: 1 <= j <= |s| ==> OccursAt(s, pattern, j) == OccursAt(s[1..], pattern, j - 1);
        Some(k + 1)
  }

  /** `s` cut at the first `c`: the part before it and, when there is one,
      the part after it. */
  function SplitAt(s: string, c: char): (r: (string, Option<string>))
    ensures r.1.None? ==> r.0 == s && c !in s
    ensures r.1.Some? ==> s == r.0 + [c] + r.1.value && c !in r.0
  {
    if s == [] then ([], None)
    else if s[0] == c then
      assert s == [] + [c] + s[1..];
      ([], Some(s[1..]))
    else
      var rest := SplitAt(s[1..], c);
      assert s == [s[0]] + s[1..];
      ([s[0]] + rest.0, rest.1)
  }

  /** The cut falls at the first `c`, whatever follows it. */
  lemma {:induction false} SplitAtFirst(a: string, c: char, b: string)
    requires c !in a
    ensures SplitAt(a + [c] + b, c) == (a, Some(b))
  {
    if a != [] {
      assert a[0] != c && a == [a[0]] + a[1..];
      assert (a + [c] + b)[1..] == a[1..] + [c] + b;
      SplitAtFirst(a[1..], c, b);
    } else {
      assert a + [c] + b == [c] + b;
    }
  }

  /** `s.split(c)`: the pieces between the occurrences of `c`, in order. */
  function Split(s: string, c: char): (parts: seq<string>)
    ensures |parts| >= 1
    ensures forall i :: 0 <= i < |parts| ==> c !in parts[i]
    decreases |s|
  {
    var (head, rest) := SplitAt(s, c);
    if rest.None? then [head] else [head] + Split(rest.value, c)
  }

  /** The pieces joined again with `c` between them. */
  function Join(parts: seq<string>, c: char): string
    requires |parts| >= 1
  {
    if |parts| == 1 then parts[0] else parts[0] + [c] + Join(parts[1..], c)
  }

  /** Splitting loses nothing: joining the pieces rebuilds the string. */
  lemma {:induction false} JoinSplit(s: string, c: char)
    ensures Join(Split(s, c), c) == s
    decreases |s|
  {
    var (head, rest) := SplitAt(s, c);
    if rest.Some? {
      JoinSplit(rest.value, c);
      assert Split(s, c)[1..] == Split(rest.value, c);
    }
  }

  /** Pieces free of `c`, joined with `c`, split back into themselves. */
  lemma {:induction false} SplitJoin(parts: seq<string>, c: char)
    requires |parts| >= 1
    requires forall i :: 0 <= i < |parts| ==> c !in parts[i]
    ensures Split(Join(parts, c), c) == parts
  {
    if |parts| > 1 {
      SplitJoin(parts[1..], c);
      SplitAtFirst(parts[0], c, Join(parts[1..], c));
    } else {
      assert c !in parts[0];
    }
  }

  /** `s.replace(pattern, replacement)` with a string pattern: only the first
      occurrence is replaced. */
  function ReplaceFirst(s: string, pattern: string, replacement: string): (r: string)
    ensures IndexOf(s, pattern).None? ==> r == s
    ensures IndexOf(s, pattern).Some? ==>
      var i := IndexOf(s, pattern).value;
      && |r| == |s| - |pattern| + |replacement|
      && r[..i] == s[..i] && r[i..i + |replacement|] == replacement
      && r[i + |replacement|..] == s[i + |pattern|..]
  {
    match IndexOf(s, pattern)
    case None => s
    case Some(i) => s[..i] + replacement + s[i + |pattern|..]
  }
}

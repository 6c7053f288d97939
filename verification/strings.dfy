/** The JavaScript string operations the application relies on, over `seq<char>`
    (UTF-16 code units). */
module Strings {
  import opened Wrappers

  /** A string is truthy in JavaScript iff it is non-empty. */
  predicate Truthy(s: string) {
    |s| > 0
  }

  /** `Option<string>` truthiness: present and non-empty. */
  predicate Present(s: Option<string>) {
    s.Some? && Truthy(s.value)
  }

  /** `String(x)` of a possibly-undefined string in a template literal. */
  function Render(s: Option<string>): string {
    s.GetOr("undefined")
  }

  // ---------------------------------------------------------------------------
  // Case mapping (`toUpperCase`, ASCII range)

  function UpperChar(c: char): char {
    if 'a' <= c <= 'z' then (c as int - 32) as char else c
  }

  function ToUpper(s: string): (r: string)
    ensures |r| == |s|
    ensures forall i :: 0 <= i < |s| ==> r[i] == UpperChar(s[i])
  {
    if |s| == 0 then "" else [UpperChar(s[0])] + ToUpper(s[1..])
  }

  /** `a` and `b` differ at most in the case of ASCII letters. */
  predicate SameIgnoringCase(a: string, b: string) {
    |a| == |b| && forall i :: 0 <= i < |a| ==> UpperChar(a[i]) == UpperChar(b[i])
  }

  lemma SameIgnoringCaseUpper(a: string, b: string)
    requires SameIgnoringCase(a, b)
    ensures ToUpper(a) == ToUpper(b)
  {
  }

  // ---------------------------------------------------------------------------
  // Prefixes and substrings (`startsWith`, `includes`, `indexOf`, `replace`)

  predicate StartsWith(s: string, p: string) {
    |p| <= |s| && s[..|p|] == p
  }

  predicate OccursAt(s: string, t: string, i: nat) {
    i + |t| <= |s| && s[i..i + |t|] == t
  }

  lemma StartsWithOccurs(s: string, p: string)
    ensures StartsWith(s, p) ==> OccursAt(s, p, 0)
  {
  }

  /** The first position at or after `i` at which `t` occurs in `s`. */
  function IndexFrom(s: string, t: string, i: nat): (r: Option<nat>)
    ensures r.Some? ==> i <= r.value && OccursAt(s, t, r.value)
    ensures r.Some? ==> forall j :: i <= j < r.value ==> !OccursAt(s, t, j)
    ensures r.None? ==> forall j :: i <= j <= |s| ==> !OccursAt(s, t, j)
    decreases |s| + 1 - i
  {
    if i > |s| then None
    else if OccursAt(s, t, i) then Some(i)
    else IndexFrom(s, t, i + 1)
  }

  /** `s.indexOf(t)`: the first position at which `t` occurs in `s`. */
  function IndexOf(s: string, t: string): (r: Option<nat>)
    ensures r.Some? ==> OccursAt(s, t, r.value)
    ensures r.Some? ==> forall j :: 0 <= j < r.value ==> !OccursAt(s, t, j)
    ensures r.None? ==> forall j :: 0 <= j <= |s| ==> !OccursAt(s, t, j)
  {
    IndexFrom(s, t, 0)
  }

  /** `s.includes(t)`. */
  predicate Contains(s: string, t: string) {
    IndexOf(s, t).Some?
  }

  lemma ContainsWitness(s: string, t: string, i: nat)
    requires OccursAt(s, t, i)
    ensures Contains(s, t)
  {
  }

  /** `s.replace(pat, rep)` with a string pattern: only the first occurrence
      is replaced, wherever it is. */
  function ReplaceFirst(s: string, pat: string, rep: string): (r: string)
    ensures !Contains(s, pat) ==> r == s
    ensures Contains(s, pat) ==>
      var i := IndexOf(s, pat).value;
      r == s[..i] + rep + s[i + |pat|..] && |r| == |s| - |pat| + |rep|
  {
    match IndexOf(s, pat)
    case None => s
    case Some(i) => s[..i] + rep + s[i + |pat|..]
  }

  // ---------------------------------------------------------------------------
  // `split` on a one-character separator

  function IndexOfChar(s: string, c: char): (r: Option<nat>)
    ensures r.Some? ==> r.value < |s| && s[r.value] == c
    ensures r.Some? ==> forall j :: 0 <= j < r.value ==> s[j] != c
    ensures r.None? ==> c !in s
  {
    if |s| == 0 then None
    else if s[0] == c then Some(0)
    else
      match IndexOfChar(s[1..], c)
      case None => None
      case Some(k) => Some(k + 1)
  }

  /** `s.split(sep)`: never empty; `"".split(sep)` is `[""]`. */
  function Split(s: string, sep: char): (r: seq<string>)
    ensures |r| >= 1
    ensures forall k :: 0 <= k < |r| ==> sep !in r[k]
    decreases |s|
  {
    match IndexOfChar(s, sep)
    case None => [s]
    case Some(i) => [s[..i]] + Split(s[i + 1..], sep)
  }

  /** `parts[i]`, `undefined` past the end. */
  function Part(parts: seq<string>, i: nat): Option<string> {
    if i < |parts| then Some(parts[i]) else None
  }

  lemma SplitNoSeparator(a: string, sep: char)
    requires sep !in a
    ensures Split(a, sep) == [a]
  {
  }

  lemma SplitAfterFirst(a: string, sep: char, b: string)
    requires sep !in a
    ensures Split(a + [sep] + b, sep) == [a] + Split(b, sep)
  {
    var s := a + [sep] + b;
    assert forall j :: 0 <= j < |a| ==> s[j] == a[j] && s[j] != sep;
    assert s[|a|] == sep;
    var r := IndexOfChar(s, sep);
    assert r.Some?;
    assert r.value == |a|;
    assert s[..|a|] == a;
    assert s[|a| + 1..] == b;
  }

  /** `p` is the text of `t` up to its first `sep`, or all of `t` without one. */
  predicate LeadingPiece(t: string, sep: char, p: string) {
    sep !in p && StartsWith(t, p) && (|p| == |t| || t[|p|] == sep)
  }

  /** The first piece of `split` is the text up to the first separator. */
  lemma SplitHead(t: string, sep: char)
    ensures LeadingPiece(t, sep, Split(t, sep)[0])
  {
    match IndexOfChar(t, sep)
    case None =>
    case Some(i) =>
      assert Split(t, sep)[0] == t[..i];
  }

  /** The second piece of `split`, when there is one, is the text between the
      first separator and the next. */
  lemma SplitSecond(t: string, sep: char)
    ensures sep in t ==>
      var i := IndexOfChar(t, sep).value;
      |Split(t, sep)| >= 2 && LeadingPiece(t[i + 1..], sep, Split(t, sep)[1])
  {
    if sep in t {
      var i := IndexOfChar(t, sep).value;
      assert Split(t, sep) == [t[..i]] + Split(t[i + 1..], sep);
      SplitHead(t[i + 1..], sep);
    }
  }

  /** Joining the pieces of `Split` with the separator gives back the input. */
  function Join(parts: seq<string>, sep: char): string
    requires |parts| >= 1
  {
    if |parts| == 1 then parts[0] else parts[0] + [sep] + Join(parts[1..], sep)
  }

  lemma {:induction false} SplitJoin(s: string, sep: char)
    ensures Join(Split(s, sep), sep) == s
    decreases |s|
  {
    match IndexOfChar(s, sep)
    case None =>
    case Some(i) =>
      var rest := Split(s[i + 1..], sep);
      var parts := Split(s, sep);
      assert parts == [s[..i]] + rest;
      assert parts[1..] == rest;
      SplitJoin(s[i + 1..], sep);
      calc {
        Join(parts, sep);
        s[..i] + [sep] + Join(rest, sep);
        s[..i] + [sep] + s[i + 1..];
        s;
      }
  }

  // ---------------------------------------------------------------------------
  // `trim`: the characters ECMAScript counts as white space or line terminators

  predicate IsJsWhitespace(c: char) {
    || c == '\t' || c == '\n' || c == '\U{000B}' || c == '\U{000C}' || c == '\r'
    || c == ' ' || c == '\U{00A0}' || c == '\U{1680}'
    || ('\U{2000}' <= c <= '\U{200A}')
    || c == '\U{2028}' || c == '\U{2029}' || c == '\U{202F}' || c == '\U{205F}'
    || c == '\U{3000}' || c == '\U{FEFF}'
  }

  /** `s` with its leading white space removed. `!s.trim()` depends only on
      whether anything is left, so trailing white space needs no model. */
  function TrimStart(s: string): (r: string)
    ensures |r| <= |s| && r == s[|s| - |r|..]
    ensures |r| > 0 ==> !IsJsWhitespace(r[0])
    ensures forall i :: 0 <= i < |s| - |r| ==> IsJsWhitespace(s[i])
  {
    if |s| > 0 && IsJsWhitespace(s[0]) then TrimStart(s[1..]) else s
  }

  /** `!s.trim()`: true iff every character of `s` is white space. */
  predicate IsBlank(s: string) {
    |TrimStart(s)| == 0
  }

  lemma BlankIffAllWhitespace(s: string)
    ensures IsBlank(s) <==> forall i :: 0 <= i < |s| ==> IsJsWhitespace(s[i])
  {
  }

  // ---------------------------------------------------------------------------
  // Decimal digits (`String(n)` for a non-negative integer)

  function DigitChar(d: nat): char
    requires d < 10
  {
    "0123456789"[d]
  }

  predicate IsDigit(c: char) {
    '0' <= c <= '9'
  }

  function DigitValue(c: char): (d: nat)
    requires IsDigit(c)
    ensures d < 10 && DigitChar(d) == c
  {
    c as int - '0' as int
  }

  predicate AllDigits(s: string) {
    forall i :: 0 <= i < |s| ==> IsDigit(s[i])
  }

  /** The value of a string of decimal digits, most significant first. */
  function DigitsValue(s: string): nat
    requires AllDigits(s)
  {
    if |s| == 0 then 0 else DigitsValue(s[..|s| - 1]) * 10 + DigitValue(s[|s| - 1])
  }

  function NatToString(n: nat): (r: string)
    ensures |r| >= 1 && AllDigits(r)
  {
    if n < 10 then [DigitChar(n)] else NatToString(n / 10) + [DigitChar(n % 10)]
  }

  lemma {:induction false} NatToStringValue(n: nat)
    ensures DigitsValue(NatToString(n)) == n
  {
    var r := NatToString(n);
    if n >= 10 {
      NatToStringValue(n / 10);
      assert r[..|r| - 1] == NatToString(n / 10);
    }
  }

  // ---------------------------------------------------------------------------
  // Code-unit lexicographic order

  predicate LexLe(a: string, b: string) {
    |a| == 0 || (|b| > 0 && (a[0] < b[0] || (a[0] == b[0] && LexLe(a[1..], b[1..]))))
  }

  lemma {:induction false} LexLeTotal(a: string, b: string)
    ensures LexLe(a, b) || LexLe(b, a)
  {
    if |a| > 0 && |b| > 0 && a[0] == b[0] {
      LexLeTotal(a[1..], b[1..]);
    }
  }

  lemma {:induction false} LexLeTransitive(a: string, b: string, c: string)
    requires LexLe(a, b) && LexLe(b, c)
    ensures LexLe(a, c)
  {
    if |a| > 0 && a[0] == b[0] && b[0] == c[0] {
      LexLeTransitive(a[1..], b[1..], c[1..]);
    }
  }
}

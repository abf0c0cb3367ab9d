/**
 * The JavaScript string and number built-ins that the core relies on:
 * `String.prototype.indexOf` / `match` scanning, `trim`, `split`, `replace`
 * with a one-character pattern, `parseInt` and `String(n)` for integers.
 * Strings are sequences of code points; JavaScript counts UTF-16 code units instead, and
 * the two agree on text within the Basic Multilingual Plane.
 */
module JsString {
  import opened Wrappers

  /** The code points JavaScript treats as WhiteSpace or LineTerminator (skipped by `trim` and `parseInt`). */
  predicate IsWhiteSpace(c: char) {
    c == '\t' || c == '\n' || c == '\U{000B}' || c == '\U{000C}' || c == '\r' || c == ' '
    || c == '\U{00A0}' || c == '\U{1680}' || ('\U{2000}' <= c <= '\U{200A}')
    || c == '\U{2028}' || c == '\U{2029}' || c == '\U{202F}' || c == '\U{205F}'
    || c == '\U{3000}' || c == '\U{FEFF}'
  }

  /** The regular-expression class `\d` without the `u` flag: ASCII decimal digits only. */
  predicate IsDigit(c: char) {
    '0' <= c <= '9'
  }

  predicate AllDigits(s: string) {
    forall i :: 0 <= i < |s| ==> IsDigit(s[i])
  }

  function DigitValue(c: char): (d: nat)
    requires IsDigit(c)
    ensures d < 10
  {
    (c as int) - ('0' as int)
  }

  function DigitChar(d: nat): (c: char)
    requires d < 10
    ensures IsDigit(c) && DigitValue(c) == d
  {
    ('0' as int + d) as char
  }

  // ---------------------------------------------------------------------------
  // Substring search
  // ---------------------------------------------------------------------------

  predicate OccursAt(s: string, pat: string, i: nat) {
    i + |pat| <= |s| && s[i..i + |pat|] == pat
  }

  predicate Contains(s: string, pat: string) {
    exists i: nat | i <= |s| :: OccursAt(s, pat, i)
  }

  /** The first position at or after `from` where `pat` occurs in `s`. */
  function IndexOfFrom(s: string, pat: string, from: nat): (r: Option<nat>)
    decreases |s| - from
    ensures r.Some? ==> from <= r.value && OccursAt(s, pat, r.value)
    ensures r.Some? ==> forall j: nat :: from <= j < r.value ==> !OccursAt(s, pat, j)
    ensures r.None? ==> forall j: nat :: from <= j ==> !OccursAt(s, pat, j)
  {
    if from + |pat| > |s| then None
    else if s[from..from + |pat|] == pat then Some(from)
    else IndexOfFrom(s, pat, from + 1)
  }

  /** `s.indexOf(pat)`, with `None` for -1: the leftmost occurrence, if any. */
  function IndexOf(s: string, pat: string): (r: Option<nat>)
    ensures r.None? <==> !Contains(s, pat)
    ensures r.Some? ==> OccursAt(s, pat, r.value) && forall j: nat :: j < r.value ==> !OccursAt(s, pat, j)
  {
    IndexOfFrom(s, pat, 0)
  }

  /** A pattern at the very start is the one `indexOf` finds. */
  lemma IndexOfAtStart(s: string, pat: string)
    requires OccursAt(s, pat, 0)
    ensures IndexOf(s, pat) == Some(0)
  {
  }


  /** The length of the maximal run of digits that starts at position `i`. */
  function DigitRun(s: string, i: nat): (k: nat)
    requires i <= |s|
    decreases |s| - i
    ensures i + k <= |s|
    ensures forall j :: i <= j < i + k ==> IsDigit(s[j])
    ensures i + k == |s| || !IsDigit(s[i + k])
  {
    if i < |s| && IsDigit(s[i]) then 1 + DigitRun(s, i + 1) else 0
  }

  /** A run of digits has the same length whatever text precedes it. */
  lemma {:induction false} DigitRunShift(pre: string, rest: string, i: nat)
    requires i <= |rest|
    ensures DigitRun(pre + rest, |pre| + i) == DigitRun(rest, i)
    decreases |rest| - i
  {
    if i < |rest| {
      assert (pre + rest)[|pre| + i] == rest[i];
      DigitRunShift(pre, rest, i + 1);
    }
  }

  // ---------------------------------------------------------------------------
  // replace, trim, split
  // ---------------------------------------------------------------------------

  /** `s.replace(pat, with)` for a one-character string pattern: only the first occurrence is replaced. */
  function ReplaceFirst(s: string, pat: char, with: string): (r: string)
    ensures pat !in s ==> r == s
  {
    if s == [] then []
    else if s[0] == pat then with + s[1..]
    else [s[0]] + ReplaceFirst(s[1..], pat, with)
  }

  lemma {:induction false} ReplaceFirstAt(pre: string, pat: char, post: string, with: string)
    requires pat !in pre
    ensures ReplaceFirst(pre + [pat] + post, pat, with) == pre + with + post
  {
    var s := pre + [pat] + post;
    if pre == [] {
      assert s == [pat] + post;
    } else {
      assert s[0] == pre[0] != pat;
      assert s[1..] == pre[1..] + [pat] + post;
      ReplaceFirstAt(pre[1..], pat, post, with);
      assert pre + with + post == [pre[0]] + (pre[1..] + with + post);
    }
  }

  /** `s.trimStart()`: drops the longest all-whitespace prefix. */
  function TrimStart(s: string): (r: string)
    ensures |r| <= |s| && r == s[|s| - |r|..]
    ensures forall i :: 0 <= i < |s| - |r| ==> IsWhiteSpace(s[i])
    ensures r == [] || !IsWhiteSpace(r[0])
  {
    if s != [] && IsWhiteSpace(s[0]) then TrimStart(s[1..]) else s
  }

  /** `s.trimEnd()`: drops the longest all-whitespace suffix. */
  function TrimEnd(s: string): (r: string)
    ensures |r| <= |s| && r == s[..|r|]
    ensures forall i :: |r| <= i < |s| ==> IsWhiteSpace(s[i])
    ensures r == [] || !IsWhiteSpace(r[|r| - 1])
  {
    if s != [] && IsWhiteSpace(s[|s| - 1]) then TrimEnd(s[..|s| - 1]) else s
  }

  /** `r` is the slice of `s` at `i`, and only white space lies outside it. */
  predicate TrimmedAt(s: string, r: string, i: nat) {
    && i + |r| <= |s|
    && r == s[i..i + |r|]
    && (forall j :: 0 <= j < i ==> IsWhiteSpace(s[j]))
    && (forall j :: i + |r| <= j < |s| ==> IsWhiteSpace(s[j]))
  }

  /** `s.trim()`: the middle of `s` once the white space at both ends is gone. */
  function Trim(s: string): (r: string)
    ensures |r| <= |s|
    ensures exists i :: TrimmedAt(s, r, i)
    ensures r == [] || (!IsWhiteSpace(r[0]) && !IsWhiteSpace(r[|r| - 1]))
  {
    var t := TrimStart(s);
    var r := TrimEnd(t);
    assert TrimmedAt(s, r, |s| - |t|);
    r
  }

  /** A string that neither starts nor ends with whitespace is its own trim. */
  lemma TrimUntouched(s: string)
    requires s == [] || (!IsWhiteSpace(s[0]) && !IsWhiteSpace(s[|s| - 1]))
    ensures Trim(s) == s
  {
  }

  /** Trimming `x + " "` gives back `x` when `x` has no whitespace at its ends. */
  lemma TrimTrailingSpace(x: string)
    requires x != [] && !IsWhiteSpace(x[0]) && !IsWhiteSpace(x[|x| - 1])
    ensures Trim(x + " ") == x
  {
    var s := x + " ";
    assert TrimStart(s) == s;
    assert s[..|s| - 1] == x;
  }

  /** `s.split(sep)` for a one-character separator: the pieces between separators, in order. */
  function Split(s: string, sep: char): (parts: seq<string>)
    ensures |parts| >= 1
    ensures forall i :: 0 <= i < |parts| ==> sep !in parts[i]
  {
    if s == [] then [[]]
    else
      var rest := Split(s[1..], sep);
      if s[0] == sep then [[]] + rest else [[s[0]] + rest[0]] + rest[1..]
  }

  /** `parts.join(sep)`. */
  function Join(parts: seq<string>, sep: char): string {
    if parts == [] then []
    else if |parts| == 1 then parts[0]
    else parts[0] + [sep] + Join(parts[1..], sep)
  }

  /** Splitting loses nothing: joining the pieces with the separator rebuilds the input. */
  lemma {:induction false} JoinSplit(s: string, sep: char)
    ensures Join(Split(s, sep), sep) == s
  {
    if s != [] {
      var rest := Split(s[1..], sep);
      JoinSplit(s[1..], sep);
      if s[0] == sep {
        assert ([[]] + rest)[1..] == rest;
      } else if |rest| > 1 {
        var parts := [[s[0]] + rest[0]] + rest[1..];
        assert parts[1..] == rest[1..];
        assert Join(rest, sep) == rest[0] + [sep] + Join(rest[1..], sep);
        assert s == [s[0]] + s[1..];
      } else {
        assert s == [s[0]] + s[1..];
      }
    }
  }

  /** A separator-free prefix is glued onto the first piece of what follows it. */
  lemma {:induction false} SplitAfterPrefix(p: string, t: string, sep: char)
    requires sep !in p
    ensures Split(p + t, sep) == [p + Split(t, sep)[0]] + Split(t, sep)[1..]
  {
    if p != [] {
      assert (p + t)[1..] == p[1..] + t;
      assert p[0] in p && (p + t)[0] == p[0];
      assert p[0] != sep;
      assert sep !in p[1..];
      SplitAfterPrefix(p[1..], t, sep);
      var rest := Split(p[1..] + t, sep);
      assert Split(p + t, sep) == [[(p + t)[0]] + Split((p + t)[1..], sep)[0]] + Split((p + t)[1..], sep)[1..];
      assert rest[0] == p[1..] + Split(t, sep)[0];
      assert rest[1..] == Split(t, sep)[1..];
      assert Split(p + t, sep) == [[p[0]] + rest[0]] + rest[1..];
      assert [p[0]] + (p[1..] + Split(t, sep)[0]) == p + Split(t, sep)[0];
    } else {
      var parts := Split(t, sep);
      assert p + t == t && p + parts[0] == parts[0];
      assert [parts[0]] + parts[1..] == parts;
    }
  }

  /**
   * For `s == pre + sep + mid + rest`, where `pre` and `mid` hold no separator and
   * `rest` is empty or starts with one, the first piece is `pre` and the second `mid`.
   */
  lemma SplitFirstTwo(pre: string, mid: string, rest: string, sep: char)
    requires sep !in pre && sep !in mid
    requires rest == [] || rest[0] == sep
    ensures |Split(pre + [sep] + mid + rest, sep)| >= 2
    ensures Split(pre + [sep] + mid + rest, sep)[0] == pre
    ensures Split(pre + [sep] + mid + rest, sep)[1] == mid
  {
    var t := [sep] + mid + rest;
    assert pre + [sep] + mid + rest == pre + t;
    SplitAfterPrefix(pre, t, sep);
    assert t[1..] == mid + rest;
    SplitAfterPrefix(mid, rest, sep);
    if rest != [] {
      assert Split(rest, sep)[0] == [];
    }
  }

  /** Without a separator there is exactly one piece, the whole string. */
  lemma SplitNoSeparator(s: string, sep: char)
    requires sep !in s
    ensures Split(s, sep) == [s]
  {
    SplitAfterPrefix(s, [], sep);
    assert s + [] == s;
  }

  // ---------------------------------------------------------------------------
  // parseInt and String(n)
  // ---------------------------------------------------------------------------

  /** The value of a string of decimal digits. */
  function DecimalValue(ds: string): nat
    requires AllDigits(ds)
  {
    if ds == [] then 0 else 10 * DecimalValue(ds[..|ds| - 1]) + DigitValue(ds[|ds| - 1])
  }

  /** The longest run of leading decimal digits and its value; `None` when there is none. */
  function ParseDigits(b: string): (r: Option<nat>)
    ensures (b == [] || !IsDigit(b[0])) <==> r.None?
  {
    var k := DigitRun(b, 0);
    if k == 0 then None else Some(DecimalValue(b[..k]))
  }

  /** An optional `-` or `+` sign followed by digits. */
  function ParseSigned(t: string): (r: Option<int>)
  {
    if t != [] && t[0] == '-' then
      match ParseDigits(t[1..])
      case Some(m) => var v: int := -(m as int); Some(v)
      case None => None
    else if t != [] && t[0] == '+' then
      match ParseDigits(t[1..])
      case Some(m) => Some(m)
      case None => None
    else
      match ParseDigits(t)
      case Some(m) => Some(m)
      case None => None
  }

  /**
   * `parseInt(s)` in radix 10: skip leading whitespace, read an optional sign and the
   * longest run of decimal digits after it; `None` stands for `NaN` (no digit there).
   */
  function ParseInt(s: string): (r: Option<int>)
    ensures ReadsSignedRun(TrimStart(s), r)
  {
    var t := TrimStart(s);
    ParseSignedReadsRun(t);
    ParseSigned(t)
  }

  /**
   * `r` is what `t` says as a signed decimal: `None` when no digit follows the optional
   * sign, otherwise the value of the longest digit run there, negated after a `-`.
   */
  predicate ReadsSignedRun(t: string, r: Option<int>) {
    var sign := SignLength(t);
    var k := DigitRun(t, sign);
    && (r.None? <==> k == 0)
    && (r.Some? ==> r.value == (if sign == 1 && t[0] == '-' then -1 else 1) * DecimalValue(t[sign..sign + k]))
  }

  lemma ParseSignedReadsRun(t: string)
    ensures ReadsSignedRun(t, ParseSigned(t))
  {
    if t != [] && (t[0] == '-' || t[0] == '+') {
      DigitsAfterSign(t);
    } else {
      assert t[..DigitRun(t, 0)] == t[0..DigitRun(t, 0)];
    }
  }

  /** The digits after a sign are the run that starts at position 1. */
  lemma DigitsAfterSign(t: string)
    requires t != []
    ensures DigitRun(t[1..], 0) == DigitRun(t, 1)
    ensures t[1..][..DigitRun(t, 1)] == t[1..1 + DigitRun(t, 1)]
  {
    assert t == t[..1] + t[1..];
    DigitRunShift(t[..1], t[1..], 0);
  }

  /** The length of an optional leading `-` or `+`. */
  function SignLength(t: string): (n: nat)
    ensures n <= 1 && n <= |t|
    ensures n == 1 <==> t != [] && (t[0] == '-' || t[0] == '+')
  {
    if t != [] && (t[0] == '-' || t[0] == '+') then 1 else 0
  }

  /** The digits `ds` read off the front of `ds + rest` when `rest` does not continue them. */
  lemma ParseDigitsPrefix(ds: string, rest: string)
    requires ds != [] && AllDigits(ds)
    requires rest == [] || !IsDigit(rest[0])
    ensures ParseDigits(ds + rest) == Some(DecimalValue(ds))
  {
    var s := ds + rest;
    var k := DigitRun(s, 0);
    assert forall i :: 0 <= i < |ds| ==> s[i] == ds[i];
    assert |ds| < |s| ==> s[|ds|] == rest[0];
    assert k == |ds|;
    assert s[..k] == ds;
  }

  /** `parseInt(ds + rest)` reads exactly the digits `ds` when `rest` does not continue them. */
  lemma ParseIntLeadingDigits(ds: string, rest: string)
    requires ds != [] && AllDigits(ds)
    requires rest == [] || !IsDigit(rest[0])
    ensures ParseInt(ds + rest) == Some(DecimalValue(ds))
  {
    var s := ds + rest;
    assert s[0] == ds[0];
    DigitIsNotSpace(s[0]);
    assert TrimStart(s) == s;
    assert ParseSigned(s) == ParseDigits(s);
    ParseDigitsPrefix(ds, rest);
  }

  /** A digit is neither white space nor a sign. */
  lemma DigitIsNotSpace(c: char)
    requires IsDigit(c)
    ensures !IsWhiteSpace(c) && c != '-' && c != '+'
  {
  }

  /** `String(n)` for a natural number: decimal digits without leading zeros. */
  function NatToString(n: nat): (s: string)
    decreases n
    ensures s != [] && AllDigits(s)
    ensures DecimalValue(s) == n
  {
    if n < 10 then [DigitChar(n)]
    else
      var s := NatToString(n / 10) + [DigitChar(n % 10)];
      assert s[..|s| - 1] == NatToString(n / 10);
      s
  }

  /** `String(n)` for an integer. */
  function IntToString(n: int): (s: string)
    ensures s != []
  {
    if n < 0 then "-" + NatToString(-n) else NatToString(n)
  }

  /** `parseInt(String(n)) === n` for every integer: the two built-ins are inverse on integers. */
  lemma ParseIntOfString(n: int)
    ensures ParseInt(IntToString(n)) == Some(n)
  {
    var s := IntToString(n);
    var digits := NatToString(if n < 0 then -n else n);
    assert digits + [] == digits;
    ParseDigitsPrefix(digits, []);
    assert !IsWhiteSpace(s[0]);
    assert TrimStart(s) == s;
    if n < 0 {
      assert s == "-" + digits;
      assert s[1..] == digits;
      assert ParseSigned(s) == Some(n);
    } else {
      assert s == digits;
      assert ParseSigned(s) == Some(n);
    }
  }
}

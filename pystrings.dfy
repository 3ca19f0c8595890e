/**
 * The handful of Python `str` operations the monitoring code relies on:
 * `pat in s`, `s.find`, `s.split(sep)`, `s.split()`, `sep.join`, `s.strip()`,
 * `s.lower()`, `s.replace(old, new)`, `s.startswith`, `float(s)` and the
 * decimal rendering of a non-negative integer (`f"{n}"`).
 */
module PyStrings {
  import opened Wrappers

  // ---------------------------------------------------------------------
  // Substrings

  /** `s.startswith(p)` */
  predicate StartsWith(s: string, p: string) {
    |p| <= |s| && s[..|p|] == p
  }

  /** `pat` occurs in `s` at position `j`. */
  predicate OccursAt(s: string, pat: string, j: int) {
    0 <= j && j + |pat| <= |s| && s[j..j + |pat|] == pat
  }

  lemma OccursAtTail(s: string, pat: string, j: int)
    requires |s| > 0 && j >= 0
    ensures OccursAt(s[1..], pat, j) <==> OccursAt(s, pat, j + 1)
  {
    if j + |pat| <= |s| - 1 {
      assert s[1..][j..j + |pat|] == s[j + 1..j + 1 + |pat|];
    }
  }

  /** `s.find(pat)`: the first position where `pat` occurs, if any. */
  function Find(s: string, pat: string): (r: Option<nat>)
    ensures r.Some? ==> OccursAt(s, pat, r.value)
    ensures r.Some? ==> forall j :: 0 <= j < r.value ==> !OccursAt(s, pat, j)
    ensures r.None? ==> forall j :: !OccursAt(s, pat, j)
    decreases |s|
  {
    if StartsWith(s, pat) then
      Some(0)
    else if |s| <= |pat| then
      assert forall j :: !OccursAt(s, pat, j) by {
        forall j ensures !OccursAt(s, pat, j) {
          if 0 <= j && j + |pat| <= |s| {
            assert s[j..j + |pat|] == s[..|pat|];
          }
        }
      }
      None
    else
      assert !OccursAt(s, pat, 0) by { assert s[0..|pat|] == s[..|pat|]; }
      match Find(s[1..], pat)
      case None =>
        assert forall j :: !OccursAt(s, pat, j) by {
          forall j ensures !OccursAt(s, pat, j) {
            if j > 0 { OccursAtTail(s, pat, j - 1); }
          }
        }
        None
      case Some(i) =>
        OccursAtTail(s, pat, i);
        assert forall j :: 0 <= j < i + 1 ==> !OccursAt(s, pat, j) by {
          forall j | 0 < j < i + 1 ensures !OccursAt(s, pat, j) {
            OccursAtTail(s, pat, j - 1);
          }
        }
        Some(i + 1)
  }

  /** `pat in s` */
  predicate Contains(s: string, pat: string) {
    Find(s, pat).Some?
  }

  lemma ContainsAt(s: string, pat: string, j: int)
    requires OccursAt(s, pat, j)
    ensures Contains(s, pat)
  {
  }

  // ---------------------------------------------------------------------
  // split / join / replace

  /** `s.split(sep)` for a non-empty separator. */
  function Split(s: string, sep: string): (parts: seq<string>)
    requires sep != ""
    ensures |parts| >= 1
    decreases |s|
  {
    match Find(s, sep)
    case None => [s]
    case Some(i) => [s[..i]] + Split(s[i + |sep|..], sep)
  }

  /** `sep.join(parts)` */
  function Join(parts: seq<string>, sep: string): string
    decreases |parts|
  {
    if |parts| == 0 then ""
    else if |parts| == 1 then parts[0]
    else parts[0] + sep + Join(parts[1..], sep)
  }

  /** Joining the pieces of a split with the same separator gives the string back. */
  lemma {:induction false} JoinSplit(s: string, sep: string)
    requires sep != ""
    ensures Join(Split(s, sep), sep) == s
    decreases |s|
  {
    var found := Find(s, sep);
    if found.Some? {
      var i := found.value;
      var tail := s[i + |sep|..];
      var rest := Split(tail, sep);
      assert Split(s, sep) == [s[..i]] + rest;
      JoinSplit(tail, sep);
      assert ([s[..i]] + rest)[1..] == rest;
      assert Join([s[..i]] + rest, sep) == s[..i] + sep + tail;
      assert s == s[..i] + s[i..i + |sep|] + tail;
    }
  }

  /** The text before the first occurrence of `pat` does not contain it. */
  lemma BeforeFirst(s: string, pat: string, i: nat)
    requires pat != "" && Find(s, pat) == Some(i)
    ensures !Contains(s[..i], pat)
  {
    var head := s[..i];
    if Contains(head, pat) {
      var j := Find(head, pat).value;
      assert head[j..j + |pat|] == s[j..j + |pat|];
      assert OccursAt(s, pat, j) && j < i;
      assert false;
    }
  }

  /** A piece of a split never contains the separator. */
  lemma {:induction false} SplitPiecesFree(s: string, sep: string, k: nat)
    requires sep != "" && k < |Split(s, sep)|
    ensures !Contains(Split(s, sep)[k], sep)
    decreases |s|
  {
    match Find(s, sep)
    case None =>
    case Some(i) =>
      var rest := Split(s[i + |sep|..], sep);
      assert Split(s, sep) == [s[..i]] + rest;
      if k == 0 {
        BeforeFirst(s, sep, i);
      } else {
        assert Split(s, sep)[k] == rest[k - 1];
        SplitPiecesFree(s[i + |sep|..], sep, k - 1);
      }
  }

  /** The first piece of a split is everything before the first separator. */
  lemma {:induction false} SplitHead(s: string, sep: string)
    requires sep != ""
    ensures Find(s, sep).None? ==> Split(s, sep) == [s]
    ensures Find(s, sep).Some? ==> |Split(s, sep)| >= 2 && Split(s, sep)[0] == s[..Find(s, sep).value]
    ensures Find(s, sep).Some? ==> Split(s, sep)[1] == Split(s[Find(s, sep).value + |sep|..], sep)[0]
  {
    match Find(s, sep)
    case None =>
    case Some(i) =>
      SplitUnfold(s, sep, i);
      var rest := Split(s[i + |sep|..], sep);
      assert ([s[..i]] + rest)[0] == s[..i];
      assert ([s[..i]] + rest)[1] == rest[0];
  }

  /** A split at the first separator: its piece, then the split of the rest. */
  lemma SplitUnfold(s: string, sep: string, i: nat)
    requires sep != "" && Find(s, sep) == Some(i)
    ensures Split(s, sep) == [s[..i]] + Split(s[i + |sep|..], sep)
  {
  }

  /** `s.replace(old, new)`: Python defines it as `new.join(s.split(old))`. */
  function Replace(s: string, target: string, replacement: string): string
    requires target != ""
  {
    Join(Split(s, target), replacement)
  }

  /** The prefix of `s` before the first `c` (all of `s` if there is none). */
  function TakeUntil(s: string, c: char): (r: string)
    ensures |r| <= |s| && r == s[..|r|]
    ensures c !in r
    ensures |r| < |s| ==> s[|r|] == c
    decreases |s|
  {
    if s == "" then ""
    else if s[0] == c then ""
    else [s[0]] + TakeUntil(s[1..], c)
  }

  /** Nothing is cut off exactly when `c` does not occur. */
  lemma TakeUntilWhole(s: string, c: char)
    ensures TakeUntil(s, c) == s <==> c !in s
  {
  }

  /** `s.split(c)[0]` is `TakeUntil(s, c)` for a one-character separator. */
  lemma {:induction false} SplitCharHead(s: string, c: char)
    ensures Split(s, [c])[0] == TakeUntil(s, c)
  {
    var t := TakeUntil(s, c);
    match Find(s, [c])
    case None =>
      if |t| < |s| {
        assert s[|t|..|t| + 1] == [c];
        assert OccursAt(s, [c], |t|);
      }
    case Some(i) =>
      assert s[i] == c by { assert s[i..i + 1] == [c]; }
      if |t| < i {
        assert s[|t|..|t| + 1] == [c];
        assert OccursAt(s, [c], |t|);
      }
  }

  /** Cutting `s` at a position holding `c` does not change what comes before the first `c`. */
  lemma {:induction false} TakeUntilCut(s: string, c: char, j: nat)
    requires j < |s| && s[j] == c
    ensures TakeUntil(s[..j], c) == TakeUntil(s, c)
    decreases |s|
  {
    if s[0] != c {
      assert s[..j][1..] == s[1..][..j - 1];
      TakeUntilCut(s[1..], c, j - 1);
    }
  }

  // ---------------------------------------------------------------------
  // whitespace and case

  /** Python's whitespace characters (`str.isspace`). */
  predicate IsSpace(c: char) {
    ('\t' <= c <= '\r') || ('\U{1c}' <= c <= ' ') || c == '\U{85}' || c == '\U{a0}'
    || c == '\U{1680}' || ('\U{2000}' <= c <= '\U{200a}') || c == '\U{2028}' || c == '\U{2029}'
    || c == '\U{202f}' || c == '\U{205f}' || c == '\U{3000}'
  }

  predicate NoSpace(s: string) {
    forall i :: 0 <= i < |s| ==> !IsSpace(s[i])
  }

  function TrimStart(s: string): (r: string)
    ensures |r| <= |s| && r == s[|s| - |r|..]
    ensures r != "" ==> !IsSpace(r[0])
    decreases |s|
  {
    if s != "" && IsSpace(s[0]) then TrimStart(s[1..]) else s
  }

  function TrimEnd(s: string): (r: string)
    ensures |r| <= |s| && r == s[..|r|]
    ensures r != "" ==> !IsSpace(r[|r| - 1])
    decreases |s|
  {
    if s != "" && IsSpace(s[|s| - 1]) then TrimEnd(s[..|s| - 1]) else s
  }

  /** `s.strip()` */
  function Strip(s: string): string {
    TrimEnd(TrimStart(s))
  }

  /** The length of the run of non-space characters that starts `s`. */
  function WordLength(s: string): (n: nat)
    ensures n <= |s|
    ensures NoSpace(s[..n])
    ensures n < |s| ==> IsSpace(s[n])
    decreases |s|
  {
    if s == "" || IsSpace(s[0]) then 0
    else
      var n := 1 + WordLength(s[1..]);
      assert s[..n] == [s[0]] + s[1..][..n - 1];
      n
  }

  /** `s.split()`: the maximal runs of non-space characters, in order. */
  function SplitWhitespace(s: string): (words: seq<string>)
    ensures forall k :: 0 <= k < |words| ==> words[k] != "" && NoSpace(words[k])
    decreases |s|
  {
    if s == "" then []
    else if IsSpace(s[0]) then SplitWhitespace(s[1..])
    else
      var n := WordLength(s);
      [s[..n]] + SplitWhitespace(s[n..])
  }

  /** `c.lower()` on ASCII letters. */
  function LowerChar(c: char): char {
    if 'A' <= c <= 'Z' then (c as int + 32) as char else c
  }

  /** `s.lower()`, ASCII letters only. */
  function Lower(s: string): (r: string)
    ensures |r| == |s|
    ensures forall i :: 0 <= i < |s| ==> r[i] == LowerChar(s[i])
  {
    seq(|s|, i requires 0 <= i < |s| => LowerChar(s[i]))
  }

  // ---------------------------------------------------------------------
  // numbers

  predicate IsDigit(c: char) {
    '0' <= c <= '9'
  }

  predicate AllDigits(s: string) {
    forall i :: 0 <= i < |s| ==> IsDigit(s[i])
  }

  function DigitValue(c: char): nat
    requires IsDigit(c)
  {
    c as int - '0' as int
  }

  /** The value of a string of decimal digits. */
  function DigitsValue(s: string): nat
    requires AllDigits(s)
    decreases |s|
  {
    if s == "" then 0 else DigitsValue(s[..|s| - 1]) * 10 + DigitValue(s[|s| - 1])
  }

  function Pow10(n: nat): (r: nat)
    ensures r >= 1
  {
    if n == 0 then 1 else 10 * Pow10(n - 1)
  }

  /** `f"{n}"` for a non-negative integer. */
  function Decimal(n: nat): (d: string)
    ensures d != "" && AllDigits(d)
  {
    if n < 10 then ['0' + n as char] else Decimal(n / 10) + ['0' + (n % 10) as char]
  }

  /** Reading back the decimal rendering of `n` gives `n`. */
  lemma {:induction false} DecimalValue(n: nat)
    ensures DigitsValue(Decimal(n)) == n
  {
    var d := Decimal(n);
    if n >= 10 {
      DecimalValue(n / 10);
      assert d[..|d| - 1] == Decimal(n / 10);
    }
  }

  /** An unsigned decimal literal: digits, optionally with one '.' and more digits. */
  function ParseUnsigned(t: string): Option<real> {
    match Find(t, ".")
    case None =>
      if t != "" && AllDigits(t) then Some(DigitsValue(t) as real) else None
    case Some(i) =>
      var whole, frac := t[..i], t[i + 1..];
      if (whole != "" || frac != "") && AllDigits(whole) && AllDigits(frac) then
        Some(DigitsValue(whole) as real + DigitsValue(frac) as real / Pow10(|frac|) as real)
      else None
  }

  /**
   * `float(s)`: `None` stands for the `ValueError` Python raises. Accepts
   * surrounding whitespace, an optional sign and a decimal literal.
   */
  function ParseFloat(s: string): Option<real> {
    var t := Strip(s);
    if t != "" && t[0] == '-' then
      match ParseUnsigned(t[1..])
      case Some(v) => Some(-v)
      case None => None
    else if t != "" && t[0] == '+' then ParseUnsigned(t[1..])
    else ParseUnsigned(t)
  }

  lemma NoSpaceStrip(s: string)
    requires s != "" && NoSpace(s)
    ensures Strip(s) == s
  {
    assert TrimStart(s) == s;
    assert TrimEnd(s) == s;
  }

  lemma DigitsNoSpace(s: string)
    requires AllDigits(s)
    ensures NoSpace(s)
  {
  }

  lemma ParseUnsignedDigits(d: string)
    requires d != "" && AllDigits(d)
    ensures ParseUnsigned(d) == Some(DigitsValue(d) as real)
  {
    forall j | 0 <= j && j + 1 <= |d| ensures !OccursAt(d, ".", j) {
      assert d[j..j + 1][0] == d[j] && IsDigit(d[j]);
    }
    assert Find(d, ".").None?;
  }

  /** `float(f"{n}") == n` */
  lemma ParseFloatDecimal(n: nat)
    ensures ParseFloat(Decimal(n)) == Some(n as real)
  {
    var d := Decimal(n);
    DigitsNoSpace(d);
    NoSpaceStrip(d);
    DecimalValue(n);
    ParseUnsignedDigits(d);
    assert IsDigit(d[0]);
  }
}

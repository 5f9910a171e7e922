/**
 * Character classes and string operations the components use: the building blocks
 * of the regular expressions, `String.prototype.trim`, `toLowerCase` and `includes`,
 * and `Number(...)` applied to the decimal text a keystroke filter admits.
 *
 * Each regular expression is modelled by recursive scanners (`All`, `Any`) that
 * consume the string one character at a time, as a matcher does; the lemmas
 * connect them to the quantified statements a reader expects.
 */
module Text {
  import opened Wrappers

  /** `\d` and `[0-9]`. */
  predicate IsDigit(c: char) { '0' <= c <= '9' }

  /** `[A-Za-z]`. */
  predicate IsLetter(c: char) { 'A' <= c <= 'Z' || 'a' <= c <= 'z' }

  /** `[!@#$%^&*]`, the symbols the password rule requires and admits. */
  predicate IsPasswordSymbol(c: char) {
    c == '!' || c == '@' || c == '#' || c == '$' || c == '%' || c == '^' || c == '&' || c == '*'
  }

  /** The white space and line terminators that `trim` removes. */
  predicate IsSpace(c: char) {
    c == '\t' || c == '\n' || c == '\U{000B}' || c == '\U{000C}' || c == '\r' || c == ' '
    || c == '\U{00A0}' || c == '\U{1680}' || ('\U{2000}' <= c <= '\U{200A}')
    || c == '\U{2028}' || c == '\U{2029}' || c == '\U{202F}' || c == '\U{205F}'
    || c == '\U{3000}' || c == '\U{FEFF}'
  }

  /** Every character is in the class `p`: the pattern `^p*$`, scanned left to right. */
  predicate All(s: string, p: char -> bool)
    decreases |s|
  {
    |s| == 0 || (p(s[0]) && All(s[1..], p))
  }

  /** Some character is in the class `p`: the lookahead `(?=.*p)`, scanned left to right. */
  predicate Any(s: string, p: char -> bool)
    decreases |s|
  {
    |s| > 0 && (p(s[0]) || Any(s[1..], p))
  }

  lemma {:induction false} AllIff(s: string, p: char -> bool)
    ensures All(s, p) <==> forall i :: 0 <= i < |s| ==> p(s[i])
    decreases |s|
  {
    if |s| > 0 {
      AllIff(s[1..], p);
      assert forall i :: 1 <= i < |s| ==> s[i] == s[1..][i - 1];
    }
  }

  lemma {:induction false} AnyIff(s: string, p: char -> bool)
    ensures Any(s, p) <==> exists i :: 0 <= i < |s| && p(s[i])
    decreases |s|
  {
    if |s| > 0 {
      AnyIff(s[1..], p);
      assert forall i :: 1 <= i < |s| ==> s[i] == s[1..][i - 1];
      if exists i :: 0 <= i < |s| && p(s[i]) {
        var i :| 0 <= i < |s| && p(s[i]);
        if i > 0 { assert p(s[1..][i - 1]); }
      }
    }
  }

  lemma AllConcat(a: string, b: string, p: char -> bool)
    ensures All(a + b, p) <==> All(a, p) && All(b, p)
  {
    AllIff(a, p);
    AllIff(b, p);
    AllIff(a + b, p);
    assert forall i :: 0 <= i < |a| ==> (a + b)[i] == a[i];
    assert forall i :: 0 <= i < |b| ==> (a + b)[|a| + i] == b[i];
  }

  /** Drops the leading white space. */
  function TrimStart(s: string): string
    decreases |s|
  {
    if |s| > 0 && IsSpace(s[0]) then TrimStart(s[1..]) else s
  }

  /** Drops the trailing white space. */
  function TrimEnd(s: string): string
    decreases |s|
  {
    if |s| > 0 && IsSpace(s[|s| - 1]) then TrimEnd(s[..|s| - 1]) else s
  }

  /** `TrimStart` keeps a suffix that does not start with white space, and drops only white space. */
  lemma {:induction false} TrimStartShape(s: string)
    ensures |TrimStart(s)| <= |s| && TrimStart(s) == s[|s| - |TrimStart(s)|..]
    ensures TrimStart(s) == "" || !IsSpace(TrimStart(s)[0])
    ensures All(s[..|s| - |TrimStart(s)|], IsSpace)
    decreases |s|
  {
    if |s| > 0 && IsSpace(s[0]) {
      TrimStartShape(s[1..]);
      var r := TrimStart(s[1..]);
      assert s[..|s| - |r|][1..] == s[1..][..|s| - 1 - |r|];
    }
  }

  /** `TrimEnd` keeps a prefix that does not end with white space, and drops only white space. */
  lemma {:induction false} TrimEndShape(s: string)
    ensures |TrimEnd(s)| <= |s| && TrimEnd(s) == s[..|TrimEnd(s)|]
    ensures TrimEnd(s) == "" || !IsSpace(TrimEnd(s)[|TrimEnd(s)| - 1])
    ensures All(s[|TrimEnd(s)|..], IsSpace)
    decreases |s|
  {
    if |s| > 0 && IsSpace(s[|s| - 1]) {
      TrimEndShape(s[..|s| - 1]);
      var r := TrimEnd(s[..|s| - 1]);
      assert s[|r|..] == s[..|s| - 1][|r|..] + [s[|s| - 1]];
      AllConcat(s[..|s| - 1][|r|..], [s[|s| - 1]], IsSpace);
    }
  }

  /** `s.trim()`. */
  function Trim(s: string): string {
    TrimEnd(TrimStart(s))
  }

  /** `!s.trim()`: the text is empty once trimmed. */
  predicate IsBlank(s: string) {
    Trim(s) == ""
  }

  /** A field counts as blank exactly when all of its characters are white space. */
  lemma BlankIffAllSpace(s: string)
    ensures IsBlank(s) <==> forall i :: 0 <= i < |s| ==> IsSpace(s[i])
  {
    var t := TrimStart(s);
    TrimStartShape(s);
    TrimEndShape(t);
    var k := |s| - |t|;
    assert s == s[..k] + t;
    AllConcat(s[..k], t, IsSpace);
    AllIff(s, IsSpace);
    if IsBlank(s) {
      assert t[0..] == t;
    }
  }

  /** The trimmed text starts and ends with a character that is not white space. */
  lemma TrimHasNoOuterSpace(s: string)
    ensures Trim(s) == "" || (!IsSpace(Trim(s)[0]) && !IsSpace(Trim(s)[|Trim(s)| - 1]))
  {
    var t := TrimStart(s);
    var r := TrimEnd(t);
    TrimStartShape(s);
    TrimEndShape(t);
    if r != "" {
      assert r[0] == t[0];
    }
  }

  /** An ASCII or Latin-1 capital letter: `A`-`Z` and `À`-`Þ` except the sign `×`. */
  predicate IsUpper(c: char) {
    'A' <= c <= 'Z' || ('\U{00C0}' <= c <= '\U{00DE}' && c != '\U{00D7}')
  }

  /** `toLowerCase` on one character: a capital maps to its small letter, 32 code points on. */
  function LowerChar(c: char): char {
    if IsUpper(c) then (c as int + 32) as char else c
  }

  /**
   * `s.toLowerCase()`: no capital is left, every other character is kept where it was, and
   * each capital becomes its small letter.
   */
  function ToLower(s: string): (r: string)
    ensures |r| == |s|
    ensures forall i :: 0 <= i < |r| ==> !IsUpper(r[i])
    ensures forall i :: 0 <= i < |s| && !IsUpper(s[i]) ==> r[i] == s[i]
    ensures forall i :: 0 <= i < |s| && IsUpper(s[i]) ==> r[i] as int == s[i] as int + 32
  {
    seq(|s|, i requires 0 <= i < |s| => LowerChar(s[i]))
  }

  /** Lower-casing twice changes nothing more. */
  lemma ToLowerIdempotent(s: string)
    ensures ToLower(ToLower(s)) == ToLower(s)
  {
  }

  /** `s.includes(sub)`, trying each start position in turn. */
  predicate Includes(s: string, sub: string)
    decreases |s|
  {
    (|sub| <= |s| && s[..|sub|] == sub) || (|s| > 0 && Includes(s[1..], sub))
  }

  /** `sub` occurs in `s` starting at position `i`. */
  predicate OccursAt(s: string, sub: string, i: int) {
    0 <= i <= |s| - |sub| && s[i..i + |sub|] == sub
  }

  /** `includes` holds exactly when `sub` occurs in `s` at some position. */
  lemma {:induction false} IncludesIff(s: string, sub: string)
    ensures Includes(s, sub) <==> exists i :: OccursAt(s, sub, i)
    decreases |s|
  {
    if |s| > 0 {
      IncludesIff(s[1..], sub);
      if exists i :: OccursAt(s, sub, i) {
        var i :| OccursAt(s, sub, i);
        if i > 0 {
          assert OccursAt(s[1..], sub, i - 1);
        }
      }
      if Includes(s[1..], sub) && !(|sub| <= |s| && s[..|sub|] == sub) {
        var i :| OccursAt(s[1..], sub, i);
        assert OccursAt(s, sub, i + 1);
      }
      if |sub| <= |s| && s[..|sub|] == sub {
        assert OccursAt(s, sub, 0);
      }
    } else {
      if exists i :: OccursAt(s, sub, i) {
        var i :| OccursAt(s, sub, i);
        assert i == 0;
      }
      if Includes(s, sub) {
        assert OccursAt(s, sub, 0);
      }
    }
  }

  /** `text.toLowerCase().includes(search.toLowerCase())`: the case-insensitive search of the list pages. */
  predicate MatchesSearch(text: string, search: string) {
    Includes(ToLower(text), ToLower(search))
  }

  /** An empty search text matches every text. */
  lemma EmptySearchMatches(text: string)
    ensures MatchesSearch(text, "")
  {
    assert ToLower(text)[..0] == ToLower("");
  }

  /** Every text matches a search for itself, whatever the case of either. */
  lemma SearchMatchesItself(text: string)
    ensures MatchesSearch(text, text)
  {
    assert ToLower(text)[..|ToLower(text)|] == ToLower(text);
  }

  /** The search ignores case: lower-casing the text beforehand changes nothing. */
  lemma SearchIgnoresCase(text: string, search: string)
    ensures MatchesSearch(ToLower(text), search) <==> MatchesSearch(text, search)
  {
    ToLowerIdempotent(text);
  }

  // ----- Number(...) on the decimal text admitted by `/^\d*\.?\d*$/` -----

  function DigitValue(c: char): nat
    requires IsDigit(c)
  {
    c as int - '0' as int
  }

  function Pow10(n: nat): (r: nat)
    ensures r >= 1
  {
    if n == 0 then 1 else 10 * Pow10(n - 1)
  }

  /** The value of a string of decimal digits, most significant first; 0 for the empty string. */
  function DigitsValue(d: string): (r: nat)
    requires All(d, IsDigit)
    ensures r < Pow10(|d|)
  {
    if d == "" then 0
    else
      AllIff(d, IsDigit);
      AllIff(d[..|d| - 1], IsDigit);
      DigitsValue(d[..|d| - 1]) * 10 + DigitValue(d[|d| - 1])
  }

  /** Digits, at most one dot, digits: `/^\d*\.?\d*$/`. */
  predicate IsDecimalText(s: string) {
    match DotIndex(s)
    case None => All(s, IsDigit)
    case Some(k) => All(s[..k], IsDigit) && All(s[k + 1..], IsDigit)
  }

  /** The position of the first dot. */
  function DotIndex(s: string): (r: Option<nat>)
    ensures r.None? <==> '.' !in s
    ensures r.Some? ==> r.value < |s| && s[r.value] == '.' && '.' !in s[..r.value]
    decreases |s|
  {
    if s == [] then None
    else if s[0] == '.' then Some(0)
    else
      match DotIndex(s[1..])
      case None => None
      case Some(k) =>
        assert s[..k + 1] == [s[0]] + s[1..][..k];
        Some(k + 1)
  }

  predicate IsDigitOrDot(c: char) { IsDigit(c) || c == '.' }

  /** Number of dots in `s`. */
  function DotCount(s: string): nat
    decreases |s|
  {
    if s == [] then 0 else (if s[0] == '.' then 1 else 0) + DotCount(s[1..])
  }

  lemma {:induction false} DotCountZero(s: string)
    ensures DotCount(s) == 0 <==> '.' !in s
    decreases |s|
  {
    if s != [] {
      DotCountZero(s[1..]);
      assert s == [s[0]] + s[1..];
    }
  }

  lemma {:induction false} DotCountConcat(a: string, b: string)
    ensures DotCount(a + b) == DotCount(a) + DotCount(b)
    decreases |a|
  {
    if a != [] {
      assert (a + b)[0] == a[0];
      assert (a + b)[1..] == a[1..] + b;
      DotCountConcat(a[1..], b);
      assert DotCount(a + b) == (if a[0] == '.' then 1 else 0) + DotCount(a[1..] + b);
    } else {
      assert a + b == b;
    }
  }

  /** A text is all digits exactly when it is all digits and dots without a dot. */
  lemma DigitsIffNoDot(t: string)
    ensures All(t, IsDigit) <==> All(t, IsDigitOrDot) && DotCount(t) == 0
  {
    AllIff(t, IsDigit);
    AllIff(t, IsDigitOrDot);
    DotCountZero(t);
  }

  /** The discount filter's pattern admits exactly the strings of digits and dots with at most one dot. */
  lemma DecimalTextIff(s: string)
    ensures IsDecimalText(s) <==> All(s, IsDigitOrDot) && DotCount(s) <= 1
  {
    match DotIndex(s)
    case None =>
      DigitsIffNoDot(s);
    case Some(k) =>
      var a, b := s[..k], s[k + 1..];
      assert s == a + ['.'] + b;
      AllConcat(a + ['.'], b, IsDigitOrDot);
      AllConcat(a, ['.'], IsDigitOrDot);
      DotCountConcat(a + ['.'], b);
      DotCountConcat(a, ['.']);
      DotCountZero(a);
      DigitsIffNoDot(a);
      DigitsIffNoDot(b);
      assert DotCount(['.']) == 1;
  }

  /**
   * `Number(s)` for a decimal text: the empty string is 0, "." alone is NaN (None),
   * otherwise the integer part plus the fraction. Any other string is taken as NaN.
   */
  function DecimalValue(s: string): Option<real> {
    if !IsDecimalText(s) then None
    else
      match DotIndex(s)
      case None =>
        Some(DigitsValue(s) as real)
      case Some(k) =>
        if |s| == 1 then None
        else
          Some(DigitsValue(s[..k]) as real + DigitsValue(s[k + 1..]) as real / Pow10(|s| - k - 1) as real)
  }

  /** A text of digits only is read as its integer value. */
  lemma DigitTextValue(s: string)
    requires All(s, IsDigit)
    ensures DecimalValue(s) == Some(DigitsValue(s) as real)
  {
    AllIff(s, IsDigit);
    assert forall i :: 0 <= i < |s| ==> s[i] != '.';
  }
}

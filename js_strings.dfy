/**
 * The JavaScript string built-ins the application uses, over Dafny strings:
 * `trim`, ASCII `toLowerCase`/`toUpperCase`, `includes`, `startsWith`,
 * `split` on one character, `join`, and the decimal `toString` of an integer.
 */
module JsStrings {

  predicate IsDigit(c: char) {
    '0' <= c <= '9'
  }

  predicate AllDigits(s: string) {
    forall c :: c in s ==> IsDigit(c)
  }

  /**
   * The characters `String.prototype.trim` removes: ECMAScript's WhiteSpace
   * (TAB, VT, FF, ZWNBSP and the Unicode "Zs" category) and LineTerminator
   * (LF, CR, LS, PS).
   */
  predicate IsWhitespace(c: char) {
    c == '\t' || c == '\n' || c == '\U{000B}' || c == '\U{000C}' || c == '\r' || c == ' '
    || c == '\U{00A0}' || c == '\U{1680}' || ('\U{2000}' <= c <= '\U{200A}')
    || c == '\U{2028}' || c == '\U{2029}' || c == '\U{202F}' || c == '\U{205F}'
    || c == '\U{3000}' || c == '\U{FEFF}'
  }

  /** Every character of `s` satisfies `p`. */
  predicate AllSatisfy(s: string, p: char -> bool) {
    forall c :: c in s ==> p(c)
  }

  predicate AllWhitespace(s: string) {
    AllSatisfy(s, IsWhitespace)
  }

  // ---------------------------------------------------------------------------
  // Case mapping (ASCII letters only)

  function LowerChar(c: char): char {
    if 'A' <= c <= 'Z' then (c as int + 32) as char else c
  }

  function UpperChar(c: char): char {
    if 'a' <= c <= 'z' then (c as int - 32) as char else c
  }

  /** `s.toLowerCase()`: every character mapped on its own, length kept. */
  function ToLower(s: string): (r: string)
    ensures |r| == |s|
    ensures forall i :: 0 <= i < |s| ==> r[i] == LowerChar(s[i])
  {
    if s == [] then [] else [LowerChar(s[0])] + ToLower(s[1..])
  }

  /** `s.toUpperCase()`: every character mapped on its own, length kept. */
  function ToUpper(s: string): (r: string)
    ensures |r| == |s|
    ensures forall i :: 0 <= i < |s| ==> r[i] == UpperChar(s[i])
  {
    if s == [] then [] else [UpperChar(s[0])] + ToUpper(s[1..])
  }

  // ---------------------------------------------------------------------------
  // trim

  /** The number of characters satisfying `p` that `s` starts with. */
  function LeadingRun(s: string, p: char -> bool): (n: nat)
    ensures n <= |s|
    ensures AllSatisfy(s[..n], p)
    ensures n == |s| || !p(s[n])
  {
    if |s| > 0 && p(s[0]) then
      var m := LeadingRun(s[1..], p);
      assert s[..1 + m] == [s[0]] + s[1..][..m];
      1 + m
    else
      0
  }

  /** The number of characters satisfying `p` that `s` ends with. */
  function TrailingRun(s: string, p: char -> bool): (n: nat)
    ensures n <= |s|
    ensures AllSatisfy(s[|s| - n..], p)
    ensures n == |s| || !p(s[|s| - n - 1])
  {
    if |s| > 0 && p(s[|s| - 1]) then
      var t := s[..|s| - 1];
      var m := TrailingRun(t, p);
      assert s[|s| - (1 + m)..] == t[|t| - m..] + [s[|s| - 1]];
      1 + m
    else
      0
  }

  /**
   * `s.trim()`: `s` without its leading and trailing whitespace. The result
   * is empty exactly when `s` is all whitespace, and otherwise neither starts
   * nor ends with whitespace.
   */
  function Trim(s: string): (r: string)
    ensures |r| <= |s|
    ensures r == [] <==> AllWhitespace(s)
    ensures r == [] || (!IsWhitespace(r[0]) && !IsWhitespace(r[|r| - 1]))
  {
    var i := LeadingRun(s, IsWhitespace);
    var j := if i == |s| then i else |s| - TrailingRun(s, IsWhitespace);
    TrimShape(s, IsWhitespace, i, j);
    s[i..j]
  }

  /**
   * What `trim` removes is whitespace on either side: `s` is the leading
   * whitespace run, then the trimmed string, then whitespace to the end.
   */
  lemma TrimIsMiddle(s: string)
    ensures var k := LeadingRun(s, IsWhitespace);
      k + |Trim(s)| <= |s| && s[k..k + |Trim(s)|] == Trim(s)
      && AllWhitespace(s[..k]) && AllWhitespace(s[k + |Trim(s)|..])
  {
    var i := LeadingRun(s, IsWhitespace);
    var j := if i == |s| then i else |s| - TrailingRun(s, IsWhitespace);
    TrimShape(s, IsWhitespace, i, j);
    assert Trim(s) == s[i..j];
  }

  /**
   * Cutting the maximal runs of characters satisfying `p` off both ends of
   * `s` leaves a slice that is empty exactly when all of `s` satisfies `p`,
   * and otherwise starts and ends with characters that do not; the two cut
   * ends and the slice make up `s`.
   */
  lemma TrimShape(s: string, p: char -> bool, i: nat, j: int)
    requires i <= |s| && AllSatisfy(s[..i], p) && (i == |s| || !p(s[i]))
    requires i == |s| ==> j == i
    requires i < |s| ==> 0 <= j <= |s| && AllSatisfy(s[j..], p) && (j == 0 || !p(s[j - 1]))
    ensures i <= j <= |s|
    ensures s[i..j] == [] <==> AllSatisfy(s, p)
    ensures s[i..j] == [] || (!p(s[i..j][0]) && !p(s[i..j][j - i - 1]))
    ensures AllSatisfy(s[..i], p) && AllSatisfy(s[j..], p) && s == s[..i] + s[i..j] + s[j..]
  {
    if i == |s| {
      assert s[..i] == s && s[j..] == [];
    } else {
      DropSatisfies(s, j, p);
      assert s[i] in s && i < j;
    }
  }

  /** Every character past position `j` of `s` satisfies `p` when the suffix from `j` does. */
  lemma DropSatisfies(s: string, j: int, p: char -> bool)
    requires 0 <= j <= |s| && AllSatisfy(s[j..], p)
    ensures forall k :: j <= k < |s| ==> p(s[k])
  {
    forall k | j <= k < |s| ensures p(s[k]) {
      assert s[k] == s[j..][k - j];
    }
  }

  /** A string that neither starts nor ends with whitespace is its own trim. */
  lemma TrimUnpadded(s: string)
    requires s == [] || (!IsWhitespace(s[0]) && !IsWhitespace(s[|s| - 1]))
    ensures Trim(s) == s
  {
    if s != [] {
      assert LeadingRun(s, IsWhitespace) == 0 && TrailingRun(s, IsWhitespace) == 0;
    }
  }

  // ---------------------------------------------------------------------------
  // includes, startsWith

  /** `s.startsWith(p)`. */
  predicate StartsWith(s: string, p: string) {
    |p| <= |s| && s[..|p|] == p
  }

  /** `s.includes(t)`: `t` occurs in `s` at some position. */
  predicate Includes(s: string, t: string)
    decreases |s|
  {
    StartsWith(s, t) || (|s| > 0 && Includes(s[1..], t))
  }

  /** `t` occurs in `s` starting at index `i`. */
  predicate OccursAt(s: string, t: string, i: int) {
    0 <= i <= |s| - |t| && s[i..i + |t|] == t
  }

  /** `Includes` holds exactly when `t` is a contiguous slice of `s`. */
  lemma {:induction false} IncludesAt(s: string, t: string)
    ensures Includes(s, t) <==> exists i :: OccursAt(s, t, i)
    decreases |s|
  {
    if StartsWith(s, t) {
      assert OccursAt(s, t, 0);
    } else if |s| > 0 {
      IncludesAt(s[1..], t);
      if exists i :: OccursAt(s, t, i) {
        var i :| OccursAt(s, t, i);
        assert i > 0;
        assert OccursAt(s[1..], t, i - 1) by {
          assert s[1..][i - 1..i - 1 + |t|] == s[i..i + |t|];
        }
      }
      if Includes(s[1..], t) {
        var i :| OccursAt(s[1..], t, i);
        assert OccursAt(s, t, i + 1) by {
          assert s[1..][i..i + |t|] == s[i + 1..i + 1 + |t|];
        }
      }
    }
  }

  // ---------------------------------------------------------------------------
  // split and join

  /** The number of occurrences of `c` in `s`. */
  function Count(s: string, c: char): nat {
    if s == [] then 0 else (if s[0] == c then 1 else 0) + Count(s[1..], c)
  }

  /**
   * `s.split(sep)` for a one-character separator: the pieces between the
   * separators, one more than there are separators (so `"".split(",")` is
   * `[""]`), none of them holding the separator.
   */
  function Split(s: string, sep: char): (parts: seq<string>)
    ensures |parts| == Count(s, sep) + 1
    ensures forall p :: p in parts ==> sep !in p
  {
    if s == [] then [""]
    else
      var rest := Split(s[1..], sep);
      if s[0] == sep then [""] + rest
      else
        assert rest[0] in rest;
        assert forall p :: p in rest[1..] ==> p in rest;
        [[s[0]] + rest[0]] + rest[1..]
  }

  /** `parts.join(sep)`. */
  function Join(parts: seq<string>, sep: string): string {
    if |parts| == 0 then ""
    else if |parts| == 1 then parts[0]
    else parts[0] + sep + Join(parts[1..], sep)
  }

  /** Joining the pieces of a split with the separator gives back the string. */
  lemma {:induction false} JoinSplit(s: string, sep: char)
    ensures Join(Split(s, sep), [sep]) == s
  {
    if s != [] {
      var rest := Split(s[1..], sep);
      JoinSplit(s[1..], sep);
      if s[0] == sep {
        assert ([""] + rest)[1..] == rest;
      } else {
        var parts := [[s[0]] + rest[0]] + rest[1..];
        assert parts[1..] == rest[1..];
        if |rest| > 1 {
          assert Join(rest, [sep]) == rest[0] + [sep] + Join(rest[1..], [sep]);
        }
      }
    }
  }

  /** Every character of every piece comes from the string that was split. */
  lemma {:induction false} SplitPiecesFromString(s: string, sep: char)
    ensures forall p, c :: p in Split(s, sep) && c in p ==> c in s
  {
    if s != [] {
      SplitPiecesFromString(s[1..], sep);
      var rest := Split(s[1..], sep);
      assert forall c :: c in s[1..] ==> c in s;
      if s[0] != sep {
        assert rest[0] in rest;
        assert forall p :: p in rest[1..] ==> p in rest;
      }
    }
  }

  // ---------------------------------------------------------------------------
  // Decimal notation of integers (`n.toString()`, `${n}`)

  function DigitChar(d: nat): (c: char)
    requires d < 10
    ensures IsDigit(c)
  {
    ('0' as int + d) as char
  }

  function DigitValue(c: char): (d: nat)
    requires IsDigit(c)
    ensures d < 10 && DigitChar(d) == c
  {
    c as int - '0' as int
  }

  /** The decimal notation of `n`: digits only, without leading zeros. */
  function NatToString(n: nat): (s: string)
    ensures |s| >= 1 && AllDigits(s)
    ensures s[0] == '0' ==> n == 0 && s == "0"
    decreases n
  {
    if n < 10 then [DigitChar(n)] else NatToString(n / 10) + [DigitChar(n % 10)]
  }

  /** The value of a string of decimal digits. */
  function ParseNat(s: string): nat
    requires AllDigits(s)
    decreases |s|
  {
    if s == [] then 0
    else
      assert s[|s| - 1] in s;
      ParseNat(s[..|s| - 1]) * 10 + DigitValue(s[|s| - 1])
  }

  /** Reading back the decimal notation of `n` gives `n`. */
  lemma {:induction false} ParseNatToString(n: nat)
    ensures ParseNat(NatToString(n)) == n
    decreases n
  {
    if n >= 10 {
      var s := NatToString(n);
      assert s[..|s| - 1] == NatToString(n / 10);
      ParseNatToString(n / 10);
    }
  }

  /** `n.toString()` for an integer: a minus sign before the notation of `-n` when negative. */
  function IntToString(n: int): string {
    if n < 0 then "-" + NatToString(-n) else NatToString(n)
  }

  /** The value of an optionally signed string of decimal digits. */
  function ParseInt(s: string): int
    requires |s| > 0 && (s[0] == '-' ==> AllDigits(s[1..])) && (s[0] != '-' ==> AllDigits(s))
  {
    if s[0] == '-' then 0 - ParseNat(s[1..]) else ParseNat(s) as int
  }

  /** Reading back the notation of an integer gives the integer. */
  lemma IntToStringRoundTrip(n: int)
    ensures var s := IntToString(n);
            |s| > 0 && (s[0] == '-' ==> AllDigits(s[1..])) && (s[0] != '-' ==> AllDigits(s))
            && ParseInt(s) == n
  {
    if n < 0 {
      ParseNatToString(-n);
      assert IntToString(n)[1..] == NatToString(-n);
    } else {
      ParseNatToString(n);
      assert IntToString(n)[0] in IntToString(n);
    }
  }
}

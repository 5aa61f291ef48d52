/**
 * Python's `int()` applied to a `str`, and `str()` applied to an `int`.
 *
 * `int(s)` accepts surrounding whitespace, one optional sign and a
 * non-empty run of decimal digits.  The model admits the ASCII characters
 * Python 3 treats as whitespace and the ASCII digits.
 */
module IntLiteral {
  import opened Wrappers

  predicate IsDigit(c: char) { '0' <= c <= '9' }

  /**
   * The ASCII characters `str.strip()` and `int()` treat as whitespace in
   * Python 3: tab to carriage return, the four separators 0x1C-0x1F and space.
   */
  predicate IsSpace(c: char) {
    '\t' <= c <= '\r' || '\U{1C}' <= c <= ' '
  }

  predicate IsSign(c: char) { c == '+' || c == '-' }

  predicate AllDigits(s: string) { forall i :: 0 <= i < |s| ==> IsDigit(s[i]) }

  predicate AllSpaces(s: string) { forall i :: 0 <= i < |s| ==> IsSpace(s[i]) }

  /** `s` splits as spaces `s[..i]`, an optional sign `s[i..j]`, digits `s[j..k]` and spaces `s[k..]`. */
  ghost predicate LiteralSplit(s: string, i: int, j: int, k: int) {
    && 0 <= i <= j < k <= |s|
    && AllSpaces(s[..i])
    && (j == i || (j == i + 1 && IsSign(s[i])))
    && AllDigits(s[j..k])
    && AllSpaces(s[k..])
  }

  /** The strings `int()` accepts, stated as the grammar of an integer literal. */
  ghost predicate IsIntLiteral(s: string) {
    exists i, j, k :: LiteralSplit(s, i, j, k)
  }

  function DigitValue(c: char): (d: nat)
    requires IsDigit(c)
    ensures d < 10
  {
    (c as int) - ('0' as int)
  }

  function DigitChar(d: nat): (c: char)
    requires d < 10
    ensures IsDigit(c) && DigitValue(c) == d
  {
    ('0' as int + d) as char
  }

  /** The value of a decimal digit string, most significant digit first. */
  function DigitsValue(d: string): nat
    requires AllDigits(d)
    decreases |d|
  {
    if d == [] then 0 else 10 * DigitsValue(d[..|d| - 1]) + DigitValue(d[|d| - 1])
  }

  /** Number of whitespace characters `str.lstrip()` would remove. */
  function LeadingSpaces(s: string): (n: nat)
    ensures n <= |s| && AllSpaces(s[..n])
    ensures n < |s| ==> !IsSpace(s[n])
  {
    if s == [] || !IsSpace(s[0]) then 0
    else
      var n' := LeadingSpaces(s[1..]);
      assert s[..n' + 1] == [s[0]] + s[1..][..n'];
      n' + 1
  }

  /** Number of whitespace characters `str.rstrip()` would remove. */
  function TrailingSpaces(s: string): (n: nat)
    ensures n <= |s| && AllSpaces(s[|s| - n..])
    ensures n < |s| ==> !IsSpace(s[|s| - n - 1])
  {
    if s == [] || !IsSpace(s[|s| - 1]) then 0
    else
      var p := s[..|s| - 1];
      var n' := TrailingSpaces(p);
      assert s[|s| - (n' + 1)..] == p[|p| - n'..] + [s[|s| - 1]];
      n' + 1
  }

  /** `int(s)`: `None` where Python raises `ValueError`. */
  function ParseInt(s: string): Option<int> {
    var i := LeadingSpaces(s);
    var k := |s| - TrailingSpaces(s);
    if k <= i then None
    else if IsSign(s[i]) then
      var digits := s[i + 1..k];
      if |digits| > 0 && AllDigits(digits) then
        var magnitude: int := DigitsValue(digits);
        Some(if s[i] == '-' then -magnitude else magnitude)
      else None
    else if AllDigits(s[i..k]) then Some(DigitsValue(s[i..k]))
    else None
  }

  /** The whitespace prefix before a non-space character is exactly what `LeadingSpaces` counts. */
  lemma LeadingSpacesUnique(s: string, i: nat)
    requires i < |s| && AllSpaces(s[..i]) && !IsSpace(s[i])
    ensures LeadingSpaces(s) == i
  {
  }

  /** The whitespace suffix after a non-space character is exactly what `TrailingSpaces` counts. */
  lemma TrailingSpacesUnique(s: string, k: nat)
    requires 0 < k <= |s| && AllSpaces(s[k..]) && !IsSpace(s[k - 1])
    ensures TrailingSpaces(s) == |s| - k
  {
  }

  /** Every string `int()` accepts is an integer literal. */
  lemma ParseIntSound(s: string)
    requires ParseInt(s).Some?
    ensures IsIntLiteral(s)
  {
    var i := LeadingSpaces(s);
    var k := |s| - TrailingSpaces(s);
    if IsSign(s[i]) {
      assert LiteralSplit(s, i, i + 1, k);
    } else {
      assert LiteralSplit(s, i, i, k);
    }
  }

  /** Digits and signs are not whitespace. */
  lemma NotSpace(c: char)
    requires IsDigit(c) || IsSign(c)
    ensures !IsSpace(c)
  {
  }

  /** Every integer literal is accepted by `int()`. */
  lemma ParseIntComplete(s: string, i: nat, j: nat, k: nat)
    requires LiteralSplit(s, i, j, k)
    ensures ParseInt(s).Some?
  {
    assert s[j..k][0] == s[j];
    NotSpace(s[i]);
    LeadingSpacesUnique(s, i);
    assert s[j..k][k - 1 - j] == s[k - 1];
    NotSpace(s[k - 1]);
    TrailingSpacesUnique(s, k);
    if j == i + 1 {
      assert s[i + 1..k] == s[j..k];
    }
  }

  /** `int()` succeeds exactly on the strings the literal grammar describes. */
  lemma ParseIntAcceptsLiterals(s: string)
    ensures ParseInt(s).Some? <==> IsIntLiteral(s)
  {
    if ParseInt(s).Some? {
      ParseIntSound(s);
    }
    if IsIntLiteral(s) {
      var i, j, k :| LiteralSplit(s, i, j, k);
      ParseIntComplete(s, i, j, k);
    }
  }

  /** `str(n)` for a natural number: its decimal digits, most significant first. */
  function NatToString(n: nat): (s: string)
    ensures |s| > 0 && AllDigits(s) && DigitsValue(s) == n
  {
    if n < 10 then [DigitChar(n)]
    else
      var p := NatToString(n / 10);
      var s := p + [DigitChar(n % 10)];
      assert s[..|s| - 1] == p;
      s
  }

  /** `str(n)`: a minus sign for negative numbers, then the digits of the magnitude. */
  function IntToString(n: int): (s: string)
    ensures |s| > 0 && IsDigit(s[|s| - 1])
    ensures n < 0 ==> s[0] == '-' && AllDigits(s[1..])
    ensures n >= 0 ==> AllDigits(s)
  {
    if n < 0 then "-" + NatToString(-n) else NatToString(n)
  }

  /** A string that neither starts nor ends with whitespace has nothing to strip. */
  lemma NothingToStrip(s: string)
    requires |s| > 0 && !IsSpace(s[0]) && !IsSpace(s[|s| - 1])
    ensures LeadingSpaces(s) == 0 && TrailingSpaces(s) == 0
  {
  }

  /** `int(str(n)) == n`: parsing undoes formatting. */
  lemma ParseIntRoundTrip(n: int)
    ensures ParseInt(IntToString(n)) == Some(n)
  {
    var s := IntToString(n);
    NotSpace(s[0]);
    NotSpace(s[|s| - 1]);
    NothingToStrip(s);
    if n < 0 {
      assert s[1..|s|] == NatToString(-n);
    } else {
      assert s[0..|s|] == s;
    }
  }
}

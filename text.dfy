/** String primitives the components rely on: JavaScript's `String.prototype.includes`,
    `String.prototype.trim` and the decimal rendering of a non-negative integer
    (`Date.now().toString()` and template literals). */
module Text {

  /** `s.startsWith(p)`. */
  predicate IsPrefix(p: string, s: string) {
    |p| <= |s| && s[..|p|] == p
  }

  /** `w` occurs in `s` starting at index `i`. */
  ghost predicate OccursAt(s: string, w: string, i: int) {
    0 <= i && i + |w| <= |s| && s[i..i + |w|] == w
  }

  /** `s.includes(w)`: a left-to-right scan; the empty string occurs everywhere. The
      scan agrees with the definition of an occurrence, in both directions. */
  function Includes(s: string, w: string): (r: bool)
    ensures r <==> exists i :: OccursAt(s, w, i)
    decreases |s|
  {
    if |s| < |w| then
      assert forall i :: !OccursAt(s, w, i);
      false
    else if IsPrefix(w, s) then
      assert OccursAt(s, w, 0);
      true
    else
      ShiftOccurrences(s, w);
      Includes(s[1..], w)
  }

  lemma {:induction false} OccursAtShift(s: string, w: string, i: nat)
    requires |s| > 0
    ensures OccursAt(s[1..], w, i) <==> OccursAt(s, w, i + 1)
  {
    if 0 <= i && i + |w| <= |s| - 1 {
      assert s[1..][i..i + |w|] == s[i + 1..i + 1 + |w|];
    }
  }

  /** When `w` does not start `s`, its occurrences in `s` are those in `s[1..]`, shifted
      by one. */
  lemma ShiftOccurrences(s: string, w: string)
    requires |s| >= |w| && !IsPrefix(w, s)
    ensures |s| > 0
    ensures (exists i :: OccursAt(s[1..], w, i)) <==> (exists i :: OccursAt(s, w, i))
  {
    if exists i :: OccursAt(s[1..], w, i) {
      var i :| OccursAt(s[1..], w, i);
      OccursAtShift(s, w, i);
      assert OccursAt(s, w, i + 1);
    }
    if exists i :: OccursAt(s, w, i) {
      var i :| OccursAt(s, w, i);
      assert i != 0;
      OccursAtShift(s, w, i - 1);
      assert OccursAt(s[1..], w, i - 1);
    }
  }

  /** An occurrence at a known index is found by the scan. */
  lemma OccursIncludes(s: string, w: string, i: int)
    requires OccursAt(s, w, i)
    ensures Includes(s, w)
  {
  }

  /** No occurrence may start at an index whose character differs from `w`'s first one. */
  lemma {:induction false} NotIncludesByFirstChar(s: string, w: string)
    requires |w| > 0
    requires forall i :: 0 <= i < |s| && s[i] == w[0] ==> !OccursAt(s, w, i)
    ensures !Includes(s, w)
  {
    forall i | 0 <= i < |s| && i + |w| <= |s| && s[i] != w[0] ensures !OccursAt(s, w, i) {
      assert s[i..i + |w|][0] != w[0];
    }
  }

  /** The characters `String.prototype.trim` removes: ECMAScript WhiteSpace and
      LineTerminator (tab, line tabulation, form feed, space, no-break space,
      byte order mark, the Unicode space separators, LF, CR, LS, PS). */
  predicate IsJsWhitespace(c: char) {
    c == '\t' || c == '\n' || c == '\U{000B}' || c == '\U{000C}' || c == '\r' || c == ' '
    || c == '\U{00A0}' || c == '\U{1680}' || ('\U{2000}' <= c <= '\U{200A}')
    || c == '\U{2028}' || c == '\U{2029}' || c == '\U{202F}' || c == '\U{205F}'
    || c == '\U{3000}' || c == '\U{FEFF}'
  }

  /** Drops leading whitespace: the result is a suffix of `s` that does not start with
      whitespace, and everything dropped was whitespace. */
  function TrimStart(s: string): (r: string)
    ensures |r| <= |s| && r == s[|s| - |r|..]
    ensures r != [] ==> !IsJsWhitespace(r[0])
  {
    if |s| > 0 && IsJsWhitespace(s[0]) then TrimStart(s[1..]) else s
  }

  /** Everything `TrimStart` drops is whitespace. */
  lemma {:induction false} TrimStartDropsWhitespace(s: string)
    ensures forall i :: 0 <= i < |s| - |TrimStart(s)| ==> IsJsWhitespace(s[i])
  {
    if |s| > 0 && IsJsWhitespace(s[0]) {
      var t := s[1..];
      TrimStartDropsWhitespace(t);
      forall i | 1 <= i < |s| - |TrimStart(s)| ensures IsJsWhitespace(s[i]) {
        assert s[i] == t[i - 1];
      }
    }
  }

  /** Drops trailing whitespace: the result is a prefix of `s` that does not end with
      whitespace, and everything dropped was whitespace. */
  function TrimEnd(s: string): (r: string)
    ensures |r| <= |s| && r == s[..|r|]
    ensures r != [] ==> !IsJsWhitespace(r[|r| - 1])
  {
    if |s| > 0 && IsJsWhitespace(s[|s| - 1]) then TrimEnd(s[..|s| - 1]) else s
  }

  /** Everything `TrimEnd` drops is whitespace. */
  lemma {:induction false} TrimEndDropsWhitespace(s: string)
    ensures forall i :: |TrimEnd(s)| <= i < |s| ==> IsJsWhitespace(s[i])
  {
    if |s| > 0 && IsJsWhitespace(s[|s| - 1]) {
      TrimEndDropsWhitespace(s[..|s| - 1]);
    }
  }

  /** `w` occurs in `s` at `k`, and everything before and after that occurrence is
      whitespace. */
  ghost predicate BetweenWhitespace(s: string, w: string, k: int) {
    OccursAt(s, w, k)
    && (forall i :: 0 <= i < k ==> IsJsWhitespace(s[i]))
    && (forall i :: k + |w| <= i < |s| ==> IsJsWhitespace(s[i]))
  }

  /** `s.trim()`: the piece of `s` left after removing its leading and trailing
      whitespace, which neither starts nor ends with whitespace. */
  function Trim(s: string): (r: string)
    ensures |r| <= |s|
    ensures exists k :: BetweenWhitespace(s, r, k)
    ensures r != [] ==> !IsJsWhitespace(r[0]) && !IsJsWhitespace(r[|r| - 1])
  {
    var t := TrimStart(s);
    var r := TrimEnd(t);
    TrimStartDropsWhitespace(s);
    TrimEndDropsWhitespace(t);
    WhitespaceAround(s, |s| - |t|, r);
    r
  }

  /** A prefix `r` of `s[k..]` is between whitespace when everything before `k` is
      whitespace and so is everything in `s[k..]` after `r`. */
  lemma WhitespaceAround(s: string, k: nat, r: string)
    requires k <= |s| && |r| <= |s| - k && r == s[k..][..|r|]
    requires forall i :: 0 <= i < k ==> IsJsWhitespace(s[i])
    requires forall i :: |r| <= i < |s| - k ==> IsJsWhitespace(s[k..][i])
    ensures BetweenWhitespace(s, r, k)
  {
    assert s[k..k + |r|] == r;
    forall i | k + |r| <= i < |s| ensures IsJsWhitespace(s[i]) {
      assert s[i] == s[k..][i - k];
    }
  }

  /** Some character of `s` is not whitespace. */
  predicate HasVisible(s: string) {
    |s| > 0 && (!IsJsWhitespace(s[0]) || HasVisible(s[1..]))
  }

  /** `!s.trim()`: nothing is left after trimming. Stated here as "no visible
      character"; `BlankIffTrimEmpty` shows that this is exactly `Trim(s) == ""`. */
  predicate IsBlank(s: string) {
    !HasVisible(s)
  }

  lemma {:induction false} HasVisibleIffSomeChar(s: string)
    ensures HasVisible(s) <==> exists i :: 0 <= i < |s| && !IsJsWhitespace(s[i])
  {
    if |s| > 0 {
      HasVisibleIffSomeChar(s[1..]);
      if exists i :: 0 <= i < |s| && !IsJsWhitespace(s[i]) {
        var i :| 0 <= i < |s| && !IsJsWhitespace(s[i]);
        if i > 0 {
          assert s[1..][i - 1] == s[i];
        }
      }
      if exists i :: 0 <= i < |s| - 1 && !IsJsWhitespace(s[1..][i]) {
        var i :| 0 <= i < |s| - 1 && !IsJsWhitespace(s[1..][i]);
        assert s[i + 1] == s[1..][i];
      }
    }
  }

  /** Trimming leaves nothing exactly when every character is whitespace. */
  lemma TrimEmptyIffAllWhitespace(s: string)
    ensures Trim(s) == "" <==> forall i :: 0 <= i < |s| ==> IsJsWhitespace(s[i])
  {
    var t := TrimStart(s);
    TrimStartDropsWhitespace(s);
    TrimEndDropsWhitespace(t);
    if Trim(s) == "" {
      assert t == [];
    } else {
      var r := TrimEnd(t);
      assert r[0] == t[0] == s[|s| - |t|];
    }
  }

  /** A string is blank exactly when `trim` leaves nothing of it. */
  lemma BlankIffTrimEmpty(s: string)
    ensures IsBlank(s) <==> Trim(s) == ""
  {
    HasVisibleIffSomeChar(s);
    TrimEmptyIffAllWhitespace(s);
  }

  predicate IsDigit(c: char) {
    '0' <= c <= '9'
  }

  function DigitChar(d: nat): (c: char)
    requires d < 10
    ensures IsDigit(c) && c as int - '0' as int == d
  {
    (d + '0' as int) as char
  }

  function DigitValue(c: char): nat
    requires IsDigit(c)
  {
    c as int - '0' as int
  }

  /** Value of a string of decimal digits, most significant first. */
  function DecimalValue(s: string): nat
    requires forall i :: 0 <= i < |s| ==> IsDigit(s[i])
  {
    if s == [] then 0 else 10 * DecimalValue(s[..|s| - 1]) + DigitValue(s[|s| - 1])
  }

  /** `n.toString()` for a non-negative integer: a non-empty string of decimal digits
      without a leading zero (except for "0" itself). */
  function NatToString(n: nat): (r: string)
    ensures |r| >= 1
    ensures forall i :: 0 <= i < |r| ==> IsDigit(r[i])
    ensures |r| > 1 ==> r[0] != '0'
  {
    if n < 10 then [DigitChar(n)] else NatToString(n / 10) + [DigitChar(n % 10)]
  }

  /** Reading the digits back gives the number: `toString` loses nothing. */
  lemma {:induction false} NatToStringRoundTrip(n: nat)
    ensures DecimalValue(NatToString(n)) == n
  {
    var r := NatToString(n);
    if n >= 10 {
      NatToStringRoundTrip(n / 10);
      assert r[..|r| - 1] == NatToString(n / 10);
    }
  }

  /** Distinct numbers render differently. */
  lemma NatToStringInjective(m: nat, n: nat)
    requires NatToString(m) == NatToString(n)
    ensures m == n
  {
    NatToStringRoundTrip(m);
    NatToStringRoundTrip(n);
  }
}

/**
 * The JavaScript string primitives the generator relies on: trim(), the
 * regular-expression class \s, toLowerCase(), startsWith(), endsWith() and
 * includes(). Strings are sequences of Unicode scalar values.
 */
module Strings {

  /** The characters that JavaScript's trim() and \s treat as white space
    * (the WhiteSpace and LineTerminator code points of ECMAScript). */
  predicate IsSpace(c: char) {
    var n := c as int;
    n == 0x09 || n == 0x0A || n == 0x0B || n == 0x0C || n == 0x0D || n == 0x20
    || n == 0xA0 || n == 0x1680 || (0x2000 <= n <= 0x200A) || n == 0x2028
    || n == 0x2029 || n == 0x202F || n == 0x205F || n == 0x3000 || n == 0xFEFF
  }

  predicate AllSpace(s: string) {
    forall i :: 0 <= i < |s| ==> IsSpace(s[i])
  }

  /** Neither end of the string is white space. */
  predicate IsTrimmed(s: string) {
    s == [] || (!IsSpace(s[0]) && !IsSpace(s[|s| - 1]))
  }

  /** Removes the leading white space (what a leading `\s*` consumes). */
  function TrimStart(s: string): (r: string)
    ensures |r| <= |s| && r == s[|s| - |r|..]
    ensures forall i :: 0 <= i < |s| - |r| ==> IsSpace(s[i])
    ensures r == [] || !IsSpace(r[0])
    decreases |s|
  {
    if |s| > 0 && IsSpace(s[0]) then TrimStart(s[1..]) else s
  }

  /** `r` is what is left of `s` once its first `k` characters and the
    * white space after them are gone. */
  predicate TrimmedSuffix(s: string, k: nat, r: string) {
    k <= |s| && |r| <= |s| - k && r == s[|s| - |r|..]
    && (forall i :: k <= i < |s| - |r| ==> IsSpace(s[i]))
    && (r == [] || !IsSpace(r[0]))
  }

  /** Dropping a prefix and trimming the start leaves such a suffix. */
  lemma DropThenTrim(s: string, k: nat)
    requires k <= |s|
    ensures TrimmedSuffix(s, k, TrimStart(s[k..]))
  {
    DropThenTrimSuffix(s, k);
    DropThenTrimSpaces(s, k);
  }

  lemma {:induction false} DropThenTrimSuffix(s: string, k: nat)
    requires k <= |s|
    ensures var r := TrimStart(s[k..]); |r| <= |s| - k && r == s[|s| - |r|..]
  {
  }

  lemma {:induction false} DropThenTrimSpaces(s: string, k: nat)
    requires k <= |s|
    ensures var r := TrimStart(s[k..]); forall i :: k <= i < |s| - |r| ==> IsSpace(s[i])
  {
    var t := s[k..];
    assert forall i :: k <= i < |s| ==> s[i] == t[i - k];
  }

  /** Removes the trailing white space (what a trailing `\s*` consumes). */
  function TrimEnd(s: string): (r: string)
    ensures |r| <= |s| && r == s[..|r|]
    ensures forall i :: |r| <= i < |s| ==> IsSpace(s[i])
    ensures r == [] || !IsSpace(r[|r| - 1])
    decreases |s|
  {
    if |s| > 0 && IsSpace(s[|s| - 1]) then TrimEnd(s[..|s| - 1]) else s
  }

  /** String.prototype.trim. */
  function Trim(s: string): (r: string)
    ensures IsTrimmed(r)
    ensures |r| <= |s|
  {
    TrimEnd(TrimStart(s))
  }

  /** Leading white space before a string that does not start with white
    * space is exactly what TrimStart removes. */
  lemma {:induction false} TrimStartPadded(w: string, x: string)
    requires AllSpace(w)
    requires x == [] || !IsSpace(x[0])
    ensures TrimStart(w + x) == x
    decreases |w|
  {
    if w == [] {
      assert w + x == x;
    } else {
      assert (w + x)[1..] == w[1..] + x;
      TrimStartPadded(w[1..], x);
    }
  }

  /** Trailing white space after a string that does not end with white space
    * is exactly what TrimEnd removes. */
  lemma {:induction false} TrimEndPadded(x: string, w: string)
    requires AllSpace(w)
    requires x == [] || !IsSpace(x[|x| - 1])
    ensures TrimEnd(x + w) == x
    decreases |w|
  {
    if w == [] {
      assert x + w == x;
    } else {
      var w' := w[..|w| - 1];
      assert (x + w)[..|x + w| - 1] == x + w';
      TrimEndPadded(x, w');
    }
  }

  /** trim() removes exactly the white space around a trimmed core. */
  lemma TrimPadded(w1: string, x: string, w2: string)
    requires AllSpace(w1) && AllSpace(w2) && IsTrimmed(x)
    ensures Trim(w1 + x + w2) == x
  {
    if x == [] {
      assert w1 + x + w2 == w1 + w2;
      assert AllSpace(w1 + w2);
      TrimStartPadded(w1 + w2, []);
      assert w1 + w2 + [] == w1 + w2;
    } else {
      assert w1 + x + w2 == w1 + (x + w2);
      TrimStartPadded(w1, x + w2);
      TrimEndPadded(x, w2);
    }
  }

  /** trim() is idempotent. */
  lemma TrimIdempotent(s: string)
    ensures Trim(Trim(s)) == Trim(s)
  {
    var t := Trim(s);
    TrimPadded([], t, []);
    assert [] + t + [] == t;
  }

  /** toLowerCase on one character; only ASCII letters are folded. */
  function LowerChar(c: char): char {
    if 'A' <= c <= 'Z' then (c as int + 32) as char else c
  }

  /** String.prototype.toLowerCase, restricted to ASCII case folding. */
  function ToLower(s: string): (r: string)
    ensures |r| == |s|
    ensures forall i :: 0 <= i < |s| ==> r[i] == LowerChar(s[i])
  {
    seq(|s|, i requires 0 <= i < |s| => LowerChar(s[i]))
  }

  /** `s.toLowerCase().startsWith(p)` for a lower-case `p`, stated one
    * character at a time. */
  predicate StartsWithLower(s: string, p: string) {
    |p| <= |s| && forall i :: 0 <= i < |p| ==> LowerChar(s[i]) == p[i]
  }

  lemma StartsWithLowerIsStartsWith(s: string, p: string)
    ensures StartsWithLower(s, p) <==> StartsWith(ToLower(s), p)
  {
    if StartsWith(ToLower(s), p) {
      forall i | 0 <= i < |p| ensures LowerChar(s[i]) == p[i] {
        assert ToLower(s)[..|p|][i] == p[i];
      }
    }
  }

  predicate StartsWith(s: string, p: string) {
    |p| <= |s| && s[..|p|] == p
  }

  predicate EndsWith(s: string, p: string) {
    |p| <= |s| && s[|s| - |p|..] == p
  }

  /** String.prototype.includes: `p` occurs somewhere in `s`. */
  predicate Includes(s: string, p: string)
    ensures p == [] ==> Includes(s, p)
    ensures Includes(s, p) ==> |p| <= |s|
    decreases |s|
  {
    StartsWith(s, p) || (|s| > 0 && Includes(s[1..], p))
  }

  /** An occurrence at any position is found by includes(). */
  lemma {:induction false} IncludesAt(s: string, p: string, i: nat)
    requires i + |p| <= |s| && s[i..i + |p|] == p
    ensures Includes(s, p)
    decreases i
  {
    if i > 0 {
      assert s[1..][i - 1..i - 1 + |p|] == s[i..i + |p|];
      IncludesAt(s[1..], p, i - 1);
    }
  }

  /** Every occurrence that includes() finds lies at some position of `s`. */
  lemma {:induction false} IncludesWitness(s: string, p: string) returns (i: nat)
    requires Includes(s, p)
    ensures i + |p| <= |s| && s[i..i + |p|] == p
    decreases |s|
  {
    if StartsWith(s, p) {
      i := 0;
    } else {
      var j := IncludesWitness(s[1..], p);
      assert s[1..][j..j + |p|] == s[j + 1..j + 1 + |p|];
      i := j + 1;
    }
  }

  /** Every character of an occurrence is a character of the text. */
  lemma IncludesChars(s: string, p: string, k: nat)
    requires Includes(s, p) && k < |p|
    ensures p[k] in s
  {
    var i := IncludesWitness(s, p);
    assert s[i + k] == p[k];
  }

  predicate IsDigits(s: string) {
    forall i :: 0 <= i < |s| ==> '0' <= s[i] <= '9'
  }

  /** The number a string of decimal digits denotes. */
  function DecimalValue(s: string): nat
    requires IsDigits(s)
  {
    if s == [] then 0
    else DecimalValue(s[..|s| - 1]) * 10 + (s[|s| - 1] as int - '0' as int)
  }

  /** Decimal digits of a natural number, as a template literal prints it:
    * they denote `n`, with no leading zero. */
  function NatToString(n: nat): (r: string)
    ensures |r| > 0 && IsDigits(r)
    ensures DecimalValue(r) == n
    ensures r[0] == '0' ==> r == "0"
  {
    var d := ['0' + (n % 10) as char];
    if n < 10 then d
    else
      var h := NatToString(n / 10);
      assert (h + d)[..|h + d| - 1] == h;
      h + d
  }
}

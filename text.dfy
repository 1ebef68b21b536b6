/**
 * The .NET string operations the core relies on, over `string` = `seq<char>`.
 * White space is the ASCII set (space, tab, line feed, vertical tab, form feed,
 * carriage return); case folding is ASCII only; comparisons are ordinal.
 */
module Text {

  predicate IsWhiteSpace(c: char) {
    c == ' ' || ('\t' <= c <= '\r')
  }

  /** `string.IsNullOrWhiteSpace` for a non-null string: empty or white space only. */
  predicate IsBlank(s: string) {
    forall i :: 0 <= i < |s| ==> IsWhiteSpace(s[i])
  }

  predicate IsDigit(c: char) {
    '0' <= c <= '9'
  }

  function DigitValue(c: char): (d: int)
    requires IsDigit(c)
    ensures 0 <= d <= 9
  {
    c as int - '0' as int
  }

  function DigitChar(d: int): (c: char)
    requires 0 <= d <= 9
    ensures IsDigit(c) && DigitValue(c) == d
  {
    (d + '0' as int) as char
  }

  /** `TrimStart()`: drops the leading white space and nothing else. */
  function TrimStart(s: string): (r: string)
    ensures |r| <= |s| && r == s[|s| - |r|..]
    ensures forall i :: 0 <= i < |s| - |r| ==> IsWhiteSpace(s[i])
    ensures r == [] || !IsWhiteSpace(r[0])
  {
    if |s| > 0 && IsWhiteSpace(s[0]) then TrimStart(s[1..]) else s
  }

  /** `TrimEnd()`: drops the trailing white space and nothing else. */
  function TrimEnd(s: string): (r: string)
    ensures |r| <= |s| && r == s[..|r|]
    ensures forall i :: |r| <= i < |s| ==> IsWhiteSpace(s[i])
    ensures r == [] || !IsWhiteSpace(r[|r| - 1])
  {
    if |s| > 0 && IsWhiteSpace(s[|s| - 1]) then TrimEnd(s[..|s| - 1]) else s
  }

  /** `Trim()`: drops the white space at both ends. */
  function Trim(s: string): (r: string)
    ensures |r| <= |s|
    decreases |s|
  {
    if |s| > 0 && IsWhiteSpace(s[0]) then Trim(s[1..])
    else if |s| > 0 && IsWhiteSpace(s[|s| - 1]) then Trim(s[..|s| - 1])
    else s
  }

  /** Trimming both ends is trimming the start, then the end. */
  lemma {:induction false} TrimPartes(s: string)
    ensures Trim(s) == TrimEnd(TrimStart(s))
    decreases |s|
  {
    if |s| > 0 && IsWhiteSpace(s[0]) {
      TrimPartes(s[1..]);
    } else if |s| > 0 && IsWhiteSpace(s[|s| - 1]) {
      TrimPartes(s[..|s| - 1]);
      assert s[..|s| - 1][0] == s[0];
    }
  }

  /** Trimming yields a contiguous slice of the input whose ends are not white space. */
  lemma {:induction false} TrimIsSlice(s: string) returns (a: nat, b: nat)
    ensures a <= b <= |s| && Trim(s) == s[a..b]
    ensures forall i :: 0 <= i < a ==> IsWhiteSpace(s[i])
    ensures forall i :: b <= i < |s| ==> IsWhiteSpace(s[i])
    decreases |s|
  {
    if |s| > 0 && IsWhiteSpace(s[0]) {
      var a', b' := TrimIsSlice(s[1..]);
      a, b := a' + 1, b' + 1;
      assert s[1..][a'..b'] == s[a..b];
      forall i | 0 < i < |s| ensures s[i] == s[1..][i - 1] {
      }
    } else if |s| > 0 && IsWhiteSpace(s[|s| - 1]) {
      var a', b' := TrimIsSlice(s[..|s| - 1]);
      a, b := a', b';
      assert s[..|s| - 1][a'..b'] == s[a..b];
      forall i | 0 <= i < |s| - 1 ensures s[i] == s[..|s| - 1][i] {
      }
    } else {
      a, b := 0, |s|;
    }
  }

  /** A trimmed string is blank exactly when it is empty, and only a blank string trims to empty. */
  lemma TrimBlank(s: string)
    ensures IsBlank(Trim(s)) <==> Trim(s) == []
    ensures Trim(s) == [] <==> IsBlank(s)
  {
    var a, b := TrimIsSlice(s);
    if Trim(s) == [] {
      assert a == b;
      forall i | 0 <= i < |s| ensures IsWhiteSpace(s[i]) {
        if i >= a { assert i >= b; }
      }
    }
  }

  /** Ordinal `StartsWith`. */
  predicate StartsWith(s: string, prefix: string) {
    |prefix| <= |s| && s[..|prefix|] == prefix
  }

  function ToUpperAscii(c: char): char {
    if 'a' <= c <= 'z' then (c as int - 32) as char else c
  }

  function ToLowerAscii(c: char): char {
    if 'A' <= c <= 'Z' then (c as int + 32) as char else c
  }

  /** `ToLower()`, folding ASCII letters only. */
  function ToLower(s: string): (r: string)
    ensures |r| == |s|
    ensures forall i :: 0 <= i < |s| ==> r[i] == ToLowerAscii(s[i])
  {
    if s == [] then [] else [ToLowerAscii(s[0])] + ToLower(s[1..])
  }

  /** `string.Equals(a, b, StringComparison.OrdinalIgnoreCase)`. */
  predicate EqualsIgnoreCase(a: string, b: string) {
    |a| == |b| && forall i :: 0 <= i < |a| ==> ToUpperAscii(a[i]) == ToUpperAscii(b[i])
  }

  /** `StartsWith(prefix, StringComparison.OrdinalIgnoreCase)`. */
  predicate StartsWithIgnoreCase(s: string, prefix: string) {
    |prefix| <= |s| && EqualsIgnoreCase(s[..|prefix|], prefix)
  }

  /** `p` occurs in `s` starting at index `i`. */
  predicate OccursAt(s: string, p: string, i: int) {
    0 <= i && i + |p| <= |s| && forall k :: 0 <= k < |p| ==> s[i + k] == p[k]
  }

  /** Ordinal `Contains`: `p` occurs at some index of `s`. */
  predicate Contains(s: string, p: string) {
    exists i :: 0 <= i <= |s| - |p| && OccursAt(s, p, i)
  }

  /** `Contains(p, StringComparison.OrdinalIgnoreCase)`. */
  predicate ContainsIgnoreCase(s: string, p: string) {
    exists i :: 0 <= i <= |s| - |p| && StartsWithIgnoreCase(s[i..], p)
  }

  /** `string.Join(sep, parts)`. */
  function Join(sep: string, parts: seq<string>): string {
    if |parts| == 0 then ""
    else if |parts| == 1 then parts[0]
    else parts[0] + sep + Join(sep, parts[1..])
  }

  /** `LastIndexOf(c)`: the last index holding `c`, or -1. */
  function LastIndexOf(s: string, c: char): (r: int)
    ensures -1 <= r < |s|
    ensures r >= 0 ==> s[r] == c
    ensures forall j :: r < j < |s| ==> s[j] != c
  {
    if s == [] then -1
    else if s[|s| - 1] == c then |s| - 1
    else LastIndexOf(s[..|s| - 1], c)
  }

  /** `Replace(c.ToString(), "")`. */
  function RemoveChar(s: string, c: char): (r: string)
    ensures forall i :: 0 <= i < |r| ==> r[i] != c
    ensures |r| <= |s|
  {
    if s == [] then []
    else (if s[0] == c then [] else [s[0]]) + RemoveChar(s[1..], c)
  }

  /** `Replace(c.ToString(), d.ToString())`. */
  function ReplaceChar(s: string, c: char, d: char): (r: string)
    ensures |r| == |s|
    ensures forall i :: 0 <= i < |s| ==> r[i] == (if s[i] == c then d else s[i])
  {
    if s == [] then [] else [if s[0] == c then d else s[0]] + ReplaceChar(s[1..], c, d)
  }

  /** An occurrence in the trimmed string is an occurrence in the original. */
  lemma ContainsTrimToOriginal(s: string, p: string)
    requires Contains(Trim(s), p)
    ensures Contains(s, p)
  {
    var a, b := TrimIsSlice(s);
    var t := Trim(s);
    var j :| 0 <= j <= |t| - |p| && OccursAt(t, p, j);
    assert OccursAt(s, p, j + a);
  }

  /** An occurrence of a string free of white space lies inside the trimmed part. */
  lemma ContainsOriginalToTrim(s: string, p: string)
    requires |p| > 0 && forall k :: 0 <= k < |p| ==> !IsWhiteSpace(p[k])
    requires Contains(s, p)
    ensures Contains(Trim(s), p)
  {
    var a, b := TrimIsSlice(s);
    var t := Trim(s);
    var i :| 0 <= i <= |s| - |p| && OccursAt(s, p, i);
    assert s[i + 0] == p[0];
    assert s[i + (|p| - 1)] == p[|p| - 1];
    assert a <= i;
    assert i + |p| <= b;
    assert OccursAt(t, p, i - a);
  }

  /** A string with no white space occurs in `s` exactly when it occurs in `Trim(s)`. */
  lemma ContainsTrim(s: string, p: string)
    requires |p| > 0 && forall k :: 0 <= k < |p| ==> !IsWhiteSpace(p[k])
    ensures Contains(Trim(s), p) <==> Contains(s, p)
  {
    if Contains(s, p) { ContainsOriginalToTrim(s, p); }
    if Contains(Trim(s), p) { ContainsTrimToOriginal(s, p); }
  }

  /** A string's characters as numbers, compared code by code: the key of an ordinal comparison. */
  function OrdinalKey(s: string): (r: seq<int>)
    ensures |r| == |s| && forall i :: 0 <= i < |s| ==> r[i] == s[i] as int
  {
    seq(|s|, i requires 0 <= i < |s| => s[i] as int)
  }

  lemma OrdinalKeyInjective(a: string, b: string)
    requires OrdinalKey(a) == OrdinalKey(b)
    ensures a == b
  {
    assert forall i :: 0 <= i < |a| ==> a[i] as int == b[i] as int;
  }
}

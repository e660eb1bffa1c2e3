/**
 * The string operations the Worker relies on: ASCII lower-casing (header
 * names are compared case-insensitively), searching for a character, and
 * `String.prototype.replace` with a one-character pattern.
 */
module Strings {

  /** ASCII lower-casing of one character; every other character is kept. */
  function LowerChar(c: char): char
  {
    if 'A' <= c <= 'Z' then (c as int + 32) as char else c
  }

  /** ASCII lower-casing of a whole string, as header names are normalised. */
  function Lower(s: string): (r: string)
    ensures |r| == |s|
    ensures forall i :: 0 <= i < |s| ==> r[i] == LowerChar(s[i])
  {
    seq(|s|, i requires 0 <= i < |s| => LowerChar(s[i]))
  }

  /** True when lower-casing leaves the string unchanged. */
  predicate IsLower(s: string)
  {
    forall i :: 0 <= i < |s| ==> !('A' <= s[i] <= 'Z')
  }

  lemma LowerIsLower(s: string)
    ensures IsLower(Lower(s))
    ensures Lower(Lower(s)) == Lower(s)
  {
  }

  /** Lower-casing leaves a name that is already lower-case unchanged. */
  lemma LowerOfLower(s: string)
    ensures IsLower(s) ==> Lower(s) == s
  {
  }

  /** Index of the first character of `s` that is in `stop`, or |s| when there is none. */
  function IndexOf(s: string, stop: set<char>): (r: nat)
    ensures r <= |s|
    ensures r < |s| ==> s[r] in stop
    ensures forall i :: 0 <= i < r ==> s[i] !in stop
  {
    if s == [] then 0
    else if s[0] in stop then 0
    else 1 + IndexOf(s[1..], stop)
  }

  /** The first stop character is found where the stop-free prefix ends. */
  lemma IndexOfAt(s: string, stop: set<char>, n: nat)
    requires n <= |s| && (n == |s| || s[n] in stop)
    requires forall i :: 0 <= i < n ==> s[i] !in stop
    ensures IndexOf(s, stop) == n
  {
  }

  /** Index of the last occurrence of `c` in `s`, or -1 when there is none. */
  function LastIndexOf(s: string, c: char): (r: int)
    ensures -1 <= r < |s|
    ensures r >= 0 ==> s[r] == c
    ensures forall i :: r < i < |s| ==> s[i] != c
  {
    if s == [] then -1
    else if s[|s| - 1] == c then |s| - 1
    else LastIndexOf(s[..|s| - 1], c)
  }

  /** `s` without its leading run of `c`. */
  function DropLeading(s: string, c: char): (r: string)
    ensures |r| <= |s| && r == s[|s| - |r|..]
    ensures r == [] || r[0] != c
    ensures forall i :: 0 <= i < |s| - |r| ==> s[i] == c
  {
    if s != [] && s[0] == c then DropLeading(s[1..], c) else s
  }

  /** Exactly the leading run of `n` copies of `c` is dropped. */
  lemma DropLeadingExactly(s: string, c: char, n: nat)
    requires n <= |s| && forall i :: 0 <= i < n ==> s[i] == c
    requires n == |s| || s[n] != c
    ensures DropLeading(s, c) == s[n..]
  {
  }

  /** At least the leading run of `n` copies of `c` is dropped. */
  lemma DropLeadingAtLeast(s: string, c: char, n: nat)
    requires n <= |s| && forall i :: 0 <= i < n ==> s[i] == c
    ensures |DropLeading(s, c)| <= |s| - n
  {
  }

  /** `s.replace(c, "")` for a one-character pattern: only the first occurrence goes. */
  function RemoveFirst(s: string, c: char): (r: string)
    ensures c !in s ==> r == s
    ensures c in s ==> |r| == |s| - 1
    ensures c in s ==> exists i :: 0 <= i < |s| && s[i] == c && c !in s[..i] && r == s[..i] + s[i + 1..]
  {
    var i := IndexOf(s, {c});
    if i < |s| then s[..i] + s[i + 1..] else s
  }

  predicate IsDigit(c: char)
  {
    '0' <= c <= '9'
  }

  predicate AllDigits(s: string)
  {
    forall i :: 0 <= i < |s| ==> IsDigit(s[i])
  }

  /** The exact integer value of a string of decimal digits (the empty string is 0). */
  function DecimalValue(s: string): nat
    requires AllDigits(s)
  {
    if s == [] then 0
    else 10 * DecimalValue(s[..|s| - 1]) + (s[|s| - 1] as int - '0' as int)
  }
}

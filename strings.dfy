/**
 * The few operations of Go's `strings` package that the configuration
 * accessor relies on: case mapping, joining with a separator and trimming
 * white space. Case mapping is restricted to the ASCII letters.
 */
module Strings {

  predicate IsUpperAscii(c: char) { 'A' <= c <= 'Z' }

  predicate IsLowerAscii(c: char) { 'a' <= c <= 'z' }

  /** No ASCII upper-case letter anywhere in `s`. */
  predicate NoUpperAscii(s: string) {
    forall i :: 0 <= i < |s| ==> !IsUpperAscii(s[i])
  }

  /** No ASCII lower-case letter anywhere in `s`. */
  predicate NoLowerAscii(s: string) {
    forall i :: 0 <= i < |s| ==> !IsLowerAscii(s[i])
  }

  function LowerChar(c: char): char {
    if IsUpperAscii(c) then (c as int + 32) as char else c
  }

  function UpperChar(c: char): char {
    if IsLowerAscii(c) then (c as int - 32) as char else c
  }

  /** `strings.ToLower`, on ASCII letters: each character mapped on its own. */
  function ToLower(s: string): (r: string)
    ensures |r| == |s|
    ensures forall i :: 0 <= i < |s| ==> r[i] == LowerChar(s[i])
    ensures NoUpperAscii(r)
  {
    if s == [] then [] else [LowerChar(s[0])] + ToLower(s[1..])
  }

  /** `strings.ToUpper`, on ASCII letters: each character mapped on its own. */
  function ToUpper(s: string): (r: string)
    ensures |r| == |s|
    ensures forall i :: 0 <= i < |s| ==> r[i] == UpperChar(s[i])
    ensures NoLowerAscii(r)
  {
    if s == [] then [] else [UpperChar(s[0])] + ToUpper(s[1..])
  }

  /**
   * Two characters are the same letter up to case: equal, or one is an
   * upper-case ASCII letter and the other its lower-case partner.
   */
  predicate SameIgnoringCase(a: char, b: char) {
    || a == b
    || (IsUpperAscii(a) && b as int == a as int + 32)
    || (IsUpperAscii(b) && a as int == b as int + 32)
  }

  /** Case-insensitive equality of strings, character by character. */
  predicate EqualIgnoringCase(s: string, t: string) {
    |s| == |t| && forall i :: 0 <= i < |s| ==> SameIgnoringCase(s[i], t[i])
  }

  /**
   * Lower-casing `s` and comparing with a string that has no upper-case
   * letter is exactly case-insensitive comparison.
   */
  lemma ToLowerMatchesIgnoringCase(s: string, t: string)
    requires NoUpperAscii(t)
    ensures ToLower(s) == t <==> EqualIgnoringCase(s, t)
  {
    if EqualIgnoringCase(s, t) {
      assert forall i :: 0 <= i < |s| ==> ToLower(s)[i] == t[i];
    }
  }

  lemma {:induction false} ToUpperAppend(a: string, b: string)
    ensures ToUpper(a + b) == ToUpper(a) + ToUpper(b)
  {
    var l, r := ToUpper(a + b), ToUpper(a) + ToUpper(b);
    assert |l| == |r|;
    forall i | 0 <= i < |l| ensures l[i] == r[i] {
      if i < |a| {
        assert (a + b)[i] == a[i];
      } else {
        assert (a + b)[i] == b[i - |a|];
      }
    }
  }

  /** `strings.Join`: the parts with `sep` between each neighbouring pair. */
  function Join(parts: seq<string>, sep: string): string {
    if |parts| == 0 then ""
    else if |parts| == 1 then parts[0]
    else parts[0] + sep + Join(parts[1..], sep)
  }

  /** Joining one more part adds the separator and that part at the end. */
  lemma {:induction false} JoinAppend(parts: seq<string>, x: string, sep: string)
    requires parts != []
    ensures Join(parts + [x], sep) == Join(parts, sep) + sep + x
  {
    if |parts| == 1 {
      assert (parts + [x])[1..] == [x];
    } else {
      assert (parts + [x])[1..] == parts[1..] + [x];
      JoinAppend(parts[1..], x, sep);
    }
  }

  /** Every part followed by `sep`; what a loop of `acc += part + sep` builds. */
  function Terminated(parts: seq<string>, sep: string): string {
    if parts == [] then "" else Terminated(parts[..|parts| - 1], sep) + parts[|parts| - 1] + sep
  }

  /** One more part adds that part and one more separator. */
  lemma TerminatedAppend(parts: seq<string>, x: string, sep: string)
    ensures Terminated(parts + [x], sep) == Terminated(parts, sep) + x + sep
  {
    assert (parts + [x])[..|parts|] == parts;
  }

  /** Terminating every part is joining them and adding one final separator. */
  lemma {:induction false} TerminatedIsJoin(parts: seq<string>, sep: string)
    requires parts != []
    ensures Terminated(parts, sep) == Join(parts, sep) + sep
  {
    var p := parts[..|parts| - 1];
    var x := parts[|parts| - 1];
    assert parts == p + [x];
    if p == [] {
      assert Terminated(parts, sep) == "" + x + sep;
    } else {
      TerminatedIsJoin(p, sep);
      JoinAppend(p, x, sep);
    }
  }

  /**
   * Go's `unicode.IsSpace`: '\t', '\n', '\v', '\f', '\r', ' ', U+0085,
   * U+00A0 and the other characters with the Unicode White_Space property.
   */
  predicate IsSpace(c: char) {
    var n := c as int;
    || 0x09 <= n <= 0x0D || n == 0x20 || n == 0x85 || n == 0xA0
    || n == 0x1680 || 0x2000 <= n <= 0x200A || n == 0x2028 || n == 0x2029
    || n == 0x202F || n == 0x205F || n == 0x3000
  }

  predicate AllSpace(s: string) {
    forall i :: 0 <= i < |s| ==> IsSpace(s[i])
  }

  /** Index of the first non-white-space character of `s` at or after `i`. */
  function Start(s: string, i: nat): (j: nat)
    requires i <= |s|
    ensures i <= j <= |s|
    ensures forall k :: i <= k < j ==> IsSpace(s[k])
    ensures j < |s| ==> !IsSpace(s[j])
    decreases |s| - i
  {
    if i < |s| && IsSpace(s[i]) then Start(s, i + 1) else i
  }

  /** Scanning back from `j` to no lower than `lo`: where the trailing white space begins. */
  function Stop(s: string, lo: nat, j: nat): (e: nat)
    requires lo <= j <= |s|
    ensures lo <= e <= j
    ensures forall k :: e <= k < j ==> IsSpace(s[k])
    ensures e > lo ==> !IsSpace(s[e - 1])
    decreases j
  {
    if j > lo && IsSpace(s[j - 1]) then Stop(s, lo, j - 1) else j
  }

  /**
   * `strings.TrimSpace`: scan forward past the leading white space, then back
   * from the end, no further than that start, past the trailing white space.
   * The result neither starts nor ends with white space.
   */
  function TrimSpace(s: string): (r: string)
    ensures |r| <= |s|
    ensures r != [] ==> !IsSpace(r[0]) && !IsSpace(r[|r| - 1])
  {
    var i := Start(s, 0);
    s[i..Stop(s, i, |s|)]
  }

  /**
   * What TrimSpace removes is white space at the two ends of `s`: the result
   * is the slice of `s` that starts after the leading white space.
   */
  lemma TrimSpaceRemovesOnlySpace(s: string)
    ensures var i, r := Start(s, 0), TrimSpace(s);
      && i + |r| <= |s| && s[i..i + |r|] == r
      && AllSpace(s[..i]) && AllSpace(s[i + |r|..])
  {
    var i := Start(s, 0);
    var e := Stop(s, i, |s|);
    assert forall k :: 0 <= k < i ==> s[..i][k] == s[k];
    assert forall k :: 0 <= k < |s| - e ==> s[e..][k] == s[e + k];
  }

  /** A white-space character appended to `s` is skipped exactly when all of `s` is. */
  lemma {:induction false} StartAppendSpace(s: string, c: char, i: nat)
    requires IsSpace(c) && i <= |s|
    ensures Start(s + [c], i) == if Start(s, i) == |s| then |s| + 1 else Start(s, i)
    decreases |s| - i
  {
    assert (s + [c])[..|s|] == s;
    if i < |s| {
      assert (s + [c])[i] == s[i];
      if IsSpace(s[i]) {
        StartAppendSpace(s, c, i + 1);
      }
    } else {
      assert (s + [c])[|s|] == c;
    }
  }

  /** Below the appended character, the backward scan sees only `s`. */
  lemma {:induction false} StopAppend(s: string, c: char, lo: nat, j: nat)
    requires lo <= j <= |s|
    ensures Stop(s + [c], lo, j) == Stop(s, lo, j)
    decreases j
  {
    if j > lo {
      assert (s + [c])[j - 1] == s[j - 1];
      if IsSpace(s[j - 1]) {
        StopAppend(s, c, lo, j - 1);
      }
    }
  }

  /** The backward scan steps over an appended white-space character. */
  lemma StopAppendSpace(s: string, c: char, lo: nat)
    requires IsSpace(c) && lo <= |s|
    ensures Stop(s + [c], lo, |s| + 1) == Stop(s, lo, |s|)
  {
    assert (s + [c])[|s|] == c;
    StopAppend(s, c, lo, |s|);
  }

  /** A slice of `s` is the same slice of `s + [c]`. */
  lemma SliceAppend(s: string, c: char, i: nat, e: nat)
    requires i <= e <= |s|
    ensures (s + [c])[i..e] == s[i..e]
  {
    assert forall k :: i <= k < e ==> (s + [c])[k] == s[k];
  }

  /** A trailing white-space character makes no difference to TrimSpace. */
  lemma TrimSpaceAppendSpace(s: string, c: char)
    requires IsSpace(c)
    ensures TrimSpace(s + [c]) == TrimSpace(s)
  {
    StartAppendSpace(s, c, 0);
    var i := Start(s, 0);
    if i < |s| {
      StopAppendSpace(s, c, i);
      SliceAppend(s, c, i, Stop(s, i, |s|));
    }
  }
}

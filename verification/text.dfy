/**
 * String primitives shared by every matcher of the patient simulator:
 * JavaScript's `toLowerCase`, `trim` and `includes`, restricted to what the
 * matchers rely on.
 */
module Text {

  datatype Option<+T> = None | Some(value: T)

  /** The characters JavaScript's `String.prototype.trim` strips: the
      WhiteSpace and LineTerminator productions of ECMAScript. */
  predicate IsSpace(c: char) {
    || c in {' ', '\t', '\n', '\r', '\U{B}', '\U{C}', '\U{A0}', '\U{FEFF}', '\U{1680}'}
    || c in {'\U{2028}', '\U{2029}', '\U{202F}', '\U{205F}', '\U{3000}'}
    || ('\U{2000}' <= c <= '\U{200A}')
  }

  /** `toLowerCase` on one character; only ASCII letters are mapped. */
  function LowerChar(c: char): (r: char)
    ensures 'A' <= c <= 'Z' ==> 'a' <= r <= 'z' && r as int - c as int == 32
    ensures !('A' <= c <= 'Z') ==> r == c
  {
    if 'A' <= c <= 'Z' then (c as int + 32) as char else c
  }

  function Lower(s: string): (r: string)
    ensures |r| == |s|
    ensures forall i :: 0 <= i < |s| ==> r[i] == LowerChar(s[i])
  {
    seq(|s|, i requires 0 <= i < |s| => LowerChar(s[i]))
  }

  predicate IsLower(s: string) {
    forall i :: 0 <= i < |s| ==> LowerChar(s[i]) == s[i]
  }

  /** The number of white-space characters `s` starts with. */
  function LeadingSpaces(s: string): (n: nat)
    ensures n <= |s|
    ensures forall k :: 0 <= k < n ==> IsSpace(s[k])
    ensures n < |s| ==> !IsSpace(s[n])
  {
    if |s| > 0 && IsSpace(s[0]) then 1 + LeadingSpaces(s[1..]) else 0
  }

  /** The number of white-space characters `s` ends with. */
  function TrailingSpaces(s: string): (n: nat)
    ensures n <= |s|
    ensures forall k :: |s| - n <= k < |s| ==> IsSpace(s[k])
    ensures n < |s| ==> !IsSpace(s[|s| - n - 1])
  {
    if |s| > 0 && IsSpace(s[|s| - 1]) then 1 + TrailingSpaces(s[..|s| - 1]) else 0
  }

  /** Drops leading white space: the longest suffix of `s` that does not
      start with white space. */
  function TrimStart(s: string): string {
    s[LeadingSpaces(s)..]
  }

  /** Drops trailing white space: the longest prefix of `s` that does not
      end with white space. */
  function TrimEnd(s: string): string {
    s[..|s| - TrailingSpaces(s)]
  }

  function Trim(s: string): string {
    TrimEnd(TrimStart(s))
  }

  /** `s.toLowerCase().trim()`, the normal form every matcher compares. */
  function Normalize(s: string): string {
    Trim(Lower(s))
  }

  predicate IsBlank(s: string) {
    forall i :: 0 <= i < |s| ==> IsSpace(s[i])
  }

  /** `s.includes(sub)`: some window of `s` equals `sub`; the empty string is
      contained in every string. */
  predicate Contains(s: string, sub: string)
    decreases |s|
  {
    |sub| <= |s| && (s[..|sub|] == sub || Contains(s[1..], sub))
  }

  predicate ContainsAny(s: string, subs: seq<string>) {
    exists k :: 0 <= k < |subs| && Contains(s, subs[k])
  }

  /** The first index in `lo..hi` that satisfies `p`: the linear
      first-match scan every responder is built on. */
  function FirstIndex(p: nat -> bool, lo: nat, hi: nat): (r: Option<nat>)
    requires lo <= hi
    ensures r.Some? ==> lo <= r.value < hi && p(r.value)
    ensures r.Some? ==> forall j :: lo <= j < r.value ==> !p(j)
    ensures r.None? ==> forall j :: lo <= j < hi ==> !p(j)
    decreases hi - lo
  {
    if lo == hi then None
    else if p(lo) then Some(lo)
    else FirstIndex(p, lo + 1, hi)
  }

  /** The first element at or after `from` that satisfies `p`: the same
      scan over the elements of a sequence. */
  function FindFirst<T>(xs: seq<T>, p: T -> bool, from: nat): (r: Option<nat>)
    requires from <= |xs|
    ensures r.Some? ==> from <= r.value < |xs| && p(xs[r.value])
    ensures r.Some? ==> forall j :: from <= j < r.value ==> !p(xs[j])
    ensures r.None? ==> forall j :: from <= j < |xs| ==> !p(xs[j])
    decreases |xs| - from
  {
    if from == |xs| then None
    else if p(xs[from]) then Some(from)
    else FindFirst(xs, p, from + 1)
  }

  /** A window that equals `sub` is a witness of containment. */
  lemma {:induction false} ContainsAt(s: string, sub: string, i: nat)
    requires i + |sub| <= |s| && s[i..i + |sub|] == sub
    ensures Contains(s, sub)
    decreases i
  {
    if i > 0 {
      assert s[1..][i - 1..i - 1 + |sub|] == s[i..i + |sub|];
      ContainsAt(s[1..], sub, i - 1);
    } else {
      assert s[..|sub|] == s[i..i + |sub|];
    }
  }

  /** Every containment has a window of `s` as its witness. */
  lemma {:induction false} ContainsWitness(s: string, sub: string) returns (i: nat)
    requires Contains(s, sub)
    ensures i + |sub| <= |s| && s[i..i + |sub|] == sub
    decreases |s|
  {
    if s[..|sub|] == sub {
      i := 0;
    } else {
      var j := ContainsWitness(s[1..], sub);
      assert s[1..][j..j + |sub|] == s[j + 1..j + 1 + |sub|];
      i := j + 1;
    }
  }

  lemma LowerOfLower(s: string)
    requires IsLower(s)
    ensures Lower(s) == s
  {
  }

  lemma {:induction false} TrimOfTrimmed(s: string)
    requires |s| == 0 || (!IsSpace(s[0]) && !IsSpace(s[|s| - 1]))
    ensures Trim(s) == s
  {
  }

  /** The trimmed string is a window of its input with no white space at
      either end. */
  lemma {:induction false} TrimShape(s: string) returns (i: nat)
    ensures i + |Trim(s)| <= |s| && Trim(s) == s[i..i + |Trim(s)|]
    ensures |Trim(s)| == 0 || (!IsSpace(Trim(s)[0]) && !IsSpace(Trim(s)[|Trim(s)| - 1]))
  {
    var st := TrimStart(s);
    var t := TrimEnd(st);
    i := |s| - |st|;
    assert t == st[..|t|];
    if |t| > 0 {
      assert t[0] == st[0];
    }
  }

  /** Lower-casing and trimming are idempotent together: normalising an
      already normalised string changes nothing. */
  lemma {:induction false} NormalizeIdempotent(s: string)
    ensures Normalize(Normalize(s)) == Normalize(s)
  {
    var l := Lower(s);
    var n := Trim(l);
    var i := TrimShape(l);
    assert IsLower(n) by {
      forall k | 0 <= k < |n|
        ensures LowerChar(n[k]) == n[k]
      {
        assert n[k] == l[i + k];
      }
    }
    LowerOfLower(n);
    TrimOfTrimmed(n);
  }

  /** A string with no white space at either end only gets lower-cased. */
  lemma NormalizeUntrimmed(s: string)
    requires |s| > 0 && !IsSpace(s[0]) && !IsSpace(s[|s| - 1])
    ensures Normalize(s) == Lower(s)
  {
    TrimOfTrimmed(Lower(s));
  }

  /** `s.trim()` is empty exactly when `s` is white space only. */
  lemma TrimEmptyIffBlank(s: string)
    ensures Trim(s) == "" <==> IsBlank(s)
  {
    var st := TrimStart(s);
    if |st| > 0 {
      assert !IsSpace(st[0]);
      assert s[|s| - |st|] == st[0];
    }
  }

  /** White space is unchanged by lower-casing, so a blank string stays
      blank and normalises to the empty string. */
  lemma BlankNormalizesToEmpty(s: string)
    requires IsBlank(s)
    ensures Normalize(s) == ""
  {
    var l := Lower(s);
    assert forall i :: 0 <= i < |l| ==> l[i] == s[i];
    assert IsBlank(l);
  }
}

/**
 * The JavaScript string operations the storefront relies on, over `seq<char>`:
 * `trim`, regex character-class removal, `startsWith`, `endsWith`, `includes`,
 * first-match `replace`, and ASCII `toLowerCase`.
 */
module Text {
  import opened Common

  /** ECMAScript WhiteSpace and LineTerminator code points: what `trim()` strips and `\s` matches. */
  predicate IsJsWhitespace(c: char) {
    c == '\t' || c == '\n' || c == '\U{000B}' || c == '\U{000C}' || c == '\r' || c == ' '
    || c == '\U{00A0}' || c == '\U{1680}' || ('\U{2000}' <= c <= '\U{200A}')
    || c == '\U{2028}' || c == '\U{2029}' || c == '\U{202F}' || c == '\U{205F}'
    || c == '\U{3000}' || c == '\U{FEFF}'
  }

  /** `s` has no whitespace at either end (vacuous for the empty string). */
  predicate NoOuterWhitespace(s: string) {
    s == [] || (!IsJsWhitespace(s[0]) && !IsJsWhitespace(s[|s| - 1]))
  }

  function TrimStart(s: string): (r: string)
    ensures |r| <= |s| && r == s[|s| - |r|..]
    ensures r == [] || !IsJsWhitespace(r[0])
    ensures forall i :: 0 <= i < |s| - |r| ==> IsJsWhitespace(s[i])
  {
    if s != [] && IsJsWhitespace(s[0]) then TrimStart(s[1..]) else s
  }

  function TrimEnd(s: string): (r: string)
    ensures |r| <= |s| && r == s[..|r|]
    ensures r == [] || !IsJsWhitespace(r[|r| - 1])
    ensures forall i :: |r| <= i < |s| ==> IsJsWhitespace(s[i])
  {
    if s != [] && IsJsWhitespace(s[|s| - 1]) then TrimEnd(s[..|s| - 1]) else s
  }

  /** `String.prototype.trim`: the result is an infix of `s` with no whitespace at either end. */
  function Trim(s: string): (r: string)
    ensures |r| <= |s|
    ensures NoOuterWhitespace(r)
  {
    var t := TrimStart(s);
    var r := TrimEnd(t);
    assert r != [] ==> r[0] == t[0];
    r
  }

  lemma TrimOfTrimmed(s: string)
    requires NoOuterWhitespace(s)
    ensures Trim(s) == s
  {
  }

  /** `s.replace(/[...]/g, '')`: every character of `cs` removed, the rest kept in order. */
  function Remove(s: string, cs: set<char>): (r: string)
    ensures |r| <= |s|
    ensures forall i :: 0 <= i < |r| ==> r[i] !in cs
    ensures forall i :: 0 <= i < |r| ==> r[i] in s
  {
    if s == [] then []
    else (if s[0] in cs then [] else [s[0]]) + Remove(s[1..], cs)
  }

  lemma {:induction false} RemoveAbsent(s: string, cs: set<char>)
    requires forall i :: 0 <= i < |s| ==> s[i] !in cs
    ensures Remove(s, cs) == s
  {
    if s != [] {
      RemoveAbsent(s[1..], cs);
    }
  }

  /** Removing characters keeps a last character that is not removed. */
  lemma {:induction false} RemoveKeepsLast(s: string, cs: set<char>)
    requires s != [] && s[|s| - 1] !in cs
    ensures Remove(s, cs) != [] && Remove(s, cs)[|Remove(s, cs)| - 1] == s[|s| - 1]
  {
    if |s| > 1 {
      RemoveKeepsLast(s[1..], cs);
    }
  }

  /** Removing only whitespace characters keeps a string free of outer whitespace. */
  lemma RemoveKeepsEdges(s: string, cs: set<char>)
    requires NoOuterWhitespace(s)
    requires forall c :: c in cs ==> IsJsWhitespace(c)
    ensures NoOuterWhitespace(Remove(s, cs))
  {
    if s != [] {
      RemoveKeepsFirst(s, cs);
      RemoveKeepsLast(s, cs);
    }
  }

  /** Removing characters keeps a first character that is not removed. */
  lemma RemoveKeepsFirst(s: string, cs: set<char>)
    requires s != [] && s[0] !in cs
    ensures Remove(s, cs) != [] && Remove(s, cs)[0] == s[0]
  {
  }

  /** `s.replace(/\s+/g, '')`: every whitespace character removed. */
  function RemoveWhitespace(s: string): (r: string)
    ensures |r| <= |s|
    ensures forall i :: 0 <= i < |r| ==> !IsJsWhitespace(r[i])
  {
    if s == [] then []
    else (if IsJsWhitespace(s[0]) then [] else [s[0]]) + RemoveWhitespace(s[1..])
  }

  predicate StartsWith(s: string, p: string) {
    |p| <= |s| && s[..|p|] == p
  }

  predicate EndsWith(s: string, p: string) {
    |p| <= |s| && s[|s| - |p|..] == p
  }

  /** `t` occurs in `s` starting at position `k`. */
  predicate OccursAt(s: string, t: string, k: nat) {
    k + |t| <= |s| && s[k..k + |t|] == t
  }

  /** `s.includes(t)`: `t` occurs in `s` at some position. */
  predicate Contains(s: string, t: string) {
    exists k: nat | k <= |s| :: OccursAt(s, t, k)
  }

  /** The first position at or after `from` where `t` occurs in `s`. */
  function IndexOfFrom(s: string, t: string, from: nat): (r: Option<nat>)
    requires from <= |s| + 1
    ensures r.Some? ==> from <= r.value && OccursAt(s, t, r.value)
    ensures r.Some? ==> forall k: nat :: from <= k < r.value ==> !OccursAt(s, t, k)
    ensures r.None? ==> forall k: nat :: from <= k ==> !OccursAt(s, t, k)
    decreases |s| + 1 - from
  {
    if from + |t| > |s| then None
    else if s[from..from + |t|] == t then Some(from)
    else IndexOfFrom(s, t, from + 1)
  }

  /** `s.replace(t, r)` with a plain pattern (or a regex without `g`): the first occurrence only. */
  function ReplaceFirst(s: string, t: string, r: string): (u: string)
    ensures !Contains(s, t) ==> u == s
  {
    match IndexOfFrom(s, t, 0)
    case None => s
    case Some(k) => s[..k] + r + s[k + |t|..]
  }

  lemma ReplaceFirstAt(s: string, t: string, r: string, k: nat)
    requires OccursAt(s, t, k)
    requires forall j: nat :: j < k ==> !OccursAt(s, t, j)
    ensures ReplaceFirst(s, t, r) == s[..k] + r + s[k + |t|..]
  {
  }

  /** `s.replace(/t$/, r)`: the suffix `t`, when present, replaced by `r`. */
  function ReplaceSuffix(s: string, t: string, r: string): (u: string)
    ensures EndsWith(s, t) ==> EndsWith(u, r)
    ensures !EndsWith(s, t) ==> u == s
  {
    if EndsWith(s, t) then s[..|s| - |t|] + r else s
  }

  /**
   * A string's `length` in JavaScript: the number of UTF-16 code units, so a character
   * outside the Basic Multilingual Plane (a surrogate pair) counts twice.
   */
  function Utf16Length(s: string): (n: nat)
    ensures |s| <= n <= 2 * |s|
    ensures (forall i :: 0 <= i < |s| ==> s[i] as int <= 0xFFFF) ==> n == |s|
  {
    if s == [] then 0
    else Utf16Length(s[..|s| - 1]) + (if s[|s| - 1] as int > 0xFFFF then 2 else 1)
  }

  lemma {:induction false} Utf16LengthAppend(a: string, b: string)
    ensures Utf16Length(a + b) == Utf16Length(a) + Utf16Length(b)
    decreases |b|
  {
    if b == [] {
      assert a + b == a;
    } else {
      assert (a + b)[..|a + b| - 1] == a + b[..|b| - 1];
      assert (a + b)[|a + b| - 1] == b[|b| - 1];
      Utf16LengthAppend(a, b[..|b| - 1]);
    }
  }

  predicate IsUpperAscii(c: char) { 'A' <= c <= 'Z' }
  predicate IsLowerAscii(c: char) { 'a' <= c <= 'z' }
  predicate IsDigit(c: char) { '0' <= c <= '9' }

  function LowerChar(c: char): (d: char)
    ensures !IsUpperAscii(d)
    ensures !IsUpperAscii(c) ==> d == c
  {
    if IsUpperAscii(c) then (c as int + 32) as char else c
  }

  /** `toLowerCase()` on the ASCII letters; every other character is kept. */
  function ToLower(s: string): (r: string)
    ensures |r| == |s|
    ensures forall i :: 0 <= i < |s| ==> r[i] == LowerChar(s[i])
  {
    if s == [] then [] else [LowerChar(s[0])] + ToLower(s[1..])
  }

  lemma ToLowerIdempotent(s: string)
    ensures ToLower(ToLower(s)) == ToLower(s)
  {
  }

  /** A string without upper-case letters is its own lower-case form. */
  lemma ToLowerOfLower(s: string)
    requires forall i :: 0 <= i < |s| ==> !IsUpperAscii(s[i])
    ensures ToLower(s) == s
  {
  }

  /** Decimal rendering of an integer, as template literals print it. */
  function IntToString(n: int): (r: string)
    ensures r != []
    ensures n >= 0 ==> forall i :: 0 <= i < |r| ==> IsDigit(r[i])
    ensures n < 0 ==> r[0] == '-'
  {
    if n < 0 then "-" + NatToString(-n) else NatToString(n)
  }

  function NatToString(n: nat): (r: string)
    ensures r != []
    ensures forall i :: 0 <= i < |r| ==> IsDigit(r[i])
  {
    var d := [('0' as int + n % 10) as char];
    if n < 10 then d else NatToString(n / 10) + d
  }
}

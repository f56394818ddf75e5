/**
 * The two JavaScript string operations the dashboard relies on:
 * `String.prototype.toLowerCase` (on the ASCII letters that provider names use)
 * and `String.prototype.replace` with a one-character string pattern, which
 * replaces only the first occurrence.
 */
module JsText {
  predicate IsUpper(c: char) { 'A' <= c <= 'Z' }

  function LowerChar(c: char): (l: char)
    ensures !IsUpper(l)
    ensures !IsUpper(c) ==> l == c
  {
    if IsUpper(c) then (c as int + 32) as char else c
  }

  predicate HasNoUpper(s: string) {
    forall i :: 0 <= i < |s| ==> !IsUpper(s[i])
  }

  /** `s.toLowerCase()`, letter by letter. */
  function ToLowerCase(s: string): (r: string)
    ensures |r| == |s|
    ensures HasNoUpper(r)
    ensures HasNoUpper(s) ==> r == s
  {
    if s == [] then [] else [LowerChar(s[0])] + ToLowerCase(s[1..])
  }

  lemma {:induction false} ToLowerCaseIdempotent(s: string)
    ensures ToLowerCase(ToLowerCase(s)) == ToLowerCase(s)
  {
    var r := ToLowerCase(s);
    assert HasNoUpper(r);
  }

  /** `s.indexOf(a)`: the first position holding `a`, or -1. */
  function IndexOf(s: string, a: char): (k: int)
    ensures -1 <= k < |s|
    ensures k == -1 <==> a !in s
    ensures k >= 0 ==> s[k] == a && a !in s[..k]
  {
    if s == [] then -1
    else if s[0] == a then 0
    else
      var k := IndexOf(s[1..], a);
      assert s == [s[0]] + s[1..];
      if k == -1 then -1
      else
        assert s[..k + 1] == [s[0]] + s[1..][..k];
        k + 1
  }

  /** The first occurrence is the only position with `a` and nothing before it. */
  lemma IndexOfUnique(s: string, a: char, k: nat)
    requires k < |s| && s[k] == a && a !in s[..k]
    ensures IndexOf(s, a) == k
  {
    assert a in s;
  }

  /** `s.replace(a, b)` for one-character strings: only the first `a` is replaced. */
  function ReplaceFirst(s: string, a: char, b: char): (r: string)
    ensures |r| == |s|
    ensures a !in s ==> r == s
    ensures forall i :: 0 <= i < |s| && i != IndexOf(s, a) ==> r[i] == s[i]
    ensures a in s ==> r[IndexOf(s, a)] == b
  {
    var k := IndexOf(s, a);
    if k < 0 then s else s[..k] + [b] + s[k + 1..]
  }

  /** `table[key] || table[fallback]` over a table whose values are all non-empty. */
  function LookupOr(table: map<string, string>, key: string, fallback: string): (v: string)
    requires fallback in table
    ensures key in table ==> v == table[key]
    ensures key !in table ==> v == table[fallback]
  {
    if key in table then table[key] else table[fallback]
  }
}

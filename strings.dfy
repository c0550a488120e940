/** String helpers standing for the JavaScript string operations the source uses:
    `includes`, `startsWith`, the `||` default on strings and an ASCII `toLowerCase`. */
module Strings {

  /** `s.includes(sub)`: `sub` occurs in `s` at some position. */
  predicate Contains(s: string, sub: string)
  {
    exists i :: 0 <= i <= |s| && sub <= s[i..]
  }

  /** `s || fallback` on strings: the empty string is falsy. */
  function OrElse(s: string, fallback: string): (r: string)
    ensures s != "" ==> r == s
    ensures s == "" ==> r == fallback
  {
    if s == "" then fallback else s
  }

  function ToLowerChar(c: char): char
  {
    if 'A' <= c <= 'Z' then (c as int + 32) as char else c
  }

  /** `toLowerCase` restricted to the ASCII letters. */
  function ToLowerAscii(s: string): (r: string)
    ensures |r| == |s|
    ensures forall i :: 0 <= i < |s| ==> r[i] == ToLowerChar(s[i])
  {
    if s == [] then [] else [ToLowerChar(s[0])] + ToLowerAscii(s[1..])
  }

  /** An occurrence at position `i` is an occurrence. */
  lemma ContainsAt(s: string, sub: string, i: nat)
    requires i <= |s| && sub <= s[i..]
    ensures Contains(s, sub)
  {
  }

  /** Every occurrence has a position. */
  lemma ContainsWitness(s: string, sub: string) returns (i: nat)
    requires Contains(s, sub)
    ensures i <= |s| && sub <= s[i..]
  {
    i :| 0 <= i <= |s| && sub <= s[i..];
  }

  /** The middle of a concatenation occurs in it. */
  lemma ContainsInfix(a: string, b: string, c: string)
    ensures Contains(a + b + c, b)
  {
    var s := a + b + c;
    assert s[|a|..] == b + c;
    ContainsAt(s, b, |a|);
  }

  /** Occurrence is transitive. */
  lemma ContainsTrans(a: string, b: string, c: string)
    requires Contains(a, b) && Contains(b, c)
    ensures Contains(a, c)
  {
    var i := ContainsWitness(a, b);
    var j := ContainsWitness(b, c);
    assert a[i + j..][..|c|] == b[j..][..|c|];
    ContainsAt(a, c, i + j);
  }

  /** A string cannot contain a pattern one of whose characters it lacks. */
  lemma NotContainsByChar(s: string, sub: string, k: nat)
    requires k < |sub| && sub[k] !in s
    ensures !Contains(s, sub)
  {
  }

  /** The same for a string in two parts. */
  lemma NotContainsByCharSplit(a: string, b: string, sub: string, k: nat)
    requires k < |sub| && sub[k] !in a && sub[k] !in b
    ensures !Contains(a + b, sub)
  {
    NotContainsByChar(a + b, sub, k);
  }

  /** An occurrence in the front part of a string is an occurrence in the whole. */
  lemma ContainsInFront(a: string, b: string, sub: string)
    requires Contains(a, sub)
    ensures Contains(a + b, sub)
  {
    var i := ContainsWitness(a, sub);
    assert (a + b)[i..] == a[i..] + b;
    ContainsAt(a + b, sub, i);
  }

  /** Nothing non-empty occurs in the empty string. */
  lemma EmptyContainsNothing(sub: string)
    requires sub != ""
    ensures !Contains("", sub)
  {
  }
}

/**
 * The string primitives the pages rely on: JavaScript's whitespace class `\s`,
 * `toLowerCase`, `startsWith`, `includes` and `substring(0, n)`.
 */
module Text {

  /**
   * The characters JavaScript's `\s` matches: ASCII tab, line feed, vertical tab,
   * form feed, carriage return and space, no-break space, the byte-order mark,
   * the line and paragraph separators, and the Unicode space separators.
   */
  const Whitespace: set<char> := {' ', '\t', '\n', '\r', '\U{000B}', '\U{000C}', '\U{00A0}', '\U{1680}',
    '\U{2000}', '\U{2001}', '\U{2002}', '\U{2003}', '\U{2004}', '\U{2005}', '\U{2006}', '\U{2007}', '\U{2008}',
    '\U{2009}', '\U{200A}', '\U{2028}', '\U{2029}', '\U{202F}', '\U{205F}', '\U{3000}', '\U{FEFF}'}
  predicate IsSpace(c: char)
  {
    c in Whitespace
  }

  /** `toLowerCase` on one character, restricted to the ASCII letters. */
  function LowerChar(c: char): (r: char)
    ensures 'A' <= c <= 'Z' ==> 'a' <= r <= 'z'
    ensures !('A' <= c <= 'Z') ==> r == c
    ensures IsSpace(r) <==> IsSpace(c)
  {
    if 'A' <= c <= 'Z' then (c as int + 32) as char else c
  }

  /** `s.toLowerCase()`: every character lowered, nothing added or removed. */
  function Lower(s: string): (r: string)
    ensures |r| == |s|
    ensures forall i :: 0 <= i < |s| ==> r[i] == LowerChar(s[i])
    decreases |s|
  {
    if s == [] then [] else [LowerChar(s[0])] + Lower(s[1..])
  }

  /** Lowering a string that is already lower case changes nothing. */
  lemma LowerFixed(s: string)
    requires forall i :: 0 <= i < |s| ==> LowerChar(s[i]) == s[i]
    ensures Lower(s) == s
  {
  }

  /** `toLowerCase` is idempotent. */
  lemma LowerIdempotent(s: string)
    ensures Lower(Lower(s)) == Lower(s)
  {
    LowerFixed(Lower(s));
  }

  /** `s.startsWith(prefix)`: the prefix fits and agrees with `s` character by character. */
  function StartsWith(s: string, prefix: string): (r: bool)
    ensures r <==> |prefix| <= |s| && forall i :: 0 <= i < |prefix| ==> s[i] == prefix[i]
  {
    |prefix| <= |s| && s[..|prefix|] == prefix
  }

  /** `s.includes(sub)`, scanning the start positions from left to right. */
  function Includes(s: string, sub: string): (r: bool)
    ensures sub == [] ==> r
    ensures r ==> |sub| <= |s|
    decreases |s|
  {
    if StartsWith(s, sub) then true
    else if s == [] then false
    else Includes(s[1..], sub)
  }

  /** `sub` occurs in `s` at position `i`. */
  ghost predicate OccursAt(s: string, sub: string, i: int)
  {
    0 <= i && i + |sub| <= |s| && s[i..i + |sub|] == sub
  }

  /** `sub` occurs somewhere in `s`. */
  ghost predicate Occurs(s: string, sub: string)
  {
    exists i :: OccursAt(s, sub, i)
  }

  /** `Includes` holds exactly when `sub` occurs somewhere in `s`. */
  lemma {:induction false} IncludesIffOccurs(s: string, sub: string)
    ensures Includes(s, sub) <==> exists i :: OccursAt(s, sub, i)
    decreases |s|
  {
    if StartsWith(s, sub) {
      assert OccursAt(s, sub, 0);
    } else if s == [] {
    } else {
      IncludesIffOccurs(s[1..], sub);
      if exists i :: OccursAt(s[1..], sub, i) {
        var i :| OccursAt(s[1..], sub, i);
        assert s[1..][i..i + |sub|] == s[i + 1..i + 1 + |sub|];
        assert OccursAt(s, sub, i + 1);
      }
      if exists i :: OccursAt(s, sub, i) {
        var i :| OccursAt(s, sub, i);
        if i != 0 {
          assert s[1..][i - 1..i - 1 + |sub|] == s[i..i + |sub|];
          assert OccursAt(s[1..], sub, i - 1);
        }
      }
    }
  }

  /** The empty string is included in every string, so an empty search matches everything. */
  lemma IncludesEmpty(s: string)
    ensures Includes(s, "")
  {
  }

  /**
   * `s.substring(0, n)` for `n >= 0`: the first `min(n, |s|)` characters, counted
   * as Unicode scalar values (JavaScript counts UTF-16 code units).
   */
  function Take(s: string, n: nat): (r: string)
    ensures |r| == if n < |s| then n else |s|
    ensures StartsWith(s, r)
  {
    if n < |s| then s[..n] else s
  }
}

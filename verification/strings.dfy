/** The string tests the popup performs on urls and tab titles:
    `String.prototype.includes` and removal of a fixed trailing suffix
    (a regular expression of the form `/ - Name$/`). */
module Strings {

  /** `sub` occurs in `s` starting at index `i`. */
  predicate OccursAt(s: string, sub: string, i: int)
  {
    0 <= i && i + |sub| <= |s| && s[i..i + |sub|] == sub
  }

  /** Specification of `s.includes(sub)`. */
  ghost predicate Contains(s: string, sub: string)
  {
    exists i :: OccursAt(s, sub, i)
  }

  /** Specification of a match of `/suffix$/`: `suffix` ends `s`. */
  predicate EndsWith(s: string, suffix: string)
  {
    |suffix| <= |s| && s[|s| - |suffix|..] == suffix
  }

  /** When `sub` is not at the front of `s`, it occurs in `s` exactly when it
      occurs in `s` without its first character. */
  lemma ContainsInTail(s: string, sub: string)
    requires 0 < |sub| <= |s|
    requires !OccursAt(s, sub, 0)
    ensures Contains(s, sub) <==> Contains(s[1..], sub)
  {
    if Contains(s, sub) {
      var i :| OccursAt(s, sub, i);
      assert i != 0;
      assert s[1..][i - 1..i - 1 + |sub|] == s[i..i + |sub|];
      assert OccursAt(s[1..], sub, i - 1);
    }
    if Contains(s[1..], sub) {
      var i :| OccursAt(s[1..], sub, i);
      assert s[1..][i..i + |sub|] == s[i + 1..i + 1 + |sub|];
      assert OccursAt(s, sub, i + 1);
    }
  }

  /** `s.includes(sub)`, by a left-to-right scan. */
  function Includes(s: string, sub: string): (r: bool)
    ensures r <==> Contains(s, sub)
    decreases |s|
  {
    if |s| < |sub| then
      false
    else if s[..|sub|] == sub then
      assert OccursAt(s, sub, 0);
      true
    else
      ContainsInTail(s, sub);
      Includes(s[1..], sub)
  }

  /** `s.replace(/suffix$/, '')`: drops one trailing `suffix` if there is one. */
  function StripSuffix(s: string, suffix: string): (r: string)
    ensures r <= s
    ensures EndsWith(s, suffix) ==> r + suffix == s
    ensures !EndsWith(s, suffix) ==> r == s
  {
    if EndsWith(s, suffix) then s[..|s| - |suffix|] else s
  }
}

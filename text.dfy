/** The string tests the worker uses: `includes`, `startsWith` and an anchored suffix regex. */
module Text {

  /** `sub` occurs in `s` starting at index `i`. */
  ghost predicate OccursAt(s: string, sub: string, i: int)
  {
    0 <= i && i + |sub| <= |s| && s[i..i + |sub|] == sub
  }

  lemma OccursInTail(s: string, sub: string)
    requires |s| > 0
    ensures (exists i :: OccursAt(s, sub, i)) <==> OccursAt(s, sub, 0) || exists j :: OccursAt(s[1..], sub, j)
  {
    forall j | OccursAt(s[1..], sub, j)
      ensures OccursAt(s, sub, j + 1)
    {
      assert s[j + 1..j + 1 + |sub|] == s[1..][j..j + |sub|];
    }
    forall i | OccursAt(s, sub, i) && i > 0
      ensures OccursAt(s[1..], sub, i - 1)
    {
      var t := s[1..];
      assert forall k :: i <= k < i + |sub| ==> t[k - 1] == s[k];
      assert t[i - 1..i - 1 + |sub|] == s[i..i + |sub|];
    }
  }

  /** `s.includes(sub)`: true exactly when `sub` occurs somewhere in `s`. */
  function Includes(s: string, sub: string): (r: bool)
    ensures r <==> exists i :: OccursAt(s, sub, i)
    decreases |s|
  {
    if |sub| > |s| then
      false
    else if s[..|sub|] == sub then
      assert OccursAt(s, sub, 0);
      true
    else
      OccursInTail(s, sub);
      Includes(s[1..], sub)
  }

  /** `s.startsWith(prefix)`. */
  predicate StartsWith(s: string, prefix: string)
  {
    |prefix| <= |s| && s[..|prefix|] == prefix
  }

  /** A regex `/<suffix>$/` without flags: `suffix` ends `s`. */
  predicate EndsWith(s: string, suffix: string)
  {
    |suffix| <= |s| && s[|s| - |suffix|..] == suffix
  }

  /** Whatever `s` contains, a string that embeds `s` contains as well. */
  lemma IncludesWithin(pre: string, s: string, post: string, sub: string)
    requires Includes(s, sub)
    ensures Includes(pre + s + post, sub)
  {
    var i :| OccursAt(s, sub, i);
    var t := pre + s + post;
    assert t[|pre| + i..|pre| + i + |sub|] == s[i..i + |sub|];
    assert OccursAt(t, sub, |pre| + i);
  }
}

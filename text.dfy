/** Case-sensitive substring search, as JavaScript's `String.prototype.includes`. */
module Text {

  /** `sub` occurs in `s` starting at index `i`. */
  ghost predicate OccursAt(s: string, sub: string, i: int)
  {
    0 <= i && i + |sub| <= |s| && s[i..i + |sub|] == sub
  }

  /** Characters `k..` of `sub` agree with `s` from index `i + k` on. */
  function MatchesFrom(s: string, sub: string, i: nat, k: nat): bool
    requires i + |sub| <= |s| && k <= |sub|
    decreases |sub| - k
  {
    if k == |sub| then true
    else s[i + k] == sub[k] && MatchesFrom(s, sub, i, k + 1)
  }

  lemma {:induction false} MatchesFromSpec(s: string, sub: string, i: nat, k: nat)
    requires i + |sub| <= |s| && k <= |sub|
    ensures MatchesFrom(s, sub, i, k) <==> s[i + k..i + |sub|] == sub[k..]
    decreases |sub| - k
  {
    if k < |sub| {
      MatchesFromSpec(s, sub, i, k + 1);
      assert s[i + k..i + |sub|] == [s[i + k]] + s[i + k + 1..i + |sub|];
      assert sub[k..] == [sub[k]] + sub[k + 1..];
    }
  }

  /** Left-to-right search for `sub` in `s`, starting at index `i`. */
  function IncludesFrom(s: string, sub: string, i: nat): bool
    decreases |s| - i
  {
    if i + |sub| > |s| then false
    else MatchesFrom(s, sub, i, 0) || IncludesFrom(s, sub, i + 1)
  }

  /** `s.includes(sub)`. Kept free of proof steps so that it evaluates on literals. */
  function Includes(s: string, sub: string): bool
  {
    IncludesFrom(s, sub, 0)
  }

  lemma {:induction false} IncludesFromSpec(s: string, sub: string, i: nat)
    ensures IncludesFrom(s, sub, i) <==> exists j :: i <= j && OccursAt(s, sub, j)
    decreases |s| - i
  {
    if i + |sub| <= |s| {
      IncludesFromSpec(s, sub, i + 1);
      MatchesFromSpec(s, sub, i, 0);
      assert MatchesFrom(s, sub, i, 0) <==> OccursAt(s, sub, i);
    }
  }

  /** `Includes` is substring containment: true iff `sub` occurs somewhere in `s`. */
  lemma IncludesSpec(s: string, sub: string)
    ensures Includes(s, sub) <==> exists i :: OccursAt(s, sub, i)
  {
    IncludesFromSpec(s, sub, 0);
  }

  /** The empty string is included in every string. */
  lemma IncludesEmpty(s: string)
    ensures Includes(s, "")
  {
    IncludesSpec(s, "");
    assert OccursAt(s, "", 0);
  }

  /** A one-character search is plain membership. */
  lemma IncludesChar(s: string, c: char)
    ensures Includes(s, [c]) <==> c in s
  {
    IncludesSpec(s, [c]);
    if c in s {
      var i :| 0 <= i < |s| && s[i] == c;
      assert s[i..i + 1] == [c];
      assert OccursAt(s, [c], i);
    }
    if Includes(s, [c]) {
      var i :| OccursAt(s, [c], i);
      assert s[i..i + 1][0] == s[i];
    }
  }

  /** One occurrence is enough for `Includes`. */
  lemma OccursIncludes(s: string, sub: string, i: nat)
    requires i + |sub| <= |s| && s[i..i + |sub|] == sub
    ensures Includes(s, sub)
  {
    IncludesSpec(s, sub);
    assert OccursAt(s, sub, i);
  }

  /** A string that lacks some character of `sub` cannot include `sub`. */
  lemma AbsentChar(s: string, sub: string, c: char)
    requires c in sub && c !in s
    ensures !Includes(s, sub)
  {
    IncludesSpec(s, sub);
  }
}

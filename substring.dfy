// The substring helpers of the database layer (internal/database/database.go):
// `stringContains` scans every start position with an early return, and
// `contains` guards it with a length test and an equality shortcut.

module Substring {

  /** sub occurs in s starting at index i (`s[i:i+len(sub)] == sub`). */
  predicate MatchAt(s: string, sub: string, i: int)
  {
    0 <= i && i + |sub| <= |s| && s[i..i + |sub|] == sub
  }

  /** Plain substring containment: some start position matches. */
  predicate Occurs(s: string, sub: string)
  {
    exists i :: 0 <= i <= |s| - |sub| && MatchAt(s, sub, i)
  }

  /** An independent reference definition: sub is a prefix of s or occurs in s's tail. */
  predicate IsInfix(sub: string, s: string)
    decreases |s|
  {
    (|sub| <= |s| && s[..|sub|] == sub) || (|s| > 0 && IsInfix(sub, s[1..]))
  }

  /** The two definitions of containment agree on all inputs. */
  lemma {:induction false} InfixIffOccurs(s: string, sub: string)
    ensures IsInfix(sub, s) <==> Occurs(s, sub)
    decreases |s|
  {
    if |sub| <= |s| && s[..|sub|] == sub {
      assert MatchAt(s, sub, 0);
    }
    if |s| > 0 {
      InfixIffOccurs(s[1..], sub);
      if Occurs(s[1..], sub) {
        var i :| 0 <= i <= |s| - 1 - |sub| && MatchAt(s[1..], sub, i);
        assert s[1..][i..i + |sub|] == s[i + 1..i + 1 + |sub|];
        assert MatchAt(s, sub, i + 1);
      }
      if Occurs(s, sub) && !(|sub| <= |s| && s[..|sub|] == sub) {
        var i :| 0 <= i <= |s| - |sub| && MatchAt(s, sub, i);
        assert i != 0;
        assert s[1..][i - 1..i - 1 + |sub|] == s[i..i + |sub|];
        assert MatchAt(s[1..], sub, i - 1);
      }
    }
  }

  /** `stringContains`: tries every start position i in [0, len(s) - len(sub)]
      and returns at the first match; the loop body never runs when sub is longer. */
  method StringContains(s: string, sub: string) returns (b: bool)
    ensures b <==> Occurs(s, sub)
    ensures |sub| > |s| ==> !b
  {
    var i := 0;
    while i <= |s| - |sub|
      invariant 0 <= i
      invariant i <= |s| - |sub| + 1 || i == 0
      invariant forall j :: 0 <= j < i ==> !MatchAt(s, sub, j)
    {
      if s[i..i + |sub|] == sub {
        assert MatchAt(s, sub, i);
        return true;
      }
      i := i + 1;
    }
    return false;
  }

  /** `contains`: the length guard, then the equality shortcut, then the scan. */
  method Contains(s: string, sub: string) returns (b: bool)
    ensures b <==> Occurs(s, sub)
    ensures |sub| > |s| ==> !b
  {
    if |s| >= |sub| {
      if s == sub {
        assert MatchAt(s, sub, 0);
        b := true;
      } else if |s| > |sub| {
        b := StringContains(s, sub);
      } else {
        assert !MatchAt(s, sub, 0);
        b := false;
      }
    } else {
      b := false;
    }
  }

  /** A string contains itself. */
  lemma OccursSelf(s: string)
    ensures Occurs(s, s)
  {
    assert MatchAt(s, s, 0);
  }

  /** Every string contains the empty string. */
  lemma OccursEmpty(s: string)
    ensures Occurs(s, "")
  {
    assert MatchAt(s, "", 0);
  }

  /** A longer string never occurs. */
  lemma LongerNeverOccurs(s: string, sub: string)
    requires |sub| > |s|
    ensures !Occurs(s, sub)
  {
  }
}

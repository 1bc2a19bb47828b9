/** String helpers behind the agent's phrase check: lower-casing and substring search. */
module Text {

  /** Lower-cases one ASCII letter; every other character is left as it is. */
  function LowerChar(c: char): char {
    if 'A' <= c <= 'Z' then (c as int + 32) as char else c
  }

  /** `s.lower()`, restricted to ASCII letters. */
  function Lower(s: string): string {
    seq(|s|, i requires 0 <= i < |s| => LowerChar(s[i]))
  }

  lemma LowerIdempotent(s: string)
    ensures Lower(Lower(s)) == Lower(s)
  {
  }

  /** Reference definition: `p` starts at position `i` of `s`. */
  ghost predicate OccursAt(p: string, s: string, i: int) {
    0 <= i && i + |p| <= |s| && s[i..i + |p|] == p
  }

  /** `p in s` on Python strings, computed by scanning `s` from the left. */
  predicate Contains(s: string, p: string)
    decreases |s|
  {
    if |p| > |s| then false
    else s[..|p|] == p || Contains(s[1..], p)
  }

  /** The scan finds `p` exactly when `p` occurs somewhere in `s`. */
  lemma {:induction false} ContainsIff(s: string, p: string)
    ensures Contains(s, p) <==> exists i :: OccursAt(p, s, i)
    decreases |s|
  {
    if |p| > |s| {
    } else if s[..|p|] == p {
      assert OccursAt(p, s, 0);
    } else {
      ContainsIff(s[1..], p);
      if Contains(s[1..], p) {
        var i :| OccursAt(p, s[1..], i);
        assert s[1..][i..i + |p|] == s[i + 1..i + 1 + |p|];
        assert OccursAt(p, s, i + 1);
      } else {
        forall i | OccursAt(p, s, i)
          ensures false
        {
          if i > 0 {
            assert s[1..][i - 1..i - 1 + |p|] == s[i..i + |p|];
            assert OccursAt(p, s[1..], i - 1);
          }
        }
      }
    }
  }

  /** `any(p in s for p in phrases)`. */
  predicate ContainsAny(s: string, phrases: seq<string>)
    decreases |phrases|
  {
    |phrases| > 0 && (Contains(s, phrases[0]) || ContainsAny(s, phrases[1..]))
  }

  /** `ContainsAny` holds exactly when one of the phrases occurs in `s`. */
  lemma {:induction false} ContainsAnyIff(s: string, phrases: seq<string>)
    ensures ContainsAny(s, phrases) <==> exists k, i :: 0 <= k < |phrases| && OccursAt(phrases[k], s, i)
    decreases |phrases|
  {
    if |phrases| > 0 {
      ContainsIff(s, phrases[0]);
      ContainsAnyIff(s, phrases[1..]);
      if ContainsAny(s, phrases) {
        if Contains(s, phrases[0]) {
          var i :| OccursAt(phrases[0], s, i);
          assert 0 <= 0 < |phrases| && OccursAt(phrases[0], s, i);
        } else {
          var k, i :| 0 <= k < |phrases[1..]| && OccursAt(phrases[1..][k], s, i);
          assert 0 <= k + 1 < |phrases| && OccursAt(phrases[k + 1], s, i);
        }
      }
    }
  }
}

/**
  Text primitives used by the query safety gate: lower-casing and substring
  search, standing in for Go's `strings.ToLower` and `strings.Contains`.

  Lower-casing is ASCII only: 'A'..'Z' become 'a'..'z' and every other
  character is left alone.
 */
module Text {

  predicate IsUpper(c: char) {
    'A' <= c <= 'Z'
  }

  function LowerChar(c: char): char {
    if IsUpper(c) then (c as int + 32) as char else c
  }

  /** ASCII lower-casing of a whole string, character by character. */
  function Lower(s: string): (r: string)
    ensures |r| == |s|
    ensures forall i :: 0 <= i < |s| ==> r[i] == LowerChar(s[i])
  {
    seq(|s|, i requires 0 <= i < |s| => LowerChar(s[i]))
  }

  /** `sub` occurs in `s` starting at position `i`. */
  predicate OccursAt(s: string, sub: string, i: int) {
    0 <= i && i + |sub| <= |s| && s[i..i + |sub|] == sub
  }

  /** Substring search: is `sub` a prefix of `s` or of some suffix of `s`? */
  function Contains(s: string, sub: string): bool
    decreases |s|
  {
    if |sub| > |s| then false
    else if s[..|sub|] == sub then true
    else Contains(s[1..], sub)
  }

  /** True when `s` contains at least one of `subs`, tried in order. */
  function ContainsAny(s: string, subs: seq<string>): bool
    decreases |subs|
  {
    if |subs| == 0 then false
    else Contains(s, subs[0]) || ContainsAny(s, subs[1..])
  }

  /** The scanning search finds exactly the occurrences the index-based
      definition describes, in both directions. */
  lemma {:induction false} ContainsIff(s: string, sub: string)
    ensures Contains(s, sub) <==> exists i :: OccursAt(s, sub, i)
    decreases |s|
  {
    if |sub| > |s| {
    } else if s[..|sub|] == sub {
      assert OccursAt(s, sub, 0);
    } else {
      ContainsIff(s[1..], sub);
      if exists j :: OccursAt(s[1..], sub, j) {
        var j :| OccursAt(s[1..], sub, j);
        assert s[1..][j..j + |sub|] == s[j + 1..j + 1 + |sub|];
        assert OccursAt(s, sub, j + 1);
      }
      if exists i :: OccursAt(s, sub, i) {
        var i :| OccursAt(s, sub, i);
        assert i != 0;
        assert s[1..][i - 1..i - 1 + |sub|] == s[i..i + |sub|];
        assert OccursAt(s[1..], sub, i - 1);
      }
    }
  }

  /** `ContainsAny` holds exactly when some listed string is contained. */
  lemma {:induction false} ContainsAnyIff(s: string, subs: seq<string>)
    ensures ContainsAny(s, subs) <==> exists k :: 0 <= k < |subs| && Contains(s, subs[k])
    decreases |subs|
  {
    if |subs| > 0 {
      ContainsAnyIff(s, subs[1..]);
      if exists k :: 0 <= k < |subs| && Contains(s, subs[k]) {
        var k :| 0 <= k < |subs| && Contains(s, subs[k]);
        if k > 0 {
          assert subs[1..][k - 1] == subs[k];
        }
      }
      if ContainsAny(s, subs[1..]) {
        var k :| 0 <= k < |subs[1..]| && Contains(s, subs[1..][k]);
        assert subs[k + 1] == subs[1..][k];
      }
    }
  }

  /** Lower-casing is idempotent. */
  lemma LowerIdempotent(s: string)
    ensures Lower(Lower(s)) == Lower(s)
  {
  }

  /** Lower-casing commutes with taking a slice. */
  lemma LowerSlice(s: string, i: int, j: int)
    requires 0 <= i <= j <= |s|
    ensures Lower(s)[i..j] == Lower(s[i..j])
  {
  }

  /** Lower-casing distributes over concatenation. */
  lemma LowerAppend(a: string, b: string)
    ensures Lower(a + b) == Lower(a) + Lower(b)
  {
  }

  /** An occurrence survives being embedded in a longer string. */
  lemma {:induction false} ContainsInContext(p: string, s: string, t: string, sub: string)
    requires Contains(s, sub)
    ensures Contains(p + s + t, sub)
  {
    ContainsIff(s, sub);
    var i :| OccursAt(s, sub, i);
    var w := p + s + t;
    assert w[|p| + i..|p| + i + |sub|] == s[i..i + |sub|];
    assert OccursAt(w, sub, |p| + i);
    ContainsIff(w, sub);
  }
}

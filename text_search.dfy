/** The string operations the classifiers are built from: lower-casing and
    the unanchored substring test `word in text`. */
module TextSearch {

  /** Lower-cases one character. Only the ASCII letters A-Z are mapped. */
  function LowerChar(c: char): (d: char)
    ensures 'A' <= c <= 'Z' ==> 'a' <= d <= 'z' && d as int - c as int == 32
    ensures !('A' <= c <= 'Z') ==> d == c
    ensures !('A' <= d <= 'Z')
  {
    if 'A' <= c <= 'Z' then (c as int + 32) as char else c
  }

  /** `s.lower()`, restricted to ASCII: same length, every character lowered. */
  function Lower(s: string): (r: string)
    ensures |r| == |s|
    ensures forall i | 0 <= i < |s| :: r[i] == LowerChar(s[i])
  {
    if s == [] then [] else [LowerChar(s[0])] + Lower(s[1..])
  }

  lemma LowerConcat(a: string, b: string)
    ensures Lower(a + b) == Lower(a) + Lower(b)
  {
    assert forall i | 0 <= i < |a + b| :: Lower(a + b)[i] == (Lower(a) + Lower(b))[i];
  }

  /** Lower-casing twice is lower-casing once. */
  lemma LowerIdempotent(s: string)
    ensures Lower(Lower(s)) == Lower(s)
  {
    assert forall i | 0 <= i < |s| :: Lower(Lower(s))[i] == Lower(s)[i];
  }

  /** Reference definition of Python's `sub in s`: `sub` is a contiguous
      slice of `s` at some position (the empty string is in every string). */
  ghost predicate Occurs(sub: string, s: string)
  {
    exists i :: OccursAt(sub, s, i)
  }

  /** `sub` is the slice of `s` that starts at position `i`. */
  ghost predicate OccursAt(sub: string, s: string, i: int)
  {
    0 <= i <= |s| - |sub| && s[i..i + |sub|] == sub
  }

  /** An occurrence that does not start at position 0 is an occurrence in the tail. */
  lemma OccursTail(sub: string, s: string)
    requires |sub| <= |s| && s[..|sub|] != sub
    ensures Occurs(sub, s) <==> Occurs(sub, s[1..])
  {
    if Occurs(sub, s) {
      var i :| OccursAt(sub, s, i);
      assert i != 0;
      assert s[1..][i - 1..i - 1 + |sub|] == s[i..i + |sub|];
      assert OccursAt(sub, s[1..], i - 1);
    }
    if Occurs(sub, s[1..]) {
      var j :| OccursAt(sub, s[1..], j);
      assert s[j + 1..j + 1 + |sub|] == s[1..][j..j + |sub|];
      assert OccursAt(sub, s, j + 1);
    }
  }

  /** The substring search `sub in s`, scanning start positions left to right. */
  function Contains(s: string, sub: string): (r: bool)
    ensures r <==> Occurs(sub, s)
    decreases |s|
  {
    if |sub| > |s| then false
    else if s[..|sub|] == sub then
      assert OccursAt(sub, s, 0);
      true
    else
      OccursTail(sub, s);
      Contains(s[1..], sub)
  }

  /** `any(word in s for word in words)`. */
  function AnyOccurs(words: seq<string>, s: string): (r: bool)
    ensures r <==> exists k | 0 <= k < |words| :: Occurs(words[k], s)
  {
    if words == [] then false
    else
      assert forall k | 0 <= k < |words[1..]| :: words[1..][k] == words[k + 1];
      Contains(s, words[0]) || AnyOccurs(words[1..], s)
  }

  /** An occurrence in `t` is an occurrence in any string that has `t` inside it. */
  lemma {:induction false} OccursInside(sub: string, p: string, t: string, q: string)
    requires Occurs(sub, t)
    ensures Occurs(sub, p + t + q)
  {
    var i :| OccursAt(sub, t, i);
    var s := p + t + q;
    assert s[|p| + i..|p| + i + |sub|] == t[i..i + |sub|];
    assert OccursAt(sub, s, |p| + i);
  }
}

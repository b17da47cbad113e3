/** The string operations the schemas and the search rely on. */
module Text {

  /** The characters JavaScript's `String.prototype.trim` removes (WhiteSpace and LineTerminator). */
  predicate IsJsSpace(c: char) {
    c == ' ' || c == '\t' || c == '\n' || c == '\r' || c == '\U{000B}' || c == '\U{000C}'
    || c == '\U{00A0}' || c == '\U{1680}' || ('\U{2000}' <= c <= '\U{200A}')
    || c == '\U{2028}' || c == '\U{2029}' || c == '\U{202F}' || c == '\U{205F}'
    || c == '\U{3000}' || c == '\U{FEFF}'
  }

  predicate AllSpace(s: string) {
    forall i :: 0 <= i < |s| ==> IsJsSpace(s[i])
  }

  /** Neither end of `s` is white space. */
  predicate Trimmed(s: string) {
    s == [] || (!IsJsSpace(s[0]) && !IsJsSpace(s[|s| - 1]))
  }

  /** Drops leading white space: the result is a suffix of `s` and what was dropped is all white space. */
  function TrimStart(s: string): (r: string)
    ensures |r| <= |s| && r == s[|s| - |r|..]
    ensures AllSpace(s[..|s| - |r|])
    ensures r == [] || !IsJsSpace(r[0])
    decreases |s|
  {
    if s != [] && IsJsSpace(s[0]) then
      var t := TrimStart(s[1..]);
      assert s[..|s| - |t|] == [s[0]] + s[1..][..|s| - 1 - |t|];
      t
    else
      s
  }

  /** Drops trailing white space: the result is a prefix of `s` and what was dropped is all white space. */
  function TrimEnd(s: string): (r: string)
    ensures |r| <= |s| && r == s[..|r|]
    ensures AllSpace(s[|r|..])
    ensures r == [] || !IsJsSpace(r[|r| - 1])
    decreases |s|
  {
    if s != [] && IsJsSpace(s[|s| - 1]) then
      var t := TrimEnd(s[..|s| - 1]);
      assert s[|t|..] == s[..|s| - 1][|t|..] + [s[|s| - 1]];
      t
    else
      s
  }

  /** `r` sits in `s` at offset `i` with only white space before and after it. */
  predicate PaddedAt(s: string, r: string, i: int) {
    0 <= i <= |s| - |r| && s[i..i + |r|] == r && AllSpace(s[..i]) && AllSpace(s[i + |r|..])
  }

  /**
   * The `trim: true` setter of a string path: the result is a trimmed
   * infix of `s` and everything around it is white space.
   */
  function Trim(s: string): (r: string)
    ensures Trimmed(r)
    ensures exists i :: PaddedAt(s, r, i)
  {
    var t := TrimStart(s);
    var r := TrimEnd(t);
    var i := |s| - |t|;
    assert r != [] ==> r[0] == t[0];
    assert s[i..i + |r|] == r;
    assert s[i + |r|..] == t[|r|..];
    assert PaddedAt(s, r, i);
    r
  }

  lemma TrimKeepsTrimmed(t: string)
    requires Trimmed(t)
    ensures Trim(t) == t
  {
  }

  lemma TrimIdempotent(s: string)
    ensures Trim(Trim(s)) == Trim(s)
  {
    TrimKeepsTrimmed(Trim(s));
  }

  lemma {:induction false} TrimStartOfSpace(s: string)
    requires AllSpace(s)
    ensures TrimStart(s) == []
    decreases |s|
  {
    if s != [] {
      TrimStartOfSpace(s[1..]);
    }
  }

  /** Trimming leaves nothing exactly when the string is all white space (the `required` check fails). */
  lemma TrimEmptyIffAllSpace(s: string)
    ensures Trim(s) == [] <==> AllSpace(s)
  {
    if AllSpace(s) {
      TrimStartOfSpace(s);
    }
    if Trim(s) == [] {
      var i :| PaddedAt(s, [], i);
      forall k | 0 <= k < |s| ensures IsJsSpace(s[k]) {
        if k < i { assert s[k] == s[..i][k]; } else { assert s[k] == s[i..][k - i]; }
      }
    }
  }

  /** ASCII-only lower-casing (no Unicode case folding). */
  function AsciiLower(c: char): char {
    if 'A' <= c <= 'Z' then (c as int + 32) as char else c
  }

  function Lower(s: string): (r: string)
    ensures |r| == |s|
  {
    seq(|s|, i requires 0 <= i < |s| => AsciiLower(s[i]))
  }

  lemma LowerIdempotent(s: string)
    ensures Lower(Lower(s)) == Lower(s)
  {
  }

  predicate IsPrefixOf(p: string, s: string) {
    |p| <= |s| && s[..|p|] == p
  }

  /** Whether `p` occurs as a contiguous piece of `s`, tried position by position. */
  function Occurs(p: string, s: string): bool
    decreases |s|
  {
    IsPrefixOf(p, s) || (s != [] && Occurs(p, s[1..]))
  }

  /** `p` occurs in `s` starting at position `i`. */
  predicate OccursAt(p: string, s: string, i: int) {
    0 <= i <= |s| - |p| && s[i..i + |p|] == p
  }

  /** `Occurs` agrees with the definition of a substring by position. */
  lemma {:induction false} OccursIff(p: string, s: string)
    ensures Occurs(p, s) <==> exists i :: OccursAt(p, s, i)
    decreases |s|
  {
    if IsPrefixOf(p, s) {
      assert OccursAt(p, s, 0);
    } else if s == [] {
      assert forall i :: !OccursAt(p, s, i);
    } else {
      OccursIff(p, s[1..]);
      if Occurs(p, s[1..]) {
        var j :| OccursAt(p, s[1..], j);
        assert s[1..][j..j + |p|] == s[j + 1..j + 1 + |p|];
        assert OccursAt(p, s, j + 1);
      }
      if exists i :: OccursAt(p, s, i) {
        var i :| OccursAt(p, s, i);
        assert i != 0;
        assert s[1..][i - 1..i - 1 + |p|] == s[i..i + |p|];
        assert OccursAt(p, s[1..], i - 1);
      }
    }
  }

  /** The search filter: `term` occurs in `name`, ignoring ASCII case. */
  predicate ContainsIgnoreCase(name: string, term: string) {
    Occurs(Lower(term), Lower(name))
  }

  /** Case of the term does not matter to the search. */
  lemma {:induction false} ContainsIgnoresTermCase(name: string, term: string)
    ensures ContainsIgnoreCase(name, term) == ContainsIgnoreCase(name, Lower(term))
  {
    LowerIdempotent(term);
  }
}

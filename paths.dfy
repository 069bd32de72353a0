/** The three string operations of Go's standard library that the key scheme relies on:
    path.Base (and filepath.Base, which is the same on a '/'-separated system),
    strings.Split with separator "/", and strings.Contains. */
module Paths {

  /** The path with its trailing '/' characters removed. */
  function TrimTrailingSlashes(p: string): (r: string)
    ensures r <= p
    ensures r == [] || r[|r| - 1] != '/'
    ensures forall i | |r| <= i < |p| :: p[i] == '/'
  {
    if |p| > 0 && p[|p| - 1] == '/' then TrimTrailingSlashes(p[..|p| - 1]) else p
  }

  /** The text after the last '/' of p (all of p when it has none). */
  function LastElement(p: string): (r: string)
    ensures '/' !in r
    ensures |r| <= |p| && p[|p| - |r|..] == r
    ensures |r| < |p| ==> p[|p| - |r| - 1] == '/'
  {
    if p == [] then []
    else if p[|p| - 1] == '/' then []
    else LastElement(p[..|p| - 1]) + [p[|p| - 1]]
  }

  /** path.Base: "." for the empty path, "/" for a path of slashes only, otherwise the
      last element after trailing slashes are removed. */
  function Base(p: string): (r: string)
    ensures r != []
    ensures r == "/" || '/' !in r
    ensures p == [] ==> r == "."
  {
    if p == [] then "."
    else
      var e := LastElement(TrimTrailingSlashes(p));
      if e == [] then "/" else e
  }

  lemma {:induction false} LastElementWithoutSlash(s: string)
    requires '/' !in s
    ensures LastElement(s) == s
  {
    if s != [] {
      assert s == s[..|s| - 1] + [s[|s| - 1]];
      LastElementWithoutSlash(s[..|s| - 1]);
    }
  }

  lemma {:induction false} LastElementAfterSlash(p: string, b: string)
    requires '/' !in b
    ensures LastElement(p + "/" + b) == b
  {
    var s := p + "/" + b;
    if b == [] {
      assert s[|s| - 1] == '/';
    } else {
      var b' := b[..|b| - 1];
      assert s[..|s| - 1] == p + "/" + b';
      assert s[|s| - 1] == b[|b| - 1];
      LastElementAfterSlash(p, b');
      assert b == b' + [b[|b| - 1]];
    }
  }

  /** The base of a path that ends in "/" followed by a slash-free, non-empty name is that name. */
  lemma BaseOfJoin(p: string, b: string)
    requires b != [] && '/' !in b
    ensures Base(p + "/" + b) == b
  {
    var s := p + "/" + b;
    assert s[|s| - 1] == b[|b| - 1];
    assert TrimTrailingSlashes(s) == s;
    LastElementAfterSlash(p, b);
  }

  /** Taking the base twice changes nothing. */
  lemma BaseIdempotent(p: string)
    ensures Base(Base(p)) == Base(p)
  {
    var r := Base(p);
    if r == "/" {
      assert TrimTrailingSlashes(r) == [];
    } else {
      assert r[|r| - 1] != '/' by { assert r[|r| - 1] in r; }
      assert TrimTrailingSlashes(r) == r;
      LastElementWithoutSlash(r);
    }
  }

  /** The index of the first '/' of s. */
  function FirstSlash(s: string): (i: nat)
    requires '/' in s
    ensures i < |s| && s[i] == '/' && '/' !in s[..i]
  {
    if s[0] == '/' then 0
    else
      assert '/' in s[1..] by {
        var k :| 0 <= k < |s| && s[k] == '/';
        assert s[1..][k - 1] == '/';
      }
      var j := FirstSlash(s[1..]);
      assert s[..j + 1] == [s[0]] + s[1..][..j];
      j + 1
  }

  /** strings.Split(s, "/"): the maximal '/'-free pieces of s, in order. */
  function Split(s: string): (parts: seq<string>)
    ensures |parts| >= 1
    ensures forall i | 0 <= i < |parts| :: '/' !in parts[i]
    ensures |parts| >= 2 <==> '/' in s
    decreases |s|
  {
    if '/' !in s then [s]
    else
      var i := FirstSlash(s);
      [s[..i]] + Split(s[i + 1..])
  }

  /** strings.Join(parts, "/"). */
  function Join(parts: seq<string>): string
    requires |parts| >= 1
  {
    if |parts| == 1 then parts[0] else parts[0] + "/" + Join(parts[1..])
  }

  /** Joining the pieces of a split gives back the string. */
  lemma {:induction false} JoinSplit(s: string)
    ensures Join(Split(s)) == s
    decreases |s|
  {
    if '/' in s {
      var i := FirstSlash(s);
      JoinSplit(s[i + 1..]);
      assert Split(s)[1..] == Split(s[i + 1..]);
      assert s == s[..i] + "/" + s[i + 1..];
    }
  }

  /** Splitting a slash-free head followed by "/" peels off that head. */
  lemma SplitAfterHead(a: string, b: string)
    requires '/' !in a
    ensures Split(a + "/" + b) == [a] + Split(b)
  {
    var s := a + "/" + b;
    assert s[|a|] == '/';
    var i := FirstSlash(s);
    assert forall k | 0 <= k < i :: s[k] != '/' by {
      forall k | 0 <= k < i ensures s[k] != '/' { assert s[..i][k] == s[k]; }
    }
    assert forall k | 0 <= k < |a| :: s[k] != '/' by {
      forall k | 0 <= k < |a| ensures s[k] != '/' { assert s[k] == a[k]; }
    }
    assert i == |a|;
    assert s[..i] == a;
    assert s[i + 1..] == b;
  }

  /** sub occurs in s starting at index i. */
  predicate OccursAt(s: string, sub: string, i: int)
  {
    0 <= i && i + |sub| <= |s| && s[i..i + |sub|] == sub
  }

  /** strings.Contains(s, sub). */
  function Contains(s: string, sub: string): bool
    decreases |s|
  {
    sub <= s || (s != [] && Contains(s[1..], sub))
  }

  /** Contains agrees with the definition "sub occurs somewhere in s". */
  lemma {:induction false} ContainsIffOccurs(s: string, sub: string)
    ensures Contains(s, sub) <==> exists i :: OccursAt(s, sub, i)
    decreases |s|
  {
    if sub <= s {
      assert OccursAt(s, sub, 0);
    } else if s != [] {
      ContainsIffOccurs(s[1..], sub);
      forall i | OccursAt(s[1..], sub, i) ensures OccursAt(s, sub, i + 1) {
        assert s[1..][i..i + |sub|] == s[i + 1..i + 1 + |sub|];
      }
      forall i | OccursAt(s, sub, i) ensures OccursAt(s[1..], sub, i - 1) {
        assert i != 0;
        assert s[1..][i - 1..i - 1 + |sub|] == s[i..i + |sub|];
      }
    }
  }

  /** A string contains every piece it is built around. */
  lemma ContainsMiddle(a: string, sub: string, b: string)
    ensures Contains(a + sub + b, sub)
  {
    var s := a + sub + b;
    assert s[|a|..|a| + |sub|] == sub;
    assert OccursAt(s, sub, |a|);
    ContainsIffOccurs(s, sub);
  }
}

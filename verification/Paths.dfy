/** Slash-separated catalog paths: the prefix tests that the mutations use,
    re-basing, and the chain of ancestors that `path.Dir` walks. */
module Paths {

  /** strings.HasPrefix(path, root + "/") */
  predicate Below(path: string, root: string) {
    root + "/" <= path
  }

  predicate AtOrBelow(path: string, root: string) {
    path == root || Below(path, root)
  }

  /** to + strings.TrimPrefix(path, from) */
  function Rebase(path: string, from: string, to: string): (moved: string)
    ensures AtOrBelow(path, from) ==> AtOrBelow(moved, to)
    ensures Below(path, from) ==> Below(moved, to)
  {
    var moved := to + if from <= path then path[|from|..] else path;
    assert Below(path, from) ==> moved[..|to| + 1] == to + "/";
    moved
  }

  lemma RebaseInjective(p: string, q: string, from: string, to: string)
    requires AtOrBelow(p, from) && AtOrBelow(q, from)
    requires Rebase(p, from, to) == Rebase(q, from, to)
    ensures p == q
  {
    assert p == from + p[|from|..];
    assert q == from + q[|from|..];
    assert p[|from|..] == Rebase(p, from, to)[|to|..];
    assert q[|from|..] == Rebase(q, from, to)[|to|..];
  }

  /** Re-basing there and back is the identity. */
  lemma RebaseRoundTrip(p: string, from: string, to: string)
    requires AtOrBelow(p, from)
    ensures Rebase(Rebase(p, from, to), to, from) == p
  {
    assert p == from + p[|from|..];
    assert Rebase(p, from, to)[|to|..] == p[|from|..];
  }

  lemma BelowTransitive(p: string, q: string, r: string)
    requires Below(p, q) && AtOrBelow(q, r)
    ensures Below(p, r)
  {
    if q != r {
      assert p[..|q| + 1] == q + "/";
      assert q[..|r| + 1] == r + "/";
      assert p[..|r| + 1] == q[..|r| + 1];
    }
  }

  lemma BelowIsLonger(p: string, q: string)
    requires Below(p, q)
    ensures |p| > |q| && !AtOrBelow(q, p)
  {
  }

  /** Two roots above the same path are nested or equal. */
  lemma RootsNest(p: string, a: string, b: string)
    requires AtOrBelow(p, a) && AtOrBelow(p, b) && |a| <= |b|
    ensures AtOrBelow(b, a)
  {
    if p != a {
      assert p[..|a| + 1] == a + "/";
      if p != b {
        assert p[..|b| + 1] == b + "/";
        assert p[..|b|] == b;
        if |a| < |b| {
          assert b[..|a| + 1] == p[..|a| + 1];
        } else {
          assert a == p[..|a|] == b;
        }
      }
    }
  }

  /** Re-basing keeps the order of a subtree. */
  lemma RebaseMonotone(p: string, q: string, from: string, to: string)
    requires AtOrBelow(p, from) && AtOrBelow(q, from)
    ensures Below(p, q) <==> Below(Rebase(p, from, to), Rebase(q, from, to))
  {
    assert p == from + p[|from|..];
    assert q == from + q[|from|..];
    var ps, qs := p[|from|..], q[|from|..];
    assert Below(p, q) <==> qs + "/" <= ps by {
      assert q + "/" == from + (qs + "/");
      PrefixCancel(from, qs + "/", ps);
    }
    assert Below(to + ps, to + qs) <==> qs + "/" <= ps by {
      assert to + qs + "/" == to + (qs + "/");
      PrefixCancel(to, qs + "/", ps);
    }
  }

  lemma PrefixCancel(front: string, a: string, b: string)
    ensures front + a <= front + b <==> a <= b
  {
    if front + a <= front + b {
      assert (front + b)[..|front + a|] == front + a;
      assert b[..|a|] == (front + b)[|front|..|front| + |a|];
      assert (front + a)[|front|..] == a;
    }
    if a <= b {
      assert b == a + b[|a|..];
      assert front + b == (front + a) + b[|a|..];
    }
  }

  /** Index of the last slash, or -1. */
  function LastSlash(p: string): (k: int)
    ensures -1 <= k < |p|
    ensures k >= 0 ==> p[k] == '/'
    ensures forall j :: k < j < |p| ==> p[j] != '/'
  {
    if |p| == 0 then -1
    else if p[|p| - 1] == '/' then |p| - 1
    else LastSlash(p[..|p| - 1])
  }

  /** The directories path.Dir visits, nearest first. */
  function Ancestors(p: string): (dirs: seq<string>)
  {
    var k := LastSlash(p);
    if k < 0 then [] else [p[..k]] + Ancestors(p[..k])
  }

  /** The walk visits exactly the roots that p lies below. */
  lemma {:induction false} AncestorsExact(p: string, q: string)
    ensures q in Ancestors(p) <==> Below(p, q)
  {
    var k := LastSlash(p);
    if k < 0 {
      assert |q| < |p| ==> p[|q|] != '/';
      assert (q + "/")[|q|] == '/';
    } else {
      var d := p[..k];
      AncestorsExact(d, q);
      assert Below(p, d) by {
        assert p[..k + 1] == d + "/";
      }
      if Below(d, q) {
        BelowTransitive(p, d, q);
      }
      if Below(p, q) {
        assert p[..|q| + 1] == q + "/";
        assert p[|q|] == '/';
        assert |q| <= k;
        RootsNest(p, q, d);
      }
    }
  }
}

/** Keyset pages: what a bounded page of sorted keys must be, and that following
    its cursor visits every key once. */
module Pages {
  import opened Prelude

  ghost predicate Ascending(keys: seq<string>) {
    forall i, j :: 0 <= i < j < |keys| ==> Less(keys[i], keys[j])
  }

  /** The first `limit` keys beyond a cursor, in order, and whether any are left. */
  ghost predicate IsKeyPage(all: set<string>, after: string, limit: nat, page: seq<string>, more: bool) {
    && |page| <= limit && Ascending(page)
    && (forall k :: k in page ==> k in all && Less(after, k))
    && (forall k, p :: k in all && Less(after, k) && k !in page && p in page ==> Less(p, k))
    && (more <==> exists k :: k in all && Less(after, k) && k !in page)
    && (more ==> |page| == limit)
  }

  lemma AscendingDistinct(keys: seq<string>, i: int, j: int)
    requires Ascending(keys) && 0 <= i < |keys| && 0 <= j < |keys| && keys[i] == keys[j]
    ensures i == j
  {
    LessIrreflexive(keys[i]);
  }

  /** There is only one such page: filter, sort and take. */
  lemma {:induction false} KeyPageUnique(all: set<string>, after: string, limit: nat, a: seq<string>, b: seq<string>,
                                         more: bool, less: bool)
    requires IsKeyPage(all, after, limit, a, more) && IsKeyPage(all, after, limit, b, less)
    ensures a == b && more == less
  {
    PagesAgreeUpTo(all, after, limit, a, b, more, less, Min(|a|, |b|));
    if |a| <= |b| {
      PageNotShorter(all, after, limit, a, b, more, less);
    } else {
      PageNotShorter(all, after, limit, b, a, less, more);
    }
  }

  lemma {:induction false} PagesAgreeUpTo(all: set<string>, after: string, limit: nat, a: seq<string>, b: seq<string>,
                                          more: bool, less: bool, n: int)
    requires IsKeyPage(all, after, limit, a, more) && IsKeyPage(all, after, limit, b, less)
    requires 0 <= n <= |a| && n <= |b|
    ensures a[..n] == b[..n]
  {
    hide Less;
    if n > 0 {
      PagesAgreeUpTo(all, after, limit, a, b, more, less, n - 1);
      assert forall i :: 0 <= i < n - 1 ==> a[i] == a[..n - 1][i] == b[..n - 1][i] == b[i];
      LessTotal(a[n - 1], b[n - 1]);
      NextNotSmaller(all, after, limit, a, b, less, n - 1);
      NextNotSmaller(all, after, limit, b, a, more, n - 1);
    }
  }

  lemma NextNotSmaller(all: set<string>, after: string, limit: nat, a: seq<string>, b: seq<string>, less: bool, n: int)
    requires Ascending(a) && (forall k :: k in a ==> k in all && Less(after, k))
             && IsKeyPage(all, after, limit, b, less)
    requires 0 <= n < |a| && n < |b| && forall i :: 0 <= i < n ==> a[i] == b[i]
    ensures !Less(a[n], b[n])
  {
    hide Less;
    if Less(a[n], b[n]) {
      NotBetween(all, after, limit, b, less, n, a[n]);
      var i :| 0 <= i < n && b[i] == a[n];
      AscendingDistinct(a, i, n);
    }
  }

  /** A page skips no key before any of its own. */
  lemma NotBetween(all: set<string>, after: string, limit: nat, page: seq<string>, more: bool, n: int, k: string)
    requires IsKeyPage(all, after, limit, page, more) && 0 <= n < |page|
    requires k in all && Less(after, k) && Less(k, page[n])
    ensures exists i :: 0 <= i < n && page[i] == k
  {
    hide Less;
    LessAsymmetric(k, page[n]);
    assert page[n] in page && k in page;
    var i :| 0 <= i < |page| && page[i] == k;
    if i >= n {
      LessIrreflexive(k);
    }
  }

  lemma PageNotShorter(all: set<string>, after: string, limit: nat, a: seq<string>, b: seq<string>, more: bool,
                       less: bool)
    requires IsKeyPage(all, after, limit, a, more) && IsKeyPage(all, after, limit, b, less)
    requires |a| <= |b| && a == b[..|a|]
    ensures |a| == |b|
  {
    hide Less;
    if |a| < |b| {
      var k := b[|a|];
      assert k in b;
      if k in a {
        var i :| 0 <= i < |a| && a[i] == k;
        AscendingDistinct(b, i, |a|);
      }
    }
  }

  /** The page cut out of all keys in order. */
  lemma SliceIsKeyPage(all: set<string>, keys: seq<string>, after: string, limit: nat, start: nat, end: nat)
    requires Ascending(keys) && (forall k :: k in all <==> k in keys) && limit > 0
    requires start <= |keys| && end == Min(start + limit, |keys|)
    requires forall k :: 0 <= k < start ==> !Less(after, keys[k])
    requires forall k :: start <= k < |keys| ==> Less(after, keys[k])
    ensures IsKeyPage(all, after, limit, keys[start..end], end < |keys|)
  {
    hide Less;
    var page := keys[start..end];
    forall i | start <= i < end ensures keys[i] in page {
      assert page[i - start] == keys[i];
    }
    forall k | k in all && Less(after, k) && k !in page ensures exists i :: end <= i < |keys| && keys[i] == k {
      var i :| 0 <= i < |keys| && keys[i] == k;
    }
    if end < |keys| {
      assert keys[end] in all;
      forall x | 0 <= x < |page| ensures page[x] != keys[end] {
        if page[x] == keys[end] {
          AscendingDistinct(keys, start + x, end);
        }
      }
    }
  }

  // ------------------------------------------------------------------ cursors

  /** Pages fetched one after another from an unchanged set of keys. */
  ghost predicate IsWalk(all: set<string>, after: string, limit: nat, pages: seq<seq<string>>)
    decreases |pages|
  {
    && |pages| > 0
    && if |pages| == 1 then IsKeyPage(all, after, limit, pages[0], false)
       else IsKeyPage(all, after, limit, pages[0], true) && |pages[0]| > 0
            && IsWalk(all, pages[0][|pages[0]| - 1], limit, pages[1..])
  }

  function Concat(pages: seq<seq<string>>): seq<string> {
    if pages == [] then [] else pages[0] + Concat(pages[1..])
  }

  /** Following the cursor to the end lists every key beyond the start exactly
      once, in order. */
  lemma {:induction false} WalkVisitsOnce(all: set<string>, after: string, limit: nat, pages: seq<seq<string>>)
    requires IsWalk(all, after, limit, pages)
    ensures Ascending(Concat(pages))
    ensures forall k :: k in Concat(pages) <==> k in all && Less(after, k)
    decreases |pages|
  {
    var page := pages[0];
    if |pages| == 1 {
      assert Concat(pages) == page;
    } else {
      var last, rest := page[|page| - 1], Concat(pages[1..]);
      WalkVisitsOnce(all, last, limit, pages[1..]);
      forall k ensures k in page + rest <==> k in all && Less(after, k) {
        WalkKey(all, after, limit, page, rest, k);
      }
      forall i, j | 0 <= i < j < |page + rest| ensures Less((page + rest)[i], (page + rest)[j]) {
        if i < |page| <= j {
          assert (page + rest)[j] in rest;
          if i < |page| - 1 {
            LessTransitive(page[i], last, (page + rest)[j]);
          }
        }
      }
    }
  }

  lemma WalkKey(all: set<string>, after: string, limit: nat, page: seq<string>, rest: seq<string>, k: string)
    requires IsKeyPage(all, after, limit, page, true) && |page| > 0
    requires forall x :: x in rest <==> x in all && Less(page[|page| - 1], x)
    ensures k in page + rest <==> k in all && Less(after, k)
  {
    var last := page[|page| - 1];
    assert last in page;
    if k in rest {
      LessTransitive(after, last, k);
    }
  }
}

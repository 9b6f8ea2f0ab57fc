/**
 * The pure part of `_preprocess_summarized_data`: for one counter, the
 * total of its counts and its highlights, which are the first five entries
 * of the counter sorted by count, largest first.  Python's `sorted` with
 * `reverse=True` is stable, so entries with equal counts keep the order in
 * which they were counted.
 */
module Highlights {
  import opened Dicts
  import opened Counting
  import opened Seqs

  /** How many entries `highlights` keeps (`[:5]`). */
  const HighlightCount: nat := 5

  type Entry = (string, nat)

  /** Counts never increase along `s`. */
  predicate Descending(s: Counter) {
    forall i, j :: 0 <= i < j < |s| ==> s[i].1 >= s[j].1
  }

  /** The number of leading entries of `s` that count at least `n`. */
  function AtLeast(s: Counter, n: nat): (k: nat)
    ensures k <= |s|
    ensures forall i :: 0 <= i < k ==> s[i].1 >= n
    ensures k < |s| ==> s[k].1 < n
  {
    if s == [] || s[0].1 < n then 0 else 1 + AtLeast(s[1..], n)
  }

  /**
   * Places `x` after every entry that counts at least as much, so that an
   * entry arriving later stays behind earlier entries with the same count.
   */
  function Insert(s: Counter, x: Entry): Counter {
    var k := AtLeast(s, x.1);
    s[..k] + [x] + s[k..]
  }

  /** `sorted(entries.items(), key=lambda x: x[1], reverse=True)`. */
  function SortDesc(e: Counter): Counter {
    if e == [] then [] else Insert(SortDesc(e[..|e| - 1]), e[|e| - 1])
  }

  /** The entries of `s` with count `n`, in their order in `s`. */
  function WithCount(s: Counter, n: nat): Counter {
    if s == [] then [] else (if s[0].1 == n then [s[0]] else []) + WithCount(s[1..], n)
  }

  lemma {:induction false} WithCountConcat(a: Counter, b: Counter, n: nat)
    ensures WithCount(a + b, n) == WithCount(a, n) + WithCount(b, n)
    decreases |a|
  {
    if a == [] {
      ConcatEmpty(b);
      ConcatEmpty(WithCount(b, n));
    } else {
      DropFirst(a, b);
      WithCountConcat(a[1..], b, n);
      AppendAssoc(if a[0].1 == n then [a[0]] else [], WithCount(a[1..], n), WithCount(b, n));
    }
  }

  lemma WithCountSingle(x: Entry, n: nat)
    ensures WithCount([x], n) == if x.1 == n then [x] else []
  {
    assert [x][1..] == [];
  }

  lemma {:induction false} WithCountNone(s: Counter, n: nat)
    requires forall i :: 0 <= i < |s| ==> s[i].1 != n
    ensures WithCount(s, n) == []
    decreases |s|
  {
    if s != [] {
      WithCountNone(s[1..], n);
    }
  }

  /** Inserting keeps the order descending. */
  lemma InsertDescending(s: Counter, x: Entry)
    requires Descending(s)
    ensures Descending(Insert(s, x))
  {
    var k := AtLeast(s, x.1);
    var r := Insert(s, x);
    forall i, j | 0 <= i < j < |r| ensures r[i].1 >= r[j].1 {
      if j < k {
        assert r[i] == s[i] && r[j] == s[j];
      } else if j == k {
        assert r[i] == s[i];
      } else if i < k {
        assert r[i] == s[i] && r[j] == s[j - 1];
      } else if i == k {
        assert r[j] == s[j - 1] && s[k].1 >= s[j - 1].1;
      } else {
        assert r[i] == s[i - 1] && r[j] == s[j - 1];
      }
    }
  }

  /** Inserting adds `x` to the entries and its count to the sum. */
  lemma InsertContents(s: Counter, x: Entry)
    ensures multiset(Insert(s, x)) == multiset(s) + multiset{x}
    ensures Sum(Insert(s, x)) == Sum(s) + x.1
  {
    var k := AtLeast(s, x.1);
    var a, b := s[..k], s[k..];
    assert Insert(s, x) == (a + [x]) + b;
    TakeDrop(s, k);
    SumConcat(a + [x], b);
    SumAppend(a, x);
    SumConcat(a, b);
  }

  /** Past the entries counting at least `x.1`, a descending counter has none counting `x.1`. */
  lemma BelowNone(s: Counter, k: nat, n: nat)
    requires Descending(s)
    requires k <= |s|
    requires k < |s| ==> s[k].1 < n
    ensures WithCount(s[k..], n) == []
  {
    var b := s[k..];
    forall i | 0 <= i < |b| ensures b[i].1 != n {
      assert b[i] == s[k + i];
      assert i == 0 || s[k].1 >= s[k + i].1;
    }
    WithCountNone(b, n);
  }

  /** In a descending counter, `x` goes last among the entries of its count. */
  lemma InsertWithCount(s: Counter, x: Entry, n: nat)
    requires Descending(s)
    ensures WithCount(Insert(s, x), n) == WithCount(s, n) + (if x.1 == n then [x] else [])
  {
    var k := AtLeast(s, x.1);
    var a, b := s[..k], s[k..];
    var wa, wb, wx := WithCount(a, n), WithCount(b, n), WithCount([x], n);
    assert Insert(s, x) == (a + [x]) + b;
    TakeDrop(s, k);
    WithCountConcat(a + [x], b, n);
    WithCountConcat(a, [x], n);
    WithCountConcat(a, b, n);
    WithCountSingle(x, n);
    assert WithCount(Insert(s, x), n) == (wa + wx) + wb;
    assert WithCount(s, n) == wa + wb;
    if x.1 == n {
      BelowNone(s, k, n);
      ConcatEmpty(wa + wx);
      ConcatEmpty(wa);
    } else {
      ConcatEmpty(wa);
      ConcatEmpty(wb);
    }
  }

  /**
   * The sort is a stable descending permutation: the same entries, largest
   * count first, and for every count the entries with that count in their
   * original order.
   */
  lemma {:induction false} SortDescSpec(e: Counter)
    ensures |SortDesc(e)| == |e|
    ensures Descending(SortDesc(e))
    ensures multiset(SortDesc(e)) == multiset(e)
    ensures Sum(SortDesc(e)) == Sum(e)
    ensures forall n :: WithCount(SortDesc(e), n) == WithCount(e, n)
    decreases |e|
  {
    if e != [] {
      var e', x := e[..|e| - 1], e[|e| - 1];
      assert e == e' + [x];
      SortDescSpec(e');
      InsertDescending(SortDesc(e'), x);
      InsertContents(SortDesc(e'), x);
      forall n ensures WithCount(SortDesc(e), n) == WithCount(e, n) {
        InsertWithCount(SortDesc(e'), x, n);
        WithCountConcat(e', [x], n);
      }
    }
  }

  /** Inserting an entry with a new key keeps the keys distinct and adds that key. */
  lemma InsertDistinct(s: Counter, x: Entry)
    requires Distinct(s) && !HasKey(s, x.0)
    ensures Distinct(Insert(s, x))
    ensures forall k :: HasKey(Insert(s, x), k) <==> HasKey(s, k) || k == x.0
  {
    var k := AtLeast(s, x.1);
    var r := Insert(s, x);
    assert forall i :: 0 <= i < k ==> r[i] == s[i];
    assert r[k] == x;
    assert forall i :: k < i < |r| ==> r[i] == s[i - 1];
    forall i, j | 0 <= i < j < |r| ensures r[i].0 != r[j].0 {
      if i == k || j == k {
        var o := if i == k then j else i;
        assert r[o].0 == s[if o < k then o else o - 1].0;
      }
    }
    forall key | HasKey(s, key) ensures HasKey(r, key) {
      var i :| 0 <= i < |s| && s[i].0 == key;
      assert r[if i < k then i else i + 1] == s[i];
    }
  }

  /** Sorting a dictionary's items keeps their keys distinct and the same. */
  lemma {:induction false} SortDescDistinct(e: Counter)
    requires Distinct(e)
    ensures Distinct(SortDesc(e))
    ensures forall k :: HasKey(SortDesc(e), k) <==> HasKey(e, k)
    decreases |e|
  {
    if e != [] {
      var e', x := e[..|e| - 1], e[|e| - 1];
      assert e == e' + [x];
      SortDescDistinct(e');
      forall k | HasKey(e, k) ensures HasKey(e', k) || k == x.0 {
        var i :| 0 <= i < |e| && e[i].0 == k;
        if i < |e'| { assert e'[i].0 == k; }
      }
      forall k | HasKey(e', k) ensures HasKey(e, k) {
        var i :| 0 <= i < |e'| && e'[i].0 == k;
        assert e[i].0 == k;
      }
      assert HasKey(e, x.0) by { assert e[|e'|].0 == x.0; }
      InsertDistinct(SortDesc(e'), x);
    }
  }

  /** `sorted(...)[:5]`: at most five entries from the front of the sort. */
  function Top(e: Counter): Counter {
    var s := SortDesc(e);
    if |s| <= HighlightCount then s else s[..HighlightCount]
  }

  /** What `_preprocess_summarized_data` stores for one category. */
  datatype Insight = Insight(total: nat, highlights: Counter)

  /** `{"total": sum(entries.values()), "highlights": dict(Top(entries))}`. */
  function InsightOf(e: Counter): Insight {
    Insight(Sum(e), Top(e))
  }

  /**
   * The highlights are min(5, n) entries taken from the counter, largest
   * count first; every entry left out counts no more than any highlight;
   * entries with equal counts appear in counting order, so those of each
   * count form a prefix of that count's entries in the counter; and with
   * counts non-negative their sum is at most the total.
   */
  lemma TopSpec(e: Counter)
    ensures var h := Top(e);
      && |h| == (if |e| <= HighlightCount then |e| else HighlightCount)
      && Descending(h)
      && multiset(h) <= multiset(e)
      && (forall x, y :: x in multiset(e) - multiset(h) && y in h ==> x.1 <= y.1)
      && (forall n :: WithCount(h, n) <= WithCount(e, n))
      && Sum(h) <= InsightOf(e).total
  {
    TopParts(e);
    var h, rest := Top(e), SortDesc(e)[|Top(e)|..];
    DescendingSplit(h, rest);
    forall n ensures WithCount(h, n) <= WithCount(e, n) {
      WithCountConcat(h, rest, n);
    }
    SumConcat(h, rest);
  }

  /** The highlights are the front of the sort, and the rest of it holds every entry left out. */
  lemma TopParts(e: Counter)
    ensures var h, rest := Top(e), SortDesc(e)[|Top(e)|..];
      && |h| == (if |e| <= HighlightCount then |e| else HighlightCount)
      && SortDesc(e) == h + rest
      && Descending(h + rest)
      && Descending(h)
      && multiset(h) <= multiset(e)
      && multiset(e) - multiset(h) == multiset(rest)
      && Sum(h + rest) == Sum(e)
      && forall n :: WithCount(h + rest, n) == WithCount(e, n)
  {
    var s := SortDesc(e);
    SortDescSpec(e);
    var h := Top(e);
    var rest := s[|h|..];
    assert s == h + rest;
    assert multiset(s) == multiset(h) + multiset(rest);
  }

  /** Cutting a descending counter in two, nothing behind the cut counts more than anything before it. */
  lemma DescendingSplit(h: Counter, rest: Counter)
    requires Descending(h + rest)
    ensures forall x, y :: x in multiset(rest) && y in h ==> x.1 <= y.1
  {
    forall x, y | x in multiset(rest) && y in h ensures x.1 <= y.1 {
      var j :| 0 <= j < |rest| && rest[j] == x;
      var i :| 0 <= i < |h| && h[i] == y;
      assert (h + rest)[i] == y && (h + rest)[|h| + j] == x;
    }
  }

  /**
   * The highlights of a dictionary have distinct keys, so building a
   * `dict` from them keeps every one in order.
   */
  lemma TopDistinct(e: Counter)
    requires Distinct(e)
    ensures Distinct(Top(e))
  {
    SortDescDistinct(e);
  }

  /** A counter of at most five entries is highlighted whole, only reordered. */
  lemma TopSmall(e: Counter)
    requires |e| <= HighlightCount
    ensures multiset(Top(e)) == multiset(e)
  {
    SortDescSpec(e);
  }
}

/** Top-N selection as a table's `nlargest(n, column)` with `keep='first'` does
    it: the `n` rows with the largest score, in descending order of score, rows
    with equal scores in their order in the table. */
module Ranking {
  import opened FplData

  /** One scored row: `row` is its position in the table it was taken from. */
  datatype Entry = Entry(row: nat, player: Player, difficulty: real, opponent: string, score: real)

  /** `a` is ranked ahead of `b`: a higher score, or the same score and an
      earlier row. */
  predicate Before(a: Entry, b: Entry)
  {
    a.score > b.score || (a.score == b.score && a.row < b.row)
  }

  /** Descending by score, equal scores in row order. */
  predicate Ranked(s: seq<Entry>)
  {
    forall i, j :: 0 <= i < j < |s| ==> Before(s[i], s[j])
  }

  /** No two entries come from the same row. */
  predicate DistinctRows(s: seq<Entry>)
  {
    forall i, j :: 0 <= i < j < |s| ==> s[i].row != s[j].row
  }

  function Min(a: int, b: int): int
  {
    if a <= b then a else b
  }

  /** `x` put into its place in a ranked sequence. */
  function Insert(x: Entry, s: seq<Entry>): (r: seq<Entry>)
    requires Ranked(s)
    requires forall i :: 0 <= i < |s| ==> s[i].row != x.row
    ensures Ranked(r)
    ensures multiset(r) == multiset(s) + multiset{x}
  {
    if s == [] then [x]
    else if Before(x, s[0]) then
      [x] + s
    else
      var rest := Insert(x, s[1..]);
      InsertBehindHead(x, s, rest);
      [s[0]] + rest
  }

  /** The step of `Insert` that keeps the head: the head is ranked ahead of `x`
      and of the rest, so it stays first. */
  lemma InsertBehindHead(x: Entry, s: seq<Entry>, rest: seq<Entry>)
    requires s != [] && Ranked(s) && !Before(x, s[0]) && s[0].row != x.row
    requires Ranked(rest) && multiset(rest) == multiset(s[1..]) + multiset{x}
    ensures Ranked([s[0]] + rest)
    ensures multiset([s[0]] + rest) == multiset(s) + multiset{x}
  {
    forall i | 0 <= i < |rest|
      ensures Before(s[0], rest[i])
    {
      assert rest[i] in multiset(rest);
      if rest[i] != x {
        assert rest[i] in multiset(s[1..]);
        var j :| 0 <= j < |s[1..]| && s[1..][j] == rest[i];
        assert s[j + 1] == rest[i];
      }
    }
    assert s == [s[0]] + s[1..];
  }

  /** The entries in ranked order: a stable descending sort by score. */
  function Sort(s: seq<Entry>): (r: seq<Entry>)
    requires DistinctRows(s)
    ensures Ranked(r)
    ensures multiset(r) == multiset(s)
  {
    if s == [] then []
    else
      var rest := Sort(s[1..]);
      assert forall i :: 0 <= i < |rest| ==> rest[i].row != s[0].row by {
        forall i | 0 <= i < |rest|
          ensures rest[i].row != s[0].row
        {
          assert rest[i] in multiset(s[1..]);
          var j :| 0 <= j < |s[1..]| && s[1..][j] == rest[i];
          assert s[j + 1] == rest[i];
        }
      }
      assert s == [s[0]] + s[1..];
      Insert(s[0], rest)
  }

  /** The first `n` entries in ranked order (all of them when there are fewer):
      a ranked selection from `s` that no entry left out would rank ahead of. */
  function TopN(s: seq<Entry>, n: nat): (r: seq<Entry>)
    requires DistinctRows(s)
    ensures |r| == Min(n, |s|)
    ensures Ranked(r)
    ensures multiset(r) <= multiset(s)
    ensures forall x, y :: x in s && x !in r && y in r ==> Before(y, x)
  {
    var sorted := Sort(s);
    var k := Min(n, |s|);
    assert |sorted| == |s| by { assert |multiset(sorted)| == |multiset(s)|; }
    assert sorted == sorted[..k] + sorted[k..];
    PrefixBeatsRest(s, sorted, k);
    sorted[..k]
  }

  /** In a ranked permutation of `s`, every entry of the first `k` is ranked
      ahead of every entry of `s` that is not among them. */
  lemma PrefixBeatsRest(s: seq<Entry>, sorted: seq<Entry>, k: nat)
    requires Ranked(sorted) && multiset(sorted) == multiset(s) && k <= |sorted|
    ensures forall x, y :: x in s && x !in sorted[..k] && y in sorted[..k] ==> Before(y, x)
  {
    forall x, y | x in s && x !in sorted[..k] && y in sorted[..k]
      ensures Before(y, x)
    {
      assert x in multiset(sorted);
      var i :| 0 <= i < |sorted| && sorted[i] == x;
      var j :| 0 <= j < k && sorted[..k][j] == y;
    }
  }

  /** Two ranked sequences of one length with the same elements are the same
      sequence: the ranking order leaves no freedom. */
  lemma {:induction false} RankedUnique(a: seq<Entry>, b: seq<Entry>)
    requires Ranked(a) && Ranked(b) && |a| == |b|
    requires forall x :: x in a <==> x in b
    ensures a == b
  {
    if a != [] {
      assert a[0] in b;
      assert b != [] && b[0] in a;
      var k :| 0 <= k < |b| && b[k] == a[0];
      var m :| 0 <= m < |a| && a[m] == b[0];
      assert a[0] == b[0];
      forall x
        ensures x in a[1..] <==> x in b[1..]
      {
        if x in a[1..] {
          var i :| 1 <= i < |a| && a[i] == x;
          assert Before(a[0], a[i]);
          assert x in b && x != b[0];
          var i' :| 0 <= i' < |b| && b[i'] == x;
          assert b[1..][i' - 1] == x;
        }
        if x in b[1..] {
          var i :| 1 <= i < |b| && b[i] == x;
          assert Before(b[0], b[i]);
          assert x in a && x != a[0];
          var i' :| 0 <= i' < |a| && a[i'] == x;
          assert a[1..][i' - 1] == x;
        }
      }
      RankedUnique(a[1..], b[1..]);
      assert a == [a[0]] + a[1..] && b == [b[0]] + b[1..];
    }
  }

  /** A ranked sequence has no repeated element. */
  lemma {:induction false} RankedCard(a: seq<Entry>)
    requires Ranked(a)
    ensures |set x | x in a| == |a|
  {
    if a != [] {
      var tail := a[1..];
      RankedCard(tail);
      var rest := set x | x in tail;
      assert (set x | x in a) == rest + {a[0]};
      assert a[0] !in rest by {
        forall k | 0 <= k < |tail| ensures tail[k] != a[0] {
          assert Before(a[0], a[k + 1]);
        }
      }
    }
  }

  /** A subset is no larger than its superset. */
  lemma {:induction false} SubsetCard(small: set<Entry>, big: set<Entry>)
    requires small <= big
    ensures |small| <= |big|
    decreases big
  {
    if small != {} {
      var x :| x in small;
      SubsetCard(small - {x}, big - {x});
    }
  }

  /** Of two selections of the same size from `s`, each ranked and each ranked
      ahead of everything of `s` it leaves out, every element of the second is
      in the first. */
  lemma SelectionIncluded(s: seq<Entry>, r: seq<Entry>, t: seq<Entry>)
    requires Ranked(r) && Ranked(t) && |r| == |t|
    requires forall x :: x in r ==> x in s
    requires forall x :: x in t ==> x in s
    requires forall x, y :: x in s && x !in r && y in r ==> Before(y, x)
    requires forall x, y :: x in s && x !in t && y in t ==> Before(y, x)
    ensures forall x :: x in t ==> x in r
  {
    var A := set x | x in r;
    var B := set x | x in t;
    RankedCard(r);
    RankedCard(t);
    forall x | x in t ensures x in r {
      if x !in r {
        assert x in B && x !in A;
        if A <= B {
          SubsetCard(A, B - {x});
        }
        assert false;
      }
    }
  }

  /** The contract of `TopN` determines its result: any ranked selection of
      min(n, |s|) entries of `s` that no entry left out would rank ahead of is
      exactly `TopN(s, n)`. */
  lemma TopNUnique(s: seq<Entry>, n: nat, r: seq<Entry>)
    requires DistinctRows(s)
    requires |r| == Min(n, |s|) && Ranked(r)
    requires forall x :: x in r ==> x in s
    requires forall x, y :: x in s && x !in r && y in r ==> Before(y, x)
    ensures r == TopN(s, n)
  {
    var t := TopN(s, n);
    forall x | x in t ensures x in s {
      assert x in multiset(t);
    }
    SelectionIncluded(s, r, t);
    SelectionIncluded(s, t, r);
    RankedUnique(r, t);
  }
}

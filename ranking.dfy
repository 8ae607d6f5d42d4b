/** Post-processing shared by every category: a stable sort by score, highest
    first, followed by dense 1-based ranks in list order.

    The source sorts with `list.sort(key=..., reverse=True)`, a library call
    whose result is fixed by three facts: the order is non-increasing in the
    key, the list is a permutation of the input, and records with equal keys
    keep their relative order. SortDesc is a stable insertion sort; the lemma
    StableSortIsUnique shows that any arrangement with those properties is
    SortDesc's, so SortDesc is exactly what `list.sort` produces. */
module Ranking {

  import opened Records

  /** The sort key `x.get('score', 0)`: a missing score counts as 0. */
  function Key(e: Entry): int {
    match e.score
    case Some(v) => v
    case None => 0
  }

  predicate SortedDesc(s: seq<Entry>) {
    forall i, j :: 0 <= i < j < |s| ==> Key(s[i]) >= Key(s[j])
  }

  /** The subsequence of the records whose key is k, in list order. */
  function WithKey(s: seq<Entry>, k: int): seq<Entry> {
    if s == [] then [] else (if Key(s[0]) == k then [s[0]] else []) + WithKey(s[1..], k)
  }

  /** `out` keeps the relative order of every group of equal-key records of `orig`. */
  ghost predicate Stable(out: seq<Entry>, orig: seq<Entry>) {
    forall k :: WithKey(out, k) == WithKey(orig, k)
  }

  /** Puts x in front of the first record of t whose key is not greater. */
  function Insert(x: Entry, t: seq<Entry>): seq<Entry> {
    if t == [] || Key(t[0]) <= Key(x) then [x] + t else [t[0]] + Insert(x, t[1..])
  }

  /** Inserting a record adds exactly that record. */
  lemma {:induction false} InsertPermutation(x: Entry, t: seq<Entry>)
    ensures multiset(Insert(x, t)) == multiset(t) + multiset{x}
  {
    if t != [] && Key(t[0]) > Key(x) {
      InsertPermutation(x, t[1..]);
      assert t == [t[0]] + t[1..];
    }
  }

  /** The head of an insertion is the inserted record or the old head. */
  lemma InsertHead(x: Entry, t: seq<Entry>)
    ensures Insert(x, t) != []
    ensures Insert(x, t)[0] == x || (t != [] && Insert(x, t)[0] == t[0])
  {
  }

  /** Inserting keeps a descending list descending. */
  lemma {:induction false} InsertSorted(x: Entry, t: seq<Entry>)
    requires SortedDesc(t)
    ensures SortedDesc(Insert(x, t))
  {
    if t != [] && Key(t[0]) > Key(x) {
      var rest := Insert(x, t[1..]);
      assert SortedDesc(t[1..]);
      InsertSorted(x, t[1..]);
      InsertHead(x, t[1..]);
      assert Key(t[0]) >= Key(rest[0]);
      var r := [t[0]] + rest;
      forall i, j | 0 <= i < j < |r| ensures Key(r[i]) >= Key(r[j]) {
        if i == 0 {
          assert Key(rest[0]) >= Key(rest[j - 1]);
        }
      }
    }
  }

  /** The stable descending sort of `list.sort(key=Key, reverse=True)`. */
  function SortDesc(s: seq<Entry>): seq<Entry> {
    if s == [] then [] else Insert(s[0], SortDesc(s[1..]))
  }

  /** The sorted list is a permutation of the input, non-increasing in the key. */
  lemma {:induction false} SortDescSortedPermutation(s: seq<Entry>)
    ensures multiset(SortDesc(s)) == multiset(s)
    ensures SortedDesc(SortDesc(s))
  {
    if s != [] {
      SortDescSortedPermutation(s[1..]);
      InsertPermutation(s[0], SortDesc(s[1..]));
      InsertSorted(s[0], SortDesc(s[1..]));
      assert s == [s[0]] + s[1..];
    }
  }

  lemma WithKeyCons(y: Entry, u: seq<Entry>, k: int)
    ensures WithKey([y] + u, k) == (if Key(y) == k then [y] else []) + WithKey(u, k)
  {
    assert ([y] + u)[0] == y && ([y] + u)[1..] == u;
  }

  lemma {:induction false} WithKeyMembers(s: seq<Entry>, k: int)
    ensures forall y :: y in WithKey(s, k) ==> y in s && Key(y) == k
  {
    if s != [] {
      WithKeyMembers(s[1..], k);
    }
  }

  lemma WithKeyHead(s: seq<Entry>)
    requires s != []
    ensures WithKey(s, Key(s[0])) != []
  {
  }

  /** Inserting x adds x to its own key group, in front, and leaves every other
      group as it was. */
  lemma {:induction false} InsertWithKey(x: Entry, t: seq<Entry>, k: int)
    ensures WithKey(Insert(x, t), k) == (if Key(x) == k then [x] else []) + WithKey(t, k)
  {
    if t == [] || Key(t[0]) <= Key(x) {
      WithKeyCons(x, t, k);
    } else {
      InsertWithKey(x, t[1..], k);
      WithKeyCons(t[0], Insert(x, t[1..]), k);
      WithKeyCons(t[0], t[1..], k);
      assert t == [t[0]] + t[1..];
    }
  }

  /** SortDesc is stable: equal-score records keep their input order. */
  lemma {:induction false} SortDescStable(s: seq<Entry>)
    ensures Stable(SortDesc(s), s)
  {
    if s != [] {
      SortDescStable(s[1..]);
      forall k ensures WithKey(SortDesc(s), k) == WithKey(s, k) {
        InsertWithKey(s[0], SortDesc(s[1..]), k);
      }
    }
  }

  /** The head of a descending list has the largest key in it. */
  lemma SortedHeadMax(a: seq<Entry>, y: Entry)
    requires SortedDesc(a) && y in a
    ensures Key(a[0]) >= Key(y)
  {
    var i :| 0 <= i < |a| && a[i] == y;
    assert i == 0 || Key(a[0]) >= Key(a[i]);
  }

  /** Sorted, stable arrangements of the same records start with the same record. */
  lemma SameHead(a: seq<Entry>, b: seq<Entry>)
    requires a != [] && b != []
    requires SortedDesc(a) && SortedDesc(b) && Stable(a, b)
    ensures a[0] == b[0]
  {
    var ka, kb := Key(a[0]), Key(b[0]);
    WithKeyCons(a[0], a[1..], ka);
    WithKeyCons(b[0], b[1..], kb);
    assert a == [a[0]] + a[1..] && b == [b[0]] + b[1..];
    WithKeyMembers(a, kb);
    WithKeyMembers(b, ka);
    var ya := WithKey(b, kb)[0];
    var yb := WithKey(a, ka)[0];
    assert ya in WithKey(a, kb) && yb in WithKey(b, ka);
    SortedHeadMax(a, ya);
    SortedHeadMax(b, yb);
    assert ka == kb;
    WithKeyCons(b[0], b[1..], ka);
  }

  /** Removing a common head keeps two arrangements stable with respect to
      each other. */
  lemma TailsStable(a: seq<Entry>, b: seq<Entry>)
    requires a != [] && b != [] && a[0] == b[0] && Stable(a, b)
    ensures Stable(a[1..], b[1..])
  {
    assert a == [a[0]] + a[1..] && b == [b[0]] + b[1..];
    forall k ensures WithKey(a[1..], k) == WithKey(b[1..], k) {
      WithKeyCons(a[0], a[1..], k);
      WithKeyCons(b[0], b[1..], k);
      var h := if Key(a[0]) == k then [a[0]] else [];
      assert WithKey(a[1..], k) == (h + WithKey(a[1..], k))[|h|..];
      assert WithKey(b[1..], k) == (h + WithKey(b[1..], k))[|h|..];
    }
  }

  /** Sorted, stable arrangements of the same records coincide: the three
      properties Python guarantees for `list.sort` leave no freedom. */
  lemma {:induction false} StableSortIsUnique(a: seq<Entry>, b: seq<Entry>)
    requires SortedDesc(a) && SortedDesc(b)
    requires Stable(a, b)
    ensures a == b
  {
    if a == [] || b == [] {
      if a != [] {
        WithKeyHead(a);
        assert false;
      } else if b != [] {
        WithKeyHead(b);
        assert false;
      }
    } else {
      SameHead(a, b);
      TailsStable(a, b);
      assert SortedDesc(a[1..]) && SortedDesc(b[1..]);
      StableSortIsUnique(a[1..], b[1..]);
      assert a == [a[0]] + a[1..] && b == [b[0]] + b[1..];
    }
  }

  /** Any stable descending arrangement of s is SortDesc(s). */
  lemma SortDescCharacterized(s: seq<Entry>, out: seq<Entry>)
    requires SortedDesc(out) && Stable(out, s)
    ensures out == SortDesc(s)
  {
    SortDescStable(s);
    SortDescSortedPermutation(s);
    StableSortIsUnique(out, SortDesc(s));
  }

  /** Sorting a list that is already in descending order changes nothing. */
  lemma SortDescOfSorted(s: seq<Entry>)
    requires SortedDesc(s)
    ensures SortDesc(s) == s
  {
    SortDescCharacterized(s, s);
  }

  /** A record with its rank cleared: what a record is apart from its rank. */
  function Unrank(e: Entry): Entry {
    e.(rank := 0)
  }

  function Unranked(s: seq<Entry>): (r: seq<Entry>)
    ensures |r| == |s|
  {
    seq(|s|, i requires 0 <= i < |s| => Unrank(s[i]))
  }

  /** Ranks are exactly 1..N in list order. */
  predicate DenselyRanked(s: seq<Entry>) {
    forall i :: 0 <= i < |s| ==> s[i].rank == i + 1
  }

  lemma UnrankedCons(x: Entry, t: seq<Entry>)
    ensures Unranked([x] + t) == [Unrank(x)] + Unranked(t)
  {
  }

  lemma UnrankedTail(s: seq<Entry>)
    requires s != []
    ensures Unranked(s) == [Unrank(s[0])] + Unranked(s[1..])
  {
    assert s == [s[0]] + s[1..];
    UnrankedCons(s[0], s[1..]);
  }

  lemma {:induction false} UnrankedInsert(x: Entry, t: seq<Entry>)
    ensures Unranked(Insert(x, t)) == Insert(Unrank(x), Unranked(t))
  {
    if t == [] || Key(t[0]) <= Key(x) {
      UnrankedCons(x, t);
      if t != [] {
        UnrankedTail(t);
      }
    } else {
      UnrankedInsert(x, t[1..]);
      UnrankedTail(t);
      var u := Unranked(t);
      assert u[0] == Unrank(t[0]) && u[1..] == Unranked(t[1..]);
      calc {
        Unranked(Insert(x, t));
        Unranked([t[0]] + Insert(x, t[1..]));
        { UnrankedCons(t[0], Insert(x, t[1..])); }
        [Unrank(t[0])] + Unranked(Insert(x, t[1..]));
        [u[0]] + Insert(Unrank(x), u[1..]);
        Insert(Unrank(x), u);
      }
    }
  }

  /** The order the sort produces does not depend on the ranks records carry. */
  lemma {:induction false} UnrankedSortDesc(s: seq<Entry>)
    ensures Unranked(SortDesc(s)) == SortDesc(Unranked(s))
  {
    if s != [] {
      UnrankedSortDesc(s[1..]);
      UnrankedInsert(s[0], SortDesc(s[1..]));
      UnrankedTail(s);
      var u := Unranked(s);
      assert u[0] == Unrank(s[0]) && u[1..] == Unranked(s[1..]);
      calc {
        Unranked(SortDesc(s));
        Unranked(Insert(s[0], SortDesc(s[1..])));
        Insert(Unrank(s[0]), Unranked(SortDesc(s[1..])));
        Insert(u[0], SortDesc(u[1..]));
        SortDesc(u);
      }
    }
  }

  /** `for i, entry in enumerate(xs): entry['rank'] = i + 1`. */
  method AssignRanks(s: seq<Entry>) returns (r: seq<Entry>)
    ensures DenselyRanked(r)
    ensures Unranked(r) == Unranked(s)
  {
    r := s;
    for i := 0 to |r|
      invariant |r| == |s|
      invariant forall j :: 0 <= j < i ==> r[j] == s[j].(rank := j + 1)
      invariant forall j :: i <= j < |r| ==> r[j] == s[j]
    {
      r := r[i := r[i].(rank := i + 1)];
    }
  }

  /** Sort by score, highest first, then rank: the post-processing applied to
      every category before the document is written. */
  method SortAndRank(s: seq<Entry>) returns (r: seq<Entry>)
    ensures DenselyRanked(r)
    ensures SortedDesc(r)
    ensures multiset(Unranked(r)) == multiset(Unranked(s))
    ensures Stable(Unranked(r), Unranked(s))
    ensures Unranked(r) == SortDesc(Unranked(s))
  {
    var sorted := SortDesc(s);
    r := AssignRanks(sorted);
    UnrankedSortDesc(s);
    SortDescSortedPermutation(Unranked(s));
    SortDescStable(Unranked(s));
    SortedDescUnranked(r);
  }

  /** Clearing ranks does not change the order of the scores. */
  lemma SortedDescUnranked(s: seq<Entry>)
    ensures SortedDesc(Unranked(s)) <==> SortedDesc(s)
  {
    assert forall i :: 0 <= i < |s| ==> Key(Unranked(s)[i]) == Key(s[i]);
  }

  /** A list that is already sorted and densely ranked is left exactly as it
      is by a second sort-and-rank pass. */
  lemma RerankIsIdentity(s: seq<Entry>, r: seq<Entry>)
    requires SortedDesc(s) && DenselyRanked(s)
    requires DenselyRanked(r) && Unranked(r) == SortDesc(Unranked(s))
    ensures r == s
  {
    SortedDescUnranked(s);
    SortDescOfSorted(Unranked(s));
    assert |r| == |s|;
    forall i | 0 <= i < |s| ensures r[i] == s[i] {
      assert Unrank(r[i]) == Unranked(r)[i] == Unranked(s)[i] == Unrank(s[i]);
      assert r[i].rank == s[i].rank;
    }
  }
}

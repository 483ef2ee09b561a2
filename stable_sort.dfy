/** `[...s].sort((a, b) => key(b) - key(a))`: a descending sort by a numeric
    key on a copy of the array. ECMAScript (since the 2019 edition) requires
    `Array.prototype.sort` to be stable, so elements with equal keys keep the
    order they had. The sort is modelled as a stable insertion sort. */
module StableSort {
  import opened Seqs

  /** Non-increasing by `key`. */
  ghost predicate SortedDesc<T>(s: seq<T>, key: T -> real)
  {
    forall i, j :: 0 <= i < j < |s| ==> key(s[i]) >= key(s[j])
  }

  /** The elements of `s` whose key is `k`, in their order in `s`. */
  function WithKey<T>(s: seq<T>, key: T -> real, k: real): seq<T>
  {
    if s == [] then []
    else (if key(s[0]) == k then [s[0]] else []) + WithKey(s[1..], key, k)
  }

  /** Places `x` in front of the first element whose key is not above its own. */
  function Insert<T>(x: T, s: seq<T>, key: T -> real): seq<T>
  {
    if s == [] || key(x) >= key(s[0]) then [x] + s
    else [s[0]] + Insert(x, s[1..], key)
  }

  function SortDesc<T>(s: seq<T>, key: T -> real): seq<T>
  {
    if s == [] then [] else Insert(s[0], SortDesc(s[1..], key), key)
  }

  /** `s.map(f)`. */
  function MapSeq<A, B>(f: A -> B, s: seq<A>): (r: seq<B>)
    ensures |r| == |s|
    ensures forall i :: 0 <= i < |s| ==> r[i] == f(s[i])
  {
    if s == [] then [] else [f(s[0])] + MapSeq(f, s[1..])
  }

  lemma {:induction false} InsertPermutes<T>(x: T, s: seq<T>, key: T -> real)
    ensures multiset(Insert(x, s, key)) == multiset(s) + multiset{x}
    ensures |Insert(x, s, key)| == |s| + 1
  {
    if s != [] && key(x) < key(s[0]) {
      InsertPermutes(x, s[1..], key);
      assert s == [s[0]] + s[1..];
    }
  }

  lemma {:induction false} InsertSorted<T>(x: T, s: seq<T>, key: T -> real)
    requires SortedDesc(s, key)
    ensures SortedDesc(Insert(x, s, key), key)
  {
    if s != [] && key(x) < key(s[0]) {
      InsertSorted(x, s[1..], key);
      InsertPermutes(x, s[1..], key);
      var t := Insert(x, s[1..], key);
      forall i | 0 <= i < |t| ensures key(s[0]) >= key(t[i]) {
        assert t[i] in multiset(t);
        assert t[i] in multiset(s[1..]) + multiset{x};
        if t[i] != x {
          var j :| 0 <= j < |s[1..]| && s[1..][j] == t[i];
          assert s[j + 1] == t[i];
        }
      }
    }
  }

  /** Inserting keeps, for every key, the subsequence of elements with that
      key, with `x` in front of the elements equal to it. */
  lemma {:induction false} InsertStable<T>(x: T, s: seq<T>, key: T -> real, k: real)
    ensures WithKey(Insert(x, s, key), key, k) == WithKey([x] + s, key, k)
  {
    if s == [] || key(x) >= key(s[0]) {
    } else {
      InsertStable(x, s[1..], key, k);
      var t := Insert(x, s[1..], key);
      assert ([s[0]] + t)[1..] == t;
      assert ([x] + s)[1..] == s;
      assert ([x] + s[1..])[1..] == s[1..];
      // s[0] has a key above x's, so at most one of the two is kept
      if key(s[0]) == k {
        assert key(x) != k;
      }
    }
  }

  lemma {:induction false} InsertSum<T>(x: T, s: seq<T>, key: T -> real, w: T -> real)
    ensures Sum(Insert(x, s, key), w) == w(x) + Sum(s, w)
  {
    if s == [] || key(x) >= key(s[0]) {
      SumCons(x, s, w);
    } else {
      InsertSum(x, s[1..], key, w);
      SumCons(s[0], Insert(x, s[1..], key), w);
      SumCons(s[0], s[1..], w);
      assert [s[0]] + s[1..] == s;
    }
  }

  /** The sorted copy holds the same elements... */
  lemma {:induction false} SortDescIsPermutation<T>(s: seq<T>, key: T -> real)
    ensures multiset(SortDesc(s, key)) == multiset(s)
    ensures |SortDesc(s, key)| == |s|
  {
    if s != [] {
      SortDescIsPermutation(s[1..], key);
      InsertPermutes(s[0], SortDesc(s[1..], key), key);
      assert s == [s[0]] + s[1..];
    }
  }

  /** ...non-increasing by key. */
  lemma {:induction false} SortDescIsSorted<T>(s: seq<T>, key: T -> real)
    ensures SortedDesc(SortDesc(s, key), key)
  {
    if s != [] {
      SortDescIsSorted(s[1..], key);
      InsertSorted(s[0], SortDesc(s[1..], key), key);
    }
  }

  /** Stability: for every key value, the elements with that key appear in
      the sorted copy in exactly their original order. */
  lemma {:induction false} SortDescIsStable<T>(s: seq<T>, key: T -> real, k: real)
    ensures WithKey(SortDesc(s, key), key, k) == WithKey(s, key, k)
  {
    if s != [] {
      SortDescIsStable(s[1..], key, k);
      InsertStable(s[0], SortDesc(s[1..], key), key, k);
      var t := SortDesc(s[1..], key);
      assert ([s[0]] + t)[1..] == t;
    }
  }

  /** A sum over the sorted copy equals the sum over the original. */
  lemma {:induction false} SortDescSum<T>(s: seq<T>, key: T -> real, w: T -> real)
    ensures Sum(SortDesc(s, key), w) == Sum(s, w)
  {
    if s != [] {
      SortDescSum(s[1..], key, w);
      InsertSum(s[0], SortDesc(s[1..], key), key, w);
      SumCons(s[0], s[1..], w);
      assert [s[0]] + s[1..] == s;
    }
  }

  /** Sorting commutes with a projection that keeps the key. */
  lemma {:induction false} SortDescMap<A, B>(s: seq<A>, f: A -> B, keyA: A -> real, keyB: B -> real)
    requires forall a :: keyA(a) == keyB(f(a))
    ensures MapSeq(f, SortDesc(s, keyA)) == SortDesc(MapSeq(f, s), keyB)
  {
    if s != [] {
      SortDescMap(s[1..], f, keyA, keyB);
      InsertMap(s[0], SortDesc(s[1..], keyA), f, keyA, keyB);
      assert MapSeq(f, s)[1..] == MapSeq(f, s[1..]);
    }
  }

  lemma {:induction false} InsertMap<A, B>(x: A, s: seq<A>, f: A -> B, keyA: A -> real, keyB: B -> real)
    requires forall a :: keyA(a) == keyB(f(a))
    ensures MapSeq(f, Insert(x, s, keyA)) == Insert(f(x), MapSeq(f, s), keyB)
  {
    if s != [] && keyA(x) < keyA(s[0]) {
      InsertMap(x, s[1..], f, keyA, keyB);
      assert MapSeq(f, s)[1..] == MapSeq(f, s[1..]);
    } else if s != [] {
      assert MapSeq(f, [x] + s) == [f(x)] + MapSeq(f, s);
    }
  }
}

/**
 * Python's `list.sort(key=key, reverse=True)`: a stable sort that orders a
 * list by a key, largest key first, and keeps elements with equal keys in
 * their original relative order. The built-in's algorithm (Timsort) is not
 * part of the repository; it is modelled here by a stable insertion sort,
 * and `StableSortUnique` shows that every stable descending sort produces
 * the same list, so the choice of algorithm does not matter.
 */
module StableSort {

  /** `s` is ordered by `key`, largest first. */
  ghost predicate SortedDesc<T>(s: seq<T>, key: T -> real) {
    forall i, j :: 0 <= i < j < |s| ==> key(s[i]) >= key(s[j])
  }

  /** The elements of `s` whose key is `v`, in the order they have in `s`. */
  ghost function Ties<T>(s: seq<T>, key: T -> real, v: real): seq<T> {
    if s == [] then [] else (if key(s[0]) == v then [s[0]] else []) + Ties(s[1..], key, v)
  }

  /** `x` placed in front of the first element of `s` whose key is not larger than its own. */
  function Insert<T>(x: T, s: seq<T>, key: T -> real): seq<T> {
    if s == [] || key(s[0]) <= key(x) then [x] + s
    else [s[0]] + Insert(x, s[1..], key)
  }

  /** `s` sorted by `key`, largest first, equal keys in input order. */
  function SortByKeyDesc<T>(s: seq<T>, key: T -> real): seq<T> {
    if s == [] then [] else Insert(s[0], SortByKeyDesc(s[1..], key), key)
  }

  /** Slicing off the first element keeps a list ordered by key. */
  lemma SortedDescTail<T>(s: seq<T>, key: T -> real)
    requires s != [] && SortedDesc(s, key)
    ensures SortedDesc(s[1..], key)
  {
    forall i, j | 0 <= i < j < |s[1..]| ensures key(s[1..][i]) >= key(s[1..][j]) {
      assert s[1..][i] == s[i + 1] && s[1..][j] == s[j + 1];
    }
  }

  lemma {:induction false} InsertPermutation<T>(x: T, s: seq<T>, key: T -> real)
    ensures |Insert(x, s, key)| == |s| + 1
    ensures multiset(Insert(x, s, key)) == multiset{x} + multiset(s)
  {
    if !(s == [] || key(s[0]) <= key(x)) {
      InsertPermutation(x, s[1..], key);
      assert s == [s[0]] + s[1..];
    }
  }

  lemma {:induction false} InsertSorted<T>(x: T, s: seq<T>, key: T -> real)
    requires SortedDesc(s, key)
    ensures SortedDesc(Insert(x, s, key), key)
  {
    var r := Insert(x, s, key);
    if s == [] || key(s[0]) <= key(x) {
      forall i, j | 0 <= i < j < |r| ensures key(r[i]) >= key(r[j]) {
        if i > 0 { assert r[i] == s[i - 1] && r[j] == s[j - 1]; }
        else { assert r[j] == s[j - 1]; }
      }
    } else {
      var t := Insert(x, s[1..], key);
      SortedDescTail(s, key);
      InsertSorted(x, s[1..], key);
      InsertPermutation(x, s[1..], key);
      assert r == [s[0]] + t;
      forall i, j | 0 <= i < j < |r| ensures key(r[i]) >= key(r[j]) {
        if i > 0 {
          assert r[i] == t[i - 1] && r[j] == t[j - 1];
        } else {
          assert r[j] == t[j - 1];
          assert t[j - 1] in multiset(t);
          if t[j - 1] != x {
            assert t[j - 1] in multiset(s[1..]);
            var m :| 0 <= m < |s[1..]| && s[1..][m] == t[j - 1];
            assert s[m + 1] == t[j - 1];
          }
        }
      }
    }
  }

  lemma {:induction false} InsertTies<T>(x: T, s: seq<T>, key: T -> real, v: real)
    ensures Ties(Insert(x, s, key), key, v) == (if key(x) == v then [x] else []) + Ties(s, key, v)
  {
    var r := Insert(x, s, key);
    if s == [] || key(s[0]) <= key(x) {
      assert r[1..] == s;
    } else {
      InsertTies(x, s[1..], key, v);
      assert r[1..] == Insert(x, s[1..], key);
    }
  }

  /** The sort returns a list ordered by key that is a permutation of its input. */
  lemma {:induction false} SortByKeyDescSortedPermutation<T>(s: seq<T>, key: T -> real)
    ensures |SortByKeyDesc(s, key)| == |s|
    ensures multiset(SortByKeyDesc(s, key)) == multiset(s)
    ensures SortedDesc(SortByKeyDesc(s, key), key)
  {
    if s != [] {
      SortByKeyDescSortedPermutation(s[1..], key);
      InsertPermutation(s[0], SortByKeyDesc(s[1..], key), key);
      InsertSorted(s[0], SortByKeyDesc(s[1..], key), key);
      assert s == [s[0]] + s[1..];
    }
  }

  /** Stability: for every key value, the elements with that key keep their input order. */
  lemma {:induction false} SortByKeyDescStable<T>(s: seq<T>, key: T -> real)
    ensures forall v :: Ties(SortByKeyDesc(s, key), key, v) == Ties(s, key, v)
  {
    if s != [] {
      SortByKeyDescStable(s[1..], key);
      forall v ensures Ties(SortByKeyDesc(s, key), key, v) == Ties(s, key, v) {
        InsertTies(s[0], SortByKeyDesc(s[1..], key), key, v);
      }
    }
  }

  /** An element whose key is `v` puts something into `Ties(s, key, v)`. */
  lemma {:induction false} TiesNonEmpty<T>(s: seq<T>, key: T -> real, i: int)
    requires 0 <= i < |s|
    ensures Ties(s, key, key(s[i])) != []
  {
    if i > 0 {
      TiesNonEmpty(s[1..], key, i - 1);
      assert s[1..][i - 1] == s[i];
    }
  }

  /** Lists with the same elements at every key value are both empty or both non-empty. */
  lemma SameTiesSameEmptiness<T>(r1: seq<T>, r2: seq<T>, key: T -> real)
    requires forall v :: Ties(r1, key, v) == Ties(r2, key, v)
    ensures r1 == [] <==> r2 == []
  {
    if r1 != [] {
      TiesNonEmpty(r1, key, 0);
      assert Ties(r2, key, key(r1[0])) != [];
    }
    if r2 != [] {
      TiesNonEmpty(r2, key, 0);
      assert Ties(r1, key, key(r2[0])) != [];
    }
  }

  /** Dropping the head of `s` drops the head of its ties at the head's key and no others. */
  lemma TiesTail<T>(s: seq<T>, key: T -> real, w: real)
    requires s != []
    ensures Ties(s[1..], key, w) == if key(s[0]) == w then Ties(s, key, w)[1..] else Ties(s, key, w)
  {
  }

  /**
   * Two non-empty lists ordered by key with the same elements at every key
   * value start with the same element, and their tails again agree at every
   * key value.
   */
  lemma SameTiesSameHead<T>(r1: seq<T>, r2: seq<T>, key: T -> real)
    requires r1 != [] && r2 != []
    requires SortedDesc(r1, key) && SortedDesc(r2, key)
    requires forall v :: Ties(r1, key, v) == Ties(r2, key, v)
    ensures r1[0] == r2[0]
    ensures forall w :: Ties(r1[1..], key, w) == Ties(r2[1..], key, w)
  {
    var v1, v2 := key(r1[0]), key(r2[0]);
    TiesNonEmpty(r1, key, 0);
    TiesNonEmpty(r2, key, 0);
    var j2 := TiesWitness(r2, key, v1);
    var j1 := TiesWitness(r1, key, v2);
    assert v1 == v2;
    assert Ties(r1, key, v1)[0] == r1[0];
    assert Ties(r2, key, v1)[0] == r2[0];
    forall w ensures Ties(r1[1..], key, w) == Ties(r2[1..], key, w) {
      TiesTail(r1, key, w);
      TiesTail(r2, key, w);
    }
  }

  /**
   * Two lists ordered by key, largest first, with the same elements in the
   * same order at every key value, are equal: a stable descending sort has
   * exactly one possible result.
   */
  lemma {:induction false} StableSortUnique<T>(r1: seq<T>, r2: seq<T>, key: T -> real)
    requires SortedDesc(r1, key) && SortedDesc(r2, key)
    requires forall v :: Ties(r1, key, v) == Ties(r2, key, v)
    ensures r1 == r2
    decreases |r1|
  {
    SameTiesSameEmptiness(r1, r2, key);
    if r1 != [] {
      SameTiesSameHead(r1, r2, key);
      SortedDescTail(r1, key);
      SortedDescTail(r2, key);
      StableSortUnique(r1[1..], r2[1..], key);
      assert r1 == [r1[0]] + r1[1..] && r2 == [r2[0]] + r2[1..];
    }
  }

  /** A non-empty `Ties(s, key, v)` comes from some position of `s` whose key is `v`. */
  lemma {:induction false} TiesWitness<T>(s: seq<T>, key: T -> real, v: real) returns (j: int)
    requires Ties(s, key, v) != []
    ensures 0 <= j < |s| && key(s[j]) == v
  {
    if key(s[0]) == v {
      j := 0;
    } else {
      j := TiesWitness(s[1..], key, v);
      assert s[1..][j] == s[j + 1];
      j := j + 1;
    }
  }

  /** Any stable descending sort of `s` is `SortByKeyDesc(s, key)`. */
  lemma StableSortIsSortByKeyDesc<T>(s: seq<T>, r: seq<T>, key: T -> real)
    requires SortedDesc(r, key)
    requires forall v :: Ties(r, key, v) == Ties(s, key, v)
    ensures r == SortByKeyDesc(s, key)
  {
    SortByKeyDescSortedPermutation(s, key);
    SortByKeyDescStable(s, key);
    StableSortUnique(r, SortByKeyDesc(s, key), key);
  }

  /** A list without repeated elements has none after any permutation. */
  lemma PermutationKeepsDistinct<T>(s: seq<T>, r: seq<T>)
    requires multiset(r) == multiset(s)
    requires forall a, b :: 0 <= a < b < |s| ==> s[a] != s[b]
    ensures forall a, b :: 0 <= a < b < |r| ==> r[a] != r[b]
  {
    forall a, b | 0 <= a < b < |r| ensures r[a] != r[b] {
      assert r[a] in multiset(s);
      var k :| 0 <= k < |s| && s[k] == r[a];
      CountOne(s, k);
      OnceAtOnePosition(r, a, b);
    }
  }

  /** An element that occurs at most once in `multiset(s)` is at no second position of `s`. */
  lemma OnceAtOnePosition<T>(s: seq<T>, a: int, b: int)
    requires 0 <= a < b < |s| && multiset(s)[s[a]] <= 1
    ensures s[a] != s[b]
  {
    assert s == s[..b] + s[b..];
    assert s[..b][a] == s[a];
    assert s[b..][0] == s[b];
  }

  /** In a list without repeated elements, each element occurs once in its multiset. */
  lemma CountOne<T>(s: seq<T>, k: int)
    requires 0 <= k < |s|
    requires forall a, b :: 0 <= a < b < |s| ==> s[a] != s[b]
    ensures multiset(s)[s[k]] == 1
  {
    assert s == s[..k] + [s[k]] + s[k + 1..];
    forall m | 0 <= m < k ensures s[..k][m] != s[k] {
      assert s[..k][m] == s[m];
    }
    var rest := s[k + 1..];
    forall m | 0 <= m < |rest| ensures rest[m] != s[k] {
      assert rest[m] == s[k + 1 + m];
    }
    assert s[k] !in s[..k] && s[k] !in rest;
  }
}

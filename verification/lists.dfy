/** Kotlin's list operations used by the core: `filter`, `partition`,
    `reversed` and the stable `sortedBy`, over sort keys that are either
    integers or strings. */
module Lists {

  /** A `sortedBy` selector's value: an `Int` or a `String`. */
  datatype Key = IntKey(n: int) | TextKey(s: string)

  /** Kotlin's `String.compareTo(...) <= 0`: character by character, a proper
      prefix first. */
  predicate LexLe(a: string, b: string)
    decreases |a|
  {
    a == [] || (b != [] && (a[0] < b[0] || (a[0] == b[0] && LexLe(a[1..], b[1..]))))
  }

  /** `compareValues(a, b) <= 0` on keys of one kind; integers before strings
      only to make the order total (one sort never mixes them). */
  predicate KeyLe(a: Key, b: Key) {
    match (a, b)
    case (IntKey(x), IntKey(y)) => x <= y
    case (TextKey(x), TextKey(y)) => LexLe(x, y)
    case (IntKey(_), TextKey(_)) => true
    case (TextKey(_), IntKey(_)) => false
  }

  lemma {:induction false} LexLeReflexive(a: string)
    ensures LexLe(a, a)
    decreases |a|
  {
    if a != [] { LexLeReflexive(a[1..]); }
  }

  lemma {:induction false} LexLeTotal(a: string, b: string)
    ensures LexLe(a, b) || LexLe(b, a)
    decreases |a|
  {
    if a != [] && b != [] && a[0] == b[0] { LexLeTotal(a[1..], b[1..]); }
  }

  lemma {:induction false} LexLeAntisymmetric(a: string, b: string)
    requires LexLe(a, b) && LexLe(b, a)
    ensures a == b
    decreases |a|
  {
    if a != [] {
      LexLeAntisymmetric(a[1..], b[1..]);
      assert a == [a[0]] + a[1..] && b == [b[0]] + b[1..];
    }
  }

  lemma {:induction false} LexLeTransitive(a: string, b: string, c: string)
    requires LexLe(a, b) && LexLe(b, c)
    ensures LexLe(a, c)
    decreases |a|
  {
    if a != [] && a[0] == b[0] && b[0] == c[0] { LexLeTransitive(a[1..], b[1..], c[1..]); }
  }

  lemma KeyLeReflexive(a: Key)
    ensures KeyLe(a, a)
  {
    if a.TextKey? { LexLeReflexive(a.s); }
  }

  lemma KeyLeTotal(a: Key, b: Key)
    ensures KeyLe(a, b) || KeyLe(b, a)
  {
    if a.TextKey? && b.TextKey? { LexLeTotal(a.s, b.s); }
  }

  lemma KeyLeAntisymmetric(a: Key, b: Key)
    requires KeyLe(a, b) && KeyLe(b, a)
    ensures a == b
  {
    if a.TextKey? && b.TextKey? { LexLeAntisymmetric(a.s, b.s); }
  }

  lemma KeyLeTransitive(a: Key, b: Key, c: Key)
    requires KeyLe(a, b) && KeyLe(b, c)
    ensures KeyLe(a, c)
  {
    if a.TextKey? && b.TextKey? && c.TextKey? { LexLeTransitive(a.s, b.s, c.s); }
  }

  /** Neighbours are in ascending key order. */
  ghost predicate SortedBy<T>(s: seq<T>, key: T -> Key) {
    forall i :: 0 <= i < |s| - 1 ==> KeyLe(key(s[i]), key(s[i + 1]))
  }

  /** Neighbours are in descending key order. */
  ghost predicate SortedDescendingBy<T>(s: seq<T>, key: T -> Key) {
    forall i :: 0 <= i < |s| - 1 ==> KeyLe(key(s[i + 1]), key(s[i]))
  }

  /** Reversing an ascending list gives a descending one. */
  lemma ReversedSortedDescending<T>(s: seq<T>, key: T -> Key)
    requires SortedBy(s, key)
    ensures SortedDescendingBy(Reversed(s), key)
  {
    var r := Reversed(s);
    forall i | 0 <= i < |r| - 1
      ensures KeyLe(key(r[i + 1]), key(r[i]))
    {
      assert r[i] == s[|s| - 1 - i] && r[i + 1] == s[|s| - 2 - i];
    }
  }

  /** Ascending neighbours give ascending order between any two positions. */
  lemma {:induction false} SortedByPairwise<T>(s: seq<T>, key: T -> Key, i: int, j: int)
    requires SortedBy(s, key)
    requires 0 <= i <= j < |s|
    ensures KeyLe(key(s[i]), key(s[j]))
    decreases j - i
  {
    if i == j {
      KeyLeReflexive(key(s[i]));
    } else {
      SortedByPairwise(s, key, i + 1, j);
      KeyLeTransitive(key(s[i]), key(s[i + 1]), key(s[j]));
    }
  }

  /** The elements of `s` whose key is `k`, in their order in `s`. */
  function WithKey<T>(s: seq<T>, key: T -> Key, k: Key): seq<T> {
    if s == [] then []
    else (if key(s[0]) == k then [s[0]] else []) + WithKey(s[1..], key, k)
  }

  /** When every element has key `k`, selecting by `k` keeps the whole list. */
  lemma {:induction false} WithKeyOfUniform<T>(s: seq<T>, key: T -> Key, k: Key)
    requires forall x :: x in s ==> key(x) == k
    ensures WithKey(s, key, k) == s
    decreases |s|
  {
    if s != [] {
      WithKeyOfUniform(s[1..], key, k);
      assert s == [s[0]] + s[1..];
    }
  }

  /** Places `x` before the first element whose key is not below it. */
  function Insert<T>(x: T, s: seq<T>, key: T -> Key): (r: seq<T>)
    ensures |r| == |s| + 1
    ensures r[0] == x || (s != [] && r[0] == s[0])
    ensures multiset(r) == multiset(s) + multiset{x}
  {
    if s == [] || KeyLe(key(x), key(s[0])) then [x] + s
    else
      assert s == [s[0]] + s[1..];
      [s[0]] + Insert(x, s[1..], key)
  }

  /** Inserting into a sorted list keeps it sorted. */
  lemma {:induction false} InsertSorted<T>(x: T, s: seq<T>, key: T -> Key)
    requires SortedBy(s, key)
    ensures SortedBy(Insert(x, s, key), key)
    decreases |s|
  {
    if s != [] && !KeyLe(key(x), key(s[0])) {
      KeyLeTotal(key(x), key(s[0]));
      var rest := Insert(x, s[1..], key);
      assert SortedBy(s[1..], key) by {
        forall i | 0 <= i < |s[1..]| - 1
          ensures KeyLe(key(s[1..][i]), key(s[1..][i + 1]))
        {
          assert s[1..][i] == s[i + 1] && s[1..][i + 1] == s[i + 2];
        }
      }
      InsertSorted(x, s[1..], key);
      var r := Insert(x, s, key);
      assert r == [s[0]] + rest;
      forall i | 0 <= i < |r| - 1
        ensures KeyLe(key(r[i]), key(r[i + 1]))
      {
        if i > 0 {
          assert r[i] == rest[i - 1] && r[i + 1] == rest[i];
        }
      }
    }
  }

  /** Kotlin's `sortedBy(key)`: a stable ascending sort (insertion sort here). */
  function SortByKey<T>(s: seq<T>, key: T -> Key): (r: seq<T>)
    ensures |r| == |s|
    ensures multiset(r) == multiset(s)
    ensures SortedBy(r, key)
  {
    if s == [] then []
    else
      assert s == [s[0]] + s[1..];
      var sorted := SortByKey(s[1..], key);
      InsertSorted(s[0], sorted, key);
      Insert(s[0], sorted, key)
  }

  lemma {:induction false} InsertWithKey<T>(x: T, s: seq<T>, key: T -> Key, k: Key)
    ensures WithKey(Insert(x, s, key), key, k) == (if key(x) == k then [x] else []) + WithKey(s, key, k)
    decreases |s|
  {
    if s == [] || KeyLe(key(x), key(s[0])) {
      assert Insert(x, s, key) == [x] + s;
      assert ([x] + s)[1..] == s;
    } else {
      var r := Insert(x, s, key);
      assert r == [s[0]] + Insert(x, s[1..], key);
      assert r[1..] == Insert(x, s[1..], key);
      InsertWithKey(x, s[1..], key, k);
      if key(x) == k {
        KeyLeReflexive(k);
        assert key(s[0]) != k;
      }
    }
  }

  /** `sortedBy` is stable: the elements sharing a key keep their relative order. */
  lemma {:induction false} SortByKeyStable<T>(s: seq<T>, key: T -> Key, k: Key)
    ensures WithKey(SortByKey(s, key), key, k) == WithKey(s, key, k)
    decreases |s|
  {
    if s != [] {
      SortByKeyStable(s[1..], key, k);
      InsertWithKey(s[0], SortByKey(s[1..], key), key, k);
    }
  }

  /** Kotlin's `reversed()`. */
  function Reversed<T>(s: seq<T>): (r: seq<T>)
    ensures |r| == |s|
    ensures forall i :: 0 <= i < |s| ==> r[i] == s[|s| - 1 - i]
    ensures multiset(r) == multiset(s)
  {
    if s == [] then []
    else
      assert s == [s[0]] + s[1..];
      Reversed(s[1..]) + [s[0]]
  }

  lemma ReversedTwice<T>(s: seq<T>)
    ensures Reversed(Reversed(s)) == s
  {
  }

  /** Kotlin's `filter(p)`. */
  function Filter<T>(s: seq<T>, p: T -> bool): (r: seq<T>)
    ensures |r| <= |s|
    ensures forall x :: x in r ==> x in s && p(x)
    ensures forall x :: x in s && p(x) ==> x in r
  {
    if s == [] then []
    else (if p(s[0]) then [s[0]] else []) + Filter(s[1..], p)
  }

  /** `r` is `s` with some elements left out, the rest in their order. */
  predicate IsSubsequence<T(==)>(r: seq<T>, s: seq<T>)
    decreases |s|
  {
    if r == [] then true
    else if s == [] then false
    else if r[0] == s[0] then IsSubsequence(r[1..], s[1..])
    else IsSubsequence(r, s[1..])
  }

  /** A filter keeps the order of what it keeps. */
  lemma {:induction false} FilterIsSubsequence<T>(s: seq<T>, p: T -> bool)
    ensures IsSubsequence(Filter(s, p), s)
    decreases |s|
  {
    if s != [] {
      FilterIsSubsequence(s[1..], p);
      var r := Filter(s, p);
      if p(s[0]) {
        assert r == [s[0]] + Filter(s[1..], p);
        assert r[1..] == Filter(s[1..], p);
      } else {
        assert r == Filter(s[1..], p);
        assert r != [] ==> p(r[0]) && r[0] != s[0];
      }
    }
  }

  /** A filter keeps every matching element as often as it occurs and nothing else. */
  lemma {:induction false} FilterCount<T>(s: seq<T>, p: T -> bool, x: T)
    ensures multiset(Filter(s, p))[x] == if p(x) then multiset(s)[x] else 0
    decreases |s|
  {
    if s != [] {
      FilterCount(s[1..], p, x);
      assert s == [s[0]] + s[1..];
    }
  }

  /** Filtering by `p` and by its negation splits `s` without loss: this is
      Kotlin's `partition(p)`. */
  lemma {:induction false} FilterSplit<T>(s: seq<T>, p: T -> bool)
    ensures multiset(Filter(s, p)) + multiset(Filter(s, x => !p(x))) == multiset(s)
    decreases |s|
  {
    if s != [] {
      FilterSplit(s[1..], p);
      assert s == [s[0]] + s[1..];
    }
  }

  /** Kotlin's `partition(p)`: the elements that satisfy `p` and the others,
      each in its original order. */
  function Partition<T>(s: seq<T>, p: T -> bool): (r: (seq<T>, seq<T>))
    ensures forall x :: x in r.0 ==> p(x)
    ensures forall x :: x in r.1 ==> !p(x)
    ensures multiset(r.0) + multiset(r.1) == multiset(s)
    ensures IsSubsequence(r.0, s) && IsSubsequence(r.1, s)
  {
    FilterSplit(s, p);
    FilterIsSubsequence(s, p);
    FilterIsSubsequence(s, x => !p(x));
    (Filter(s, p), Filter(s, x => !p(x)))
  }
}

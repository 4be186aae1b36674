/** A stable sort by an integer key, the behaviour `Array.prototype.sort`
    guarantees for a comparator of the form `key(a) - key(b)`: the output is
    ordered by key and elements with equal keys keep their input order. */
module StableSort {

  predicate Sorted<T>(s: seq<T>, key: T -> int) {
    forall i, j :: 0 <= i < j < |s| ==> key(s[i]) <= key(s[j])
  }

  /** Every element has key at least `lo`. */
  predicate AllFrom<T>(s: seq<T>, key: T -> int, lo: int) {
    forall i :: 0 <= i < |s| ==> lo <= key(s[i])
  }

  /** The elements of `s` with key `k`, in the order they appear in `s`. */
  function SameKey<T>(s: seq<T>, key: T -> int, k: int): seq<T>
  {
    if |s| == 0 then []
    else (if key(s[0]) == k then [s[0]] else []) + SameKey(s[1..], key, k)
  }

  /** Places `x` before the first element of `t` whose key is not below `x`'s,
      so that `x` precedes the equal-key elements it came before in the input. */
  function InsertBefore<T>(x: T, t: seq<T>, key: T -> int): (r: seq<T>)
    ensures |r| == |t| + 1
  {
    if |t| == 0 || key(x) <= key(t[0]) then [x] + t
    else [t[0]] + InsertBefore(x, t[1..], key)
  }

  lemma {:induction false} InsertBeforeMultiset<T>(x: T, t: seq<T>, key: T -> int)
    ensures multiset(InsertBefore(x, t, key)) == multiset(t) + multiset{x}
    decreases |t|
  {
    if !(|t| == 0 || key(x) <= key(t[0])) {
      InsertBeforeMultiset(x, t[1..], key);
      assert t == [t[0]] + t[1..];
    }
  }

  lemma {:induction false} InsertBeforeBound<T>(x: T, t: seq<T>, key: T -> int, lo: int)
    requires AllFrom(t, key, lo) && lo <= key(x)
    ensures AllFrom(InsertBefore(x, t, key), key, lo)
    decreases |t|
  {
    if !(|t| == 0 || key(x) <= key(t[0])) {
      InsertBeforeBound(x, t[1..], key, lo);
    }
  }

  lemma {:induction false} InsertBeforeSorted<T>(x: T, t: seq<T>, key: T -> int)
    requires Sorted(t, key)
    ensures Sorted(InsertBefore(x, t, key), key)
    decreases |t|
  {
    if !(|t| == 0 || key(x) <= key(t[0])) {
      var t' := t[1..];
      InsertBeforeSorted(x, t', key);
      InsertBeforeBound(x, t', key, key(t[0]));
    }
  }

  lemma {:induction false} InsertBeforeSameKey<T>(x: T, t: seq<T>, key: T -> int, k: int)
    ensures SameKey(InsertBefore(x, t, key), key, k) == (if key(x) == k then [x] else []) + SameKey(t, key, k)
    decreases |t|
  {
    var r := InsertBefore(x, t, key);
    var own := if key(x) == k then [x] else [];
    if |t| == 0 || key(x) <= key(t[0]) {
      assert r[0] == x && r[1..] == t;
      assert SameKey(r, key, k) == own + SameKey(t, key, k);
    } else {
      var t' := t[1..];
      var head := if key(t[0]) == k then [t[0]] else [];
      InsertBeforeSameKey(x, t', key, k);
      assert r[0] == t[0] && r[1..] == InsertBefore(x, t', key);
      calc {
        SameKey(r, key, k);
        head + SameKey(InsertBefore(x, t', key), key, k);
        head + (own + SameKey(t', key, k));
        { assert head == [] || own == []; }
        own + (head + SameKey(t', key, k));
        own + SameKey(t, key, k);
      }
    }
  }

  /** Insertion sort from the back of the input. */
  function SortBy<T>(s: seq<T>, key: T -> int): (r: seq<T>)
    ensures |r| == |s|
    ensures multiset(r) == multiset(s)
    ensures Sorted(r, key)
    ensures forall k :: SameKey(r, key, k) == SameKey(s, key, k)
  {
    if |s| == 0 then []
    else
      var rest := SortBy(s[1..], key);
      InsertBeforeMultiset(s[0], rest, key);
      InsertBeforeSorted(s[0], rest, key);
      assert s == [s[0]] + s[1..];
      forall k ensures SameKey(InsertBefore(s[0], rest, key), key, k) == SameKey(s, key, k) {
        InsertBeforeSameKey(s[0], rest, key, k);
      }
      InsertBefore(s[0], rest, key)
  }

  lemma {:induction false} SameKeyMember<T>(s: seq<T>, key: T -> int, i: int)
    requires 0 <= i < |s|
    ensures SameKey(s, key, key(s[i])) != []
    decreases |s|
  {
    if i > 0 && key(s[0]) != key(s[i]) {
      SameKeyMember(s[1..], key, i - 1);
    }
  }

  /** In a sorted sequence, every key that occurs is no earlier than the first. */
  lemma {:induction false} SameKeyFloor<T>(s: seq<T>, key: T -> int, k: int)
    requires Sorted(s, key) && |s| > 0 && SameKey(s, key, k) != []
    ensures key(s[0]) <= k
    decreases |s|
  {
    if key(s[0]) != k {
      SameKeyFloor(s[1..], key, k);
    }
  }

  /** A sorted sequence is determined by its equal-key subsequences, so every
      stable sort of the same input produces exactly `SortBy`'s output. */
  lemma {:induction false} StableSortUnique<T>(a: seq<T>, b: seq<T>, key: T -> int)
    requires Sorted(a, key) && Sorted(b, key)
    requires forall k :: SameKey(a, key, k) == SameKey(b, key, k)
    ensures a == b
    decreases |a|
  {
    if |a| == 0 {
      if |b| > 0 {
        SameKeyMember(b, key, 0);
      }
    } else if |b| == 0 {
      SameKeyMember(a, key, 0);
    } else {
      var ka, kb := key(a[0]), key(b[0]);
      SameKeyMember(a, key, 0);
      SameKeyFloor(b, key, ka);
      SameKeyMember(b, key, 0);
      SameKeyFloor(a, key, kb);
      assert ka == kb;
      assert SameKey(a, key, ka)[0] == a[0];
      assert SameKey(b, key, ka)[0] == b[0];
      assert a[0] == b[0];
      forall k ensures SameKey(a[1..], key, k) == SameKey(b[1..], key, k) {
        var ha: seq<T> := if ka == k then [a[0]] else [];
        assert SameKey(a, key, k) == ha + SameKey(a[1..], key, k);
        assert SameKey(b, key, k) == ha + SameKey(b[1..], key, k);
        assert (ha + SameKey(a[1..], key, k))[|ha|..] == SameKey(a[1..], key, k);
        assert (ha + SameKey(b[1..], key, k))[|ha|..] == SameKey(b[1..], key, k);
      }
      StableSortUnique(a[1..], b[1..], key);
      assert a == [a[0]] + a[1..] && b == [b[0]] + b[1..];
    }
  }

  /** `SortBy` is the unique stable sort: a sorted sequence with the same
      equal-key subsequences as the input is `SortBy`'s output. */
  lemma SortByIsTheStableSort<T>(s: seq<T>, r: seq<T>, key: T -> int)
    requires Sorted(r, key) && forall k :: SameKey(r, key, k) == SameKey(s, key, k)
    ensures r == SortBy(s, key)
  {
    StableSortUnique(r, SortBy(s, key), key);
  }

  /** Applying a key-preserving map commutes with sorting. */
  lemma {:induction false} MapInsert<T>(f: T -> T, x: T, t: seq<T>, key: T -> int)
    requires forall y :: key(f(y)) == key(y)
    ensures Map(f, InsertBefore(x, t, key)) == InsertBefore(f(x), Map(f, t), key)
    decreases |t|
  {
    if !(|t| == 0 || key(x) <= key(t[0])) {
      var rest := InsertBefore(x, t[1..], key);
      var mt := Map(f, t);
      MapInsert(f, x, t[1..], key);
      assert mt[0] == f(t[0]) && mt[1..] == Map(f, t[1..]);
      assert key(f(x)) == key(x) && key(mt[0]) == key(t[0]);
      assert InsertBefore(f(x), mt, key) == [mt[0]] + InsertBefore(f(x), mt[1..], key);
      assert Map(f, [t[0]] + rest) == [f(t[0])] + Map(f, rest);
    } else {
      assert Map(f, [x] + t) == [f(x)] + Map(f, t);
    }
  }

  lemma {:induction false} MapSort<T>(f: T -> T, s: seq<T>, key: T -> int)
    requires forall y :: key(f(y)) == key(y)
    ensures Map(f, SortBy(s, key)) == SortBy(Map(f, s), key)
    decreases |s|
  {
    if |s| > 0 {
      MapSort(f, s[1..], key);
      MapInsert(f, s[0], SortBy(s[1..], key), key);
      assert Map(f, s)[1..] == Map(f, s[1..]);
    }
  }

  function Map<T>(f: T -> T, s: seq<T>): (r: seq<T>)
    ensures |r| == |s| && forall i :: 0 <= i < |s| ==> r[i] == f(s[i])
  {
    seq(|s|, i requires 0 <= i < |s| => f(s[i]))
  }

  function Reverse<T>(s: seq<T>): (r: seq<T>)
    ensures |r| == |s| && forall i :: 0 <= i < |s| ==> r[i] == s[|s| - 1 - i]
  {
    seq(|s|, i requires 0 <= i < |s| => s[|s| - 1 - i])
  }

  lemma {:induction false} ReverseMultiset<T>(s: seq<T>)
    ensures multiset(Reverse(s)) == multiset(s)
    decreases |s|
  {
    if |s| > 0 {
      var s' := s[1..];
      ReverseMultiset(s');
      assert Reverse(s) == Reverse(s') + [s[0]];
      assert s == [s[0]] + s';
    }
  }
}

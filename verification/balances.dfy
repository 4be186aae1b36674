/** The balance reconciler, `calculateBalances`: a stable sort of a copy by
    raw date, a running balance seeded with the opening balance, and a
    reversal to most-recent-first order. */
module Balances {
  import opened Dates
  import opened ClientTypes
  import opened StableSort

  /** The comparator key of a movement: its raw date on the calendar line. */
  function Key(m: ProcessedMovement): int {
    DateKey(m.fechaOriginal)
  }

  /** Every raw date parses, so the comparator is a consistent order. */
  predicate WellDated(s: seq<ProcessedMovement>) {
    forall i :: 0 <= i < |s| ==> ParseDate(s[i].fechaOriginal).Some?
  }

  /** Sum of the signed amounts. */
  function SumMontos(s: seq<ProcessedMovement>): real {
    if |s| == 0 then 0.0 else s[0].monto + SumMontos(s[1..])
  }

  lemma {:induction false} SumMontosInsert(x: ProcessedMovement, t: seq<ProcessedMovement>)
    ensures SumMontos(InsertBefore(x, t, Key)) == x.monto + SumMontos(t)
    decreases |t|
  {
    if !(|t| == 0 || Key(x) <= Key(t[0])) {
      SumMontosInsert(x, t[1..]);
      assert InsertBefore(x, t, Key)[1..] == InsertBefore(x, t[1..], Key);
    } else {
      assert ([x] + t)[1..] == t;
    }
  }

  /** Sorting does not change the total. */
  lemma {:induction false} SumMontosSort(s: seq<ProcessedMovement>)
    ensures SumMontos(SortBy(s, Key)) == SumMontos(s)
    decreases |s|
  {
    if |s| > 0 {
      SumMontosSort(s[1..]);
      SumMontosInsert(s[0], SortBy(s[1..], Key));
    }
  }

  /** The balance-free part of a movement. */
  function Erase1(m: ProcessedMovement): ProcessedMovement {
    m.(saldoAcumulado := 0.0)
  }

  function Erase(s: seq<ProcessedMovement>): (r: seq<ProcessedMovement>)
    ensures |r| == |s| && forall i :: 0 <= i < |s| ==> r[i] == Erase1(s[i])
  {
    Map(Erase1, s)
  }

  /** A prefix sum splits into the first amount and a prefix of the rest. */
  lemma SumMontosPrefix(s: seq<ProcessedMovement>, i: nat)
    requires i < |s|
    ensures SumMontos(s[..i + 1]) == s[0].monto + SumMontos(s[1..][..i])
  {
    assert s[..i + 1][1..] == s[1..][..i];
  }

  /** The running-balance walk: each movement is stamped with the seed plus
      every amount up to and including its own; nothing else changes. */
  function Stamp(s: seq<ProcessedMovement>, acc: real): (r: seq<ProcessedMovement>)
    ensures |r| == |s|
    ensures Erase(r) == Erase(s)
    ensures forall i :: 0 <= i < |s| ==> r[i].saldoAcumulado == acc + SumMontos(s[..i + 1])
  {
    if |s| == 0 then []
    else
      var acc' := acc + s[0].monto;
      var rest := Stamp(s[1..], acc');
      var r := [s[0].(saldoAcumulado := acc')] + rest;
      forall i | 0 <= i < |s| ensures r[i].saldoAcumulado == acc + SumMontos(s[..i + 1]) {
        SumMontosPrefix(s, i);
        if i > 0 {
          assert r[i] == rest[i - 1];
          assert rest[i - 1].saldoAcumulado == acc' + SumMontos(s[1..][..i]);
        } else {
          assert SumMontos(s[1..][..0]) == 0.0;
        }
      }
      forall i | 0 <= i < |s| ensures Erase1(r[i]) == Erase1(s[i]) {
        if i > 0 {
          assert r[i] == rest[i - 1] && s[i] == s[1..][i - 1];
          assert Erase(rest)[i - 1] == Erase(s[1..])[i - 1];
        }
      }
      assert Erase(r) == Erase(s);
      r
  }

  /** Sums agree on sequences that differ only in their balances. */
  lemma {:induction false} SumMontosErase(a: seq<ProcessedMovement>, b: seq<ProcessedMovement>)
    requires Erase(a) == Erase(b)
    ensures SumMontos(a) == SumMontos(b)
    decreases |a|
  {
    if |a| > 0 {
      assert Erase(a)[0] == Erase(b)[0];
      assert Erase(a[1..]) == Erase(a)[1..];
      assert Erase(b[1..]) == Erase(b)[1..];
      SumMontosErase(a[1..], b[1..]);
    }
  }

  /** Every movement carries `init` plus every amount up to and including
      its own. */
  predicate Running(s: seq<ProcessedMovement>, init: real) {
    forall i :: 0 <= i < |s| ==> s[i].saldoAcumulado == init + SumMontos(s[..i + 1])
  }

  lemma {:induction false} SumMontosAppend(a: seq<ProcessedMovement>, b: seq<ProcessedMovement>)
    ensures SumMontos(a + b) == SumMontos(a) + SumMontos(b)
    decreases |a|
  {
    if |a| > 0 {
      assert (a + b)[1..] == a[1..] + b;
      SumMontosAppend(a[1..], b);
    } else {
      assert a + b == b;
    }
  }

  /** The total does not depend on the reading direction. */
  lemma {:induction false} SumMontosReverse(s: seq<ProcessedMovement>)
    ensures SumMontos(Reverse(s)) == SumMontos(s)
    decreases |s|
  {
    if |s| > 0 {
      assert Reverse(s) == Reverse(s[1..]) + [s[0]];
      SumMontosReverse(s[1..]);
      SumMontosAppend(Reverse(s[1..]), [s[0]]);
      assert SumMontos([s[0]]) == s[0].monto + SumMontos([]);
    }
  }

  /** Read newest first, as the table shows it: when the oldest-first reading
      keeps running balances from `init`, each row carries `init` plus its own
      amount and every amount below it. */
  lemma RunningNewestFirst(r: seq<ProcessedMovement>, init: real, i: nat)
    requires Running(Reverse(r), init)
    requires i < |r|
    ensures r[i].saldoAcumulado == init + SumMontos(r[i..])
  {
    var n := |r|;
    var j := n - 1 - i;
    assert Reverse(r)[j] == r[i];
    assert Reverse(r)[..j + 1] == Reverse(r[i..]);
    SumMontosReverse(r[i..]);
  }

  /** `calculateBalances(movements, initialBalance)`. Read back to front, the
      result is the input in stable date order (a permutation of it, equal
      dates in input order), each movement carrying the opening balance plus
      every amount up to and including its own; so the front carries the
      opening balance plus the total. */
  function CalculateBalances(movements: seq<ProcessedMovement>, initialBalance: real): (r: seq<ProcessedMovement>)
    requires WellDated(movements)
    ensures |r| == |movements|
    ensures |movements| == 0 ==> r == []
    ensures Sorted(Reverse(r), Key)
    ensures Running(Reverse(r), initialBalance)
    ensures multiset(Erase(r)) == multiset(Erase(movements))
    ensures forall k :: SameKey(Erase(Reverse(r)), Key, k) == SameKey(Erase(movements), Key, k)
    ensures |r| > 0 ==> r[0].saldoAcumulado == initialBalance + SumMontos(movements)
  {
    var r := Walk(movements, initialBalance);
    ChronoSorted(movements, initialBalance);
    ChronoRunning(movements, initialBalance);
    ChronoFront(movements, initialBalance);
    PermutationMultiset(movements, initialBalance);
    PermutationSameKey(movements, initialBalance);
    r
  }

  /** Sort oldest first, stamp the running balances, then put the newest first. */
  function Walk(movements: seq<ProcessedMovement>, initialBalance: real): seq<ProcessedMovement> {
    Reverse(Stamp(SortBy(movements, Key), initialBalance))
  }

  /** Read back to front, the walk is the stamped stable sort. */
  lemma WalkOldestFirst(movements: seq<ProcessedMovement>, initialBalance: real)
    ensures Reverse(Walk(movements, initialBalance)) == Stamp(SortBy(movements, Key), initialBalance)
  {
    var stamped := Stamp(SortBy(movements, Key), initialBalance);
    assert Reverse(Reverse(stamped)) == stamped;
  }

  /** Stamping keeps every movement's date. */
  lemma StampKeys(s: seq<ProcessedMovement>, acc: real)
    ensures var t := Stamp(s, acc); forall i :: 0 <= i < |s| ==> Key(t[i]) == Key(s[i])
  {
    var t := Stamp(s, acc);
    forall i | 0 <= i < |s| ensures Key(t[i]) == Key(s[i]) {
      assert Erase(t)[i] == Erase(s)[i];
    }
  }

  lemma ChronoSorted(movements: seq<ProcessedMovement>, initialBalance: real)
    ensures Sorted(Reverse(Walk(movements, initialBalance)), Key)
  {
    var sorted := SortBy(movements, Key);
    WalkOldestFirst(movements, initialBalance);
    StampKeys(sorted, initialBalance);
  }

  /** Stamped balances are prefix sums of the stamped sequence itself. */
  lemma StampSelfSums(s: seq<ProcessedMovement>, acc: real)
    ensures Running(Stamp(s, acc), acc)
  {
    var t := Stamp(s, acc);
    forall i | 0 <= i < |t| ensures t[i].saldoAcumulado == acc + SumMontos(t[..i + 1]) {
      StampSelfSum(s, acc, i);
    }
  }

  lemma StampSelfSum(s: seq<ProcessedMovement>, acc: real, i: nat)
    requires i < |s|
    ensures Stamp(s, acc)[i].saldoAcumulado == acc + SumMontos(Stamp(s, acc)[..i + 1])
  {
    var t := Stamp(s, acc);
    var tp, sp := t[..i + 1], s[..i + 1];
    assert Erase(tp) == Erase(t)[..i + 1];
    assert Erase(sp) == Erase(s)[..i + 1];
    SumMontosErase(tp, sp);
  }

  lemma ChronoRunning(movements: seq<ProcessedMovement>, initialBalance: real)
    ensures Running(Reverse(Walk(movements, initialBalance)), initialBalance)
  {
    WalkOldestFirst(movements, initialBalance);
    StampSelfSums(SortBy(movements, Key), initialBalance);
  }

  lemma ChronoFront(movements: seq<ProcessedMovement>, initialBalance: real)
    ensures var r := Walk(movements, initialBalance);
      |r| > 0 ==> r[0].saldoAcumulado == initialBalance + SumMontos(movements)
  {
    var sorted := SortBy(movements, Key);
    if |sorted| > 0 {
      assert sorted[..|sorted|] == sorted;
      SumMontosSort(movements);
    }
  }

  /** Up to balances, the stamped sequence is the stable sort of the input. */
  lemma EraseStampSort(movements: seq<ProcessedMovement>, initialBalance: real)
    ensures Erase(Stamp(SortBy(movements, Key), initialBalance)) == SortBy(Erase(movements), Key)
  {
    MapSort(Erase1, movements, Key);
  }

  lemma PermutationMultiset(movements: seq<ProcessedMovement>, initialBalance: real)
    ensures multiset(Erase(Walk(movements, initialBalance))) == multiset(Erase(movements))
  {
    var stamped := Stamp(SortBy(movements, Key), initialBalance);
    EraseStampSort(movements, initialBalance);
    assert Erase(Reverse(stamped)) == Reverse(Erase(stamped));
    ReverseMultiset(Erase(stamped));
  }

  lemma PermutationSameKey(movements: seq<ProcessedMovement>, initialBalance: real)
    ensures forall k :: SameKey(Erase(Reverse(Walk(movements, initialBalance))), Key, k)
                     == SameKey(Erase(movements), Key, k)
  {
    WalkOldestFirst(movements, initialBalance);
    EraseStampSort(movements, initialBalance);
  }
}

/**
 * The sort step of the Home screen: Array.prototype.sort, which is stable, with the
 * comparator (a, b) => key(b) - key(a), so records come out by non-increasing key
 * and records with equal keys keep their input order.
 */
module Sorting {
  import opened Expenses

  /** Non-increasing by key: what the comparator asks for. */
  predicate SortedDesc(s: seq<Expense>, key: Expense -> real) {
    forall i, j :: 0 <= i < j < |s| ==> key(s[i]) >= key(s[j])
  }

  /** Puts x behind every record of s whose key is at least x's (so behind its equals). */
  function Insert(s: seq<Expense>, x: Expense, key: Expense -> real): seq<Expense> {
    if s == [] || key(s[|s| - 1]) >= key(x) then s + [x]
    else Insert(s[..|s| - 1], x, key) + [s[|s| - 1]]
  }

  /** The reference stable sort: insertion of each record, in input order, into the sorted prefix. */
  function StableSort(s: seq<Expense>, key: Expense -> real): seq<Expense> {
    if s == [] then [] else Insert(StableSort(s[..|s| - 1], key), s[|s| - 1], key)
  }

  lemma {:induction false} InsertPermutes(s: seq<Expense>, x: Expense, key: Expense -> real)
    ensures multiset(Insert(s, x, key)) == multiset(s) + multiset{x}
  {
    if !(s == [] || key(s[|s| - 1]) >= key(x)) {
      InsertPermutes(s[..|s| - 1], x, key);
      assert s == s[..|s| - 1] + [s[|s| - 1]];
    }
  }

  lemma {:induction false} InsertSorted(s: seq<Expense>, x: Expense, key: Expense -> real)
    requires SortedDesc(s, key)
    ensures SortedDesc(Insert(s, x, key), key)
  {
    if !(s == [] || key(s[|s| - 1]) >= key(x)) {
      var init, last := s[..|s| - 1], s[|s| - 1];
      InsertSorted(init, x, key);
      InsertPermutes(init, x, key);
      var r := Insert(init, x, key);
      forall e | e in r ensures key(e) >= key(last) {
        assert e in multiset(r);
        assert e in init || e == x;
      }
      forall i, j | 0 <= i < j < |r + [last]|
        ensures key((r + [last])[i]) >= key((r + [last])[j])
      {
        if j == |r| {
          assert (r + [last])[i] in r;
        }
      }
    }
  }

  /** Inserting x adds x to the run of records whose key is x's key, at its end, and changes no other run. */
  lemma {:induction false} InsertStable(s: seq<Expense>, x: Expense, key: Expense -> real, v: real)
    ensures Keep(Insert(s, x, key), KeyIs(key, v))
         == Keep(s, KeyIs(key, v)) + (if key(x) == v then [x] else [])
  {
    if s == [] || key(s[|s| - 1]) >= key(x) {
      KeepAppend(s, [x], KeyIs(key, v));
      assert [x][..0] == [];
    } else {
      var init, last := s[..|s| - 1], s[|s| - 1];
      InsertStable(init, x, key, v);
      assert s == init + [last];
      InsertStableStep(init, last, Insert(init, x, key), x, KeyIs(key, v), key(x) == v);
    }
  }

  /** The step of InsertStable past a record `last` with a smaller key than x's. */
  lemma InsertStableStep(init: seq<Expense>, last: Expense, r: seq<Expense>, x: Expense, c: Criterion, b: bool)
    requires Keep(r, c) == Keep(init, c) + (if b then [x] else [])
    requires b ==> !Holds(c, last)
    ensures Keep(r + [last], c) == Keep(init + [last], c) + (if b then [x] else [])
  {
    KeepAppend(r, [last], c);
    KeepAppend(init, [last], c);
    assert [last][..0] == [];
    if Holds(c, last) {
      assert Keep([last], c) == [last];
    } else {
      assert Keep([last], c) == [];
    }
  }

  /** The sort is a permutation of its input. */
  lemma {:induction false} SortPermutes(s: seq<Expense>, key: Expense -> real)
    ensures multiset(StableSort(s, key)) == multiset(s)
  {
    if s != [] {
      SortPermutes(s[..|s| - 1], key);
      InsertPermutes(StableSort(s[..|s| - 1], key), s[|s| - 1], key);
      assert s == s[..|s| - 1] + [s[|s| - 1]];
    }
  }

  /** The sort orders by non-increasing key. */
  lemma {:induction false} SortSorts(s: seq<Expense>, key: Expense -> real)
    ensures SortedDesc(StableSort(s, key), key)
  {
    if s != [] {
      SortSorts(s[..|s| - 1], key);
      InsertSorted(StableSort(s[..|s| - 1], key), s[|s| - 1], key);
    }
  }

  /** The sort is stable: for every key value, the records with that key keep their input order. */
  lemma {:induction false} SortIsStable(s: seq<Expense>, key: Expense -> real, v: real)
    ensures Keep(StableSort(s, key), KeyIs(key, v)) == Keep(s, KeyIs(key, v))
  {
    if s != [] {
      SortIsStable(s[..|s| - 1], key, v);
      InsertStable(StableSort(s[..|s| - 1], key), s[|s| - 1], key, v);
    }
  }

  /** The last record of a non-empty sequence is the last of the run of its own key. */
  lemma LastIsKept(r: seq<Expense>, key: Expense -> real)
    requires r != []
    ensures var k := Keep(r, KeyIs(key, key(r[|r| - 1])));
            k != [] && k[|k| - 1] == r[|r| - 1]
  {
  }

  /** In a sorted sequence, a key value that occurs is at least the key of the last record. */
  lemma LastHasLeastKey(r: seq<Expense>, key: Expense -> real, v: real)
    requires r != [] && SortedDesc(r, key)
    requires Keep(r, KeyIs(key, v)) != []
    ensures v >= key(r[|r| - 1])
  {
    var k := Keep(r, KeyIs(key, v));
    KeepMembers(r, KeyIs(key, v));
    assert k[0] in r;
    var i :| 0 <= i < |r| && r[i] == k[0];
    assert i == |r| - 1 || key(r[i]) >= key(r[|r| - 1]);
  }

  /** Dropping the same last record from two sequences with the same run drops it from that run in both. */
  lemma RunOfInits(r1: seq<Expense>, r2: seq<Expense>, c: Criterion)
    requires r1 != [] && r2 != [] && r1[|r1| - 1] == r2[|r2| - 1]
    requires Keep(r1, c) == Keep(r2, c)
    ensures Keep(r1[..|r1| - 1], c) == Keep(r2[..|r2| - 1], c)
  {
    var k1, k2 := Keep(r1[..|r1| - 1], c), Keep(r2[..|r2| - 1], c);
    var last := r1[|r1| - 1];
    var tail := if Holds(c, last) then [last] else [];
    assert Keep(r1, c) == k1 + tail;
    assert Keep(r2, c) == k2 + tail;
    SnocCancel(k1, k2, tail);
  }

  lemma SnocCancel<T>(a: seq<T>, b: seq<T>, t: seq<T>)
    requires a + t == b + t
    ensures a == b
  {
    assert |a| == |b|;
    assert forall i :: 0 <= i < |a| ==> a[i] == (a + t)[i] == (b + t)[i] == b[i];
  }

  lemma RunsOfInits(r1: seq<Expense>, r2: seq<Expense>, key: Expense -> real)
    requires r1 != [] && r2 != [] && r1[|r1| - 1] == r2[|r2| - 1]
    requires forall v :: Keep(r1, KeyIs(key, v)) == Keep(r2, KeyIs(key, v))
    ensures forall v :: Keep(r1[..|r1| - 1], KeyIs(key, v)) == Keep(r2[..|r2| - 1], KeyIs(key, v))
  {
    forall v ensures Keep(r1[..|r1| - 1], KeyIs(key, v)) == Keep(r2[..|r2| - 1], KeyIs(key, v)) {
      RunOfInits(r1, r2, KeyIs(key, v));
    }
  }

  /**
   * A sorted sequence is determined by its runs of equal keys: two sorted sequences
   * with the same records, in the same order, under every key value are equal.
   */
  lemma {:induction false} SortedRunsDetermine(r1: seq<Expense>, r2: seq<Expense>, key: Expense -> real)
    requires SortedDesc(r1, key) && SortedDesc(r2, key)
    requires forall v :: Keep(r1, KeyIs(key, v)) == Keep(r2, KeyIs(key, v))
    ensures r1 == r2
    decreases |r1| + |r2|
  {
    if r1 != [] {
      LastIsKept(r1, key);
      assert Keep(r2, KeyIs(key, key(r1[|r1| - 1]))) != [];
    }
    if r2 != [] {
      LastIsKept(r2, key);
      assert Keep(r1, KeyIs(key, key(r2[|r2| - 1]))) != [];
    }
    if r1 != [] && r2 != [] {
      var v1, v2 := key(r1[|r1| - 1]), key(r2[|r2| - 1]);
      LastHasLeastKey(r2, key, v1);
      LastHasLeastKey(r1, key, v2);
      assert Keep(r1, KeyIs(key, v1)) == Keep(r2, KeyIs(key, v2));
      RunsOfInits(r1, r2, key);
      SortedRunsDetermine(r1[..|r1| - 1], r2[..|r2| - 1], key);
      assert r1 == r1[..|r1| - 1] + [r1[|r1| - 1]];
      assert r2 == r2[..|r2| - 1] + [r2[|r2| - 1]];
    }
  }

  /**
   * StableSort is the only stable sort: any arrangement of s that is sorted and keeps
   * the input order among equal keys is StableSort(s). So whichever stable algorithm
   * the JavaScript engine runs, it produces this sequence.
   */
  lemma StableSortUnique(s: seq<Expense>, r: seq<Expense>, key: Expense -> real)
    requires SortedDesc(r, key)
    requires forall v :: Keep(r, KeyIs(key, v)) == Keep(s, KeyIs(key, v))
    ensures r == StableSort(s, key)
  {
    SortSorts(s, key);
    forall v ensures Keep(r, KeyIs(key, v)) == Keep(StableSort(s, key), KeyIs(key, v)) {
      SortIsStable(s, key, v);
    }
    SortedRunsDetermine(r, StableSort(s, key), key);
  }

  /** The sort step as the Home screen runs it: `latest` by date, `highest` by amount, any other mode leaves the order. */
  function SortView(s: seq<Expense>, sortMode: string): seq<Expense> {
    if sortMode == "latest" then StableSort(s, DateKey)
    else if sortMode == "highest" then StableSort(s, AmountKey)
    else s
  }

  /** Every sort mode yields a permutation of its input. */
  lemma SortViewPermutes(s: seq<Expense>, sortMode: string)
    ensures multiset(SortView(s, sortMode)) == multiset(s)
  {
    SortPermutes(s, DateKey);
    SortPermutes(s, AmountKey);
  }

  /** Insertion puts x right after the last record whose key is at least x's: behind it, every key is smaller. */
  lemma {:induction false} InsertSplit(s: seq<Expense>, j: int, x: Expense, key: Expense -> real)
    requires 0 <= j <= |s|
    requires j == 0 || key(s[j - 1]) >= key(x)
    requires forall k :: j <= k < |s| ==> key(s[k]) < key(x)
    ensures Insert(s, x, key) == s[..j] + [x] + s[j..]
    decreases |s|
  {
    if j < |s| {
      var init := s[..|s| - 1];
      assert init[..j] == s[..j];
      InsertSplit(init, j, x, key);
      assert s[j..] == init[j..] + [s[|s| - 1]];
    }
  }

  /**
   * The array during the inner loop: the sorted prefix with a hole at j (holding
   * any record) and the records behind j shifted one place right.
   */
  predicate HoleAt(c: seq<Expense>, sorted: seq<Expense>, rest: seq<Expense>, j: int)
  {
    0 <= j <= |sorted| && |c| == |sorted| + 1 + |rest| && c == sorted[..j] + [c[j]] + sorted[j..] + rest
  }

  /** One shift of the inner loop: copying c[j - 1] into the hole moves the hole to j - 1. */
  lemma ShiftRight(c: seq<Expense>, sorted: seq<Expense>, rest: seq<Expense>, j: int)
    requires HoleAt(c, sorted, rest, j) && j > 0
    ensures c[j - 1] == sorted[j - 1]
    ensures HoleAt(c[j := c[j - 1]], sorted, rest, j - 1)
  {
    assert c[j - 1] == (sorted[..j] + [c[j]] + sorted[j..] + rest)[j - 1];
    var next := c[j := c[j - 1]];
    assert sorted[..j] == sorted[..j - 1] + [sorted[j - 1]];
    assert sorted[j - 1..] == [sorted[j - 1]] + sorted[j..];
    assert next == sorted[..j - 1] + [next[j - 1]] + sorted[j - 1..] + rest;
  }

  /** The last step of the inner loop: x fills the hole. */
  lemma FillHole(c: seq<Expense>, sorted: seq<Expense>, rest: seq<Expense>, j: int, x: Expense)
    requires HoleAt(c, sorted, rest, j)
    ensures j > 0 ==> c[j - 1] == sorted[j - 1]
    ensures var next := c[j := x];
            next[..|sorted| + 1] == sorted[..j] + [x] + sorted[j..] && next[|sorted| + 1..] == rest
  {
    if j > 0 {
      assert c[j - 1] == (sorted[..j] + [c[j]] + sorted[j..] + rest)[j - 1];
    }
    var next := c[j := x];
    assert next == sorted[..j] + [x] + sorted[j..] + rest;
  }

  /**
   * The shifting part of the inner loop of the insertion sort: moves the hole at
   * i left past the records of the sorted prefix whose key is smaller than key(x).
   */
  method ShiftSmaller(a: array<Expense>, i: int, x: Expense, key: Expense -> real,
                      ghost sorted: seq<Expense>, ghost rest: seq<Expense>) returns (j: int)
    requires i == |sorted| && HoleAt(a[..], sorted, rest, i)
    modifies a
    ensures HoleAt(a[..], sorted, rest, j)
    ensures j == 0 || key(sorted[j - 1]) >= key(x)
    ensures forall k :: j <= k < i ==> key(sorted[k]) < key(x)
  {
    j := i;
    while j > 0 && key(a[j - 1]) < key(x)
      invariant HoleAt(a[..], sorted, rest, j)
      invariant forall k :: j <= k < i ==> key(sorted[k]) < key(x)
    {
      ghost var c := a[..];
      ShiftRight(c, sorted, rest, j);
      a[j] := a[j - 1];
      assert a[..] == c[j := c[j - 1]];
      j := j - 1;
    }
    if j > 0 {
      ShiftRight(a[..], sorted, rest, j);
    }
  }

  /**
   * The inner loop of the insertion sort: moves a[i] left past the records of
   * a[..i] whose key is smaller, shifting them one place right.
   */
  method InsertAt(a: array<Expense>, i: int, key: Expense -> real)
    requires 0 <= i < a.Length
    modifies a
    ensures a[..i + 1] == Insert(old(a[..i]), old(a[i]), key)
    ensures a[i + 1..] == old(a[i + 1..])
  {
    ghost var sorted := a[..i];
    ghost var rest := a[i + 1..];
    var x := a[i];
    assert a[..] == sorted[..i] + [a[i]] + sorted[i..] + rest;
    var j := ShiftSmaller(a, i, x, key, sorted, rest);
    ghost var c := a[..];
    FillHole(c, sorted, rest, j, x);
    InsertSplit(sorted, j, x, key);
    a[j] := x;
    assert a[..] == c[j := x];
  }

  /** filtered.sort(comparator): insertion sort in place, stable because it moves only records with a smaller key. */
  method SortInPlace(a: array<Expense>, key: Expense -> real)
    modifies a
    ensures a[..] == StableSort(old(a[..]), key)
  {
    ghost var orig := a[..];
    for i := 0 to a.Length
      invariant a[..i] == StableSort(orig[..i], key)
      invariant a[i..] == orig[i..]
    {
      assert orig[..i + 1][..i] == orig[..i];
      assert a[i] == orig[i];
      InsertAt(a, i, key);
    }
    assert a[..a.Length] == a[..];
    assert orig[..a.Length] == orig;
  }

  /** The sort block of the Home screen: dispatch on the sort mode. */
  method SortExpenses(a: array<Expense>, sortMode: string)
    modifies a
    ensures a[..] == SortView(old(a[..]), sortMode)
  {
    if sortMode == "latest" {
      SortInPlace(a, DateKey);
    } else if sortMode == "highest" {
      SortInPlace(a, AmountKey);
    }
  }
}

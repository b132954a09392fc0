/**
 * groupByDate: the records, in their order, collected into an object keyed by
 * calendar day, shown through Object.entries. The object's key order (its
 * insertion order, since day strings are not integer-like keys) is `keys`.
 */
module Grouping {
  import opened Calendar
  import opened Expenses

  function DayOf(e: Expense): DayKey {
    DayKeyOf(e.date)
  }

  /** The day keys of s in order of first appearance. */
  function FirstSeen(s: seq<Expense>): seq<DayKey> {
    if s == [] then []
    else
      var keys, k := FirstSeen(s[..|s| - 1]), DayOf(s[|s| - 1]);
      if k in keys then keys else keys + [k]
  }

  /** The grouped object after the records of s: each record appended to its day's group, opened when missing. */
  function GroupsOf(s: seq<Expense>): map<DayKey, seq<Expense>> {
    if s == [] then map[]
    else
      var g, x := GroupsOf(s[..|s| - 1]), s[|s| - 1];
      g[DayOf(x) := (if DayOf(x) in g then g[DayOf(x)] else []) + [x]]
  }

  /** The groups concatenated in key order. */
  function Flatten(keys: seq<DayKey>, groups: map<DayKey, seq<Expense>>): seq<Expense> {
    if keys == [] then []
    else
      var k := keys[|keys| - 1];
      Flatten(keys[..|keys| - 1], groups) + (if k in groups then groups[k] else [])
  }

  predicate Distinct<T(==)>(s: seq<T>) {
    forall i, j :: 0 <= i < j < |s| ==> s[i] != s[j]
  }

  /** Records that share a day stand next to each other. */
  predicate DayContiguous(s: seq<Expense>) {
    forall i, j, l :: 0 <= i < j < l < |s| && DayOf(s[i]) == DayOf(s[l]) ==> DayOf(s[j]) == DayOf(s[i])
  }

  lemma ContiguousPrefix(s: seq<Expense>)
    requires s != [] && DayContiguous(s)
    ensures DayContiguous(s[..|s| - 1])
  {
    var p := s[..|s| - 1];
    forall i, j, l | 0 <= i < j < l < |p| && DayOf(p[i]) == DayOf(p[l]) ensures DayOf(p[j]) == DayOf(p[i]) {
      assert p[i] == s[i] && p[j] == s[j] && p[l] == s[l];
    }
  }

  /** The index of the first record of s on day k, or |s| if there is none. */
  function FirstIndex(s: seq<Expense>, k: DayKey): (n: nat)
    ensures n <= |s|
    ensures n < |s| ==> DayOf(s[n]) == k
    ensures forall i :: 0 <= i < n && i < |s| ==> DayOf(s[i]) != k
  {
    if s == [] then 0
    else
      var p := FirstIndex(s[..|s| - 1], k);
      if p < |s| - 1 then p else if DayOf(s[|s| - 1]) == k then |s| - 1 else |s|
  }

  // ----- the keys -----

  /** A day is a key exactly when some record falls on it. */
  lemma {:induction false} FirstSeenMembers(s: seq<Expense>, k: DayKey)
    ensures k in FirstSeen(s) <==> FirstIndex(s, k) < |s|
  {
    if s != [] {
      FirstSeenMembers(s[..|s| - 1], k);
    }
  }

  /** No day is a key twice. */
  lemma {:induction false} FirstSeenDistinct(s: seq<Expense>)
    ensures Distinct(FirstSeen(s))
  {
    if s != [] {
      FirstSeenDistinct(s[..|s| - 1]);
    }
  }

  lemma FirstIndexOfPrefix(s: seq<Expense>, k: DayKey)
    requires s != [] && FirstIndex(s[..|s| - 1], k) < |s| - 1
    ensures FirstIndex(s, k) == FirstIndex(s[..|s| - 1], k)
  {
  }

  /** The keys come in the order in which their days first appear in s. */
  lemma {:induction false} FirstSeenOrder(s: seq<Expense>, a: int, b: int)
    requires 0 <= a < b < |FirstSeen(s)|
    ensures FirstIndex(s, FirstSeen(s)[a]) < FirstIndex(s, FirstSeen(s)[b]) < |s|
  {
    var p := s[..|s| - 1];
    var keys := FirstSeen(p);
    FirstSeenMembers(p, FirstSeen(s)[a]);
    FirstSeenMembers(s, FirstSeen(s)[b]);
    if b < |keys| {
      FirstSeenOrder(p, a, b);
      FirstSeenMembers(p, FirstSeen(s)[b]);
      FirstIndexOfPrefix(s, FirstSeen(s)[a]);
      FirstIndexOfPrefix(s, FirstSeen(s)[b]);
    } else {
      FirstSeenMembers(p, FirstSeen(s)[b]);
      FirstIndexOfPrefix(s, FirstSeen(s)[a]);
    }
  }

  // ----- the groups -----

  /** A day with no record has an empty group. */
  lemma {:induction false} NoRecordsOffDay(s: seq<Expense>, k: DayKey)
    requires FirstIndex(s, k) == |s|
    ensures Keep(s, OnDay(k)) == []
  {
    if s != [] {
      NoRecordsOffDay(s[..|s| - 1], k);
    }
  }

  /** The groups are keyed by exactly the days of the keys, and each holds exactly the records of s on its day, in order. */
  lemma {:induction false} GroupsSelectDays(s: seq<Expense>, k: DayKey)
    ensures k in GroupsOf(s) <==> k in FirstSeen(s)
    ensures k in GroupsOf(s) ==> GroupsOf(s)[k] == Keep(s, OnDay(k))
  {
    if s != [] {
      var p := s[..|s| - 1];
      GroupsSelectDays(p, k);
      if k !in GroupsOf(p) {
        FirstSeenMembers(p, k);
        NoRecordsOffDay(p, k);
      }
    }
  }

  // ----- flattening -----

  /** Changing the group of a day that is not a key does not change the flattening. */
  lemma {:induction false} FlattenIgnoresOtherDays(keys: seq<DayKey>, g: map<DayKey, seq<Expense>>, k: DayKey, v: seq<Expense>)
    requires k !in keys
    ensures Flatten(keys, g[k := v]) == Flatten(keys, g)
  {
    if keys != [] {
      FlattenIgnoresOtherDays(keys[..|keys| - 1], g, k, v);
    }
  }

  /** A record on a new day opens a group at the end of the flattening. */
  lemma FlattenNewDay(keys: seq<DayKey>, g: map<DayKey, seq<Expense>>, k: DayKey, x: Expense)
    requires k !in keys
    ensures Flatten(keys + [k], g[k := (if k in g then g[k] else []) + [x]])
         == Flatten(keys, g) + (if k in g then g[k] else []) + [x]
  {
    var v := (if k in g then g[k] else []) + [x];
    assert (keys + [k])[..|keys|] == keys;
    FlattenIgnoresOtherDays(keys, g, k, v);
  }

  /** Adding a record to one group of distinct keys adds it once to the flattening. */
  lemma {:induction false} FlattenAddToGroup(keys: seq<DayKey>, g: map<DayKey, seq<Expense>>, k: DayKey, x: Expense)
    requires Distinct(keys) && k in keys && k in g
    ensures multiset(Flatten(keys, g[k := g[k] + [x]])) == multiset(Flatten(keys, g)) + multiset{x}
  {
    var init, last := keys[..|keys| - 1], keys[|keys| - 1];
    var h := g[k := g[k] + [x]];
    if last == k {
      assert k !in init;
      FlattenIgnoresOtherDays(init, g, k, g[k] + [x]);
    } else {
      FlattenAddToGroup(init, g, k, x);
    }
  }

  /** How one more record changes the flattening: it joins its day's group, or opens a group at the end. */
  lemma FlattenSnoc(s: seq<Expense>)
    requires s != []
    ensures var p, x := s[..|s| - 1], s[|s| - 1];
            var keys, g, k := FirstSeen(p), GroupsOf(p), DayOf(x);
            && (k in keys ==> k in g && Flatten(FirstSeen(s), GroupsOf(s)) == Flatten(keys, g[k := g[k] + [x]]))
            && (k !in keys ==> Flatten(FirstSeen(s), GroupsOf(s)) == Flatten(keys, g) + [x])
  {
    var p, x := s[..|s| - 1], s[|s| - 1];
    var keys, g, k := FirstSeen(p), GroupsOf(p), DayOf(x);
    GroupsSelectDays(p, k);
    if k in keys {
      assert k in g;
      assert FirstSeen(s) == keys;
    } else {
      assert k !in g;
      assert FirstSeen(s) == keys + [k];
      FlattenNewDay(keys, g, k, x);
    }
  }

  /** Adding a record to the group of the last key appends it to the flattening. */
  lemma FlattenAddToLastGroup(keys: seq<DayKey>, g: map<DayKey, seq<Expense>>, x: Expense)
    requires Distinct(keys) && keys != [] && keys[|keys| - 1] in g
    ensures var k := keys[|keys| - 1];
            Flatten(keys, g[k := g[k] + [x]]) == Flatten(keys, g) + [x]
  {
    var init, k := keys[..|keys| - 1], keys[|keys| - 1];
    assert k !in init;
    FlattenIgnoresOtherDays(init, g, k, g[k] + [x]);
  }

  /** The groups hold every record exactly once: flattening them gives a permutation of the input. */
  lemma {:induction false} FlattenPermutes(s: seq<Expense>)
    ensures multiset(Flatten(FirstSeen(s), GroupsOf(s))) == multiset(s)
  {
    if s != [] {
      var p, x := s[..|s| - 1], s[|s| - 1];
      var keys, g, k := FirstSeen(p), GroupsOf(p), DayOf(x);
      FlattenPermutes(p);
      FlattenSnoc(s);
      assert s == p + [x];
      if k in keys {
        FirstSeenDistinct(p);
        FlattenAddToGroup(keys, g, k, x);
      }
    }
  }

  /** With records of a day side by side, the last key is the day of the last record. */
  lemma {:induction false} LastKeyIsLastDay(s: seq<Expense>)
    requires s != [] && DayContiguous(s)
    ensures FirstSeen(s) != [] && FirstSeen(s)[|FirstSeen(s)| - 1] == DayOf(s[|s| - 1])
  {
    var p, x := s[..|s| - 1], s[|s| - 1];
    if DayOf(x) in FirstSeen(p) {
      FirstSeenMembers(p, DayOf(x));
      var i := FirstIndex(p, DayOf(x));
      ContiguousPrefix(s);
      LastKeyIsLastDay(p);
      if i < |p| - 1 {
        assert DayOf(s[i]) == DayOf(s[|s| - 1]);
      }
    }
  }

  lemma RoundTripStep(keys: seq<DayKey>, g: map<DayKey, seq<Expense>>, p: seq<Expense>, x: Expense, k: DayKey, lhs: seq<Expense>)
    requires Flatten(keys, g) == p && Distinct(keys)
    requires k in keys ==> keys[|keys| - 1] == k && k in g && lhs == Flatten(keys, g[k := g[k] + [x]])
    requires k !in keys ==> lhs == Flatten(keys, g) + [x]
    ensures lhs == p + [x]
  {
    if k in keys {
      FlattenAddToLastGroup(keys, g, x);
    }
  }

  /** One more record keeps the round trip when it joins the last group or opens a new one. */
  lemma RoundTripSnoc(s: seq<Expense>)
    requires s != []
    requires var p := s[..|s| - 1]; Flatten(FirstSeen(p), GroupsOf(p)) == p
    requires var keys := FirstSeen(s[..|s| - 1]);
             DayOf(s[|s| - 1]) in keys ==> keys[|keys| - 1] == DayOf(s[|s| - 1])
    ensures Flatten(FirstSeen(s), GroupsOf(s)) == s
  {
    var p, x := s[..|s| - 1], s[|s| - 1];
    FlattenSnoc(s);
    FirstSeenDistinct(p);
    RoundTripStep(FirstSeen(p), GroupsOf(p), p, x, DayOf(x), Flatten(FirstSeen(s), GroupsOf(s)));
    assert s == p + [x];
  }

  /** When the records of each day stand side by side, flattening the groups gives back the input exactly. */
  lemma {:induction false} FlattenRoundTrip(s: seq<Expense>)
    requires DayContiguous(s)
    ensures Flatten(FirstSeen(s), GroupsOf(s)) == s
  {
    if s != [] {
      ContiguousPrefix(s);
      FlattenRoundTrip(s[..|s| - 1]);
      if DayOf(s[|s| - 1]) in FirstSeen(s[..|s| - 1]) {
        LastDayJoinsLastGroup(s);
      }
      RoundTripSnoc(s);
    }
  }

  /** With records of a day side by side, a record whose day is already a key belongs to the last key. */
  lemma LastDayJoinsLastGroup(s: seq<Expense>)
    requires s != [] && DayContiguous(s)
    requires DayOf(s[|s| - 1]) in FirstSeen(s[..|s| - 1])
    ensures var keys := FirstSeen(s[..|s| - 1]);
            keys != [] && keys[|keys| - 1] == DayOf(s[|s| - 1])
  {
    var p, k := s[..|s| - 1], DayOf(s[|s| - 1]);
    FirstSeenMembers(p, k);
    var i := FirstIndex(p, k);
    if i < |p| - 1 {
      assert DayOf(s[i]) == DayOf(s[|s| - 1]);
      assert DayOf(s[|p| - 1]) == DayOf(s[i]);
    }
    ContiguousPrefix(s);
    LastKeyIsLastDay(p);
  }

  /**
   * groupByDate: one pass over the records, opening a group the first time a
   * day is seen and appending each record to its day's group.
   */
  method GroupByDate(data: seq<Expense>) returns (keys: seq<DayKey>, grouped: map<DayKey, seq<Expense>>)
    ensures keys == FirstSeen(data) && grouped == GroupsOf(data)
    ensures Distinct(keys) && grouped.Keys == set k | k in keys
    ensures forall k :: k in grouped ==> grouped[k] == Keep(data, OnDay(k))
    ensures multiset(Flatten(keys, grouped)) == multiset(data)
    ensures DayContiguous(data) ==> Flatten(keys, grouped) == data
  {
    keys, grouped := [], map[];
    for i := 0 to |data|
      invariant keys == FirstSeen(data[..i])
      invariant grouped == GroupsOf(data[..i])
    {
      var exp := data[i];
      var d := DayOf(exp);
      assert data[..i + 1][..i] == data[..i];
      GroupsSelectDays(data[..i], d);
      if d !in grouped {
        grouped := grouped[d := []];
        keys := keys + [d];
      }
      grouped := grouped[d := grouped[d] + [exp]];
    }
    assert data[..|data|] == data;
    forall k {
      GroupsSelectDays(data, k);
    }
    FirstSeenDistinct(data);
    FlattenPermutes(data);
    if DayContiguous(data) {
      FlattenRoundTrip(data);
    }
  }
}

/**
 * The expense record and the selections the Home screen makes from a list of
 * records: by category, by note text, by calendar day and by sort key.
 */
module Expenses {
  import opened Calendar
  import opened Text

  /** One stored expense: { id, amount, category, note, date }. */
  datatype Expense = Expense(id: string, amount: real, category: string, note: string, date: LocalTime)

  /** The sort key of `latest`: new Date(e.date), compared as an instant. */
  function DateKey(e: Expense): real {
    Instant(e.date) as real
  }

  /** The sort key of `highest`: e.amount. */
  function AmountKey(e: Expense): real {
    e.amount
  }

  /** A condition on one record. */
  datatype Criterion =
    | InCategory(category: string)   // e.category === filterCategory
    | NoteIncludes(query: string)    // e.note.toLowerCase().includes(search.toLowerCase())
    | OnDay(day: DayKey)             // new Date(e.date).toDateString() names this day
    | KeyIs(key: Expense -> real, value: real)

  predicate Holds(c: Criterion, e: Expense) {
    match c
    case InCategory(cat) => e.category == cat
    case NoteIncludes(q) => Contains(Lower(e.note), Lower(q))
    case OnDay(k) => DayKeyOf(e.date) == k
    case KeyIs(key, v) => key(e) == v
  }

  /** r is obtained from s by deleting elements, keeping the order of the rest. */
  predicate IsSubsequence<T(==)>(r: seq<T>, s: seq<T>)
    decreases |s|
  {
    || r == []
    || (s != [] && r[|r| - 1] == s[|s| - 1] && IsSubsequence(r[..|r| - 1], s[..|s| - 1]))
    || (s != [] && IsSubsequence(r, s[..|s| - 1]))
  }

  /** Array.prototype.filter: the records of s that satisfy c, in their order in s. */
  function Keep(s: seq<Expense>, c: Criterion): seq<Expense> {
    if s == [] then []
    else Keep(s[..|s| - 1], c) + (if Holds(c, s[|s| - 1]) then [s[|s| - 1]] else [])
  }

  /** Keep(s, c) is a subsequence of s. */
  lemma {:induction false} KeepIsSubsequence(s: seq<Expense>, c: Criterion)
    ensures IsSubsequence(Keep(s, c), s)
  {
    if s != [] {
      var init := s[..|s| - 1];
      KeepIsSubsequence(init, c);
      var r := Keep(s, c);
      if Holds(c, s[|s| - 1]) {
        assert r[..|r| - 1] == Keep(init, c) && r[|r| - 1] == s[|s| - 1];
      } else {
        assert r == Keep(init, c);
      }
    }
  }

  /** Keep(s, c) holds every record of s that satisfies c, as often as s does, and nothing else. */
  lemma {:induction false} KeepCounts(s: seq<Expense>, c: Criterion)
    ensures forall e :: multiset(Keep(s, c))[e] == if Holds(c, e) then multiset(s)[e] else 0
  {
    if s != [] {
      var init, last := s[..|s| - 1], s[|s| - 1];
      KeepCounts(init, c);
      assert s == init + [last];
    }
  }

  /** A record is kept exactly when it is in s and satisfies c. */
  lemma KeepMembers(s: seq<Expense>, c: Criterion)
    ensures forall e :: e in Keep(s, c) <==> e in s && Holds(c, e)
  {
    KeepCounts(s, c);
    forall e ensures e in Keep(s, c) <==> e in s && Holds(c, e) {
      assert e in Keep(s, c) <==> multiset(Keep(s, c))[e] > 0;
      assert e in s <==> multiset(s)[e] > 0;
    }
  }

  lemma {:induction false} KeepAppend(a: seq<Expense>, b: seq<Expense>, c: Criterion)
    ensures Keep(a + b, c) == Keep(a, c) + Keep(b, c)
    decreases |b|
  {
    if b == [] {
      assert a + b == a;
    } else {
      var init := b[..|b| - 1];
      assert (a + b)[..|a + b| - 1] == a + init;
      KeepAppend(a, init, c);
    }
  }

  /** When every record satisfies c, nothing is removed. */
  lemma {:induction false} KeepAll(s: seq<Expense>, c: Criterion)
    requires forall e :: e in s ==> Holds(c, e)
    ensures Keep(s, c) == s
  {
    if s != [] {
      KeepAll(s[..|s| - 1], c);
    }
  }

  /** Filtering twice by the same condition is filtering once. */
  lemma KeepIdempotent(s: seq<Expense>, c: Criterion)
    ensures Keep(Keep(s, c), c) == Keep(s, c)
  {
    KeepMembers(s, c);
    KeepAll(Keep(s, c), c);
  }

  /** Filters by two conditions commute. */
  lemma {:induction false} KeepCommutes(s: seq<Expense>, c: Criterion, d: Criterion)
    ensures Keep(Keep(s, c), d) == Keep(Keep(s, d), c)
  {
    if s != [] {
      var init, last := s[..|s| - 1], s[|s| - 1];
      KeepCommutes(init, c, d);
      KeepAppend(Keep(init, c), if Holds(c, last) then [last] else [], d);
      KeepAppend(Keep(init, d), if Holds(d, last) then [last] else [], c);
    }
  }
}

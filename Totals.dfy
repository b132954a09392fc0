/**
 * The today / this week / this month totals that loadExpenses accumulates over
 * the stored expense list.
 */
module Totals {
  import opened Calendar
  import opened Expenses

  datatype Window = Today | ThisWeek | ThisMonth

  /** The classifier that decides whether a record counts in a window. */
  predicate InWindow(w: Window, d: LocalTime, now: LocalTime) {
    match w
    case Today => IsToday(d, now)
    case ThisWeek => IsThisWeek(d, now)
    case ThisMonth => IsThisMonth(d, now)
  }

  /** The sum of the amounts of the records of s whose date the window's classifier accepts. */
  function SumIn(s: seq<Expense>, w: Window, now: LocalTime): real {
    if s == [] then 0.0
    else
      var last := s[|s| - 1];
      SumIn(s[..|s| - 1], w, now) + (if InWindow(w, last.date, now) then last.amount else 0.0)
  }

  datatype Totals = Totals(today: real, week: real, month: real)

  /** The forEach loop of loadExpenses: one pass that adds each amount to every bucket whose classifier accepts it. */
  method ComputeTotals(data: seq<Expense>, now: LocalTime) returns (totals: Totals)
    ensures totals.today == SumIn(data, Today, now)
    ensures totals.week == SumIn(data, ThisWeek, now)
    ensures totals.month == SumIn(data, ThisMonth, now)
    ensures data == [] ==> totals == Totals(0.0, 0.0, 0.0)
  {
    var today, week, month := 0.0, 0.0, 0.0;
    for i := 0 to |data|
      invariant today == SumIn(data[..i], Today, now)
      invariant week == SumIn(data[..i], ThisWeek, now)
      invariant month == SumIn(data[..i], ThisMonth, now)
    {
      var exp := data[i];
      assert data[..i + 1][..i] == data[..i];
      if IsToday(exp.date, now) {
        today := today + exp.amount;
      }
      if IsThisWeek(exp.date, now) {
        week := week + exp.amount;
      }
      if IsThisMonth(exp.date, now) {
        month := month + exp.amount;
      }
    }
    assert data[..|data|] == data;
    totals := Totals(today, week, month);
  }

  lemma {:induction false} SumInAppend(a: seq<Expense>, b: seq<Expense>, w: Window, now: LocalTime)
    ensures SumIn(a + b, w, now) == SumIn(a, w, now) + SumIn(b, w, now)
    decreases |b|
  {
    if b == [] {
      assert a + b == a;
    } else {
      assert (a + b)[..|a + b| - 1] == a + b[..|b| - 1];
      SumInAppend(a, b[..|b| - 1], w, now);
    }
  }

  /** Taking out the record at index j takes out exactly its share of the sum. */
  lemma SumInRemove(b: seq<Expense>, j: int, w: Window, now: LocalTime)
    requires 0 <= j < |b|
    ensures SumIn(b, w, now) == SumIn(b[..j] + b[j + 1..], w, now) + SumIn([b[j]], w, now)
  {
    assert b == b[..j] + [b[j]] + b[j + 1..];
    SumInAppend(b[..j] + [b[j]], b[j + 1..], w, now);
    SumInAppend(b[..j], [b[j]], w, now);
    SumInAppend(b[..j], b[j + 1..], w, now);
  }

  lemma MultisetRemove<T>(a: seq<T>, b: seq<T>, j: int)
    requires a != [] && 0 <= j < |b| && b[j] == a[|a| - 1]
    requires multiset(a) == multiset(b)
    ensures multiset(a[..|a| - 1]) == multiset(b[..j] + b[j + 1..])
  {
    var x := b[j];
    assert a == a[..|a| - 1] + [x];
    assert b == b[..j] + [x] + b[j + 1..];
    calc {
      multiset(b[..j] + b[j + 1..]);
      multiset(b[..j]) + multiset(b[j + 1..]);
      multiset(b) - multiset{x};
      multiset(a) - multiset{x};
      multiset(a[..|a| - 1]);
    }
  }

  /** A bucket does not depend on the order of the list: any permutation gives the same sum. */
  lemma {:induction false} SumInPermutation(a: seq<Expense>, b: seq<Expense>, w: Window, now: LocalTime)
    requires multiset(a) == multiset(b)
    ensures SumIn(a, w, now) == SumIn(b, w, now)
    decreases |a|
  {
    if a == [] {
      assert |b| == |multiset(b)| == 0;
    } else {
      var init, x := a[..|a| - 1], a[|a| - 1];
      assert x in multiset(b) by {
        assert x in multiset(a);
      }
      var j :| 0 <= j < |b| && b[j] == x;
      MultisetRemove(a, b, j);
      SumInPermutation(init, b[..j] + b[j + 1..], w, now);
      SumInRemove(b, j, w, now);
      assert SumIn(a, w, now) == SumIn(init, w, now) + SumIn([x], w, now) by {
        assert [x][..0] == [];
      }
    }
  }

  predicate AllPositive(s: seq<Expense>) {
    forall i :: 0 <= i < |s| ==> s[i].amount > 0.0
  }

  /**
   * With positive amounts (which saving an expense guarantees) every bucket is
   * non-negative and today's total is at most this week's and this month's.
   */
  lemma {:induction false} TodayAtMostWeekAndMonth(s: seq<Expense>, now: LocalTime)
    requires AllPositive(s)
    ensures 0.0 <= SumIn(s, Today, now) <= SumIn(s, ThisWeek, now)
    ensures SumIn(s, Today, now) <= SumIn(s, ThisMonth, now)
  {
    if s != [] {
      var last := s[|s| - 1];
      TodayAtMostWeekAndMonth(s[..|s| - 1], now);
      if IsToday(last.date, now) {
        TodayIsThisWeekAndMonth(last.date, now);
      }
    }
  }
}

/**
 * The Home screen: loadExpenses (the stored lists and the three totals) and the
 * list it shows, the stored records filtered, sorted and grouped by day.
 */
module Home {
  import opened Wrappers
  import opened Text
  import opened Calendar
  import opened Expenses
  import opened Totals
  import opened Filters
  import opened Sorting
  import opened Grouping
  import opened Storage

  predicate AllDatesValid(s: seq<Expense>) {
    forall e :: e in s ==> ValidDate(e.date)
  }

  /** The sequence the Home screen groups: the filters, then the sort. */
  function Pipeline(s: seq<Expense>, filterCategory: string, search: string, sortMode: string): seq<Expense> {
    SortView(ApplyFilters(s, filterCategory, search), sortMode)
  }

  /** Newest first puts the records of one calendar day side by side. */
  lemma LatestIsDayContiguous(s: seq<Expense>)
    requires AllDatesValid(s) && SortedDesc(s, DateKey)
    ensures DayContiguous(s)
  {
    forall i, j, l | 0 <= i < j < l < |s| && DayOf(s[i]) == DayOf(s[l]) ensures DayOf(s[j]) == DayOf(s[i]) {
      assert DateKey(s[i]) >= DateKey(s[j]) >= DateKey(s[l]);
      InstantOrdersDays(s[j].date, s[i].date);
      InstantOrdersDays(s[l].date, s[j].date);
      assert DayNumber(s[i].date) == DayNumber(s[l].date);
      assert s[i] in s && s[j] in s;
      DayNumberInjective(s[i].date, s[j].date);
    }
  }

  /** Filtering and sorting keep only records of the input, so valid dates stay valid. */
  lemma PipelineKeepsRecords(s: seq<Expense>, filterCategory: string, search: string, sortMode: string)
    ensures forall e :: e in Pipeline(s, filterCategory, search, sortMode) ==> e in s
    ensures multiset(Pipeline(s, filterCategory, search, sortMode)) == multiset(ApplyFilters(s, filterCategory, search))
  {
    var a := ApplyFilters(s, filterCategory, search);
    var v := SortView(a, sortMode);
    FiltersSelect(s, filterCategory, search);
    SortViewPermutes(a, sortMode);
    forall e | e in v ensures e in s {
      assert e in multiset(v);
    }
  }

  /** With `latest`, flattening the day groups gives back the sorted, filtered list exactly. */
  lemma LatestGroupsRoundTrip(s: seq<Expense>, filterCategory: string, search: string)
    requires AllDatesValid(s)
    ensures var v := Pipeline(s, filterCategory, search, "latest");
            Flatten(FirstSeen(v), GroupsOf(v)) == v
  {
    var v := Pipeline(s, filterCategory, search, "latest");
    PipelineKeepsRecords(s, filterCategory, search, "latest");
    SortSorts(ApplyFilters(s, filterCategory, search), DateKey);
    LatestIsDayContiguous(v);
    FlattenRoundTrip(v);
  }

  /** Two records on different days open one group each, in order. */
  lemma TwoDaysTwoGroups(a: Expense, b: Expense)
    requires DayOf(a) != DayOf(b)
    ensures FirstSeen([a, b]) == [DayOf(a), DayOf(b)]
    ensures var g := GroupsOf([a, b]);
            DayOf(a) in g && DayOf(b) in g && g[DayOf(a)] == [a] && g[DayOf(b)] == [b]
  {
    assert [a, b][..1] == [a] && [a][..0] == [];
    assert FirstSeen([a]) == [DayOf(a)];
    assert GroupsOf([]) == map[];
    var g1 := GroupsOf([a]);
    assert g1.Keys == {DayOf(a)} && g1[DayOf(a)] == [a];
  }

  /** Three records where the first and last share a day come out of grouping with the last moved up to the first. */
  lemma GroupsPullDayTogether(a: Expense, b: Expense, c: Expense)
    requires DayOf(a) == DayOf(c) && DayOf(a) != DayOf(b)
    ensures FirstSeen([a, b, c]) == [DayOf(a), DayOf(b)]
    ensures Flatten(FirstSeen([a, b, c]), GroupsOf([a, b, c])) == [a, c, b]
  {
    TwoDaysTwoGroups(a, b);
    assert [a, b, c][..2] == [a, b];
    var g := GroupsOf([a, b, c]);
    assert g[DayOf(a)] == [a, c] && g[DayOf(b)] == [b];
    assert [DayOf(a), DayOf(b)][..1] == [DayOf(a)] && [DayOf(a)][..0] == [];
    assert Flatten([DayOf(a)], g) == [a, c];
  }

  /** The stable sort of three records whose keys are already in order but for the last, which moves up one place. */
  lemma SortMovesLastUp(a: Expense, c: Expense, b: Expense, key: Expense -> real)
    requires key(a) >= key(b) > key(c)
    ensures StableSort([a, c, b], key) == [a, b, c]
  {
    assert [a, c, b][..2] == [a, c] && [a, c][..1] == [a] && [a][..0] == [];
    assert StableSort([a], key) == [a];
    assert StableSort([a, c], key) == [a, c];
    assert Insert([a], b, key) == [a, b];
  }

  /**
   * With `highest`, the groups can show the records out of amount order: a day's
   * later, smaller record is pulled up into that day's group, ahead of a larger
   * record of another day.
   */
  lemma HighestGroupsReorder()
    ensures var a := Expense("1", 10.0, "Food", "", LocalTime(2024, 0, 1, 0));
            var c := Expense("2", 5.0, "Food", "", LocalTime(2024, 0, 1, 3_600_000));
            var b := Expense("3", 7.0, "Food", "", LocalTime(2024, 0, 2, 0));
            var v := Pipeline([a, c, b], "", "", "highest");
            && v == [a, b, c]
            && Flatten(FirstSeen(v), GroupsOf(v)) == [a, c, b]
            && !SortedDesc(Flatten(FirstSeen(v), GroupsOf(v)), AmountKey)
  {
    var a := Expense("1", 10.0, "Food", "", LocalTime(2024, 0, 1, 0));
    var c := Expense("2", 5.0, "Food", "", LocalTime(2024, 0, 1, 3_600_000));
    var b := Expense("3", 7.0, "Food", "", LocalTime(2024, 0, 2, 0));
    assert Trim("") == "";
    SortMovesLastUp(a, c, b, AmountKey);
    GroupsPullDayTogether(a, b, c);
    assert [a, c, b][1].amount < [a, c, b][2].amount;
  }

  /** A record saved at `now` counts in all three windows: each total grows by its amount. */
  lemma SavedRecordCounts(s: seq<Expense>, e: Expense, w: Window, now: LocalTime)
    requires e.date == now
    ensures SumIn(s + [e], w, now) == SumIn(s, w, now) + e.amount
  {
    assert (s + [e])[..|s|] == s;
    TodayIsThisWeekAndMonth(now, now);
  }

  /** Two records saved at `now`: each window totals their two amounts. */
  lemma TwoSavedTotals(x: Expense, y: Expense, w: Window, now: LocalTime)
    requires x.date == now && y.date == now
    ensures SumIn([x, y], w, now) == x.amount + y.amount
  {
    SavedRecordCounts([], x, w, now);
    SavedRecordCounts([x], y, w, now);
    assert [] + [x] == [x] && [x] + [y] == [x, y];
  }

  lemma LowerLunch()
    ensures Lower("LUN") == "lun" && Lower("lunch") == "lunch"
  {
    assert Lower("N") == "n";
    assert Lower("UN") == "un";
    LowerKeepsLowerCase("lunch");
  }

  /** Of two records, a criterion that holds for the first only keeps the first. */
  lemma KeepFirstOfTwo(x: Expense, y: Expense, c: Criterion)
    requires Holds(c, x) && !Holds(c, y)
    ensures Keep([x, y], c) == [x]
  {
    assert [x, y][..1] == [x] && [x][..0] == [];
    assert Keep([x], c) == [x];
  }

  lemma LunMatches(lunch: Expense, bus: Expense)
    requires lunch.note == "lunch" && bus.note == ""
    ensures Holds(NoteIncludes("LUN"), lunch) && !Holds(NoteIncludes("LUN"), bus)
  {
    LowerLunch();
    assert "lun" <= "lunch";
    assert Lower(bus.note) == [];
  }

  /** The search 'LUN' keeps a record noted 'lunch' and drops one with no note. */
  lemma SearchFindsLunch(lunch: Expense, bus: Expense)
    requires lunch.note == "lunch" && bus.note == ""
    ensures SearchByNote([lunch, bus], "LUN") == [lunch]
  {
    assert Trim("LUN") != "" by {
      assert !IsWhitespace("LUN"[0]);
    }
    LunMatches(lunch, bus);
    KeepFirstOfTwo(lunch, bus, NoteIncludes("LUN"));
  }

  /** The filter 'Food' keeps the Food record and drops the Transport one. */
  lemma CategoryFindsFood(lunch: Expense, bus: Expense)
    requires lunch.category == "Food" && bus.category == "Transport"
    ensures FilterByCategory([lunch, bus], "Food") == [lunch]
  {
    assert "Transport" != "Food" by {
      assert "Transport"[0] != "Food"[0];
    }
    KeepFirstOfTwo(lunch, bus, InCategory("Food"));
  }

  /** The two forms of the scenario below yield the records 19.99 Food 'lunch' and 5 Transport with no note. */
  lemma ScenarioForms(pf: string -> Option<real>, now: LocalTime)
    requires pf("19.99") == Some(19.99) && pf("5") == Some(5.0)
    ensures FormRecord("19.99", "Food", "lunch", "1", now, pf) == Ok(Expense("1", 19.99, "Food", "lunch", now))
    ensures FormRecord("5", "Transport", "", "2", now, pf) == Ok(Expense("2", 5.0, "Transport", "", now))
  {
    TrimLunch();
    assert ValidateAmount("19.99", "Food", pf) == Ok(19.99);
    assert ValidateAmount("5", "Transport", pf) == Ok(5.0);
  }

  lemma TrimLunch()
    ensures Trim("lunch") == "lunch" && Trim("") == ""
  {
    assert !IsWhitespace('l') && !IsWhitespace('h');
    assert TrimStart("lunch") == "lunch";
    assert TrimEnd("lunch") == "lunch";
  }

  /**
   * For the records 19.99 Food 'lunch' and 5 Transport with no note, both dated
   * now: every total is 24.99, the Food filter and the search 'LUN' each show
   * exactly the lunch record, and the two are what the forms of the scenario yield.
   */
  lemma LunchScenario(pf: string -> Option<real>, now: LocalTime)
    requires pf("19.99") == Some(19.99) && pf("5") == Some(5.0)
    ensures var lunch := Expense("1", 19.99, "Food", "lunch", now);
            var bus := Expense("2", 5.0, "Transport", "", now);
            && FormRecord("19.99", "Food", "lunch", "1", now, pf) == Ok(lunch)
            && FormRecord("5", "Transport", "", "2", now, pf) == Ok(bus)
            && SumIn([lunch, bus], Today, now) == 24.99
            && SumIn([lunch, bus], ThisWeek, now) == 24.99
            && SumIn([lunch, bus], ThisMonth, now) == 24.99
            && FilterByCategory([lunch, bus], "Food") == [lunch]
            && SearchByNote([lunch, bus], "LUN") == [lunch]
  {
    var lunch := Expense("1", 19.99, "Food", "lunch", now);
    var bus := Expense("2", 5.0, "Transport", "", now);
    ScenarioForms(pf, now);
    TwoSavedTotals(lunch, bus, Today, now);
    TwoSavedTotals(lunch, bus, ThisWeek, now);
    TwoSavedTotals(lunch, bus, ThisMonth, now);
    CategoryFindsFood(lunch, bus);
    SearchFindsLunch(lunch, bus);
  }

  lemma SingleAfterEmpty(x: Expense)
    ensures [] + [x] == [x]
  {
  }

  lemma PairOfSingles(x: Expense, y: Expense)
    ensures [x] + [y] == [x, y]
  {
  }

  /** The first save of the scenario yields the lunch record. */
  lemma LunchForm(r: Result<Expense, ValidationError>, pf: string -> Option<real>, now: LocalTime)
    requires pf("19.99") == Some(19.99) && pf("5") == Some(5.0)
    requires r == FormRecord("19.99", "Food", "lunch", "1", now, pf)
    ensures r == Ok(Expense("1", 19.99, "Food", "lunch", now))
  {
    ScenarioForms(pf, now);
  }

  /** The second save of the scenario yields the bus record. */
  lemma BusForm(r: Result<Expense, ValidationError>, amount: string, category: string, note: string,
                 pf: string -> Option<real>, now: LocalTime)
    requires pf("19.99") == Some(19.99) && pf("5") == Some(5.0)
    requires amount == "5" && category == "Transport" && note == ""
    requires r == FormRecord(amount, category, note, "2", now, pf)
    ensures r == Ok(Expense("2", 5.0, "Transport", "", now))
  {
    ScenarioForms(pf, now);
  }

  /** On a fresh install, the Add Expense screen saves 19.99 Food 'lunch' at now. */
  method SaveLunch(pf: string -> Option<real>, now: LocalTime) returns (store: Store, add: AddExpenseScreen)
    requires pf("19.99") == Some(19.99) && pf("5") == Some(5.0)
    ensures fresh(store) && fresh(add)
    ensures store.Valid() && store.LoadedExpenses() == [Expense("1", 19.99, "Food", "lunch", now)]
    ensures add.note == ""
  {
    store := new Store();
    add := new AddExpenseScreen();
    add.amount, add.category, add.note := "19.99", "Food", "lunch";
    var first := add.SaveExpense(store, "1", now, pf);
    LunchForm(first, pf, now);
    SingleAfterEmpty(first.value);
  }

  /** Then, with the note left empty by the first save, it saves 5 Transport at now. */
  method SaveLunchAndBus(pf: string -> Option<real>, now: LocalTime) returns (store: Store)
    requires pf("19.99") == Some(19.99) && pf("5") == Some(5.0)
    ensures store.Valid()
    ensures store.LoadedExpenses() == [Expense("1", 19.99, "Food", "lunch", now), Expense("2", 5.0, "Transport", "", now)]
  {
    var add;
    store, add := SaveLunch(pf, now);
    add.amount, add.category := "5", "Transport";
    ghost var amount, category, note := add.amount, add.category, add.note;
    var second := add.SaveExpense(store, "2", now, pf);
    BusForm(second, amount, category, note, pf, now);
    PairOfSingles(Expense("1", 19.99, "Food", "lunch", now), second.value);
  }

  /** What the Home screen shows once it has loaded the two saved records. */
  lemma SessionShows(stored: seq<Expense>, totals: Totals, pf: string -> Option<real>, now: LocalTime)
    requires pf("19.99") == Some(19.99) && pf("5") == Some(5.0)
    requires stored == [Expense("1", 19.99, "Food", "lunch", now), Expense("2", 5.0, "Transport", "", now)]
    requires totals == Totals(SumIn(stored, Today, now), SumIn(stored, ThisWeek, now), SumIn(stored, ThisMonth, now))
    ensures totals == Totals(24.99, 24.99, 24.99)
    ensures FilterByCategory(stored, "Food") == [stored[0]] && SearchByNote(stored, "LUN") == [stored[0]]
  {
    LunchScenario(pf, now);
  }

  /** The scenario end to end: the two saves, then the Home screen loading the store. */
  method LunchSession(pf: string -> Option<real>, now: LocalTime) returns (stored: seq<Expense>, totals: Totals)
    requires pf("19.99") == Some(19.99) && pf("5") == Some(5.0)
    ensures stored == [Expense("1", 19.99, "Food", "lunch", now), Expense("2", 5.0, "Transport", "", now)]
    ensures totals == Totals(24.99, 24.99, 24.99)
    ensures FilterByCategory(stored, "Food") == [stored[0]] && SearchByNote(stored, "LUN") == [stored[0]]
  {
    var store := SaveLunchAndBus(pf, now);
    var home := new HomeScreen();
    home.LoadExpenses(store, now);
    stored, totals := home.expenses, home.totals;
    SessionShows(stored, totals, pf, now);
  }

  /** The in-place sort, applied to a fresh array holding the filtered records. */
  method SortedCopy(filtered: seq<Expense>, sortMode: string) returns (sorted: seq<Expense>)
    ensures sorted == SortView(filtered, sortMode)
  {
    var a := new Expense[|filtered|](i requires 0 <= i < |filtered| => filtered[i]);
    assert a[..] == filtered;
    SortExpenses(a, sortMode);
    sorted := a[..];
  }

  /** The Home screen's state: the loaded lists, the totals and the three view settings. */
  class HomeScreen {
    var expenses: seq<Expense>
    var totals: Totals
    var categories: seq<string>
    var filterCategory: string
    var sortMode: string
    var search: string

    constructor()
      ensures expenses == [] && totals == Totals(0.0, 0.0, 0.0) && categories == []
      ensures filterCategory == "" && sortMode == "latest" && search == ""
    {
      expenses, totals, categories := [], Totals(0.0, 0.0, 0.0), [];
      filterCategory, sortMode, search := "", "latest", "";
    }

    /** loadExpenses: reads both stored lists and totals the amounts per window. */
    method LoadExpenses(store: Store, now: LocalTime)
      modifies this
      ensures expenses == store.LoadedExpenses() && categories == store.LoadedCategories()
      ensures totals == Totals(SumIn(expenses, Today, now), SumIn(expenses, ThisWeek, now), SumIn(expenses, ThisMonth, now))
      ensures store.Valid() ==> 0.0 <= totals.today <= totals.week && totals.today <= totals.month
      ensures filterCategory == old(filterCategory) && sortMode == old(sortMode) && search == old(search)
    {
      var data := store.LoadedExpenses();
      expenses := data;
      categories := store.LoadedCategories();
      totals := ComputeTotals(data, now);
      if store.Valid() {
        TodayAtMostWeekAndMonth(data, now);
      }
    }

    /**
     * The list the screen shows: a copy of the records, filtered, sorted in place
     * and grouped by day; `keys` is the order of Object.entries.
     */
    method GroupedExpenses() returns (keys: seq<DayKey>, grouped: map<DayKey, seq<Expense>>)
      ensures var v := Pipeline(expenses, filterCategory, search, sortMode);
              keys == FirstSeen(v) && grouped == GroupsOf(v)
      ensures Distinct(keys)
      ensures forall k :: k in grouped ==> grouped[k] == Keep(Pipeline(expenses, filterCategory, search, sortMode), OnDay(k))
      ensures multiset(Flatten(keys, grouped)) == multiset(ApplyFilters(expenses, filterCategory, search))
      ensures sortMode == "latest" && AllDatesValid(expenses) ==>
                Flatten(keys, grouped) == Pipeline(expenses, filterCategory, search, sortMode)
    {
      var filtered := ApplyFilters(expenses, filterCategory, search);
      var sorted := SortedCopy(filtered, sortMode);
      keys, grouped := GroupByDate(sorted);
      PipelineKeepsRecords(expenses, filterCategory, search, sortMode);
      if sortMode == "latest" && AllDatesValid(expenses) {
        LatestGroupsRoundTrip(expenses, filterCategory, search);
      }
    }
  }
}

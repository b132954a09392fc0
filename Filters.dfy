/**
 * The two filters of the Home screen, applied in this order to a copy of the
 * expense list: the category filter and the note search.
 */
module Filters {
  import opened Text
  import opened Expenses

  /** `if (filterCategory)`: an empty filter string applies no filter; otherwise exact, case-sensitive match. */
  function FilterByCategory(s: seq<Expense>, filterCategory: string): seq<Expense> {
    if filterCategory != "" then Keep(s, InCategory(filterCategory)) else s
  }

  /**
   * `if (search.trim())`: a search that trims to empty applies no filter; otherwise
   * the lower-cased note must include the lower-cased, untrimmed search.
   */
  function SearchByNote(s: seq<Expense>, search: string): seq<Expense> {
    if Trim(search) != "" then Keep(s, NoteIncludes(search)) else s
  }

  /** The category filter, then the search. */
  function ApplyFilters(s: seq<Expense>, filterCategory: string, search: string): seq<Expense> {
    SearchByNote(FilterByCategory(s, filterCategory), search)
  }

  /** Two conditions that agree on every record select the same records. */
  lemma {:induction false} KeepSameCondition(s: seq<Expense>, c: Criterion, d: Criterion)
    requires forall e :: Holds(c, e) == Holds(d, e)
    ensures Keep(s, c) == Keep(s, d)
  {
    if s != [] {
      KeepSameCondition(s[..|s| - 1], c, d);
    }
  }

  /**
   * The category filter keeps, in order, exactly the records whose category equals
   * the filter string, as often as they occur; the empty filter keeps everything.
   */
  lemma CategoryFilterSelects(s: seq<Expense>, filterCategory: string)
    ensures IsSubsequence(FilterByCategory(s, filterCategory), s)
    ensures filterCategory == "" ==> FilterByCategory(s, filterCategory) == s
    ensures filterCategory != "" ==>
      forall e :: e in FilterByCategory(s, filterCategory) <==> e in s && e.category == filterCategory
    ensures filterCategory != "" ==>
      forall e :: multiset(FilterByCategory(s, filterCategory))[e] ==
                  if e.category == filterCategory then multiset(s)[e] else 0
  {
    if filterCategory != "" {
      KeepIsSubsequence(s, InCategory(filterCategory));
      KeepMembers(s, InCategory(filterCategory));
      KeepCounts(s, InCategory(filterCategory));
    } else {
      SubsequenceOfItself(s);
    }
  }

  lemma {:induction false} SubsequenceOfItself<T>(s: seq<T>)
    ensures IsSubsequence(s, s)
  {
    if s != [] {
      SubsequenceOfItself(s[..|s| - 1]);
    }
  }

  /**
   * The search keeps, in order, exactly the records whose lower-cased note includes
   * the lower-cased search; a record with an empty note never matches a search that
   * is not blank; a blank search keeps everything.
   */
  lemma SearchSelects(s: seq<Expense>, search: string)
    ensures IsSubsequence(SearchByNote(s, search), s)
    ensures AllWhitespace(search) ==> SearchByNote(s, search) == s
    ensures !AllWhitespace(search) ==>
      forall e :: e in SearchByNote(s, search) <==> e in s && Contains(Lower(e.note), Lower(search))
    ensures !AllWhitespace(search) ==>
      forall e :: multiset(SearchByNote(s, search))[e] ==
                  if Contains(Lower(e.note), Lower(search)) then multiset(s)[e] else 0
    ensures !AllWhitespace(search) ==> forall e :: e in SearchByNote(s, search) ==> e.note != ""
  {
    if !AllWhitespace(search) {
      KeepIsSubsequence(s, NoteIncludes(search));
      KeepMembers(s, NoteIncludes(search));
      KeepCounts(s, NoteIncludes(search));
      LowerPointwise(search);
      assert search != [];
      EmptyContainsOnlyEmpty(Lower(search));
      assert forall e: Expense :: e.note == "" ==> !Holds(NoteIncludes(search), e);
    } else {
      SubsequenceOfItself(s);
    }
  }

  /** The search ignores letter case: searching for "LUN" and for "lun" select the same records. */
  lemma SearchIgnoresCase(s: seq<Expense>, search: string)
    ensures SearchByNote(s, search) == SearchByNote(s, Lower(search))
  {
    LowerKeepsBlankness(search);
    LowerIdempotent(search);
    KeepSameCondition(s, NoteIncludes(search), NoteIncludes(Lower(search)));
  }

  /**
   * Only the blankness test trims the search; the match uses it as typed, so a
   * leading space in " lun" makes it miss the note "lunch".
   */
  lemma SearchIsNotTrimmed()
    ensures !Contains(Lower("lunch"), Lower(" lun"))
    ensures Contains(Lower("lunch"), Lower(Trim(" lun")))
  {
    LowerKeepsLowerCase(" lun");
    LowerKeepsLowerCase("lunch");
    LowerKeepsLowerCase("lun");
    LunchMissesSpacedLun();
    TrimSpacedLun();
    assert "lun" <= "lunch";
  }

  lemma LunchMissesSpacedLun()
    ensures !Contains("lunch", " lun")
  {
    assert ' ' !in "lunch";
    MissingFirstChar("lunch", " lun");
  }

  lemma TrimSpacedLun()
    ensures Trim(" lun") == "lun"
  {
    assert TrimStart(" lun") == "lun" by {
      assert !IsWhitespace('l');
      assert " lun"[1..] == "lun";
    }
    assert TrimEnd("lun") == "lun" by {
      assert !IsWhitespace('n');
    }
  }

  /** Applying the same category filter and search a second time changes nothing. */
  lemma FiltersIdempotent(s: seq<Expense>, filterCategory: string, search: string)
    ensures ApplyFilters(ApplyFilters(s, filterCategory, search), filterCategory, search)
         == ApplyFilters(s, filterCategory, search)
  {
    var c, q := InCategory(filterCategory), NoteIncludes(search);
    if filterCategory != "" && Trim(search) != "" {
      KeepCommutes(Keep(s, c), c, q);
      KeepIdempotent(s, c);
      KeepIdempotent(Keep(s, c), q);
      KeepCommutes(s, c, q);
      KeepIdempotent(Keep(s, q), c);
    } else if filterCategory != "" {
      KeepIdempotent(s, c);
    } else if Trim(search) != "" {
      KeepIdempotent(s, q);
    }
  }

  /** A record survives both filters exactly when it is in s, has the chosen category and its note matches the search. */
  lemma FiltersSelect(s: seq<Expense>, filterCategory: string, search: string)
    ensures forall e :: e in ApplyFilters(s, filterCategory, search) <==>
              && e in s
              && (filterCategory == "" || e.category == filterCategory)
              && (AllWhitespace(search) || Contains(Lower(e.note), Lower(search)))
  {
    var f := FilterByCategory(s, filterCategory);
    assert forall e :: e in f <==> e in s && (filterCategory == "" || e.category == filterCategory) by {
      if filterCategory != "" {
        KeepMembers(s, InCategory(filterCategory));
      }
    }
    var blank := AllWhitespace(search);
    assert Trim(search) != "" <==> !blank;
    assert forall e :: e in SearchByNote(f, search) <==> e in f && (blank || Holds(NoteIncludes(search), e)) by {
      if !blank {
        KeepMembers(f, NoteIncludes(search));
      }
    }
  }
}

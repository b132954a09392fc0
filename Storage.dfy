/**
 * The persisted state of the app and the screens that write it: the device's
 * key-value store under its keys 'expenses' and 'categories', the Add Expense
 * screen (saveExpense), and the Settings screen (addCategory and clearData).
 * A stored document is None when its key is absent; the JSON text itself is
 * not modelled, only the list it holds.
 */
module Storage {
  import opened Wrappers
  import opened Text
  import opened Calendar
  import opened Expenses
  import opened Totals

  /** The category list offered when none is stored. */
  const DefaultCategories: seq<string> := ["Food", "Transport", "Shopping", "Bills", "Other"]

  /** The alerts that reject user input before anything is written. */
  datatype ValidationError =
    | MissingAmountOrCategory   // 'Please enter amount and category'
    | InvalidAmount             // 'Enter a valid amount'
    | EmptyCategoryName         // 'Enter a valid category'

  /** A category list as the app writes it: not empty, and no name is blank. */
  predicate CategoryList(cats: seq<string>) {
    cats != [] && forall i :: 0 <= i < |cats| ==> !AllWhitespace(cats[i])
  }

  lemma DefaultCategoriesAreAList()
    ensures CategoryList(DefaultCategories)
  {
    forall i | 0 <= i < |DefaultCategories| ensures !AllWhitespace(DefaultCategories[i]) {
      assert !IsWhitespace(DefaultCategories[i][0]);
    }
  }

  /** Appending a record with a positive amount keeps every amount positive. */
  lemma AppendPositive(s: seq<Expense>, e: Expense)
    requires AllPositive(s) && e.amount > 0.0
    ensures AllPositive(s + [e])
  {
  }

  class Store {
    var expenses: Option<seq<Expense>>
    var categories: Option<seq<string>>

    /** What the app keeps true of the store: saved amounts are positive and the category list is well formed. */
    predicate Valid()
      reads this
    {
      && (expenses.Some? ==> AllPositive(expenses.value))
      && (categories.Some? ==> CategoryList(categories.value))
    }

    /** A fresh install: nothing stored under either key. */
    constructor()
      ensures expenses == None && categories == None
      ensures Valid()
    {
      expenses := None;
      categories := None;
    }

    /** `existing ? JSON.parse(existing) : []` on the 'expenses' key. */
    function LoadedExpenses(): (r: seq<Expense>)
      reads this
      ensures expenses == None ==> r == []
      ensures expenses.Some? ==> r == expenses.value
      ensures Valid() ==> AllPositive(r)
    {
      if expenses.Some? then expenses.value else []
    }

    /** `existing ? JSON.parse(existing) : [defaults]` on the 'categories' key. */
    function LoadedCategories(): (r: seq<string>)
      reads this
      ensures categories == None ==> r == DefaultCategories
      ensures categories.Some? ==> r == categories.value
      ensures Valid() ==> CategoryList(r)
    {
      DefaultCategoriesAreAList();
      if categories.Some? then categories.value else DefaultCategories
    }

    /** The write of saveExpense: the loaded list with e pushed, stored under 'expenses'. */
    method Push(e: Expense)
      modifies this
      ensures expenses == Some(old(LoadedExpenses()) + [e]) && categories == old(categories)
      ensures old(Valid()) && e.amount > 0.0 ==> Valid()
    {
      var list := LoadedExpenses();
      if Valid() && e.amount > 0.0 {
        AppendPositive(list, e);
      }
      list := list + [e];
      expenses := Some(list);
    }

    /** The write of addCategory: the whole list, stored under 'categories'. */
    method SetCategories(list: seq<string>)
      modifies this
      ensures categories == Some(list) && expenses == old(expenses)
      ensures old(Valid()) && CategoryList(list) ==> Valid()
    {
      categories := Some(list);
    }

    /** clearData, once confirmed: removes the 'expenses' key; the category list stays. */
    method RemoveExpenses()
      modifies this
      ensures expenses == None && categories == old(categories)
      ensures LoadedExpenses() == [] && LoadedCategories() == old(LoadedCategories())
      ensures old(Valid()) ==> Valid()
    {
      expenses := None;
    }
  }

  /**
   * The checks of saveExpense: the amount text and the category must be non-empty,
   * and parseFloat of the text must be a number greater than zero. parseFloat is a
   * parameter; None stands for NaN.
   */
  function ValidateAmount(amountText: string, category: string, parseFloat: string -> Option<real>): (r: Result<real, ValidationError>)
    ensures r.Ok? <==> amountText != "" && category != "" && parseFloat(amountText).Some? && parseFloat(amountText).value > 0.0
    ensures r.Ok? ==> r.value == parseFloat(amountText).value && r.value > 0.0
    ensures r == Err(MissingAmountOrCategory) <==> amountText == "" || category == ""
    ensures amountText != "" && category != "" && r.Err? ==> r.error == InvalidAmount
  {
    if amountText == "" || category == "" then Err(MissingAmountOrCategory)
    else
      var parsed := parseFloat(amountText);
      if parsed.None? || parsed.value <= 0.0 then Err(InvalidAmount)
      else Ok(parsed.value)
  }

  /**
   * The record saveExpense builds from the form, or the alert that rejects it: the
   * parsed amount, the chosen category, the trimmed note, the given id and time.
   */
  function FormRecord(amountText: string, category: string, note: string, id: string, now: LocalTime,
                      parseFloat: string -> Option<real>): (r: Result<Expense, ValidationError>)
    ensures r.Ok? <==> ValidateAmount(amountText, category, parseFloat).Ok?
    ensures r.Err? ==> r.error == ValidateAmount(amountText, category, parseFloat).error
    ensures r.Ok? ==> r.value.id == id && r.value.date == now && r.value.category == category
    ensures r.Ok? ==> r.value.amount == parseFloat(amountText).value && r.value.amount > 0.0
    ensures r.Ok? ==> r.value.note == Trim(note) && (r.value.note == [] <==> AllWhitespace(note))
  {
    var checked := ValidateAmount(amountText, category, parseFloat);
    if checked.Err? then Err(checked.error)
    else Ok(Expense(id, checked.value, category, Trim(note), now))
  }

  /** `data.length > 0 && !category`: the first category is preselected when none is chosen yet. */
  function InitialCategory(cats: seq<string>, category: string): (r: string)
    ensures category != "" ==> r == category
    ensures category == "" && cats != [] ==> r == cats[0]
    ensures r in cats + [category]
  {
    if |cats| > 0 && category == "" then cats[0] else category
  }

  /** With the categories loaded from a valid store, the preselected category is never blank. */
  lemma InitialCategoryIsNamed(store: Store, category: string)
    requires store.Valid()
    ensures InitialCategory(store.LoadedCategories(), category) != ""
    ensures category == "" ==> !AllWhitespace(InitialCategory(store.LoadedCategories(), category))
  {
    var cats := store.LoadedCategories();
    if category == "" {
      assert !AllWhitespace(cats[0]);
    }
  }

  /** The Add Expense screen: the three form fields and the category choices. */
  class AddExpenseScreen {
    var amount: string
    var category: string
    var note: string
    var categories: seq<string>

    constructor()
      ensures amount == "" && category == "" && note == "" && categories == []
    {
      amount, category, note, categories := "", "", "", [];
    }

    /**
     * loadCategories: reads the category list and preselects its first entry when
     * `seen`, the value of `category` in the closure that runs, is empty.
     */
    method LoadCategories(store: Store, seen: string)
      modifies this
      ensures categories == store.LoadedCategories()
      ensures category == (if categories != [] && seen == "" then categories[0] else old(category))
      ensures seen == old(category) ==> category == InitialCategory(categories, seen)
      ensures amount == old(amount) && note == old(note)
    {
      var data := store.LoadedCategories();
      categories := data;
      if |data| > 0 && seen == "" {
        category := data[0];
      }
    }

    /**
     * The focus effect. Its callback has no dependencies, so it keeps the
     * loadCategories of the first render, where `category` is still empty: every
     * focus preselects the first category again, replacing a choice made since.
     */
    method Focus(store: Store)
      modifies this
      ensures categories == store.LoadedCategories()
      ensures categories != [] ==> category == categories[0]
      ensures categories == [] ==> category == old(category)
      ensures store.Valid() ==> categories != [] && category == categories[0] && !AllWhitespace(category)
      ensures amount == old(amount) && note == old(note)
    {
      LoadCategories(store, "");
    }

    /**
     * saveExpense: validates the form; on success appends the new record, with the
     * given id and timestamp, the parsed amount and the trimmed note, to the stored
     * list and clears the amount and note fields.
     */
    method SaveExpense(store: Store, id: string, now: LocalTime, parseFloat: string -> Option<real>)
      returns (r: Result<Expense, ValidationError>)
      modifies this, store
      ensures r == FormRecord(old(amount), old(category), old(note), id, now, parseFloat)
      ensures r.Err? ==> unchanged(this) && unchanged(store)
      ensures r.Ok? ==> store.expenses == Some(old(store.LoadedExpenses()) + [r.value])
      ensures r.Ok? ==> amount == "" && note == "" && category == old(category) && categories == old(categories)
      ensures store.categories == old(store.categories)
      ensures old(store.Valid()) ==> store.Valid()
    {
      r := FormRecord(amount, category, note, id, now, parseFloat);
      if r.Err? {
        return;
      }
      var newExpense := r.value;
      store.Push(newExpense);
      amount, note := "", "";
    }
  }

  /** The category list after addCategory: the trimmed name appended, unless the name trims to empty. */
  function AddCategoryTo(categories: seq<string>, newCategory: string): (r: Result<seq<string>, ValidationError>)
    ensures r.Err? <==> AllWhitespace(newCategory)
    ensures r.Err? ==> r.error == EmptyCategoryName
    ensures r.Ok? ==> |r.value| == |categories| + 1 && r.value[..|categories|] == categories
    ensures r.Ok? ==> var name := r.value[|categories|];
                      name == Trim(newCategory) && !AllWhitespace(name) && Trim(name) == name
  {
    if Trim(newCategory) == "" then Err(EmptyCategoryName)
    else
      TrimIdempotent(newCategory);
      var name := Trim(newCategory);
      assert !AllWhitespace(name) by {
        assert !IsWhitespace(name[0]);
      }
      Ok(categories + [name])
  }

  /** Adding keeps a well-formed list well formed, and accepts a name already in the list: there is no duplicate check. */
  lemma AddCategoryKeepsList(categories: seq<string>, newCategory: string)
    requires (forall i :: 0 <= i < |categories| ==> !AllWhitespace(categories[i])) && !AllWhitespace(newCategory)
    ensures AddCategoryTo(categories, newCategory).Ok?
    ensures CategoryList(AddCategoryTo(categories, newCategory).value)
    ensures Trim(newCategory) in categories ==>
              multiset(AddCategoryTo(categories, newCategory).value)[Trim(newCategory)] >= 2
  {
    var r := AddCategoryTo(categories, newCategory).value;
    assert r == categories + [Trim(newCategory)];
    assert forall i :: 0 <= i < |categories| ==> r[i] == categories[i];
  }

  /** The Settings screen: the category list it shows. */
  class SettingsScreen {
    var categories: seq<string>

    /** Every name on screen is non-blank: it was loaded from the store or added through addCategory. */
    predicate Valid()
      reads this
    {
      forall i :: 0 <= i < |categories| ==> !AllWhitespace(categories[i])
    }

    constructor()
      ensures categories == [] && Valid()
    {
      categories := [];
    }

    method LoadCategories(store: Store)
      modifies this
      ensures categories == store.LoadedCategories()
      ensures store.Valid() ==> Valid()
    {
      categories := store.LoadedCategories();
    }

    /** addCategory: appends the trimmed name to the list on screen and stores the whole list. */
    method AddCategory(store: Store, newCategory: string) returns (r: Result<seq<string>, ValidationError>)
      modifies this, store
      ensures r == AddCategoryTo(old(categories), newCategory)
      ensures r.Err? ==> unchanged(this) && unchanged(store)
      ensures r.Ok? ==> categories == r.value && store.categories == Some(r.value)
      ensures r.Ok? ==> store.LoadedCategories() == old(categories) + [Trim(newCategory)]
      ensures store.expenses == old(store.expenses)
      ensures old(Valid()) && old(store.Valid()) ==> Valid() && store.Valid()
    {
      r := AddCategoryTo(categories, newCategory);
      if r.Err? {
        return;
      }
      var updated := r.value;
      assert updated == categories + [Trim(newCategory)];
      ghost var keeps := Valid();
      if keeps {
        AddCategoryKeepsList(categories, newCategory);
      }
      categories := updated;
      store.SetCategories(updated);
    }
  }
}

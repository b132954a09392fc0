# Expense tracker core, modelled in Dafny

This project models the logic of a single-file React Native expense tracker
(`App.js`). The app has three screens, and the model covers each of them:

- **Home.** `loadExpenses` reads the stored expense list and the category list.
  It adds every amount into three totals: today, this week and this month, each
  decided by the classifiers `isToday`, `isThisWeek` and `isThisMonth`. The
  screen then shows the list through a pipeline:
  - a category filter;
  - a case-insensitive note search;
  - an in-place sort, newest first (`latest`) or largest amount first (`highest`);
  - `groupByDate`, which collects the records into an object keyed by calendar
    day and is displayed through `Object.entries`.
- **Add Expense.** Each time the screen gains focus, `loadCategories` reloads the
  category list and preselects its first entry. The focus callback keeps the
  closure of the first render, in which no category is chosen yet, so a choice
  made before is replaced. `saveExpense` validates the form, then appends a new
  record to the stored list.
- **Settings.** `addCategory` appends a trimmed name to the category list and
  stores the whole list. `clearData` removes the stored expense list.

How each part is modelled:

- **Store and screens.** The device's key-value store is a class `Store` with one
  `Option` field per key (`expenses`, `categories`). `None` means the key is
  absent. Each screen whose state the source updates is a class with that
  state as fields.
- **Pure code.** The classifiers, the filters and the category-list update are
  functions.
- **Loops and in-place updates.** The totals loop, `groupByDate`, the in-place
  sort and the push in `saveExpense` are methods. Each is proved against a
  specification function, and the properties the app relies on are proved
  about those functions:
  - totals do not depend on record order, and with positive amounts
    today ≤ week and today ≤ month;
  - the filters select exactly the matching records and are idempotent;
  - the sort is a permutation, ordered and stable, and it is unique;
  - the day groups have distinct keys in first-seen order and together hold
    exactly the input records.
- **Timestamps.** A timestamp is what the local `Date` getters return: year,
  0-based month, day of month and the millisecond of the day. Day numbers are
  proleptic Gregorian, counted from 1970-01-01, and `getDay` is derived from
  them. A day key (year, month, date) stands in for `toDateString`.
- **Clock, id and parsing.** The clock (`new Date()`), the id
  (`Date.now().toString()`) and `parseFloat` are parameters.

Two details of the code matter here:

- **The search is not trimmed where it is matched.** `search.trim()` only decides
  whether the search applies. `includes` receives the untrimmed, lower-cased
  text, so `" lun"` does not match the note `"lunch"` (`Filters.SearchIsNotTrimmed`).
- **The groups give back the sorted list only for `latest`.** Flattening the
  groups in key order returns the sorted, filtered list itself when records of
  the same day stand together (`Grouping.FlattenRoundTrip`). That holds after the `latest` sort
  (`Home.LatestGroupsRoundTrip`). It does not hold after `highest`, where a
  smaller record is pulled into an earlier group of its day, ahead of a larger
  record of another day (`Home.HighestGroupsReorder`). In every mode the groups
  hold exactly the records of the list (`Grouping.FlattenPermutes`).

## Model

| member | source | states |
|---|---|---|
| Calendar.IsToday | App.js:20-28 | definition: same date, month and year; its meaning is proved in `Calendar.TodayIffSameDay` |
| Calendar.IsThisWeek | App.js:30-40 | definition: the instant lies from the week's Sunday at 00:00:00.000 to its Saturday at 23:59:59.999; its meaning is proved in `Calendar.ThisWeekIffDayInWeek` |
| Calendar.IsThisMonth | App.js:42-46 | definition: same month and year; related to the other two in `Calendar.TodayIsThisWeekAndMonth` and `Calendar.WeekCanSpanMonths` |
| Calendar.Instant | App.js:39 | definition: the millisecond count of a timestamp (day number times a day's milliseconds, plus the time of day), which the Date comparisons at lines 39 and 106 compare; its order is related to days by `Calendar.InstantOrdersDays` |
| Calendar.Weekday | App.js:34 | `getDay` is a weekday index in 0..6 |
| Calendar.WeekStart | App.js:33-35 | the first day of the week is a Sunday, and `now`'s day is one of the seven days from it |
| Calendar.ThisWeekIffDayInWeek | App.js:30-40 | `isThisWeek` holds exactly when the record's day is between that Sunday and the following Saturday, inclusive |
| Calendar.TodayIsThisWeekAndMonth | App.js:20-46 | a record that `isToday` accepts is also accepted by `isThisWeek` and by `isThisMonth` |
| Calendar.WeekCanSpanMonths | App.js:30-46 | on Sat 2 Mar 2024 the week began on Sun 25 Feb, so a record from Mon 26 Feb is this week but not this month |
| Calendar.TodayIffSameDay | App.js:20-28 | for real calendar dates, `isToday` holds iff the two day numbers are equal iff the two day keys are equal |
| Calendar.DayNumberInjective | App.js:88 | two real calendar dates with the same day count have the same day key |
| Calendar.InstantOrdersDays | App.js:106 | an instant that is no later than another lies on a day that is no later |
| Text.Trim | App.js:99 | `trim` is empty exactly when the text is all white space; otherwise it neither starts nor ends with white space |
| Text.TrimIsSlice | App.js:99 | `trim` returns the text between a white prefix and a white suffix of its input |
| Text.Lower | App.js:101 | definition: `toLowerCase` character by character; its properties are `Text.LowerPointwise` and `Text.LowerIdempotent` |
| Text.Contains | App.js:101 | definition: `includes` as a prefix test at each position; its meaning is `Text.ContainsIffOccurs` |
| Text.TrimIdempotent | App.js:230 | trimming twice is trimming once |
| Text.LowerPointwise | App.js:101 | `toLowerCase` keeps the length and maps each character on its own |
| Text.LowerIdempotent | App.js:101 | lower-casing twice is lower-casing once |
| Text.ContainsIffOccurs | App.js:101 | `includes` holds exactly when the needle occurs at some index |
| Expenses.DateKey | App.js:106 | definition: the key of the `latest` comparator, a record's instant |
| Expenses.AmountKey | App.js:108 | definition: the key of the `highest` comparator, a record's amount |
| Expenses.Holds | App.js:97-101 | definition: the filter callbacks, exact category equality and the lower-cased `includes` on the note, plus the day and key tests the proofs use |
| Expenses.Keep | App.js:96-102 | definition: `Array.prototype.filter` with one of the app's tests; its properties are the `Expenses.Keep…` rows below |
| Expenses.KeepIsSubsequence | App.js:96-102 | `filter` returns a subsequence of its input |
| Expenses.KeepCounts | App.js:96-102 | each record occurs in the result as often as in the input when it passes the test, and never when it fails |
| Expenses.KeepMembers | App.js:96-102 | a record is in the result exactly when it is in the input and passes the test |
| Expenses.KeepAppend | App.js:96-102 | filtering a concatenation concatenates the filtered parts |
| Expenses.KeepIdempotent | App.js:96-102 | filtering twice with the same test is filtering once |
| Expenses.KeepCommutes | App.js:95-103 | two filters give the same result in either order |
| Totals.InWindow | App.js:72-74 | definition: which of `isToday`, `isThisWeek` and `isThisMonth` decides a total |
| Totals.SumIn | App.js:71-75 | definition: the sum of the amounts of the records one classifier accepts; its properties are `Totals.SumInAppend`, `Totals.SumInPermutation` and `Totals.TodayAtMostWeekAndMonth` |
| Totals.ComputeTotals | App.js:68-76 | each total is the sum of the amounts its classifier accepts, and all three are zero for an empty list |
| Totals.SumInAppend | App.js:71-75 | a total over two lists joined is the sum of the totals over each |
| Totals.SumInPermutation | App.js:71-75 | a total does not depend on the order of the records |
| Totals.TodayAtMostWeekAndMonth | App.js:68-76 | with positive amounts, 0 ≤ today ≤ week and today ≤ month |
| Filters.FilterByCategory | App.js:95-98 | definition: the category filter, skipped when no category is chosen; its meaning is `Filters.CategoryFilterSelects` |
| Filters.SearchByNote | App.js:99-103 | definition: the note search, skipped when the search trims to empty; its meaning is `Filters.SearchSelects` |
| Filters.ApplyFilters | App.js:95-103 | definition: the category filter, then the search; its meaning is `Filters.FiltersSelect` |
| Filters.CategoryFilterSelects | App.js:95-98 | an empty filter returns the list unchanged; otherwise the result keeps exactly the records whose category equals the filter, case-sensitive, in order |
| Filters.SearchSelects | App.js:99-103 | a search that trims to empty returns the list unchanged; otherwise the result keeps, in order and as often as they occur, exactly the records whose lower-cased note includes the lower-cased search, and no record with an empty note |
| Filters.SearchIgnoresCase | App.js:99-103 | searching for a text and for its lower-case form gives the same result |
| Filters.SearchIsNotTrimmed | App.js:99-102 | the untrimmed search `" lun"` misses the note `"lunch"`, which its trimmed form would find |
| Filters.FiltersIdempotent | App.js:95-103 | applying both filters twice is applying them once |
| Filters.FiltersSelect | App.js:95-103 | a record survives both filters exactly when it is in the list, has the chosen category and its note matches the search |
| Sorting.StableSort | App.js:105-109 | definition: the reference stable sort by non-increasing key; its properties are the four sort rows below |
| Sorting.SortView | App.js:105-109 | definition: `latest` sorts by date, `highest` by amount, any other mode leaves the list as it is; see `Sorting.SortViewPermutes` |
| Sorting.SortPermutes | App.js:105-109 | the sort returns a permutation of its input |
| Sorting.SortSorts | App.js:105-109 | the result is non-increasing by the comparator's key |
| Sorting.SortIsStable | App.js:105-109 | records with equal keys keep their input order |
| Sorting.StableSortUnique | App.js:105-109 | a list that is ordered by key and keeps each equal-key run in input order is the sort's result |
| Sorting.SortViewPermutes | App.js:105-109 | every sort mode, including an unknown one, yields a permutation |
| Sorting.ShiftSmaller | App.js:105-109 | the shifting loop of one insertion step stops at the first record, from the right, whose key is not smaller, having moved every smaller one right by one place |
| Sorting.InsertAt | App.js:105-109 | one insertion step moves a record left past the smaller keys and leaves the rest of the array alone |
| Sorting.SortInPlace | App.js:105-109 | sorting the array in place leaves in it the stable descending sort of its old contents |
| Sorting.SortExpenses | App.js:105-109 | `latest` sorts by date, `highest` by amount, any other mode leaves the array unchanged |
| Grouping.DayOf | App.js:88 | definition: the `toDateString` day of a record, as its day key; `Calendar.DayNumberInjective` shows the key names one calendar day |
| Grouping.FirstSeen | App.js:85-93 | definition: the day keys in order of first appearance, which is the order `Object.entries` gives at line 185; its properties are the three `Grouping.FirstSeen…` rows below |
| Grouping.GroupsOf | App.js:85-93 | definition: the grouped object after each record is pushed onto its day's group; its meaning is `Grouping.GroupsSelectDays` |
| Grouping.Flatten | App.js:185 | definition: the groups concatenated in key order, as the list shows them; its properties are `Grouping.FlattenPermutes` and `Grouping.FlattenRoundTrip` |
| Grouping.FirstSeenMembers | App.js:86-91 | a day is a key exactly when some record falls on it |
| Grouping.FirstSeenDistinct | App.js:86-91 | no day is a key twice |
| Grouping.FirstSeenOrder | App.js:86-91 | keys come in the order in which their days first appear |
| Grouping.GroupsSelectDays | App.js:86-91 | the groups are keyed by exactly the keys, and each holds exactly the records of its day, in list order |
| Grouping.FlattenPermutes | App.js:85-93 | the groups concatenated in key order are a permutation of the input: nothing is dropped or duplicated |
| Grouping.FlattenRoundTrip | App.js:85-93 | when records of each day stand together, the groups concatenated in key order give back the input exactly |
| Grouping.GroupByDate | App.js:85-93 | the loop builds the keys and groups above: distinct keys, day-exact groups, a permutation, and the exact round trip for day-contiguous input |
| Storage.DefaultCategoriesAreAList | App.js:63-65 | the default list is non-empty and has no blank name |
| Storage.Store.LoadedExpenses | App.js:58-59 | a stored list loads as itself; with nothing stored the expense list is empty; saved amounts are positive |
| Storage.Store.LoadedCategories | App.js:62-65 | a stored list loads as itself, and is non-empty with no blank name in a consistent store; with nothing stored the list is Food, Transport, Shopping, Bills, Other |
| Storage.Store.Push | App.js:234-238 | the stored list becomes the loaded list with the record pushed at its end, the categories stay, and a positive amount keeps the store consistent |
| Storage.Store.SetCategories | App.js:312 | the stored category list becomes the given list, the expenses stay, and a well-formed list keeps the store consistent |
| Storage.Store.RemoveExpenses | App.js:315-326 | after `clearData` the expense list loads empty and the category list is unchanged |
| Storage.ValidateAmount | App.js:215-224 | an empty amount or category is rejected as missing, and only then; with both filled in, a NaN or non-positive amount is rejected as invalid; otherwise the parsed amount, which is > 0, is accepted |
| Storage.FormRecord | App.js:215-232 | the form yields a record exactly when the amount is accepted, and then it carries the given id and time, the chosen category, the parsed positive amount and the trimmed note, empty exactly when the typed note is blank; otherwise it yields the alert of the validation |
| Storage.InitialCategory | App.js:206 | the expression `data.length > 0 && !category`: a non-empty `category` is kept; an empty one becomes the first entry of a non-empty list |
| Storage.InitialCategoryIsNamed | App.js:200-206 | after the categories of a consistent store are loaded, the preselected category is a non-blank name |
| Storage.AddExpenseScreen.constructor | App.js:195-198 | the screen starts with an empty amount, category and note and no categories |
| Storage.AddExpenseScreen.LoadCategories | App.js:200-207 | the screen shows the stored or default categories; the first one is preselected exactly when the list is non-empty and the closure's `category` is empty, otherwise the choice stays |
| Storage.AddExpenseScreen.Focus | App.js:196-213 | on every focus the first loaded category is preselected, whatever was chosen before; with a consistent store it is a non-blank name |
| Storage.AddExpenseScreen.SaveExpense | App.js:215-247 | a rejected form changes nothing; an accepted one appends exactly one record (parsed amount, chosen category, trimmed note, given id and time) to the stored list and clears amount and note |
| Storage.AddCategoryTo | App.js:304-309 | a name that trims to empty is rejected; otherwise the list gains its trimmed, non-blank form at the end, and nothing else changes |
| Storage.AddCategoryKeepsList | App.js:304-312 | adding keeps a category list well formed, and accepts a name already in the list, so duplicates can arise |
| Storage.SettingsScreen.constructor | App.js:287-288 | the screen starts with no categories |
| Storage.SettingsScreen.LoadCategories | App.js:290-296 | the screen shows the stored or default categories |
| Storage.SettingsScreen.AddCategory | App.js:304-313 | rejected names change nothing; otherwise the screen list and the stored list both become the old screen list plus the trimmed name |
| Home.Pipeline | App.js:95-109 | definition: the filters, then the sort; see `Home.PipelineKeepsRecords` |
| Home.HomeScreen.constructor | App.js:50-55 | the screen starts with no records, zero totals, no filter, no search and `latest` order |
| Home.HomeScreen.LoadExpenses | App.js:57-77 | the screen holds the stored lists and the three window totals over them, with today ≤ week and today ≤ month |
| Home.HomeScreen.GroupedExpenses | App.js:95-111 | the shown groups are those of the filtered, sorted list: distinct keys, day-exact groups, exactly the filtered records, and the exact sorted list under `latest` |
| Home.SortedCopy | App.js:95-109 | sorting a fresh array that holds the filtered records yields the stable sort the mode selects |
| Home.PipelineKeepsRecords | App.js:95-109 | filtering and sorting show only stored records, and the sorted list is a permutation of the filtered one |
| Home.LatestIsDayContiguous | App.js:105-106 | newest-first order puts the records of each calendar day side by side |
| Home.LatestGroupsRoundTrip | App.js:85-111 | under `latest`, flattening the groups gives back the filtered, sorted list exactly |
| Home.GroupsPullDayTogether | App.js:85-93 | for a list day A, day B, day A, the groups show the two day-A records first |
| Home.SortMovesLastUp | App.js:105-109 | of three records whose last key lies between the first two keys, the sort moves the last one up one place |
| Home.HighestGroupsReorder | App.js:105-111 | under `highest`, the groups of amounts 10 (day 1), 7 (day 2), 5 (day 1) show 10, 5, 7, out of amount order |
| Home.SavedRecordCounts | App.js:226-232 | a record saved at `now` raises each of the three totals by its amount |
| Home.LunchScenario | App.js:68-103 | the forms 19.99 Food "lunch" and 5 Transport with no note yield the two records, given a `parseFloat` that reads those amounts; for those records every total is 24.99, and both the Food filter and the search "LUN" show exactly the lunch record |
| Home.SaveLunch | App.js:215-238 | on a fresh install, saving 19.99 Food "lunch" stores exactly that record and clears the note field |
| Home.SaveLunchAndBus | App.js:215-238 | saving 5 Transport next, with the note left empty, stores the two records in save order and keeps the store consistent |
| Home.SessionShows | App.js:68-103 | a Home screen holding those two records shows the totals 24.99, 24.99, 24.99 and the lunch record alone under the Food filter and under the search "LUN" |
| Home.LunchSession | App.js:57-103 | end to end: the two saves, then loading the Home screen, give the two records, the three totals 24.99, and the lunch record under the Food filter and the search "LUN" |

## Left out

- Rendering is not modelled: the JSX, styles, `FlatList`, `Picker` and `TextInput` bindings, the tab navigation and `toLocaleTimeString`.
- Focus events are not modelled. Each load is a method that the caller invokes. Only the Add Expense screen's callback reads screen state, and `Storage.AddExpenseScreen.Focus` models the closure it keeps.
- Alerts, the confirmation dialog of `clearData` and `console.log` are not modelled. A rejection is returned as an error value.
- `clearData` is modelled only for the confirmed branch. Cancel changes nothing.
- The store is not modelled as I/O. JSON encoding is left out, and so are failing reads or writes and the `catch` branch of `saveExpense`. Each operation reads and writes its document in one step.
- Time zones and daylight saving time are not modelled. A timestamp is its local calendar fields. The ISO text written by `toISOString` and read back by `new Date` is taken to denote the same local time.
- The `setDate` arithmetic on `Date` objects is not modelled. The week's Sunday is computed as a day count, which is what `setDate` does when a day number leaves the month.
- `toLowerCase` maps only the ASCII letters. Case mapping of other characters is not modelled.
- Amounts are exact reals. Floating-point rounding and `toFixed(2)` are not modelled.
- `parseFloat` is a parameter, and `None` stands for NaN. An infinite result is not representable in the model.
- The id (`Date.now().toString()`) and the save time (`new Date()`) are parameters.
- Storage.AddExpenseScreen.SaveExpense: clearing the amount and note input boxes is modelled as clearing fields. The screen's other controls are UI.
- Storage.SettingsScreen.AddCategory: the new name is a parameter. Clearing the input box (`setNewCategory('')`) is UI.
- Home.HomeScreen.GroupedExpenses: the round trip is stated only for real calendar dates (`ValidDate`). An impossible date such as 31 February can share a day number with another date.
- The setters of the Home screen's filter, search and sort mode are not modelled. These fields are inputs of `GroupedExpenses`.

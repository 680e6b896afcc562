/**
 * `src/components/tasks/TaskList.tsx`: the list view. It narrows the tasks it
 * is given by its own search box and the status and priority filters, orders a
 * copy by the chosen field, counts tasks per status, and turns clicks into new
 * filter and sort values for its parent.
 */
module TaskList {
  import opened Wrappers
  import opened JsString
  import opened Constants
  import opened Types
  import opened Sorting
  import opened TaskQuery

  /** The list's own test, in its order: the search box (when non-empty),
      then the status filter, then the priority filter. */
  predicate Passes(searchTerm: string, filters: TaskFilters, t: Task) {
    (searchTerm != "" ==> MatchesSearch(t, searchTerm))
    && (filters.status.Some? ==> t.status == filters.status.value)
    && (filters.priority.Some? ==> t.priority == filters.priority.value)
  }

  function PassesTest(searchTerm: string, filters: TaskFilters): Task -> bool {
    (t: Task) => Passes(searchTerm, filters, t)
  }

  /** `filteredTasks`: exactly the tasks that pass, in their order. */
  function FilteredTasks(tasks: seq<Task>, searchTerm: string, filters: TaskFilters): (r: seq<Task>)
    ensures forall t :: t in r <==> t in tasks && Passes(searchTerm, filters, t)
    ensures multiset(r) <= multiset(tasks)
  {
    FilterExactly(PassesTest(searchTerm, filters), tasks);
    Filter(PassesTest(searchTerm, filters), tasks)
  }

  /** The list keeps what the hook's own filters keep when its search box
      holds the filters' search term: the one-pass test and the successive
      narrowing select the same tasks in the same order. */
  lemma FilteredTasksAgreeWithHook(tasks: seq<Task>, filters: TaskFilters, searchTerm: string)
    ensures FilteredTasks(tasks, searchTerm, filters)
         == Filter(KeepTest(filters.(search := Some(searchTerm))), tasks)
  {
    FilterExt(PassesTest(searchTerm, filters), KeepTest(filters.(search := Some(searchTerm))), tasks);
  }

  /** The key the list sorts by: strings lowercased, dates as timestamps. */
  function ListKey(f: SortField, t: Task): (k: Key)
    ensures k.Text? <==> f in {TitleField, StatusField, PriorityField}
  {
    match f
    case TitleField => Text(ToLower(t.title))
    case StatusField => Text(ToLower(StatusName(t.status)))
    case PriorityField => Text(ToLower(PriorityName(t.priority)))
    case CreatedAtField => Time(t.createdAt)
    case UpdatedAtField => Time(t.updatedAt)
  }

  function ListKeyOf(f: SortField): Task -> Key {
    (t: Task) => ListKey(f, t)
  }

  /** The comparator of `sortedTasks`. */
  function ListCompare(s: TaskSort, a: Task, b: Task): int {
    Compare(s.direction == Asc, ListKey(s.field, a), ListKey(s.field, b))
  }

  /** Ascending answers 1, -1 or 0; descending answers exactly the negation. */
  lemma ListCompareFacts(f: SortField, a: Task, b: Task)
    ensures ListCompare(TaskSort(f, Asc), a, b) in {-1, 0, 1}
    ensures ListCompare(TaskSort(f, Desc), a, b) == -ListCompare(TaskSort(f, Asc), a, b)
    ensures ListCompare(TaskSort(f, Asc), a, b) == -ListCompare(TaskSort(f, Asc), b, a)
  {
    CompareDescNegatesAsc(ListKey(f, a), ListKey(f, b));
    KeyOrderFacts(ListKey(f, a), ListKey(f, b));
  }

  /** Titles that differ only in letter case compare as equal. */
  lemma TitlesCompareIgnoringCase(d: Direction, a: Task, b: Task)
    requires ToLower(a.title) == ToLower(b.title)
    ensures ListCompare(TaskSort(TitleField, d), a, b) == 0
  {
  }

  /** The status and priority names are lower case already, so lowering them
      keeps the key of the hook and the database. */
  lemma NamesAreLowerCase(t: Task)
    ensures ListKey(StatusField, t) == FieldKey(StatusField, t)
    ensures ListKey(PriorityField, t) == FieldKey(PriorityField, t)
    ensures ListKey(CreatedAtField, t) == FieldKey(CreatedAtField, t)
    ensures ListKey(UpdatedAtField, t) == FieldKey(UpdatedAtField, t)
  {
    var s := StatusName(t.status);
    var p := PriorityName(t.priority);
    assert ToLower(s) == s;
    assert ToLower(p) == p;
  }

  /** `sortedTasks`: the filtered tasks re-ordered by the comparator, with
      ties in their filtered order (the engine's sort is stable); the input
      sequence is a value and is not reordered. */
  function SortedTasks(tasks: seq<Task>, searchTerm: string, filters: TaskFilters, s: TaskSort): (r: seq<Task>)
    ensures forall t :: t in r <==> t in tasks && Passes(searchTerm, filters, t)
    ensures multiset(r) <= multiset(tasks)
    ensures |r| <= |tasks|
    ensures SortedBy(ListKeyOf(s.field), s.direction == Asc, r)
  {
    var filtered := FilteredTasks(tasks, searchTerm, filters);
    var sorted := SortBy(ListKeyOf(s.field), s.direction == Asc, filtered);
    SortBySorted(ListKeyOf(s.field), s.direction == Asc, filtered);
    SameElements(sorted, filtered);
    SubMultisetShorter(sorted, tasks);
    sorted
  }

  lemma SubMultisetShorter(a: seq<Task>, b: seq<Task>)
    requires multiset(a) <= multiset(b)
    ensures |a| <= |b|
  {
    assert |multiset(a)| <= |multiset(b)| by {
      var d := multiset(b) - multiset(a);
      assert multiset(b) == multiset(a) + d;
    }
  }

  /** Tasks with one sort key keep their filtered order. */
  lemma SortedTasksStable(tasks: seq<Task>, searchTerm: string, filters: TaskFilters, s: TaskSort, k: Key)
    ensures WithKey(ListKeyOf(s.field), k, SortedTasks(tasks, searchTerm, filters, s))
         == WithKey(ListKeyOf(s.field), k, FilteredTasks(tasks, searchTerm, filters))
  {
    SortByStable(ListKeyOf(s.field), s.direction == Asc, FilteredTasks(tasks, searchTerm, filters), k);
  }

  /** "Showing n of m": the shown count never exceeds the total. */
  lemma ShownAtMostTotal(tasks: seq<Task>, searchTerm: string, filters: TaskFilters, s: TaskSort)
    ensures |SortedTasks(tasks, searchTerm, filters, s)| <= |tasks|
    ensures searchTerm == "" && filters.status.None? && filters.priority.None? ==>
              |SortedTasks(tasks, searchTerm, filters, s)| == |tasks|
  {
    if searchTerm == "" && filters.status.None? && filters.priority.None? {
      FilterAll(PassesTest(searchTerm, filters), tasks);
      var filtered := FilteredTasks(tasks, searchTerm, filters);
      assert |SortBy(ListKeyOf(s.field), s.direction == Asc, filtered)| == |filtered|;
    }
  }

  /** `handleSortChange(field)`: the sort for the clicked field, descending
      exactly when that field was already sorted ascending. */
  function HandleSortChange(sort: TaskSort, field: SortField): (r: TaskSort)
    ensures r.field == field
    ensures r.direction == Desc <==> sort.field == field && sort.direction == Asc
  {
    TaskSort(field, if sort.field == field && sort.direction == Asc then Desc else Asc)
  }

  /** Clicking one field repeatedly alternates between ascending and
      descending, starting ascending when it was not the sort field. */
  lemma SortClicksAlternate(sort: TaskSort, field: SortField)
    ensures HandleSortChange(HandleSortChange(sort, field), field).direction
         != HandleSortChange(sort, field).direction
    ensures sort.field != field ==> HandleSortChange(sort, field) == TaskSort(field, Asc)
    ensures HandleSortChange(HandleSortChange(HandleSortChange(sort, field), field), field)
         == HandleSortChange(sort, field)
  {
  }

  /** `handleStatusFilterChange(status)`: the empty choice (`None`) clears
      the status filter; priority and search are kept. */
  function HandleStatusFilterChange(filters: TaskFilters, choice: Option<Status>): (r: TaskFilters)
    ensures r.status == choice
    ensures r.priority == filters.priority && r.search == filters.search
  {
    filters.(status := choice)
  }

  function HandlePriorityFilterChange(filters: TaskFilters, choice: Option<Priority>): (r: TaskFilters)
    ensures r.priority == choice
    ensures r.status == filters.status && r.search == filters.search
  {
    filters.(priority := choice)
  }

  /** `handleSearchChange(value)`: the new search box text and the filters
      handed to the parent, with only the search replaced. */
  function HandleSearchChange(filters: TaskFilters, value: string): (r: (string, TaskFilters))
    ensures r.0 == value
    ensures r.1.search == Some(value)
    ensures r.1.status == filters.status && r.1.priority == filters.priority
  {
    (value, filters.(search := Some(value)))
  }

  /** After a search change, the list and the parent's filters select alike. */
  lemma SearchChangeKeepsListAndHookInStep(tasks: seq<Task>, filters: TaskFilters, value: string)
    ensures FilteredTasks(tasks, HandleSearchChange(filters, value).0, filters)
         == Filter(KeepTest(HandleSearchChange(filters, value).1), tasks)
  {
    assert HandleSearchChange(filters, value) == (value, filters.(search := Some(value)));
    FilteredTasksAgreeWithHook(tasks, filters, value);
  }

  /** `taskCounts`. */
  datatype TaskCounts = TaskCounts(total: nat, pending: nat, inProgress: nat, completed: nat)

  /** The counts are over all given tasks, whatever the filters; every task
      has one of the three statuses, so they add up to the total. */
  function CountTasks(tasks: seq<Task>): (c: TaskCounts)
    ensures c.total == |tasks|
    ensures c.pending == CountStatus(tasks, Pending)
    ensures c.inProgress == CountStatus(tasks, InProgress)
    ensures c.completed == CountStatus(tasks, Completed)
    ensures c.pending + c.inProgress + c.completed == c.total
  {
    StatusCountsPartition(tasks);
    TaskCounts(|tasks|, CountStatus(tasks, Pending), CountStatus(tasks, InProgress),
               CountStatus(tasks, Completed))
  }
}

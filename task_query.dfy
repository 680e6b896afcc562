/**
 * The filter rule shared by the tasks route, the `useTasks` hook, the
 * `TaskList` component and the dashboard: order-preserving filters over a
 * task list, the case-insensitive search, status counts and the sort keys.
 */
module TaskQuery {
  import opened Wrappers
  import opened JsString
  import opened Constants
  import opened Types
  import opened Sorting

  /** `xs.filter(p)`: the elements satisfying `p`, each as often as in `s`, in order. */
  function Filter<T>(p: T -> bool, s: seq<T>): (r: seq<T>)
    ensures |r| <= |s|
    ensures forall i | 0 <= i < |r| :: p(r[i])
    ensures multiset(r) <= multiset(s)
    ensures forall i | 0 <= i < |s| :: p(s[i]) ==> multiset(r)[s[i]] == multiset(s)[s[i]]
  {
    if s == [] then []
    else
      assert s == [s[0]] + s[1..];
      (if p(s[0]) then [s[0]] else []) + Filter(p, s[1..])
  }

  lemma FilterMembership<T>(p: T -> bool, s: seq<T>, x: T)
    ensures x in Filter(p, s) <==> x in s && p(x)
  {
    var r := Filter(p, s);
    if x in s && p(x) {
      var i :| 0 <= i < |s| && s[i] == x;
      assert multiset(r)[x] == multiset(s)[x] > 0;
    }
    if x in r {
      assert x in multiset(s);
    }
  }

  /** The filtered list holds exactly the elements of `s` satisfying `p`. */
  lemma FilterExactly<T>(p: T -> bool, s: seq<T>)
    ensures forall x :: x in Filter(p, s) <==> x in s && p(x)
  {
    forall x ensures x in Filter(p, s) <==> x in s && p(x) { FilterMembership(p, s, x); }
  }

  /** Two successive filters are one filter on the conjunction, so the order
      in which the filters are applied does not matter. */
  lemma {:induction false} FilterFilter<T>(p: T -> bool, q: T -> bool, s: seq<T>)
    ensures Filter(p, Filter(q, s)) == Filter(x => q(x) && p(x), s)
  {
    if s != [] {
      FilterFilter(p, q, s[1..]);
      var t := (if q(s[0]) then [s[0]] else []) + Filter(q, s[1..]);
      assert Filter(q, s) == t;
      if q(s[0]) {
        assert t[0] == s[0] && t[1..] == Filter(q, s[1..]);
      } else {
        assert t == Filter(q, s[1..]);
      }
    }
  }

  /** Narrowing a filtered list by one more test is filtering once by the
      combined test. */
  lemma FilterStep<T>(p: T -> bool, q: T -> bool, r: T -> bool, s: seq<T>)
    requires forall i | 0 <= i < |s| :: r(s[i]) == (q(s[i]) && p(s[i]))
    ensures Filter(p, Filter(q, s)) == Filter(r, s)
  {
    FilterFilter(p, q, s);
    FilterExt(x => q(x) && p(x), r, s);
  }

  /** A filter that every element passes changes nothing. */
  lemma {:induction false} FilterAll<T>(p: T -> bool, s: seq<T>)
    requires forall i | 0 <= i < |s| :: p(s[i])
    ensures Filter(p, s) == s
  {
    if s != [] {
      FilterAll(p, s[1..]);
      assert [s[0]] + s[1..] == s;
    }
  }

  /** Filters that agree on every element give the same list. */
  lemma {:induction false} FilterExt<T>(p: T -> bool, q: T -> bool, s: seq<T>)
    requires forall i | 0 <= i < |s| :: p(s[i]) == q(s[i])
    ensures Filter(p, s) == Filter(q, s)
  {
    if s != [] { FilterExt(p, q, s[1..]); }
  }

  /** Filtering a concatenation filters each part. */
  lemma {:induction false} FilterAppend<T>(p: T -> bool, s: seq<T>, t: seq<T>)
    ensures Filter(p, s + t) == Filter(p, s) + Filter(p, t)
  {
    if s == [] {
      assert s + t == t;
    } else {
      assert (s + t)[1..] == s[1..] + t;
      FilterAppend(p, s[1..], t);
    }
  }

  /** The number of elements satisfying `p`: `xs.filter(p).length`. */
  function Count<T>(p: T -> bool, s: seq<T>): (n: nat)
    ensures n <= |s|
  {
    |Filter(p, s)|
  }

  /** Case-insensitive substring search on the title, or on the description
      when there is a non-empty one. */
  predicate MatchesSearch(t: Task, term: string) {
    Includes(ToLower(t.title), ToLower(term))
    || (t.description.Some? && t.description.value != ""
        && Includes(ToLower(t.description.value), ToLower(term)))
  }

  /** Every task matches the empty search term. */
  lemma EmptySearchMatchesAll(t: Task)
    ensures MatchesSearch(t, "")
  {
    assert ToLower("") == [];
    assert [] <= ToLower(t.title);
  }

  /** A task whose lowercased title contains the lowercased term matches. */
  lemma {:induction false} TitlePieceMatches(t: Task, term: string, k: nat)
    requires k + |term| <= |t.title|
    requires ToLower(t.title)[k..k + |term|] == ToLower(term)
    ensures MatchesSearch(t, term)
  {
    IncludesPiece(ToLower(t.title), ToLower(term), k);
  }

  /** `status === filter` for each task. */
  function HasStatus(st: Status): Task -> bool {
    (t: Task) => t.status == st
  }

  function HasPriority(p: Priority): Task -> bool {
    (t: Task) => t.priority == p
  }

  function MatchesTerm(term: string): Task -> bool {
    (t: Task) => MatchesSearch(t, term)
  }

  /** The task passes every filter that is set; an empty search is no filter. */
  predicate Keep(f: TaskFilters, t: Task) {
    (f.status.Some? ==> t.status == f.status.value)
    && (f.priority.Some? ==> t.priority == f.priority.value)
    && (f.search.Some? && f.search.value != "" ==> MatchesSearch(t, f.search.value))
  }

  function KeepTest(f: TaskFilters): Task -> bool {
    (t: Task) => Keep(f, t)
  }

  /** The three stages of narrowing by the filters one after the other: the
      status test alone, then the priority test on its result, then the search
      test on that, each the one-pass filter by the tests so far. */
  lemma StatusStage(st: Option<Status>, tasks: seq<Task>)
    ensures Filter(KeepTest(TaskFilters(st, None, None)), tasks)
         == if st.Some? then Filter(HasStatus(st.value), tasks) else tasks
  {
    if st.Some? {
      FilterExt(KeepTest(TaskFilters(st, None, None)), HasStatus(st.value), tasks);
    } else {
      FilterAll(KeepTest(NoFilters), tasks);
    }
  }

  lemma PriorityStage(st: Option<Status>, pr: Option<Priority>, tasks: seq<Task>)
    ensures Filter(KeepTest(TaskFilters(st, pr, None)), tasks)
         == (var before := Filter(KeepTest(TaskFilters(st, None, None)), tasks);
             if pr.Some? then Filter(HasPriority(pr.value), before) else before)
  {
    if pr.Some? {
      FilterStep(HasPriority(pr.value), KeepTest(TaskFilters(st, None, None)), KeepTest(TaskFilters(st, pr, None)), tasks);
    }
  }

  lemma SearchStage(f: TaskFilters, tasks: seq<Task>)
    ensures Filter(KeepTest(f), tasks)
         == (var before := Filter(KeepTest(TaskFilters(f.status, f.priority, None)), tasks);
             if f.search.Some? && f.search.value != "" then Filter(MatchesTerm(f.search.value), before) else before)
  {
    if f.search.Some? && f.search.value != "" {
      FilterStep(MatchesTerm(f.search.value), KeepTest(TaskFilters(f.status, f.priority, None)), KeepTest(f), tasks);
    } else {
      FilterExt(KeepTest(TaskFilters(f.status, f.priority, None)), KeepTest(f), tasks);
    }
  }

  /** Tasks with each status. */
  function CountStatus(tasks: seq<Task>, st: Status): (n: nat)
    ensures n <= |tasks|
  {
    Count(HasStatus(st), tasks)
  }

  function CountPriority(tasks: seq<Task>, p: Priority): (n: nat)
    ensures n <= |tasks|
  {
    Count(HasPriority(p), tasks)
  }

  /** Every task has exactly one of the three statuses, so the per-status
      counts add up to the total. */
  lemma {:induction false} StatusCountsPartition(tasks: seq<Task>)
    ensures CountStatus(tasks, Pending) + CountStatus(tasks, InProgress)
            + CountStatus(tasks, Completed) == |tasks|
  {
    if tasks != [] {
      StatusCountsPartition(tasks[1..]);
      assert Filter(HasStatus(Pending), tasks)
        == (if tasks[0].status == Pending then [tasks[0]] else []) + Filter(HasStatus(Pending), tasks[1..]);
      assert Filter(HasStatus(InProgress), tasks)
        == (if tasks[0].status == InProgress then [tasks[0]] else []) + Filter(HasStatus(InProgress), tasks[1..]);
      assert Filter(HasStatus(Completed), tasks)
        == (if tasks[0].status == Completed then [tasks[0]] else []) + Filter(HasStatus(Completed), tasks[1..]);
    }
  }

  /** The key `a[sort.field]` of a task, as the hook and the database compare
      it: the stored text of title, status and priority, and the timestamps.
      ISO-8601 timestamps of one format order as the instants they denote. */
  function FieldKey(f: SortField, t: Task): Key {
    match f
    case TitleField => Text(t.title)
    case StatusField => Text(StatusName(t.status))
    case PriorityField => Text(PriorityName(t.priority))
    case CreatedAtField => Time(t.createdAt)
    case UpdatedAtField => Time(t.updatedAt)
  }

  function FieldKeyOf(f: SortField): Task -> Key {
    (t: Task) => FieldKey(f, t)
  }
}

/**
 * `src/app/dashboard/page.tsx`: the dashboard's statistics over the loaded
 * tasks, and the page state that decides whether the task modal is open and
 * which task, if any, its form edits.
 */
module Dashboard {
  import opened Wrappers
  import opened Constants
  import opened Types
  import opened TaskQuery

  /** `stats`. */
  datatype Stats = Stats(total: nat, pending: nat, inProgress: nat, completed: nat, highPriority: nat)

  /** Each count is the number of tasks with exactly that status or priority;
      the status counts add up to the total. */
  function ComputeStats(tasks: seq<Task>): (s: Stats)
    ensures s.total == |tasks|
    ensures s.pending == CountStatus(tasks, Pending)
    ensures s.inProgress == CountStatus(tasks, InProgress)
    ensures s.completed == CountStatus(tasks, Completed)
    ensures s.highPriority == CountPriority(tasks, High)
    ensures s.pending + s.inProgress + s.completed == s.total
    ensures s.highPriority <= s.total
  {
    StatusCountsPartition(tasks);
    Stats(|tasks|, CountStatus(tasks, Pending), CountStatus(tasks, InProgress),
          CountStatus(tasks, Completed), CountPriority(tasks, High))
  }

  /** `completionRate`: 0 without tasks, otherwise the percentage of completed
      tasks rounded to the nearest integer, halves upward (exact rational
      arithmetic). */
  function CompletionRate(s: Stats): (rate: nat)
    requires s.completed <= s.total
    ensures s.total == 0 ==> rate == 0
    ensures rate <= 100
    ensures s.total > 0 ==> 2 * s.total * rate <= 200 * s.completed + s.total < 2 * s.total * (rate + 1)
    ensures s.total > 0 && s.completed == s.total ==> rate == 100
    ensures s.completed == 0 ==> rate == 0
  {
    if s.total > 0 then
      RoundFacts(s.completed, s.total);
      (200 * s.completed + s.total) / (2 * s.total)
    else 0
  }

  /** The facts about `floor((200c + t) / 2t)` that `CompletionRate` promises. */
  lemma RoundFacts(c: nat, t: nat)
    requires 0 < t && c <= t
    ensures (200 * c + t) / (2 * t) <= 100
    ensures 2 * t * ((200 * c + t) / (2 * t)) <= 200 * c + t < 2 * t * ((200 * c + t) / (2 * t) + 1)
    ensures c == t ==> (200 * c + t) / (2 * t) == 100
    ensures c == 0 ==> (200 * c + t) / (2 * t) == 0
  {
    var n := 200 * c + t;
    var d := 2 * t;
    var q := n / d;
    var r := n % d;
    assert n == d * q + r && 0 <= r < d;
    if q > 100 {
      MulMonotone(d, 101, q);
      assert false;
    }
    assert d * (q + 1) == d * q + d;
    if c == t {
      DivUnique(n, d, 100, t);
    }
    if c == 0 {
      DivUnique(n, d, 0, t);
    }
  }

  lemma MulMonotone(d: nat, a: nat, b: nat)
    requires a <= b
    ensures d * a <= d * b
  {
  }

  lemma DivUnique(n: nat, d: nat, q: nat, r: nat)
    requires 0 <= r < d && n == d * q + r
    ensures n / d == q
  {
    var q' := n / d;
    var r' := n % d;
    assert n == d * q' + r';
    if q' < q {
      MulMonotone(d, q' + 1, q);
    } else if q' > q {
      MulMonotone(d, q + 1, q');
    }
  }

  /** A dashboard with every task completed shows 100%, one with none 0%. */
  lemma CompletionRateOfTasks(tasks: seq<Task>)
    ensures (forall i | 0 <= i < |tasks| :: tasks[i].status == Completed) ==>
              CompletionRate(ComputeStats(tasks)) == (if tasks == [] then 0 else 100)
    ensures (forall i | 0 <= i < |tasks| :: tasks[i].status != Completed) ==>
              CompletionRate(ComputeStats(tasks)) == 0
  {
    if forall i | 0 <= i < |tasks| :: tasks[i].status == Completed {
      FilterAll(HasStatus(Completed), tasks);
    }
    if forall i | 0 <= i < |tasks| :: tasks[i].status != Completed {
      NoneCompleted(tasks);
    }
  }

  lemma {:induction false} NoneCompleted(tasks: seq<Task>)
    requires forall i | 0 <= i < |tasks| :: tasks[i].status != Completed
    ensures CountStatus(tasks, Completed) == 0
  {
    if tasks != [] {
      NoneCompleted(tasks[1..]);
      assert Filter(HasStatus(Completed), tasks) == Filter(HasStatus(Completed), tasks[1..]);
    }
  }

  class DashboardPage {
    var isModalOpen: bool
    var editingTask: Option<Task>
    var filters: TaskFilters
    var sort: TaskSort

    /** The modal closed, nothing being edited, no filters, newest first. */
    constructor ()
      ensures !isModalOpen && editingTask.None?
      ensures filters == NoFilters && sort == DefaultSort
    {
      isModalOpen := false;
      editingTask := None;
      filters := NoFilters;
      sort := DefaultSort;
    }

    /** `handelEditTask`: the form edits `t` in the opened modal. */
    method EditTask(t: Task)
      modifies this
      ensures isModalOpen && editingTask == Some(t)
      ensures filters == old(filters) && sort == old(sort)
    {
      editingTask := Some(t);
      isModalOpen := true;
    }

    /** The "New Task" button as written: it opens the modal and leaves
        `editingTask` as it was. */
    method NewTaskAsWritten()
      modifies this
      ensures isModalOpen && editingTask == old(editingTask)
      ensures filters == old(filters) && sort == old(sort)
    {
      isModalOpen := true;
    }

    /** The "New Task" button as intended: the opened form creates a task. */
    method NewTask()
      modifies this
      ensures isModalOpen && editingTask.None?
      ensures filters == old(filters) && sort == old(sort)
    {
      editingTask := None;
      isModalOpen := true;
    }

    /** The modal's own close control, and the form closing it after a
        successful save: only `isModalOpen` changes. */
    method CloseModal()
      modifies this
      ensures !isModalOpen && editingTask == old(editingTask)
      ensures filters == old(filters) && sort == old(sort)
    {
      isModalOpen := false;
    }

    /** The form's Cancel: closes the modal and forgets the edited task. */
    method Cancel()
      modifies this
      ensures !isModalOpen && editingTask.None?
      ensures filters == old(filters) && sort == old(sort)
    {
      isModalOpen := false;
      editingTask := None;
    }

    /** `onFiltersChange` and `onSortChange` of the list are the setters. */
    method SetFilters(f: TaskFilters)
      modifies this
      ensures filters == f
      ensures isModalOpen == old(isModalOpen) && editingTask == old(editingTask) && sort == old(sort)
    {
      filters := f;
    }

    method SetSort(s: TaskSort)
      modifies this
      ensures sort == s
      ensures isModalOpen == old(isModalOpen) && editingTask == old(editingTask) && filters == old(filters)
    {
      sort := s;
    }
  }

  /** Edit a task, save it (the form closes the modal), press "New Task": as
      written, the "Create Task" modal opens on the form for the task just
      edited, whose submit updates that task again. */
  method StaleEditAsWritten(t: Task) returns (page: DashboardPage)
    ensures page.isModalOpen && page.editingTask == Some(t)
  {
    page := new DashboardPage();
    page.EditTask(t);
    page.CloseModal();
    page.NewTaskAsWritten();
  }

  /** The same clicks with the intended button open an empty form. */
  method FreshFormAfterEdit(t: Task) returns (page: DashboardPage)
    ensures page.isModalOpen && page.editingTask.None?
  {
    page := new DashboardPage();
    page.EditTask(t);
    page.CloseModal();
    page.NewTask();
  }
}

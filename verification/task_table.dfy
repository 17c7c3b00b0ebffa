/**
 * The task list (src/components/tasks/task-table.tsx): the search and status
 * filter over the tasks, and the role-dependent columns, actions and rating cell.
 */
module Table {
  import opened Wrappers
  import opened Lists
  import opened Text
  import opened Auth
  import opened Data
  import Stars

  /** The status filter's value that lets every status through. */
  const AllStatuses: string := "All"

  /** The separator the services of a task are joined with, for searching and for display. */
  const ServiceSeparator: string := ", "

  /** `matchesSearch`: the lowered term occurs in the lowered client name or in the lowered joined services. */
  predicate MatchesSearch(task: Task, searchTerm: string)
  {
    Includes(ToLower(task.clientName), ToLower(searchTerm))
    || Includes(ToLower(Join(task.services, ServiceSeparator)), ToLower(searchTerm))
  }

  /** `matchesStatus`: the filter is "All" or the task's status label. */
  predicate MatchesStatus(task: Task, statusFilter: string)
  {
    statusFilter == AllStatuses || Label(task.status) == statusFilter
  }

  function Matches(searchTerm: string, statusFilter: string): Task -> bool
  {
    task => MatchesSearch(task, searchTerm) && MatchesStatus(task, statusFilter)
  }

  /** `filteredTasks`. */
  function FilteredTasks(tasks: seq<Task>, searchTerm: string, statusFilter: string): seq<Task>
  {
    Filter(tasks, Matches(searchTerm, statusFilter))
  }

  /**
   * The filtered list keeps exactly the tasks that match both the search and the
   * status filter, each as often as it occurs, in their original order.
   */
  lemma FilteredTasksSpec(tasks: seq<Task>, searchTerm: string, statusFilter: string)
    ensures IsSubsequence(FilteredTasks(tasks, searchTerm, statusFilter), tasks)
    ensures forall k :: 0 <= k < |FilteredTasks(tasks, searchTerm, statusFilter)| ==>
      var task := FilteredTasks(tasks, searchTerm, statusFilter)[k];
      task in tasks && MatchesSearch(task, searchTerm) && MatchesStatus(task, statusFilter)
    ensures forall k :: 0 <= k < |tasks| && MatchesSearch(tasks[k], searchTerm) && MatchesStatus(tasks[k], statusFilter) ==>
      tasks[k] in FilteredTasks(tasks, searchTerm, statusFilter)
    ensures forall task ::
      multiset(FilteredTasks(tasks, searchTerm, statusFilter))[task] ==
      (if MatchesSearch(task, searchTerm) && MatchesStatus(task, statusFilter) then multiset(tasks)[task] else 0)
  {
    var p := Matches(searchTerm, statusFilter);
    FilterIsSubsequence(tasks, p);
    FilterMembers(tasks, p);
    forall task
      ensures multiset(FilteredTasks(tasks, searchTerm, statusFilter))[task] ==
        (if MatchesSearch(task, searchTerm) && MatchesStatus(task, statusFilter) then multiset(tasks)[task] else 0)
    {
      FilterCount(tasks, p, task);
    }
  }

  /** The lowered term occurs somewhere in the lowered text. */
  ghost predicate OccursIgnoringCase(text: string, term: string)
  {
    exists i :: OccursAt(ToLower(text), ToLower(term), i)
  }

  /** A task matches the search exactly when the term occurs, ignoring case, in its client name or its joined services. */
  lemma MatchesSearchIffOccurs(task: Task, searchTerm: string)
    ensures MatchesSearch(task, searchTerm) <==>
      OccursIgnoringCase(task.clientName, searchTerm) || OccursIgnoringCase(Join(task.services, ServiceSeparator), searchTerm)
  {
    IncludesIffOccurs(ToLower(task.clientName), ToLower(searchTerm));
    IncludesIffOccurs(ToLower(Join(task.services, ServiceSeparator)), ToLower(searchTerm));
  }

  /** The initial state, an empty search with status "All", lists every task unchanged. */
  lemma InitialFilterKeepsAll(tasks: seq<Task>)
    ensures FilteredTasks(tasks, "", AllStatuses) == tasks
  {
    var p := Matches("", AllStatuses);
    forall k | 0 <= k < |tasks|
      ensures p(tasks[k])
    {
      assert ToLower("") == "";
      IncludesEmpty(ToLower(tasks[k].clientName));
    }
    FilterKeepsAll(tasks, p);
  }

  /** The status options, after "All": the keys of `statusVariants`, in their order. */
  const StatusOptions: seq<Status> := [Completed, InReview, InProgress, NotStarted]

  /** Choosing a status option keeps exactly the tasks with that status, among those matching the search. */
  lemma StatusOptionSelects(task: Task, s: Status)
    ensures MatchesStatus(task, Label(s)) <==> task.status == s
  {
    StatusOfLabel(s);
    StatusOfLabel(task.status);
  }

  /** Every status is offered as an option. */
  lemma EveryStatusOffered(s: Status)
    ensures s in StatusOptions
  {
  }

  /** `showAssignee`. */
  predicate ShowAssignee(role: Role)
  {
    role == Admin || role == Manager
  }

  /** The header cells, by label key. */
  function Columns(role: Role): seq<string>
  {
    ["clientName", "task"] + (if ShowAssignee(role) then ["assignee"] else []) + ["status", "date", "rating", "actions"]
  }

  /** The span of the "no data" row. */
  function EmptyRowSpan(role: Role): nat
  {
    if ShowAssignee(role) then 7 else 6
  }

  /**
   * The assignee column appears exactly for Admin and Manager, and the "no data"
   * row always spans the whole header: 7 columns then, 6 otherwise.
   */
  lemma EmptyRowSpansHeader(role: Role)
    ensures "assignee" in Columns(role) <==> role in {Admin, Manager}
    ensures EmptyRowSpan(role) == |Columns(role)|
    ensures EmptyRowSpan(role) == if role in {Admin, Manager} then 7 else 6
  {
    if !ShowAssignee(role) {
      assert Columns(role) == ["clientName", "task", "status", "date", "rating", "actions"];
      assert "assignee"[0] != "clientName"[0] && "assignee"[0] != "task"[0] && "assignee"[0] != "status"[0];
      assert "assignee"[0] != "date"[0] && "assignee"[0] != "rating"[0] && "assignee"[1] != "actions"[1];
    }
  }

  /** The row menu: "edit" for everyone, then "delete" for Admin only. */
  function RowActions(role: Role): seq<string>
  {
    ["edit"] + (if role == Admin then ["delete"] else [])
  }

  lemma DeleteOnlyForAdmin(role: Role)
    ensures "delete" in RowActions(role) <==> role == Admin
    ensures "edit" in RowActions(role)
  {
    assert "delete"[0] != "edit"[0];
  }

  /** The rating cell: read-only stars for a rating, otherwise the "not rated yet" text. */
  datatype RatingCell = StarsOf(value: int) | NotRatedYet

  /** `task.rating ? <StarRating .../> : ...`: a rating shows as stars only when it is truthy. */
  function RatingCellOf(rating: Option<int>): RatingCell
  {
    if rating.Some? && rating.value != 0 then StarsOf(rating.value) else NotRatedYet
  }

  /**
   * A rating from 1 to 5 shows as stars with exactly that many filled; no rating,
   * or a rating of 0, shows the "not rated yet" text instead.
   */
  lemma RatingCellShowsRating(rating: Option<int>)
    ensures rating.Some? && 1 <= rating.value <= 5 ==>
      RatingCellOf(rating) == StarsOf(rating.value)
      && Stars.FilledCount(Stars.Effective(None, rating.value)) == rating.value
    ensures rating.None? || rating.value == 0 ==> RatingCellOf(rating) == NotRatedYet
  {
    if rating.Some? && 1 <= rating.value <= 5 {
      Stars.WholeRatingFillsExactly(rating.value);
    }
  }

  /** In the fixture, the completed tasks show stars and the others "not rated yet". */
  lemma FixtureRatingCells()
    ensures forall k :: 0 <= k < |Tasks| ==> (RatingCellOf(Tasks[k].rating).StarsOf? <==> Tasks[k].status == Completed)
  {
  }
}

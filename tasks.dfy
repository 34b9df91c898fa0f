/**
 * The task list: which tasks a filter button shows, the status a task's
 * check box switches it to, and the label shown for its priority.
 */
module TaskList {
  import opened Filters

  /** A task as the list holds it; `status` and `priority` are whatever the store returned. */
  datatype Task = Task(id: int, title: string, status: string, priority: string)

  const Completed: string := "completed"
  const Pending: string := "pending"

  /** The predicate of `filteredTasks` for the selected filter value. */
  predicate Shown(filter: string, task: Task) {
    if filter == "all" then true
    else if filter == Pending then task.status != Completed
    else if filter == Completed then task.status == Completed
    else true
  }

  /** `filteredTasks`: the tasks the selected filter shows, in list order. */
  function FilteredTasks(tasks: seq<Task>, filter: string): (r: seq<Task>)
    ensures |r| <= |tasks|
    ensures forall t :: t in r ==> t in tasks
  {
    Filter(tasks, (t: Task) => Shown(filter, t))
  }

  /** `'all'`, and every value other than `'pending'` and `'completed'`, shows every task. */
  lemma OtherFiltersShowAll(tasks: seq<Task>, filter: string)
    requires filter != Pending && filter != Completed
    ensures FilteredTasks(tasks, filter) == tasks
  {
    FilterAll(tasks, (t: Task) => Shown(filter, t));
  }

  /** `'pending'` shows exactly the tasks that are not completed, whatever
      else their status is. */
  lemma PendingShowsUnfinished(tasks: seq<Task>)
    ensures forall t :: t in FilteredTasks(tasks, Pending) <==> t in tasks && t.status != Completed
  {
  }

  /** `'completed'` shows exactly the completed tasks. */
  lemma CompletedShowsFinished(tasks: seq<Task>)
    ensures forall t :: t in FilteredTasks(tasks, Completed) <==> t in tasks && t.status == Completed
  {
  }

  /** The two views split the list: no task is in both, and together they
      hold every task exactly as often as the list does. */
  lemma PendingAndCompletedSplit(tasks: seq<Task>)
    ensures forall t :: t in FilteredTasks(tasks, Pending) ==> t !in FilteredTasks(tasks, Completed)
    ensures multiset(FilteredTasks(tasks, Pending)) + multiset(FilteredTasks(tasks, Completed)) == multiset(tasks)
    ensures |FilteredTasks(tasks, Pending)| + |FilteredTasks(tasks, Completed)| == |tasks|
  {
    FilterSplit(tasks, (t: Task) => Shown(Completed, t), (t: Task) => Shown(Pending, t));
  }

  /** Every view keeps list order: it distributes over concatenation. */
  lemma FilterKeepsOrder(a: seq<Task>, b: seq<Task>, filter: string)
    ensures FilteredTasks(a + b, filter) == FilteredTasks(a, filter) + FilteredTasks(b, filter)
  {
    FilterConcat(a, b, (t: Task) => Shown(filter, t));
  }

  /** `newStatus` in `handleToggleStatus`. */
  function ToggledStatus(status: string): (r: string)
    ensures r == Pending || r == Completed
    ensures r == Pending <==> status == Completed
  {
    if status == Completed then Pending else Completed
  }

  /** On the two statuses the check box shows, toggling twice restores the status. */
  lemma ToggleTwice(status: string)
    requires status == Pending || status == Completed
    ensures ToggledStatus(ToggledStatus(status)) == status
    ensures ToggledStatus(status) != status
  {
  }

  /** Any other status (`in_progress`, `cancelled`, ...) toggles to completed,
      and toggling again gives pending, not the original status. */
  lemma ToggleOtherStatus(status: string)
    requires status != Pending && status != Completed
    ensures ToggledStatus(status) == Completed
    ensures ToggledStatus(ToggledStatus(status)) == Pending
  {
  }

  /** Toggling moves a task between the two views: it is in the completed
      view afterwards exactly when it was in the pending view before. */
  lemma ToggleSwitchesView(task: Task)
    ensures Shown(Completed, task.(status := ToggledStatus(task.status))) <==> Shown(Pending, task)
    ensures Shown(Pending, task.(status := ToggledStatus(task.status))) <==> Shown(Completed, task)
  {
  }

  const HighLabel: string := "Высокий"
  const MediumLabel: string := "Средний"
  const LowLabel: string := "Низкий"

  /** `getPriorityLabel`: the label of a known priority, the value itself otherwise. */
  function PriorityLabel(priority: string): (r: string)
    ensures priority !in {"high", "medium", "low"} ==> r == priority
  {
    if priority == "high" then HighLabel
    else if priority == "medium" then MediumLabel
    else if priority == "low" then LowLabel
    else priority
  }

  /** The three levels get three different, non-empty labels. */
  lemma PriorityLabelsDistinct()
    ensures PriorityLabel("high") == HighLabel && PriorityLabel("medium") == MediumLabel && PriorityLabel("low") == LowLabel
    ensures |HighLabel| > 0 && |MediumLabel| > 0 && |LowLabel| > 0
    ensures HighLabel != MediumLabel && MediumLabel != LowLabel && HighLabel != LowLabel
  {
  }

  /** A label is never itself a priority key, so labelling is idempotent. */
  lemma PriorityLabelIdempotent(priority: string)
    ensures PriorityLabel(PriorityLabel(priority)) == PriorityLabel(priority)
  {
  }
}

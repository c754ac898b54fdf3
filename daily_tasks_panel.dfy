/**
 * The daily-task panel: the title input with its blank-title guard, the
 * `completed / total` counter, and the per-row checkbox and delete button,
 * which pass the row's own id to the mutation hooks.
 */
module DailyTasksPanel {
  import opened Wrappers
  import opened JsText
  import opened JsArray
  import opened QueryCache
  import opened UseDashboard

  /** The counter shown as `completed / total`:
      `tasks?.filter(t => t.isCompleted).length || 0` and `tasks?.length || 0`,
      where `tasks` is `undefined` until the query has data. */
  function Counter(data: Option<seq<DailyTask>>): (r: (nat, nat))
    ensures r.0 <= r.1
    ensures data.None? ==> r == (0, 0)
    ensures data.Some? ==> r.1 == |data.value| && r.0 == multiset(Flags(data.value))[true]
  {
    match data
    case None => (0, 0)
    case Some(tasks) =>
      CompletedCountIsFlagCount(tasks);
      (|Filter(tasks, IsCompleted)|, |tasks|)
  }

  /** The `isCompleted` flags, in list order. */
  function Flags(tasks: seq<DailyTask>): seq<bool> {
    Map(tasks, IsCompleted)
  }

  /** The completed count is the number of set flags. */
  lemma {:induction false} CompletedCountIsFlagCount(tasks: seq<DailyTask>)
    ensures |Filter(tasks, IsCompleted)| == multiset(Flags(tasks))[true]
  {
    if tasks != [] {
      CompletedCountIsFlagCount(tasks[1..]);
      assert Flags(tasks) == [tasks[0].isCompleted] + Flags(tasks[1..]);
    }
  }

  /** Creating a task leaves the completed count as it was and raises the
      total by one. */
  lemma CounterAfterCreate(tasks: seq<DailyTask>, id: string, title: string)
    ensures var before := Counter(Some(tasks));
            Counter(Some([DailyTask(id, title, false)] + tasks)) == (before.0, before.1 + 1)
  {
    var t := DailyTask(id, title, false);
    assert ([t] + tasks)[1..] == tasks;
  }

  /** Checking a task never lowers the completed count, unchecking never
      raises it, and neither changes the total. */
  lemma {:induction false} CounterAfterToggle(tasks: seq<DailyTask>, id: string, isCompleted: bool)
    ensures var before := Counter(Some(tasks));
            var after := Counter(Some(SetCompleted(tasks, id, isCompleted)));
            && after.1 == before.1
            && (isCompleted ==> after.0 >= before.0)
            && (!isCompleted ==> after.0 <= before.0)
  {
    if tasks != [] {
      CounterAfterToggle(tasks[1..], id, isCompleted);
      var r := SetCompleted(tasks, id, isCompleted);
      assert r[1..] == SetCompleted(tasks[1..], id, isCompleted);
    }
  }

  /** The panel's own state: the text of the new-task input. */
  class Panel {
    var newTaskTitle: string

    constructor ()
      ensures newTaskTitle == ""
    {
      newTaskTitle := "";
    }

    /** The input's `onChange`. */
    method SetNewTaskTitle(value: string)
      modifies this
      ensures newTaskTitle == value
    {
      newTaskTitle := value;
    }

    /** `disabled={isCreating || !newTaskTitle.trim()}`: the add button is
        off while a creation is pending and while the title is blank. */
    function CreateDisabled(isCreating: bool): (disabled: bool)
      reads this
      ensures disabled <==> isCreating || AllWhiteSpace(newTaskTitle)
    {
      TrimEmptyIffWhiteSpace(newTaskTitle);
      isCreating || Trim(newTaskTitle) == ""
    }

    /** `handleCreate`: a blank title does nothing; any other title is sent
        as typed, untrimmed, and the input is cleared once the creation has
        succeeded (the mock creation always succeeds). */
    method HandleCreate(store: TaskStore, client: QueryClient, id: string)
      modifies this, store, client
      ensures AllWhiteSpace(old(newTaskTitle)) ==>
                && newTaskTitle == old(newTaskTitle)
                && store.tasks == old(store.tasks)
                && client.invalidated == old(client.invalidated)
      ensures !AllWhiteSpace(old(newTaskTitle)) ==>
                && store.tasks == [DailyTask(id, old(newTaskTitle), false)] + old(store.tasks)
                && client.invalidated == old(client.invalidated) + [DailyTasks]
                && newTaskTitle == ""
    {
      TrimEmptyIffWhiteSpace(newTaskTitle);
      if Trim(newTaskTitle) == "" {
        return;
      }
      var _ := CreateDailyTaskMutation(store, client, id, newTaskTitle);
      newTaskTitle := "";
    }
  }

  /** A row's checkbox: toggles the row's own task to the checkbox's new value. */
  method OnCheckedChange(store: TaskStore, client: QueryClient, task: DailyTask, checked: bool)
    modifies store, client
    ensures store.tasks == SetCompleted(old(store.tasks), task.id, checked)
    ensures client.invalidated == old(client.invalidated) + [DailyTasks]
  {
    var _ := ToggleDailyTaskMutation(store, client, task.id, checked);
  }

  /** A row's delete button: deletes by the row's own id. */
  method OnDeleteClick(store: TaskStore, client: QueryClient, task: DailyTask)
    modifies store, client
    ensures store.tasks == WithoutId(old(store.tasks), task.id)
    ensures task !in store.tasks
    ensures client.invalidated == old(client.invalidated) + [DailyTasks]
  {
    DeleteDailyTaskMutation(store, client, task.id);
    WithoutIdSpec(old(store.tasks), task.id, []);
  }
}

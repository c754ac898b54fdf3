/**
 * The dashboard's data layer: the in-memory daily-task list that stands in
 * for a backend, the mock project list and log constructor, and the mutation
 * hooks, each of which asks the query cache to invalidate one key once its
 * call has succeeded. Random ids and the clock are parameters.
 */
module UseDashboard {
  import opened Wrappers
  import opened JsArray
  import opened QueryCache

  datatype DailyTask = DailyTask(id: string, title: string, isCompleted: bool)

  datatype Project = Project(id: string, name: string, description: Option<string>)

  datatype Log = Log(id: string, projectId: string, message: string, createdAt: string)

  /** The two tasks the mock list starts with. */
  const InitialTasks: seq<DailyTask> := [DailyTask("1", "Task 1", false), DailyTask("2", "Task 2", true)]

  // ---------------------------------------------------------------------------
  // The list operations the mock API performs

  function HasId(id: string): DailyTask -> bool {
    (t: DailyTask) => t.id == id
  }

  function LacksId(id: string): DailyTask -> bool {
    (t: DailyTask) => t.id != id
  }

  function IsCompleted(t: DailyTask): bool {
    t.isCompleted
  }

  /** A daily task, marked `isCompleted` when it carries `id` (`{ ...t, isCompleted }`). */
  function Mark(id: string, isCompleted: bool): DailyTask -> DailyTask {
    (t: DailyTask) => if t.id == id then t.(isCompleted := isCompleted) else t
  }

  /** `tasks.map(t => t.id === id ? { ...t, isCompleted } : t)` */
  function SetCompleted(tasks: seq<DailyTask>, id: string, isCompleted: bool): seq<DailyTask> {
    Map(tasks, Mark(id, isCompleted))
  }

  /** `tasks.filter(t => t.id !== id)` */
  function WithoutId(tasks: seq<DailyTask>, id: string): seq<DailyTask> {
    Filter(tasks, LacksId(id))
  }

  /** `tasks.find(t => t.id === id)` */
  function FindById(tasks: seq<DailyTask>, id: string): Option<DailyTask> {
    Find(tasks, HasId(id))
  }

  predicate Contains(tasks: seq<DailyTask>, id: string) {
    exists i :: 0 <= i < |tasks| && tasks[i].id == id
  }

  /** Toggling marks every task with the id and keeps everything else:
      same length, same order, same ids and titles. */
  lemma SetCompletedSpec(tasks: seq<DailyTask>, id: string, isCompleted: bool)
    ensures var r := SetCompleted(tasks, id, isCompleted);
            && |r| == |tasks|
            && (forall i :: 0 <= i < |tasks| && tasks[i].id == id ==> r[i] == tasks[i].(isCompleted := isCompleted))
            && (forall i :: 0 <= i < |tasks| && tasks[i].id != id ==> r[i] == tasks[i])
  {
  }

  /** After toggling, `find` by the id returns the first task with that id,
      now with the requested flag; it returns `undefined` exactly when no task
      has the id (the `!` in the source is a type assertion, not a check). */
  lemma {:induction false} FindAfterSetCompleted(tasks: seq<DailyTask>, id: string, isCompleted: bool)
    ensures var r := FindById(SetCompleted(tasks, id, isCompleted), id);
            && (r.Some? <==> Contains(tasks, id))
            && (r.Some? ==> FindById(tasks, id).Some? && r.value == FindById(tasks, id).value.(isCompleted := isCompleted))
            && (r.Some? ==> r.value.id == id && r.value.isCompleted == isCompleted)
  {
    var after := SetCompleted(tasks, id, isCompleted);
    var k := FindIndex(tasks, HasId(id));
    var k' := FindIndex(after, HasId(id));
    assert k' == k;
    if k < |tasks| {
      assert Contains(tasks, id);
    }
  }

  /** Deleting keeps exactly the tasks without the id: none with it remains,
      every other task remains, and the kept ones keep their order. */
  lemma WithoutIdSpec(tasks: seq<DailyTask>, id: string, more: seq<DailyTask>)
    ensures !Contains(WithoutId(tasks, id), id)
    ensures forall t :: t in tasks && t.id != id ==> t in WithoutId(tasks, id)
    ensures WithoutId(tasks + more, id) == WithoutId(tasks, id) + WithoutId(more, id)
  {
    var r := WithoutId(tasks, id);
    forall i | 0 <= i < |r| ensures r[i].id != id {
      assert r[i] in r;
    }
    FilterAppend(tasks, more, LacksId(id));
  }

  /** Deleting an id nobody has changes nothing. */
  lemma WithoutAbsentId(tasks: seq<DailyTask>, id: string)
    requires !Contains(tasks, id)
    ensures WithoutId(tasks, id) == tasks
  {
    FilterAllPass(tasks, LacksId(id));
  }

  /** Deleting the same id twice is deleting it once. */
  lemma WithoutIdIdempotent(tasks: seq<DailyTask>, id: string)
    ensures WithoutId(WithoutId(tasks, id), id) == WithoutId(tasks, id)
  {
    FilterIdempotent(tasks, LacksId(id));
  }

  /** Deleting shortens the list by the number of tasks that had the id. */
  lemma WithoutIdLength(tasks: seq<DailyTask>, id: string)
    ensures |WithoutId(tasks, id)| == |tasks| - |Filter(tasks, HasId(id))|
  {
    FilterPartition(tasks, LacksId(id), HasId(id));
  }

  // ---------------------------------------------------------------------------
  // The mock API over the module-level list `dailyTasksMock`

  class TaskStore {
    var tasks: seq<DailyTask>

    constructor ()
      ensures tasks == InitialTasks
    {
      tasks := InitialTasks;
    }

    /** `fetchDailyTasks`: the current list, unchanged. */
    method Fetch() returns (r: seq<DailyTask>)
      ensures r == tasks
    {
      r := tasks;
    }

    /** `createDailyTask({ title })` with the random id given as `id`: the new
        task is not completed and goes in front of the others. */
    method Create(id: string, title: string) returns (t: DailyTask)
      modifies this
      ensures t.id == id && t.title == title && !t.isCompleted
      ensures tasks == [t] + old(tasks)
    {
      t := DailyTask(id, title, false);
      tasks := [t] + tasks;
    }

    /** `toggleDailyTask({ id, isCompleted })`: marks every task with the id
        and returns the first of them, or `undefined` when there is none. */
    method Toggle(id: string, isCompleted: bool) returns (r: Option<DailyTask>)
      modifies this
      ensures tasks == SetCompleted(old(tasks), id, isCompleted)
      ensures r == FindById(tasks, id)
      ensures r.Some? <==> Contains(old(tasks), id)
      ensures r.Some? ==> r.value.id == id && r.value.isCompleted == isCompleted
    {
      FindAfterSetCompleted(tasks, id, isCompleted);
      tasks := SetCompleted(tasks, id, isCompleted);
      r := FindById(tasks, id);
    }

    /** `deleteDailyTask(id)`: drops every task with the id. */
    method Delete(id: string)
      modifies this
      ensures tasks == WithoutId(old(tasks), id)
      ensures !Contains(tasks, id)
      ensures !Contains(old(tasks), id) ==> tasks == old(tasks)
    {
      WithoutIdSpec(tasks, id, []);
      if !Contains(tasks, id) {
        WithoutAbsentId(tasks, id);
      }
      tasks := WithoutId(tasks, id);
    }
  }

  // ---------------------------------------------------------------------------
  // Projects and logs

  /** `fetchProjects`: the fixed mock list, whose ids are distinct, so that a
      project is found by its id without ambiguity. */
  function FetchProjects(): (projects: seq<Project>)
    ensures forall i, j :: 0 <= i < j < |projects| ==> projects[i].id != projects[j].id
  {
    [ Project("1", "Project One", Some("Опис першого проекту")),
      Project("2", "Project Two", Some("Опис другого проекту")) ]
  }

  /** `createLog(projectId, message)` with the random id and the timestamp
      given as parameters: the log records the project and the message as
      they were passed. */
  function CreateLog(id: string, createdAt: string, projectId: string, message: string): (log: Log)
    ensures log.projectId == projectId && log.message == message
    ensures log.id == id && log.createdAt == createdAt
  {
    Log(id, projectId, message, createdAt)
  }

  // ---------------------------------------------------------------------------
  // The mutation hooks: the call, then `onSuccess`. The mock calls cannot
  // fail, so `onSuccess` always runs.

  /** `useCreateDailyTask().mutate({ title })` */
  method CreateDailyTaskMutation(store: TaskStore, client: QueryClient, id: string, title: string)
    returns (t: DailyTask)
    modifies store, client
    ensures t == DailyTask(id, title, false) && store.tasks == [t] + old(store.tasks)
    ensures client.invalidated == old(client.invalidated) + [DailyTasks]
  {
    t := store.Create(id, title);
    client.InvalidateQueries(DailyTasks);
  }

  /** `useToggleDailyTask().mutate({ id, isCompleted })` */
  method ToggleDailyTaskMutation(store: TaskStore, client: QueryClient, id: string, isCompleted: bool)
    returns (r: Option<DailyTask>)
    modifies store, client
    ensures store.tasks == SetCompleted(old(store.tasks), id, isCompleted)
    ensures r.Some? <==> Contains(old(store.tasks), id)
    ensures r.Some? ==> r.value.id == id && r.value.isCompleted == isCompleted
    ensures client.invalidated == old(client.invalidated) + [DailyTasks]
  {
    r := store.Toggle(id, isCompleted);
    client.InvalidateQueries(DailyTasks);
  }

  /** `useDeleteDailyTask().mutate(id)` */
  method DeleteDailyTaskMutation(store: TaskStore, client: QueryClient, id: string)
    modifies store, client
    ensures store.tasks == WithoutId(old(store.tasks), id)
    ensures client.invalidated == old(client.invalidated) + [DailyTasks]
  {
    store.Delete(id);
    client.InvalidateQueries(DailyTasks);
  }

  /** `useCreateLog().mutate({ projectId, message })`: note that it is the
      `projects` key, not a log key, that gets invalidated. */
  method CreateLogMutation(client: QueryClient, id: string, createdAt: string, projectId: string, message: string)
    returns (log: Log)
    modifies client
    ensures log == CreateLog(id, createdAt, projectId, message)
    ensures client.invalidated == old(client.invalidated) + [Projects]
  {
    log := CreateLog(id, createdAt, projectId, message);
    client.InvalidateQueries(Projects);
  }
}

/** The local state of the service hooks: the settings hook (the weekly budget)
    and the tasks hook (the task list, with its optimistic edit and delete).
    Every reply of the remote store is a parameter. */
module TaskService {
  import opened JsValues

  const DefaultWeeklyHours: JsValue := Lit(40.0)
  const SettingsLoadFailed: JsValue := Text("Falha ao carregar configura\U{00E7}\U{00F5}es")
  const SettingsSaveFailed: JsValue := Text("Falha ao salvar configura\U{00E7}\U{00F5}es")
  const TasksLoadFailed: JsValue := Text("Falha ao carregar tarefas")
  const TaskSaveFailed: JsValue := Text("Falha ao salvar tarefa")
  const TaskDeleteFailed: JsValue := Text("Falha ao excluir tarefa")

  // ------------------------------------------------------- pure list logic

  /** `Boolean(taskData.id && typeof taskData.id === 'number')`. */
  predicate IsEditing(taskData: Object)
  {
    var id := Get(taskData, "id");
    Truthy(id) && id.Number?
  }

  /** A save is an edit exactly when the id is a number other than 0 and NaN;
      a missing id and the string ids the form draws for new tasks are not. */
  lemma IsEditingIffNonZeroNumber(taskData: Object)
    ensures IsEditing(taskData) <==> exists r: real :: r != 0.0 && Get(taskData, "id") == Lit(r)
  {
    if IsEditing(taskData) {
      var r := Get(taskData, "id").n.value;
      assert r != 0.0 && Get(taskData, "id") == Lit(r);
    }
  }

  /** The record handed to upsert: exactly user_id, name, the numeric duration,
      color and a description defaulting to '', plus the id when editing. */
  function RecordToSave(taskData: Object, userId: JsValue): (r: Object)
    ensures r.Keys == {"user_id", "name", "duration", "color", "description"}
                      + (if IsEditing(taskData) then {"id"} else {})
    ensures r["user_id"] == userId && r["name"] == Get(taskData, "name")
            && r["color"] == Get(taskData, "color")
    ensures r["duration"].Number? && r["duration"].n == ToNumber(Get(taskData, "duration"))
    ensures Truthy(Get(taskData, "description")) ==> r["description"] == Get(taskData, "description")
    ensures !Truthy(Get(taskData, "description")) ==> r["description"] == Text("")
    ensures IsEditing(taskData) ==> r["id"] == Get(taskData, "id")
  {
    var taskToSave := map[
      "user_id" := userId,
      "name" := Get(taskData, "name"),
      "duration" := Number(ToNumber(Get(taskData, "duration"))),
      "color" := Get(taskData, "color"),
      "description" := Or(Get(taskData, "description"), Text(""))
    ];
    if IsEditing(taskData) then taskToSave["id" := Get(taskData, "id")] else taskToSave
  }

  /** The optimistic edit: `prev.map(task => task.id === id ? { ...task, ...saved } : task)`. */
  function ApplyEdit(tasks: seq<Object>, id: JsValue, saved: Object): (r: seq<Object>)
    ensures |r| == |tasks|
    ensures forall i :: 0 <= i < |tasks| && StrictEquals(Get(tasks[i], "id"), id) ==>
              r[i].Keys == tasks[i].Keys + saved.Keys
              && (forall k :: k in saved ==> r[i][k] == saved[k])
              && (forall k :: k in tasks[i] && k !in saved ==> r[i][k] == tasks[i][k])
    ensures forall i :: 0 <= i < |tasks| && !StrictEquals(Get(tasks[i], "id"), id) ==> r[i] == tasks[i]
  {
    seq(|tasks|, i requires 0 <= i < |tasks| =>
      if StrictEquals(Get(tasks[i], "id"), id) then tasks[i] + saved else tasks[i])
  }

  /** An edit keeps every task's id: the merged record's id is the edited id itself. */
  lemma ApplyEditKeepsIds(tasks: seq<Object>, taskData: Object, userId: JsValue)
    requires IsEditing(taskData)
    ensures var r := ApplyEdit(tasks, Get(taskData, "id"), RecordToSave(taskData, userId));
            forall i :: 0 <= i < |tasks| ==> Get(r[i], "id") == Get(tasks[i], "id")
  {
    var id := Get(taskData, "id");
    var r := ApplyEdit(tasks, id, RecordToSave(taskData, userId));
    forall i | 0 <= i < |tasks| ensures Get(r[i], "id") == Get(tasks[i], "id") {
      if StrictEquals(Get(tasks[i], "id"), id) {
        assert Get(tasks[i], "id") == id;
      }
    }
  }

  /** The optimistic delete: `prev.filter(task => task.id !== taskId)`. */
  function RemoveById(tasks: seq<Object>, taskId: JsValue): (r: seq<Object>)
    ensures |r| <= |tasks|
    ensures forall t :: t in r ==> t in tasks && !StrictEquals(Get(t, "id"), taskId)
    ensures forall t :: t in tasks && !StrictEquals(Get(t, "id"), taskId) ==> t in r
    decreases |tasks|
  {
    if tasks == [] then []
    else
      var rest := RemoveById(tasks[1..], taskId);
      if StrictEquals(Get(tasks[0], "id"), taskId) then rest else [tasks[0]] + rest
  }

  /** On a single task the filter keeps it exactly when its id is not `===` the
      deleted id; with RemoveByIdAppend this fixes the result on every list. */
  lemma RemoveByIdSingleton(t: Object, taskId: JsValue)
    ensures RemoveById([t], taskId) == (if StrictEquals(Get(t, "id"), taskId) then [] else [t])
  {
  }

  /** The filter keeps order: it distributes over concatenation. */
  lemma {:induction false} RemoveByIdAppend(a: seq<Object>, b: seq<Object>, taskId: JsValue)
    ensures RemoveById(a + b, taskId) == RemoveById(a, taskId) + RemoveById(b, taskId)
    decreases |a|
  {
    if a == [] {
      assert a + b == b;
    } else {
      assert (a + b)[1..] == a[1..] + b;
      RemoveByIdAppend(a[1..], b, taskId);
    }
  }

  /** Deleting an id that is no longer present leaves the list alone, so a
      second delete of the same id changes nothing. */
  lemma {:induction false} RemoveByIdIdempotent(tasks: seq<Object>, taskId: JsValue)
    ensures RemoveById(RemoveById(tasks, taskId), taskId) == RemoveById(tasks, taskId)
    decreases |tasks|
  {
    if tasks != [] {
      RemoveByIdIdempotent(tasks[1..], taskId);
      var rest := RemoveById(tasks[1..], taskId);
      if !StrictEquals(Get(tasks[0], "id"), taskId) {
        assert ([tasks[0]] + rest)[1..] == rest;
      }
    }
  }

  // --------------------------------------------------- the settings hook

  /** A write to the remote store that either completed or threw. */
  datatype WriteReply = Completed | Threw

  /** What the settings query ends in: a row, no row (PGRST116) followed by the
      insert of the default row, or another error. */
  datatype SettingsReply = Row(totalWeeklyHours: JsValue) | NoRow(insert: WriteReply) | QueryFailed

  /** useUserSettings: the weekly budget and the hook's error. */
  class SettingsStore {
    var totalWeeklyHours: JsValue
    var error: JsValue
    const userId: JsValue
    const isAuthReady: bool

    constructor (userId: JsValue, isAuthReady: bool)
      ensures this.userId == userId && this.isAuthReady == isAuthReady
      ensures totalWeeklyHours == DefaultWeeklyHours && error == Null
    {
      this.userId := userId;
      this.isAuthReady := isAuthReady;
      totalWeeklyHours := DefaultWeeklyHours;
      error := Null;
    }

    /** fetchSettings: a falsy stored budget gives 40; a missing row gives 40
        once the default row's insert has completed, while an insert that throws
        skips that assignment and sets the error; another query error sets the
        error and keeps the budget. Nothing happens before the user is known. */
    method LoadSettings(reply: SettingsReply)
      modifies this
      ensures !isAuthReady || !Truthy(userId) ==>
                totalWeeklyHours == old(totalWeeklyHours) && error == old(error)
      ensures isAuthReady && Truthy(userId) ==>
                match reply
                case Row(v) => totalWeeklyHours == Or(v, DefaultWeeklyHours) && error == old(error)
                case NoRow(Completed) => totalWeeklyHours == DefaultWeeklyHours && error == old(error)
                case NoRow(Threw) => totalWeeklyHours == old(totalWeeklyHours) && error == SettingsLoadFailed
                case QueryFailed => totalWeeklyHours == old(totalWeeklyHours) && error == SettingsLoadFailed
    {
      if !isAuthReady || !Truthy(userId) {
        return;
      }
      match reply {
        case Row(v) => totalWeeklyHours := Or(v, DefaultWeeklyHours);
        case NoRow(insert) =>
          if insert == Completed {
            totalWeeklyHours := DefaultWeeklyHours;
          } else {
            error := SettingsLoadFailed;
          }
        case QueryFailed => error := SettingsLoadFailed;
      }
    }

    /** handleTotalHoursChange: the budget becomes Number(input) straight away;
        the upsert runs only for a known user and its failure sets the error. */
    method HandleTotalHoursChange(input: JsValue, upsert: WriteReply)
      modifies this
      ensures totalWeeklyHours == Number(ToNumber(input))
      ensures error == (if Truthy(userId) && upsert == Threw then SettingsSaveFailed else old(error))
    {
      totalWeeklyHours := Number(ToNumber(input));
      if Truthy(userId) && upsert == Threw {
        error := SettingsSaveFailed;
      }
    }
  }

  /** A loaded budget is never falsy; read as a number it is 40 unless the
      stored value was a number other than 0. */
  lemma LoadedBudget(stored: JsValue)
    ensures Truthy(Or(stored, DefaultWeeklyHours))
    ensures stored.Number? ==> NumberOrZero(Or(stored, DefaultWeeklyHours))
                               == (if Truthy(stored) then stored.n.value else 40.0)
  {
  }

  // ------------------------------------------------------ the tasks hook

  /** What the tasks query ends in: rows (possibly null) or an error. */
  datatype TasksReply = Rows(data: Option<seq<Object>>) | TasksFailed

  /** What the delete request ends in: it returned (an error it reports is
      ignored); it threw and the list was fetched again; or it threw and the
      refetch in the handler threw too. */
  datatype DeleteReply = Deleted | DeleteThrew(refetched: Option<seq<Object>>) | RefetchThrew

  /** `data || []`. */
  function RowsOrEmpty(data: Option<seq<Object>>): seq<Object>
  {
    match data
    case None => []
    case Some(rows) => rows
  }

  /** useTasks: the task list, the loading flag and the hook's error. */
  class TaskStore {
    var tasks: seq<Object>
    var isLoading: bool
    var error: JsValue
    const userId: JsValue

    constructor (userId: JsValue)
      ensures this.userId == userId && tasks == [] && isLoading && error == Null
    {
      this.userId := userId;
      tasks := [];
      isLoading := true;
      error := Null;
    }

    /** The start of the fetch effect: once auth is ready and the user is
        known, loading starts again and the error is cleared; otherwise nothing
        runs, so a store without a user stays loading. */
    method StartFetch(isAuthReady: bool)
      modifies this
      ensures tasks == old(tasks)
      ensures isAuthReady && Truthy(userId) ==> isLoading && error == Null
      ensures !isAuthReady || !Truthy(userId) ==> isLoading == old(isLoading) && error == old(error)
    {
      if !isAuthReady || !Truthy(userId) {
        return;
      }
      isLoading := true;
      error := Null;
    }

    /** fetchTasks once the query has answered: the rows (or []) on success,
        the error otherwise; loading ends either way. */
    method ReceiveTasks(reply: TasksReply)
      modifies this
      ensures !isLoading
      ensures reply.Rows? ==> tasks == RowsOrEmpty(reply.data) && error == old(error)
      ensures reply.TasksFailed? ==> tasks == old(tasks) && error == TasksLoadFailed
    {
      match reply {
        case Rows(data) => tasks := RowsOrEmpty(data);
        case TasksFailed => error := TasksLoadFailed;
      }
      isLoading := false;
    }

    /** handleSaveTask: builds the record, and once the upsert has succeeded
        merges it into the matching tasks when editing (a new task waits for
        the live update) and runs the callback, if one was given. Returns
        whether the callback ran. */
    method HandleSaveTask(taskData: Object, hasCallback: bool, upsertOk: bool) returns (calledBack: bool)
      modifies this
      ensures isLoading == old(isLoading)
      ensures !Truthy(userId) || !upsertOk ==> tasks == old(tasks)
      ensures calledBack <==> Truthy(userId) && upsertOk && hasCallback
      ensures error == (if Truthy(userId) && !upsertOk then TaskSaveFailed else old(error))
      ensures Truthy(userId) && upsertOk ==>
                tasks == (if IsEditing(taskData)
                          then ApplyEdit(old(tasks), Get(taskData, "id"), RecordToSave(taskData, userId))
                          else old(tasks))
    {
      calledBack := false;
      if !Truthy(userId) {
        return;
      }
      var taskToSave := RecordToSave(taskData, userId);
      if !upsertOk {
        error := TaskSaveFailed;
        return;
      }
      if IsEditing(taskData) {
        tasks := ApplyEdit(tasks, Get(taskData, "id"), taskToSave);
      }
      if hasCallback {
        calledBack := true;
      }
    }

    /** handleDeleteTask: after the user confirms, the task is removed at once;
        if the delete request throws, the error is set and the list is replaced
        by a fresh, unordered fetch. When that fetch throws as well, the handler
        rejects with the filtered list and the error in place. */
    method HandleDeleteTask(taskId: JsValue, confirmed: bool, reply: DeleteReply)
      modifies this
      ensures isLoading == old(isLoading)
      ensures !Truthy(userId) || !confirmed ==> tasks == old(tasks) && error == old(error)
      ensures Truthy(userId) && confirmed ==>
                match reply
                case Deleted => tasks == RemoveById(old(tasks), taskId) && error == old(error)
                case DeleteThrew(refetched) => tasks == RowsOrEmpty(refetched) && error == TaskDeleteFailed
                case RefetchThrew => tasks == RemoveById(old(tasks), taskId) && error == TaskDeleteFailed
    {
      if !Truthy(userId) || !confirmed {
        return;
      }
      tasks := RemoveById(tasks, taskId);
      match reply {
        case Deleted =>
        case DeleteThrew(refetched) =>
          error := TaskDeleteFailed;
          tasks := RowsOrEmpty(refetched);
        case RefetchThrew =>
          error := TaskDeleteFailed;
      }
    }
  }
}

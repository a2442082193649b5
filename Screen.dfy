/** The main planner screen built on the service hooks: its error banner, the
    task modal, and how the form, the task list and the ledger fit together. */
module Screen {
  import opened JsValues
  import opened Ledger
  import opened TaskForm
  import opened TaskService

  /** `authError || settingsError || tasksError`. */
  function CombinedError(authError: JsValue, settingsError: JsValue, tasksError: JsValue): (e: JsValue)
    ensures Truthy(e) <==> Truthy(authError) || Truthy(settingsError) || Truthy(tasksError)
  {
    Or(Or(authError, settingsError), tasksError)
  }

  /** Each hook's error is null or a message. */
  predicate IsErrorState(e: JsValue)
  {
    e == Null || (e.Str? && e.text != "")
  }

  /** The banner shows the first error that is not null, in the order auth,
      settings, tasks, and there is no error screen when all three are null. */
  lemma CombinedErrorIsFirstNonNull(authError: JsValue, settingsError: JsValue, tasksError: JsValue)
    requires IsErrorState(authError) && IsErrorState(settingsError) && IsErrorState(tasksError)
    ensures CombinedError(authError, settingsError, tasksError)
            == (if authError != Null then authError
                else if settingsError != Null then settingsError
                else tasksError)
  {
  }

  // ---------------------------------------------- the ledger and the list

  /** The tasks a delete of `taskId` removes: `prev.filter(task => task.id === taskId)`. */
  function MatchingId(tasks: seq<Object>, taskId: JsValue): (r: seq<Object>)
    ensures forall t :: t in r ==> t in tasks && StrictEquals(Get(t, "id"), taskId)
    decreases |tasks|
  {
    if tasks == [] then []
    else
      var rest := MatchingId(tasks[1..], taskId);
      if StrictEquals(Get(tasks[0], "id"), taskId) then [tasks[0]] + rest else rest
  }

  /** A confirmed delete lowers the used hours by exactly the hours of the tasks it removed. */
  lemma {:induction false} DeleteSplitsUsedHours(tasks: seq<Object>, taskId: JsValue)
    ensures UsedHours(tasks) == UsedHours(RemoveById(tasks, taskId)) + UsedHours(MatchingId(tasks, taskId))
    decreases |tasks|
  {
    if tasks != [] {
      DeleteSplitsUsedHours(tasks[1..], taskId);
      assert tasks == [tasks[0]] + tasks[1..];
      UsedHoursCons(tasks[0], tasks[1..]);
      if StrictEquals(Get(tasks[0], "id"), taskId) {
        UsedHoursCons(tasks[0], MatchingId(tasks[1..], taskId));
      } else {
        UsedHoursCons(tasks[0], RemoveById(tasks[1..], taskId));
      }
    }
  }

  /** A task saved from a new-task form carries the form's drawn string id, so
      the save is not an edit and the local list waits for the live update. */
  lemma NewTaskIsNotAnEdit(freshId: string, changes: Object)
    requires freshId != ""
    requires "id" !in changes
    requires Submit(InitialForm(None, freshId) + changes).Saved?
    ensures !IsEditing(Submit(InitialForm(None, freshId) + changes).taskData)
  {
    var form := InitialForm(None, freshId) + changes;
    assert Get(Submit(form).taskData, "id") == Text(freshId);
  }

  /** Editing a task with a numeric id through the form: every task with that
      id afterwards holds the submitted name and a positive duration, and no
      other task changes. */
  lemma FormEditUpdatesTask(tasks: seq<Object>, form: Object, userId: JsValue)
    requires Submit(form).Saved? && IsEditing(Submit(form).taskData)
    ensures var data := Submit(form).taskData;
            var r := ApplyEdit(tasks, Get(form, "id"), RecordToSave(data, userId));
            && |r| == |tasks|
            && (forall i :: 0 <= i < |tasks| && StrictEquals(Get(tasks[i], "id"), Get(form, "id")) ==>
                  Get(r[i], "name") == Get(form, "name") && TaskHours(r[i]) > 0.0)
            && (forall i :: 0 <= i < |tasks| && !StrictEquals(Get(tasks[i], "id"), Get(form, "id")) ==>
                  r[i] == tasks[i])
  {
    var data := Submit(form).taskData;
    assert Get(data, "id") == Get(form, "id");
    assert Get(data, "name") == Get(form, "name");
    var saved := RecordToSave(data, userId);
    assert ToNumber(saved["duration"]) == ToNumber(Get(data, "duration"));
  }

  /** A first visit: budget 40 and no tasks give 40 free hours, no notice, and
      a chart with the single 'Tempo Livre' slot of 40 hours. */
  lemma FirstVisit(show: real -> string)
    ensures ComputeUsage([], DefaultWeeklyHours) == Usage(0.0, 40.0, 0.0)
    ensures Notification(0.0, show) == ""
    ensures ChartVisible([], 40.0)
    ensures Series([], 40.0) == ChartSeries([FreeTimeLabel], [Lit(40.0)], [FreeTimeColor])
  {
  }

  // --------------------------------------------------------------- modal

  /** The modal and the editing task of the screen. */
  class Modal {
    var isModalOpen: bool
    var editingTask: Option<Object>

    constructor ()
      ensures !isModalOpen && editingTask == None
    {
      isModalOpen := false;
      editingTask := None;
    }

    /** openModal: a task to edit, or None for a new one. */
    method OpenModal(task: Option<Object>)
      modifies this
      ensures isModalOpen && editingTask == task
    {
      editingTask := task;
      isModalOpen := true;
    }

    /** closeModal. */
    method CloseModal()
      modifies this
      ensures !isModalOpen && editingTask == None
    {
      isModalOpen := false;
      editingTask := None;
    }

    /** Submitting the open form as the screen wires it: onSave is the hook's
        handler with no callback, so the modal stays open whatever happens. */
    method SubmitAsWired(form: FormState, store: TaskStore, upsertOk: bool) returns (s: Submission)
      requires isModalOpen
      modifies store
      ensures s == Submit(form.formData)
      ensures isModalOpen && editingTask == old(editingTask)
      ensures store.isLoading == old(store.isLoading)
      ensures store.error == (if s.Saved? && Truthy(store.userId) && !upsertOk then TaskSaveFailed else old(store.error))
      ensures store.tasks == (if s.Saved? && Truthy(store.userId) && upsertOk && IsEditing(s.taskData)
                              then ApplyEdit(old(store.tasks), Get(s.taskData, "id"), RecordToSave(s.taskData, store.userId))
                              else old(store.tasks))
    {
      s := form.HandleSubmit();
      if s.Saved? {
        var calledBack := store.HandleSaveTask(s.taskData, false, upsertOk);
      }
    }

    /** The corrected wiring: the same submit with closeModal passed as the
        callback, so the modal closes exactly when a known user's save succeeded. */
    method SubmitClosingModal(form: FormState, store: TaskStore, upsertOk: bool) returns (s: Submission)
      requires isModalOpen
      modifies this, store
      ensures s == Submit(form.formData)
      ensures !isModalOpen <==> s.Saved? && Truthy(store.userId) && upsertOk
      ensures isModalOpen ==> editingTask == old(editingTask)
      ensures !isModalOpen ==> editingTask == None
      ensures store.isLoading == old(store.isLoading)
      ensures store.error == (if s.Saved? && Truthy(store.userId) && !upsertOk then TaskSaveFailed else old(store.error))
      ensures store.tasks == (if s.Saved? && Truthy(store.userId) && upsertOk && IsEditing(s.taskData)
                              then ApplyEdit(old(store.tasks), Get(s.taskData, "id"), RecordToSave(s.taskData, store.userId))
                              else old(store.tasks))
    {
      s := form.HandleSubmit();
      if s.Saved? {
        var calledBack := store.HandleSaveTask(s.taskData, true, upsertOk);
        if calledBack {
          CloseModal();
        }
      }
    }
  }

  /** A new task named "Estudar" of 5 hours passes validation. */
  lemma EstudarIsValid(freshId: string)
    requires freshId != ""
    ensures Submit(InitialForm(None, freshId)["name" := Text("Estudar")]["duration" := Str("5", Real(5.0))]).Saved?
  {
    var form := InitialForm(None, freshId)["name" := Text("Estudar")]["duration" := Str("5", Real(5.0))];
    assert Get(form, "name") == Text("Estudar");
    assert Get(form, "duration") == Str("5", Real(5.0));
    assert !IsBlank("Estudar") by { assert !IsWhitespace("Estudar"[0]); }
    assert !IsBlank("5") by { assert !IsWhitespace("5"[0]); }
  }

  /** A concrete run of the screen as wired: a signed-in user adds "Estudar"
      for 5 hours, the save succeeds, and the modal is still open. */
  method SavedFormLeavesModalOpen() returns (s: Submission, stillOpen: bool)
    ensures s.Saved? && stillOpen
  {
    var store := new TaskStore(Text("user-1"));
    var form := new FormState(None, "3f2b8c1e-0000-4000-8000-000000000000");
    form.HandleChange("name", Text("Estudar"));
    form.HandleChange("duration", Str("5", Real(5.0)));
    EstudarIsValid("3f2b8c1e-0000-4000-8000-000000000000");
    var modal := new Modal();
    modal.OpenModal(None);
    s := modal.SubmitAsWired(form, store, true);
    stillOpen := modal.isModalOpen;
  }
}

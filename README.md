# Weekly-hours planner: the ledger and the local task-list logic

The planner is a React client. Users set a weekly hour budget, add tasks
with a name, a duration, a colour and a description, and see a doughnut
chart of the hours used against the free hours. Tasks and settings live in
a remote store. This project models the small deterministic part of the
client and proves what it promises:

- **the hours ledger** (`Ledger`): used hours are the sum of
  `Number(duration) || 0`. Remaining hours are `max(0, total − used)` and
  excess hours are `max(0, used − total)`, with a non-numeric budget read
  as 0. The module also covers the chart series, with its one grey
  'Tempo Livre' slot, the over-budget notice and the chart-or-placeholder
  condition;
- **the task form** (`TaskForm`): its initial data, with the fallbacks for
  falsy fields. Submit checks the trimmed name first and then
  `Number(duration)`; on success the form goes to onSave with a numeric
  duration;
- **the service hooks' local state** (`TaskService`): the settings hook has
  a default of 40 and sets the budget to `Number(input)`. In the tasks hook,
  a save counts as an edit only for a numeric id. The module covers the
  record sent to the store, the optimistic replace-by-id and
  remove-by-id, and the error paths;
- **the main screen on the hooks** (`Screen`): the combined error banner,
  the task modal, and how the form, the list and the ledger fit together;
- **the alternative screen** (`AlternativeApp`): mutable task objects
  edited by index, deletion with `splice`, a creation panel and an
  unbounded ± hours counter.

JavaScript values are written out in `JsValues`: primitives, records as
string-keyed maps (so `{...a, ...b}` is `a + b`), `Number()`, truthiness,
`||`, `===` (where NaN equals nothing) and `trim`. A string carries the
number `Number()` reads from it. That grammar is an input of the model,
except that a blank string reads as 0. Durations and budgets are exact
`real`s.

`src/App.js` and `projeto.horas.semanais/src/App.js` have the same usage
memo, notification effect, chart memo, chart condition and task form, line
for line (src/App.js:162-180, 251-272, 374, 447-480 against
projeto.horas.semanais/src/App.js:25-43, 57-78, 185, 258-291). Each piece is
modelled once, and the table cites whichever copy the member's contract is
closest to. No budget check on save exists in the code: the form checks
only the name and that the duration is positive, and a save may take the
used hours past the budget, which the notice then reports.

Stateful code keeps its form. The hooks, the form state, the modal and the
alternative screen are classes whose methods assign their fields. The
alternative screen's tasks are objects, and the edit assigns the title on
the object the previous list shares. Pure code (the usage reduce, the
chart's maps, validation and the map/filter list updates) is modelled as
functions with lemmas.

## Model

| member | source | states |
|---|---|---|
| `JsValues.NumberOrZeroIsOrZero` | src/App.js:163-164 | `Number(v) \|\| 0` is the number Number() gives, with NaN and 0 both giving 0 |
| `JsValues.StrictEqualsSymmetric` | projeto.horas.semanais/src/supabaseService.js:200 | `===` is symmetric and every value but NaN equals itself, so only a NaN id can never be matched |
| `JsValues.TrimEmptyIffBlank` | src/App.js:465 | `!name.trim()` holds exactly for names made only of white space |
| `Ledger.ComputeUsage` | src/App.js:162-170 | used hours are the fold of task hours; remaining and excess are non-negative, never both positive, positive exactly when the budget is above (resp. below) the used hours, and remaining − excess = budget − used |
| `Ledger.UsedHoursAppend` | projeto.horas.semanais/src/App.js:26 | the used hours of a concatenated list are the sum of the parts' used hours |
| `Ledger.UsedHoursCons` | src/App.js:163 | the fold read from the right: first task's hours plus the rest's |
| `Ledger.UsedHoursNonNegative` | projeto.horas.semanais/src/App.js:26 | with no negative duration, used hours are non-negative |
| `Ledger.NonNumericDurationCountsZero` | projeto.horas.semanais/src/App.js:26-32 | tasks of 10 hours and of "bad" against 40 give 10 used, 30 remaining, 0 excess |
| `Ledger.Pluck` | src/App.js:252-254 | `tasks.map(task => task.k)` keeps length and order, element by element |
| `Ledger.Series` | src/App.js:251-260 | labels, data and colours are the tasks' names, raw durations and colours in order, have equal length, and gain one ('Tempo Livre', remaining, '#d1d5db') entry exactly when remaining > 0 |
| `Ledger.BuildChartData` | projeto.horas.semanais/src/App.js:57-66 | the map-then-push construction yields exactly that series |
| `Ledger.SumOfDurationsIsUsed` | src/App.js:253 | the chart's task slices, read as numbers, add up to the ledger's used hours |
| `Ledger.ChartCoversBudget` | src/App.js:256-259 | when free time is shown, all slices together add up to the budget |
| `Ledger.ChartVisibleIffSeriesNonEmpty` | src/App.js:374 | the chart is drawn exactly when its series is non-empty, i.e. when there are tasks or the budget exceeds the used hours |
| `Ledger.Notification` | src/App.js:173-180 | the notice is empty exactly when excess ≤ 0; otherwise it starts with the fixed text, contains the hours, followed by " hora", an 's' exactly when excess > 1, and a final '.' |
| `Ledger.NoticeFollowsLedger` | projeto.horas.semanais/src/App.js:36-43 | the notice appears exactly when used hours exceed the budget, in the plural exactly when by more than one hour |
| `TaskForm.InitialForm` | src/App.js:448-454 | the form has exactly id, name, duration, colour, description; truthy fields of the edited task are kept; falsy ones become a fresh id, '', '', '#3b82f6', '' |
| `TaskForm.NewTaskForm` | projeto.horas.semanais/src/App.js:259-265 | a new task's form: fresh id, colour '#3b82f6', empty name, duration and description |
| `TaskForm.ZeroDurationOpensEmpty` | src/App.js:451 | a task with duration 0 opens with an empty duration, which submit rejects |
| `TaskForm.InitialFormIdempotent` | projeto.horas.semanais/src/App.js:260-264 | opening the form on its own data gives that data back, whatever id is drawn |
| `TaskForm.Submit` | src/App.js:461-480 | a non-string name throws; a blank name is rejected; then a NaN or non-positive duration is rejected; otherwise onSave gets the form unchanged but for a positive numeric duration |
| `TaskForm.BlankNameShadowsDuration` | projeto.horas.semanais/src/App.js:276-285 | with a blank name the outcome is the name alert whatever the duration |
| `TaskForm.SubmitIdempotent` | projeto.horas.semanais/src/App.js:281-290 | submitting the data onSave received hands the same data on again |
| `TaskForm.FormState.constructor` | src/App.js:448 | the form state starts as the initial data |
| `TaskForm.FormState.HandleChange` | src/App.js:456-459 | a change sets one field and keeps the others |
| `TaskForm.FormState.HandleSubmit` | projeto.horas.semanais/src/App.js:272-291 | submit decides on the current form data |
| `TaskService.IsEditingIffNonZeroNumber` | projeto.horas.semanais/src/supabaseService.js:163 | a save is an edit exactly when the id is a number other than 0 and NaN |
| `TaskService.RecordToSave` | projeto.horas.semanais/src/supabaseService.js:164-173 | the record has exactly user_id, name, numeric duration, colour and description ('' when falsy), plus the id only when editing |
| `TaskService.ApplyEdit` | projeto.horas.semanais/src/supabaseService.js:180-184 | length and order kept; tasks whose id is `===` the edited id get the saved fields merged over theirs; all others unchanged |
| `TaskService.ApplyEditKeepsIds` | projeto.horas.semanais/src/supabaseService.js:182 | an edit changes no task's id |
| `TaskService.RemoveById` | projeto.horas.semanais/src/supabaseService.js:200 | the result holds exactly the tasks whose id is not `===` the deleted id |
| `TaskService.RemoveByIdSingleton` | projeto.horas.semanais/src/supabaseService.js:200 | a one-task list keeps its task exactly when the id is not `===` the deleted id; with the append lemma this fixes the filter's result, order included |
| `TaskService.RemoveByIdAppend` | projeto.horas.semanais/src/supabaseService.js:200 | the filter distributes over concatenation, so order is kept |
| `TaskService.RemoveByIdIdempotent` | projeto.horas.semanais/src/supabaseService.js:200 | deleting the same id twice is the same as once |
| `TaskService.LoadedBudget` | projeto.horas.semanais/src/supabaseService.js:64-65 | a loaded budget is never falsy; a stored 0 reads as 40 |
| `TaskService.SettingsStore.constructor` | projeto.horas.semanais/src/supabaseService.js:49-50 | the budget starts at 40 and there is no error |
| `TaskService.SettingsStore.LoadSettings` | projeto.horas.semanais/src/supabaseService.js:52-77 | nothing before the user is known; a row gives `value \|\| 40`; no row gives 40 once the default row's insert completes, while a thrown insert sets the error and keeps the budget; another error sets the error and keeps the budget |
| `TaskService.SettingsStore.HandleTotalHoursChange` | projeto.horas.semanais/src/supabaseService.js:79-91 | the budget becomes Number(input); a failed write for a known user sets the error |
| `TaskService.TaskStore.constructor` | projeto.horas.semanais/src/supabaseService.js:98-100 | no tasks, loading, no error |
| `TaskService.TaskStore.StartFetch` | projeto.horas.semanais/src/supabaseService.js:102-105 | with auth ready and a known user, loading restarts and the error is cleared; otherwise nothing changes, so a store without a user stays loading |
| `TaskService.TaskStore.ReceiveTasks` | projeto.horas.semanais/src/supabaseService.js:107-121 | rows (or []) replace the list on success; a failure sets the error; loading ends |
| `TaskService.TaskStore.HandleSaveTask` | projeto.horas.semanais/src/supabaseService.js:159-193 | no-op without a user; a failed save sets the error and keeps the list; a successful edit applies the optimistic merge, a successful new save leaves the list alone; the callback runs only after success |
| `TaskService.TaskStore.HandleDeleteTask` | projeto.horas.semanais/src/supabaseService.js:195-216 | no-op without a user or confirmation; otherwise the tasks with the id are removed, and a thrown delete sets the error and replaces the list with the refetch (or []); if that refetch throws too, the filtered list stays with the error set |
| `Screen.CombinedError` | projeto.horas.semanais/src/App.js:22 | the banner is truthy exactly when one of the three errors is |
| `Screen.CombinedErrorIsFirstNonNull` | projeto.horas.semanais/src/App.js:22 | with errors that are null or messages, the banner is the first non-null of auth, settings, tasks |
| `Screen.DeleteSplitsUsedHours` | projeto.horas.semanais/src/supabaseService.js:200 | a delete lowers the used hours by exactly the hours of the removed tasks |
| `Screen.NewTaskIsNotAnEdit` | projeto.horas.semanais/src/App.js:260 | data submitted from a new-task form has a string id, so its save is never an edit |
| `Screen.FormEditUpdatesTask` | projeto.horas.semanais/src/supabaseService.js:179-184 | an edit through the form gives every matching task the submitted name and a positive duration and changes no other task |
| `Screen.FirstVisit` | projeto.horas.semanais/src/App.js:25-33 | budget 40 and no tasks: 40 free hours, no notice, a chart with the one free slot |
| `Screen.Modal.constructor` | projeto.horas.semanais/src/App.js:17-18 | the modal starts closed with no task |
| `Screen.Modal.OpenModal` | projeto.horas.semanais/src/App.js:46-49 | opening records the task and opens |
| `Screen.Modal.CloseModal` | projeto.horas.semanais/src/App.js:51-54 | closing clears the task |
| `Screen.Modal.SubmitAsWired` | projeto.horas.semanais/src/App.js:223-228 | as wired, submit saves without a callback and the modal stays open; the store ends as the hook's save leaves it: the error set on a failed save of a known user, the optimistic merge on a successful edit, otherwise the list unchanged |
| `Screen.Modal.SubmitClosingModal` | projeto.horas.semanais/src/supabaseService.js:188 | the corrected wiring: with closeModal as the callback, the modal closes exactly when a known user's save succeeded, and the store ends exactly as in the wired submit |
| `Screen.SavedFormLeavesModalOpen` | projeto.horas.semanais/src/App.js:226 | a successful save of a valid new task leaves the modal open |
| `AlternativeApp.SpliceStart` | projeto.horas.semanais/src/AlternativeApp.js:80 | splice's start is clamped into the list and an in-range index is used as is |
| `AlternativeApp.SplicedRemovesOne` | projeto.horas.semanais/src/AlternativeApp.js:78-82 | deleting at i removes exactly element i; earlier ones stay, later ones shift down in order |
| `AlternativeApp.SplicedOutOfRange` | projeto.horas.semanais/src/AlternativeApp.js:80 | an index past the end removes nothing; -1 removes the last task |
| `AlternativeApp.AfterPressesIsNetCount` | projeto.horas.semanais/src/AlternativeApp.js:123-125 | the counter is the start plus the + presses minus the − presses, without bounds |
| `AlternativeApp.PieData` | projeto.horas.semanais/src/AlternativeApp.js:103 | two slices, 40 − available and available, summing to 40; the used slice is negative exactly when available > 40 |
| `AlternativeApp.PanelTask.constructor` | projeto.horas.semanais/src/AlternativeApp.js:39 | a task object holds the four given fields |
| `AlternativeApp.AlternativeScreen.constructor` | projeto.horas.semanais/src/AlternativeApp.js:71-72 | 40 available hours and no tasks |
| `AlternativeApp.AlternativeScreen.HandleAddTask` | projeto.horas.semanais/src/AlternativeApp.js:74-76 | the task is appended; earlier tasks are unchanged |
| `AlternativeApp.AlternativeScreen.HandleDeleteTask` | projeto.horas.semanais/src/AlternativeApp.js:78-82 | the list becomes the copy spliced at the index |
| `AlternativeApp.AlternativeScreen.HandleEditTask` | projeto.horas.semanais/src/AlternativeApp.js:84-92 | the list keeps its references; only the indexed task's title changes, and only when prompt answered; an index outside the list throws |
| `AlternativeApp.EditSharesTaskObject` | projeto.horas.semanais/src/AlternativeApp.js:88-90 | the list held before the edit shows the new title: the object is shared |
| `AlternativeApp.AlternativeScreen.Decrement` | projeto.horas.semanais/src/AlternativeApp.js:123 | exactly one hour less |
| `AlternativeApp.AlternativeScreen.Increment` | projeto.horas.semanais/src/AlternativeApp.js:125 | exactly one hour more |
| `AlternativeApp.TaskPanel.constructor` | projeto.horas.semanais/src/AlternativeApp.js:30 | the panel form starts empty with colour "#0088FE" |
| `AlternativeApp.TaskPanel.HandleChange` | projeto.horas.semanais/src/AlternativeApp.js:32-34 | a change makes a new form object with one field replaced |
| `AlternativeApp.TaskPanel.HandleSubmit` | projeto.horas.semanais/src/AlternativeApp.js:36-41 | a titled form object is appended and replaced by an empty one; an untitled form changes nothing |

## Findings

| source | as written | input that shows it | evidently intended | confidence | as-written member | corrected member |
|---|---|---|---|---|---|---|
| projeto.horas.semanais/src/App.js:226 | onSave is the tasks hook's save handler, called with the form data only, so its callback is undefined and the modal is never closed after a save | a signed-in user submits "Estudar" for 5 hours and the store accepts it: the modal stays open | close the modal after a successful save (src/App.js:216 closes it after any upsert that does not throw) | medium, not executed | `Screen.Modal.SubmitAsWired` (with `Screen.SavedFormLeavesModalOpen`) | `Screen.Modal.SubmitClosingModal` |

## Left out

- Every call to the remote store is left out: sessions, anonymous sign-in, the auth listener, select, insert, upsert and delete, and the realtime channel. These are network I/O into a library not shown here. Their replies are parameters (`SettingsReply`, `WriteReply`, `TasksReply`, `DeleteReply`, `upsertOk`), and the auth hook is not modelled.
- The `created_at` ordering is applied by the store and is not modelled.
- The realtime refresh (projeto.horas.semanais/src/supabaseService.js:132-149) is not modelled. On success it replaces the list with the rows (or []), as `TaskStore.ReceiveTasks` does with `Rows`. On failure it only logs and returns, leaving the list, the error and the loading flag alone; `TaskStore.ReceiveTasks` with `TasksFailed` instead sets the error and ends loading, and describes the initial fetch only.
- React's scheduling is not modelled: effects, memo dependencies and asynchronous state updates. Each handler runs to completion on the state it reads.
- JSX, CSS and the chart libraries' options and rendering are left out. This includes the dataset label, border and tooltip callback, and the `COLORS` cells.
- `window.confirm`, `alert`, `prompt` and `crypto.randomUUID` are input parameters: `confirmed`, the `Submission` outcome, `answer` and `freshId`.
- Ledger.Notification: JavaScript's number-to-text conversion in the template literal is the parameter `show`. The model does not fix the digits printed.
- JsValues.ToNumber: the string-to-number grammar of `Number()` is an input carried by each string. Only "blank reads as 0" is built in. Infinity, -0 and IEEE-754 rounding are not modelled; numbers are exact reals.
- Key order of objects and non-primitive property values are not modelled. Records map property names to primitives.
- The store handlers of src/App.js are not modelled; their pure parts match the hooks' (the budget becomes `Number(input)` at src/App.js:184-185). handleTotalHoursChange behaves like the hook's, including the error on a thrown upsert (src/App.js:195-197). The other two differ from the hooks as follows:
  - handleSaveTask sends `{...taskData, user_id, duration: Number(duration)}` (src/App.js:206-210). That record keeps every form field, including the form's string id and a falsy description, unlike `TaskService.RecordToSave`.
  - handleSaveTask closes the modal after any upsert that does not throw, without looking at the error the store returns (src/App.js:212-216). It sets "Falha ao salvar tarefa" on a throw (src/App.js:219) and makes no local change to the list.
  - handleDeleteTask removes nothing locally and sets "Falha ao excluir tarefa" on a throw (src/App.js:232-234).
- The rendering order of projeto.horas.semanais/src/App.js (the spinner is tested before the error banner) is not modelled. `TaskService.TaskStore.StartFetch` shows that a store without a user stays loading.
- AlternativeApp.AlternativeScreen.HandleEditTask: the index is an integer. JavaScript's reading of a fractional or non-numeric index as a missing element is not modelled.
- projeto.horas.semanais/src/TaskList.js and projeto.horas.semanais/src/LoginPage.js only render or wrap the auth widget, so they are not part of this model.

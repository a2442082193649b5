/** The task form (modal) of both planner screens: its initial data, the
    per-field change handler and submit validation. */
module TaskForm {
  import opened JsValues

  const DefaultColor: JsValue := Text("#3b82f6")
  const FormFields: set<string> := {"id", "name", "duration", "color", "description"}

  /** `task?.k`: reading a field of the task being edited, or of null. */
  function FieldOf(task: Option<Object>, k: string): JsValue
  {
    match task
    case None => Undefined
    case Some(t) => Get(t, k)
  }

  /** The form's initial data: the edited task's fields, each falsy one
      replaced by a fresh id, '', '', '#3b82f6' or ''. `freshId` is the
      value crypto.randomUUID() returns. */
  function InitialForm(task: Option<Object>, freshId: string): (form: Object)
    requires freshId != ""
    ensures form.Keys == FormFields
    ensures Truthy(form["id"]) && Truthy(form["color"])
    ensures forall k :: k in FormFields && Truthy(FieldOf(task, k)) ==> form[k] == FieldOf(task, k)
    ensures !Truthy(FieldOf(task, "id")) ==> form["id"] == Text(freshId)
    ensures !Truthy(FieldOf(task, "color")) ==> form["color"] == DefaultColor
    ensures forall k :: k in {"name", "duration", "description"} && !Truthy(FieldOf(task, k)) ==> form[k] == Text("")
  {
    map[
      "id" := Or(FieldOf(task, "id"), Text(freshId)),
      "name" := Or(FieldOf(task, "name"), Text("")),
      "duration" := Or(FieldOf(task, "duration"), Text("")),
      "color" := Or(FieldOf(task, "color"), DefaultColor),
      "description" := Or(FieldOf(task, "description"), Text(""))
    ]
  }

  /** A new task's form: a fresh id, colour '#3b82f6', every other field empty. */
  lemma NewTaskForm(freshId: string)
    requires freshId != ""
    ensures InitialForm(None, freshId)
            == map["id" := Text(freshId), "name" := Text(""), "duration" := Text(""),
                   "color" := DefaultColor, "description" := Text("")]
  {
  }

  /** Editing a task whose duration is 0 opens the form with an empty duration,
      which submit then rejects. */
  lemma ZeroDurationOpensEmpty(task: Object, freshId: string)
    requires freshId != "" && Get(task, "duration") == Lit(0.0)
    requires Get(task, "name").Str? && !IsBlank(Get(task, "name").text)
    ensures InitialForm(Some(task), freshId)["duration"] == Text("")
    ensures Submit(InitialForm(Some(task), freshId)) == DurationInvalid
  {
    var form := InitialForm(Some(task), freshId);
    assert form["name"] == Get(task, "name");
    TrimEmptyIffBlank(Get(task, "name").text);
  }

  /** Opening the form on data it produced gives the same data back, whatever id would be drawn. */
  lemma InitialFormIdempotent(task: Option<Object>, freshId: string, otherId: string)
    requires freshId != "" && otherId != ""
    ensures InitialForm(Some(InitialForm(task, freshId)), otherId) == InitialForm(task, freshId)
  {
    var form := InitialForm(task, freshId);
    var again := InitialForm(Some(form), otherId);
    forall k | k in FormFields ensures again[k] == form[k] {
      if !Truthy(form[k]) {
        assert !Truthy(FieldOf(task, k));
      }
    }
  }

  // --------------------------------------------------------------- submit

  /** What handleSubmit does: an alert for a missing name or an invalid duration,
      a TypeError when the name is not a string, or a call of onSave. */
  datatype Submission =
    | NameMissing
    | DurationInvalid
    | NameNotString
    | Saved(taskData: Object)

  /** handleSubmit: the name is checked first (trimmed), then the duration
      (Number() must be neither NaN nor at most 0); onSave receives the form
      with the numeric duration. */
  function Submit(form: Object): (s: Submission)
    ensures s == NameNotString <==> !Get(form, "name").Str?
    ensures s == NameMissing <==> Get(form, "name").Str? && IsBlank(Get(form, "name").text)
    ensures s == DurationInvalid <==>
              Get(form, "name").Str? && !IsBlank(Get(form, "name").text)
              && !(ToNumber(Get(form, "duration")).Real? && ToNumber(Get(form, "duration")).value > 0.0)
    ensures s.Saved? ==>
              && s.taskData.Keys == form.Keys + {"duration"}
              && (forall k :: k in form && k != "duration" ==> s.taskData[k] == form[k])
              && s.taskData["duration"] == Number(ToNumber(Get(form, "duration")))
              && s.taskData["duration"].n.Real? && s.taskData["duration"].n.value > 0.0
  {
    var name := Get(form, "name");
    if !name.Str? then
      NameNotString
    else
      TrimEmptyIffBlank(name.text);
      if Trim(name.text) == "" then
        NameMissing
      else
        var duration := ToNumber(Get(form, "duration"));
        if duration.NaN? || duration.value <= 0.0 then DurationInvalid
        else Saved(form["duration" := Number(duration)])
  }

  /** A blank name is reported before the duration is looked at: whatever the
      duration, the outcome is the same. */
  lemma BlankNameShadowsDuration(form: Object, duration: JsValue)
    requires Get(form, "name").Str? && IsBlank(Get(form, "name").text)
    ensures Submit(form["duration" := duration]) == Submit(form) == NameMissing
  {
    assert Get(form["duration" := duration], "name") == Get(form, "name");
  }

  /** Submitting what onSave received again hands the same data to onSave. */
  lemma SubmitIdempotent(form: Object)
    requires Submit(form).Saved?
    ensures Submit(Submit(form).taskData) == Submit(form)
  {
    var data := Submit(form).taskData;
    assert Get(data, "name") == Get(form, "name");
    assert data["duration" := Number(ToNumber(Get(data, "duration")))] == data;
  }

  /** The form state of the modal, changed field by field through setFormData. */
  class FormState {
    var formData: Object

    /** useState with the initial data. */
    constructor (task: Option<Object>, freshId: string)
      requires freshId != ""
      ensures formData == InitialForm(task, freshId)
    {
      formData := InitialForm(task, freshId);
    }

    /** handleChange: `{ ...prev, [name]: value }` with the input's string value. */
    method HandleChange(name: string, value: JsValue)
      requires value.Str?
      modifies this
      ensures formData == old(formData)[name := value]
      ensures formData.Keys == old(formData.Keys) + {name}
    {
      formData := formData[name := value];
    }

    /** handleSubmit on the current data. */
    method HandleSubmit() returns (s: Submission)
      ensures s == Submit(formData)
    {
      s := Submit(formData);
    }
  }
}

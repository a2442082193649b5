/** The alternative planner screen: a list of mutable task objects edited by
    index, a creation panel and a free-standing hours counter. */
module AlternativeApp {
  import opened JsValues

  /** A task object of this screen; the edit handler assigns its title in place. */
  class PanelTask {
    var title: string
    var subtitle: string
    var description: string
    var color: string

    constructor (title: string, subtitle: string, description: string, color: string)
      ensures this.title == title && this.subtitle == subtitle
      ensures this.description == description && this.color == color
    {
      this.title := title;
      this.subtitle := subtitle;
      this.description := description;
      this.color := color;
    }
  }

  /** The start of `arr.splice(start, 1)` as Array.prototype.splice computes it:
      a negative start counts from the end, and the start is clamped to [0, |s|]. */
  function SpliceStart(len: nat, start: int): (k: nat)
    ensures k <= len
    ensures 0 <= start < len ==> k == start
  {
    if start < 0 then (if len + start < 0 then 0 else len + start)
    else if start > len then len
    else start
  }

  /** The array left by `copy.splice(start, 1)`: at most one element removed. */
  function Spliced<T>(s: seq<T>, start: int): seq<T>
  {
    var k := SpliceStart(|s|, start);
    if k < |s| then s[..k] + s[k + 1..] else s
  }

  /** Deleting at an index of the list removes exactly that element: the ones
      before it stay, the ones after it move down one place in order. */
  lemma SplicedRemovesOne<T>(s: seq<T>, i: int)
    requires 0 <= i < |s|
    ensures |Spliced(s, i)| == |s| - 1
    ensures forall j :: 0 <= j < i ==> Spliced(s, i)[j] == s[j]
    ensures forall j :: i <= j < |s| - 1 ==> Spliced(s, i)[j] == s[j + 1]
    ensures multiset(Spliced(s, i)) + multiset{s[i]} == multiset(s)
  {
    assert s == s[..i] + [s[i]] + s[i + 1..];
  }

  /** An index past the end removes nothing; -1 removes the last element. */
  lemma SplicedOutOfRange<T>(s: seq<T>, i: int)
    ensures i >= |s| ==> Spliced(s, i) == s
    ensures |s| > 0 && i == -1 ==> Spliced(s, i) == s[..|s| - 1]
  {
  }

  /** A press of the − or + button of the hours counter. */
  datatype Press = Minus | Plus

  /** The counter after a series of presses, from an initial value. */
  function AfterPresses(hours: int, presses: seq<Press>): int
    decreases |presses|
  {
    if presses == [] then hours
    else AfterPresses(if presses[0] == Plus then hours + 1 else hours - 1, presses[1..])
  }

  function CountPlus(presses: seq<Press>): nat
  {
    if presses == [] then 0 else (if presses[0] == Plus then 1 else 0) + CountPlus(presses[1..])
  }

  /** The counter has no bounds: after any presses it sits at the start plus
      the number of + presses minus the number of − presses, negative or above 40 alike. */
  lemma {:induction false} AfterPressesIsNetCount(hours: int, presses: seq<Press>)
    ensures AfterPresses(hours, presses) == hours + 2 * CountPlus(presses) - |presses|
    decreases |presses|
  {
    if presses != [] {
      AfterPressesIsNetCount(if presses[0] == Plus then hours + 1 else hours - 1, presses[1..]);
    }
  }

  /** One slice of the pie. */
  datatype Slice = Slice(name: string, value: int)

  /** The pie: used hours `40 - availableHours` and the available hours. */
  function PieData(availableHours: int): (slices: seq<Slice>)
    ensures |slices| == 2
    ensures slices[0].name == "Usadas" && slices[1].name == "Dispon\U{00ED}veis"
    ensures slices[1].value == availableHours
    ensures slices[0].value + slices[1].value == 40
    ensures slices[0].value < 0 <==> availableHours > 40
  {
    [Slice("Usadas", 40 - availableHours), Slice("Dispon\U{00ED}veis", availableHours)]
  }

  /** The screen's state: the counter and the task list (references to task objects). */
  class AlternativeScreen {
    var availableHours: int
    var tasks: seq<PanelTask>

    constructor ()
      ensures availableHours == 40 && tasks == []
    {
      availableHours := 40;
      tasks := [];
    }

    /** handleAddTask: `[...tasks, task]`. */
    method HandleAddTask(task: PanelTask)
      modifies this
      ensures tasks == old(tasks) + [task]
      ensures availableHours == old(availableHours)
    {
      tasks := tasks + [task];
    }

    /** handleDeleteTask: a copy of the list spliced at the index. */
    method HandleDeleteTask(index: int)
      modifies this
      ensures tasks == Spliced(old(tasks), index)
      ensures availableHours == old(availableHours)
    {
      var updated := tasks;
      updated := Spliced(updated, index);
      tasks := updated;
    }

    /** handleEditTask: `answer` is what prompt returned (None for cancel). The
        title is assigned on the shared object itself, so the list keeps the
        same references and the old list sees the new title too. Reading a
        task at an index outside the list throws; `threw` reports it. */
    method HandleEditTask(index: int, answer: Option<string>) returns (threw: bool)
      modifies this, if 0 <= index < |tasks| then {tasks[index]} else {}
      ensures threw <==> !(0 <= index < |tasks|)
      ensures tasks == old(tasks) && availableHours == old(availableHours)
      ensures !threw ==>
                tasks[index].title == (if answer.Some? then answer.value else old(tasks[index].title))
      ensures !threw ==> tasks[index].subtitle == old(tasks[index].subtitle)
                         && tasks[index].description == old(tasks[index].description)
                         && tasks[index].color == old(tasks[index].color)
      ensures forall t :: t in tasks && (threw || t != tasks[index]) ==> t.title == old(t.title)
    {
      if !(0 <= index < |tasks|) {
        return true;
      }
      threw := false;
      if answer.Some? {
        var updated := tasks;
        updated[index].title := answer.value;
        tasks := updated;
      }
    }

    /** The − button: one hour less, with no lower bound. */
    method Decrement()
      modifies this
      ensures availableHours == old(availableHours) - 1 && tasks == old(tasks)
    {
      availableHours := availableHours - 1;
    }

    /** The + button: one hour more, with no upper bound. */
    method Increment()
      modifies this
      ensures availableHours == old(availableHours) + 1 && tasks == old(tasks)
    {
      availableHours := availableHours + 1;
    }
  }

  /** The edit assigns the title on the object the previous list holds as well:
      a list taken before the edit shows the new title afterwards. */
  method EditSharesTaskObject(screen: AlternativeScreen, index: int, newTitle: string) returns (before: seq<PanelTask>)
    requires 0 <= index < |screen.tasks|
    modifies screen, screen.tasks[index]
    ensures before == old(screen.tasks) && before[index].title == newTitle
  {
    before := screen.tasks;
    var threw := screen.HandleEditTask(index, Some(newTitle));
  }

  /** The fields of the panel's form. */
  datatype Field = Title | Subtitle | Description | Color

  /** TaskPanel: the creation form, handing new tasks to the screen. */
  class TaskPanel {
    var form: PanelTask
    const screen: AlternativeScreen

    constructor (screen: AlternativeScreen)
      ensures this.screen == screen && fresh(form)
      ensures form.title == "" && form.subtitle == "" && form.description == "" && form.color == "#0088FE"
    {
      this.screen := screen;
      form := new PanelTask("", "", "", "#0088FE");
    }

    /** handleChange: `{ ...form, [name]: value }`, a new object each time. */
    method HandleChange(field: Field, value: string)
      modifies this
      ensures fresh(form)
      ensures form.title == (if field == Title then value else old(form.title))
      ensures form.subtitle == (if field == Subtitle then value else old(form.subtitle))
      ensures form.description == (if field == Description then value else old(form.description))
      ensures form.color == (if field == Color then value else old(form.color))
    {
      var f := form;
      form := new PanelTask(
        if field == Title then value else f.title,
        if field == Subtitle then value else f.subtitle,
        if field == Description then value else f.description,
        if field == Color then value else f.color);
    }

    /** handleSubmit: a form with a title is added (the object itself) and
        replaced by an empty form; one without a title changes nothing. */
    method HandleSubmit()
      modifies this, screen
      ensures screen.availableHours == old(screen.availableHours)
      ensures old(form.title) == "" ==> form == old(form) && screen.tasks == old(screen.tasks)
      ensures old(form.title) != "" ==>
                && screen.tasks == old(screen.tasks) + [old(form)]
                && fresh(form)
                && form.title == "" && form.subtitle == "" && form.description == ""
                && form.color == "#0088FE"
    {
      if form.title != "" {
        screen.HandleAddTask(form);
        form := new PanelTask("", "", "", "#0088FE");
      }
    }
  }
}

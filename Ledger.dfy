/** The hours ledger both planner screens compute from the task list and the
    weekly budget: used, remaining and excess hours, the doughnut's series,
    the over-budget notice and whether the chart is shown. */
module Ledger {
  import opened JsValues

  datatype Usage = Usage(usedHours: real, remainingHours: real, excessHours: real)

  /** The hours one task contributes: `Number(task.duration) || 0`. */
  function TaskHours(task: Object): real
  {
    NumberOrZero(Get(task, "duration"))
  }

  /** `tasks.reduce((acc, task) => acc + TaskHours(task), 0)`, folded from the left. */
  function UsedHours(tasks: seq<Object>): real
  {
    if tasks == [] then 0.0 else UsedHours(tasks[..|tasks| - 1]) + TaskHours(tasks[|tasks| - 1])
  }

  function Max(a: real, b: real): real
  {
    if a >= b then a else b
  }

  /** The usage memo: non-numeric durations and a non-numeric budget count as 0. */
  function ComputeUsage(tasks: seq<Object>, totalWeeklyHours: JsValue): (u: Usage)
    ensures u.usedHours == UsedHours(tasks)
    ensures u.remainingHours >= 0.0 && u.excessHours >= 0.0
    ensures u.remainingHours > 0.0 <==> NumberOrZero(totalWeeklyHours) > u.usedHours
    ensures u.excessHours > 0.0 <==> u.usedHours > NumberOrZero(totalWeeklyHours)
    ensures !(u.remainingHours > 0.0 && u.excessHours > 0.0)
    ensures u.remainingHours - u.excessHours == NumberOrZero(totalWeeklyHours) - u.usedHours
  {
    var used := UsedHours(tasks);
    var total := NumberOrZero(totalWeeklyHours);
    Usage(used, Max(0.0, total - used), Max(0.0, used - total))
  }

  /** The fold does not depend on how the list is split: the hours of a
      concatenation are the sum of the hours of its parts. */
  lemma {:induction false} UsedHoursAppend(a: seq<Object>, b: seq<Object>)
    ensures UsedHours(a + b) == UsedHours(a) + UsedHours(b)
    decreases |b|
  {
    if b == [] {
      assert a + b == a;
    } else {
      var ab := a + b;
      assert ab[..|ab| - 1] == a + b[..|b| - 1];
      assert ab[|ab| - 1] == b[|b| - 1];
      UsedHoursAppend(a, b[..|b| - 1]);
    }
  }

  /** Reading the fold from the right: the first task's hours plus the rest's. */
  lemma UsedHoursCons(t: Object, rest: seq<Object>)
    ensures UsedHours([t] + rest) == TaskHours(t) + UsedHours(rest)
  {
    UsedHoursAppend([t], rest);
    assert [t][..0] == [];
  }

  /** When every duration reads as a non-negative number the used hours are non-negative. */
  lemma {:induction false} UsedHoursNonNegative(tasks: seq<Object>)
    requires forall i :: 0 <= i < |tasks| ==> TaskHours(tasks[i]) >= 0.0
    ensures UsedHours(tasks) >= 0.0
    decreases |tasks|
  {
    if tasks != [] {
      UsedHoursNonNegative(tasks[..|tasks| - 1]);
    }
  }

  /** A list with one task of 10 hours and one whose duration is the text "bad",
      against a budget of 40: 10 used, 30 remaining, nothing in excess. */
  lemma NonNumericDurationCountsZero()
    ensures var tasks := [map["duration" := Lit(10.0)], map["duration" := Text("bad")]];
            ComputeUsage(tasks, Lit(40.0)) == Usage(10.0, 30.0, 0.0)
  {
    var tasks := [map["duration" := Lit(10.0)], map["duration" := Text("bad")]];
    assert !IsBlank("bad") by { assert !IsWhitespace("bad"[0]); }
    assert TaskHours(tasks[1]) == 0.0;
    assert tasks[..1][..0] == [];
    assert UsedHours(tasks[..1]) == 10.0;
    assert UsedHours(tasks) == 10.0;
  }

  // ---------------------------------------------------------------- chart

  /** The doughnut's parallel arrays: labels, data and backgroundColor. */
  datatype ChartSeries = ChartSeries(labels: seq<JsValue>, data: seq<JsValue>, colors: seq<JsValue>)

  const FreeTimeLabel: JsValue := Text("Tempo Livre")
  const FreeTimeColor: JsValue := Text("#d1d5db")

  /** `tasks.map(task => task[k])`. */
  function Pluck(tasks: seq<Object>, k: string): (r: seq<JsValue>)
    ensures |r| == |tasks|
    ensures forall i :: 0 <= i < |tasks| ==> r[i] == Get(tasks[i], k)
  {
    seq(|tasks|, i requires 0 <= i < |tasks| => Get(tasks[i], k))
  }

  /** The series the chart memo builds: the tasks in order, and one grey
      'Tempo Livre' slot holding the remaining hours when some are left. */
  function Series(tasks: seq<Object>, remainingHours: real): (c: ChartSeries)
    ensures |c.labels| == |c.data| == |c.colors|
    ensures |c.labels| == |tasks| + (if remainingHours > 0.0 then 1 else 0)
    ensures forall i :: 0 <= i < |tasks| ==>
              c.labels[i] == Get(tasks[i], "name") && c.data[i] == Get(tasks[i], "duration")
              && c.colors[i] == Get(tasks[i], "color")
    ensures remainingHours > 0.0 ==>
              c.labels[|tasks|] == FreeTimeLabel && c.data[|tasks|] == Lit(remainingHours)
              && c.colors[|tasks|] == FreeTimeColor
  {
    var extra := if remainingHours > 0.0 then 1 else 0;
    ChartSeries(
      Pluck(tasks, "name") + seq(extra, _ => FreeTimeLabel),
      Pluck(tasks, "duration") + seq(extra, _ => Lit(remainingHours)),
      Pluck(tasks, "color") + seq(extra, _ => FreeTimeColor))
  }

  /** The chart memo as written: three maps over the tasks, then one push onto
      each array when hours remain. */
  method BuildChartData(tasks: seq<Object>, remainingHours: real) returns (c: ChartSeries)
    ensures c == Series(tasks, remainingHours)
  {
    var labels := Pluck(tasks, "name");
    var data := Pluck(tasks, "duration");
    var colors := Pluck(tasks, "color");
    if remainingHours > 0.0 {
      labels := labels + [FreeTimeLabel];
      data := data + [Lit(remainingHours)];
      colors := colors + [FreeTimeColor];
    }
    c := ChartSeries(labels, data, colors);
  }

  /** The sum of `Number(x) || 0` over chart values. */
  function SumValues(values: seq<JsValue>): real
  {
    if values == [] then 0.0 else SumValues(values[..|values| - 1]) + NumberOrZero(values[|values| - 1])
  }

  /** Summing the chart's task slices gives the ledger's used hours. */
  lemma {:induction false} SumOfDurationsIsUsed(tasks: seq<Object>)
    ensures SumValues(Pluck(tasks, "duration")) == UsedHours(tasks)
    decreases |tasks|
  {
    if tasks != [] {
      var init := tasks[..|tasks| - 1];
      assert Pluck(tasks, "duration")[..|tasks| - 1] == Pluck(init, "duration");
      SumOfDurationsIsUsed(init);
    }
  }

  /** When the chart shows free time, its slices add up to the weekly budget. */
  lemma ChartCoversBudget(tasks: seq<Object>, totalWeeklyHours: JsValue)
    requires ComputeUsage(tasks, totalWeeklyHours).remainingHours > 0.0
    ensures SumValues(Series(tasks, ComputeUsage(tasks, totalWeeklyHours).remainingHours).data)
            == NumberOrZero(totalWeeklyHours)
  {
    var u := ComputeUsage(tasks, totalWeeklyHours);
    var data := Series(tasks, u.remainingHours).data;
    assert data[..|tasks|] == Pluck(tasks, "duration");
    SumOfDurationsIsUsed(tasks);
  }

  /** The chart-or-placeholder condition: `tasks.length > 0 || remainingHours > 0`. */
  predicate ChartVisible(tasks: seq<Object>, remainingHours: real)
  {
    |tasks| > 0 || remainingHours > 0.0
  }

  /** The chart is drawn exactly when its series has at least one slice, and,
      with the ledger's remaining hours, exactly when there are tasks or the
      budget exceeds the used hours. */
  lemma ChartVisibleIffSeriesNonEmpty(tasks: seq<Object>, totalWeeklyHours: JsValue)
    ensures var r := ComputeUsage(tasks, totalWeeklyHours).remainingHours;
            ChartVisible(tasks, r) <==> |Series(tasks, r).labels| > 0
    ensures ChartVisible(tasks, ComputeUsage(tasks, totalWeeklyHours).remainingHours)
            <==> |tasks| > 0 || NumberOrZero(totalWeeklyHours) > UsedHours(tasks)
  {
  }

  // --------------------------------------------------------- notification

  const NoticePrefix: string := "Voc\U{00EA} excedeu seu limite semanal em "

  /** The over-budget notice. `show` is JavaScript's number-to-text conversion
      of the template literal, an input of the model. */
  function Notification(excessHours: real, show: real -> string): (message: string)
    ensures message == "" <==> excessHours <= 0.0
    ensures excessHours > 0.0 ==>
              && |message| >= |NoticePrefix| + |show(excessHours)| + 2
              && message[..|NoticePrefix|] == NoticePrefix
              && message[|NoticePrefix|..|NoticePrefix| + |show(excessHours)|] == show(excessHours)
              && message[|message| - 1] == '.'
              && (message[|message| - 2] == 's' <==> excessHours > 1.0)
    ensures excessHours > 0.0 ==>
              message[|NoticePrefix| + |show(excessHours)|..]
              == " hora" + (if excessHours > 1.0 then "s" else "") + "."
  {
    if excessHours > 0.0 then
      NoticePrefix + show(excessHours) + " hora" + (if excessHours > 1.0 then "s" else "") + "."
    else
      ""
  }

  /** The notice shown for a ledger: present exactly when the used hours exceed
      the budget, and in the plural exactly when they exceed it by more than one. */
  lemma NoticeFollowsLedger(tasks: seq<Object>, totalWeeklyHours: JsValue, show: real -> string)
    ensures var u := ComputeUsage(tasks, totalWeeklyHours);
            var message := Notification(u.excessHours, show);
            && (message != "" <==> UsedHours(tasks) > NumberOrZero(totalWeeklyHours))
            && (message != "" ==>
                  (message[|message| - 2] == 's' <==> UsedHours(tasks) - NumberOrZero(totalWeeklyHours) > 1.0))
  {
  }
}

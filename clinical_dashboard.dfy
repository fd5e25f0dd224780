/** The professional dashboard (frontend/src/components/pro/personalized-clinical-dashboard.tsx):
    a task list that arriving data replaces and that the user toggles, the
    alert and pending filters over it, the widget order, and which of
    spinner, error, empty notice or widgets is shown. */
module ClinicalDashboard {
  import opened Common

  const PatientAlert := "Patient Alert"

  datatype Task = Task(id: string, text: string, category: string, completed: bool, priority: string)

  /** `task.id === taskId ? { ...task, completed: !task.completed } : task` */
  function ToggleOne(t: Task, taskId: string): (r: Task)
    ensures r.id == t.id && r.text == t.text && r.category == t.category && r.priority == t.priority
    ensures r.completed == (if t.id == taskId then !t.completed else t.completed)
  {
    if t.id == taskId then t.(completed := !t.completed) else t
  }

  /** The list after `toggleTaskCompletion(taskId)`: same length and order,
      the matching tasks flipped and every other task unchanged. */
  function Toggled(ts: seq<Task>, taskId: string): (r: seq<Task>)
    ensures |r| == |ts|
    ensures forall i :: 0 <= i < |ts| && ts[i].id != taskId ==> r[i] == ts[i]
    ensures forall i :: 0 <= i < |ts| && ts[i].id == taskId ==>
      r[i] == ts[i].(completed := !ts[i].completed)
  {
    seq(|ts|, i requires 0 <= i < |ts| => ToggleOne(ts[i], taskId))
  }

  /** Toggling the same id twice restores the list. */
  lemma ToggleTwiceRestores(ts: seq<Task>, taskId: string)
    ensures Toggled(Toggled(ts, taskId), taskId) == ts
  {
    var r := Toggled(Toggled(ts, taskId), taskId);
    assert forall i :: 0 <= i < |ts| ==> r[i] == ts[i];
  }

  predicate IsActiveAlert(t: Task) {
    t.category == PatientAlert && !t.completed
  }

  /** `tasks.filter(t => t.category === 'Patient Alert' && !t.completed)`:
      the active alerts, in order. */
  function Alerts(ts: seq<Task>): (r: seq<Task>)
    ensures |r| <= |ts|
    ensures forall t :: t in r <==> t in ts && IsActiveAlert(t)
  {
    if ts == [] then []
    else (if IsActiveAlert(ts[0]) then [ts[0]] else []) + Alerts(ts[1..])
  }

  /** `tasks.filter(t => !t.completed)`: the uncompleted tasks, in order. */
  function Pending(ts: seq<Task>): (r: seq<Task>)
    ensures |r| <= |ts|
    ensures forall t :: t in r <==> t in ts && !t.completed
  {
    if ts == [] then []
    else (if !ts[0].completed then [ts[0]] else []) + Pending(ts[1..])
  }

  /** The alert list holds every active alert as often as the task list
      does, and nothing else. */
  lemma {:induction false} AlertsCount(ts: seq<Task>)
    ensures forall t :: multiset(Alerts(ts))[t] == if IsActiveAlert(t) then multiset(ts)[t] else 0
  {
    if ts != [] {
      AlertsCount(ts[1..]);
      assert ts == [ts[0]] + ts[1..];
    }
  }

  /** The pending list holds every uncompleted task as often as the task
      list does, and nothing else. */
  lemma {:induction false} PendingCount(ts: seq<Task>)
    ensures forall t :: multiset(Pending(ts))[t] == if !t.completed then multiset(ts)[t] else 0
  {
    if ts != [] {
      PendingCount(ts[1..]);
      assert ts == [ts[0]] + ts[1..];
    }
  }

  /** The alert list keeps the task list's order: the alerts of two lists
      one after the other are the first list's alerts, then the second's. */
  lemma {:induction false} AlertsAppend(a: seq<Task>, b: seq<Task>)
    ensures Alerts(a + b) == Alerts(a) + Alerts(b)
  {
    if a != [] {
      assert (a + b)[0] == a[0] && (a + b)[1..] == a[1..] + b;
      AlertsAppend(a[1..], b);
      if IsActiveAlert(a[0]) {
        calc {
          Alerts(a + b);
          [a[0]] + Alerts(a[1..] + b);
          [a[0]] + (Alerts(a[1..]) + Alerts(b));
          { ConcatAssoc([a[0]], Alerts(a[1..]), Alerts(b)); }
          ([a[0]] + Alerts(a[1..])) + Alerts(b);
        }
      } else {
        assert Alerts(a + b) == Alerts(a[1..] + b);
      }
    } else {
      assert a + b == b;
    }
  }

  /** The pending list keeps the task list's order in the same way. */
  lemma {:induction false} PendingAppend(a: seq<Task>, b: seq<Task>)
    ensures Pending(a + b) == Pending(a) + Pending(b)
  {
    if a != [] {
      assert (a + b)[0] == a[0] && (a + b)[1..] == a[1..] + b;
      PendingAppend(a[1..], b);
      if !a[0].completed {
        calc {
          Pending(a + b);
          [a[0]] + Pending(a[1..] + b);
          [a[0]] + (Pending(a[1..]) + Pending(b));
          { ConcatAssoc([a[0]], Pending(a[1..]), Pending(b)); }
          ([a[0]] + Pending(a[1..])) + Pending(b);
        }
      } else {
        assert Pending(a + b) == Pending(a[1..] + b);
      }
    } else {
      assert a + b == b;
    }
  }

  /** The alerts are exactly the pending tasks in the alert category, in
      the same order: filtering the pending list gives the alert list. */
  lemma {:induction false} AlertsArePendingAlerts(ts: seq<Task>)
    ensures Alerts(ts) == AlertCategory(Pending(ts))
  {
    if ts != [] {
      AlertsArePendingAlerts(ts[1..]);
      var p := Pending(ts[1..]);
      if !ts[0].completed {
        assert Pending(ts) == [ts[0]] + p;
        assert ([ts[0]] + p)[1..] == p;
      } else {
        assert Pending(ts) == p;
      }
    }
  }

  /** Keeps the tasks in the alert category. */
  function AlertCategory(ts: seq<Task>): seq<Task> {
    if ts == [] then []
    else (if ts[0].category == PatientAlert then [ts[0]] else []) + AlertCategory(ts[1..])
  }

  /** "No active alerts." shows exactly when no task is an uncompleted alert. */
  function NoAlertsNotice(ts: seq<Task>): (shown: bool)
    ensures shown <==> forall t :: t in ts ==> !IsActiveAlert(t)
  {
    var r := Alerts(ts);
    assert r != [] ==> r[0] in r;
    r == []
  }

  /** "No pending tasks!" shows exactly when every task is completed. */
  function NoPendingNotice(ts: seq<Task>): (shown: bool)
    ensures shown <==> forall t :: t in ts ==> t.completed
  {
    var r := Pending(ts);
    assert r != [] ==> r[0] in r;
    r == []
  }

  /** Acknowledging an alert (or ticking a pending task) takes every task
      with that id off both lists, when all of them were still open. */
  lemma ToggleClosesOpenTasks(ts: seq<Task>, taskId: string)
    requires forall i :: 0 <= i < |ts| && ts[i].id == taskId ==> !ts[i].completed
    ensures forall t :: t in Pending(Toggled(ts, taskId)) ==> t.id != taskId
    ensures forall t :: t in Alerts(Toggled(ts, taskId)) ==> t.id != taskId
  {
  }

  datatype Widget = Widget(id: string, defaultPosition: int)

  /** The dashboard's four widgets, in declaration order. */
  const Widgets: seq<Widget> := [Widget("patientAlerts", 0), Widget("pendingTasks", 1),
                                 Widget("messages", 2), Widget("scheduleOverview", 3)]

  predicate SortedByPosition(s: seq<Widget>) {
    forall k, l :: 0 <= k < l < |s| ==> s[k].defaultPosition <= s[l].defaultPosition
  }

  /** `widgets.sort((a, b) => a.defaultPosition - b.defaultPosition)`, in
      place: ascending positions, same widgets. */
  method SortByPosition(a: array<Widget>)
    modifies a
    ensures SortedByPosition(a[..])
    ensures multiset(a[..]) == multiset(old(a[..]))
  {
    var i := 0;
    while i < a.Length
      invariant 0 <= i <= a.Length
      invariant SortedByPosition(a[..i])
      invariant multiset(a[..]) == multiset(old(a[..]))
    {
      InsertLast(a, i);
      i := i + 1;
    }
  }

  /** One insertion step: moves `a[i]` down into the sorted prefix `a[..i]`. */
  method InsertLast(a: array<Widget>, i: nat)
    requires i < a.Length
    requires SortedByPosition(a[..i])
    modifies a
    ensures SortedByPosition(a[..i + 1])
    ensures multiset(a[..]) == multiset(old(a[..]))
  {
    var j := i;
    while j > 0 && a[j - 1].defaultPosition > a[j].defaultPosition
      invariant 0 <= j <= i
      invariant forall k, l :: 0 <= k < l <= i && k != j && l != j ==>
        a[k].defaultPosition <= a[l].defaultPosition
      invariant forall l :: j < l <= i ==> a[j].defaultPosition <= a[l].defaultPosition
      invariant multiset(a[..]) == multiset(old(a[..]))
    {
      Swap(a, j - 1, j);
      j := j - 1;
    }
  }

  method Swap(a: array<Widget>, i: nat, j: nat)
    requires i < a.Length && j < a.Length
    modifies a
    ensures a[..] == old(a[..])[i := old(a[j])][j := old(a[i])]
    ensures multiset(a[..]) == multiset(old(a[..]))
  {
    a[i], a[j] := a[j], a[i];
  }

  /** `widgetOrder`: the widget ids after sorting, in order. */
  method WidgetOrder(a: array<Widget>) returns (order: seq<string>)
    modifies a
    ensures SortedByPosition(a[..]) && multiset(a[..]) == multiset(old(a[..]))
    ensures |order| == a.Length
    ensures forall i :: 0 <= i < a.Length ==> order[i] == a[i].id
  {
    SortByPosition(a);
    order := [];
    var i := 0;
    while i < a.Length
      invariant 0 <= i <= a.Length
      invariant |order| == i
      invariant forall k :: 0 <= k < i ==> order[k] == a[k].id
    {
      order := order + [a[i].id];
      i := i + 1;
    }
  }

  /** What the dashboard shows. */
  datatype DashboardView = Spinner | LoadError(message: string) | NoData | WidgetGrid

  /** `renderContent`: loading first, then an error, then missing data. */
  function RenderContent(isLoading: bool, error: Option<string>, hasData: bool): (v: DashboardView)
    ensures v == Spinner <==> isLoading
    ensures v.LoadError? <==> !isLoading && error.Some?
    ensures v.LoadError? ==> v.message == error.value
    ensures v == NoData <==> !isLoading && error.None? && !hasData
    ensures v == WidgetGrid <==> !isLoading && error.None? && hasData
  {
    if isLoading then Spinner
    else if error.Some? then LoadError(error.value)
    else if !hasData then NoData
    else WidgetGrid
  }

  /** The dashboard's task state. */
  class Dashboard {
    var tasks: seq<Task>

    constructor ()
      ensures tasks == []
    {
      tasks := [];
    }

    /** The data effect: arriving data replaces the list; no data keeps it. */
    method ReceiveData(data: Option<seq<Task>>)
      modifies this
      ensures data.Some? ==> tasks == data.value
      ensures data.None? ==> tasks == old(tasks)
    {
      if data.Some? {
        tasks := data.value;
      }
    }

    /** `toggleTaskCompletion` */
    method ToggleTaskCompletion(taskId: string)
      modifies this
      ensures tasks == Toggled(old(tasks), taskId)
    {
      tasks := Toggled(tasks, taskId);
    }
  }
}

/**
 * The task-list editor (components/Settings.tsx): deleting a task, adding a
 * task, editing a task through a partial draft, and toggling the weekdays
 * of the draft. The list transforms are functions; the editor's state
 * (the task list it edits, the draft and the adding flag) is a class.
 */
module Settings {
  import opened Wrappers
  import opened Strings
  import opened Sorting
  import opened Types

  // ---------------------------------------------------------------------
  // Drafts: Partial<Task>
  // ---------------------------------------------------------------------

  /** A partially filled task; an absent field is `undefined`. */
  datatype Draft = Draft(
    id: Option<string>,
    title: Option<string>,
    icon: Option<string>,
    stars: Option<Stars>,
    days: Option<seq<Day>>)

  /** The draft startAdd opens: one star, Monday to Friday, the sparkle icon. */
  const NEW_DRAFT: Draft := Draft(None, None, Some("✨"), Some(1), Some([1, 2, 3, 4, 5]))

  /** The draft startEdit opens: the task itself. */
  function DraftOf(t: Task): (d: Draft)
    ensures d.id == Some(t.id) && MergeDraft(t, d) == t
  {
    Draft(Some(t.id), Some(t.title), Some(t.icon), Some(t.stars), Some(t.days))
  }

  /** A JavaScript string is truthy when it is not empty. */
  predicate Filled(s: Option<string>) {
    s.Some? && s.value != ""
  }

  /** `{ ...t, ...draft }`: every field the draft defines overrides the task's. */
  function MergeDraft(t: Task, d: Draft): (m: Task)
    ensures m.id == (if d.id.Some? then d.id.value else t.id)
    ensures m.title == (if d.title.Some? then d.title.value else t.title)
    ensures m.icon == (if d.icon.Some? then d.icon.value else t.icon)
    ensures m.stars == (if d.stars.Some? then d.stars.value else t.stars)
    ensures m.days == (if d.days.Some? then d.days.value else t.days)
  {
    Task(
      d.id.GetOr(t.id), d.title.GetOr(t.title), d.icon.GetOr(t.icon), d.stars.GetOr(t.stars), d.days.GetOr(t.days))
  }

  // ---------------------------------------------------------------------
  // List transforms
  // ---------------------------------------------------------------------

  /** `tasks.filter(t => t.id !== id)`. */
  function DeleteTask(tasks: seq<Task>, id: string): (r: seq<Task>)
    ensures |r| <= |tasks|
    ensures forall i :: 0 <= i < |r| ==> r[i].id != id
    decreases |tasks|
  {
    if tasks == [] then []
    else
      var last := tasks[|tasks| - 1];
      DeleteTask(tasks[..|tasks| - 1], id) + (if last.id != id then [last] else [])
  }

  /** Exactly the tasks with another id are kept. */
  lemma {:induction false} DeleteTaskMembers(tasks: seq<Task>, id: string, t: Task)
    ensures t in DeleteTask(tasks, id) <==> t in tasks && t.id != id
    decreases |tasks|
  {
    if tasks != [] {
      var init, last := tasks[..|tasks| - 1], tasks[|tasks| - 1];
      DeleteTaskMembers(init, id, t);
      assert tasks == init + [last];
    }
  }

  /** Deleting works piecewise, so the tasks kept stay in their original order. */
  lemma {:induction false} DeleteTaskAppend(a: seq<Task>, b: seq<Task>, id: string)
    ensures DeleteTask(a + b, id) == DeleteTask(a, id) + DeleteTask(b, id)
    decreases |b|
  {
    if b == [] {
      assert a + b == a;
    } else {
      var init, last := b[..|b| - 1], b[|b| - 1];
      var kept: seq<Task> := if last.id != id then [last] else [];
      assert (a + b)[..|a + b| - 1] == a + init;
      assert (a + b)[|a + b| - 1] == last;
      assert DeleteTask(a + b, id) == DeleteTask(a + init, id) + kept;
      assert DeleteTask(b, id) == DeleteTask(init, id) + kept;
      DeleteTaskAppend(a, init, id);
    }
  }

  /** Deleting an id no task has changes nothing. */
  lemma {:induction false} DeleteAbsent(tasks: seq<Task>, id: string)
    requires forall i :: 0 <= i < |tasks| ==> tasks[i].id != id
    ensures DeleteTask(tasks, id) == tasks
    decreases |tasks|
  {
    if tasks != [] {
      var init, last := tasks[..|tasks| - 1], tasks[|tasks| - 1];
      assert forall i :: 0 <= i < |init| ==> init[i] == tasks[i];
      DeleteAbsent(init, id);
      assert DeleteTask(tasks, id) == DeleteTask(init, id) + [last];
      assert tasks == init + [last];
    }
  }

  /** The task handleSave appends when adding: a fresh id, the draft's title, and defaults for what is unset. */
  function NewTask(d: Draft, now: int): (t: Task)
    requires Filled(d.title)
    ensures t.id == "task_" + IntToString(now, 10)
    ensures t.title == d.title.value
    ensures t.icon == (if Filled(d.icon) then d.icon.value else "✨")
    ensures t.stars == (if d.stars.Some? then d.stars.value else 1)
    ensures t.days == (if d.days.Some? then d.days.value else [1, 2, 3, 4, 5])
  {
    Task(
      "task_" + IntToString(now, 10),
      d.title.value,
      if Filled(d.icon) then d.icon.value else "✨",
      d.stars.GetOr(1),
      d.days.GetOr([1, 2, 3, 4, 5]))
  }

  /** `tasks.map(t => t.id === draft.id ? { ...t, ...draft } : t)`. */
  function EditTasks(tasks: seq<Task>, d: Draft): (r: seq<Task>)
    ensures |r| == |tasks|
    ensures forall i :: 0 <= i < |tasks| && d.id != Some(tasks[i].id) ==> r[i] == tasks[i]
    ensures forall i :: 0 <= i < |tasks| && d.id == Some(tasks[i].id) ==> r[i] == MergeDraft(tasks[i], d)
  {
    seq(|tasks|, i requires 0 <= i < |tasks| => if d.id == Some(tasks[i].id) then MergeDraft(tasks[i], d) else tasks[i])
  }

  /** Editing with a task's own untouched draft leaves the list as it is. */
  lemma EditUnchangedDraft(tasks: seq<Task>, t: Task)
    requires forall i :: 0 <= i < |tasks| && tasks[i].id == t.id ==> tasks[i] == t
    ensures EditTasks(tasks, DraftOf(t)) == tasks
  {
  }

  // ---------------------------------------------------------------------
  // toggleDay
  // ---------------------------------------------------------------------

  /** `days.filter(d => d !== day)`. */
  function RemoveDay(days: seq<Day>, day: Day): (r: seq<Day>)
    ensures forall x :: x in r <==> x in days && x != day
    decreases |days|
  {
    if days == [] then []
    else
      var last := days[|days| - 1];
      RemoveDay(days[..|days| - 1], day) + (if last != day then [last] else [])
  }

  function DayKey(d: Day): int {
    d
  }

  /**
   * Toggles one weekday: a present day is removed (every occurrence), an
   * absent one is appended and the list sorted. JavaScript's default sort
   * compares the days as strings; for the single digits 0..6 that is the
   * numeric order.
   */
  function ToggleDays(days: seq<Day>, day: Day): seq<Day> {
    if day in days then RemoveDay(days, day) else SortBy(days + [day], DayKey)
  }

  /** Strictly increasing: sorted and without duplicates. */
  predicate Increasing(days: seq<Day>) {
    forall i, j :: 0 <= i < j < |days| ==> days[i] < days[j]
  }

  /** Toggling a day flips exactly that day's membership. */
  lemma ToggleMembers(days: seq<Day>, day: Day)
    ensures forall x :: x in ToggleDays(days, day) <==> (if x == day then day !in days else x in days)
  {
    if day !in days {
      var s := days + [day];
      assert multiset(SortBy(s, DayKey)) == multiset(s);
      forall x ensures x in SortBy(s, DayKey) <==> x in s {
        assert x in SortBy(s, DayKey) <==> x in multiset(SortBy(s, DayKey));
        assert x in s <==> x in multiset(s);
      }
    }
  }

  lemma {:induction false} RemoveIncreasing(days: seq<Day>, day: Day)
    requires Increasing(days)
    ensures Increasing(RemoveDay(days, day))
    decreases |days|
  {
    if days != [] {
      var init, last := days[..|days| - 1], days[|days| - 1];
      assert Increasing(init);
      RemoveIncreasing(init, day);
      var r := RemoveDay(init, day);
      forall i | 0 <= i < |r| ensures r[i] < last {
        assert r[i] in r;
        assert r[i] in init;
      }
    }
  }

  /** A toggle keeps a strictly increasing day list strictly increasing. */
  lemma ToggleIncreasing(days: seq<Day>, day: Day)
    requires Increasing(days)
    ensures Increasing(ToggleDays(days, day))
  {
    if day in days {
      RemoveIncreasing(days, day);
    } else {
      var s := days + [day];
      assert DistinctBy(s, DayKey) by {
        forall i, j | 0 <= i < j < |s| ensures DayKey(s[i]) != DayKey(s[j]) {
          if j == |days| {
            assert s[i] in days;
          }
        }
      }
      SortByDistinct(s, DayKey, DayKey);
      SortBySorted(s, DayKey);
    }
  }

  /** Two strictly increasing lists with the same days are the same list. */
  lemma {:induction false} IncreasingUnique(a: seq<Day>, b: seq<Day>)
    requires Increasing(a) && Increasing(b)
    requires forall x :: x in a <==> x in b
    ensures a == b
    decreases |a|
  {
    assert a != [] ==> a[0] in b;
    assert b != [] ==> b[0] in a;
    if a != [] && b != [] {
      assert a[0] == b[0] by {
        assert b[0] in a && a[0] in b;
      }
      forall x ensures x in a[1..] <==> x in b[1..] {
        if x in a[1..] {
          assert x in b && x != b[0];
        }
        if x in b[1..] {
          assert x in a && x != a[0];
        }
      }
      IncreasingUnique(a[1..], b[1..]);
      assert a == [a[0]] + a[1..] && b == [b[0]] + b[1..];
    }
  }

  /** Toggling the same day twice restores a strictly increasing day list. */
  lemma ToggleTwice(days: seq<Day>, day: Day)
    requires Increasing(days)
    ensures ToggleDays(ToggleDays(days, day), day) == days
  {
    var once := ToggleDays(days, day);
    ToggleMembers(days, day);
    ToggleIncreasing(days, day);
    ToggleMembers(once, day);
    ToggleIncreasing(once, day);
    IncreasingUnique(ToggleDays(once, day), days);
  }

  /** toggleDay on the draft: nothing without a draft; an unset day list counts as empty. */
  function ToggleDraftDay(draft: Option<Draft>, day: Day): Option<Draft> {
    if draft.None? then None
    else Some(draft.value.(days := Some(ToggleDays(draft.value.days.GetOr([]), day))))
  }

  // ---------------------------------------------------------------------
  // The editor's state and handlers
  // ---------------------------------------------------------------------

  class Editor {
    var tasks: seq<Task>
    var editingTask: Option<Draft>
    var isAdding: bool

    /** The editor opens on the task list with no draft. */
    constructor(initial: seq<Task>)
      ensures tasks == initial && editingTask == None && !isAdding
    {
      tasks := initial;
      editingTask := None;
      isAdding := false;
    }

    /** handleDelete: when the deletion is confirmed, drops every task with the id. */
    method HandleDelete(id: string, confirmed: bool)
      modifies this
      ensures tasks == if confirmed then DeleteTask(old(tasks), id) else old(tasks)
      ensures editingTask == old(editingTask) && isAdding == old(isAdding)
    {
      if confirmed {
        tasks := DeleteTask(tasks, id);
      }
    }

    /**
     * handleSave: without a draft or a title, nothing happens. Otherwise an
     * added task is appended (its id made of the time `now`) or each task
     * with the draft's id is merged with the draft; then the draft closes.
     */
    method HandleSave(now: int)
      modifies this
      ensures !(old(editingTask).Some? && Filled(old(editingTask).value.title)) ==>
        tasks == old(tasks) && editingTask == old(editingTask) && isAdding == old(isAdding)
      ensures old(editingTask).Some? && Filled(old(editingTask).value.title) ==>
        && tasks == (if old(isAdding) then old(tasks) + [NewTask(old(editingTask).value, now)]
                     else EditTasks(old(tasks), old(editingTask).value))
        && editingTask == None && !isAdding
    {
      if editingTask.None? || !Filled(editingTask.value.title) {
        return;
      }
      if isAdding {
        var newTask := NewTask(editingTask.value, now);
        tasks := tasks + [newTask];
      } else {
        tasks := EditTasks(tasks, editingTask.value);
      }
      editingTask := None;
      isAdding := false;
    }

    /** startEdit: the draft is the task itself, and the editor is not adding. */
    method StartEdit(task: Task)
      modifies this
      ensures editingTask == Some(DraftOf(task)) && !isAdding && tasks == old(tasks)
    {
      editingTask := Some(DraftOf(task));
      isAdding := false;
    }

    /** startAdd: a fresh draft with the defaults, in adding mode. */
    method StartAdd()
      modifies this
      ensures editingTask == Some(NEW_DRAFT) && isAdding && tasks == old(tasks)
    {
      editingTask := Some(NEW_DRAFT);
      isAdding := true;
    }

    /** toggleDay: flips one weekday of the draft. */
    method ToggleDay(day: Day)
      modifies this
      ensures editingTask == ToggleDraftDay(old(editingTask), day)
      ensures tasks == old(tasks) && isAdding == old(isAdding)
    {
      if editingTask.None? {
        return;
      }
      var currentDays := editingTask.value.days.GetOr([]);
      if day in currentDays {
        editingTask := Some(editingTask.value.(days := Some(RemoveDay(currentDays, day))));
      } else {
        editingTask := Some(editingTask.value.(days := Some(SortBy(currentDays + [day], DayKey))));
      }
    }

    /** The title field: `{ ...editingTask, title }`. */
    method SetTitle(title: string)
      modifies this
      ensures editingTask == Some((if old(editingTask).Some? then old(editingTask).value
                                   else Draft(None, None, None, None, None)).(title := Some(title)))
      ensures tasks == old(tasks) && isAdding == old(isAdding)
    {
      var base := if editingTask.Some? then editingTask.value else Draft(None, None, None, None, None);
      editingTask := Some(base.(title := Some(title)));
    }

    /** The icon picker: `{ ...prev, icon }`. */
    method SetIcon(icon: string)
      modifies this
      ensures editingTask == Some((if old(editingTask).Some? then old(editingTask).value
                                   else Draft(None, None, None, None, None)).(icon := Some(icon)))
      ensures tasks == old(tasks) && isAdding == old(isAdding)
    {
      var base := if editingTask.Some? then editingTask.value else Draft(None, None, None, None, None);
      editingTask := Some(base.(icon := Some(icon)));
    }

    /** The star picker: `{ ...editingTask, stars }`. */
    method SetStars(stars: Stars)
      modifies this
      ensures editingTask == Some((if old(editingTask).Some? then old(editingTask).value
                                   else Draft(None, None, None, None, None)).(stars := Some(stars)))
      ensures tasks == old(tasks) && isAdding == old(isAdding)
    {
      var base := if editingTask.Some? then editingTask.value else Draft(None, None, None, None, None);
      editingTask := Some(base.(stars := Some(stars)));
    }
  }

  /** A task added from an untouched new draft gets the defaults. */
  lemma NewDraftDefaults(title: string, now: int)
    requires title != ""
    ensures var t := NewTask(NEW_DRAFT.(title := Some(title)), now);
      t.icon == "✨" && t.stars == 1 && t.days == [1, 2, 3, 4, 5] && t.title == title
  {
  }
}

/**
 * The settlement dialog (components/SettlementModal.tsx): the parent marks
 * each of today's tasks done or not done, sees the deduction and the amount
 * the child keeps as a live preview, and may confirm only once every task
 * of today has been decided.
 */
module SettlementModal {
  import opened Wrappers
  import opened Types
  import opened DataService

  /** The live deduction: the shares of the tasks explicitly marked not done; undecided tasks cost nothing yet. */
  function PreviewDeduction(ts: seq<Task>, valuePerStar: int, completionMap: map<string, bool>): int
    decreases |ts|
  {
    if ts == [] then 0
    else
      var t := ts[|ts| - 1];
      PreviewDeduction(ts[..|ts| - 1], valuePerStar, completionMap)
        + (if t.id in completionMap && !completionMap[t.id] then valuePerStar * t.stars else 0)
  }

  /** `Math.max(0, DAILY_SALARY_TARGET - currentDeduction)`. */
  function GuardedAmount(deduction: int): (g: int)
    ensures 0 <= g && DAILY_SALARY_TARGET - deduction <= g
    ensures g == 0 || g == DAILY_SALARY_TARGET - deduction
    ensures deduction >= 0 ==> g <= DAILY_SALARY_TARGET
  {
    if DAILY_SALARY_TARGET - deduction > 0 then DAILY_SALARY_TARGET - deduction else 0
  }

  /** `todaysTasks.every(t => completionMap[t.id] !== undefined)`. */
  predicate AllDecided(ts: seq<Task>, completionMap: map<string, bool>) {
    forall i :: 0 <= i < |ts| ==> ts[i].id in completionMap
  }

  /** The dialog's state: today's tasks and share per star, fixed when it opens, and the marks so far. */
  class Modal {
    const todaysTasks: seq<Task>
    const valuePerStar: int
    var completionMap: map<string, bool>

    /** Opens the dialog on the tasks of `weekday` with nothing marked. */
    constructor(tasks: seq<Task>, weekday: Day)
      ensures todaysTasks == CalculateStarValue(tasks, weekday).todaysTasks
      ensures valuePerStar == CalculateStarValue(tasks, weekday).valuePerStar
      ensures completionMap == map[]
    {
      var sv := CalculateStarValue(tasks, weekday);
      todaysTasks := sv.todaysTasks;
      valuePerStar := sv.valuePerStar;
      completionMap := map[];
    }

    /** toggleTask: sets the mark of one task and leaves every other mark alone. */
    method ToggleTask(taskId: string, status: bool)
      modifies this
      ensures completionMap == old(completionMap)[taskId := status]
    {
      completionMap := completionMap[taskId := status];
    }

    /** calculateResults: the deduction of the tasks marked not done. */
    method CalculateResults() returns (deduction: int)
      ensures deduction == PreviewDeduction(todaysTasks, valuePerStar, completionMap)
    {
      deduction := 0;
      for i := 0 to |todaysTasks|
        invariant deduction == PreviewDeduction(todaysTasks[..i], valuePerStar, completionMap)
      {
        var task := todaysTasks[i];
        if task.id in completionMap && completionMap[task.id] == false {
          deduction := deduction + valuePerStar * task.stars;
        }
        assert todaysTasks[..i + 1][..i] == todaysTasks[..i];
      }
      assert todaysTasks[..|todaysTasks|] == todaysTasks;
    }

    /** The confirm button: enabled only when every task is decided, and it hands over the marks unchanged. */
    method Confirm() returns (handedOver: Option<map<string, bool>>)
      ensures handedOver.Some? <==> AllDecided(todaysTasks, completionMap)
      ensures handedOver.Some? ==> handedOver.value == completionMap
    {
      if AllDecided(todaysTasks, completionMap) {
        handedOver := Some(completionMap);
      } else {
        handedOver := None;
      }
    }
  }

  /** The preview lies between nothing and the value of all of today's stars. */
  lemma {:induction false} PreviewBounds(ts: seq<Task>, vps: int, m: map<string, bool>)
    requires vps >= 0
    ensures 0 <= PreviewDeduction(ts, vps, m) <= vps * TotalStars(ts)
    decreases |ts|
  {
    if ts != [] {
      var init, t := ts[..|ts| - 1], ts[|ts| - 1];
      PreviewBounds(init, vps, m);
      MulDistributes(vps, TotalStars(init), t.stars);
      MulMonotone(vps, 0, t.stars);
    }
  }

  /** Once every task is decided, the preview is the deduction the settlement will make. */
  lemma {:induction false} PreviewIsSettlementDeduction(ts: seq<Task>, vps: int, m: map<string, bool>)
    requires AllDecided(ts, m)
    ensures PreviewDeduction(ts, vps, m) == TotalDeduction(ts, vps, m)
    decreases |ts|
  {
    if ts != [] {
      var init := ts[..|ts| - 1];
      assert AllDecided(init, m) by {
        forall i | 0 <= i < |init| ensures init[i].id in m {
          assert init[i] == ts[i];
        }
      }
      PreviewIsSettlementDeduction(init, vps, m);
    }
  }

  /** Once every task is decided, the amount shown is the amount the settlement pays. */
  lemma GuardedIsPayout(tasks: seq<Task>, m: map<string, bool>, weekday: Day)
    requires AllDecided(TodaysTasks(tasks, weekday), m)
    ensures var sv := CalculateStarValue(tasks, weekday);
      GuardedAmount(PreviewDeduction(sv.todaysTasks, sv.valuePerStar, m)) == Payout(tasks, m, weekday)
  {
    var sv := CalculateStarValue(tasks, weekday);
    PreviewIsSettlementDeduction(sv.todaysTasks, sv.valuePerStar, m);
    PayoutBounds(tasks, m, weekday);
  }

  /** Two mark maps that agree on today's tasks give the same preview and the same gate. */
  lemma {:induction false} OnlyTodaysMarksMatter(ts: seq<Task>, vps: int, m1: map<string, bool>, m2: map<string, bool>)
    requires forall i :: 0 <= i < |ts| ==>
      (ts[i].id in m1 <==> ts[i].id in m2) && (ts[i].id in m1 ==> m1[ts[i].id] == m2[ts[i].id])
    ensures PreviewDeduction(ts, vps, m1) == PreviewDeduction(ts, vps, m2)
    ensures AllDecided(ts, m1) <==> AllDecided(ts, m2)
    decreases |ts|
  {
    if ts != [] {
      var init := ts[..|ts| - 1];
      assert forall i :: 0 <= i < |init| ==> init[i] == ts[i];
      OnlyTodaysMarksMatter(init, vps, m1, m2);
    }
  }

  /** The marks after a series of toggles, starting from `m`. */
  function ApplyToggles(m: map<string, bool>, toggles: seq<(string, bool)>): map<string, bool>
    decreases |toggles|
  {
    if toggles == [] then m
    else
      var last := toggles[|toggles| - 1];
      ApplyToggles(m, toggles[..|toggles| - 1])[last.0 := last.1]
  }

  /** The status of the last toggle of `id`, if any. */
  function LastToggle(toggles: seq<(string, bool)>, id: string): Option<bool>
    decreases |toggles|
  {
    if toggles == [] then None
    else if toggles[|toggles| - 1].0 == id then Some(toggles[|toggles| - 1].1)
    else LastToggle(toggles[..|toggles| - 1], id)
  }

  /** The last toggle of a task wins; a task never toggled keeps its starting mark. */
  lemma {:induction false} LastToggleWins(m: map<string, bool>, toggles: seq<(string, bool)>, id: string)
    ensures id in ApplyToggles(m, toggles) <==> LastToggle(toggles, id).Some? || id in m
    ensures LastToggle(toggles, id).Some? ==> ApplyToggles(m, toggles)[id] == LastToggle(toggles, id).value
    ensures LastToggle(toggles, id).None? && id in m ==> ApplyToggles(m, toggles)[id] == m[id]
    decreases |toggles|
  {
    if toggles != [] {
      LastToggleWins(m, toggles[..|toggles| - 1], id);
    }
  }
}

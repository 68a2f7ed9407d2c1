/**
 * The application state (App.tsx): the user, the task list and the
 * salary slips, with the weekly grant applied on load and a settlement
 * appending one slip. The dashboard offers settlement only while no slip
 * is dated today (components/Dashboard.tsx), which the settlement method
 * takes as its precondition.
 */
module App {
  import opened Types
  import opened DataService

  class GuardianApp {
    var user: UserProfile
    var tasks: seq<Task>
    var logs: seq<DailyLog>

    /** `logs.some(log => log.date === todayStr)`. */
    predicate HasSettledToday(today: string)
      reads this
    {
      exists i :: 0 <= i < |logs| && logs[i].date == today
    }

    /** Loading: the stored state, with the weekly salary check applied to the user. */
    constructor(data: AppState, today: string, weekday: Day)
      ensures user == CheckWeeklySalaryReset(data.user, today, weekday).updatedUser
      ensures tasks == data.tasks && logs == data.logs
    {
      user := CheckWeeklySalaryReset(data.user, today, weekday).updatedUser;
      tasks := data.tasks;
      logs := data.logs;
    }

    /**
     * handleSettlementConfirm: append today's slip and credit its pay.  The
     * balance never goes down, the task list is untouched, and afterwards
     * today counts as settled.
     */
    method ConfirmSettlement(completionMap: map<string, bool>, today: string, weekday: Day)
      requires !HasSettledToday(today)
      modifies this
      ensures |logs| == |old(logs)| + 1 && logs[..|old(logs)|] == old(logs)
      ensures logs[|logs| - 1].date == today && logs[|logs| - 1].net_income == Payout(old(tasks), completionMap, weekday)
      ensures user == old(user).(balance := old(user).balance + Payout(old(tasks), completionMap, weekday))
      ensures old(user).balance <= user.balance <= old(user).balance + DAILY_SALARY_TARGET
      ensures tasks == old(tasks)
      ensures HasSettledToday(today)
    {
      var r := ProcessSettlement(user, tasks, completionMap, today, weekday);
      PayoutBounds(tasks, completionMap, weekday);
      user := user.(balance := r.newUserBalance);
      logs := logs + [r.log];
      assert logs[|logs| - 1].date == today;
    }
  }
}

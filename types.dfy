/**
 * The client-side records of the chore tracker (types.ts) and its fixed
 * configuration (constants.ts).
 */
module Types {
  import opened Wrappers

  /** A weekday index, 0 = Sunday .. 6 = Saturday. */
  type Day = d: int | 0 <= d <= 6

  /** A task's star weight, 1, 2 or 3. */
  type Stars = s: int | 1 <= s <= 3 witness 1

  datatype Task = Task(id: string, title: string, icon: string, stars: Stars, days: seq<Day>)

  /** What a settlement recorded about one task of the day. */
  datatype TaskStatus = TaskStatus(task_id: string, completed: bool, deduction: int)

  /**
   * One day's salary slip. `deduction` and `actual_amount` are absent on the
   * logs the coin-record adapter synthesises, which do not set them.
   */
  datatype DailyLog = DailyLog(
    date: string,
    base_salary: int,
    tasks_status: seq<TaskStatus>,
    net_income: int,
    total_stars: int,
    star_value: int,
    deduction: Option<int>,
    actual_amount: Option<int>)

  datatype GuardianConfig = GuardianConfig(weekly_base_salary: int, last_salary_date: string)

  datatype UserProfile = UserProfile(
    user_id: string,
    balance: int,
    guardian_config: GuardianConfig,
    isMuted: Option<bool>)

  datatype AppState = AppState(user: UserProfile, tasks: seq<Task>, logs: seq<DailyLog>)

  // The coin-record format of the companion focus app.

  datatype CoinType = Income | Expense
  datatype CoinStatus = Pending | Confirmed

  datatype CoinDetail = CoinDetail(
    taskName: string,
    startTime: int,
    endTime: int,
    focusDuration: int,
    baseCoins: int,
    bonusCoins: int)

  datatype CoinRecord = CoinRecord(
    id: string,
    kind: CoinType,
    status: CoinStatus,
    amount: int,
    createdAt: int,
    detail: CoinDetail,
    confirmedAt: Option<int>)

  /** `EggfocusUserData`: `{ state: { coins, isMuted }, version }`. */
  datatype FocusUserData = FocusUserData(coins: int, isMuted: bool, version: int)

  /** `EggfocusCoinRecords`: `{ state: { records }, version }`. */
  datatype FocusCoinRecords = FocusCoinRecords(records: seq<CoinRecord>, version: int)

  // constants.ts

  const WEEKLY_SALARY: int := 4000

  /** The daily target, 4000 / 7 rounded; a fixed constant, not derived from the user's weekly salary. */
  const DAILY_SALARY_TARGET: int := 572

  const INITIAL_USER: UserProfile :=
    UserProfile("kid_001", 0, GuardianConfig(WEEKLY_SALARY, "2025-12-29"), None)

  const INITIAL_TASKS: seq<Task> := [
    Task("task_homework", "认真写完作业", "📝", 3, [1, 2, 3, 4, 5]),
    Task("task_piano", "练琴20分钟", "🎹", 2, [0, 1, 2, 3, 4, 5, 6]),
    Task("task_bag", "整理书包", "🎒", 1, [0, 1, 2, 3, 4, 5]),
    Task("task_teeth", "早晚刷牙", "🦷", 1, [0, 1, 2, 3, 4, 5, 6])
  ]
}

/**
 * The settlement engine of services/dataService.ts: today's tasks and the
 * value of a star, the deduction-based daily settlement, the Monday salary
 * grant, the local date string and the demonstration password hash.
 *
 * "Today" is not read from a clock: callers pass today's date string and its
 * weekday (0 = Sunday .. 6 = Saturday).
 */
module DataService {
  import opened Wrappers
  import opened Strings
  import opened Types

  // ---------------------------------------------------------------------
  // simpleHash: h := int32(h * 31 + codeUnit), rendered in base 36
  // ---------------------------------------------------------------------

  const TWO_31: int := 0x8000_0000
  const TWO_32: int := 0x1_0000_0000

  /** ToInt32: the signed 32-bit integer congruent to `x` modulo 2^32. */
  function Int32(x: int): (r: int)
    ensures -TWO_31 <= r < TWO_31
    ensures (x - r) % TWO_32 == 0
  {
    var m := x % TWO_32;
    if m >= TWO_31 then m - TWO_32 else m
  }

  /** Congruent integers have the same ToInt32. */
  lemma Int32Congruent(x: int, y: int)
    requires (x - y) % TWO_32 == 0
    ensures Int32(x) == Int32(y)
  {
    var k := (x - y) / TWO_32;
    assert x == y + TWO_32 * k;
    assert x % TWO_32 == y % TWO_32;
  }

  /** One UTF-16 code unit, what `charCodeAt` returns. */
  type CodeUnit = u: int | 0 <= u < 0x1_0000

  /** The UTF-16 code units of one character. */
  function CharUnits(c: char): seq<CodeUnit> {
    var v := c as int;
    if v < 0x1_0000 then [v]
    else
      var w := v - 0x1_0000;
      [0xD800 + w / 0x400, 0xDC00 + w % 0x400]
  }

  /** The UTF-16 code units of a string, the sequence a JavaScript string is made of. */
  function Utf16(s: string): seq<CodeUnit>
    decreases |s|
  {
    if s == [] then [] else CharUnits(s[0]) + Utf16(s[1..])
  }

  /** The hash of a code-unit sequence: start at 0, then `h := int32(31 * h + u)` per unit. */
  function HashOf(units: seq<CodeUnit>): (h: int)
    ensures -TWO_31 <= h < TWO_31
    decreases |units|
  {
    if units == [] then 0 else Int32(31 * HashOf(units[..|units| - 1]) + units[|units| - 1])
  }

  /** `((h << 5) - h) + c` followed by `h & h` is `int32(31 * h + c)` when `h` is a 32-bit value. */
  lemma ShiftStep(h: int, c: int)
    requires -TWO_31 <= h < TWO_31
    ensures Int32(Int32(h * 32) - h + c) == Int32(31 * h + c)
  {
    var s := Int32(h * 32);
    assert (h * 32 - s) % TWO_32 == 0;
    assert (s - h + c) - (31 * h + c) == -(h * 32 - s);
    assert ((s - h + c) - (31 * h + c)) % TWO_32 == 0;
    Int32Congruent(s - h + c, 31 * h + c);
  }

  /** One turn of simpleHash's loop computes the hash of one more code unit. */
  lemma HashStep(units: seq<CodeUnit>, i: int, h: int)
    requires 0 <= i < |units| && h == HashOf(units[..i])
    ensures Int32(Int32(h * 32) - h + units[i]) == HashOf(units[..i + 1])
  {
    ShiftStep(h, units[i]);
    assert units[..i + 1][..i] == units[..i];
  }

  /** simpleHash(str): the base-36 rendering of HashOf over the string's UTF-16 code units. */
  method SimpleHash(str: string) returns (r: string)
    ensures r == IntToString(HashOf(Utf16(str)), 36)
  {
    var units := Utf16(str);
    var hash := 0;
    for i := 0 to |units|
      invariant hash == HashOf(units[..i])
    {
      var c := units[i];
      HashStep(units, i, hash);
      hash := Int32(hash * 32) - hash + c;  // (hash << 5) - hash + char
      hash := Int32(hash);                   // hash & hash
    }
    assert units[..|units|] == units;
    r := IntToString(hash, 36);
  }

  /** The empty password hashes to "0"; every hash reads back as a signed 32-bit value. */
  lemma HashProperties(str: string)
    ensures IntToString(HashOf(Utf16([])), 36) == "0"
    ensures ParseInt(IntToString(HashOf(Utf16(str)), 36), 36) == HashOf(Utf16(str))
    ensures -TWO_31 <= HashOf(Utf16(str)) < TWO_31
  {
    ParseIntToString(HashOf(Utf16(str)), 36);
  }

  /** Appending one code unit updates the hash by one step of the recurrence. */
  lemma HashSnoc(units: seq<CodeUnit>, u: CodeUnit)
    ensures HashOf(units + [u]) == Int32(31 * HashOf(units) + u)
  {
    assert (units + [u])[..|units|] == units;
  }

  // ---------------------------------------------------------------------
  // getTodayDateString: `${year}-${MM}-${DD}`
  // ---------------------------------------------------------------------

  type Month = m: int | 1 <= m <= 12 witness 1
  type DayOfMonth = d: int | 1 <= d <= 31 witness 1

  /** A local calendar day: `getFullYear()`, `getMonth() + 1`, `getDate()`. */
  datatype CalendarDate = CalendarDate(year: int, month: Month, day: DayOfMonth)

  function TwoDigits(n: int): string
    requires 1 <= n <= 31
  {
    PadStart(IntToString(n, 10), 2, '0')
  }

  /** The date string of a calendar day: the year unpadded, month and day padded to two digits. */
  function FormatDate(d: CalendarDate): string {
    IntToString(d.year, 10) + "-" + TwoDigits(d.month) + "-" + TwoDigits(d.day)
  }

  lemma TwoDigitsValue(n: int)
    requires 1 <= n <= 31
    ensures |TwoDigits(n)| == 2
    ensures forall i :: 0 <= i < 2 ==> '0' <= TwoDigits(n)[i] <= '9'
    ensures ParseNat(TwoDigits(n), 10) == n
  {
    var p := TwoDigits(n);
    if n < 10 {
      assert IntToString(n, 10) == [DigitChar(n)];
      assert p == ['0', DigitChar(n)];
      assert p[..1] == ['0'];
      assert ParseNat(p[..1][..0], 10) == 0;
      DigitRoundTrip(n);
    } else {
      DivMod(n, 10);
      assert NatToString(n / 10, 10) == [DigitChar(n / 10)];
      assert p == [DigitChar(n / 10), DigitChar(n % 10)];
      ParseNatToString(n, 10);
    }
  }

  /** Cutting `y-mm-dd` with two-character `mm` and `dd` back into its three fields. */
  lemma DashedFields(y: string, mm: string, dd: string)
    requires |mm| == 2 && |dd| == 2
    ensures var s := y + "-" + mm + "-" + dd;
      |s| == |y| + 6 && s[|s| - 6] == '-' && s[|s| - 3] == '-'
      && s[..|s| - 6] == y && s[|s| - 5..|s| - 3] == mm && s[|s| - 2..] == dd
  {
  }

  /** Reads a date string back into year, month and day: the last six characters are `-MM-DD`. */
  function ParseDate(s: string): (int, int, int) {
    if |s| < 6 then (0, 0, 0)
    else (ParseInt(s[..|s| - 6], 10), ParseNat(s[|s| - 5..|s| - 3], 10), ParseNat(s[|s| - 2..], 10))
  }

  /** A dashed string of fields with the given values reads back to those values. */
  lemma ParseDashed(y: string, mm: string, dd: string, year: int, month: int, day: int)
    requires |mm| == 2 && |dd| == 2
    requires ParseInt(y, 10) == year && ParseNat(mm, 10) == month && ParseNat(dd, 10) == day
    ensures var s := y + "-" + mm + "-" + dd;
      |s| == |y| + 6 && s[|s| - 6] == '-' && s[|s| - 3] == '-'
      && ParseDate(s) == (year, month, day)
  {
    DashedFields(y, mm, dd);
  }

  /** The date string reads back to the calendar day it was made from. */
  lemma ParseFormatDate(d: CalendarDate)
    ensures |FormatDate(d)| == |IntToString(d.year, 10)| + 6
    ensures ParseDate(FormatDate(d)) == (d.year, d.month as int, d.day as int)
  {
    var y := IntToString(d.year, 10);
    var mm := TwoDigits(d.month);
    var dd := TwoDigits(d.day);
    TwoDigitsValue(d.month);
    TwoDigitsValue(d.day);
    ParseIntToString(d.year, 10);
    var s := y + "-" + mm + "-" + dd;
    ParseDashed(y, mm, dd, d.year, d.month, d.day);
    assert FormatDate(d) == s;
  }

  /** Distinct calendar days have distinct date strings. */
  lemma FormatDateInjective(a: CalendarDate, b: CalendarDate)
    requires FormatDate(a) == FormatDate(b)
    ensures a == b
  {
    ParseFormatDate(a);
    ParseFormatDate(b);
  }

  /** A string `yyyy-mm-dd` of digit fields has ten characters, dashes at 4 and 7 and digits elsewhere. */
  lemma TenChars(y: string, mm: string, dd: string)
    requires |y| == 4 && |mm| == 2 && |dd| == 2
    requires forall i :: 0 <= i < 4 ==> '0' <= y[i] <= '9'
    requires forall i :: 0 <= i < 2 ==> '0' <= mm[i] <= '9' && '0' <= dd[i] <= '9'
    ensures var s := y + "-" + mm + "-" + dd;
      |s| == 10 && s[4] == '-' && s[7] == '-'
      && forall i :: 0 <= i < 10 && i != 4 && i != 7 ==> '0' <= s[i] <= '9'
  {
    var s := y + "-" + mm + "-" + dd;
    forall i | 0 <= i < 10 && i != 4 && i != 7 ensures '0' <= s[i] <= '9' {
      if i < 4 { assert s[i] == y[i]; }
      else if i < 7 { assert s[i] == mm[i - 5]; }
      else { assert s[i] == dd[i - 8]; }
    }
  }

  /** A year of four digits renders as four decimal digits. */
  lemma FourDigits(y: int)
    requires 1000 <= y <= 9999
    ensures |IntToString(y, 10)| == 4
    ensures forall i :: 0 <= i < 4 ==> '0' <= IntToString(y, 10)[i] <= '9'
  {
    var a, b, c := y / 10, y / 100, y / 1000;
    assert a / 10 == b && b / 10 == c;
    assert 100 <= a <= 999 && 10 <= b <= 99 && 1 <= c <= 9;
    assert NatToString(c, 10) == [DigitChar(c)];
    assert NatToString(b, 10) == [DigitChar(c)] + [DigitChar(b % 10)];
    assert NatToString(a, 10) == [DigitChar(c)] + [DigitChar(b % 10)] + [DigitChar(a % 10)];
    assert IntToString(y, 10)
      == [DigitChar(c)] + [DigitChar(b % 10)] + [DigitChar(a % 10)] + [DigitChar(y % 10)];
  }

  /** For a four-digit year the string is exactly `YYYY-MM-DD`. */
  lemma FormatDateFourDigitYear(d: CalendarDate)
    requires 1000 <= d.year <= 9999
    ensures |FormatDate(d)| == 10 && FormatDate(d)[4] == '-' && FormatDate(d)[7] == '-'
    ensures forall i :: 0 <= i < 10 && i != 4 && i != 7 ==> '0' <= FormatDate(d)[i] <= '9'
  {
    FourDigits(d.year);
    TwoDigitsValue(d.month);
    TwoDigitsValue(d.day);
    var y, mm, dd := IntToString(d.year, 10), TwoDigits(d.month), TwoDigits(d.day);
    TenChars(y, mm, dd);
    assert FormatDate(d) == y + "-" + mm + "-" + dd;
  }

  // ---------------------------------------------------------------------
  // calculateStarValue
  // ---------------------------------------------------------------------

  /** The tasks scheduled on `weekday`, in their original order. */
  function TodaysTasks(tasks: seq<Task>, weekday: Day): (r: seq<Task>)
    ensures |r| <= |tasks|
    ensures forall t :: t in r <==> t in tasks && weekday in t.days
    decreases |tasks|
  {
    if tasks == [] then []
    else (if weekday in tasks[0].days then [tasks[0]] else []) + TodaysTasks(tasks[1..], weekday)
  }

  /** Filtering distributes over concatenation, so the filter keeps the tasks' relative order. */
  lemma {:induction false} TodaysTasksAppend(a: seq<Task>, b: seq<Task>, weekday: Day)
    ensures TodaysTasks(a + b, weekday) == TodaysTasks(a, weekday) + TodaysTasks(b, weekday)
    decreases |a|
  {
    if a != [] {
      assert (a + b)[1..] == a[1..] + b;
      TodaysTasksAppend(a[1..], b, weekday);
    } else {
      assert a + b == b;
    }
  }

  /** The sum of the tasks' stars, `reduce((sum, t) => sum + t.stars, 0)`. */
  function TotalStars(ts: seq<Task>): (n: int)
    ensures |ts| <= n <= 3 * |ts|
    decreases |ts|
  {
    if ts == [] then 0 else TotalStars(ts[..|ts| - 1]) + ts[|ts| - 1].stars
  }

  datatype StarValue = StarValue(totalStars: int, valuePerStar: int, todaysTasks: seq<Task>)

  /** calculateStarValue: today's tasks, their total stars, and the daily target divided by the stars, rounded down. */
  function CalculateStarValue(tasks: seq<Task>, weekday: Day): (r: StarValue)
    ensures r.todaysTasks == TodaysTasks(tasks, weekday)
    ensures r.totalStars == TotalStars(r.todaysTasks)
    ensures r.totalStars == 0 <==> r.todaysTasks == []
    ensures r.totalStars == 0 ==> r.valuePerStar == 0
    ensures r.totalStars > 0 ==> r.valuePerStar == DAILY_SALARY_TARGET / r.totalStars
  {
    var todays := TodaysTasks(tasks, weekday);
    var total := TotalStars(todays);
    StarValue(total, if total > 0 then DAILY_SALARY_TARGET / total else 0, todays)
  }

  /** The value per star is the largest whole amount whose total over the day's stars stays within 572. */
  lemma StarValueFloor(tasks: seq<Task>, weekday: Day)
    ensures var r := CalculateStarValue(tasks, weekday);
      r.totalStars > 0 ==>
        r.valuePerStar * r.totalStars <= DAILY_SALARY_TARGET < (r.valuePerStar + 1) * r.totalStars
    ensures var r := CalculateStarValue(tasks, weekday);
      0 <= r.valuePerStar <= DAILY_SALARY_TARGET && 0 <= r.valuePerStar * r.totalStars <= DAILY_SALARY_TARGET
  {
    var r := CalculateStarValue(tasks, weekday);
    if r.totalStars > 0 {
      FloorDivision(DAILY_SALARY_TARGET, r.totalStars);
    }
  }

  lemma FloorDivision(a: nat, b: int)
    requires b > 0
    ensures (a / b) * b <= a < (a / b + 1) * b
    ensures 0 <= a / b <= a
    ensures a - (a / b) * b == a % b
  {
    var q, r := a / b, a % b;
    assert a == q * b + r;
    assert (q + 1) * b == q * b + b;
    MulMonotone(q, 1, b);
  }

  lemma MulMonotone(a: int, x: int, y: int)
    requires a >= 0 && x <= y
    ensures a * x <= a * y
  {
    MulDistributes(a, x, y - x);
  }

  lemma MulDistributes(a: int, x: int, y: int)
    ensures a * (x + y) == a * x + a * y
  {
  }

  // ---------------------------------------------------------------------
  // processSettlement (deduction policy)
  // ---------------------------------------------------------------------

  /** `completionMap[id] === true`: only an explicit true completes a task. */
  predicate IsCompleted(id: string, completionMap: map<string, bool>) {
    id in completionMap && completionMap[id]
  }

  /** The deduction for one task: nothing if completed, its share `valuePerStar * stars` otherwise. */
  function TaskDeduction(t: Task, valuePerStar: int, completionMap: map<string, bool>): int {
    if IsCompleted(t.id, completionMap) then 0 else valuePerStar * t.stars
  }

  /** The status a settlement records for one task. */
  function StatusOf(t: Task, valuePerStar: int, completionMap: map<string, bool>): TaskStatus {
    TaskStatus(t.id, IsCompleted(t.id, completionMap), TaskDeduction(t, valuePerStar, completionMap))
  }

  /** The statuses of the tasks, one per task in the same order. */
  function Statuses(ts: seq<Task>, valuePerStar: int, completionMap: map<string, bool>): seq<TaskStatus>
    decreases |ts|
  {
    if ts == [] then []
    else Statuses(ts[..|ts| - 1], valuePerStar, completionMap) + [StatusOf(ts[|ts| - 1], valuePerStar, completionMap)]
  }

  /** The sum of the tasks' deductions, accumulated in task order. */
  function TotalDeduction(ts: seq<Task>, valuePerStar: int, completionMap: map<string, bool>): int
    decreases |ts|
  {
    if ts == [] then 0
    else TotalDeduction(ts[..|ts| - 1], valuePerStar, completionMap) + TaskDeduction(ts[|ts| - 1], valuePerStar, completionMap)
  }

  /** The stars of the tasks not completed. */
  function UnfinishedStars(ts: seq<Task>, completionMap: map<string, bool>): int
    decreases |ts|
  {
    if ts == [] then 0
    else
      UnfinishedStars(ts[..|ts| - 1], completionMap)
      + (if IsCompleted(ts[|ts| - 1].id, completionMap) then 0 else ts[|ts| - 1].stars)
  }

  /** Exactly one status per task, in order: its id, whether `completionMap[id] === true`, and its deduction. */
  lemma {:induction false} StatusesAt(ts: seq<Task>, vps: int, m: map<string, bool>)
    ensures |Statuses(ts, vps, m)| == |ts|
    ensures forall i :: 0 <= i < |ts| ==>
      Statuses(ts, vps, m)[i].task_id == ts[i].id
      && (Statuses(ts, vps, m)[i].completed <==> IsCompleted(ts[i].id, m))
      && Statuses(ts, vps, m)[i].deduction == (if Statuses(ts, vps, m)[i].completed then 0 else vps * ts[i].stars)
    decreases |ts|
  {
    if ts != [] {
      StatusesAt(ts[..|ts| - 1], vps, m);
    }
  }

  /** The total deduction is the value of the unfinished stars, between nothing and the day's whole value. */
  lemma {:induction false} TotalDeductionIsUnfinishedValue(ts: seq<Task>, vps: int, m: map<string, bool>)
    requires vps >= 0
    ensures TotalDeduction(ts, vps, m) == vps * UnfinishedStars(ts, m)
    ensures 0 <= UnfinishedStars(ts, m) <= TotalStars(ts)
    ensures 0 <= TotalDeduction(ts, vps, m) <= vps * TotalStars(ts)
    decreases |ts|
  {
    if ts != [] {
      var init := ts[..|ts| - 1];
      TotalDeductionIsUnfinishedValue(init, vps, m);
      var last := ts[|ts| - 1];
      var u := if IsCompleted(last.id, m) then 0 else last.stars;
      assert TaskDeduction(last, vps, m) == vps * u;
      MulDistributes(vps, UnfinishedStars(init, m), u);
      MulMonotone(vps, 0, UnfinishedStars(ts, m));
      MulMonotone(vps, UnfinishedStars(ts, m), TotalStars(ts));
    }
  }

  predicate AllCompleted(ts: seq<Task>, m: map<string, bool>) {
    forall i :: 0 <= i < |ts| ==> IsCompleted(ts[i].id, m)
  }

  predicate NoneCompleted(ts: seq<Task>, m: map<string, bool>) {
    forall i :: 0 <= i < |ts| ==> !IsCompleted(ts[i].id, m)
  }

  /** With every task completed nothing is deducted. */
  lemma {:induction false} AllCompletedNoDeduction(ts: seq<Task>, vps: int, m: map<string, bool>)
    requires AllCompleted(ts, m)
    ensures TotalDeduction(ts, vps, m) == 0
    decreases |ts|
  {
    if ts != [] {
      AllCompletedNoDeduction(ts[..|ts| - 1], vps, m);
    }
  }

  /** With no task completed every star is deducted. */
  lemma {:induction false} NoneCompletedFullDeduction(ts: seq<Task>, vps: int, m: map<string, bool>)
    requires NoneCompleted(ts, m)
    ensures TotalDeduction(ts, vps, m) == vps * TotalStars(ts)
    decreases |ts|
  {
    if ts != [] {
      NoneCompletedFullDeduction(ts[..|ts| - 1], vps, m);
      MulDistributes(vps, TotalStars(ts[..|ts| - 1]), ts[|ts| - 1].stars);
    }
  }

  datatype Settlement = Settlement(log: DailyLog, newUserBalance: int)

  /**
   * processSettlement: the log holds one status per task of today, the
   * deduction is the sum of the unfinished tasks' shares, the child receives
   * the daily target minus the deduction, and the balance grows by that.
   */
  method ProcessSettlement(
    user: UserProfile, tasks: seq<Task>, completionMap: map<string, bool>, today: string, weekday: Day)
    returns (r: Settlement)
    ensures var sv := CalculateStarValue(tasks, weekday);
      r.log.tasks_status == Statuses(sv.todaysTasks, sv.valuePerStar, completionMap)
    ensures var sv := CalculateStarValue(tasks, weekday);
      var deduction := TotalDeduction(sv.todaysTasks, sv.valuePerStar, completionMap);
      && r.log.deduction == Some(deduction)
      && r.log.actual_amount == Some(DAILY_SALARY_TARGET - deduction)
      && r.log.net_income == DAILY_SALARY_TARGET - deduction
      && r.log.total_stars == sv.totalStars
      && r.log.star_value == sv.valuePerStar
    ensures r.log.base_salary == DAILY_SALARY_TARGET
    ensures r.log.date == today
    ensures r.newUserBalance == user.balance + r.log.net_income
  {
    var sv := CalculateStarValue(tasks, weekday);
    var tasksStatus, totalDeduction := SettleTasks(sv.todaysTasks, sv.valuePerStar, completionMap);
    var actualAmount := DAILY_SALARY_TARGET - totalDeduction;
    var log := DailyLog(today, DAILY_SALARY_TARGET, tasksStatus, actualAmount,
                        sv.totalStars, sv.valuePerStar, Some(totalDeduction), Some(actualAmount));
    r := Settlement(log, user.balance + actualAmount);
  }

  /** The `forEach` over today's tasks: push each task's status and accumulate its deduction. */
  method SettleTasks(todays: seq<Task>, valuePerStar: int, completionMap: map<string, bool>)
    returns (tasksStatus: seq<TaskStatus>, totalDeduction: int)
    ensures tasksStatus == Statuses(todays, valuePerStar, completionMap)
    ensures totalDeduction == TotalDeduction(todays, valuePerStar, completionMap)
  {
    tasksStatus := [];
    totalDeduction := 0;
    for i := 0 to |todays|
      invariant tasksStatus == Statuses(todays[..i], valuePerStar, completionMap)
      invariant totalDeduction == TotalDeduction(todays[..i], valuePerStar, completionMap)
    {
      var task := todays[i];
      var isCompleted := task.id in completionMap && completionMap[task.id];
      var taskDeduction := if isCompleted then 0 else valuePerStar * task.stars;
      assert todays[..i + 1][..i] == todays[..i] && todays[..i + 1][i] == task;
      tasksStatus := tasksStatus + [TaskStatus(task.id, isCompleted, taskDeduction)];
      totalDeduction := totalDeduction + taskDeduction;
    }
    assert todays[..|todays|] == todays;
  }

  /** The amount a settlement pays: the daily target less the deduction. */
  function Payout(tasks: seq<Task>, completionMap: map<string, bool>, weekday: Day): int {
    var sv := CalculateStarValue(tasks, weekday);
    DAILY_SALARY_TARGET - TotalDeduction(sv.todaysTasks, sv.valuePerStar, completionMap)
  }

  /** The payout lies within [0, 572], so settling never lowers the balance; a day without tasks pays 572. */
  lemma PayoutBounds(tasks: seq<Task>, completionMap: map<string, bool>, weekday: Day)
    ensures 0 <= Payout(tasks, completionMap, weekday) <= DAILY_SALARY_TARGET
    ensures TodaysTasks(tasks, weekday) == [] ==> Payout(tasks, completionMap, weekday) == DAILY_SALARY_TARGET
  {
    var sv := CalculateStarValue(tasks, weekday);
    StarValueFloor(tasks, weekday);
    TotalDeductionIsUnfinishedValue(sv.todaysTasks, sv.valuePerStar, completionMap);
  }

  /** A day with every scheduled task completed pays the full 572. */
  lemma PayoutAllCompleted(tasks: seq<Task>, completionMap: map<string, bool>, weekday: Day)
    requires AllCompleted(TodaysTasks(tasks, weekday), completionMap)
    ensures Payout(tasks, completionMap, weekday) == DAILY_SALARY_TARGET
  {
    var sv := CalculateStarValue(tasks, weekday);
    AllCompletedNoDeduction(sv.todaysTasks, sv.valuePerStar, completionMap);
  }

  /** A day with tasks and none of them completed pays only the floor-division remainder of 572. */
  lemma PayoutNoneCompleted(tasks: seq<Task>, completionMap: map<string, bool>, weekday: Day)
    requires TodaysTasks(tasks, weekday) != [] && NoneCompleted(TodaysTasks(tasks, weekday), completionMap)
    ensures Payout(tasks, completionMap, weekday) == DAILY_SALARY_TARGET % TotalStars(TodaysTasks(tasks, weekday))
  {
    var sv := CalculateStarValue(tasks, weekday);
    var t, v := sv.totalStars, sv.valuePerStar;
    NoneCompletedFullDeduction(sv.todaysTasks, v, completionMap);
    assert t > 0 && v == DAILY_SALARY_TARGET / t;
    FloorDivision(DAILY_SALARY_TARGET, t);
  }

  /** The worked example: 3-star and 1-star tasks, only the 3-star one done, pays 572 - 143. */
  lemma ExampleSettlement()
    ensures var tasks := [Task("a", "A", "x", 3, [1, 2, 3, 4, 5]), Task("b", "B", "y", 1, [0, 1, 2, 3, 4, 5, 6])];
      CalculateStarValue(tasks, 2).valuePerStar == 143
      && Payout(tasks, map["a" := true, "b" := false], 2) == 429
  {
    var tasks := [Task("a", "A", "x", 3, [1, 2, 3, 4, 5]), Task("b", "B", "y", 1, [0, 1, 2, 3, 4, 5, 6])];
    assert tasks[1..][1..] == [];
    assert TodaysTasks(tasks, 2) == tasks;
    assert tasks[..1][..0] == [];
    assert TotalStars(tasks) == 4;
    assert TotalDeduction(tasks, 143, map["a" := true, "b" := false]) == 143;
  }

  // ---------------------------------------------------------------------
  // checkWeeklySalaryReset
  // ---------------------------------------------------------------------

  datatype SalaryReset = SalaryReset(updatedUser: UserProfile, salaryAdded: bool)

  /**
   * On a Monday whose date differs from the last grant, add the weekly base
   * salary and record today as the last grant; otherwise return the user as is.
   */
  function CheckWeeklySalaryReset(user: UserProfile, today: string, weekday: Day): (r: SalaryReset)
    ensures r.salaryAdded <==> weekday == 1 && user.guardian_config.last_salary_date != today
    ensures r.updatedUser.balance
      == user.balance + (if r.salaryAdded then user.guardian_config.weekly_base_salary else 0)
    ensures r.updatedUser.guardian_config.last_salary_date
      == (if r.salaryAdded then today else user.guardian_config.last_salary_date)
    ensures r.updatedUser.user_id == user.user_id
    ensures r.updatedUser.isMuted == user.isMuted
    ensures r.updatedUser.guardian_config.weekly_base_salary == user.guardian_config.weekly_base_salary
    ensures !r.salaryAdded ==> r.updatedUser == user
  {
    if weekday == 1 && user.guardian_config.last_salary_date != today then
      SalaryReset(
        user.(balance := user.balance + user.guardian_config.weekly_base_salary,
              guardian_config := user.guardian_config.(last_salary_date := today)),
        true)
    else
      SalaryReset(user, false)
  }

  /** A second check on the same day grants nothing and changes nothing. */
  lemma SalaryResetIdempotent(user: UserProfile, today: string, weekday: Day)
    ensures var once := CheckWeeklySalaryReset(user, today, weekday).updatedUser;
      var twice := CheckWeeklySalaryReset(once, today, weekday);
      !twice.salaryAdded && twice.updatedUser == once
  {
  }
}

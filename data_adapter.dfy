/**
 * The bridge between the chore tracker's state and the coin-record format
 * of the companion focus app (services/dataAdapter.ts).
 *
 * Going in, coin records are folded into a date-keyed JavaScript `Map` of
 * daily logs. A `Map` keeps its keys in first-insertion order and every value
 * stored here carries its own key as its `date`, so the map is modelled as
 * the sequence of its values in key order, with `Find` as its lookup.
 * Going out, logs become `guardian-<date>` income records. The clock and the
 * time zone enter as two parameters: `localDate` reads a millisecond
 * timestamp as a local calendar day and `timeOfDate` stands for
 * `new Date(dateString).getTime()`.
 */
module DataAdapter {
  import opened Wrappers
  import opened Strings
  import opened Sorting
  import opened Types
  import opened DataService

  // ---------------------------------------------------------------------
  // The date-keyed log map
  // ---------------------------------------------------------------------

  /** No two logs share a date: the map's keys are unique. */
  predicate DistinctDates(e: seq<DailyLog>) {
    forall i, j :: 0 <= i < j < |e| ==> e[i].date != e[j].date
  }

  /** `logsMap.get(d)`: the position of the log dated `d`, or -1. */
  function Find(e: seq<DailyLog>, d: string): (i: int)
    ensures -1 <= i < |e|
    ensures i >= 0 ==> e[i].date == d
    ensures i == -1 ==> forall k :: 0 <= k < |e| ==> e[k].date != d
    decreases |e|
  {
    if e == [] then -1
    else if e[|e| - 1].date == d then |e| - 1
    else Find(e[..|e| - 1], d)
  }

  /** With unique dates the lookup of a log's own date finds that log. */
  lemma FindDistinct(e: seq<DailyLog>, i: int)
    requires DistinctDates(e) && 0 <= i < |e|
    ensures Find(e, e[i].date) == i
  {
  }

  /** The lookup depends only on the dates, position by position. */
  lemma {:induction false} FindSameDates(e: seq<DailyLog>, e': seq<DailyLog>, d: string)
    requires |e| == |e'| && forall i :: 0 <= i < |e| ==> e[i].date == e'[i].date
    ensures Find(e, d) == Find(e', d)
    decreases |e|
  {
    if e != [] {
      FindSameDates(e[..|e| - 1], e'[..|e'| - 1], d);
    }
  }

  /** Looking up in a map that gained one log at the end. */
  lemma FindAppend(e: seq<DailyLog>, log: DailyLog, d: string)
    ensures Find(e + [log], d) == if log.date == d then |e| else Find(e, d)
  {
    assert (e + [log])[..|e|] == e;
  }

  /** `logsMap.set(log.date, log)`: replaces the value of an existing key in place, or adds the key at the end. */
  function Put(e: seq<DailyLog>, log: DailyLog): seq<DailyLog> {
    var j := Find(e, log.date);
    if j >= 0 then e[j := log] else e + [log]
  }

  /** After a `set`, the key maps to the new log and every other key keeps its log. */
  lemma PutFacts(e: seq<DailyLog>, log: DailyLog, d: string)
    requires DistinctDates(e)
    ensures DistinctDates(Put(e, log))
    ensures var r, i := Put(e, log), Find(Put(e, log), d);
      if d == log.date then i >= 0 && r[i] == log
      else i == Find(e, d) && (i >= 0 ==> r[i] == e[i])
  {
    var j := Find(e, log.date);
    if j >= 0 {
      FindSameDates(e[j := log], e, d);
      FindSameDates(e[j := log], e, log.date);
    } else {
      FindAppend(e, log, d);
    }
  }

  // ---------------------------------------------------------------------
  // Keeping the existing logs: existingState.logs.forEach(log => logsMap.set(log.date, log))
  // ---------------------------------------------------------------------

  /** The map after setting every existing log in order. */
  function IndexLogs(logs: seq<DailyLog>): seq<DailyLog>
    decreases |logs|
  {
    if logs == [] then [] else Put(IndexLogs(logs[..|logs| - 1]), logs[|logs| - 1])
  }

  /** The last log of the list dated `d`, if any: an independent reading of "later logs replace earlier ones". */
  function LastWithDate(logs: seq<DailyLog>, d: string): Option<DailyLog>
    decreases |logs|
  {
    if logs == [] then None
    else if logs[|logs| - 1].date == d then Some(logs[|logs| - 1])
    else LastWithDate(logs[..|logs| - 1], d)
  }

  /** The indexed existing logs have unique dates, and on each date the list's last log is the one kept. */
  lemma {:induction false} IndexLogsLastWins(logs: seq<DailyLog>, d: string)
    ensures DistinctDates(IndexLogs(logs))
    ensures var e, i := IndexLogs(logs), Find(IndexLogs(logs), d);
      (i >= 0 <==> LastWithDate(logs, d).Some?) && (i >= 0 ==> e[i] == LastWithDate(logs, d).value)
    decreases |logs|
  {
    if logs != [] {
      IndexLogsLastWins(logs[..|logs| - 1], d);
      PutFacts(IndexLogs(logs[..|logs| - 1]), logs[|logs| - 1], d);
    }
  }

  // ---------------------------------------------------------------------
  // Folding in the coin records
  // ---------------------------------------------------------------------

  /** Only confirmed income records become salary. */
  predicate Contributes(r: CoinRecord) {
    r.status == Confirmed && r.kind == Income
  }

  /** `records.filter(r => r.status === 'confirmed' && r.type === 'income')`. */
  function Contributing(rs: seq<CoinRecord>): (c: seq<CoinRecord>)
    ensures forall r :: r in c <==> r in rs && Contributes(r)
    decreases |rs|
  {
    if rs == [] then []
    else Contributing(rs[..|rs| - 1]) + (if Contributes(rs[|rs| - 1]) then [rs[|rs| - 1]] else [])
  }

  /** `record.confirmedAt || record.createdAt`: a missing or zero confirmation time falls back to the creation time. */
  function RecordTime(r: CoinRecord): int {
    if r.confirmedAt.Some? && r.confirmedAt.value != 0 then r.confirmedAt.value else r.createdAt
  }

  /** The local date string of the record's time. */
  function RecordDate(r: CoinRecord, localDate: int -> CalendarDate): string {
    FormatDate(localDate(RecordTime(r)))
  }

  /** The record-to-date-string function of a time zone. */
  function Dating(localDate: int -> CalendarDate): CoinRecord -> string {
    (r: CoinRecord) => RecordDate(r, localDate)
  }

  /** The simplified log created for a date that had none: no task data, the amount as base and net. */
  function NewLog(d: string, amount: int): (l: DailyLog)
    ensures l.date == d && l.base_salary == amount && l.net_income == amount
    ensures Synthesised(l)
  {
    DailyLog(d, amount, [], amount, 0, 0, None, None)
  }

  /** A log made from coin records rather than by a settlement. */
  predicate Synthesised(l: DailyLog) {
    l.tasks_status == [] && l.total_stars == 0 && l.star_value == 0 && l.deduction.None? && l.actual_amount.None?
  }

  function NetIncome(l: DailyLog): int {
    l.net_income
  }

  function Amount(r: CoinRecord): int {
    r.amount
  }

  /** One record folded into the map: an existing log's `net_income` grows, otherwise a new log is set. */
  function AddRecord(e: seq<DailyLog>, d: string, amount: int): seq<DailyLog> {
    var j := Find(e, d);
    if j >= 0 then e[j := e[j].(net_income := e[j].net_income + amount)] else e + [NewLog(d, amount)]
  }

  /** Folding in one record keeps the keys in place and unique. */
  lemma AddRecordShape(e: seq<DailyLog>, d: string, amount: int)
    requires DistinctDates(e)
    ensures var r := AddRecord(e, d, amount);
      DistinctDates(r) && |r| >= |e| && forall i :: 0 <= i < |e| ==> r[i].date == e[i].date
  {
  }

  /** After folding in one record its date is a key, and the other keys are the old ones. */
  lemma AddRecordFind(e: seq<DailyLog>, d: string, amount: int, x: string)
    ensures Find(AddRecord(e, d, amount), x) >= 0 <==> Find(e, x) >= 0 || x == d
  {
    var j := Find(e, d);
    if j >= 0 {
      var r := e[j := e[j].(net_income := e[j].net_income + amount)];
      assert forall i :: 0 <= i < |e| ==> r[i].date == e[i].date;
      FindSameDates(r, e, x);
    } else {
      FindAppend(e, NewLog(d, amount), x);
    }
  }

  /** Folding in one record adds its amount to the total net income. */
  lemma AddRecordSum(e: seq<DailyLog>, d: string, amount: int)
    ensures SumBy(AddRecord(e, d, amount), NetIncome) == SumBy(e, NetIncome) + amount
  {
    var j := Find(e, d);
    if j >= 0 {
      SumUpdate(e, j, e[j].(net_income := e[j].net_income + amount), NetIncome);
    } else {
      SumAppend(e, NewLog(d, amount), NetIncome);
    }
  }

  /** The map after folding in the records in order. */
  function AddRecords(e: seq<DailyLog>, rs: seq<CoinRecord>, dateOf: CoinRecord -> string): seq<DailyLog>
    decreases |rs|
  {
    if rs == [] then e
    else AddRecord(AddRecords(e, rs[..|rs| - 1], dateOf), dateOf(rs[|rs| - 1]), rs[|rs| - 1].amount)
  }

  /** Folding in one more record of a prefix. */
  lemma AddRecordsStep(e: seq<DailyLog>, rs: seq<CoinRecord>, i: int, dateOf: CoinRecord -> string)
    requires 0 <= i < |rs|
    ensures AddRecords(e, rs[..i + 1], dateOf) == AddRecord(AddRecords(e, rs[..i], dateOf), dateOf(rs[i]), rs[i].amount)
  {
    assert rs[..i + 1][..i] == rs[..i];
  }

  /** The dates of the records. */
  function RecordDates(rs: seq<CoinRecord>, dateOf: CoinRecord -> string): set<string>
    decreases |rs|
  {
    if rs == [] then {} else RecordDates(rs[..|rs| - 1], dateOf) + {dateOf(rs[|rs| - 1])}
  }

  /** The total amount of the records dated `d`. */
  function AmountOn(rs: seq<CoinRecord>, d: string, dateOf: CoinRecord -> string): int
    decreases |rs|
  {
    if rs == [] then 0
    else
      var last := rs[|rs| - 1];
      AmountOn(rs[..|rs| - 1], d, dateOf) + (if dateOf(last) == d then last.amount else 0)
  }

  lemma {:induction false} AmountOnAbsent(rs: seq<CoinRecord>, d: string, dateOf: CoinRecord -> string)
    requires d !in RecordDates(rs, dateOf)
    ensures AmountOn(rs, d, dateOf) == 0
    decreases |rs|
  {
    if rs != [] {
      AmountOnAbsent(rs[..|rs| - 1], d, dateOf);
    }
  }

  /** Folding in the records keeps the dates unique and the known keys in place. */
  lemma {:induction false} AddRecordsShape(e: seq<DailyLog>, rs: seq<CoinRecord>, dateOf: CoinRecord -> string)
    requires DistinctDates(e)
    ensures var r := AddRecords(e, rs, dateOf);
      DistinctDates(r) && |r| >= |e| && forall i :: 0 <= i < |e| ==> r[i].date == e[i].date
    decreases |rs|
  {
    if rs != [] {
      var init, last := rs[..|rs| - 1], rs[|rs| - 1];
      AddRecordsShape(e, init, dateOf);
      AddRecordShape(AddRecords(e, init, dateOf), dateOf(last), last.amount);
    }
  }

  /** After folding in the records the keys are the old keys and the records' dates. */
  lemma {:induction false} AddRecordsFind(e: seq<DailyLog>, rs: seq<CoinRecord>, dateOf: CoinRecord -> string, x: string)
    ensures Find(AddRecords(e, rs, dateOf), x) >= 0 <==> Find(e, x) >= 0 || x in RecordDates(rs, dateOf)
    decreases |rs|
  {
    if rs != [] {
      var init, last := rs[..|rs| - 1], rs[|rs| - 1];
      AddRecordsFind(e, init, dateOf, x);
      AddRecordFind(AddRecords(e, init, dateOf), dateOf(last), last.amount, x);
    }
  }

  /** Folding in the records adds exactly their amounts to the total net income. */
  lemma {:induction false} AddRecordsSum(e: seq<DailyLog>, rs: seq<CoinRecord>, dateOf: CoinRecord -> string)
    ensures SumBy(AddRecords(e, rs, dateOf), NetIncome) == SumBy(e, NetIncome) + SumBy(rs, Amount)
    decreases |rs|
  {
    if rs != [] {
      var init, last := rs[..|rs| - 1], rs[|rs| - 1];
      AddRecordsSum(e, init, dateOf);
      AddRecordSum(AddRecords(e, init, dateOf), dateOf(last), last.amount);
      assert rs == init + [last];
      SumAppend(init, last, Amount);
    }
  }

  /** The logs of the records' fold, one step: positions other than the record's date stay as they were. */
  lemma AddRecordOthers(p: seq<DailyLog>, d: string, a: int)
    requires DistinctDates(p)
    ensures var r := AddRecord(p, d, a);
      forall i | 0 <= i < |p| && p[i].date != d :: r[i] == p[i]
  {
    var j := Find(p, d);
    forall i | 0 <= i < |p| && p[i].date != d
      ensures i != j
    {
    }
  }

  /**
   * Each log already in the map keeps every field but `net_income`, which
   * grows by the amounts of the records on its date.
   */
  lemma {:induction false} AddRecordsKnown(e: seq<DailyLog>, rs: seq<CoinRecord>, dateOf: CoinRecord -> string)
    requires DistinctDates(e)
    ensures var r := AddRecords(e, rs, dateOf);
      |r| >= |e|
      && forall i :: 0 <= i < |e| ==>
           r[i] == e[i].(net_income := e[i].net_income + AmountOn(rs, e[i].date, dateOf))
    decreases |rs|
  {
    if rs != [] {
      var init, last := rs[..|rs| - 1], rs[|rs| - 1];
      var d, a := dateOf(last), last.amount;
      AddRecordsKnown(e, init, dateOf);
      var p := AddRecords(e, init, dateOf);
      AddRecordsShape(e, init, dateOf);
      AddRecordOthers(p, d, a);
      var j := Find(p, d);
      if j >= 0 && j < |e| {
        FindDistinct(p, j);
      }
    }
  }

  /** Each log the records add is synthesised, and its `net_income` is the total of its date. */
  lemma {:induction false} AddRecordsNew(e: seq<DailyLog>, rs: seq<CoinRecord>, dateOf: CoinRecord -> string)
    requires DistinctDates(e)
    ensures var r := AddRecords(e, rs, dateOf);
      forall i :: |e| <= i < |r| ==> Synthesised(r[i]) && r[i].net_income == AmountOn(rs, r[i].date, dateOf)
    decreases |rs|
  {
    if rs != [] {
      var init, last := rs[..|rs| - 1], rs[|rs| - 1];
      var d, a := dateOf(last), last.amount;
      AddRecordsNew(e, init, dateOf);
      var p := AddRecords(e, init, dateOf);
      AddRecordsShape(e, init, dateOf);
      var r := AddRecord(p, d, a);
      forall i | |e| <= i < |r|
        ensures Synthesised(r[i]) && r[i].net_income == AmountOn(rs, r[i].date, dateOf)
      {
        assert AmountOn(rs, r[i].date, dateOf) == AmountOn(init, r[i].date, dateOf) + (if d == r[i].date then a else 0);
        if i < |p| {
          AddRecordAt(p, d, a, i);
        } else {
          AddRecordsFind(e, init, dateOf, d);
          AmountOnAbsent(init, d, dateOf);
        }
      }
    }
  }

  /** One step of the records' fold, seen from one position of the map. */
  lemma AddRecordAt(p: seq<DailyLog>, d: string, a: int, i: int)
    requires DistinctDates(p) && 0 <= i < |p|
    ensures var r := AddRecord(p, d, a);
      r[i] == if p[i].date == d then p[i].(net_income := p[i].net_income + a) else p[i]
    ensures |AddRecord(p, d, a)| == |p| <==> Find(p, d) >= 0
    ensures |AddRecord(p, d, a)| > |p| ==> AddRecord(p, d, a)[|p|] == NewLog(d, a)
  {
    if p[i].date == d {
      FindDistinct(p, i);
    }
  }

  // ---------------------------------------------------------------------
  // convertToEggGuardian
  // ---------------------------------------------------------------------

  /** The parts of the state the conversion produces; an absent part is left to the caller's fallback. */
  datatype PartialState = PartialState(user: Option<UserProfile>, logs: Option<seq<DailyLog>>)

  function ExistingLogs(existing: Option<AppState>): seq<DailyLog> {
    if existing.Some? then existing.value.logs else []
  }

  /** `Array.from(logsMap.values()).sort((a, b) => time(b.date) - time(a.date))`: newest first, ties in key order. */
  function NewestFirst(e: seq<DailyLog>, timeOfDate: string -> int): seq<DailyLog> {
    SortBy(e, (l: DailyLog) => -timeOfDate(l.date))
  }

  /** The logs the conversion yields from the existing logs and the coin records. */
  function ConvertedLogs(
    existingLogs: seq<DailyLog>, records: seq<CoinRecord>,
    localDate: int -> CalendarDate, timeOfDate: string -> int): seq<DailyLog>
  {
    NewestFirst(AddRecords(IndexLogs(existingLogs), Contributing(records), Dating(localDate)), timeOfDate)
  }

  /** The user the conversion yields: the existing or initial user with the focus app's coins and mute flag. */
  function ConvertedUser(userData: FocusUserData, existing: Option<AppState>): (u: UserProfile)
    ensures var base := if existing.Some? then existing.value.user else INITIAL_USER;
      && u.balance == userData.coins
      && u.isMuted == Some(userData.isMuted)
      && u.user_id == base.user_id
      && u.guardian_config == base.guardian_config
  {
    var base := if existing.Some? then existing.value.user else INITIAL_USER;
    base.(balance := userData.coins, isMuted := Some(userData.isMuted))
  }

  /** The whole result of convertToEggGuardian. */
  function Converted(
    userData: Option<FocusUserData>, coinRecords: Option<FocusCoinRecords>, existing: Option<AppState>,
    localDate: int -> CalendarDate, timeOfDate: string -> int): (p: PartialState)
    ensures p.user.Some? <==> userData.Some?
    ensures p.logs.Some? <==> coinRecords.Some? && |coinRecords.value.records| > 0
  {
    PartialState(
      if userData.Some? then Some(ConvertedUser(userData.value, existing)) else None,
      if coinRecords.Some? && |coinRecords.value.records| > 0
      then Some(ConvertedLogs(ExistingLogs(existing), coinRecords.value.records, localDate, timeOfDate))
      else None)
  }

  lemma IndexLogsStep(logs: seq<DailyLog>, i: int)
    requires 0 <= i < |logs|
    ensures IndexLogs(logs[..i + 1]) == Put(IndexLogs(logs[..i]), logs[i])
  {
    assert logs[..i + 1][..i] == logs[..i];
  }

  /** `existingState.logs.forEach(log => logsMap.set(log.date, log))` on an empty map. */
  method IndexExistingLogs(existingLogs: seq<DailyLog>) returns (logsMap: seq<DailyLog>)
    ensures logsMap == IndexLogs(existingLogs)
  {
    logsMap := [];
    for i := 0 to |existingLogs|
      invariant logsMap == IndexLogs(existingLogs[..i])
    {
      logsMap := Put(logsMap, existingLogs[i]);
      IndexLogsStep(existingLogs, i);
    }
    assert existingLogs[..|existingLogs|] == existingLogs;
  }

  /**
   * The `forEach` over the confirmed income records: grow the log of the
   * record's date, or create it. `dateOf` is the record's local date string.
   */
  method FoldRecords(start: seq<DailyLog>, confirmed: seq<CoinRecord>, dateOf: CoinRecord -> string)
    returns (logsMap: seq<DailyLog>)
    ensures logsMap == AddRecords(start, confirmed, dateOf)
  {
    logsMap := start;
    for i := 0 to |confirmed|
      invariant logsMap == AddRecords(start, confirmed[..i], dateOf)
    {
      var record := confirmed[i];
      var dateStr := dateOf(record);
      ghost var before := logsMap;
      var j := Find(logsMap, dateStr);
      if j >= 0 {
        logsMap := logsMap[j := logsMap[j].(net_income := logsMap[j].net_income + record.amount)];
      } else {
        logsMap := logsMap + [NewLog(dateStr, record.amount)];
      }
      assert logsMap == AddRecord(before, dateStr, record.amount);
      AddRecordsStep(start, confirmed, i, dateOf);
    }
    assert confirmed[..|confirmed|] == confirmed;
  }

  /**
   * convertToEggGuardian: copies the focus app's coins and mute flag onto
   * the user, and, when there are coin records, folds the confirmed income
   * into the existing logs by date and sorts the logs newest first.
   */
  method ConvertToEggGuardian(
    userData: Option<FocusUserData>, coinRecords: Option<FocusCoinRecords>, existing: Option<AppState>,
    localDate: int -> CalendarDate, timeOfDate: string -> int)
    returns (result: PartialState)
    ensures result == Converted(userData, coinRecords, existing, localDate, timeOfDate)
  {
    var user: Option<UserProfile> := None;
    if userData.Some? {
      var existingUser := if existing.Some? then existing.value.user else INITIAL_USER;
      user := Some(existingUser.(balance := userData.value.coins, isMuted := Some(userData.value.isMuted)));
    }
    var logs: Option<seq<DailyLog>> := None;
    if coinRecords.Some? && |coinRecords.value.records| > 0 {
      var logsMap := IndexExistingLogs(ExistingLogs(existing));
      logsMap := FoldRecords(logsMap, Contributing(coinRecords.value.records), Dating(localDate));
      logs := Some(NewestFirst(logsMap, timeOfDate));
    }
    result := PartialState(user, logs);
  }

  /** The converted logs have pairwise distinct dates. */
  lemma ConvertedLogsDistinct(
    existingLogs: seq<DailyLog>, records: seq<CoinRecord>,
    localDate: int -> CalendarDate, timeOfDate: string -> int)
    ensures var out := ConvertedLogs(existingLogs, records, localDate, timeOfDate);
      forall i, j :: 0 <= i < j < |out| ==> out[i].date != out[j].date
  {
    var e := IndexLogs(existingLogs);
    IndexLogsLastWins(existingLogs, "");
    var r := AddRecords(e, Contributing(records), Dating(localDate));
    AddRecordsShape(e, Contributing(records), Dating(localDate));
    assert DistinctBy(r, DateOf);
    SortByDistinct(r, (l: DailyLog) => -timeOfDate(l.date), DateOf);
  }

  function DateOf(l: DailyLog): string {
    l.date
  }

  /** The converted logs are ordered newest date first. */
  lemma ConvertedLogsNewestFirst(
    existingLogs: seq<DailyLog>, records: seq<CoinRecord>,
    localDate: int -> CalendarDate, timeOfDate: string -> int)
    ensures var out := ConvertedLogs(existingLogs, records, localDate, timeOfDate);
      forall i, j :: 0 <= i < j < |out| ==> timeOfDate(out[i].date) >= timeOfDate(out[j].date)
  {
    var r := AddRecords(IndexLogs(existingLogs), Contributing(records), Dating(localDate));
    SortBySorted(r, (l: DailyLog) => -timeOfDate(l.date));
  }

  /**
   * The total net income of the converted logs is that of the existing logs
   * after deduplication by date, plus the confirmed income amounts.
   */
  lemma ConvertedLogsSum(
    existingLogs: seq<DailyLog>, records: seq<CoinRecord>,
    localDate: int -> CalendarDate, timeOfDate: string -> int)
    ensures SumBy(ConvertedLogs(existingLogs, records, localDate, timeOfDate), NetIncome)
      == SumBy(IndexLogs(existingLogs), NetIncome) + SumBy(Contributing(records), Amount)
  {
    var e := IndexLogs(existingLogs);
    IndexLogsLastWins(existingLogs, "");
    var r := AddRecords(e, Contributing(records), Dating(localDate));
    AddRecordsSum(e, Contributing(records), Dating(localDate));
    SortBySum(r, (l: DailyLog) => -timeOfDate(l.date), NetIncome);
  }

  /**
   * The map after folding in the records has a log on `d` exactly when an
   * existing log or a record falls on `d`. If an existing log does, it is
   * the last such log with only its net income raised by the records'
   * amounts on `d`; otherwise it is synthesised and holds that total.
   */
  lemma AddRecordsOn(logs: seq<DailyLog>, c: seq<CoinRecord>, dateOf: CoinRecord -> string, d: string)
    ensures var r := AddRecords(IndexLogs(logs), c, dateOf);
      DistinctDates(r) && (Find(r, d) >= 0 <==> LastWithDate(logs, d).Some? || d in RecordDates(c, dateOf))
    ensures var r, last := AddRecords(IndexLogs(logs), c, dateOf), LastWithDate(logs, d);
      Find(r, d) >= 0 && last.Some? ==>
        r[Find(r, d)] == last.value.(net_income := last.value.net_income + AmountOn(c, d, dateOf))
    ensures var r := AddRecords(IndexLogs(logs), c, dateOf);
      Find(r, d) >= 0 && LastWithDate(logs, d).None? ==>
        Synthesised(r[Find(r, d)]) && r[Find(r, d)].net_income == AmountOn(c, d, dateOf)
  {
    var e := IndexLogs(logs);
    IndexLogsLastWins(logs, d);
    var r := AddRecords(e, c, dateOf);
    AddRecordsShape(e, c, dateOf);
    AddRecordsFind(e, c, dateOf, d);
    AddRecordsKnown(e, c, dateOf);
    AddRecordsNew(e, c, dateOf);
    var ke := Find(e, d);
    if ke >= 0 {
      FindDistinct(r, ke);
    }
  }

  /**
   * For every date, the converted logs hold a log on that date exactly when
   * an existing log or a confirmed income record falls on it. If an existing
   * log does, the kept one is the last such log, with only its net income
   * raised by the records' amounts on that date; otherwise the log is
   * synthesised and its net income is the records' total on that date.
   */
  lemma ConvertedLogOn(
    existingLogs: seq<DailyLog>, records: seq<CoinRecord>,
    localDate: int -> CalendarDate, timeOfDate: string -> int, d: string)
    ensures var out, c := ConvertedLogs(existingLogs, records, localDate, timeOfDate), Contributing(records);
      (exists l :: l in out && l.date == d) <==> LastWithDate(existingLogs, d).Some? || d in RecordDates(c, Dating(localDate))
    ensures var out, c, last := ConvertedLogs(existingLogs, records, localDate, timeOfDate), Contributing(records), LastWithDate(existingLogs, d);
      forall l :: l in out && l.date == d ==>
        if last.Some? then l == last.value.(net_income := last.value.net_income + AmountOn(c, d, Dating(localDate)))
        else Synthesised(l) && l.net_income == AmountOn(c, d, Dating(localDate))
  {
    var out, c := ConvertedLogs(existingLogs, records, localDate, timeOfDate), Contributing(records);
    var r := AddRecords(IndexLogs(existingLogs), c, Dating(localDate));
    AddRecordsOn(existingLogs, c, Dating(localDate), d);
    SortedMembers(r, timeOfDate);
    var k := Find(r, d);
    if k >= 0 {
      assert r[k] in out;
    }
    forall l | l in out && l.date == d
      ensures k >= 0 && l == r[k]
    {
      var i :| 0 <= i < |r| && r[i] == l;
      FindDistinct(r, i);
    }
  }

  /** Sorting keeps exactly the same logs. */
  lemma SortedMembers(r: seq<DailyLog>, timeOfDate: string -> int)
    ensures forall l :: l in NewestFirst(r, timeOfDate) <==> l in r
  {
    var out := NewestFirst(r, timeOfDate);
    assert multiset(out) == multiset(r);
    forall l ensures l in out <==> l in r {
      assert l in out <==> l in multiset(out);
      assert l in r <==> l in multiset(r);
    }
  }

  // ---------------------------------------------------------------------
  // convertToEggfocus
  // ---------------------------------------------------------------------

  /** The id of the record a log is exported as. */
  function GuardianId(date: string): string {
    "guardian-" + date
  }

  /** The confirmed income record exported for a log, stamped at the time of its date. */
  function GuardianRecord(log: DailyLog, timeOfDate: string -> int): (r: CoinRecord)
    ensures r.id == GuardianId(log.date) && Contributes(r) && r.amount == log.net_income
    ensures r.createdAt == timeOfDate(log.date) && r.confirmedAt == Some(timeOfDate(log.date))
  {
    var t := timeOfDate(log.date);
    CoinRecord(GuardianId(log.date), Income, Confirmed, log.net_income, t,
               CoinDetail("每日任务完成", t, t, 0, log.net_income, 0), Some(t))
  }

  /** `records.filter(r => r.status === 'pending')`. */
  function PendingOf(rs: seq<CoinRecord>): (p: seq<CoinRecord>)
    ensures forall r :: r in p <==> r in rs && r.status == Pending
    decreases |rs|
  {
    if rs == [] then []
    else PendingOf(rs[..|rs| - 1]) + (if rs[|rs| - 1].status == Pending then [rs[|rs| - 1]] else [])
  }

  /** The ids of the records. */
  function IdsOf(rs: seq<CoinRecord>): set<string>
    decreases |rs|
  {
    if rs == [] then {} else IdsOf(rs[..|rs| - 1]) + {rs[|rs| - 1].id}
  }

  /** An id is taken exactly when some record carries it. */
  lemma {:induction false} IdsOfMembers(rs: seq<CoinRecord>, x: string)
    ensures x in IdsOf(rs) <==> exists r :: r in rs && r.id == x
    decreases |rs|
  {
    if rs != [] {
      var init := rs[..|rs| - 1];
      IdsOfMembers(init, x);
      assert rs == init + [rs[|rs| - 1]];
    }
  }

  /** The records exported for the logs: one per log with positive net income whose id is not taken. */
  function NewRecords(logs: seq<DailyLog>, ids: set<string>, timeOfDate: string -> int): seq<CoinRecord>
    decreases |logs|
  {
    if logs == [] then []
    else
      var log := logs[|logs| - 1];
      NewRecords(logs[..|logs| - 1], ids, timeOfDate)
        + (if log.net_income > 0 && GuardianId(log.date) !in ids then [GuardianRecord(log, timeOfDate)] else [])
  }

  lemma NewRecordsStep(logs: seq<DailyLog>, i: int, ids: set<string>, timeOfDate: string -> int)
    requires 0 <= i < |logs|
    ensures NewRecords(logs[..i + 1], ids, timeOfDate)
      == NewRecords(logs[..i], ids, timeOfDate)
        + (if logs[i].net_income > 0 && GuardianId(logs[i].date) !in ids then [GuardianRecord(logs[i], timeOfDate)] else [])
  {
    assert logs[..i + 1][..i] == logs[..i];
  }

  function ExistingRecords(existing: Option<FocusCoinRecords>): seq<CoinRecord> {
    if existing.Some? then existing.value.records else []
  }

  /** `records.sort((a, b) => b.createdAt - a.createdAt)`. */
  function NewestRecordsFirst(rs: seq<CoinRecord>): seq<CoinRecord> {
    SortBy(rs, (r: CoinRecord) => -r.createdAt)
  }

  /** The records convertToEggfocus writes: the pending ones kept, then the new exports, newest first. */
  function OutgoingRecords(logs: seq<DailyLog>, existingRecords: seq<CoinRecord>, timeOfDate: string -> int): seq<CoinRecord> {
    NewestRecordsFirst(PendingOf(existingRecords) + NewRecords(logs, IdsOf(existingRecords), timeOfDate))
  }

  /**
   * convertToEggfocus: the user's balance and mute flag, and the coin records
   * made of the pending existing records and one income record per log with
   * positive net income that the existing records do not already have.
   * The stored records are a parameter instead of a storage read.
   */
  method ConvertToEggfocus(state: AppState, existing: Option<FocusCoinRecords>, timeOfDate: string -> int)
    returns (userData: FocusUserData, coinRecords: FocusCoinRecords)
    ensures userData.coins == state.user.balance
    ensures userData.isMuted <==> state.user.isMuted == Some(true)
    ensures userData.version == 0
    ensures coinRecords == FocusCoinRecords(OutgoingRecords(state.logs, ExistingRecords(existing), timeOfDate), 0)
  {
    userData := FocusUserData(state.user.balance, state.user.isMuted.GetOr(false), 0);
    var records: seq<CoinRecord> := [];
    var existingRecordIds: set<string> := {};
    var existingRecords := ExistingRecords(existing);
    if existing.Some? {
      var pendingRecords := PendingOf(existingRecords);
      records := records + pendingRecords;
      existingRecordIds := CollectIds(existingRecords);
    } else {
      assert IdsOf(existingRecords) == {};
    }
    assert records == PendingOf(existingRecords);
    records := ExportLogs(records, state.logs, existingRecordIds, timeOfDate);
    coinRecords := FocusCoinRecords(NewestRecordsFirst(records), 0);
  }

  /** The ids of the existing records, gathered one record at a time. */
  method CollectIds(rs: seq<CoinRecord>) returns (ids: set<string>)
    ensures ids == IdsOf(rs)
  {
    ids := {};
    for i := 0 to |rs|
      invariant ids == IdsOf(rs[..i])
    {
      ids := ids + {rs[i].id};
      assert rs[..i + 1][..i] == rs[..i];
    }
    assert rs[..|rs|] == rs;
  }

  /** Appends, log by log, the record of each log with positive net income whose id is not taken. */
  method ExportLogs(records: seq<CoinRecord>, logs: seq<DailyLog>, ids: set<string>, timeOfDate: string -> int)
    returns (out: seq<CoinRecord>)
    ensures out == records + NewRecords(logs, ids, timeOfDate)
  {
    out := records;
    assert out == records + NewRecords(logs[..0], ids, timeOfDate);
    for i := 0 to |logs|
      invariant out == records + NewRecords(logs[..i], ids, timeOfDate)
    {
      var log := logs[i];
      ghost var before := out;
      if log.net_income > 0 {
        var recordId := "guardian-" + log.date;
        if recordId !in ids {
          var time := timeOfDate(log.date);
          out := out + [CoinRecord(recordId, Income, Confirmed, log.net_income, time,
                                   CoinDetail("每日任务完成", time, time, 0, log.net_income, 0), Some(time))];
          assert out == before + [GuardianRecord(log, timeOfDate)];
        }
      }
      NewRecordsStep(logs, i, ids, timeOfDate);
    }
    assert logs[..|logs|] == logs;
  }

  /** The exported records are exactly those of the logs with positive net income whose ids are not taken. */
  lemma {:induction false} NewRecordsMembers(logs: seq<DailyLog>, ids: set<string>, timeOfDate: string -> int, r: CoinRecord)
    ensures r in NewRecords(logs, ids, timeOfDate) <==>
      exists l :: l in logs && l.net_income > 0 && GuardianId(l.date) !in ids && r == GuardianRecord(l, timeOfDate)
    decreases |logs|
  {
    if logs != [] {
      var init, last := logs[..|logs| - 1], logs[|logs| - 1];
      NewRecordsMembers(init, ids, timeOfDate, r);
      assert logs == init + [last];
      if exists l :: l in logs && l.net_income > 0 && GuardianId(l.date) !in ids && r == GuardianRecord(l, timeOfDate) {
        var l :| l in logs && l.net_income > 0 && GuardianId(l.date) !in ids && r == GuardianRecord(l, timeOfDate);
        if l != last {
          assert l in init;
        }
      }
    }
  }

  /**
   * The written records are the pending existing records and the exports of
   * the logs with positive net income whose ids were not taken; an existing
   * confirmed record is never carried over.
   */
  lemma OutgoingMembers(logs: seq<DailyLog>, existingRecords: seq<CoinRecord>, timeOfDate: string -> int, r: CoinRecord)
    ensures var out := OutgoingRecords(logs, existingRecords, timeOfDate);
      r in out <==>
        || (r in existingRecords && r.status == Pending)
        || (exists l :: l in logs && l.net_income > 0 && GuardianId(l.date) !in IdsOf(existingRecords)
                          && r == GuardianRecord(l, timeOfDate))
    ensures r in OutgoingRecords(logs, existingRecords, timeOfDate) && r in existingRecords ==> r.status == Pending
  {
    var both := PendingOf(existingRecords) + NewRecords(logs, IdsOf(existingRecords), timeOfDate);
    var out := OutgoingRecords(logs, existingRecords, timeOfDate);
    assert multiset(out) == multiset(both);
    assert r in out <==> r in multiset(out);
    assert r in both <==> r in multiset(both);
    NewRecordsMembers(logs, IdsOf(existingRecords), timeOfDate, r);
    IdsOfMembers(existingRecords, r.id);
  }

  /** The written records are ordered newest first. */
  lemma OutgoingNewestFirst(logs: seq<DailyLog>, existingRecords: seq<CoinRecord>, timeOfDate: string -> int)
    ensures var out := OutgoingRecords(logs, existingRecords, timeOfDate);
      forall i, j :: 0 <= i < j < |out| ==> out[i].createdAt >= out[j].createdAt
  {
    SortBySorted(PendingOf(existingRecords) + NewRecords(logs, IdsOf(existingRecords), timeOfDate),
                 (r: CoinRecord) => -r.createdAt);
  }

  // ---------------------------------------------------------------------
  // loadSyncedState: which source wins
  // ---------------------------------------------------------------------

  /**
   * The state loaded from the stored chore-tracker state and the stored focus
   * app data. Any focus app data wins: the converted user, else the stored
   * user, else the initial one; the converted logs, else the stored logs,
   * else none. Tasks always come from the stored state, else the initial tasks.
   */
  function LoadSyncedState(
    existing: Option<AppState>, userData: Option<FocusUserData>, coinRecords: Option<FocusCoinRecords>,
    localDate: int -> CalendarDate, timeOfDate: string -> int): (s: AppState)
    ensures s.tasks == if existing.Some? then existing.value.tasks else INITIAL_TASKS
    ensures userData.None? && coinRecords.None? ==>
      s == if existing.Some? then existing.value else AppState(INITIAL_USER, INITIAL_TASKS, [])
    ensures userData.Some? ==> s.user == ConvertedUser(userData.value, existing)
    ensures userData.None? ==> s.user == if existing.Some? then existing.value.user else INITIAL_USER
    ensures coinRecords.Some? && |coinRecords.value.records| > 0 ==>
      s.logs == ConvertedLogs(ExistingLogs(existing), coinRecords.value.records, localDate, timeOfDate)
    ensures !(coinRecords.Some? && |coinRecords.value.records| > 0) ==> s.logs == ExistingLogs(existing)
  {
    if userData.Some? || coinRecords.Some? then
      var converted := Converted(userData, coinRecords, existing, localDate, timeOfDate);
      AppState(
        if converted.user.Some? then converted.user.value
        else if existing.Some? then existing.value.user else INITIAL_USER,
        if existing.Some? then existing.value.tasks else INITIAL_TASKS,
        if converted.logs.Some? then converted.logs.value
        else if existing.Some? then existing.value.logs else [])
    else if existing.Some? then existing.value
    else AppState(INITIAL_USER, INITIAL_TASKS, [])
  }

  // ---------------------------------------------------------------------
  // Syncing out and loading back
  // ---------------------------------------------------------------------

  /** Exporting a single log with positive net income and nothing stored yields its one record. */
  lemma OutgoingSingle(log: DailyLog, timeOfDate: string -> int)
    requires log.net_income > 0
    ensures OutgoingRecords([log], [], timeOfDate) == [GuardianRecord(log, timeOfDate)]
  {
    assert [log][..0] == [];
    assert NewRecords([log], {}, timeOfDate) == [GuardianRecord(log, timeOfDate)];
  }

  /**
   * As written, exporting a settled log and loading it back counts its
   * income twice: the exported `guardian-<date>` record is confirmed income,
   * so the conversion adds it to the very log it was made from. The one
   * hypothesis is that the time zone reads the export's time stamp back as
   * the log's own date.
   */
  lemma SyncRoundTripDoublesIncome(log: DailyLog, localDate: int -> CalendarDate, timeOfDate: string -> int)
    requires log.net_income > 0
    requires Dating(localDate)(GuardianRecord(log, timeOfDate)) == log.date
    ensures ConvertedLogs([log], OutgoingRecords([log], [], timeOfDate), localDate, timeOfDate)
      == [log.(net_income := 2 * log.net_income)]
  {
    RoundTripDoubles(log, Dating(localDate), timeOfDate);
  }

  lemma RoundTripDoubles(log: DailyLog, dateOf: CoinRecord -> string, timeOfDate: string -> int)
    requires log.net_income > 0
    requires dateOf(GuardianRecord(log, timeOfDate)) == log.date
    ensures NewestFirst(AddRecords(IndexLogs([log]), Contributing(OutgoingRecords([log], [], timeOfDate)), dateOf), timeOfDate)
      == [log.(net_income := 2 * log.net_income)]
  {
    var g := GuardianRecord(log, timeOfDate);
    OutgoingSingle(log, timeOfDate);
    ContributingSingle(g);
    IndexSingle(log);
    FoldSingle(log, g, dateOf);
    SortSingle(log.(net_income := 2 * log.net_income), (l: DailyLog) => -timeOfDate(l.date));
  }

  lemma ContributingSingle(g: CoinRecord)
    requires Contributes(g)
    ensures Contributing([g]) == [g]
  {
    assert [g][..0] == [];
  }

  lemma IndexSingle(log: DailyLog)
    ensures IndexLogs([log]) == [log]
  {
    assert [log][..0] == [];
    assert Put([], log) == [log];
  }

  /** Folding a log's own export into it doubles its net income. */
  lemma FoldSingle(log: DailyLog, g: CoinRecord, dateOf: CoinRecord -> string)
    requires dateOf(g) == log.date && g.amount == log.net_income
    ensures AddRecords([log], [g], dateOf) == [log.(net_income := 2 * log.net_income)]
  {
    assert [g][..0] == [];
    assert Find([log], log.date) == 0;
  }

  /** For instance a perfect day's 572 comes back as 1144. */
  lemma SyncRoundTripExample(localDate: int -> CalendarDate, timeOfDate: string -> int)
    ensures var log := DailyLog("2026-01-05", 572, [], 572, 4, 143, Some(0), Some(572));
      Dating(localDate)(GuardianRecord(log, timeOfDate)) == log.date ==>
        ConvertedLogs([log], OutgoingRecords([log], [], timeOfDate), localDate, timeOfDate)[0].net_income == 1144
  {
    var log := DailyLog("2026-01-05", 572, [], 572, 4, 143, Some(0), Some(572));
    if Dating(localDate)(GuardianRecord(log, timeOfDate)) == log.date {
      SyncRoundTripDoublesIncome(log, localDate, timeOfDate);
    }
  }

  /** A record the tracker exported itself, recognised by its id. */
  predicate Exported(r: CoinRecord) {
    StartsWith(r.id, "guardian-")
  }

  /** The records the corrected conversion takes in: confirmed income the tracker did not export itself. */
  function Imported(rs: seq<CoinRecord>): (c: seq<CoinRecord>)
    ensures forall r :: r in c <==> r in rs && Contributes(r) && !Exported(r)
    decreases |rs|
  {
    if rs == [] then []
    else
      var last := rs[|rs| - 1];
      Imported(rs[..|rs| - 1]) + (if Contributes(last) && !Exported(last) then [last] else [])
  }

  /** The corrected conversion of the logs: like ConvertedLogs, but skipping the tracker's own exports. */
  function ImportedLogs(
    existingLogs: seq<DailyLog>, records: seq<CoinRecord>,
    localDate: int -> CalendarDate, timeOfDate: string -> int): seq<DailyLog>
  {
    NewestFirst(AddRecords(IndexLogs(existingLogs), Imported(records), Dating(localDate)), timeOfDate)
  }

  /**
   * With the correction, exporting the logs and loading them back gives the
   * logs unchanged (deduplicated by date, newest first), whatever records
   * were stored before and whatever the time zone.
   */
  lemma ImportedRoundTrip(
    logs: seq<DailyLog>, existingRecords: seq<CoinRecord>,
    localDate: int -> CalendarDate, timeOfDate: string -> int)
    ensures ImportedLogs(logs, OutgoingRecords(logs, existingRecords, timeOfDate), localDate, timeOfDate)
      == NewestFirst(IndexLogs(logs), timeOfDate)
  {
    var out := OutgoingRecords(logs, existingRecords, timeOfDate);
    var c := Imported(out);
    if c != [] {
      assert c[0] in c;
      OutgoingMembers(logs, existingRecords, timeOfDate, c[0]);
    }
  }
}

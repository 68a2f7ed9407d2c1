/**
 * The profile routes of the API (api/src/routes/profile.ts) with the
 * database abstracted away: the stored row is a parameter, and an update
 * is described by the columns it sets and the values bound to them.
 */
module Profile {
  import opened Wrappers

  // ---------------------------------------------------------------------
  // Request bodies and replies
  // ---------------------------------------------------------------------

  /** A parsed JSON request body; numbers are integers. */
  datatype Json =
    | JNull
    | JBool(b: bool)
    | JNumber(n: int)
    | JString(s: string)
    | JArray(items: seq<Json>)
    | JObject(fields: map<string, Json>)

  /** JavaScript truthiness of a JSON value. */
  predicate Truthy(j: Json) {
    match j
    case JNull => false
    case JBool(b) => b
    case JNumber(n) => n != 0
    case JString(s) => s != ""
    case _ => true
  }

  /** `typeof j === 'object'` for a non-null value: objects and arrays. */
  predicate IsObject(j: Json) {
    j.JObject? || j.JArray?
  }

  /** `j.key`: the field of an object, undefined for every other value. */
  function Get(j: Json, key: string): Option<Json> {
    if j.JObject? && key in j.fields then Some(j.fields[key]) else None
  }

  predicate IsNumber(v: Option<Json>) {
    v.Some? && v.value.JNumber?
  }

  /** `v !== undefined`. */
  predicate IsDefined(v: Option<Json>) {
    v.Some?
  }

  predicate IsBool(v: Option<Json>) {
    v.Some? && v.value.JBool?
  }

  predicate IsString(v: Option<Json>) {
    v.Some? && v.value.JString?
  }

  /** The replies of the routes: a failure with its status and code, or the data of a success (status 200). */
  datatype Reply =
    | Fail(status: int, error: string, code: string)
    | ProfileData(view: ProfileView)
    | Verdict(isValid: bool, isPasswordSet: bool)
    | Message(message: string)

  // ---------------------------------------------------------------------
  // The stored profile and its public view
  // ---------------------------------------------------------------------

  /** A row of `user_profiles`. */
  datatype ProfileRow = ProfileRow(
    user_id: string,
    balance: int,
    weekly_base_salary: int,
    last_salary_date: Option<string>,
    is_muted: int,
    parent_password_hash: Option<string>,
    is_parent_password_set: int,
    created_at: int,
    updated_at: int)

  /** What the API returns about a profile; the password hash is not part of it. */
  datatype ProfileView = ProfileView(
    user_id: string,
    balance: int,
    weekly_base_salary: int,
    last_salary_date: Option<string>,
    isMuted: bool,
    isPasswordSet: bool)

  /** formatProfileResponse: the flags are true exactly when stored as 1. */
  function FormatProfileResponse(row: ProfileRow): (v: ProfileView)
    ensures v.isMuted <==> row.is_muted == 1
    ensures v.isPasswordSet <==> row.is_parent_password_set == 1
    ensures v.user_id == row.user_id && v.balance == row.balance
    ensures v.weekly_base_salary == row.weekly_base_salary && v.last_salary_date == row.last_salary_date
  {
    ProfileView(
      row.user_id, row.balance, row.weekly_base_salary, row.last_salary_date,
      row.is_muted == 1, row.is_parent_password_set == 1)
  }

  /** The view never depends on the stored hash or the timestamps. */
  lemma ViewHidesSecrets(row: ProfileRow, hash: Option<string>, created: int, updated: int)
    ensures FormatProfileResponse(row.(parent_password_hash := hash, created_at := created, updated_at := updated))
      == FormatProfileResponse(row)
  {
  }

  /** getProfile: 404 for an absent profile, otherwise its view. */
  function GetProfile(row: Option<ProfileRow>): (r: Reply)
    ensures row.None? <==> r == Fail(404, "User profile not found", "NOT_FOUND")
    ensures row.Some? ==> r == ProfileData(FormatProfileResponse(row.value))
  {
    if row.None? then Fail(404, "User profile not found", "NOT_FOUND")
    else ProfileData(FormatProfileResponse(row.value))
  }

  // ---------------------------------------------------------------------
  // updateProfile: which columns a PUT body sets
  // ---------------------------------------------------------------------

  /** The columns an update can set, in the order the route considers them. */
  datatype Column = Balance | WeeklyBaseSalary | LastSalaryDate | IsMuted | UpdatedAt

  /** The position of a column's clause in the update. */
  function Rank(c: Column): int {
    match c
    case Balance => 0
    case WeeklyBaseSalary => 1
    case LastSalaryDate => 2
    case IsMuted => 3
    case UpdatedAt => 4
  }

  /** The outcome of building an update: a 400 reply, or the columns set and the values bound. */
  datatype UpdatePlan =
    | Rejected(reply: Reply)
    | Update(columns: seq<Column>, values: seq<Json>)

  /** A column and the value bound to it. */
  datatype Assignment = Assignment(column: Column, value: Json)

  /** The balance, if it is a number. */
  function BalanceUpdate(body: Json): seq<Assignment> {
    var b := Get(body, "balance");
    if IsNumber(b) then [Assignment(Balance, b.value)] else []
  }

  /** The salary settings, read only when `guardian_config` is truthy; the date counts whenever it is defined, even `null`. */
  function ConfigUpdates(body: Json): seq<Assignment> {
    var gc := Get(body, "guardian_config");
    if gc.None? || !Truthy(gc.value) then []
    else
      var w := Get(gc.value, "weekly_base_salary");
      var d := Get(gc.value, "last_salary_date");
      (if IsNumber(w) then [Assignment(WeeklyBaseSalary, w.value)] else [])
      + (if d.Some? then [Assignment(LastSalaryDate, d.value)] else [])
  }

  /** The mute flag, if it is a boolean, stored as 1 or 0. */
  function MuteUpdate(body: Json): seq<Assignment> {
    var m := Get(body, "isMuted");
    if IsBool(m) then [Assignment(IsMuted, JNumber(if m.value.b then 1 else 0))] else []
  }

  /** The assignments a body asks for, in clause order. */
  function Assignments(body: Json): seq<Assignment> {
    BalanceUpdate(body) + ConfigUpdates(body) + MuteUpdate(body)
  }

  function Columns(a: seq<Assignment>): (cs: seq<Column>)
    ensures |cs| == |a| && forall i :: 0 <= i < |a| ==> cs[i] == a[i].column
  {
    seq(|a|, i requires 0 <= i < |a| => a[i].column)
  }

  function Values(a: seq<Assignment>): (vs: seq<Json>)
    ensures |vs| == |a| && forall i :: 0 <= i < |a| ==> vs[i] == a[i].value
  {
    seq(|a|, i requires 0 <= i < |a| => a[i].value)
  }

  const INVALID_BODY: Reply := Fail(400, "Invalid request body", "BAD_REQUEST")
  const NO_FIELDS: Reply := Fail(400, "No valid fields to update", "BAD_REQUEST")

  /** The update a body describes: 400 for a non-object body or one with nothing to set. */
  function PlanUpdate(body: Json, now: int, userId: string): UpdatePlan {
    if !Truthy(body) || !IsObject(body) then Rejected(INVALID_BODY)
    else
      var a := Assignments(body);
      if a == [] then Rejected(NO_FIELDS)
      else Update(Columns(a) + [UpdatedAt], Values(a) + [JNumber(now), JString(userId)])
  }

  lemma ColumnsValuesAppend(a: seq<Assignment>, b: seq<Assignment>)
    ensures Columns(a + b) == Columns(a) + Columns(b)
    ensures Values(a + b) == Values(a) + Values(b)
  {
  }

  /** Pushes the balance clause, if the body's balance is a number. */
  method PushBalance(body: Json, updates: seq<Column>, values: seq<Json>) returns (updates': seq<Column>, values': seq<Json>)
    ensures updates' == updates + Columns(BalanceUpdate(body))
    ensures values' == values + Values(BalanceUpdate(body))
  {
    updates', values' := updates, values;
    var balance := Get(body, "balance");
    if IsNumber(balance) {
      updates' := updates' + [Balance];
      values' := values' + [balance.value];
    }
  }

  /** Pushes the salary clauses, if `guardian_config` is truthy. */
  method PushConfig(body: Json, updates: seq<Column>, values: seq<Json>) returns (updates': seq<Column>, values': seq<Json>)
    ensures updates' == updates + Columns(ConfigUpdates(body))
    ensures values' == values + Values(ConfigUpdates(body))
  {
    updates', values' := updates, values;
    var gc := Get(body, "guardian_config");
    if gc.Some? && Truthy(gc.value) {
      var weekly := Get(gc.value, "weekly_base_salary");
      ghost var ws: seq<Assignment> := [];
      if IsNumber(weekly) {
        ws := [Assignment(WeeklyBaseSalary, weekly.value)];
        updates' := updates' + [WeeklyBaseSalary];
        values' := values' + [weekly.value];
      }
      assert updates' == updates + Columns(ws) && values' == values + Values(ws);
      var date := Get(gc.value, "last_salary_date");
      ghost var ds: seq<Assignment> := [];
      if date.Some? {
        ds := [Assignment(LastSalaryDate, date.value)];
        updates' := updates' + [LastSalaryDate];
        values' := values' + [date.value];
      }
      ColumnsValuesAppend(ws, ds);
      assert ConfigUpdates(body) == ws + ds;
    }
  }

  /** Pushes the mute clause, if the body's `isMuted` is a boolean. */
  method PushMute(body: Json, updates: seq<Column>, values: seq<Json>) returns (updates': seq<Column>, values': seq<Json>)
    ensures updates' == updates + Columns(MuteUpdate(body))
    ensures values' == values + Values(MuteUpdate(body))
  {
    updates', values' := updates, values;
    var muted := Get(body, "isMuted");
    if IsBool(muted) {
      updates' := updates' + [IsMuted];
      values' := values' + [JNumber(if muted.value.b then 1 else 0)];
    }
  }

  /** The columns and values of all assignments are those of the three sections, one after another. */
  lemma SectionsJoin(body: Json)
    ensures Columns(Assignments(body)) == Columns(BalanceUpdate(body)) + Columns(ConfigUpdates(body)) + Columns(MuteUpdate(body))
    ensures Values(Assignments(body)) == Values(BalanceUpdate(body)) + Values(ConfigUpdates(body)) + Values(MuteUpdate(body))
  {
    ColumnsValuesAppend(BalanceUpdate(body), ConfigUpdates(body));
    ColumnsValuesAppend(BalanceUpdate(body) + ConfigUpdates(body), MuteUpdate(body));
  }

  /** updateProfile's builder, which pushes one clause and one value at a time. */
  method BuildUpdate(body: Json, now: int, userId: string) returns (plan: UpdatePlan)
    ensures plan == PlanUpdate(body, now, userId)
  {
    if !Truthy(body) || !IsObject(body) {
      return Rejected(INVALID_BODY);
    }
    var updates: seq<Column> := [];
    var values: seq<Json> := [];
    updates, values := PushBalance(body, updates, values);
    assert updates == Columns(BalanceUpdate(body)) && values == Values(BalanceUpdate(body));
    updates, values := PushConfig(body, updates, values);
    updates, values := PushMute(body, updates, values);
    SectionsJoin(body);
    assert updates == Columns(Assignments(body)) && values == Values(Assignments(body));
    if |updates| == 0 {
      return Rejected(NO_FIELDS);
    }
    updates := updates + [UpdatedAt];
    values := values + [JNumber(now)];
    values := values + [JString(userId)];
    plan := Update(updates, values);
  }

  /** `guardian_config` is truthy and its `weekly_base_salary` is a number. */
  predicate SetsWeekly(body: Json) {
    var gc := Get(body, "guardian_config");
    gc.Some? && Truthy(gc.value) && IsNumber(Get(gc.value, "weekly_base_salary"))
  }

  /** `guardian_config` is truthy and its `last_salary_date` is defined. */
  predicate SetsDate(body: Json) {
    var gc := Get(body, "guardian_config");
    gc.Some? && Truthy(gc.value) && IsDefined(Get(gc.value, "last_salary_date"))
  }

  /** The column, when it is chosen. */
  function Chosen(chosen: bool, c: Column): seq<Column> {
    if chosen then [c] else []
  }

  /** The columns of an update that sets the chosen columns, with `updated_at` last. */
  function ChosenList(b: bool, w: bool, d: bool, m: bool): seq<Column> {
    Chosen(b, Balance) + Chosen(w, WeeklyBaseSalary) + Chosen(d, LastSalaryDate) + Chosen(m, IsMuted) + [UpdatedAt]
  }

  /** Each chosen column is present, and `updated_at` is last. */
  lemma ChosenMembers(b: bool, w: bool, d: bool, m: bool)
    ensures var cs := ChosenList(b, w, d, m);
      && (Balance in cs <==> b) && (WeeklyBaseSalary in cs <==> w)
      && (LastSalaryDate in cs <==> d) && (IsMuted in cs <==> m)
      && cs[|cs| - 1] == UpdatedAt
  {
  }

  /** Ranks strictly increase along the columns. */
  predicate Increasing(cs: seq<Column>) {
    forall i, j :: 0 <= i < j < |cs| ==> Rank(cs[i]) < Rank(cs[j])
  }

  /** Every rank along the columns is below `k`. */
  predicate Below(cs: seq<Column>, k: int) {
    forall i :: 0 <= i < |cs| ==> Rank(cs[i]) < k
  }

  /** Appending a column, when it is chosen, after columns ranked below it keeps the order. */
  lemma GrowColumns(a: seq<Column>, chosen: bool, c: Column)
    requires Increasing(a) && Below(a, Rank(c))
    ensures Increasing(a + Chosen(chosen, c)) && Below(a + Chosen(chosen, c), Rank(c) + 1)
  {
    var r := a + Chosen(chosen, c);
    forall i | 0 <= i < |r| ensures Rank(r[i]) < Rank(c) + 1 {
      if i < |a| {
        assert r[i] == a[i];
      }
    }
  }

  /** The chosen columns come in rank order, each at most once. */
  lemma ChosenOrder(b: bool, w: bool, d: bool, m: bool)
    ensures Increasing(ChosenList(b, w, d, m))
  {
    var p := Chosen(b, Balance);
    assert [] + p == p;
    GrowColumns([], b, Balance);
    GrowColumns(p, w, WeeklyBaseSalary);
    p := p + Chosen(w, WeeklyBaseSalary);
    GrowColumns(p, d, LastSalaryDate);
    p := p + Chosen(d, LastSalaryDate);
    GrowColumns(p, m, IsMuted);
    p := p + Chosen(m, IsMuted);
    GrowColumns(p, true, UpdatedAt);
  }

  /** The columns of a body's assignments, field by field. */
  lemma AssignmentColumns(body: Json)
    ensures Columns(Assignments(body)) + [UpdatedAt]
      == ChosenList(IsNumber(Get(body, "balance")), SetsWeekly(body), SetsDate(body), IsBool(Get(body, "isMuted")))
  {
    ColumnsOfParts(body);
    SectionsJoin(body);
  }

  lemma ColumnsOfParts(body: Json)
    ensures Columns(BalanceUpdate(body)) == Chosen(IsNumber(Get(body, "balance")), Balance)
    ensures Columns(ConfigUpdates(body)) == Chosen(SetsWeekly(body), WeeklyBaseSalary) + Chosen(SetsDate(body), LastSalaryDate)
    ensures Columns(MuteUpdate(body)) == Chosen(IsBool(Get(body, "isMuted")), IsMuted)
  {
    var gc := Get(body, "guardian_config");
    if gc.Some? && Truthy(gc.value) {
      var w := Get(gc.value, "weekly_base_salary");
      var d := Get(gc.value, "last_salary_date");
      var ws := if IsNumber(w) then [Assignment(WeeklyBaseSalary, w.value)] else [];
      var ds := if d.Some? then [Assignment(LastSalaryDate, d.value)] else [];
      ColumnsValuesAppend(ws, ds);
    }
  }

  /** Which columns a body sets: each exactly when its field has the right type; `updated_at` always, and last. */
  lemma UpdateColumns(body: Json, now: int, userId: string)
    requires PlanUpdate(body, now, userId).Update?
    ensures var cs := PlanUpdate(body, now, userId).columns;
      && (Balance in cs <==> IsNumber(Get(body, "balance")))
      && (WeeklyBaseSalary in cs <==> SetsWeekly(body))
      && (LastSalaryDate in cs <==> SetsDate(body))
      && (IsMuted in cs <==> IsBool(Get(body, "isMuted")))
      && cs[|cs| - 1] == UpdatedAt
  {
    AssignmentColumns(body);
    ChosenMembers(IsNumber(Get(body, "balance")), SetsWeekly(body), SetsDate(body), IsBool(Get(body, "isMuted")));
  }

  /** The clauses come in the fixed order, each at most once, with `updated_at` last. */
  lemma UpdateOrder(body: Json, now: int, userId: string)
    requires PlanUpdate(body, now, userId).Update?
    ensures var cs := PlanUpdate(body, now, userId).columns;
      forall i, j :: 0 <= i < j < |cs| ==> Rank(cs[i]) < Rank(cs[j])
  {
    AssignmentColumns(body);
    ChosenOrder(IsNumber(Get(body, "balance")), SetsWeekly(body), SetsDate(body), IsBool(Get(body, "isMuted")));
  }

  /** The values line up with the clauses, then come the time of the update and the user id: one value more than clauses. */
  lemma UpdateValuesAligned(body: Json, now: int, userId: string)
    requires PlanUpdate(body, now, userId).Update?
    ensures var p := PlanUpdate(body, now, userId);
      && |p.values| == |p.columns| + 1
      && p.values[|p.values| - 2] == JNumber(now)
      && p.values[|p.values| - 1] == JString(userId)
      && forall i :: 0 <= i < |p.columns| - 1 ==> Assignments(body)[i] == Assignment(p.columns[i], p.values[i])
  {
  }

  /** A body that is not an object, or sets nothing, is refused with 400 and issues no update. */
  lemma UpdateRejections(body: Json, now: int, userId: string)
    ensures PlanUpdate(body, now, userId).Rejected? <==> !IsObject(body) || Assignments(body) == []
    ensures PlanUpdate(body, now, userId).Rejected? ==>
      PlanUpdate(body, now, userId).reply.status == 400 && PlanUpdate(body, now, userId).reply.code == "BAD_REQUEST"
  {
  }

  // ---------------------------------------------------------------------
  // The parent password
  // ---------------------------------------------------------------------

  /** `!!hash`: a stored hash that is neither null nor empty. */
  predicate Filled(hash: Option<string>) {
    hash.Some? && hash.value != ""
  }

  /** The password fields of a stored profile. */
  datatype PasswordRow = PasswordRow(parent_password_hash: Option<string>, is_parent_password_set: int)

  const MISSING_HASH: Reply := Fail(400, "Invalid request body, passwordHash is required", "BAD_REQUEST")

  /** verifyParentPassword's verdict on a body and the stored password fields, if the user exists. */
  function VerifyParentPassword(body: Json, row: Option<PasswordRow>): Reply {
    var given := Get(body, "passwordHash");
    if !Truthy(body) || !IsString(given) then MISSING_HASH
    else if row.None? then Fail(404, "User not found", "NOT_FOUND")
    else
      var stored := row.value.parent_password_hash;
      if row.value.is_parent_password_set != 1 || !Filled(stored) then Verdict(false, false)
      else Verdict(stored.value == given.value.s, true)
  }

  /** The verdict: 400 before anything else, then 404, then "not set", then a comparison of hashes. */
  lemma PasswordVerdict(body: Json, row: Option<PasswordRow>)
    ensures var r := VerifyParentPassword(body, row);
      && (r == MISSING_HASH <==> !IsString(Get(body, "passwordHash")))
      && (IsString(Get(body, "passwordHash")) && row.None? ==> r.Fail? && r.status == 404)
      && (r.Verdict? ==> row.Some?)
      && (r.Verdict? && r.isValid ==> r.isPasswordSet && row.value.parent_password_hash == Some(Get(body, "passwordHash").value.s))
      && (r.Verdict? ==> (r.isPasswordSet <==> (row.value.is_parent_password_set == 1 && Filled(row.value.parent_password_hash))))
      && (r.Verdict? && r.isPasswordSet ==> (r.isValid <==> row.value.parent_password_hash == Some(Get(body, "passwordHash").value.s)))
  {
  }

  /** updateParentPassword over a table of profiles keyed by user id. */
  function UpdateParentPassword(userId: string, body: Json, now: int, db: map<string, ProfileRow>): (Reply, map<string, ProfileRow>) {
    var given := Get(body, "passwordHash");
    if !Truthy(body) || !IsString(given) then (MISSING_HASH, db)
    else
      var db' := if userId in db
        then db[userId := db[userId].(parent_password_hash := Some(given.value.s), is_parent_password_set := 1, updated_at := now)]
        else db;
      (Message("Parent password updated"), db')
  }

  /** A string hash is stored with the flag set; nothing else in the table changes, and a bad body changes nothing. */
  lemma PasswordUpdate(userId: string, body: Json, now: int, db: map<string, ProfileRow>)
    ensures var (r, db') := UpdateParentPassword(userId, body, now, db);
      && (!IsString(Get(body, "passwordHash")) ==> r == MISSING_HASH && db' == db)
      && (IsString(Get(body, "passwordHash")) ==>
            && r == Message("Parent password updated")
            && db'.Keys == db.Keys
            && (forall u :: u in db && u != userId ==> db'[u] == db[u])
            && (userId in db ==> (db'[userId].parent_password_hash == Some(Get(body, "passwordHash").value.s)
                                && db'[userId].is_parent_password_set == 1
                                && FormatProfileResponse(db'[userId]) == FormatProfileResponse(db[userId]).(isPasswordSet := true))))
  {
  }

  /** Once a password is stored, verifying the same hash succeeds and any other hash fails. */
  lemma SetThenVerify(userId: string, hash: string, other: string, now: int, db: map<string, ProfileRow>)
    requires userId in db && hash != ""
    ensures var (_, db') := UpdateParentPassword(userId, JObject(map["passwordHash" := JString(hash)]), now, db);
      var row := Some(PasswordRow(db'[userId].parent_password_hash, db'[userId].is_parent_password_set));
      && VerifyParentPassword(JObject(map["passwordHash" := JString(hash)]), row) == Verdict(true, true)
      && (other != hash ==> VerifyParentPassword(JObject(map["passwordHash" := JString(other)]), row) == Verdict(false, true))
  {
  }
}

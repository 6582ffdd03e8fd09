/**
 * The single-file demo API (fast_api_thing.py): a fixed credential table for login, and a
 * dashboard that sums four buckets over every transaction row, whatever its status. Its
 * create, list and verify handlers run the same statements as the ledger of module Ledger.
 */
module DemoApi {
  import opened Common
  import DashboardStats

  /** An entry of the in-memory `USERS` table. */
  datatype Account = Account(password: string, role: string, name: string)

  datatype LoginResponse = LoginResponse(success: bool, role: Option<string>, name: Option<string>, message: string)

  const Users: map<string, Account> := map[
    "admin" := Account("admin123", "admin", "Principal Skinner"),
    "staff" := Account("staff123", "staff", "Finance Clerk"),
    "auditor" := Account("auditor123", "auditor", "External Auditor")
  ]

  /** `user = USERS.get(username); if user and user['password'] == password`. */
  function CheckCredentials(users: map<string, Account>, username: string, password: string): (found: Option<Account>)
    ensures found.Some? <==> username in users && users[username].password == password
    ensures found.Some? ==> found.value == users[username]
  {
    if username in users && users[username].password == password then Some(users[username]) else None
  }

  /** `POST /login`: an unknown user and a wrong password get the same answer. */
  function Login(username: string, password: string): (r: LoginResponse)
    ensures r.success <==> username in Users && Users[username].password == password
    ensures r.success ==> r.role == Some(Users[username].role) && r.name == Some(Users[username].name)
    ensures !r.success ==> r == LoginResponse(false, None, None, "Invalid credentials")
  {
    match CheckCredentials(Users, username, password)
    case Some(a) => LoginResponse(true, Some(a.role), Some(a.name), "Login successful")
    case None => LoginResponse(false, None, None, "Invalid credentials")
  }

  /** The four figures of the demo dashboard, in cents. */
  datatype Totals = Totals(tuition: int, misc: int, org: int, expenses: int)

  /** The loop body: status is not consulted. */
  function Step(t: Totals, r: DashboardStats.Row): Totals
  {
    var amount := r.amount.GetOr(0);
    if r.txnType == "Disbursement" then t.(expenses := t.expenses + amount)
    else if r.txnType == "Collection" then
      if r.category == Some("Tuition Fee") then t.(tuition := t.tuition + amount)
      else if r.category == Some("Miscellaneous Fee") then t.(misc := t.misc + amount)
      else if r.category == Some("Organization Fund") then t.(org := t.org + amount)
      else t
    else t
  }

  function Fold(rows: seq<DashboardStats.Row>): Totals
  {
    if rows == [] then Totals(0, 0, 0, 0) else Step(Fold(rows[..|rows| - 1]), rows[|rows| - 1])
  }

  /**
   * `GET /stats`: the four sums, or a 500 when the query fails or a row's amount is NULL
   * (`row[2] / 100.0` raises before the type is looked at).
   */
  method GetStats(query: Option<seq<DashboardStats.Row>>) returns (r: Result<Totals>)
    ensures r.Ok? <==> query.Some? && DashboardStats.AmountsPresent(query.value)
    ensures r.Ok? ==> r.value == Fold(query.value)
    ensures r.Err? ==> r.error.Status() == 500
  {
    if query.None? {
      return Err(ServerError);
    }
    var rows := query.value;
    var tuition, misc, org, expenses := 0, 0, 0, 0;
    var i := 0;
    while i < |rows|
      invariant 0 <= i <= |rows|
      invariant DashboardStats.AmountsPresent(rows[..i])
      invariant Totals(tuition, misc, org, expenses) == Fold(rows[..i])
    {
      var row := rows[i];
      assert rows[..i + 1] == rows[..i] + [row];
      if row.amount.None? {
        assert !DashboardStats.AmountsPresent(rows);
        return Err(ServerError);
      }
      var amount := row.amount.value;
      if row.txnType == "Disbursement" {
        expenses := expenses + amount;
      } else if row.txnType == "Collection" {
        if row.category == Some("Tuition Fee") {
          tuition := tuition + amount;
        } else if row.category == Some("Miscellaneous Fee") {
          misc := misc + amount;
        } else if row.category == Some("Organization Fund") {
          org := org + amount;
        }
      }
      i := i + 1;
    }
    assert rows[..i] == rows;
    r := Ok(Totals(tuition, misc, org, expenses));
  }

  /** Reference definition: the cents of all rows of one type (and, if given, one category). */
  function SumOf(rows: seq<DashboardStats.Row>, txnType: string, category: Option<string>): int
  {
    if rows == [] then 0
    else
      var r := rows[|rows| - 1];
      var counts := r.txnType == txnType && (category.None? || r.category == category);
      SumOf(rows[..|rows| - 1], txnType, category) + (if counts then r.amount.GetOr(0) else 0)
  }

  /**
   * Expenses sum every Disbursement regardless of category or status; the three named totals
   * sum only the Collections of exactly that category.
   */
  lemma {:induction false} TotalsAreFilteredSums(rows: seq<DashboardStats.Row>)
    ensures Fold(rows) == Totals(SumOf(rows, "Collection", Some("Tuition Fee")),
                                 SumOf(rows, "Collection", Some("Miscellaneous Fee")),
                                 SumOf(rows, "Collection", Some("Organization Fund")),
                                 SumOf(rows, "Disbursement", None))
  {
    if rows != [] {
      TotalsAreFilteredSums(rows[..|rows| - 1]);
    }
  }

  function Four(s: DashboardStats.Stats): Totals
  {
    Totals(s.tuition, s.misc, s.org, s.expenses)
  }

  lemma StepAgrees(s: DashboardStats.Stats, r: DashboardStats.Row)
    requires !DashboardStats.IsPending(r)
    ensures Step(Four(s), r) == Four(DashboardStats.Step(s, r))
  {
    var key := DashboardStats.CategoryKey(r.category);
    assert key == "Tuition Fee" <==> r.category == Some("Tuition Fee");
    assert key == "Miscellaneous Fee" <==> r.category == Some("Miscellaneous Fee");
    assert key == "Organization Fund" <==> r.category == Some("Organization Fund");
  }

  /**
   * Without pending rows, the demo dashboard agrees with the four figures of the newer
   * statistics endpoint; it differs only in that it also sums pending rows.
   */
  lemma {:induction false} AgreesWithDashboardStats(rows: seq<DashboardStats.Row>)
    requires forall i :: 0 <= i < |rows| ==> !DashboardStats.IsPending(rows[i])
    ensures Fold(rows) == Four(DashboardStats.Fold(rows))
  {
    if rows != [] {
      var n := |rows| - 1;
      AgreesWithDashboardStats(rows[..n]);
      StepAgrees(DashboardStats.Fold(rows[..n]), rows[n]);
    }
  }
}

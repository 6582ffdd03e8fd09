/**
 * Staff payroll (app/routers/staff.py): the salary comes from the staff profile in whole
 * currency units, with a legacy per-staff table in cents as fallback; deductions are rows
 * in cents; net pay is salary minus deductions, floored at zero.
 */
module Payroll {
  import opened Common
  import Access
  import Text

  /** A row of `staff_deductions`; type and amount are nullable columns. */
  datatype DeductionRow = DeductionRow(id: int, staffId: string, deductionType: Option<string>, amount: Option<int>)

  datatype DeductionView = DeductionView(id: int, deductionType: string, amount: int)

  /** The GET response, all money in cents. */
  datatype PayrollSummary = PayrollSummary(salary: int, deductions: seq<DeductionView>, netPay: int)

  /** One payload deduction, its amount already in cents. */
  datatype DeductionItem = DeductionItem(deductionType: string, amount: int)

  /** The PUT payload: each part is optional. */
  datatype PayrollUpdate = PayrollUpdate(salary: Option<int>, deductions: Option<seq<DeductionItem>>)

  const ReadRoles: set<string> := {"staff", "admin", "payables"}
  const WriteRoles: seq<string> := ["admin", "payables"]

  /** `current_username or "guest"`: the name whose role is looked up. */
  function Viewer(currentUser: Option<string>): string
  {
    if currentUser.None? || currentUser.value == "" then "guest" else currentUser.value
  }

  /** The two checks of `get_staff_payroll`, on the resolved role (None when unresolved). */
  predicate MayRead(role: Option<string>, currentUser: Option<string>, staffId: string)
  {
    && !(role == Some("staff") && Text.Normalize(currentUser.GetOr("")) != Text.Normalize(staffId))
    && (role.None? || role.value in ReadRoles)
  }

  /**
   * Who may read a payroll: anyone whose role is unresolved, admin or payables, and a staff
   * member for their own id only (compared after trimming and lower-casing).
   */
  lemma ReadRule(role: Option<string>, currentUser: Option<string>, staffId: string)
    ensures MayRead(role, currentUser, staffId)
        <==> role.None? || role == Some("admin") || role == Some("payables")
             || (role == Some("staff") && Text.Normalize(currentUser.GetOr("")) == Text.Normalize(staffId))
  {
  }

  /** The rows of one staff member, as the reader shows them: NULL type is "", NULL amount 0. */
  function ViewsFor(rows: seq<DeductionRow>, staffId: string): seq<DeductionView>
  {
    if rows == [] then []
    else
      var r := rows[|rows| - 1];
      ViewsFor(rows[..|rows| - 1], staffId)
        + (if r.staffId == staffId then [DeductionView(r.id, r.deductionType.GetOr(""), r.amount.GetOr(0))] else [])
  }

  function TotalDeductions(vs: seq<DeductionView>): int
  {
    if vs == [] then 0 else TotalDeductions(vs[..|vs| - 1]) + vs[|vs| - 1].amount
  }

  /** `max(0, salary_amount - total_deductions)`. */
  function NetPay(salary: int, deductions: int): (net: int)
    ensures net >= 0
    ensures net >= salary - deductions
    ensures net == 0 || net == salary - deductions
  {
    if salary - deductions > 0 then salary - deductions else 0
  }

  /**
   * The salary in cents: the profile's monthly salary (whole units) when it is positive,
   * otherwise the legacy payroll entry (cents) when there is one, otherwise the profile value.
   */
  function SalaryCents(monthly: map<string, Option<int>>, legacy: map<string, Option<int>>, staffId: string): (c: int)
    ensures staffId in monthly && monthly[staffId].Some? && monthly[staffId].value > 0 ==>
      c == 100 * monthly[staffId].value
    ensures (staffId !in monthly || monthly[staffId].None? || monthly[staffId].value <= 0) ==>
      c == (if staffId in legacy && legacy[staffId].Some? then legacy[staffId].value
            else if staffId in monthly && monthly[staffId].Some? then 100 * monthly[staffId].value
            else 0)
  {
    var fromProfile := if staffId in monthly && monthly[staffId].Some? then 100 * monthly[staffId].value else 0;
    if fromProfile <= 0 && staffId in legacy && legacy[staffId].Some? then legacy[staffId].value else fromProfile
  }

  /** `deduction_type.strip()`, or "Deduction" when that is empty. */
  function TypeLabel(t: string): (tag: string)
    ensures tag != ""
  {
    var s := Text.Strip(t);
    if s == "" then "Deduction" else s
  }

  /** A blank or whitespace-only type is stored as "Deduction", any other type stripped. */
  lemma TypeLabelOfBlank(t: string)
    ensures Text.Blank(t) ==> TypeLabel(t) == "Deduction"
    ensures !Text.Blank(t) ==> TypeLabel(t) == Text.Strip(t) && Text.Strip(t) != ""
  {
    Text.StripEmptyIffBlank(t);
  }

  /** The information separators count as whitespace: a type of "\x1f" is stored as "Deduction". */
  lemma SeparatorTypeIsDeduction()
    ensures TypeLabel("\U{1F}") == "Deduction"
    ensures TypeLabel("\U{1C}Tax\U{3000}") == "Tax"
  {
    TypeLabelOfBlank("\U{1F}");
    assert Text.TrimLeft("\U{1C}Tax\U{3000}") == "Tax\U{3000}";
  }

  /** The row stored for one payload item. */
  function StoredRow(id: int, staffId: string, item: DeductionItem): DeductionRow
  {
    DeductionRow(id, staffId, Some(TypeLabel(item.deductionType)), Some(item.amount))
  }

  /** The rows inserted for a payload, with consecutive ids from `firstId`. */
  function NewRows(firstId: int, staffId: string, items: seq<DeductionItem>): (rows: seq<DeductionRow>)
    ensures |rows| == |items|
  {
    if items == [] then []
    else NewRows(firstId, staffId, items[..|items| - 1]) + [StoredRow(firstId + |items| - 1, staffId, items[|items| - 1])]
  }

  lemma NewRowsSnoc(firstId: int, staffId: string, items: seq<DeductionItem>, i: nat)
    requires i < |items|
    ensures NewRows(firstId, staffId, items[..i + 1]) == NewRows(firstId, staffId, items[..i]) + [StoredRow(firstId + i, staffId, items[i])]
  {
    assert items[..i + 1][..i] == items[..i];
  }

  /** The inserted rows take consecutive ids. */
  lemma {:induction false} NewRowsIds(firstId: int, staffId: string, items: seq<DeductionItem>)
    ensures forall k :: 0 <= k < |items| ==> NewRows(firstId, staffId, items)[k].id == firstId + k
  {
    if items != [] {
      NewRowsIds(firstId, staffId, items[..|items| - 1]);
    }
  }

  /** `DELETE FROM staff_deductions WHERE staff_id = ...`. */
  function Without(rows: seq<DeductionRow>, staffId: string): (kept: seq<DeductionRow>)
    ensures forall i :: 0 <= i < |kept| ==> kept[i].staffId != staffId && kept[i] in rows
  {
    if rows == [] then []
    else
      var r := rows[|rows| - 1];
      Without(rows[..|rows| - 1], staffId) + (if r.staffId == staffId then [] else [r])
  }

  /** The deduction table after the delete-all-then-insert of an update. */
  function Replaced(rows: seq<DeductionRow>, staffId: string, firstId: int, items: seq<DeductionItem>): seq<DeductionRow>
  {
    Without(rows, staffId) + NewRows(firstId, staffId, items)
  }

  /** The payload's items as the reader will show them. */
  function ItemViews(firstId: int, items: seq<DeductionItem>): (vs: seq<DeductionView>)
    ensures |vs| == |items|
  {
    if items == [] then []
    else
      var n := |items| - 1;
      ItemViews(firstId, items[..n]) + [DeductionView(firstId + n, TypeLabel(items[n].deductionType), items[n].amount)]
  }

  lemma {:induction false} ViewsForAppend(a: seq<DeductionRow>, b: seq<DeductionRow>, staffId: string)
    ensures ViewsFor(a + b, staffId) == ViewsFor(a, staffId) + ViewsFor(b, staffId)
    decreases |b|
  {
    if b == [] {
      assert a + b == a;
    } else {
      var n := |b| - 1;
      assert (a + b)[..|a + b| - 1] == a + b[..n];
      ViewsForAppend(a, b[..n], staffId);
    }
  }

  lemma {:induction false} ViewsForWithout(rows: seq<DeductionRow>, staffId: string, other: string)
    ensures ViewsFor(Without(rows, staffId), staffId) == []
    ensures other != staffId ==> ViewsFor(Without(rows, staffId), other) == ViewsFor(rows, other)
  {
    if rows != [] {
      var n := |rows| - 1;
      var r := rows[n];
      ViewsForWithout(rows[..n], staffId, other);
      ViewsForAppend(Without(rows[..n], staffId), if r.staffId == staffId then [] else [r], staffId);
      ViewsForAppend(Without(rows[..n], staffId), if r.staffId == staffId then [] else [r], other);
      assert ViewsFor([r], other) == [] + (if r.staffId == other then [DeductionView(r.id, r.deductionType.GetOr(""), r.amount.GetOr(0))] else []);
    }
  }

  lemma {:induction false} ViewsForNewRows(firstId: int, staffId: string, items: seq<DeductionItem>, other: string)
    ensures ViewsFor(NewRows(firstId, staffId, items), staffId) == ItemViews(firstId, items)
    ensures other != staffId ==> ViewsFor(NewRows(firstId, staffId, items), other) == []
  {
    if items != [] {
      var n := |items| - 1;
      var front := NewRows(firstId, staffId, items[..n]);
      var last := StoredRow(firstId + n, staffId, items[n]);
      ViewsForNewRows(firstId, staffId, items[..n], other);
      ViewsForAppend(front, [last], staffId);
      ViewsForAppend(front, [last], other);
      assert [last][..0] == [];
    }
  }

  /**
   * The deductions of the updated staff member are exactly the payload's items, in order,
   * with blank types stored as "Deduction"; every other staff member's are untouched.
   */
  lemma ReplaceAll(rows: seq<DeductionRow>, staffId: string, firstId: int, items: seq<DeductionItem>, other: string)
    ensures ViewsFor(Replaced(rows, staffId, firstId, items), staffId) == ItemViews(firstId, items)
    ensures other != staffId ==> ViewsFor(Replaced(rows, staffId, firstId, items), other) == ViewsFor(rows, other)
  {
    ViewsForAppend(Without(rows, staffId), NewRows(firstId, staffId, items), staffId);
    ViewsForAppend(Without(rows, staffId), NewRows(firstId, staffId, items), other);
    ViewsForWithout(rows, staffId, other);
    ViewsForNewRows(firstId, staffId, items, other);
  }

  function ItemTotal(items: seq<DeductionItem>): int
  {
    if items == [] then 0 else ItemTotal(items[..|items| - 1]) + items[|items| - 1].amount
  }

  lemma {:induction false} ItemViewsTotal(firstId: int, items: seq<DeductionItem>)
    ensures TotalDeductions(ItemViews(firstId, items)) == ItemTotal(items)
  {
    if items != [] {
      var n := |items| - 1;
      ItemViewsTotal(firstId, items[..n]);
      var vs := ItemViews(firstId, items);
      assert vs[..n] == ItemViews(firstId, items[..n]);
    }
  }

  /**
   * After deductions are replaced, the payroll of that staff member nets the salary against
   * exactly the supplied amounts.
   */
  lemma NetAfterReplace(rows: seq<DeductionRow>, staffId: string, firstId: int, items: seq<DeductionItem>, salary: int)
    ensures NetPay(salary, TotalDeductions(ViewsFor(Replaced(rows, staffId, firstId, items), staffId)))
      == NetPay(salary, ItemTotal(items))
  {
    ReplaceAll(rows, staffId, firstId, items, staffId);
    ItemViewsTotal(firstId, items);
  }

  /** The `updated` list: "salary_amount" then "deductions", each present iff supplied. */
  function UpdatedParts(p: PayrollUpdate): (parts: seq<string>)
    ensures "salary_amount" in parts <==> p.salary.Some?
    ensures "deductions" in parts <==> p.deductions.Some?
    ensures p.salary.Some? ==> parts[0] == "salary_amount"
    ensures |parts| == (if p.salary.Some? then 1 else 0) + (if p.deductions.Some? then 1 else 0)
  {
    (if p.salary.Some? then ["salary_amount"] else []) + (if p.deductions.Some? then ["deductions"] else [])
  }

  predicate Ascending(rows: seq<DeductionRow>)
  {
    forall i, j :: 0 <= i < j < |rows| ==> rows[i].id < rows[j].id
  }

  lemma {:induction false} WithoutAscending(rows: seq<DeductionRow>, staffId: string)
    requires Ascending(rows)
    ensures Ascending(Without(rows, staffId))
  {
    if rows != [] {
      var n := |rows| - 1;
      assert Ascending(rows[..n]);
      WithoutAscending(rows[..n], staffId);
      var w := Without(rows[..n], staffId);
      forall i | 0 <= i < |w| ensures w[i].id < rows[n].id {
        assert w[i] in rows[..n];
      }
    }
  }

  predicate ViewsAscending(vs: seq<DeductionView>)
  {
    forall i, j :: 0 <= i < j < |vs| ==> vs[i].id < vs[j].id
  }

  /** `ORDER BY id`: read from an id-ordered table, one staff member's deductions come in id order. */
  lemma {:induction false} ViewsForAscending(rows: seq<DeductionRow>, staffId: string)
    requires Ascending(rows)
    ensures ViewsAscending(ViewsFor(rows, staffId))
    ensures rows != [] ==> forall i :: 0 <= i < |ViewsFor(rows, staffId)| ==> ViewsFor(rows, staffId)[i].id <= rows[|rows| - 1].id
  {
    if rows != [] {
      var n := |rows| - 1;
      ViewsForAscending(rows[..n], staffId);
      var front := ViewsFor(rows[..n], staffId);
      assert forall i :: 0 <= i < |front| ==> front[i].id < rows[n].id by {
        if n > 0 {
          assert rows[..n][n - 1].id < rows[n].id;
        }
      }
    }
  }

  /** Appending a row with an id above every existing id keeps ids ascending. */
  lemma AppendAscending(rows: seq<DeductionRow>, row: DeductionRow)
    requires Ascending(rows)
    requires forall i :: 0 <= i < |rows| ==> rows[i].id < row.id
    ensures Ascending(rows + [row])
    ensures forall i :: 0 <= i < |rows + [row]| ==> (rows + [row])[i].id <= row.id
  {
  }

  /** The payroll tables: staff profiles' salaries, the legacy payroll table and the deductions. */
  class PayrollBook {
    var monthlySalary: map<string, Option<int>>
    var legacySalary: map<string, Option<int>>
    var deductions: seq<DeductionRow>
    var nextDeductionId: int

    ghost predicate Valid()
      reads this
    {
      && Ascending(deductions)
      && (forall i :: 0 <= i < |deductions| ==> deductions[i].id < nextDeductionId)
    }

    constructor (monthly: map<string, Option<int>>, legacy: map<string, Option<int>>)
      ensures Valid()
      ensures monthlySalary == monthly && legacySalary == legacy && deductions == []
    {
      monthlySalary, legacySalary := monthly, legacy;
      deductions, nextDeductionId := [], 1;
    }

    /**
     * `get_staff_payroll`: refused for a staff caller reading someone else's payroll and for
     * roles outside staff/admin/payables; otherwise salary, deductions in id order and net pay.
     */
    function GetPayroll(role: Access.RoleLookup, staffId: string, currentUser: Option<string>): (r: Result<PayrollSummary>)
      requires Valid()
      reads this
      ensures r.Err? <==> !MayRead(role(Viewer(currentUser)), currentUser, staffId)
      ensures r.Err? ==> r.error == Forbidden
      ensures r.Ok? ==>
        && r.value.salary == SalaryCents(monthlySalary, legacySalary, staffId)
        && r.value.deductions == ViewsFor(deductions, staffId)
        && r.value.netPay == NetPay(r.value.salary, TotalDeductions(r.value.deductions))
      ensures r.Ok? ==> ViewsAscending(r.value.deductions)
    {
      if !MayRead(role(Viewer(currentUser)), currentUser, staffId) then Err(Forbidden)
      else
        ViewsForAscending(deductions, staffId);
        var salary := SalaryCents(monthlySalary, legacySalary, staffId);
        var vs := ViewsFor(deductions, staffId);
        Ok(PayrollSummary(salary, vs, NetPay(salary, TotalDeductions(vs))))
    }

    /**
     * `update_staff_payroll`: admin or payables only; sets the profile salary when supplied
     * (a missing profile row is left missing) and replaces the whole deduction set when supplied.
     */
    method UpdatePayroll(role: Access.RoleLookup, staffId: string, payload: PayrollUpdate, currentUser: Option<string>)
      returns (r: Result<seq<string>>)
      requires Valid()
      modifies this
      ensures Valid()
      ensures Access.EnsureRole(role, Viewer(currentUser), WriteRoles).Err? ==> r == Err(Forbidden) && unchanged(this)
      ensures Access.EnsureRole(role, Viewer(currentUser), WriteRoles).Ok? ==>
        && r == Ok(UpdatedParts(payload))
        && monthlySalary == (if payload.salary.Some? && staffId in old(monthlySalary)
                             then old(monthlySalary)[staffId := Some(payload.salary.value)]
                             else old(monthlySalary))
        && legacySalary == old(legacySalary)
        && deductions == (if payload.deductions.Some?
                          then Replaced(old(deductions), staffId, old(nextDeductionId), payload.deductions.value)
                          else old(deductions))
    {
      var gate := Access.EnsureRole(role, Viewer(currentUser), WriteRoles);
      if gate.Err? {
        return Err(Forbidden);
      }
      var updates: seq<string> := [];
      if payload.salary.Some? {
        if staffId in monthlySalary {
          monthlySalary := monthlySalary[staffId := Some(payload.salary.value)];
        }
        updates := updates + ["salary_amount"];
      }
      if payload.deductions.Some? {
        ReplaceDeductions(staffId, payload.deductions.value);
        updates := updates + ["deductions"];
      }
      assert updates == UpdatedParts(payload);
      r := Ok(updates);
    }

    /** Deletes every deduction of `staffId`, then inserts one row per item with fresh ids. */
    method ReplaceDeductions(staffId: string, items: seq<DeductionItem>)
      requires Valid()
      modifies this
      ensures Valid()
      ensures deductions == Replaced(old(deductions), staffId, old(nextDeductionId), items)
      ensures nextDeductionId == old(nextDeductionId) + |items|
      ensures monthlySalary == old(monthlySalary) && legacySalary == old(legacySalary)
    {
      WithoutAscending(deductions, staffId);
      deductions := Without(deductions, staffId);
      InsertRows(staffId, items);
    }

    /** One `INSERT INTO staff_deductions`: the row takes the next id. */
    method Append(row: DeductionRow)
      requires Valid() && row.id == nextDeductionId
      modifies this
      ensures Valid()
      ensures deductions == old(deductions) + [row] && nextDeductionId == old(nextDeductionId) + 1
      ensures monthlySalary == old(monthlySalary) && legacySalary == old(legacySalary)
    {
      AppendAscending(deductions, row);
      deductions := deductions + [row];
      nextDeductionId := nextDeductionId + 1;
    }

    /** `(d.deduction_type or "").strip()`, replaced by "Deduction" when that is empty. */
    static method StoredType(t: string) returns (typeStr: string)
      ensures typeStr == TypeLabel(t)
    {
      typeStr := Text.Strip(t);
      if typeStr == "" {
        typeStr := "Deduction";
      }
    }

    /** One insert per item, each taking the next id. */
    method InsertRows(staffId: string, items: seq<DeductionItem>)
      requires Valid()
      modifies this
      ensures Valid()
      ensures deductions == old(deductions) + NewRows(old(nextDeductionId), staffId, items)
      ensures nextDeductionId == old(nextDeductionId) + |items|
      ensures monthlySalary == old(monthlySalary) && legacySalary == old(legacySalary)
    {
      var firstId := nextDeductionId;
      var i := 0;
      while i < |items|
        invariant 0 <= i <= |items|
        invariant nextDeductionId == firstId + i
        invariant deductions == old(deductions) + NewRows(firstId, staffId, items[..i])
        invariant Valid()
        invariant monthlySalary == old(monthlySalary) && legacySalary == old(legacySalary)
      {
        var typeStr := StoredType(items[i].deductionType);
        var row := DeductionRow(nextDeductionId, staffId, Some(typeStr), Some(items[i].amount));
        NewRowsSnoc(firstId, staffId, items, i);
        Append(row);
        i := i + 1;
      }
      assert items[..i] == items;
    }
  }
}

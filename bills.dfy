/**
 * Student billing (app/routers/bills.py): a bill's total is split evenly over the listed
 * students by integer division, one assignment row per student; payments raise an
 * assignment's paid amount and set its status.
 */
module Bills {
  import opened Common
  import Access

  datatype BillStatus = Pending | Partial | Paid

  /** A row of the `bills` table. */
  datatype Bill = Bill(createdAt: string, billType: string, description: string, totalCents: int, createdBy: string)

  /** A row of the `bill_assignments` table: what one student owes on one bill. */
  datatype Assignment = Assignment(billId: int, studentId: string, amount: int, paid: int, status: BillStatus)

  /** The body of `POST /bills`, with the total already in cents. */
  datatype BillRequest = BillRequest(billType: string, description: string, totalCents: int, createdBy: string, studentIds: seq<string>)

  datatype AssignmentView = AssignmentView(id: int, billId: int, studentId: string, amount: int, paid: int, status: BillStatus)

  datatype BillView = BillView(id: int, createdAt: string, billType: string, description: string, totalCents: int,
                               createdBy: string, assignments: seq<AssignmentView>)

  datatype PaymentView = PaymentView(newPaid: int, status: BillStatus)

  /** Only the payables associate or an admin may create bills. */
  const CreatorRoles: seq<string> := ["payables", "admin"]

  /** Each student's share: `amount_cents // len(student_ids)`, or 0 for no students. */
  function Share(totalCents: int, students: nat): (share: int)
    ensures students == 0 ==> share == 0
    ensures students > 0 ==> students * share <= totalCents < students * share + students
  {
    if students == 0 then 0 else totalCents / students
  }

  /** The assignments created for `students`, in list order, with consecutive ids from `firstId`. */
  function Views(firstId: int, billId: int, students: seq<string>, share: int): (vs: seq<AssignmentView>)
    ensures |vs| == |students|
    ensures forall i :: 0 <= i < |vs| ==>
      vs[i] == AssignmentView(firstId + i, billId, students[i], share, 0, Pending)
  {
    seq(|students|, i requires 0 <= i < |students| => AssignmentView(firstId + i, billId, students[i], share, 0, Pending))
  }

  /** The same assignments as table rows, keyed by id. */
  ghost function NewRows(firstId: int, billId: int, students: seq<string>, share: int): (rows: map<int, Assignment>)
    ensures forall id :: id in rows ==> firstId <= id < firstId + |students|
  {
    if students == [] then map[]
    else
      var n := |students| - 1;
      NewRows(firstId, billId, students[..n], share)[firstId + n := Assignment(billId, students[n], share, 0, Pending)]
  }

  lemma NewRowsSnoc(firstId: int, billId: int, students: seq<string>, i: nat, share: int)
    requires i < |students|
    ensures NewRows(firstId, billId, students[..i + 1], share)
         == NewRows(firstId, billId, students[..i], share)[firstId + i := Assignment(billId, students[i], share, 0, Pending)]
  {
    assert students[..i + 1][..i] == students[..i];
  }

  lemma UnionUpdate(a: map<int, Assignment>, b: map<int, Assignment>, k: int, v: Assignment)
    ensures (a + b)[k := v] == a + b[k := v]
  {
  }

  /** What a list of assignments owes in total. */
  function TotalOwed(vs: seq<AssignmentView>): int
  {
    if vs == [] then 0 else TotalOwed(vs[..|vs| - 1]) + vs[|vs| - 1].amount
  }

  lemma {:induction false} TotalOwedUniform(vs: seq<AssignmentView>, share: int)
    requires forall i :: 0 <= i < |vs| ==> vs[i].amount == share
    ensures TotalOwed(vs) == |vs| * share
  {
    if vs != [] {
      TotalOwedUniform(vs[..|vs| - 1], share);
      assert (|vs| - 1) * share + share == |vs| * share;
    }
  }

  /**
   * The split of a bill: the shares add up to at most the total and the cents dropped are
   * fewer than the number of students; with no students nothing is owed.
   */
  lemma SplitDropsLessThanOneCentPerStudent(firstId: int, billId: int, students: seq<string>, totalCents: int)
    ensures var vs := Views(firstId, billId, students, Share(totalCents, |students|));
      |students| == 0 ==> vs == [] && TotalOwed(vs) == 0
    ensures var vs := Views(firstId, billId, students, Share(totalCents, |students|));
      |students| > 0 ==> 0 <= totalCents - TotalOwed(vs) < |students|
  {
    var vs := Views(firstId, billId, students, Share(totalCents, |students|));
    TotalOwedUniform(vs, Share(totalCents, |students|));
  }

  /**
   * The read-modify-write of `update_payment`: the payment is added to what was paid, never
   * capped at what is owed, and the status becomes Paid exactly when the debt is covered.
   */
  function ApplyPayment(a: Assignment, paymentCents: int): (b: Assignment)
    ensures b.paid == a.paid + paymentCents
    ensures b.billId == a.billId && b.studentId == a.studentId && b.amount == a.amount
    ensures b.status == Paid <==> b.paid >= b.amount
    ensures b.status == Partial <==> b.paid < b.amount
  {
    var paid := a.paid + paymentCents;
    a.(paid := paid, status := if paid >= a.amount then Paid else Partial)
  }

  /** The `bills` and `bill_assignments` tables with their auto-increment counters. */
  class BillBook {
    var bills: map<int, Bill>
    var assignments: map<int, Assignment>
    var nextBillId: int
    var nextAssignmentId: int

    ghost predicate Valid()
      reads this
    {
      && nextBillId >= 1 && nextAssignmentId >= 1
      && (forall id :: id in bills ==> 1 <= id < nextBillId)
      && (forall id :: id in assignments ==> 1 <= id < nextAssignmentId)
    }

    constructor ()
      ensures Valid()
      ensures bills == map[] && assignments == map[]
    {
      bills, assignments := map[], map[];
      nextBillId, nextAssignmentId := 1, 1;
    }

    /**
     * `create_bill`: checks the creator's role, inserts the bill, then inserts and reports one
     * Pending assignment per listed student, each owing the same share.
     */
    method CreateBill(role: Access.RoleLookup, req: BillRequest, now: string) returns (r: Result<BillView>)
      requires Valid()
      modifies this
      ensures Valid()
      ensures Access.EnsureRole(role, req.createdBy, CreatorRoles).Err? ==>
        r == Err(Forbidden) && unchanged(this)
      ensures Access.EnsureRole(role, req.createdBy, CreatorRoles).Ok? ==>
        var billId := old(nextBillId);
        var share := Share(req.totalCents, |req.studentIds|);
        && r == Ok(BillView(billId, now, req.billType, req.description, req.totalCents, req.createdBy,
                            Views(old(nextAssignmentId), billId, req.studentIds, share)))
        && bills == old(bills)[billId := Bill(now, req.billType, req.description, req.totalCents, req.createdBy)]
        && assignments == old(assignments) + NewRows(old(nextAssignmentId), billId, req.studentIds, share)
        && nextBillId == billId + 1
        && nextAssignmentId == old(nextAssignmentId) + |req.studentIds|
    {
      var gate := Access.EnsureRole(role, req.createdBy, CreatorRoles);
      if gate.Err? {
        return Err(Forbidden);
      }
      var share := Share(req.totalCents, |req.studentIds|);
      var billId := nextBillId;
      bills := bills[billId := Bill(now, req.billType, req.description, req.totalCents, req.createdBy)];
      nextBillId := nextBillId + 1;

      var created := InsertAssignments(billId, req.studentIds, share);
      r := Ok(BillView(billId, now, req.billType, req.description, req.totalCents, req.createdBy, created));
    }

    /** The loop of `create_bill`: one Pending assignment row per student, in list order. */
    method InsertAssignments(billId: int, students: seq<string>, share: int) returns (created: seq<AssignmentView>)
      requires Valid()
      modifies this
      ensures Valid()
      ensures created == Views(old(nextAssignmentId), billId, students, share)
      ensures assignments == old(assignments) + NewRows(old(nextAssignmentId), billId, students, share)
      ensures nextAssignmentId == old(nextAssignmentId) + |students|
      ensures bills == old(bills) && nextBillId == old(nextBillId)
    {
      var firstId := nextAssignmentId;
      var views := Views(firstId, billId, students, share);
      created := [];
      var i := 0;
      while i < |students|
        invariant 0 <= i <= |students|
        invariant nextAssignmentId == firstId + i
        invariant created == views[..i]
        invariant assignments == old(assignments) + NewRows(firstId, billId, students[..i], share)
        invariant Valid()
        invariant bills == old(bills) && nextBillId == old(nextBillId)
      {
        var studentId := students[i];
        var id := nextAssignmentId;
        NewRowsSnoc(firstId, billId, students, i, share);
        UnionUpdate(old(assignments), NewRows(firstId, billId, students[..i], share), id,
                    Assignment(billId, studentId, share, 0, Pending));
        assignments := assignments[id := Assignment(billId, studentId, share, 0, Pending)];
        nextAssignmentId := nextAssignmentId + 1;
        assert views[..i + 1] == views[..i] + [views[i]];
        created := created + [views[i]];
        i := i + 1;
      }
      assert students[..i] == students;
      assert views[..i] == views;
    }

    /**
     * `update_payment`: an unknown assignment is NotFound and nothing is written; otherwise
     * only that assignment's paid amount and status change.
     */
    method UpdatePayment(id: int, paymentCents: int) returns (r: Result<PaymentView>)
      requires Valid()
      modifies this
      ensures Valid()
      ensures id !in old(assignments) ==> r == Err(NotFound) && unchanged(this)
      ensures id in old(assignments) ==>
        var a := ApplyPayment(old(assignments)[id], paymentCents);
        && r == Ok(PaymentView(a.paid, a.status))
        && assignments == old(assignments)[id := a]
        && bills == old(bills)
        && nextBillId == old(nextBillId) && nextAssignmentId == old(nextAssignmentId)
    {
      if id !in assignments {
        return Err(NotFound);
      }
      var a := ApplyPayment(assignments[id], paymentCents);
      assignments := assignments[id := a];
      r := Ok(PaymentView(a.paid, a.status));
    }

    /**
     * `create_bill` as written: `ensure_role` runs inside the `try`, so a refused creator gets
     * 500 instead of 403 (bills.py:95-97); nothing is written either way.
     */
    method CreateBillAsWritten(role: Access.RoleLookup, req: BillRequest, now: string) returns (r: Result<BillView>)
      requires Valid()
      modifies this
      ensures Valid()
      ensures Access.EnsureRole(role, req.createdBy, CreatorRoles).Err? ==>
        r == Err(ServerError) && unchanged(this)
      ensures Access.EnsureRole(role, req.createdBy, CreatorRoles).Ok? ==>
        var billId := old(nextBillId);
        var share := Share(req.totalCents, |req.studentIds|);
        && r == Ok(BillView(billId, now, req.billType, req.description, req.totalCents, req.createdBy,
                            Views(old(nextAssignmentId), billId, req.studentIds, share)))
        && bills == old(bills)[billId := Bill(now, req.billType, req.description, req.totalCents, req.createdBy)]
        && assignments == old(assignments) + NewRows(old(nextAssignmentId), billId, req.studentIds, share)
    {
      var intended := CreateBill(role, req, now);
      r := Caught(intended);
    }

    /**
     * `update_payment` as written: the 404 for an unknown assignment is raised inside the `try`
     * and comes out as a 500 (bills.py:198-200); nothing is written.
     */
    method UpdatePaymentAsWritten(id: int, paymentCents: int) returns (r: Result<PaymentView>)
      requires Valid()
      modifies this
      ensures Valid()
      ensures id !in old(assignments) ==> r == Err(ServerError) && unchanged(this)
      ensures id in old(assignments) ==>
        var a := ApplyPayment(old(assignments)[id], paymentCents);
        && r == Ok(PaymentView(a.paid, a.status))
        && assignments == old(assignments)[id := a]
        && bills == old(bills)
    {
      var intended := UpdatePayment(id, paymentCents);
      r := Caught(intended);
    }
  }
}

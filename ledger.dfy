/**
 * The transaction ledger of app/routers/transactions.py: creation with the status rule,
 * the newest-first listing, and the existence check behind `/verify/{id}`. The demo API
 * (fast_api_thing.py) and the Streamlit app (finance_system.py) run the same INSERT and
 * SELECT against the same table.
 */
module Ledger {
  import opened Common

  /** A row of the `transactions` table; `amount` is in cents. */
  datatype Txn = Txn(id: int, createdAt: string, recordedBy: string, txnType: string, strand: string,
                     category: string, description: string, amount: int, status: string,
                     studentId: Option<string>, proofReference: Option<string>)

  /** The body of `POST /transactions`, with the amount already in cents. */
  datatype TxnRequest = TxnRequest(recordedBy: string, txnType: string, strand: string, category: string,
                                   description: string, amountCents: int,
                                   studentId: Option<string>, proofReference: Option<string>)

  /** One element of the listing. */
  datatype TxnView = TxnView(id: int, createdAt: string, recordedBy: string, txnType: string, strand: string,
                             category: string, description: string, amount: int, status: string)

  /** The `data` of a successful verification. */
  datatype VerifyView = VerifyView(id: int, timestamp: string, amount: int)

  /** Disbursements wait for approval; everything else is recorded as verified. */
  function InitialStatus(txnType: string): (status: string)
    ensures status == "Pending" <==> txnType == "Disbursement"
    ensures status == "Verified" <==> txnType != "Disbursement"
  {
    if txnType == "Disbursement" then "Pending" else "Verified"
  }

  /** The row the INSERT writes: only the eight listed columns are set. */
  function NewTxn(id: int, req: TxnRequest, now: string): (t: Txn)
    ensures t.id == id && t.amount == req.amountCents && t.status == InitialStatus(req.txnType)
    ensures t.studentId.None? && t.proofReference.None?
  {
    Txn(id, now, req.recordedBy, req.txnType, req.strand, req.category, req.description,
        req.amountCents, InitialStatus(req.txnType), None, None)
  }

  function View(t: Txn): TxnView
  {
    TxnView(t.id, t.createdAt, t.recordedBy, t.txnType, t.strand, t.category, t.description, t.amount, t.status)
  }

  predicate Ascending(rows: seq<Txn>)
  {
    forall i, j :: 0 <= i < j < |rows| ==> rows[i].id < rows[j].id
  }

  /** `... FROM transactions ORDER BY id DESC`, one view per row. */
  function Listing(rows: seq<Txn>): (vs: seq<TxnView>)
    ensures |vs| == |rows|
    ensures forall k :: 0 <= k < |vs| ==> vs[k] == View(rows[|rows| - 1 - k])
  {
    seq(|rows|, k requires 0 <= k < |rows| => View(rows[|rows| - 1 - k]))
  }

  /** `SELECT ... WHERE id = {txn_id}`. */
  function Find(rows: seq<Txn>, id: int): (r: Option<Txn>)
    ensures r.Some? ==> r.value in rows && r.value.id == id
    ensures r.None? <==> forall i :: 0 <= i < |rows| ==> rows[i].id != id
  {
    if rows == [] then None
    else if rows[0].id == id then Some(rows[0])
    else Find(rows[1..], id)
  }

  /** The `transactions` table with its auto-increment counter. */
  class TransactionTable {
    var rows: seq<Txn>
    var nextId: int

    ghost predicate Valid()
      reads this
    {
      && nextId >= 1
      && Ascending(rows)
      && (forall i :: 0 <= i < |rows| ==> 1 <= rows[i].id < nextId)
    }

    constructor ()
      ensures Valid() && rows == []
    {
      rows, nextId := [], 1;
    }

    /**
     * `create_transaction`: appends one row with the next id, the status rule and the amount
     * in cents; the student id and proof reference of the request are not stored.
     */
    method Create(req: TxnRequest, now: string)
      requires Valid()
      modifies this
      ensures Valid()
      ensures rows == old(rows) + [NewTxn(old(nextId), req, now)]
      ensures nextId == old(nextId) + 1
    {
      rows := rows + [NewTxn(nextId, req, now)];
      nextId := nextId + 1;
    }

    /** `get_transactions`: the rows newest first, appended one by one. */
    method List() returns (vs: seq<TxnView>)
      requires Valid()
      ensures vs == Listing(rows)
      ensures forall i, j :: 0 <= i < j < |vs| ==> vs[i].id > vs[j].id
    {
      vs := [];
      var k := |rows|;
      while k > 0
        invariant 0 <= k <= |rows|
        invariant |vs| == |rows| - k
        invariant forall j :: 0 <= j < |vs| ==> vs[j] == View(rows[|rows| - 1 - j])
      {
        k := k - 1;
        vs := vs + [View(rows[k])];
      }
    }

    /** `verify_transaction`: a known id gives its id, timestamp and amount; an unknown one is NotFound. */
    function Verify(id: int): (r: Result<VerifyView>)
      reads this
      ensures r.Err? <==> forall i :: 0 <= i < |rows| ==> rows[i].id != id
      ensures r.Err? ==> r.error == NotFound
      ensures r.Ok? ==> r.value.id == id
      ensures r.Ok? ==> exists i :: 0 <= i < |rows| && rows[i].id == id
                          && r.value == VerifyView(rows[i].id, rows[i].createdAt, rows[i].amount)
    {
      match Find(rows, id)
      case None => Err(NotFound)
      case Some(t) => Ok(VerifyView(t.id, t.createdAt, t.amount))
    }
  }

  /**
   * The verify handler as written: the 404 is raised inside `try` and caught by its
   * `except Exception`, so the client receives a 500 instead.
   */
  function VerifyAsWritten(t: TransactionTable, id: int): (r: Result<VerifyView>)
    reads t
    ensures r.Ok? <==> t.Verify(id).Ok?
    ensures r.Ok? ==> r == t.Verify(id)
    ensures r.Err? ==> r.error.Status() == 500
  {
    Caught(t.Verify(id))
  }

  /** For an id no row has, the intended answer is 404, the answer as written is 500. */
  lemma UnknownIdServedAs500(t: TransactionTable, id: int)
    requires forall i :: 0 <= i < |t.rows| ==> t.rows[i].id != id
    ensures t.Verify(id).Err? && t.Verify(id).error.Status() == 404
    ensures VerifyAsWritten(t, id).Err? && VerifyAsWritten(t, id).error.Status() == 500
  {
  }
}

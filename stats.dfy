/**
 * The dashboard statistics of app/routers/stats.py: one pass over the transaction rows that
 * counts pending rows and sums the others by type and category.
 */
module DashboardStats {
  import opened Common

  /** One row of `SELECT txn_type, category, amount, status FROM transactions`; amounts in cents. */
  datatype Row = Row(txnType: string, category: Option<string>, amount: Option<int>, status: string)

  /** A Python dict from category to cents, in insertion order. */
  type Tally = seq<(string, int)>

  function KeySet(t: Tally): set<string>
  {
    if t == [] then {} else {t[0].0} + KeySet(t[1..])
  }

  /** No key appears twice: the list really is a dict. */
  predicate UniqueKeys(t: Tally)
  {
    t == [] || (t[0].0 !in KeySet(t[1..]) && UniqueKeys(t[1..]))
  }

  /** `d.get(key, 0)`. */
  function Get(t: Tally, key: string): int
  {
    if t == [] then 0 else if t[0].0 == key then t[0].1 else Get(t[1..], key)
  }

  /** `sum(d.values())`. */
  function Total(t: Tally): int
  {
    if t == [] then 0 else t[0].1 + Total(t[1..])
  }

  lemma {:induction false} GetAbsent(t: Tally, key: string)
    requires key !in KeySet(t)
    ensures Get(t, key) == 0
  {
    if t != [] {
      GetAbsent(t[1..], key);
    }
  }

  /**
   * The local helper `bump(map_obj, key, amt)`: adds `amt` to one key, starting from 0 when
   * the key is new (then it goes last), and leaves every other key as it was.
   */
  function Bump(t: Tally, key: string, amt: int): Tally
  {
    if t == [] then [(key, amt)]
    else if t[0].0 == key then [(key, t[0].1 + amt)] + t[1..]
    else [t[0]] + Bump(t[1..], key, amt)
  }

  /** What `bump` does to the dict: one key moves by `amt`, and it stays a dict. */
  lemma {:induction false} BumpSpec(t: Tally, key: string, amt: int, other: string)
    ensures Get(Bump(t, key, amt), key) == Get(t, key) + amt
    ensures other != key ==> Get(Bump(t, key, amt), other) == Get(t, other)
    ensures Total(Bump(t, key, amt)) == Total(t) + amt
    ensures KeySet(Bump(t, key, amt)) == KeySet(t) + {key}
    ensures UniqueKeys(t) ==> UniqueKeys(Bump(t, key, amt))
    ensures key in KeySet(t) ==> |Bump(t, key, amt)| == |t|
  {
    var r := Bump(t, key, amt);
    if t == [] {
    } else if t[0].0 == key {
      assert r[1..] == t[1..];
    } else {
      BumpSpec(t[1..], key, amt, other);
      assert r[1..] == Bump(t[1..], key, amt);
    }
  }

  datatype Stats = Stats(tuition: int, misc: int, org: int, expenses: int, pending: nat,
                         collections: Tally, disbursements: Tally)

  /** The response when anything fails: every figure zero and both category maps empty. */
  const Fallback: Stats := Stats(0, 0, 0, 0, 0, [], [])

  /** `row[1] or "Uncategorized"`. */
  function CategoryKey(category: Option<string>): (key: string)
    ensures key != ""
  {
    if category.None? || category.value == "" then "Uncategorized" else category.value
  }

  predicate IsPending(r: Row) { r.status == "Pending" }

  predicate Settled(r: Row, txnType: string) { !IsPending(r) && r.txnType == txnType }

  /** The body of the loop for one row, with a missing amount read as 0. */
  function Step(s: Stats, r: Row): Stats
  {
    var category := CategoryKey(r.category);
    var amount := r.amount.GetOr(0);
    if IsPending(r) then s.(pending := s.pending + 1)
    else if r.txnType == "Disbursement" then
      s.(expenses := s.expenses + amount, disbursements := Bump(s.disbursements, category, amount))
    else if r.txnType == "Collection" then
      var named :=
        if category == "Tuition Fee" then s.(tuition := s.tuition + amount)
        else if category == "Miscellaneous Fee" then s.(misc := s.misc + amount)
        else if category == "Organization Fund" then s.(org := s.org + amount)
        else s;
      named.(collections := Bump(s.collections, category, amount))
    else s
  }

  /** The accumulators after the loop has seen `rows`. */
  function Fold(rows: seq<Row>): (s: Stats)
    ensures rows == [] ==> s == Stats(0, 0, 0, 0, 0, [], [])
  {
    if rows == [] then Stats(0, 0, 0, 0, 0, [], [])
    else Step(Fold(rows[..|rows| - 1]), rows[|rows| - 1])
  }

  /** Both category tallies stay dicts: no category is listed twice, and pending counts rows. */
  lemma {:induction false} FoldIsDict(rows: seq<Row>)
    ensures UniqueKeys(Fold(rows).collections) && UniqueKeys(Fold(rows).disbursements)
    ensures Fold(rows).pending <= |rows|
  {
    if rows != [] {
      var n := |rows| - 1;
      FoldIsDict(rows[..n]);
      StepTallies(Fold(rows[..n]), rows[n], "");
      StepCounts(Fold(rows[..n]), rows[n]);
    }
  }


  /** The loop's state after one more row is one Step from the state before it. */
  lemma FoldSnoc(rows: seq<Row>, i: nat)
    requires i < |rows|
    ensures Fold(rows[..i + 1]) == Step(Fold(rows[..i]), rows[i])
  {
    assert rows[..i + 1][..i] == rows[..i];
  }

  /** The cents a row adds to the totals of `txnType`, and of `category` if given. */
  function Contribution(r: Row, txnType: string, category: Option<string>): int
  {
    if Settled(r, txnType) && (category.None? || CategoryKey(r.category) == category.value) then r.amount.GetOr(0) else 0
  }

  /** One row's effect on the counter and the five sums. */
  lemma StepCounts(s: Stats, r: Row)
    ensures Step(s, r).pending == s.pending + (if IsPending(r) then 1 else 0)
    ensures Step(s, r).expenses == s.expenses + Contribution(r, "Disbursement", None)
    ensures Step(s, r).tuition == s.tuition + Contribution(r, "Collection", Some("Tuition Fee"))
    ensures Step(s, r).misc == s.misc + Contribution(r, "Collection", Some("Miscellaneous Fee"))
    ensures Step(s, r).org == s.org + Contribution(r, "Collection", Some("Organization Fund"))
  {
  }

  /** One row's effect on the two category dicts. */
  lemma StepTallies(s: Stats, r: Row, c: string)
    ensures UniqueKeys(s.collections) ==> UniqueKeys(Step(s, r).collections)
    ensures UniqueKeys(s.disbursements) ==> UniqueKeys(Step(s, r).disbursements)
    ensures Get(Step(s, r).collections, c) == Get(s.collections, c) + Contribution(r, "Collection", Some(c))
    ensures Get(Step(s, r).disbursements, c) == Get(s.disbursements, c) + Contribution(r, "Disbursement", Some(c))
    ensures Total(Step(s, r).disbursements) == Total(s.disbursements) + Contribution(r, "Disbursement", None)
  {
    var key := CategoryKey(r.category);
    var amount := r.amount.GetOr(0);
    if IsPending(r) {
    } else if r.txnType == "Disbursement" {
      BumpSpec(s.disbursements, key, amount, c);
      assert Step(s, r).disbursements == Bump(s.disbursements, key, amount);
      assert Step(s, r).collections == s.collections;
    } else if r.txnType == "Collection" {
      BumpSpec(s.collections, key, amount, c);
      assert Step(s, r).collections == Bump(s.collections, key, amount);
      assert Step(s, r).disbursements == s.disbursements;
    } else {
      assert Step(s, r) == s;
    }
  }

  /** Every amount is non-NULL; a NULL one makes `row[2] / 100.0` raise. */
  predicate AmountsPresent(rows: seq<Row>)
  {
    forall i :: 0 <= i < |rows| ==> rows[i].amount.Some?
  }

  /** What `GET /stats` answers for a query result, `None` standing for a failed query. */
  function Response(query: Option<seq<Row>>): Stats
  {
    if query.None? || !AmountsPresent(query.value) then Fallback else Fold(query.value)
  }

  /** `get_stats`: the loop over the rows with its five accumulators and two dicts. */
  method GetStats(query: Option<seq<Row>>) returns (s: Stats)
    ensures s == Response(query)
    ensures query.None? ==> s == Fallback
  {
    if query.None? {
      return Fallback;
    }
    var rows := query.value;
    var tuition, misc, org, expenses := 0, 0, 0, 0;
    var pending: nat := 0;
    var collections: Tally := [];
    var disbursements: Tally := [];
    var i := 0;
    while i < |rows|
      invariant 0 <= i <= |rows|
      invariant forall k :: 0 <= k < i ==> rows[k].amount.Some?
      invariant Stats(tuition, misc, org, expenses, pending, collections, disbursements) == Fold(rows[..i])
    {
      var row := rows[i];
      FoldSnoc(rows, i);
      if row.amount.None? {
        assert !AmountsPresent(rows);
        return Fallback;
      }
      tuition, misc, org, expenses, pending, collections, disbursements :=
        Visit(tuition, misc, org, expenses, pending, collections, disbursements, row);
      i := i + 1;
    }
    assert rows[..i] == rows;
    s := Stats(tuition, misc, org, expenses, pending, collections, disbursements);
  }

  /** The body of the loop for a row whose amount is present. */
  method Visit(tuition: int, misc: int, org: int, expenses: int, pending: nat,
               collections: Tally, disbursements: Tally, row: Row)
    returns (tuition': int, misc': int, org': int, expenses': int, pending': nat,
             collections': Tally, disbursements': Tally)
    requires row.amount.Some?
    ensures Stats(tuition', misc', org', expenses', pending', collections', disbursements')
         == Step(Stats(tuition, misc, org, expenses, pending, collections, disbursements), row)
  {
    tuition', misc', org', expenses', pending' := tuition, misc, org, expenses, pending;
    collections', disbursements' := collections, disbursements;
    var category := CategoryKey(row.category);
    var amount := row.amount.value;
    if row.status == "Pending" {
      pending' := pending + 1;
    } else if row.txnType == "Disbursement" {
      expenses' := expenses + amount;
      disbursements' := Bump(disbursements, category, amount);
    } else if row.txnType == "Collection" {
      if category == "Tuition Fee" {
        tuition' := tuition + amount;
      } else if category == "Miscellaneous Fee" {
        misc' := misc + amount;
      } else if category == "Organization Fund" {
        org' := org + amount;
      }
      collections' := Bump(collections, category, amount);
    }
  }

  // Reference definitions, by filtering the rows.

  function CountPending(rows: seq<Row>): nat
  {
    if rows == [] then 0
    else CountPending(rows[..|rows| - 1]) + (if IsPending(rows[|rows| - 1]) then 1 else 0)
  }

  /** Cents of the non-pending rows of one type, and, if `category` is given, of that category. */
  function SumSettled(rows: seq<Row>, txnType: string, category: Option<string>): int
  {
    if rows == [] then 0
    else SumSettled(rows[..|rows| - 1], txnType, category) + Contribution(rows[|rows| - 1], txnType, category)
  }

  /** `pending_count` is the number of rows whose status is Pending. */
  lemma {:induction false} PendingCountMatches(rows: seq<Row>)
    ensures Fold(rows).pending == CountPending(rows)
  {
    if rows != [] {
      var n := |rows| - 1;
      PendingCountMatches(rows[..n]);
      StepCounts(Fold(rows[..n]), rows[n]);
    }
  }

  /** `total_expenses` is the cents of all non-pending disbursements. */
  lemma {:induction false} ExpensesAreSettledDisbursements(rows: seq<Row>)
    ensures Fold(rows).expenses == SumSettled(rows, "Disbursement", None)
  {
    if rows != [] {
      var n := |rows| - 1;
      ExpensesAreSettledDisbursements(rows[..n]);
      StepCounts(Fold(rows[..n]), rows[n]);
    }
  }

  /** Each category's entry sums exactly the non-pending rows of that type and category. */
  lemma {:induction false} CategoryEntries(rows: seq<Row>, category: string)
    ensures Get(Fold(rows).collections, category) == SumSettled(rows, "Collection", Some(category))
    ensures Get(Fold(rows).disbursements, category) == SumSettled(rows, "Disbursement", Some(category))
  {
    if rows != [] {
      var n := |rows| - 1;
      CategoryEntries(rows[..n], category);
      StepTallies(Fold(rows[..n]), rows[n], category);
    }
  }

  /** A missing or empty category is tallied under "Uncategorized". */
  lemma UncategorizedFallback(rows: seq<Row>, r: Row)
    requires !IsPending(r) && r.txnType == "Collection" && r.amount.Some?
    requires r.category.None? || r.category == Some("")
    ensures Get(Fold(rows + [r]).collections, "Uncategorized")
         == Get(Fold(rows).collections, "Uncategorized") + r.amount.value
  {
    assert (rows + [r])[..|rows|] == rows;
    StepTallies(Fold(rows), r, "Uncategorized");
  }

  /** `total_expenses` equals the sum of the values of `disbursements_by_category`. */
  lemma {:induction false} ExpensesMatchCategories(rows: seq<Row>)
    ensures Fold(rows).expenses == Total(Fold(rows).disbursements)
  {
    if rows != [] {
      var n := |rows| - 1;
      ExpensesMatchCategories(rows[..n]);
      StepCounts(Fold(rows[..n]), rows[n]);
      StepTallies(Fold(rows[..n]), rows[n], "");
    }
  }

  /** The three named totals equal their categories' entries in `collections_by_category`. */
  lemma {:induction false} NamedTotalsMatchCategories(rows: seq<Row>)
    ensures Fold(rows).tuition == Get(Fold(rows).collections, "Tuition Fee")
    ensures Fold(rows).misc == Get(Fold(rows).collections, "Miscellaneous Fee")
    ensures Fold(rows).org == Get(Fold(rows).collections, "Organization Fund")
  {
    if rows != [] {
      var n := |rows| - 1;
      NamedTotalsMatchCategories(rows[..n]);
      var s := Fold(rows[..n]);
      StepCounts(s, rows[n]);
      StepTallies(s, rows[n], "Tuition Fee");
      StepTallies(s, rows[n], "Miscellaneous Fee");
      StepTallies(s, rows[n], "Organization Fund");
    }
  }

  /** Rows that are neither pending nor a Collection or Disbursement change nothing. */
  lemma {:induction false} OtherTypesIgnored(rows: seq<Row>, extra: seq<Row>)
    requires forall i :: 0 <= i < |extra| ==>
      !IsPending(extra[i]) && extra[i].txnType != "Collection" && extra[i].txnType != "Disbursement"
    ensures Fold(rows + extra) == Fold(rows)
  {
    if extra != [] {
      var n := |extra| - 1;
      OtherTypesIgnored(rows, extra[..n]);
      assert (rows + extra)[..|rows + extra| - 1] == rows + extra[..n];
    } else {
      assert rows + extra == rows;
    }
  }

  /** Pending rows only count: appending them leaves every sum and both maps as they were. */
  lemma {:induction false} PendingRowsOnlyCount(rows: seq<Row>, extra: seq<Row>)
    requires forall i :: 0 <= i < |extra| ==> IsPending(extra[i])
    ensures Fold(rows + extra) == Fold(rows).(pending := Fold(rows).pending + |extra|)
  {
    if extra != [] {
      var n := |extra| - 1;
      PendingRowsOnlyCount(rows, extra[..n]);
      assert (rows + extra)[..|rows + extra| - 1] == rows + extra[..n];
    } else {
      assert rows + extra == rows;
    }
  }

  /** A value of the JSON body: a number, or a category dict. */
  datatype Field = Number(n: int) | Dict(entries: Tally)

  /** The fields `DashboardStats` in app/schemas.py declares, none of them optional. */
  const RequiredKeys: set<string> :=
    {"total_tuition", "total_misc", "total_org", "total_expenses", "pending_count",
     "collections_by_category", "disbursements_by_category"}

  predicate ValidatesAsDashboardStats(body: map<string, Field>) { RequiredKeys <= body.Keys }

  /** The dict the `try` branch returns for the computed statistics. */
  function SuccessBody(s: Stats): map<string, Field>
  {
    map["total_tuition" := Number(s.tuition), "total_misc" := Number(s.misc),
        "total_org" := Number(s.org), "total_expenses" := Number(s.expenses),
        "pending_count" := Number(s.pending),
        "collections_by_category" := Dict(s.collections),
        "disbursements_by_category" := Dict(s.disbursements)]
  }

  /** The dict the `except` branch returns, as written: five zeros and no category dicts. */
  const FallbackBodyAsWritten: map<string, Field> :=
    map["total_tuition" := Number(0), "total_misc" := Number(0), "total_org" := Number(0),
        "total_expenses" := Number(0), "pending_count" := Number(0)]

  /** Every success body passes response validation and carries the computed figures. */
  lemma SuccessBodyValidates(s: Stats)
    ensures ValidatesAsDashboardStats(SuccessBody(s))
    ensures SuccessBody(s)["pending_count"] == Number(s.pending)
    ensures SuccessBody(s)["collections_by_category"] == Dict(s.collections)
    ensures SuccessBody(s)["disbursements_by_category"] == Dict(s.disbursements)
  {
  }

  /** As written, the fallback body fails response validation, so the dashboard gets a 500. */
  lemma FallbackAsWrittenRejected()
    ensures !ValidatesAsDashboardStats(FallbackBodyAsWritten)
    ensures "collections_by_category" !in FallbackBodyAsWritten
  {
  }

  /**
   * The corrected fallback is the success body of the all-zero statistics: it validates,
   * agrees with the as-written fallback on every field that has, and adds two empty dicts.
   */
  lemma FallbackValidates()
    ensures ValidatesAsDashboardStats(SuccessBody(Fallback))
    ensures forall k :: k in FallbackBodyAsWritten ==> k in SuccessBody(Fallback) && SuccessBody(Fallback)[k] == FallbackBodyAsWritten[k]
    ensures SuccessBody(Fallback)["collections_by_category"] == Dict([])
    ensures SuccessBody(Fallback)["disbursements_by_category"] == Dict([])
  {
  }
}

/**
 * The Streamlit finance app (finance_system.py): credential check, dashboard summary, the
 * entry form's validation before recording, the audit-trail filters, the role menu, and the
 * integrity check. The ledger it reads and writes is module Ledger's transaction table.
 */
module FinanceApp {
  import opened Common
  import Ledger
  import Money
  import DemoApi
  import DashboardStats

  const Users: map<string, DemoApi.Account> := map[
    "admin" := DemoApi.Account("admin123", "admin", "Principal Skinner"),
    "staff" := DemoApi.Account("staff123", "staff", "Finance Clerk"),
    "officer" := DemoApi.Account("officer123", "officer", "Chief Finance Officer"),
    "auditor" := DemoApi.Account("auditor123", "auditor", "External Auditor")
  ]

  /** What a successful login stores in the session. */
  datatype Session = Session(username: string, role: string, name: string)

  /** The login page's check: a session exactly when the user exists and the password matches. */
  function LoginPage(username: string, password: string): (s: Option<Session>)
    ensures s.Some? <==> username in Users && Users[username].password == password
    ensures s.Some? ==> s.value == Session(username, Users[username].role, Users[username].name)
  {
    match DemoApi.CheckCredentials(Users, username, password)
    case Some(a) => Some(Session(username, a.role, a.name))
    case None => None
  }

  // ---------------------------------------------------------------- dashboard summary

  /** `df[df['Type'] == t][df['Category'] == c]['Amount'].sum()`, category optional. */
  function SumWhere(vs: seq<Ledger.TxnView>, txnType: string, category: Option<string>): int
  {
    if vs == [] then 0
    else
      var v := vs[|vs| - 1];
      var counts := v.txnType == txnType && (category.None? || v.category == category.value);
      SumWhere(vs[..|vs| - 1], txnType, category) + (if counts then v.amount else 0)
  }

  /** `get_summary_stats`: zeros for an empty frame, otherwise four filtered sums. */
  function SummaryStats(vs: seq<Ledger.TxnView>): (s: DemoApi.Totals)
    ensures vs == [] ==> s == DemoApi.Totals(0, 0, 0, 0)
  {
    if vs == [] then DemoApi.Totals(0, 0, 0, 0)
    else DemoApi.Totals(SumWhere(vs, "Collection", Some("Tuition Fee")),
                        SumWhere(vs, "Collection", Some("Miscellaneous Fee")),
                        SumWhere(vs, "Collection", Some("Organization Fund")),
                        SumWhere(vs, "Disbursement", None))
  }

  /** A listed transaction as a statistics row. */
  function AsRow(v: Ledger.TxnView): DashboardStats.Row
  {
    DashboardStats.Row(v.txnType, Some(v.category), Some(v.amount), v.status)
  }

  function AsRows(vs: seq<Ledger.TxnView>): (rows: seq<DashboardStats.Row>)
    ensures |rows| == |vs|
  {
    seq(|vs|, i requires 0 <= i < |vs| => AsRow(vs[i]))
  }

  lemma {:induction false} SumWhereIsSumOf(vs: seq<Ledger.TxnView>, txnType: string, category: Option<string>)
    ensures SumWhere(vs, txnType, category) == DemoApi.SumOf(AsRows(vs), txnType, category)
  {
    if vs != [] {
      var n := |vs| - 1;
      SumWhereIsSumOf(vs[..n], txnType, category);
      assert AsRows(vs)[..n] == AsRows(vs[..n]);
    }
  }

  /**
   * The frame-based summary and the demo API's row loop compute the same four figures: every
   * Disbursement, and the Collections of the three named categories, whatever their status.
   */
  lemma SummaryAgreesWithDemoLoop(vs: seq<Ledger.TxnView>)
    ensures SummaryStats(vs) == DemoApi.Fold(AsRows(vs))
  {
    SumWhereIsSumOf(vs, "Collection", Some("Tuition Fee"));
    SumWhereIsSumOf(vs, "Collection", Some("Miscellaneous Fee"));
    SumWhereIsSumOf(vs, "Collection", Some("Organization Fund"));
    SumWhereIsSumOf(vs, "Disbursement", None);
    DemoApi.TotalsAreFilteredSums(AsRows(vs));
  }

  // ---------------------------------------------------------------- entry form

  datatype EntryOutcome = Recorded | Rejected(message: string)

  /**
   * The entry form: a non-positive amount is refused first, then an empty description;
   * otherwise `add_transaction` records the row with the amount in cents.
   */
  method SubmitEntry(table: Ledger.TransactionTable, user: string, txnType: string, strand: string,
                     category: string, description: string, amount: real, now: string)
    returns (outcome: EntryOutcome)
    requires table.Valid()
    modifies table
    ensures table.Valid()
    ensures amount <= 0.0 ==> outcome == Rejected("Amount must be greater than 0.")
    ensures amount > 0.0 && description == "" ==> outcome == Rejected("Description is required.")
    ensures outcome.Rejected? ==> unchanged(table)
    ensures outcome.Recorded? <==> amount > 0.0 && description != ""
    ensures outcome.Recorded? ==>
      && table.rows == old(table.rows) + [Ledger.NewTxn(old(table.nextId),
           Ledger.TxnRequest(user, txnType, strand, category, description, Money.ToCents(amount), None, None), now)]
      && table.rows[|table.rows| - 1].amount >= 0
  {
    if amount <= 0.0 {
      return Rejected("Amount must be greater than 0.");
    }
    if description == "" {
      return Rejected("Description is required.");
    }
    var req := Ledger.TxnRequest(user, txnType, strand, category, description, Money.ToCents(amount), None, None);
    table.Create(req, now);
    outcome := Recorded;
  }

  // ---------------------------------------------------------------- audit trail

  datatype Column = StrandColumn | TypeColumn

  function Field(v: Ledger.TxnView, col: Column): string
  {
    match col
    case StrandColumn => v.strand
    case TypeColumn => v.txnType
  }

  /** `df[df[col].isin(selection)]`: the rows whose value is selected, in order. */
  function Keep(vs: seq<Ledger.TxnView>, col: Column, selection: seq<string>): (r: seq<Ledger.TxnView>)
    ensures forall x :: x in r <==> x in vs && Field(x, col) in selection
  {
    if vs == [] then []
    else
      var n := |vs| - 1;
      assert forall x :: x in vs <==> x in vs[..n] || x == vs[n] by {
        assert vs == vs[..n] + [vs[n]];
      }
      Keep(vs[..n], col, selection) + (if Field(vs[n], col) in selection then [vs[n]] else [])
  }

  /** `a` is `b` with some elements left out, order kept. */
  predicate Subsequence<T(==)>(a: seq<T>, b: seq<T>)
  {
    if a == [] then true
    else if b == [] then false
    else if a[|a| - 1] == b[|b| - 1] then Subsequence(a[..|a| - 1], b[..|b| - 1])
    else Subsequence(a, b[..|b| - 1])
  }

  lemma {:induction false} KeepIsSubsequence(vs: seq<Ledger.TxnView>, col: Column, selection: seq<string>)
    ensures Subsequence(Keep(vs, col, selection), vs)
  {
    if vs != [] {
      var n := |vs| - 1;
      var front := Keep(vs[..n], col, selection);
      KeepIsSubsequence(vs[..n], col, selection);
      if Field(vs[n], col) in selection {
        assert (front + [vs[n]])[..|front|] == front;
      } else {
        assert Keep(vs, col, selection) == front + [];
        assert front + [] == front;
        if front != [] {
          assert front[|front| - 1] in front;
          assert front[|front| - 1] != vs[n];
          assert vs[..n] == vs[..|vs| - 1];
        }
      }
    }
  }

  /** Adding an element at the end of the larger sequence keeps a subsequence one. */
  lemma {:induction false} SubsequenceOfFront<T>(a: seq<T>, b: seq<T>)
    requires b != [] && Subsequence(a, b[..|b| - 1])
    ensures Subsequence(a, b)
    decreases |b|, 0
  {
    if a != [] && a[|a| - 1] == b[|b| - 1] {
      SubsequenceDropLast(a, b[..|b| - 1]);
    }
  }

  lemma {:induction false} SubsequenceDropLast<T>(a: seq<T>, b: seq<T>)
    requires a != [] && Subsequence(a, b)
    ensures Subsequence(a[..|a| - 1], b)
    decreases |b|, 1
  {
    var n := |a| - 1;
    var m := |b| - 1;
    if a[n] != b[m] {
      SubsequenceDropLast(a, b[..m]);
    }
    SubsequenceOfFront(a[..n], b);
  }

  lemma {:induction false} SubsequenceTrans<T>(a: seq<T>, b: seq<T>, c: seq<T>)
    requires Subsequence(a, b) && Subsequence(b, c)
    ensures Subsequence(a, c)
    decreases |c|
  {
    if a != [] {
      var m := |c| - 1;
      if b[|b| - 1] == c[m] {
        if a[|a| - 1] == b[|b| - 1] {
          SubsequenceTrans(a[..|a| - 1], b[..|b| - 1], c[..m]);
        } else {
          SubsequenceTrans(a, b[..|b| - 1], c[..m]);
          SubsequenceOfFront(a, c);
        }
      } else {
        SubsequenceTrans(a, b, c[..m]);
        SubsequenceOfFront(a, c);
      }
    }
  }

  /** The audit trail after the strand filter and then the type filter; an empty selection filters nothing. */
  function AuditView(vs: seq<Ledger.TxnView>, strands: seq<string>, types: seq<string>): seq<Ledger.TxnView>
  {
    var byStrand := if strands == [] then vs else Keep(vs, StrandColumn, strands);
    if types == [] then byStrand else Keep(byStrand, TypeColumn, types)
  }

  /**
   * A row is shown exactly when its strand and its type are selected (an empty selection
   * selecting everything); what is shown keeps the ledger's order.
   */
  lemma AuditViewRows(vs: seq<Ledger.TxnView>, strands: seq<string>, types: seq<string>)
    ensures forall x :: x in AuditView(vs, strands, types) <==>
      x in vs && (strands == [] || x.strand in strands) && (types == [] || x.txnType in types)
    ensures Subsequence(AuditView(vs, strands, types), vs)
    ensures strands == [] && types == [] ==> AuditView(vs, strands, types) == vs
  {
    var byStrand := if strands == [] then vs else Keep(vs, StrandColumn, strands);
    SubsequenceRefl(vs);
    if strands != [] {
      KeepIsSubsequence(vs, StrandColumn, strands);
    }
    if types != [] {
      KeepIsSubsequence(byStrand, TypeColumn, types);
      SubsequenceTrans(Keep(byStrand, TypeColumn, types), byStrand, vs);
    }
  }

  lemma {:induction false} SubsequenceRefl<T>(a: seq<T>)
    ensures Subsequence(a, a)
  {
    if a != [] {
      SubsequenceRefl(a[..|a| - 1]);
    }
  }

  /** One `isin` filter, row by row. */
  method KeepRows(vs: seq<Ledger.TxnView>, col: Column, selection: seq<string>) returns (r: seq<Ledger.TxnView>)
    ensures r == Keep(vs, col, selection)
  {
    r := [];
    var i := 0;
    while i < |vs|
      invariant 0 <= i <= |vs|
      invariant r == Keep(vs[..i], col, selection)
    {
      assert vs[..i + 1][..i] == vs[..i];
      if Field(vs[i], col) in selection {
        r := r + [vs[i]];
      }
      i := i + 1;
    }
    assert vs[..i] == vs;
  }

  /** `audit_trail_page`: `filtered_df` rebound by each non-empty selection in turn. */
  method AuditFilter(df: seq<Ledger.TxnView>, strands: seq<string>, types: seq<string>) returns (filtered: seq<Ledger.TxnView>)
    ensures filtered == AuditView(df, strands, types)
  {
    filtered := df;
    if strands != [] {
      filtered := KeepRows(filtered, StrandColumn, strands);
    }
    if types != [] {
      filtered := KeepRows(filtered, TypeColumn, types);
    }
  }

  // ---------------------------------------------------------------- menu and verification

  const BaseMenu: seq<string> := ["Dashboard", "Audit Trail", "Verification"]

  /** `main`'s sidebar: "New Transaction" is inserted at index 1 for staff and admin only. */
  method NavigationOptions(role: string) returns (options: seq<string>)
    ensures "New Transaction" in options <==> role == "staff" || role == "admin"
    ensures "New Transaction" in options ==>
      |options| == 4 && options[1] == "New Transaction" && options[..1] + options[2..] == BaseMenu
    ensures "New Transaction" !in options ==> options == BaseMenu
  {
    options := BaseMenu;
    if role in ["staff", "admin"] {
      options := options[..1] + ["New Transaction"] + options[1..];
    }
  }

  /** The integrity page's answer. */
  datatype VerifyReport = Valid(id: int, createdAt: string, amount: int, description: string) | Invalid(message: string)

  /** `FinanceDB.verify_transaction`: an id no row has is reported invalid, not raised. */
  function VerifyRecord(t: Ledger.TransactionTable, id: int): (r: VerifyReport)
    reads t
    ensures r.Invalid? <==> forall i :: 0 <= i < |t.rows| ==> t.rows[i].id != id
    ensures r.Invalid? ==> r.message == "Transaction ID not found."
    ensures r.Valid? ==> r.id == id && t.Verify(id) == Ok(Ledger.VerifyView(id, r.createdAt, r.amount))
    ensures r.Valid? ==> exists x :: x in t.rows && x.id == id && r == Valid(x.id, x.createdAt, x.amount, x.description)
  {
    match Ledger.Find(t.rows, id)
    case None => Invalid("Transaction ID not found.")
    case Some(x) => Valid(x.id, x.createdAt, x.amount, x.description)
  }
}

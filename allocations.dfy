/**
 * Financial allocations (app/routers/allocations.py): a table of named budget buckets, each
 * with an amount in cents, listed in id order with a running total; admins create, rename,
 * re-amount and delete buckets.
 */
module Allocations {
  import opened Common
  import Access

  /** A row of `financial_allocations`. */
  datatype Allocation = Allocation(id: int, name: string, amount: int)

  /** The GET response: the items and their summed amount (`total_tuition`). */
  datatype Listing = Listing(items: seq<Allocation>, totalCents: int)

  function Total(rows: seq<Allocation>): int
  {
    if rows == [] then 0 else Total(rows[..|rows| - 1]) + rows[|rows| - 1].amount
  }

  predicate Ascending(rows: seq<Allocation>)
  {
    forall i, j :: 0 <= i < j < |rows| ==> rows[i].id < rows[j].id
  }

  /** The row with the given id, if any. */
  function Lookup(rows: seq<Allocation>, id: int): (found: Option<Allocation>)
    ensures found.Some? ==> found.value in rows && found.value.id == id
    ensures found.None? <==> forall i :: 0 <= i < |rows| ==> rows[i].id != id
  {
    if rows == [] then None
    else if rows[|rows| - 1].id == id then Some(rows[|rows| - 1])
    else Lookup(rows[..|rows| - 1], id)
  }

  /** `UPDATE ... SET name, amount WHERE id = item_id`. */
  function Updated(rows: seq<Allocation>, id: int, name: string, amount: int): (r: seq<Allocation>)
    ensures |r| == |rows|
    ensures forall i :: 0 <= i < |r| ==>
      r[i] == (if rows[i].id == id then Allocation(id, name, amount) else rows[i])
  {
    if rows == [] then []
    else
      var n := |rows| - 1;
      Updated(rows[..n], id, name, amount) + [if rows[n].id == id then Allocation(id, name, amount) else rows[n]]
  }

  /** `DELETE ... WHERE id = item_id`: every other row stays, in order. */
  function Removed(rows: seq<Allocation>, id: int): (r: seq<Allocation>)
    ensures |r| <= |rows|
  {
    if rows == [] then []
    else
      var n := |rows| - 1;
      Removed(rows[..n], id) + (if rows[n].id == id then [] else [rows[n]])
  }

  /** Exactly the rows with another id survive a delete. */
  lemma {:induction false} RemovedMembers(rows: seq<Allocation>, id: int)
    ensures forall x :: x in Removed(rows, id) <==> x in rows && x.id != id
  {
    if rows != [] {
      var n := |rows| - 1;
      RemovedMembers(rows[..n], id);
      assert rows == rows[..n] + [rows[n]];
    }
  }

  /** Re-amounting one bucket moves the total by the difference; an unknown id changes nothing. */
  lemma {:induction false} UpdatedTotal(rows: seq<Allocation>, id: int, name: string, amount: int)
    requires Ascending(rows)
    ensures Lookup(rows, id).None? ==> Updated(rows, id, name, amount) == rows
    ensures Total(Updated(rows, id, name, amount))
         == Total(rows) + (if Lookup(rows, id).Some? then amount - Lookup(rows, id).value.amount else 0)
  {
    if rows != [] {
      var n := |rows| - 1;
      var u := Updated(rows, id, name, amount);
      assert u[..n] == Updated(rows[..n], id, name, amount);
      UpdatedTotal(rows[..n], id, name, amount);
      if rows[n].id == id {
        assert Lookup(rows[..n], id).None?;
      }
      if Lookup(rows, id).None? {
        assert u == u[..n] + [u[n]];
      }
    }
  }

  /** Deleting a bucket keeps the remaining rows in id order. */
  lemma {:induction false} RemovedAscending(rows: seq<Allocation>, id: int)
    requires Ascending(rows)
    ensures Ascending(Removed(rows, id))
  {
    if rows != [] {
      var n := |rows| - 1;
      RemovedAscending(rows[..n], id);
      RemovedMembers(rows[..n], id);
      var front := Removed(rows[..n], id);
      forall i | 0 <= i < |front| ensures front[i].id < rows[n].id {
        assert front[i] in rows[..n];
      }
      if rows[n].id == id {
        assert Removed(rows, id) == front + [];
      } else {
        assert Removed(rows, id) == front + [rows[n]];
      }
    }
  }

  /** Deleting a bucket takes its amount out of the total. */
  lemma {:induction false} RemovedTotal(rows: seq<Allocation>, id: int)
    requires Ascending(rows)
    ensures Total(Removed(rows, id)) == Total(rows) - (if Lookup(rows, id).Some? then Lookup(rows, id).value.amount else 0)
  {
    if rows != [] {
      var n := |rows| - 1;
      RemovedTotal(rows[..n], id);
      var front := Removed(rows[..n], id);
      if rows[n].id == id {
        assert Lookup(rows[..n], id).None?;
        assert Removed(rows, id) == front + [];
        assert front + [] == front;
      } else {
        assert (front + [rows[n]])[..|front|] == front;
      }
    }
  }

  /** The `financial_allocations` table and its auto-increment counter. */
  class AllocationTable {
    var rows: seq<Allocation>
    var nextId: int

    ghost predicate Valid()
      reads this
    {
      && Ascending(rows)
      && (forall i :: 0 <= i < |rows| ==> rows[i].id < nextId)
    }

    constructor ()
      ensures Valid() && rows == []
    {
      rows, nextId := [], 1;
    }

    /**
     * `get_allocations`: every row in ascending id order and the sum of their amounts; a table
     * that cannot be read lists nothing and totals 0.
     */
    method GetAllocations(readable: bool) returns (l: Listing)
      requires Valid()
      ensures readable ==> l.items == rows && l.totalCents == Total(rows)
      ensures !readable ==> l == Listing([], 0)
      ensures forall i, j :: 0 <= i < j < |l.items| ==> l.items[i].id < l.items[j].id
    {
      if !readable {
        return Listing([], 0);
      }
      var items: seq<Allocation> := [];
      var total := 0;
      var i := 0;
      while i < |rows|
        invariant 0 <= i <= |rows|
        invariant items == rows[..i]
        invariant total == Total(rows[..i])
      {
        assert rows[..i + 1][..i] == rows[..i];
        items := items + [rows[i]];
        total := total + rows[i].amount;
        i := i + 1;
      }
      assert rows[..i] == rows;
      l := Listing(items, total);
    }

    /** `create_allocation`: admin only; appends a row under a fresh id and returns it. */
    method Create(role: Access.RoleLookup, username: string, name: string, amount: int) returns (r: Result<Allocation>)
      requires Valid()
      modifies this
      ensures Valid()
      ensures Access.EnsureAdmin(role, username).Err? ==> r == Err(Forbidden) && unchanged(this)
      ensures Access.EnsureAdmin(role, username).Ok? ==>
        && r == Ok(Allocation(old(nextId), name, amount))
        && rows == old(rows) + [r.value]
        && (forall i :: 0 <= i < |old(rows)| ==> old(rows)[i].id < r.value.id)
        && Total(rows) == Total(old(rows)) + amount
        && nextId == old(nextId) + 1
    {
      if Access.EnsureAdmin(role, username).Err? {
        return Err(Forbidden);
      }
      var row := Allocation(nextId, name, amount);
      assert (rows + [row])[..|rows|] == rows;
      rows := rows + [row];
      nextId := nextId + 1;
      r := Ok(row);
    }

    /**
     * `update_allocation`: admin only; sets name and amount of the row with `itemId`, and
     * echoes the request whether or not such a row exists.
     */
    method Update(role: Access.RoleLookup, username: string, itemId: int, name: string, amount: int)
      returns (r: Result<Allocation>)
      requires Valid()
      modifies this
      ensures Valid()
      ensures Access.EnsureAdmin(role, username).Err? ==> r == Err(Forbidden) && unchanged(this)
      ensures Access.EnsureAdmin(role, username).Ok? ==>
        && r == Ok(Allocation(itemId, name, amount))
        && rows == Updated(old(rows), itemId, name, amount)
        && nextId == old(nextId)
    {
      if Access.EnsureAdmin(role, username).Err? {
        return Err(Forbidden);
      }
      rows := Updated(rows, itemId, name, amount);
      r := Ok(Allocation(itemId, name, amount));
    }

    /** `delete_allocation`: admin only; removes the row with `itemId`, if there is one. */
    method Delete(role: Access.RoleLookup, username: string, itemId: int) returns (r: Result<string>)
      requires Valid()
      modifies this
      ensures Valid()
      ensures Access.EnsureAdmin(role, username).Err? ==> r == Err(Forbidden) && unchanged(this)
      ensures Access.EnsureAdmin(role, username).Ok? ==>
        && r == Ok("Allocation deleted successfully")
        && rows == Removed(old(rows), itemId)
        && nextId == old(nextId)
    {
      if Access.EnsureAdmin(role, username).Err? {
        return Err(Forbidden);
      }
      RemovedAscending(rows, itemId);
      RemovedMembers(rows, itemId);
      rows := Removed(rows, itemId);
      r := Ok("Allocation deleted successfully");
    }

    // As written, each handler calls `ensure_admin` inside its `try`, and the `except Exception`
    // turns the 403 it raises into a 500 (allocations.py:89-91, 121-123, 140-142).

    /** `create_allocation` as written: a refused caller gets 500 and nothing is inserted. */
    method CreateAsWritten(role: Access.RoleLookup, username: string, name: string, amount: int) returns (r: Result<Allocation>)
      requires Valid()
      modifies this
      ensures Valid()
      ensures Access.EnsureAdmin(role, username).Err? ==> r == Err(ServerError) && unchanged(this)
      ensures Access.EnsureAdmin(role, username).Ok? ==>
        && r == Ok(Allocation(old(nextId), name, amount))
        && rows == old(rows) + [r.value]
        && nextId == old(nextId) + 1
    {
      var intended := Create(role, username, name, amount);
      r := Caught(intended);
    }

    /** `update_allocation` as written: a refused caller gets 500 and nothing is written. */
    method UpdateAsWritten(role: Access.RoleLookup, username: string, itemId: int, name: string, amount: int)
      returns (r: Result<Allocation>)
      requires Valid()
      modifies this
      ensures Valid()
      ensures Access.EnsureAdmin(role, username).Err? ==> r == Err(ServerError) && unchanged(this)
      ensures Access.EnsureAdmin(role, username).Ok? ==>
        && r == Ok(Allocation(itemId, name, amount))
        && rows == Updated(old(rows), itemId, name, amount)
        && nextId == old(nextId)
    {
      var intended := Update(role, username, itemId, name, amount);
      r := Caught(intended);
    }

    /** `delete_allocation` as written: a refused caller gets 500 and nothing is deleted. */
    method DeleteAsWritten(role: Access.RoleLookup, username: string, itemId: int) returns (r: Result<string>)
      requires Valid()
      modifies this
      ensures Valid()
      ensures Access.EnsureAdmin(role, username).Err? ==> r == Err(ServerError) && unchanged(this)
      ensures Access.EnsureAdmin(role, username).Ok? ==>
        && r == Ok("Allocation deleted successfully")
        && rows == Removed(old(rows), itemId)
        && nextId == old(nextId)
    {
      var intended := Delete(role, username, itemId);
      r := Caught(intended);
    }
  }
}

/**
 * The identity store: a SQLite table keyed by a text id, with a name and an
 * integer total that starts at 0, seen as a map from id to row.  The
 * three SQL statements the service issues are pure functions on that map,
 * and the class `Store` performs each as one atomic step that either fails
 * and changes nothing or succeeds and returns the statement's result rows.
 */
module Users {

  /** A row of the table, and the record handed to the templates. */
  datatype Data = Data(id: string, name: string, total: int)

  /** Go's zero value of Data: what a handler renders when no row came back. */
  const Zero: Data := Data("", "", 0)

  type Table = map<string, Data>

  /** The primary key is the row's id, and totals never go below zero. */
  ghost predicate WellFormed(users: Table) {
    forall id :: id in users ==> users[id].id == id && users[id].total >= 0
  }

  /** The row for `id`, or the zero record when there is none. */
  function Find(users: Table, id: string): (d: Data)
    ensures id in users ==> d == users[id]
    ensures id !in users ==> d == Zero
  {
    if id in users then users[id] else Zero
  }

  /**
   * The name upsert: a new id gets the row (id, name, 0), and an existing id
   * changes only its name.
   */
  function Upserted(users: Table, id: string, name: string): (users': Table)
    ensures users'.Keys == users.Keys + {id}
    ensures id !in users ==> users'[id] == Data(id, name, 0)
    ensures id in users ==> users'[id].name == name && users'[id].id == users[id].id
                            && users'[id].total == users[id].total
    ensures forall k :: k in users && k != id ==> users'[k] == users[k]
  {
    users[id := if id in users then users[id].(name := name) else Data(id, name, 0)]
  }

  /** The counter update: the row of `id`, if there is one, gains one on its total. */
  function Incremented(users: Table, id: string): (users': Table)
    ensures users'.Keys == users.Keys
    ensures id in users ==> users'[id].total == users[id].total + 1
                            && users'[id].id == users[id].id && users'[id].name == users[id].name
    ensures id !in users ==> users' == users
    ensures forall k :: k in users && k != id ==> users'[k] == users[k]
  {
    if id in users then users[id := users[id].(total := users[id].total + 1)] else users
  }

  /** The rows a statement returns for `id`: its row, or none. */
  function RowsFor(users: Table, id: string): (rows: seq<Data>)
    ensures |rows| <= 1
    ensures rows != [] <==> id in users
    ensures rows != [] ==> rows[0] == users[id]
  {
    if id in users then [users[id]] else []
  }

  /** `n` increments of the same id, one after the other. */
  function IncrementedTimes(users: Table, id: string, n: nat): (users': Table)
  {
    if n == 0 then users else Incremented(IncrementedTimes(users, id, n - 1), id)
  }

  lemma WellFormedUpserted(users: Table, id: string, name: string)
    requires WellFormed(users)
    ensures WellFormed(Upserted(users, id, name))
  {
  }

  lemma WellFormedIncremented(users: Table, id: string)
    requires WellFormed(users)
    ensures WellFormed(Incremented(users, id))
  {
  }

  /** Setting the same name twice leaves the table as setting it once. */
  lemma UpsertIdempotent(users: Table, id: string, name: string)
    ensures Upserted(Upserted(users, id, name), id, name) == Upserted(users, id, name)
  {
  }

  /** n sequential increments of an existing row add exactly n and touch nothing else. */
  lemma {:induction false} IncrementedTimesAdds(users: Table, id: string, n: nat)
    requires id in users
    ensures IncrementedTimes(users, id, n).Keys == users.Keys
    ensures IncrementedTimes(users, id, n)[id] == users[id].(total := users[id].total + n)
    ensures forall k :: k in users && k != id ==> IncrementedTimes(users, id, n)[k] == users[k]
  {
    if n > 0 {
      IncrementedTimesAdds(users, id, n - 1);
    }
  }

  /** Increments of a missing id, however many, change nothing. */
  lemma {:induction false} IncrementedTimesMissing(users: Table, id: string, n: nat)
    requires id !in users
    ensures IncrementedTimes(users, id, n) == users
  {
    if n > 0 {
      IncrementedTimesMissing(users, id, n - 1);
    }
  }

  /** Increments commute, so any serial order of them gives the same table. */
  lemma IncrementsCommute(users: Table, a: string, b: string)
    ensures Incremented(Incremented(users, a), b) == Incremented(Incremented(users, b), a)
  {
  }

  /** On an existing row, renaming and counting touch different columns and commute. */
  lemma UpsertIncrementCommute(users: Table, id: string, name: string)
    requires id in users
    ensures Upserted(Incremented(users, id), id, name) == Incremented(Upserted(users, id, name), id)
  {
  }

  /**
   * The loop that reads a statement's result rows: starting from the zero
   * record, every row overwrites `data`, so the last row wins.
   */
  method ScanRows(rows: seq<Data>) returns (data: Data)
    ensures rows == [] ==> data == Zero
    ensures rows != [] ==> data == rows[|rows| - 1]
  {
    data := Zero;
    var i := 0;
    while i < |rows|
      invariant 0 <= i <= |rows|
      invariant i == 0 ==> data == Zero
      invariant i > 0 ==> data == rows[i - 1]
    {
      data := rows[i];
      i := i + 1;
    }
  }

  /**
   * The database handle.  Every statement is atomic: it may fail, and then
   * it changes nothing (`failed`), or it applies in full.
   */
  class Store {
    var users: Table

    ghost predicate Valid()
      reads this
    {
      WellFormed(users)
    }

    /** A freshly created table. */
    constructor ()
      ensures Valid() && users == map[]
    {
      users := map[];
    }

    method UpsertName(id: string, name: string) returns (failed: bool, rows: seq<Data>)
      requires Valid()
      modifies this
      ensures Valid()
      ensures failed ==> users == old(users) && rows == []
      ensures !failed ==> users == Upserted(old(users), id, name) && rows == [users[id]]
    {
      failed :| true;
      if failed {
        rows := [];
      } else {
        WellFormedUpserted(users, id, name);
        users := Upserted(users, id, name);
        rows := [users[id]];
      }
    }

    method IncrementTotal(id: string) returns (failed: bool, rows: seq<Data>)
      requires Valid()
      modifies this
      ensures Valid()
      ensures failed ==> users == old(users) && rows == []
      ensures !failed ==> users == Incremented(old(users), id) && rows == RowsFor(users, id)
    {
      failed :| true;
      if failed {
        rows := [];
      } else {
        WellFormedIncremented(users, id);
        users := Incremented(users, id);
        rows := RowsFor(users, id);
      }
    }

    /** The page read: looks up the row of `id` without changing the table. */
    method SelectById(id: string) returns (failed: bool, rows: seq<Data>)
      ensures failed ==> rows == []
      ensures !failed ==> rows == RowsFor(users, id)
    {
      failed :| true;
      rows := if failed then [] else RowsFor(users, id);
    }
  }
}

/**
 * The `users` table as the authentication code sees it: a sequence of rows
 * reached through two calls, an insert that the table's unique constraints
 * may refuse, and a filtered select that must return exactly one row
 * (`.eq(column, value).single()`). Any call may also fail for reasons of
 * its own (network, permissions); that fault is passed in by the caller.
 */
module UsersStore {
  import opened Wrappers

  /** A stored user, password hash included (the columns signIn selects). */
  datatype UserRow = UserRow(
    id: string,
    name: string,
    email: string,
    password: string,
    isAdmin: bool,
    profilePic: Option<string>,
    createdAt: string,
    updatedAt: string)

  /** An error reported by the store: a Postgres/PostgREST code and a message. */
  datatype StoreError = StoreError(code: string, message: string)

  /** The Postgres code for a unique-constraint violation. */
  const UniqueViolation := "23505"

  /** The message the store attaches to a unique-constraint violation. */
  const UniqueViolationMessage := "duplicate key value violates unique constraint"

  /** The columns the core filters on. */
  datatype Column = Id | Email

  function Field(row: UserRow, col: Column): string {
    match col
    case Id => row.id
    case Email => row.email
  }

  /** The rows whose `col` equals `value`, in table order (`.eq(col, value)`). */
  function Where(rows: seq<UserRow>, col: Column, value: string): (r: seq<UserRow>)
    ensures |r| <= |rows|
    ensures forall x :: x in r <==> x in rows && Field(x, col) == value
    ensures (forall x :: x in rows ==> Field(x, col) != value) ==> r == []
  {
    if rows == [] then []
    else if Field(rows[0], col) == value then [rows[0]] + Where(rows[1..], col, value)
    else Where(rows[1..], col, value)
  }

  /** The answer to `.select(...).eq(col, value).single()`. */
  datatype Lookup = Found(row: UserRow) | NoSingleRow | Failed(error: StoreError)

  /**
   * `.single()` yields a row only when exactly one row matches; zero or
   * several matches are an error, as is a fault of the call itself.
   */
  function SelectSingle(rows: seq<UserRow>, col: Column, value: string, fault: Option<StoreError>): (r: Lookup)
    ensures fault.Some? ==> r == Failed(fault.value)
    ensures r.Found? ==> r.row in rows && Field(r.row, col) == value
    ensures fault.None? && (forall x :: x in rows ==> Field(x, col) != value) ==> r == NoSingleRow
  {
    if fault.Some? then Failed(fault.value)
    else
      var matches := Where(rows, col, value);
      if |matches| == 1 then Found(matches[0]) else NoSingleRow
  }

  /** The table's two unique constraints: primary key `id` and `email`. */
  ghost predicate Unique(rows: seq<UserRow>) {
    forall i, j :: 0 <= i < j < |rows| ==> rows[i].id != rows[j].id && rows[i].email != rows[j].email
  }

  /** `row` would violate a unique constraint of `rows`. */
  predicate Collides(rows: seq<UserRow>, row: UserRow) {
    exists i :: 0 <= i < |rows| && (rows[i].id == row.id || rows[i].email == row.email)
  }

  /**
   * `.insert(row).select().single()`: a fault, a unique violation, or the
   * table with `row` appended and the inserted row handed back.
   */
  function Insert(rows: seq<UserRow>, row: UserRow, fault: Option<StoreError>): (r: Result<seq<UserRow>, StoreError>)
    ensures fault.Some? ==> r == Failure(fault.value)
    ensures fault.None? ==> (r.Success? <==> !Collides(rows, row))
    ensures r.Failure? && fault.None? ==> r.error.code == UniqueViolation
    ensures r.Success? ==> r.value == rows + [row] && row in r.value
  {
    if fault.Some? then Failure(fault.value)
    else if Collides(rows, row) then Failure(StoreError(UniqueViolation, UniqueViolationMessage))
    else Success(rows + [row])
  }

  /** An insert that the constraints admit keeps both columns unique. */
  lemma InsertKeepsUnique(rows: seq<UserRow>, row: UserRow, fault: Option<StoreError>)
    requires Unique(rows)
    requires Insert(rows, row, fault).Success?
    ensures Unique(Insert(rows, row, fault).value)
  {
    var s := rows + [row];
    forall i, j | 0 <= i < j < |s|
      ensures s[i].id != s[j].id && s[i].email != s[j].email
    {
      if j == |rows| {
        assert s[i] == rows[i];
      }
    }
  }

  /** In a table with unique keys, filtering on a stored row's key finds that row alone. */
  lemma {:induction false} WhereUnique(rows: seq<UserRow>, col: Column, x: UserRow)
    requires Unique(rows)
    requires x in rows
    ensures Where(rows, col, Field(x, col)) == [x]
  {
    if rows[0] == x {
      forall y | y in rows[1..]
        ensures Field(y, col) != Field(x, col)
      {
        var k :| 0 <= k < |rows[1..]| && rows[1..][k] == y;
        assert rows[k + 1] == y;
      }
    } else {
      assert Unique(rows[1..]) by {
        forall i, j | 0 <= i < j < |rows[1..]|
          ensures rows[1..][i].id != rows[1..][j].id && rows[1..][i].email != rows[1..][j].email
        {
          assert rows[1..][i] == rows[i + 1] && rows[1..][j] == rows[j + 1];
        }
      }
      assert x in rows[1..];
      WhereUnique(rows[1..], col, x);
      var k :| 0 <= k < |rows[1..]| && rows[1..][k] == x;
      assert rows[0].id != rows[k + 1].id && rows[0].email != rows[k + 1].email;
    }
  }

  /** With unique keys and no fault, `.single()` on a stored row's key returns that row. */
  lemma SelectFindsStored(rows: seq<UserRow>, col: Column, x: UserRow)
    requires Unique(rows)
    requires x in rows
    ensures SelectSingle(rows, col, Field(x, col), None) == Found(x)
  {
    WhereUnique(rows, col, x);
  }

  /** A second registration with an email already in the table is a unique violation. */
  lemma DuplicateEmailRefused(rows: seq<UserRow>, first: UserRow, second: UserRow)
    requires Insert(rows, first, None).Success?
    requires second.email == first.email
    ensures Insert(Insert(rows, first, None).value, second, None) ==
              Failure(StoreError(UniqueViolation, UniqueViolationMessage))
  {
    var s := rows + [first];
    assert s[|rows|] == first;
  }
}

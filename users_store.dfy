/**
 * The `users` table as the front ends see it: rows keyed by the auth user's
 * id, kept newest first (`created_at` descending, the order the users page
 * reads them in, so a new row goes to the front), with a primary-key check that answers a duplicate insert with error code
 * 23505. Any other refusal of the backend (row-level security, network) is an
 * explicit input of each operation.
 */
module UsersStore {
  import opened Common

  datatype UserRow = UserRow(id: string, fullName: Option<string>, email: Option<string>, role: string)

  datatype DbError = DbError(code: string, message: string)

  /** PostgreSQL's unique-violation code. */
  const DuplicateKeyCode: string := "23505"

  /** The error an insert with a taken id gets: the primary-key violation. */
  const DuplicateUser: DbError := DbError(DuplicateKeyCode, "duplicate key value violates unique constraint \"users_pkey\"")

  predicate HasId(rows: seq<UserRow>, id: string) {
    exists i :: 0 <= i < |rows| && rows[i].id == id
  }

  ghost predicate UniqueIds(rows: seq<UserRow>) {
    forall i, j :: 0 <= i < j < |rows| ==> rows[i].id != rows[j].id
  }

  /** `update({ role }).eq('id', id)`: every row with that id gets the new role. */
  function SetRole(rows: seq<UserRow>, id: string, role: string): (r: seq<UserRow>)
    ensures |r| == |rows|
    ensures forall i :: 0 <= i < |rows| ==>
      r[i] == if rows[i].id == id then rows[i].(role := role) else rows[i]
  {
    seq(|rows|, i requires 0 <= i < |rows| => if rows[i].id == id then rows[i].(role := role) else rows[i])
  }

  /** `delete().eq('id', id)`. */
  function WithoutId(rows: seq<UserRow>, id: string): seq<UserRow> {
    Filter(rows, (u: UserRow) => u.id != id)
  }

  /** A role update keeps ids, names and emails, touches only the addressed row, and keeps ids unique. */
  lemma SetRoleOnlyRole(rows: seq<UserRow>, id: string, role: string)
    requires UniqueIds(rows)
    ensures UniqueIds(SetRole(rows, id, role))
    ensures forall i :: 0 <= i < |rows| ==>
      var after := SetRole(rows, id, role)[i];
      after.id == rows[i].id && after.fullName == rows[i].fullName && after.email == rows[i].email
    ensures forall i :: 0 <= i < |rows| && rows[i].id == id ==> SetRole(rows, id, role)[i].role == role
  {
  }

  /** A delete removes exactly the rows with that id and keeps the rest in order. */
  lemma WithoutIdSpec(rows: seq<UserRow>, id: string)
    ensures !HasId(WithoutId(rows, id), id)
    ensures forall u :: u in rows && u.id != id ==> u in WithoutId(rows, id)
    ensures forall u :: u in WithoutId(rows, id) ==> u in rows
    ensures IsSubsequence(WithoutId(rows, id), rows)
  {
    FilterSpec(rows, (u: UserRow) => u.id != id);
    var r := WithoutId(rows, id);
    forall i | 0 <= i < |r| ensures r[i].id != id {
      assert r[i] in r;
    }
  }

  /** Adding a row whose id is new keeps ids unique. */
  lemma PrependKeepsUnique(rows: seq<UserRow>, row: UserRow)
    requires UniqueIds(rows) && !HasId(rows, row.id)
    ensures UniqueIds([row] + rows)
  {
    var r := [row] + rows;
    forall i, j | 0 <= i < j < |r| ensures r[i].id != r[j].id {
      assert r[j] == rows[j - 1];
      if i == 0 {
        assert rows[j - 1].id != row.id;
      } else {
        assert r[i] == rows[i - 1];
      }
    }
  }

  class UsersTable {
    var rows: seq<UserRow>

    ghost predicate Valid()
      reads this
    {
      UniqueIds(rows)
    }

    constructor (initial: seq<UserRow>)
      requires UniqueIds(initial)
      ensures Valid() && rows == initial
    {
      rows := initial;
    }

    /**
     * `insert(row)`: a duplicate id is refused with code 23505; otherwise the
     * backend may refuse with `refusal`; otherwise the row is stored as the
     * newest one.
     */
    method Insert(row: UserRow, refusal: Option<DbError>) returns (err: Option<DbError>)
      requires Valid()
      modifies this
      ensures Valid()
      ensures HasId(old(rows), row.id) ==> err == Some(DuplicateUser) && rows == old(rows)
      ensures !HasId(old(rows), row.id) && refusal.Some? ==> err == refusal && rows == old(rows)
      ensures !HasId(old(rows), row.id) && refusal.None? ==> err.None? && rows == [row] + old(rows)
    {
      if HasId(rows, row.id) {
        err := Some(DuplicateUser);
      } else if refusal.Some? {
        err := refusal;
      } else {
        PrependKeepsUnique(rows, row);
        rows := [row] + rows;
        err := None;
      }
    }

    /** `update({ role: newRole }).eq('id', id)`. */
    method UpdateRole(id: string, newRole: string, refusal: Option<DbError>) returns (err: Option<DbError>)
      requires Valid()
      modifies this
      ensures Valid() && err == refusal
      ensures rows == if refusal.None? then SetRole(old(rows), id, newRole) else old(rows)
    {
      err := refusal;
      if refusal.None? {
        SetRoleOnlyRole(rows, id, newRole);
        rows := SetRole(rows, id, newRole);
      }
    }

    /** `delete().eq('id', id)`. */
    method Delete(id: string, refusal: Option<DbError>) returns (err: Option<DbError>)
      requires Valid()
      modifies this
      ensures Valid() && err == refusal
      ensures rows == if refusal.None? then WithoutId(old(rows), id) else old(rows)
    {
      err := refusal;
      if refusal.None? {
        FilterSpec(rows, (u: UserRow) => u.id != id);
        SubsequenceUnique(WithoutId(rows, id), rows);
        rows := WithoutId(rows, id);
      }
    }
  }

  /** A subsequence of rows with unique ids has unique ids. */
  lemma {:induction false} SubsequenceUnique(r: seq<UserRow>, rows: seq<UserRow>)
    requires IsSubsequence(r, rows) && UniqueIds(rows)
    ensures UniqueIds(r)
    decreases |rows|
  {
    if r != [] && rows != [] {
      assert UniqueIds(rows[1..]) by {
        forall i, j | 0 <= i < j < |rows[1..]| ensures rows[1..][i].id != rows[1..][j].id {
          assert rows[1..][i] == rows[i + 1] && rows[1..][j] == rows[j + 1];
        }
      }
      if r[0] == rows[0] {
        SubsequenceUnique(r[1..], rows[1..]);
        SubsequenceMembers(r[1..], rows[1..]);
        forall i, j | 0 <= i < j < |r| ensures r[i].id != r[j].id {
          if i == 0 {
            assert r[j] == r[1..][j - 1];
            assert r[j] in rows[1..];
            var m :| 0 <= m < |rows[1..]| && rows[1..][m] == r[j];
            assert rows[m + 1] == r[j];
          } else {
            assert r[i] == r[1..][i - 1] && r[j] == r[1..][j - 1];
          }
        }
      } else {
        SubsequenceUnique(r, rows[1..]);
      }
    }
  }

}

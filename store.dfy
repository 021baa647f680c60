/**
 * The relational store behind both the Express backend and the browser client: a
 * `users` table and a `complaints` table keyed by id, and the ordered selection that
 * `ORDER BY created_at DESC` performs.
 */
module Store {
  import opened Wrappers
  import opened ComplaintTypes
  import opened Seqs

  type UserId = nat
  type ComplaintId = nat

  datatype Role = Student | Admin

  datatype UserRow = UserRow(
    id: UserId,
    name: string,
    email: string,
    role: Role,
    studentId: Option<string>,
    createdAt: int,
    updatedAt: int)

  /** A row of the `complaints` table; `adminNotes` is the nullable `admin_notes` column. */
  datatype ComplaintRow = ComplaintRow(
    id: ComplaintId,
    title: string,
    description: string,
    category: string,
    priority: Priority,
    status: Status,
    studentId: UserId,
    adminNotes: Option<string>,
    createdAt: int,
    updatedAt: int)

  /**
   * The tables' integrity: keys agree with the rows' ids, every complaint id is below the
   * next id the store will hand out, and every complaint belongs to an existing user
   * (the foreign key `complaints.student_id`).
   */
  predicate Consistent(users: map<UserId, UserRow>, complaints: map<ComplaintId, ComplaintRow>, nextId: ComplaintId) {
    && (forall u :: u in users ==> users[u].id == u)
    && (forall c :: c in complaints ==> complaints[c].id == c && c < nextId && complaints[c].studentId in users)
  }

  class Db {
    var users: map<UserId, UserRow>
    var complaints: map<ComplaintId, ComplaintRow>
    var nextId: ComplaintId

    predicate Valid()
      reads this
    {
      Consistent(users, complaints, nextId)
    }

    /** A store with the given users and no complaints yet. */
    constructor (users: map<UserId, UserRow>)
      requires forall u :: u in users ==> users[u].id == u
      ensures Valid()
      ensures this.users == users && complaints == map[] && nextId == 1
    {
      this.users := users;
      complaints := map[];
      nextId := 1;
    }
  }

  /** Rows ordered by creation time, newest first (ties in any order). */
  predicate NewestFirst(rows: seq<ComplaintRow>) {
    forall i, j :: 0 <= i < j < |rows| ==> rows[i].createdAt >= rows[j].createdAt
  }

  /** The rows of `table` that satisfy the `WHERE` condition `keep`. */
  function Selected(table: map<ComplaintId, ComplaintRow>, keep: ComplaintRow -> bool): (r: set<ComplaintRow>)
    ensures forall row :: row in r <==> row in table.Values && keep(row)
  {
    set id | id in table && keep(table[id]) :: table[id]
  }

  /** Places `row` among rows ordered newest first, after those at least as new. */
  function InsertNewest(rows: seq<ComplaintRow>, row: ComplaintRow): (r: seq<ComplaintRow>)
    requires NewestFirst(rows)
    ensures NewestFirst(r)
    ensures forall x :: x in r <==> x in rows || x == row
    ensures multiset(r) == multiset(rows) + multiset{row}
  {
    if rows == [] || rows[0].createdAt < row.createdAt then
      [row] + rows
    else
      var rest := InsertNewest(rows[1..], row);
      PrependNewest(rows[0], rest);
      assert rows == [rows[0]] + rows[1..];
      [rows[0]] + rest
  }

  /** A row at least as new as every row of an ordered list can go in front of it. */
  lemma PrependNewest(head: ComplaintRow, rows: seq<ComplaintRow>)
    requires NewestFirst(rows)
    requires forall x :: x in rows ==> x.createdAt <= head.createdAt
    ensures NewestFirst([head] + rows)
  {
    forall i, j | 0 <= i < j < |[head] + rows|
      ensures ([head] + rows)[i].createdAt >= ([head] + rows)[j].createdAt
    {
      if i == 0 {
        assert rows[j - 1] in rows;
      }
    }
  }

  /**
   * `SELECT … WHERE keep ORDER BY created_at DESC`: every selected row exactly once,
   * newest first. Rows created at the same time come in an unspecified order.
   */
  method SelectNewestFirst(table: map<ComplaintId, ComplaintRow>, keep: ComplaintRow -> bool)
    returns (rows: seq<ComplaintRow>)
    ensures NewestFirst(rows)
    ensures multiset(rows) == multiset(Selected(table, keep))
    ensures forall row :: row in rows <==> row in table.Values && keep(row)
    ensures NoRepeats(rows)
  {
    var todo := Selected(table, keep);
    ghost var done: set<ComplaintRow> := {};
    rows := [];
    while todo != {}
      invariant todo !! done && todo + done == Selected(table, keep)
      invariant NewestFirst(rows)
      invariant multiset(rows) == multiset(done)
      decreases |todo|
    {
      var row :| row in todo;
      rows := InsertNewest(rows, row);
      todo := todo - {row};
      done := done + {row};
    }
    NoRepeatsFromSet(rows, done);
    assert forall row :: row in rows <==> row in multiset(rows);
  }
}

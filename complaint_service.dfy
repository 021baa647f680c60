/**
 * The browser client's complaint service: inserts, selects and updates on the hosted
 * store, each joined with the owning user's name and mapped to a `Complaint` record.
 * The hosted store enforces the foreign key and the enumerated column types; it does not
 * trim or length-check anything.
 */
module ComplaintService {
  import opened Wrappers
  import opened ComplaintTypes
  import opened Store

  /** The errors the store client raises and the service re-throws. */
  datatype StoreError =
    | ForeignKeyViolation  // `student_id` names no user
    | InvalidEnum          // a value outside the column's enumerated type
    | NoSingleRow          // `.single()` on a statement that returned no row

  /** The argument of `createComplaint`. */
  datatype NewComplaint = NewComplaint(
    title: string,
    description: string,
    category: string,
    priority: Priority,
    studentId: UserId)

  /** `users?.name || 'Unknown'`: the joined user's name, or `Unknown` when there is no user or the name is empty. */
  function StudentName(users: map<UserId, UserRow>, owner: UserId): (name: string)
    ensures name != ""
    ensures owner in users && users[owner].name != "" ==> name == users[owner].name
    ensures owner !in users || users[owner].name == "" ==> name == "Unknown"
  {
    if owner in users && users[owner].name != "" then users[owner].name else "Unknown"
  }

  /** `admin_notes || undefined`: NULL and the empty string both become an absent field. */
  function Notes(stored: Option<string>): (notes: Option<string>)
    ensures notes != Some("")
    ensures notes.Some? <==> stored.Some? && stored.value != ""
    ensures notes.Some? ==> notes == stored
  {
    if stored.Some? && stored.value != "" then stored else None
  }

  /** The row-to-record mapping each of the four operations repeats. */
  function ToComplaint(row: ComplaintRow, users: map<UserId, UserRow>): (c: Complaint)
    ensures c.id == row.id && c.studentId == row.studentId
    ensures c.title == row.title && c.description == row.description && c.category == row.category
    ensures c.priority == row.priority && c.status == row.status
    ensures c.createdAt == row.createdAt && c.updatedAt == row.updatedAt
    ensures c.studentName == StudentName(users, row.studentId)
    ensures c.adminNotes == Notes(row.adminNotes)
  {
    Complaint(row.id, row.title, row.description, row.category, row.priority, row.status,
              row.studentId, StudentName(users, row.studentId), row.createdAt, row.updatedAt,
              Notes(row.adminNotes))
  }

  /**
   * The mapping forgets only one thing: two rows with the same record differ at most in
   * whether their notes are NULL or empty.
   */
  lemma {:induction false} ToComplaintForgetsOnlyEmptyNotes(a: ComplaintRow, b: ComplaintRow, users: map<UserId, UserRow>)
    requires ToComplaint(a, users) == ToComplaint(b, users)
    ensures a.(adminNotes := None) == b.(adminNotes := None)
    ensures a.adminNotes == b.adminNotes || {a.adminNotes, b.adminNotes} == {None, Some("")}
  {
    var ca, cb := ToComplaint(a, users), ToComplaint(b, users);
    assert ca.adminNotes == cb.adminNotes;
    if a.adminNotes != b.adminNotes {
      assert Notes(a.adminNotes) == None;
    }
  }

  /** Under the store's invariant a row in the table sits under its own id. */
  lemma RowsUnderTheirIds(db: Db)
    requires db.Valid()
    ensures forall row :: row in db.complaints.Values ==> row.id in db.complaints && db.complaints[row.id] == row
  {
    forall row | row in db.complaints.Values
      ensures row.id in db.complaints && db.complaints[row.id] == row
    {
      var k :| k in db.complaints && db.complaints[k] == row;
    }
  }

  /**
   * `select('*, users(name)')` with a `WHERE` condition, `order('created_at', descending)`
   * and the mapping of every row: each kept row once, newest first, joined with its
   * student's name. The join is a left join, so rows keep their place even without a name.
   */
  method SelectComplaints(db: Db, keep: ComplaintRow -> bool) returns (cs: seq<Complaint>)
    requires db.Valid()
    ensures forall i :: 0 <= i < |cs| ==>
      && cs[i].id in db.complaints
      && keep(db.complaints[cs[i].id])
      && cs[i] == ToComplaint(db.complaints[cs[i].id], db.users)
    ensures forall row :: row in db.complaints.Values && keep(row) ==> ToComplaint(row, db.users) in cs
    ensures forall i, j :: 0 <= i < j < |cs| ==> cs[i].createdAt >= cs[j].createdAt && cs[i].id != cs[j].id
  {
    var rows := SelectNewestFirst(db.complaints, keep);
    RowsUnderTheirIds(db);
    var users := db.users;
    cs := seq(|rows|, i requires 0 <= i < |rows| => ToComplaint(rows[i], users));
    assert forall i :: 0 <= i < |rows| ==> rows[i] in rows;
    forall row | row in db.complaints.Values && keep(row)
      ensures ToComplaint(row, db.users) in cs
    {
      var i :| 0 <= i < |rows| && rows[i] == row;
      assert cs[i] == ToComplaint(row, db.users);
    }
  }

  /**
   * `createComplaint`: one row inserted with the supplied fields copied unchanged and the
   * status forced to `pending`, whatever the caller wanted; an unknown student breaks the
   * foreign key and nothing is written.
   */
  method CreateComplaint(db: Db, req: NewComplaint, now: int) returns (r: Result<Complaint, StoreError>)
    requires db.Valid()
    modifies db
    ensures db.Valid()
    ensures req.studentId !in old(db.users) ==> r == Failure(ForeignKeyViolation) && unchanged(db)
    ensures req.studentId in old(db.users) ==>
      var row := ComplaintRow(old(db.nextId), req.title, req.description, req.category, req.priority,
                              Pending, req.studentId, None, now, now);
      && row.id !in old(db.complaints)
      && db.complaints == old(db.complaints)[row.id := row]
      && db.users == old(db.users) && db.nextId == old(db.nextId) + 1
      && r == Success(ToComplaint(row, db.users))
    ensures r.Success? ==>
      && r.value.status == Pending && r.value.studentId == req.studentId
      && r.value.title == req.title && r.value.description == req.description
      && r.value.category == req.category && r.value.priority == req.priority
      && r.value.adminNotes == None
  {
    if req.studentId !in db.users {
      return Failure(ForeignKeyViolation);
    }
    var row := ComplaintRow(db.nextId, req.title, req.description, req.category, req.priority,
                            Pending, req.studentId, None, now, now);
    db.complaints := db.complaints[row.id := row];
    db.nextId := db.nextId + 1;
    r := Success(ToComplaint(row, db.users));
  }

  /** `getComplaintsByStudent`: that student's complaints and no others, each once, newest first. */
  method GetComplaintsByStudent(db: Db, studentId: UserId) returns (cs: seq<Complaint>)
    requires db.Valid()
    ensures forall i :: 0 <= i < |cs| ==>
      && cs[i].studentId == studentId
      && cs[i].id in db.complaints
      && cs[i] == ToComplaint(db.complaints[cs[i].id], db.users)
    ensures forall row :: row in db.complaints.Values && row.studentId == studentId ==> ToComplaint(row, db.users) in cs
    ensures forall i, j :: 0 <= i < j < |cs| ==> cs[i].createdAt >= cs[j].createdAt && cs[i].id != cs[j].id
  {
    cs := SelectComplaints(db, (row: ComplaintRow) => row.studentId == studentId);
  }

  /** `getAllComplaints`: every complaint once, newest first. */
  method GetAllComplaints(db: Db) returns (cs: seq<Complaint>)
    requires db.Valid()
    ensures forall i :: 0 <= i < |cs| ==>
      cs[i].id in db.complaints && cs[i] == ToComplaint(db.complaints[cs[i].id], db.users)
    ensures forall row :: row in db.complaints.Values ==> ToComplaint(row, db.users) in cs
    ensures forall i, j :: 0 <= i < j < |cs| ==> cs[i].createdAt >= cs[j].createdAt && cs[i].id != cs[j].id
  {
    cs := SelectComplaints(db, (row: ComplaintRow) => true);
  }

  /**
   * `updateComplaintStatus`: the row with that id takes the status, the notes and the
   * update time; notes left undefined are dropped from the update and keep their stored
   * value. The status arrives as text (the admin dashboard casts it): one outside the
   * column's enumerated type is refused, and no matching row makes `.single()` fail; in
   * both cases nothing is written.
   */
  method UpdateComplaintStatus(db: Db, id: ComplaintId, status: string, notes: Option<string>, now: int)
    returns (r: Result<Complaint, StoreError>)
    requires db.Valid()
    modifies db
    ensures db.Valid()
    ensures ParseStatus(status).None? ==> r == Failure(InvalidEnum) && unchanged(db)
    ensures ParseStatus(status).Some? && id !in old(db.complaints) ==> r == Failure(NoSingleRow) && unchanged(db)
    ensures ParseStatus(status).Some? && id in old(db.complaints) ==>
      var before := old(db.complaints)[id];
      var row := before.(status := ParseStatus(status).value,
                         adminNotes := if notes.Some? then notes else before.adminNotes, updatedAt := now);
      && db.complaints == old(db.complaints)[id := row]
      && db.users == old(db.users) && db.nextId == old(db.nextId)
      && r == Success(ToComplaint(row, db.users))
    ensures r.Success? ==> r.value.id == id && StatusValue(r.value.status) == status
    ensures r.Success? && notes.Some? ==> r.value.adminNotes == Notes(notes)
  {
    var parsed := ParseStatus(status);
    if parsed.None? {
      return Failure(InvalidEnum);
    }
    if id !in db.complaints {
      return Failure(NoSingleRow);
    }
    var before := db.complaints[id];
    var row := before.(status := parsed.value, adminNotes := if notes.Some? then notes else before.adminNotes, updatedAt := now);
    db.complaints := db.complaints[id := row];
    r := Success(ToComplaint(row, db.users));
  }

  /**
   * Creating a complaint and then fetching the creator's complaints returns the created
   * record: the same title, description, category and priority, status `pending`, and the
   * creator's display name (or `Unknown` when that name is empty).
   */
  method CreateThenFetch(db: Db, req: NewComplaint, now: int) returns (created: Result<Complaint, StoreError>, fetched: seq<Complaint>)
    requires db.Valid()
    modifies db
    ensures created.Success? <==> req.studentId in old(db.users)
    ensures created.Success? ==>
      && created.value in fetched
      && created.value.title == req.title && created.value.description == req.description
      && created.value.category == req.category && created.value.priority == req.priority
      && created.value.studentId == req.studentId
      && created.value.status == Pending
      && created.value.studentName == StudentName(old(db.users), req.studentId)
  {
    created := CreateComplaint(db, req, now);
    fetched := GetComplaintsByStudent(db, req.studentId);
    if created.Success? {
      assert db.complaints[old(db.nextId)] in db.complaints.Values;
    }
  }
}

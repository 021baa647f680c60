/**
 * The Express router mounted at `/complaints`: the role-scoped listing, creation by
 * students and status changes by admins. Each handler checks the request body first,
 * the caller's role second and the store last, and answers with an HTTP status code.
 */
module ComplaintsRoute {
  import opened Wrappers
  import opened Text
  import opened Seqs
  import opened ComplaintTypes
  import opened Store
  import opened Http

  /** The JSON body of `POST /complaints`; an absent field behaves as the empty string. */
  datatype CreateBody = CreateBody(title: string, description: string, category: string, priority: string)

  /** The JSON body of `PATCH /complaints/:id/status`. */
  datatype StatusBody = StatusBody(status: string, adminNotes: Option<string>)

  /** A complaint row joined with its student's name (`u.name as student_name`). */
  datatype Listed = Listed(row: ComplaintRow, studentName: string)

  const TitleError: FieldError := FieldError(TitleField, "Title must be at least 5 characters")
  const DescriptionError: FieldError := FieldError(DescriptionField, "Description must be at least 10 characters")
  const CategoryError: FieldError := FieldError(CategoryField, "Category is required")
  const PriorityError: FieldError := FieldError(PriorityField, "Invalid priority")
  const StatusError: FieldError := FieldError(StatusField, "Invalid status")

  const OnlyStudents: string := "Only students can create complaints"
  const OnlyAdmins: string := "Only admins can update complaint status"
  const NotFound: string := "Complaint not found"
  const Created: string := "Complaint created successfully"
  const StatusUpdated: string := "Complaint status updated successfully"

  /** The body passes every check of `POST /complaints`. */
  predicate AcceptableCreate(b: CreateBody) {
    && CountedLength(Trim(b.title)) >= 5
    && CountedLength(Trim(b.description)) >= 10
    && b.category != ""
    && ParsePriority(b.priority).Some?
  }

  /**
   * The validation chain of `POST /complaints`: one error per failed check, in the order
   * the checks are declared. Titles and descriptions are measured after trimming; the
   * category only has to be non-empty, so a category outside the fixed list passes.
   */
  function CreateErrors(b: CreateBody): (errors: seq<FieldError>)
    ensures errors == [] <==> AcceptableCreate(b)
    ensures TitleError in errors <==> CountedLength(Trim(b.title)) < 5
    ensures DescriptionError in errors <==> CountedLength(Trim(b.description)) < 10
    ensures CategoryError in errors <==> b.category == ""
    ensures PriorityError in errors <==> ParsePriority(b.priority).None?
  {
    Check(CountedLength(Trim(b.title)) < 5, TitleError)
    + Check(CountedLength(Trim(b.description)) < 10, DescriptionError)
    + Check(b.category == "", CategoryError)
    + Check(ParsePriority(b.priority).None?, PriorityError)
  }

  /** One validator check: its error when it fails, nothing when it passes. */
  function Check(failed: bool, error: FieldError): (r: seq<FieldError>)
    ensures r == [] <==> !failed
    ensures forall e :: e in r <==> failed && e == error
  {
    if failed then [error] else []
  }

  /** The row `INSERT INTO complaints` creates: trimmed text, status and notes from the column defaults. */
  function NewRow(id: ComplaintId, owner: UserId, b: CreateBody, now: int): (row: ComplaintRow)
    requires AcceptableCreate(b)
    ensures row.id == id && row.studentId == owner
    ensures row.status == Pending && row.adminNotes == None
    ensures PriorityValue(row.priority) == b.priority && row.category == b.category
    ensures row.title == Trim(b.title) && row.description == Trim(b.description)
    ensures row.createdAt == row.updatedAt == now
  {
    ComplaintRow(id, Trim(b.title), Trim(b.description), b.category, ParsePriority(b.priority).value,
                 Pending, owner, None, now, now)
  }

  /** `adminNotes || null` after trimming: missing or blank notes are stored as NULL. */
  function StoredNotes(notes: Option<string>): (r: Option<string>)
    ensures r.Some? ==> notes.Some? && r.value == Trim(notes.value) && r.value != []
    ensures notes.Some? && Trim(notes.value) != [] ==> r.Some?
  {
    match notes
    case None => None
    case Some(text) => if Trim(text) == "" then None else Some(Trim(text))
  }

  /** The row after `UPDATE complaints SET status = ?, admin_notes = ?, updated_at = NOW()`. */
  function Revised(row: ComplaintRow, status: Status, notes: Option<string>, now: int): (r: ComplaintRow)
    ensures r.status == status && r.adminNotes == notes && r.updatedAt == now
    ensures r.(status := row.status, adminNotes := row.adminNotes, updatedAt := row.updatedAt) == row
  {
    row.(status := status, adminNotes := notes, updatedAt := now)
  }

  /** The `JOIN users` of a complaint row: its student's display name. */
  function Join(users: map<UserId, UserRow>, row: ComplaintRow): (l: Listed)
    requires row.studentId in users
    ensures l.row == row
    ensures l.studentName == users[row.studentId].name
  {
    Listed(row, users[row.studentId].name)
  }

  function RowsOf(listed: seq<Listed>): (rows: seq<ComplaintRow>)
    ensures |rows| == |listed|
    ensures forall i :: 0 <= i < |listed| ==> rows[i] == listed[i].row
  {
    if listed == [] then [] else [listed[0].row] + RowsOf(listed[1..])
  }

  /**
   * `GET /complaints`. A student's query gets `WHERE c.student_id = ?` bound to their own
   * id; any other caller's query has no condition. The inner join drops rows whose
   * student has no user row; the store orders the rest newest first.
   */
  method ListComplaints(db: Db, caller: Caller) returns (resp: Response<seq<Listed>>)
    ensures resp.status == 200 && resp.body.Data?
    ensures var listed := resp.body.value;
      && NewestFirst(RowsOf(listed))
      && NoRepeats(RowsOf(listed))
      && (forall l :: l in listed ==>
            && l.row in db.complaints.Values
            && l.row.studentId in db.users
            && l.studentName == db.users[l.row.studentId].name
            && (caller.role == Student ==> l.row.studentId == caller.userId))
      && (forall row :: (row in db.complaints.Values && row.studentId in db.users
            && (caller.role == Student ==> row.studentId == caller.userId)) ==> row in RowsOf(listed))
  {
    var ownerOnly: Option<UserId> := None;
    if caller.role == Student {
      ownerOnly := Some(caller.userId);
    }
    var users := db.users;
    var keep := (row: ComplaintRow) => row.studentId in users && (ownerOnly.None? || row.studentId == ownerOnly.value);
    var rows := SelectNewestFirst(db.complaints, keep);
    assert forall i :: 0 <= i < |rows| ==> rows[i] in rows && keep(rows[i]);
    var listed := seq(|rows|, i requires 0 <= i < |rows| => Join(users, rows[i]));
    assert RowsOf(listed) == rows;
    resp := Response(200, Data(listed));
  }

  /**
   * `POST /complaints`. A body that fails a check gets 400 with every failed check, from
   * any caller; a valid body from a non-student gets 403; a student without a user row
   * breaks the foreign key and gets 500. Otherwise one row is inserted under the next id,
   * owned by the caller, and returned joined with the caller's name.
   */
  method CreateComplaint(db: Db, caller: Caller, body: CreateBody, now: int) returns (resp: Response<Listed>)
    requires db.Valid()
    modifies db
    ensures db.Valid()
    ensures !AcceptableCreate(body) ==>
      resp == Response(400, Errors(CreateErrors(body))) && unchanged(db)
    ensures AcceptableCreate(body) && caller.role != Student ==>
      resp == Response(403, Message(OnlyStudents)) && unchanged(db)
    ensures AcceptableCreate(body) && caller.role == Student && caller.userId !in old(db.users) ==>
      resp == Response(500, Message(InternalError)) && unchanged(db)
    ensures AcceptableCreate(body) && caller.role == Student && caller.userId in old(db.users) ==>
      var row := NewRow(old(db.nextId), caller.userId, body, now);
      && row.id !in old(db.complaints)
      && db.complaints == old(db.complaints)[row.id := row]
      && db.users == old(db.users) && db.nextId == old(db.nextId) + 1
      && resp == Response(201, Done(Created, Join(db.users, row)))
  {
    var errors := CreateErrors(body);
    if errors != [] {
      return Response(400, Errors(errors));
    }
    if caller.role != Student {
      return Response(403, Message(OnlyStudents));
    }
    if caller.userId !in db.users {
      return Response(500, Message(InternalError));
    }
    var row := NewRow(db.nextId, caller.userId, body, now);
    db.complaints := db.complaints[row.id := row];
    db.nextId := db.nextId + 1;
    resp := Response(201, Done(Created, Join(db.users, db.complaints[row.id])));
  }

  /**
   * `PATCH /complaints/:id/status`. A status outside the four gets 400 from any caller; a
   * non-admin gets 403; an id with no row gets 404. Otherwise that one row takes the new
   * status, the trimmed notes (NULL when blank or missing) and the new update time,
   * whatever its previous status was.
   */
  method UpdateStatus(db: Db, caller: Caller, id: ComplaintId, body: StatusBody, now: int)
    returns (resp: Response<Listed>)
    requires db.Valid()
    modifies db
    ensures db.Valid()
    ensures ParseStatus(body.status).None? ==>
      resp == Response(400, Errors([StatusError])) && unchanged(db)
    ensures ParseStatus(body.status).Some? && caller.role != Admin ==>
      resp == Response(403, Message(OnlyAdmins)) && unchanged(db)
    ensures ParseStatus(body.status).Some? && caller.role == Admin && id !in old(db.complaints) ==>
      resp == Response(404, Message(NotFound)) && unchanged(db)
    ensures ParseStatus(body.status).Some? && caller.role == Admin && id in old(db.complaints) ==>
      var row := Revised(old(db.complaints)[id], ParseStatus(body.status).value, StoredNotes(body.adminNotes), now);
      && db.complaints == old(db.complaints)[id := row]
      && db.users == old(db.users) && db.nextId == old(db.nextId)
      && resp == Response(200, Done(StatusUpdated, Join(db.users, row)))
  {
    var status := ParseStatus(body.status);
    if status.None? {
      return Response(400, Errors([StatusError]));
    }
    if caller.role != Admin {
      return Response(403, Message(OnlyAdmins));
    }
    if id !in db.complaints {
      return Response(404, Message(NotFound));
    }
    var row := Revised(db.complaints[id], status.value, StoredNotes(body.adminNotes), now);
    db.complaints := db.complaints[id := row];
    resp := Response(200, Done(StatusUpdated, Join(db.users, row)));
  }

  /**
   * The status graph is complete: from any row, whatever its status, an accepted request
   * can set any of the four statuses, and nothing but status, notes and update time moves.
   */
  lemma {:induction false} AnyStatusReachable(row: ComplaintRow, target: Status, notes: Option<string>, now: int)
    ensures ParseStatus(StatusValue(target)) == Some(target)
    ensures var r := Revised(row, target, StoredNotes(notes), now);
      && r.status == target
      && r.id == row.id && r.studentId == row.studentId && r.title == row.title
      && r.description == row.description && r.category == row.category
      && r.priority == row.priority && r.createdAt == row.createdAt
  {
    StatusRoundTrip(target);
  }

  /** The title boundary: four counted characters after trimming are refused, five accepted. */
  lemma TitleBoundary(b: CreateBody)
    requires CountedLength(Trim(b.description)) >= 10 && b.category != "" && b.priority == "medium"
    ensures CountedLength(Trim(b.title)) == 4 ==> CreateErrors(b) == [TitleError]
    ensures CountedLength(Trim(b.title)) == 5 ==> CreateErrors(b) == []
  {
  }

  /** The description boundary: nine counted characters after trimming are refused, ten accepted. */
  lemma DescriptionBoundary(b: CreateBody)
    requires CountedLength(Trim(b.title)) >= 5 && b.category != "" && b.priority == "high"
    ensures CountedLength(Trim(b.description)) == 9 ==> CreateErrors(b) == [DescriptionError]
    ensures CountedLength(Trim(b.description)) == 10 ==> CreateErrors(b) == []
  {
  }
}

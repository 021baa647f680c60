/**
 * The Express router mounted at `/users`: reading one's own profile, and updating it by
 * assembling an `UPDATE users SET … WHERE id = ?` statement from the supplied fields.
 */
module UsersRoute {
  import opened Wrappers
  import opened Text
  import opened Store
  import opened Http

  /** The columns `SELECT id, name, email, role, student_id, created_at FROM users` returns. */
  datatype Profile = Profile(
    id: UserId,
    name: string,
    email: string,
    role: Role,
    studentId: Option<string>,
    createdAt: int)

  function ProfileOf(u: UserRow): (p: Profile)
    ensures p.id == u.id && p.name == u.name && p.email == u.email && p.role == u.role
    ensures p.studentId == u.studentId && p.createdAt == u.createdAt
  {
    Profile(u.id, u.name, u.email, u.role, u.studentId, u.createdAt)
  }

  /**
   * The profile leaves out only the update time: two rows with the same profile differ
   * at most there, and changing the update time does not change the profile.
   */
  lemma {:induction false} ProfileForgetsOnlyUpdateTime(a: UserRow, b: UserRow)
    ensures ProfileOf(a.(updatedAt := b.updatedAt)) == ProfileOf(a)
    ensures ProfileOf(a) == ProfileOf(b) <==> a.(updatedAt := b.updatedAt) == b
  {
    var pa, pb := ProfileOf(a), ProfileOf(b);
    if pa == pb {
      assert a.id == b.id && a.name == b.name && a.email == b.email && a.role == b.role;
      assert a.studentId == b.studentId && a.createdAt == b.createdAt;
    }
  }

  /** The JSON body of `PATCH /users/profile`: both fields optional. */
  datatype ProfileBody = ProfileBody(name: Option<string>, studentId: Option<string>)

  datatype Column = IdColumn | NameColumn | EmailColumn | RoleColumn | StudentIdColumn | CreatedAtColumn | UpdatedAtColumn

  /** An entry of the `SET` list: `column = ?`, bound to the next parameter, or `column = NOW()`. */
  datatype Assignment = Bind(column: Column) | Touch(column: Column)

  /** A bound parameter: a text value, or the user id of the `WHERE id = ?` condition. */
  datatype Param = TextParam(text: string) | KeyParam(key: UserId)

  const NameError: FieldError := FieldError(NameField, "Name must be at least 2 characters")
  const NoFields: string := "No valid fields to update"
  const UserNotFound: string := "User not found"
  const ProfileUpdated: string := "Profile updated successfully"

  /** The number of `?` placeholders in a `SET` list. */
  function Placeholders(updates: seq<Assignment>): (n: nat)
    ensures n <= |updates|
    ensures n == |updates| <==> forall i :: 0 <= i < |updates| ==> updates[i].Bind?
  {
    if updates == [] then 0 else (if updates[0].Bind? then 1 else 0) + Placeholders(updates[1..])
  }

  /** The columns a `SET` list writes. */
  function Columns(updates: seq<Assignment>): set<Column> {
    if updates == [] then {} else {updates[0].column} + Columns(updates[1..])
  }

  /** One column written with one bound text value; the store's columns of other types are not written by text. */
  function SetColumn(u: UserRow, column: Column, value: Param): UserRow {
    match (column, value)
    case (NameColumn, TextParam(t)) => u.(name := t)
    case (EmailColumn, TextParam(t)) => u.(email := t)
    case (StudentIdColumn, TextParam(t)) => u.(studentId := Some(t))
    case _ => u
  }

  /** One column set to the statement's time. */
  function SetNow(u: UserRow, column: Column, now: int): UserRow {
    match column
    case CreatedAtColumn => u.(createdAt := now)
    case UpdatedAtColumn => u.(updatedAt := now)
    case _ => u
  }

  /**
   * The store applying a `SET` list to one row, binding the placeholders to `values` from
   * left to right; there must be exactly one value per placeholder. Columns the list does
   * not name keep their values, and the id and role are never written.
   */
  function Apply(u: UserRow, updates: seq<Assignment>, values: seq<Param>, now: int): (r: UserRow)
    requires Placeholders(updates) == |values|
    ensures r.id == u.id && r.role == u.role
    ensures NameColumn !in Columns(updates) ==> r.name == u.name
    ensures EmailColumn !in Columns(updates) ==> r.email == u.email
    ensures StudentIdColumn !in Columns(updates) ==> r.studentId == u.studentId
    ensures CreatedAtColumn !in Columns(updates) ==> r.createdAt == u.createdAt
    ensures UpdatedAtColumn !in Columns(updates) ==> r.updatedAt == u.updatedAt
    decreases |updates|
  {
    if updates == [] then u
    else match updates[0]
      case Bind(c) => Apply(SetColumn(u, c, values[0]), updates[1..], values[1..], now)
      case Touch(c) => Apply(SetNow(u, c, now), updates[1..], values, now)
  }

  /**
   * `UPDATE users SET updates WHERE id = ?`: the last value is the id the condition binds;
   * the others fill the `SET` placeholders. Returns the new table and the affected row count.
   */
  function ExecuteUpdate(users: map<UserId, UserRow>, updates: seq<Assignment>, values: seq<Param>, now: int)
    : (result: (map<UserId, UserRow>, nat))
    requires Placeholders(updates) + 1 == |values| && values[|values| - 1].KeyParam?
    ensures var key := values[|values| - 1].key;
      && result.0.Keys == users.Keys
      && (forall k :: k in users && k != key ==> result.0[k] == users[k])
      && (result.1 == 1 <==> key in users) && result.1 <= 1
      && (key in users ==> result.0[key] == Apply(users[key], updates, values[..|values| - 1], now))
      && (key in users ==> result.0[key].id == users[key].id && result.0[key].role == users[key].role)
  {
    var key := values[|values| - 1].key;
    if key in users then (users[key := Apply(users[key], updates, values[..|values| - 1], now)], 1)
    else (users, 0)
  }

  /**
   * `GET /users/profile`: the caller's own row without its update time, or 404 when the
   * caller has no row.
   */
  method GetProfile(db: Db, caller: Caller) returns (resp: Response<Profile>)
    ensures caller.userId !in db.users ==> resp == Response(404, Message(UserNotFound))
    ensures caller.userId in db.users ==> resp.status == 200 && resp.body.Data?
    ensures db.Valid() && caller.userId in db.users ==> resp.body.value.id == caller.userId
    ensures caller.userId in db.users ==> resp.body.value == ProfileOf(db.users[caller.userId])
  {
    if caller.userId !in db.users {
      return Response(404, Message(UserNotFound));
    }
    resp := Response(200, Data(ProfileOf(db.users[caller.userId])));
  }

  /** A name, when supplied, passes the validator: at least two counted characters after trimming. */
  predicate NameAccepted(b: ProfileBody) {
    b.name.Some? ==> CountedLength(Trim(b.name.value)) >= 2
  }

  /** The trimmed name is written when supplied. */
  predicate WritesName(b: ProfileBody) {
    b.name.Some? && Trim(b.name.value) != ""
  }

  /** The trimmed student identifier is written when supplied non-blank, and only for a student. */
  predicate WritesStudentId(role: Role, b: ProfileBody) {
    b.studentId.Some? && Trim(b.studentId.value) != "" && role == Student
  }

  /** The clause a field contributes: `column = ?` when it is written, nothing otherwise. */
  function Clause(written: bool, column: Column): seq<Assignment> {
    if written then [Bind(column)] else []
  }

  /** The `SET` list the profile handler assembles for the fields it writes, before the update time is appended. */
  function FieldClauses(writesName: bool, writesStudentId: bool): seq<Assignment> {
    Clause(writesName, NameColumn) + Clause(writesStudentId, StudentIdColumn)
  }

  /** The values bound to those clauses, in the same order. */
  function FieldValues(name: Option<string>, studentId: Option<string>): seq<Param> {
    (if name.Some? then [TextParam(name.value)] else []) + (if studentId.Some? then [TextParam(studentId.value)] else [])
  }

  /**
   * The assembled list binds one value per placeholder, names only the name and student
   * identifier columns, and names each exactly when that field is written.
   */
  lemma {:induction false} FieldClausesShape(name: Option<string>, studentId: Option<string>)
    ensures var updates := FieldClauses(name.Some?, studentId.Some?);
      && Placeholders(updates) == |updates| == |FieldValues(name, studentId)|
      && Columns(updates) == (if name.Some? then {NameColumn} else {}) + (if studentId.Some? then {StudentIdColumn} else {})
  {
    var updates := FieldClauses(name.Some?, studentId.Some?);
    if name.Some? && studentId.Some? {
      assert updates == [Bind(NameColumn), Bind(StudentIdColumn)];
      assert updates[1..] == [Bind(StudentIdColumn)] && updates[1..][1..] == [];
      assert Columns(updates[1..]) == {StudentIdColumn};
    } else if name.Some? {
      assert updates == [Bind(NameColumn)];
    } else if studentId.Some? {
      assert updates == [Bind(StudentIdColumn)];
    } else {
      assert updates == [];
    }
  }

  /**
   * Executing the assembled statement, with the update time appended, writes the supplied
   * name and student identifier and the update time, and nothing else.
   */
  lemma {:induction false} ApplyAssembled(u: UserRow, name: Option<string>, studentId: Option<string>, now: int)
    ensures var updates := FieldClauses(name.Some?, studentId.Some?) + [Touch(UpdatedAtColumn)];
      && Placeholders(updates) == |FieldValues(name, studentId)|
      && Apply(u, updates, FieldValues(name, studentId), now)
         == u.(name := name.GetOr(u.name), studentId := if studentId.Some? then studentId else u.studentId, updatedAt := now)
  {
    var updates := FieldClauses(name.Some?, studentId.Some?) + [Touch(UpdatedAtColumn)];
    var values := FieldValues(name, studentId);
    var touch := [Touch(UpdatedAtColumn)];
    assert Apply(SetNow(u, UpdatedAtColumn, now), [], [], now) == u.(updatedAt := now);
    match (name, studentId)
    case (Some(n), Some(i)) =>
      assert updates == [Bind(NameColumn), Bind(StudentIdColumn), Touch(UpdatedAtColumn)];
      assert updates[1..] == [Bind(StudentIdColumn), Touch(UpdatedAtColumn)] && updates[1..][1..] == touch;
      assert values == [TextParam(n), TextParam(i)] && values[1..] == [TextParam(i)];
      var v := u.(name := n);
      assert Apply(v.(studentId := Some(i)), touch, [], now) == v.(studentId := Some(i), updatedAt := now);
      assert Apply(v, updates[1..], values[1..], now) == v.(studentId := Some(i), updatedAt := now);
    case (Some(n), None) =>
      assert updates == [Bind(NameColumn), Touch(UpdatedAtColumn)] && updates[1..] == touch;
      assert values == [TextParam(n)];
      assert Apply(u.(name := n), touch, [], now) == u.(name := n, updatedAt := now);
    case (None, Some(i)) =>
      assert updates == [Bind(StudentIdColumn), Touch(UpdatedAtColumn)] && updates[1..] == touch;
      assert values == [TextParam(i)];
      assert Apply(u.(studentId := Some(i)), touch, [], now) == u.(studentId := Some(i), updatedAt := now);
    case (None, None) =>
      assert updates == touch && values == [];
  }

  /** The name the handler writes: the trimmed name when it writes one. */
  function WrittenName(b: ProfileBody): (r: Option<string>)
    ensures r.Some? <==> WritesName(b)
  {
    if WritesName(b) then Some(Trim(b.name.value)) else None
  }

  /** The student identifier the handler writes: the trimmed one, for a student caller only. */
  function WrittenStudentId(role: Role, b: ProfileBody): (r: Option<string>)
    ensures r.Some? <==> WritesStudentId(role, b)
  {
    if WritesStudentId(role, b) then Some(Trim(b.studentId.value)) else None
  }

  /** The row the profile handler's statement leaves: supplied name and student identifier, new update time. */
  function Profiled(u: UserRow, role: Role, b: ProfileBody, now: int): UserRow {
    var name, studentId := WrittenName(b), WrittenStudentId(role, b);
    u.(name := name.GetOr(u.name), studentId := if studentId.Some? then studentId else u.studentId, updatedAt := now)
  }

  /**
   * The statement the profile handler executes, with the update time appended and the
   * caller's id bound last, leaves the caller's row as `Profiled` describes and reports
   * one affected row, or changes nothing and reports none when the caller has no row.
   */
  lemma ExecuteAssembled(users: map<UserId, UserRow>, id: UserId, role: Role, b: ProfileBody, now: int)
    ensures var name, studentId := WrittenName(b), WrittenStudentId(role, b);
      var updates := FieldClauses(name.Some?, studentId.Some?) + [Touch(UpdatedAtColumn)];
      var values := FieldValues(name, studentId) + [KeyParam(id)];
      && Placeholders(updates) + 1 == |values|
      && ExecuteUpdate(users, updates, values, now)
         == if id in users then (users[id := Profiled(users[id], role, b, now)], 1) else (users, 0)
  {
    var name, studentId := WrittenName(b), WrittenStudentId(role, b);
    var values := FieldValues(name, studentId) + [KeyParam(id)];
    var u := if id in users then users[id] else UserRow(id, "", "", role, None, now, now);
    ApplyAssembled(u, name, studentId, now);
    assert values[..|values| - 1] == FieldValues(name, studentId);
  }

  /**
   * The `SET` clauses for the supplied fields and their values, pushed in step: the name
   * when present, the student identifier when present and the caller is a student. Every
   * clause binds exactly one value, and no clause names the email or the role.
   */
  method AssembleUpdates(role: Role, b: ProfileBody) returns (updates: seq<Assignment>, values: seq<Param>)
    ensures |updates| == |values| == Placeholders(updates)
    ensures forall i :: 0 <= i < |values| ==> values[i].TextParam?
    ensures Columns(updates) <= {NameColumn, StudentIdColumn}
    ensures NameColumn in Columns(updates) <==> WrittenName(b).Some?
    ensures StudentIdColumn in Columns(updates) <==> WrittenStudentId(role, b).Some?
    ensures updates == [] <==> WrittenName(b).None? && WrittenStudentId(role, b).None?
    ensures updates == FieldClauses(WrittenName(b).Some?, WrittenStudentId(role, b).Some?)
    ensures values == FieldValues(WrittenName(b), WrittenStudentId(role, b))
  {
    var name, studentId := WrittenName(b), WrittenStudentId(role, b);
    updates, values := [], [];
    if name.Some? {
      updates := updates + [Bind(NameColumn)];
      values := values + [TextParam(name.value)];
    }
    if studentId.Some? {
      updates := updates + [Bind(StudentIdColumn)];
      values := values + [TextParam(studentId.value)];
    }
    FieldClausesShape(name, studentId);
  }

  /**
   * `PATCH /users/profile`. A supplied name shorter than two characters after trimming gets
   * 400; a request that writes neither the name nor (for a student) the student identifier
   * gets 400 "No valid fields to update"; no row for the caller gets 404. Otherwise only
   * the caller's row changes: its name and student identifier as supplied, its update time.
   */
  method UpdateProfile(db: Db, caller: Caller, b: ProfileBody, now: int) returns (resp: Response<Profile>)
    requires db.Valid()
    modifies db
    ensures db.Valid()
    ensures !NameAccepted(b) ==> resp == Response(400, Errors([NameError])) && unchanged(db)
    ensures NameAccepted(b) && !WritesName(b) && !WritesStudentId(caller.role, b) ==>
      resp == Response(400, Message(NoFields)) && unchanged(db)
    ensures NameAccepted(b) && (WritesName(b) || WritesStudentId(caller.role, b)) && caller.userId !in old(db.users) ==>
      resp == Response(404, Message(UserNotFound)) && unchanged(db)
    ensures NameAccepted(b) && (WritesName(b) || WritesStudentId(caller.role, b)) && caller.userId in old(db.users) ==>
      var v := Profiled(old(db.users)[caller.userId], caller.role, b, now);
      && db.users == old(db.users)[caller.userId := v]
      && db.complaints == old(db.complaints) && db.nextId == old(db.nextId)
      && resp == Response(200, Done(ProfileUpdated, ProfileOf(v)))
  {
    if !NameAccepted(b) {
      return Response(400, Errors([NameError]));
    }
    var updates, values := AssembleUpdates(caller.role, b);
    if |updates| == 0 {
      return Response(400, Message(NoFields));
    }
    updates := updates + [Touch(UpdatedAtColumn)];
    values := values + [KeyParam(caller.userId)];
    ExecuteAssembled(db.users, caller.userId, caller.role, b, now);
    var (users, affected) := ExecuteUpdate(db.users, updates, values, now);
    if affected == 0 {
      return Response(404, Message(UserNotFound));
    }
    db.users := users;
    resp := Response(200, Done(ProfileUpdated, ProfileOf(db.users[caller.userId])));
  }
}

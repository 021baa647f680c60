/**
 * The student's dashboard: the student's own complaints as loaded, the filtered view of
 * them, the new-complaint form and the four statistics cards.
 */
module StudentDashboardPage {
  import opened Wrappers
  import opened Text
  import opened Seqs
  import opened ComplaintTypes
  import opened Store
  import opened FilterPanel
  import opened ComplaintList
  import opened ComplaintService

  /** The new-complaint form's fields. */
  datatype ComplaintForm = ComplaintForm(title: string, description: string, category: string, priority: Priority)

  /** The form as first shown and as reset after a submission: empty text, priority `medium`. */
  const EmptyForm: ComplaintForm := ComplaintForm("", "", "", Medium)

  /**
   * The browser's constraint check on the form: the category, title and description
   * fields are `required`, so none of them may be empty when the form is submitted.
   */
  predicate FormComplete(form: ComplaintForm) {
    form.category != "" && form.title != "" && form.description != ""
  }

  /** The student search: the lowered search text occurs in the lowered title or description; the student's name is not searched. */
  predicate StudentSearch(c: Complaint, search: string): (r: bool)
    ensures Includes(c.title, search) || Includes(c.description, search) ==> r
    ensures search == [] ==> r
    ensures r ==> |search| <= |c.title| || |search| <= |c.description|
  {
    IncludesLower(c.title, search);
    IncludesLower(c.description, search);
    Includes(Lower(c.title), Lower(search)) || Includes(Lower(c.description), Lower(search))
  }

  /** The four cards: Total, Pending, In Progress, Resolved. */
  datatype StudentStats = StudentStats(total: nat, pending: nat, inProgress: nat, resolved: nat)

  /** The `stats` array: each card counts complaints of one status; the three status cards never add up to more than the total. */
  function StatsOf(complaints: seq<Complaint>): (s: StudentStats)
    ensures s.total == |complaints|
    ensures s.pending == CountStatus(complaints, Pending)
    ensures s.inProgress == CountStatus(complaints, InProgress)
    ensures s.resolved == CountStatus(complaints, Resolved)
    ensures s.pending <= s.total && s.inProgress <= s.total && s.resolved <= s.total
    ensures s.pending + s.inProgress + s.resolved <= s.total
  {
    StatusCountsWithinTotal(complaints);
    StudentStats(|complaints|, CountStatus(complaints, Pending), CountStatus(complaints, InProgress),
                 CountStatus(complaints, Resolved))
  }

  class StudentDashboard {
    /** `state.user?.id`: the signed-in student, if any. */
    const user: Option<UserId>
    var complaints: seq<Complaint>
    var filtered: seq<Complaint>
    var filters: ComplaintFilters
    var form: ComplaintForm
    var showForm: bool
    var isLoading: bool

    /** The initial state: nothing loaded, no filters, the empty form hidden, the spinner showing. */
    constructor (user: Option<UserId>)
      ensures this.user == user
      ensures complaints == [] && filtered == [] && filters == NoFilters
      ensures form == EmptyForm && !showForm && isLoading
    {
      this.user := user;
      complaints := [];
      filtered := [];
      filters := NoFilters;
      form := EmptyForm;
      showForm := false;
      isLoading := true;
    }

    /**
     * The loading effect: without a signed-in user it returns at once and the spinner
     * stays; otherwise the list becomes that student's complaints, newest first.
     */
    method Load(db: Db)
      requires db.Valid()
      modifies this
      ensures user.None? ==> unchanged(this)
      ensures user.Some? ==>
        && !isLoading
        && filtered == old(filtered) && filters == old(filters) && form == old(form) && showForm == old(showForm)
        && (forall i :: 0 <= i < |complaints| ==>
              && complaints[i].studentId == user.value
              && complaints[i].id in db.complaints
              && complaints[i] == ToComplaint(db.complaints[complaints[i].id], db.users))
        && (forall row :: row in db.complaints.Values && row.studentId == user.value ==> ToComplaint(row, db.users) in complaints)
        && (forall i, j :: 0 <= i < j < |complaints| ==>
              complaints[i].createdAt >= complaints[j].createdAt && complaints[i].id != complaints[j].id)
    {
      if user.None? {
        return;
      }
      isLoading := true;
      complaints := GetComplaintsByStudent(db, user.value);
      isLoading := false;
    }

    /**
     * The filter effect: the shown list is the loaded list filtered by every filter in
     * force, in the loaded order; a search matches title or description only.
     */
    method ApplyFilters()
      modifies this`filtered
      ensures filtered == Keep(complaints, Matching(filters, StudentSearch))
      ensures IsSubsequence(filtered, complaints)
      ensures forall c :: c in filtered <==> c in complaints && Matches(filters, StudentSearch, c)
      ensures !HasActiveFilters(filters) ==> filtered == complaints
    {
      filtered := FilterComplaints(complaints, filters, StudentSearch);
      if !HasActiveFilters(filters) {
        NoFilterShowsAll(complaints, filters, StudentSearch);
      }
    }

    /** `onFiltersChange`: the panel hands over a new filter set. */
    method SetFilters(f: ComplaintFilters)
      modifies this`filters
      ensures filters == f
    {
      filters := f;
    }

    /**
     * `handleSubmitComplaint`, reached only through the form's submit event: the browser
     * refuses to submit while a `required` field (category, title, description) is empty,
     * and without a signed-in user the handler returns at once. Otherwise the form is sent
     * as a new complaint of this student; on success the store holds one more row and the
     * record it returns goes in front of the list, and the form is reset and hidden; on
     * failure the page and the store are unchanged.
     */
    method SubmitComplaint(db: Db, now: int)
      requires db.Valid()
      modifies this, db
      ensures db.Valid()
      ensures user.None? || !FormComplete(old(form)) ==> unchanged(this) && unchanged(db)
      ensures user.Some? && FormComplete(old(form)) && user.value !in old(db.users) ==> unchanged(this) && unchanged(db)
      ensures user.Some? && FormComplete(old(form)) && user.value in old(db.users) ==>
        var row := ComplaintRow(old(db.nextId), old(form).title, old(form).description, old(form).category,
                                old(form).priority, Pending, user.value, None, now, now);
        && row.id !in old(db.complaints)
        && db.complaints == old(db.complaints)[row.id := row]
        && db.users == old(db.users) && db.nextId == old(db.nextId) + 1
        && complaints == [ToComplaint(row, db.users)] + old(complaints)
        && complaints[0].status == Pending && complaints[0].studentId == user.value
        && complaints[0].title == old(form).title && complaints[0].description == old(form).description
        && complaints[0].category == old(form).category && complaints[0].priority == old(form).priority
        && form == EmptyForm && !showForm
        && filtered == old(filtered) && filters == old(filters) && isLoading == old(isLoading)
    {
      if !FormComplete(form) || user.None? {
        return;
      }
      var created := CreateComplaint(db, NewComplaint(form.title, form.description, form.category, form.priority, user.value), now);
      if created.Failure? {
        return;
      }
      complaints := [created.value] + complaints;
      form := EmptyForm;
      showForm := false;
    }

    /** The cards, computed from the loaded list (not the filtered one). */
    function Stats(): (s: StudentStats)
      reads this
      ensures s.total == |complaints|
      ensures s.pending == CountStatus(complaints, Pending)
      ensures s.inProgress == CountStatus(complaints, InProgress)
      ensures s.resolved == CountStatus(complaints, Resolved)
      ensures s.pending + s.inProgress + s.resolved <= s.total
    {
      StatsOf(complaints)
    }
  }
}

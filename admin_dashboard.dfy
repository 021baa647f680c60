/**
 * The admin's dashboard: every complaint, the filtered view with a search that also reads
 * the student's name, status changes applied to the local list by id, the quick-filter
 * buttons and the six statistics cards.
 */
module AdminDashboardPage {
  import opened Wrappers
  import opened Text
  import opened Seqs
  import opened ComplaintTypes
  import opened Store
  import opened FilterPanel
  import opened ComplaintList
  import opened ComplaintService

  /** The admin search: the lowered search text occurs in the lowered title, description or student name. */
  predicate AdminSearch(c: Complaint, search: string): (r: bool)
    ensures Includes(c.title, search) || Includes(c.description, search) || Includes(c.studentName, search) ==> r
    ensures search == [] ==> r
    ensures r ==> |search| <= |c.title| || |search| <= |c.description| || |search| <= |c.studentName|
  {
    IncludesLower(c.title, search);
    IncludesLower(c.description, search);
    IncludesLower(c.studentName, search);
    || Includes(Lower(c.title), Lower(search))
    || Includes(Lower(c.description), Lower(search))
    || Includes(Lower(c.studentName), Lower(search))
  }

  /**
   * `prev.map(complaint => complaint.id === id ? updated : complaint)`: every entry with
   * that id becomes `updated`; every other entry, the length and the order stay.
   */
  function ReplaceById(complaints: seq<Complaint>, id: ComplaintId, updated: Complaint): (r: seq<Complaint>)
    ensures |r| == |complaints|
    ensures forall i :: 0 <= i < |r| ==> r[i] == (if complaints[i].id == id then updated else complaints[i])
  {
    if complaints == [] then []
    else [if complaints[0].id == id then updated else complaints[0]] + ReplaceById(complaints[1..], id, updated)
  }

  /** A list with no entry of that id is left as it is. */
  lemma ReplaceAbsentId(complaints: seq<Complaint>, id: ComplaintId, updated: Complaint)
    requires forall i :: 0 <= i < |complaints| ==> complaints[i].id != id
    ensures ReplaceById(complaints, id, updated) == complaints
  {
  }

  /** Replacing again with the same record changes nothing more, as long as it keeps its id. */
  lemma ReplaceIdempotent(complaints: seq<Complaint>, id: ComplaintId, updated: Complaint)
    requires updated.id == id
    ensures ReplaceById(ReplaceById(complaints, id, updated), id, updated) == ReplaceById(complaints, id, updated)
  {
  }

  /** The distinct student ids of a list: `new Set(complaints.map(c => c.studentId))`. */
  function StudentIds(complaints: seq<Complaint>): (ids: set<UserId>)
    ensures forall i :: 0 <= i < |complaints| ==> complaints[i].studentId in ids
    ensures forall id :: id in ids ==> exists i :: 0 <= i < |complaints| && complaints[i].studentId == id
  {
    if complaints == [] then {}
    else
      var rest := StudentIds(complaints[1..]);
      assert forall id :: id in rest ==> exists i :: 1 <= i < |complaints| && complaints[i].studentId == id by {
        forall id | id in rest ensures exists i :: 1 <= i < |complaints| && complaints[i].studentId == id {
          var j :| 0 <= j < |complaints[1..]| && complaints[1..][j].studentId == id;
          assert complaints[j + 1].studentId == id;
        }
      }
      {complaints[0].studentId} + rest
  }

  /** There are never more active students than complaints. */
  lemma {:induction false} ActiveStudentsWithinTotal(complaints: seq<Complaint>)
    ensures |StudentIds(complaints)| <= |complaints|
  {
    if complaints != [] {
      ActiveStudentsWithinTotal(complaints[1..]);
      assert StudentIds(complaints) == {complaints[0].studentId} + StudentIds(complaints[1..]);
    }
  }

  /**
   * `Math.round(resolved / Math.max(total, 1) * 100)`, in exact arithmetic: the whole
   * percentage nearest to the resolved share, halves rounded up.
   */
  function ResolutionRate(complaints: seq<Complaint>): (rate: nat)
    ensures complaints == [] ==> rate == 0
    ensures rate <= 100
    ensures var d := if |complaints| > 1 then |complaints| else 1;
      2 * d * rate <= 200 * CountStatus(complaints, Resolved) + d < 2 * d * rate + 2 * d
  {
    var d := if |complaints| > 1 then |complaints| else 1;
    var resolved := CountStatus(complaints, Resolved);
    RoundedPercent(resolved, d);
    (200 * resolved + d) / (2 * d)
  }

  /** The rounding `ResolutionRate` performs lies between 0 and 100 and is the nearest whole percentage. */
  lemma RoundedPercent(part: nat, whole: nat)
    requires 0 < whole && part <= whole
    ensures var q := (200 * part + whole) / (2 * whole);
      && 0 <= q <= 100
      && 2 * whole * q <= 200 * part + whole < 2 * whole * q + 2 * whole
  {
    var n, m := 200 * part + whole, 2 * whole;
    DivBounds(n, m);
    var q := n / m;
    assert n < m * 101;
    QuotientAtMost(n, m, q, 100);
  }

  /** Euclidean division brackets the dividend between consecutive multiples of the divisor. */
  lemma DivBounds(n: nat, m: nat)
    requires 0 < m
    ensures m * (n / m) <= n < m * (n / m) + m
  {
  }

  lemma MulMono(m: nat, a: nat, b: nat)
    requires a <= b
    ensures m * a <= m * b
  {
    assert m * b == m * a + m * (b - a);
  }

  lemma QuotientAtMost(n: nat, m: nat, q: nat, k: nat)
    requires m * q <= n < m * (k + 1)
    ensures q <= k
  {
    if q > k {
      MulMono(m, k + 1, q);
    }
  }

  /** The six cards: Total, Pending, In Progress, Resolved, Active Students, Resolution Rate. */
  datatype AdminStats = AdminStats(
    total: nat, pending: nat, inProgress: nat, resolved: nat, activeStudents: nat, resolutionRate: nat)

  /** The `stats` array: counts bounded by the total, at most one active student per complaint, a rate within 0..100. */
  function StatsOf(complaints: seq<Complaint>): (s: AdminStats)
    ensures s.total == |complaints|
    ensures s.pending == CountStatus(complaints, Pending)
    ensures s.inProgress == CountStatus(complaints, InProgress)
    ensures s.resolved == CountStatus(complaints, Resolved)
    ensures s.pending + s.inProgress + s.resolved <= s.total
    ensures s.activeStudents == |StudentIds(complaints)| <= s.total
    ensures s.resolutionRate <= 100 && (complaints == [] ==> s.resolutionRate == 0)
  {
    StatusCountsWithinTotal(complaints);
    ActiveStudentsWithinTotal(complaints);
    AdminStats(|complaints|, CountStatus(complaints, Pending), CountStatus(complaints, InProgress),
               CountStatus(complaints, Resolved), |StudentIds(complaints)|, ResolutionRate(complaints))
  }

  /** The quick-filter buttons above the list. */
  datatype QuickButton = PendingButton | InProgressButton | UrgentButton | AllButton

  /** Each button replaces the whole filter set: with one key, or with nothing for "All". */
  function QuickFilter(b: QuickButton): (f: ComplaintFilters)
    ensures b == PendingButton ==> f == NoFilters.(status := Some("pending"))
    ensures b == InProgressButton ==> f == NoFilters.(status := Some("in-progress"))
    ensures b == UrgentButton ==> f == NoFilters.(priority := Some("urgent"))
    ensures b == AllButton <==> !HasActiveFilters(f)
  {
    match b
    case PendingButton => ComplaintFilters(Some("pending"), None, None, None)
    case InProgressButton => ComplaintFilters(Some("in-progress"), None, None, None)
    case UrgentButton => ComplaintFilters(None, None, Some("urgent"), None)
    case AllButton => ComplaintFilters(None, None, None, None)
  }

  /** The count a button shows in its caption; "All Complaints" shows none. */
  function ButtonCount(complaints: seq<Complaint>, b: QuickButton): (r: Option<nat>)
    ensures r.None? <==> b == AllButton
    ensures r.Some? ==> r.value <= |complaints|
  {
    match b
    case PendingButton => Some(CountStatus(complaints, Pending))
    case InProgressButton => Some(CountStatus(complaints, InProgress))
    case UrgentButton => Some(|Keep(complaints, (c: Complaint) => c.priority == Urgent)|)
    case AllButton => None
  }

  /**
   * The count a quick-filter button shows is the number of complaints listed after
   * pressing it; "All Complaints" lists them all.
   */
  lemma {:induction false} ButtonCountIsListLength(complaints: seq<Complaint>, b: QuickButton)
    ensures b != AllButton ==> ButtonCount(complaints, b) == Some(|Keep(complaints, Matching(QuickFilter(b), AdminSearch))|)
    ensures b == AllButton ==> Keep(complaints, Matching(QuickFilter(b), AdminSearch)) == complaints
  {
    var shown := Matching(QuickFilter(b), AdminSearch);
    match b
    case PendingButton =>
      KeepSame(complaints, StatusIs(Pending), shown);
    case InProgressButton =>
      KeepSame(complaints, StatusIs(InProgress), shown);
    case UrgentButton =>
      KeepSame(complaints, (c: Complaint) => c.priority == Urgent, shown);
    case AllButton =>
      NoFilterShowsAll(complaints, QuickFilter(b), AdminSearch);
  }

  class AdminDashboard {
    var complaints: seq<Complaint>
    var filtered: seq<Complaint>
    var filters: ComplaintFilters
    var isLoading: bool

    /** The initial state: nothing loaded, no filters, the spinner showing. */
    constructor ()
      ensures complaints == [] && filtered == [] && filters == NoFilters && isLoading
    {
      complaints := [];
      filtered := [];
      filters := NoFilters;
      isLoading := true;
    }

    /** The loading effect: every complaint, newest first, each once. */
    method Load(db: Db)
      requires db.Valid()
      modifies this
      ensures !isLoading && filtered == old(filtered) && filters == old(filters)
      ensures forall i :: 0 <= i < |complaints| ==>
        complaints[i].id in db.complaints && complaints[i] == ToComplaint(db.complaints[complaints[i].id], db.users)
      ensures forall row :: row in db.complaints.Values ==> ToComplaint(row, db.users) in complaints
      ensures forall i, j :: 0 <= i < j < |complaints| ==>
        complaints[i].createdAt >= complaints[j].createdAt && complaints[i].id != complaints[j].id
    {
      isLoading := true;
      complaints := GetAllComplaints(db);
      isLoading := false;
    }

    /** The filter effect, with the search also reading the student's name. */
    method ApplyFilters()
      modifies this`filtered
      ensures filtered == Keep(complaints, Matching(filters, AdminSearch))
      ensures IsSubsequence(filtered, complaints)
      ensures forall c :: c in filtered <==> c in complaints && Matches(filters, AdminSearch, c)
      ensures !HasActiveFilters(filters) ==> filtered == complaints
    {
      filtered := FilterComplaints(complaints, filters, AdminSearch);
      if !HasActiveFilters(filters) {
        NoFilterShowsAll(complaints, filters, AdminSearch);
      }
    }

    /** A quick-filter button replaces the filter set. */
    method PressQuickFilter(b: QuickButton)
      modifies this`filters
      ensures filters == QuickFilter(b)
    {
      filters := QuickFilter(b);
    }

    /** `onFiltersChange`: the panel hands over a new filter set. */
    method SetFilters(f: ComplaintFilters)
      modifies this`filters
      ensures filters == f
    {
      filters := f;
    }

    /**
     * `handleStatusChange`: the status text and notes go to the store; on success the
     * entries with that id are replaced by the returned complaint, on failure the list is
     * left as it was.
     */
    method HandleStatusChange(db: Db, id: ComplaintId, newStatus: string, notes: Option<string>, now: int)
      requires db.Valid()
      modifies this, db
      ensures db.Valid()
      ensures filtered == old(filtered) && filters == old(filters) && isLoading == old(isLoading)
      ensures ParseStatus(newStatus).None? || id !in old(db.complaints) ==>
        complaints == old(complaints) && unchanged(db)
      ensures ParseStatus(newStatus).Some? && id in old(db.complaints) ==>
        var before := old(db.complaints)[id];
        var row := before.(status := ParseStatus(newStatus).value,
                           adminNotes := if notes.Some? then notes else before.adminNotes, updatedAt := now);
        && db.complaints == old(db.complaints)[id := row]
        && db.users == old(db.users) && db.nextId == old(db.nextId)
        && complaints == ReplaceById(old(complaints), id, ToComplaint(row, db.users))
        && |complaints| == |old(complaints)|
        && (forall i :: 0 <= i < |complaints| && old(complaints)[i].id != id ==> complaints[i] == old(complaints)[i])
        && (forall i :: 0 <= i < |complaints| && old(complaints)[i].id == id ==>
              StatusValue(complaints[i].status) == newStatus)
    {
      var result := UpdateComplaintStatus(db, id, newStatus, notes, now);
      if result.Failure? {
        return;
      }
      complaints := ReplaceById(complaints, id, result.value);
    }

    /** The cards, computed from the loaded list. */
    function Stats(): (s: AdminStats)
      reads this
      ensures s.total == |complaints|
      ensures s.pending == CountStatus(complaints, Pending)
      ensures s.inProgress == CountStatus(complaints, InProgress)
      ensures s.resolved == CountStatus(complaints, Resolved)
      ensures s.pending + s.inProgress + s.resolved <= s.total
      ensures s.activeStudents == |StudentIds(complaints)| <= s.total
      ensures s.resolutionRate <= 100 && (complaints == [] ==> s.resolutionRate == 0)
    {
      StatsOf(complaints)
    }
  }
}

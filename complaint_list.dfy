/**
 * The list logic the two dashboards repeat: the filter effect that narrows the loaded
 * complaints by search text, category, priority and status in that order, and the
 * `filter(...).length` counts behind the statistics cards.
 */
module ComplaintList {
  import opened Seqs
  import opened ComplaintTypes
  import opened FilterPanel

  /** A dashboard's search test: does the complaint match this search text? */
  type SearchTest = (Complaint, string) -> bool

  /** A complaint passes every filter in force; `hit` is the dashboard's own search test. */
  predicate Matches(f: ComplaintFilters, hit: SearchTest, c: Complaint) {
    && (Active(f.search) ==> hit(c, f.search.value))
    && (Active(f.category) ==> c.category == f.category.value)
    && (Active(f.priority) ==> PriorityValue(c.priority) == f.priority.value)
    && (Active(f.status) ==> StatusValue(c.status) == f.status.value)
  }

  /** The filter set as one test. */
  function Matching(f: ComplaintFilters, hit: SearchTest): Complaint -> bool {
    (c: Complaint) => Matches(f, hit, c)
  }

  /** The complaint passes the first `steps` of the four filters, in the effect's order. */
  ghost predicate PassesFirst(f: ComplaintFilters, hit: SearchTest, steps: nat, c: Complaint) {
    && (steps >= 1 && Active(f.search) ==> hit(c, f.search.value))
    && (steps >= 2 && Active(f.category) ==> c.category == f.category.value)
    && (steps >= 3 && Active(f.priority) ==> PriorityValue(c.priority) == f.priority.value)
    && (steps >= 4 && Active(f.status) ==> StatusValue(c.status) == f.status.value)
  }

  ghost function Stage(f: ComplaintFilters, hit: SearchTest, steps: nat): Complaint -> bool {
    (c: Complaint) => PassesFirst(f, hit, steps, c)
  }

  /** The search filter's test, with the dashboard's own search. */
  function SearchHit(hit: SearchTest, search: string): Complaint -> bool {
    (c: Complaint) => hit(c, search)
  }

  /** The category filter's test. */
  function CategoryIs(category: string): Complaint -> bool {
    (c: Complaint) => c.category == category
  }

  /** The priority filter's test, on the priority's text. */
  function PriorityNamed(priority: string): Complaint -> bool {
    (c: Complaint) => PriorityValue(c.priority) == priority
  }

  /** The status filter's test, on the status's text. */
  function StatusNamed(status: string): Complaint -> bool {
    (c: Complaint) => StatusValue(c.status) == status
  }

  /** Before any filter, every complaint is kept. */
  lemma NoStageKeepsAll(complaints: seq<Complaint>, f: ComplaintFilters, hit: SearchTest)
    ensures Keep(complaints, Stage(f, hit, 0)) == complaints
  {
    KeepAll(complaints, Stage(f, hit, 0));
  }

  /** The search step of the filter effect adds the search test to the stages before it. */
  lemma SearchStep(f: ComplaintFilters, hit: SearchTest)
    ensures forall c :: Stage(f, hit, 1)(c) == (Stage(f, hit, 0)(c) && (Active(f.search) ==> SearchHit(hit, f.search.GetOr(""))(c)))
  {
  }

  /** The category step adds the category test. */
  lemma CategoryStep(f: ComplaintFilters, hit: SearchTest)
    ensures forall c :: Stage(f, hit, 2)(c) == (Stage(f, hit, 1)(c) && (Active(f.category) ==> CategoryIs(f.category.GetOr(""))(c)))
  {
  }

  /** The priority step adds the priority test. */
  lemma PriorityStep(f: ComplaintFilters, hit: SearchTest)
    ensures forall c :: Stage(f, hit, 3)(c) == (Stage(f, hit, 2)(c) && (Active(f.priority) ==> PriorityNamed(f.priority.GetOr(""))(c)))
  {
  }

  /** The status step adds the status test. */
  lemma StatusStep(f: ComplaintFilters, hit: SearchTest)
    ensures forall c :: Stage(f, hit, 4)(c) == (Stage(f, hit, 3)(c) && (Active(f.status) ==> StatusNamed(f.status.GetOr(""))(c)))
  {
  }

  /** After all four steps the list is the whole list filtered once by the conjunction. */
  lemma AllStagesMatch(complaints: seq<Complaint>, f: ComplaintFilters, hit: SearchTest)
    ensures var r := Keep(complaints, Stage(f, hit, 4));
      && r == Keep(complaints, Matching(f, hit))
      && IsSubsequence(r, complaints)
      && (forall c :: c in r <==> c in complaints && Matches(f, hit, c))
  {
    KeepSame(complaints, Stage(f, hit, 4), Matching(f, hit));
    KeepIsSubsequence(complaints, Matching(f, hit));
  }

  /**
   * One step of the filter effect: when its filter is in force the list is narrowed by
   * `test`, otherwise it is left alone. A list holding the complaints that pass `before`
   * becomes the list holding those that pass `after`, which adds the step's test.
   */
  method Narrow(complaints: seq<Complaint>, filtered: seq<Complaint>, ghost before: Complaint -> bool,
                ghost after: Complaint -> bool, active: bool, test: Complaint -> bool)
    returns (narrowed: seq<Complaint>)
    requires filtered == Keep(complaints, before)
    requires forall c :: after(c) == (before(c) && (active ==> test(c)))
    ensures narrowed == Keep(complaints, after)
  {
    if active {
      KeepThen(complaints, before, test, after);
      narrowed := Keep(filtered, test);
    } else {
      KeepSame(complaints, before, after);
      narrowed := filtered;
    }
  }

  /**
   * The filter effect: `filtered` starts as the whole list and each filter in force
   * narrows it in turn. The result is the whole list filtered once by the conjunction,
   * so it is an order-preserving subsequence holding exactly the matching complaints.
   */
  method FilterComplaints(complaints: seq<Complaint>, filters: ComplaintFilters, hit: SearchTest)
    returns (filtered: seq<Complaint>)
    ensures filtered == Keep(complaints, Matching(filters, hit))
    ensures IsSubsequence(filtered, complaints)
    ensures forall c :: c in filtered <==> c in complaints && Matches(filters, hit, c)
  {
    filtered := complaints;
    NoStageKeepsAll(complaints, filters, hit);
    SearchStep(filters, hit);
    filtered := Narrow(complaints, filtered, Stage(filters, hit, 0), Stage(filters, hit, 1),
                       Active(filters.search), SearchHit(hit, filters.search.GetOr("")));
    CategoryStep(filters, hit);
    filtered := Narrow(complaints, filtered, Stage(filters, hit, 1), Stage(filters, hit, 2),
                       Active(filters.category), CategoryIs(filters.category.GetOr("")));
    PriorityStep(filters, hit);
    filtered := Narrow(complaints, filtered, Stage(filters, hit, 2), Stage(filters, hit, 3),
                       Active(filters.priority), PriorityNamed(filters.priority.GetOr("")));
    StatusStep(filters, hit);
    filtered := Narrow(complaints, filtered, Stage(filters, hit, 3), Stage(filters, hit, 4),
                       Active(filters.status), StatusNamed(filters.status.GetOr("")));
    AllStagesMatch(complaints, filters, hit);
  }

  /** With no filter in force the list is shown as loaded. */
  lemma NoFilterShowsAll(complaints: seq<Complaint>, filters: ComplaintFilters, hit: SearchTest)
    requires !HasActiveFilters(filters)
    ensures Keep(complaints, Matching(filters, hit)) == complaints
  {
    KeepAll(complaints, Matching(filters, hit));
  }

  /** The test `c.status === status`. */
  function StatusIs(status: Status): Complaint -> bool {
    (c: Complaint) => c.status == status
  }

  /** `complaints.filter(c => c.status === status).length`. */
  function CountStatus(complaints: seq<Complaint>, status: Status): (n: nat)
    ensures n <= |complaints|
  {
    |Keep(complaints, StatusIs(status))|
  }

  /** The pending, in-progress and resolved counts together never exceed the total. */
  lemma {:induction false} StatusCountsWithinTotal(complaints: seq<Complaint>)
    ensures CountStatus(complaints, Pending) + CountStatus(complaints, InProgress) + CountStatus(complaints, Resolved)
         <= |complaints|
  {
    KeepExclusiveCount(complaints, StatusIs(Pending), StatusIs(InProgress), StatusIs(Resolved));
  }
}

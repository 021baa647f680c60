/**
 * The shared vocabulary of the helpdesk: the priority and status unions, the option
 * lists the forms offer, the fixed category list, the client-side complaint record and
 * the filter set.
 */
module ComplaintTypes {
  import opened Wrappers
  import opened Seqs

  datatype Priority = Low | Medium | High | Urgent
  datatype Status = Pending | InProgress | Resolved | Rejected

  /** The string each priority is stored and compared as. */
  function PriorityValue(p: Priority): string {
    match p
    case Low => "low"
    case Medium => "medium"
    case High => "high"
    case Urgent => "urgent"
  }

  /** The string each status is stored and compared as. */
  function StatusValue(s: Status): string {
    match s
    case Pending => "pending"
    case InProgress => "in-progress"
    case Resolved => "resolved"
    case Rejected => "rejected"
  }

  /** Reads a priority back from its string; any other string is not a priority. */
  function ParsePriority(s: string): (r: Option<Priority>)
    ensures r.Some? <==> s in ["low", "medium", "high", "urgent"]
    ensures r.Some? ==> PriorityValue(r.value) == s
  {
    if s == "low" then Some(Low)
    else if s == "medium" then Some(Medium)
    else if s == "high" then Some(High)
    else if s == "urgent" then Some(Urgent)
    else None
  }

  /** Reads a status back from its string; any other string is not a status. */
  function ParseStatus(s: string): (r: Option<Status>)
    ensures r.Some? <==> s in ["pending", "in-progress", "resolved", "rejected"]
    ensures r.Some? ==> StatusValue(r.value) == s
  {
    if s == "pending" then Some(Pending)
    else if s == "in-progress" then Some(InProgress)
    else if s == "resolved" then Some(Resolved)
    else if s == "rejected" then Some(Rejected)
    else None
  }

  /** Each priority's string reads back as that priority, so the string form loses nothing. */
  lemma PriorityRoundTrip(p: Priority)
    ensures ParsePriority(PriorityValue(p)) == Some(p)
  {
  }

  /** Each status's string reads back as that status. */
  lemma StatusRoundTrip(s: Status)
    ensures ParseStatus(StatusValue(s)) == Some(s)
  {
  }

  /** An entry of a select list: the value sent and compared, and the label shown (`caption`). */
  datatype OptionEntry = OptionEntry(value: string, caption: string)

  const ComplaintCategories: seq<string> := [
    "Academic", "Infrastructure", "Hostel", "Internet/WiFi", "Food Services",
    "Library", "Security", "Transport", "Other"
  ]

  const PriorityLevels: seq<OptionEntry> := [
    OptionEntry("low", "Low"), OptionEntry("medium", "Medium"),
    OptionEntry("high", "High"), OptionEntry("urgent", "Urgent")
  ]

  const StatusOptions: seq<OptionEntry> := [
    OptionEntry("pending", "Pending"), OptionEntry("in-progress", "In Progress"),
    OptionEntry("resolved", "Resolved"), OptionEntry("rejected", "Rejected")
  ]

  /** The priorities and statuses in the order the option lists give them. */
  const AllPriorities: seq<Priority> := [Low, Medium, High, Urgent]
  const AllStatuses: seq<Status> := [Pending, InProgress, Resolved, Rejected]

  function Values(options: seq<OptionEntry>): (r: seq<string>)
    ensures |r| == |options|
    ensures forall i :: 0 <= i < |options| ==> r[i] == options[i].value
  {
    if options == [] then [] else [options[0].value] + Values(options[1..])
  }

  /** Nine distinct categories, the last of them "Other". */
  lemma CategoriesAreNineDistinct()
    ensures |ComplaintCategories| == 9 && NoRepeats(ComplaintCategories)
    ensures ComplaintCategories[8] == "Other"
  {
  }

  /** The priority options are the four priorities, in order, and nothing else. */
  lemma PriorityLevelsMatchUnion()
    ensures |PriorityLevels| == |AllPriorities| == 4
    ensures forall i :: 0 <= i < 4 ==> PriorityLevels[i].value == PriorityValue(AllPriorities[i])
    ensures forall p: Priority :: p in AllPriorities
    ensures NoRepeats(Values(PriorityLevels))
  {
    forall p: Priority ensures p in AllPriorities {
      match p
      case Low => assert AllPriorities[0] == p;
      case Medium => assert AllPriorities[1] == p;
      case High => assert AllPriorities[2] == p;
      case Urgent => assert AllPriorities[3] == p;
    }
  }

  /** The status options are the four statuses, in order, and nothing else. */
  lemma StatusOptionsMatchUnion()
    ensures |StatusOptions| == |AllStatuses| == 4
    ensures forall i :: 0 <= i < 4 ==> StatusOptions[i].value == StatusValue(AllStatuses[i])
    ensures forall s: Status :: s in AllStatuses
    ensures NoRepeats(Values(StatusOptions))
  {
    forall s: Status ensures s in AllStatuses {
      match s
      case Pending => assert AllStatuses[0] == s;
      case InProgress => assert AllStatuses[1] == s;
      case Resolved => assert AllStatuses[2] == s;
      case Rejected => assert AllStatuses[3] == s;
    }
  }

  /**
   * A complaint as the client sees it. Only the admin notes are optional; the student's
   * name is a join with the users table. Identifiers and timestamps are abstract numbers.
   */
  datatype Complaint = Complaint(
    id: nat,
    title: string,
    description: string,
    category: string,
    priority: Priority,
    status: Status,
    studentId: nat,
    studentName: string,
    createdAt: int,
    updatedAt: int,
    adminNotes: Option<string>)

  /** The dashboard filter set: every key optional; `None` is an absent key. */
  datatype ComplaintFilters = ComplaintFilters(
    status: Option<string>,
    category: Option<string>,
    priority: Option<string>,
    search: Option<string>)
}

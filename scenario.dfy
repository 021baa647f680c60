/**
 * The end-to-end walk through the backend: a student files a complaint about the hostel
 * WiFi, and an admin marks it resolved with a note.
 */
module Scenario {
  import opened Wrappers
  import opened Text
  import opened ComplaintTypes
  import opened Store
  import opened Http
  import opened ComplaintsRoute

  const WifiTitle: string := "WiFi down in hostel"
  const WifiDescription: string := "No internet since yesterday evening"
  const WifiNotes: string := "Router replaced"

  /** Every character lies below the variation selectors, so the counted length is the length. */
  predicate Plain(s: string) {
    forall i :: 0 <= i < |s| ==> s[i] < '\U{FE0E}'
  }

  lemma PlainCountsAll(s: string)
    requires Plain(s)
    ensures CountedLength(s) == |s|
  {
  }

  /** A body whose title and description are plain text without white space at either end, long enough, with a category and a known priority, is accepted. */
  lemma PlainBodyAccepted(b: CreateBody)
    requires Plain(b.title) && b.title != [] && !IsSpace(b.title[0]) && !IsSpace(b.title[|b.title| - 1]) && |b.title| >= 5
    requires Plain(b.description) && b.description != [] && !IsSpace(b.description[0])
    requires !IsSpace(b.description[|b.description| - 1]) && |b.description| >= 10
    requires b.category != "" && ParsePriority(b.priority).Some?
    ensures AcceptableCreate(b)
  {
    TrimKeeps(b.title);
    PlainCountsAll(b.title);
    TrimKeeps(b.description);
    PlainCountsAll(b.description);
  }

  /** The walk's title and description are plain text with no white space at either end. */
  lemma WifiTextsPlain()
    ensures Plain(WifiTitle) && !IsSpace(WifiTitle[0]) && !IsSpace(WifiTitle[|WifiTitle| - 1])
    ensures Plain(WifiDescription) && !IsSpace(WifiDescription[0]) && !IsSpace(WifiDescription[|WifiDescription| - 1])
  {
  }

  /** The complaint body of the walk passes every check of `POST /complaints`. */
  lemma WifiBodyAccepted()
    ensures AcceptableCreate(CreateBody(WifiTitle, WifiDescription, "Internet/WiFi", "high"))
  {
    WifiTextsPlain();
    PlainBodyAccepted(CreateBody(WifiTitle, WifiDescription, "Internet/WiFi", "high"));
  }

  /** The note of the walk is stored as written. */
  lemma WifiNotesStored()
    ensures StoredNotes(Some(WifiNotes)) == Some(WifiNotes)
  {
    TrimKeeps(WifiNotes);
  }

  /**
   * A student's accepted complaint is created with status 201 and `pending`; an admin's
   * `resolved` with a note that trimming keeps answers 200, and the row shows both. The
   * WiFi body and note of the walk qualify, by `WifiBodyAccepted` and `WifiNotesStored`.
   */
  method ComplaintResolved(db: Db, student: UserId, admin: UserId, body: CreateBody, notes: string, now: int)
    returns (created: Response<Listed>, updated: Response<Listed>)
    requires db.Valid() && student in db.users
    requires AcceptableCreate(body) && StoredNotes(Some(notes)) == Some(notes)
    modifies db
    ensures created.status == 201 && created.body.Done? && created.body.value.row.status == Pending
    ensures updated.status == 200 && updated.body.Done?
    ensures updated.body.value.row.status == Resolved
    ensures updated.body.value.row.adminNotes == Some(notes)
  {
    created := CreateComplaint(db, Caller(student, Student), body, now);
    var id := created.body.value.row.id;
    updated := UpdateStatus(db, Caller(admin, Admin), id, StatusBody("resolved", Some(notes)), now + 1);
  }
}

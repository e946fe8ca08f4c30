// The lead record of lead.py: a sales prospect with its contact fields, a
// status from a fixed set, a score, notes that only grow, and the time of
// its last change.  The clock is a parameter: each updating call receives
// the time datetime.now() would return (and, for notes, its ISO text).
module Leads {
  import opened Wrappers

  datatype LeadStatus = New | Contacted | Qualified | Unqualified | Opportunity | Converted | Lost

  /** The statuses in declaration order, as iterating the enum yields them. */
  const AllStatuses: seq<LeadStatus> := [New, Contacted, Qualified, Unqualified, Opportunity, Converted, Lost]

  /** The string value of each status. */
  function StatusValue(s: LeadStatus): string
  {
    match s
    case New => "new"
    case Contacted => "contacted"
    case Qualified => "qualified"
    case Unqualified => "unqualified"
    case Opportunity => "opportunity"
    case Converted => "converted"
    case Lost => "lost"
  }

  /** Every status is listed exactly once, and distinct statuses have distinct values. */
  lemma StatusesEnumerated(s: LeadStatus, t: LeadStatus)
    ensures s in AllStatuses
    ensures forall i, j :: 0 <= i < j < |AllStatuses| ==> AllStatuses[i] != AllStatuses[j]
    ensures StatusValue(s) == StatusValue(t) ==> s == t
  {
  }

  /** The fields of a lead, as a value. */
  datatype LeadRecord = LeadRecord(
    id: Option<string>, firstName: string, lastName: string, email: string,
    company: Option<string>, title: Option<string>, phone: Option<string>,
    status: LeadStatus, source: Option<string>, score: int, notes: string,
    createdAt: real, updatedAt: real)

  /** What the field declarations check when a lead is built: non-empty names and a score in 0..100. */
  predicate Admissible(r: LeadRecord)
  {
    |r.firstName| >= 1 && |r.lastName| >= 1 && 0 <= r.score <= 100
  }

  /** A lead given only its names and e-mail: every other field takes its default. */
  function Defaults(firstName: string, lastName: string, email: string, now: real): (r: LeadRecord)
    ensures r.status == New && r.score == 0 && r.notes == ""
    ensures r.id.None? && r.company.None? && r.title.None? && r.phone.None? && r.source.None?
    ensures r.createdAt == now && r.updatedAt == now
    ensures Admissible(r) <==> |firstName| >= 1 && |lastName| >= 1
  {
    LeadRecord(None, firstName, lastName, email, None, None, None, New, None, 0, "", now, now)
  }

  /** The note entry add_note writes. */
  function NoteEntry(stamp: string, note: string): string
  {
    "[" + stamp + "] " + note
  }

  /** The notes after add_note: the entry alone when there were none, else a new line with the entry. */
  function WithNote(notes: string, stamp: string, note: string): (r: string)
    ensures |r| > |notes| && r[..|notes|] == notes
  {
    if notes == "" then NoteEntry(stamp, note) else notes + "\n" + NoteEntry(stamp, note)
  }

  /** Adding a note keeps the earlier notes as a prefix and ends with the new entry. */
  lemma WithNoteGrows(notes: string, stamp: string, note: string)
    ensures var r := WithNote(notes, stamp, note);
            var e := NoteEntry(stamp, note);
            r[..|notes|] == notes && |r| >= |e| && r[|r| - |e|..] == e
            && (notes != "" ==> |r| == |notes| + 1 + |e| && r[|notes|] == '\n')
            && (notes == "" ==> r == e)
  {
    var r := WithNote(notes, stamp, note);
    var e := NoteEntry(stamp, note);
    if notes != "" {
      assert r == notes + "\n" + e;
      assert r[|r| - |e|..] == e;
    }
  }

  /** get_full_name. */
  function FullName(firstName: string, lastName: string): (r: string)
    ensures |r| == |firstName| + 1 + |lastName| && r[|firstName|] == ' '
    ensures r[..|firstName|] == firstName && r[|firstName| + 1..] == lastName
  {
    firstName + " " + lastName
  }

  /** When the first name has no space, the full name's first space separates the two names again. */
  lemma FullNameSplits(firstName: string, lastName: string)
    requires ' ' !in firstName
    ensures var r := FullName(firstName, lastName);
            |r| == |firstName| + 1 + |lastName| && r[|firstName|] == ' '
            && ' ' !in r[..|firstName|] && r[..|firstName|] == firstName && r[|firstName| + 1..] == lastName
  {
    var r := FullName(firstName, lastName);
    assert r[..|firstName|] == firstName;
    assert r[|firstName| + 1..] == lastName;
  }

  const ScoreMessage: string := "Score must be between 0 and 100"

  class Lead {
    var id: Option<string>
    var firstName: string
    var lastName: string
    var email: string
    var company: Option<string>
    var title: Option<string>
    var phone: Option<string>
    var status: LeadStatus
    var source: Option<string>
    var score: int
    var notes: string
    var createdAt: real
    var updatedAt: real

    /** The lead's fields as a value. */
    function Snapshot(): LeadRecord
      reads this
    {
      LeadRecord(id, firstName, lastName, email, company, title, phone, status, source, score, notes, createdAt, updatedAt)
    }

    /** Lead(**data), for data the field declarations accept. */
    constructor (r: LeadRecord)
      requires Admissible(r)
      ensures Snapshot() == r
    {
      id, firstName, lastName, email := r.id, r.firstName, r.lastName, r.email;
      company, title, phone := r.company, r.title, r.phone;
      status, source, score, notes := r.status, r.source, r.score, r.notes;
      createdAt, updatedAt := r.createdAt, r.updatedAt;
    }

    /** update_status: the new status, stamped with the current time. */
    method UpdateStatus(newStatus: LeadStatus, now: real)
      modifies this`status, this`updatedAt
      ensures Snapshot() == old(Snapshot()).(status := newStatus, updatedAt := now)
    {
      status := newStatus;
      updatedAt := now;
    }

    /** add_note: append a time-stamped entry to the notes. */
    method AddNote(note: string, stamp: string, now: real)
      modifies this`notes, this`updatedAt
      ensures Snapshot() == old(Snapshot()).(notes := WithNote(old(notes), stamp, note), updatedAt := now)
    {
      var entry := "[" + stamp + "] " + note;
      if notes != "" {
        notes := notes + "\n" + entry;
      } else {
        notes := entry;
      }
      updatedAt := now;
    }

    /** update_score: a score in 0..100 is set and stamped; any other raises ValueError and changes nothing. */
    method UpdateScore(newScore: int, now: real) returns (r: Result<(), string>)
      modifies this`score, this`updatedAt
      ensures r.Success? <==> 0 <= newScore <= 100
      ensures r.Success? ==> Snapshot() == old(Snapshot()).(score := newScore, updatedAt := now)
      ensures r.Failure? ==> r.error == ScoreMessage && Snapshot() == old(Snapshot())
    {
      if !(0 <= newScore <= 100) {
        return Failure(ScoreMessage);
      }
      score := newScore;
      updatedAt := now;
      r := Success(());
    }

    /** get_full_name. */
    function GetFullName(): (r: string)
      reads this`firstName, this`lastName
      ensures |r| == |firstName| + 1 + |lastName| && r[|firstName|] == ' '
      ensures r[..|firstName|] == firstName && r[|firstName| + 1..] == lastName
    {
      FullName(firstName, lastName)
    }
  }
}

// The outreach tracker of outreach_tracker.py: one record per e-mail sent to
// a lead, carrying its status and the history of its status changes, the
// dictionary form a record is stored in, and the tracker's table of records
// by id with its lookups and statistics.  Saving to and loading from the JSON
// storage file are outside the model, and so are the clock and uuid
// generation: each call receives the ISO text datetime.now().isoformat() would
// give and the id str(uuid.uuid4()) would give.
module OutreachTracking {
  import opened Wrappers
  import opened Keys
  import opened Tally

  datatype OutreachStatus = Pending | Sent | Opened | Clicked | Replied | Bounced | Unsubscribed

  /** The statuses in declaration order, as iterating the enum yields them. */
  const AllStatuses: seq<OutreachStatus> := [Pending, Sent, Opened, Clicked, Replied, Bounced, Unsubscribed]

  /** The string value of each status. */
  function StatusValue(s: OutreachStatus): string
  {
    match s
    case Pending => "pending"
    case Sent => "sent"
    case Opened => "opened"
    case Clicked => "clicked"
    case Replied => "replied"
    case Bounced => "bounced"
    case Unsubscribed => "unsubscribed"
  }

  /** OutreachStatus(v): the status whose value is `v`, or None where the enum raises ValueError. */
  function StatusOf(v: string): (r: Option<OutreachStatus>)
    ensures r.Some? ==> StatusValue(r.value) == v
    ensures r.None? ==> forall s: OutreachStatus :: StatusValue(s) != v
  {
    if v == "pending" then Some(Pending)
    else if v == "sent" then Some(Sent)
    else if v == "opened" then Some(Opened)
    else if v == "clicked" then Some(Clicked)
    else if v == "replied" then Some(Replied)
    else if v == "bounced" then Some(Bounced)
    else if v == "unsubscribed" then Some(Unsubscribed)
    else None
  }

  /** Every status is listed once, and its value converts back to it. */
  lemma StatusesEnumerated(s: OutreachStatus)
    ensures s in AllStatuses
    ensures forall i, j :: 0 <= i < j < |AllStatuses| ==> AllStatuses[i] != AllStatuses[j]
    ensures StatusOf(StatusValue(s)) == Some(s)
  {
  }

  /** One entry of the status history: the status value, when it was set, and the note. */
  datatype HistoryEntry = HistoryEntry(status: string, timestamp: string, note: string)

  /** The fields of an outreach record, as a value. */
  datatype OutreachState = OutreachState(
    id: string, leadId: string, templateName: string, subject: string,
    sentAt: Option<string>, status: OutreachStatus, notes: string,
    statusHistory: seq<HistoryEntry>)

  /**
   * The state after update_status: the new status, and exactly one history
   * entry more, carrying the status value, the time and the note.
   */
  function StatusChanged(s: OutreachState, status: OutreachStatus, note: string, stamp: string): (r: OutreachState)
    ensures r.status == status
    ensures |r.statusHistory| == |s.statusHistory| + 1 && r.statusHistory[..|s.statusHistory|] == s.statusHistory
    ensures r.statusHistory[|s.statusHistory|] == HistoryEntry(StatusValue(status), stamp, note)
    ensures r.(status := s.status, statusHistory := s.statusHistory) == s
  {
    s.(status := status, statusHistory := s.statusHistory + [HistoryEntry(StatusValue(status), stamp, note)])
  }

  /** The state of a record created with only a lead, a template and a subject. */
  function NewState(id: string, leadId: string, templateName: string, subject: string): (r: OutreachState)
    ensures r.status == Pending && r.statusHistory == [] && r.sentAt.None? && r.notes == ""
  {
    OutreachState(id, leadId, templateName, subject, None, Pending, "", [])
  }

  // ---- dictionary form ---------------------------------------------------------

  /** A value of the stored dictionary: text, null, or the list of history entries. */
  datatype Field = Str(s: string) | Null | Entries(entries: seq<HistoryEntry>)

  /** to_dict: every field under its key, the sending time as null when unset and the status as its value. */
  function Encode(s: OutreachState): (d: map<string, Field>)
    ensures d.Keys == {"id", "lead_id", "template_name", "subject", "sent_at", "status", "notes", "status_history"}
  {
    map["id" := Str(s.id), "lead_id" := Str(s.leadId), "template_name" := Str(s.templateName),
        "subject" := Str(s.subject), "sent_at" := (if s.sentAt.Some? then Str(s.sentAt.value) else Null),
        "status" := Str(StatusValue(s.status)), "notes" := Str(s.notes),
        "status_history" := Entries(s.statusHistory)]
  }

  /** data.get(key, default) for a text field; None when the stored value is not text. */
  function TextOr(d: map<string, Field>, key: string, default: string): (r: Option<string>)
    ensures key !in d ==> r == Some(default)
    ensures key in d ==> (r.Some? <==> d[key].Str?) && (r.Some? ==> r.value == d[key].s)
  {
    if key !in d then Some(default)
    else if d[key].Str? then Some(d[key].s)
    else None
  }

  /** `data.get("id") or uuid`: the stored id, or the fresh one when it is absent, null or empty. */
  function IdOf(d: map<string, Field>, freshId: string): Option<string>
  {
    if "id" !in d || d["id"].Null? then Some(freshId)
    else if d["id"].Str? then Some(if d["id"].s == "" then freshId else d["id"].s)
    else None
  }

  /** The sending time: unset when absent, null or empty; a non-empty list cannot be parsed. */
  function SentAtOf(d: map<string, Field>): Option<Option<string>>
  {
    if "sent_at" !in d || d["sent_at"].Null? then Some(None)
    else if d["sent_at"].Str? then Some(if d["sent_at"].s == "" then None else Some(d["sent_at"].s))
    else if d["sent_at"].entries == [] then Some(None)
    else None
  }

  /** The status: PENDING when absent; a value that names no status raises ValueError. */
  function StatusFieldOf(d: map<string, Field>): Option<OutreachStatus>
  {
    if "status" !in d then Some(Pending)
    else if d["status"].Str? then StatusOf(d["status"].s)
    else None
  }

  /** The status history: empty when absent. */
  function HistoryOf(d: map<string, Field>): Option<seq<HistoryEntry>>
  {
    if "status_history" !in d then Some([])
    else if d["status_history"].Entries? then Some(d["status_history"].entries)
    else None
  }

  /**
   * from_dict: each field read with its default, in the order the arguments
   * are evaluated; the error names the first key whose value cannot be used.
   */
  function Decode(d: map<string, Field>, freshId: string): (r: Result<OutreachState, string>)
    ensures r.Success? <==> (IdOf(d, freshId).Some? && TextOr(d, "lead_id", "").Some?
                             && TextOr(d, "template_name", "").Some? && TextOr(d, "subject", "").Some?
                             && SentAtOf(d).Some? && StatusFieldOf(d).Some? && TextOr(d, "notes", "").Some?
                             && HistoryOf(d).Some?)
  {
    var id := IdOf(d, freshId);
    var leadId := TextOr(d, "lead_id", "");
    var templateName := TextOr(d, "template_name", "");
    var subject := TextOr(d, "subject", "");
    var sentAt := SentAtOf(d);
    var status := StatusFieldOf(d);
    var notes := TextOr(d, "notes", "");
    var history := HistoryOf(d);
    if id.None? then Failure("id")
    else if leadId.None? then Failure("lead_id")
    else if templateName.None? then Failure("template_name")
    else if subject.None? then Failure("subject")
    else if sentAt.None? then Failure("sent_at")
    else if status.None? then Failure("status")
    else if notes.None? then Failure("notes")
    else if history.None? then Failure("status_history")
    else Success(OutreachState(id.value, leadId.value, templateName.value, subject.value, sentAt.value,
                               status.value, notes.value, history.value))
  }

  /** What a record can hold: a non-empty id, and a sending time that is unset or non-empty text. */
  predicate Storable(s: OutreachState)
  {
    s.id != "" && (s.sentAt.Some? ==> s.sentAt.value != "")
  }

  /** Reading back a stored record reproduces every field, whatever fresh id is at hand. */
  lemma DictRoundTrip(s: OutreachState, freshId: string)
    requires Storable(s)
    ensures Decode(Encode(s), freshId) == Success(s)
  {
    assert StatusOf(StatusValue(s.status)) == Some(s.status) by {
      StatusesEnumerated(s.status);
    }
  }

  /** A complete stored dictionary with a non-empty id and usable time is the stored form of what is read from it. */
  lemma DictRoundTripBack(d: map<string, Field>, freshId: string)
    requires d.Keys == {"id", "lead_id", "template_name", "subject", "sent_at", "status", "notes", "status_history"}
    requires d["id"].Str? && d["id"].s != ""
    requires d["sent_at"].Null? || (d["sent_at"].Str? && d["sent_at"].s != "")
    requires Decode(d, freshId).Success?
    ensures Encode(Decode(d, freshId).value) == d
  {
    var s := Decode(d, freshId).value;
    assert StatusValue(s.status) == d["status"].s;
    var e := Encode(s);
    assert forall k :: k in d ==> e[k] == d[k];
  }

  /** An empty dictionary reads as a new PENDING record under the fresh id. */
  lemma DecodeEmpty(freshId: string)
    ensures Decode(map[], freshId) == Success(NewState(freshId, "", "", ""))
  {
  }

  // ---- the record ----------------------------------------------------------------

  class OutreachRecord {
    var id: string
    var leadId: string
    var templateName: string
    var subject: string
    var sentAt: Option<string>
    var status: OutreachStatus
    var notes: string
    var statusHistory: seq<HistoryEntry>

    /** The record's fields as a value. */
    function Snapshot(): OutreachState
      reads this
    {
      OutreachState(id, leadId, templateName, subject, sentAt, status, notes, statusHistory)
    }

    /** OutreachRecord(...): the given id, or the fresh one when it is missing or empty; no history yet. */
    constructor (id: Option<string>, freshId: string, leadId: string, templateName: string, subject: string,
                 sentAt: Option<string>, status: OutreachStatus, notes: string)
      ensures Snapshot() == OutreachState(if id.None? || id.value == "" then freshId else id.value,
                                          leadId, templateName, subject, sentAt, status, notes, [])
    {
      this.id := if id.None? || id.value == "" then freshId else id.value;
      this.leadId, this.templateName, this.subject := leadId, templateName, subject;
      this.sentAt, this.status, this.notes := sentAt, status, notes;
      statusHistory := [];
    }

    /** update_status: set the status and record the change in the history. */
    method UpdateStatus(newStatus: OutreachStatus, note: string, stamp: string)
      modifies this`status, this`statusHistory
      ensures Snapshot() == StatusChanged(old(Snapshot()), newStatus, note, stamp)
    {
      status := newStatus;
      statusHistory := statusHistory + [HistoryEntry(StatusValue(newStatus), stamp, note)];
    }

    /** to_dict: the stored form, from which every field is read back. */
    function ToDict(): (d: map<string, Field>)
      reads this
      ensures Storable(Snapshot()) ==> forall freshId :: Decode(d, freshId) == Success(Snapshot())
    {
      var d := Encode(Snapshot());
      forall freshId | Storable(Snapshot())
        ensures Decode(d, freshId) == Success(Snapshot())
      {
        DictRoundTrip(Snapshot(), freshId);
      }
      d
    }

    /** from_dict: a new record holding what the dictionary stores, or the error reading it raises. */
    static method FromDict(d: map<string, Field>, freshId: string) returns (r: Result<OutreachRecord, string>)
      ensures r.Success? <==> Decode(d, freshId).Success?
      ensures r.Failure? ==> r.error == Decode(d, freshId).error
      ensures r.Success? ==> fresh(r.value) && r.value.Snapshot() == Decode(d, freshId).value
    {
      var v := Decode(d, freshId);
      if v.Failure? {
        return Failure(v.error);
      }
      var s := v.value;
      var record := new OutreachRecord(Some(s.id), freshId, s.leadId, s.templateName, s.subject,
                                       s.sentAt, s.status, s.notes);
      record.statusHistory := s.statusHistory;
      r := Success(record);
    }
  }

  // ---- statistics ------------------------------------------------------------------

  /** The records' statuses, in order. */
  function Statuses(recs: seq<OutreachState>): (r: seq<OutreachStatus>)
    ensures |r| == |recs| && forall i :: 0 <= i < |recs| ==> r[i] == recs[i].status
  {
    seq(|recs|, i requires 0 <= i < |recs| => recs[i].status)
  }

  /** The number of records with status `s`. */
  function CountStatus(recs: seq<OutreachState>, s: OutreachStatus): nat
  {
    Count(Statuses(recs), s)
  }

  /** The count of each status, in the enum's order. */
  function StatusCounts(recs: seq<OutreachState>): (r: seq<nat>)
    ensures |r| == |AllStatuses|
    ensures forall i :: 0 <= i < |AllStatuses| ==> r[i] == CountStatus(recs, AllStatuses[i])
  {
    Counts(Statuses(recs), AllStatuses)
  }

  /** The position of each status in the enum's order. */
  function StatusIndex(s: OutreachStatus): (i: nat)
    ensures i < |AllStatuses| && AllStatuses[i] == s
    ensures forall j :: 0 <= j < |AllStatuses| && AllStatuses[j] == s ==> j == i
  {
    match s
    case Pending => 0
    case Sent => 1
    case Opened => 2
    case Clicked => 3
    case Replied => 4
    case Bounced => 5
    case Unsubscribed => 6
  }

  /** Every record has exactly one status: the counts add up to the number of records. */
  lemma StatusCountsSum(recs: seq<OutreachState>)
    ensures Total(StatusCounts(recs)) == |recs|
  {
    forall i | 0 <= i < |recs|
      ensures Statuses(recs)[i] in AllStatuses
    {
      StatusesEnumerated(recs[i].status);
    }
    StatusesEnumerated(Pending);
    CountsSum(Statuses(recs), AllStatuses);
  }

  /** `part / sent * 100` rounded to two places, or 0 when nothing is in SENT. */
  function Rate(part: nat, sent: nat): (r: real)
    ensures sent == 0 ==> r == 0.0
    ensures sent > 0 ==> part as real / sent as real * 100.0 - 0.005 <= r <= part as real / sent as real * 100.0 + 0.005
  {
    if sent > 0 then
      var x := part as real / sent as real * 100.0;
      Round2Bounds(x);
      Round2(x)
    else 0.0
  }

  /** What get_stats returns. */
  datatype OutreachStats = OutreachStats(totalOutreach: nat, byStatus: seq<nat>, responseRate: real, openRate: real)

  /** get_stats over the records' states, in table order. */
  function StatsOf(recs: seq<OutreachState>): (r: OutreachStats)
    ensures r.totalOutreach == |recs| && Total(r.byStatus) == |recs|
    ensures |r.byStatus| == |AllStatuses| && forall i :: 0 <= i < |AllStatuses| ==> r.byStatus[i] == CountStatus(recs, AllStatuses[i])
    ensures r.responseRate == Rate(CountStatus(recs, Replied), CountStatus(recs, Sent))
    ensures r.openRate == Rate(CountStatus(recs, Opened), CountStatus(recs, Sent))
  {
    StatusCountsSum(recs);
    var counts := StatusCounts(recs);
    var repliedCount := counts[StatusIndex(Replied)];
    var sentCount := counts[StatusIndex(Sent)];
    var openedCount := counts[StatusIndex(Opened)];
    OutreachStats(|recs|, counts, Rate(repliedCount, sentCount), Rate(openedCount, sentCount))
  }

  /** Counting the statuses of three records. */
  lemma CountThree(recs: seq<OutreachState>, s: OutreachStatus)
    requires |recs| == 3
    ensures CountStatus(recs, s) == (if recs[0].status == s then 1 else 0) + (if recs[1].status == s then 1 else 0)
                                 + (if recs[2].status == s then 1 else 0)
  {
    var ks := Statuses(recs);
    var a := ks[..2];
    var b := a[..1];
    assert ks[..|ks| - 1] == a && a[..|a| - 1] == b && b[..|b| - 1] == [];
    assert Count(b, s) == if recs[0].status == s then 1 else 0;
    assert Count(a, s) == Count(b, s) + (if recs[1].status == s then 1 else 0);
  }

  /**
   * Three records sent, then one replied and one opened: one is still in
   * SENT, so both rates are 100.
   */
  lemma StatsAfterReplyAndOpen(recs: seq<OutreachState>)
    requires |recs| == 3 && recs[0].status == Replied && recs[1].status == Opened && recs[2].status == Sent
    ensures StatsOf(recs).totalOutreach == 3
    ensures StatsOf(recs).byStatus[StatusIndex(Replied)] == 1 && StatsOf(recs).byStatus[StatusIndex(Opened)] == 1
    ensures StatsOf(recs).responseRate == 100.0 && StatsOf(recs).openRate == 100.0
  {
    CountThree(recs, Replied);
    CountThree(recs, Opened);
    CountThree(recs, Sent);
    Round2Whole(100);
  }

  /**
   * The rates count only the records still in SENT, not every record that
   * was sent: one record in SENT and two replied give a response rate of 200.
   */
  lemma ResponseRateAboveHundred(recs: seq<OutreachState>)
    requires |recs| == 3 && recs[0].status == Sent && recs[1].status == Replied && recs[2].status == Replied
    ensures StatsOf(recs).responseRate == 200.0 && StatsOf(recs).openRate == 0.0
  {
    CountThree(recs, Replied);
    CountThree(recs, Opened);
    CountThree(recs, Sent);
    Round2Whole(200);
    Round2Whole(0);
  }

  /**
   * Once every record that was sent has moved on (opened, replied, ...),
   * none is in SENT and both rates are 0, however many replies there were.
   */
  lemma RatesZeroWhenNoneInSent(recs: seq<OutreachState>)
    requires forall i :: 0 <= i < |recs| ==> recs[i].status != Sent
    ensures StatsOf(recs).responseRate == 0.0 && StatsOf(recs).openRate == 0.0
  {
    CountAbsent(Statuses(recs), Sent);
  }

  // ---- the tracker -----------------------------------------------------------------

  /** The records of `ls`, in order, that belong to the lead. */
  function ForLead(ls: seq<OutreachRecord>, leadId: string): (r: seq<OutreachRecord>)
    reads set l | l in ls
    ensures |r| <= |ls|
    ensures forall l :: l in r ==> l in ls && l.leadId == leadId
    ensures forall l :: l in ls && l.leadId == leadId ==> l in r
  {
    if ls == [] then []
    else
      var init := ForLead(ls[..|ls| - 1], leadId);
      var last := ls[|ls| - 1];
      assert forall l :: l in ls[..|ls| - 1] ==> l in ls;
      assert forall l :: l in ls ==> l in ls[..|ls| - 1] || l == last;
      if last.leadId == leadId then init + [last] else init
  }

  /** Loading from a storage file is outside the model: a tracker starts empty. */
  class OutreachTracker {
    var records: map<string, OutreachRecord>
    /** The dictionary's keys in insertion order. */
    var order: seq<string>

    /** The stored record objects. */
    function Objects(): set<OutreachRecord>
      reads this`records
    {
      set id | id in records :: records[id]
    }

    /** The dictionary's keys in order, each once, and every record stored under its own id. */
    ghost predicate Valid()
      reads this`records, this`order, Objects()
    {
      Distinct(order) && (forall id :: id in records <==> id in order)
      && forall id :: id in records ==> records[id].id == id
    }

    /** self.records.values(). */
    function Values(): (r: seq<OutreachRecord>)
      requires Valid()
      reads this, Objects()
      ensures |r| == |order| && forall i :: 0 <= i < |order| ==> r[i] == records[order[i]]
      ensures forall l :: l in r ==> l in Objects()
      ensures forall l :: l in Objects() ==> l in r
    {
      var r := seq(|order|, i requires 0 <= i < |order| && order[i] in records reads this => records[order[i]]);
      assert forall l :: l in Objects() ==> l in r by {
        forall l | l in Objects()
          ensures l in r
        {
          var id :| id in records && records[id] == l;
          var i :| 0 <= i < |order| && order[i] == id;
          assert r[i] == l;
        }
      }
      r
    }

    /** The stored records' states, in table order. */
    function Records(): (r: seq<OutreachState>)
      requires Valid()
      reads this, Objects()
      ensures |r| == |order| && forall i :: 0 <= i < |order| ==> r[i] == records[order[i]].Snapshot()
    {
      seq(|order|, i requires 0 <= i < |order| && order[i] in records reads this, Objects() => records[order[i]].Snapshot())
    }

    constructor ()
      ensures Valid() && records == map[] && order == []
    {
      records, order := map[], [];
    }

    /** create_outreach: a new PENDING record under the fresh id, stored and returned. */
    method CreateOutreach(leadId: string, templateName: string, subject: string, freshId: string)
      returns (r: OutreachRecord)
      requires Valid()
      modifies this`records, this`order
      ensures Valid()
      ensures fresh(r) && r.Snapshot() == NewState(freshId, leadId, templateName, subject)
      ensures records == old(records)[freshId := r]
      ensures order == if freshId in old(records) then old(order) else old(order) + [freshId]
      ensures |records| == |old(records)| + (if freshId in old(records) then 0 else 1)
    {
      r := new OutreachRecord(None, freshId, leadId, templateName, subject, None, Pending, "");
      if freshId !in records {
        AppendDistinct(order, freshId);
        order := order + [freshId];
      }
      records := records[freshId := r];
    }

    /** mark_sent: None for an unknown id; otherwise the record is stamped as sent, enters SENT, and is returned. */
    method MarkSent(recordId: string, sentAt: string, stamp: string) returns (r: Option<OutreachRecord>)
      requires Valid()
      modifies if recordId in records then {records[recordId]} else {}
      ensures Valid()
      ensures r.None? <==> recordId !in records
      ensures r.Some? ==> r.value == records[recordId]
                          && r.value.Snapshot() == StatusChanged(old(r.value.Snapshot()).(sentAt := Some(sentAt)), Sent, "", stamp)
    {
      if recordId !in records {
        return None;
      }
      var record := records[recordId];
      record.sentAt := Some(sentAt);
      record.UpdateStatus(Sent, "", stamp);
      r := Some(record);
    }

    /** update_status: None for an unknown id; otherwise the record's status changes and it is returned. */
    method UpdateStatus(recordId: string, status: OutreachStatus, note: string, stamp: string)
      returns (r: Option<OutreachRecord>)
      requires Valid()
      modifies if recordId in records then {records[recordId]} else {}
      ensures Valid()
      ensures r.None? <==> recordId !in records
      ensures r.Some? ==> r.value == records[recordId]
                          && r.value.Snapshot() == StatusChanged(old(r.value.Snapshot()), status, note, stamp)
    {
      if recordId !in records {
        return None;
      }
      var record := records[recordId];
      record.UpdateStatus(status, note, stamp);
      r := Some(record);
    }

    /** get_outreach: the record stored under the id, which carries that id, or None. */
    function GetOutreach(recordId: string): (r: Option<OutreachRecord>)
      requires Valid()
      reads this`records, this`order, Objects()
      ensures r.None? <==> recordId !in records
      ensures r.Some? ==> r.value == records[recordId] && r.value.id == recordId
    {
      if recordId in records then Some(records[recordId]) else None
    }

    /** get_lead_outreach: exactly the stored records of the lead, in table order. */
    function GetLeadOutreach(leadId: string): (r: seq<OutreachRecord>)
      requires Valid()
      reads this, Objects()
      ensures forall l :: l in r ==> l in Objects() && l.leadId == leadId
      ensures forall l :: l in Objects() && l.leadId == leadId ==> l in r
    {
      ForLead(Values(), leadId)
    }

    /** get_stats: the number of records, the count of each status, and the response and open rates. */
    function GetStats(): (r: OutreachStats)
      requires Valid()
      reads this, Objects()
      ensures r == StatsOf(Records())
      ensures r.totalOutreach == |records| && Total(r.byStatus) == |records|
    {
      KeyCount(order, records);
      StatsOf(Records())
    }
  }
}

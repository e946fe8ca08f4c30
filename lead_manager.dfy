// The in-memory lead table of lead_manager.py: leads stored by id (in
// insertion order, as a Python dict keeps them), created, fetched, updated
// field by field, deleted, filtered, searched and summarised.  Saving to and
// loading from the JSON storage file are outside the model, and so is uuid
// generation: create_lead receives the id uuid4() would produce.
module LeadManagement {
  import opened Wrappers
  import opened Keys
  import opened Leads
  import opened Tally
  import Text

  // ---- updates ---------------------------------------------------------------

  /** One entry of update_lead's updates dictionary: a field of the lead with its new value, or any other key. */
  datatype LeadUpdate =
    | SetId(id: Option<string>) | SetFirstName(firstName: string) | SetLastName(lastName: string)
    | SetEmail(email: string) | SetCompany(company: Option<string>) | SetTitle(title: Option<string>)
    | SetPhone(phone: Option<string>) | SetStatus(status: LeadStatus) | SetSource(source: Option<string>)
    | SetScore(score: int) | SetNotes(notes: string) | SetCreatedAt(createdAt: real)
    | SetUpdatedAt(updatedAt: real)
    | Unknown(key: string)

  /** setattr(lead, key, value) when the lead has the attribute, and nothing otherwise. */
  function Updated(r: LeadRecord, u: LeadUpdate): LeadRecord
  {
    match u
    case SetId(v) => r.(id := v)
    case SetFirstName(v) => r.(firstName := v)
    case SetLastName(v) => r.(lastName := v)
    case SetEmail(v) => r.(email := v)
    case SetCompany(v) => r.(company := v)
    case SetTitle(v) => r.(title := v)
    case SetPhone(v) => r.(phone := v)
    case SetStatus(v) => r.(status := v)
    case SetSource(v) => r.(source := v)
    case SetScore(v) => r.(score := v)
    case SetNotes(v) => r.(notes := v)
    case SetCreatedAt(v) => r.(createdAt := v)
    case SetUpdatedAt(v) => r.(updatedAt := v)
    case Unknown(_) => r
  }

  /** The record after the updates, applied in order. */
  function ApplyAll(r: LeadRecord, updates: seq<LeadUpdate>): LeadRecord
  {
    if updates == [] then r
    else Updated(ApplyAll(r, updates[..|updates| - 1]), updates[|updates| - 1])
  }

  /** The updates that name an attribute of the lead. */
  function Known(updates: seq<LeadUpdate>): (r: seq<LeadUpdate>)
    ensures forall u :: u in r <==> u in updates && !u.Unknown?
  {
    if updates == [] then []
    else Known(updates[..|updates| - 1]) + (if updates[|updates| - 1].Unknown? then [] else [updates[|updates| - 1]])
  }

  /** Keys the lead does not have are ignored: applying the updates is applying the known ones. */
  lemma {:induction false} ApplyIgnoresUnknown(r: LeadRecord, updates: seq<LeadUpdate>)
    ensures ApplyAll(r, updates) == ApplyAll(r, Known(updates))
  {
    if updates != [] {
      var init := updates[..|updates| - 1];
      var last := updates[|updates| - 1];
      ApplyIgnoresUnknown(r, init);
      assert ApplyAll(r, updates) == Updated(ApplyAll(r, init), last);
      if last.Unknown? {
        assert Known(updates) == Known(init);
      } else {
        var k := Known(init) + [last];
        assert Known(updates) == k;
        assert k[..|k| - 1] == Known(init);
        assert ApplyAll(r, k) == Updated(ApplyAll(r, Known(init)), last);
      }
    }
  }

  /** The last score among the updates, or `score` when none sets it. */
  function LastScore(updates: seq<LeadUpdate>, score: int): int
  {
    if updates == [] then score
    else if updates[|updates| - 1].SetScore? then updates[|updates| - 1].score
    else LastScore(updates[..|updates| - 1], score)
  }

  /**
   * The last score set wins, and it is not checked against 0..100: after
   * update_lead a lead can hold a score its constructor would refuse.
   */
  lemma {:induction false} ApplyScore(r: LeadRecord, updates: seq<LeadUpdate>)
    ensures ApplyAll(r, updates).score == LastScore(updates, r.score)
    ensures ApplyAll(r, updates + [SetScore(150)]).score == 150 && !Admissible(ApplyAll(r, updates + [SetScore(150)]))
  {
    if updates != [] {
      ApplyScore(r, updates[..|updates| - 1]);
    }
    var more := updates + [SetScore(150)];
    assert more[..|more| - 1] == updates;
  }

  /** setattr on a lead object. */
  method SetAttribute(lead: Lead, u: LeadUpdate)
    modifies lead
    ensures lead.Snapshot() == Updated(old(lead.Snapshot()), u)
  {
    if u.SetId? || u.SetFirstName? || u.SetLastName? || u.SetEmail? || u.SetCompany? || u.SetTitle? || u.SetPhone? {
      SetContactAttribute(lead, u);
    } else {
      SetTrackingAttribute(lead, u);
    }
  }

  /** setattr for the lead's identity and contact fields. */
  method SetContactAttribute(lead: Lead, u: LeadUpdate)
    requires u.SetId? || u.SetFirstName? || u.SetLastName? || u.SetEmail? || u.SetCompany? || u.SetTitle? || u.SetPhone?
    modifies lead`id, lead`firstName, lead`lastName, lead`email, lead`company, lead`title, lead`phone
    ensures lead.Snapshot() == Updated(old(lead.Snapshot()), u)
  {
    match u
    case SetId(v) => lead.id := v;
    case SetFirstName(v) => lead.firstName := v;
    case SetLastName(v) => lead.lastName := v;
    case SetEmail(v) => lead.email := v;
    case SetCompany(v) => lead.company := v;
    case SetTitle(v) => lead.title := v;
    case SetPhone(v) => lead.phone := v;
  }

  /** setattr for the lead's status, source, score, notes and time stamps; other keys are skipped. */
  method SetTrackingAttribute(lead: Lead, u: LeadUpdate)
    requires !(u.SetId? || u.SetFirstName? || u.SetLastName? || u.SetEmail? || u.SetCompany? || u.SetTitle? || u.SetPhone?)
    modifies lead`status, lead`source, lead`score, lead`notes, lead`createdAt, lead`updatedAt
    ensures lead.Snapshot() == Updated(old(lead.Snapshot()), u)
  {
    match u
    case SetStatus(v) => lead.status := v;
    case SetSource(v) => lead.source := v;
    case SetScore(v) => lead.score := v;
    case SetNotes(v) => lead.notes := v;
    case SetCreatedAt(v) => lead.createdAt := v;
    case SetUpdatedAt(v) => lead.updatedAt := v;
    case Unknown(_) =>
  }

  // ---- filters ---------------------------------------------------------------

  /** One condition of list_leads or search_leads. */
  datatype Criterion =
    | ByStatus(status: LeadStatus)
    | ByMinScore(minScore: int)
    | ByCompany(company: string)
    | ByQuery(queryLower: string)

  /** Whether a non-empty optional text holds `sub` once lowercased (a None or empty field holds nothing). */
  predicate FieldHas(field: Option<string>, sub: string)
  {
    field.Some? && field.value != "" && Text.Contains(Text.Lower(field.value), sub)
  }

  predicate Satisfies(r: LeadRecord, c: Criterion)
  {
    match c
    case ByStatus(s) => r.status == s
    case ByMinScore(n) => r.score >= n
    case ByCompany(q) => FieldHas(r.company, Text.Lower(q))
    case ByQuery(q) =>
      Text.Contains(Text.Lower(r.firstName), q) || Text.Contains(Text.Lower(r.lastName), q)
      || Text.Contains(Text.Lower(r.email), q) || FieldHas(r.company, q)
  }

  /** The leads of `ls` meeting `c`, in order. */
  function Filter(ls: seq<Lead>, c: Criterion): (r: seq<Lead>)
    reads set l | l in ls
    ensures |r| <= |ls|
    ensures forall l :: l in r ==> l in ls
  {
    if ls == [] then []
    else
      var last := ls[|ls| - 1];
      Filter(ls[..|ls| - 1], c) + (if Satisfies(last.Snapshot(), c) then [last] else [])
  }

  /** A lead is kept by a filter iff it is one of the input leads and meets the condition. */
  lemma {:induction false} FilterMembers(ls: seq<Lead>, c: Criterion, l: Lead)
    ensures l in Filter(ls, c) <==> l in ls && Satisfies(l.Snapshot(), c)
  {
    if ls != [] {
      FilterMembers(ls[..|ls| - 1], c, l);
      assert ls == ls[..|ls| - 1] + [ls[|ls| - 1]];
    }
  }

  /** The optional filters of list_leads, each as a condition when it is given. */
  function Conditions(status: Option<LeadStatus>, minScore: Option<int>, company: Option<string>): seq<Criterion>
  {
    (if status.Some? then [ByStatus(status.value)] else [])
    + (if minScore.Some? then [ByMinScore(minScore.value)] else [])
    + (if company.Some? && company.value != "" then [ByCompany(company.value)] else [])
  }

  /** Whether the record meets every condition. */
  predicate MeetsAll(r: LeadRecord, cs: seq<Criterion>)
  {
    forall k :: 0 <= k < |cs| ==> Satisfies(r, cs[k])
  }

  /** The filters applied one after the other. */
  function FilterAll(ls: seq<Lead>, cs: seq<Criterion>): (r: seq<Lead>)
    reads set l | l in ls
    ensures forall l :: l in r ==> l in ls
    decreases |cs|
  {
    if cs == [] then ls
    else
      var kept := Filter(ls, cs[0]);
      assert forall l :: l in kept ==> l in ls;
      FilterAll(kept, cs[1..])
  }

  /** A lead survives a chain of filters iff it is an input lead meeting every condition. */
  lemma {:induction false} FilterAllMembers(ls: seq<Lead>, cs: seq<Criterion>, l: Lead)
    ensures l in FilterAll(ls, cs) <==> l in ls && MeetsAll(l.Snapshot(), cs)
    decreases |cs|
  {
    if cs != [] {
      FilterMembers(ls, cs[0], l);
      FilterAllMembers(Filter(ls, cs[0]), cs[1..], l);
      assert forall k :: 1 <= k < |cs| ==> cs[k] == cs[1..][k - 1];
    }
  }

  lemma FilterAllMembersAll(ls: seq<Lead>, cs: seq<Criterion>)
    ensures forall l :: l in FilterAll(ls, cs) ==> l in ls && MeetsAll(l.Snapshot(), cs)
    ensures forall l :: l in ls && MeetsAll(l.Snapshot(), cs) ==> l in FilterAll(ls, cs)
  {
    forall l: Lead
      ensures l in FilterAll(ls, cs) <==> l in ls && MeetsAll(l.Snapshot(), cs)
    {
      FilterAllMembers(ls, cs, l);
    }
  }

  // ---- statistics ------------------------------------------------------------

  /** The records' statuses, in order. */
  function Statuses(recs: seq<LeadRecord>): (r: seq<LeadStatus>)
    ensures |r| == |recs| && forall i :: 0 <= i < |recs| ==> r[i] == recs[i].status
  {
    seq(|recs|, i requires 0 <= i < |recs| => recs[i].status)
  }

  /** The count of each status, in the enum's order. */
  function StatusCounts(recs: seq<LeadRecord>): (r: seq<nat>)
    ensures |r| == |AllStatuses|
    ensures forall i :: 0 <= i < |AllStatuses| ==> r[i] == Count(Statuses(recs), AllStatuses[i])
  {
    Counts(Statuses(recs), AllStatuses)
  }

  /** Every record has exactly one status: the counts add up to the number of records. */
  lemma StatusCountsSum(recs: seq<LeadRecord>)
    ensures Total(StatusCounts(recs)) == |recs|
  {
    forall i | 0 <= i < |recs|
      ensures Statuses(recs)[i] in AllStatuses
    {
      StatusesEnumerated(recs[i].status, recs[i].status);
    }
    StatusesEnumerated(New, New);
    CountsSum(Statuses(recs), AllStatuses);
  }

  function SumScores(recs: seq<LeadRecord>): int
  {
    if recs == [] then 0 else SumScores(recs[..|recs| - 1]) + recs[|recs| - 1].score
  }

  /** The average score, rounded to two places; 0 for no records. */
  function AverageScore(recs: seq<LeadRecord>): (r: real)
    ensures |recs| == 0 ==> r == 0.0
    ensures |recs| > 0 ==> var mean := SumScores(recs) as real / |recs| as real;
                           mean - 0.005 <= r <= mean + 0.005
  {
    if |recs| > 0 then
      var mean := SumScores(recs) as real / |recs| as real;
      Round2Bounds(mean);
      Round2(mean)
    else 0.0
  }

  lemma {:induction false} SumScoresBounds(recs: seq<LeadRecord>)
    requires forall i :: 0 <= i < |recs| ==> 0 <= recs[i].score <= 100
    ensures 0 <= SumScores(recs) <= 100 * |recs|
  {
    if recs != [] {
      SumScoresBounds(recs[..|recs| - 1]);
    }
  }

  /** When every score is in 0..100, so is the rounded average. */
  lemma AverageScoreBounds(recs: seq<LeadRecord>)
    requires forall i :: 0 <= i < |recs| ==> 0 <= recs[i].score <= 100
    ensures 0.0 <= AverageScore(recs) <= 100.0
  {
    if |recs| > 0 {
      SumScoresBounds(recs);
      var n := |recs| as real;
      var avg := SumScores(recs) as real / n;
      assert 0.0 <= avg <= 100.0 by {
        assert SumScores(recs) as real <= 100.0 * n;
      }
      Round2Bounds(avg);
    }
  }

  /** What get_stats returns. */
  datatype LeadStats = LeadStats(totalLeads: nat, byStatus: seq<nat>, averageScore: real)

  /** Loading from a storage file is outside the model: a manager starts empty. */
  class LeadManager {
    var leads: map<string, Lead>
    /** The dictionary's keys in insertion order. */
    var order: seq<string>

    ghost predicate Valid()
      reads this`leads, this`order
    {
      Distinct(order) && forall id :: id in leads <==> id in order
    }

    /** The stored lead objects. */
    function Objects(): set<Lead>
      reads this`leads
    {
      set id | id in leads :: leads[id]
    }

    /** self.leads.values(). */
    function Values(): (r: seq<Lead>)
      requires Valid()
      reads this
      ensures |r| == |order| && forall i :: 0 <= i < |order| ==> r[i] == leads[order[i]]
      ensures forall l :: l in r ==> l in Objects()
      ensures forall l :: l in Objects() ==> l in r
    {
      var r := seq(|order|, i requires 0 <= i < |order| && order[i] in leads reads this => leads[order[i]]);
      assert forall l :: l in Objects() ==> l in r by {
        forall l | l in Objects()
          ensures l in r
        {
          var id :| id in leads && leads[id] == l;
          var i :| 0 <= i < |order| && order[i] == id;
          assert r[i] == l;
        }
      }
      r
    }

    /** The stored leads' fields, in table order. */
    function Records(): (r: seq<LeadRecord>)
      requires Valid()
      reads this, Objects()
      ensures |r| == |order| && forall i :: 0 <= i < |order| ==> r[i] == leads[order[i]].Snapshot()
    {
      seq(|order|, i requires 0 <= i < |order| && order[i] in leads reads this, Objects() => leads[order[i]].Snapshot())
    }

    constructor ()
      ensures Valid() && leads == map[] && order == []
    {
      leads, order := map[], [];
    }

    /**
     * create_lead: the given id, or `freshId` when it is missing or empty,
     * names a new lead built from the data; the lead is stored under it.  The
     * data's validation error is raised, with the table unchanged, when a name
     * is empty or the score is outside 0..100.
     */
    method CreateLead(data: LeadRecord, freshId: string) returns (r: Result<Lead, string>)
      requires Valid()
      modifies this`leads, this`order
      ensures Valid()
      ensures var id := if data.id.None? || data.id.value == "" then freshId else data.id.value;
              var rec := data.(id := Some(id));
              (r.Success? <==> Admissible(rec))
              && (r.Failure? ==> leads == old(leads) && order == old(order))
              && (r.Success? ==>
                    fresh(r.value) && r.value.Snapshot() == rec && leads == old(leads)[id := r.value]
                    && order == (if id in old(leads) then old(order) else old(order) + [id])
                    && |leads| == |old(leads)| + (if id in old(leads) then 0 else 1))
    {
      var id := if data.id.None? || data.id.value == "" then freshId else data.id.value;
      var rec := data.(id := Some(id));
      if !Admissible(rec) {
        return Failure("validation error for Lead");
      }
      var lead := new Lead(rec);
      if id !in leads {
        AppendDistinct(order, id);
        order := order + [id];
      }
      leads := leads[id := lead];
      r := Success(lead);
    }

    /** get_lead: the lead stored under the id, or None. */
    function GetLead(leadId: string): (r: Option<Lead>)
      reads this`leads
      ensures r.None? <==> leadId !in leads
      ensures r.Some? ==> r.value == leads[leadId]
    {
      if leadId in leads then Some(leads[leadId]) else None
    }

    /**
     * update_lead: None for an unknown id; otherwise each update the lead has
     * an attribute for is set, in order, the lead is stamped with the current
     * time and returned.
     */
    method UpdateLead(leadId: string, updates: seq<LeadUpdate>, now: real) returns (r: Option<Lead>)
      modifies if leadId in leads then {leads[leadId]} else {}
      ensures r.None? <==> leadId !in leads
      ensures r.Some? ==> r.value == leads[leadId]
                          && r.value.Snapshot() == ApplyAll(old(r.value.Snapshot()), updates).(updatedAt := now)
    {
      if leadId !in leads {
        return None;
      }
      var lead := leads[leadId];
      ghost var start := lead.Snapshot();
      var k := 0;
      while k < |updates|
        invariant 0 <= k <= |updates|
        invariant lead.Snapshot() == ApplyAll(start, updates[..k])
        modifies lead
      {
        assert updates[..k + 1][..k] == updates[..k];
        SetAttribute(lead, updates[k]);
        k := k + 1;
      }
      assert updates[..k] == updates;
      lead.updatedAt := now;
      r := Some(lead);
    }

    /** delete_lead: True, with the lead removed, iff the id was stored; otherwise False and nothing changes. */
    method DeleteLead(leadId: string) returns (deleted: bool)
      requires Valid()
      modifies this`leads, this`order
      ensures Valid()
      ensures deleted <==> leadId in old(leads)
      ensures leadId !in leads && leads == old(leads) - {leadId}
      ensures deleted ==> order == Without(old(order), leadId)
      ensures !deleted ==> order == old(order)
    {
      if leadId in leads {
        WithoutDistinct(order, leadId);
        leads := leads - {leadId};
        order := Without(order, leadId);
        deleted := true;
      } else {
        deleted := false;
      }
    }

    /** list_leads: the stored leads, in table order, that meet every filter given. */
    function ListLeads(status: Option<LeadStatus>, minScore: Option<int>, company: Option<string>): (r: seq<Lead>)
      requires Valid()
      reads this, Objects()
      ensures forall l :: l in r ==> l in Objects() && MeetsAll(l.Snapshot(), Conditions(status, minScore, company))
      ensures forall l :: l in Objects() && MeetsAll(l.Snapshot(), Conditions(status, minScore, company)) ==> l in r
    {
      var cs := Conditions(status, minScore, company);
      var r := FilterAll(Values(), cs);
      FilterAllMembersAll(Values(), cs);
      r
    }

    /** search_leads: the stored leads, in table order, whose names, e-mail or company contain the lowercased query. */
    method SearchLeads(query: string) returns (results: seq<Lead>)
      requires Valid()
      ensures results == Filter(Values(), ByQuery(Text.Lower(query)))
      ensures forall l :: l in results ==> l in Objects() && Satisfies(l.Snapshot(), ByQuery(Text.Lower(query)))
      ensures forall l :: l in Objects() && Satisfies(l.Snapshot(), ByQuery(Text.Lower(query))) ==> l in results
    {
      var queryLower := Text.Lower(query);
      var values := Values();
      results := [];
      var k := 0;
      while k < |values|
        invariant 0 <= k <= |values|
        invariant results == Filter(values[..k], ByQuery(queryLower))
      {
        assert values[..k + 1][..k] == values[..k];
        var lead := values[k];
        if Satisfies(lead.Snapshot(), ByQuery(queryLower)) {
          results := results + [lead];
        }
        k := k + 1;
      }
      assert values[..k] == values;
      forall l: Lead
        ensures l in results <==> l in Objects() && Satisfies(l.Snapshot(), ByQuery(queryLower))
      {
        FilterMembers(values, ByQuery(queryLower), l);
      }
    }

    /** get_stats: the number of leads, the count of each status and the rounded average score. */
    function GetStats(): (r: LeadStats)
      requires Valid()
      reads this, Objects()
      ensures r.totalLeads == |leads| && Total(r.byStatus) == r.totalLeads
      ensures r.byStatus == StatusCounts(Records()) && r.averageScore == AverageScore(Records())
      ensures r.totalLeads == 0 ==> r.averageScore == 0.0
    {
      var recs := Records();
      StatusCountsSum(recs);
      KeyCount(order, leads);
      LeadStats(|recs|, StatusCounts(recs), AverageScore(recs))
    }
  }
}

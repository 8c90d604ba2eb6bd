/**
 Per-day aggregation: accepted records are kept in an ordered map keyed by
 (a hash of) the record's own id, so only records with the same id merge,
 and a merge adds the durations. The hash is modelled by the id itself,
 since it is injective on ids.
 */
module Aggregation {

  import opened Wrappers
  import opened WorkLog
  import opened Resolver

  /** The pattern built from a comment, tested against that same comment; an input, not modelled. */
  type SelfMatch = string -> bool

  /** The position holding the key `k`, if any. */
  function KeyIndex(es: seq<Entry>, k: int): (r: Option<nat>)
    ensures r.Some? ==> r.value < |es| && es[r.value].id == Some(k)
    ensures r.None? ==> forall i :: 0 <= i < |es| ==> es[i].id != Some(k)
  {
    if es == [] then None
    else if es[0].id == Some(k) then Some(0)
    else match KeyIndex(es[1..], k)
      case None => None
      case Some(i) => Some(i + 1)
  }

  /**
   Adding a record to the entry stored under its key: the durations add up;
   the new description is appended only when the stored comment's own
   pattern does not match it.
   */
  function Merge(existing: Entry, added: Entry, selfMatches: SelfMatch): Entry
  {
    var comment := if selfMatches(existing.comment) then existing.comment
                   else existing.comment + "\n" + added.comment;
    existing.(timeSpent := existing.timeSpent + added.timeSpent, comment := comment)
  }

  /** One accepted record goes into the ordered map: merged under its key, or appended. */
  function AddRecord(es: seq<Entry>, e: Entry, selfMatches: SelfMatch): seq<Entry>
    requires e.id.Some?
  {
    match KeyIndex(es, e.id.value)
    case Some(i) => es[i := Merge(es[i], e, selfMatches)]
    case None => es + [e]
  }

  /** The record's workspace projects were fetched and the record passes validation. */
  ghost predicate IsAccepted(r: TimeRecord, projectsOf: int -> Option<seq<Project>>)
  {
    projectsOf(r.wid).Some? && Parse(r, projectsOf(r.wid).value).Accepted?
  }

  /**
   The entries built from a day's records, in processing order; `None`
   when a workspace's projects could not be fetched: the failed lookup
   yields null where a list is required, an uncaught type error.
   */
  function Aggregate(records: seq<TimeRecord>, projectsOf: int -> Option<seq<Project>>, selfMatches: SelfMatch): Option<seq<Entry>>
  {
    if records == [] then Some([])
    else
      var r := records[|records| - 1];
      match Aggregate(records[..|records| - 1], projectsOf, selfMatches)
      case None => None
      case Some(es) =>
        match projectsOf(r.wid)
        case None => None
        case Some(projects) =>
          match Parse(r, projects)
          case Accepted(e) => Some(AddRecord(es, e, selfMatches))
          case _ => Some(es)
  }

  /** The keys present in a list of entries. */
  ghost function Keys(es: seq<Entry>): set<int>
  {
    set i | 0 <= i < |es| && es[i].id.Some? :: es[i].id.value
  }

  /** The ids of the accepted records. */
  ghost function AcceptedIds(records: seq<TimeRecord>, projectsOf: int -> Option<seq<Project>>): set<int>
  {
    set n | 0 <= n < |records| && IsAccepted(records[n], projectsOf) :: records[n].id
  }

  /** Every entry has a key and no key appears twice. */
  ghost predicate UniqueKeys(es: seq<Entry>)
  {
    (forall i :: 0 <= i < |es| ==> es[i].id.Some?)
    && (forall i, j :: 0 <= i < j < |es| ==> es[i].id != es[j].id)
  }

  /** The summed durations of the accepted records with id `k`. */
  ghost function Contribution(records: seq<TimeRecord>, projectsOf: int -> Option<seq<Project>>, k: int): int
  {
    if records == [] then 0
    else
      var r := records[|records| - 1];
      Contribution(records[..|records| - 1], projectsOf, k)
        + (if r.id == k && IsAccepted(r, projectsOf) then r.duration else 0)
  }

  /** One more record, after a prefix whose projects were all fetched. */
  lemma AggregateNext(records: seq<TimeRecord>, i: nat, projectsOf: int -> Option<seq<Project>>, selfMatches: SelfMatch,
                      es: seq<Entry>, projects: seq<Project>)
    requires i < |records| && Aggregate(records[..i], projectsOf, selfMatches) == Some(es)
    requires projectsOf(records[i].wid) == Some(projects)
    ensures Aggregate(records[..i + 1], projectsOf, selfMatches)
            == match Parse(records[i], projects)
               case Accepted(e) => Some(AddRecord(es, e, selfMatches))
               case _ => Some(es)
  {
    assert records[..i + 1][..i] == records[..i];
  }

  /** Aggregation fails exactly when some record's workspace projects cannot be fetched. */
  lemma {:induction false} AggregateFails(records: seq<TimeRecord>, projectsOf: int -> Option<seq<Project>>, selfMatches: SelfMatch)
    ensures Aggregate(records, projectsOf, selfMatches).None? <==>
      exists n :: 0 <= n < |records| && projectsOf(records[n].wid).None?
  {
    if records != [] {
      var front := records[..|records| - 1];
      AggregateFails(front, projectsOf, selfMatches);
      assert forall n :: 0 <= n < |front| ==> front[n] == records[n];
    }
  }

  /** A record whose workspace projects cannot be fetched ends the aggregation of every list holding it. */
  lemma AggregateStops(records: seq<TimeRecord>, i: nat, projectsOf: int -> Option<seq<Project>>, selfMatches: SelfMatch)
    requires i < |records| && projectsOf(records[i].wid).None?
    ensures Aggregate(records, projectsOf, selfMatches).None?
  {
    AggregateFails(records, projectsOf, selfMatches);
  }

  lemma AddRecordKeys(es: seq<Entry>, e: Entry, selfMatches: SelfMatch)
    requires e.id.Some? && UniqueKeys(es)
    ensures UniqueKeys(AddRecord(es, e, selfMatches))
    ensures Keys(AddRecord(es, e, selfMatches)) == Keys(es) + {e.id.value}
  {
    var es' := AddRecord(es, e, selfMatches);
    match KeyIndex(es, e.id.value)
    case Some(i) =>
      assert es'[i].id == es[i].id;
      assert forall j :: 0 <= j < |es| ==> es'[j].id == es[j].id;
      assert Keys(es') == Keys(es) by {
        forall k | k in Keys(es) ensures k in Keys(es') {
          var j :| 0 <= j < |es| && es[j].id.Some? && es[j].id.value == k;
          assert es'[j].id == es[j].id;
        }
      }
    case None =>
      assert es'[|es|].id == e.id;
      assert Keys(es') == Keys(es) + {e.id.value} by {
        forall k | k in Keys(es) ensures k in Keys(es') {
          var j :| 0 <= j < |es| && es[j].id.Some? && es[j].id.value == k;
          assert es'[j] == es[j];
        }
      }
  }

  /**
   The aggregated map has exactly one entry per distinct accepted record
   id: every key is unique, and the keys are exactly the accepted ids.
   */
  lemma {:induction false} AggregateKeys(records: seq<TimeRecord>, projectsOf: int -> Option<seq<Project>>, selfMatches: SelfMatch)
    requires Aggregate(records, projectsOf, selfMatches).Some?
    ensures UniqueKeys(Aggregate(records, projectsOf, selfMatches).value)
    ensures Keys(Aggregate(records, projectsOf, selfMatches).value) == AcceptedIds(records, projectsOf)
  {
    if records != [] {
      var front := records[..|records| - 1];
      var r := records[|records| - 1];
      AggregateKeys(front, projectsOf, selfMatches);
      var es := Aggregate(front, projectsOf, selfMatches).value;
      var projects := projectsOf(r.wid).value;
      ParseAccepts(r, projects);
      AcceptedIdsLast(records, projectsOf);
      if Parse(r, projects).Accepted? {
        AddRecordKeys(es, Parse(r, projects).data, selfMatches);
      }
    }
  }

  /** The accepted ids of a list are those of all but its last record, plus the last one's id when it is accepted. */
  lemma AcceptedIdsLast(records: seq<TimeRecord>, projectsOf: int -> Option<seq<Project>>)
    requires records != []
    ensures var front, r := records[..|records| - 1], records[|records| - 1];
      AcceptedIds(records, projectsOf) == AcceptedIds(front, projectsOf) + (if IsAccepted(r, projectsOf) then {r.id} else {})
  {
    var front, r := records[..|records| - 1], records[|records| - 1];
    forall k | k in AcceptedIds(records, projectsOf)
      ensures k in AcceptedIds(front, projectsOf) + (if IsAccepted(r, projectsOf) then {r.id} else {})
    {
      var n :| 0 <= n < |records| && IsAccepted(records[n], projectsOf) && records[n].id == k;
      if n < |front| { assert records[n] == front[n]; }
    }
    forall k | k in AcceptedIds(front, projectsOf) ensures k in AcceptedIds(records, projectsOf) {
      var n :| 0 <= n < |front| && IsAccepted(front[n], projectsOf) && front[n].id == k;
      assert records[n] == front[n];
    }
    if IsAccepted(r, projectsOf) {
      assert r.id in AcceptedIds(records, projectsOf);
    }
  }

  lemma {:induction false} NoContributionWithoutRecord(records: seq<TimeRecord>, projectsOf: int -> Option<seq<Project>>, k: int)
    requires k !in AcceptedIds(records, projectsOf)
    ensures Contribution(records, projectsOf, k) == 0
  {
    if records != [] {
      AcceptedIdsLast(records, projectsOf);
      NoContributionWithoutRecord(records[..|records| - 1], projectsOf, k);
    }
  }

  /**
   The merged duration of each entry is the sum of the durations of all the
   accepted records carrying its key; rejected records (a negative
   duration among them) contribute nothing, so every total is non-negative.
   */
  lemma {:induction false} AggregateSums(records: seq<TimeRecord>, projectsOf: int -> Option<seq<Project>>, selfMatches: SelfMatch)
    requires Aggregate(records, projectsOf, selfMatches).Some?
    ensures var es := Aggregate(records, projectsOf, selfMatches).value;
      forall i :: 0 <= i < |es| ==> es[i].id.Some? && es[i].timeSpent == Contribution(records, projectsOf, es[i].id.value)
                                    && es[i].timeSpent >= 0
  {
    if records != [] {
      var front := records[..|records| - 1];
      var r := records[|records| - 1];
      AggregateSums(front, projectsOf, selfMatches);
      AggregateKeys(front, projectsOf, selfMatches);
      var es := Aggregate(front, projectsOf, selfMatches).value;
      var projects := projectsOf(r.wid).value;
      var es' := Aggregate(records, projectsOf, selfMatches).value;
      ParseAccepts(r, projects);
      if Parse(r, projects).Accepted? {
        var e := Parse(r, projects).data;
        match KeyIndex(es, r.id)
        case Some(m) =>
          assert es' == es[m := Merge(es[m], e, selfMatches)];
        case None =>
          assert es' == es + [e];
          forall k | k in Keys(es) ensures k != r.id {
            var j :| 0 <= j < |es| && es[j].id.Some? && es[j].id.value == k;
          }
          NoContributionWithoutRecord(front, projectsOf, r.id);
      }
    }
  }

  /** A rejected record leaves the day's entries exactly as they were. */
  lemma RejectedRecordIgnored(records: seq<TimeRecord>, r: TimeRecord, projectsOf: int -> Option<seq<Project>>, selfMatches: SelfMatch)
    requires projectsOf(r.wid).Some? && !IsAccepted(r, projectsOf)
    ensures Aggregate(records + [r], projectsOf, selfMatches) == Aggregate(records, projectsOf, selfMatches)
  {
    assert (records + [r])[..|records|] == records;
  }

}

/**
 Record validation and issue resolution: the accept/reject rule applied to
 one raw time-tracking record, given its workspace's project list.
 */
module Resolver {

  import opened Wrappers
  import opened Calendar
  import opened WorkLog

  /** A project of a workspace; its name is taken as the issue key. */
  datatype Project = Project(id: int, name: string)

  /** A raw time-tracking record; `pid` and `description` may be absent. */
  datatype TimeRecord = TimeRecord(
    id: int,
    wid: int,
    pid: Option<int>,
    description: Option<string>,
    start: Instant,
    duration: int)

  datatype Rejection = NoDescription | NoProjectId | NoIssueKey | StillRunning

  /** Accepted with the entry's data, rejected (the record is skipped), or an uncaught error. */
  datatype Parsed = Accepted(data: Entry) | Rejected(reason: Rejection) | Crashed

  /** The outcome of the scan over the project list. */
  datatype Lookup = MissingPid | Found(name: string) | NoMatch

  /** `i` is the first position of the list holding the project `pid`. */
  ghost predicate FirstMatch(projects: seq<Project>, pid: int, i: int)
  {
    0 <= i < |projects| && projects[i].id == pid && forall j :: 0 <= j < i ==> projects[j].id != pid
  }

  /**
   The project scan: a missing project id is noticed only inside the scan,
   so only when the list is non-empty; otherwise the first project with the
   record's project id gives the name.
   */
  function LookupIssue(projects: seq<Project>, pid: Option<int>): (r: Lookup)
    ensures r.MissingPid? <==> projects != [] && pid.None?
    ensures r.Found? <==> pid.Some? && exists i :: FirstMatch(projects, pid.value, i)
    ensures r.Found? ==> exists i :: FirstMatch(projects, pid.value, i) && projects[i].name == r.name
  {
    if projects == [] then NoMatch
    else if pid.None? then MissingPid
    else if projects[0].id == pid.value then
      assert FirstMatch(projects, pid.value, 0);
      Found(projects[0].name)
    else
      var r := LookupIssue(projects[1..], pid);
      assert forall i :: FirstMatch(projects[1..], pid.value, i) ==> FirstMatch(projects, pid.value, i + 1);
      assert forall i :: FirstMatch(projects, pid.value, i) ==> i > 0 && FirstMatch(projects[1..], pid.value, i - 1);
      r
  }

  /** The issue key must contain the separator, as in `PROJ-123`. */
  predicate HasSeparator(issueID: string)
  {
    '-' in issueID
  }

  /**
   The accept/reject rule with the model's correction: a record whose
   project is not in the list is skipped like any other unresolvable record.
   */
  function Parse(record: TimeRecord, projects: seq<Project>): Parsed
  {
    if record.description.None? then Rejected(NoDescription)
    else match LookupIssue(projects, record.pid)
      case MissingPid => Rejected(NoProjectId)
      case NoMatch => Rejected(NoIssueKey)
      case Found(issueID) =>
        if !HasSeparator(issueID) then Rejected(NoIssueKey)
        else if record.duration < 0 then Rejected(StillRunning)
        else Accepted(Entry(issueID, record.duration, record.description.value, record.start, Some(record.id)))
  }

  /**
   The rule as written: when no project matches (or the list is empty) the
   issue id is never assigned, and the separator test on that unset value
   raises an uncaught type error that ends the run.
   */
  function ParseAsWritten(record: TimeRecord, projects: seq<Project>): Parsed
  {
    if record.description.None? then Rejected(NoDescription)
    else match LookupIssue(projects, record.pid)
      case MissingPid => Rejected(NoProjectId)
      case NoMatch => Crashed
      case Found(issueID) =>
        if !HasSeparator(issueID) then Rejected(NoIssueKey)
        else if record.duration < 0 then Rejected(StillRunning)
        else Accepted(Entry(issueID, record.duration, record.description.value, record.start, Some(record.id)))
  }

  /**
   A record is accepted exactly when it has a description, a non-negative
   duration (zero included) and a first matching project whose name
   contains the separator; the entry then carries that name, the record's
   duration, description, start and id.
   */
  lemma ParseAccepts(record: TimeRecord, projects: seq<Project>)
    ensures Parse(record, projects).Accepted? <==>
      record.description.Some? && record.duration >= 0 && record.pid.Some?
      && exists i :: FirstMatch(projects, record.pid.value, i) && HasSeparator(projects[i].name)
    ensures Parse(record, projects).Accepted? ==>
      var e := Parse(record, projects).data;
      e.timeSpent == record.duration && Some(e.comment) == record.description && e.spentOn == record.start
      && e.id == Some(record.id)
      && exists i :: FirstMatch(projects, record.pid.value, i) && e.issueID == projects[i].name
    ensures !Parse(record, projects).Crashed?
  {
    if record.pid.Some? {
      forall i, k | FirstMatch(projects, record.pid.value, i) && FirstMatch(projects, record.pid.value, k)
        ensures i == k
      {
      }
    }
  }

  /**
   The two rules differ only where no project matches: there the source
   ends the run, while the model skips the record. Shown on a record whose
   project is missing from a one-project list, and on an empty list.
   */
  lemma UnmatchedProjectEndsRun()
    ensures var record := TimeRecord(1, 10, Some(7), Some("fix login"), Instant(0, 0), 600);
      && ParseAsWritten(record, [Project(3, "OPS-1")]) == Crashed
      && Parse(record, [Project(3, "OPS-1")]) == Rejected(NoIssueKey)
      && ParseAsWritten(record, []) == Crashed
      && Parse(record, []) == Rejected(NoIssueKey)
  {
  }

  /** Outside the unmatched case both rules agree. */
  lemma ParseAgreesWhenMatched(record: TimeRecord, projects: seq<Project>)
    requires !ParseAsWritten(record, projects).Crashed?
    ensures Parse(record, projects) == ParseAsWritten(record, projects)
  {
  }

  /**
   The validation of one record: the description check, the project scan
   that stops at the first match, then the separator and duration checks.
   */
  method ParseTimeEntry(timeEntry: TimeRecord, projects: seq<Project>) returns (parsed: Parsed)
    ensures parsed == Parse(timeEntry, projects)
  {
    if timeEntry.description.None? {
      return Rejected(NoDescription);
    }
    var issueID: Option<string> := None;
    var i := 0;
    while i < |projects|
      invariant 0 <= i <= |projects|
      invariant LookupIssue(projects, timeEntry.pid) == LookupIssue(projects[i..], timeEntry.pid)
      invariant i > 0 ==> timeEntry.pid.Some?
    {
      if timeEntry.pid.None? {
        return Rejected(NoProjectId);
      }
      assert projects[i..][1..] == projects[i + 1..];
      if projects[i].id == timeEntry.pid.value {
        issueID := Some(projects[i].name);
        break;
      }
      i := i + 1;
    }
    if issueID.None? || !HasSeparator(issueID.value) {
      return Rejected(NoIssueKey);
    }
    if timeEntry.duration < 0 {
      return Rejected(StillRunning);
    }
    parsed := Accepted(Entry(issueID.value, timeEntry.duration, timeEntry.description.value, timeEntry.start, Some(timeEntry.id)));
  }

}

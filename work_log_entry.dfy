/**
 The work-log entry of the synchroniser: a mutable object with five fields,
 shared by reference between the per-day entry list and the code that
 merges into it or tops it up.
 */
module WorkLog {

  import opened Wrappers
  import opened Calendar

  /** The value an entry holds at one moment. */
  datatype Entry = Entry(issueID: string, timeSpent: int, comment: string, spentOn: Instant, id: Option<int>)

  class WorkLogEntry {
    var comment: string
    var issueID: string
    var spentOn: Instant
    var timeSpent: int
    /** Unset (`None`) until `SetId` runs; the filler entry never gets one. */
    var id: Option<int>

    /**
     A fresh entry. Only the unset id is observable: the source never reads
     the other fields before setting them, so they start with placeholders.
     */
    constructor ()
      ensures id == None
    {
      comment := "";
      issueID := "";
      spentOn := Midnight(0);
      timeSpent := 0;
      id := None;
    }

    function Value(): Entry
      reads this
    {
      Entry(issueID, timeSpent, comment, spentOn, id)
    }

    function GetIssueID(): string
      reads this
    {
      issueID
    }

    method SetIssueID(issueID: string)
      modifies this
      ensures Value() == old(Value()).(issueID := issueID)
    {
      this.issueID := issueID;
    }

    function GetTimeSpent(): int
      reads this
    {
      timeSpent
    }

    method SetTimeSpent(timeSpent: int)
      modifies this
      ensures Value() == old(Value()).(timeSpent := timeSpent)
    {
      this.timeSpent := timeSpent;
    }

    function GetSpentOn(): Instant
      reads this
    {
      spentOn
    }

    method SetSpentOn(spentOn: Instant)
      modifies this
      ensures Value() == old(Value()).(spentOn := spentOn)
    {
      this.spentOn := spentOn;
    }

    function GetComment(): string
      reads this
    {
      comment
    }

    method SetComment(comment: string)
      modifies this
      ensures Value() == old(Value()).(comment := comment)
    {
      this.comment := comment;
    }

    method SetId(id: int)
      modifies this
      ensures Value() == old(Value()).(id := Some(id))
    {
      this.id := Some(id);
    }

    /** Declared to return an int: only defined once an id has been set. */
    function GetId(): int
      reads this
      requires id.Some?
    {
      id.value
    }
  }

  /**
   The hydrator: copies the five values of a parsed record into a fresh
   entry through its setters.
   */
  method Hydrate(data: Entry) returns (w: WorkLogEntry)
    requires data.id.Some?
    ensures fresh(w) && w.Value() == data
  {
    w := new WorkLogEntry();
    w.SetTimeSpent(data.timeSpent);
    w.SetComment(data.comment);
    w.SetSpentOn(data.spentOn);
    w.SetIssueID(data.issueID);
    w.SetId(data.id.value);
  }

  /** The values held by a list of entries, in list order. */
  function Values(es: seq<WorkLogEntry>): (vs: seq<Entry>)
    reads es
    ensures |vs| == |es|
    ensures forall i :: 0 <= i < |es| ==> vs[i] == es[i].Value()
  {
    seq(|es|, i requires 0 <= i < |es| reads es => es[i].Value())
  }

  /** No two positions of the list hold the same object. */
  predicate Distinct(es: seq<WorkLogEntry>)
  {
    forall i, j :: 0 <= i < j < |es| ==> es[i] != es[j]
  }

}

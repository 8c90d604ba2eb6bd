/**
 The day filler: when a day's entries add up to less than the required
 eight hours, the difference plus a one-minute buffer goes to the filler
 issue, on the last entry already booked on it or on a new entry.
 */
module DayFiller {

  import opened Wrappers
  import opened Calendar
  import opened WorkLog

  /** Eight hours, in seconds. */
  const RequiredTimeSpent: int := 28800
  /** The one-minute buffer added to every top-up. */
  const FillBuffer: int := 60

  /** The summed durations of a list of entries. */
  function TotalTime(es: seq<Entry>): int
  {
    if es == [] then 0 else TotalTime(es[..|es| - 1]) + es[|es| - 1].timeSpent
  }

  /** The last position whose entry is booked on `issue`, if any. */
  function LastWithIssue(es: seq<Entry>, issue: string): (r: Option<nat>)
    ensures r.Some? ==> r.value < |es| && es[r.value].issueID == issue
                        && forall j :: r.value < j < |es| ==> es[j].issueID != issue
    ensures r.None? ==> forall j :: 0 <= j < |es| ==> es[j].issueID != issue
  {
    if es == [] then None
    else if es[|es| - 1].issueID == issue then Some(|es| - 1)
    else LastWithIssue(es[..|es| - 1], issue)
  }

  /** The time a top-up adds: the shortfall plus the buffer. */
  function FillTime(es: seq<Entry>): int
  {
    RequiredTimeSpent - TotalTime(es) + FillBuffer
  }

  /**
   The entry created when no entry is booked on the filler issue: the
   configured comment, the processed day's instant, and no id.
   */
  function FillerEntry(fillIssueID: string, fillIssueComment: string, processDate: Instant, fillTime: int): Entry
  {
    Entry(fillIssueID, fillTime, fillIssueComment, processDate, None)
  }

  /** The day's entries after topping up. */
  function Fill(es: seq<Entry>, fillIssueID: string, fillIssueComment: string, processDate: Instant): seq<Entry>
  {
    if TotalTime(es) >= RequiredTimeSpent then es
    else match LastWithIssue(es, fillIssueID)
      case None => es + [FillerEntry(fillIssueID, fillIssueComment, processDate, FillTime(es))]
      case Some(i) => es[i := es[i].(timeSpent := es[i].timeSpent + FillTime(es))]
  }

  /** One more entry of the scan: its duration is added, and it becomes the last on `issue` if it is booked there. */
  lemma ScanNext(es: seq<Entry>, i: nat, issue: string)
    requires i < |es|
    ensures TotalTime(es[..i + 1]) == TotalTime(es[..i]) + es[i].timeSpent
    ensures LastWithIssue(es[..i + 1], issue) == if es[i].issueID == issue then Some(i) else LastWithIssue(es[..i], issue)
  {
    assert es[..i + 1][..i] == es[..i];
  }

  lemma {:induction false} TotalTimeUpdate(es: seq<Entry>, i: nat, t: int)
    requires i < |es|
    ensures TotalTime(es[i := es[i].(timeSpent := t)]) == TotalTime(es) - es[i].timeSpent + t
  {
    var es' := es[i := es[i].(timeSpent := t)];
    var n := |es| - 1;
    if i < n {
      assert es'[..n] == es[..n][i := es[i].(timeSpent := t)];
      TotalTimeUpdate(es[..n], i, t);
    } else {
      assert es'[..n] == es[..n];
    }
  }

  /**
   A day of at least eight hours comes back unchanged; a shorter day adds
   up, after the top-up, to exactly eight hours and one minute.
   */
  lemma FillTotal(es: seq<Entry>, fillIssueID: string, fillIssueComment: string, processDate: Instant)
    ensures TotalTime(es) >= RequiredTimeSpent ==> Fill(es, fillIssueID, fillIssueComment, processDate) == es
    ensures TotalTime(es) < RequiredTimeSpent ==>
      TotalTime(Fill(es, fillIssueID, fillIssueComment, processDate)) == RequiredTimeSpent + FillBuffer
  {
    if TotalTime(es) < RequiredTimeSpent {
      match LastWithIssue(es, fillIssueID)
      case None =>
        var es' := es + [FillerEntry(fillIssueID, fillIssueComment, processDate, FillTime(es))];
        assert es'[..|es|] == es;
      case Some(i) =>
        TotalTimeUpdate(es, i, es[i].timeSpent + FillTime(es));
    }
  }

  /**
   At most one entry is added, and only when no entry is booked on the
   filler issue; it carries the filler issue, comment and processed day and
   no id. Otherwise only the last entry on the filler issue changes, and
   only in its duration.
   */
  lemma FillShape(es: seq<Entry>, fillIssueID: string, fillIssueComment: string, processDate: Instant)
    requires TotalTime(es) < RequiredTimeSpent
    ensures var es' := Fill(es, fillIssueID, fillIssueComment, processDate);
      && (|es'| == |es| + 1 <==> forall j :: 0 <= j < |es| ==> es[j].issueID != fillIssueID)
      && (|es'| == |es| || |es'| == |es| + 1)
      && (|es'| == |es| + 1 ==>
            es'[..|es|] == es
            && es'[|es|] == Entry(fillIssueID, FillTime(es), fillIssueComment, processDate, None))
      && (|es'| == |es| ==>
            exists i :: (0 <= i < |es| && es[i].issueID == fillIssueID
                         && (forall j :: i < j < |es| ==> es[j].issueID != fillIssueID)
                         && es'[i] == es[i].(timeSpent := es[i].timeSpent + FillTime(es))
                         && forall j :: 0 <= j < |es| && j != i ==> es'[j] == es[j]))
  {
    match LastWithIssue(es, fillIssueID)
    case None =>
    case Some(i) =>
  }

}

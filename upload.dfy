/**
 The upload loop over a day's entries: an entry already in the delivery
 ledger is skipped without any call; otherwise it is uploaded, and its id
 is recorded only when the reply carries no error messages. An exception
 during one upload is caught and the loop moves on; an entry without an id
 ends the run, since reading its id raises an uncaught type error.
 */
module Upload {

  import opened Wrappers
  import opened WorkLog
  import opened Jira

  /** The ledger's ids, the requests sent so far, the tracker's work logs, and whether the run has ended on an error. */
  datatype Progress = Progress(delivered: set<int>, sent: seq<Request>, tracker: Tracker, crashed: bool)

  /** The POST an entry's upload makes. */
  function EntryPost(e: Entry, notifyUsers: bool): Request
  {
    Post(e.issueID, e.timeSpent, e.comment, e.spentOn, notifyUsers)
  }

  /** The reply an entry's upload gets. */
  function ReplyTo(remote: JiraRemote, e: Entry, notifyUsers: bool): Reply
  {
    Outcome(remote, e.issueID, e.timeSpent, e.comment, e.spentOn, notifyUsers)
  }

  /** The requests an entry's upload sends, from the tracker's state `t`. */
  function UploadRequests(remote: JiraRemote, t: Tracker, e: Entry, userKey: string, overwrite: bool, notifyUsers: bool): seq<Request>
  {
    Exchange(remote, t, e.issueID, e.timeSpent, userKey, e.comment, e.spentOn, overwrite, notifyUsers)
  }

  /** One entry with an id, against the ledger. */
  function Deliver(e: Entry, p: Progress, remote: JiraRemote, userKey: string, overwrite: bool, notifyUsers: bool): Progress
    requires e.id.Some?
  {
    var k := e.id.value;
    if k in p.delivered then p
    else
      var saved := if Succeeded(ReplyTo(remote, e, notifyUsers)) then p.delivered + {k} else p.delivered;
      var rs := UploadRequests(remote, p.tracker, e, userKey, overwrite, notifyUsers);
      Progress(saved, p.sent + rs, Perform(remote, p.tracker, rs, userKey), false)
  }

  /**
   The loop over the entries, in order, starting from the ledger's ids
   `delivered`, the requests `sent` before it and the tracker's state.
   */
  function UploadAll(es: seq<Entry>, delivered: set<int>, sent: seq<Request>, tracker: Tracker, remote: JiraRemote,
                     userKey: string, overwrite: bool, notifyUsers: bool): Progress
  {
    if es == [] then Progress(delivered, sent, tracker, false)
    else
      var p := UploadAll(es[..|es| - 1], delivered, sent, tracker, remote, userKey, overwrite, notifyUsers);
      var e := es[|es| - 1];
      if p.crashed then p
      else if e.id.None? then p.(crashed := true)
      else Deliver(e, p, remote, userKey, overwrite, notifyUsers)
  }

  /** The position of the first entry without an id, or the length when every entry has one. */
  function FirstMissingId(es: seq<Entry>): (m: nat)
    ensures m <= |es| && (forall j :: 0 <= j < m ==> es[j].id.Some?) && (m < |es| ==> es[m].id.None?)
  {
    if es == [] || es[0].id.None? then 0 else 1 + FirstMissingId(es[1..])
  }

  /**
   The ledger only grows, and an id enters it exactly when an entry with
   that id was uploaded with a successful reply: after a run that did not
   end early, every entry whose reply succeeds is recorded, even when
   uploads before it threw or reported errors.
   */
  lemma {:induction false} UploadLedger(es: seq<Entry>, delivered: set<int>, sent: seq<Request>, tracker: Tracker,
                                        remote: JiraRemote, userKey: string, overwrite: bool, notifyUsers: bool)
    ensures var p := UploadAll(es, delivered, sent, tracker, remote, userKey, overwrite, notifyUsers);
      && delivered <= p.delivered
      && (forall k :: k in p.delivered && k !in delivered ==>
            exists i :: 0 <= i < |es| && es[i].id == Some(k) && Succeeded(ReplyTo(remote, es[i], notifyUsers)))
      && (!p.crashed ==> forall i :: 0 <= i < |es| && Succeeded(ReplyTo(remote, es[i], notifyUsers)) ==>
            es[i].id.Some? && es[i].id.value in p.delivered)
  {
    if es != [] {
      var front := es[..|es| - 1];
      UploadLedger(front, delivered, sent, tracker, remote, userKey, overwrite, notifyUsers);
      assert forall i :: 0 <= i < |front| ==> front[i] == es[i];
    }
  }

  /**
   Request `r` can belong to the upload of entry `e`: it names the entry's
   issue and is a listing, a DELETE, or exactly the entry's own POST.
   */
  predicate RequestOf(r: Request, e: Entry, notifyUsers: bool)
  {
    r.issue == e.issueID && (r.GetWorklogs? || r.DeleteWorklog? || r == EntryPost(e, notifyUsers))
  }

  /** Request `r` can belong to the upload of an entry of `es` whose id is not in `delivered`. */
  ghost predicate ForUndelivered(r: Request, es: seq<Entry>, delivered: set<int>, notifyUsers: bool)
  {
    exists i :: 0 <= i < |es| && es[i].id.Some? && es[i].id.value !in delivered && RequestOf(r, es[i], notifyUsers)
  }

  /**
   Request `r` can belong to the upload of an entry of `es` whose id is not
   in `delivered` and whose upload does not succeed.
   */
  ghost predicate ForFailed(r: Request, es: seq<Entry>, delivered: set<int>, remote: JiraRemote, notifyUsers: bool)
  {
    exists i :: 0 <= i < |es| && es[i].id.Some? && es[i].id.value !in delivered
                && !Succeeded(ReplyTo(remote, es[i], notifyUsers)) && RequestOf(r, es[i], notifyUsers)
  }

  lemma ForUndeliveredGrows(r: Request, es: seq<Entry>, n: nat, delivered: set<int>, notifyUsers: bool)
    requires n <= |es| && ForUndelivered(r, es[..n], delivered, notifyUsers)
    ensures ForUndelivered(r, es, delivered, notifyUsers)
  {
    var i :| 0 <= i < n && es[..n][i].id.Some? && es[..n][i].id.value !in delivered && RequestOf(r, es[..n][i], notifyUsers);
    assert es[..n][i] == es[i];
  }

  lemma ForFailedGrows(r: Request, es: seq<Entry>, n: nat, delivered: set<int>, remote: JiraRemote, notifyUsers: bool)
    requires n <= |es| && ForFailed(r, es[..n], delivered, remote, notifyUsers)
    ensures ForFailed(r, es, delivered, remote, notifyUsers)
  {
    var i :| 0 <= i < n && es[..n][i].id.Some? && es[..n][i].id.value !in delivered
             && !Succeeded(ReplyTo(remote, es[..n][i], notifyUsers)) && RequestOf(r, es[..n][i], notifyUsers);
    assert es[..n][i] == es[i];
  }

  /** Every request of one upload belongs to it: the listing, DELETEs on its issue, and its own POST. */
  lemma UploadRequestsOf(remote: JiraRemote, t: Tracker, e: Entry, userKey: string, overwrite: bool, notifyUsers: bool)
    ensures forall r :: r in UploadRequests(remote, t, e, userKey, overwrite, notifyUsers) ==> RequestOf(r, e, notifyUsers)
  {
    var post := EntryPost(e, notifyUsers);
    var listing := Listed(remote, t, e.issueID);
    if listing.Worklogs? {
      ScanRequests(e.issueID, listing.logs, e.spentOn.day, userKey, overwrite, post);
    }
  }

  lemma {:induction false} ScanRequests(issue: string, logs: seq<RemoteWorkLog>, day: int, userKey: string,
                                        overwrite: bool, post: Request)
    ensures forall r :: r in ScanWrites(issue, logs, day, userKey, overwrite, post) ==>
      (r.DeleteWorklog? && r.issue == issue) || r == post
  {
    if logs != [] {
      ScanRequests(issue, logs[1..], day, userKey, overwrite, post);
    }
  }

  /**
   A run keeps the requests sent before it, and every request it adds
   belongs to the upload of an entry whose id was not delivered before it.
   */
  lemma {:induction false} OnlyUndeliveredAreSent(es: seq<Entry>, delivered: set<int>, sent: seq<Request>, tracker: Tracker,
                                                  remote: JiraRemote, userKey: string, overwrite: bool, notifyUsers: bool)
    ensures var p := UploadAll(es, delivered, sent, tracker, remote, userKey, overwrite, notifyUsers);
      && |sent| <= |p.sent| && p.sent[..|sent|] == sent
      && forall j :: |sent| <= j < |p.sent| ==> ForUndelivered(p.sent[j], es, delivered, notifyUsers)
  {
    if es != [] {
      var n := |es| - 1;
      var front := es[..n];
      var e := es[n];
      OnlyUndeliveredAreSent(front, delivered, sent, tracker, remote, userKey, overwrite, notifyUsers);
      UploadLedger(front, delivered, sent, tracker, remote, userKey, overwrite, notifyUsers);
      var p := UploadAll(front, delivered, sent, tracker, remote, userKey, overwrite, notifyUsers);
      var x := if !p.crashed && e.id.Some? && e.id.value !in p.delivered
               then UploadRequests(remote, p.tracker, e, userKey, overwrite, notifyUsers) else [];
      assert UploadAll(es, delivered, sent, tracker, remote, userKey, overwrite, notifyUsers).sent == p.sent + x;
      if x != [] {
        UploadRequestsOf(remote, p.tracker, e, userKey, overwrite, notifyUsers);
        LastEntryRequests(x, es, delivered, notifyUsers);
      }
      AppendedRequests(p.sent, x, sent, es, delivered, notifyUsers);
    }
  }

  /** Requests of the last entry, whose id is not in `delivered`, belong to an undelivered entry. */
  lemma LastEntryRequests(x: seq<Request>, es: seq<Entry>, delivered: set<int>, notifyUsers: bool)
    requires |es| > 0 && es[|es| - 1].id.Some? && es[|es| - 1].id.value !in delivered
    requires forall r :: r in x ==> RequestOf(r, es[|es| - 1], notifyUsers)
    ensures forall r :: r in x ==> ForUndelivered(r, es, delivered, notifyUsers)
  {
  }

  /** Extending the run's requests by requests of undelivered entries keeps the property of the whole run. */
  lemma AppendedRequests(before: seq<Request>, x: seq<Request>, sent: seq<Request>, es: seq<Entry>,
                         delivered: set<int>, notifyUsers: bool)
    requires |es| > 0 && |sent| <= |before| && before[..|sent|] == sent
    requires forall j :: |sent| <= j < |before| ==> ForUndelivered(before[j], es[..|es| - 1], delivered, notifyUsers)
    requires forall r :: r in x ==> ForUndelivered(r, es, delivered, notifyUsers)
    ensures (before + x)[..|sent|] == sent
    ensures forall j :: |sent| <= j < |before + x| ==> ForUndelivered((before + x)[j], es, delivered, notifyUsers)
  {
    assert (before + x)[..|sent|] == before[..|sent|];
    forall j | |sent| <= j < |before + x|
      ensures ForUndelivered((before + x)[j], es, delivered, notifyUsers)
    {
      if j < |before| {
        ForUndeliveredGrows(before[j], es, |es| - 1, delivered, notifyUsers);
      } else {
        assert (before + x)[j] in x;
      }
    }
  }

  /**
   An entry whose id the ledger already holds when the loop reaches it
   (delivered before the run, or earlier in it) sends no request and
   changes nothing.
   */
  lemma DeliveredEntrySendsNothing(es: seq<Entry>, i: nat, delivered: set<int>, sent: seq<Request>, tracker: Tracker,
                                   remote: JiraRemote, userKey: string, overwrite: bool, notifyUsers: bool)
    requires i < |es| && es[i].id.Some?
    requires es[i].id.value in delivered
             || es[i].id.value in UploadAll(es[..i], delivered, sent, tracker, remote, userKey, overwrite, notifyUsers).delivered
    ensures UploadAll(es[..i + 1], delivered, sent, tracker, remote, userKey, overwrite, notifyUsers)
            == UploadAll(es[..i], delivered, sent, tracker, remote, userKey, overwrite, notifyUsers)
  {
    UploadLedger(es[..i], delivered, sent, tracker, remote, userKey, overwrite, notifyUsers);
    assert es[..i + 1][..i] == es[..i];
  }

  /**
   Running the upload loop a second time, from the ledger, requests and
   tracker the first run left, sends nothing for an entry the first run
   delivered: every request the second run adds belongs to the upload of an
   entry whose id the first run did not record and whose upload does not
   succeed. This holds also when the run ends at an entry without an id.
   */
  lemma SecondRunRepeatsNothing(es: seq<Entry>, delivered: set<int>, sent: seq<Request>, tracker: Tracker,
                                remote: JiraRemote, userKey: string, overwrite: bool, notifyUsers: bool)
    ensures var first := UploadAll(es, delivered, sent, tracker, remote, userKey, overwrite, notifyUsers);
      var second := UploadAll(es, first.delivered, first.sent, first.tracker, remote, userKey, overwrite, notifyUsers);
      forall j :: |first.sent| <= j < |second.sent| ==> ForFailed(second.sent[j], es, first.delivered, remote, notifyUsers)
  {
    var m := FirstMissingId(es);
    var first := UploadAll(es, delivered, sent, tracker, remote, userKey, overwrite, notifyUsers);
    var second := UploadAll(es, first.delivered, first.sent, first.tracker, remote, userKey, overwrite, notifyUsers);
    if m < |es| {
      var front := es[..m];
      assert forall j :: 0 <= j < |front| ==> front[j].id.Some?;
      UploadStopsAtMissingId(es, delivered, sent, tracker, remote, userKey, overwrite, notifyUsers, m);
      UploadStopsAtMissingId(es, first.delivered, first.sent, first.tracker, remote, userKey, overwrite, notifyUsers, m);
      SecondRunAllIds(front, delivered, sent, tracker, remote, userKey, overwrite, notifyUsers);
      forall j | |first.sent| <= j < |second.sent|
        ensures ForFailed(second.sent[j], es, first.delivered, remote, notifyUsers)
      {
        ForFailedGrows(second.sent[j], es, m, first.delivered, remote, notifyUsers);
      }
    } else {
      assert forall j :: 0 <= j < |es| ==> es[j].id.Some?;
      SecondRunAllIds(es, delivered, sent, tracker, remote, userKey, overwrite, notifyUsers);
    }
  }

  /** The second run, when every entry has an id. */
  lemma SecondRunAllIds(es: seq<Entry>, delivered: set<int>, sent: seq<Request>, tracker: Tracker,
                        remote: JiraRemote, userKey: string, overwrite: bool, notifyUsers: bool)
    requires forall j :: 0 <= j < |es| ==> es[j].id.Some?
    ensures var first := UploadAll(es, delivered, sent, tracker, remote, userKey, overwrite, notifyUsers);
      var second := UploadAll(es, first.delivered, first.sent, first.tracker, remote, userKey, overwrite, notifyUsers);
      forall j :: |first.sent| <= j < |second.sent| ==> ForFailed(second.sent[j], es, first.delivered, remote, notifyUsers)
  {
    var first := UploadAll(es, delivered, sent, tracker, remote, userKey, overwrite, notifyUsers);
    var second := UploadAll(es, first.delivered, first.sent, first.tracker, remote, userKey, overwrite, notifyUsers);
    UploadNeverCrashes(es, delivered, sent, tracker, remote, userKey, overwrite, notifyUsers);
    UploadLedger(es, delivered, sent, tracker, remote, userKey, overwrite, notifyUsers);
    OnlyUndeliveredAreSent(es, first.delivered, first.sent, first.tracker, remote, userKey, overwrite, notifyUsers);
    forall j | |first.sent| <= j < |second.sent|
      ensures ForFailed(second.sent[j], es, first.delivered, remote, notifyUsers)
    {
      assert ForUndelivered(second.sent[j], es, first.delivered, notifyUsers);
      var i :| 0 <= i < |es| && es[i].id.Some? && es[i].id.value !in first.delivered && RequestOf(second.sent[j], es[i], notifyUsers);
    }
  }

  /**
   The run ends early exactly when some entry has no id; it then ends at
   the first such entry, and the entries after it are never uploaded.
   */
  lemma {:induction false} UploadStopsAtMissingId(es: seq<Entry>, delivered: set<int>, sent: seq<Request>, tracker: Tracker,
                                                  remote: JiraRemote, userKey: string, overwrite: bool, notifyUsers: bool, m: nat)
    requires m < |es| && es[m].id.None? && forall j :: 0 <= j < m ==> es[j].id.Some?
    ensures UploadAll(es, delivered, sent, tracker, remote, userKey, overwrite, notifyUsers)
            == UploadAll(es[..m], delivered, sent, tracker, remote, userKey, overwrite, notifyUsers).(crashed := true)
  {
    var front := es[..|es| - 1];
    if m < |es| - 1 {
      assert front[..m] == es[..m];
      UploadStopsAtMissingId(front, delivered, sent, tracker, remote, userKey, overwrite, notifyUsers, m);
    } else {
      assert front == es[..m];
      UploadNeverCrashes(front, delivered, sent, tracker, remote, userKey, overwrite, notifyUsers);
    }
  }

  /** Entries that all have ids never end the run. */
  lemma {:induction false} UploadNeverCrashes(es: seq<Entry>, delivered: set<int>, sent: seq<Request>, tracker: Tracker,
                                              remote: JiraRemote, userKey: string, overwrite: bool, notifyUsers: bool)
    requires forall j :: 0 <= j < |es| ==> es[j].id.Some?
    ensures !UploadAll(es, delivered, sent, tracker, remote, userKey, overwrite, notifyUsers).crashed
  {
    if es != [] {
      UploadNeverCrashes(es[..|es| - 1], delivered, sent, tracker, remote, userKey, overwrite, notifyUsers);
    }
  }

  /** One more entry with an id, after a prefix that did not end the run. */
  lemma UploadNext(es: seq<Entry>, i: nat, delivered: set<int>, sent: seq<Request>, tracker: Tracker,
                   remote: JiraRemote, userKey: string, overwrite: bool, notifyUsers: bool)
    requires i < |es| && es[i].id.Some?
    requires !UploadAll(es[..i], delivered, sent, tracker, remote, userKey, overwrite, notifyUsers).crashed
    ensures var before := UploadAll(es[..i], delivered, sent, tracker, remote, userKey, overwrite, notifyUsers);
      UploadAll(es[..i + 1], delivered, sent, tracker, remote, userKey, overwrite, notifyUsers)
      == Deliver(es[i], before, remote, userKey, overwrite, notifyUsers)
  {
    assert es[..i + 1][..i] == es[..i];
  }

  /**
   With overwrite, a successful upload of `e1` adds a work log with the
   tracker's next id, of `e1`'s start and by the user; a later entry `e2`
   of the same run, on the same issue and day, lists that work log among
   its own day's and deletes it. Both ids end up in the ledger's record of
   the run while the tracker keeps only `e2`'s work log.
   */
  lemma SameRunOverwriteDeletesEarlierPost(e1: Entry, e2: Entry, delivered: set<int>, sent: seq<Request>, t: Tracker,
                                           remote: JiraRemote, userKey: string, notifyUsers: bool)
    requires e1.id.Some? && e2.id.Some? && e1.id.value != e2.id.value
    requires e1.id.value !in delivered && e2.id.value !in delivered
    requires e1.issueID == e2.issueID && e1.spentOn.day == e2.spentOn.day
    requires !remote.listingFails(e1.issueID) && Succeeded(ReplyTo(remote, e1, notifyUsers))
    ensures var p1 := UploadAll([e1], delivered, sent, t, remote, userKey, true, notifyUsers);
      var p := UploadAll([e1, e2], delivered, sent, t, remote, userKey, true, notifyUsers);
      && e1.id.value in p.delivered
      && e1.issueID in p1.tracker.logs && RemoteWorkLog(t.nextId, e1.spentOn, userKey) in p1.tracker.logs[e1.issueID]
      && |p1.sent| <= |p.sent| && DeleteWorklog(e1.issueID, t.nextId) in p.sent[|p1.sent|..]
      && e1.issueID in p.tracker.logs && forall l :: l in p.tracker.logs[e1.issueID] ==> l.id != t.nextId
  {
    var issue := e1.issueID;
    var p0 := Progress(delivered, sent, t, false);
    assert UploadAll([], delivered, sent, t, remote, userKey, true, notifyUsers) == p0;
    assert [e1][..0] == [] && [e1, e2][..1] == [e1];
    var p1 := UploadAll([e1], delivered, sent, t, remote, userKey, true, notifyUsers);
    assert p1 == Deliver(e1, p0, remote, userKey, true, notifyUsers);
    FirstUploadAdds(e1, t, remote, userKey, notifyUsers);
    assert e2.id.value !in p1.delivered;
    var x2 := UploadRequests(remote, p1.tracker, e2, userKey, true, notifyUsers);
    var p := UploadAll([e1, e2], delivered, sent, t, remote, userKey, true, notifyUsers);
    assert p == Deliver(e2, p1, remote, userKey, true, notifyUsers);
    assert p.sent[|p1.sent|..] == x2;
    SecondUploadDeletes(e2, p1.tracker, t.nextId, remote, userKey, notifyUsers);
  }

  /** The first upload's effect: the tracker gains the entry's work log under the next id. */
  lemma FirstUploadAdds(e: Entry, t: Tracker, remote: JiraRemote, userKey: string, notifyUsers: bool)
    requires !remote.listingFails(e.issueID) && Succeeded(ReplyTo(remote, e, notifyUsers))
    ensures var t1 := Perform(remote, t, UploadRequests(remote, t, e, userKey, true, notifyUsers), userKey);
      && e.issueID in t1.logs && RemoteWorkLog(t.nextId, e.spentOn, userKey) in t1.logs[e.issueID]
      && t1.nextId == t.nextId + 1
  {
    var issue := e.issueID;
    var m := if issue in t.logs then Matching(t.logs[issue], e.spentOn.day, userKey) else [];
    var post := EntryPost(e, notifyUsers);
    OverwriteExchange(remote, t, issue, e.timeSpent, userKey, e.comment, e.spentOn, notifyUsers);
    DeletesEffect(remote, t, issue, m, t.nextId, userKey);
    var td := Perform(remote, t, Deletes(issue, m), userKey);
    var before := if issue in td.logs then td.logs[issue] else [];
    assert Apply(remote, td, post, userKey)
           == Tracker(td.logs[issue := before + [RemoteWorkLog(td.nextId, e.spentOn, userKey)]], td.nextId + 1);
  }

  /**
   A later upload with overwrite, on a day and issue where the tracker holds
   the user's work log with id `x`, leaves no work log with that id.
   */
  lemma SecondUploadDeletes(e: Entry, t: Tracker, x: int, remote: JiraRemote, userKey: string, notifyUsers: bool)
    requires !remote.listingFails(e.issueID) && e.issueID in t.logs && x < t.nextId
    requires exists l :: l in t.logs[e.issueID] && l.id == x && SameDayAndAuthor(l, e.spentOn.day, userKey)
    ensures var rs := UploadRequests(remote, t, e, userKey, true, notifyUsers);
      var t2 := Perform(remote, t, rs, userKey);
      && DeleteWorklog(e.issueID, x) in rs
      && e.issueID in t2.logs && forall l :: l in t2.logs[e.issueID] ==> l.id != x
  {
    var issue := e.issueID;
    var m := Matching(t.logs[issue], e.spentOn.day, userKey);
    var l :| l in t.logs[issue] && l.id == x && SameDayAndAuthor(l, e.spentOn.day, userKey);
    assert l in m;
    OverwriteExchange(remote, t, issue, e.timeSpent, userKey, e.comment, e.spentOn, notifyUsers);
    DeleteListed(issue, m, l, UploadRequests(remote, t, e, userKey, true, notifyUsers), EntryPost(e, notifyUsers));
    DeletesEffect(remote, t, issue, m, x, userKey);
    PostKeepsOut(remote, Perform(remote, t, Deletes(issue, m), userKey), issue, x, EntryPost(e, notifyUsers), userKey);
  }

  /** The DELETE of a listed work log is among the upload's requests. */
  lemma DeleteListed(issue: string, m: seq<RemoteWorkLog>, l: RemoteWorkLog, rs: seq<Request>, post: Request)
    requires l in m && rs == [GetWorklogs(issue)] + Deletes(issue, m) + [post]
    ensures DeleteWorklog(issue, l.id) in rs
  {
    var k :| 0 <= k < |m| && m[k] == l;
    assert rs[1 + k] == Deletes(issue, m)[k];
  }

  /** A POST adds only a work log with the tracker's next id, so an older id stays absent. */
  lemma PostKeepsOut(remote: JiraRemote, t: Tracker, issue: string, x: int, post: Request, author: string)
    requires post.PostWorklog? && post.issue == issue && issue in t.logs && x < t.nextId
    requires forall l :: l in t.logs[issue] ==> l.id != x
    ensures var t' := Apply(remote, t, post, author);
      issue in t'.logs && forall l :: l in t'.logs[issue] ==> l.id != x
  {
  }

}

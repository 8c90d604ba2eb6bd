/**
 The issue tracker's work-log upload. Remote calls are modelled as an
 action trace of requests (GET listing, DELETE one work log, POST a new
 one). The tracker's work logs are state that the DELETEs and the
 successful POSTs change, so a later listing sees the earlier writes; its
 other answers are inputs held in a `JiraRemote`.
 */
module Jira {

  import opened Wrappers
  import opened Calendar

  /** The body of the work-log creation call. */
  datatype Params = Params(timeSpentSeconds: int, comment: string, started: Instant)

  datatype Request =
    | GetWorklogs(issue: string)
    | DeleteWorklog(issue: string, worklogId: int)
    | PostWorklog(issue: string, params: Params, notify: string)

  /** One existing work log of an issue, as listed by the tracker. */
  datatype RemoteWorkLog = RemoteWorkLog(id: int, started: Instant, authorKey: string)

  /** The listing of an issue's work logs: the call threw, the answer had no `worklogs` key, or the logs. */
  datatype Listing = ListingFailed | NoWorklogs | Worklogs(logs: seq<RemoteWorkLog>)

  /** The outcome of the creation call: it threw, or the result with its optional `errorMessages`. */
  datatype Reply = Threw | Result(errorMessages: Option<seq<string>>)

  /**
   What the tracker answers independently of its work logs: the key of a
   user name, whether listing an issue throws, the reply to a POST.
   */
  datatype JiraRemote = JiraRemote(
    userKey: string -> Option<string>,
    listingFails: string -> bool,
    reply: Request -> Reply)

  /**
   The tracker's work logs per issue (an issue without an entry answers
   without a `worklogs` key) and the id the next created work log gets.
   */
  datatype Tracker = Tracker(logs: map<string, seq<RemoteWorkLog>>, nextId: int)

  /** The listing of an issue in the tracker's current state. */
  function Listed(remote: JiraRemote, t: Tracker, issue: string): (l: Listing)
    ensures l.ListingFailed? <==> remote.listingFails(issue)
  {
    if remote.listingFails(issue) then ListingFailed
    else if issue in t.logs then Worklogs(t.logs[issue])
    else NoWorklogs
  }

  /** The upload counts as delivered: a result whose `errorMessages` is absent or empty. */
  predicate Succeeded(reply: Reply)
  {
    reply.Result? && !(reply.errorMessages.Some? && |reply.errorMessages.value| > 0)
  }

  /** A list of work logs less those with the given id, in order. */
  function Without(logs: seq<RemoteWorkLog>, id: int): (r: seq<RemoteWorkLog>)
    ensures forall l :: l in r <==> l in logs && l.id != id
  {
    if logs == [] then []
    else if logs[0].id == id then Without(logs[1..], id)
    else [logs[0]] + Without(logs[1..], id)
  }

  /**
   The effect of one request on the tracker: a listing changes nothing, a
   DELETE removes the work log, and a POST whose reply succeeds adds a work
   log with the next id, the requested start and the author's key.
   */
  function Apply(remote: JiraRemote, t: Tracker, r: Request, author: string): Tracker
  {
    match r
    case GetWorklogs(_) => t
    case DeleteWorklog(issue, id) =>
      if issue in t.logs then t.(logs := t.logs[issue := Without(t.logs[issue], id)]) else t
    case PostWorklog(issue, params, _) =>
      if Succeeded(remote.reply(r)) then
        var before := if issue in t.logs then t.logs[issue] else [];
        Tracker(t.logs[issue := before + [RemoteWorkLog(t.nextId, params.started, author)]], t.nextId + 1)
      else t
  }

  /** The effect of a list of requests, in order. */
  function Perform(remote: JiraRemote, t: Tracker, rs: seq<Request>, author: string): Tracker
    decreases |rs|
  {
    if rs == [] then t else Perform(remote, Apply(remote, t, rs[0], author), rs[1..], author)
  }

  /** The `notifyUsers` query value. */
  function NotifyFlag(notifyUsers: bool): (flag: string)
    ensures flag == "true" || flag == "false"
    ensures flag == "true" <==> notifyUsers
  {
    if notifyUsers then "true" else "false"
  }

  /** The creation request for an entry; every argument is passed through unchanged. */
  function Post(issue: string, seconds: int, comment: string, started: Instant, notifyUsers: bool): (r: Request)
    ensures r.PostWorklog? && r.issue == issue
    ensures r.params.timeSpentSeconds == seconds && r.params.comment == comment && r.params.started == started
    ensures r.notify == NotifyFlag(notifyUsers)
  {
    PostWorklog(issue, Params(seconds, comment, started), NotifyFlag(notifyUsers))
  }

  /** An existing work log is a candidate for overwrite or skip: same day, same author. */
  predicate SameDayAndAuthor(log: RemoteWorkLog, day: int, userKey: string)
  {
    log.started.day == day && log.authorKey == userKey
  }

  /**
   The writes issued while scanning the listed work logs in order: a
   non-matching log is passed over; a matching one either triggers the
   POST at once (no overwrite) or is deleted (overwrite); the POST
   closes the scan.
   */
  function ScanWrites(issue: string, logs: seq<RemoteWorkLog>, day: int, userKey: string,
                      overwrite: bool, post: Request): seq<Request>
  {
    if logs == [] then [post]
    else if !SameDayAndAuthor(logs[0], day, userKey) then ScanWrites(issue, logs[1..], day, userKey, overwrite, post)
    else if !overwrite then [post]
    else [DeleteWorklog(issue, logs[0].id)] + ScanWrites(issue, logs[1..], day, userKey, overwrite, post)
  }

  /** The writes of one upload, after the listing. */
  function Writes(listing: Listing, issue: string, day: int, userKey: string, overwrite: bool, post: Request): seq<Request>
  {
    match listing
    case ListingFailed => []
    case NoWorklogs => [post]
    case Worklogs(logs) => ScanWrites(issue, logs, day, userKey, overwrite, post)
  }

  /** Everything one upload sends, from the tracker's state `t`: the listing request, then its writes. */
  function Exchange(remote: JiraRemote, t: Tracker, issue: string, seconds: int, userKey: string, comment: string,
                    started: Instant, overwrite: bool, notifyUsers: bool): seq<Request>
  {
    [GetWorklogs(issue)]
      + Writes(Listed(remote, t, issue), issue, started.day, userKey, overwrite, Post(issue, seconds, comment, started, notifyUsers))
  }

  /** What one upload returns: the exception of a failed listing, or the reply to its POST. */
  function Outcome(remote: JiraRemote, issue: string, seconds: int, comment: string, started: Instant, notifyUsers: bool): Reply
  {
    if remote.listingFails(issue) then Threw
    else remote.reply(Post(issue, seconds, comment, started, notifyUsers))
  }

  /** `m` is `logs` with some elements left out, the rest keeping their order. */
  ghost predicate InOrder(m: seq<RemoteWorkLog>, logs: seq<RemoteWorkLog>)
  {
    if m == [] then true
    else if logs == [] then false
    else if m[0] == logs[0] then InOrder(m[1..], logs[1..])
    else InOrder(m, logs[1..])
  }

  /** The work logs of a listing that share the entry's day and author, in listing order. */
  function Matching(logs: seq<RemoteWorkLog>, day: int, userKey: string): (m: seq<RemoteWorkLog>)
    ensures forall l :: l in m <==> l in logs && SameDayAndAuthor(l, day, userKey)
    ensures InOrder(m, logs)
  {
    if logs == [] then []
    else if SameDayAndAuthor(logs[0], day, userKey) then
      var rest := Matching(logs[1..], day, userKey);
      assert ([logs[0]] + rest)[1..] == rest;
      [logs[0]] + rest
    else
      var rest := Matching(logs[1..], day, userKey);
      assert rest != [] ==> rest[0] in rest && rest[0] != logs[0];
      rest
  }

  /** The DELETE requests for a list of work logs, in order. */
  function Deletes(issue: string, logs: seq<RemoteWorkLog>): (ds: seq<Request>)
    ensures |ds| == |logs|
    ensures forall i :: 0 <= i < |logs| ==> ds[i] == DeleteWorklog(issue, logs[i].id)
  {
    if logs == [] then [] else [DeleteWorklog(issue, logs[0].id)] + Deletes(issue, logs[1..])
  }

  /** Every scan ends with exactly one POST, and everything before it is a DELETE. */
  lemma {:induction false} ScanEndsWithOnePost(issue: string, logs: seq<RemoteWorkLog>, day: int, userKey: string,
                                               overwrite: bool, post: Request)
    requires post.PostWorklog?
    ensures var w := ScanWrites(issue, logs, day, userKey, overwrite, post);
      |w| >= 1 && w[|w| - 1] == post && forall i :: 0 <= i < |w| - 1 ==> w[i].DeleteWorklog?
  {
    if logs != [] {
      ScanEndsWithOnePost(issue, logs[1..], day, userKey, overwrite, post);
    }
  }

  /** Without overwrite nothing is deleted: the scan issues the POST and nothing else. */
  lemma {:induction false} NoOverwriteOnlyPosts(issue: string, logs: seq<RemoteWorkLog>, day: int, userKey: string,
                                                post: Request)
    ensures ScanWrites(issue, logs, day, userKey, false, post) == [post]
  {
    if logs != [] && !SameDayAndAuthor(logs[0], day, userKey) {
      NoOverwriteOnlyPosts(issue, logs[1..], day, userKey, post);
    }
  }

  /**
   With overwrite, every work log of the same day and author is deleted,
   in listing order, and the POST follows all the deletes.
   */
  lemma {:induction false} OverwriteDeletesAllMatching(issue: string, logs: seq<RemoteWorkLog>, day: int, userKey: string,
                                                       post: Request)
    ensures ScanWrites(issue, logs, day, userKey, true, post) == Deletes(issue, Matching(logs, day, userKey)) + [post]
  {
    if logs != [] {
      OverwriteDeletesAllMatching(issue, logs[1..], day, userKey, post);
      if SameDayAndAuthor(logs[0], day, userKey) {
        var rest := Matching(logs[1..], day, userKey);
        assert Deletes(issue, [logs[0]] + rest) == [DeleteWorklog(issue, logs[0].id)] + Deletes(issue, rest);
      }
    }
  }

  /** A work log of another day or another author is never deleted, whatever the flag. */
  lemma NeverDeletesOthers(issue: string, logs: seq<RemoteWorkLog>, day: int, userKey: string,
                           overwrite: bool, post: Request, i: int)
    requires post.PostWorklog?
    requires 0 <= i < |ScanWrites(issue, logs, day, userKey, overwrite, post)|
    requires ScanWrites(issue, logs, day, userKey, overwrite, post)[i].DeleteWorklog?
    ensures exists l :: l in logs && SameDayAndAuthor(l, day, userKey)
                        && ScanWrites(issue, logs, day, userKey, overwrite, post)[i] == DeleteWorklog(issue, l.id)
  {
    if overwrite {
      OverwriteDeletesAllMatching(issue, logs, day, userKey, post);
      var m := Matching(logs, day, userKey);
      assert i < |m|;
      assert m[i] in m;
    } else {
      NoOverwriteOnlyPosts(issue, logs, day, userKey, post);
    }
  }

  /**
   Every upload sends the listing request first and exactly one POST last
   (unless the listing threw); a listing without work logs, or with none of
   the same day and author, leaves the POST as the only write.
   */
  lemma UploadShape(remote: JiraRemote, t: Tracker, issue: string, seconds: int, userKey: string, comment: string,
                    started: Instant, overwrite: bool, notifyUsers: bool)
    ensures var x := Exchange(remote, t, issue, seconds, userKey, comment, started, overwrite, notifyUsers);
      var post := Post(issue, seconds, comment, started, notifyUsers);
      var listing := Listed(remote, t, issue);
      x[0] == GetWorklogs(issue)
      && (listing.ListingFailed? <==> |x| == 1)
      && (!listing.ListingFailed? ==> x[|x| - 1] == post && forall i :: 1 <= i < |x| - 1 ==> x[i].DeleteWorklog?)
      && (listing.NoWorklogs? ==> x == [GetWorklogs(issue), post])
      && (listing.Worklogs? && Matching(listing.logs, started.day, userKey) == [] ==> x == [GetWorklogs(issue), post])
  {
    var post := Post(issue, seconds, comment, started, notifyUsers);
    var listing := Listed(remote, t, issue);
    if listing.Worklogs? {
      ScanEndsWithOnePost(issue, listing.logs, started.day, userKey, overwrite, post);
      if Matching(listing.logs, started.day, userKey) == [] {
        if overwrite {
          OverwriteDeletesAllMatching(issue, listing.logs, started.day, userKey, post);
        } else {
          NoOverwriteOnlyPosts(issue, listing.logs, started.day, userKey, post);
        }
      }
    }
  }

  /** One more step: the effect of a list of requests followed by a further list. */
  lemma {:induction false} PerformConcat(remote: JiraRemote, t: Tracker, a: seq<Request>, b: seq<Request>, author: string)
    ensures Perform(remote, t, a + b, author) == Perform(remote, Perform(remote, t, a, author), b, author)
    decreases |a|
  {
    if a != [] {
      var t1 := Apply(remote, t, a[0], author);
      assert (a + b)[0] == a[0] && (a + b)[1..] == a[1..] + b;
      assert Perform(remote, t, a + b, author) == Perform(remote, t1, a[1..] + b, author);
      assert Perform(remote, t, a, author) == Perform(remote, t1, a[1..], author);
      PerformConcat(remote, t1, a[1..], b, author);
    } else {
      assert a + b == b;
    }
  }

  /**
   DELETEs never create a work log and never use up an id; a DELETE of id
   `x` on an issue leaves no work log with that id there, and later DELETEs
   do not bring one back.
   */
  lemma {:induction false} DeletesEffect(remote: JiraRemote, t: Tracker, issue: string, ls: seq<RemoteWorkLog>, x: int,
                                         author: string)
    ensures var t' := Perform(remote, t, Deletes(issue, ls), author);
      && t'.nextId == t.nextId && t'.logs.Keys == t.logs.Keys
      && (issue in t.logs && ((exists l :: l in ls && l.id == x) || forall l :: l in t.logs[issue] ==> l.id != x)
          ==> forall l :: l in t'.logs[issue] ==> l.id != x)
    decreases |ls|
  {
    if ls != [] {
      var ds := Deletes(issue, ls);
      assert ds[0] == DeleteWorklog(issue, ls[0].id) && ds[1..] == Deletes(issue, ls[1..]);
      var t1 := Apply(remote, t, ds[0], author);
      DeletesEffect(remote, t1, issue, ls[1..], x, author);
      if issue in t.logs && !(exists l :: l in ls[1..] && l.id == x) && (exists l :: l in ls && l.id == x) {
        assert ls[0].id == x by {
          var l :| l in ls && l.id == x;
          if l != ls[0] { assert l in ls[1..]; }
        }
      }
    }
  }

  /**
   With overwrite, and a listing that does not throw, an upload is the
   listing request, the DELETEs of the same-day same-author work logs, then
   the POST; its effect is the POST applied after the DELETEs.
   */
  lemma OverwriteExchange(remote: JiraRemote, t: Tracker, issue: string, seconds: int, userKey: string, comment: string,
                          started: Instant, notifyUsers: bool)
    requires !remote.listingFails(issue)
    ensures var m := if issue in t.logs then Matching(t.logs[issue], started.day, userKey) else [];
      var post := Post(issue, seconds, comment, started, notifyUsers);
      var x := Exchange(remote, t, issue, seconds, userKey, comment, started, true, notifyUsers);
      && x == [GetWorklogs(issue)] + Deletes(issue, m) + [post]
      && Perform(remote, t, x, userKey) == Apply(remote, Perform(remote, t, Deletes(issue, m), userKey), post, userKey)
  {
    var m := if issue in t.logs then Matching(t.logs[issue], started.day, userKey) else [];
    var post := Post(issue, seconds, comment, started, notifyUsers);
    var x := Exchange(remote, t, issue, seconds, userKey, comment, started, true, notifyUsers);
    if issue in t.logs {
      OverwriteDeletesAllMatching(issue, t.logs[issue], started.day, userKey, post);
    }
    assert x == [GetWorklogs(issue)] + (Deletes(issue, m) + [post]);
    assert Perform(remote, t, x, userKey) == Perform(remote, t, Deletes(issue, m) + [post], userKey);
    PerformConcat(remote, t, Deletes(issue, m), [post], userKey);
  }

  /**
   The client of the issue tracker: `sent` is every request it has issued,
   in order, and `tracker` the tracker's work logs as those requests left
   them. A created work log's author is the user key the upload is made for.
   */
  class Api {
    const remote: JiraRemote
    var sent: seq<Request>
    var tracker: Tracker

    constructor (remote: JiraRemote, tracker: Tracker)
      ensures this.remote == remote && sent == [] && this.tracker == tracker
    {
      this.remote := remote;
      sent := [];
      this.tracker := tracker;
    }

    /**
     Uploads one work log: lists the issue's work logs, scans those of the
     same day and author (deleting each with overwrite, posting at the first
     without), and posts the new one if the scan did not already.
     */
    method AddWorkLogEntry(issueID: string, seconds: int, userKey: string, comment: string,
                           created: Instant, overwrite: bool, notifyUsers: bool) returns (reply: Reply)
      modifies this
      ensures sent == old(sent) + Exchange(remote, old(tracker), issueID, seconds, userKey, comment, created, overwrite, notifyUsers)
      ensures tracker == Perform(remote, old(tracker),
                                 Exchange(remote, old(tracker), issueID, seconds, userKey, comment, created, overwrite, notifyUsers),
                                 userKey)
      ensures reply == Outcome(remote, issueID, seconds, comment, created, notifyUsers)
    {
      var notify := if notifyUsers then "true" else "false";
      var params := Params(seconds, comment, created);
      var post := PostWorklog(issueID, params, notify);
      ghost var all := Exchange(remote, tracker, issueID, seconds, userKey, comment, created, overwrite, notifyUsers);
      assert Perform(remote, tracker, all, userKey) == Perform(remote, tracker, all[1..], userKey);
      sent := sent + [GetWorklogs(issueID)];
      var workLogResult := Listed(remote, tracker, issueID);
      if workLogResult.ListingFailed? {
        assert all[1..] == [];
        return Threw;
      }
      var logs := if workLogResult.Worklogs? then workLogResult.logs else [];
      assert all[1..] == ScanWrites(issueID, logs, created.day, userKey, overwrite, post);
      reply := ScanAndPost(issueID, logs, created.day, userKey, overwrite, post);
    }

    /**
     The scan over the listed work logs and the POST: each log of the same
     day and author is deleted (overwrite) or triggers the POST at once (no
     overwrite); the POST follows the scan otherwise.
     */
    method ScanAndPost(issueID: string, logs: seq<RemoteWorkLog>, startedDay: int, userKey: string, overwrite: bool,
                       post: Request) returns (reply: Reply)
      modifies this
      ensures sent == old(sent) + ScanWrites(issueID, logs, startedDay, userKey, overwrite, post)
      ensures tracker == Perform(remote, old(tracker), ScanWrites(issueID, logs, startedDay, userKey, overwrite, post), userKey)
      ensures reply == remote.reply(post)
    {
      ghost var all := ScanWrites(issueID, logs, startedDay, userKey, overwrite, post);
      ghost var final := Perform(remote, tracker, all, userKey);
      var i := 0;
      while i < |logs|
        invariant 0 <= i <= |logs|
        invariant old(sent) + all == sent + ScanWrites(issueID, logs[i..], startedDay, userKey, overwrite, post)
        invariant final == Perform(remote, tracker, ScanWrites(issueID, logs[i..], startedDay, userKey, overwrite, post), userKey)
      {
        var workLog := logs[i];
        assert logs[i..][1..] == logs[i + 1..];
        if workLog.started.day != startedDay || workLog.authorKey != userKey {
          i := i + 1;
          continue;
        }
        if !overwrite {
          break;
        }
        if overwrite {
          var delete := DeleteWorklog(issueID, workLog.id);
          sent := sent + [delete];
          tracker := Apply(remote, tracker, delete, userKey);
        }
        i := i + 1;
      }
      assert final == Perform(remote, tracker, [post], userKey);
      assert Perform(remote, tracker, [post], userKey) == Perform(remote, Apply(remote, tracker, post, userKey), [], userKey);
      sent := sent + [post];
      tracker := Apply(remote, tracker, post, userKey);
      reply := remote.reply(post);
    }
  }

}

/**
 The day loop as a function of its inputs: for each day from the start to
 the end, fetch the day's records, aggregate them, top the day up when the
 filler applies, and upload the entries; a failed fetch stops the loop, an
 uncaught error ends the run, a dry run writes nothing.
 */
module SyncSpec {

  import opened Wrappers
  import opened Calendar
  import opened WorkLog
  import opened Jira
  import opened Resolver
  import opened Aggregation
  import opened DayFiller
  import opened Upload

  /** The service's configuration: user name, optional filler issue and comment, notification flag. */
  datatype Config = Config(username: string, fillIssueID: Option<string>, fillIssueComment: string, notifyUsers: bool)

  /** What the time-tracking service answers: a day's records (or a failure), a workspace's projects (or a failure). */
  datatype TogglSource = TogglSource(
    timeEntries: int -> Option<seq<TimeRecord>>,
    projects: int -> Option<seq<Project>>)

  /** Everything a run depends on. */
  datatype Setting = Setting(
    config: Config,
    toggl: TogglSource,
    remote: JiraRemote,
    selfMatches: SelfMatch,
    userKey: string,
    today: int,
    overwrite: bool,
    dryRun: bool)

  /** How the day loop ended: past the end day, on a failed fetch, or on an uncaught error. */
  datatype Stop = Finished | FetchFailed(day: int) | Aborted(day: int)

  /** The end of a run: how it stopped, the ledger's ids, the requests sent to the issue tracker and its work logs. */
  datatype Run = Run(stop: Stop, delivered: set<int>, sent: seq<Request>, tracker: Tracker)

  /** A filler issue is configured: set, and neither of PHP's falsy strings "" and "0". */
  predicate FillConfigured(fillIssueID: Option<string>)
  {
    fillIssueID.Some? && fillIssueID.value != "" && fillIssueID.value != "0"
  }

  /** The filler guard: configured, not today (which may not be over), and a weekday. */
  predicate FillApplies(config: Config, day: int, today: int)
  {
    FillConfigured(config.fillIssueID) && day != today && IsoWeekday(day) <= 5
  }

  function Reverse<T>(s: seq<T>): (r: seq<T>)
    ensures |r| == |s| && forall i :: 0 <= i < |s| ==> r[i] == s[|s| - 1 - i]
  {
    if s == [] then [] else Reverse(s[1..]) + [s[0]]
  }

  /** The day's entries to upload, or `None` when aggregation ended the run. */
  function DayEntries(s: Setting, day: int, records: seq<TimeRecord>): Option<seq<Entry>>
  {
    match Aggregate(Reverse(records), s.toggl.projects, s.selfMatches)
    case None => None
    case Some(es) =>
      if FillApplies(s.config, day, s.today) && !s.dryRun
      then Some(Fill(es, s.config.fillIssueID.value, s.config.fillIssueComment, EndOfDay(day)))
      else Some(es)
  }

  /**
   The end of one day with records: whether an uncaught error ended the
   run, the ledger's ids, the requests sent, the tracker's work logs.
   */
  datatype DayResult = DayResult(aborted: bool, delivered: set<int>, sent: seq<Request>, tracker: Tracker)

  /**
   One day with records: aggregation (which ends the run when a workspace's
   projects cannot be fetched), the top-up, and the upload unless this is
   a dry run.
   */
  function DayRun(s: Setting, day: int, records: seq<TimeRecord>, delivered: set<int>, sent: seq<Request>,
                  tracker: Tracker): DayResult
  {
    match DayEntries(s, day, records)
    case None => DayResult(true, delivered, sent, tracker)
    case Some(es) =>
      if s.dryRun then DayResult(false, delivered, sent, tracker)
      else
        var p := UploadAll(es, delivered, sent, tracker, s.remote, s.userKey, s.overwrite, s.config.notifyUsers);
        DayResult(p.crashed, p.delivered, p.sent, p.tracker)
  }

  /** The run from `day` to `end`, starting from a ledger, the requests sent so far and the tracker's work logs. */
  function SyncFrom(s: Setting, day: int, end: int, delivered: set<int>, sent: seq<Request>, tracker: Tracker): Run
    decreases end + 1 - day
  {
    if day > end then Run(Finished, delivered, sent, tracker)
    else match s.toggl.timeEntries(day)
      case None => Run(FetchFailed(day), delivered, sent, tracker)
      case Some(records) =>
        if records == [] then SyncFrom(s, day + 1, end, delivered, sent, tracker)
        else
          var r := DayRun(s, day, records, delivered, sent, tracker);
          if r.aborted then Run(Aborted(day), r.delivered, r.sent, r.tracker)
          else SyncFrom(s, day + 1, end, r.delivered, r.sent, r.tracker)
  }

  /** One day only adds to the ledger and to the requests sent; a dry run changes nothing. */
  lemma DayRunGrows(s: Setting, day: int, records: seq<TimeRecord>, delivered: set<int>, sent: seq<Request>, tracker: Tracker)
    ensures var r := DayRun(s, day, records, delivered, sent, tracker);
      && delivered <= r.delivered && |sent| <= |r.sent| && r.sent[..|sent|] == sent
      && (s.dryRun ==> r.delivered == delivered && r.sent == sent && r.tracker == tracker)
  {
    match DayEntries(s, day, records)
    case None =>
    case Some(es) =>
      UploadLedger(es, delivered, sent, tracker, s.remote, s.userKey, s.overwrite, s.config.notifyUsers);
      OnlyUndeliveredAreSent(es, delivered, sent, tracker, s.remote, s.userKey, s.overwrite, s.config.notifyUsers);
  }

  /**
   Every request one day adds belongs to the upload of one of the day's
   entries whose id was not in the ledger, or in any smaller set of ids.
   */
  lemma DayRunSends(s: Setting, day: int, records: seq<TimeRecord>, delivered: set<int>, sent: seq<Request>, tracker: Tracker,
                    known: set<int>)
    requires s.toggl.timeEntries(day) == Some(records) && known <= delivered
    ensures var r := DayRun(s, day, records, delivered, sent, tracker);
      forall j :: |sent| <= j < |r.sent| ==> DaySends(r.sent[j], s, day, known)
  {
    match DayEntries(s, day, records)
    case None =>
    case Some(es) =>
      OnlyUndeliveredAreSent(es, delivered, sent, tracker, s.remote, s.userKey, s.overwrite, s.config.notifyUsers);
      var r := DayRun(s, day, records, delivered, sent, tracker);
      var p := UploadAll(es, delivered, sent, tracker, s.remote, s.userKey, s.overwrite, s.config.notifyUsers);
      assert |r.sent| > |sent| ==> r.sent == p.sent;
      forall j | |sent| <= j < |r.sent|
        ensures DaySends(r.sent[j], s, day, known)
      {
        assert ForUndelivered(p.sent[j], es, delivered, s.config.notifyUsers);
        var i :| 0 <= i < |es| && es[i].id.Some? && es[i].id.value !in delivered && RequestOf(r.sent[j], es[i], s.config.notifyUsers);
      }
  }

  /**
   Request `r` can belong to the upload of one of the entries of `day`
   whose id is not in `delivered`.
   */
  ghost predicate DaySends(r: Request, s: Setting, day: int, delivered: set<int>)
  {
    match s.toggl.timeEntries(day)
    case None => false
    case Some(records) =>
      match DayEntries(s, day, records)
      case None => false
      case Some(es) => ForUndelivered(r, es, delivered, s.config.notifyUsers)
  }

  /** Days are never filled when the guard fails or in a dry run: today and weekends keep their aggregated entries. */
  lemma NoFillUnlessGuarded(s: Setting, day: int, records: seq<TimeRecord>)
    requires day == s.today || IsoWeekday(day) > 5 || !FillConfigured(s.config.fillIssueID) || s.dryRun
    ensures DayEntries(s, day, records) == Aggregate(Reverse(records), s.toggl.projects, s.selfMatches)
  {
  }

  /**
   A run only adds to the ledger and to the requests sent: nothing recorded
   as delivered is ever forgotten, no earlier request is taken back.
   */
  lemma {:induction false} SyncGrows(s: Setting, day: int, end: int, delivered: set<int>, sent: seq<Request>, tracker: Tracker)
    ensures var run := SyncFrom(s, day, end, delivered, sent, tracker);
      delivered <= run.delivered && |sent| <= |run.sent| && run.sent[..|sent|] == sent
    decreases end + 1 - day
  {
    if day <= end && s.toggl.timeEntries(day).Some? {
      var records := s.toggl.timeEntries(day).value;
      if records == [] {
        SyncGrows(s, day + 1, end, delivered, sent, tracker);
      } else {
        var r := DayRun(s, day, records, delivered, sent, tracker);
        DayRunGrows(s, day, records, delivered, sent, tracker);
        if !r.aborted {
          SyncGrows(s, day + 1, end, r.delivered, r.sent, r.tracker);
          var run := SyncFrom(s, day + 1, end, r.delivered, r.sent, r.tracker);
          assert run.sent[..|r.sent|][..|sent|] == run.sent[..|sent|];
        }
      }
    }
  }

  /** Request `r` can belong to the upload of an entry of a day from `day` to `end` whose id is not in `known`. */
  ghost predicate SentOnDays(r: Request, s: Setting, day: int, end: int, known: set<int>)
    decreases end + 1 - day
  {
    day <= end && (DaySends(r, s, day, known) || SentOnDays(r, s, day + 1, end, known))
  }

  /**
   Every request a run adds belongs to the upload of an entry of one of
   its days whose id is not in `known`, for any `known` the starting ledger
   holds: an entry recorded as delivered is never uploaded again.
   */
  lemma {:induction false} SyncSendsOnlyUndelivered(s: Setting, day: int, end: int, delivered: set<int>, sent: seq<Request>,
                                                    tracker: Tracker, known: set<int>)
    requires known <= delivered
    ensures forall j :: |sent| <= j < |SyncFrom(s, day, end, delivered, sent, tracker).sent| ==>
      SentOnDays(SyncFrom(s, day, end, delivered, sent, tracker).sent[j], s, day, end, known)
    decreases end + 1 - day
  {
    if day <= end && s.toggl.timeEntries(day).Some? {
      var records := s.toggl.timeEntries(day).value;
      if records == [] {
        SyncSendsOnlyUndelivered(s, day + 1, end, delivered, sent, tracker, known);
        var run := SyncFrom(s, day + 1, end, delivered, sent, tracker);
        LaterDays(run.sent, |sent|, s, day, end, known);
      } else {
        var r := DayRun(s, day, records, delivered, sent, tracker);
        DayRunGrows(s, day, records, delivered, sent, tracker);
        DayRunSends(s, day, records, delivered, sent, tracker, known);
        if !r.aborted {
          SyncSendsOnlyUndelivered(s, day + 1, end, r.delivered, r.sent, r.tracker, known);
          SyncGrows(s, day + 1, end, r.delivered, r.sent, r.tracker);
          var run := SyncFrom(s, day + 1, end, r.delivered, r.sent, r.tracker);
          DayThenLaterDays(run.sent, |sent|, r.sent, s, day, end, known);
        } else {
          DayThenLaterDays(r.sent, |sent|, r.sent, s, day, end, known);
        }
      }
    }
  }

  /** Requests of the later days are requests of the run's days. */
  lemma LaterDays(rs: seq<Request>, from: nat, s: Setting, day: int, end: int, known: set<int>)
    requires forall j :: from <= j < |rs| ==> SentOnDays(rs[j], s, day + 1, end, known)
    ensures forall j :: from <= j < |rs| ==> SentOnDays(rs[j], s, day, end, known)
  {
  }

  /** The first day's requests followed by the later days' requests are requests of the run's days. */
  lemma DayThenLaterDays(rs: seq<Request>, from: nat, first: seq<Request>, s: Setting, day: int, end: int, known: set<int>)
    requires day <= end && from <= |first| <= |rs| && rs[..|first|] == first
    requires forall j :: from <= j < |first| ==> DaySends(first[j], s, day, known)
    requires forall j :: |first| <= j < |rs| ==> SentOnDays(rs[j], s, day + 1, end, known)
    ensures forall j :: from <= j < |rs| ==> SentOnDays(rs[j], s, day, end, known)
  {
    forall j | from <= j < |rs|
      ensures SentOnDays(rs[j], s, day, end, known)
    {
      if j < |first| {
        assert rs[j] == rs[..|first|][j];
      }
    }
  }

  /**
   Running the same days a second time, from the ledger, requests and
   tracker the first run left, uploads no entry the first run delivered:
   every request the second run adds belongs to an entry whose id the
   first run did not record.
   */
  lemma SecondSyncRepeatsNothing(s: Setting, day: int, end: int, delivered: set<int>, sent: seq<Request>, tracker: Tracker)
    ensures var first := SyncFrom(s, day, end, delivered, sent, tracker);
      var second := SyncFrom(s, day, end, first.delivered, first.sent, first.tracker);
      forall j :: |first.sent| <= j < |second.sent| ==> SentOnDays(second.sent[j], s, day, end, first.delivered)
  {
    var first := SyncFrom(s, day, end, delivered, sent, tracker);
    SyncSendsOnlyUndelivered(s, day, end, first.delivered, first.sent, first.tracker, first.delivered);
  }

  /** A dry run sends nothing to the issue tracker, records nothing in the ledger and changes no work log. */
  lemma {:induction false} DryRunWritesNothing(s: Setting, day: int, end: int, delivered: set<int>, sent: seq<Request>,
                                               tracker: Tracker)
    requires s.dryRun
    ensures SyncFrom(s, day, end, delivered, sent, tracker).delivered == delivered
    ensures SyncFrom(s, day, end, delivered, sent, tracker).sent == sent
    ensures SyncFrom(s, day, end, delivered, sent, tracker).tracker == tracker
    decreases end + 1 - day
  {
    if day <= end {
      DryRunWritesNothing(s, day + 1, end, delivered, sent, tracker);
    }
  }

  /**
   A failed fetch on day `d` ends the loop there: the run over any range
   reaching `d` is the run up to the day before, stopped at `d`, provided
   that run got through to its end.
   */
  lemma {:induction false} FetchFailureStops(s: Setting, day: int, d: int, end: int, delivered: set<int>, sent: seq<Request>,
                                             tracker: Tracker)
    requires day <= d <= end && s.toggl.timeEntries(d).None?
    requires SyncFrom(s, day, d - 1, delivered, sent, tracker).stop == Finished
    ensures SyncFrom(s, day, end, delivered, sent, tracker)
            == SyncFrom(s, day, d - 1, delivered, sent, tracker).(stop := FetchFailed(d))
    decreases d - day
  {
    if day < d {
      var records := s.toggl.timeEntries(day).value;
      if records == [] {
        FetchFailureStops(s, day + 1, d, end, delivered, sent, tracker);
      } else {
        var r := DayRun(s, day, records, delivered, sent, tracker);
        FetchFailureStops(s, day + 1, d, end, r.delivered, r.sent, r.tracker);
      }
    }
  }

}

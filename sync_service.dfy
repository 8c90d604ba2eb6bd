/**
 The synchronisation service: the per-day loop and its steps, over the
 mutable entry objects, the per-instance project cache, the delivery ledger
 and the issue-tracker client. Each step is proved against the functions of
 the specification modules.
 */
module SyncService {

  import opened Wrappers
  import opened Calendar
  import opened WorkLog
  import opened Jira
  import opened Ledger
  import opened Resolver
  import opened Aggregation
  import opened DayFiller
  import opened Upload
  import opened SyncSpec

  /** A run either fails to find the user, or runs its day loop until it stops. */
  datatype SyncOutcome = UserNotFound | Ran(stop: Stop)

  class SyncService {
    const api: Api
    const toggl: TogglSource
    const ledger: DeliveryLedger
    const config: Config
    /** Whether the pattern built from a comment matches that comment (regular-expression engine). */
    const selfMatches: SelfMatch
    /** Projects per workspace, fetched at most once while the fetch succeeds. */
    var cacheData: map<int, seq<Project>>
    /** The workspaces whose projects were requested, in order. */
    ghost var fetchLog: seq<int>

    ghost predicate Valid()
      reads this
    {
      && (forall w :: w in cacheData ==> toggl.projects(w) == Some(cacheData[w]))
      && (forall i :: 0 <= i < |fetchLog| && toggl.projects(fetchLog[i]).Some? ==> fetchLog[i] in cacheData)
      && (forall i, j :: 0 <= i < j < |fetchLog| && fetchLog[i] == fetchLog[j] ==> toggl.projects(fetchLog[i]).None?)
    }

    constructor (api: Api, toggl: TogglSource, ledger: DeliveryLedger, config: Config, selfMatches: SelfMatch)
      ensures Valid()
      ensures this.api == api && this.toggl == toggl && this.ledger == ledger && this.config == config
      ensures this.selfMatches == selfMatches && cacheData == map[] && fetchLog == []
    {
      this.api := api;
      this.toggl := toggl;
      this.ledger := ledger;
      this.config := config;
      this.selfMatches := selfMatches;
      cacheData := map[];
      fetchLog := [];
    }

    /**
     A workspace's projects: served from the cache, or fetched and cached.
     The answer is always the service's own; a workspace whose fetch
     succeeded is never fetched again.
     */
    method GetProjects(wid: int) returns (projects: Option<seq<Project>>)
      requires Valid()
      modifies this
      ensures Valid()
      ensures projects == toggl.projects(wid)
      ensures wid in old(cacheData) ==> cacheData == old(cacheData) && fetchLog == old(fetchLog)
      ensures wid !in old(cacheData) ==>
        fetchLog == old(fetchLog) + [wid]
        && cacheData == if projects.Some? then old(cacheData)[wid := projects.value] else old(cacheData)
    {
      var cacheKey := wid;
      if cacheKey !in cacheData {
        fetchLog := fetchLog + [wid];
        var fetched := toggl.projects(wid);
        if fetched.None? {
          return None;
        }
        cacheData := cacheData[cacheKey := fetched.value];
      }
      projects := Some(cacheData[cacheKey]);
    }

    /** Adds a repeated record's duration (and, unless the comment matches itself, its description) to the stored entry. */
    method AddTimeToExistingTimeEntry(existingWorkLog: WorkLogEntry, newWorkLog: WorkLogEntry) returns (merged: WorkLogEntry)
      modifies existingWorkLog
      ensures merged == existingWorkLog
      ensures existingWorkLog.Value() == Merge(old(existingWorkLog.Value()), old(newWorkLog.Value()), selfMatches)
    {
      var timeSpent := existingWorkLog.GetTimeSpent();
      timeSpent := timeSpent + newWorkLog.GetTimeSpent();
      existingWorkLog.SetTimeSpent(timeSpent);
      if !selfMatches(existingWorkLog.GetComment()) {
        existingWorkLog.SetComment(existingWorkLog.GetComment() + "\n" + newWorkLog.GetComment());
      }
      merged := existingWorkLog;
    }

    /**
     Builds the day's ordered map of entries, keyed by record id: a new key
     gets a fresh hydrated entry, a repeated key is merged into the stored
     one. `None` when a workspace's projects could not be fetched.
     */
    method ParseTimeEntries(timeEntries: seq<TimeRecord>) returns (workLogs: Option<seq<WorkLogEntry>>)
      requires Valid()
      modifies this, ledger
      ensures Valid()
      ensures ledger.Delivered() == old(ledger.Delivered())
      ensures workLogs.None? <==> Aggregate(timeEntries, toggl.projects, selfMatches).None?
      ensures workLogs.Some? ==>
        && Values(workLogs.value) == Aggregate(timeEntries, toggl.projects, selfMatches).value
        && Distinct(workLogs.value)
        && forall w :: w in workLogs.value ==> fresh(w)
    {
      var workLogEntries: seq<WorkLogEntry> := [];
      ghost var vs: seq<Entry> := [];
      var i := 0;
      while i < |timeEntries|
        invariant 0 <= i <= |timeEntries|
        invariant Valid()
        invariant ledger.Delivered() == old(ledger.Delivered())
        invariant Aggregate(timeEntries[..i], toggl.projects, selfMatches) == Some(vs)
        invariant Values(workLogEntries) == vs
        invariant Distinct(workLogEntries)
        invariant forall w :: w in workLogEntries ==> fresh(w)
      {
        var fetched, updated := ParseRecord(timeEntries[i], workLogEntries);
        if !fetched {
          AggregateStops(timeEntries, i, toggl.projects, selfMatches);
          return None;
        }
        AggregateNext(timeEntries, i, toggl.projects, selfMatches, vs, toggl.projects(timeEntries[i].wid).value);
        workLogEntries := updated;
        vs := Values(workLogEntries);
        i := i + 1;
      }
      assert timeEntries[..i] == timeEntries;
      workLogs := Some(workLogEntries);
    }

    /**
     One pass of the record loop: fetch the record's workspace projects
     (`fetched` is false when that fails), parse the record against them
     and store an accepted entry.
     */
    method ParseRecord(timeEntry: TimeRecord, workLogEntries: seq<WorkLogEntry>)
      returns (fetched: bool, updated: seq<WorkLogEntry>)
      requires Valid() && Distinct(workLogEntries)
      modifies this, (set w | w in workLogEntries), ledger
      ensures Valid()
      ensures ledger.Delivered() == old(ledger.Delivered())
      ensures fetched <==> toggl.projects(timeEntry.wid).Some?
      ensures fetched ==>
        Values(updated) == match Parse(timeEntry, toggl.projects(timeEntry.wid).value)
                           case Accepted(e) => AddRecord(old(Values(workLogEntries)), e, selfMatches)
                           case _ => old(Values(workLogEntries))
      ensures Distinct(updated)
      ensures forall w :: w in updated ==> w in workLogEntries || fresh(w)
    {
      var projects := GetProjects(timeEntry.wid);
      if projects.None? {
        return false, workLogEntries;
      }
      fetched := true;
      var workLogEntry := ParseTimeEntry(timeEntry, projects.value);
      updated := StoreParsed(workLogEntry, workLogEntries);
    }

    /** Stores an accepted entry as a fresh object; a rejected record leaves the map as it was. */
    method StoreParsed(parsed: Parsed, workLogEntries: seq<WorkLogEntry>) returns (updated: seq<WorkLogEntry>)
      requires Distinct(workLogEntries) && (parsed.Accepted? ==> parsed.data.id.Some?)
      modifies (set w | w in workLogEntries), ledger
      ensures ledger.Delivered() == old(ledger.Delivered())
      ensures Values(updated) == match parsed
                                 case Accepted(e) => AddRecord(old(Values(workLogEntries)), e, selfMatches)
                                 case _ => old(Values(workLogEntries))
      ensures Distinct(updated)
      ensures forall w :: w in updated ==> w in workLogEntries || fresh(w)
    {
      if parsed.Accepted? {
        var entry := Hydrate(parsed.data);
        updated := StoreEntry(workLogEntries, entry);
      } else {
        updated := workLogEntries;
      }
    }

    /**
     Puts a parsed entry into the day's map under its record id: merged
     into the entry already stored there, or appended; a new key also
     consults the ledger, which creates an absent store file.
     */
    method StoreEntry(workLogEntries: seq<WorkLogEntry>, workLogEntry: WorkLogEntry) returns (updated: seq<WorkLogEntry>)
      requires Distinct(workLogEntries) && workLogEntry !in workLogEntries && workLogEntry.id.Some?
      modifies (set w | w in workLogEntries), ledger
      ensures Values(updated) == AddRecord(old(Values(workLogEntries)), workLogEntry.Value(), selfMatches)
      ensures Distinct(updated)
      ensures forall w :: w in updated ==> w in workLogEntries || w == workLogEntry
      ensures ledger.Delivered() == old(ledger.Delivered())
    {
      ghost var before := Values(workLogEntries);
      var existingKey := KeyIndex(Values(workLogEntries), workLogEntry.GetId());
      if existingKey.Some? {
        var k := existingKey.value;
        assert workLogEntries[k] in workLogEntries;
        var _ := AddTimeToExistingTimeEntry(workLogEntries[k], workLogEntry);
        assert Values(workLogEntries) == before[k := Merge(before[k], workLogEntry.Value(), selfMatches)];
        return workLogEntries;
      }
      updated := workLogEntries + [workLogEntry];
      var _ := ledger.CheckLogId(workLogEntry.GetId());
      assert Values(updated) == before + [workLogEntry.Value()];
    }

    /**
     Tops a short day up to the required time: the shortfall plus the buffer
     goes to the last entry on the filler issue, or to a new filler entry
     appended to the list.
     */
    method FillTimeToFull(workLogEntries: seq<WorkLogEntry>, processDate: Instant) returns (filled: seq<WorkLogEntry>)
      requires config.fillIssueID.Some?
      requires Distinct(workLogEntries)
      modifies set w | w in workLogEntries
      ensures Distinct(filled)
      ensures forall w :: w in filled ==> w in workLogEntries || fresh(w)
      ensures Values(filled) == Fill(old(Values(workLogEntries)), config.fillIssueID.value, config.fillIssueComment, processDate)
    {
      var fillIssueID := config.fillIssueID.value;
      ghost var vs := Values(workLogEntries);
      var timeSpent, fillIssue := ScanForFill(workLogEntries, fillIssueID);
      if timeSpent >= RequiredTimeSpent {
        return workLogEntries;
      }
      var fillTime := RequiredTimeSpent - timeSpent + FillBuffer;
      if fillIssue == null {
        var filler := NewFillerEntry(fillIssueID, processDate, fillTime);
        filled := workLogEntries + [filler];
        assert Values(filled) == vs + [filler.Value()];
      } else {
        ghost var k := LastWithIssue(vs, fillIssueID).value;
        assert Fill(vs, fillIssueID, config.fillIssueComment, processDate) == vs[k := vs[k].(timeSpent := vs[k].timeSpent + fillTime)];
        AddFillTime(fillIssue, fillTime, workLogEntries, k, vs);
        filled := workLogEntries;
      }
    }

    /**
     The scan of the day's entries: their summed durations, and the last
     entry booked on the filler issue (`null` when there is none).
     */
    method ScanForFill(workLogEntries: seq<WorkLogEntry>, fillIssueID: string) returns (timeSpent: int, fillIssue: WorkLogEntry?)
      ensures timeSpent == TotalTime(Values(workLogEntries))
      ensures fillIssue == null <==> LastWithIssue(Values(workLogEntries), fillIssueID).None?
      ensures fillIssue != null ==> fillIssue == workLogEntries[LastWithIssue(Values(workLogEntries), fillIssueID).value]
    {
      ghost var vs := Values(workLogEntries);
      timeSpent := 0;
      fillIssue := null;
      var i := 0;
      while i < |workLogEntries|
        invariant 0 <= i <= |workLogEntries|
        invariant timeSpent == TotalTime(vs[..i])
        invariant fillIssue == null <==> LastWithIssue(vs[..i], fillIssueID).None?
        invariant fillIssue != null ==> fillIssue == workLogEntries[LastWithIssue(vs[..i], fillIssueID).value]
      {
        var workLogEntry := workLogEntries[i];
        ScanNext(vs, i, fillIssueID);
        if workLogEntry.GetIssueID() == fillIssueID {
          fillIssue := workLogEntry;
        }
        timeSpent := timeSpent + workLogEntry.GetTimeSpent();
        i := i + 1;
      }
      assert vs[..i] == vs;
    }

    /** The entry created for the filler issue: issue, configured comment, processed day and the top-up; no id. */
    method NewFillerEntry(fillIssueID: string, processDate: Instant, fillTime: int) returns (fillIssue: WorkLogEntry)
      ensures fresh(fillIssue) && fillIssue.Value() == FillerEntry(fillIssueID, config.fillIssueComment, processDate, fillTime)
    {
      fillIssue := new WorkLogEntry();
      fillIssue.SetIssueID(fillIssueID);
      fillIssue.SetComment(config.fillIssueComment);
      fillIssue.SetSpentOn(processDate);
      fillIssue.SetTimeSpent(fillTime);
    }

    /**
     Adds the top-up to the entry found on the filler issue, the one at
     position `k` of the day's list: only that value changes.
     */
    method AddFillTime(fillIssue: WorkLogEntry, fillTime: int, ghost workLogEntries: seq<WorkLogEntry>, ghost k: nat,
                       ghost vs: seq<Entry>)
      requires k < |workLogEntries| && workLogEntries[k] == fillIssue && Distinct(workLogEntries)
      requires Values(workLogEntries) == vs
      modifies fillIssue
      ensures Values(workLogEntries) == vs[k := vs[k].(timeSpent := vs[k].timeSpent + fillTime)]
    {
      fillIssue.SetTimeSpent(fillIssue.GetTimeSpent() + fillTime);
    }

    /**
     Uploads each entry not yet in the ledger and records it when the reply
     has no error messages; an exception is caught and the next entry
     follows. Reading the id of an entry that has none raises an uncaught
     type error: `crashed` reports that the run ended there.
     */
    method AddWorkLogsToApi(workLogEntries: seq<WorkLogEntry>, userKey: string, overwrite: bool, notifyUsers: bool)
      returns (crashed: bool)
      modifies api, ledger
      ensures var p := UploadAll(old(Values(workLogEntries)), old(ledger.Delivered()), old(api.sent), old(api.tracker),
                                 api.remote, userKey, overwrite, notifyUsers);
        crashed == p.crashed && ledger.Delivered() == p.delivered && api.sent == p.sent && api.tracker == p.tracker
    {
      ghost var vs := Values(workLogEntries);
      ghost var delivered := ledger.Delivered();
      ghost var sent := api.sent;
      ghost var tracker := api.tracker;
      ghost var remote := api.remote;
      var i := 0;
      while i < |workLogEntries|
        invariant 0 <= i <= |workLogEntries|
        invariant forall j :: 0 <= j < |workLogEntries| ==> workLogEntries[j].Value() == vs[j]
        invariant i <= FirstMissingId(vs)
        invariant Progress(ledger.Delivered(), api.sent, api.tracker, false)
                  == UploadAll(vs[..i], delivered, sent, tracker, remote, userKey, overwrite, notifyUsers)
      {
        var stopped := UploadStep(workLogEntries[i], vs, i, delivered, sent, tracker, userKey, overwrite, notifyUsers);
        if stopped {
          return true;
        }
        i := i + 1;
      }
      assert vs[..i] == vs;
      crashed := false;
    }

    /**
     One pass of the upload loop, from the state the entries before
     position `i` left: an entry without an id stops the run, any other is
     uploaded as `UploadEntry` does.
     */
    method UploadStep(workLogEntry: WorkLogEntry, ghost vs: seq<Entry>, ghost i: nat, ghost delivered: set<int>,
                      ghost sent: seq<Request>, ghost tracker: Tracker, userKey: string, overwrite: bool, notifyUsers: bool)
      returns (stopped: bool)
      requires i < |vs| && workLogEntry.Value() == vs[i] && i <= FirstMissingId(vs)
      requires Progress(ledger.Delivered(), api.sent, api.tracker, false)
               == UploadAll(vs[..i], delivered, sent, tracker, api.remote, userKey, overwrite, notifyUsers)
      modifies api, ledger
      ensures stopped <==> vs[i].id.None?
      ensures !stopped ==> i + 1 <= FirstMissingId(vs)
      ensures stopped ==> UploadAll(vs, delivered, sent, tracker, api.remote, userKey, overwrite, notifyUsers)
                          == Progress(ledger.Delivered(), api.sent, api.tracker, true)
      ensures !stopped ==> Progress(ledger.Delivered(), api.sent, api.tracker, false)
                           == UploadAll(vs[..i + 1], delivered, sent, tracker, api.remote, userKey, overwrite, notifyUsers)
    {
      if workLogEntry.id.None? {
        UploadStopsAtMissingId(vs, delivered, sent, tracker, api.remote, userKey, overwrite, notifyUsers, i);
        return true;
      }
      UploadNext(vs, i, delivered, sent, tracker, api.remote, userKey, overwrite, notifyUsers);
      UploadEntry(workLogEntry, vs[i], userKey, overwrite, notifyUsers);
      stopped := false;
    }

    /**
     One pass of the upload loop's guarded block, for an entry that has an
     id: the ledger check, the upload, and the ledger update on success.
     */
    method UploadEntry(workLogEntry: WorkLogEntry, ghost e: Entry, userKey: string, overwrite: bool, notifyUsers: bool)
      requires workLogEntry.Value() == e && e.id.Some?
      modifies api, ledger
      ensures Progress(ledger.Delivered(), api.sent, api.tracker, false)
              == Deliver(e, Progress(old(ledger.Delivered()), old(api.sent), old(api.tracker), false), api.remote, userKey, overwrite, notifyUsers)
    {
      var uploaded := ledger.CheckLogId(workLogEntry.GetId());
      if !uploaded {
        var result := api.AddWorkLogEntry(workLogEntry.GetIssueID(), workLogEntry.GetTimeSpent(), userKey,
                                          workLogEntry.GetComment(), workLogEntry.GetSpentOn(), overwrite, notifyUsers);
        if result.Threw? {
          // the exception is caught and logged
        } else if result.errorMessages.Some? && |result.errorMessages.value| > 0 {
          // the error messages are logged; the id is not recorded
        } else {
          ledger.SaveLogId(workLogEntry.GetId());
        }
      }
    }

    /**
     Synchronises every day from `startDay` to `endDay` inclusive, in order.
     A user name without a key fails before any day; otherwise the run is
     the one `SyncFrom` describes, its writes landing in the ledger and the
     issue tracker's request log.
     */
    method Sync(startDay: int, endDay: int, overwrite: bool, dryRun: bool, today: int) returns (outcome: SyncOutcome)
      requires Valid()
      modifies this, api, ledger
      ensures Valid()
      ensures api.remote.userKey(config.username).None? ==>
        outcome == UserNotFound && api.sent == old(api.sent) && api.tracker == old(api.tracker)
        && ledger.Delivered() == old(ledger.Delivered())
      ensures api.remote.userKey(config.username).Some? ==>
        var s := Setting(config, toggl, api.remote, selfMatches, api.remote.userKey(config.username).value,
                         today, overwrite, dryRun);
        var run := SyncFrom(s, startDay, endDay, old(ledger.Delivered()), old(api.sent), old(api.tracker));
        outcome == Ran(run.stop) && ledger.Delivered() == run.delivered && api.sent == run.sent
        && api.tracker == run.tracker
    {
      var user := api.remote.userKey(config.username);
      if user.None? {
        return UserNotFound;
      }
      var userKey := user.value;
      ghost var s := Setting(config, toggl, api.remote, selfMatches, userKey, today, overwrite, dryRun);
      ghost var run := SyncFrom(s, startDay, endDay, ledger.Delivered(), api.sent, api.tracker);
      var day := startDay;
      while day <= endDay
        invariant Valid()
        invariant run == SyncFrom(s, day, endDay, ledger.Delivered(), api.sent, api.tracker)
        decreases endDay + 1 - day
      {
        var stop := SyncDay(day, endDay, userKey, overwrite, dryRun, today, s);
        if stop.Some? {
          return Ran(stop.value);
        }
        day := day + 1;
      }
      outcome := Ran(Finished);
    }

    /**
     One pass of the day loop: fetch the day's records, stop on a failed
     fetch, skip an empty day, otherwise process it. `stop` is `None` when
     the loop goes on to the next day.
     */
    method SyncDay(day: int, endDay: int, userKey: string, overwrite: bool, dryRun: bool, today: int,
                   ghost s: Setting) returns (stop: Option<Stop>)
      requires Valid() && day <= endDay
      requires s == Setting(config, toggl, api.remote, selfMatches, userKey, today, overwrite, dryRun)
      modifies this, api, ledger
      ensures Valid()
      ensures stop.None? ==>
        SyncFrom(s, day, endDay, old(ledger.Delivered()), old(api.sent), old(api.tracker))
        == SyncFrom(s, day + 1, endDay, ledger.Delivered(), api.sent, api.tracker)
      ensures stop.Some? ==>
        SyncFrom(s, day, endDay, old(ledger.Delivered()), old(api.sent), old(api.tracker))
        == Run(stop.value, ledger.Delivered(), api.sent, api.tracker)
    {
      var timeEntries := toggl.timeEntries(day);
      if timeEntries.None? {
        return Some(FetchFailed(day));
      }
      var processDate := EndOfDay(day);
      if timeEntries.value == [] {
        return None;
      }
      var aborted := ProcessDay(timeEntries.value, processDate, userKey, overwrite, dryRun, today, s);
      if aborted {
        return Some(Aborted(day));
      }
      stop := None;
    }

    /**
     The body of the day loop for a day with records: aggregate them, top
     the day up when the filler applies, and upload unless this is a dry
     run. `aborted` reports an uncaught error that ends the run.
     */
    method ProcessDay(timeEntries: seq<TimeRecord>, processDate: Instant, userKey: string, overwrite: bool,
                      dryRun: bool, today: int, ghost s: Setting) returns (aborted: bool)
      requires Valid()
      requires s == Setting(config, toggl, api.remote, selfMatches, userKey, today, overwrite, dryRun)
      requires processDate == EndOfDay(processDate.day)
      modifies this, api, ledger
      ensures Valid()
      ensures DayRun(s, processDate.day, timeEntries, old(ledger.Delivered()), old(api.sent), old(api.tracker))
              == DayResult(aborted, ledger.Delivered(), api.sent, api.tracker)
    {
      var workLogs := ParseTimeEntries(Reverse(timeEntries));
      if workLogs.None? {
        return true;
      }
      var entries := workLogs.value;
      if FillConfigured(config.fillIssueID) && processDate.day != today && IsoWeekday(processDate.day) <= 5 {
        if !dryRun {
          entries := FillTimeToFull(entries, processDate);
        }
      }
      assert Values(entries) == DayEntries(s, processDate.day, timeEntries).value;
      aborted := false;
      if !dryRun {
        aborted := AddWorkLogsToApi(entries, userKey, overwrite, config.notifyUsers);
      }
    }
  }

}

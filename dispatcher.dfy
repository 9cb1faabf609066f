/**
 * The task dispatcher: the restart loop, the polling loop, dispatch of an
 * activated task to its handler and the disposition of the handler's result
 * code, and the schedule calculations that chain each timeline's next task.
 */
module Dispatcher {
  import opened Wrappers
  import opened ServerComponent
  import opened ActionConfig
  import opened TimelineStatus
  import opened TaskStore

  //----- Dispatcher states and timing -----

  const STATE_INITIAL := 0
  const STATE_FIRST_CONNECT := 1
  const STATE_RECONNECTING := 2
  const STATE_PROCESSING := 3
  const STATE_WAITING := 4
  const STATE_POLLING := 5
  const STATE_SHUTDOWN := 6

  const RESTART_DELAY_MIN := 20000
  const RESTART_DELAY_MAX := 300000
  const POLLING_DELAY := 30000

  const LONG_MAX := 0x7fff_ffff_ffff_ffff

  function Max(a: int, b: int): int { if a >= b then a else b }
  function Min(a: int, b: int): int { if a <= b then a else b }

  /**
   * The wait before reconnecting after a failure: at least the minimum
   * delay, and long enough that restarts are the maximum delay apart.
   */
  function RestartDelay(restartTime: int, now: int): (r: int)
    ensures r >= RESTART_DELAY_MIN
    ensures now + r >= restartTime + RESTART_DELAY_MAX
    ensures r == RESTART_DELAY_MIN || now + r == restartTime + RESTART_DELAY_MAX
  {
    Max(RESTART_DELAY_MIN, RESTART_DELAY_MAX + restartTime - now)
  }

  //----- Forecast schedule -----

  /** The least lag the next scheduled forecast may have: 0 before the first forecast, else the minimum gap after the last. */
  function MinForecastLag(cfg: ConfigFile, s: Status): int
  {
    if s.lastForecastLag < 0 then 0 else s.lastForecastLag + cfg.forecastMinGap
  }

  /** The lag an analyst's extra forecast must exceed: 0 before the first forecast, else the last lag. */
  function MinExtraLag(s: Status): int
  {
    if s.lastForecastLag < 0 then 0 else s.lastForecastLag
  }

  /**
   * The lag of the timeline's next forecast, or -1: the first scheduled lag
   * at least the minimum, or the analyst's extra lag (floored to a whole
   * unit past the last lag) when that comes sooner or the schedule has run out.
   */
  function NextForecastLagFor(cfg: ConfigFile, s: Status): (r: int)
    requires ValidConfig(cfg)
    ensures r == -1 <==>
              !IsForecastState(s) ||
              (s.extraForecastLag < 0 &&
               forall i :: 0 <= i < |cfg.forecastLags| ==> cfg.forecastLags[i] < MinForecastLag(cfg, s))
    ensures r != -1 ==> r > 0 && r > s.lastForecastLag && r % cfg.lagUnit == 0
    ensures r != -1 ==> (r in cfg.forecastLags && r >= MinForecastLag(cfg, s)) ||
                        (s.extraForecastLag >= 0 && r == FloorUnitLag(cfg, s.extraForecastLag, MinExtraLag(s)))
    ensures IsForecastState(s) ==>
              forall x :: x in cfg.forecastLags && x >= MinForecastLag(cfg, s) ==> r != -1 && r <= x
    ensures IsForecastState(s) && s.extraForecastLag >= 0 ==>
              r != -1 && r <= FloorUnitLag(cfg, s.extraForecastLag, MinExtraLag(s))
  {
    if !IsForecastState(s) then -1
    else
      var scheduled := NextForecastLag(cfg, MinForecastLag(cfg, s));
      SchedulesInUnits(cfg);
      if scheduled < 0 then
        (if s.extraForecastLag >= 0 then FloorUnitLag(cfg, s.extraForecastLag, MinExtraLag(s)) else -1)
      else if s.extraForecastLag >= 0 then
        Min(scheduled, FloorUnitLag(cfg, s.extraForecastLag, MinExtraLag(s)))
      else scheduled
  }

  //----- PDL report schedule -----

  /**
   * The time before which a PDL report retry must run: shortly before the
   * next forecast, and within the maximum delay after the last one.
   */
  function PdlCeiling(cfg: ConfigFile, s: Status, nextForecastLag: int): int
  {
    var c := if nextForecastLag >= 0
             then Min(LONG_MAX, s.lastMainshockTime + nextForecastLag - cfg.forecastMinGap)
             else LONG_MAX;
    if s.lastForecastLag >= 0 then Min(c, s.lastMainshockTime + s.lastForecastLag + cfg.forecastMaxDelay) else c
  }

  /**
   * The lag (after baseTime) of the next PDL report attempt, or -1: 0 for the
   * first attempt, else the next retry lag past the last attempt, provided the
   * attempt would run before the ceiling.
   */
  function NextPdlLagFor(cfg: ConfigFile, s: Status, nextForecastLag: int, lastPdlLag: int,
                         baseTime: int, now: int): (r: int)
    requires ValidConfig(cfg)
    ensures !IsPdlRetryState(s) ==> r == -1
    ensures r != -1 ==> r >= 0 && r > lastPdlLag && r % cfg.lagUnit == 0 &&
                        Max(baseTime + r, now) < PdlCeiling(cfg, s, nextForecastLag)
    ensures r != -1 && lastPdlLag < 0 ==> r == 0
    ensures r != -1 && lastPdlLag >= 0 ==>
              r in cfg.pdlReportRetryLags && forall x :: x in cfg.pdlReportRetryLags && x > lastPdlLag ==> r <= x
    ensures IsPdlRetryState(s) && r == -1 && lastPdlLag < 0 ==>
              Max(baseTime, now) >= PdlCeiling(cfg, s, nextForecastLag)
    ensures IsPdlRetryState(s) && r == -1 && lastPdlLag >= 0 ==>
              forall x :: x in cfg.pdlReportRetryLags && x > lastPdlLag ==>
                Max(baseTime + x, now) >= PdlCeiling(cfg, s, nextForecastLag)
  {
    if !IsPdlRetryState(s) then -1
    else
      var next := if lastPdlLag >= 0 then NextPdlReportRetryLag(cfg, lastPdlLag + 1) else 0;
      if next < 0 then -1
      else if Max(baseTime + next, now) >= PdlCeiling(cfg, s, nextForecastLag) then -1
      else
        SchedulesInUnits(cfg);
        next
  }

  //----- Chaining the next task -----

  /**
   * The task that continues a timeline, if any, in priority order: a PDL
   * report, else the next forecast, else an expire command while the
   * timeline still asks for an action.
   */
  function FollowUp(cfg: ConfigFile, s: Status, nextForecastLag: int, nextPdlLag: int, now: int): (r: Option<TaskSpec>)
    requires ValidConfig(cfg)
    ensures r.None? <==> nextPdlLag < 0 && nextForecastLag < 0 && !IsForecastState(s) && !IsPdlRetryState(s)
    ensures r.Some? ==> r.value.eventId == s.eventId && r.value.submitTime == now && r.value.submitId == SUBID_AAFS
    ensures nextPdlLag >= 0 ==>
              r.Some? && r.value.opcode == OPCODE_GEN_PDL_REPORT && r.value.schedTime == now + nextPdlLag &&
              r.value.stage == LagToInt(cfg, nextPdlLag) && r.value.payload == GeneratePdlReport(s.lastForecastLag, now)
    ensures nextPdlLag < 0 && nextForecastLag >= 0 ==>
              r.Some? && r.value.opcode == OPCODE_GEN_FORECAST && r.value.stage == 0 &&
              r.value.schedTime == s.lastMainshockTime + nextForecastLag + cfg.comcatClockSkew + cfg.comcatOriginSkew &&
              r.value.payload == GenerateForecast(s.lastForecastLag, nextForecastLag)
    ensures nextPdlLag < 0 && nextForecastLag < 0 && r.Some? ==>
              r.value.opcode == OPCODE_GEN_EXPIRE && r.value.stage == 0 && r.value.schedTime == now &&
              r.value.payload == GenerateExpire(s.lastForecastLag)
  {
    if nextPdlLag >= 0 then
      Some(TaskSpec(s.eventId, now + nextPdlLag, now, SUBID_AAFS, OPCODE_GEN_PDL_REPORT,
                    LagToInt(cfg, nextPdlLag), GeneratePdlReport(s.lastForecastLag, now)))
    else if nextForecastLag >= 0 then
      Some(TaskSpec(s.eventId, s.lastMainshockTime + nextForecastLag + cfg.comcatClockSkew + cfg.comcatOriginSkew,
                    now, SUBID_AAFS, OPCODE_GEN_FORECAST, 0, GenerateForecast(s.lastForecastLag, nextForecastLag)))
    else if IsForecastState(s) || IsPdlRetryState(s) then
      Some(TaskSpec(s.eventId, now, now, SUBID_AAFS, OPCODE_GEN_EXPIRE, 0, GenerateExpire(s.lastForecastLag)))
    else None
  }

  /**
   * A forecast task chained this way runs no earlier than the moment its
   * data is expected to be complete in ComCat, and the lag it carries is past
   * the last forecast.
   */
  lemma ForecastFollowUpTiming(cfg: ConfigFile, s: Status, now: int)
    requires ValidConfig(cfg)
    requires NextPdlLagFor(cfg, s, NextForecastLagFor(cfg, s), -1, now, now) < 0
    requires NextForecastLagFor(cfg, s) >= 0
    ensures var f := FollowUp(cfg, s, NextForecastLagFor(cfg, s), NextPdlLagFor(cfg, s, NextForecastLagFor(cfg, s), -1, now, now), now);
            f.Some? && f.value.opcode == OPCODE_GEN_FORECAST &&
            f.value.schedTime >= s.lastMainshockTime + NextForecastLagFor(cfg, s) + cfg.comcatClockSkew &&
            f.value.payload.nextForecastLag > f.value.payload.lastForecastLag
  {
  }

  /**
   * The error entry a corrupt timeline gets is then the one the timeline is
   * read from, so reading it again finds an error entry and adds no other.
   */
  lemma CorruptMarkerIsRecent(es: seq<TimelineEntry>, eventId: string, key: nat, now: int)
    requires Recent(es, eventId).Some?
    ensures var old_ := Recent(es, eventId).value;
            var marker := TimelineEntry(key, Max(now, old_.actionTime + 1), old_.eventId, ActError, None);
            Recent(es + [marker], eventId) == Some(marker)
  {
  }

  /**
   * A ComCat retry recorded in the stage moves forward: the lag the next
   * failure looks up is past the one just staged.
   */
  lemma ComcatRetryAdvances(cfg: ConfigFile, stage: int)
    requires ValidConfig(cfg)
    requires NextComcatRetryLag(cfg, IntToLag(cfg, stage) + 1) >= 0
    ensures var retry := NextComcatRetryLag(cfg, IntToLag(cfg, stage) + 1);
            var again := NextComcatRetryLag(cfg, IntToLag(cfg, LagToInt(cfg, retry)) + 1);
            retry > IntToLag(cfg, stage) && (again == -1 || again > retry)
  {
    var retry := NextComcatRetryLag(cfg, IntToLag(cfg, stage) + 1);
    SchedulesInUnits(cfg);
    LagStageRoundTrip(cfg, retry);
  }

  //----- Upstream services -----

  /** Mainshock parameters as fetched from ComCat. */
  datatype Mainshock = Mainshock(time: int, lat: real, lon: real, mag: real)

  /** What the forecast calculation reports about the aftershock catalog. */
  datatype CatalogResult = CatalogResult(avail: bool, eqkCount: nat, maxMag: real, maxEventId: string,
                                         startTime: int, endTime: int)

  /**
   * The outcomes of the calls the forecast handler makes into code outside
   * this model: the two parameter fetches (the second together with the
   * forecast calculation), whether this server is primary for PDL, and
   * whether sending the report succeeds.
   */
  datatype Upstream = Upstream(mainshock: Result<Mainshock, string>, results: Result<CatalogResult, string>,
                               pdlPrimary: bool, pdlSendOk: bool)

  /** How a handler ends: with a result code, or by throwing. */
  datatype Outcome = Code(rescode: int) | Thrown(message: string)

  /** One turn of the polling loop: the clock, the configuration read for it, and the upstream outcomes. */
  datatype Poll = Poll(time: int, cfg: ConfigFile, upstream: Upstream)

  /**
   * One connection to the store: whether connecting succeeds, the turns of
   * the polling loop it gets to run, and the true-time clock readings taken
   * when it fails and after the wait that follows.
   */
  datatype Session = Session(connects: bool, polls: seq<Poll>, failTime: int, resumeTime: int)

  /** The opcodes this dispatcher has a handler for. */
  predicate IsRoutedOpcode(opcode: int)
  {
    opcode == OPCODE_NO_OP || opcode == OPCODE_SHUTDOWN || opcode == OPCODE_CON_MESSAGE || opcode == OPCODE_GEN_FORECAST
  }

  /** The opcodes of the delayed tasks that continue a timeline. */
  const DELAYED_TIMELINE_OPCODES: seq<int> := [OPCODE_GEN_FORECAST, OPCODE_GEN_PDL_REPORT, OPCODE_GEN_EXPIRE]

  //----- What a forecast task leaves behind -----

  /** The queue after the follow-up task, if there is one, is submitted under key. */
  function Chained(tasks: map<nat, Task>, key: nat, next: Option<TaskSpec>): map<nat, Task>
  {
    if next.Some? then tasks[key := next.value.Waiting(key)] else tasks
  }

  /** The follow-up chained from a status alone, with any PDL report sequence starting now. */
  function AutoFollowUp(cfg: ConfigFile, s: Status, now: int): Option<TaskSpec>
    requires ValidConfig(cfg)
  {
    var fc := NextForecastLagFor(cfg, s);
    FollowUp(cfg, s, fc, NextPdlLagFor(cfg, s, fc, -1, now, now), now)
  }

  /** The queue a forecast task starts from: a restarted one first purges its event's waiting delayed tasks. */
  function Cleaned(tasks: map<nat, Task>, task: Task): map<nat, Task>
  {
    if task.restarted then Purged(tasks, EXEC_TIME_MIN_WAITING, 0, task.eventId, DELAYED_TIMELINE_OPCODES) else tasks
  }

  /** The snapshots a forecast task starts from: a restarted one first drops its own. */
  function CleanedSnapshots(snapshots: map<nat, CatalogSnapshot>, task: Task): map<nat, CatalogSnapshot>
  {
    if task.restarted then snapshots - {task.key} else snapshots
  }

  /** The status with a forecast recorded at the lag, expired when no further forecast is due. */
  function Recorded(cfg: ConfigFile, st: Status, now: int, mainshockTime: int, lag: int): Status
    requires ValidConfig(cfg)
  {
    var f := Forecast(st, now, mainshockTime, lag);
    if NextForecastLagFor(cfg, f) == -1 then WithFcStatus(f, StopExpired) else f
  }

  /**
   * The PDL decision for a status, and the lag of the next report attempt
   * (-1 for none). Only the PDL status changes; an attempt stays scheduled
   * exactly when the report succeeded at once or is still pending a retry.
   */
  function PdlDecision(cfg: ConfigFile, s: Status, nextForecastLag: int, primary: bool, sendOk: bool, now: int): (r: (Status, int))
    requires ValidConfig(cfg)
    ensures r.0 == s.(pdlStatus := r.0.pdlStatus)
    ensures IsPdlRetryState(s) ==>
              (r.1 != -1 <==> r.0.pdlStatus == PdlSuccess || r.0.pdlStatus == PdlPending)
    ensures IsPdlRetryState(s) && r.0.pdlStatus == PdlPending ==>
              r.1 > NextPdlLagFor(cfg, s, nextForecastLag, -1, now, now) >= 0
  {
    var first := NextPdlLagFor(cfg, s, nextForecastLag, -1, now, now);
    if !IsPdlRetryState(s) then (s, first)
    else if !primary then (WithPdlStatus(s, PdlSecondary), -1)
    else if first == -1 then (WithPdlStatus(s, PdlBypassed), -1)
    else if sendOk then (WithPdlStatus(s, PdlSuccess), first)
    else
      var retry := NextPdlLagFor(cfg, s, nextForecastLag, first, now, now);
      if retry == -1 then (WithPdlStatus(s, PdlFailure), -1) else (s, retry)
  }

  /** The status a published forecast leaves, and the follow-up task it chains. */
  function Published(cfg: ConfigFile, st: Status, now: int, mainshockTime: int, lag: int, up: Upstream): (Status, Option<TaskSpec>)
    requires ValidConfig(cfg)
  {
    var nextFc := NextForecastLagFor(cfg, Forecast(st, now, mainshockTime, lag));
    var d := PdlDecision(cfg, Recorded(cfg, st, now, mainshockTime, lag), nextFc, up.pdlPrimary, up.pdlSendOk, now);
    (d.0, FollowUp(cfg, d.0, nextFc, d.1, now))
  }

  class TaskDispatcher {
    const store: Store
    var cfg: ConfigFile
    var state: int
    var dispatcherTime: int
    var restartTime: int
    var taskresLogTime: int
    var taskresLogRemark: string
    var taskresExecTime: int
    var taskresStage: int

    predicate Valid()
      reads this, store
    {
      store.Valid() && ValidConfig(cfg)
    }

    constructor (s: Store, c: ConfigFile)
      requires s.Valid() && ValidConfig(c)
      ensures Valid() && store == s && cfg == c && state == STATE_INITIAL
    {
      store := s;
      cfg := c;
      state := STATE_INITIAL;
      dispatcherTime := 0;
      restartTime := 0;
      taskresLogTime := 0;
      taskresLogRemark := "";
      taskresExecTime := 0;
      taskresStage := 0;
    }

    //----- Disposition -----

    /**
     * Turns a handler's result code into one change of the queue: DELETE
     * deletes, STAGE returns the task to waiting with the handler's execution
     * time and stage, and any other code is logged once and the task deleted.
     */
    method Dispose(task: Task, rescode: int)
      requires Valid()
      modifies store`tasks, store`log
      ensures Valid()
      ensures rescode == RESCODE_DELETE ==>
                store.tasks == old(store.tasks) - {task.key} && store.log == old(store.log)
      ensures rescode == RESCODE_STAGE ==>
                store.log == old(store.log) &&
                (task.key in old(store.tasks) ==>
                   store.tasks == old(store.tasks)[task.key := old(store.tasks)[task.key].(
                     execTime := taskresExecTime, stage := taskresStage, restarted := false)])
      ensures rescode != RESCODE_DELETE && rescode != RESCODE_STAGE ==>
                store.log == old(store.log) + [LogEntry(task.key, task.eventId, taskresLogTime, rescode, taskresLogRemark)] &&
                store.tasks == old(store.tasks) - {task.key}
    {
      if rescode == RESCODE_DELETE {
        store.DeleteTask(task.key);
      } else if rescode == RESCODE_STAGE {
        store.StageTask(task.key, taskresExecTime, taskresStage);
      } else {
        store.SubmitLogEntry(task, taskresLogTime, rescode, taskresLogRemark);
        store.DeleteTask(task.key);
      }
    }

    //----- Queue maintenance -----

    /** Deletes the tasks in an execution-time range of an event whose opcode is one of opcodes. */
    method DeleteInRange(lo: int, hi: int, eventId: string, opcodes: seq<int>)
      requires Valid()
      modifies store`tasks
      ensures Valid()
      ensures store.tasks == Purged(old(store.tasks), lo, hi, eventId, opcodes)
    {
      var ks := store.TaskRange(lo, hi, eventId);
      ghost var ts0 := store.tasks;
      var i := 0;
      while i < |ks|
        invariant 0 <= i <= |ks|
        invariant Valid()
        invariant store.tasks == map k | k in ts0 && !(k in ks[..i] && ts0[k].opcode in opcodes) :: ts0[k]
      {
        var k := ks[i];
        assert k !in ks[..i];
        if store.tasks[k].opcode in opcodes {
          store.DeleteTask(k);
        }
        assert ks[..i + 1] == ks[..i] + [k];
        i := i + 1;
      }
      assert ks[..i] == ks;
    }

    /**
     * Deletes the waiting tasks of an event whose opcode is one of opcodes;
     * the active task is never deleted.
     */
    method DeleteAllWaitingTasks(eventId: string, opcodes: seq<int>)
      requires Valid()
      modifies store`tasks
      ensures Valid()
      ensures store.tasks == Purged(old(store.tasks), EXEC_TIME_MIN_WAITING, 0, eventId, opcodes)
      ensures forall k :: k in old(store.tasks) && IsActive(old(store.tasks)[k]) ==> k in store.tasks
    {
      DeleteInRange(EXEC_TIME_MIN_WAITING, 0, eventId, opcodes);
    }

    /** Deletes the waiting forecast, PDL report and expire tasks of an event. */
    method DeleteDelayedTimelineTasks(eventId: string)
      requires Valid()
      modifies store`tasks
      ensures Valid()
      ensures store.tasks == Purged(old(store.tasks), EXEC_TIME_MIN_WAITING, 0, eventId, DELAYED_TIMELINE_OPCODES)
    {
      DeleteAllWaitingTasks(eventId, DELAYED_TIMELINE_OPCODES);
    }

    //----- Timeline writes -----

    /** Appends the timeline status as a new entry, tagged with the task's key. */
    method AppendTimeline(task: Task, st: Status)
      modifies store`timeline
      ensures store.timeline == old(store.timeline) + [TimelineEntry(task.key, st.actionTime, st.eventId, st.actcode, Some(st))]
    {
      store.SubmitTimelineEntry(TimelineEntry(task.key, st.actionTime, st.eventId, st.actcode, Some(st)));
    }

    /**
     * Records a timeline entry that cannot be read back: unless it is already
     * an error entry, an error entry later than it is appended.
     */
    method DisplayTimelineCorrupt(tentry: TimelineEntry, task: Task)
      modifies store`timeline, this`taskresLogRemark
      ensures tentry.actcode == ActError ==> store.timeline == old(store.timeline)
      ensures tentry.actcode != ActError ==>
                store.timeline == old(store.timeline) +
                  [TimelineEntry(task.key, Max(dispatcherTime, tentry.actionTime + 1), tentry.eventId, ActError, None)]
      ensures |store.timeline| > |old(store.timeline)| ==>
                store.timeline[|store.timeline| - 1].actionTime > tentry.actionTime &&
                store.timeline[|store.timeline| - 1].actionTime >= dispatcherTime
    {
      taskresLogRemark := "TASK-ERR: Timeline entry is corrupt";
      if tentry.actcode != ActError {
        store.SubmitTimelineEntry(TimelineEntry(task.key, Max(dispatcherTime, tentry.actionTime + 1), tentry.eventId, ActError, None));
      }
    }

    /** Stops the timeline because ComCat failed, and appends it. */
    method DisplayTimelineComcatFail(task: Task, st: Status)
      modifies store`timeline, this`taskresLogRemark
      ensures store.timeline == old(store.timeline) + [TimelineEntry(task.key, dispatcherTime, st.eventId, ActComcatFail, Some(ComcatFail(st, dispatcherTime)))]
    {
      taskresLogRemark := "TASK-ERR: Timeline stopped due to ComCat failure";
      AppendTimeline(task, ComcatFail(st, dispatcherTime));
    }

    method SetTaskresStage(execTime: int, stage: int)
      modifies this`taskresExecTime, this`taskresStage
      ensures taskresExecTime == execTime && taskresStage == stage
    {
      taskresExecTime := execTime;
      taskresStage := stage;
    }

    /**
     * After a ComCat failure: stage the task for the next retry lag past the
     * one its stage records, or, with the retries exhausted, stop the timeline.
     */
    method ComcatRetryOrFail(task: Task, st: Status) returns (rescode: int)
      requires Valid()
      modifies store`timeline, this`taskresExecTime, this`taskresStage, this`taskresLogRemark
      ensures ComcatRetried(task, st, rescode, old(store.timeline))
    {
      var retry := NextComcatRetryLag(cfg, IntToLag(cfg, task.stage) + 1);
      if retry >= 0 {
        SetTaskresStage(task.schedTime + retry, LagToInt(cfg, retry));
        rescode := RESCODE_STAGE;
      } else {
        DisplayTimelineComcatFail(task, st);
        rescode := RESCODE_TIMELINE_COMCAT_FAIL;
      }
    }

    /**
     * The task is staged for the next ComCat retry lag past the one its stage
     * records, or, with the retries exhausted, the timeline (timeline0 before)
     * gains one ComCat-failure entry.
     */
    predicate ComcatRetried(task: Task, st: Status, rescode: int, timeline0: seq<TimelineEntry>)
      requires ValidConfig(cfg)
      reads this, store
    {
      var retry := NextComcatRetryLag(cfg, IntToLag(cfg, task.stage) + 1);
      (retry >= 0 ==>
         rescode == RESCODE_STAGE && store.timeline == timeline0 &&
         taskresExecTime == task.schedTime + retry && taskresStage == LagToInt(cfg, retry)) &&
      (retry < 0 ==>
         rescode == RESCODE_TIMELINE_COMCAT_FAIL &&
         store.timeline == timeline0 + [TimelineEntry(task.key, dispatcherTime, st.eventId, ActComcatFail, Some(ComcatFail(st, dispatcherTime)))])
    }

    //----- Chaining -----

    /** Submits the task that continues the timeline, if any; returns whether it submitted one. */
    method NextAutoTimeline(st: Status, nextForecastLag: int, nextPdlLag: int) returns (submitted: bool)
      requires Valid()
      modifies store`tasks, store`nextKey
      ensures Valid()
      ensures submitted <==> FollowUp(cfg, st, nextForecastLag, nextPdlLag, dispatcherTime).Some?
      ensures !submitted ==> store.tasks == old(store.tasks) && store.nextKey == old(store.nextKey)
      ensures submitted ==>
                old(store.nextKey) !in old(store.tasks) &&
                store.tasks == old(store.tasks)[old(store.nextKey) :=
                  FollowUp(cfg, st, nextForecastLag, nextPdlLag, dispatcherTime).value.Waiting(old(store.nextKey))]
    {
      var next := FollowUp(cfg, st, nextForecastLag, nextPdlLag, dispatcherTime);
      if next.Some? {
        var _ := store.SubmitTask(next.value);
        submitted := true;
      } else {
        submitted := false;
      }
    }

    /** Chains the timeline from its status alone, with a PDL report sequence starting now. */
    method NextAutoTimelineFor(st: Status) returns (submitted: bool)
      requires Valid()
      modifies store`tasks, store`nextKey
      ensures Valid()
      ensures var fc := NextForecastLagFor(cfg, st);
              var pdl := NextPdlLagFor(cfg, st, fc, -1, dispatcherTime, dispatcherTime);
              (submitted <==> FollowUp(cfg, st, fc, pdl, dispatcherTime).Some?) &&
              (!submitted ==> store.tasks == old(store.tasks)) &&
              (submitted ==> store.tasks == old(store.tasks)[old(store.nextKey) :=
                               FollowUp(cfg, st, fc, pdl, dispatcherTime).value.Waiting(old(store.nextKey))])
    {
      var fc := NextForecastLagFor(cfg, st);
      var pdl := NextPdlLagFor(cfg, st, fc, -1, dispatcherTime, dispatcherTime);
      submitted := NextAutoTimeline(st, fc, pdl);
    }

    //----- Handlers -----

    /** An opcode without a handler: the task is deleted and the dispatcher fails. */
    method ExecUnknown(task: Task) returns (out: Outcome)
      requires Valid()
      modifies store`tasks
      ensures Valid()
      ensures out.Thrown? && store.tasks == old(store.tasks) - {task.key}
    {
      store.DeleteTask(task.key);
      out := Thrown("TaskDispatcher: Invalid opcode");
    }

    /**
     * A console message. Stage 1 fails before the message is logged and stage
     * 2 after, unless the task is a restart; the log entry is written by the
     * handler itself, so the task is then only deleted.
     */
    method ExecConMessage(task: Task) returns (out: Outcome)
      modifies store`log, this`taskresLogRemark
      ensures !(task.payload.ConsoleMessage? && 0 <= task.stage <= 2) ==>
                out == Code(RESCODE_TASK_CORRUPT) && store.log == old(store.log)
      ensures task.payload.ConsoleMessage? && task.stage == 1 && !task.restarted ==>
                out.Thrown? && store.log == old(store.log)
      ensures task.payload.ConsoleMessage? && 0 <= task.stage <= 2 && !(task.stage == 1 && !task.restarted) ==>
                store.log == old(store.log) + [LogEntry(task.key, task.eventId, taskresLogTime, RESCODE_SUCCESS, old(taskresLogRemark))] &&
                (out.Thrown? <==> task.stage == 2 && !task.restarted) &&
                (out.Code? ==> out.rescode == RESCODE_DELETE)
    {
      if !(task.payload.ConsoleMessage? && 0 <= task.stage <= 2) {
        taskresLogRemark := "TASK-ERR: Invalid task";
        return Code(RESCODE_TASK_CORRUPT);
      }
      if task.stage == 1 && !task.restarted {
        return Thrown("TaskDispatcher.exec_con_message: Pre-message exception");
      }
      store.SubmitLogEntry(task, taskresLogTime, RESCODE_SUCCESS, taskresLogRemark);
      if task.stage == 2 && !task.restarted {
        return Thrown("TaskDispatcher.exec_con_message: Post-message exception");
      }
      out := Code(RESCODE_DELETE);
    }

    /**
     * Undoes what a failed earlier run of a forecast task may have left: the
     * event's waiting delayed tasks and the task's catalog snapshot.
     */
    method RestartCleanup(task: Task)
      requires Valid()
      modifies store`tasks, store`snapshots
      ensures Valid()
      ensures store.tasks == Purged(old(store.tasks), EXEC_TIME_MIN_WAITING, 0, task.eventId, DELAYED_TIMELINE_OPCODES)
      ensures store.snapshots == old(store.snapshots) - {task.key}
    {
      DeleteDelayedTimelineTasks(task.eventId);
      if task.key in store.snapshots {
        store.DeleteCatalogSnapshot(task.key);
      }
    }

    /**
     * Decides a forecast's report to PDL when the status asks for one: a
     * secondary server sends nothing; with no report due before the next
     * forecast the report is bypassed; otherwise it is sent, and a failed
     * send is retried at the next PDL retry lag, or, with none left, marked
     * failed. Returns the new status and the lag of the next report attempt.
     */
    method ReportToPdl(st: Status, nextForecastLag: int, up: Upstream) returns (fin: Status, nextPdlLag: int)
      requires ValidConfig(cfg)
      ensures var first := NextPdlLagFor(cfg, st, nextForecastLag, -1, dispatcherTime, dispatcherTime);
              var retry := NextPdlLagFor(cfg, st, nextForecastLag, first, dispatcherTime, dispatcherTime);
              (!IsPdlRetryState(st) ==> fin == st && nextPdlLag == first) &&
              (IsPdlRetryState(st) && !up.pdlPrimary ==> fin == WithPdlStatus(st, PdlSecondary) && nextPdlLag == -1) &&
              (IsPdlRetryState(st) && up.pdlPrimary && first == -1 ==>
                 fin == WithPdlStatus(st, PdlBypassed) && nextPdlLag == -1) &&
              (IsPdlRetryState(st) && up.pdlPrimary && first != -1 && up.pdlSendOk ==>
                 fin == WithPdlStatus(st, PdlSuccess) && nextPdlLag == first) &&
              (IsPdlRetryState(st) && up.pdlPrimary && first != -1 && !up.pdlSendOk ==>
                 nextPdlLag == retry && fin == (if retry == -1 then WithPdlStatus(st, PdlFailure) else st))
      ensures (fin, nextPdlLag) == PdlDecision(cfg, st, nextForecastLag, up.pdlPrimary, up.pdlSendOk, dispatcherTime)
    {
      fin := st;
      nextPdlLag := NextPdlLagFor(cfg, st, nextForecastLag, -1, dispatcherTime, dispatcherTime);
      if IsPdlRetryState(st) {
        if !up.pdlPrimary {
          fin := WithPdlStatus(st, PdlSecondary);
          nextPdlLag := -1;
        } else if nextPdlLag < 0 {
          fin := WithPdlStatus(st, PdlBypassed);
        } else if up.pdlSendOk {
          fin := WithPdlStatus(st, PdlSuccess);
        } else {
          nextPdlLag := NextPdlLagFor(cfg, st, nextForecastLag, nextPdlLag, dispatcherTime, dispatcherTime);
          if nextPdlLag < 0 {
            fin := WithPdlStatus(st, PdlFailure);
          }
        }
      }
    }

    /**
     * Records a forecast in the timeline status, decides the PDL report and
     * chains the next task. The status itself is not appended.
     */
    method PublishForecast(st: Status, mainshockTime: int, lag: int, up: Upstream) returns (fin: Status)
      requires Valid() && IsForecastState(st)
      modifies store`tasks, store`nextKey
      ensures Valid()
      ensures fin.actcode == ActForecast && fin.actionTime == dispatcherTime &&
              fin.lastForecastLag == lag && fin.lastMainshockTime == mainshockTime
      ensures fin.fcStatus == StopExpired <==> NextForecastLagFor(cfg, Forecast(st, dispatcherTime, mainshockTime, lag)) == -1
      ensures fin.fcStatus != StopExpired ==> fin.fcStatus == st.fcStatus
      ensures !up.pdlPrimary ==> fin.pdlStatus == PdlSecondary
      ensures up.pdlPrimary ==>
                var forecast := Forecast(st, dispatcherTime, mainshockTime, lag);
                var nextFc := NextForecastLagFor(cfg, forecast);
                var pending := if nextFc == -1 then WithFcStatus(forecast, StopExpired) else forecast;
                var first := NextPdlLagFor(cfg, pending, nextFc, -1, dispatcherTime, dispatcherTime);
                var retry := NextPdlLagFor(cfg, pending, nextFc, first, dispatcherTime, dispatcherTime);
                (first == -1 ==> fin.pdlStatus == PdlBypassed) &&
                (first != -1 && up.pdlSendOk ==> fin.pdlStatus == PdlSuccess) &&
                (first != -1 && !up.pdlSendOk && retry == -1 ==> fin.pdlStatus == PdlFailure) &&
                (first != -1 && !up.pdlSendOk && retry != -1 ==> fin.pdlStatus == PdlPending)
      ensures AtMostOneAdded(old(store.tasks), store.tasks, old(store.nextKey))
      ensures fin == Published(cfg, st, dispatcherTime, mainshockTime, lag, up).0
      ensures store.tasks == Chained(old(store.tasks), old(store.nextKey), Published(cfg, st, dispatcherTime, mainshockTime, lag, up).1)
      ensures store.tasks != old(store.tasks) ==> store.tasks[old(store.nextKey)].eventId == st.eventId
      ensures fin.pdlStatus == PdlSuccess ==>
                store.tasks != old(store.tasks) &&
                store.tasks[old(store.nextKey)].opcode == OPCODE_GEN_PDL_REPORT &&
                store.tasks[old(store.nextKey)].schedTime == dispatcherTime
      ensures up.pdlPrimary && !up.pdlSendOk && fin.pdlStatus == PdlPending ==>
                var forecast := Forecast(st, dispatcherTime, mainshockTime, lag);
                var nextFc := NextForecastLagFor(cfg, forecast);
                var pending := if nextFc == -1 then WithFcStatus(forecast, StopExpired) else forecast;
                var first := NextPdlLagFor(cfg, pending, nextFc, -1, dispatcherTime, dispatcherTime);
                store.tasks != old(store.tasks) &&
                store.tasks[old(store.nextKey)].opcode == OPCODE_GEN_PDL_REPORT &&
                store.tasks[old(store.nextKey)].schedTime ==
                  dispatcherTime + NextPdlLagFor(cfg, pending, nextFc, first, dispatcherTime, dispatcherTime)
    {
      fin := Forecast(st, dispatcherTime, mainshockTime, lag);
      var newNext := NextForecastLagFor(cfg, fin);
      if newNext < 0 {
        fin := WithFcStatus(fin, StopExpired);
      }
      var newPdl;
      fin, newPdl := ReportToPdl(fin, newNext, up);
      var _ := NextAutoTimeline(fin, newNext, newPdl);
      assert newPdl >= 0 ==>
               store.tasks[old(store.nextKey)].opcode == OPCODE_GEN_PDL_REPORT &&
               store.tasks[old(store.nextKey)].schedTime == dispatcherTime + newPdl;
    }

    /**
     * What the second fetch and the forecast leave, given the queue (with its
     * next key), timeline and snapshots before: a ComCat failure retries or
     * stops the timeline; a larger aftershock stops it as a foreshock;
     * otherwise SUCCESS, with the catalog snapshot filed and the follow-up of
     * the published forecast chained.
     */
    predicate CalcOutcome(task: Task, st: Status, ms: Mainshock, lag: int, up: Upstream, rescode: int,
                          tasks0: map<nat, Task>, key0: nat, timeline0: seq<TimelineEntry>,
                          snapshots0: map<nat, CatalogSnapshot>)
      requires ValidConfig(cfg)
      reads this, store
    {
      (up.results.Err? ==>
         store.tasks == tasks0 && store.snapshots == snapshots0 && ComcatRetried(task, st, rescode, timeline0)) &&
      (up.results.Ok? && up.results.value.avail && up.results.value.eqkCount > 0 && up.results.value.maxMag > ms.mag ==>
         rescode == RESCODE_TIMELINE_FORESHOCK && store.tasks == tasks0 && store.snapshots == snapshots0 &&
         store.timeline == timeline0 + [TimelineEntry(task.key, dispatcherTime, st.eventId, ActForeshock, Some(Foreshock(st, dispatcherTime)))]) &&
      (up.results.Ok? && !(up.results.value.avail && up.results.value.eqkCount > 0 && up.results.value.maxMag > ms.mag) ==>
         rescode == RESCODE_SUCCESS && store.timeline == timeline0 &&
         store.snapshots == (if up.results.value.avail
                             then snapshots0[task.key := CatalogSnapshot(task.key, st.eventId, up.results.value.startTime,
                                                                         up.results.value.endTime, up.results.value.eqkCount)]
                             else snapshots0) &&
         store.tasks == Chained(tasks0, key0, Published(cfg, st, dispatcherTime, ms.time, lag, up).1))
    }

    /**
     * What a forecast step leaves, given the state before: a ComCat failure
     * on the first fetch retries or stops the timeline; a forecast not yet
     * due is staged for its time; a timeline still in intake is withdrawn;
     * otherwise the outcome of the second fetch and the forecast.
     */
    predicate StepOutcome(task: Task, st: Status, lag: int, up: Upstream, rescode: int,
                          tasks0: map<nat, Task>, key0: nat, timeline0: seq<TimelineEntry>,
                          snapshots0: map<nat, CatalogSnapshot>)
      requires ValidConfig(cfg)
      reads this, store
    {
      (up.mainshock.Err? ==>
         store.tasks == tasks0 && store.snapshots == snapshots0 && ComcatRetried(task, st, rescode, timeline0)) &&
      (up.mainshock.Ok? && up.mainshock.value.time + lag + cfg.comcatClockSkew > dispatcherTime ==>
         rescode == RESCODE_STAGE && store.tasks == tasks0 && store.snapshots == snapshots0 && store.timeline == timeline0 &&
         taskresExecTime == up.mainshock.value.time + lag + cfg.comcatClockSkew + cfg.comcatOriginSkew &&
         taskresStage == task.stage) &&
      (up.mainshock.Ok? && up.mainshock.value.time + lag + cfg.comcatClockSkew <= dispatcherTime && IsIntakeState(st) ==>
         rescode == RESCODE_TIMELINE_WITHDRAW && store.tasks == tasks0 && store.snapshots == snapshots0 &&
         store.timeline == timeline0 +
           [TimelineEntry(task.key, dispatcherTime, st.eventId, ActWithdrawn, Some(Withdrawn(st, dispatcherTime, up.mainshock.value.time)))]) &&
      (up.mainshock.Ok? && up.mainshock.value.time + lag + cfg.comcatClockSkew <= dispatcherTime && !IsIntakeState(st) ==>
         CalcOutcome(task, st, up.mainshock.value, lag, up, rescode, tasks0, key0, timeline0, snapshots0))
    }

    /**
     * The second fetch and the forecast: a ComCat failure retries or stops the
     * timeline, a larger aftershock stops it as a foreshock, and otherwise the
     * catalog snapshot is saved and the forecast published.
     */
    method CalcAndPublish(task: Task, st: Status, ms: Mainshock, lag: int, up: Upstream) returns (rescode: int)
      requires Valid() && IsForecastState(st)
      modifies store`tasks, store`nextKey, store`timeline, store`snapshots,
               this`taskresExecTime, this`taskresStage, this`taskresLogRemark
      ensures Valid()
      ensures AtMostOneAdded(old(store.tasks), store.tasks, old(store.nextKey))
      ensures up.results.Err? ==>
                (rescode == RESCODE_STAGE || rescode == RESCODE_TIMELINE_COMCAT_FAIL) &&
                store.tasks == old(store.tasks) && store.snapshots == old(store.snapshots)
      ensures up.results.Ok? && up.results.value.avail && up.results.value.eqkCount > 0 && up.results.value.maxMag > ms.mag ==>
                rescode == RESCODE_TIMELINE_FORESHOCK && store.tasks == old(store.tasks) &&
                store.timeline == old(store.timeline) + [TimelineEntry(task.key, dispatcherTime, st.eventId, ActForeshock, Some(Foreshock(st, dispatcherTime)))]
      ensures up.results.Ok? && !(up.results.value.avail && up.results.value.eqkCount > 0 && up.results.value.maxMag > ms.mag) ==>
                rescode == RESCODE_SUCCESS && store.timeline == old(store.timeline) &&
                store.snapshots == (if up.results.value.avail
                                    then old(store.snapshots)[task.key := CatalogSnapshot(task.key, st.eventId, up.results.value.startTime,
                                                                                          up.results.value.endTime, up.results.value.eqkCount)]
                                    else old(store.snapshots))
      ensures old(store.timeline) <= store.timeline && |store.timeline| <= |old(store.timeline)| + 1
      ensures CalcOutcome(task, st, ms, lag, up, rescode, old(store.tasks), old(store.nextKey), old(store.timeline), old(store.snapshots))
    {
      if up.results.Err? {
        rescode := ComcatRetryOrFail(task, st);
        return;
      }
      var res := up.results.value;
      if res.avail {
        if res.eqkCount > 0 && res.maxMag > ms.mag {
          AppendTimeline(task, Foreshock(st, dispatcherTime));
          taskresLogRemark := "TASK-INFO: Foreshock detected";
          return RESCODE_TIMELINE_FORESHOCK;
        }
        store.SubmitCatalogSnapshot(CatalogSnapshot(task.key, st.eventId, res.startTime, res.endTime, res.eqkCount));
      }
      var _ := PublishForecast(st, ms.time, lag, up);
      rescode := RESCODE_SUCCESS;
    }

    /**
     * The first fetch and the checks that follow it: a ComCat failure retries
     * or stops the timeline, a forecast that is not yet due is staged for its
     * time, and a timeline still in intake is withdrawn (the region found by
     * the intake lookup is not consulted).
     */
    method ForecastStep(task: Task, st: Status, lag: int, up: Upstream) returns (rescode: int)
      requires Valid() && IsForecastState(st)
      modifies store`tasks, store`nextKey, store`timeline, store`snapshots,
               this`taskresExecTime, this`taskresStage, this`taskresLogRemark
      ensures Valid()
      ensures AtMostOneAdded(old(store.tasks), store.tasks, old(store.nextKey))
      ensures old(store.timeline) <= store.timeline && |store.timeline| <= |old(store.timeline)| + 1
      ensures rescode == RESCODE_SUCCESS ==> store.timeline == old(store.timeline)
      ensures up.mainshock.Err? ==>
                (rescode == RESCODE_STAGE || rescode == RESCODE_TIMELINE_COMCAT_FAIL) && store.tasks == old(store.tasks)
      ensures up.mainshock.Ok? && up.mainshock.value.time + lag + cfg.comcatClockSkew > dispatcherTime ==>
                rescode == RESCODE_STAGE && store.tasks == old(store.tasks) && store.timeline == old(store.timeline) &&
                taskresExecTime == up.mainshock.value.time + lag + cfg.comcatClockSkew + cfg.comcatOriginSkew &&
                taskresStage == task.stage
      ensures up.mainshock.Ok? && up.mainshock.value.time + lag + cfg.comcatClockSkew <= dispatcherTime && IsIntakeState(st) ==>
                rescode == RESCODE_TIMELINE_WITHDRAW && store.tasks == old(store.tasks) &&
                store.timeline == old(store.timeline) +
                  [TimelineEntry(task.key, dispatcherTime, st.eventId, ActWithdrawn, Some(Withdrawn(st, dispatcherTime, up.mainshock.value.time)))]
      ensures StepOutcome(task, st, lag, up, rescode, old(store.tasks), old(store.nextKey), old(store.timeline), old(store.snapshots))
    {
      if up.mainshock.Err? {
        rescode := ComcatRetryOrFail(task, st);
        return;
      }
      var ms := up.mainshock.value;
      if ms.time + lag + cfg.comcatClockSkew > dispatcherTime {
        SetTaskresStage(ms.time + lag + cfg.comcatClockSkew + cfg.comcatOriginSkew, task.stage);
        return RESCODE_STAGE;
      }
      if IsIntakeState(st) {
        var region := RegionForMinMag(cfg.intakeRegions, ms.lat, ms.lon, ms.mag);
        taskresLogRemark := "TASK-INFO: Timeline entry withdrawn";
        AppendTimeline(task, Withdrawn(st, dispatcherTime, ms.time));
        return RESCODE_TIMELINE_WITHDRAW;
      }
      rescode := CalcAndPublish(task, st, ms, lag, up);
    }

    /**
     * Reads the timeline a forecast task belongs to and checks that the task
     * is current: the timeline exists and reads back, is active, and expects
     * exactly the lags the task carries. A stale task re-chains the timeline.
     */
    method OpenForecastTimeline(task: Task) returns (st: Option<Status>, rescode: int)
      requires Valid() && task.payload.GenerateForecast?
      modifies store`tasks, store`nextKey, store`timeline, this`taskresLogRemark
      ensures Valid()
      ensures var recent := Recent(old(store.timeline), task.eventId);
              (recent.None? ==> st.None? && rescode == RESCODE_TIMELINE_NOT_FOUND) &&
              (recent.Some? && recent.value.details.None? ==> st.None? && rescode == RESCODE_TIMELINE_CORRUPT) &&
              (recent.Some? && recent.value.details.Some? ==> CheckedLags(task, recent.value.details.value, st, rescode))
      ensures st.Some? ==> store.tasks == old(store.tasks) && store.timeline == old(store.timeline) &&
                           IsForecastState(st.value) && NextForecastLagFor(cfg, st.value) == task.payload.nextForecastLag
      ensures st.Some? <==> rescode == RESCODE_SUCCESS
      ensures st.Some? ==> store.nextKey == old(store.nextKey)
      ensures var recent := Recent(old(store.timeline), task.eventId);
              recent.None? || recent.value.details.None? ==> store.tasks == old(store.tasks)
      ensures var recent := Recent(old(store.timeline), task.eventId);
              recent.None? ==> store.timeline == old(store.timeline)
      ensures var recent := Recent(old(store.timeline), task.eventId);
              recent.Some? && recent.value.details.Some? && st.None? ==>
                store.timeline == old(store.timeline) &&
                store.tasks == Chained(old(store.tasks), old(store.nextKey), AutoFollowUp(cfg, recent.value.details.value, dispatcherTime))
      ensures AtMostOneAdded(old(store.tasks), store.tasks, old(store.nextKey))
      ensures old(store.timeline) <= store.timeline && |store.timeline| <= |old(store.timeline)| + 1
    {
      var tentry := Recent(store.timeline, task.eventId);
      if tentry.None? {
        taskresLogRemark := "TASK-ERR: Timeline entry not found";
        return None, RESCODE_TIMELINE_NOT_FOUND;
      }
      if tentry.value.details.None? {
        DisplayTimelineCorrupt(tentry.value, task);
        return None, RESCODE_TIMELINE_CORRUPT;
      }
      var s := tentry.value.details.value;
      var lag := NextForecastLagFor(cfg, s);
      if lag < 0 {
        taskresLogRemark := "TASK-ERR: Timeline entry is not active";
        var _ := NextAutoTimelineFor(s);
        return None, RESCODE_TIMELINE_NOT_ACTIVE;
      }
      if !(task.payload.nextForecastLag == lag && task.payload.lastForecastLag == s.lastForecastLag) {
        taskresLogRemark := "TASK-ERR: Timeline entry lags do not match task";
        var _ := NextAutoTimelineFor(s);
        return None, RESCODE_TIMELINE_TASK_MISMATCH;
      }
      st, rescode := Some(s), RESCODE_SUCCESS;
    }

    /**
     * The outcome of checking a forecast task against the status read back:
     * NOT_ACTIVE when no forecast is due, TASK_MISMATCH when the task's lags
     * are not the expected ones, and the status to work on otherwise.
     */
    predicate CheckedLags(task: Task, s: Status, st: Option<Status>, rescode: int)
      requires ValidConfig(cfg) && task.payload.GenerateForecast?
      reads this
    {
      var lag := NextForecastLagFor(cfg, s);
      (lag < 0 ==> st.None? && rescode == RESCODE_TIMELINE_NOT_ACTIVE) &&
      (lag >= 0 && !(task.payload.nextForecastLag == lag && task.payload.lastForecastLag == s.lastForecastLag) ==>
         st.None? && rescode == RESCODE_TIMELINE_TASK_MISMATCH) &&
      (lag >= 0 && task.payload.nextForecastLag == lag && task.payload.lastForecastLag == s.lastForecastLag ==>
         st == Some(s))
    }

    /**
     * Generates the forecast a timeline's forecast task asks for. A restarted
     * task whose timeline entry was written is complete; one whose entry was
     * not starts over after cleaning up.
     */
    method ExecGenForecast(task: Task, up: Upstream) returns (rescode: int)
      requires Valid()
      modifies store`tasks, store`nextKey, store`timeline, store`snapshots,
               this`taskresExecTime, this`taskresStage, this`taskresLogRemark
      ensures Valid()
      ensures !task.payload.GenerateForecast? ==>
                rescode == RESCODE_TASK_CORRUPT && store.tasks == old(store.tasks) &&
                store.timeline == old(store.timeline) && store.snapshots == old(store.snapshots)
      ensures task.payload.GenerateForecast? && task.restarted && task.key in old(store.TimelineKeys()) ==>
                rescode == RESCODE_SUCCESS && store.tasks == old(store.tasks) &&
                store.timeline == old(store.timeline) && store.snapshots == old(store.snapshots)
      ensures task.payload.GenerateForecast? && !(task.restarted && task.key in old(store.TimelineKeys())) &&
              Recent(old(store.timeline), task.eventId).None? ==>
                rescode == RESCODE_TIMELINE_NOT_FOUND
      ensures task.payload.GenerateForecast? && !(task.restarted && task.key in old(store.TimelineKeys())) &&
              Recent(old(store.timeline), task.eventId).Some? &&
              Recent(old(store.timeline), task.eventId).value.details.None? ==>
                rescode == RESCODE_TIMELINE_CORRUPT
      ensures old(store.timeline) <= store.timeline && |store.timeline| <= |old(store.timeline)| + 1
      ensures rescode == RESCODE_SUCCESS ==> store.timeline == old(store.timeline)
      ensures KeepsActive(old(store.tasks), store.tasks)
      ensures task.payload.GenerateForecast? && !(task.restarted && task.key in old(store.TimelineKeys())) &&
              Recent(old(store.timeline), task.eventId).None? ==>
                store.tasks == Cleaned(old(store.tasks), task) && store.snapshots == CleanedSnapshots(old(store.snapshots), task) &&
                store.timeline == old(store.timeline)
      ensures task.payload.GenerateForecast? && !(task.restarted && task.key in old(store.TimelineKeys())) &&
              Recent(old(store.timeline), task.eventId).Some? &&
              Recent(old(store.timeline), task.eventId).value.details.None? ==>
                store.tasks == Cleaned(old(store.tasks), task) && store.snapshots == CleanedSnapshots(old(store.snapshots), task)
      ensures task.payload.GenerateForecast? && !(task.restarted && task.key in old(store.TimelineKeys())) &&
              Recent(old(store.timeline), task.eventId).Some? &&
              Recent(old(store.timeline), task.eventId).value.details.Some? ==>
                var s := Recent(old(store.timeline), task.eventId).value.details.value;
                var lag := NextForecastLagFor(cfg, s);
                var current := lag >= 0 && task.payload.nextForecastLag == lag && task.payload.lastForecastLag == s.lastForecastLag;
                (!current ==>
                   rescode == (if lag < 0 then RESCODE_TIMELINE_NOT_ACTIVE else RESCODE_TIMELINE_TASK_MISMATCH) &&
                   store.timeline == old(store.timeline) &&
                   store.snapshots == CleanedSnapshots(old(store.snapshots), task) &&
                   store.tasks == Chained(Cleaned(old(store.tasks), task), old(store.nextKey), AutoFollowUp(cfg, s, dispatcherTime))) &&
                (current ==>
                   StepOutcome(task, s, lag, up, rescode, Cleaned(old(store.tasks), task), old(store.nextKey),
                               old(store.timeline), CleanedSnapshots(old(store.snapshots), task)))
    {
      if !task.payload.GenerateForecast? {
        taskresLogRemark := "TASK-ERR: Invalid task";
        return RESCODE_TASK_CORRUPT;
      }
      if task.restarted {
        if task.key in store.TimelineKeys() {
          return RESCODE_SUCCESS;
        }
        PurgedKeepsActive(store.tasks, EXEC_TIME_MIN_WAITING, 0, task.eventId, DELAYED_TIMELINE_OPCODES);
        RestartCleanup(task);
      }
      ghost var ts1 := store.tasks;
      ghost var snaps1 := store.snapshots;
      assert ts1 == Cleaned(old(store.tasks), task) && snaps1 == CleanedSnapshots(old(store.snapshots), task);
      assert store.timeline == old(store.timeline) && store.nextKey == old(store.nextKey);
      var st;
      st, rescode := OpenForecastTimeline(task);
      AddedKeepsActive(ts1, store.tasks, old(store.nextKey));
      if st.Some? {
        ghost var ts2 := store.tasks;
        ghost var key2 := store.nextKey;
        rescode := ForecastStep(task, st.value, task.payload.nextForecastLag, up);
        AddedKeepsActive(ts2, store.tasks, key2);
        assert StepOutcome(task, st.value, task.payload.nextForecastLag, up, rescode, ts1, old(store.nextKey),
                           old(store.timeline), snaps1);
      }
    }
  
    //----- Dispatch -----

    /**
     * Runs the handler for a task's opcode. Only no-op, shutdown, console
     * message and forecast generation are routed; any other opcode goes to
     * ExecUnknown.
     */
    method RunHandler(task: Task, up: Upstream) returns (out: Outcome)
      requires Valid()
      modifies store`tasks, store`nextKey, store`log, store`timeline, store`snapshots,
               this`state, this`taskresLogRemark, this`taskresExecTime, this`taskresStage
      ensures Valid()
      ensures !IsRoutedOpcode(task.opcode) ==>
                out.Thrown? && store.tasks == old(store.tasks) - {task.key} &&
                store.log == old(store.log) && store.timeline == old(store.timeline)
      ensures task.opcode == OPCODE_NO_OP ==>
                out == Code(RESCODE_DELETE) && store.tasks == old(store.tasks) &&
                store.log == old(store.log) && store.timeline == old(store.timeline)
      ensures task.opcode == OPCODE_SHUTDOWN ==>
                out == Code(RESCODE_DELETE) && state == STATE_SHUTDOWN && store.tasks == old(store.tasks) &&
                store.log == old(store.log) && store.timeline == old(store.timeline)
      ensures state == old(state) || (task.opcode == OPCODE_SHUTDOWN && state == STATE_SHUTDOWN)
      ensures IsRoutedOpcode(task.opcode) ==> KeepsActive(old(store.tasks), store.tasks)
      ensures old(store.log) <= store.log && |store.log| <= |old(store.log)| + 1
      ensures store.log != old(store.log) ==> out == Code(RESCODE_DELETE) || out.Thrown?
      ensures old(store.timeline) <= store.timeline && |store.timeline| <= |old(store.timeline)| + 1
    {
      if task.opcode == OPCODE_NO_OP {
        out := Code(RESCODE_DELETE);
      } else if task.opcode == OPCODE_SHUTDOWN {
        state := STATE_SHUTDOWN;
        out := Code(RESCODE_DELETE);
      } else if task.opcode == OPCODE_CON_MESSAGE {
        out := ExecConMessage(task);
      } else if task.opcode == OPCODE_GEN_FORECAST {
        var rescode := ExecGenForecast(task, up);
        out := Code(rescode);
      } else {
        out := ExecUnknown(task);
      }
    }

    /**
     * Dispatches an activated task and disposes of it by its result code. A
     * restarted task that already has a log entry finished its work before
     * the failure: it is deleted and no handler runs. Returns how the task
     * ended; a thrown handler leaves the task as it stands in the queue.
     */
    method DispatchTask(task: Task, up: Upstream) returns (out: Outcome)
      requires Valid() && task.key in store.tasks && store.tasks[task.key] == task && IsActive(task)
      modifies store`tasks, store`nextKey, store`log, store`timeline, store`snapshots,
               this`state, this`taskresLogTime, this`taskresLogRemark, this`taskresExecTime, this`taskresStage
      ensures Valid()
      ensures task.restarted && task.key in old(store.LogKeys()) ==>
                out == Code(RESCODE_DELETE) && store.tasks == old(store.tasks) - {task.key} &&
                store.log == old(store.log) && store.timeline == old(store.timeline) &&
                store.snapshots == old(store.snapshots) && state == old(state)
      ensures !(task.restarted && task.key in old(store.LogKeys())) && !IsRoutedOpcode(task.opcode) ==>
                out.Thrown? && store.tasks == old(store.tasks) - {task.key} &&
                store.log == old(store.log) && store.timeline == old(store.timeline)
      ensures !(task.restarted && task.key in old(store.LogKeys())) && task.opcode == OPCODE_NO_OP ==>
                out == Code(RESCODE_DELETE) && store.tasks == old(store.tasks) - {task.key} &&
                store.log == old(store.log) && store.timeline == old(store.timeline)
      ensures !(task.restarted && task.key in old(store.LogKeys())) && task.opcode == OPCODE_SHUTDOWN ==>
                out == Code(RESCODE_DELETE) && state == STATE_SHUTDOWN && store.tasks == old(store.tasks) - {task.key}
      ensures state == old(state) || (task.opcode == OPCODE_SHUTDOWN && state == STATE_SHUTDOWN)
      ensures out == Code(RESCODE_DELETE) ==> task.key !in store.tasks
      ensures out == Code(RESCODE_STAGE) ==>
                task.key in store.tasks &&
                store.tasks[task.key] == task.(execTime := taskresExecTime, stage := taskresStage, restarted := false)
      ensures out.Code? && out.rescode != RESCODE_DELETE && out.rescode != RESCODE_STAGE ==>
                task.key !in store.tasks &&
                store.log == old(store.log) + [LogEntry(task.key, task.eventId, dispatcherTime, out.rescode, taskresLogRemark)]
      ensures old(store.log) <= store.log && |store.log| <= |old(store.log)| + 1
      ensures old(store.timeline) <= store.timeline && |store.timeline| <= |old(store.timeline)| + 1
    {
      if task.restarted && task.key in store.LogKeys() {
        store.DeleteTask(task.key);
        return Code(RESCODE_DELETE);
      }
      taskresLogTime := dispatcherTime;
      taskresLogRemark := "";
      out := RunHandler(task, up);
      if out.Thrown? {
        return;
      }
      Dispose(task, out.rescode);
    }

    //----- Polling and restart loops -----

    /** On the first connection, removes the shutdown commands left in the queue. */
    method PurgeShutdownTasks()
      requires Valid()
      modifies store`tasks
      ensures Valid()
      ensures store.tasks == Purged(old(store.tasks), 0, 0, EVID_SHUTDOWN, [OPCODE_SHUTDOWN])
      ensures forall k :: k in store.tasks ==> !(store.tasks[k].eventId == EVID_SHUTDOWN && store.tasks[k].opcode == OPCODE_SHUTDOWN)
    {
      DeleteInRange(0, 0, EVID_SHUTDOWN, [OPCODE_SHUTDOWN]);
    }

    /**
     * The polling loop of one connection: each turn reads the clock and the
     * configuration, activates the first ready task and dispatches it, until
     * a shutdown task runs or a handler throws. When the given turns run out
     * first, the connection is taken to fail at the start of the next turn.
     * Returns whether the connection failed.
     */
    method RunSession(polls: seq<Poll>) returns (failed: bool)
      requires Valid()
      requires forall i :: 0 <= i < |polls| ==> ValidConfig(polls[i].cfg)
      modifies store`tasks, store`nextKey, store`log, store`timeline, store`snapshots,
               this`cfg, this`state, this`dispatcherTime, this`taskresLogTime, this`taskresLogRemark,
               this`taskresExecTime, this`taskresStage
      ensures Valid()
      ensures !failed <==> state == STATE_SHUTDOWN
      ensures failed ==> state == STATE_POLLING || state == STATE_PROCESSING
      ensures old(store.log) <= store.log && old(store.timeline) <= store.timeline
    {
      var i := 0;
      state := STATE_POLLING;
      while state != STATE_SHUTDOWN
        invariant 0 <= i <= |polls|
        invariant Valid()
        invariant state == STATE_POLLING || state == STATE_WAITING || state == STATE_PROCESSING || state == STATE_SHUTDOWN
        invariant old(store.log) <= store.log && old(store.timeline) <= store.timeline
        decreases |polls| - i
      {
        state := STATE_POLLING;
        if i == |polls| {
          return true;
        }
        var poll := polls[i];
        i := i + 1;
        dispatcherTime := poll.time;
        cfg := poll.cfg;
        var task := store.ActivateFirstReady(dispatcherTime);
        if task.None? {
          state := STATE_WAITING;
        } else {
          state := STATE_PROCESSING;
          var out := DispatchTask(task.value, poll.upstream);
          if out.Thrown? {
            return true;
          }
        }
      }
      failed := false;
    }

    /**
     * After a failure: the delay to wait, at least the minimum and putting
     * the maximum delay between restarts; the restart time becomes the clock
     * reading after the wait.
     */
    method WaitToRestart(failTime: int, resumeTime: int) returns (delay: int)
      modifies this`restartTime, this`state
      ensures delay >= RESTART_DELAY_MIN && failTime + delay >= old(restartTime) + RESTART_DELAY_MAX
      ensures delay == RESTART_DELAY_MIN || failTime + delay == old(restartTime) + RESTART_DELAY_MAX
      ensures restartTime == resumeTime && state == STATE_RECONNECTING
    {
      delay := RestartDelay(restartTime, failTime);
      restartTime := resumeTime;
      state := STATE_RECONNECTING;
    }

    /**
     * The restart loop. Each session connects to the store (the first time
     * also clearing old shutdown commands) and runs the polling loop. The
     * loop ends on a shutdown, or when the very first connection fails;
     * after any other failure it waits the restart delay and reconnects.
     * Returns the delays waited, one per failed session, in order.
     */
    method Run(startTime: int, sessions: seq<Session>) returns (delays: seq<int>)
      requires Valid()
      requires forall i, j :: 0 <= i < |sessions| && 0 <= j < |sessions[i].polls| ==> ValidConfig(sessions[i].polls[j].cfg)
      modifies store`tasks, store`nextKey, store`log, store`timeline, store`snapshots,
               this`cfg, this`state, this`dispatcherTime, this`restartTime, this`taskresLogTime, this`taskresLogRemark,
               this`taskresExecTime, this`taskresStage
      ensures Valid()
      ensures |delays| <= |sessions|
      ensures forall j :: 0 <= j < |delays| ==> delays[j] >= RESTART_DELAY_MIN
      ensures forall j :: 0 <= j < |delays| ==> sessions[j].failTime + delays[j] >= RestartBase(startTime, sessions, j) + RESTART_DELAY_MAX
      ensures state == STATE_SHUTDOWN || state == STATE_FIRST_CONNECT || |delays| == |sessions|
      ensures state == STATE_FIRST_CONNECT ==> delays == [] && (sessions == [] || !sessions[0].connects)
      ensures |delays| > 0 ==> sessions[0].connects
      ensures old(store.log) <= store.log && old(store.timeline) <= store.timeline
    {
      state := STATE_FIRST_CONNECT;
      restartTime := startTime - RESTART_DELAY_MAX;
      delays := [];
      var i := 0;
      while i < |sessions|
        invariant 0 <= i <= |sessions| && |delays| == i
        invariant Valid()
        invariant state == STATE_FIRST_CONNECT <==> i == 0
        invariant restartTime == RestartBase(startTime, sessions, i)
        invariant forall j :: 0 <= j < i ==> delays[j] >= RESTART_DELAY_MIN
        invariant forall j :: 0 <= j < i ==> sessions[j].failTime + delays[j] >= RestartBase(startTime, sessions, j) + RESTART_DELAY_MAX
        invariant i > 0 ==> sessions[0].connects
        invariant old(store.log) <= store.log && old(store.timeline) <= store.timeline
      {
        var session := sessions[i];
        if session.connects {
          if state == STATE_FIRST_CONNECT {
            PurgeShutdownTasks();
          }
          var _ := RunSession(session.polls);
        }
        if state == STATE_SHUTDOWN || state == STATE_FIRST_CONNECT {
          return;
        }
        var delay := WaitToRestart(session.failTime, session.resumeTime);
        delays := delays + [delay];
        i := i + 1;
      }
    }
  }

  /** The time of the restart before session j: the start, backdated by the maximum delay, or the previous resume time. */
  function RestartBase(startTime: int, sessions: seq<Session>, j: nat): int
    requires j <= |sessions|
  {
    if j == 0 then startTime - RESTART_DELAY_MAX else sessions[j - 1].resumeTime
  }
}

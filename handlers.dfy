/**
 * The intake and analyst handlers: each reads the event's timeline, and
 * either updates an existing timeline or fetches the mainshock and creates
 * one, answering with a result code and at most one timeline append. The
 * timeline support that opens a timeline and the mainshock fetch are not
 * part of this model: their outcomes are parameters.
 */
module Handlers {
  import opened Wrappers
  import opened ServerComponent
  import opened ActionConfig
  import opened TimelineStatus
  import opened TaskStore
  import opened Dispatcher

  /** What opening the task's timeline found: a status, no timeline, or another result code to return as is. */
  datatype OpenResult = TimelineExists(status: Status) | TimelineNotFound | OpenFailed(rescode: int)

  /** The state change an analyst asks for. */
  datatype StateChange = NoChange | StartForecasts | StopForecasts

  /** An analyst intervention command. */
  datatype AnalystCommand = AnalystCommand(stateChange: StateChange, createTimeline: bool, hasAnalyst: bool, analyst: AnalystData)

  /** A sync intake command. */
  datatype SyncCommand = SyncCommand(hasAnalyst: bool, analyst: AnalystData)

  /** A PDL intake command, with the mainshock location and magnitude PDL reported. */
  datatype PdlCommand = PdlCommand(hasAnalyst: bool, analyst: AnalystData, lat: real, lon: real, mag: real)

  /** The log remark of an analyst intervention that gives up after ComCat failures. */
  const ANALYST_COMCAT_FAIL_REMARK := "TASK-ERR: Analyst intervention failed due to ComCat failure"

  /** The log remark of an event intake that gives up after ComCat failures. */
  const INTAKE_COMCAT_FAIL_REMARK := "TASK-ERR: Event intake failed due to ComCat failure"

  /**
   * After a ComCat failure during intake: stage the task for the next intake
   * retry lag past the one its stage records, or give up once they run out,
   * logging the caller's remark.
   */
  method IntakeRetryOrFail(disp: TaskDispatcher, task: Task, remark: string) returns (rescode: int)
    requires disp.Valid()
    modifies disp`taskresExecTime, disp`taskresStage, disp`taskresLogRemark
    ensures IntakeRetried(disp, task, remark, rescode)
  {
    var retry := NextComcatIntakeLag(disp.cfg, IntToLag(disp.cfg, task.stage) + 1);
    if retry >= 0 {
      disp.SetTaskresStage(task.schedTime + retry, LagToInt(disp.cfg, retry));
      rescode := RESCODE_STAGE;
    } else {
      disp.taskresLogRemark := remark;
      rescode := RESCODE_INTAKE_COMCAT_FAIL;
    }
  }

  /**
   * The task is staged for the next intake retry lag past the one its stage
   * records, or, with none left, fails with INTAKE_COMCAT_FAIL and the remark.
   */
  predicate IntakeRetried(disp: TaskDispatcher, task: Task, remark: string, rescode: int)
    requires ValidConfig(disp.cfg)
    reads disp
  {
    var retry := NextComcatIntakeLag(disp.cfg, IntToLag(disp.cfg, task.stage) + 1);
    (retry >= 0 ==>
       rescode == RESCODE_STAGE && disp.taskresExecTime == task.schedTime + retry &&
       disp.taskresStage == LagToInt(disp.cfg, retry)) &&
    (retry < 0 ==> rescode == RESCODE_INTAKE_COMCAT_FAIL && disp.taskresLogRemark == remark)
  }

  /** The status after an analyst intervention at time: the new forecast status, and the command's options if it has any. */
  function Intervened(s: Status, time: int, fc: FcStatus, hasAnalyst: bool, a: AnalystData): (r: Status)
    ensures r.actcode == ActAnalystIntervention && r.actionTime == time && r.fcStatus == fc
    ensures r.analyst == (if hasAnalyst then Some(a) else s.analyst)
    ensures r.extraForecastLag == (if hasAnalyst then a.extraLag else s.extraForecastLag)
    ensures r.(actcode := s.actcode, actionTime := s.actionTime, fcStatus := s.fcStatus,
               analyst := s.analyst, extraForecastLag := s.extraForecastLag) == s
  {
    OptionalAnalyst(WithFcStatus(AnalystIntervention(s, time), fc), hasAnalyst, a)
  }

  /** A new timeline's status: tracking from the given origin, with the command's options if it has any. */
  function Created(time: int, eventId: string, mainshockTime: int, origin: FcOrigin, fc: FcStatus,
                   hasAnalyst: bool, a: AnalystData): (r: Status)
    ensures r.eventId == eventId && r.actcode == ActTrack && r.actionTime == time && r.fcStatus == fc &&
            r.origin == origin && r.pdlStatus == PdlUnknown && r.lastForecastLag == -1 &&
            r.lastMainshockTime == mainshockTime
    ensures r.analyst == (if hasAnalyst then Some(a) else None)
    ensures r.extraForecastLag == (if hasAnalyst then a.extraLag else -1)
  {
    OptionalAnalyst(Track(time, eventId, mainshockTime, origin, fc), hasAnalyst, a)
  }

  //----- Analyst intervention -----

  /** The code an analyst command gets from an existing timeline, and the status it appends, if any. */
  function AnalystOnExisting(s: Status, time: int, cmd: AnalystCommand): (r: (int, Option<Status>))
    ensures r.1.Some? <==> r.0 == RESCODE_SUCCESS || r.0 == RESCODE_TIMELINE_ANALYST_SET
    ensures cmd.stateChange == StartForecasts && CanAnalystStart(s) ==>
              r.0 == RESCODE_SUCCESS && r.1.Some? && r.1.value.fcStatus == ActiveNormal
    ensures !(cmd.stateChange == StartForecasts && CanAnalystStart(s)) &&
            cmd.stateChange == StopForecasts && CanAnalystStop(s) ==>
              r.0 == RESCODE_SUCCESS && r.1.Some? && r.1.value.fcStatus == StopAnalyst
    ensures r.0 == RESCODE_TIMELINE_ANALYST_SET ==>
              cmd.hasAnalyst && CanAnalystUpdate(s) && r.1.value.fcStatus == s.fcStatus
    ensures r.1.Some? ==> r.1.value == Intervened(s, time, r.1.value.fcStatus, cmd.hasAnalyst, cmd.analyst)
    ensures r.1.None? ==> r.0 == (if cmd.hasAnalyst then RESCODE_TIMELINE_ANALYST_FAIL else RESCODE_TIMELINE_ANALYST_NONE)
    ensures r.1.None? <==>
              !(cmd.stateChange == StartForecasts && CanAnalystStart(s)) &&
              !(cmd.stateChange == StopForecasts && CanAnalystStop(s)) &&
              !(cmd.hasAnalyst && CanAnalystUpdate(s))
  {
    if cmd.stateChange == StartForecasts && CanAnalystStart(s) then
      (RESCODE_SUCCESS, Some(Intervened(s, time, ActiveNormal, cmd.hasAnalyst, cmd.analyst)))
    else if cmd.stateChange == StopForecasts && CanAnalystStop(s) then
      (RESCODE_SUCCESS, Some(Intervened(s, time, StopAnalyst, cmd.hasAnalyst, cmd.analyst)))
    else if cmd.hasAnalyst && CanAnalystUpdate(s) then
      (RESCODE_TIMELINE_ANALYST_SET, Some(Intervened(s, time, s.fcStatus, true, cmd.analyst)))
    else if cmd.hasAnalyst then (RESCODE_TIMELINE_ANALYST_FAIL, None)
    else (RESCODE_TIMELINE_ANALYST_NONE, None)
  }

  /**
   * An analyst intervention: starts, stops or updates an existing timeline,
   * or, when asked to, creates a timeline from the fetched mainshock.
   */
  method ExecAnalystIntervene(disp: TaskDispatcher, task: Task, open: OpenResult, cmd: AnalystCommand,
                              fetch: Result<Mainshock, string>) returns (rescode: int)
    requires disp.Valid()
    modifies disp.store`timeline, disp`taskresExecTime, disp`taskresStage, disp`taskresLogRemark
    ensures disp.Valid()
    ensures open.TimelineExists? ==>
              var r := AnalystOnExisting(open.status, disp.dispatcherTime, cmd);
              rescode == r.0 &&
              disp.store.timeline == old(disp.store.timeline) + (if r.1.Some? then [StatusEntry(task.key, r.1.value)] else [])
    ensures open.OpenFailed? ==> rescode == open.rescode && disp.store.timeline == old(disp.store.timeline)
    ensures open.TimelineNotFound? && !cmd.createTimeline ==>
              rescode == RESCODE_TIMELINE_ANALYST_NONE && disp.store.timeline == old(disp.store.timeline)
    ensures open.TimelineNotFound? && cmd.createTimeline && fetch.Err? ==>
              IntakeRetried(disp, task, ANALYST_COMCAT_FAIL_REMARK, rescode) &&
              disp.store.timeline == old(disp.store.timeline)
    ensures open.TimelineNotFound? && cmd.createTimeline && fetch.Ok? ==>
              rescode == RESCODE_SUCCESS &&
              disp.store.timeline == old(disp.store.timeline) +
                [StatusEntry(task.key, Created(disp.dispatcherTime, task.eventId, fetch.value.time, OriginAnalyst,
                                               if cmd.stateChange == StopForecasts then StopAnalyst else ActiveNormal,
                                               cmd.hasAnalyst, cmd.analyst))]
  {
    match open {
      case OpenFailed(code) =>
        return code;
      case TimelineExists(s) =>
        var r := AnalystOnExisting(s, disp.dispatcherTime, cmd);
        if r.1.Some? {
          disp.AppendTimeline(task, r.1.value);
        }
        return r.0;
      case TimelineNotFound =>
    }
    if !cmd.createTimeline {
      return RESCODE_TIMELINE_ANALYST_NONE;
    }
    if fetch.Err? {
      rescode := IntakeRetryOrFail(disp, task, ANALYST_COMCAT_FAIL_REMARK);
      return;
    }
    var fc := if cmd.stateChange == StopForecasts then StopAnalyst else ActiveNormal;
    var st := Created(disp.dispatcherTime, task.eventId, fetch.value.time, OriginAnalyst, fc, cmd.hasAnalyst, cmd.analyst);
    disp.AppendTimeline(task, st);
    rescode := RESCODE_SUCCESS;
  }

  //----- Sync intake -----

  /** The code a sync intake gets from an existing timeline, and the status it appends, if any. */
  function SyncOnExisting(s: Status, time: int, cmd: SyncCommand): (r: (int, Option<Status>))
    ensures IsConvertibleToNormal(s) ==>
              r.0 == RESCODE_TIMELINE_STATE_UPDATE && r.1.Some? &&
              r.1.value == OptionalAnalyst(StatusUpdate(s, time, ActiveNormal), cmd.hasAnalyst, cmd.analyst)
    ensures !IsConvertibleToNormal(s) && cmd.hasAnalyst && IsForecastState(s) ==>
              r.0 == RESCODE_TIMELINE_ANALYST_SET && r.1 == Some(Intervened(s, time, s.fcStatus, true, cmd.analyst))
    ensures !IsConvertibleToNormal(s) && !(cmd.hasAnalyst && IsForecastState(s)) ==>
              r.0 == RESCODE_TIMELINE_EXISTS && r.1.None?
    ensures r.1.Some? ==> IsForecastState(r.1.value) && r.1.value.actionTime == time
  {
    if IsConvertibleToNormal(s) then
      (RESCODE_TIMELINE_STATE_UPDATE, Some(OptionalAnalyst(StatusUpdate(s, time, ActiveNormal), cmd.hasAnalyst, cmd.analyst)))
    else if cmd.hasAnalyst && IsForecastState(s) then
      (RESCODE_TIMELINE_ANALYST_SET, Some(Intervened(s, time, s.fcStatus, true, cmd.analyst)))
    else (RESCODE_TIMELINE_EXISTS, None)
  }

  /**
   * A sync intake: confirms a provisional intake, updates the analyst options
   * of an active timeline, or creates a normal timeline from the fetched
   * mainshock.
   */
  method ExecIntakeSync(disp: TaskDispatcher, task: Task, open: OpenResult, cmd: SyncCommand,
                        fetch: Result<Mainshock, string>) returns (rescode: int)
    requires disp.Valid()
    modifies disp.store`timeline, disp`taskresExecTime, disp`taskresStage, disp`taskresLogRemark
    ensures disp.Valid()
    ensures open.TimelineExists? ==>
              var r := SyncOnExisting(open.status, disp.dispatcherTime, cmd);
              rescode == r.0 &&
              disp.store.timeline == old(disp.store.timeline) + (if r.1.Some? then [StatusEntry(task.key, r.1.value)] else [])
    ensures open.OpenFailed? ==> rescode == open.rescode && disp.store.timeline == old(disp.store.timeline)
    ensures open.TimelineNotFound? && fetch.Err? ==>
              IntakeRetried(disp, task, INTAKE_COMCAT_FAIL_REMARK, rescode) &&
              disp.store.timeline == old(disp.store.timeline)
    ensures open.TimelineNotFound? && fetch.Ok? ==>
              rescode == RESCODE_SUCCESS &&
              disp.store.timeline == old(disp.store.timeline) +
                [StatusEntry(task.key, Created(disp.dispatcherTime, task.eventId, fetch.value.time, OriginSync, ActiveNormal,
                                               cmd.hasAnalyst, cmd.analyst))]
  {
    match open {
      case OpenFailed(code) =>
        return code;
      case TimelineExists(s) =>
        var r := SyncOnExisting(s, disp.dispatcherTime, cmd);
        if r.1.Some? {
          disp.AppendTimeline(task, r.1.value);
        }
        return r.0;
      case TimelineNotFound =>
    }
    if fetch.Err? {
      rescode := IntakeRetryOrFail(disp, task, INTAKE_COMCAT_FAIL_REMARK);
      return;
    }
    var st := Created(disp.dispatcherTime, task.eventId, fetch.value.time, OriginSync, ActiveNormal, cmd.hasAnalyst, cmd.analyst);
    disp.AppendTimeline(task, st);
    rescode := RESCODE_SUCCESS;
  }

  //----- PDL intake -----

  /**
   * The two-tier admission filter: the fetched mainshock passes a region's
   * minimum magnitude, or the PDL-reported one does and the fetched one
   * passes a region's intake magnitude.
   */
  predicate Admitted(regions: seq<IntakeRegion>, ms: Mainshock, cmd: PdlCommand)
  {
    RegionForMinMag(regions, ms.lat, ms.lon, ms.mag).Some? ||
    (RegionForMinMag(regions, cmd.lat, cmd.lon, cmd.mag).Some? &&
     RegionForIntakeMag(regions, ms.lat, ms.lon, ms.mag).Some?)
  }

  /** Some region contains the point and has a minimum magnitude the magnitude meets. */
  predicate PassesMinMag(regions: seq<IntakeRegion>, lat: real, lon: real, mag: real)
  {
    exists i :: 0 <= i < |regions| && RegionContains(regions[i], lat, lon) && mag >= regions[i].minMag
  }

  /** Some region contains the point and has an intake magnitude the magnitude meets. */
  predicate PassesIntakeMag(regions: seq<IntakeRegion>, lat: real, lon: real, mag: real)
  {
    exists i :: 0 <= i < |regions| && RegionContains(regions[i], lat, lon) && mag >= regions[i].intakeMag
  }

  /** Admission in terms of the regions themselves, independent of which region the lookups return. */
  lemma AdmittedIff(regions: seq<IntakeRegion>, ms: Mainshock, cmd: PdlCommand)
    ensures Admitted(regions, ms, cmd) <==>
              PassesMinMag(regions, ms.lat, ms.lon, ms.mag) ||
              (PassesMinMag(regions, cmd.lat, cmd.lon, cmd.mag) && PassesIntakeMag(regions, ms.lat, ms.lon, ms.mag))
  {
    RegionLookupIff(regions, ms.lat, ms.lon, ms.mag);
    RegionLookupIff(regions, cmd.lat, cmd.lon, cmd.mag);
  }

  /** The region lookups find a region exactly when one qualifies. */
  lemma RegionLookupIff(regions: seq<IntakeRegion>, lat: real, lon: real, mag: real)
    ensures RegionForMinMag(regions, lat, lon, mag).Some? <==> PassesMinMag(regions, lat, lon, mag)
    ensures RegionForIntakeMag(regions, lat, lon, mag).Some? <==> PassesIntakeMag(regions, lat, lon, mag)
  {
    var r := RegionForMinMag(regions, lat, lon, mag);
    if r.Some? {
      var i :| 0 <= i < |regions| && regions[i] == r.value;
      assert RegionContains(regions[i], lat, lon) && mag >= regions[i].minMag;
    }
    var q := RegionForIntakeMag(regions, lat, lon, mag);
    if q.Some? {
      var i :| 0 <= i < |regions| && regions[i] == q.value;
      assert RegionContains(regions[i], lat, lon) && mag >= regions[i].intakeMag;
    }
  }

  /**
   * A PDL intake: an event with a timeline is dropped quietly; a ComCat
   * failure first deletes the event's other waiting PDL intakes, then retries
   * or gives up; an admitted event gets a provisional (intake) timeline.
   */
  method ExecIntakePdl(disp: TaskDispatcher, task: Task, open: OpenResult, cmd: PdlCommand,
                       fetch: Result<Mainshock, string>) returns (rescode: int)
    requires disp.Valid()
    modifies disp.store`tasks, disp.store`timeline, disp`taskresExecTime, disp`taskresStage, disp`taskresLogRemark
    ensures disp.Valid()
    ensures open.TimelineExists? ==>
              rescode == RESCODE_DELETE && disp.store.tasks == old(disp.store.tasks) &&
              disp.store.timeline == old(disp.store.timeline)
    ensures open.OpenFailed? ==>
              rescode == open.rescode && disp.store.tasks == old(disp.store.tasks) &&
              disp.store.timeline == old(disp.store.timeline)
    ensures open.TimelineNotFound? && fetch.Err? ==>
              IntakeRetried(disp, task, INTAKE_COMCAT_FAIL_REMARK, rescode) &&
              disp.store.tasks == Purged(old(disp.store.tasks), EXEC_TIME_MIN_WAITING, 0, task.eventId, [OPCODE_INTAKE_PDL]) &&
              disp.store.timeline == old(disp.store.timeline)
    ensures open.TimelineNotFound? && fetch.Ok? && !Admitted(disp.cfg.intakeRegions, fetch.value, cmd) ==>
              rescode == RESCODE_DELETE && disp.store.tasks == old(disp.store.tasks) &&
              disp.store.timeline == old(disp.store.timeline)
    ensures open.TimelineNotFound? && fetch.Ok? && Admitted(disp.cfg.intakeRegions, fetch.value, cmd) ==>
              rescode == RESCODE_SUCCESS && disp.store.tasks == old(disp.store.tasks) &&
              disp.store.timeline == old(disp.store.timeline) +
                [StatusEntry(task.key, Created(disp.dispatcherTime, task.eventId, fetch.value.time, OriginPdl, ActiveIntake,
                                               cmd.hasAnalyst, cmd.analyst))]
    ensures KeepsActive(old(disp.store.tasks), disp.store.tasks)
  {
    match open {
      case OpenFailed(code) =>
        return code;
      case TimelineExists(_) =>
        return RESCODE_DELETE;
      case TimelineNotFound =>
    }
    if fetch.Err? {
      PurgedKeepsActive(disp.store.tasks, EXEC_TIME_MIN_WAITING, 0, task.eventId, [OPCODE_INTAKE_PDL]);
      disp.DeleteAllWaitingTasks(task.eventId, [OPCODE_INTAKE_PDL]);
      rescode := IntakeRetryOrFail(disp, task, INTAKE_COMCAT_FAIL_REMARK);
      return;
    }
    var ms := fetch.value;
    var region := RegionForMinMag(disp.cfg.intakeRegions, ms.lat, ms.lon, ms.mag);
    if region.None? {
      region := RegionForMinMag(disp.cfg.intakeRegions, cmd.lat, cmd.lon, cmd.mag);
      if region.None? {
        return RESCODE_DELETE;
      }
      region := RegionForIntakeMag(disp.cfg.intakeRegions, ms.lat, ms.lon, ms.mag);
      if region.None? {
        return RESCODE_DELETE;
      }
    }
    var st := Created(disp.dispatcherTime, task.eventId, ms.time, OriginPdl, ActiveIntake, cmd.hasAnalyst, cmd.analyst);
    disp.AppendTimeline(task, st);
    rescode := RESCODE_SUCCESS;
  }
}

/**
 * The status of one event's forecast timeline, as a handler reconstructs it
 * from the most recent timeline entry and updates it before appending a new
 * entry. TimelineStatus.java is not part of this model: its status values,
 * state predicates and state-setting operations are given here with the
 * meaning the dispatcher and the handlers rely on.
 */
module TimelineStatus {
  import opened Wrappers
  import opened ForecastParams

  /** Forecast status. */
  datatype FcStatus =
    | ActiveIntake      // admitted provisionally, intake still to be confirmed
    | ActiveNormal      // generating forecasts on schedule
    | StopAnalyst       // stopped by an analyst
    | StopExpired       // schedule exhausted
    | StopForeshock     // a larger aftershock was found
    | StopWithdrawn     // failed the intake re-check
    | StopComcatFail    // ComCat failed and the retries ran out

  /** Status of the report to PDL for the latest forecast. */
  datatype PdlStatus = PdlUnknown | PdlPending | PdlBypassed | PdlSecondary | PdlSuccess | PdlFailure

  /** Who started the timeline. */
  datatype FcOrigin = OriginPdl | OriginSync | OriginAnalyst

  /** What the action that wrote a timeline entry was. */
  datatype ActCode =
    | ActTrack | ActForecast | ActAnalystIntervention | ActStatusUpdate
    | ActWithdrawn | ActForeshock | ActComcatFail | ActError

  /** Analyst options: who, why, when, parameter overrides, and an extra forecast lag (-1 for none). */
  datatype AnalystData = AnalystData(id: string, remark: string, time: int, params: Option<Params>, extraLag: int)

  datatype Status = Status(
    eventId: string,
    actcode: ActCode,
    actionTime: int,
    fcStatus: FcStatus,
    pdlStatus: PdlStatus,
    origin: FcOrigin,
    lastForecastLag: int,      // -1 before the first forecast
    lastMainshockTime: int,
    extraForecastLag: int,     // -1 if the analyst requested none
    analyst: Option<AnalystData>)

  //----- State predicates -----

  /** The timeline asks for forecasts. */
  predicate IsForecastState(s: Status)
  {
    s.fcStatus == ActiveIntake || s.fcStatus == ActiveNormal
  }

  /** The timeline asks for a (retried) report to PDL. */
  predicate IsPdlRetryState(s: Status)
  {
    s.pdlStatus == PdlPending
  }

  /** The intake of the event still has to be confirmed. */
  predicate IsIntakeState(s: Status)
  {
    s.fcStatus == ActiveIntake
  }

  /** A sync intake may confirm a provisional intake. */
  predicate IsConvertibleToNormal(s: Status)
  {
    s.fcStatus == ActiveIntake
  }

  /** An analyst may restart a timeline stopped in normal operation, but not one stopped by a ComCat failure. */
  predicate CanAnalystStart(s: Status)
  {
    s.fcStatus == StopAnalyst || s.fcStatus == StopExpired || s.fcStatus == StopForeshock ||
    s.fcStatus == StopWithdrawn
  }

  /** An analyst may stop an active timeline. */
  predicate CanAnalystStop(s: Status)
  {
    s.fcStatus == ActiveIntake || s.fcStatus == ActiveNormal
  }

  /** An analyst may change the options of a timeline that produces forecasts. */
  predicate CanAnalystUpdate(s: Status)
  {
    IsForecastState(s)
  }

  //----- State changes -----

  /** A new timeline, tracking an event from the given origin. */
  function Track(time: int, eventId: string, mainshockTime: int, origin: FcOrigin, fc: FcStatus): Status
  {
    Status(eventId, ActTrack, time, fc, PdlUnknown, origin, -1, mainshockTime, -1, None)
  }

  function AnalystIntervention(s: Status, time: int): Status
  {
    s.(actcode := ActAnalystIntervention, actionTime := time)
  }

  function StatusUpdate(s: Status, time: int, fc: FcStatus): Status
  {
    s.(actcode := ActStatusUpdate, actionTime := time, fcStatus := fc)
  }

  function Withdrawn(s: Status, time: int, mainshockTime: int): Status
  {
    s.(actcode := ActWithdrawn, actionTime := time, fcStatus := StopWithdrawn, lastMainshockTime := mainshockTime)
  }

  function Foreshock(s: Status, time: int): Status
  {
    s.(actcode := ActForeshock, actionTime := time, fcStatus := StopForeshock)
  }

  function ComcatFail(s: Status, time: int): Status
  {
    s.(actcode := ActComcatFail, actionTime := time, fcStatus := StopComcatFail)
  }

  /** A forecast was made at the given lag: it is the last one, and its report to PDL is pending. */
  function Forecast(s: Status, time: int, mainshockTime: int, lag: int): Status
  {
    s.(actcode := ActForecast, actionTime := time, lastForecastLag := lag, lastMainshockTime := mainshockTime,
       pdlStatus := PdlPending)
  }

  /** Records the analyst options, including the requested extra forecast lag. */
  function WithAnalystData(s: Status, a: AnalystData): Status
  {
    s.(analyst := Some(a), extraForecastLag := a.extraLag)
  }

  function WithFcStatus(s: Status, fc: FcStatus): Status
  {
    s.(fcStatus := fc)
  }

  function WithPdlStatus(s: Status, pdl: PdlStatus): Status
  {
    s.(pdlStatus := pdl)
  }

  /** The options carried by a command, if it carries any. */
  function OptionalAnalyst(s: Status, hasAnalyst: bool, a: AnalystData): Status
  {
    if hasAnalyst then WithAnalystData(s, a) else s
  }
}

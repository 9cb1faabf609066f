# AAFS task orchestration and local catalog, in Dafny

This project models the core of the automatic aftershock forecasting
system (AAFS) server and proves properties of that model. The pieces are:

- **The task dispatcher.**
  - It activates the first ready task from the pending-task queue.
  - A restarted task that already has a log entry is thrown away.
  - Every other task is routed by opcode to its handler.
  - The handler's result code becomes exactly one disposition: delete; stage (return the task to the queue at a new time); or write a log entry, then delete.
  - On a connection failure the dispatcher waits a back-off delay and reconnects.
- **The schedule calculators.** They choose the next forecast lag and the next PDL-report retry lag. They then submit at most one follow-up task per timeline, in priority order: PDL report, then forecast, then expire.
- **The handlers.**
  - Forecast generation (`exec_gen_forecast`).
  - Analyst intervention, sync intake and PDL intake.
  - Each maps the timeline's existence and state, the command's flags and the success of the upstream services to a result code and at most one timeline entry.
- **Supporting data logic.**
  - The opcode and result-code tables and their names.
  - The action configuration: schedule lookups and the cached parameter set.
  - The forecast parameters: analyst precedence, the dependency cascade, and the conditional-field serialiser with its polymorphic wrapper.
  - The `OpAliasRevive` payload serialiser.
  - The rule `cmd_pdl_intake` uses to admit and schedule PDL intake.
  - The local earthquake catalog (below).
- **The local catalog.**
  - Entries are read from a file, one line per entry.
  - An entry sharing an id with an earlier one is dropped.
  - Kept entries are binned by latitude and longitude, and each bin is sorted by time.
  - The catalog keeps running statistics and a histogram of bin sizes.
  - It answers id lookups and windowed queries; a query uses a lower-bound binary search in each bin.

Modules, one per file:

- `Wrappers`: `Option` and `Result`.
- `ServerComponent`: opcodes, result codes, execution times and their names.
- `EqkRupture`: ruptures and coordinate normalisation.
- `ActionConfig`
- `TimelineStatus`
- `Marshal`: token writer and reader.
- `TaskStore`: the queue, the log, the timeline and the snapshots.
- `Dispatcher`: the `TaskDispatcher` class.
- `Handlers`
- `ServerCmd`
- `ForecastParams`
- `AliasRevive`
- `CatalogEntry`
- `CatalogBins`: the specification functions of the catalog.
- `LocalCatalog`: the `ComcatLocalCatalog` class.

Objects that the source updates in place are classes, for example the dispatcher, the store and the catalog. Their methods are specified by functions on values, and the properties are proved about those functions.

Where the written description of the system and the code differ, the model follows the code:

- **Routing.** `dispatch_task` routes only opcodes 1–4, so a forecast-expire or PDL-report task reaches `exec_unknown`. That handler deletes the task and throws.
- **Event filter.** `fetchEventList`'s event filter holds only the excluded id. A comment mentions duplicates, but nothing else is ever added.

## Model

| member | source | states |
|---|---|---|
| ServerComponent.OpcodeName | aftershockStatistics/aafs/ServerComponent.java:34-48 | A name ends in `)` exactly when the value is not an opcode. A value that is not an opcode is named `OPCODE_INVALID(x)`. |
| ServerComponent.OpcodeNameInjective | aftershockStatistics/aafs/ServerComponent.java:34-48 | Different values get different names, invalid ones included. |
| ServerComponent.RescodeName | aftershockStatistics/aafs/ServerComponent.java:93-118 | A name ends in `)` exactly when the value is not a known result code. Unknown values are named `RESCODE_INVALID(x)`. |
| ServerComponent.KnownRescodeNameDecodes | aftershockStatistics/aafs/ServerComponent.java:93-118 | The name of a known result code decodes back to that code. |
| ServerComponent.RescodeNameInjective | aftershockStatistics/aafs/ServerComponent.java:93-118 | Different values get different result-code names. |
| ServerComponent.NatToStringReadsBack | aftershockStatistics/aafs/ServerComponent.java:47 | The decimal text used inside an invalid name is non-empty, all digits, and reads back to the number. |
| ServerComponent.IntToStringInjective | aftershockStatistics/aafs/ServerComponent.java:47 | Different integers have different decimal texts, signs included. |
| ServerComponent.InvalidNameInjective | aftershockStatistics/aafs/ServerComponent.java:117 | Two invalid names with the same prefix are equal only for equal values. |
| ServerComponent.SpecialCodesNotLogged | aftershockStatistics/aafs/ServerComponent.java:67-89 | DELETE and STAGE differ from each other and lie outside the range of logged result codes. |
| ServerComponent.ExecTimesOrdered | aftershockStatistics/aafs/ServerComponent.java:55-60 | ACTIVE < MIN_WAITING < MIN_PROMPT < MAX_PROMPT < SHUTDOWN < FAR_FUTURE. |
| ServerComponent.OpcodesInRange | aftershockStatistics/aafs/ServerComponent.java:19-30 | Every opcode lies in `[OPCODE_MIN, OPCODE_MAX]`. |
| EqkRupture.NormalLon | aftershockStatistics/aafs/ForecastParameters.java:93-98 | A longitude in [-180, 180] is unchanged. One above 180 loses 360. One below -180 becomes 180. Inputs up to 540 land in [-180, 180]. |
| EqkRupture.ClampLat | aftershockStatistics/aafs/ForecastParameters.java:100-105 | The latitude is clamped to [-90, 90]; in-range values are unchanged. |
| EqkRupture.NormalisationIdempotent | aftershockStatistics/ComcatLocalCatalogEntry.java:151-164 | Normalising an already normalised coordinate changes nothing. |
| ActionConfig.NextAtLeastFrom | aftershockStatistics/aafs/ActionConfig.java:107-113 | Gives -1 exactly when no element from the start index is ≥ the minimum. Otherwise gives the first such element. |
| ActionConfig.NextAtLeast | aftershockStatistics/aafs/ActionConfig.java:107-113 | Gives -1 exactly when no schedule element is ≥ the minimum. Otherwise gives an element ≥ the minimum. |
| ActionConfig.NextAtLeastIsLeast | aftershockStatistics/aafs/ActionConfig.java:107-113 | On a sorted schedule, the element found is ≤ every element that is ≥ the minimum. |
| ActionConfig.NextAtLeastBounds | aftershockStatistics/aafs/ActionConfig.java:107-113 | A value found is a whole number of seconds between 1 s and 10^9 s. |
| ActionConfig.NextForecastLag | aftershockStatistics/aafs/ActionConfig.java:107-113 | `get_next_forecast_time`: the least forecast time ≥ the minimum, or -1 exactly when there is none. It is a whole number of seconds in [1 s, 10^9 s]. |
| ActionConfig.NextComcatRetryLag | aftershockStatistics/aafs/ActionConfig.java:133-139 | `get_next_comcat_retry_time`: the same contract over the ComCat retry schedule. |
| ActionConfig.NextComcatIntakeLag | aftershockStatistics/aafs/ExIntakeSync.java:132-139 | The least intake retry lag ≥ the minimum, or -1 exactly when there is none. |
| ActionConfig.NextPdlReportRetryLag | aftershockStatistics/aafs/TaskDispatcher.java:1017 | The least PDL-report retry lag ≥ the minimum, or -1 exactly when there is none. |
| ActionConfig.FloorUnitLag | aftershockStatistics/aafs/TaskDispatcher.java:964 | The floored lag is a whole number of lag units above the minimum. When the lag is at least one unit above the minimum, the floored lag is ≤ the lag and less than one unit below it. |
| ActionConfig.SchedulesInUnits | aftershockStatistics/aafs/ActionConfig.java:107-113 | Every schedule element is a whole number of lag units. |
| ActionConfig.LagStageRoundTrip | aftershockStatistics/aafs/TaskDispatcher.java:1097 | Converting a whole-unit lag to a stage number and back gives the lag. |
| ActionConfig.StageLagRoundTrip | aftershockStatistics/aafs/TaskDispatcher.java:1097 | Converting a stage number to a lag and back gives the stage. |
| ActionConfig.RegionForMinMag | aftershockStatistics/aafs/ExIntakePDL.java:106-119 | A region found contains the point and passes its min-mag test. None means no region does both. |
| ActionConfig.RegionForIntakeMag | aftershockStatistics/aafs/ExIntakePDL.java:120-132 | The same, with the intake-mag threshold. |
| ActionConfig.CountAtLeastDrops | aftershockStatistics/aafs/ActionConfig.java:182-190 | Raising the minimum past a found time strictly lowers the number of schedule elements ≥ the minimum. This is the termination measure of the listing loop. |
| ActionConfig.ListSchedule | aftershockStatistics/aafs/ActionConfig.java:182-203 | The listing starts with the first lookup from 0. Each next time is the lookup from the previous time plus the gap, and is at least that far on. The lookup after the last time gives -1. |
| ActionConfig.ListingSpaced | aftershockStatistics/aafs/ActionConfig.java:182-203 | Every listed time is in the schedule, and listed times are strictly increasing, at least the gap apart. |
| ActionConfig.ConfigCache.constructor | aftershockStatistics/aafs/ActionConfig.java:39-45 | The cache starts empty. |
| ActionConfig.ConfigCache.GetParamSet | aftershockStatistics/aafs/ActionConfig.java:39-70 | The first call loads and caches the parameter set on disk. Later calls return the cached set. |
| ActionConfig.ConfigCache.UnloadData | aftershockStatistics/aafs/ActionConfig.java:77-80 | The cache is empty afterwards. |
| ActionConfig.Config.constructor | aftershockStatistics/aafs/ActionConfig.java:87-89 | A new configuration holds the cached set, loading it first if the cache is empty. |
| ActionConfig.UnloadAndReconstruct | aftershockStatistics/aafs/ActionConfig.java:77-89 | After an unload, an existing configuration keeps its old set, and the next one constructed reloads from disk. |
| TaskStore.StatusEntry | aftershockStatistics/aafs/TaskDispatcher.java:879-899 | The timeline entry written for a status carries that status, the task's key and the status' event id and action time. |
| TaskStore.FirstReadyUnique | aftershockStatistics/aafs/TaskDispatcher.java:397 | At most one task comes first among the ready ones, so activation is deterministic. |
| TaskStore.Purged | aftershockStatistics/aafs/TaskDispatcher.java:759-779 | A task survives a purge exactly when it is not in the range with one of the opcodes. Survivors are unchanged. |
| TaskStore.AddedKeepsActive | aftershockStatistics/aafs/TaskDispatcher.java:1082-1146 | Adding one task under a new key keeps every active task unchanged. |
| TaskStore.PurgedKeepsActive | aftershockStatistics/aafs/TaskDispatcher.java:759-779 | A purge of waiting tasks never removes the active, running task. |
| TaskStore.Recent | aftershockStatistics/aafs/TaskDispatcher.java:1347 | The event's entry with the latest action time, or None exactly when the event has no entry. |
| TaskStore.Store.constructor | aftershockStatistics/aafs/TaskDispatcher.java:335-345 | An empty queue, log, timeline and snapshot set. |
| TaskStore.Store.SubmitTask | aftershockStatistics/aafs/TaskDispatcher.java:274-288 | The queue gains exactly one waiting task, under a new key, scheduled at its own time. |
| TaskStore.Store.DeleteTask | aftershockStatistics/aafs/TaskDispatcher.java:651 | Exactly that key leaves the queue. |
| TaskStore.Store.StageTask | aftershockStatistics/aafs/TaskDispatcher.java:667 | The task waits again at the given time with the given stage. Nothing else changes. |
| TaskStore.Store.ActivateFirstReady | aftershockStatistics/aafs/TaskDispatcher.java:397 | Gives None exactly when no task is ready by the cutoff. Otherwise activates the first ready task (earliest time, then smallest key), marking it restarted if it was already active. |
| TaskStore.Store.TaskRange | aftershockStatistics/aafs/TaskDispatcher.java:763 | Gives the keys of exactly the tasks of the event in the time range, each once. |
| TaskStore.Store.SubmitLogEntry | aftershockStatistics/aafs/TaskDispatcher.java:647 | The log gains exactly one entry with the task's key, the time, the code and the remark. |
| TaskStore.Store.SubmitTimelineEntry | aftershockStatistics/aafs/TaskDispatcher.java:883 | The timeline gains exactly that entry. |
| TaskStore.Store.SubmitCatalogSnapshot | aftershockStatistics/aafs/TaskDispatcher.java:1550 | The snapshot is filed under its key. |
| TaskStore.Store.DeleteCatalogSnapshot | aftershockStatistics/aafs/TaskDispatcher.java:1335-1337 | The key's snapshot is removed. |
| Dispatcher.RestartDelay | aftershockStatistics/aafs/TaskDispatcher.java:461-462 | The delay is `max(restart_delay_min, restart_time + restart_delay_max − now)`: at least the minimum, and reaching at least `restart_time + restart_delay_max`. |
| Dispatcher.NextForecastLagFor | aftershockStatistics/aafs/TaskDispatcher.java:927-989 | -1 exactly when the state is not a forecast state, or when there is no extra lag and no scheduled lag ≥ the minimum. A result is positive, above the last lag and in whole units. It is ≤ every scheduled lag ≥ the minimum and ≤ the extra lag floored to whole units past the last lag. It is either such a scheduled lag or that floored extra lag, so it is the smaller of the two. |
| Dispatcher.NextPdlLagFor | aftershockStatistics/aafs/TaskDispatcher.java:1006-1059 | -1 outside a PDL-retry state. 0 on the first attempt. On a retry, the least retry lag above the last one. Every result keeps `max(base+lag, now)` below the ceiling `min(mainshock+next_fc_lag−min_gap, mainshock+last_fc_lag+max_delay)`. A first attempt gives -1 only when `max(base, now)` has reached that ceiling. |
| Dispatcher.FollowUp | aftershockStatistics/aafs/TaskDispatcher.java:1082-1146 | Chooses at most one follow-up, in priority PDL report > forecast > expire. None exactly when no lag is set and the state asks for neither a forecast nor a PDL report. A forecast task runs at `mainshock + lag + clock_skew + origin_skew` with stage 0. |
| Dispatcher.ForecastFollowUpTiming | aftershockStatistics/aafs/TaskDispatcher.java:1068-1146 | In a forecast state with a next lag, the follow-up is a forecast task, scheduled no earlier than mainshock + lag + clock skew, whose next lag exceeds its last one. |
| Dispatcher.CorruptMarkerIsRecent | aftershockStatistics/aafs/TaskDispatcher.java:837-844 | The ERROR entry appended for a corrupt timeline becomes the event's most recent entry. |
| Dispatcher.ComcatRetryAdvances | aftershockStatistics/aafs/TaskDispatcher.java:1427-1434 | A ComCat retry lag is beyond the stage's lag. Retrying again gives a later lag or gives up, so retries cannot repeat forever. |
| Dispatcher.TaskDispatcher.constructor | aftershockStatistics/aafs/TaskDispatcher.java:67-140 | A dispatcher starts in STATE_INITIAL over the given store and configuration. |
| Dispatcher.TaskDispatcher.Dispose | aftershockStatistics/aafs/TaskDispatcher.java:641-670 | DELETE deletes only, with no log. STAGE re-stages the task at `taskres_exec_time` and `taskres_stage`, with no log. Any other code writes one log entry with that code, then deletes. |
| Dispatcher.TaskDispatcher.DeleteInRange | aftershockStatistics/aafs/TaskDispatcher.java:759-779 | The queue becomes the purge of the range and opcodes. |
| Dispatcher.TaskDispatcher.DeleteAllWaitingTasks | aftershockStatistics/aafs/TaskDispatcher.java:759-779 | Deletes exactly the event's waiting tasks with the given opcodes. Active tasks stay. |
| Dispatcher.TaskDispatcher.DeleteDelayedTimelineTasks | aftershockStatistics/aafs/TaskDispatcher.java:814-817 | Deletes exactly the event's waiting forecast, PDL-report and expire tasks. |
| Dispatcher.TaskDispatcher.AppendTimeline | aftershockStatistics/aafs/TaskDispatcher.java:879-899 | The timeline gains exactly the entry recording the status. |
| Dispatcher.TaskDispatcher.DisplayTimelineCorrupt | aftershockStatistics/aafs/TaskDispatcher.java:825-847 | Nothing is written if the latest entry is already ERROR. Otherwise one ERROR entry is appended at `max(dispatcher_time, old+1)`, strictly later than the old entry. |
| Dispatcher.TaskDispatcher.DisplayTimelineComcatFail | aftershockStatistics/aafs/TaskDispatcher.java:855-871 | Appends exactly one entry recording the ComCat-failure status. |
| Dispatcher.TaskDispatcher.SetTaskresStage | aftershockStatistics/aafs/TaskDispatcher.java:717-722 | Records the time and stage to which the task is restaged. |
| Dispatcher.TaskDispatcher.ComcatRetryOrFail | aftershockStatistics/aafs/TaskDispatcher.java:1427-1442 | With a retry lag left, the result is STAGE at `sched_time + retry` with the retry's stage number, and the timeline is untouched. Otherwise the result is TIMELINE_COMCAT_FAIL with one failure entry appended. The outcome is named `ComcatRetried`, so callers can state it for their own failure paths. |
| Dispatcher.TaskDispatcher.NextAutoTimeline | aftershockStatistics/aafs/TaskDispatcher.java:1082-1146 | Submits exactly the chosen follow-up, as one new waiting task, and returns true exactly when it submitted. |
| Dispatcher.TaskDispatcher.NextAutoTimelineFor | aftershockStatistics/aafs/TaskDispatcher.java:1068-1079 | The same, with the lags computed from the status and the dispatcher time. |
| Dispatcher.TaskDispatcher.ExecUnknown | aftershockStatistics/aafs/TaskDispatcher.java:1183-1194 | Deletes the task, then throws. |
| Dispatcher.TaskDispatcher.ExecConMessage | aftershockStatistics/aafs/TaskDispatcher.java:1233-1281 | A bad payload or stage gives TASK_CORRUPT. A fresh stage 1 throws before logging. Otherwise one SUCCESS log entry is written, and the handler throws exactly for a fresh stage 2, else returns DELETE. |
| Dispatcher.TaskDispatcher.RestartCleanup | aftershockStatistics/aafs/TaskDispatcher.java:1317-1341 | Purges only the event's waiting forecast, PDL and expire tasks, plus the key's snapshot. |
| Dispatcher.TaskDispatcher.ReportToPdl | aftershockStatistics/aafs/TaskDispatcher.java:1579-1632 | The result is exactly `PdlDecision` of the status: SECONDARY with no next attempt on a secondary server, BYPASSED when no first attempt is due, SUCCESS with the first lag after a successful send, and otherwise the retry lag, or FAILURE when there is none. A status that asks for no report is returned unchanged with the first lag. |
| Dispatcher.PdlDecision | aftershockStatistics/aafs/TaskDispatcher.java:1579-1632 | Only the PDL status changes. For a status that asks for a report, a next attempt is scheduled exactly when the outcome is SUCCESS or PENDING, and a PENDING retry lies strictly after the first attempt's lag. |
| Dispatcher.TaskDispatcher.PublishForecast | aftershockStatistics/aafs/TaskDispatcher.java:1565-1638 | The new status is the first half of `Published`: the forecast is recorded at the lag, it expires exactly when no next forecast lag remains, and its PDL status is the one `PdlDecision` picks. The task queue is the old one with exactly the follow-up task of `Published` chained under the next key, or is unchanged when there is none. |
| Dispatcher.TaskDispatcher.CalcAndPublish | aftershockStatistics/aafs/TaskDispatcher.java:1517-1632 | A catalog failure leaves tasks and snapshots alone and stages or fails as `ComcatRetried` says. A larger aftershock gives TIMELINE_FORESHOCK, appends one foreshock entry and adds no task. Otherwise the result is SUCCESS, the timeline is unchanged, the snapshot is filed when the catalog is available, and the queue gains exactly the follow-up task of `Published`. |
| Dispatcher.TaskDispatcher.ForecastStep | aftershockStatistics/aafs/TaskDispatcher.java:1411-1515 | A mainshock failure leaves tasks and snapshots alone and stages or fails as `ComcatRetried` says. A step that is not yet due restages at the lag time with its stage. A withdrawn event appends a Withdrawn entry and gives TIMELINE_WITHDRAW. Otherwise the outcome is `CalcAndPublish`'s, including the exact follow-up task on SUCCESS. |
| Dispatcher.TaskDispatcher.OpenForecastTimeline | aftershockStatistics/aafs/TaskDispatcher.java:1343-1409 | No entry gives TIMELINE_NOT_FOUND with nothing changed, and an unreadable entry gives TIMELINE_CORRUPT with the queue unchanged. A negative expected lag gives TIMELINE_NOT_ACTIVE and a lag that does not match the task gives TIMELINE_TASK_MISMATCH. In both cases the timeline is unchanged and the queue gets exactly the `AutoFollowUp` task for the recorded status. Otherwise the timeline is open in a forecast state with the expected lag, and nothing changes. |
| Dispatcher.TaskDispatcher.ExecGenForecast | aftershockStatistics/aafs/TaskDispatcher.java:1288-1644 | A bad payload gives TASK_CORRUPT. A restarted task whose key has a timeline entry gives SUCCESS with no effect. Any other restarted task first purges the event's delayed timeline tasks and drops its own snapshot (`Cleaned`, `CleanedSnapshots`). Then no entry gives NOT_FOUND and an unreadable one gives CORRUPT. A negative lag gives NOT_ACTIVE and a mismatched lag gives TASK_MISMATCH; both re-chain the `AutoFollowUp` task. A current lag gives exactly `ForecastStep`'s outcome from the cleaned state. The running task is kept. |
| Dispatcher.TaskDispatcher.RunHandler | aftershockStatistics/aafs/TaskDispatcher.java:625-637 | Opcodes outside 1–4 reach exec_unknown: the task is deleted and the handler throws. NO_OP gives DELETE. SHUTDOWN gives DELETE and the SHUTDOWN state. At most one log and one timeline entry are added. |
| Dispatcher.TaskDispatcher.DispatchTask | aftershockStatistics/aafs/TaskDispatcher.java:597-671 | A restarted task with a log entry is deleted and nothing else happens. Otherwise the result code's disposition is applied, as in Dispose. Log and timeline only grow, by at most one entry each. |
| Dispatcher.TaskDispatcher.PurgeShutdownTasks | aftershockStatistics/aafs/TaskDispatcher.java:363-376 | No shutdown task is left in the queue. |
| Dispatcher.TaskDispatcher.RunSession | aftershockStatistics/aafs/TaskDispatcher.java:378-430 | The session ends without failure exactly in SHUTDOWN. A failure leaves POLLING or PROCESSING. The log and timeline only grow. |
| Dispatcher.TaskDispatcher.WaitToRestart | aftershockStatistics/aafs/TaskDispatcher.java:461-477 | The delay is at least the minimum and reaches the restart time plus the maximum. The restart time is reset and the state becomes RECONNECTING. |
| Dispatcher.TaskDispatcher.Run | aftershockStatistics/aafs/TaskDispatcher.java:335-482 | Every restart delay is ≥ `restart_delay_min`. The loop stops without retrying in SHUTDOWN, or in FIRST_CONNECT when the first connection fails. The log and timeline only grow. |
| Handlers.IntakeRetryOrFail | aftershockStatistics/aafs/ExAnalystIntervene.java:175-197 | With an intake lag left, the result is STAGE at `sched_time + lag` with stage `lag_to_int(lag)`. Otherwise the result is INTAKE_COMCAT_FAIL and the log remark is the caller's: the analyst-intervention remark here, the event-intake remark for the two intake handlers. |
| Handlers.Intervened | aftershockStatistics/aafs/ExAnalystIntervene.java:56-142 | An analyst-intervention status with the given forecast status. Analyst data is set only when supplied; every other field is kept. |
| Handlers.Created | aftershockStatistics/aafs/ExAnalystIntervene.java:203-215 | A new tracking status with the given origin and forecast status, no forecast yet, and analyst data exactly when supplied. |
| Handlers.AnalystOnExisting | aftershockStatistics/aafs/ExAnalystIntervene.java:56-148 | START when allowed gives ACTIVE_NORMAL and SUCCESS. Otherwise STOP when allowed gives STOP_ANALYST and SUCCESS. Otherwise an allowed update gives ANALYST_SET with the status kept. A status is written exactly for SUCCESS or ANALYST_SET. |
| Handlers.ExecAnalystIntervene | aftershockStatistics/aafs/ExAnalystIntervene.java:41-235 | On an existing timeline, the decision above, with at most that one entry. A failed open passes its code through. No timeline and no create request gives ANALYST_NONE with nothing written. An upstream failure retries or fails. A created timeline has origin ANALYST. |
| Handlers.SyncOnExisting | aftershockStatistics/aafs/ExIntakeSync.java:56-107 | Convertible to normal gives ACTIVE_NORMAL and TIMELINE_STATE_UPDATE. Otherwise analyst data in a forecast state gives ANALYST_SET with the status kept. Otherwise TIMELINE_EXISTS, with nothing written. |
| Handlers.ExecIntakeSync | aftershockStatistics/aafs/ExIntakeSync.java:41-182 | On an existing timeline, the decision above. Other open codes pass through. An upstream failure retries or fails. A new timeline is ACTIVE_NORMAL with origin SYNC, with analyst data copied exactly when supplied. |
| Handlers.AdmittedIff | aftershockStatistics/aafs/ExIntakePDL.java:106-132 | Admitted exactly when the fetched parameters pass min-mag, or the PDL parameters pass min-mag and the fetched ones pass intake-mag. |
| Handlers.RegionLookupIff | aftershockStatistics/aafs/ExIntakePDL.java:106-132 | A region lookup succeeds exactly when some region passes the test. |
| Handlers.ExecIntakePdl | aftershockStatistics/aafs/ExIntakePDL.java:41-164 | An existing timeline gives DELETE with nothing written. Other open codes pass through. An upstream failure first deletes the event's other waiting PDL-intake tasks, then retries or fails. A non-admitted event gives DELETE. An admitted one creates an ACTIVE_INTAKE timeline with origin PDL, one entry, and SUCCESS. |
| ServerCmd.PdlIntakeTask | aftershockStatistics/aafs/ServerCmd.java:107-196 | A payload missing the id, location or time is dropped. A min-mag pass is scheduled now. An intake-mag pass is scheduled at `mainshock + first forecast lag + clock_skew` if that is not in the past. A task posted has opcode INTAKE_PDL, stage 0 and submit time now. |
| ServerCmd.CmdPdlIntake | aftershockStatistics/aafs/ServerCmd.java:107-196 | Posts exactly that task, or nothing. |
| ForecastParams.ForecastParameters.constructor | aftershockStatistics/aafs/ForecastParameters.java:439 | Every field holds its default (`max_depth = 700`, every pstat OMITTED). |
| ForecastParams.ForecastParameters.SetEqkRupture | aftershockStatistics/aafs/ForecastParameters.java:85-108 | The mainshock takes the rupture's time, magnitude and depth, with the latitude clamped and the longitude normalised. |
| ForecastParams.ForecastParameters.FetchMainshockParams | aftershockStatistics/aafs/ForecastParameters.java:131-165 | An ANALYST prior is copied verbatim. Otherwise it succeeds exactly when the upstream finds the event, and then sets AUTO with normalised coordinates. |
| ForecastParams.ForecastParameters.FetchGenericParams | aftershockStatistics/aafs/ForecastParameters.java:187-219 | An ANALYST prior is copied. An OMITTED mainshock gives an OMITTED regime with no parameters. Otherwise the result is AUTO, from the lookup. |
| ForecastParams.ForecastParameters.FetchMagCompParams | aftershockStatistics/aafs/ForecastParameters.java:241-273 | The same cascade for the magnitude-of-completeness block. |
| ForecastParams.ForecastParameters.FetchSeqSpecParams | aftershockStatistics/aafs/ForecastParameters.java:289-315 | An ANALYST prior is copied. An OMITTED generic block gives OMITTED. Otherwise the result is AUTO, derived from the generic parameters. |
| ForecastParams.ForecastParameters.FetchAftershockSearchRegion | aftershockStatistics/aafs/ForecastParameters.java:349-432 | An ANALYST prior is copied with `max_days` recomputed. An OMITTED mainshock gives OMITTED. Otherwise it succeeds exactly when the region lookup does. |
| ForecastParams.ForecastParameters.FetchAll | aftershockStatistics/aafs/ForecastParameters.java:443-452 | On success every block the prior marks ANALYST is the prior's block (the search block with `max_days` recomputed), and every other block is the AUTO one: the mainshock ComCat returns, the generic and magnitude-of-completeness regimes at its hypocentre, the sequence-specific values of the generic block, and the search region for it. The mainshock is then present, and with no prior every block is AUTO. A successful fetch yields well-formed parameters. Failure comes from the upstream. |
| ForecastParams.ForecastParameters.DoMarshal | aftershockStatistics/aafs/ForecastParameters.java:524-571 | Writes exactly the encoding: the version, then each block's pstat followed by its fields only when the pstat is not OMITTED. |
| ForecastParams.ForecastParameters.UmarshalHeader | aftershockStatistics/aafs/ForecastParameters.java:575-584 | Reads back the header that was written. A wrong version is an error. |
| ForecastParams.ForecastParameters.DoUmarshal | aftershockStatistics/aafs/ForecastParameters.java:575-645 | Reading an encoding of well-formed parameters restores exactly those parameters and stops right after it. A wrong version is an error. |
| ForecastParams.ForecastParameters.Marshal | aftershockStatistics/aafs/ForecastParameters.java:649-654 | The encoding inside a named map. |
| ForecastParams.ForecastParameters.Unmarshal | aftershockStatistics/aafs/ForecastParameters.java:658-663 | Reading back a named map restores the parameters. |
| ForecastParams.MarshalMainshock | aftershockStatistics/aafs/ForecastParameters.java:535-542 | Writes the mainshock block's tokens. |
| ForecastParams.MarshalRegime | aftershockStatistics/aafs/ForecastParameters.java:544-554 | Writes a regime block's tokens. |
| ForecastParams.MarshalSeqSpec | aftershockStatistics/aafs/ForecastParameters.java:556-559 | Writes the sequence-specific block's tokens. |
| ForecastParams.MarshalSearch | aftershockStatistics/aafs/ForecastParameters.java:561-568 | Writes the search block's tokens. |
| ForecastParams.UmarshalMainshock | aftershockStatistics/aafs/ForecastParameters.java:586-599 | Reads a well-formed mainshock block back exactly, defaults included. |
| ForecastParams.UmarshalRegime | aftershockStatistics/aafs/ForecastParameters.java:601-617 | Reads a well-formed regime block back exactly. |
| ForecastParams.UmarshalSeqSpec | aftershockStatistics/aafs/ForecastParameters.java:619-624 | Reads a well-formed sequence-specific block back exactly. |
| ForecastParams.UmarshalSearch | aftershockStatistics/aafs/ForecastParameters.java:626-642 | Reads a well-formed search block back exactly. A present block with a null region is an error. |
| ForecastParams.EncodingShape | aftershockStatistics/aafs/ForecastParameters.java:524-571 | The encoding starts with the version. An OMITTED block is its pstat alone; a present block carries its fields. |
| ForecastParams.MarshalPoly | aftershockStatistics/aafs/ForecastParameters.java:667-681 | A named map holding the type code (NULL or FCAST_PARAM) and, for an object, its encoding. |
| ForecastParams.UnmarshalPoly | aftershockStatistics/aafs/ForecastParameters.java:685-712 | NULL gives null, and FCAST_PARAM gives a fresh object equal to what was written. Any other type is an error. |
| ForecastParams.UmarshalByType | aftershockStatistics/aafs/ForecastParameters.java:694-707 | The type-code switch: NULL reads nothing, FCAST_PARAM reads an object, anything else is an error. |
| ForecastParams.PolyEncodingParts | aftershockStatistics/aafs/ForecastParameters.java:667-681 | The polymorphic encoding is the map start, the type code, then the object or the map end. |
| ForecastParams.FetchWriteRead | aftershockStatistics/aafs/ForecastParameters.java:807-824 | Fetched parameters written and read back are equal to the original. |
| AliasRevive.Encoding | aftershockStatistics/aafs/OpAliasRevive.java:58-73 | The payload is the version 36001, then `family_time`. |
| AliasRevive.OpAliasRevive.constructor | aftershockStatistics/aafs/OpAliasRevive.java:34 | `family_time` starts at 0. |
| AliasRevive.OpAliasRevive.Setup | aftershockStatistics/aafs/OpAliasRevive.java:39-42 | Sets `family_time` to the argument. |
| AliasRevive.OpAliasRevive.DoMarshal | aftershockStatistics/aafs/OpAliasRevive.java:58-73 | Writes exactly the encoding. |
| AliasRevive.OpAliasRevive.DoUmarshal | aftershockStatistics/aafs/OpAliasRevive.java:78-93 | Reading an encoding restores `family_time`. Any version other than 36001 is an error. |
| AliasRevive.OpAliasRevive.Marshal | aftershockStatistics/aafs/OpAliasRevive.java:98-103 | The encoding inside a named map. |
| AliasRevive.OpAliasRevive.Unmarshal | aftershockStatistics/aafs/OpAliasRevive.java:108-113 | A named map is read back; a missing map start is an error. |
| AliasRevive.OpAliasRevive.UnmarshalTask | aftershockStatistics/aafs/OpAliasRevive.java:118-125 | Task details holding an encoding restore `family_time`. Every failure is reported as the one pending-task-payload error. |
| AliasRevive.RoundTrip | aftershockStatistics/aafs/OpAliasRevive.java:98-113 | Unmarshalling a marshalled payload gives back its `family_time`. |
| CatalogEntry.FromRupture | aftershockStatistics/ComcatLocalCatalogEntry.java:105-172 | Succeeds exactly when the id, network, code and id list are well formed and the depth is at most 700. A result's ids are the event id followed by the other listed ids, so its first id is the event id and it appears once. It has the rupture's time, magnitude, network and code. Its place is the rupture's, or "Unknown" when that is empty. Its latitude is clamped to [-90, 90], its longitude is normalised, and a negative depth becomes 0. |
| CatalogEntry.ToRupture | aftershockStatistics/ComcatLocalCatalogEntry.java:204-226 | The event id is the first id. With `wrapLon` set, a negative longitude has 360 added and any other is kept, so the result lies in [0, 360). Extended info carries the ids and place exactly when requested. |
| CatalogEntry.IdsToList | aftershockStatistics/ComcatLocalCatalogEntry.java:46-48 | The list starts with the event id, does not list it again, and holds exactly the event id and the listed ids. |
| CatalogEntry.IdsToListKeeps | aftershockStatistics/ComcatLocalCatalogEntry.java:128 | A list that already starts with the event id, and lists it once, is returned unchanged. |
| CatalogEntry.IdsToListValid | aftershockStatistics/ComcatLocalCatalogEntry.java:128-137 | With a valid event id, every id of the built list is valid exactly when every listed id is. |
| CatalogEntry.RuptureRoundTrip | aftershockStatistics/ComcatLocalCatalogEntry.java:105-226 | A well-formed entry (first id listed once) made into a rupture and back is unchanged. |
| CatalogEntry.IdListText | aftershockStatistics/ComcatLocalCatalogEntry.java:182-184 | The id list text starts and ends with a comma. |
| CatalogEntry.IdListTextHasEach | aftershockStatistics/ComcatLocalCatalogEntry.java:182-184 | Every id appears in the text between commas. |
| CatalogEntry.LineOf | aftershockStatistics/ComcatLocalCatalogEntry.java:289-311 | A line is 9 tokens plus one per id. |
| CatalogEntry.LineAtIff | aftershockStatistics/ComcatLocalCatalogEntry.java:289-343 | A line appears at a position exactly when each field's token does. |
| CatalogEntry.IdMap | aftershockStatistics/ComcatLocalCatalogEntry.java:373-383 | Maps exactly the entry's ids to the entry. |
| CatalogEntry.AllValidIds | aftershockStatistics/ComcatLocalCatalogEntry.java:133-137 | True exactly when every id in the list is well formed. |
| CatalogEntry.ComcatLocalCatalogEntry.constructor | aftershockStatistics/ComcatLocalCatalogEntry.java:236 | A new entry holds the default fields. |
| CatalogEntry.ComcatLocalCatalogEntry.SetDefaultRupParams | aftershockStatistics/ComcatLocalCatalogEntry.java:85-96 | Resets every field to its default. |
| CatalogEntry.ComcatLocalCatalogEntry.SetEqkRupture | aftershockStatistics/ComcatLocalCatalogEntry.java:105-172 | Succeeds exactly when FromRupture does, with the same error message otherwise. On success it holds FromRupture's value, with a fresh id array. |
| CatalogEntry.ComcatLocalCatalogEntry.SetHypocentre | aftershockStatistics/ComcatLocalCatalogEntry.java:151-169 | Latitude clamped and longitude normalised. A negative depth becomes 0. A depth above 700 is an error. |
| CatalogEntry.ComcatLocalCatalogEntry.CopyFrom | aftershockStatistics/ComcatLocalCatalogEntry.java:243-254 | Copies every field, with a fresh id array that has the same contents. |
| CatalogEntry.ComcatLocalCatalogEntry.FormatLine | aftershockStatistics/ComcatLocalCatalogEntry.java:289-311 | Writes the entry's line: network, code, time, magnitude, latitude, longitude, depth, id count, ids and place. |
| CatalogEntry.ComcatLocalCatalogEntry.ParseLine | aftershockStatistics/ComcatLocalCatalogEntry.java:319-343 | A parsed entry's line is exactly what was consumed, with at least one id. Any formatted line with ids parses back to its entry. |
| CatalogEntry.ComcatLocalCatalogEntry.ReadParts | aftershockStatistics/ComcatLocalCatalogEntry.java:319-343 | Reads the fields in line order and needs at least one id. A formatted line gives back its entry. |
| CatalogEntry.ComcatLocalCatalogEntry.ParseHead | aftershockStatistics/ComcatLocalCatalogEntry.java:321-327 | Reads the seven leading fields. |
| CatalogEntry.ComcatLocalCatalogEntry.ParseTail | aftershockStatistics/ComcatLocalCatalogEntry.java:328-340 | Reads the id count (at least 1), exactly that many ids, then the place. |
| CatalogEntry.ComcatLocalCatalogEntry.ParseIds | aftershockStatistics/ComcatLocalCatalogEntry.java:332-335 | Reads exactly the given number of ids. |
| CatalogEntry.ComcatLocalCatalogEntry.ParseLineString | aftershockStatistics/ComcatLocalCatalogEntry.java:351-361 | A whole string is exactly one line: trailing tokens are an error, and a formatted line parses back to its entry. |
| CatalogEntry.ComcatLocalCatalogEntry.AddIdsToMap | aftershockStatistics/ComcatLocalCatalogEntry.java:373-383 | If some id is already mapped, returns the first such id and leaves the map unchanged. Otherwise every id maps to this entry and the result is None. |
| CatalogEntry.ComcatLocalCatalogEntry.FirstMappedId | aftershockStatistics/ComcatLocalCatalogEntry.java:374-378 | Finds the first id already in the map, or None when there is none. |
| CatalogBins.Trunc | aftershockStatistics/ComcatLocalCatalog.java:78 | Java's cast of a real to an integer truncates toward zero: for a non-negative x the result n has n <= x < n + 1, and for a negative x it has n - 1 < x <= n. |
| CatalogBins.JavaRem | aftershockStatistics/ComcatLocalCatalog.java:233 | Java's `%`: a non-negative dividend gives the Euclidean remainder. A negative one gives a remainder in (-n, 0] that differs from the dividend by a multiple of n. |
| CatalogBins.ScaledLat | aftershockStatistics/ComcatLocalCatalog.java:57-59 | A latitude in [-90, 90] scales into [0, 1]. |
| CatalogBins.ScaledLon | aftershockStatistics/ComcatLocalCatalog.java:67-69 | A longitude in [-360, 360] scales into [0, 2]. |
| CatalogBins.LatBin | aftershockStatistics/ComcatLocalCatalog.java:75-81 | Clamped to at most `n_lat_bins − 1`, and non-negative for a non-negative scaled latitude. |
| CatalogBins.LonBin | aftershockStatistics/ComcatLocalCatalog.java:87-93 | Clamped to at most `2*n_lon_bins − 1`, and non-negative for a non-negative scaled longitude. |
| CatalogBins.CalcNLonBins | aftershockStatistics/ComcatLocalCatalog.java:98-107 | Every latitude bin has at least one longitude bin. |
| CatalogBins.BinOf | aftershockStatistics/ComcatLocalCatalog.java:229-233 | A bin found is within the bins. An in-range coordinate always has one. |
| CatalogBins.StatsOfIsExact | aftershockStatistics/ComcatLocalCatalog.java:334-373 | The statistics count every accepted entry. Their minima and maxima of time, depth and magnitude bound every entry and are attained. |
| CatalogBins.MapOfKeys | aftershockStatistics/ComcatLocalCatalog.java:217 | The event map holds exactly the ids of the accepted entries, each mapped to an entry carrying it. |
| CatalogBins.DedupDisjoint | aftershockStatistics/ComcatLocalCatalog.java:217-242 | Accepted entries share no id. |
| CatalogBins.DedupKeeps | aftershockStatistics/ComcatLocalCatalog.java:217-242 | Every accepted entry was read from the file. |
| CatalogBins.DedupStep | aftershockStatistics/ComcatLocalCatalog.java:217-242 | An entry is accepted exactly when none of its ids is already mapped. A duplicate is neither binned nor counted. |
| CatalogBins.InBinsMultiset | aftershockStatistics/ComcatLocalCatalog.java:237 | An entry is in the binned entries exactly when some bin holds it. |
| CatalogBins.PlacedEntry | aftershockStatistics/ComcatLocalCatalog.java:229-237 | Every binned entry sits in the bin of its own coordinates. |
| CatalogBins.BinAllPlaced | aftershockStatistics/ComcatLocalCatalog.java:208-243 | Binning the accepted entries puts each in its bin, and the bins hold exactly those entries. |
| CatalogBins.Insert | aftershockStatistics/ComcatLocalCatalog.java:277-284 | Inserting into a sorted bin keeps it sorted by time and adds exactly that entry. |
| CatalogBins.SortByTime | aftershockStatistics/ComcatLocalCatalog.java:277-284 | The sorted bin is in nondecreasing time order and is a permutation of the bin. |
| CatalogBins.MaxSizeIsLargest | aftershockStatistics/ComcatLocalCatalog.java:238-241 | The maximum bin size bounds every bin and is attained. |
| CatalogBins.SortedCopySame | aftershockStatistics/ComcatLocalCatalog.java:258-290 | Sorting each bin keeps the binned entries, the maximum size, the bin count and the number of bins of each size. |
| CatalogBins.SortedBinsLoaded | aftershockStatistics/ComcatLocalCatalog.java:247-290 | Sorted bins and the histogram give a loaded catalog. Every bin is sorted. The histogram has `max_bin_size+1` slots, slot k counts the bins of size k, and the counts sum to the number of bins. |
| CatalogBins.LonRange | aftershockStatistics/ComcatLocalCatalog.java:528-535 | The longitude bin range is capped at `n_lon_bins` consecutive bins. |
| CatalogBins.NoBinScannedTwice | aftershockStatistics/ComcatLocalCatalog.java:533-535 | Two different positions in the capped range fall in different bins. |
| CatalogBins.MatchesSound | aftershockStatistics/ComcatLocalCatalog.java:561-589 | Every rupture a bin's scan returns comes from an entry of that bin passing the time window and every filter. |
| CatalogBins.MatchesComplete | aftershockStatistics/ComcatLocalCatalog.java:561-589 | Every entry of a bin passing the window and the filters is returned by that bin's scan. |
| CatalogBins.MatchesAppend | aftershockStatistics/ComcatLocalCatalog.java:561-589 | Scanning two parts of a bin in turn gives the matches of the whole. |
| CatalogBins.MatchesStop | aftershockStatistics/ComcatLocalCatalog.java:569-571 | In a sorted bin nothing after an entry past the end time matches, so the scan may stop there. |
| CatalogBins.ScanRowSound | aftershockStatistics/ComcatLocalCatalog.java:537-590 | Every rupture from a row's scan comes from a selected entry of that row. |
| CatalogBins.ScanLatSound | aftershockStatistics/ComcatLocalCatalog.java:519-591 | Every rupture from the latitude scan comes from a selected binned entry. |
| CatalogBins.QuerySound | aftershockStatistics/ComcatLocalCatalog.java:472-589 | On a loaded catalog, every rupture of the query comes from an accepted entry in the window passing every filter. |
| LocalCatalog.ParseEntry | aftershockStatistics/ComcatLocalCatalog.java:212-213 | Reads one more entry, consuming exactly its line. |
| LocalCatalog.ComcatLocalCatalog.constructor | aftershockStatistics/ComcatLocalCatalog.java:380-386 | A new catalog has no bins or map, and cleared statistics. |
| LocalCatalog.ComcatLocalCatalog.ClearStat | aftershockStatistics/ComcatLocalCatalog.java:315-327 | Every statistic is zero and there is no histogram. |
| LocalCatalog.ComcatLocalCatalog.AccumStat | aftershockStatistics/ComcatLocalCatalog.java:334-373 | Increments the count and folds the entry into the minima and maxima; the first entry initialises them. |
| LocalCatalog.ComcatLocalCatalog.LoadCatalog | aftershockStatistics/ComcatLocalCatalog.java:171-293 | On success the catalog is loaded from exactly the entries read (duplicates dropped), with one row of longitude bins per latitude bin. A negative number of latitude bins fails, as the Java array allocation does. |
| LocalCatalog.ComcatLocalCatalog.ReadAndBuild | aftershockStatistics/ComcatLocalCatalog.java:206-290 | Reads every line, then sorts and counts, giving a loaded catalog of the accepted entries. |
| LocalCatalog.ComcatLocalCatalog.CreateBins | aftershockStatistics/ComcatLocalCatalog.java:185-204 | One row per latitude bin, each with its number of empty longitude bins, all counted in the total. |
| LocalCatalog.ComcatLocalCatalog.ReadEntries | aftershockStatistics/ComcatLocalCatalog.java:206-243 | After the whole file, the bins, map, statistics and maximum size are those of the accepted entries. |
| LocalCatalog.ComcatLocalCatalog.ReadLine | aftershockStatistics/ComcatLocalCatalog.java:210-242 | Reads one line and adds its entry unless it is a duplicate. |
| LocalCatalog.ComcatLocalCatalog.AddEntry | aftershockStatistics/ComcatLocalCatalog.java:215-242 | A duplicate changes nothing. A new entry is mapped, counted and appended to its bin, raising the maximum size if needed. |
| LocalCatalog.ComcatLocalCatalog.BuildBins | aftershockStatistics/ComcatLocalCatalog.java:245-290 | Produces the sorted bins and histogram of a loaded catalog, with the same shape. |
| LocalCatalog.SortBins | aftershockStatistics/ComcatLocalCatalog.java:247-290 | The histogram has `max+1` slots, each counting the bins of its size, summing to the number of bins. Every bin is sorted. |
| LocalCatalog.BuildRow | aftershockStatistics/ComcatLocalCatalog.java:267-289 | Sorts each bin of a row and adds the row's bin sizes to the histogram. |
| LocalCatalog.ComcatLocalCatalog.FetchEvent | aftershockStatistics/ComcatLocalCatalog.java:433-447 | Finds a rupture exactly when some accepted entry has the id, and returns that entry's rupture. |
| LocalCatalog.ComcatLocalCatalog.FetchEventList | aftershockStatistics/ComcatLocalCatalog.java:466-594 | Rejects `minDepth ≥ maxDepth`, a start not before now, and `startTime > endTime`. An end equal to the start means now. The result is the query over the bins. Every rupture comes from an accepted entry in the window passing the magnitude, depth, region and excluded-id filters. |
| LocalCatalog.ScanLatBins | aftershockStatistics/ComcatLocalCatalog.java:504-591 | Scans the latitude bins of the region, giving the query result. |
| LocalCatalog.ScanLonBins | aftershockStatistics/ComcatLocalCatalog.java:523-590 | Scans the capped longitude range of a row. |
| LocalCatalog.FirstAtOrAfter | aftershockStatistics/ComcatLocalCatalog.java:548-557 | A lower bound on a sorted bin: every entry before `hi` is earlier than the start, and every entry from `hi` on is not. |
| LocalCatalog.ScanTimeBin | aftershockStatistics/ComcatLocalCatalog.java:541-589 | Gives exactly the bin's matches: the window and filters applied in time order from the lower bound, stopping past the end. |

## Left out

- Persistence. The database and the cross-process atomicity of task activation are not modelled. The store is one object holding the queue (a map by record key), the log, the timeline and the snapshots. `PendingTask`, `LogEntry`, `TimelineEntry`, `CatalogSnapshot` and `TimelineStatus` are not part of this model. They appear as datatypes, and the timeline-state predicates (forecast state, PDL-retry state, convertible to normal, analyst start/stop/update) are sets chosen from their documented meaning.
- The later `ActionConfig` API. The handlers use lookups that `ActionConfig.java` does not contain: the intake and PDL-report retry lags, `floor_unit_lag`, `lag_to_int` and the intake regions. They are given definitions meeting the contracts their callers rely on. The lag unit is assumed to divide one second.
- The configuration file. `ActionConfigFile` is not part of this model; its loading from JSON, `System.exit` on failure and `synchronized` are left out. The file's contents are a parameter.
- Outside services. ComCat, the regime tables, the search-region calculation, the forecast calculation, PDL sending and the primary-server test become input values (the `Upstream`, `Poll`, `Session` and `Lookups` parameters). `ComcatAccessor.java` and `PDLSupport.java` are not part of this model.
- Time and waiting. Clocks and `Thread.sleep` are not modelled: the current time is a parameter. `Run` and `RunSession` consume a finite list of sessions and polls instead of looping forever.
- `post_task` failures. A task post is not modelled as failing.
- `DBPayload` fields. The superclass fields of `OpAliasRevive`'s payload are taken to be empty, so its encoding is the version and `family_time`.
- Marshalling. `MarshalWriter.java` and `MarshalReader.java` are not part of this model. The writer and reader are a list of named, typed tokens; text and number encoding is abstract. The same holds for the catalog's line tokens and `Scanner`.
- Other source files. The other `ServerCmd` subcommands, `run_next_task`, the GUI, `ServerTest`, `VersionInfo` and `TimelineAlias` are not modelled. Java `null` strings are the empty string.
- Floating point:
  - Coordinates, magnitudes and depths are exact reals.
  - `calc_n_lon_bins`' `Math.sin`/`Math.round` is replaced by a parameter `rounded`, clamped to at least 1.
  - A region's `contains` is a function value.
  - The circular intake regions are boxes.
  - The saturating cast of an out-of-range real to `int` is not modelled.
- ForecastParameters fields. They are grouped into one datatype per block (mainshock, generic, magnitude of completeness, sequence-specific, search). The regime parameter objects are abstract values.
- CatalogEntry.ComcatLocalCatalogEntry.SetEqkRupture: like the Java method, a failed call keeps the values of the fields assigned before the failing check. The contract states which check fails and the whole entry on success, but not the partly assigned fields after a failure.
- `ComcatAccessor.idsToList` is not part of this model. `CatalogEntry.IdsToList` gives it the behaviour the entry's id-list field relies on: the event id first, then every other listed id in order.
- ForecastParams.ForecastParameters.DoUmarshal: Java assigns each block as it reads it. The model assigns the blocks only after the whole encoding has been read, so a failed read leaves them unchanged; the contract states nothing about the state after a failure.
- CatalogEntry.ComcatLocalCatalogEntry.ParseLine: Java assigns the fields as it reads them. The model assigns them only after a complete line has been read, so a failed parse leaves the entry unchanged.
- Catalog bins. The bins are values holding entry values, not arrays of shared entry objects, so aliasing between the map and the bins is not represented.
- CatalogBins.SortByTime: the library list sort is modelled as a stable insertion sort on values.
- LocalCatalog.ComcatLocalCatalog.FetchEventList: requires a loaded catalog with at least one latitude bin and a region whose bounds lie within ±360 degrees of longitude. Soundness of the result is proved. Completeness with respect to the region's bounding box is not: it rests on floating-point bin arithmetic. It is proved per scanned bin only (`MatchesComplete`).
- LocalCatalog.ComcatLocalCatalog.LoadCatalog: an entry whose coordinates give no bin makes the load fail (Java throws an index exception). The scanner's position is required to lie within its tokens.
- Quirks kept as the code has them:
  - Opcodes 5 and above reach `exec_unknown`, which throws.
  - After a successful PDL send the next PDL lag is not reset, so the follow-up is a PDL-report task, which in turn reaches `exec_unknown`.
  - The successful forecast path appends no timeline entry.
  - The intake re-check withdraws the timeline without testing the region lookup's result.
  - The dispatcher's opcodes 1 to 6 have the same values as `ServerComponent`'s. Its `OPCODE_MAX` (6) and `EXEC_TIME_SHUTDOWN` (2) differ from `ServerComponent`'s (10 and 20000000). The model uses `ServerComponent`'s constants and uses neither of those two, since posting the shutdown task is not modelled.
- TimelineStatus.Foreshock: `set_state_foreshock` also stores the catalog's largest event id in the status. The model's status has no such field, so the id (present in the catalog result) is not recorded.

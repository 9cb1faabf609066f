/**
 * The PDL intake command: the rule by which an event reported by PDL is
 * dropped, or posted as an intake task to run now or at the time its first
 * forecast is due. Parsing the command line into its fields is not part of
 * this model: the parsed fields are given, each present or absent.
 */
module ServerCmd {
  import opened Wrappers
  import opened ServerComponent
  import opened ActionConfig
  import opened TaskStore

  /** The submitter name of tasks posted from the command line. */
  const SUBMIT_ID_CMD := "ServerCmd"

  /** The mainshock location and magnitude, all four present or the whole group absent. */
  datatype Location = Location(lat: real, lon: real, depth: real, mag: real)

  /** The intake command: how many words it has, and the fields parsed from them. */
  datatype IntakeArgs = IntakeArgs(argCount: nat, eventId: Option<string>, location: Option<Location>, eventTime: Option<int>)

  /**
   * The task the command posts, if any. A command without an event id, or
   * without location, magnitude and time, is dropped. An event that passes a
   * region's minimum magnitude runs now; one that passes only an intake
   * magnitude is scheduled for its first forecast and dropped if that time has
   * passed.
   */
  function PdlIntakeTask(cfg: ConfigFile, args: IntakeArgs, now: int): (r: Option<TaskSpec>)
    requires ValidConfig(cfg)
    ensures args.argCount < 2 || args.eventId.None? || args.location.None? || args.eventTime.None? ==> r.None?
    ensures r.Some? ==>
              r.value.eventId == args.eventId.value && r.value.submitTime == now && r.value.submitId == SUBMIT_ID_CMD &&
              r.value.opcode == OPCODE_INTAKE_PDL && r.value.stage == 0 &&
              r.value.payload == IntakePdl(args.location.value.lat, args.location.value.lon,
                                           args.location.value.mag, args.eventTime.value) &&
              r.value.schedTime >= now
    ensures args.argCount >= 2 && args.eventId.Some? && args.location.Some? && args.eventTime.Some? ==>
              var loc := args.location.value;
              var due := args.eventTime.value + NextForecastLag(cfg, 0) + cfg.comcatClockSkew;
              (RegionForMinMag(cfg.intakeRegions, loc.lat, loc.lon, loc.mag).Some? ==>
                 r.Some? && r.value.schedTime == now) &&
              (RegionForMinMag(cfg.intakeRegions, loc.lat, loc.lon, loc.mag).None? ==>
                 (r.Some? <==> RegionForIntakeMag(cfg.intakeRegions, loc.lat, loc.lon, loc.mag).Some? && due >= now) &&
                 (r.Some? ==> r.value.schedTime == due))
  {
    if args.argCount < 2 || args.eventId.None? || args.location.None? || args.eventTime.None? then None
    else
      var loc := args.location.value;
      var payload := IntakePdl(loc.lat, loc.lon, loc.mag, args.eventTime.value);
      if RegionForMinMag(cfg.intakeRegions, loc.lat, loc.lon, loc.mag).Some? then
        Some(TaskSpec(args.eventId.value, now, now, SUBMIT_ID_CMD, OPCODE_INTAKE_PDL, 0, payload))
      else
        var schedTime := args.eventTime.value + NextForecastLag(cfg, 0) + cfg.comcatClockSkew;
        if RegionForIntakeMag(cfg.intakeRegions, loc.lat, loc.lon, loc.mag).None? || schedTime < now then None
        else Some(TaskSpec(args.eventId.value, schedTime, now, SUBMIT_ID_CMD, OPCODE_INTAKE_PDL, 0, payload))
  }

  /** Runs the intake command at time now: posts the task PdlIntakeTask chooses, if any. */
  method CmdPdlIntake(store: Store, cfg: ConfigFile, args: IntakeArgs, now: int) returns (posted: bool)
    requires store.Valid() && ValidConfig(cfg)
    modifies store`tasks, store`nextKey
    ensures store.Valid()
    ensures posted <==> PdlIntakeTask(cfg, args, now).Some?
    ensures !posted ==> store.tasks == old(store.tasks)
    ensures posted ==> store.tasks == old(store.tasks)[old(store.nextKey) := PdlIntakeTask(cfg, args, now).value.Waiting(old(store.nextKey))]
  {
    var spec := PdlIntakeTask(cfg, args, now);
    if spec.None? {
      return false;
    }
    var _ := store.SubmitTask(spec.value);
    posted := true;
  }
}

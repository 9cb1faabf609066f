/**
 * Configuration for AAFS server actions: the parameter file's contents, the
 * schedule lookups the dispatcher relies on, and the process-wide cache from
 * which every configuration object takes its parameter set.
 */
module ActionConfig {
  import opened Wrappers

  /** One second, in milliseconds: every schedule element is a whole number of seconds. */
  const SECOND_MILLIS := 1000
  /** The largest schedule element, 10^9 seconds, in milliseconds. */
  const MAX_SCHEDULE_MILLIS := 1000000000000

  /**
   * An intake region. The source's regions are spherical; here a region is a
   * latitude/longitude box, with the two magnitude thresholds of the source.
   */
  datatype IntakeRegion = IntakeRegion(
    name: string,
    minLat: real, maxLat: real, minLon: real, maxLon: real,
    minMag: real,     // events at least this large are always taken in
    intakeMag: real)  // events at least this large are taken in if the PDL report passes minMag

  predicate RegionContains(region: IntakeRegion, lat: real, lon: real)
  {
    region.minLat <= lat <= region.maxLat && region.minLon <= lon <= region.maxLon
  }

  /** The contents of the parameter file. All times and lags are in milliseconds. */
  datatype ConfigFile = ConfigFile(
    forecastMinGap: int,
    forecastMaxDelay: int,
    comcatClockSkew: int,
    comcatOriginSkew: int,
    comcatRetryMinGap: int,
    seqSpecMinLag: int,
    lagUnit: int,
    forecastLags: seq<int>,
    comcatRetryLags: seq<int>,
    comcatIntakeLags: seq<int>,
    pdlReportRetryLags: seq<int>,
    intakeRegions: seq<IntakeRegion>)

  /** A schedule: strictly increasing whole numbers of seconds, from 1 to 10^9 seconds. */
  predicate ValidSchedule(s: seq<int>)
  {
    NonNegative(s) &&
    (forall i, j :: 0 <= i < j < |s| ==> s[i] < s[j]) &&
    (forall i :: 0 <= i < |s| ==> SECOND_MILLIS <= s[i] <= MAX_SCHEDULE_MILLIS && s[i] % SECOND_MILLIS == 0)
  }

  /** The guarantees the parameter file gives: positive gaps, a lag unit dividing one second, and well-formed schedules. */
  predicate ValidConfig(cfg: ConfigFile)
  {
    cfg.forecastMinGap > 0 && cfg.forecastMaxDelay > 0 && cfg.comcatRetryMinGap > 0 &&
    cfg.comcatClockSkew >= 0 && cfg.comcatOriginSkew >= 0 && cfg.lagUnit > 0 && SECOND_MILLIS % cfg.lagUnit == 0 &&
    ValidSchedule(cfg.forecastLags) && ValidSchedule(cfg.comcatRetryLags) &&
    ValidSchedule(cfg.comcatIntakeLags) && ValidSchedule(cfg.pdlReportRetryLags)
  }

  //----- Schedule lookups -----

  /** No element is negative, so -1 can only mean "not found". */
  predicate NonNegative(s: seq<int>)
  {
    forall i :: 0 <= i < |s| ==> s[i] >= 0
  }

  /** The first element of s[from..] that is at least minTime, or -1 if there is none. */
  function NextAtLeastFrom(s: seq<int>, from: nat, minTime: int): (r: int)
    requires from <= |s| && NonNegative(s)
    ensures r == -1 <==> forall i :: from <= i < |s| ==> s[i] < minTime
    ensures r != -1 ==> exists i :: from <= i < |s| && s[i] == r && r >= minTime &&
                                    forall j :: from <= j < i ==> s[j] < minTime
    decreases |s| - from
  {
    if from == |s| then -1
    else if s[from] >= minTime then s[from]
    else NextAtLeastFrom(s, from + 1, minTime)
  }

  /** The first element of the schedule that is at least minTime, or -1 if every element is smaller. */
  function NextAtLeast(s: seq<int>, minTime: int): (r: int)
    requires NonNegative(s)
    ensures r == -1 <==> forall i :: 0 <= i < |s| ==> s[i] < minTime
    ensures r != -1 ==> r in s && r >= minTime
  {
    NextAtLeastFrom(s, 0, minTime)
  }

  /** The element found comes before any other element at least minTime; in a schedule it is the least of them. */
  lemma NextAtLeastIsLeast(s: seq<int>, minTime: int, k: int)
    requires ValidSchedule(s) && 0 <= k < |s| && s[k] >= minTime
    ensures NextAtLeast(s, minTime) != -1 && NextAtLeast(s, minTime) <= s[k]
  {
    var r := NextAtLeast(s, minTime);
    var i :| 0 <= i < |s| && s[i] == r && r >= minTime && forall j :: 0 <= j < i ==> s[j] < minTime;
    assert i <= k;
  }

  /** A found value is a whole number of seconds, from 1 to 10^9 seconds. */
  lemma NextAtLeastBounds(s: seq<int>, minTime: int)
    requires ValidSchedule(s)
    ensures NextAtLeast(s, minTime) != -1 ==>
              var r := NextAtLeast(s, minTime);
              SECOND_MILLIS <= r <= MAX_SCHEDULE_MILLIS && r % SECOND_MILLIS == 0
  {
  }

  /** The first configured forecast lag at least minTime, or -1. */
  function NextForecastLag(cfg: ConfigFile, minTime: int): (r: int)
    requires ValidConfig(cfg)
    ensures r == -1 <==> forall i :: 0 <= i < |cfg.forecastLags| ==> cfg.forecastLags[i] < minTime
    ensures r != -1 ==> r in cfg.forecastLags && r >= minTime &&
                        forall x :: x in cfg.forecastLags && x >= minTime ==> r <= x
    ensures r != -1 ==> SECOND_MILLIS <= r <= MAX_SCHEDULE_MILLIS && r % SECOND_MILLIS == 0
  {
    var r := NextAtLeast(cfg.forecastLags, minTime);
    forall x | x in cfg.forecastLags && x >= minTime ensures r <= x {
      var k :| 0 <= k < |cfg.forecastLags| && cfg.forecastLags[k] == x;
      NextAtLeastIsLeast(cfg.forecastLags, minTime, k);
    }
    r
  }

  /** The first configured ComCat retry lag at least minTime, or -1. */
  function NextComcatRetryLag(cfg: ConfigFile, minTime: int): (r: int)
    requires ValidConfig(cfg)
    ensures r == -1 <==> forall i :: 0 <= i < |cfg.comcatRetryLags| ==> cfg.comcatRetryLags[i] < minTime
    ensures r != -1 ==> r in cfg.comcatRetryLags && r >= minTime &&
                        forall x :: x in cfg.comcatRetryLags && x >= minTime ==> r <= x
    ensures r != -1 ==> SECOND_MILLIS <= r <= MAX_SCHEDULE_MILLIS && r % SECOND_MILLIS == 0
  {
    var r := NextAtLeast(cfg.comcatRetryLags, minTime);
    forall x | x in cfg.comcatRetryLags && x >= minTime ensures r <= x {
      var k :| 0 <= k < |cfg.comcatRetryLags| && cfg.comcatRetryLags[k] == x;
      NextAtLeastIsLeast(cfg.comcatRetryLags, minTime, k);
    }
    r
  }

  /** The first configured intake retry lag at least minTime, or -1. */
  function NextComcatIntakeLag(cfg: ConfigFile, minTime: int): (r: int)
    requires ValidConfig(cfg)
    ensures r == -1 <==> forall i :: 0 <= i < |cfg.comcatIntakeLags| ==> cfg.comcatIntakeLags[i] < minTime
    ensures r != -1 ==> r in cfg.comcatIntakeLags && r >= minTime &&
                        forall x :: x in cfg.comcatIntakeLags && x >= minTime ==> r <= x
  {
    var r := NextAtLeast(cfg.comcatIntakeLags, minTime);
    forall x | x in cfg.comcatIntakeLags && x >= minTime ensures r <= x {
      var k :| 0 <= k < |cfg.comcatIntakeLags| && cfg.comcatIntakeLags[k] == x;
      NextAtLeastIsLeast(cfg.comcatIntakeLags, minTime, k);
    }
    r
  }

  /** The first configured PDL report retry lag at least minTime, or -1. */
  function NextPdlReportRetryLag(cfg: ConfigFile, minTime: int): (r: int)
    requires ValidConfig(cfg)
    ensures r == -1 <==> forall i :: 0 <= i < |cfg.pdlReportRetryLags| ==> cfg.pdlReportRetryLags[i] < minTime
    ensures r != -1 ==> r in cfg.pdlReportRetryLags && r >= minTime &&
                        forall x :: x in cfg.pdlReportRetryLags && x >= minTime ==> r <= x
  {
    var r := NextAtLeast(cfg.pdlReportRetryLags, minTime);
    forall x | x in cfg.pdlReportRetryLags && x >= minTime ensures r <= x {
      var k :| 0 <= k < |cfg.pdlReportRetryLags| && cfg.pdlReportRetryLags[k] == x;
      NextAtLeastIsLeast(cfg.pdlReportRetryLags, minTime, k);
    }
    r
  }

  //----- Lag units -----

  /** Multiplying by the unit and dividing again is exact. */
  lemma MulDivExact(k: int, u: int)
    requires u > 0
    ensures (k * u) / u == k && (k * u) % u == 0
  {
    var q, m := (k * u) / u, (k * u) % u;
    assert (k - q) * u == m;
    assert k - q >= 1 ==> (k - q) * u >= u;
    assert k - q <= -1 ==> (k - q) * u <= -u;
  }

  /** Rounding down to a multiple of the unit loses less than one unit. */
  lemma FloorBounds(x: int, u: int)
    requires u > 0
    ensures (x / u) * u <= x < (x / u) * u + u
  {
  }

  /** A lag rounded down to a multiple of the lag unit, but always greater than minLag. */
  function FloorUnitLag(cfg: ConfigFile, lag: int, minLag: int): (r: int)
    requires ValidConfig(cfg) && lag >= 0 && minLag >= 0
    ensures r % cfg.lagUnit == 0 && r > minLag
    ensures lag >= minLag + cfg.lagUnit ==> r <= lag && lag - r < cfg.lagUnit
  {
    var u := cfg.lagUnit;
    var q := lag / u;
    var m := minLag / u + 1;
    FloorBounds(lag, u);
    FloorBounds(minLag, u);
    var k := if q >= m then q else m;
    MulDivExact(k, u);
    assert m * u == (minLag / u) * u + u;
    k * u
  }

  /** A whole number of seconds is a whole number of lag units, since the unit divides a second. */
  lemma SecondsAreUnits(cfg: ConfigFile, x: int)
    requires ValidConfig(cfg) && x % SECOND_MILLIS == 0
    ensures x % cfg.lagUnit == 0
  {
    var a := x / SECOND_MILLIS;
    var b := SECOND_MILLIS / cfg.lagUnit;
    assert x == a * SECOND_MILLIS;
    assert SECOND_MILLIS == b * cfg.lagUnit;
    assert x == (a * b) * cfg.lagUnit by {
      assert a * SECOND_MILLIS == a * (b * cfg.lagUnit);
    }
    MulDivExact(a * b, cfg.lagUnit);
  }

  /** Every configured lag is a whole number of lag units. */
  lemma SchedulesInUnits(cfg: ConfigFile)
    requires ValidConfig(cfg)
    ensures forall x :: x in cfg.forecastLags ==> x % cfg.lagUnit == 0
    ensures forall x :: x in cfg.comcatRetryLags ==> x % cfg.lagUnit == 0
    ensures forall x :: x in cfg.comcatIntakeLags ==> x % cfg.lagUnit == 0
    ensures forall x :: x in cfg.pdlReportRetryLags ==> x % cfg.lagUnit == 0
  {
    forall x | x in cfg.forecastLags || x in cfg.comcatRetryLags || x in cfg.comcatIntakeLags || x in cfg.pdlReportRetryLags
      ensures x % cfg.lagUnit == 0
    {
      SecondsAreUnits(cfg, x);
    }
  }

  /** A lag as a count of lag units (the form in which a task's stage records it). */
  function LagToInt(cfg: ConfigFile, lag: int): int
    requires ValidConfig(cfg)
  {
    lag / cfg.lagUnit
  }

  /** A count of lag units as a lag. */
  function IntToLag(cfg: ConfigFile, n: int): int
    requires ValidConfig(cfg)
  {
    n * cfg.lagUnit
  }

  /** A lag that is a multiple of the unit survives being stored as a stage and read back. */
  lemma LagStageRoundTrip(cfg: ConfigFile, lag: int)
    requires ValidConfig(cfg) && lag % cfg.lagUnit == 0
    ensures IntToLag(cfg, LagToInt(cfg, lag)) == lag
  {
  }

  /** A stage read back as a lag and stored again gives the same stage. */
  lemma StageLagRoundTrip(cfg: ConfigFile, n: int)
    requires ValidConfig(cfg)
    ensures LagToInt(cfg, IntToLag(cfg, n)) == n
  {
    MulDivExact(n, cfg.lagUnit);
  }

  //----- Intake regions -----

  /** The first region containing the point, among those whose threshold the magnitude meets. */
  function RegionForMinMag(regions: seq<IntakeRegion>, lat: real, lon: real, mag: real): (r: Option<IntakeRegion>)
    ensures r.Some? ==> r.value in regions && RegionContains(r.value, lat, lon) && mag >= r.value.minMag
    ensures r.None? ==> forall i :: 0 <= i < |regions| ==>
                          !(RegionContains(regions[i], lat, lon) && mag >= regions[i].minMag)
  {
    if |regions| == 0 then None
    else if RegionContains(regions[0], lat, lon) && mag >= regions[0].minMag then Some(regions[0])
    else RegionForMinMag(regions[1..], lat, lon, mag)
  }

  /** The first region containing the point, among those whose intake threshold the magnitude meets. */
  function RegionForIntakeMag(regions: seq<IntakeRegion>, lat: real, lon: real, mag: real): (r: Option<IntakeRegion>)
    ensures r.Some? ==> r.value in regions && RegionContains(r.value, lat, lon) && mag >= r.value.intakeMag
    ensures r.None? ==> forall i :: 0 <= i < |regions| ==>
                          !(RegionContains(regions[i], lat, lon) && mag >= regions[i].intakeMag)
  {
    if |regions| == 0 then None
    else if RegionContains(regions[0], lat, lon) && mag >= regions[0].intakeMag then Some(regions[0])
    else RegionForIntakeMag(regions[1..], lat, lon, mag)
  }

  //----- Listing a schedule -----

  /** How many elements are at least minTime: the listing below ends because this count drops at every step. */
  function CountAtLeast(s: seq<int>, minTime: int): nat
  {
    if |s| == 0 then 0 else (if s[0] >= minTime then 1 else 0) + CountAtLeast(s[1..], minTime)
  }

  lemma {:induction false} CountAtLeastMonotone(s: seq<int>, lo: int, hi: int)
    requires lo <= hi
    ensures CountAtLeast(s, hi) <= CountAtLeast(s, lo)
  {
    if |s| > 0 {
      CountAtLeastMonotone(s[1..], lo, hi);
    }
  }

  /** Moving minTime past an element that was counted makes the count drop. */
  lemma {:induction false} CountAtLeastDrops(s: seq<int>, lo: int, hi: int, t: int)
    requires t in s && lo <= t < hi
    ensures CountAtLeast(s, hi) < CountAtLeast(s, lo)
  {
    if s[0] != t {
      CountAtLeastDrops(s[1..], lo, hi, t);
    } else {
      CountAtLeastMonotone(s[1..], lo, hi);
    }
  }

  /**
   * Reads out a schedule the way the configuration's own listing does: look
   * up the first element at least minTime (0 at first), then move minTime to
   * that element plus the minimum gap, until the lookup reports -1. The loop
   * ends for any positive gap, and each listed element is at least the gap
   * after the one before.
   */
  method ListSchedule(s: seq<int>, gap: int) returns (times: seq<int>)
    requires NonNegative(s) && gap > 0
    ensures |times| > 0 ==> times[0] == NextAtLeast(s, 0)
    ensures forall i, j {:trigger times[i], times[j]} :: 0 <= i && j == i + 1 && j < |times| ==>
              times[j] == NextAtLeast(s, times[i] + gap) && times[i] + gap <= times[j]
    ensures NextAtLeast(s, if |times| == 0 then 0 else times[|times| - 1] + gap) == -1
  {
    times := [];
    var minTime := 0;
    while true
      invariant minTime == if |times| == 0 then 0 else times[|times| - 1] + gap
      invariant |times| > 0 ==> times[0] == NextAtLeast(s, 0)
      invariant forall i, j {:trigger times[i], times[j]} :: 0 <= i && j == i + 1 && j < |times| ==>
                  times[j] == NextAtLeast(s, times[i] + gap) && times[i] + gap <= times[j]
      decreases CountAtLeast(s, minTime)
    {
      var t := NextAtLeast(s, minTime);
      if t < 0 {
        break;
      }
      CountAtLeastDrops(s, minTime, t + gap, t);
      times := times + [t];
      minTime := t + gap;
    }
  }

  /**
   * What the listing produces, read back: every element is a schedule element,
   * and the listing strictly increases, each element at least the gap after
   * every earlier one.
   */
  lemma {:induction false} ListingSpaced(s: seq<int>, gap: int, times: seq<int>)
    requires NonNegative(s) && gap > 0
    requires |times| > 0 ==> times[0] == NextAtLeast(s, 0)
    requires forall i, j {:trigger times[i], times[j]} :: 0 <= i && j == i + 1 && j < |times| ==>
               times[j] == NextAtLeast(s, times[i] + gap)
    requires forall k :: 0 <= k < |times| ==> times[k] != -1
    ensures forall k :: 0 <= k < |times| ==> times[k] in s
    ensures forall i, j :: 0 <= i < j < |times| ==> times[i] + gap <= times[j]
  {
    if |times| > 1 {
      var init := times[..|times| - 1];
      assert forall i, j {:trigger init[i], init[j]} :: 0 <= i && j == i + 1 && j < |init| ==>
               init[j] == NextAtLeast(s, init[i] + gap) by {
        forall i, j | 0 <= i && j == i + 1 && j < |init| ensures init[j] == NextAtLeast(s, init[i] + gap) {
          assert times[i] == init[i] && times[j] == init[j];
        }
      }
      ListingSpaced(s, gap, init);
      var n := |times| - 1;
      assert times[n] == NextAtLeast(s, times[n - 1] + gap);
      forall i | 0 <= i < n ensures times[i] + gap <= times[n] {
        assert times[i] == init[i];
        if i < n - 1 {
          assert init[i] + gap <= init[n - 1];
        }
      }
    } else if |times| == 1 {
      assert times[0] == NextAtLeast(s, 0);
    }
  }

  //----- The cached parameter set -----

  /** The process-wide cache of the parameter set. */
  class ConfigCache {
    var cached: Option<ConfigFile>

    constructor ()
      ensures cached == None
    {
      cached := None;
    }

    /**
     * Returns the cached parameter set, loading it from the file's contents
     * and caching it first if there is none.
     */
    method GetParamSet(onDisk: ConfigFile) returns (p: ConfigFile)
      modifies this
      ensures old(cached).Some? ==> p == old(cached).value
      ensures old(cached).None? ==> p == onDisk
      ensures cached == Some(p)
    {
      if cached.Some? {
        return cached.value;
      }
      cached := Some(onDisk);
      p := onDisk;
    }

    /** Drops the cached parameter set, so that the next construction reloads it. */
    method UnloadData()
      modifies this
      ensures cached == None
    {
      cached := None;
    }
  }

  /** A configuration object, holding the parameter set it was built with. */
  class Config {
    var paramSet: ConfigFile

    constructor (cache: ConfigCache, onDisk: ConfigFile)
      modifies cache
      ensures old(cache.cached).Some? ==> paramSet == old(cache.cached).value
      ensures old(cache.cached).None? ==> paramSet == onDisk
      ensures cache.cached == Some(paramSet)
    {
      paramSet := onDisk;
      new;
      paramSet := cache.GetParamSet(onDisk);
    }
  }

  /**
   * Unloading and then constructing: the new object has the file's current
   * contents, and an object built earlier keeps the parameter set it had.
   */
  method UnloadAndReconstruct(cache: ConfigCache, existing: Config, onDisk: ConfigFile) returns (reloaded: Config)
    modifies cache
    ensures reloaded.paramSet == onDisk && cache.cached == Some(onDisk)
    ensures existing.paramSet == old(existing.paramSet)
  {
    cache.UnloadData();
    reloaded := new Config(cache, onDisk);
  }
}

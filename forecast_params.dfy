/**
 * The parameters for constructing a forecast: mainshock, generic rate-model,
 * magnitude-of-completeness, sequence-specific and aftershock-search blocks,
 * each with a status saying whether it is omitted, derived automatically or
 * supplied by an analyst; how they are fetched, and how they are marshalled.
 */
module ForecastParams {
  import opened Wrappers
  import opened Marshal
  import opened EqkRupture

  //----- Parameter status codes -----

  const PSTAT_MIN := 0
  const PSTAT_OMITTED := 0
  const PSTAT_AUTO := 1
  const PSTAT_ANALYST := 2
  const PSTAT_MAX := 2

  //----- Marshalling constants -----

  const MARSHAL_VER_1 := 22001
  const M_VERSION_NAME := "ForecastParameters"
  const MARSHAL_NULL := 22000
  const MARSHAL_FCAST_PARAM := 22001
  const M_TYPE_NAME := "ClassType"

  /** One day, in milliseconds. */
  const DAY_MILLIS: real := 86400000.0
  /** The deepest search depth, in kilometres. */
  const MAX_DEPTH: real := 700.0

  //----- Parameter values, block by block -----

  /** Mainshock block: time (ms since the epoch), magnitude and hypocentre. */
  datatype MainshockParams = MainshockParams(pstat: int, time: int, mag: real, lat: real, lon: real, depth: real)

  /** A rate-model block chosen by tectonic regime (the generic and the magnitude-of-completeness blocks). */
  datatype RegimeParams = RegimeParams(pstat: int, regime: Option<string>, params: Option<Blob>)

  /** Sequence-specific block. */
  datatype SeqSpecParams = SeqSpecParams(pstat: int, params: Option<Blob>)

  /** Aftershock search block: the region, and the time (days) and depth (km) ranges. */
  datatype SearchParams = SearchParams(pstat: int, region: Option<Blob>, minDays: real, maxDays: real,
                                       minDepth: real, maxDepth: real)

  /**
   * A parameter set as a value: what the fields of a ForecastParameters
   * object hold at one moment (and what an analyst's prior parameters are).
   */
  datatype Params = Params(eventId: string, forecastTime: int, mainshock: MainshockParams,
                           generic: RegimeParams, magComp: RegimeParams, seqSpec: SeqSpecParams,
                           search: SearchParams)

  const OmittedMainshock := MainshockParams(PSTAT_OMITTED, 0, 0.0, 0.0, 0.0, 0.0)
  const OmittedRegime := RegimeParams(PSTAT_OMITTED, None, None)
  const OmittedSeqSpec := SeqSpecParams(PSTAT_OMITTED, None)
  const OmittedSearch := SearchParams(PSTAT_OMITTED, None, 0.0, 0.0, 0.0, MAX_DEPTH)

  /** The parameters of a freshly constructed object: every block omitted. */
  const DefaultParams := Params("", 0, OmittedMainshock, OmittedRegime, OmittedRegime, OmittedSeqSpec, OmittedSearch)

  predicate IsPstat(x: int)
  {
    PSTAT_MIN <= x <= PSTAT_MAX
  }

  /**
   * The sequence-specific parameter set the rate model derives from a generic
   * one. The derivation belongs to the rate model, which is not part of this
   * model; only its dependence on the generic set is kept.
   */
  function SeqSpecOf(generic: Option<Blob>): Blob
  {
    Blob("SeqSpecRJ_Parameters", if generic.Some? then generic.value.values else [])
  }

  //----- Well-formed parameter sets -----

  predicate MainshockWellFormed(m: MainshockParams)
  {
    IsPstat(m.pstat) && (m.pstat == PSTAT_OMITTED ==> m == OmittedMainshock)
  }

  /** The regime and its parameters are present exactly when the block is not omitted. */
  predicate RegimeWellFormed(g: RegimeParams)
  {
    IsPstat(g.pstat) && (g.pstat == PSTAT_OMITTED <==> g.regime.None?) && (g.pstat == PSTAT_OMITTED <==> g.params.None?)
  }

  predicate SeqSpecWellFormed(q: SeqSpecParams)
  {
    IsPstat(q.pstat) && (q.pstat == PSTAT_OMITTED <==> q.params.None?)
  }

  /** The region is present exactly when the block is not omitted, and an omitted block holds the defaults. */
  predicate SearchWellFormed(s: SearchParams)
  {
    IsPstat(s.pstat) && (s.pstat == PSTAT_OMITTED <==> s.region.None?) &&
    (s.pstat == PSTAT_OMITTED ==> s == OmittedSearch)
  }

  /**
   * The documented shape of a parameter set: every status in range, objects
   * present exactly when their block is not omitted, and omitted blocks
   * holding their default values.
   */
  predicate WellFormed(p: Params)
  {
    MainshockWellFormed(p.mainshock) && RegimeWellFormed(p.generic) && RegimeWellFormed(p.magComp) &&
    SeqSpecWellFormed(p.seqSpec) && SearchWellFormed(p.search)
  }

  //----- The stream format -----

  function HeaderTokens(p: Params): seq<Token>
  {
    [TInt(M_VERSION_NAME, MARSHAL_VER_1), TString("event_id", p.eventId), TLong("forecast_time", p.forecastTime)]
  }

  function MainshockTokens(m: MainshockParams): seq<Token>
  {
    [TInt("mainshock_pstat", m.pstat)] +
    (if m.pstat != PSTAT_OMITTED then
       [TLong("mainshock_time", m.time), TDouble("mainshock_mag", m.mag), TDouble("mainshock_lat", m.lat),
        TDouble("mainshock_lon", m.lon), TDouble("mainshock_depth", m.depth)]
     else [])
  }

  /** A block is ready to marshal when the objects a present block dereferences are there. */
  predicate RegimeReady(g: RegimeParams)
  {
    g.pstat != PSTAT_OMITTED ==> g.regime.Some? && g.params.Some?
  }

  function RegimeTokens(prefix: string, g: RegimeParams): seq<Token>
    requires RegimeReady(g)
  {
    [TInt(prefix + "_pstat", g.pstat)] +
    (if g.pstat != PSTAT_OMITTED then
       [TString(prefix + "_regime", g.regime.value), TObject(prefix + "_params", g.params.value)]
     else [])
  }

  predicate SeqSpecReady(q: SeqSpecParams)
  {
    q.pstat != PSTAT_OMITTED ==> q.params.Some?
  }

  function SeqSpecTokens(q: SeqSpecParams): seq<Token>
    requires SeqSpecReady(q)
  {
    [TInt("seq_spec_pstat", q.pstat)] +
    (if q.pstat != PSTAT_OMITTED then [TObject("seq_spec_params", q.params.value)] else [])
  }

  function SearchTokens(s: SearchParams): seq<Token>
  {
    [TInt("aftershock_search_pstat", s.pstat)] +
    (if s.pstat != PSTAT_OMITTED then
       [TPoly("aftershock_search_region", s.region), TDouble("min_days", s.minDays),
        TDouble("max_days", s.maxDays), TDouble("min_depth", s.minDepth), TDouble("max_depth", s.maxDepth)]
     else [])
  }

  /** Every block that is not omitted holds the objects that marshalling dereferences. */
  predicate MarshalReady(p: Params)
  {
    RegimeReady(p.generic) && RegimeReady(p.magComp) && SeqSpecReady(p.seqSpec)
  }

  /** The tokens a parameter set is marshalled to: the version, then each block, its fields only when present. */
  function Encoding(p: Params): seq<Token>
    requires MarshalReady(p)
  {
    HeaderTokens(p) + MainshockTokens(p.mainshock) + RegimeTokens("generic", p.generic) +
    RegimeTokens("mag_comp", p.magComp) + SeqSpecTokens(p.seqSpec) + SearchTokens(p.search)
  }

  /** A well-formed parameter set can be marshalled. */
  lemma WellFormedIsReady(p: Params)
    requires WellFormed(p)
    ensures MarshalReady(p)
  {
  }

  /**
   * The stream starts with the version and ends with the search block; an
   * omitted block is written as its status alone.
   */
  lemma EncodingShape(p: Params)
    requires MarshalReady(p)
    ensures Encoding(p)[0] == TInt(M_VERSION_NAME, MARSHAL_VER_1)
    ensures p.mainshock.pstat == PSTAT_OMITTED ==> MainshockTokens(p.mainshock) == [TInt("mainshock_pstat", PSTAT_OMITTED)]
    ensures p.mainshock.pstat != PSTAT_OMITTED ==> |MainshockTokens(p.mainshock)| == 6
    ensures p.search.pstat == PSTAT_OMITTED ==> SearchTokens(p.search) == [TInt("aftershock_search_pstat", PSTAT_OMITTED)]
    ensures p.search.pstat != PSTAT_OMITTED ==> |SearchTokens(p.search)| == 6
    ensures |Encoding(p)| >= 8
  {
  }

  /** The answers of the outside services that fetching consults. */
  datatype Lookups = Lookups(
    // ComCat's rupture for an event id: None if it returned nothing, Err if it threw
    fetchEvent: string -> Result<Option<ObsEqkRupture>, string>,
    // the tectonic regime and generic parameters at a hypocentre (latitude, longitude, depth)
    genericAt: (real, real, real) -> (string, Blob),
    // the tectonic regime and magnitude-of-completeness parameters at a hypocentre
    magCompAt: (real, real, real) -> (string, Blob),
    // the search circle around the aftershocks of a mainshock up to a number of days, or Err if ComCat threw
    searchFor: (MainshockParams, real) -> Result<Blob, string>)

  /**
   * A forecast parameter set, filled in block by block. Each block's fields
   * are held together in one value of the block's type.
   */
  class ForecastParameters {
    var eventId: string
    var forecastTime: int
    var mainshock: MainshockParams
    var generic: RegimeParams
    var magComp: RegimeParams
    var seqSpec: SeqSpecParams
    var search: SearchParams

    /** The parameters this object holds. */
    function Value(): Params
      reads this
    {
      Params(eventId, forecastTime, mainshock, generic, magComp, seqSpec, search)
    }

    constructor ()
      ensures Value() == DefaultParams
    {
      eventId, forecastTime := "", 0;
      mainshock := OmittedMainshock;
      generic, magComp := OmittedRegime, OmittedRegime;
      seqSpec := OmittedSeqSpec;
      search := OmittedSearch;
    }

    //----- Fetching -----

    /** Takes the mainshock's time, magnitude and hypocentre from a rupture, normalising the coordinates. */
    method SetEqkRupture(rup: ObsEqkRupture)
      modifies this`mainshock
      ensures mainshock == MainshockParams(old(mainshock.pstat), rup.originTime, rup.mag,
                                           ClampLat(rup.lat), NormalLon(rup.lon), rup.depth)
      ensures -90.0 <= mainshock.lat <= 90.0
      ensures rup.lon <= 540.0 ==> -180.0 <= mainshock.lon <= 180.0
    {
      var lat, lon := rup.lat, rup.lon;
      if lon > 180.0 {
        lon := lon - 360.0;
      }
      if lon < -180.0 {
        lon := 180.0;
      }
      if lat > 90.0 {
        lat := 90.0;
      } else if lat < -90.0 {
        lat := -90.0;
      }
      mainshock := MainshockParams(mainshock.pstat, rup.originTime, rup.mag, lat, lon, rup.depth);
    }

    /**
     * Mainshock block: copied from analyst-supplied prior parameters, else
     * taken from ComCat's answer for the event id. Returns false where the
     * source throws (ComCat failed, or returned nothing).
     */
    method FetchMainshockParams(prior: Option<Params>, lookups: Lookups) returns (ok: bool)
      modifies this`mainshock
      ensures prior.Some? && prior.value.mainshock.pstat == PSTAT_ANALYST ==>
                ok && mainshock == prior.value.mainshock
      ensures !(prior.Some? && prior.value.mainshock.pstat == PSTAT_ANALYST) ==>
                var found := lookups.fetchEvent(eventId);
                ok == (found.Ok? && found.value.Some?) &&
                (ok ==> mainshock == MainshockParams(PSTAT_AUTO,
                          found.value.value.originTime, found.value.value.mag, ClampLat(found.value.value.lat),
                          NormalLon(found.value.value.lon), found.value.value.depth)) &&
                (!ok ==> mainshock == old(mainshock))
      ensures ok && (prior.None? || MainshockWellFormed(prior.value.mainshock)) ==> MainshockWellFormed(mainshock)
    {
      if prior.Some? && prior.value.mainshock.pstat == PSTAT_ANALYST {
        mainshock := prior.value.mainshock;
        return true;
      }
      var found := lookups.fetchEvent(eventId);
      if found.Err? || found.value.None? {
        return false;
      }
      mainshock := mainshock.(pstat := PSTAT_AUTO);
      SetEqkRupture(found.value.value);
      return true;
    }

    /**
     * Generic block: copied from analyst-supplied prior parameters, else
     * omitted when the mainshock is, else the regime at the mainshock's
     * hypocentre and its parameters.
     */
    method FetchGenericParams(prior: Option<Params>, lookups: Lookups)
      modifies this`generic
      ensures prior.Some? && prior.value.generic.pstat == PSTAT_ANALYST ==> generic == prior.value.generic
      ensures !(prior.Some? && prior.value.generic.pstat == PSTAT_ANALYST) && mainshock.pstat == PSTAT_OMITTED ==>
                generic == OmittedRegime
      ensures !(prior.Some? && prior.value.generic.pstat == PSTAT_ANALYST) && mainshock.pstat != PSTAT_OMITTED ==>
                var found := lookups.genericAt(mainshock.lat, mainshock.lon, mainshock.depth);
                generic == RegimeParams(PSTAT_AUTO, Some(found.0), Some(found.1))
      ensures prior.None? || RegimeWellFormed(prior.value.generic) ==> RegimeWellFormed(generic)
    {
      if prior.Some? && prior.value.generic.pstat == PSTAT_ANALYST {
        generic := prior.value.generic;
        return;
      }
      if mainshock.pstat == PSTAT_OMITTED {
        generic := RegimeParams(PSTAT_OMITTED, None, None);
        return;
      }
      var found := lookups.genericAt(mainshock.lat, mainshock.lon, mainshock.depth);
      generic := RegimeParams(PSTAT_AUTO, Some(found.0), Some(found.1));
    }

    /** Magnitude-of-completeness block, with the same precedence and dependency as the generic block. */
    method FetchMagCompParams(prior: Option<Params>, lookups: Lookups)
      modifies this`magComp
      ensures prior.Some? && prior.value.magComp.pstat == PSTAT_ANALYST ==> magComp == prior.value.magComp
      ensures !(prior.Some? && prior.value.magComp.pstat == PSTAT_ANALYST) && mainshock.pstat == PSTAT_OMITTED ==>
                magComp == OmittedRegime
      ensures !(prior.Some? && prior.value.magComp.pstat == PSTAT_ANALYST) && mainshock.pstat != PSTAT_OMITTED ==>
                var found := lookups.magCompAt(mainshock.lat, mainshock.lon, mainshock.depth);
                magComp == RegimeParams(PSTAT_AUTO, Some(found.0), Some(found.1))
      ensures prior.None? || RegimeWellFormed(prior.value.magComp) ==> RegimeWellFormed(magComp)
    {
      if prior.Some? && prior.value.magComp.pstat == PSTAT_ANALYST {
        magComp := prior.value.magComp;
        return;
      }
      if mainshock.pstat == PSTAT_OMITTED {
        magComp := RegimeParams(PSTAT_OMITTED, None, None);
        return;
      }
      var found := lookups.magCompAt(mainshock.lat, mainshock.lon, mainshock.depth);
      magComp := RegimeParams(PSTAT_AUTO, Some(found.0), Some(found.1));
    }

    /** Sequence-specific block: analyst copy, else omitted when the generic block is, else derived from it. */
    method FetchSeqSpecParams(prior: Option<Params>)
      modifies this`seqSpec
      ensures prior.Some? && prior.value.seqSpec.pstat == PSTAT_ANALYST ==> seqSpec == prior.value.seqSpec
      ensures !(prior.Some? && prior.value.seqSpec.pstat == PSTAT_ANALYST) && generic.pstat == PSTAT_OMITTED ==>
                seqSpec == OmittedSeqSpec
      ensures !(prior.Some? && prior.value.seqSpec.pstat == PSTAT_ANALYST) && generic.pstat != PSTAT_OMITTED ==>
                seqSpec == SeqSpecParams(PSTAT_AUTO, Some(SeqSpecOf(generic.params)))
      ensures prior.None? || SeqSpecWellFormed(prior.value.seqSpec) ==> SeqSpecWellFormed(seqSpec)
    {
      if prior.Some? && prior.value.seqSpec.pstat == PSTAT_ANALYST {
        seqSpec := prior.value.seqSpec;
        return;
      }
      if generic.pstat == PSTAT_OMITTED {
        seqSpec := SeqSpecParams(PSTAT_OMITTED, None);
        return;
      }
      seqSpec := SeqSpecParams(PSTAT_AUTO, Some(SeqSpecOf(generic.params)));
    }

    /**
     * Aftershock search block. The end of the search window is always reset
     * to the forecast time first. Then: analyst copy (all but the window
     * end), else defaults when the mainshock is omitted, else the fixed time
     * and depth ranges and the region built around the aftershocks. Returns
     * false where the source throws (the aftershock fetch failed).
     */
    method FetchAftershockSearchRegion(prior: Option<Params>, lookups: Lookups) returns (ok: bool)
      modifies this`search
      ensures prior.Some? && prior.value.search.pstat == PSTAT_ANALYST ==>
                ok && search == prior.value.search.(maxDays := (forecastTime - mainshock.time) as real / DAY_MILLIS)
      ensures !(prior.Some? && prior.value.search.pstat == PSTAT_ANALYST) && mainshock.pstat == PSTAT_OMITTED ==>
                ok && search == OmittedSearch
      ensures !(prior.Some? && prior.value.search.pstat == PSTAT_ANALYST) && mainshock.pstat != PSTAT_OMITTED ==>
                var days := (forecastTime - mainshock.time) as real / DAY_MILLIS;
                var found := lookups.searchFor(mainshock, days);
                ok == found.Ok? &&
                search == SearchParams(if ok then PSTAT_AUTO else old(search.pstat),
                                       if ok then Some(found.value) else old(search.region), 0.0, days, 0.0, MAX_DEPTH)
      ensures ok && (prior.None? || SearchWellFormed(prior.value.search)) ==> SearchWellFormed(search)
    {
      search := search.(maxDays := (forecastTime - mainshock.time) as real / DAY_MILLIS);
      if prior.Some? && prior.value.search.pstat == PSTAT_ANALYST {
        var s := prior.value.search;
        search := SearchParams(s.pstat, s.region, s.minDays, search.maxDays, s.minDepth, s.maxDepth);
        return true;
      }
      if mainshock.pstat == PSTAT_OMITTED {
        search := SearchParams(PSTAT_OMITTED, None, 0.0, 0.0, 0.0, MAX_DEPTH);
        return true;
      }
      search := search.(minDays := 0.0, minDepth := 0.0, maxDepth := MAX_DEPTH);
      var found := lookups.searchFor(mainshock, search.maxDays);
      if found.Err? {
        return false;
      }
      search := search.(region := Some(found.value), pstat := PSTAT_AUTO);
      return true;
    }

    /**
     * Fetches every block in dependency order, stopping where a fetch
     * throws. On success every block the prior parameters supply as the
     * analyst's is that block (the search window end reset to the forecast
     * time), and every other block is the automatic one: the mainshock
     * ComCat reports, the regimes at its hypocentre, the sequence-specific
     * values of the generic block and the region built around it. The
     * mainshock is then never omitted, and when the prior parameters are well
     * formed so is the result (so it marshals and reads back exactly).
     */
    method FetchAll(theEventId: string, theForecastTime: int, prior: Option<Params>, lookups: Lookups) returns (ok: bool)
      modifies this
      ensures eventId == theEventId && forecastTime == theForecastTime
      ensures ok ==> mainshock.pstat != PSTAT_OMITTED
      ensures ok && prior.Some? && prior.value.mainshock.pstat == PSTAT_ANALYST ==> mainshock == prior.value.mainshock
      ensures ok && !(prior.Some? && prior.value.mainshock.pstat == PSTAT_ANALYST) ==>
                var found := lookups.fetchEvent(theEventId);
                found.Ok? && found.value.Some? &&
                mainshock == MainshockParams(PSTAT_AUTO,
                               found.value.value.originTime, found.value.value.mag, ClampLat(found.value.value.lat),
                               NormalLon(found.value.value.lon), found.value.value.depth)
      ensures ok ==>
                generic == if prior.Some? && prior.value.generic.pstat == PSTAT_ANALYST then prior.value.generic
                           else var found := lookups.genericAt(mainshock.lat, mainshock.lon, mainshock.depth);
                                RegimeParams(PSTAT_AUTO, Some(found.0), Some(found.1))
      ensures ok ==>
                magComp == if prior.Some? && prior.value.magComp.pstat == PSTAT_ANALYST then prior.value.magComp
                           else var found := lookups.magCompAt(mainshock.lat, mainshock.lon, mainshock.depth);
                                RegimeParams(PSTAT_AUTO, Some(found.0), Some(found.1))
      ensures ok ==>
                seqSpec == if prior.Some? && prior.value.seqSpec.pstat == PSTAT_ANALYST then prior.value.seqSpec
                           else SeqSpecParams(PSTAT_AUTO, Some(SeqSpecOf(generic.params)))
      ensures ok && prior.Some? && prior.value.search.pstat == PSTAT_ANALYST ==>
                search == prior.value.search.(maxDays := (theForecastTime - mainshock.time) as real / DAY_MILLIS)
      ensures ok && !(prior.Some? && prior.value.search.pstat == PSTAT_ANALYST) ==>
                var days := (theForecastTime - mainshock.time) as real / DAY_MILLIS;
                var found := lookups.searchFor(mainshock, days);
                found.Ok? && search == SearchParams(PSTAT_AUTO, Some(found.value), 0.0, days, 0.0, MAX_DEPTH)
      ensures ok && prior.None? ==>
                mainshock.pstat == PSTAT_AUTO && generic.pstat == PSTAT_AUTO && magComp.pstat == PSTAT_AUTO &&
                seqSpec.pstat == PSTAT_AUTO && search.pstat == PSTAT_AUTO
      ensures ok && (prior.None? || WellFormed(prior.value)) ==> WellFormed(Value())
      ensures !ok && (prior.None? || prior.value.mainshock.pstat != PSTAT_ANALYST) ==>
                lookups.fetchEvent(theEventId).Err? || lookups.fetchEvent(theEventId).value.None? ||
                lookups.searchFor(mainshock, (theForecastTime - mainshock.time) as real / DAY_MILLIS).Err?
    {
      eventId := theEventId;
      forecastTime := theForecastTime;
      ok := FetchMainshockParams(prior, lookups);
      if !ok {
        return;
      }
      FetchGenericParams(prior, lookups);
      FetchMagCompParams(prior, lookups);
      FetchSeqSpecParams(prior);
      ok := FetchAftershockSearchRegion(prior, lookups);
    }

    //----- Marshalling -----

    /** Writes the version and each block, a block's fields only when it is not omitted. */
    method DoMarshal(writer: MarshalWriter)
      requires MarshalReady(Value())
      modifies writer
      ensures writer.tokens == old(writer.tokens) + Encoding(Value())
    {
      ghost var w0 := writer.tokens;
      ghost var p := Value();
      writer.MarshalInt(M_VERSION_NAME, MARSHAL_VER_1);
      writer.MarshalString("event_id", eventId);
      writer.MarshalLong("forecast_time", forecastTime);
      ghost var done := HeaderTokens(p);
      assert writer.tokens == w0 + done;
      MarshalMainshock(writer, mainshock);
      AppendAssoc(w0, done, MainshockTokens(p.mainshock));
      done := done + MainshockTokens(p.mainshock);
      MarshalRegime(writer, "generic", generic);
      AppendAssoc(w0, done, RegimeTokens("generic", p.generic));
      done := done + RegimeTokens("generic", p.generic);
      MarshalRegime(writer, "mag_comp", magComp);
      AppendAssoc(w0, done, RegimeTokens("mag_comp", p.magComp));
      done := done + RegimeTokens("mag_comp", p.magComp);
      MarshalSeqSpec(writer, seqSpec);
      AppendAssoc(w0, done, SeqSpecTokens(p.seqSpec));
      done := done + SeqSpecTokens(p.seqSpec);
      MarshalSearch(writer, search);
      AppendAssoc(w0, done, SearchTokens(p.search));
      }

    method UmarshalHeader(reader: MarshalReader, ghost p: Params, ghost rest: seq<Token>) returns (r: Result<(), string>)
      modifies this`eventId, this`forecastTime, reader`pos
      ensures At(reader.tokens, old(reader.pos), HeaderTokens(p) + rest) ==>
                r.Ok? && eventId == p.eventId && forecastTime == p.forecastTime && At(reader.tokens, reader.pos, rest)
      ensures !(old(reader.pos) < |reader.tokens| && reader.tokens[old(reader.pos)] == TInt(M_VERSION_NAME, MARSHAL_VER_1)) ==>
                r.Err?
    {
      if At(reader.tokens, reader.pos, HeaderTokens(p) + rest) {
        AtSplit(reader.tokens, reader.pos, HeaderTokens(p), rest);
        AtEach(reader.tokens, reader.pos, HeaderTokens(p));
      }
      var ver := reader.UnmarshalInt(M_VERSION_NAME, MARSHAL_VER_1, MARSHAL_VER_1);
      if ver.Err? {
        return Err(ver.error);
      }
      var e := reader.UnmarshalString("event_id");
      if e.Err? {
        return Err(e.error);
      }
      var t := reader.UnmarshalLong("forecast_time");
      if t.Err? {
        return Err(t.error);
      }
      eventId, forecastTime := e.value, t.value;
      r := Ok(());
    }

    /**
     * Reads a parameter set back in the order it is written. Reading what
     * marshalling a well-formed set wrote gives that set back; a wrong
     * version fails.
     */
    method DoUmarshal(reader: MarshalReader, ghost p: Params, ghost rest: seq<Token>) returns (r: Result<(), string>)
      modifies this, reader`pos
      ensures WellFormed(p) && At(reader.tokens, old(reader.pos), Encoding(p) + rest) ==>
                r.Ok? && Value() == p && At(reader.tokens, reader.pos, rest)
      ensures !(old(reader.pos) < |reader.tokens| && reader.tokens[old(reader.pos)] == TInt(M_VERSION_NAME, MARSHAL_VER_1)) ==>
                r.Err?
    {
      // what follows each block in the stream, when the stream holds p's encoding
      ghost var r1, r2, r3, r4, r5: seq<Token> := [], [], [], [], [];
      if WellFormed(p) && At(reader.tokens, reader.pos, Encoding(p) + rest) {
        r5 := SearchTokens(p.search) + rest;
        r4 := SeqSpecTokens(p.seqSpec) + r5;
        r3 := RegimeTokens("mag_comp", p.magComp) + r4;
        r2 := RegimeTokens("generic", p.generic) + r3;
        r1 := MainshockTokens(p.mainshock) + r2;
        EncodingThen(p, rest);
      }
      r := UmarshalHeader(reader, p, r1);
      if r.Err? {
        return;
      }
      var m := UmarshalMainshock(reader, p.mainshock, r2);
      if m.Err? {
        return Err(m.error);
      }
      var g := UmarshalRegime(reader, "generic", p.generic, r3);
      if g.Err? {
        return Err(g.error);
      }
      var c := UmarshalRegime(reader, "mag_comp", p.magComp, r4);
      if c.Err? {
        return Err(c.error);
      }
      var q := UmarshalSeqSpec(reader, p.seqSpec, r5);
      if q.Err? {
        return Err(q.error);
      }
      var s := UmarshalSearch(reader, p.search, rest);
      if s.Err? {
        return Err(s.error);
      }
      mainshock, generic, magComp, seqSpec, search := m.value, g.value, c.value, q.value, s.value;
    }

    /** Writes the parameter set as a named map. */
    method Marshal(writer: MarshalWriter, name: string)
      requires MarshalReady(Value())
      modifies writer
      ensures writer.tokens == old(writer.tokens) + [TMapBegin(name)] + Encoding(Value()) + [TMapEnd]
    {
      writer.MarshalMapBegin(name);
      DoMarshal(writer);
      writer.MarshalMapEnd();
    }

    /** Reads a parameter set written as a named map. */
    method Unmarshal(reader: MarshalReader, name: string, ghost p: Params) returns (r: Result<(), string>)
      modifies this, reader`pos
      ensures WellFormed(p) && At(reader.tokens, old(reader.pos), [TMapBegin(name)] + Encoding(p) + [TMapEnd]) ==>
                r.Ok? && Value() == p
    {
      ghost var good := WellFormed(p) && At(reader.tokens, reader.pos, [TMapBegin(name)] + Encoding(p) + [TMapEnd]);
      if good {
        AppendAssoc([TMapBegin(name)], Encoding(p), [TMapEnd]);
        AtHead(reader.tokens, reader.pos, [TMapBegin(name)] + (Encoding(p) + [TMapEnd]));
      }
      var b := reader.UnmarshalMapBegin(name);
      if b.Err? {
        return Err(b.error);
      }
      r := DoUmarshal(reader, p, [TMapEnd]);
      if r.Err? {
        return;
      }
      if good {
        AtHead(reader.tokens, reader.pos, [TMapEnd]);
      }
      r := reader.UnmarshalMapEnd();
    }
  }

  //----- Marshalling, block by block -----

  method MarshalMainshock(writer: MarshalWriter, m: MainshockParams)
    modifies writer
    ensures writer.tokens == old(writer.tokens) + MainshockTokens(m)
  {
    writer.MarshalInt("mainshock_pstat", m.pstat);
    if m.pstat != PSTAT_OMITTED {
      writer.MarshalLong("mainshock_time", m.time);
      writer.MarshalDouble("mainshock_mag", m.mag);
      writer.MarshalDouble("mainshock_lat", m.lat);
      writer.MarshalDouble("mainshock_lon", m.lon);
      writer.MarshalDouble("mainshock_depth", m.depth);
    }
  }

  /** Writes a regime block: the generic and the magnitude-of-completeness blocks differ only in their names. */
  method MarshalRegime(writer: MarshalWriter, prefix: string, g: RegimeParams)
    requires RegimeReady(g)
    modifies writer
    ensures writer.tokens == old(writer.tokens) + RegimeTokens(prefix, g)
  {
    writer.MarshalInt(prefix + "_pstat", g.pstat);
    if g.pstat != PSTAT_OMITTED {
      writer.MarshalString(prefix + "_regime", g.regime.value);
      writer.MarshalObject(prefix + "_params", g.params.value);
    }
  }

  method MarshalSeqSpec(writer: MarshalWriter, q: SeqSpecParams)
    requires SeqSpecReady(q)
    modifies writer
    ensures writer.tokens == old(writer.tokens) + SeqSpecTokens(q)
  {
    writer.MarshalInt("seq_spec_pstat", q.pstat);
    if q.pstat != PSTAT_OMITTED {
      writer.MarshalObject("seq_spec_params", q.params.value);
    }
  }

  method MarshalSearch(writer: MarshalWriter, s: SearchParams)
    modifies writer
    ensures writer.tokens == old(writer.tokens) + SearchTokens(s)
  {
    writer.MarshalInt("aftershock_search_pstat", s.pstat);
    if s.pstat != PSTAT_OMITTED {
      writer.MarshalPoly("aftershock_search_region", s.region);
      writer.MarshalDouble("min_days", s.minDays);
      writer.MarshalDouble("max_days", s.maxDays);
      writer.MarshalDouble("min_depth", s.minDepth);
      writer.MarshalDouble("max_depth", s.maxDepth);
    }
  }

  /** Reads a mainshock block; an omitted block gets the default values. */
  method UmarshalMainshock(reader: MarshalReader, ghost m: MainshockParams, ghost rest: seq<Token>) returns (r: Result<MainshockParams, string>)
    modifies reader`pos
    ensures MainshockWellFormed(m) && At(reader.tokens, old(reader.pos), MainshockTokens(m) + rest) ==>
              r == Ok(m) && At(reader.tokens, reader.pos, rest)
  {
    if MainshockWellFormed(m) && At(reader.tokens, reader.pos, MainshockTokens(m) + rest) {
      AtSplit(reader.tokens, reader.pos, MainshockTokens(m), rest);
      AtEach(reader.tokens, reader.pos, MainshockTokens(m));
    }
    var s := reader.UnmarshalInt("mainshock_pstat", PSTAT_MIN, PSTAT_MAX);
    if s.Err? {
      return Err(s.error);
    }
    if s.value == PSTAT_OMITTED {
      return Ok(MainshockParams(PSTAT_OMITTED, 0, 0.0, 0.0, 0.0, 0.0));
    }
    var t := reader.UnmarshalLong("mainshock_time");
    if t.Err? {
      return Err(t.error);
    }
    var mag := reader.UnmarshalDouble("mainshock_mag");
    if mag.Err? {
      return Err(mag.error);
    }
    var lat := reader.UnmarshalDouble("mainshock_lat");
    if lat.Err? {
      return Err(lat.error);
    }
    var lon := reader.UnmarshalDouble("mainshock_lon");
    if lon.Err? {
      return Err(lon.error);
    }
    var depth := reader.UnmarshalDouble("mainshock_depth");
    if depth.Err? {
      return Err(depth.error);
    }
    r := Ok(MainshockParams(s.value, t.value, mag.value, lat.value, lon.value, depth.value));
  }

  /** Reads a regime block; an omitted block has no regime and no parameters. */
  method UmarshalRegime(reader: MarshalReader, prefix: string, ghost g: RegimeParams, ghost rest: seq<Token>) returns (r: Result<RegimeParams, string>)
    modifies reader`pos
    ensures RegimeWellFormed(g) && At(reader.tokens, old(reader.pos), RegimeTokens(prefix, g) + rest) ==>
              r == Ok(g) && At(reader.tokens, reader.pos, rest)
  {
    if RegimeWellFormed(g) && At(reader.tokens, reader.pos, RegimeTokens(prefix, g) + rest) {
      AtSplit(reader.tokens, reader.pos, RegimeTokens(prefix, g), rest);
      AtEach(reader.tokens, reader.pos, RegimeTokens(prefix, g));
    }
    var s := reader.UnmarshalInt(prefix + "_pstat", PSTAT_MIN, PSTAT_MAX);
    if s.Err? {
      return Err(s.error);
    }
    if s.value == PSTAT_OMITTED {
      return Ok(RegimeParams(PSTAT_OMITTED, None, None));
    }
    var regime := reader.UnmarshalString(prefix + "_regime");
    if regime.Err? {
      return Err(regime.error);
    }
    var params := reader.UnmarshalObject(prefix + "_params");
    if params.Err? {
      return Err(params.error);
    }
    r := Ok(RegimeParams(s.value, Some(regime.value), Some(params.value)));
  }

  method UmarshalSeqSpec(reader: MarshalReader, ghost q: SeqSpecParams, ghost rest: seq<Token>) returns (r: Result<SeqSpecParams, string>)
    modifies reader`pos
    ensures SeqSpecWellFormed(q) && At(reader.tokens, old(reader.pos), SeqSpecTokens(q) + rest) ==>
              r == Ok(q) && At(reader.tokens, reader.pos, rest)
  {
    if SeqSpecWellFormed(q) && At(reader.tokens, reader.pos, SeqSpecTokens(q) + rest) {
      AtSplit(reader.tokens, reader.pos, SeqSpecTokens(q), rest);
      AtEach(reader.tokens, reader.pos, SeqSpecTokens(q));
    }
    var s := reader.UnmarshalInt("seq_spec_pstat", PSTAT_MIN, PSTAT_MAX);
    if s.Err? {
      return Err(s.error);
    }
    if s.value == PSTAT_OMITTED {
      return Ok(SeqSpecParams(PSTAT_OMITTED, None));
    }
    var params := reader.UnmarshalObject("seq_spec_params");
    if params.Err? {
      return Err(params.error);
    }
    r := Ok(SeqSpecParams(s.value, Some(params.value)));
  }

  /** Reads a search block; a present block whose region reads back as null is refused. */
  method UmarshalSearch(reader: MarshalReader, ghost s: SearchParams, ghost rest: seq<Token>) returns (r: Result<SearchParams, string>)
    modifies reader`pos
    ensures SearchWellFormed(s) && At(reader.tokens, old(reader.pos), SearchTokens(s) + rest) ==>
              r == Ok(s) && At(reader.tokens, reader.pos, rest)
    ensures old(reader.pos) + 1 < |reader.tokens| && reader.tokens[old(reader.pos)].TInt? &&
            reader.tokens[old(reader.pos)].i != PSTAT_OMITTED &&
            reader.tokens[old(reader.pos) + 1] == TPoly("aftershock_search_region", None) ==>
              r.Err?
  {
    if SearchWellFormed(s) && At(reader.tokens, reader.pos, SearchTokens(s) + rest) {
      AtSplit(reader.tokens, reader.pos, SearchTokens(s), rest);
      AtEach(reader.tokens, reader.pos, SearchTokens(s));
    }
    var status := reader.UnmarshalInt("aftershock_search_pstat", PSTAT_MIN, PSTAT_MAX);
    if status.Err? {
      return Err(status.error);
    }
    if status.value == PSTAT_OMITTED {
      return Ok(SearchParams(PSTAT_OMITTED, None, 0.0, 0.0, 0.0, MAX_DEPTH));
    }
    var region := reader.UnmarshalPoly("aftershock_search_region");
    if region.Err? {
      return Err(region.error);
    }
    if region.value.None? {
      return Err("Aftershock search region is null");
    }
    var a := reader.UnmarshalDouble("min_days");
    if a.Err? {
      return Err(a.error);
    }
    var b := reader.UnmarshalDouble("max_days");
    if b.Err? {
      return Err(b.error);
    }
    var c := reader.UnmarshalDouble("min_depth");
    if c.Err? {
      return Err(c.error);
    }
    var d := reader.UnmarshalDouble("max_depth");
    if d.Err? {
      return Err(d.error);
    }
    r := Ok(SearchParams(status.value, region.value, a.value, b.value, c.value, d.value));
  }

  /** An encoding followed by other tokens, regrouped block by block. */
  lemma EncodingThen(p: Params, rest: seq<Token>)
    requires MarshalReady(p)
    ensures Encoding(p) + rest ==
            HeaderTokens(p) + (MainshockTokens(p.mainshock) + (RegimeTokens("generic", p.generic) +
            (RegimeTokens("mag_comp", p.magComp) + (SeqSpecTokens(p.seqSpec) + (SearchTokens(p.search) + rest)))))
  {
    var h, m, g, c, q, s := HeaderTokens(p), MainshockTokens(p.mainshock), RegimeTokens("generic", p.generic),
                            RegimeTokens("mag_comp", p.magComp), SeqSpecTokens(p.seqSpec), SearchTokens(p.search);
    AppendAssoc(h + m + g + c + q, s, rest);
    AppendAssoc(h + m + g + c, q, s + rest);
    AppendAssoc(h + m + g, c, q + (s + rest));
    AppendAssoc(h + m, g, c + (q + (s + rest)));
    AppendAssoc(h, m, g + (c + (q + (s + rest))));
  }

  lemma AppendAssoc(a: seq<Token>, b: seq<Token>, c: seq<Token>)
    ensures a + b + c == a + (b + c)
  {
  }

  /** The tokens a possibly-null parameter set is written as, with its type code. */
  function PolyEncoding(name: string, p: Option<Params>): seq<Token>
    requires p.Some? ==> MarshalReady(p.value)
  {
    if p.None? then [TMapBegin(name), TInt(M_TYPE_NAME, MARSHAL_NULL), TMapEnd]
    else [TMapBegin(name), TInt(M_TYPE_NAME, MARSHAL_FCAST_PARAM)] + Encoding(p.value) + [TMapEnd]
  }

  /** Writes a possibly-null parameter set, with its type code. */
  method MarshalPoly(writer: MarshalWriter, name: string, obj: ForecastParameters?)
    requires obj != null ==> MarshalReady(obj.Value())
    modifies writer
    ensures writer.tokens == old(writer.tokens) + PolyEncoding(name, if obj == null then None else Some(obj.Value()))
  {
    writer.MarshalMapBegin(name);
    if obj == null {
      writer.MarshalInt(M_TYPE_NAME, MARSHAL_NULL);
    } else {
      writer.MarshalInt(M_TYPE_NAME, MARSHAL_FCAST_PARAM);
      obj.DoMarshal(writer);
    }
    writer.MarshalMapEnd();
  }

  /**
   * Reads a possibly-null parameter set: the null type code gives null, the
   * parameter type code a new object, and any other code fails. Reading what
   * MarshalPoly wrote gives back null or an object holding the same
   * parameters.
   */
  method UnmarshalPoly(reader: MarshalReader, name: string, ghost p: Option<Params>) returns (r: Result<ForecastParameters?, string>)
    modifies reader`pos
    ensures r.Ok? && r.value != null ==> fresh(r.value)
    ensures (p.Some? ==> WellFormed(p.value)) && At(reader.tokens, old(reader.pos), PolyEncoding(name, p)) ==>
              r.Ok? && (p.None? <==> r.value == null) && (p.Some? ==> r.value.Value() == p.value)
    ensures old(reader.pos) + 1 < |reader.tokens| && reader.tokens[old(reader.pos)] == TMapBegin(name) &&
            reader.tokens[old(reader.pos) + 1].TInt? && reader.tokens[old(reader.pos) + 1].name == M_TYPE_NAME &&
            reader.tokens[old(reader.pos) + 1].i != MARSHAL_NULL && reader.tokens[old(reader.pos) + 1].i != MARSHAL_FCAST_PARAM ==>
              r.Err?
  {
    ghost var good := (p.Some? ==> WellFormed(p.value)) && At(reader.tokens, reader.pos, PolyEncoding(name, p));
    if good {
      PolyEncodingParts(reader.tokens, reader.pos, name, p);
    }
    var b := reader.UnmarshalMapBegin(name);
    if b.Err? {
      return Err(b.error);
    }
    var t := reader.UnmarshalAnyInt(M_TYPE_NAME);
    if t.Err? {
      return Err(t.error);
    }
    var u := UmarshalByType(reader, t.value, p, [TMapEnd]);
    if u.Err? {
      return Err(u.error);
    }
    if good {
      AtHead(reader.tokens, reader.pos, [TMapEnd]);
    }
    var e := reader.UnmarshalMapEnd();
    if e.Err? {
      return Err(e.error);
    }
    r := Ok(u.value);
  }

  /**
   * Reads what follows a type code: nothing for the null code, the body of a
   * new parameter set for the parameter code, and a failure for any other.
   */
  method UmarshalByType(reader: MarshalReader, code: int, ghost p: Option<Params>, ghost rest: seq<Token>)
    returns (r: Result<ForecastParameters?, string>)
    modifies reader`pos
    ensures r.Ok? && r.value != null ==> fresh(r.value)
    ensures code == MARSHAL_NULL ==> r == Ok(null) && reader.pos == old(reader.pos)
    ensures code == MARSHAL_FCAST_PARAM && p.Some? && WellFormed(p.value) && At(reader.tokens, old(reader.pos), Encoding(p.value) + rest) ==>
              r.Ok? && r.value != null && r.value.Value() == p.value && At(reader.tokens, reader.pos, rest)
    ensures code != MARSHAL_NULL && code != MARSHAL_FCAST_PARAM ==> r.Err?
  {
    if code == MARSHAL_NULL {
      r := Ok(null);
    } else if code == MARSHAL_FCAST_PARAM {
      var result := new ForecastParameters();
      var u := result.DoUmarshal(reader, if p.Some? then p.value else DefaultParams, rest);
      if u.Err? {
        return Err(u.error);
      }
      r := Ok(result);
    } else {
      r := Err("Unknown class type code");
    }
  }

  /** Where the type code, the body and the closing token of a possibly-null encoding stand. */
  lemma PolyEncodingParts(ts: seq<Token>, start: int, name: string, p: Option<Params>)
    requires p.Some? ==> WellFormed(p.value)
    requires At(ts, start, PolyEncoding(name, p))
    ensures start + 2 <= |ts| && ts[start] == TMapBegin(name)
    ensures p.None? ==> ts[start + 1] == TInt(M_TYPE_NAME, MARSHAL_NULL) && start + 2 < |ts| && ts[start + 2] == TMapEnd
    ensures p.Some? ==> ts[start + 1] == TInt(M_TYPE_NAME, MARSHAL_FCAST_PARAM) && At(ts, start + 2, Encoding(p.value) + [TMapEnd])
  {
    var enc := PolyEncoding(name, p);
    AtEach(ts, start, enc);
    if p.Some? {
      assert enc == [TMapBegin(name), TInt(M_TYPE_NAME, MARSHAL_FCAST_PARAM)] + (Encoding(p.value) + [TMapEnd]);
      AtSplit(ts, start, [TMapBegin(name), TInt(M_TYPE_NAME, MARSHAL_FCAST_PARAM)], Encoding(p.value) + [TMapEnd]);
    }
  }

  /**
   * The round trip the source's own marshalling test exercises: fetch, write
   * with the type code, read back, and get the same parameters.
   */
  method FetchWriteRead(eventId: string, forecastTime: int, lookups: Lookups) returns (ok: bool, same: bool)
    ensures ok ==> same
  {
    var params := new ForecastParameters();
    ok := params.FetchAll(eventId, forecastTime, None, lookups);
    if !ok {
      return ok, false;
    }
    var writer := new MarshalWriter();
    MarshalPoly(writer, "", params);
    var reader := new MarshalReader(writer.tokens);
    assert At(reader.tokens, 0, PolyEncoding("", Some(params.Value())));
    var back := UnmarshalPoly(reader, "", Some(params.Value()));
    same := back.Ok? && back.value != null && back.value.Value() == params.Value();
  }
}

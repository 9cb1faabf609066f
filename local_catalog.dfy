/**
 * The local earthquake catalog: entries read from a catalog file, with an
 * entry dropped when one of its ComCat ids is already taken, binned by
 * latitude and longitude, each bin sorted by time, with running statistics
 * and a histogram of bin sizes; and the ComCat-like queries for one event
 * and for the events in a time window, depth range, magnitude floor and
 * region.
 */
module LocalCatalog {
  import opened Wrappers
  import opened EqkRupture
  import opened CatalogEntry
  import opened CatalogBins

  const DEF_N_LAT_BINS := 200

  /** Reads the entry of the next line. */
  method ParseEntry(scanner: LineScanner, ghost p0: int, ghost parsed: seq<EntryValue>)
    returns (r: Result<ComcatLocalCatalogEntry, string>, ghost v: EntryValue)
    requires Consumed(scanner.tokens, p0, scanner.pos, parsed)
    modifies scanner`pos
    ensures r.Ok? ==> fresh(r.value) && r.value.rupIdList != null && fresh(r.value.rupIdList) &&
                      r.value.rupIdList.Length >= 1 && r.value.Value() == v &&
                      old(scanner.pos) < scanner.pos <= |scanner.tokens| &&
                      Consumed(scanner.tokens, p0, scanner.pos, parsed + [v])
  {
    var entry := new ComcatLocalCatalogEntry();
    var pr := entry.ParseLine(scanner, EntryValue("", "", [], "", 0, 0.0, 0.0, 0.0, 0.0));
    if pr.Err? {
      return Err(pr.error), EntryValue("", "", [], "", 0, 0.0, 0.0, 0.0, 0.0);
    }
    v := entry.Value();
    ConsumedStep(scanner.tokens, p0, old(scanner.pos), scanner.pos, parsed, v);
    r := Ok(entry);
  }

  class ComcatLocalCatalog {
    var nLatBins: int
    var eventMap: EventMap?
    var eventBins: Option<Bins>
    var statTotalBins: int
    var statTotalEvents: int
    var statMaxBinSize: int
    var statMinTime: int
    var statMaxTime: int
    var statMinDepth: real
    var statMaxDepth: real
    var statMinMag: real
    var statMaxMag: real
    var statBinSizeHistogram: array?<int>
    /** The entries accepted by the last load, in file order. */
    ghost var entries: seq<EntryValue>

    /** The running statistics of the accepted entries. */
    function Stat(): Stats
      reads this
    {
      Stats(statTotalEvents, statMinTime, statMaxTime, statMinDepth, statMaxDepth, statMinMag, statMaxMag)
    }

    predicate Cleared()
      reads this
    {
      Stat() == CLEARED_STATS && statTotalBins == 0 && statMaxBinSize == 0 && statBinSizeHistogram == null
    }

    /**
     * A loaded catalog: the bins have the shape of the latitude bins, every
     * entry sits in the bin of its coordinates and every bin is sorted by
     * time; the bins and the map hold exactly the accepted entries, which
     * share no id; the statistics are those of the accepted entries; the
     * histogram counts the bins of each size, up to the largest.
     */
    ghost predicate Loaded()
      reads this, eventMap, statBinSizeHistogram
    {
      eventMap != null && eventBins.Some? && statBinSizeHistogram != null &&
      |eventBins.value| == (if nLatBins > 0 then nLatBins else 0) &&
      LoadedState(eventBins.value, eventMap.entries, entries, Stat(), statTotalBins, statMaxBinSize,
                  statBinSizeHistogram[..])
    }

    constructor ()
      ensures nLatBins == 0 && eventMap == null && eventBins.None? && Cleared()
    {
      nLatBins := 0;
      eventMap := null;
      eventBins := None;
      new;
      ClearStat();
    }

    method ClearStat()
      modifies this`statTotalBins, this`statTotalEvents, this`statMaxBinSize, this`statMinTime, this`statMaxTime,
               this`statMinDepth, this`statMaxDepth, this`statMinMag, this`statMaxMag, this`statBinSizeHistogram
      ensures Cleared()
    {
      statTotalBins := 0;
      statTotalEvents := 0;
      statMaxBinSize := 0;
      statMinTime := 0;
      statMaxTime := 0;
      statMinDepth := 0.0;
      statMaxDepth := 0.0;
      statMinMag := 0.0;
      statMaxMag := 0.0;
      statBinSizeHistogram := null;
    }

    /** Accumulates the statistics of one more accepted entry. */
    method AccumStat(entry: ComcatLocalCatalogEntry)
      requires entry.rupIdList != null
      modifies this`statTotalEvents, this`statMinTime, this`statMaxTime, this`statMinDepth, this`statMaxDepth,
               this`statMinMag, this`statMaxMag
      ensures Stat() == Accum(old(Stat()), entry.Value())
    {
      ghost var e := entry.Value();
      var time, depth, mag := entry.rupTime, entry.rupDepth, entry.rupMag;
      if statTotalEvents == 0 {
        statMinTime := time;
        statMaxTime := time;
        statMinDepth := depth;
        statMaxDepth := depth;
        statMinMag := mag;
        statMaxMag := mag;
      }
      ghost var b := Stat();
      statTotalEvents := statTotalEvents + 1;
      if statMinTime > time {
        statMinTime := time;
      }
      assert statMinTime == MinInt(b.minTime, e.time);
      if statMaxTime < time {
        statMaxTime := time;
      }
      assert statMaxTime == MaxInt(b.maxTime, e.time);
      if statMinDepth > depth {
        statMinDepth := depth;
      }
      assert statMinDepth == MinReal(b.minDepth, e.depth);
      if statMaxDepth < depth {
        statMaxDepth := depth;
      }
      assert statMaxDepth == MaxReal(b.maxDepth, e.depth);
      if statMinMag > mag {
        statMinMag := mag;
      }
      assert statMinMag == MinReal(b.minMag, e.mag);
      if statMaxMag < mag {
        statMaxMag := mag;
      }
    }

    /**
     * Loads the catalog from the tokens of a catalog file: creates the
     * bins, reads every line, keeps the entries whose ids are all new and
     * bins them, then sorts each bin by time and builds the histogram of
     * bin sizes. The number of longitude bins of latitude bin i comes from
     * rounded(i). Fails when a line does not parse or an entry has no bin.
     */
    method LoadCatalog(scanner: LineScanner, theNLatBins: int, rounded: int -> int)
      returns (r: Result<(), string>, ghost parsed: seq<EntryValue>)
      requires scanner.pos <= |scanner.tokens|
      modifies this, scanner`pos
      ensures r.Ok? ==> Loaded() && nLatBins == theNLatBins && fresh(eventMap) && fresh(statBinSizeHistogram)
      ensures r.Ok? ==> forall i :: 0 <= i < |eventBins.value| ==> |eventBins.value[i]| == CalcNLonBins(rounded(i))
      ensures r.Ok? ==> entries == Dedup(parsed) && Consumed(scanner.tokens, old(scanner.pos), scanner.pos, parsed) &&
                        scanner.pos == |scanner.tokens|
      ensures theNLatBins < 0 ==> r.Err?
    {
      if theNLatBins < 0 {
        // Java's array allocation throws on a negative size.
        r, parsed := Err("Negative array size"), [];
        return;
      }
      nLatBins := theNLatBins;
      ClearStat();
      eventMap := new EventMap();
      var varBins := CreateBins(theNLatBins, rounded);
      r, parsed := ReadAndBuild(scanner, varBins);
    }

    /** Reads every line into the new empty bins, then sorts the bins and builds the histogram. */
    method ReadAndBuild(scanner: LineScanner, bins0: Bins) returns (r: Result<(), string>, ghost parsed: seq<EntryValue>)
      requires scanner.pos <= |scanner.tokens|
      requires eventMap != null && eventMap.entries == map[] && Stat() == CLEARED_STATS && statMaxBinSize == 0
      requires PositiveCounts(Shape(bins0)) && AllEmpty(bins0) && |bins0| == (if nLatBins > 0 then nLatBins else 0)
      requires statTotalBins == TotalBins(bins0)
      modifies eventMap, this`statTotalEvents, this`statMinTime, this`statMaxTime, this`statMinDepth,
               this`statMaxDepth, this`statMinMag, this`statMaxMag, this`statMaxBinSize, this`entries, scanner`pos,
               this`statBinSizeHistogram, this`eventBins
      ensures r.Ok? ==> Loaded() && fresh(statBinSizeHistogram)
      ensures r.Ok? ==> |eventBins.value| == |bins0| && forall i :: 0 <= i < |bins0| ==> |eventBins.value[i]| == |bins0[i]|
      ensures r.Ok? ==> entries == Dedup(parsed) && Consumed(scanner.tokens, old(scanner.pos), scanner.pos, parsed) &&
                        scanner.pos == |scanner.tokens|
    {
      var res;
      res, parsed := ReadEntries(scanner, bins0);
      if res.Err? {
        return Err(res.error), parsed;
      }
      DedupDisjoint(parsed);
      BuildBins(res.value, bins0);
      r := Ok(());
    }

    /** Creates the empty bins, adding up their number. */
    method CreateBins(n: int, rounded: int -> int) returns (bins: Bins)
      modifies this`statTotalBins
      ensures |bins| == (if n > 0 then n else 0)
      ensures forall i :: 0 <= i < |bins| ==> |bins[i]| == CalcNLonBins(rounded(i))
      ensures AllEmpty(bins)
      ensures statTotalBins == old(statTotalBins) + TotalBins(bins)
    {
      bins := [];
      var latBin := 0;
      while latBin < n
        invariant 0 <= latBin && |bins| == latBin && (latBin > 0 ==> latBin <= n)
        invariant forall i :: 0 <= i < |bins| ==> |bins[i]| == CalcNLonBins(rounded(i))
        invariant AllEmpty(bins)
        invariant statTotalBins == old(statTotalBins) + TotalBins(bins)
      {
        var nLonBins := CalcNLonBins(rounded(latBin));
        statTotalBins := statTotalBins + nLonBins;
        var row: seq<seq<EntryValue>> := [];
        for lonBin := 0 to nLonBins
          invariant |row| == lonBin && forall j :: 0 <= j < lonBin ==> row[j] == []
        {
          row := row + [[]];
        }
        EmptyRowAppended(bins, row);
        bins := bins + [row];
        latBin := latBin + 1;
      }
    }

    /**
     * Reads every line left on the scanner, keeping and binning each entry
     * whose ids are all new.
     */
    method ReadEntries(scanner: LineScanner, bins0: Bins) returns (r: Result<Bins, string>, ghost parsed: seq<EntryValue>)
      requires scanner.pos <= |scanner.tokens|
      requires eventMap != null && eventMap.entries == map[] && Stat() == CLEARED_STATS && statMaxBinSize == 0
      requires PositiveCounts(Shape(bins0))
      requires AllEmpty(bins0)
      modifies eventMap, this`statTotalEvents, this`statMinTime, this`statMaxTime, this`statMinDepth,
               this`statMaxDepth, this`statMinMag, this`statMaxMag, this`statMaxBinSize, this`entries, scanner`pos
      ensures r.Ok? ==> ReadSoFar(bins0, entries, r.value, eventMap.entries, Stat(), statMaxBinSize) &&
                        entries == Dedup(parsed)
      ensures r.Ok? ==> Consumed(scanner.tokens, old(scanner.pos), scanner.pos, parsed) && scanner.pos == |scanner.tokens|
    {
      ghost var p0 := scanner.pos;
      parsed := [];
      var bins := bins0;
      EmptyBins(bins, Shape(bins0));
      while scanner.HasNext()
        invariant p0 <= scanner.pos <= |scanner.tokens|
        invariant Consumed(scanner.tokens, p0, scanner.pos, parsed)
        invariant ReadSoFar(bins0, Dedup(parsed), bins, eventMap.entries, Stat(), statMaxBinSize)
        decreases |scanner.tokens| - scanner.pos
      {
        ghost var before := (eventMap.entries, Stat(), statMaxBinSize);
        var ar;
        ghost var v;
        ar, v := ReadLine(scanner, bins, p0, parsed);
        if ar.Err? {
          return Err(ar.error), parsed;
        }
        LineStep(bins0, parsed, bins, before.0, before.1, before.2, v, ar, eventMap.entries, Stat(), statMaxBinSize);
        parsed := parsed + [v];
        bins := ar.value;
      }
      entries := Dedup(parsed);
      r := Ok(bins);
    }

    /** Reads one line and adds its entry, as in the body of the loop over the catalog file. */
    method ReadLine(scanner: LineScanner, bins: Bins, ghost p0: int, ghost parsed: seq<EntryValue>)
      returns (r: Result<Bins, string>, ghost v: EntryValue)
      requires eventMap != null && scanner.pos < |scanner.tokens|
      requires Consumed(scanner.tokens, p0, scanner.pos, parsed) && PositiveCounts(Shape(bins))
      modifies eventMap, this`statTotalEvents, this`statMinTime, this`statMaxTime, this`statMinDepth,
               this`statMaxDepth, this`statMinMag, this`statMaxMag, this`statMaxBinSize, scanner`pos
      ensures r.Ok? ==> old(scanner.pos) < scanner.pos <= |scanner.tokens| && |v.ids| >= 1 &&
                        Consumed(scanner.tokens, p0, scanner.pos, parsed + [v]) &&
                        Added(v, bins, old(eventMap.entries), old(Stat()), old(statMaxBinSize),
                              r, eventMap.entries, Stat(), statMaxBinSize)
    {
      var pr;
      pr, v := ParseEntry(scanner, p0, parsed);
      if pr.Err? {
        return Err(pr.error), v;
      }
      r := AddEntry(pr.value, bins);
    }

    /**
     * Adds a parsed entry: when none of its ids is taken, maps its ids,
     * accumulates its statistics and appends it to its bin; otherwise
     * changes nothing.
     */
    method AddEntry(entry: ComcatLocalCatalogEntry, bins: Bins) returns (r: Result<Bins, string>)
      requires entry.rupIdList != null && entry.rupIdList.Length >= 1 && eventMap != null
      requires PositiveCounts(Shape(bins))
      modifies eventMap, this`statTotalEvents, this`statMinTime, this`statMaxTime, this`statMinDepth,
               this`statMaxDepth, this`statMinMag, this`statMaxMag, this`statMaxBinSize
      ensures Added(entry.Value(), bins, old(eventMap.entries), old(Stat()), old(statMaxBinSize),
                    r, eventMap.entries, Stat(), statMaxBinSize)
    {
      var dup := entry.AddIdsToMap(eventMap);
      if dup.Some? {
        return Ok(bins);
      }
      AccumStat(entry);
      var latBin := LatBin(ScaledLat(entry.rupLat), |bins|);
      if latBin < 0 {
        return Err("Latitude bin out of range");
      }
      var lonBins := bins[latBin];
      var nLonBins := |lonBins|;
      var lonBin := JavaRem(LonBin(ScaledLon(entry.rupLon), nLonBins), nLonBins);
      if lonBin < 0 {
        return Err("Longitude bin out of range");
      }
      var bin := lonBins[lonBin] + [entry.Value()];
      if statMaxBinSize < |bin| {
        statMaxBinSize := |bin|;
      }
      r := Ok(bins[latBin := lonBins[lonBin := bin]]);
    }

    /** Builds the histogram of bin sizes and the final bins, each sorted by time. */
    method BuildBins(varBins: Bins, ghost bins0: Bins)
      requires eventMap != null
      requires |bins0| == (if nLatBins > 0 then nLatBins else 0) && PositiveCounts(Shape(bins0)) && AllEmpty(bins0)
      requires ReadSoFar(bins0, entries, varBins, eventMap.entries, Stat(), statMaxBinSize) && DisjointIds(entries)
      requires statTotalBins == TotalBins(bins0)
      modifies this`statBinSizeHistogram, this`eventBins
      ensures fresh(statBinSizeHistogram) && Loaded()
      ensures |eventBins.value| == |bins0| && forall i :: 0 <= i < |bins0| ==> |eventBins.value[i]| == |bins0[i]|
    {
      var hist, rows := SortBins(varBins, nLatBins, statMaxBinSize);
      SortedBinsLoaded(bins0, entries, varBins, rows, eventMap.entries, Stat(), statTotalBins, statMaxBinSize, hist[..]);
      statBinSizeHistogram := hist;
      eventBins := Some(rows);
    }

    /**
     * The event whose id is given, as a rupture; None when no accepted
     * entry lists that id.
     */
    method FetchEvent(eventId: string, wrapLon: bool, extendedInfo: bool) returns (rup: Option<ObsEqkRupture>)
      requires Loaded()
      ensures rup.Some? <==> exists e :: e in entries && eventId in e.ids
      ensures forall e :: e in entries && eventId in e.ids ==> rup == Some(ToRupture(e, wrapLon, extendedInfo))
    {
      MapOfKeys(entries, eventId);
      if eventId in eventMap.entries {
        var entry := eventMap.entries[eventId];
        rup := Some(ToRupture(entry, wrapLon, extendedInfo));
        forall e | e in entries && eventId in e.ids
          ensures e == entry
        {
          MapOfFinds(entries, e, eventId);
        }
      } else {
        rup := None;
      }
    }

    /**
     * The events in the time window from startTime to endTime (to timeNow
     * when the two are equal) that pass the magnitude, region, depth and
     * excluded-id filters, scanning the bins that cover the region's
     * bounding box. Fails on an empty depth range, a start not before now,
     * or an end before the start.
     */
    method FetchEventList(excludeId: Option<string>, startTime: int, endTime: int, minDepth: real, maxDepth: real,
                          region: SearchRegion, wrapLon: bool, extendedInfo: bool, minMag: real, timeNow: int)
      returns (r: Result<seq<ObsEqkRupture>, string>)
      requires Loaded() && nLatBins >= 1 && RegionInRange(region)
      ensures r.Err? <==> !(minDepth < maxDepth) || !(startTime < timeNow) || !(startTime <= endTime)
      ensures r.Ok? ==>
                r.value == QueryResult(eventBins.value, startTime, if endTime == startTime then timeNow else endTime,
                                       Filter(excludeId, minDepth, maxDepth, region, minMag, wrapLon, extendedInfo))
      ensures r.Ok? ==>
                forall x :: x in r.value ==>
                  exists e :: e in entries && x == ToRupture(e, wrapLon, extendedInfo) &&
                              Selected(e, startTime, if endTime == startTime then timeNow else endTime,
                                       Filter(excludeId, minDepth, maxDepth, region, minMag, wrapLon, extendedInfo))
    {
      if !(minDepth < maxDepth) {
        return Err("Min depth must be less than max depth");
      }
      if !(startTime < timeNow) {
        return Err("Start time must be less than time now");
      }
      if !(startTime <= endTime) {
        return Err("Start time must be less than end time");
      }
      var end := if endTime == startTime then timeNow else endTime;
      var eventFilter: set<string> := if excludeId.Some? then {excludeId.value} else {};
      var f := Filter(excludeId, minDepth, maxDepth, region, minMag, wrapLon, extendedInfo);
      var bins := eventBins.value;
      LoadedSearchable(bins, eventMap.entries, entries, Stat(), statTotalBins, statMaxBinSize, statBinSizeHistogram[..]);
      var rups := ScanLatBins(bins, nLatBins, startTime, end, f, eventFilter);
      r := Ok(rups);
      forall x | x in rups
        ensures exists e :: e in entries && x == ToRupture(e, wrapLon, extendedInfo) && Selected(e, startTime, end, f)
      {
        QuerySound(bins, entries, startTime, end, f, x);
      }
    }
  }

  /** The bins an entry value may sit in: each sorted by time, each entry with an id. */
  predicate Searchable(bins: Bins)
  {
    PositiveCounts(Shape(bins)) &&
    forall i, j :: 0 <= i < |bins| && 0 <= j < |bins[i]| ==>
      SortedByTime(bins[i][j]) && forall e :: e in bins[i][j] ==> |e.ids| >= 1
  }

  /** Loaded bins are searchable. */
  lemma LoadedSearchable(bins: Bins, m: map<string, EntryValue>, entries: seq<EntryValue>, stat: Stats,
                         totalBins: int, maxBinSize: int, hist: seq<int>)
    requires LoadedState(bins, m, entries, stat, totalBins, maxBinSize, hist)
    ensures Searchable(bins)
  {
    forall i, j, e | 0 <= i < |bins| && 0 <= j < |bins[i]| && e in bins[i][j]
      ensures |e.ids| >= 1
    {
      PlacedEntry(bins, Shape(bins), i, j, e);
    }
  }

  lemma SearchableRow(bins: Bins, i: int)
    requires Searchable(bins) && 0 <= i < |bins|
    ensures |bins[i]| >= 1
    ensures forall bin :: bin in bins[i] ==> SortedByTime(bin) && forall e :: e in bin ==> |e.ids| >= 1
  {
    assert Shape(bins)[i] == |bins[i]|;
  }

  /** The latitude loop of the list query: the matches of the latitude bins the region covers, in scan order. */
  method ScanLatBins(bins: Bins, nLatBins: int, start: int, end: int, f: Filter, eventFilter: set<string>)
    returns (rups: seq<ObsEqkRupture>)
    requires |bins| == nLatBins >= 1 && Searchable(bins) && RegionInRange(f.region)
    requires eventFilter == if f.excludeId.Some? then {f.excludeId.value} else {}
    ensures rups == QueryResult(bins, start, end, f)
  {
    var minLatBin := LatBin(ScaledLat(f.region.minLat), nLatBins);
    var maxLatBin := LatBin(ScaledLat(f.region.maxLat), nLatBins);
    rups := [];
    var latBin := minLatBin;
    while latBin <= maxLatBin
      invariant minLatBin <= latBin && (latBin <= maxLatBin + 1 || latBin == minLatBin)
      invariant rups == ScanLat(bins, minLatBin, latBin - 1, start, end, f)
    {
      SearchableRow(bins, latBin);
      var found := ScanLonBins(bins[latBin], start, end, f, eventFilter);
      rups := rups + found;
      latBin := latBin + 1;
    }
  }

  /**
   * The longitude loop of the list query over one latitude row: the matches of
   * the row's bins from the region's west edge to its east edge, taken modulo
   * the row length and never more than once round.
   */
  method ScanLonBins(row: seq<seq<EntryValue>>, start: int, end: int, f: Filter, eventFilter: set<string>)
    returns (rups: seq<ObsEqkRupture>)
    requires |row| >= 1 && -360.0 <= f.region.minLon
    requires forall bin :: bin in row ==> SortedByTime(bin) && forall e :: e in bin ==> |e.ids| >= 1
    requires eventFilter == if f.excludeId.Some? then {f.excludeId.value} else {}
    ensures rups == ScanRow(row, LonRange(|row|, f.region).0, LonRange(|row|, f.region).1, start, end, f)
  {
    var (minLonBin, maxLonBin) := LonRange(|row|, f.region);
    rups := [];
    var lonBin := minLonBin;
    while lonBin <= maxLonBin
      invariant minLonBin <= lonBin && (lonBin <= maxLonBin + 1 || lonBin == minLonBin)
      invariant rups == ScanRow(row, minLonBin, lonBin - 1, start, end, f)
    {
      var bin := row[lonBin % |row|];
      assert bin in row;
      var found := ScanTimeBin(bin, start, end, f, eventFilter);
      rups := rups + found;
      lonBin := lonBin + 1;
    }
  }

  /**
   * The index of the first entry of a time-sorted bin whose time is at or
   * after start (the length when there is none), by binary search.
   */
  method FirstAtOrAfter(bin: seq<EntryValue>, start: int) returns (hi: int)
    requires SortedByTime(bin)
    ensures 0 <= hi <= |bin|
    ensures forall k :: 0 <= k < hi ==> bin[k].time < start
    ensures forall k :: hi <= k < |bin| ==> bin[k].time >= start
  {
    var lo := -1;
    hi := |bin|;
    while hi - lo > 1
      invariant -1 <= lo < hi <= |bin|
      invariant forall k :: 0 <= k <= lo ==> bin[k].time < start
      invariant forall k :: hi <= k < |bin| ==> bin[k].time >= start
    {
      var mid := (hi + lo) / 2;
      if bin[mid].time >= start {
        hi := mid;
      } else {
        lo := mid;
      }
    }
  }

  /**
   * The time loop of the list query: from the first entry at or after
   * start until the first after end, the ruptures of the entries that
   * pass the filters; the same as filtering the whole bin.
   */
  method ScanTimeBin(bin: seq<EntryValue>, start: int, end: int, f: Filter, eventFilter: set<string>)
    returns (rups: seq<ObsEqkRupture>)
    requires SortedByTime(bin) && forall e :: e in bin ==> |e.ids| >= 1
    requires eventFilter == if f.excludeId.Some? then {f.excludeId.value} else {}
    ensures rups == Matches(bin, start, end, f)
  {
    var hi := FirstAtOrAfter(bin, start);
    MatchesOutside(bin[..hi], start, end, f);
    rups := [];
    var tix := hi;
    while tix < |bin|
      invariant hi <= tix <= |bin|
      invariant rups == Matches(bin[..tix], start, end, f)
    {
      var entry := bin[tix];
      if entry.time > end {
        MatchesStop(bin, tix, start, end, f);
        return;
      }
      assert entry in bin;
      assert Selected(entry, start, end, f) <==>
             entry.mag >= f.minMag && f.region.contains(entry.lat, entry.lon) && entry.depth >= f.minDepth &&
             entry.depth <= f.maxDepth && entry.ids[0] !in eventFilter;
      MatchesStep(bin, tix, start, end, f);
      if entry.mag >= f.minMag && f.region.contains(entry.lat, entry.lon) && entry.depth >= f.minDepth &&
         entry.depth <= f.maxDepth && entry.ids[0] !in eventFilter {
        rups := rups + [ToRupture(entry, f.wrapLon, f.extendedInfo)];
      }
      tix := tix + 1;
    }
    assert bin[..tix] == bin;
  }

  /**
   * Builds the histogram of bin sizes, up to the given largest size, and
   * the bins each sorted by time.
   */
  method SortBins(varBins: Bins, nLatBins: int, maxBinSize: int) returns (hist: array<int>, rows: Bins)
    requires |varBins| == (if nLatBins > 0 then nLatBins else 0) && maxBinSize == MaxSize(varBins)
    ensures fresh(hist) && hist.Length == maxBinSize + 1
    ensures forall s :: 0 <= s < hist.Length ==> hist[s] == CountOfSize(varBins, s)
    ensures Sum(hist[..]) == TotalBins(varBins)
    ensures SortedCopy(rows, varBins)
  {
    hist := new int[maxBinSize + 1];
    for h := 0 to maxBinSize + 1
      invariant forall k :: 0 <= k < h ==> hist[k] == 0
    {
      hist[h] := 0;
    }
    SumZero(hist[..]);
    rows := [];
    var latBin := 0;
    while latBin < nLatBins
      invariant 0 <= latBin <= |varBins| && SortedCopy(rows, varBins[..latBin])
      invariant forall s :: 0 <= s < hist.Length ==> hist[s] == CountOfSize(varBins[..latBin], s)
      invariant Sum(hist[..]) == TotalBins(varBins[..latBin])
    {
      MaxSizeAt(varBins, latBin);
      var row := BuildRow(varBins[latBin], hist);
      PrefixStep(rows, varBins, latBin, row);
      rows := rows + [row];
      latBin := latBin + 1;
    }
    assert varBins[..latBin] == varBins;
  }

  /** Counts the sizes of a row's bins in the histogram and sorts each bin by time. */
  method BuildRow(row: seq<seq<EntryValue>>, hist: array<int>) returns (sorted: seq<seq<EntryValue>>)
    requires RowMax(row) < hist.Length
    modifies hist
    ensures SortedRow(sorted, row)
    ensures forall s :: 0 <= s < hist.Length ==> hist[s] == old(hist[s]) + RowCount(row, s)
    ensures Sum(hist[..]) == Sum(old(hist[..])) + |row|
  {
    ghost var base := hist[..];
    sorted := [];
    for lonBin := 0 to |row|
      invariant SortedRow(sorted, row[..lonBin])
      invariant forall s :: 0 <= s < hist.Length ==> hist[s] == base[s] + RowCount(row[..lonBin], s)
      invariant Sum(hist[..]) == Sum(base) + lonBin
    {
      var bin := row[lonBin];
      var binSize := |bin|;
      RowMaxAt(row, lonBin);
      ghost var prev := hist[..];
      HistStep(base, prev, row, lonBin);
      SumIncrement(prev, binSize);
      hist[binSize] := hist[binSize] + 1;
      assert hist[..] == prev[binSize := prev[binSize] + 1];
      if binSize > 1 {
        bin := SortByTime(bin);
      }
      SortedRowStep(sorted, row, lonBin, bin);
      sorted := sorted + [bin];
    }
    assert row[..|row|] == row;
  }
}

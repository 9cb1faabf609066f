/**
 * The specification of the local catalog's bins: how an entry's
 * coordinates pick its bin, the statistics of the accepted entries, the
 * dropping of entries whose ids are taken, the contents, order and sizes
 * of the bins, and the reference results of the queries.
 */
module CatalogBins {
  import opened Wrappers
  import opened EqkRupture
  import opened CatalogEntry

  /** Bins indexed by latitude bin, then longitude bin; each bin holds entries. */
  type Bins = seq<seq<seq<EntryValue>>>

  //----- Binning -----

  /** The int a Java cast of a double gives: truncation toward zero. */
  function Trunc(x: real): (n: int)
    ensures 0.0 <= x ==> 0 <= n && n as real <= x < n as real + 1.0
    ensures x < 0.0 ==> n <= 0 && n as real - 1.0 < x <= n as real
  {
    if x >= 0.0 then x.Floor else -((-x).Floor)
  }

  /** The remainder of Java's %, which takes the sign of the dividend. */
  function JavaRem(a: int, n: int): (r: int)
    requires n >= 1
    ensures a >= 0 ==> 0 <= r < n && r == a % n
    ensures a < 0 ==> -n < r <= 0 && (a - r) % n == 0
  {
    if a >= 0 then a % n
    else
      MultipleMod(n, -((-a) / n));
      -((-a) % n)
  }

  /** A multiple of n leaves no remainder. */
  lemma MultipleMod(n: int, k: int)
    requires n >= 1
    ensures (n * k) % n == 0
  {
    var m := n * k;
    var d := k - m / n;
    assert n * d == m - n * (m / n);
    MulSign(n, d);
  }

  /** A latitude in [-90, +90] scaled to [0, 1]; the rounding of floating point is not modelled. */
  function ScaledLat(lat: real): (sc: real)
    ensures -90.0 <= lat <= 90.0 ==> 0.0 <= sc <= 1.0
  {
    (lat + 90.0) / 180.0
  }

  /** A longitude in [-360, +360] scaled to [0, 2]. */
  function ScaledLon(lon: real): (sc: real)
    ensures -360.0 <= lon <= 360.0 ==> 0.0 <= sc <= 2.0
  {
    (lon + 360.0) / 360.0
  }

  /** The latitude bin of a scaled latitude: never above n - 1, and within [0, n - 1] for a scaled latitude in [0, 1]. */
  function LatBin(scLat: real, nLatBins: int): (bin: int)
    ensures bin <= nLatBins - 1
    ensures 0.0 <= scLat && 1 <= nLatBins ==> 0 <= bin
  {
    var bin := Trunc(scLat * nLatBins as real);
    if bin >= nLatBins then nLatBins - 1 else bin
  }

  /** The longitude bin of a scaled longitude: never above 2n - 1, and within [0, 2n - 1] for a scaled longitude in [0, 2]. */
  function LonBin(scLon: real, nLonBins: int): (bin: int)
    ensures bin <= 2 * nLonBins - 1
    ensures 0.0 <= scLon && 1 <= nLonBins ==> 0 <= bin
  {
    var bin := Trunc(scLon * nLonBins as real);
    if bin >= 2 * nLonBins then 2 * nLonBins - 1 else bin
  }

  /**
   * The number of longitude bins of a latitude bin, from the rounded
   * value of 2n sin((bin + 1/2) pi / n) (whose computation is not
   * modelled): at least one.
   */
  function CalcNLonBins(rounded: int): (bins: int)
    ensures bins >= 1 && (rounded >= 1 ==> bins == rounded)
  {
    if rounded < 1 then 1 else rounded
  }

  /** The number of longitude bins of each latitude bin. */
  function Shape(bins: Bins): (s: seq<int>)
    ensures |s| == |bins| && forall i :: 0 <= i < |bins| ==> s[i] == |bins[i]|
  {
    seq(|bins|, i requires 0 <= i < |bins| => |bins[i]|)
  }

  predicate PositiveCounts(counts: seq<int>)
  {
    forall i :: 0 <= i < |counts| ==> counts[i] >= 1
  }

  /**
   * The bin an entry goes to, for the given numbers of longitude bins; None
   * where the Java code indexes out of range (a negative bin, or no
   * latitude bins at all). An entry within the documented coordinate ranges
   * always has a bin.
   */
  function BinOf(v: EntryValue, counts: seq<int>): (r: Option<(int, int)>)
    requires PositiveCounts(counts)
    ensures r.Some? ==> 0 <= r.value.0 < |counts| && 0 <= r.value.1 < counts[r.value.0]
    ensures -90.0 <= v.lat <= 90.0 && -360.0 <= v.lon <= 360.0 && |counts| >= 1 ==> r.Some?
  {
    var latBin := LatBin(ScaledLat(v.lat), |counts|);
    if latBin < 0 then None
    else
      var n := counts[latBin];
      var lonBin := JavaRem(LonBin(ScaledLon(v.lon), n), n);
      if lonBin < 0 then None else Some((latBin, lonBin))
  }

  //----- Statistics -----

  datatype Stats = Stats(totalEvents: int, minTime: int, maxTime: int, minDepth: real, maxDepth: real,
                         minMag: real, maxMag: real)

  const CLEARED_STATS := Stats(0, 0, 0, 0.0, 0.0, 0.0, 0.0)

  function MinInt(a: int, b: int): int { if a > b then b else a }
  function MaxInt(a: int, b: int): int { if a < b then b else a }
  function MinReal(a: real, b: real): real { if a > b then b else a }
  function MaxReal(a: real, b: real): real { if a < b then b else a }

  /** The statistics after one more accepted entry; the first entry sets every minimum and maximum. */
  function Accum(s: Stats, e: EntryValue): Stats
  {
    var b := if s.totalEvents == 0 then s.(minTime := e.time, maxTime := e.time, minDepth := e.depth,
                                          maxDepth := e.depth, minMag := e.mag, maxMag := e.mag)
             else s;
    Stats(b.totalEvents + 1, MinInt(b.minTime, e.time), MaxInt(b.maxTime, e.time),
          MinReal(b.minDepth, e.depth), MaxReal(b.maxDepth, e.depth),
          MinReal(b.minMag, e.mag), MaxReal(b.maxMag, e.mag))
  }

  /** The statistics of a sequence of accepted entries, accumulated in order from cleared statistics. */
  function StatsOf(es: seq<EntryValue>): Stats
  {
    if |es| == 0 then CLEARED_STATS else Accum(StatsOf(es[..|es| - 1]), es[|es| - 1])
  }

  /** The statistics bound every entry's time, depth and magnitude. */
  predicate Bounded(s: Stats, es: seq<EntryValue>)
  {
    forall e :: e in es ==> s.minTime <= e.time <= s.maxTime && s.minDepth <= e.depth <= s.maxDepth &&
                            s.minMag <= e.mag <= s.maxMag
  }

  /** Every statistic is attained by some entry. */
  predicate Attained(s: Stats, es: seq<EntryValue>)
  {
    (exists e :: e in es && e.time == s.minTime) && (exists e :: e in es && e.time == s.maxTime) &&
    (exists e :: e in es && e.depth == s.minDepth) && (exists e :: e in es && e.depth == s.maxDepth) &&
    (exists e :: e in es && e.mag == s.minMag) && (exists e :: e in es && e.mag == s.maxMag)
  }

  /**
   * The accumulated statistics count the entries and are the exact minima
   * and maxima of their times, depths and magnitudes.
   */
  lemma {:induction false} StatsOfIsExact(es: seq<EntryValue>)
    ensures StatsOf(es).totalEvents == |es|
    ensures Bounded(StatsOf(es), es)
    ensures |es| > 0 ==> Attained(StatsOf(es), es)
    decreases |es|
  {
    if |es| > 0 {
      var init := es[..|es| - 1];
      var e := es[|es| - 1];
      StatsOfIsExact(init);
      assert es == init + [e];
      var s := StatsOf(init);
      var t := StatsOf(es);
      if |init| == 0 {
        assert t == Stats(1, e.time, e.time, e.depth, e.depth, e.mag, e.mag);
        assert es == [e];
      } else {
        assert t == Stats(s.totalEvents + 1, MinInt(s.minTime, e.time), MaxInt(s.maxTime, e.time),
                          MinReal(s.minDepth, e.depth), MaxReal(s.maxDepth, e.depth),
                          MinReal(s.minMag, e.mag), MaxReal(s.maxMag, e.mag));
        BoundedGrows(s, init, e, t);
        AttainedGrows(s, init, e, t);
      }
    }
  }

  lemma BoundedGrows(s: Stats, init: seq<EntryValue>, e: EntryValue, t: Stats)
    requires Bounded(s, init)
    requires t == Stats(s.totalEvents + 1, MinInt(s.minTime, e.time), MaxInt(s.maxTime, e.time),
                        MinReal(s.minDepth, e.depth), MaxReal(s.maxDepth, e.depth),
                        MinReal(s.minMag, e.mag), MaxReal(s.maxMag, e.mag))
    ensures Bounded(t, init + [e])
  {
    forall x | x in init + [e]
      ensures t.minTime <= x.time <= t.maxTime && t.minDepth <= x.depth <= t.maxDepth &&
              t.minMag <= x.mag <= t.maxMag
    {
      if x != e {
        assert x in init;
      }
    }
  }

  lemma AttainedGrows(s: Stats, init: seq<EntryValue>, e: EntryValue, t: Stats)
    requires Attained(s, init)
    requires t == Stats(s.totalEvents + 1, MinInt(s.minTime, e.time), MaxInt(s.maxTime, e.time),
                        MinReal(s.minDepth, e.depth), MaxReal(s.maxDepth, e.depth),
                        MinReal(s.minMag, e.mag), MaxReal(s.maxMag, e.mag))
    ensures Attained(t, init + [e])
  {
    var es := init + [e];
    assert e in es;
    assert forall x :: x in init ==> x in es;
  }

  //----- Dropping duplicates -----

  /** The map from every id of the entries to the entry listing it (a later entry overriding an earlier one). */
  function MapOf(es: seq<EntryValue>): map<string, EntryValue>
  {
    if |es| == 0 then map[] else MapOf(es[..|es| - 1]) + IdMap(es[|es| - 1].ids, es[|es| - 1])
  }

  /** None of the entry's ids is in the map. */
  predicate FreshIds(v: EntryValue, m: map<string, EntryValue>)
  {
    forall k :: 0 <= k < |v.ids| ==> v.ids[k] !in m
  }

  /** The entries kept, in order: an entry is dropped when one of its ids is listed by an entry kept before it. */
  function Dedup(parsed: seq<EntryValue>): seq<EntryValue>
  {
    if |parsed| == 0 then []
    else
      var kept := Dedup(parsed[..|parsed| - 1]);
      var e := parsed[|parsed| - 1];
      if FreshIds(e, MapOf(kept)) then kept + [e] else kept
  }

  /** An id is in the map exactly when some entry lists it, and it maps to an entry that lists it. */
  lemma {:induction false} MapOfKeys(es: seq<EntryValue>, id: string)
    ensures id in MapOf(es) <==> exists e :: e in es && id in e.ids
    ensures id in MapOf(es) ==> MapOf(es)[id] in es && id in MapOf(es)[id].ids
    decreases |es|
  {
    if |es| > 0 {
      var init := es[..|es| - 1];
      var e := es[|es| - 1];
      assert es == init + [e];
      MapOfKeys(init, id);
      if id in MapOf(es) && id !in e.ids {
        assert MapOf(es)[id] == MapOf(init)[id];
      }
      if exists x :: x in es && id in x.ids {
        var x :| x in es && id in x.ids;
        if x != e {
          assert x in init;
        }
      }
    }
  }

  /** No two entries share an id. */
  predicate DisjointIds(es: seq<EntryValue>)
  {
    forall a, b, id :: 0 <= a < b < |es| && id in es[a].ids ==> id !in es[b].ids
  }

  /** The kept entries share no id. */
  lemma {:induction false} DedupDisjoint(parsed: seq<EntryValue>)
    ensures DisjointIds(Dedup(parsed))
    decreases |parsed|
  {
    if |parsed| > 0 {
      var init := parsed[..|parsed| - 1];
      var kept := Dedup(init);
      var e := parsed[|parsed| - 1];
      DedupDisjoint(init);
      if FreshIds(e, MapOf(kept)) {
        var ks := kept + [e];
        forall a, b, id | 0 <= a < b < |ks| && id in ks[a].ids
          ensures id !in ks[b].ids
        {
          if b == |kept| {
            MapOfKeys(kept, id);
            assert kept[a] in kept;
          }
        }
      }
    }
  }

  /** Kept entries are parsed entries. */
  lemma {:induction false} DedupKeeps(parsed: seq<EntryValue>)
    ensures forall e :: e in Dedup(parsed) ==> e in parsed
    decreases |parsed|
  {
    if |parsed| > 0 {
      var init := parsed[..|parsed| - 1];
      DedupKeeps(init);
      assert parsed == init + [parsed[|parsed| - 1]];
    }
  }

  /** With no id shared, the map sends each id of an entry to that entry. */
  lemma MapOfFinds(es: seq<EntryValue>, e: EntryValue, id: string)
    requires DisjointIds(es) && e in es && id in e.ids
    ensures id in MapOf(es) && MapOf(es)[id] == e
  {
    MapOfKeys(es, id);
  }

  //----- Bin contents -----

  function RowMultiset(row: seq<seq<EntryValue>>): multiset<EntryValue>
  {
    if |row| == 0 then multiset{} else RowMultiset(row[..|row| - 1]) + multiset(row[|row| - 1])
  }

  /** Every entry held anywhere in the bins, with multiplicity. */
  function BinsMultiset(bins: Bins): multiset<EntryValue>
  {
    if |bins| == 0 then multiset{} else BinsMultiset(bins[..|bins| - 1]) + RowMultiset(bins[|bins| - 1])
  }

  /** Appending an entry to one bin of a row adds it to the row's contents. */
  lemma {:induction false} RowAppend(row: seq<seq<EntryValue>>, j: int, e: EntryValue)
    requires 0 <= j < |row|
    ensures RowMultiset(row[j := row[j] + [e]]) == RowMultiset(row) + multiset{e}
    decreases |row|
  {
    var row' := row[j := row[j] + [e]];
    var n := |row|;
    assert row'[..n - 1] == if j == n - 1 then row[..n - 1] else row[..n - 1][j := row[j] + [e]];
    if j < n - 1 {
      RowAppend(row[..n - 1], j, e);
    }
  }

  /** Appending an entry to one bin adds it to the contents of the bins. */
  lemma {:induction false} BinsAppend(bins: Bins, i: int, j: int, e: EntryValue)
    requires 0 <= i < |bins| && 0 <= j < |bins[i]|
    ensures BinsMultiset(bins[i := bins[i][j := bins[i][j] + [e]]]) == BinsMultiset(bins) + multiset{e}
    decreases |bins|
  {
    var n := |bins|;
    var bins' := bins[i := bins[i][j := bins[i][j] + [e]]];
    if i == n - 1 {
      assert bins'[..n - 1] == bins[..n - 1];
      RowAppend(bins[i], j, e);
      assert BinsMultiset(bins') == BinsMultiset(bins'[..n - 1]) + RowMultiset(bins'[n - 1]);
    } else {
      var init := bins[..n - 1];
      assert bins'[..n - 1] == init[i := init[i][j := init[i][j] + [e]]];
      BinsAppend(init, i, j, e);
      assert BinsMultiset(bins') == BinsMultiset(bins'[..n - 1]) + RowMultiset(bins'[n - 1]);
    }
  }

  /** One more row of empty bins keeps the bins empty and adds its length to the number of bins. */
  lemma EmptyRowAppended(bins: Bins, row: seq<seq<EntryValue>>)
    requires AllEmpty(bins) && forall j :: 0 <= j < |row| ==> row[j] == []
    ensures AllEmpty(bins + [row]) && TotalBins(bins + [row]) == TotalBins(bins) + |row|
  {
    assert (bins + [row])[..|bins|] == bins;
  }

  /** Empty bins hold nothing, every entry in them is trivially placed, and the largest is empty. */
  lemma {:induction false} EmptyBins(bins: Bins, counts: seq<int>)
    requires PositiveCounts(counts) && AllEmpty(bins)
    ensures BinsMultiset(bins) == multiset{} && Placed(bins, counts) && MaxSize(bins) == 0
    decreases |bins|
  {
    if |bins| > 0 {
      var row := bins[|bins| - 1];
      EmptyRow(row, counts, |bins| - 1);
      EmptyBins(bins[..|bins| - 1], counts);
    }
  }

  lemma {:induction false} EmptyRow(row: seq<seq<EntryValue>>, counts: seq<int>, i: int)
    requires PositiveCounts(counts)
    requires forall j :: 0 <= j < |row| ==> row[j] == []
    ensures RowMultiset(row) == multiset{} && RowPlaced(row, counts, i) && RowMax(row) == 0
    decreases |row|
  {
    if |row| > 0 {
      EmptyRow(row[..|row| - 1], counts, i);
    }
  }

  /** An entry is among the contents exactly when some bin holds it. */
  lemma {:induction false} InBinsMultiset(bins: Bins, e: EntryValue)
    ensures e in BinsMultiset(bins) <==> exists i, j :: 0 <= i < |bins| && 0 <= j < |bins[i]| && e in bins[i][j]
    decreases |bins|
  {
    if |bins| > 0 {
      var n := |bins|;
      InBinsMultiset(bins[..n - 1], e);
      InRowMultiset(bins[n - 1], e);
      if e in RowMultiset(bins[n - 1]) {
        var j :| 0 <= j < |bins[n - 1]| && e in bins[n - 1][j];
        assert 0 <= n - 1 < |bins| && 0 <= j < |bins[n - 1]| && e in bins[n - 1][j];
      }
      if e in BinsMultiset(bins[..n - 1]) {
        var i, j :| 0 <= i < n - 1 && 0 <= j < |bins[..n - 1][i]| && e in bins[..n - 1][i][j];
        assert 0 <= i < |bins| && 0 <= j < |bins[i]| && e in bins[i][j];
      }
    }
  }

  lemma {:induction false} InRowMultiset(row: seq<seq<EntryValue>>, e: EntryValue)
    ensures e in RowMultiset(row) <==> exists j :: 0 <= j < |row| && e in row[j]
    decreases |row|
  {
    if |row| > 0 {
      var n := |row|;
      InRowMultiset(row[..n - 1], e);
      if e in RowMultiset(row[..n - 1]) {
        var j :| 0 <= j < n - 1 && e in row[..n - 1][j];
        assert e in row[j];
      }
    }
  }

  /** The entry has an id and its coordinates give bin (i, j). */
  predicate InPlace(e: EntryValue, counts: seq<int>, i: int, j: int)
    requires PositiveCounts(counts)
  {
    |e.ids| >= 1 && BinOf(e, counts) == Some((i, j))
  }

  predicate BinPlaced(bin: seq<EntryValue>, counts: seq<int>, i: int, j: int)
    requires PositiveCounts(counts)
  {
    forall e :: e in bin ==> InPlace(e, counts, i, j)
  }

  /** Every entry of row i sits in the bin its coordinates give. */
  predicate RowPlaced(row: seq<seq<EntryValue>>, counts: seq<int>, i: int)
    requires PositiveCounts(counts)
  {
    |row| > 0 ==> RowPlaced(row[..|row| - 1], counts, i) && BinPlaced(row[|row| - 1], counts, i, |row| - 1)
  }

  /** Every entry in the bins has an id and sits in the bin its coordinates give. */
  predicate Placed(bins: Bins, counts: seq<int>)
    requires PositiveCounts(counts)
  {
    |bins| > 0 ==> Placed(bins[..|bins| - 1], counts) && RowPlaced(bins[|bins| - 1], counts, |bins| - 1)
  }

  lemma {:induction false} RowPlacedAt(row: seq<seq<EntryValue>>, counts: seq<int>, i: int, j: int)
    requires PositiveCounts(counts) && RowPlaced(row, counts, i) && 0 <= j < |row|
    ensures BinPlaced(row[j], counts, i, j)
    decreases |row|
  {
    if j < |row| - 1 {
      RowPlacedAt(row[..|row| - 1], counts, i, j);
    }
  }

  lemma {:induction false} PlacedAt(bins: Bins, counts: seq<int>, i: int)
    requires PositiveCounts(counts) && Placed(bins, counts) && 0 <= i < |bins|
    ensures RowPlaced(bins[i], counts, i)
    decreases |bins|
  {
    if i < |bins| - 1 {
      PlacedAt(bins[..|bins| - 1], counts, i);
    }
  }

  /** In placed bins, every entry has an id and its coordinates give the bin that holds it. */
  lemma PlacedEntry(bins: Bins, counts: seq<int>, i: int, j: int, e: EntryValue)
    requires PositiveCounts(counts) && Placed(bins, counts)
    requires 0 <= i < |bins| && 0 <= j < |bins[i]| && e in bins[i][j]
    ensures |e.ids| >= 1 && BinOf(e, counts) == Some((i, j))
  {
    PlacedAt(bins, counts, i);
    RowPlacedAt(bins[i], counts, i, j);
  }

  lemma {:induction false} RowPlacedUpdate(row: seq<seq<EntryValue>>, counts: seq<int>, i: int, j: int,
                                           bin: seq<EntryValue>)
    requires PositiveCounts(counts) && RowPlaced(row, counts, i) && 0 <= j < |row| && BinPlaced(bin, counts, i, j)
    ensures RowPlaced(row[j := bin], counts, i)
    decreases |row|
  {
    var n := |row|;
    if j == n - 1 {
      assert row[j := bin][..n - 1] == row[..n - 1];
    } else {
      assert row[j := bin][..n - 1] == row[..n - 1][j := bin];
      RowPlacedUpdate(row[..n - 1], counts, i, j, bin);
    }
  }

  lemma {:induction false} PlacedUpdate(bins: Bins, counts: seq<int>, i: int, row: seq<seq<EntryValue>>)
    requires PositiveCounts(counts) && Placed(bins, counts) && 0 <= i < |bins| && RowPlaced(row, counts, i)
    ensures Placed(bins[i := row], counts)
    decreases |bins|
  {
    var n := |bins|;
    if i == n - 1 {
      assert bins[i := row][..n - 1] == bins[..n - 1];
    } else {
      assert bins[i := row][..n - 1] == bins[..n - 1][i := row];
      PlacedUpdate(bins[..n - 1], counts, i, row);
    }
  }

  //----- Sorting by time -----

  predicate SortedByTime(s: seq<EntryValue>)
  {
    forall a, b :: 0 <= a < b < |s| ==> s[a].time <= s[b].time
  }

  /** Inserts after every element no later than e. */
  function Insert(e: EntryValue, s: seq<EntryValue>): (r: seq<EntryValue>)
    requires SortedByTime(s)
    ensures SortedByTime(r) && multiset(r) == multiset(s) + multiset{e} && |r| == |s| + 1
    ensures |s| > 0 ==> r[0] == e || r[0] == s[0]
  {
    if |s| == 0 then [e]
    else if s[0].time > e.time then [e] + s
    else
      var rest := Insert(e, s[1..]);
      assert multiset(s) == multiset{s[0]} + multiset(s[1..]) by {
        assert s == [s[0]] + s[1..];
      }
      [s[0]] + rest
  }

  /**
   * The bin in order of nondecreasing time, as the library sort gives it
   * (the sort itself is library code; this is an insertion sort, which is
   * stable like it).
   */
  function SortByTime(s: seq<EntryValue>): (r: seq<EntryValue>)
    ensures SortedByTime(r) && multiset(r) == multiset(s) && |r| == |s|
  {
    if |s| == 0 then []
    else
      var init, last := s[..|s| - 1], s[|s| - 1];
      assert multiset(s) == multiset(init) + multiset{last} by {
        assert s == init + [last];
      }
      Insert(last, SortByTime(init))
  }

  //----- Histogram -----

  /** The number of bins of the row holding exactly size entries. */
  function RowCount(row: seq<seq<EntryValue>>, size: int): nat
  {
    if |row| == 0 then 0 else RowCount(row[..|row| - 1], size) + (if |row[|row| - 1]| == size then 1 else 0)
  }

  /** The number of bins holding exactly size entries. */
  function CountOfSize(bins: Bins, size: int): nat
  {
    if |bins| == 0 then 0 else CountOfSize(bins[..|bins| - 1], size) + RowCount(bins[|bins| - 1], size)
  }

  /** The number of bins. */
  function TotalBins(bins: Bins): nat
  {
    if |bins| == 0 then 0 else TotalBins(bins[..|bins| - 1]) + |bins[|bins| - 1]|
  }

  function Sum(a: seq<int>): int
  {
    if |a| == 0 then 0 else Sum(a[..|a| - 1]) + a[|a| - 1]
  }

  /** Adding one to one slot adds one to the sum. */
  lemma {:induction false} SumIncrement(a: seq<int>, k: int)
    requires 0 <= k < |a|
    ensures Sum(a[k := a[k] + 1]) == Sum(a) + 1
    decreases |a|
  {
    var n := |a|;
    if k < n - 1 {
      assert a[k := a[k] + 1][..n - 1] == a[..n - 1][k := a[k] + 1];
      SumIncrement(a[..n - 1], k);
    } else {
      assert a[k := a[k] + 1][..n - 1] == a[..n - 1];
    }
  }

  lemma {:induction false} SumZero(a: seq<int>)
    requires forall k :: 0 <= k < |a| ==> a[k] == 0
    ensures Sum(a) == 0
    decreases |a|
  {
    if |a| > 0 {
      SumZero(a[..|a| - 1]);
    }
  }

  //----- Queries -----

  /**
   * The region to search: its latitude and longitude bounds, and whether
   * it contains a point (region geometry is not part of this model).
   */
  datatype SearchRegion = SearchRegion(minLat: real, maxLat: real, minLon: real, maxLon: real,
                                       contains: (real, real) -> bool)

  /** The filters of a list query other than the time window, and the form of the returned ruptures. */
  datatype Filter = Filter(excludeId: Option<string>, minDepth: real, maxDepth: real, region: SearchRegion,
                           minMag: real, wrapLon: bool, extendedInfo: bool)

  /** The entry passes the magnitude, region, depth and excluded-id filters. */
  predicate Passes(e: EntryValue, f: Filter)
  {
    e.mag >= f.minMag && f.region.contains(e.lat, e.lon) && e.depth >= f.minDepth && e.depth <= f.maxDepth &&
    |e.ids| >= 1 && !(f.excludeId == Some(e.ids[0]))
  }

  /** The entry lies in the time window and passes the filters. */
  predicate Selected(e: EntryValue, start: int, end: int, f: Filter)
  {
    start <= e.time <= end && Passes(e, f)
  }

  /** The ruptures of the selected entries of a bin, in bin order. */
  function Matches(bin: seq<EntryValue>, start: int, end: int, f: Filter): seq<ObsEqkRupture>
  {
    if |bin| == 0 then []
    else
      var e := bin[|bin| - 1];
      Matches(bin[..|bin| - 1], start, end, f) +
      (if Selected(e, start, end, f) then [ToRupture(e, f.wrapLon, f.extendedInfo)] else [])
  }

  /** The longitude bins of a row the query scans: from the region's minimum, at most one full turn. */
  function LonRange(n: int, region: SearchRegion): (r: (int, int))
    requires n >= 1
    ensures r.1 <= r.0 + n - 1
  {
    var lo := LonBin(ScaledLon(region.minLon), n);
    var hi := LonBin(ScaledLon(region.maxLon), n);
    (lo, if hi > lo + n - 1 then lo + n - 1 else hi)
  }

  /** The matches of the row's bins lo..hi (taken modulo the row length), in scan order. */
  function ScanRow(row: seq<seq<EntryValue>>, lo: int, hi: int, start: int, end: int, f: Filter): seq<ObsEqkRupture>
    requires |row| >= 1 && 0 <= lo
    decreases hi - lo
  {
    if hi < lo then [] else ScanRow(row, lo, hi - 1, start, end, f) + Matches(row[hi % |row|], start, end, f)
  }

  /** The matches of latitude bins lo..hi, in scan order. */
  function ScanLat(bins: Bins, lo: int, hi: int, start: int, end: int, f: Filter): seq<ObsEqkRupture>
    requires 0 <= lo && hi < |bins| && PositiveCounts(Shape(bins))
    requires -360.0 <= f.region.minLon
    decreases hi - lo
  {
    if hi < lo then []
    else
      var range := LonRange(|bins[hi]|, f.region);
      ScanLat(bins, lo, hi - 1, start, end, f) + ScanRow(bins[hi], range.0, range.1, start, end, f)
  }

  /** The documented ranges of a search region's bounds. */
  predicate RegionInRange(region: SearchRegion)
  {
    -90.0 <= region.minLat <= 90.0 && -90.0 <= region.maxLat <= 90.0 &&
    -360.0 <= region.minLon <= 360.0 && -360.0 <= region.maxLon <= 360.0
  }

  /** What a list query returns from the bins, bin by bin, each bin filtered in full. */
  function QueryResult(bins: Bins, start: int, end: int, f: Filter): seq<ObsEqkRupture>
    requires |bins| >= 1 && PositiveCounts(Shape(bins)) && RegionInRange(f.region)
  {
    ScanLat(bins, LatBin(ScaledLat(f.region.minLat), |bins|), LatBin(ScaledLat(f.region.maxLat), |bins|),
            start, end, f)
  }

  /** A multiple of a positive n is at most 0, or at least n. */
  lemma MulSign(n: int, q: int)
    requires n >= 1
    ensures q <= 0 ==> n * q <= 0
    ensures q >= 1 ==> n * q >= n
  {
  }

  /** Two numbers less than n apart have different remainders modulo n. */
  lemma ModDistinct(n: int, a: int, b: int)
    requires n >= 1 && a < b < a + n
    ensures a % n != b % n
  {
    var qa, qb := a / n, b / n;
    var q := qb - qa;
    assert n * qb - n * qa == n * q;
    MulSign(n, q);
  }

  /** The capped longitude range visits each bin of the row at most once. */
  lemma NoBinScannedTwice(n: int, region: SearchRegion, a: int, b: int)
    requires n >= 1
    requires LonRange(n, region).0 <= a < b <= LonRange(n, region).1
    ensures a % n != b % n
  {
    ModDistinct(n, a, b);
  }

  /** Every match of a bin is the rupture of a selected entry of the bin. */
  lemma {:induction false} MatchesSound(bin: seq<EntryValue>, start: int, end: int, f: Filter, x: ObsEqkRupture)
    requires x in Matches(bin, start, end, f)
    ensures exists e :: e in bin && Selected(e, start, end, f) && x == ToRupture(e, f.wrapLon, f.extendedInfo)
    decreases |bin|
  {
    var init := bin[..|bin| - 1];
    var e := bin[|bin| - 1];
    if x in Matches(init, start, end, f) {
      MatchesSound(init, start, end, f, x);
      var y :| y in init && Selected(y, start, end, f) && x == ToRupture(y, f.wrapLon, f.extendedInfo);
      assert y in bin;
    } else {
      assert e in bin;
    }
  }

  /** Every selected entry of a bin has its rupture among the bin's matches. */
  lemma {:induction false} MatchesComplete(bin: seq<EntryValue>, start: int, end: int, f: Filter, e: EntryValue)
    requires e in bin && Selected(e, start, end, f)
    ensures ToRupture(e, f.wrapLon, f.extendedInfo) in Matches(bin, start, end, f)
    decreases |bin|
  {
    var init := bin[..|bin| - 1];
    if e != bin[|bin| - 1] {
      assert e in init;
      MatchesComplete(init, start, end, f, e);
    }
  }

  /** The matches of bin pieces concatenate. */
  lemma {:induction false} MatchesAppend(a: seq<EntryValue>, b: seq<EntryValue>, start: int, end: int, f: Filter)
    ensures Matches(a + b, start, end, f) == Matches(a, start, end, f) + Matches(b, start, end, f)
    decreases |b|
  {
    if |b| > 0 {
      assert (a + b)[..|a + b| - 1] == a + b[..|b| - 1];
      assert (a + b)[|a + b| - 1] == b[|b| - 1];
      MatchesAppend(a, b[..|b| - 1], start, end, f);
      var e := b[|b| - 1];
      var tail := if Selected(e, start, end, f) then [ToRupture(e, f.wrapLon, f.extendedInfo)] else [];
      assert Matches(a + b, start, end, f) == Matches(a + b[..|b| - 1], start, end, f) + tail;
      assert Matches(b, start, end, f) == Matches(b[..|b| - 1], start, end, f) + tail;
    } else {
      assert a + b == a;
    }
  }

  /** The matches of a bin's first k + 1 entries: those of its first k, then entry k's when it is selected. */
  lemma MatchesStep(bin: seq<EntryValue>, k: int, start: int, end: int, f: Filter)
    requires 0 <= k < |bin|
    ensures Matches(bin[..k + 1], start, end, f) ==
            Matches(bin[..k], start, end, f) +
            (if Selected(bin[k], start, end, f) then [ToRupture(bin[k], f.wrapLon, f.extendedInfo)] else [])
  {
    assert bin[..k + 1][..k] == bin[..k];
  }

  /** In a time-sorted bin, nothing from the first entry after the window on matches. */
  lemma MatchesStop(bin: seq<EntryValue>, k: int, start: int, end: int, f: Filter)
    requires SortedByTime(bin) && 0 <= k < |bin| && bin[k].time > end
    ensures Matches(bin, start, end, f) == Matches(bin[..k], start, end, f)
  {
    var tail := bin[k..];
    assert forall t :: 0 <= t < |tail| ==> tail[t] == bin[k + t];
    MatchesOutside(tail, start, end, f);
    MatchesAppend(bin[..k], tail, start, end, f);
    assert bin[..k] + tail == bin;
  }

  /** A piece with no entry in the window has no matches. */
  lemma {:induction false} MatchesOutside(s: seq<EntryValue>, start: int, end: int, f: Filter)
    requires forall k :: 0 <= k < |s| ==> s[k].time < start || s[k].time > end
    ensures Matches(s, start, end, f) == []
    decreases |s|
  {
    if |s| > 0 {
      MatchesOutside(s[..|s| - 1], start, end, f);
    }
  }

  /** Every rupture a row scan returns comes from a selected entry of one of the row's bins. */
  lemma {:induction false} ScanRowSound(row: seq<seq<EntryValue>>, lo: int, hi: int, start: int, end: int, f: Filter,
                                        x: ObsEqkRupture)
    requires |row| >= 1 && 0 <= lo
    requires x in ScanRow(row, lo, hi, start, end, f)
    ensures exists j, e :: 0 <= j < |row| && e in row[j] && Selected(e, start, end, f) &&
                          x == ToRupture(e, f.wrapLon, f.extendedInfo)
    decreases hi - lo
  {
    if x in ScanRow(row, lo, hi - 1, start, end, f) {
      ScanRowSound(row, lo, hi - 1, start, end, f, x);
    } else {
      var j := hi % |row|;
      MatchesSound(row[j], start, end, f, x);
    }
  }

  /**
   * Every rupture a list query returns is the rupture of an entry held in
   * the bins that lies in the time window and passes every filter.
   */
  lemma {:induction false} ScanLatSound(bins: Bins, lo: int, hi: int, start: int, end: int,
                                        f: Filter, x: ObsEqkRupture)
    requires 0 <= lo && hi < |bins| && PositiveCounts(Shape(bins)) && -360.0 <= f.region.minLon
    requires x in ScanLat(bins, lo, hi, start, end, f)
    ensures exists i, j, e :: 0 <= i < |bins| && 0 <= j < |bins[i]| && e in bins[i][j] &&
                             Selected(e, start, end, f) && x == ToRupture(e, f.wrapLon, f.extendedInfo)
    decreases hi - lo
  {
    if x in ScanLat(bins, lo, hi - 1, start, end, f) {
      ScanLatSound(bins, lo, hi - 1, start, end, f, x);
    } else {
      var range := LonRange(|bins[hi]|, f.region);
      ScanRowSound(bins[hi], range.0, range.1, start, end, f, x);
      var j, e :| 0 <= j < |bins[hi]| && e in bins[hi][j] && Selected(e, start, end, f) &&
                  x == ToRupture(e, f.wrapLon, f.extendedInfo);
      assert 0 <= hi < |bins|;
    }
  }

  /**
   * Every rupture a list query returns is the rupture of an entry held in
   * the bins that lies in the time window and passes every filter.
   */
  lemma QuerySound(bins: Bins, entries: seq<EntryValue>, start: int, end: int, f: Filter, x: ObsEqkRupture)
    requires |bins| >= 1 && PositiveCounts(Shape(bins)) && RegionInRange(f.region)
    requires BinsMultiset(bins) == multiset(entries)
    requires x in QueryResult(bins, start, end, f)
    ensures exists e :: e in entries && Selected(e, start, end, f) && x == ToRupture(e, f.wrapLon, f.extendedInfo)
  {
    ScanLatSound(bins, LatBin(ScaledLat(f.region.minLat), |bins|), LatBin(ScaledLat(f.region.maxLat), |bins|),
                 start, end, f, x);
    var i, j, e :| 0 <= i < |bins| && 0 <= j < |bins[i]| && e in bins[i][j] &&
                   Selected(e, start, end, f) && x == ToRupture(e, f.wrapLon, f.extendedInfo);
    InBinsMultiset(bins, e);
    assert e in multiset(entries);
  }

  //----- Catalog files -----

  /** The lines of the entries, one after another. */
  function Lines(vs: seq<EntryValue>): (ts: seq<LineToken>)
    ensures |vs| > 0 ==> |ts| >= 9
  {
    if |vs| == 0 then [] else Lines(vs[..|vs| - 1]) + LineOf(vs[|vs| - 1])
  }

  /** Two pieces standing one after the other stand together. */
  lemma LineAtAppend(tokens: seq<LineToken>, p: int, a: seq<LineToken>, b: seq<LineToken>)
    requires LineAt(tokens, p, a) && LineAt(tokens, p + |a|, b)
    ensures LineAt(tokens, p, a + b)
  {
    assert tokens[p..p + |a + b|] == tokens[p..p + |a|] + tokens[p + |a|..p + |a| + |b|];
  }

  /** Appending to bin (i, j) an entry whose coordinates give that bin keeps every entry in place. */
  lemma PlacedAppend(bins: Bins, counts: seq<int>, i: int, j: int, v: EntryValue)
    requires PositiveCounts(counts) && Placed(bins, counts)
    requires 0 <= i < |bins| && 0 <= j < |bins[i]| && InPlace(v, counts, i, j)
    ensures Placed(bins[i := bins[i][j := bins[i][j] + [v]]], counts)
  {
    var bin := bins[i][j] + [v];
    PlacedAt(bins, counts, i);
    RowPlacedAt(bins[i], counts, i, j);
    assert BinPlaced(bin, counts, i, j) by {
      forall e | e in bin
        ensures InPlace(e, counts, i, j)
      {
        assert e in bins[i][j] || e == v;
      }
    }
    RowPlacedUpdate(bins[i], counts, i, j, bin);
    PlacedUpdate(bins, counts, i, bins[i][j := bin]);
  }

  /** The number of bins depends only on the shape. */
  lemma {:induction false} TotalBinsOfShape(a: Bins, b: Bins)
    requires Shape(a) == Shape(b)
    ensures TotalBins(a) == TotalBins(b)
    decreases |a|
  {
    if |a| > 0 {
      var n := |a|;
      var a', b' := a[..n - 1], b[..n - 1];
      assert Shape(a') == Shape(b') by {
        assert |Shape(a)| == |a| && |Shape(b)| == |b|;
        forall i | 0 <= i < |a'|
          ensures |a'[i]| == |b'[i]|
        {
          assert Shape(a)[i] == Shape(b)[i];
        }
      }
      assert Shape(a)[n - 1] == Shape(b)[n - 1];
      TotalBinsOfShape(a', b');
    }
  }

  /** Sorting the bins of a placed row keeps it placed. */
  lemma {:induction false} SortedRowPlaced(sorted: seq<seq<EntryValue>>, row: seq<seq<EntryValue>>,
                                           counts: seq<int>, i: int)
    requires PositiveCounts(counts) && SortedRow(sorted, row) && RowPlaced(row, counts, i)
    ensures RowPlaced(sorted, counts, i)
    decreases |row|
  {
    if |row| > 0 {
      var n := |row|;
      SortedRowPlaced(sorted[..n - 1], row[..n - 1], counts, i);
      var last, k := sorted[n - 1], n - 1;
      forall e | e in last
        ensures InPlace(e, counts, i, k)
      {
        assert e in multiset(last);
      }
    }
  }

  /** Sorting every bin of placed bins keeps them placed. */
  lemma {:induction false} SortedPlaced(bins: Bins, varBins: Bins, counts: seq<int>)
    requires PositiveCounts(counts) && SortedCopy(bins, varBins) && Placed(varBins, counts)
    ensures Placed(bins, counts)
    decreases |varBins|
  {
    if |varBins| > 0 {
      var n := |varBins|;
      SortedPlaced(bins[..n - 1], varBins[..n - 1], counts);
      SortedRowPlaced(bins[n - 1], varBins[n - 1], counts, n - 1);
    }
  }

  /** Sorting the bins of a row keeps its contents and the sizes of its bins. */
  lemma {:induction false} SortedRowSame(sorted: seq<seq<EntryValue>>, row: seq<seq<EntryValue>>, s: int)
    requires SortedRow(sorted, row)
    ensures RowMultiset(sorted) == RowMultiset(row) && RowMax(sorted) == RowMax(row) &&
            RowCount(sorted, s) == RowCount(row, s)
    decreases |row|
  {
    if |row| > 0 {
      var n := |row|;
      SortedRowSame(sorted[..n - 1], row[..n - 1], s);
      assert |multiset(sorted[n - 1])| == |multiset(row[n - 1])|;
    }
  }

  /** Sorting every bin keeps the contents, the number of bins and the counts of each size. */
  lemma {:induction false} SortedCopySame(bins: Bins, varBins: Bins, s: int)
    requires SortedCopy(bins, varBins)
    ensures BinsMultiset(bins) == BinsMultiset(varBins) && MaxSize(bins) == MaxSize(varBins) &&
            TotalBins(bins) == TotalBins(varBins) && CountOfSize(bins, s) == CountOfSize(varBins, s)
    decreases |varBins|
  {
    if |varBins| > 0 {
      var n := |varBins|;
      SortedCopySame(bins[..n - 1], varBins[..n - 1], s);
      SortedRowSame(bins[n - 1], varBins[n - 1], s);
    }
  }

  /** The size of the largest bin of the row, zero when it has none. */
  function RowMax(row: seq<seq<EntryValue>>): nat
  {
    if |row| == 0 then 0
    else
      var m := RowMax(row[..|row| - 1]);
      if m < |row[|row| - 1]| then |row[|row| - 1]| else m
  }

  /** The size of the largest bin, zero when there are none. */
  function MaxSize(bins: Bins): nat
  {
    if |bins| == 0 then 0
    else
      var m := MaxSize(bins[..|bins| - 1]);
      if m < RowMax(bins[|bins| - 1]) then RowMax(bins[|bins| - 1]) else m
  }

  lemma {:induction false} RowMaxAt(row: seq<seq<EntryValue>>, j: int)
    requires 0 <= j < |row|
    ensures |row[j]| <= RowMax(row)
    decreases |row|
  {
    if j < |row| - 1 {
      RowMaxAt(row[..|row| - 1], j);
    }
  }

  lemma {:induction false} MaxSizeAt(bins: Bins, i: int)
    requires 0 <= i < |bins|
    ensures RowMax(bins[i]) <= MaxSize(bins)
    decreases |bins|
  {
    if i < |bins| - 1 {
      MaxSizeAt(bins[..|bins| - 1], i);
    }
  }

  lemma {:induction false} RowMaxAttained(row: seq<seq<EntryValue>>)
    ensures RowMax(row) > 0 ==> exists j :: 0 <= j < |row| && |row[j]| == RowMax(row)
    decreases |row|
  {
    if |row| > 0 && RowMax(row) != |row[|row| - 1]| {
      RowMaxAttained(row[..|row| - 1]);
      if RowMax(row) > 0 {
        var j :| 0 <= j < |row| - 1 && |row[..|row| - 1][j]| == RowMax(row[..|row| - 1]);
        assert |row[j]| == RowMax(row);
      }
    }
  }

  lemma {:induction false} MaxSizeAttained(bins: Bins)
    ensures MaxSize(bins) > 0 ==> exists i :: 0 <= i < |bins| && RowMax(bins[i]) == MaxSize(bins)
    decreases |bins|
  {
    if |bins| > 0 && MaxSize(bins) != RowMax(bins[|bins| - 1]) {
      MaxSizeAttained(bins[..|bins| - 1]);
      if MaxSize(bins) > 0 {
        var i :| 0 <= i < |bins| - 1 && RowMax(bins[..|bins| - 1][i]) == MaxSize(bins[..|bins| - 1]);
        assert RowMax(bins[i]) == MaxSize(bins);
      }
    }
  }

  /** The largest bin size bounds the size of every bin and, unless it is zero, is the size of some bin. */
  lemma MaxSizeIsLargest(bins: Bins)
    ensures forall i, j :: 0 <= i < |bins| && 0 <= j < |bins[i]| ==> |bins[i][j]| <= MaxSize(bins)
    ensures MaxSize(bins) > 0 ==> exists i, j :: 0 <= i < |bins| && 0 <= j < |bins[i]| && |bins[i][j]| == MaxSize(bins)
  {
    forall i, j | 0 <= i < |bins| && 0 <= j < |bins[i]|
      ensures |bins[i][j]| <= MaxSize(bins)
    {
      MaxSizeAt(bins, i);
      RowMaxAt(bins[i], j);
    }
    MaxSizeAttained(bins);
    if MaxSize(bins) > 0 {
      var i :| 0 <= i < |bins| && RowMax(bins[i]) == MaxSize(bins);
      RowMaxAttained(bins[i]);
      var j :| 0 <= j < |bins[i]| && |bins[i][j]| == RowMax(bins[i]);
      assert |bins[i][j]| == MaxSize(bins);
    }
  }

  lemma {:induction false} RowMaxUpdate(row: seq<seq<EntryValue>>, j: int, bin: seq<EntryValue>)
    requires 0 <= j < |row| && |bin| >= |row[j]|
    ensures RowMax(row[j := bin]) == MaxInt(RowMax(row), |bin|)
    decreases |row|
  {
    var n := |row|;
    if j == n - 1 {
      assert row[j := bin][..n - 1] == row[..n - 1];
    } else {
      assert row[j := bin][..n - 1] == row[..n - 1][j := bin];
      RowMaxUpdate(row[..n - 1], j, bin);
    }
  }

  lemma {:induction false} MaxSizeUpdate(bins: Bins, i: int, row: seq<seq<EntryValue>>)
    requires 0 <= i < |bins| && RowMax(row) >= RowMax(bins[i])
    ensures MaxSize(bins[i := row]) == MaxInt(MaxSize(bins), RowMax(row))
    decreases |bins|
  {
    var n := |bins|;
    if i == n - 1 {
      assert bins[i := row][..n - 1] == bins[..n - 1];
    } else {
      assert bins[i := row][..n - 1] == bins[..n - 1][i := row];
      MaxSizeUpdate(bins[..n - 1], i, row);
    }
  }

  /** Bins with entry v appended to bin (i, j); unchanged when there is no such bin. */
  function AppendAt(bins: Bins, i: int, j: int, v: EntryValue): Bins
  {
    if 0 <= i < |bins| && 0 <= j < |bins[i]| then bins[i := bins[i][j := bins[i][j] + [v]]] else bins
  }

  /**
   * The bins after appending each of es, in order, to the bin its
   * coordinates give for the numbers of longitude bins counts; None when
   * one of them has no bin.
   */
  function BinAll(counts: seq<int>, bins: Bins, es: seq<EntryValue>): Option<Bins>
    requires PositiveCounts(counts)
    decreases |es|
  {
    if |es| == 0 then Some(bins)
    else
      match BinAll(counts, bins, es[..|es| - 1])
      case None => None
      case Some(b) =>
        match BinOf(es[|es| - 1], counts)
        case None => None
        case Some(ij) => Some(AppendAt(b, ij.0, ij.1, es[|es| - 1]))
  }

  /** Every entry of es has at least one id. */
  predicate HaveIds(es: seq<EntryValue>)
  {
    |es| > 0 ==> HaveIds(es[..|es| - 1]) && |es[|es| - 1].ids| >= 1
  }

  lemma {:induction false} HaveIdsIn(es: seq<EntryValue>)
    requires HaveIds(es)
    ensures forall e :: e in es ==> |e.ids| >= 1
    decreases |es|
  {
    if |es| > 0 {
      HaveIdsIn(es[..|es| - 1]);
      assert es == es[..|es| - 1] + [es[|es| - 1]];
    }
  }

  /** Every bin is empty. */
  predicate AllEmpty(bins: Bins)
  {
    forall i, j :: 0 <= i < |bins| && 0 <= j < |bins[i]| ==> bins[i][j] == []
  }

  /** Binning keeps the shape of the bins. */
  lemma {:induction false} BinAllShape(counts: seq<int>, bins: Bins, es: seq<EntryValue>)
    requires PositiveCounts(counts) && BinAll(counts, bins, es).Some?
    ensures Shape(BinAll(counts, bins, es).value) == Shape(bins)
    decreases |es|
  {
    if |es| > 0 {
      BinAllShape(counts, bins, es[..|es| - 1]);
    }
  }

  /**
   * Binning entries that have ids into empty bins puts every entry in the
   * bin of its coordinates, and the bins then hold exactly those entries.
   */
  lemma {:induction false} BinAllPlaced(bins0: Bins, es: seq<EntryValue>)
    requires PositiveCounts(Shape(bins0)) && AllEmpty(bins0) && HaveIds(es)
    requires BinAll(Shape(bins0), bins0, es).Some?
    ensures Placed(BinAll(Shape(bins0), bins0, es).value, Shape(bins0))
    ensures BinsMultiset(BinAll(Shape(bins0), bins0, es).value) == multiset(es)
    decreases |es|
  {
    var counts := Shape(bins0);
    if |es| == 0 {
      EmptyBins(bins0, counts);
    } else {
      var init, e := es[..|es| - 1], es[|es| - 1];
      BinAllPlaced(bins0, init);
      var b := BinAll(counts, bins0, init).value;
      BinAllShape(counts, bins0, init);
      var ij := BinOf(e, counts).value;
      PlacedAppend(b, counts, ij.0, ij.1, e);
      BinsAppend(b, ij.0, ij.1, e);
      assert es == init + [e];
    }
  }

  /**
   * The state while reading the catalog file, after the entries kept so
   * far: the bins are bins0 with each kept entry appended to the bin of
   * its coordinates, the map and the statistics are those of the kept
   * entries, the largest bin size is known, and every kept entry has an id.
   */
  ghost predicate ReadSoFar(bins0: Bins, kept: seq<EntryValue>, bins: Bins, m: map<string, EntryValue>, stat: Stats,
                            mx: int)
    requires PositiveCounts(Shape(bins0))
  {
    BinAll(Shape(bins0), bins0, kept) == Some(bins) && Shape(bins) == Shape(bins0) &&
    m == MapOf(kept) && stat == StatsOf(kept) && mx == MaxSize(bins) && HaveIds(kept)
  }

  /** An entry is kept exactly when none of its ids is listed by an entry kept before it. */
  lemma DedupStep(parsed: seq<EntryValue>, v: EntryValue)
    ensures Dedup(parsed + [v]) == if FreshIds(v, MapOf(Dedup(parsed))) then Dedup(parsed) + [v] else Dedup(parsed)
  {
    assert (parsed + [v])[..|parsed|] == parsed;
  }

  /** The tokens from p0 up to pos are the lines of the parsed entries. */
  ghost predicate Consumed(tokens: seq<LineToken>, p0: int, pos: int, parsed: seq<EntryValue>)
  {
    LineAt(tokens, p0, Lines(parsed)) && pos == p0 + |Lines(parsed)|
  }

  lemma ConsumedStep(tokens: seq<LineToken>, p0: int, p: int, pos: int, parsed: seq<EntryValue>, v: EntryValue)
    requires Consumed(tokens, p0, p, parsed)
    requires LineAt(tokens, p, LineOf(v)) && pos == p + |LineOf(v)|
    ensures Consumed(tokens, p0, pos, parsed + [v])
  {
    assert (parsed + [v])[..|parsed|] == parsed;
    LineAtAppend(tokens, p0, Lines(parsed), LineOf(v));
  }


  /** Appending an entry to bin (i, j) makes the largest bin size the larger of the old one and the new size of that bin. */
  lemma MaxSizeAppend(bins: Bins, i: int, j: int, v: EntryValue)
    requires 0 <= i < |bins| && 0 <= j < |bins[i]|
    ensures MaxSize(bins[i := bins[i][j := bins[i][j] + [v]]]) == MaxInt(MaxSize(bins), |bins[i][j]| + 1)
  {
    var row := bins[i][j := bins[i][j] + [v]];
    RowMaxUpdate(bins[i], j, bins[i][j] + [v]);
    MaxSizeAt(bins, i);
    MaxSizeUpdate(bins, i, row);
  }

  /**
   * The effect of adding entry v to bins, map m, statistics stat and
   * largest bin size mx, giving result r, map m', statistics stat' and
   * largest size mx': when one of its ids is already mapped nothing
   * changes; otherwise its ids are mapped, its values accumulated, and it
   * is appended to the bin of its coordinates, failing when it has none.
   */
  predicate Added(v: EntryValue, bins: Bins, m: map<string, EntryValue>, stat: Stats, mx: int,
                  r: Result<Bins, string>, m': map<string, EntryValue>, stat': Stats, mx': int)
    requires PositiveCounts(Shape(bins))
  {
    if !FreshIds(v, m) then r == Ok(bins) && m' == m && stat' == stat && mx' == mx
    else
      m' == m + IdMap(v.ids, v) && stat' == Accum(stat, v) &&
      match BinOf(v, Shape(bins))
      case None => r.Err?
      case Some(ij) =>
        r == Ok(AppendAt(bins, ij.0, ij.1, v)) && mx' == MaxInt(mx, |bins[ij.0][ij.1]| + 1)
  }

  /** Adding one parsed entry keeps the reading state; the entry is kept exactly when its ids are all new. */
  lemma LineStep(bins0: Bins, parsed: seq<EntryValue>, bins: Bins, m: map<string, EntryValue>, stat: Stats, mx: int,
                 v: EntryValue, r: Result<Bins, string>, m': map<string, EntryValue>, stat': Stats, mx': int)
    requires PositiveCounts(Shape(bins0)) && ReadSoFar(bins0, Dedup(parsed), bins, m, stat, mx) && |v.ids| >= 1
    requires Added(v, bins, m, stat, mx, r, m', stat', mx') && r.Ok?
    ensures ReadSoFar(bins0, Dedup(parsed + [v]), r.value, m', stat', mx')
  {
    DedupStep(parsed, v);
    var kept := Dedup(parsed);
    if FreshIds(v, m) {
      var ij := BinOf(v, Shape(bins)).value;
      KeptStep(bins0, kept, bins, m, stat, mx, v, ij);
      assert Dedup(parsed + [v]) == kept + [v];
    } else {
      assert Dedup(parsed + [v]) == kept && r.value == bins;
    }
  }

  /** Keeping an entry and appending it to the bin of its coordinates keeps the reading state. */
  lemma KeptStep(bins0: Bins, kept: seq<EntryValue>, bins: Bins, m: map<string, EntryValue>, stat: Stats, mx: int,
                 v: EntryValue, ij: (int, int))
    requires PositiveCounts(Shape(bins0)) && ReadSoFar(bins0, kept, bins, m, stat, mx) && |v.ids| >= 1
    requires BinOf(v, Shape(bins)) == Some(ij)
    ensures ReadSoFar(bins0, kept + [v], AppendAt(bins, ij.0, ij.1, v), m + IdMap(v.ids, v), Accum(stat, v),
                      MaxInt(mx, |bins[ij.0][ij.1]| + 1))
  {
    var es := kept + [v];
    assert es[..|kept|] == kept;
    MaxSizeAppend(bins, ij.0, ij.1, v);
  }

  /**
   * The state of a loaded catalog: every entry sits in the bin of its
   * coordinates and every bin is sorted by time; the bins and the map hold
   * exactly the accepted entries, which share no id; the statistics are
   * those of the accepted entries; the histogram counts the bins of each
   * size, up to the largest, and its counts add up to the number of bins.
   */
  ghost predicate LoadedState(bins: Bins, m: map<string, EntryValue>, entries: seq<EntryValue>, stat: Stats,
                              totalBins: int, maxBinSize: int, hist: seq<int>)
  {
    PositiveCounts(Shape(bins)) && Placed(bins, Shape(bins)) &&
    (forall i, j :: 0 <= i < |bins| && 0 <= j < |bins[i]| ==> SortedByTime(bins[i][j])) &&
    BinsMultiset(bins) == multiset(entries) &&
    (forall e :: e in entries ==> |e.ids| >= 1) &&
    DisjointIds(entries) && m == MapOf(entries) && stat == StatsOf(entries) &&
    totalBins == TotalBins(bins) && maxBinSize == MaxSize(bins) &&
    |hist| == maxBinSize + 1 && (forall s :: 0 <= s < |hist| ==> hist[s] == CountOfSize(bins, s)) &&
    Sum(hist) == totalBins
  }

  /** Each bin of the first row holds the entries of the same bin of the second, sorted by time. */
  predicate SortedRow(sorted: seq<seq<EntryValue>>, row: seq<seq<EntryValue>>)
  {
    |sorted| == |row| &&
    (|row| > 0 ==> SortedRow(sorted[..|sorted| - 1], row[..|row| - 1]) && SortedByTime(sorted[|sorted| - 1]) &&
                   multiset(sorted[|sorted| - 1]) == multiset(row[|row| - 1]))
  }

  lemma {:induction false} SortedRowAt(sorted: seq<seq<EntryValue>>, row: seq<seq<EntryValue>>, j: int)
    requires SortedRow(sorted, row) && 0 <= j < |row|
    ensures SortedByTime(sorted[j]) && multiset(sorted[j]) == multiset(row[j])
    decreases |row|
  {
    if j < |row| - 1 {
      SortedRowAt(sorted[..|sorted| - 1], row[..|row| - 1], j);
    }
  }

  /** Each bin of the first holds the entries of the same bin of the second, sorted by time. */
  predicate SortedCopy(bins: Bins, varBins: Bins)
  {
    |bins| == |varBins| &&
    (|varBins| > 0 ==> SortedCopy(bins[..|bins| - 1], varBins[..|varBins| - 1]) &&
                       SortedRow(bins[|bins| - 1], varBins[|varBins| - 1]))
  }

  lemma {:induction false} SortedCopyAt(bins: Bins, varBins: Bins, i: int)
    requires SortedCopy(bins, varBins) && 0 <= i < |varBins|
    ensures SortedRow(bins[i], varBins[i])
    decreases |varBins|
  {
    if i < |varBins| - 1 {
      SortedCopyAt(bins[..|bins| - 1], varBins[..|varBins| - 1], i);
    }
  }

  /** One more row of bins: its sorted copy, its bin sizes and its number of bins join those of the rows before it. */
  lemma PrefixStep(rows: Bins, varBins: Bins, k: int, row: seq<seq<EntryValue>>)
    requires 0 <= k < |varBins| && SortedCopy(rows, varBins[..k]) && SortedRow(row, varBins[k])
    ensures SortedCopy(rows + [row], varBins[..k + 1])
    ensures forall s :: CountOfSize(varBins[..k + 1], s) == CountOfSize(varBins[..k], s) + RowCount(varBins[k], s)
    ensures TotalBins(varBins[..k + 1]) == TotalBins(varBins[..k]) + |varBins[k]|
  {
    assert varBins[..k + 1][..k] == varBins[..k];
    assert (rows + [row])[..k] == rows;
  }

  /** One more bin of a row: its sorted copy joins those of the bins before it. */
  lemma SortedRowStep(sorted: seq<seq<EntryValue>>, row: seq<seq<EntryValue>>, k: int, bin: seq<EntryValue>)
    requires 0 <= k < |row| && SortedRow(sorted, row[..k])
    requires SortedByTime(bin) && multiset(bin) == multiset(row[k])
    ensures SortedRow(sorted + [bin], row[..k + 1])
  {
    assert row[..k + 1][..k] == row[..k];
    assert (sorted + [bin])[..k] == sorted;
  }

  /** Counting one more bin of a row in the histogram prev, which counts the bins before it on top of base. */
  lemma HistStep(base: seq<int>, prev: seq<int>, row: seq<seq<EntryValue>>, k: int)
    requires 0 <= k < |row| && |row[k]| < |prev| == |base|
    requires forall s :: 0 <= s < |prev| ==> prev[s] == base[s] + RowCount(row[..k], s)
    ensures forall s :: 0 <= s < |prev| ==>
              prev[|row[k]| := prev[|row[k]|] + 1][s] == base[s] + RowCount(row[..k + 1], s)
  {
    assert row[..k + 1][..k] == row[..k];
  }

  /** Sorting each bin of the binned entries and counting the bin sizes gives a loaded catalog. */
  lemma SortedBinsLoaded(bins0: Bins, entries: seq<EntryValue>, varBins: Bins, bins: Bins, m: map<string, EntryValue>,
                         stat: Stats, totalBins: int, maxBinSize: int, hist: seq<int>)
    requires PositiveCounts(Shape(bins0)) && AllEmpty(bins0)
    requires ReadSoFar(bins0, entries, varBins, m, stat, maxBinSize) && DisjointIds(entries)
    requires totalBins == TotalBins(bins0)
    requires |hist| == maxBinSize + 1 && (forall s :: 0 <= s < |hist| ==> hist[s] == CountOfSize(varBins, s))
    requires Sum(hist) == TotalBins(varBins)
    requires SortedCopy(bins, varBins)
    ensures LoadedState(bins, m, entries, stat, totalBins, maxBinSize, hist)
    ensures |bins| == |bins0| && forall i :: 0 <= i < |bins0| ==> |bins[i]| == |bins0[i]|
  {
    forall i | 0 <= i < |varBins|
      ensures |bins[i]| == |varBins[i]|
    {
      SortedCopyAt(bins, varBins, i);
    }
    forall i, j | 0 <= i < |varBins| && 0 <= j < |varBins[i]|
      ensures SortedByTime(bins[i][j])
    {
      SortedCopyAt(bins, varBins, i);
      SortedRowAt(bins[i], varBins[i], j);
    }
    BinAllPlaced(bins0, entries);
    HaveIdsIn(entries);
    assert Shape(bins) == Shape(varBins);
    TotalBinsOfShape(varBins, bins0);
    SortedPlaced(bins, varBins, Shape(bins0));
    SortedCopySame(bins, varBins, 0);
    forall s | 0 <= s < |hist|
      ensures hist[s] == CountOfSize(bins, s)
    {
      SortedCopySame(bins, varBins, s);
    }
  }
}

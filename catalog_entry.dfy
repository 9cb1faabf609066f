/**
 * One entry of the local earthquake catalog: a rupture reduced to the
 * fields the catalog keeps (network, code, ComCat id list, place, time,
 * magnitude, hypocentre), how it is set from a ComCat rupture and turned
 * back into one, how it is written as one line of the catalog file and read
 * back, and how its ids are registered in the catalog's id map.
 */
module CatalogEntry {
  import opened Wrappers
  import opened EqkRupture

  /** The deepest hypocentre an entry accepts, in kilometres. */
  const MAX_DEPTH: real := 700.0
  /** The place stored when the rupture has no description. */
  const UNKNOWN_PLACE := "Unknown"

  //----- ComCat ids -----

  /** The characters a regular-expression \s matches. */
  predicate IsSpace(c: char)
  {
    c == ' ' || c == '\t' || c == '\n' || c == '\U{0B}' || c == '\U{0C}' || c == '\r'
  }

  /** A valid ComCat id (and network, and code): one or more non-space characters. */
  predicate IsComcatId(s: string)
  {
    |s| > 0 && forall i :: 0 <= i < |s| ==> !IsSpace(s[i])
  }

  predicate AllComcatIds(ids: seq<string>)
  {
    forall i :: 0 <= i < |ids| ==> IsComcatId(ids[i])
  }

  /** The ids other than id, in their order. */
  function Without(ids: seq<string>, id: string): (r: seq<string>)
    ensures forall x :: x in r <==> x in ids && x != id
  {
    if |ids| == 0 then [] else (if ids[0] == id then [] else [ids[0]]) + Without(ids[1..], id)
  }

  /** Removing an id that is not listed changes nothing. */
  lemma {:induction false} WithoutAbsent(ids: seq<string>, id: string)
    requires id !in ids
    ensures Without(ids, id) == ids
  {
    if |ids| > 0 {
      WithoutAbsent(ids[1..], id);
    }
  }

  /**
   * The id list as ComCat's accessor builds it for an event: the event id
   * first, then every other listed id in order.
   */
  function IdsToList(ids: seq<string>, eventId: string): (r: seq<string>)
    ensures |r| >= 1 && r[0] == eventId && eventId !in r[1..]
    ensures forall x :: x in r <==> x == eventId || x in ids
  {
    [eventId] + Without(ids, eventId)
  }

  /** A list that already starts with the event id, and lists it once, is kept as it is. */
  lemma IdsToListKeeps(ids: seq<string>)
    requires |ids| >= 1 && ids[0] !in ids[1..]
    ensures IdsToList(ids, ids[0]) == ids
  {
    WithoutAbsent(ids[1..], ids[0]);
    assert ids == [ids[0]] + ids[1..];
  }

  /** With a valid event id, the accessor's list is valid exactly when the listed ids are. */
  lemma IdsToListValid(ids: seq<string>, eventId: string)
    requires IsComcatId(eventId)
    ensures AllComcatIds(IdsToList(ids, eventId)) <==> AllComcatIds(ids)
  {
    var r := IdsToList(ids, eventId);
    if AllComcatIds(r) {
      forall i | 0 <= i < |ids|
        ensures IsComcatId(ids[i])
      {
        assert ids[i] in r;
      }
    }
    if AllComcatIds(ids) {
      forall i | 0 <= i < |r|
        ensures IsComcatId(r[i])
      {
        assert r[i] in r;
      }
    }
  }

  //----- Entry values -----

  /** What an entry holds; the first id is the rupture's event id, listed once. */
  datatype EntryValue = EntryValue(network: string, code: string, ids: seq<string>, place: string,
                                   time: int, mag: real, lat: real, lon: real, depth: real)

  /** An entry as setting it from a rupture leaves it. */
  predicate WellFormed(v: EntryValue)
  {
    IsComcatId(v.network) && IsComcatId(v.code) && |v.ids| >= 1 && AllComcatIds(v.ids) && v.ids[0] !in v.ids[1..] &&
    v.place != "" && -90.0 <= v.lat <= 90.0 && -180.0 <= v.lon <= 180.0 && 0.0 <= v.depth <= MAX_DEPTH
  }

  /**
   * The entry a rupture sets, or why it is refused: an event id, network,
   * code or any listed id that is missing or not a single token, an empty
   * id list, or a depth beyond 700 km. The event id is moved to the front
   * of the id list. A missing place becomes "Unknown",
   * the latitude is clamped, the longitude brought into [-180, +180] and a
   * negative depth raised to zero.
   */
  function FromRupture(rup: ObsEqkRupture): (r: Result<EntryValue, string>)
    ensures r.Ok? <==> IsComcatId(rup.eventId) && rup.info.Some? && IsComcatId(rup.info.value.network) &&
                       IsComcatId(rup.info.value.code) && |rup.info.value.idList| >= 1 &&
                       AllComcatIds(rup.info.value.idList) && rup.depth <= MAX_DEPTH
    ensures r.Ok? ==> r.value.ids == IdsToList(rup.info.value.idList, rup.eventId) &&
                      r.value.ids[0] == rup.eventId && rup.eventId !in r.value.ids[1..] &&
                      r.value.time == rup.originTime &&
                      r.value.mag == rup.mag && r.value.place != "" &&
                      0.0 <= r.value.depth <= MAX_DEPTH && -90.0 <= r.value.lat <= 90.0
    ensures r.Ok? ==> r.value.network == rup.info.value.network && r.value.code == rup.info.value.code &&
                      r.value.place == (if rup.info.value.place == "" then UNKNOWN_PLACE else rup.info.value.place) &&
                      r.value.lat == ClampLat(rup.lat) && r.value.lon == NormalLon(rup.lon) &&
                      r.value.depth == (if rup.depth < 0.0 then 0.0 else rup.depth)
    ensures r.Ok? && rup.lon <= 540.0 ==> WellFormed(r.value)
  {
    var info := if rup.info.Some? then rup.info.value else ExtendedInfo("", [], "", "");
    if !IsComcatId(rup.eventId) then Err("Missing or invalid event id")
    else if !IsComcatId(info.network) then Err("Missing or invalid event network")
    else if !IsComcatId(info.code) then Err("Missing or invalid event code")
    else if |info.idList| == 0 then Err("No id list")
    else
      var ids := IdsToList(info.idList, rup.eventId);
      IdsToListValid(info.idList, rup.eventId);
      if !AllComcatIds(ids) then Err("Missing or invalid Comcat id")
      else if rup.depth > MAX_DEPTH then Err("Depth too large")
      else
        Ok(EntryValue(info.network, info.code, ids, if info.place == "" then UNKNOWN_PLACE else info.place,
                      rup.originTime, rup.mag, ClampLat(rup.lat), NormalLon(rup.lon),
                      if rup.depth < 0.0 then 0.0 else rup.depth))
  }

  /**
   * The rupture an entry stands for: its event id is the first listed id;
   * with wrapLon a negative longitude gains one turn, so longitudes lie in
   * [0, 360); with extendedInfo it carries place, id list, network and code.
   */
  function ToRupture(v: EntryValue, wrapLon: bool, extendedInfo: bool): (r: ObsEqkRupture)
    requires |v.ids| >= 1
    ensures r.eventId == v.ids[0] && r.originTime == v.time && r.mag == v.mag
    ensures r.lat == v.lat && r.depth == v.depth
    ensures !wrapLon ==> r.lon == v.lon
    ensures wrapLon ==> r.lon == (if v.lon < 0.0 then v.lon + 360.0 else v.lon)
    ensures wrapLon && -180.0 <= v.lon <= 180.0 ==> 0.0 <= r.lon < 360.0
    ensures r.info.Some? <==> extendedInfo
    ensures extendedInfo ==> r.info.value.idList == v.ids && r.info.value.place == v.place
  {
    var lon := if wrapLon && v.lon < 0.0 then v.lon + 360.0 else v.lon;
    ObsEqkRupture(v.ids[0], v.time, v.mag, v.lat, lon, v.depth,
                  if extendedInfo then Some(ExtendedInfo(v.place, v.ids, v.network, v.code)) else None)
  }

  /** Turning a well-formed entry into a rupture with extended information and back gives the entry. */
  lemma RuptureRoundTrip(v: EntryValue)
    requires WellFormed(v)
    ensures FromRupture(ToRupture(v, false, true)) == Ok(v)
  {
    assert IsComcatId(v.ids[0]);
    IdsToListKeeps(v.ids);
  }

  //----- The ComCat id list as text -----

  /** The ids separated by commas. */
  function Join(ids: seq<string>): string
  {
    if |ids| == 0 then "" else if |ids| == 1 then ids[0] else ids[0] + "," + Join(ids[1..])
  }

  /** The id list as ComCat writes it: comma-separated, with a comma at either end. */
  function IdListText(ids: seq<string>): (r: string)
    ensures |r| >= 2 && r[0] == ',' && r[|r| - 1] == ','
  {
    "," + Join(ids) + ","
  }

  /** t stands in s from position k on. */
  predicate InfixAt(t: string, s: string, k: int)
  {
    0 <= k && k + |t| <= |s| && s[k..k + |t|] == t
  }

  ghost predicate IsInfix(t: string, s: string)
  {
    exists k :: InfixAt(t, s, k)
  }

  /** Every id appears in the text delimited by commas, so it can be found by searching for ",id,". */
  lemma {:induction false} IdListTextHasEach(ids: seq<string>, i: int)
    requires 0 <= i < |ids|
    ensures IsInfix("," + ids[i] + ",", IdListText(ids))
    decreases |ids|
  {
    var t := "," + ids[i] + ",";
    var s := IdListText(ids);
    if |ids| == 1 {
      InfixHead(t, "");
      assert s == t + "";
    } else {
      var tail := Join(ids[1..]) + ",";
      var rest := IdListText(ids[1..]);
      if i == 0 {
        InfixHead(t, tail);
        assert s == t + tail;
      } else {
        IdListTextHasEach(ids[1..], i - 1);
        assert ids[1..][i - 1] == ids[i];
        var k :| InfixAt(t, rest, k);
        InfixShift(t, "," + ids[0], rest, k);
        assert s == "," + ids[0] + rest;
      }
    }
  }

  lemma InfixHead(t: string, rest: string)
    ensures InfixAt(t, t + rest, 0)
  {
    assert (t + rest)[0..|t|] == t;
  }

  lemma InfixShift(t: string, p: string, rest: string, k: int)
    requires InfixAt(t, rest, k)
    ensures InfixAt(t, p + rest, |p| + k)
  {
    assert (p + rest)[|p| + k..|p| + k + |t|] == rest[k..k + |t|];
  }

  //----- Catalog lines -----

  /**
   * The tokens of a catalog line. The place is written URL-encoded, so it is
   * one token; PlaceTok holds the decoded place, the encoding being left out.
   */
  datatype LineToken = Word(s: string) | LongTok(l: int) | DoubleTok(d: real) | IntTok(i: int) | PlaceTok(place: string)

  function Words(ids: seq<string>): (r: seq<LineToken>)
    ensures |r| == |ids| && forall k :: 0 <= k < |ids| ==> r[k] == Word(ids[k])
  {
    seq(|ids|, k requires 0 <= k < |ids| => Word(ids[k]))
  }

  /** The line an entry is written as: network, code, time, magnitude, hypocentre, id count, ids, place. */
  function LineOf(v: EntryValue): (r: seq<LineToken>)
    ensures |r| == 9 + |v.ids|
  {
    [Word(v.network), Word(v.code), LongTok(v.time), DoubleTok(v.mag), DoubleTok(v.lat), DoubleTok(v.lon),
     DoubleTok(v.depth), IntTok(|v.ids|)] + Words(v.ids) + [PlaceTok(v.place)]
  }

  /** The tokens ts stand in the stream from position pos on. */
  predicate LineAt(tokens: seq<LineToken>, pos: int, ts: seq<LineToken>)
  {
    0 <= pos && pos + |ts| <= |tokens| && tokens[pos..pos + |ts|] == ts
  }

  /** The line of v stands at p, token by token. */
  predicate LinePoints(tokens: seq<LineToken>, p: int, v: EntryValue)
  {
    HeadPoints(tokens, p, v) && p + 9 + |v.ids| <= |tokens| &&
    tokens[p + 7] == IntTok(|v.ids|) && WordsAt(tokens, p + 8, v.ids) &&
    tokens[p + 8 + |v.ids|] == PlaceTok(v.place)
  }

  /** A head and a tail standing one after the other make a line. */
  lemma JoinLine(tokens: seq<LineToken>, p: int, head: EntryValue, ids: seq<string>, place: string)
    requires HeadPoints(tokens, p, head) && p + 9 + |ids| <= |tokens|
    requires tokens[p + 7] == IntTok(|ids|) && WordsAt(tokens, p + 8, ids) && tokens[p + 8 + |ids|] == PlaceTok(place)
    ensures LineAt(tokens, p, LineOf(head.(ids := ids, place := place)))
  {
    PointsLineAt(tokens, p, head.(ids := ids, place := place));
  }

  /** The ids stand at q, one word each. */
  predicate WordsAt(tokens: seq<LineToken>, q: int, ids: seq<string>)
  {
    0 <= q && q + |ids| <= |tokens| && forall k :: 0 <= k < |ids| ==> tokens[q + k] == Word(ids[k])
  }

  /** The first seven tokens of the line of v stand at p. */
  predicate HeadPoints(tokens: seq<LineToken>, p: int, v: EntryValue)
  {
    0 <= p && p + 7 <= |tokens| &&
    tokens[p] == Word(v.network) && tokens[p + 1] == Word(v.code) && tokens[p + 2] == LongTok(v.time) &&
    tokens[p + 3] == DoubleTok(v.mag) && tokens[p + 4] == DoubleTok(v.lat) &&
    tokens[p + 5] == DoubleTok(v.lon) && tokens[p + 6] == DoubleTok(v.depth)
  }

  lemma LineAtIff(tokens: seq<LineToken>, p: int, v: EntryValue)
    ensures LineAt(tokens, p, LineOf(v)) <==> LinePoints(tokens, p, v)
  {
    if LineAt(tokens, p, LineOf(v)) {
      LineAtPoints(tokens, p, v);
    }
    if LinePoints(tokens, p, v) {
      PointsLineAt(tokens, p, v);
    }
  }

  /** The tokens of the line of v, one by one. */
  lemma LineOfTokens(v: EntryValue)
    ensures var line := LineOf(v);
            line[0] == Word(v.network) && line[1] == Word(v.code) && line[2] == LongTok(v.time) &&
            line[3] == DoubleTok(v.mag) && line[4] == DoubleTok(v.lat) && line[5] == DoubleTok(v.lon) &&
            line[6] == DoubleTok(v.depth) && line[7] == IntTok(|v.ids|) &&
            line[8 + |v.ids|] == PlaceTok(v.place) && forall k :: 0 <= k < |v.ids| ==> line[8 + k] == Word(v.ids[k])
  {
  }

  lemma LineAtPoints(tokens: seq<LineToken>, p: int, v: EntryValue)
    requires LineAt(tokens, p, LineOf(v))
    ensures LinePoints(tokens, p, v)
  {
    var line := LineOf(v);
    LineOfTokens(v);
    forall j | 0 <= j < |line|
      ensures tokens[p + j] == line[j]
    {
      assert tokens[p + j] == tokens[p..p + |line|][j];
    }
  }

  lemma PointsLineAt(tokens: seq<LineToken>, p: int, v: EntryValue)
    requires LinePoints(tokens, p, v)
    ensures LineAt(tokens, p, LineOf(v))
  {
    var line := LineOf(v);
    var n := |v.ids|;
    forall j | 0 <= j < |line|
      ensures tokens[p..p + |line|][j] == line[j]
    {
      if 8 <= j < 8 + n {
        assert tokens[p + 8 + (j - 8)] == Word(v.ids[j - 8]);
      }
    }
  }

  /** A scanner over the tokens of the catalog file (or of one line). */
  class LineScanner {
    const tokens: seq<LineToken>
    var pos: nat

    constructor (ts: seq<LineToken>)
      ensures tokens == ts && pos == 0
    {
      tokens := ts;
      pos := 0;
    }

    predicate HasNext()
      reads this
    {
      pos < |tokens|
    }

    /** The next token as a string; fails, consuming nothing, at the end or on a token of another kind. */
    method Next() returns (r: Result<string, string>)
      modifies this`pos
      ensures old(pos) < |tokens| && tokens[old(pos)].Word? ==> r == Ok(tokens[old(pos)].s) && pos == old(pos) + 1
      ensures !(old(pos) < |tokens| && tokens[old(pos)].Word?) ==> r.Err? && pos == old(pos)
    {
      if pos < |tokens| && tokens[pos].Word? {
        r := Ok(tokens[pos].s);
        pos := pos + 1;
      } else {
        r := Err("expected a token");
      }
    }

    method NextLong() returns (r: Result<int, string>)
      modifies this`pos
      ensures old(pos) < |tokens| && tokens[old(pos)].LongTok? ==> r == Ok(tokens[old(pos)].l) && pos == old(pos) + 1
      ensures !(old(pos) < |tokens| && tokens[old(pos)].LongTok?) ==> r.Err? && pos == old(pos)
    {
      if pos < |tokens| && tokens[pos].LongTok? {
        r := Ok(tokens[pos].l);
        pos := pos + 1;
      } else {
        r := Err("expected a long");
      }
    }

    method NextDouble() returns (r: Result<real, string>)
      modifies this`pos
      ensures old(pos) < |tokens| && tokens[old(pos)].DoubleTok? ==> r == Ok(tokens[old(pos)].d) && pos == old(pos) + 1
      ensures !(old(pos) < |tokens| && tokens[old(pos)].DoubleTok?) ==> r.Err? && pos == old(pos)
    {
      if pos < |tokens| && tokens[pos].DoubleTok? {
        r := Ok(tokens[pos].d);
        pos := pos + 1;
      } else {
        r := Err("expected a double");
      }
    }

    method NextInt() returns (r: Result<int, string>)
      modifies this`pos
      ensures old(pos) < |tokens| && tokens[old(pos)].IntTok? ==> r == Ok(tokens[old(pos)].i) && pos == old(pos) + 1
      ensures !(old(pos) < |tokens| && tokens[old(pos)].IntTok?) ==> r.Err? && pos == old(pos)
    {
      if pos < |tokens| && tokens[pos].IntTok? {
        r := Ok(tokens[pos].i);
        pos := pos + 1;
      } else {
        r := Err("expected an int");
      }
    }

    /** The next token, URL-decoded. */
    method NextPlace() returns (r: Result<string, string>)
      modifies this`pos
      ensures old(pos) < |tokens| && tokens[old(pos)].PlaceTok? ==> r == Ok(tokens[old(pos)].place) && pos == old(pos) + 1
      ensures !(old(pos) < |tokens| && tokens[old(pos)].PlaceTok?) ==> r.Err? && pos == old(pos)
    {
      if pos < |tokens| && tokens[pos].PlaceTok? {
        r := Ok(tokens[pos].place);
        pos := pos + 1;
      } else {
        r := Err("expected a place");
      }
    }
  }

  //----- The id map -----

  /** Every id of the list mapped to the entry. */
  function IdMap(ids: seq<string>, v: EntryValue): (m: map<string, EntryValue>)
    ensures m.Keys == set id | id in ids
    ensures forall id :: id in m ==> m[id] == v
  {
    map id | id in ids :: v
  }

  /** The catalog's map from every ComCat id to the entry that lists it. */
  class EventMap {
    var entries: map<string, EntryValue>

    constructor ()
      ensures entries == map[]
    {
      entries := map[];
    }
  }

  //----- The entry object -----

  /** Checks the ids one by one against the ComCat id pattern. */
  method AllValidIds(ids: array<string>) returns (ok: bool)
    ensures ok <==> AllComcatIds(ids[..])
  {
    var i := 0;
    while i < ids.Length
      invariant 0 <= i <= ids.Length
      invariant forall k :: 0 <= k < i ==> IsComcatId(ids[k])
    {
      if !IsComcatId(ids[i]) {
        return false;
      }
      i := i + 1;
    }
    return true;
  }

  class ComcatLocalCatalogEntry {
    var rupNetwork: string
    var rupCode: string
    var rupIdList: array?<string>
    var rupPlace: string
    var rupTime: int
    var rupMag: real
    var rupLat: real
    var rupLon: real
    var rupDepth: real

    /** The entry's fields as a value (a missing string is ""). */
    function Value(): EntryValue
      reads this, rupIdList
      requires rupIdList != null
    {
      EntryValue(rupNetwork, rupCode, rupIdList[..], rupPlace, rupTime, rupMag, rupLat, rupLon, rupDepth)
    }

    predicate IsDefault()
      reads this
    {
      rupNetwork == "" && rupCode == "" && rupIdList == null && rupPlace == "" && rupTime == 0 &&
      rupMag == 0.0 && rupLat == 0.0 && rupLon == 0.0 && rupDepth == 0.0
    }

    constructor ()
      ensures IsDefault()
    {
      rupNetwork := "";
      rupCode := "";
      rupIdList := null;
      rupPlace := "";
      rupTime := 0;
      rupMag := 0.0;
      rupLat := 0.0;
      rupLon := 0.0;
      rupDepth := 0.0;
    }

    method SetDefaultRupParams()
      modifies this
      ensures IsDefault()
    {
      rupNetwork := "";
      rupCode := "";
      rupIdList := null;
      rupPlace := "";
      rupTime := 0;
      rupMag := 0.0;
      rupLat := 0.0;
      rupLon := 0.0;
      rupDepth := 0.0;
    }

    /**
     * Sets the entry from a rupture, check by check; on failure the fields
     * assigned before the failing check keep their new values.
     */
    method SetEqkRupture(rup: ObsEqkRupture) returns (r: Result<(), string>)
      modifies this
      ensures r.Ok? <==> FromRupture(rup).Ok?
      ensures r.Err? ==> r.error == FromRupture(rup).error
      ensures r.Ok? ==> rupIdList != null && fresh(rupIdList) && Value() == FromRupture(rup).value
    {
      if !IsComcatId(rup.eventId) {
        return Err("Missing or invalid event id");
      }
      var info := if rup.info.Some? then rup.info.value else ExtendedInfo("", [], "", "");
      rupNetwork := info.network;
      if !IsComcatId(rupNetwork) {
        return Err("Missing or invalid event network");
      }
      rupCode := info.code;
      if !IsComcatId(rupCode) {
        return Err("Missing or invalid event code");
      }
      if |info.idList| == 0 {
        return Err("No id list");
      }
      // The accessor's list always holds the event id, so it is never empty.
      var list := IdsToList(info.idList, rup.eventId);
      var ids := new string[|list|](k requires 0 <= k < |list| => list[k]);
      assert ids[..] == list;
      rupIdList := ids;
      var idsOk := AllValidIds(ids);
      if !idsOk {
        return Err("Missing or invalid Comcat id");
      }
      rupPlace := info.place;
      if rupPlace == "" {
        rupPlace := UNKNOWN_PLACE;
      }
      rupTime := rup.originTime;
      rupMag := rup.mag;
      r := SetHypocentre(rup.lat, rup.lon, rup.depth);
    }

    /** Stores a hypocentre: clamps the latitude, normalises the longitude, and refuses a depth beyond 700 km. */
    method SetHypocentre(lat: real, lon: real, depth: real) returns (r: Result<(), string>)
      modifies this`rupLat, this`rupLon, this`rupDepth
      ensures r.Ok? <==> depth <= MAX_DEPTH
      ensures r.Err? ==> r.error == "Depth too large"
      ensures rupLat == ClampLat(lat) && rupLon == NormalLon(lon)
      ensures r.Ok? ==> rupDepth == if depth < 0.0 then 0.0 else depth
    {
      rupLat := lat;
      rupLon := lon;
      rupDepth := depth;
      if rupLon > 180.0 {
        rupLon := rupLon - 360.0;
      }
      if rupLon < -180.0 {
        rupLon := 180.0;
      }
      if rupLat > 90.0 {
        rupLat := 90.0;
      } else if rupLat < -90.0 {
        rupLat := -90.0;
      }
      if rupDepth < 0.0 {
        rupDepth := 0.0;
      } else if rupDepth > MAX_DEPTH {
        return Err("Depth too large");
      }
      r := Ok(());
    }

    /** Copies another entry; the id list is cloned, so the two never share it. */
    method CopyFrom(other: ComcatLocalCatalogEntry)
      modifies this
      ensures rupNetwork == old(other.rupNetwork) && rupCode == old(other.rupCode) && rupPlace == old(other.rupPlace)
      ensures rupTime == old(other.rupTime) && rupMag == old(other.rupMag)
      ensures rupLat == old(other.rupLat) && rupLon == old(other.rupLon) && rupDepth == old(other.rupDepth)
      ensures (rupIdList == null) == (old(other.rupIdList) == null)
      ensures rupIdList != null ==> fresh(rupIdList) && rupIdList[..] == old(other.rupIdList[..])
    {
      var src := other.rupIdList;
      rupNetwork := other.rupNetwork;
      rupCode := other.rupCode;
      if src == null {
        rupIdList := null;
      } else {
        var ids := new string[src.Length];
        forall k | 0 <= k < src.Length {
          ids[k] := src[k];
        }
        rupIdList := ids;
      }
      rupPlace := other.rupPlace;
      rupTime := other.rupTime;
      rupMag := other.rupMag;
      rupLat := other.rupLat;
      rupLon := other.rupLon;
      rupDepth := other.rupDepth;
    }

    /** Writes the entry as one catalog line. */
    method FormatLine() returns (line: seq<LineToken>)
      requires rupIdList != null
      ensures line == LineOf(Value())
    {
      line := [Word(rupNetwork), Word(rupCode), LongTok(rupTime), DoubleTok(rupMag), DoubleTok(rupLat),
               DoubleTok(rupLon), DoubleTok(rupDepth)];
      var idlen := rupIdList.Length;
      line := line + [IntTok(idlen)];
      var i := 0;
      while i < idlen
        invariant 0 <= i <= idlen
        invariant |line| == 8 + i
        invariant line[..8] == LineOf(Value())[..8]
        invariant forall k :: 0 <= k < i ==> line[8 + k] == Word(rupIdList[k])
      {
        line := line + [Word(rupIdList[i])];
        i := i + 1;
      }
      line := line + [PlaceTok(rupPlace)];
      LineAtIff(line, 0, Value());
      assert line[0..|line|] == line;
    }

    /**
     * Reads the entry from the scanner, field by field. It fails on a missing
     * or mistyped token and on an id count below one; what it reads on
     * success is exactly the line of the entry it leaves, and the line of an
     * entry with at least one id is read back as that entry.
     */
    method ParseLine(scanner: LineScanner, ghost v: EntryValue) returns (r: Result<(), string>)
      modifies this, scanner`pos
      ensures r.Ok? ==> rupIdList != null && fresh(rupIdList) && rupIdList.Length >= 1 &&
                        LineAt(scanner.tokens, old(scanner.pos), LineOf(Value())) &&
                        scanner.pos == old(scanner.pos) + |LineOf(Value())|
      ensures |v.ids| >= 1 && LineAt(scanner.tokens, old(scanner.pos), LineOf(v)) ==> r.Ok? && Value() == v
    {
      var parts := ReadParts(scanner, v);
      if parts.Err? {
        return Err(parts.error);
      }
      var (val, ids) := parts.value;
      rupNetwork, rupCode, rupIdList, rupPlace := val.network, val.code, ids, val.place;
      rupTime, rupMag, rupLat, rupLon, rupDepth := val.time, val.mag, val.lat, val.lon, val.depth;
      assert Value() == val;
      r := Ok(());
    }

    /**
     * Reads the fields of one line: the entry value read, with its ids also
     * in a new array.
     */
    method ReadParts(scanner: LineScanner, ghost v: EntryValue) returns (r: Result<(EntryValue, array<string>), string>)
      modifies scanner`pos
      ensures r.Ok? ==> fresh(r.value.1) && r.value.1[..] == r.value.0.ids && |r.value.0.ids| >= 1 &&
                        LineAt(scanner.tokens, old(scanner.pos), LineOf(r.value.0)) &&
                        scanner.pos == old(scanner.pos) + |LineOf(r.value.0)|
      ensures |v.ids| >= 1 && LineAt(scanner.tokens, old(scanner.pos), LineOf(v)) ==> r.Ok? && r.value.0 == v
    {
      ghost var p := scanner.pos;
      LineAtIff(scanner.tokens, p, v);
      var head := ParseHead(scanner, v);
      if head.Err? {
        return Err(head.error);
      }
      var tail := ParseTail(scanner, v);
      if tail.Err? {
        return Err(tail.error);
      }
      var (ids, place) := tail.value;
      JoinLine(scanner.tokens, p, head.value, ids[..], place);
      r := Ok((head.value.(ids := ids[..], place := place), ids));
    }

    /** Reads the id count, the ids and the place, from the position after the depth. */
    method ParseTail(scanner: LineScanner, ghost v: EntryValue) returns (r: Result<(array<string>, string), string>)
      requires 7 <= scanner.pos <= |scanner.tokens|
      modifies scanner`pos
      ensures r.Ok? ==> fresh(r.value.0) && r.value.0.Length >= 1 &&
                        scanner.pos == old(scanner.pos) + 2 + r.value.0.Length && scanner.pos <= |scanner.tokens| &&
                        scanner.tokens[old(scanner.pos)] == IntTok(r.value.0.Length) &&
                        WordsAt(scanner.tokens, old(scanner.pos) + 1, r.value.0[..]) &&
                        scanner.tokens[old(scanner.pos) + 1 + r.value.0.Length] == PlaceTok(r.value.1)
      ensures |v.ids| >= 1 && LinePoints(scanner.tokens, old(scanner.pos) - 7, v) ==>
                r.Ok? && r.value.0[..] == v.ids && r.value.1 == v.place
    {
      var idlen := scanner.NextInt();
      if idlen.Err? {
        return Err(idlen.error);
      }
      if idlen.value < 1 {
        return Err("Invalid id count");
      }
      var ids := new string[idlen.value];
      var read := ParseIds(scanner, ids, v);
      if read.Err? {
        return Err(read.error);
      }
      var place := scanner.NextPlace();
      if place.Err? {
        return Err(place.error);
      }
      r := Ok((ids, place.value));
    }

    /**
     * Reads network, code, time, magnitude and hypocentre, in that order
     * (returned in an entry value whose ids and place are still empty).
     */
    method ParseHead(scanner: LineScanner, ghost v: EntryValue) returns (r: Result<EntryValue, string>)
      modifies scanner`pos
      ensures r.Ok? ==> scanner.pos == old(scanner.pos) + 7 && scanner.pos <= |scanner.tokens| &&
                        r.value.ids == [] && r.value.place == "" &&
                        HeadPoints(scanner.tokens, old(scanner.pos), r.value)
      ensures LinePoints(scanner.tokens, old(scanner.pos), v) ==> r == Ok(v.(ids := [], place := ""))
    {
      var network := scanner.Next();
      if network.Err? {
        return Err(network.error);
      }
      var code := scanner.Next();
      if code.Err? {
        return Err(code.error);
      }
      var time := scanner.NextLong();
      if time.Err? {
        return Err(time.error);
      }
      var mag := scanner.NextDouble();
      if mag.Err? {
        return Err(mag.error);
      }
      var lat := scanner.NextDouble();
      if lat.Err? {
        return Err(lat.error);
      }
      var lon := scanner.NextDouble();
      if lon.Err? {
        return Err(lon.error);
      }
      var depth := scanner.NextDouble();
      if depth.Err? {
        return Err(depth.error);
      }
      r := Ok(EntryValue(network.value, code.value, [], "", time.value, mag.value, lat.value, lon.value, depth.value));
    }

    /** Reads the ids into the array, one token each, from the position after the header. */
    method ParseIds(scanner: LineScanner, ids: array<string>, ghost v: EntryValue) returns (r: Result<(), string>)
      requires 8 <= scanner.pos <= |scanner.tokens|
      modifies ids, scanner`pos
      ensures r.Ok? ==> scanner.pos == old(scanner.pos) + ids.Length && scanner.pos <= |scanner.tokens| &&
                        WordsAt(scanner.tokens, old(scanner.pos), ids[..])
      ensures LinePoints(scanner.tokens, old(scanner.pos) - 8, v) && ids.Length == |v.ids| ==>
                r.Ok? && ids[..] == v.ids
    {
      ghost var p := scanner.pos;
      ghost var good := LinePoints(scanner.tokens, p - 8, v) && ids.Length == |v.ids|;
      var i := 0;
      while i < ids.Length
        invariant 0 <= i <= ids.Length
        invariant scanner.pos == p + i <= |scanner.tokens|
        invariant forall k :: 0 <= k < i ==> scanner.tokens[p + k] == Word(ids[k])
        invariant good ==> forall k :: 0 <= k < i ==> ids[k] == v.ids[k]
      {
        assert good ==> scanner.tokens[p - 8 + 8 + i] == Word(v.ids[i]);
        var id := scanner.Next();
        if id.Err? {
          return Err(id.error);
        }
        ids[i] := id.value;
        i := i + 1;
      }
      r := Ok(());
    }

    /** Reads the entry from one line, which must hold nothing after the entry. */
    method ParseLineString(line: seq<LineToken>, ghost v: EntryValue) returns (r: Result<(), string>)
      modifies this
      ensures r.Ok? ==> rupIdList != null && fresh(rupIdList) && line == LineOf(Value())
      ensures |v.ids| >= 1 && line == LineOf(v) ==> r.Ok? && Value() == v
    {
      var scanner := new LineScanner(line);
      assert line[0..|line|] == line;
      r := ParseLine(scanner, v);
      if r.Ok? && scanner.HasNext() {
        r := Err("Extra tokens on line");
      }
    }

    /**
     * Registers the entry's ids in the map, unless one of them is there
     * already: then the first such id is returned and the map is unchanged.
     */
    method AddIdsToMap(em: EventMap) returns (dup: Option<string>)
      requires rupIdList != null
      modifies em
      ensures dup.None? <==> forall k :: 0 <= k < rupIdList.Length ==> rupIdList[k] !in old(em.entries)
      ensures dup.Some? ==> exists i :: 0 <= i < rupIdList.Length && rupIdList[i] == dup.value &&
                                        dup.value in old(em.entries) &&
                                        forall k :: 0 <= k < i ==> rupIdList[k] !in old(em.entries)
      ensures em.entries == if dup.None? then old(em.entries) + IdMap(rupIdList[..], Value()) else old(em.entries)
    {
      dup := FirstMappedId(em);
      if dup.Some? {
        return;
      }
      ghost var before := em.entries;
      var j := 0;
      while j < rupIdList.Length
        invariant 0 <= j <= rupIdList.Length
        invariant em.entries == before + IdMap(rupIdList[..j], Value())
      {
        assert rupIdList[..j + 1] == rupIdList[..j] + [rupIdList[j]];
        em.entries := em.entries[rupIdList[j] := Value()];
        j := j + 1;
      }
      assert rupIdList[..j] == rupIdList[..];
    }

    /** The first of the entry's ids the map already holds, if any. */
    method FirstMappedId(em: EventMap) returns (dup: Option<string>)
      requires rupIdList != null
      ensures dup.None? <==> forall k :: 0 <= k < rupIdList.Length ==> rupIdList[k] !in em.entries
      ensures dup.Some? ==> exists i :: 0 <= i < rupIdList.Length && rupIdList[i] == dup.value &&
                                        dup.value in em.entries &&
                                        forall k :: 0 <= k < i ==> rupIdList[k] !in em.entries
    {
      var i := 0;
      while i < rupIdList.Length
        invariant 0 <= i <= rupIdList.Length
        invariant forall k :: 0 <= k < i ==> rupIdList[k] !in em.entries
      {
        if rupIdList[i] in em.entries {
          return Some(rupIdList[i]);
        }
        i := i + 1;
      }
      return None;
    }
  }
}

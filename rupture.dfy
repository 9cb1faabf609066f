/**
 * Earthquake ruptures as ComCat and the local catalog hand them around, and
 * the coordinate normalisation both the forecast parameters and the local
 * catalog apply to a hypocentre before storing it.
 */
module EqkRupture {
  import opened Wrappers

  /**
   * The extended information ComCat attaches to a rupture. A missing value
   * is the empty string (ComCat's accessor maps null to ""). The id list is
   * the list of ids the comma-separated ComCat id list denotes, in its
   * order; splitting that text is ComCat accessor code that is not part of
   * this model.
   */
  datatype ExtendedInfo = ExtendedInfo(place: string, idList: seq<string>, network: string, code: string)

  /** An observed rupture: event id, origin time (ms since the epoch), magnitude and hypocentre. */
  datatype ObsEqkRupture = ObsEqkRupture(
    eventId: string,
    originTime: int,
    mag: real,
    lat: real,
    lon: real,
    depth: real,       // kilometres, positive underground
    info: Option<ExtendedInfo>)

  /**
   * A longitude as stored: values above +180 lose one turn, and values
   * below -180 are replaced by +180.
   */
  function NormalLon(lon: real): (r: real)
    ensures -180.0 <= lon <= 180.0 ==> r == lon
    ensures 180.0 < lon ==> r == lon - 360.0
    ensures lon < -180.0 ==> r == 180.0
    ensures lon <= 540.0 ==> -180.0 <= r <= 180.0
  {
    var x := if lon > 180.0 then lon - 360.0 else lon;
    if x < -180.0 then 180.0 else x
  }

  /** A latitude clamped to [-90, +90]. */
  function ClampLat(lat: real): (r: real)
    ensures -90.0 <= r <= 90.0
    ensures -90.0 <= lat <= 90.0 ==> r == lat
    ensures lat > 90.0 ==> r == 90.0
    ensures lat < -90.0 ==> r == -90.0
  {
    if lat > 90.0 then 90.0 else if lat < -90.0 then -90.0 else lat
  }

  /** Normalising twice changes nothing, for every longitude within one turn of the range. */
  lemma NormalisationIdempotent(lat: real, lon: real)
    requires lon <= 540.0
    ensures NormalLon(NormalLon(lon)) == NormalLon(lon)
    ensures ClampLat(ClampLat(lat)) == ClampLat(lat)
  {
  }
}

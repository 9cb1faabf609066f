/**
 * The payload of an alias-timeline revive notification: one time stamp, with
 * a versioned, named stream format. The DBPayload superclass is not part of
 * this model; its share of the stream is taken to be empty.
 */
module AliasRevive {
  import opened Wrappers
  import opened Marshal

  const MARSHAL_VER_1 := 36001
  const M_VERSION_NAME := "OpAliasRevive"
  const M_FAMILY_TIME_NAME := "family_time"

  /** The tokens a payload with the given family time writes, inside its map. */
  function Encoding(familyTime: int): (ts: seq<Token>)
    ensures |ts| == 2 && ts[0].TInt? && ts[0].i == MARSHAL_VER_1 && ts[1].TLong? && ts[1].l == familyTime
  {
    [TInt(M_VERSION_NAME, MARSHAL_VER_1), TLong(M_FAMILY_TIME_NAME, familyTime)]
  }

  class OpAliasRevive {
    /** Time stamp of the modified alias family, in milliseconds since the epoch. */
    var familyTime: int

    constructor ()
      ensures familyTime == 0
    {
      familyTime := 0;
    }

    method Setup(theFamilyTime: int)
      modifies this
      ensures familyTime == theFamilyTime
    {
      familyTime := theFamilyTime;
    }

    /** Writes the version, then the family time. */
    method DoMarshal(writer: MarshalWriter)
      modifies writer
      ensures writer.tokens == old(writer.tokens) + Encoding(familyTime)
    {
      writer.MarshalInt(M_VERSION_NAME, MARSHAL_VER_1);
      writer.MarshalLong(M_FAMILY_TIME_NAME, familyTime);
    }

    /**
     * Reads the version, which must be MARSHAL_VER_1, then the family time;
     * fails on anything else.
     */
    method DoUmarshal(reader: MarshalReader) returns (r: Result<(), string>)
      modifies this, reader`pos
      ensures forall t :: At(reader.tokens, old(reader.pos), Encoding(t)) ==>
                r.Ok? && familyTime == t && reader.pos == old(reader.pos) + 2
      ensures !(old(reader.pos) < |reader.tokens| && reader.tokens[old(reader.pos)] == TInt(M_VERSION_NAME, MARSHAL_VER_1)) ==>
                r.Err?
    {
      ghost var start := reader.pos;
      var ver := reader.UnmarshalInt(M_VERSION_NAME, MARSHAL_VER_1, MARSHAL_VER_1);
      if ver.Err? {
        return Err(ver.error);
      }
      var ft := reader.UnmarshalLong(M_FAMILY_TIME_NAME);
      if ft.Err? {
        forall t | At(reader.tokens, start, Encoding(t))
          ensures false
        {
          AtEach(reader.tokens, start, Encoding(t));
        }
        return Err(ft.error);
      }
      familyTime := ft.value;
      forall t | At(reader.tokens, start, Encoding(t))
        ensures familyTime == t
      {
        AtEach(reader.tokens, start, Encoding(t));
      }
      r := Ok(());
    }

    /** Writes the payload as a map of the given name. */
    method Marshal(writer: MarshalWriter, name: string)
      modifies writer
      ensures writer.tokens == old(writer.tokens) + [TMapBegin(name)] + Encoding(familyTime) + [TMapEnd]
    {
      writer.MarshalMapBegin(name);
      DoMarshal(writer);
      writer.MarshalMapEnd();
    }

    /** Reads the payload from a map of the given name. */
    method Unmarshal(reader: MarshalReader, name: string) returns (r: Result<(), string>)
      modifies this, reader`pos
      ensures forall t :: At(reader.tokens, old(reader.pos), [TMapBegin(name)] + Encoding(t) + [TMapEnd]) ==>
                r.Ok? && familyTime == t && reader.pos == old(reader.pos) + 4
      ensures !(old(reader.pos) < |reader.tokens| && reader.tokens[old(reader.pos)] == TMapBegin(name)) ==> r.Err?
    {
      ghost var start := reader.pos;
      var b := reader.UnmarshalMapBegin(name);
      if b.Err? {
        return Err(b.error);
      }
      forall t | At(reader.tokens, start, [TMapBegin(name)] + Encoding(t) + [TMapEnd])
        ensures At(reader.tokens, start + 1, Encoding(t)) && reader.tokens[start + 3] == TMapEnd
      {
        AtEach(reader.tokens, start, [TMapBegin(name)] + Encoding(t) + [TMapEnd]);
        assert reader.tokens[start + 1..start + 3] == Encoding(t);
      }
      var d := DoUmarshal(reader);
      if d.Err? {
        return d;
      }
      var e := reader.UnmarshalMapEnd();
      if e.Err? {
        return Err(e.error);
      }
      r := Ok(());
    }

    /**
     * Reads the payload from a pending task's details, an unnamed map; any
     * failure is reported as a corrupt task.
     */
    method UnmarshalTask(details: seq<Token>) returns (r: Result<(), string>)
      modifies this
      ensures forall t :: details == [TMapBegin("")] + Encoding(t) + [TMapEnd] ==> r.Ok? && familyTime == t
      ensures r.Err? ==> r.error == "Error unmarshaling pending task payload"
      ensures (|details| == 0 || details[0] != TMapBegin("")) ==> r.Err?
    {
      var reader := new MarshalReader(details);
      forall t | details == [TMapBegin("")] + Encoding(t) + [TMapEnd]
        ensures At(reader.tokens, 0, [TMapBegin("")] + Encoding(t) + [TMapEnd])
      {
      }
      var u := Unmarshal(reader, "");
      if u.Err? {
        return Err("Error unmarshaling pending task payload");
      }
      r := Ok(());
    }
  }

  /** A payload written to a task and read back has the family time it was set up with. */
  method RoundTrip(t: int) returns (back: int)
    ensures back == t
  {
    var x := new OpAliasRevive();
    x.Setup(t);
    var writer := new MarshalWriter();
    x.Marshal(writer, "");
    var y := new OpAliasRevive();
    var r := y.UnmarshalTask(writer.tokens);
    back := y.familyTime;
  }
}

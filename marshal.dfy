/**
 * The marshalling streams that payloads and parameter sets are written to and
 * read from. A stream is a sequence of named, typed tokens; the concrete
 * encodings (JSON text, arrays) behind it are not modelled.
 */
module Marshal {
  import opened Wrappers

  /**
   * The value of an object of a class that is not part of this model (a
   * parameter set of the rate model, a search region), as it is written to a
   * stream and read back.
   */
  datatype Blob = Blob(kind: string, values: seq<real>)

  datatype Token =
    | TInt(name: string, i: int)
    | TLong(name: string, l: int)
    | TDouble(name: string, d: real)
    | TString(name: string, s: string)
    | TObject(name: string, o: Blob)          // a nested object written by its own class
    | TPoly(name: string, p: Option<Blob>)    // a nested object written with its type code; None for null
    | TMapBegin(name: string)
    | TMapEnd

  /** A stream being written: every call appends exactly one token. */
  class MarshalWriter {
    var tokens: seq<Token>

    constructor ()
      ensures tokens == []
    {
      tokens := [];
    }

    method MarshalInt(name: string, v: int)
      modifies this
      ensures tokens == old(tokens) + [TInt(name, v)]
    {
      tokens := tokens + [TInt(name, v)];
    }

    method MarshalLong(name: string, v: int)
      modifies this
      ensures tokens == old(tokens) + [TLong(name, v)]
    {
      tokens := tokens + [TLong(name, v)];
    }

    method MarshalDouble(name: string, v: real)
      modifies this
      ensures tokens == old(tokens) + [TDouble(name, v)]
    {
      tokens := tokens + [TDouble(name, v)];
    }

    method MarshalString(name: string, v: string)
      modifies this
      ensures tokens == old(tokens) + [TString(name, v)]
    {
      tokens := tokens + [TString(name, v)];
    }

    method MarshalObject(name: string, v: Blob)
      modifies this
      ensures tokens == old(tokens) + [TObject(name, v)]
    {
      tokens := tokens + [TObject(name, v)];
    }

    method MarshalPoly(name: string, v: Option<Blob>)
      modifies this
      ensures tokens == old(tokens) + [TPoly(name, v)]
    {
      tokens := tokens + [TPoly(name, v)];
    }

    method MarshalMapBegin(name: string)
      modifies this
      ensures tokens == old(tokens) + [TMapBegin(name)]
    {
      tokens := tokens + [TMapBegin(name)];
    }

    method MarshalMapEnd()
      modifies this
      ensures tokens == old(tokens) + [TMapEnd]
    {
      tokens := tokens + [TMapEnd];
    }
  }

  /**
   * A stream being read. Each read takes the next token if it has the
   * expected kind and name (and, for a bounded int, lies in range) and fails
   * otherwise, without moving.
   */
  class MarshalReader {
    const tokens: seq<Token>
    var pos: nat

    constructor (ts: seq<Token>)
      ensures tokens == ts && pos == 0
    {
      tokens := ts;
      pos := 0;
    }

    method UnmarshalInt(name: string, lo: int, hi: int) returns (r: Result<int, string>)
      modifies this`pos
      ensures old(pos) < |tokens| && tokens[old(pos)].TInt? && tokens[old(pos)].name == name &&
              lo <= tokens[old(pos)].i <= hi ==>
                r == Ok(tokens[old(pos)].i) && pos == old(pos) + 1
      ensures !(old(pos) < |tokens| && tokens[old(pos)].TInt? && tokens[old(pos)].name == name &&
                lo <= tokens[old(pos)].i <= hi) ==>
                r.Err? && pos == old(pos)
    {
      if pos < |tokens| && tokens[pos].TInt? && tokens[pos].name == name && lo <= tokens[pos].i <= hi {
        r := Ok(tokens[pos].i);
        pos := pos + 1;
      } else {
        r := Err("unexpected token for " + name);
      }
    }

    method UnmarshalAnyInt(name: string) returns (r: Result<int, string>)
      modifies this`pos
      ensures old(pos) < |tokens| && tokens[old(pos)].TInt? && tokens[old(pos)].name == name ==>
                r == Ok(tokens[old(pos)].i) && pos == old(pos) + 1
      ensures !(old(pos) < |tokens| && tokens[old(pos)].TInt? && tokens[old(pos)].name == name) ==>
                r.Err? && pos == old(pos)
    {
      if pos < |tokens| && tokens[pos].TInt? && tokens[pos].name == name {
        r := Ok(tokens[pos].i);
        pos := pos + 1;
      } else {
        r := Err("unexpected token for " + name);
      }
    }

    method UnmarshalLong(name: string) returns (r: Result<int, string>)
      modifies this`pos
      ensures old(pos) < |tokens| && tokens[old(pos)].TLong? && tokens[old(pos)].name == name ==>
                r == Ok(tokens[old(pos)].l) && pos == old(pos) + 1
      ensures !(old(pos) < |tokens| && tokens[old(pos)].TLong? && tokens[old(pos)].name == name) ==>
                r.Err? && pos == old(pos)
    {
      if pos < |tokens| && tokens[pos].TLong? && tokens[pos].name == name {
        r := Ok(tokens[pos].l);
        pos := pos + 1;
      } else {
        r := Err("unexpected token for " + name);
      }
    }

    method UnmarshalDouble(name: string) returns (r: Result<real, string>)
      modifies this`pos
      ensures old(pos) < |tokens| && tokens[old(pos)].TDouble? && tokens[old(pos)].name == name ==>
                r == Ok(tokens[old(pos)].d) && pos == old(pos) + 1
      ensures !(old(pos) < |tokens| && tokens[old(pos)].TDouble? && tokens[old(pos)].name == name) ==>
                r.Err? && pos == old(pos)
    {
      if pos < |tokens| && tokens[pos].TDouble? && tokens[pos].name == name {
        r := Ok(tokens[pos].d);
        pos := pos + 1;
      } else {
        r := Err("unexpected token for " + name);
      }
    }

    method UnmarshalString(name: string) returns (r: Result<string, string>)
      modifies this`pos
      ensures old(pos) < |tokens| && tokens[old(pos)].TString? && tokens[old(pos)].name == name ==>
                r == Ok(tokens[old(pos)].s) && pos == old(pos) + 1
      ensures !(old(pos) < |tokens| && tokens[old(pos)].TString? && tokens[old(pos)].name == name) ==>
                r.Err? && pos == old(pos)
    {
      if pos < |tokens| && tokens[pos].TString? && tokens[pos].name == name {
        r := Ok(tokens[pos].s);
        pos := pos + 1;
      } else {
        r := Err("unexpected token for " + name);
      }
    }

    method UnmarshalObject(name: string) returns (r: Result<Blob, string>)
      modifies this`pos
      ensures old(pos) < |tokens| && tokens[old(pos)].TObject? && tokens[old(pos)].name == name ==>
                r == Ok(tokens[old(pos)].o) && pos == old(pos) + 1
      ensures !(old(pos) < |tokens| && tokens[old(pos)].TObject? && tokens[old(pos)].name == name) ==>
                r.Err? && pos == old(pos)
    {
      if pos < |tokens| && tokens[pos].TObject? && tokens[pos].name == name {
        r := Ok(tokens[pos].o);
        pos := pos + 1;
      } else {
        r := Err("unexpected token for " + name);
      }
    }

    method UnmarshalPoly(name: string) returns (r: Result<Option<Blob>, string>)
      modifies this`pos
      ensures old(pos) < |tokens| && tokens[old(pos)].TPoly? && tokens[old(pos)].name == name ==>
                r == Ok(tokens[old(pos)].p) && pos == old(pos) + 1
      ensures !(old(pos) < |tokens| && tokens[old(pos)].TPoly? && tokens[old(pos)].name == name) ==>
                r.Err? && pos == old(pos)
    {
      if pos < |tokens| && tokens[pos].TPoly? && tokens[pos].name == name {
        r := Ok(tokens[pos].p);
        pos := pos + 1;
      } else {
        r := Err("unexpected token for " + name);
      }
    }

    method UnmarshalMapBegin(name: string) returns (r: Result<(), string>)
      modifies this`pos
      ensures old(pos) < |tokens| && tokens[old(pos)] == TMapBegin(name) ==>
                r == Ok(()) && pos == old(pos) + 1
      ensures !(old(pos) < |tokens| && tokens[old(pos)] == TMapBegin(name)) ==>
                r.Err? && pos == old(pos)
    {
      if pos < |tokens| && tokens[pos] == TMapBegin(name) {
        r := Ok(());
        pos := pos + 1;
      } else {
        r := Err("expected the start of " + name);
      }
    }

    method UnmarshalMapEnd() returns (r: Result<(), string>)
      modifies this`pos
      ensures old(pos) < |tokens| && tokens[old(pos)] == TMapEnd ==>
                r == Ok(()) && pos == old(pos) + 1
      ensures !(old(pos) < |tokens| && tokens[old(pos)] == TMapEnd) ==>
                r.Err? && pos == old(pos)
    {
      if pos < |tokens| && tokens[pos] == TMapEnd {
        r := Ok(());
        pos := pos + 1;
      } else {
        r := Err("expected the end of a map");
      }
    }
  }

  /** The tokens ts stand in the stream at position pos. */
  predicate At(tokens: seq<Token>, pos: int, ts: seq<Token>)
  {
    0 <= pos && pos + |ts| <= |tokens| && tokens[pos..pos + |ts|] == ts
  }

  /** Tokens standing at pos: the first is the token at pos, and the rest stand right after it. */
  lemma AtHead(tokens: seq<Token>, pos: int, ts: seq<Token>)
    requires At(tokens, pos, ts) && |ts| > 0
    ensures pos < |tokens| && tokens[pos] == ts[0] && At(tokens, pos + 1, ts[1..])
  {
    assert tokens[pos] == tokens[pos..pos + |ts|][0];
    assert tokens[pos + 1..pos + |ts|] == tokens[pos..pos + |ts|][1..];
  }

  /** Tokens standing at pos, one stream position at a time. */
  lemma AtEach(tokens: seq<Token>, pos: int, ts: seq<Token>)
    requires At(tokens, pos, ts)
    ensures forall j :: pos <= j < pos + |ts| ==> tokens[j] == ts[j - pos]
  {
    forall j | pos <= j < pos + |ts|
      ensures tokens[j] == ts[j - pos]
    {
      assert tokens[j] == tokens[pos..pos + |ts|][j - pos];
    }
  }

  /** Two token runs standing one after the other at pos. */
  lemma AtSplit(tokens: seq<Token>, pos: int, a: seq<Token>, b: seq<Token>)
    requires At(tokens, pos, a + b)
    ensures At(tokens, pos, a) && At(tokens, pos + |a|, b)
  {
    assert tokens[pos..pos + |a|] == tokens[pos..pos + |a + b|][..|a|];
    assert tokens[pos + |a|..pos + |a| + |b|] == tokens[pos..pos + |a + b|][|a|..];
  }
}

/** The sector reader as it runs: a cursor that every call moves on, and the loops over objects,
    attributes and tiles. */
module SectorReader {
  import opened World
  import opened S = Sector

  /** A call either returned what the tokens say and moved the cursor there, or raised the error. */
  ghost predicate Gives<T>(r: Read<T>, value: T, at: nat, error: Option<Error>) {
    match r
    case Ok(expected, next) => error == None && value == expected && at == next
    case Fail(expected) => error == Some(expected)
  }

  class Cursor {
    const tokens: seq<Token>
    var at: nat

    constructor (tokens: seq<Token>)
      ensures this.tokens == tokens && at == 0
    {
      this.tokens, at := tokens, 0;
    }

    method Pop() returns (t: Token, error: Option<Error>)
      modifies this
      ensures old(at) < |tokens| ==> error == None && t == tokens[old(at)] && at == old(at) + 1
      ensures old(at) >= |tokens| ==> error == Some(UnexpectedEnd) && at == old(at)
    {
      if at >= |tokens| { return Comma, Some(UnexpectedEnd); }
      t, error := tokens[at], None;
      at := at + 1;
    }

    method Expect(wanted: Token) returns (error: Option<Error>)
      modifies this
      ensures error == None <==> Is(tokens, old(at), wanted)
      ensures error == None ==> at == old(at) + 1
      ensures error.Some? ==> error.value == Missing(tokens, old(at), UnexpectedToken)
    {
      var t, failed := Pop();
      if failed.Some? { return failed; }
      return if t == wanted then None else Some(UnexpectedToken);
    }

    method Integer() returns (n: nat, error: Option<Error>)
      modifies this
      ensures error == None <==> old(at) < |tokens| && tokens[old(at)].Number?
      ensures error == None ==> n == tokens[old(at)].value && at == old(at) + 1
      ensures error.Some? ==> error.value == Missing(tokens, old(at), NotANumber)
    {
      var t, failed := Pop();
      if failed.Some? { return 0, failed; }
      if !t.Number? { return 0, Some(NotANumber); }
      return t.value, None;
    }

    method ReadObjects() returns (ids: seq<nat>, error: Option<Error>)
      modifies this
      ensures Gives(S.ReadObjects(tokens, old(at)), ids, at, error)
      decreases |tokens| - at, 1
    {
      hide S.ReadAttributes;
      ids := [];
      ghost var start := at;
      error := Expect(Open);
      if error.Some? { return; }
      while !Is(tokens, at, Close)
        invariant start < at
        invariant error == None && S.ReadList(tokens, at, ids) == S.ReadList(tokens, start + 1, [])
        decreases |tokens| - at
      {
        ghost var here := at;
        var id;
        id, error := Integer();
        if error.Some? { return; }
        error := SkipAttributes();
        if error.Some? { return; }
        ids := ids + [id];
        if Is(tokens, at, Comma) { at := at + 1; }
      }
      error := Expect(Close);
    }

    /** Attributes up to the comma or brace that ends the object; nested contents are read and
        dropped. */
    method SkipAttributes() returns (error: Option<Error>)
      modifies this
      ensures Gives(S.ReadAttributes(tokens, old(at)), (), at, error)
      decreases |tokens| - at, 2
    {
      hide Named;
      error := None;
      ghost var start := at;
      while !(Is(tokens, at, Comma) || Is(tokens, at, Close))
        invariant start <= at
        invariant error == None && S.ReadAttributes(tokens, at) == S.ReadAttributes(tokens, start)
        decreases |tokens| - at
      {
        var attribute;
        attribute, error := Pop();
        if error.Some? { return; }
        error := Expect(Equals);
        if error.Some? { return; }
        if Named(attribute, "content") {
          var nested;
          nested, error := ReadObjects();
          if error.Some? { return; }
        } else {
          var value;
          value, error := Pop();
          if error.Some? { return; }
          if !value.Number? && !value.Text? { return Some(BadValue); }
        }
      }
    }

    /** The fields of one tile. */
    method ReadFields(place: Place, ox: nat, oy: nat, before: seq<Row>) returns (rows: seq<Row>, error: Option<Error>)
      modifies this
      ensures Gives(S.ReadFields(tokens, old(at), place, ox, oy, false, before), rows, at, error)
    {
      hide Named, IsFlag, Header, S.ReadObjects, RowsOf;
      rows, error := before, None;
      ghost var start := at;
      var seen := false;
      while at < |tokens| && !Header(tokens, at)
        invariant error == None
        invariant S.ReadFields(tokens, at, place, ox, oy, seen, rows)
          == S.ReadFields(tokens, start, place, ox, oy, false, before)
        decreases |tokens| - at
      {
        if Is(tokens, at, Comma) {
          at := at + 1;
          continue;
        }
        var field;
        field, error := Pop();
        if IsFlag(field) { continue; }
        if !Named(field, "content") || seen { return rows, Some(BadField); }
        error := Expect(Equals);
        if error.Some? { return; }
        seen := true;
        var ids;
        ids, error := ReadObjects();
        if error.Some? { return; }
        rows := AppendRows(place, ox, oy, ids, rows);
      }
    }

    /** One row an object, its index in the list being its place in the stack. */
    static method AppendRows(place: Place, ox: nat, oy: nat, ids: seq<nat>, before: seq<Row>) returns (rows: seq<Row>)
      ensures rows == before + RowsOf(place, ox, oy, ids, |ids|)
    {
      rows := before;
      for stack := 0 to |ids|
        invariant rows == before + RowsOf(place, ox, oy, ids, stack)
      {
        rows := rows + [RowFor(place, ox, oy, stack, ids[stack])];
      }
    }

    method ReadHeader() returns (ox: nat, oy: nat, error: Option<Error>)
      modifies this
      ensures error == HeaderError(tokens, old(at))
      ensures error == None ==> ox == tokens[old(at)].value && oy == tokens[old(at) + 2].value && at == old(at) + 4
    {
      oy := 0;
      ox, error := Integer();
      if error.Some? { return; }
      error := Expect(Dash);
      if error.Some? { return; }
      oy, error := Integer();
      if error.Some? { return; }
      error := Expect(Colon);
      if error.Some? { return; }
      if ox >= SECTOR_SIZE || oy >= SECTOR_SIZE { error := Some(BadOffset); }
    }

    /** Every iteration uses up a token, so reading ends on any input. */
    method ParseSector(place: Place) returns (rows: seq<Row>, error: Option<Error>)
      requires at == 0
      modifies this
      ensures Gives(S.ReadTiles(tokens, 0, place, []), rows, at, error)
    {
      hide S.ReadFields, HeaderError;
      rows, error := [], None;
      while at < |tokens|
        invariant error == None && S.ReadTiles(tokens, at, place, rows) == S.ReadTiles(tokens, 0, place, [])
        decreases |tokens| - at
      {
        if Is(tokens, at, Comma) {
          at := at + 1;
          continue;
        }
        ghost var here := at;
        var ox, oy;
        ox, oy, error := ReadHeader();
        if error.Some? { return; }
        rows, error := ReadFields(place, ox, oy, rows);
        if error.Some? { return; }
        if Is(tokens, at, Comma) { at := at + 1; }
      }
    }
  }
}

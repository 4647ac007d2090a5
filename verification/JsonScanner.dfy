/**
 The strict JSON scanner: a recursive-descent scanner that only moves a position and collects keys,
 proved to accept exactly the texts the grammar's reader accepts.
 */
module JsonScanner {
  import opened Prelude
  import opened JsonLexical
  import opened JsonGrammar

  function EndOf<T>(r: Option<(T, nat)>): Option<nat> {
    match r
    case None => None
    case Some((_, end)) => Some(end)
  }

  /** Where the literal ends whose characters continue at a position. */
  function LiteralEnd(s: Source, i: nat): Option<nat> {
    match ReadChunks(s, i)
    case None => None
    case Some(chunks) => Some(i + Size(chunks.Closed()))
  }

  lemma LiteralContinues(s: Source, i: nat)
    requires i < |s| && s[i] != QUOTE
    ensures LiteralEnd(s, i) == if ReadChunk(s, i).None? then None else LiteralEnd(s, i + ReadChunk(s, i).value.Size())
  {
    var chunk := ReadChunk(s, i);
    if chunk.Some? && ReadChunks(s, i + chunk.value.Size()).Some? {
      ChunkIsRead(s, i, chunk.value, ReadChunks(s, i + chunk.value.Size()).value.Closed());
    }
  }

  ghost function ItemsEnd(s: Source, i: nat): Option<nat> {
    EndOf(ReadItems(s, i))
  }

  ghost function FieldsEnd(s: Source, i: nat, keys: set<Text>): Option<nat> {
    EndOf(ReadFields(s, i, keys))
  }

  /** How one turn of a scanning loop ends: with an error, behind the closing bracket, or behind a comma. */
  datatype Turn = Failed | Closed | Separated

  function TurnEnd(outcome: Turn, position: nat, rest: Option<nat>): Option<nat> {
    match outcome
    case Failed => None
    case Closed => Some(position)
    case Separated => rest
  }

  ghost function MoreItemsEnd(s: Source, i: nat): Option<nat> {
    EndOf(ReadMoreItems(s, i))
  }

  ghost function MoreFieldsEnd(s: Source, i: nat, keys: set<Text>): Option<nat> {
    EndOf(ReadMoreFields(s, i, keys))
  }

  /** Where the white space behind a value ends. */
  ghost function ValueEnd(s: Source, i: nat): Option<nat> {
    match EndOf(ReadValue(s, i))
    case None => None
    case Some(j) => Some(j + Size(Run(s, j, Spaces)))
  }

  lemma ArrayContinues(s: Source, i: nat)
    ensures ItemsEnd(s, i) == match ValueEnd(s, i)
                              case None => None
                              case Some(k) => MoreItemsEnd(s, k)
  {
  }

  lemma ArrayGoesOn(s: Source, i: nat)
    ensures MoreItemsEnd(s, i) == if Is(s, i, RIGHT_BRACKET) then Some(i + 1)
                                  else if Is(s, i, COMMA) then ItemsEnd(s, i + 1 + Size(Run(s, i + 1, Spaces)))
                                  else None
  {
  }

  lemma ArrayEnds(s: Source, i: nat, start: nat)
    requires Is(s, i, LEFT_BRACKET) && start == i + 1 + Size(Run(s, i + 1, Spaces)) && !Is(s, start, RIGHT_BRACKET)
    ensures EndOf(ReadArray(s, i)) == ItemsEnd(s, start)
  {
  }

  lemma ObjectContinues(s: Source, i: nat, keys: set<Text>)
    requires ReadKey(s, i).Some? && ReadKey(s, i).value.0.chunks.Decoded() !in keys
    ensures var (key, start) := ReadKey(s, i).value;
            FieldsEnd(s, i, keys)
            == match ValueEnd(s, start)
               case None => None
               case Some(k) => MoreFieldsEnd(s, k, keys + {key.chunks.Decoded()})
  {
  }

  lemma ObjectGoesOn(s: Source, i: nat, keys: set<Text>)
    ensures MoreFieldsEnd(s, i, keys) == if Is(s, i, RIGHT_BRACE) then Some(i + 1)
                                         else if Is(s, i, COMMA) then
                                           FieldsEnd(s, i + 1 + Size(Run(s, i + 1, Spaces)), keys)
                                         else None
  {
  }

  lemma ObjectEnds(s: Source, i: nat, start: nat)
    requires Is(s, i, LEFT_BRACE) && start == i + 1 + Size(Run(s, i + 1, Spaces)) && !Is(s, start, RIGHT_BRACE)
    ensures EndOf(ReadObject(s, i)) == FieldsEnd(s, start, {})
  {
  }

  class JsonSyntaxScanner {
    const source: Source
    var position: nat

    constructor (source: Source)
      ensures this.source == source && position == 0
    {
      this.source, position := source, 0;
    }

    /** A result of `false` stands for the exception. */
    method Scan() returns (ok: bool)
      requires position == 0
      modifies this
      ensures ok <==> ReadDocument(source).Some?
    {
      SkipWhitespace();
      ok := ScanValue();
      if ok {
        SkipWhitespace();
        ok := position == |source|;
      }
    }

    method ScanValue() returns (ok: bool)
      requires position <= |source|
      modifies this
      ensures position <= |source|
      ensures (if ok then Some(position) else None) == EndOf(ReadValue(source, old(position)))
      decreases |source| - position, 1
    {
      if Is(source, position, LEFT_BRACE) {
        ok := ScanObject();
      } else if Is(source, position, LEFT_BRACKET) {
        ok := ScanArray();
      } else if Is(source, position, QUOTE) {
        var key;
        ok, key := ScanString();
      } else if Is(source, position, MINUS) || DigitAt(source, position) {
        ok := ScanNumber();
      } else if Has(source, position, TRUE_TEXT) {
        position, ok := position + 4, true;
      } else if Has(source, position, FALSE_TEXT) {
        position, ok := position + 5, true;
      } else if Has(source, position, NULL_TEXT) {
        position, ok := position + 4, true;
      } else {
        ok := false;
      }
    }

    method ScanObject() returns (ok: bool)
      requires Is(source, position, LEFT_BRACE)
      modifies this
      ensures position <= |source|
      ensures (if ok then Some(position) else None) == EndOf(ReadObject(source, old(position)))
      decreases |source| - position, 0
    {
      var keys: set<Text> := {};
      position := position + 1;
      SkipWhitespace();
      ok := Consume(RIGHT_BRACE);
      if ok {
        return;
      }
      ghost var start := position;
      while true
        invariant old(position) < position <= |source|
        invariant FieldsEnd(source, position, keys) == FieldsEnd(source, start, {})
        decreases |source| - position
      {
        var outcome;
        outcome, keys := ScanMember(keys);
        if outcome != Separated {
          ObjectEnds(source, old(position), start);
          return outcome == Closed;
        }
      }
    }

    /** One turn of the loop over the members of an object. */
    method ScanMember(keys: set<Text>) returns (outcome: Turn, keys': set<Text>)
      requires position <= |source|
      modifies this
      ensures position <= |source| && (outcome == Separated ==> old(position) < position)
      ensures FieldsEnd(source, old(position), keys)
              == TurnEnd(outcome, position, FieldsEnd(source, position, keys'))
      decreases |source| - position, 3
    {
      keys' := keys;
      var ok, key := ScanKey();
      if !ok {
        return Failed, keys;
      }
      if key in keys {
        return Failed, keys;
      }
      ObjectContinues(source, old(position), keys);
      keys' := keys + {key};
      ok := ScanSpacedValue();
      if !ok {
        return Failed, keys';
      }
      outcome := ScanMemberEnd(keys');
    }

    /** The bracket behind a member, or the comma and what stands before the next one. */
    method ScanMemberEnd(ghost keys: set<Text>) returns (outcome: Turn)
      requires position <= |source|
      modifies this
      ensures old(position) <= position <= |source|
      ensures MoreFieldsEnd(source, old(position), keys)
              == TurnEnd(outcome, position, FieldsEnd(source, position, keys))
    {
      ObjectGoesOn(source, position, keys);
      outcome := ScanSeparator(RIGHT_BRACE);
    }

    /** A value and the white space behind it. */
    method ScanSpacedValue() returns (ok: bool)
      requires position <= |source|
      modifies this
      ensures position <= |source| && (ok ==> old(position) < position)
      ensures (if ok then Some(position) else None) == ValueEnd(source, old(position))
      decreases |source| - position, 2
    {
      ok := ScanValue();
      if ok {
        SkipWhitespace();
      }
    }

    /** Behind an element or a member: the closing bracket, or a comma and the white space behind it. */
    method ScanSeparator(close: CodeUnit) returns (outcome: Turn)
      requires position <= |source| && close != COMMA
      modifies this
      ensures outcome == if Is(source, old(position), close) then Closed
                         else if Is(source, old(position), COMMA) then Separated else Failed
      ensures position == (match outcome
                           case Failed => old(position)
                           case Closed => old(position) + 1
                           case Separated => old(position) + 1 + Size(Run(source, old(position) + 1, Spaces)))
      ensures position <= |source|
    {
      var ok := Consume(close);
      if ok {
        return Closed;
      }
      ok := Consume(COMMA);
      if !ok {
        return Failed;
      }
      SkipWhitespace();
      return Separated;
    }

    /** A key and its colon, up to the value. */
    method ScanKey() returns (ok: bool, key: Text)
      requires position <= |source|
      modifies this
      ensures old(position) <= position <= |source|
      ensures (if ok then Some(position) else None) == EndOf(ReadKey(source, old(position)))
      ensures ok ==> position > old(position) && key == ReadKey(source, old(position)).value.0.chunks.Decoded()
    {
      key := Empty;
      ok := Is(source, position, QUOTE);
      if !ok {
        return;
      }
      ok, key := ScanString();
      if !ok {
        return;
      }
      SkipWhitespace();
      ok := Consume(COLON);
      if !ok {
        return;
      }
      SkipWhitespace();
    }

    method ScanArray() returns (ok: bool)
      requires Is(source, position, LEFT_BRACKET)
      modifies this
      ensures position <= |source|
      ensures (if ok then Some(position) else None) == EndOf(ReadArray(source, old(position)))
      decreases |source| - position, 0
    {
      position := position + 1;
      SkipWhitespace();
      ok := Consume(RIGHT_BRACKET);
      if ok {
        return;
      }
      ghost var start := position;
      while true
        invariant old(position) < position <= |source|
        invariant ItemsEnd(source, position) == ItemsEnd(source, start)
        decreases |source| - position
      {
        var outcome := ScanElement();
        if outcome != Separated {
          ArrayEnds(source, old(position), start);
          return outcome == Closed;
        }
      }
    }

    /** One turn of the loop over the elements of an array. */
    method ScanElement() returns (outcome: Turn)
      requires position <= |source|
      modifies this
      ensures position <= |source| && (outcome == Separated ==> old(position) < position)
      ensures ItemsEnd(source, old(position)) == TurnEnd(outcome, position, ItemsEnd(source, position))
      decreases |source| - position, 3
    {
      ArrayContinues(source, position);
      var ok := ScanSpacedValue();
      if !ok {
        return Failed;
      }
      assert ItemsEnd(source, old(position)) == MoreItemsEnd(source, position);
      ArrayGoesOn(source, position);
      outcome := ScanSeparator(RIGHT_BRACKET);
    }

    /** A backslash and what it escapes. */
    method ScanEscape() returns (ok: bool)
      requires Is(source, position, BACKSLASH)
      modifies this
      ensures old(position) <= position <= |source| && (ok ==> old(position) < position)
      ensures if ok then LiteralEnd(source, position) == LiteralEnd(source, old(position))
              else LiteralEnd(source, old(position)).None?
    {
      LiteralContinues(source, position);
      position := position + 1;
      if Is(source, position, LETTER_U) {
        ok := HexAt(source, position + 1) && HexAt(source, position + 2)
              && HexAt(source, position + 3) && HexAt(source, position + 4);
        if ok {
          position := position + 5;
        }
      } else {
        ok := position < |source| && IsShortEscape(source[position]);
        if ok {
          position := position + 1;
        }
      }
    }

    /** The scanned literal's meaning is what decoding its slice of the source gives. */
    method ScanString() returns (ok: bool, key: Text)
      requires Is(source, position, QUOTE)
      modifies this
      ensures old(position) <= position <= |source|
      ensures (if ok then Some(position) else None) == EndOf(ReadString(source, old(position)))
      ensures ok ==> key == ReadString(source, old(position)).value.0.Decoded()
    {
      var start := position;
      position := position + 1;
      while position < |source|
        invariant start < position <= |source| && start == old(position)
        invariant LiteralEnd(source, position) == LiteralEnd(source, start + 1)
        decreases |source| - position
      {
        var character := source[position];
        if character == QUOTE {
          position := position + 1;
          return true, ReadChunks(source, start + 1).value.Decoded();
        }
        if character == BACKSLASH {
          ok := ScanEscape();
          if !ok {
            return false, Empty;
          }
        } else {
          LiteralContinues(source, position);
          if character <= 0x1f {
            return false, Empty;
          }
          position := position + 1;
        }
      }
      return false, Empty;
    }

    method ScanNumber() returns (ok: bool)
      requires position <= |source|
      modifies this
      ensures position <= |source|
      ensures (if ok then Some(position) else None) == EndOf(ReadNumber(source, old(position)))
    {
      var matched := ReadNumeral(source, position);
      if matched.None? {
        return false;
      }
      ReadNumeralHas(source, position);
      position := position + Size(matched.value.Text());
      return true;
    }

    method Consume(u: CodeUnit) returns (ok: bool)
      requires position <= |source|
      modifies this
      ensures ok == Is(source, old(position), u)
      ensures position == (if ok then old(position) + 1 else old(position)) <= |source|
    {
      ok := Is(source, position, u);
      if ok {
        position := position + 1;
      }
    }

    method SkipWhitespace()
      requires position <= |source|
      modifies this
      ensures position == old(position) + Size(Run(source, old(position), Spaces)) <= |source|
    {
      while position < |source| && IsSpace(source[position])
        invariant old(position) <= position <= |source|
        invariant position + Size(Run(source, position, Spaces))
                  == old(position) + Size(Run(source, old(position), Spaces))
      {
        position := position + 1;
      }
    }
  }
}

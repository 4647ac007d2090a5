/**
 A record that was torn by a failed write spoils the file for good: whatever is appended later, replay
 refuses it. The proof follows quotes and brackets through the spoiled line.
 */
module LedgerTorn {
  import opened Prelude
  import opened JsonLexical
  import opened JsonGrammar
  import opened JsonValues
  import opened JsonCanonical
  import opened LedgerFraming
  import opened LedgerFile

  // ---- Quotes and brackets ----

  /** Outside strings, behind a closing quote or bracket, inside a string, behind a backslash. */
  datatype Mode = Outside | Shut | Inside | Escaping

  datatype Track = Dead | At(depth: int, mode: Mode)

  predicate Opens(u: CodeUnit) { u == LEFT_BRACE || u == LEFT_BRACKET }
  predicate Closes(u: CodeUnit) { u == RIGHT_BRACE || u == RIGHT_BRACKET }

  /** Every JSON text goes through these steps without dying. */
  function Step(t: Track, u: CodeUnit): Track {
    match t
    case Dead => Dead
    case At(depth, Outside) =>
      if u == QUOTE then At(depth, Inside)
      else if Opens(u) then At(depth + 1, Outside)
      else if Closes(u) then At(depth - 1, Shut)
      else t
    case At(depth, Shut) =>
      if Closes(u) then At(depth - 1, Shut)
      else if IsSpace(u) then t
      else if u == COMMA || u == COLON then At(depth, Outside)
      else Dead
    case At(depth, Inside) => if u == QUOTE then At(depth, Shut) else if u == BACKSLASH then At(depth, Escaping) else t
    case At(depth, Escaping) => if IsShortEscape(u) || u == LETTER_U then At(depth, Inside) else Dead
  }

  function Follow(t: Track, text: Text): Track
    decreases text
  {
    match text
    case Empty => t
    case Char(u, rest) => Follow(Step(t, u), rest)
  }

  lemma {:induction false} FollowJoined(t: Track, a: Text, b: Text)
    ensures Follow(t, Cat(a, b)) == Follow(Follow(t, a), b)
    decreases a
  {
    if a.Char? {
      FollowJoined(Step(t, a.head), a.rest, b);
    }
  }

  /** A value at this depth has ended. */
  predicate Resting(t: Track, depth: int) {
    t == At(depth, Outside) || t == At(depth, Shut)
  }

  /** The track is at the depth or below it in the tree, all along the text. */
  predicate Above(t: Track, text: Text, floor: int)
    decreases text
  {
    t.At? && t.depth >= floor && (text.Char? ==> Above(Step(t, text.head), text.rest, floor))
  }

  /** The same, except for where the last character leads. */
  predicate AboveToLast(t: Track, text: Text, floor: int)
    decreases text
  {
    text.Char? && t.At? && t.depth >= floor && (text.rest.Char? ==> AboveToLast(Step(t, text.head), text.rest, floor))
  }

  lemma {:induction false} AboveJoined(t: Track, a: Text, b: Text, floor: int)
    requires Above(t, a, floor) && Above(Follow(t, a), b, floor)
    ensures Above(t, Cat(a, b), floor)
    decreases a
  {
    if a.Char? {
      AboveJoined(Step(t, a.head), a.rest, b, floor);
    }
  }

  lemma {:induction false} AboveToLastJoined(t: Track, a: Text, b: Text, floor: int)
    requires Above(t, a, floor) && AboveToLast(Follow(t, a), b, floor)
    ensures AboveToLast(t, Cat(a, b), floor)
    decreases a
  {
    if a.Char? {
      AboveToLastJoined(Step(t, a.head), a.rest, b, floor);
      assert Cat(a.rest, b).Char?;
    }
  }

  /** Down to the depth in the last step only. */
  lemma {:induction false} AboveToLastReaches(t: Track, text: Text, floor: int)
    requires AboveToLast(t, text, floor + 1) && Follow(t, text) == At(floor, Shut)
    ensures Above(t, text, floor)
    decreases text
  {
    if text.rest.Char? {
      AboveToLastReaches(Step(t, text.head), text.rest, floor);
    }
  }

  // ---- Texts without quotes and brackets ----

  predicate Neutral(text: Text) {
    text.Char? ==> text.head != QUOTE && !Opens(text.head) && !Closes(text.head) && Neutral(text.rest)
  }

  lemma {:induction false} NeutralStays(text: Text, depth: int)
    requires Neutral(text)
    ensures Follow(At(depth, Outside), text) == At(depth, Outside) && Above(At(depth, Outside), text, depth)
    decreases text
  {
    if text.Char? {
      NeutralStays(text.rest, depth);
    }
  }

  lemma {:induction false} NeutralJoined(a: Text, b: Text)
    requires Neutral(a) && Neutral(b)
    ensures Neutral(Cat(a, b))
    decreases a
  {
    if a.Char? {
      NeutralJoined(a.rest, b);
    }
  }

  lemma {:induction false} DigitsAreNeutral(text: Text)
    requires All(text, Digits)
    ensures Neutral(text)
  {
    if text.Char? {
      DigitsAreNeutral(text.rest);
    }
  }

  lemma NumeralIsNeutral(n: Numeral)
    requires n.Valid()
    ensures Neutral(n.Text())
  {
    DigitsAreNeutral(n.whole);
    if n.fraction.Fraction? {
      DigitsAreNeutral(n.fraction.digits);
    }
    if n.exponent.Exponent? {
      DigitsAreNeutral(n.exponent.digits);
      ExponentIsNeutral(n.exponent);
    }
    NeutralJoined(n.fraction.Text(), n.exponent.Text());
    NeutralJoined(n.whole, n.Tail());
  }

  lemma ExponentIsNeutral(e: Exponent)
    requires e.Valid() && e.Exponent? && Neutral(e.digits)
    ensures Neutral(e.Text())
  {
    match e
    case Exponent(_, None, digits) =>
    case Exponent(_, Some(sign), digits) => assert Neutral(Char(sign, digits));
  }

  lemma LiteralsAreNeutral()
    ensures Neutral(TRUE_TEXT) && Neutral(FALSE_TEXT) && Neutral(NULL_TEXT)
  {
    assert Neutral(Char(0x75, One(0x65))) && Neutral(Char(0x73, One(0x65))) && Neutral(Char(0x6c, One(0x6c)));
    assert Neutral(Char(0x6c, Char(0x73, One(0x65))));
  }

  /** White space lets a value rest. */
  lemma {:induction false} BlankRests(t: Track, text: Text, depth: int)
    requires Blank(text) && Resting(t, depth)
    ensures Resting(Follow(t, text), depth) && Above(t, text, depth)
    ensures t == At(depth, Outside) ==> Follow(t, text) == t
    decreases text
  {
    if text.Char? {
      BlankRests(Step(t, text.head), text.rest, depth);
    }
  }

  // ---- Strings ----

  lemma ChunkStaysInside(chunk: Chunk, rest: Text, depth: int)
    requires chunk.Valid()
    ensures Follow(At(depth, Inside), chunk.Before(rest)) == Follow(At(depth, Inside), rest)
    ensures Above(At(depth, Inside), rest, depth) ==> Above(At(depth, Inside), chunk.Before(rest), depth)
  {
    match chunk
    case Raw(_) =>
    case Short(letter) =>
      assert Follow(At(depth, Escaping), Char(letter, rest)) == Follow(At(depth, Inside), rest);
      assert Above(At(depth, Inside), rest, depth) ==> Above(At(depth, Escaping), Char(letter, rest), depth);
    case Hex(a, b, c, d) =>
      var last := Char(c, Char(d, rest));
      assert Follow(At(depth, Inside), last) == Follow(At(depth, Inside), rest);
      assert Above(At(depth, Inside), rest, depth) ==> Above(At(depth, Inside), last, depth);
      assert Follow(At(depth, Inside), Char(a, Char(b, last))) == Follow(At(depth, Inside), last);
      assert Above(At(depth, Inside), last, depth) ==> Above(At(depth, Inside), Char(a, Char(b, last)), depth);
  }

  lemma {:induction false} ClosedShuts(chunks: Chunks, depth: int)
    requires chunks.Valid()
    ensures Follow(At(depth, Inside), chunks.Closed()) == At(depth, Shut)
    ensures Above(At(depth, Inside), chunks.Closed(), depth)
    decreases chunks
  {
    if chunks.NextChunk? {
      ClosedShuts(chunks.rest, depth);
      ChunkStaysInside(chunks.chunk, chunks.rest.Closed(), depth);
    }
  }

  // ---- Trees ----

  lemma KeyEnds(key: Key, depth: int)
    requires key.Valid()
    ensures Follow(At(depth, Outside), key.Text()) == At(depth, Outside) && Above(At(depth, Outside), key.Text(), depth)
  {
    var colon := Char(COLON, key.beforeValue);
    ClosedShuts(key.chunks, depth);
    BlankRests(At(depth, Shut), key.afterKey, depth);
    BlankRests(At(depth, Outside), key.beforeValue, depth);
    FollowJoined(At(depth, Shut), key.afterKey, colon);
    AboveJoined(At(depth, Shut), key.afterKey, colon, depth);
    FollowJoined(At(depth, Outside), key.chunks.Quoted(), Cat(key.afterKey, colon));
    AboveJoined(At(depth, Outside), key.chunks.Quoted(), Cat(key.afterKey, colon), depth);
  }

  lemma {:induction false} ValueRests(n: Node, depth: int)
    requires ValidNode(n)
    ensures Resting(Follow(At(depth, Outside), NodeText(n)), depth) && Above(At(depth, Outside), NodeText(n), depth)
    decreases n, 0
  {
    match n
    case NumberNode(numeral) =>
      NumeralIsNeutral(numeral);
      NeutralStays(numeral.Text(), depth);
    case StringNode(chunks) => ClosedShuts(chunks, depth);
    case EmptyArray(open) => BracketsRest(open, One(RIGHT_BRACKET), depth);
    case EmptyObject(open) => BracketsRest(open, One(RIGHT_BRACE), depth);
    case ArrayNode(open, items) =>
      ItemsClose(items, depth + 1);
      BracketsRest(open, ItemsText(items), depth);
    case ObjectNode(open, fields) =>
      FieldsClose(fields, depth + 1);
      BracketsRest(open, FieldsText(fields), depth);
    case _ =>
      LiteralsAreNeutral();
      NeutralStays(NodeText(n), depth);
  }

  /** What stands behind an opening bracket stays inside up to the closing one. */
  lemma BracketsRest(open: Text, inner: Text, depth: int)
    requires Blank(open) && Follow(At(depth + 1, Outside), inner) == At(depth, Shut)
    requires AboveToLast(At(depth + 1, Outside), inner, depth + 1)
    ensures Follow(At(depth + 1, Outside), Cat(open, inner)) == At(depth, Shut)
    ensures AboveToLast(At(depth + 1, Outside), Cat(open, inner), depth + 1)
    ensures Above(At(depth + 1, Outside), Cat(open, inner), depth)
  {
    BlankRests(At(depth + 1, Outside), open, depth + 1);
    FollowJoined(At(depth + 1, Outside), open, inner);
    AboveToLastJoined(At(depth + 1, Outside), open, inner, depth + 1);
    AboveToLastReaches(At(depth + 1, Outside), Cat(open, inner), depth);
  }

  /** A value, the white space behind it and what follows. */
  lemma ValueThen(t: Track, value: Text, after: Text, more: Text, depth: int)
    requires Above(t, value, depth) && Resting(Follow(t, value), depth) && Blank(after) && more.Char?
    requires forall u: Track | Resting(u, depth) ::
             Follow(u, more) == At(depth - 1, Shut) && AboveToLast(u, more, depth)
    ensures Follow(t, Cat(value, Cat(after, more))) == At(depth - 1, Shut)
    ensures AboveToLast(t, Cat(value, Cat(after, more)), depth)
  {
    var ended := Follow(t, value);
    BlankRests(ended, after, depth);
    FollowJoined(ended, after, more);
    AboveToLastJoined(ended, after, more, depth);
    FollowJoined(t, value, Cat(after, more));
    AboveToLastJoined(t, value, Cat(after, more), depth);
  }

  lemma {:induction false} ItemsClose(items: Items, depth: int)
    requires ValidItems(items)
    ensures Follow(At(depth, Outside), ItemsText(items)) == At(depth - 1, Shut)
    ensures AboveToLast(At(depth, Outside), ItemsText(items), depth)
    decreases items, 0
  {
    ValueRests(items.value, depth);
    forall u: Track | Resting(u, depth)
      ensures Follow(u, MoreItemsText(items.more)) == At(depth - 1, Shut)
              && AboveToLast(u, MoreItemsText(items.more), depth)
    {
      MoreItemsClose(items.more, u, depth);
    }
    ValueThen(At(depth, Outside), NodeText(items.value), items.after, MoreItemsText(items.more), depth);
  }

  lemma {:induction false} MoreItemsClose(more: MoreItems, t: Track, depth: int)
    requires ValidMoreItems(more) && Resting(t, depth)
    ensures Follow(t, MoreItemsText(more)) == At(depth - 1, Shut) && AboveToLast(t, MoreItemsText(more), depth)
    decreases more, 0
  {
    if more.NextItem? {
      ItemsClose(more.next, depth);
      SeparatedClose(more.before, ItemsText(more.next), t, depth);
    }
  }

  lemma SeparatedClose(before: Text, next: Text, t: Track, depth: int)
    requires Blank(before) && Resting(t, depth)
    requires Follow(At(depth, Outside), next) == At(depth - 1, Shut) && AboveToLast(At(depth, Outside), next, depth)
    ensures Follow(t, Char(COMMA, Cat(before, next))) == At(depth - 1, Shut)
    ensures AboveToLast(t, Char(COMMA, Cat(before, next)), depth)
  {
    BlankRests(At(depth, Outside), before, depth);
    FollowJoined(At(depth, Outside), before, next);
    AboveToLastJoined(At(depth, Outside), before, next, depth);
  }

  lemma {:induction false} FieldsClose(fields: Fields, depth: int)
    requires ValidFields(fields)
    ensures Follow(At(depth, Outside), FieldsText(fields)) == At(depth - 1, Shut)
    ensures AboveToLast(At(depth, Outside), FieldsText(fields), depth)
    decreases fields, 0
  {
    KeyEnds(fields.key, depth);
    ValueRests(fields.value, depth);
    forall u: Track | Resting(u, depth)
      ensures Follow(u, MoreFieldsText(fields.more)) == At(depth - 1, Shut)
              && AboveToLast(u, MoreFieldsText(fields.more), depth)
    {
      MoreFieldsClose(fields.more, u, depth);
    }
    ValueThen(At(depth, Outside), NodeText(fields.value), fields.after, MoreFieldsText(fields.more), depth);
    FollowJoined(At(depth, Outside), fields.key.Text(), FieldRest(fields));
    AboveToLastJoined(At(depth, Outside), fields.key.Text(), FieldRest(fields), depth);
  }

  lemma {:induction false} MoreFieldsClose(more: MoreFields, t: Track, depth: int)
    requires ValidMoreFields(more) && Resting(t, depth)
    ensures Follow(t, MoreFieldsText(more)) == At(depth - 1, Shut) && AboveToLast(t, MoreFieldsText(more), depth)
    decreases more, 0
  {
    if more.NextField? {
      FieldsClose(more.next, depth);
      SeparatedClose(more.before, FieldsText(more.next), t, depth);
    }
  }

  /** A document that is read leaves no string open and no bracket. */
  lemma AcceptedRests(s: Source, text: Text)
    requires ReadDocument(s).Some? && Spells(s, text)
    ensures Resting(Follow(At(0, Outside), text), 0)
  {
    var d := ReadDocument(s).value;
    AcceptedIsDocument(s);
    HasOneText(s, 0, text, d.Text());
    BlankRests(At(0, Outside), d.before, 0);
    ValueRests(d.value, 0);
    BlankRests(Follow(At(0, Outside), NodeText(d.value)), d.after, 0);
    FollowJoined(At(0, Outside), NodeText(d.value), d.after);
    FollowJoined(At(0, Outside), d.before, Cat(NodeText(d.value), d.after));
  }

  // ---- Events ----

  /** An object whose first key begins with a small letter, as the event schema has them. */
  predicate Named(v: Value) {
    v.Obj? && v.members.Member? && v.members.key.Char? && 0x61 <= v.members.key.head <= 0x7a
  }

  predicate IsEvent(c: Codec, v: Value) {
    Good(c, v) && Named(Canonical(c.nfc, v))
  }

  predicate BeginsObject(text: Text) {
    text.Char? && text.head == LEFT_BRACE && BeginsName(text.rest)
  }

  predicate BeginsName(text: Text) {
    text.Char? && text.head == QUOTE && text.rest.Char? && 0x61 <= text.rest.head <= 0x7a
  }

  lemma BeginsJoined(a: Text, b: Text)
    requires BeginsName(a)
    ensures BeginsName(Cat(a, b))
  {
    assert Cat(a.rest, b) == Char(a.rest.head, Cat(a.rest.rest, b));
  }

  /** What the members of an event look like behind the opening brace. */
  lemma EventInside(c: Codec, v: Value)
    requires IsEvent(c, v)
    ensures var text := CanonicalText(c.nfc, v);
            && BeginsObject(text) && NoLineFeed(text)
            && AboveToLast(At(1, Outside), text.rest, 1) && Follow(At(1, Outside), text.rest) == At(0, Shut)
  {
    var canonical := Canonical(c.nfc, v);
    var members := canonical.members;
    var fields := FieldsOf(members);
    PrintHasNoLineFeed(canonical);
    NodeOfMeans(canonical);
    var chunks := Escaped(members.key);
    assert chunks.chunk == Raw(members.key.head) && chunks.Closed() == Char(members.key.head, chunks.rest.Closed());
    BeginsJoined(chunks.Quoted(), Cat(fields.key.afterKey, Char(COLON, fields.key.beforeValue)));
    BeginsJoined(fields.key.Text(), FieldRest(fields));
    FieldsClose(fields, 1);
  }

  /** From any track, the text of an event goes no lower than it began. */
  lemma EventAbove(c: Codec, v: Value, depth: int)
    requires IsEvent(c, v)
    ensures Above(At(depth, Outside), CanonicalText(c.nfc, v), depth)
  {
    NodeOfMeans(Canonical(c.nfc, v));
    ValueRests(NodeOf(Canonical(c.nfc, v)), depth);
  }

  // ---- Beginnings of records ----

  lemma {:induction false} AbovePrefix(t: Track, begun: Text, rest: Text, floor: int)
    requires Above(t, Cat(begun, rest), floor)
    ensures Follow(t, begun).At? && Follow(t, begun).depth >= floor
    decreases begun
  {
    if begun.Char? {
      AbovePrefix(Step(t, begun.head), begun.rest, rest, floor);
    }
  }

  lemma {:induction false} AboveToLastPrefix(t: Track, begun: Text, rest: Text, floor: int)
    requires AboveToLast(t, Cat(begun, rest), floor) && rest.Char?
    ensures Follow(t, begun).At? && Follow(t, begun).depth >= floor
    decreases begun
  {
    if begun.Char? {
      assert Cat(begun.rest, rest).Char?;
      AboveToLastPrefix(Step(t, begun.head), begun.rest, rest, floor);
    }
  }

  lemma {:induction false} DeadStays(text: Text)
    ensures Follow(Dead, text) == Dead
  {
    if text.Char? {
      DeadStays(text.rest);
    }
  }

  /** No document ends here. */
  predicate Stuck(t: Track) {
    t == Dead || t.depth >= 1
  }

  /** No document ends behind an event that begins here. */
  predicate Spoilt(t: Track) {
    Stuck(t) || t == At(0, Shut)
  }

  /** The beginning of an event leaves something open, or is the whole text without its line feed. */
  lemma TornSpoils(c: Codec, v: Value, torn: Text, rest: Text)
    requires IsEvent(c, v) && Cat(torn, rest) == CanonicalText(c.nfc, v) && torn.Char?
    ensures Spoilt(Follow(At(0, Outside), torn))
  {
    EventInside(c, v);
    if rest.Char? {
      AboveToLastPrefix(At(1, Outside), torn.rest, rest, 1);
    } else {
      CatEmpty(torn);
    }
  }

  /** Behind a torn record, the beginning of another one is stuck. */
  lemma EventSticks(c: Codec, v: Value, t: Track, begun: Text, rest: Text)
    requires IsEvent(c, v) && Cat(begun, rest) == CanonicalText(c.nfc, v) && begun.Char? && Spoilt(t)
    ensures Stuck(Follow(t, begun))
  {
    EventInside(c, v);
    match t
    case Dead => DeadStays(begun);
    case At(depth, Outside) =>
      EventAbove(c, v, depth);
      AbovePrefix(t, begun, rest, depth);
    case At(depth, Inside) =>
      assert Follow(t, begun) == Follow(t, begun.rest);
      if begun.rest.Char? {
        var name := begun.rest.rest;
        assert Follow(t, begun.rest) == Follow(At(depth, Shut), name);
        if name.Char? {
          assert Cat(begun.rest, rest).rest == Cat(name, rest);
          DeadStays(name.rest);
        }
      }
    case _ => DeadStays(begun.rest);
  }

  // ---- What is appended after a torn record ----

  predicate Attempted(c: Codec, a: Attempt) {
    IsEvent(c, a.event) && IsPart(c, a)
  }

  predicate AreAttempts(c: Codec, attempts: seq<Attempt>) {
    forall i | 0 <= i < |attempts| :: Attempted(c, attempts[i])
  }

  predicate Torn(c: Codec, a: Attempt) {
    Attempted(c, a) && 0 < a.units < Size(Record(c, a.event))
  }

  predicate NoneTorn(c: Codec, attempts: seq<Attempt>) {
    forall i | 0 <= i < |attempts| :: !Torn(c, attempts[i])
  }

  /** What a failed append leaves: nothing, or the beginning of the text. */
  lemma {:induction false} FirstOfRecord(text: Text, n: nat) returns (rest: Text)
    requires n <= Size(text)
    ensures First(Cat(text, One(LINE_FEED)), n) == First(text, n)
    ensures Cat(First(text, n), rest) == text
    ensures n > 0 ==> First(text, n).Char?
    ensures NoLineFeed(text) ==> NoLineFeed(First(text, n))
  {
    if n == 0 {
      rest := text;
    } else {
      rest := FirstOfRecord(text.rest, n - 1);
    }
  }

  /** The first line, if it is ended at all, is none that replay reads. */
  ghost predicate Unreadable(c: Codec, file: Text) {
    file.Char? && (BehindLine(file).Some? ==> ParseStrict(SourceOf(FirstLine(file)), c.clean).None?)
  }

  lemma StuckIsRejected(c: Codec, line: Text)
    requires Stuck(Follow(At(0, Outside), line))
    ensures ParseStrict(SourceOf(line), c.clean).None?
  {
    if ReadDocument(SourceOf(line)).Some? {
      SourceSpells(line);
      AcceptedRests(SourceOf(line), line);
    }
  }

  lemma {:induction false} SourceHas(text: Text, before: Source)
    ensures Has(before + SourceOf(text), |before|, text)
    decreases text
  {
    if text.Char? {
      SourceHas(text.rest, before + [text.head]);
      assert before + SourceOf(text) == before + [text.head] + SourceOf(text.rest);
    }
  }

  lemma SourceSpells(text: Text)
    ensures Spells(SourceOf(text), text)
  {
    SourceHas(text, []);
    assert [] + SourceOf(text) == SourceOf(text);
  }

  lemma {:induction false} NoLineEnds(text: Text)
    requires NoLineFeed(text)
    ensures BehindLine(text).None?
  {
    if text.Char? {
      NoLineEnds(text.rest);
    }
  }

  /** Whatever is appended behind a spoilt beginning, its line is never read. */
  lemma {:induction false} SpoiltStaysUnreadable(c: Codec, line: Text, attempts: seq<Attempt>)
    requires line.Char? && NoLineFeed(line) && Spoilt(Follow(At(0, Outside), line))
    requires AreAttempts(c, attempts)
    ensures Unreadable(c, Cat(line, AllWritten(c, attempts)))
    decreases |attempts|
  {
    if attempts == [] {
      CatEmpty(line);
      NoLineEnds(line);
    } else {
      var a, later := attempts[0], AllWritten(c, attempts[1..]);
      assert a in attempts;
      var text := CanonicalText(c.nfc, a.event);
      EventInside(c, a.event);
      if a.units <= Size(text) {
        var rest := FirstOfRecord(text, a.units);
        var begun := First(text, a.units);
        if begun.Char? {
          EventSticks(c, a.event, Follow(At(0, Outside), line), begun, rest);
        } else {
          CatEmpty(line);
        }
        FollowJoined(At(0, Outside), line, begun);
        CatHasNoLineFeed(line, begun);
        CatAssociates(line, begun, later);
        SpoiltStaysUnreadable(c, Cat(line, begun), attempts[1..]);
      } else {
        CatEmpty(text);
        EventSticks(c, a.event, Follow(At(0, Outside), line), text, Empty);
        FollowJoined(At(0, Outside), line, text);
        CatHasNoLineFeed(line, text);
        FirstAndBehind(Record(c, a.event), a.units);
        CatAssociates(text, One(LINE_FEED), later);
        CatAssociates(line, text, Char(LINE_FEED, later));
        LineIsFirst(Cat(line, text), later);
        StuckIsRejected(c, Cat(line, text));
      }
    }
  }

  /** A line that is not read makes replay fail, whatever else is in the file. */
  lemma {:induction false} OneLineFails(c: Codec, lines: seq<Text>, seen: Seen, i: nat)
    requires i < |lines| && ParseStrict(SourceOf(lines[i]), c.clean).None?
    ensures !ReplayLines(c, lines, seen).Replayed?
    decreases i
  {
    var parsed := ParseStrict(SourceOf(lines[0]), c.clean);
    if parsed.Some? && c.schema(parsed.value).Some? {
      OneLineFails(c, lines[1..], Noted(seen, c.schema(parsed.value).value), i - 1);
    }
  }

  lemma RecordFirst(c: Codec, vs: seq<Value>, tail: Text)
    requires AllGood(c, vs) && vs != []
    ensures NoLineFeed(CanonicalText(c.nfc, vs[0]))
    ensures Cat(FileOf(c, vs), tail)
            == Cat(CanonicalText(c.nfc, vs[0]), Char(LINE_FEED, Cat(FileOf(c, vs[1..]), tail)))
  {
    PrintHasNoLineFeed(Canonical(c.nfc, vs[0]));
    CatAssociates(Record(c, vs[0]), FileOf(c, vs[1..]), tail);
    CatAssociates(CanonicalText(c.nfc, vs[0]), One(LINE_FEED), Cat(FileOf(c, vs[1..]), tail));
  }

  /** A line of the rest of a file is the next line of the file. */
  lemma LineBehind(line: Text, rest: Text, i: nat)
    requires NoLineFeed(line) && (Lines(rest).Some? ==> i < |Lines(rest).value|)
    ensures var lines := Lines(Cat(line, Char(LINE_FEED, rest)));
            lines.Some? ==> Lines(rest).Some? && i + 1 < |lines.value| && lines.value[i + 1] == Lines(rest).value[i]
  {
    LineIsFirst(line, rest);
  }

  lemma {:induction false} UnreadableBehind(c: Codec, vs: seq<Value>, tail: Text)
    requires AllGood(c, vs) && Unreadable(c, tail)
    ensures var lines := Lines(Cat(FileOf(c, vs), tail));
            lines.Some? ==> |lines.value| > |vs| && ParseStrict(SourceOf(lines.value[|vs|]), c.clean).None?
    decreases |vs|
  {
    if vs != [] {
      var line, rest := CanonicalText(c.nfc, vs[0]), Cat(FileOf(c, vs[1..]), tail);
      UnreadableBehind(c, vs[1..], tail);
      RecordFirst(c, vs, tail);
      assert Cat(FileOf(c, vs), tail) == Cat(line, Char(LINE_FEED, rest));
      LineBehind(line, rest, |vs| - 1);
    }
  }

  /**
   After an append that failed part-way, no later appends, complete or failed, make the file replayable
   again.
   */
  lemma TornRecordIsFinal(c: Codec, vs: seq<Value>, torn: Attempt, later: seq<Attempt>)
    requires AllGood(c, vs) && Torn(c, torn) && AreAttempts(c, later)
    ensures !ReplayFile(c, Cat(FileOf(c, vs), Cat(Written(c, torn), AllWritten(c, later)))).Replayed?
  {
    var text := CanonicalText(c.nfc, torn.event);
    EventInside(c, torn.event);
    var rest := FirstOfRecord(text, torn.units);
    TornSpoils(c, torn.event, Written(c, torn), rest);
    SpoiltStaysUnreadable(c, Written(c, torn), later);
    var tail := Cat(Written(c, torn), AllWritten(c, later));
    UnreadableBehind(c, vs, tail);
    var lines := Lines(Cat(FileOf(c, vs), tail));
    if lines.Some? {
      OneLineFails(c, lines.value, NOTHING_SEEN, |vs|);
    }
  }

  // ---- When a file replays ----

  /** The events whose whole records were written. */
  function Completed(c: Codec, attempts: seq<Attempt>): seq<Value>
    requires AreParts(c, attempts)
  {
    if attempts == [] then []
    else (if IsWhole(c, attempts[0]) then [attempts[0].event] else []) + Completed(c, attempts[1..])
  }

  lemma {:induction false} CompletedAreGood(c: Codec, attempts: seq<Attempt>)
    requires AreParts(c, attempts)
    ensures AllGood(c, Completed(c, attempts))
  {
    if attempts != [] {
      CompletedAreGood(c, attempts[1..]);
    }
  }

  /** Without torn records the file is that of the completed events. */
  lemma {:induction false} UntornFile(c: Codec, attempts: seq<Attempt>)
    requires AreAttempts(c, attempts) && NoneTorn(c, attempts)
    ensures AllGood(c, Completed(c, attempts)) && AllWritten(c, attempts) == FileOf(c, Completed(c, attempts))
  {
    CompletedAreGood(c, attempts);
    if attempts != [] {
      var a, later := attempts[0], attempts[1..];
      UntornFile(c, later);
      assert a in attempts;
      FirstAndBehind(Record(c, a.event), a.units);
      if IsWhole(c, a) {
        assert Completed(c, attempts)[1..] == Completed(c, later);
      } else {
        assert Completed(c, attempts) == Completed(c, later);
      }
    }
  }

  lemma {:induction false} FirstTorn(c: Codec, attempts: seq<Attempt>) returns (i: nat)
    requires !NoneTorn(c, attempts)
    ensures i < |attempts| && Torn(c, attempts[i]) && NoneTorn(c, attempts[..i])
  {
    i := 0;
    if !Torn(c, attempts[0]) {
      i := FirstTorn(c, attempts[1..]);
      i := i + 1;
      assert attempts[..i] == [attempts[0]] + attempts[1..][..i - 1];
    }
  }

  /**
   The file that appends leave, failed ones among them, can be replayed exactly when none is torn and the identifiers
   of the completed events are distinct; it then gives the completed events in order.
   */
  lemma ReplayableIffUntorn(c: Codec, attempts: seq<Attempt>)
    requires Idempotent(c.nfc) && AreAttempts(c, attempts)
    ensures AllGood(c, Completed(c, attempts))
    ensures var r := ReplayFile(c, AllWritten(c, attempts));
            && (r.Replayed? <==> NoneTorn(c, attempts) && IdsDistinct(IdsOf(c, Completed(c, attempts))))
            && (r.Replayed? ==> r.events == Canonicals(c, Completed(c, attempts)))
  {
    CompletedAreGood(c, attempts);
    if !NoneTorn(c, attempts) {
      var i := FirstTorn(c, attempts);
      var before, later := attempts[..i], attempts[i + 1..];
      UntornFile(c, before);
      assert attempts[i..][1..] == later;
      AllWrittenSplit(c, attempts, i);
      TornRecordIsFinal(c, Completed(c, before), attempts[i], later);
    } else {
      UntornFile(c, attempts);
      AppendedIsReplayed(c, Completed(c, attempts));
    }
  }

  /**
   At any moment of any run, failing appends and an open one included, the file can be replayed exactly when neither
   an ended append nor the open one is torn and the identifiers of the completed events are distinct.
   */
  lemma ReplayAtAnyMoment(c: Codec, steps: seq<Step>)
    requires Idempotent(c.nfc) && LedgerFile.Run(c, steps).Some? && forall v | v in Calls(steps) :: IsEvent(c, v)
    ensures InOrder(c, LedgerFile.Run(c, steps).value, Calls(steps))
    ensures var q := LedgerFile.Run(c, steps).value;
            var all := q.attempts + Open(q);
            var r := ReplayFile(c, q.file);
            && AreAttempts(c, all) && AllGood(c, Completed(c, all))
            && (r.Replayed? <==> NoneTorn(c, all) && IdsDistinct(IdsOf(c, Completed(c, all))))
            && (r.Replayed? ==> r.events == Canonicals(c, Completed(c, all)))
  {
    EveryRunIsInOrder(c, steps);
    var q, calls := LedgerFile.Run(c, steps).value, Calls(steps);
    var all := q.attempts + Open(q);
    forall i | 0 <= i < |all|
      ensures Attempted(c, all[i])
    {
      assert all[i].event == calls[i] && calls[i] in calls;
    }
    FileIsWritten(c, q, calls);
    ReplayableIffUntorn(c, all);
  }

  lemma {:induction false} WholeIsCompleted(c: Codec, attempts: seq<Attempt>, a: Attempt)
    requires AreParts(c, attempts) && a in attempts && IsWhole(c, a)
    ensures a.event in Completed(c, attempts)
  {
    if attempts[0] != a {
      WholeIsCompleted(c, attempts[1..], a);
    }
  }

  lemma CanonicalIsAmong(c: Codec, vs: seq<Value>, v: Value)
    requires v in vs
    ensures Canonical(c.nfc, v) in Canonicals(c, vs)
  {
    var i :| 0 <= i < |vs| && vs[i] == v;
    assert Canonicals(c, vs)[i] == Canonical(c.nfc, v);
  }

  /** Whenever the file can be replayed, every acknowledged event is among those that replay gives. */
  lemma AcknowledgedIsReplayed(c: Codec, steps: seq<Step>, i: nat)
    requires Idempotent(c.nfc) && LedgerFile.Run(c, steps).Some? && forall v | v in Calls(steps) :: IsEvent(c, v)
    requires i < |LedgerFile.Run(c, steps).value.answers| && LedgerFile.Run(c, steps).value.answers[i]
    requires ReplayFile(c, LedgerFile.Run(c, steps).value.file).Replayed?
    ensures i < |Calls(steps)|
    ensures Canonical(c.nfc, Calls(steps)[i]) in ReplayFile(c, LedgerFile.Run(c, steps).value.file).events
  {
    ReplayAtAnyMoment(c, steps);
    var q := LedgerFile.Run(c, steps).value;
    var all := q.attempts + Open(q);
    assert all[i] == q.attempts[i];
    WholeIsCompleted(c, all, q.attempts[i]);
    CanonicalIsAmong(c, Completed(c, all), Calls(steps)[i]);
  }
}

/**
 The ledger file: one canonical JSON text and a line feed per event. What was appended is replayed, and a
 truncated file is replayed as a prefix of it or refused.
 */
module LedgerFraming {
  import opened Prelude
  import opened JsonLexical
  import opened JsonGrammar
  import opened JsonValues
  import opened JsonCanonical

  const LINE_FEED: CodeUnit := 10

  /** The kinds of events that carry an identifier of their own besides the event's. */
  datatype Kind = Reservation | Settlement | Approval | Plain

  datatype Ids = Ids(event: Text, kind: Kind, id: Text)

  /** Normalisation, the scan for secrets, and the event schema. */
  datatype Codec = Codec(nfc: Normal, clean: Value -> bool, schema: Value -> Option<Ids>)

  /** An event that the schema and the scan accept, as a caller of `append` hands it over. */
  predicate Good(c: Codec, v: Value) {
    && Printable(v) && Printable(Canonical(c.nfc, v))
    && c.clean(Canonical(c.nfc, v)) && c.schema(Canonical(c.nfc, v)).Some?
  }

  predicate AllGood(c: Codec, vs: seq<Value>) {
    forall i | 0 <= i < |vs| :: Good(c, vs[i])
  }

  function IdsIn(c: Codec, v: Value): Ids
    requires Good(c, v)
  {
    c.schema(Canonical(c.nfc, v)).value
  }

  // ---- Lines ----

  predicate NoLineFeed(text: Text) {
    text.Char? ==> text.head != LINE_FEED && NoLineFeed(text.rest)
  }

  function FirstLine(text: Text): Text {
    if text.Empty? || text.head == LINE_FEED then Empty else Char(text.head, FirstLine(text.rest))
  }

  /** What stands behind the first line feed; `None` when there is none. */
  function BehindLine(text: Text): (rest: Option<Text>)
    ensures rest.Some? ==> Size(rest.value) < Size(text)
  {
    match text
    case Empty => None
    case Char(u, rest) => if u == LINE_FEED then Some(rest) else BehindLine(rest)
  }

  /** The lines of a file that ends in a line feed or is empty. */
  function Lines(file: Text): Option<seq<Text>>
    decreases Size(file)
  {
    if file.Empty? then Some([])
    else
      match BehindLine(file)
      case None => None
      case Some(rest) =>
        match Lines(rest)
        case None => None
        case Some(lines) => Some([FirstLine(file)] + lines)
  }

  lemma {:induction false} LineIsFirst(line: Text, rest: Text)
    requires NoLineFeed(line)
    ensures FirstLine(Cat(line, Char(LINE_FEED, rest))) == line
    ensures BehindLine(Cat(line, Char(LINE_FEED, rest))) == Some(rest)
    decreases line
  {
    if line.Char? {
      LineIsFirst(line.rest, rest);
    }
  }

  // ---- Printed values have no line feed ----

  lemma {:induction false} CatHasNoLineFeed(a: Text, b: Text)
    requires NoLineFeed(a) && NoLineFeed(b)
    ensures NoLineFeed(Cat(a, b))
    decreases a
  {
    if a.Char? {
      CatHasNoLineFeed(a.rest, b);
    }
  }

  lemma {:induction false} ChunksHaveNoLineFeed(chunks: Chunks)
    requires chunks.Valid()
    ensures NoLineFeed(chunks.Closed())
  {
    if chunks.NextChunk? {
      ChunksHaveNoLineFeed(chunks.rest);
      ChunkHasNoLineFeed(chunks.chunk, chunks.rest.Closed());
    }
  }

  lemma ChunkHasNoLineFeed(chunk: Chunk, text: Text)
    requires chunk.Valid() && NoLineFeed(text)
    ensures NoLineFeed(chunk.Before(text))
  {
    match chunk
    case Raw(_) =>
    case Short(_) =>
    case Hex(a, b, c, d) =>
      assert NoLineFeed(Char(c, Char(d, text)));
      assert NoLineFeed(Char(a, Char(b, Char(c, Char(d, text)))));
  }

  lemma {:induction false} NatTextHasNoLineFeed(n: nat)
    ensures NoLineFeed(NatText(n))
  {
    if n >= 10 {
      NatTextHasNoLineFeed(n / 10);
      CatHasNoLineFeed(NatText(n / 10), One(ZERO + n % 10));
    }
  }

  lemma {:induction false} PrintHasNoLineFeed(v: Value)
    requires Printable(v)
    ensures NoLineFeed(Print(v)) && Print(v).Char?
    decreases v
  {
    match v
    case Bool(b) => LiteralsHaveNoLineFeed();
    case Null => LiteralsHaveNoLineFeed();
    case Whole(n) => NumberHasNoLineFeed(n);
    case Str(text) =>
      EscapedMeans(text);
      ChunksHaveNoLineFeed(Escaped(text));
    case Arr(items) => if items.Values? { ItemsHaveNoLineFeed(items); }
    case Obj(members) => if members.Member? { FieldsHaveNoLineFeed(members); }
  }

  lemma LiteralsHaveNoLineFeed()
    ensures NoLineFeed(TRUE_TEXT) && NoLineFeed(FALSE_TEXT) && NoLineFeed(NULL_TEXT)
  {
    assert NoLineFeed(Char(0x75, One(0x65))) && NoLineFeed(Char(0x73, One(0x65))) && NoLineFeed(Char(0x6c, One(0x6c)));
    assert NoLineFeed(Char(0x6c, Char(0x73, One(0x65))));
  }

  lemma NumberHasNoLineFeed(n: int)
    requires Printable(Whole(n))
    ensures NoLineFeed(Print(Whole(n))) && Print(Whole(n)).Char?
  {
    var size := if n < 0 then -n else n;
    NatTextMeans(size);
    NatTextHasNoLineFeed(size);
    CatEmpty(NatText(size));
  }

  lemma {:induction false} ItemsHaveNoLineFeed(items: Values)
    requires items.Values? && PrintableValues(items)
    ensures NoLineFeed(ItemsText(ItemsOf(items)))
    decreases items
  {
    PrintHasNoLineFeed(items.head);
    if items.rest.Values? {
      ItemsHaveNoLineFeed(items.rest);
    }
    CatHasNoLineFeed(Print(items.head), MoreItemsText(ItemsOf(items).more));
  }

  lemma {:induction false} FieldsHaveNoLineFeed(members: Members)
    requires members.Member? && PrintableMembers(members)
    ensures NoLineFeed(FieldsText(FieldsOf(members)))
    decreases members
  {
    var fields := FieldsOf(members);
    EscapedMeans(members.key);
    ChunksHaveNoLineFeed(fields.key.chunks);
    CatHasNoLineFeed(fields.key.chunks.Quoted(), One(COLON));
    PrintHasNoLineFeed(members.value);
    if members.rest.Member? {
      FieldsHaveNoLineFeed(members.rest);
    }
    CatHasNoLineFeed(Print(members.value), MoreFieldsText(fields.more));
    CatHasNoLineFeed(fields.key.Text(), FieldRest(fields));
  }

  // ---- Replay ----

  datatype Replay<T> = Replayed(events: seq<T>) | PartialRecord | EmptyRecord | InvalidJson | InvalidEvent | DuplicateId

  /** The identifiers met so far: of events, and of each kind. */
  datatype Seen = Seen(events: set<Text>, owned: set<(Kind, Text)>)

  const NOTHING_SEEN: Seen := Seen({}, {})

  predicate Fits(seen: Seen, ids: Ids) {
    ids.event !in seen.events && (ids.kind != Plain ==> (ids.kind, ids.id) !in seen.owned)
  }

  function Noted(seen: Seen, ids: Ids): Seen {
    Seen(seen.events + {ids.event}, if ids.kind == Plain then seen.owned else seen.owned + {(ids.kind, ids.id)})
  }

  /** The remaining lines, after the identifiers seen so far. */
  function ReplayLines(c: Codec, lines: seq<Text>, seen: Seen): Replay<Value> {
    if lines == [] then Replayed([])
    else
      match ParseStrict(SourceOf(lines[0]), c.clean)
      case None => InvalidJson
      case Some(v) =>
        if c.schema(v).None? then InvalidEvent
        else if !Fits(seen, c.schema(v).value) then DuplicateId
        else
          match ReplayLines(c, lines[1..], Noted(seen, c.schema(v).value))
          case Replayed(events) => Replayed([v] + events)
          case error => error
  }

  function ReplayFile(c: Codec, file: Text): Replay<Value> {
    match Lines(file)
    case None => PartialRecord
    case Some(lines) =>
      if exists i | 0 <= i < |lines| :: lines[i].Empty? then EmptyRecord else ReplayLines(c, lines, NOTHING_SEEN)
  }

  // ---- What was appended ----

  function Record(c: Codec, v: Value): Text
    requires Good(c, v)
  {
    Cat(CanonicalText(c.nfc, v), One(LINE_FEED))
  }

  function FileOf(c: Codec, vs: seq<Value>): Text
    requires AllGood(c, vs)
  {
    if vs == [] then Empty else Cat(Record(c, vs[0]), FileOf(c, vs[1..]))
  }

  function Canonicals(c: Codec, vs: seq<Value>): seq<Value> {
    seq(|vs|, i requires 0 <= i < |vs| => Canonical(c.nfc, vs[i]))
  }

  /** The identifiers of the events, in order. */
  ghost function IdsOf(c: Codec, vs: seq<Value>): seq<Ids>
    requires AllGood(c, vs)
  {
    seq(|vs|, i requires 0 <= i < |vs| => IdsIn(c, vs[i]))
  }

  /** No event id twice, and no identifier of a kind twice. */
  predicate IdsDistinct(ids: seq<Ids>) {
    forall i, j | 0 <= i < j < |ids| :: Apart(ids[i], ids[j])
  }

  predicate Apart(a: Ids, b: Ids) {
    a.event != b.event && (a.kind == b.kind && a.kind != Plain ==> a.id != b.id)
  }

  lemma {:induction false} CatAssociates(a: Text, b: Text, c: Text)
    ensures Cat(Cat(a, b), c) == Cat(a, Cat(b, c))
    decreases a
  {
    if a.Char? {
      CatAssociates(a.rest, b, c);
    }
  }

  /** The lines of the file are the canonical texts. */
  lemma {:induction false} LinesOfFile(c: Codec, vs: seq<Value>)
    requires AllGood(c, vs)
    ensures Lines(FileOf(c, vs)).Some? && |Lines(FileOf(c, vs)).value| == |vs|
    ensures forall i | 0 <= i < |vs| :: Lines(FileOf(c, vs)).value[i] == CanonicalText(c.nfc, vs[i])
    ensures forall i | 0 <= i < |vs| :: Lines(FileOf(c, vs)).value[i].Char?
    decreases |vs|
  {
    if vs != [] {
      var text, rest := CanonicalText(c.nfc, vs[0]), FileOf(c, vs[1..]);
      PrintHasNoLineFeed(Canonical(c.nfc, vs[0]));
      CatAssociates(text, One(LINE_FEED), rest);
      LineIsFirst(text, rest);
      LinesOfFile(c, vs[1..]);
    }
  }

  /** The identifiers seen are those of some events. */
  ghost predicate SeenFrom(seen: Seen, before: seq<Ids>) {
    forall ids :: Fits(seen, ids) <==> forall i | 0 <= i < |before| :: Apart(before[i], ids)
  }

  lemma NotedFrom(seen: Seen, before: seq<Ids>, ids: Ids)
    requires SeenFrom(seen, before)
    ensures SeenFrom(Noted(seen, ids), before + [ids])
  {
    var all := before + [ids];
    forall other: Ids
      ensures Fits(Noted(seen, ids), other) <==> forall i | 0 <= i < |all| :: Apart(all[i], other)
    {
      assert Fits(Noted(seen, ids), other) <==> Fits(seen, other) && Apart(ids, other);
      assert all[|before|] == ids && forall i | 0 <= i < |before| :: all[i] == before[i];
    }
  }

  /** Identifiers that repeat neither each other nor earlier ones. */
  predicate NewIds(before: seq<Ids>, ids: seq<Ids>) {
    IdsDistinct(ids) && forall i, j | 0 <= i < |before| && 0 <= j < |ids| :: Apart(before[i], ids[j])
  }

  lemma NewIdsSplit(before: seq<Ids>, ids: seq<Ids>)
    requires ids != []
    ensures NewIds(before, ids)
            <==> (forall i | 0 <= i < |before| :: Apart(before[i], ids[0])) && NewIds(before + [ids[0]], ids[1..])
  {
    var all, rest := before + [ids[0]], ids[1..];
    assert all[|before|] == ids[0] && forall i | 0 <= i < |before| :: all[i] == before[i];
    if NewIds(all, rest) && forall i | 0 <= i < |before| :: Apart(before[i], ids[0]) {
      forall i, j | 0 <= i < j < |ids|
        ensures Apart(ids[i], ids[j])
      {
        assert ids[j] == rest[j - 1] && (i == 0 ==> Apart(all[|before|], rest[j - 1]));
      }
      forall i, j | 0 <= i < |before| && 0 <= j < |ids|
        ensures Apart(before[i], ids[j])
      {
        assert j > 0 ==> Apart(all[i], rest[j - 1]);
      }
    }
  }

  lemma GoodLineReplays(c: Codec, v: Value, lines: seq<Text>, seen: Seen)
    requires Idempotent(c.nfc) && Good(c, v) && lines != [] && lines[0] == CanonicalText(c.nfc, v)
    ensures ReplayLines(c, lines, seen)
            == if !Fits(seen, IdsIn(c, v)) then DuplicateId
               else match ReplayLines(c, lines[1..], Noted(seen, IdsIn(c, v)))
                    case Replayed(events) => Replayed([Canonical(c.nfc, v)] + events)
                    case error => error
  {
    CanonicalTextIsParsed(c.nfc, v, SourceOf(lines[0]), c.clean);
  }

  lemma FirstEvent(c: Codec, vs: seq<Value>)
    requires AllGood(c, vs) && vs != []
    ensures AllGood(c, vs[1..])
    ensures IdsOf(c, vs) != [] && IdsOf(c, vs)[0] == IdsIn(c, vs[0]) && IdsOf(c, vs)[1..] == IdsOf(c, vs[1..])
    ensures Canonicals(c, vs) == [Canonical(c.nfc, vs[0])] + Canonicals(c, vs[1..])
  {
  }

  /** The lines of good events are replayed exactly when their identifiers are new and distinct. */
  lemma {:induction false} GoodLinesReplay(c: Codec, vs: seq<Value>, lines: seq<Text>, seen: Seen, before: seq<Ids>)
    requires Idempotent(c.nfc) && |lines| == |vs| && AllGood(c, vs) && SeenFrom(seen, before)
    requires forall i | 0 <= i < |vs| :: lines[i] == CanonicalText(c.nfc, vs[i])
    ensures ReplayLines(c, lines, seen)
            == if NewIds(before, IdsOf(c, vs)) then Replayed(Canonicals(c, vs)) else DuplicateId
    decreases |vs|
  {
    if vs == [] {
      assert Canonicals(c, vs) == [];
    } else {
      var ids := IdsIn(c, vs[0]);
      FirstEvent(c, vs);
      NewIdsSplit(before, IdsOf(c, vs));
      GoodLineReplays(c, vs[0], lines, seen);
      NotedFrom(seen, before, ids);
      GoodLinesReplay(c, vs[1..], lines[1..], Noted(seen, ids), before + [ids]);
    }
  }

  lemma FileReplays(c: Codec, vs: seq<Value>, lines: seq<Text>)
    requires Idempotent(c.nfc) && |lines| == |vs| && AllGood(c, vs)
    requires forall i | 0 <= i < |vs| :: lines[i] == CanonicalText(c.nfc, vs[i])
    ensures ReplayLines(c, lines, NOTHING_SEEN)
            == if IdsDistinct(IdsOf(c, vs)) then Replayed(Canonicals(c, vs)) else DuplicateId
  {
    GoodLinesReplay(c, vs, lines, NOTHING_SEEN, []);
  }

  /** The file of good events replays to exactly those events, in order, if and only if no identifier repeats. */
  lemma AppendedIsReplayed(c: Codec, vs: seq<Value>)
    requires Idempotent(c.nfc) && AllGood(c, vs)
    ensures ReplayFile(c, FileOf(c, vs))
            == if IdsDistinct(IdsOf(c, vs)) then Replayed(Canonicals(c, vs)) else DuplicateId
  {
    LinesOfFile(c, vs);
    FileReplays(c, vs, Lines(FileOf(c, vs)).value);
  }

  // ---- Truncated files ----

  lemma {:induction false} ShortLine(line: Text, tail: Text, cut: Text, rest: Text)
    requires NoLineFeed(line) && Cat(cut, rest) == Cat(line, Char(LINE_FEED, tail))
    ensures (BehindLine(cut).None? && (cut.Char? || line.Char?))
            || (BehindLine(cut).Some? && FirstLine(cut) == line && Cat(BehindLine(cut).value, rest) == tail)
            || cut.Empty?
    decreases line
  {
    if line.Char? && cut.Char? {
      ShortLine(line.rest, tail, cut.rest, rest);
    }
  }

  /** A cut of the file has no last line feed, or it is the file of the first events. */
  lemma {:induction false} CutFile(c: Codec, vs: seq<Value>, cut: Text, rest: Text) returns (n: nat)
    requires AllGood(c, vs)
    requires Cat(cut, rest) == FileOf(c, vs)
    ensures n <= |vs|
    ensures Lines(cut).None? || cut == FileOf(c, vs[..n])
    decreases |vs|
  {
    n := 0;
    assert vs[..0] == [];
    if cut.Char? && vs != [] {
      var line, tail := CanonicalText(c.nfc, vs[0]), FileOf(c, vs[1..]);
      PrintHasNoLineFeed(Canonical(c.nfc, vs[0]));
      CatAssociates(line, One(LINE_FEED), tail);
      ShortLine(line, tail, cut, rest);
      if BehindLine(cut).Some? {
        var m := CutFile(c, vs[1..], BehindLine(cut).value, rest);
        n := m + 1;
        WholeLine(cut);
        assert vs[..n][1..] == vs[1..][..m];
        CatAssociates(line, One(LINE_FEED), FileOf(c, vs[1..][..m]));
      }
    }
  }

  lemma {:induction false} WholeLine(text: Text)
    requires BehindLine(text).Some?
    ensures text == Cat(FirstLine(text), Char(LINE_FEED, BehindLine(text).value))
  {
    if text.head != LINE_FEED {
      WholeLine(text.rest);
    }
  }

  lemma FewerIdsDistinct(c: Codec, vs: seq<Value>, n: nat)
    requires n <= |vs| && AllGood(c, vs) && IdsDistinct(IdsOf(c, vs))
    ensures AllGood(c, vs[..n])
    ensures IdsDistinct(IdsOf(c, vs[..n]))
  {
    assert forall i | 0 <= i < n :: IdsOf(c, vs[..n])[i] == IdsOf(c, vs)[i];
  }

  /** Wherever the file was cut off, replay gives the first of the events or refuses a partial record. */
  lemma TruncationIsSafe(c: Codec, vs: seq<Value>, cut: Text, rest: Text) returns (n: nat)
    requires Idempotent(c.nfc) && AllGood(c, vs) && IdsDistinct(IdsOf(c, vs))
    requires Cat(cut, rest) == FileOf(c, vs)
    ensures n <= |vs|
    ensures ReplayFile(c, cut) == PartialRecord || ReplayFile(c, cut) == Replayed(Canonicals(c, vs)[..n])
  {
    n := CutFile(c, vs, cut, rest);
    if Lines(cut).Some? {
      FewerIdsDistinct(c, vs, n);
      AppendedIsReplayed(c, vs[..n]);
      assert Canonicals(c, vs[..n]) == Canonicals(c, vs)[..n];
    }
  }
}

/**
 The grammar of JSON texts as concrete syntax trees with their white space, and the reader that accepts
 a tree exactly when no object in it has two keys that mean the same string.
 */
module JsonGrammar {
  import opened Prelude
  import opened JsonLexical

  datatype Node =
    | TrueNode
    | FalseNode
    | NullNode
    | NumberNode(numeral: Numeral)
    | StringNode(chunks: Chunks)
    | EmptyArray(open: Text)
    | ArrayNode(open: Text, items: Items)
    | EmptyObject(open: Text)
    | ObjectNode(open: Text, fields: Fields)

  datatype Items = Item(value: Node, after: Text, more: MoreItems)
  datatype MoreItems = NoItem | NextItem(before: Text, next: Items)
  datatype Fields = Field(key: Key, value: Node, after: Text, more: MoreFields)
  datatype MoreFields = NoField | NextField(before: Text, next: Fields)

  /** A key with its colon and the white space around it. */
  datatype Key = Key(chunks: Chunks, afterKey: Text, beforeValue: Text)
  {
    predicate Valid() {
      chunks.Valid() && Blank(afterKey) && Blank(beforeValue)
    }

    function Text(): Text {
      Cat(chunks.Quoted(), Cat(afterKey, Char(COLON, beforeValue)))
    }
  }

  const TRUE_TEXT: Text := Char(0x74, Char(0x72, Char(0x75, One(0x65))))
  const FALSE_TEXT: Text := Char(0x66, Char(0x61, Char(0x6c, Char(0x73, One(0x65)))))
  const NULL_TEXT: Text := Char(0x6e, Char(0x75, Char(0x6c, One(0x6c))))

  // ---- The text of a tree ----

  function NodeText(n: Node): Text {
    match n
    case TrueNode => TRUE_TEXT
    case FalseNode => FALSE_TEXT
    case NullNode => NULL_TEXT
    case NumberNode(numeral) => numeral.Text()
    case StringNode(chunks) => chunks.Quoted()
    case EmptyArray(open) => Char(LEFT_BRACKET, Cat(open, One(RIGHT_BRACKET)))
    case ArrayNode(open, items) => Char(LEFT_BRACKET, Cat(open, ItemsText(items)))
    case EmptyObject(open) => Char(LEFT_BRACE, Cat(open, One(RIGHT_BRACE)))
    case ObjectNode(open, fields) => Char(LEFT_BRACE, Cat(open, FieldsText(fields)))
  }

  /** The items and the closing bracket. */
  function ItemsText(items: Items): Text {
    Cat(NodeText(items.value), Cat(items.after, MoreItemsText(items.more)))
  }

  function MoreItemsText(more: MoreItems): Text {
    match more
    case NoItem => One(RIGHT_BRACKET)
    case NextItem(before, next) => Char(COMMA, Cat(before, ItemsText(next)))
  }

  /** The fields and the closing brace. */
  function FieldsText(fields: Fields): Text {
    Cat(fields.key.Text(), Cat(NodeText(fields.value), Cat(fields.after, MoreFieldsText(fields.more))))
  }

  function MoreFieldsText(more: MoreFields): Text {
    match more
    case NoField => One(RIGHT_BRACE)
    case NextField(before, next) => Char(COMMA, Cat(before, FieldsText(next)))
  }

  // ---- Trees of the grammar ----

  predicate Blank(text: Text) {
    All(text, Spaces)
  }

  predicate ValidNode(n: Node) {
    match n
    case NumberNode(numeral) => numeral.Valid()
    case StringNode(chunks) => chunks.Valid()
    case EmptyArray(open) => Blank(open)
    case ArrayNode(open, items) => Blank(open) && ValidItems(items)
    case EmptyObject(open) => Blank(open)
    case ObjectNode(open, fields) => Blank(open) && ValidFields(fields)
    case _ => true
  }

  predicate ValidItems(items: Items) {
    ValidNode(items.value) && Blank(items.after) && ValidMoreItems(items.more)
  }

  predicate ValidMoreItems(more: MoreItems) {
    more.NextItem? ==> Blank(more.before) && ValidItems(more.next)
  }

  predicate ValidFields(fields: Fields) {
    fields.key.Valid() && ValidNode(fields.value) && Blank(fields.after) && ValidMoreFields(fields.more)
  }

  predicate ValidMoreFields(more: MoreFields) {
    more.NextField? ==> Blank(more.before) && ValidFields(more.next)
  }

  /** In every object of the tree, at any depth, all keys mean different strings. */
  predicate Distinct(n: Node)
    requires ValidNode(n)
  {
    match n
    case ArrayNode(_, items) => DistinctItems(items)
    case ObjectNode(_, fields) => DistinctFields(fields, {})
    case _ => true
  }

  predicate DistinctItems(items: Items)
    requires ValidItems(items)
  {
    Distinct(items.value) && DistinctMoreItems(items.more)
  }

  predicate DistinctMoreItems(more: MoreItems)
    requires ValidMoreItems(more)
  {
    more.NextItem? ==> DistinctItems(more.next)
  }

  /** `keys` are the keys before these fields. */
  predicate DistinctFields(fields: Fields, keys: set<Text>)
    requires ValidFields(fields)
  {
    var key := fields.key.chunks.Decoded();
    key !in keys && Distinct(fields.value) && DistinctMoreFields(fields.more, keys + {key})
  }

  predicate DistinctMoreFields(more: MoreFields, keys: set<Text>)
    requires ValidMoreFields(more)
  {
    more.NextField? ==> DistinctFields(more.next, keys)
  }

  // ---- Reading ----

  function ReadString(s: Source, i: nat): (r: Option<(Chunks, nat)>)
    ensures r.Some? ==> i < r.value.1 <= |s| && r.value.0.Valid()
  {
    if !Is(s, i, QUOTE) then None
    else
      match ReadChunks(s, i + 1)
      case None => None
      case Some(chunks) => ReadChunksHas(s, i + 1); Some((chunks, i + Size(chunks.Quoted())))
  }

  function ReadNumber(s: Source, i: nat): (r: Option<(Numeral, nat)>)
    ensures r.Some? ==> i < r.value.1 <= |s|
  {
    match ReadNumeral(s, i)
    case None => None
    case Some(numeral) => ReadNumeralHas(s, i); Some((numeral, i + Size(numeral.Text())))
  }

  function ReadKey(s: Source, i: nat): (r: Option<(Key, nat)>)
    ensures r.Some? ==> i < r.value.1 <= |s| && r.value.0.chunks.Valid()
  {
    match ReadString(s, i)
    case None => None
    case Some((chunks, j)) =>
      var after := Run(s, j, Spaces);
      var colon := j + Size(after);
      if !Is(s, colon, COLON) then None
      else
        var before := Run(s, colon + 1, Spaces);
        Some((Key(chunks, after, before), colon + 1 + Size(before)))
  }

  function ReadValue(s: Source, i: nat): (r: Option<(Node, nat)>)
    ensures r.Some? ==> i < r.value.1 <= |s|
    decreases |s| - i, 0
  {
    if Is(s, i, LEFT_BRACE) then ReadObject(s, i)
    else if Is(s, i, LEFT_BRACKET) then ReadArray(s, i)
    else if Is(s, i, QUOTE) then
      (match ReadString(s, i)
       case None => None
       case Some((chunks, end)) => Some((StringNode(chunks), end)))
    else if Is(s, i, MINUS) || DigitAt(s, i) then
      (match ReadNumber(s, i)
       case None => None
       case Some((numeral, end)) => Some((NumberNode(numeral), end)))
    else if Has(s, i, TRUE_TEXT) then Some((TrueNode, i + 4))
    else if Has(s, i, FALSE_TEXT) then Some((FalseNode, i + 5))
    else if Has(s, i, NULL_TEXT) then Some((NullNode, i + 4))
    else None
  }

  function ReadObject(s: Source, i: nat): (r: Option<(Node, nat)>)
    requires i < |s|
    ensures r.Some? ==> i < r.value.1 <= |s|
    decreases |s| - i - 1, 4
  {
    var open := Run(s, i + 1, Spaces);
    var j := i + 1 + Size(open);
    if Is(s, j, RIGHT_BRACE) then Some((EmptyObject(open), j + 1))
    else
      match ReadFields(s, j, {})
      case None => None
      case Some((fields, end)) => Some((ObjectNode(open, fields), end))
  }

  function ReadArray(s: Source, i: nat): (r: Option<(Node, nat)>)
    requires i < |s|
    ensures r.Some? ==> i < r.value.1 <= |s|
    decreases |s| - i - 1, 4
  {
    var open := Run(s, i + 1, Spaces);
    var j := i + 1 + Size(open);
    if Is(s, j, RIGHT_BRACKET) then Some((EmptyArray(open), j + 1))
    else
      match ReadItems(s, j)
      case None => None
      case Some((items, end)) => Some((ArrayNode(open, items), end))
  }

  function ReadItems(s: Source, i: nat): (r: Option<(Items, nat)>)
    ensures r.Some? ==> i < r.value.1 <= |s|
    decreases |s| - i, 1
  {
    match ReadValue(s, i)
    case None => None
    case Some((value, j)) =>
      var after := Run(s, j, Spaces);
      match ReadMoreItems(s, j + Size(after))
      case None => None
      case Some((more, end)) => Some((Item(value, after, more), end))
  }

  function ReadMoreItems(s: Source, i: nat): (r: Option<(MoreItems, nat)>)
    ensures r.Some? ==> i < r.value.1 <= |s|
    decreases |s| - i, 1
  {
    if Is(s, i, RIGHT_BRACKET) then Some((NoItem, i + 1))
    else if Is(s, i, COMMA) then
      var before := Run(s, i + 1, Spaces);
      match ReadItems(s, i + 1 + Size(before))
      case None => None
      case Some((next, end)) => Some((NextItem(before, next), end))
    else None
  }

  /** `keys` are the keys already read. */
  function ReadFields(s: Source, i: nat, keys: set<Text>): (r: Option<(Fields, nat)>)
    ensures r.Some? ==> i < r.value.1 <= |s|
    decreases |s| - i, 1
  {
    match ReadKey(s, i)
    case None => None
    case Some((key, start)) =>
      var meaning := key.chunks.Decoded();
      if meaning in keys then None
      else
        match ReadValue(s, start)
        case None => None
        case Some((value, j)) =>
          var after := Run(s, j, Spaces);
          match ReadMoreFields(s, j + Size(after), keys + {meaning})
          case None => None
          case Some((more, end)) => Some((Field(key, value, after, more), end))
  }

  function ReadMoreFields(s: Source, i: nat, keys: set<Text>): (r: Option<(MoreFields, nat)>)
    ensures r.Some? ==> i < r.value.1 <= |s|
    decreases |s| - i, 1
  {
    if Is(s, i, RIGHT_BRACE) then Some((NoField, i + 1))
    else if Is(s, i, COMMA) then
      var before := Run(s, i + 1, Spaces);
      match ReadFields(s, i + 1 + Size(before), keys)
      case None => None
      case Some((next, end)) => Some((NextField(before, next), end))
    else None
  }

  // ---- What is read has the text ----

  /** The text stands between two positions. */
  predicate Spans(s: Source, i: nat, text: Text, j: nat)
    decreases text
  {
    match text
    case Empty => i == j <= |s|
    case Char(u, rest) => Is(s, i, u) && Spans(s, i + 1, rest, j)
  }

  lemma {:induction false} SpansHas(s: Source, i: nat, text: Text, j: nat)
    ensures Spans(s, i, text, j) <==> Has(s, i, text) && j == i + Size(text)
    decreases text
  {
    if text.Char? {
      SpansHas(s, i + 1, text.rest, j);
    }
  }

  lemma {:induction false} SpansJoin(s: Source, i: nat, a: Text, k: nat, b: Text, j: nat)
    requires Spans(s, i, a, k)
    ensures Spans(s, k, b, j) <==> Spans(s, i, Cat(a, b), j)
    decreases a
  {
    if a.Char? {
      SpansJoin(s, i + 1, a.rest, k, b, j);
    }
  }

  lemma {:induction false} SpansSplit(s: Source, i: nat, a: Text, b: Text, j: nat) returns (k: nat)
    requires Spans(s, i, Cat(a, b), j)
    ensures Spans(s, i, a, k) && Spans(s, k, b, j) && k == i + Size(a)
    decreases a
  {
    if a.Char? {
      k := SpansSplit(s, i + 1, a.rest, b, j);
    } else {
      k := i;
      SpansHas(s, i, b, j);
    }
  }

  lemma SpacesSpan(s: Source, i: nat)
    requires i <= |s|
    ensures Blank(Run(s, i, Spaces)) && Spans(s, i, Run(s, i, Spaces), i + Size(Run(s, i, Spaces)))
  {
    RunIs(s, i, Spaces);
    SpansHas(s, i, Run(s, i, Spaces), i + Size(Run(s, i, Spaces)));
  }

  /** A character, the white space behind it, and what follows. */
  lemma SpacedSpans(s: Source, i: nat, u: CodeUnit, text: Text, end: nat)
    requires Is(s, i, u) && Spans(s, i + 1 + Size(Run(s, i + 1, Spaces)), text, end)
    ensures Blank(Run(s, i + 1, Spaces)) && Spans(s, i, Char(u, Cat(Run(s, i + 1, Spaces), text)), end)
  {
    SpacesSpan(s, i + 1);
    SpansJoin(s, i + 1, Run(s, i + 1, Spaces), i + 1 + Size(Run(s, i + 1, Spaces)), text, end);
  }

  lemma ReadStringSpans(s: Source, i: nat)
    requires ReadString(s, i).Some?
    ensures Spans(s, i, ReadString(s, i).value.0.Quoted(), ReadString(s, i).value.1)
  {
    ReadChunksHas(s, i + 1);
    SpansHas(s, i, ReadString(s, i).value.0.Quoted(), ReadString(s, i).value.1);
  }

  lemma ReadKeySpans(s: Source, i: nat)
    requires ReadKey(s, i).Some?
    ensures ReadKey(s, i).value.0.Valid() && Spans(s, i, ReadKey(s, i).value.0.Text(), ReadKey(s, i).value.1)
  {
    var ((chunks, j), (key, end)) := (ReadString(s, i).value, ReadKey(s, i).value);
    var colon := j + Size(key.afterKey);
    ReadStringSpans(s, i);
    SpacesSpan(s, j);
    SpacesSpan(s, colon + 1);
    assert Spans(s, colon, Char(COLON, key.beforeValue), end);
    SpansJoin(s, j, key.afterKey, colon, Char(COLON, key.beforeValue), end);
    SpansJoin(s, i, chunks.Quoted(), j, Cat(key.afterKey, Char(COLON, key.beforeValue)), end);
  }

  /** A reading that succeeds has read a tree of the grammar with distinct keys and the text it stands for. */
  ghost predicate ReadsNode(s: Source, i: nat, n: Node, j: nat) {
    ValidNode(n) && Distinct(n) && Spans(s, i, NodeText(n), j)
  }

  lemma {:induction false} ReadValueSpans(s: Source, i: nat)
    requires ReadValue(s, i).Some?
    ensures ReadsNode(s, i, ReadValue(s, i).value.0, ReadValue(s, i).value.1)
    decreases |s| - i, 0
  {
    if Is(s, i, LEFT_BRACE) {
      ReadObjectSpans(s, i);
    } else if Is(s, i, LEFT_BRACKET) {
      ReadArraySpans(s, i);
    } else if Is(s, i, QUOTE) {
      ReadStringSpans(s, i);
    } else {
      ReadLeafSpans(s, i);
    }
  }

  lemma ReadLeafSpans(s: Source, i: nat)
    requires ReadValue(s, i).Some? && !Is(s, i, LEFT_BRACE) && !Is(s, i, LEFT_BRACKET) && !Is(s, i, QUOTE)
    ensures ReadsNode(s, i, ReadValue(s, i).value.0, ReadValue(s, i).value.1)
  {
    if Is(s, i, MINUS) || DigitAt(s, i) {
      ReadNumeralHas(s, i);
    }
    assert Size(TRUE_TEXT) == 4 && Size(FALSE_TEXT) == 5 && Size(NULL_TEXT) == 4;
    SpansHas(s, i, NodeText(ReadValue(s, i).value.0), ReadValue(s, i).value.1);
  }

  lemma {:induction false} ReadObjectSpans(s: Source, i: nat)
    requires Is(s, i, LEFT_BRACE) && ReadObject(s, i).Some?
    ensures ReadsNode(s, i, ReadObject(s, i).value.0, ReadObject(s, i).value.1)
    decreases |s| - i - 1, 4
  {
    var open := Run(s, i + 1, Spaces);
    var j := i + 1 + Size(open);
    var end := ReadObject(s, i).value.1;
    if Is(s, j, RIGHT_BRACE) {
      SpacedSpans(s, i, LEFT_BRACE, One(RIGHT_BRACE), end);
    } else {
      ReadFieldsSpans(s, j, {});
      SpacedSpans(s, i, LEFT_BRACE, FieldsText(ReadFields(s, j, {}).value.0), end);
    }
  }

  lemma {:induction false} ReadArraySpans(s: Source, i: nat)
    requires Is(s, i, LEFT_BRACKET) && ReadArray(s, i).Some?
    ensures ReadsNode(s, i, ReadArray(s, i).value.0, ReadArray(s, i).value.1)
    decreases |s| - i - 1, 4
  {
    var open := Run(s, i + 1, Spaces);
    var j := i + 1 + Size(open);
    var end := ReadArray(s, i).value.1;
    if Is(s, j, RIGHT_BRACKET) {
      SpacedSpans(s, i, LEFT_BRACKET, One(RIGHT_BRACKET), end);
    } else {
      ReadItemsSpans(s, j);
      SpacedSpans(s, i, LEFT_BRACKET, ItemsText(ReadItems(s, j).value.0), end);
    }
  }

  lemma {:induction false} ReadItemsSpans(s: Source, i: nat)
    requires ReadItems(s, i).Some?
    ensures var (items, end) := ReadItems(s, i).value;
            ValidItems(items) && DistinctItems(items) && Spans(s, i, ItemsText(items), end)
    decreases |s| - i, 1
  {
    var ((items, end), (value, j)) := (ReadItems(s, i).value, ReadValue(s, i).value);
    var k := j + Size(items.after);
    ReadValueSpans(s, i);
    SpacesSpan(s, j);
    ReadMoreItemsSpans(s, k);
    SpansJoin(s, j, items.after, k, MoreItemsText(items.more), end);
    SpansJoin(s, i, NodeText(value), j, Cat(items.after, MoreItemsText(items.more)), end);
  }

  lemma {:induction false} ReadMoreItemsSpans(s: Source, i: nat)
    requires ReadMoreItems(s, i).Some?
    ensures var (more, end) := ReadMoreItems(s, i).value;
            ValidMoreItems(more) && DistinctMoreItems(more) && Spans(s, i, MoreItemsText(more), end)
    decreases |s| - i, 1
  {
    if !Is(s, i, RIGHT_BRACKET) {
      var (more, end) := ReadMoreItems(s, i).value;
      var k := i + 1 + Size(more.before);
      ReadItemsSpans(s, k);
      SpacedSpans(s, i, COMMA, ItemsText(more.next), end);
    }
  }

  /** A member that is read: where its key, its value and the rest were read. */
  lemma FieldsHaveParts(s: Source, i: nat, keys: set<Text>)
    requires ReadFields(s, i, keys).Some?
    ensures ReadKey(s, i).Some? && ReadValue(s, ReadKey(s, i).value.1).Some?
    ensures var (fields, end) := ReadFields(s, i, keys).value;
            var (key, start) := ReadKey(s, i).value;
            var (value, j) := ReadValue(s, start).value;
            && fields.key == key && fields.value == value && fields.after == Run(s, j, Spaces)
            && key.chunks.Decoded() !in keys
            && ReadMoreFields(s, j + Size(fields.after), keys + {key.chunks.Decoded()}) == Some((fields.more, end))
  {
  }

  lemma {:induction false} ReadFieldsSpans(s: Source, i: nat, keys: set<Text>)
    requires ReadFields(s, i, keys).Some?
    ensures var (fields, end) := ReadFields(s, i, keys).value;
            ValidFields(fields) && DistinctFields(fields, keys) && Spans(s, i, FieldsText(fields), end)
    decreases |s| - i, 1
  {
    FieldsHaveParts(s, i, keys);
    var ((fields, end), (key, start)) := (ReadFields(s, i, keys).value, ReadKey(s, i).value);
    var (value, j) := ReadValue(s, start).value;
    var k := j + Size(fields.after);
    ReadKeySpans(s, i);
    ReadValueSpans(s, start);
    SpacesSpan(s, j);
    ReadMoreFieldsSpans(s, k, keys + {key.chunks.Decoded()});
    assert ValidFields(fields) && DistinctFields(fields, keys);
    FourSpansJoin(s, i, key.Text(), start, NodeText(value), j, fields.after, k, MoreFieldsText(fields.more), end);
  }

  lemma FourSpansJoin(s: Source, a: nat, t: Text, b: nat, u: Text, c: nat, v: Text, d: nat, w: Text, e: nat)
    requires Spans(s, a, t, b) && Spans(s, b, u, c) && Spans(s, c, v, d) && Spans(s, d, w, e)
    ensures Spans(s, a, Cat(t, Cat(u, Cat(v, w))), e)
  {
    SpansJoin(s, c, v, d, w, e);
    SpansJoin(s, b, u, c, Cat(v, w), e);
    SpansJoin(s, a, t, b, Cat(u, Cat(v, w)), e);
  }

  lemma {:induction false} ReadMoreFieldsSpans(s: Source, i: nat, keys: set<Text>)
    requires ReadMoreFields(s, i, keys).Some?
    ensures var (more, end) := ReadMoreFields(s, i, keys).value;
            ValidMoreFields(more) && DistinctMoreFields(more, keys) && Spans(s, i, MoreFieldsText(more), end)
    decreases |s| - i, 1
  {
    if !Is(s, i, RIGHT_BRACE) {
      var (more, end) := ReadMoreFields(s, i, keys).value;
      var k := i + 1 + Size(more.before);
      ReadFieldsSpans(s, k, keys);
      SpacedSpans(s, i, COMMA, FieldsText(more.next), end);
    }
  }

  // ---- Every tree is read ----

  predicate NoSpaceAt(s: Source, i: nat) {
    i < |s| ==> !IsSpace(s[i])
  }

  lemma SpacesAreRead(s: Source, i: nat, text: Text, k: nat)
    requires Blank(text) && Spans(s, i, text, k) && NoSpaceAt(s, k)
    ensures Run(s, i, Spaces) == text
  {
    SpansHas(s, i, text, k);
    RunIsRead(s, i, text, Spaces);
  }

  /** A character, the white space behind it, and what follows, taken apart. */
  lemma SpacedIsRead(s: Source, i: nat, u: CodeUnit, blank: Text, text: Text, end: nat) returns (k: nat)
    requires Blank(blank) && Spans(s, i, Char(u, Cat(blank, text)), end) && text.Char? && !IsSpace(text.head)
    ensures Is(s, i, u) && Run(s, i + 1, Spaces) == blank && k == i + 1 + Size(blank)
    ensures Spans(s, k, text, end) && Is(s, k, text.head)
  {
    k := SpansSplit(s, i + 1, blank, text, end);
    SpacesAreRead(s, i + 1, blank, k);
  }

  lemma StringIsRead(s: Source, i: nat, chunks: Chunks, end: nat)
    requires chunks.Valid() && Spans(s, i, chunks.Quoted(), end)
    ensures ReadString(s, i) == Some((chunks, end))
  {
    SpansHas(s, i, chunks.Quoted(), end);
    ChunksAreRead(s, i + 1, chunks);
  }

  lemma KeyIsRead(s: Source, i: nat, key: Key, end: nat)
    requires key.Valid() && Spans(s, i, key.Text(), end) && NoSpaceAt(s, end)
    ensures ReadKey(s, i) == Some((key, end))
  {
    var rest := Char(COLON, key.beforeValue);
    var j := SpansSplit(s, i, key.chunks.Quoted(), Cat(key.afterKey, rest), end);
    var colon := SpansSplit(s, j, key.afterKey, rest, end);
    StringIsRead(s, i, key.chunks, j);
    SpacesAreRead(s, j, key.afterKey, colon);
    SpacesAreRead(s, colon + 1, key.beforeValue, end);
    SpansHas(s, colon + 1, key.beforeValue, end);
  }

  predicate StartsValue(u: CodeUnit) {
    u == LEFT_BRACE || u == LEFT_BRACKET || u == QUOTE || u == MINUS || IsDigit(u) || u == 0x74 || u == 0x66
      || u == 0x6e
  }

  lemma ValueStarts(n: Node)
    requires ValidNode(n)
    ensures NodeText(n).Char? && StartsValue(NodeText(n).head)
    ensures n.ArrayNode? || n.EmptyArray? <==> NodeText(n).head == LEFT_BRACKET
    ensures n.ObjectNode? || n.EmptyObject? <==> NodeText(n).head == LEFT_BRACE
    ensures n.StringNode? <==> NodeText(n).head == QUOTE
    ensures n.NumberNode? <==> NodeText(n).head == MINUS || IsDigit(NodeText(n).head)
  {
    if n.NumberNode? {
      NumeralStarts(n.numeral);
    }
  }

  lemma NumeralStarts(n: Numeral)
    requires n.Valid()
    ensures n.Text().Char? && (n.Text().head == MINUS || IsDigit(n.Text().head))
  {
    assert n.Unsigned() == Char(n.whole.head, Cat(n.whole.rest, n.Tail()));
  }

  /** What the reader makes of a tree: the tree itself, or a refusal because two keys of an object are equal. */
  ghost predicate Answers<T>(r: Option<(T, nat)>, tree: T, end: nat, distinct: bool) {
    r == if distinct then Some((tree, end)) else None
  }

  lemma OneIsSpanned(s: Source, i: nat, u: CodeUnit, end: nat)
    requires Spans(s, i, One(u), end)
    ensures Is(s, i, u) && end == i + 1
  {
  }

  lemma EmptyArrayValue(s: Source, i: nat, open: Text)
    requires Is(s, i, LEFT_BRACKET) && Run(s, i + 1, Spaces) == open && Is(s, i + 1 + Size(open), RIGHT_BRACKET)
    ensures ReadValue(s, i) == Some((EmptyArray(open), i + 2 + Size(open)))
  {
    assert ReadValue(s, i) == ReadArray(s, i);
  }

  lemma EmptyArrayIsRead(s: Source, i: nat, open: Text, end: nat)
    requires Blank(open) && Spans(s, i, Char(LEFT_BRACKET, Cat(open, One(RIGHT_BRACKET))), end)
    ensures ReadValue(s, i) == Some((EmptyArray(open), end))
  {
    var k := SpacedIsRead(s, i, LEFT_BRACKET, open, One(RIGHT_BRACKET), end);
    OneIsSpanned(s, k, RIGHT_BRACKET, end);
    EmptyArrayValue(s, i, open);
  }

  lemma EmptyObjectValue(s: Source, i: nat, open: Text)
    requires Is(s, i, LEFT_BRACE) && Run(s, i + 1, Spaces) == open && Is(s, i + 1 + Size(open), RIGHT_BRACE)
    ensures ReadValue(s, i) == Some((EmptyObject(open), i + 2 + Size(open)))
  {
    assert ReadValue(s, i) == ReadObject(s, i);
  }

  lemma EmptyObjectIsRead(s: Source, i: nat, open: Text, end: nat)
    requires Blank(open) && Spans(s, i, Char(LEFT_BRACE, Cat(open, One(RIGHT_BRACE))), end)
    ensures ReadValue(s, i) == Some((EmptyObject(open), end))
  {
    var k := SpacedIsRead(s, i, LEFT_BRACE, open, One(RIGHT_BRACE), end);
    OneIsSpanned(s, k, RIGHT_BRACE, end);
    EmptyObjectValue(s, i, open);
  }

  lemma ArrayValue(s: Source, i: nat, open: Text)
    requires Is(s, i, LEFT_BRACKET) && Run(s, i + 1, Spaces) == open && !Is(s, i + 1 + Size(open), RIGHT_BRACKET)
    ensures var r := ReadItems(s, i + 1 + Size(open));
            ReadValue(s, i) == if r.None? then None else Some((ArrayNode(open, r.value.0), r.value.1))
  {
    assert ReadValue(s, i) == ReadArray(s, i);
  }

  lemma ObjectIsNotEmpty(s: Source, i: nat, j: nat, fields: Option<(Fields, nat)>)
    requires i < |s| && j == i + 1 + Size(Run(s, i + 1, Spaces)) && !Is(s, j, RIGHT_BRACE)
    requires ReadFields(s, j, {}) == fields
    ensures ReadObject(s, i)
            == if fields.None? then None
               else Some((ObjectNode(Run(s, i + 1, Spaces), fields.value.0), fields.value.1))
  {
  }

  lemma ObjectValue(s: Source, i: nat, open: Text)
    requires Is(s, i, LEFT_BRACE) && Run(s, i + 1, Spaces) == open && !Is(s, i + 1 + Size(open), RIGHT_BRACE)
    ensures var r := ReadFields(s, i + 1 + Size(open), {});
            ReadValue(s, i) == if r.None? then None else Some((ObjectNode(open, r.value.0), r.value.1))
  {
    ObjectIsNotEmpty(s, i, i + 1 + Size(open), ReadFields(s, i + 1 + Size(open), {}));
  }

  lemma {:induction false} ValueIsRead(s: Source, i: nat, n: Node, end: nat)
    requires ValidNode(n) && Spans(s, i, NodeText(n), end) && Stops(s, end)
    ensures Answers(ReadValue(s, i), n, end, Distinct(n))
    decreases n
  {
    ValueStarts(n);
    match n
    case NumberNode(numeral) => NumberIsRead(s, i, numeral, end);
    case StringNode(chunks) => StringIsRead(s, i, chunks, end);
    case EmptyArray(open) => EmptyArrayIsRead(s, i, open, end);
    case EmptyObject(open) => EmptyObjectIsRead(s, i, open, end);
    case ArrayNode(open, items) => ArrayIsRead(s, i, open, items, end);
    case ObjectNode(open, fields) => ObjectIsRead(s, i, open, fields, end);
    case _ => LiteralIsRead(s, i, n, end);
  }

  lemma NumberIsRead(s: Source, i: nat, numeral: Numeral, end: nat)
    requires numeral.Valid() && Spans(s, i, numeral.Text(), end) && Stops(s, end)
    ensures ReadNumber(s, i) == Some((numeral, end))
  {
    SpansHas(s, i, numeral.Text(), end);
    NumeralIsRead(s, i, numeral);
  }

  lemma LiteralIsRead(s: Source, i: nat, n: Node, end: nat)
    requires (n.TrueNode? || n.FalseNode? || n.NullNode?) && Spans(s, i, NodeText(n), end)
    ensures ReadValue(s, i) == Some((n, end))
  {
    SpansHas(s, i, NodeText(n), end);
    assert Size(TRUE_TEXT) == 4 && Size(FALSE_TEXT) == 5 && Size(NULL_TEXT) == 4;
  }

  lemma {:induction false} ArrayIsRead(s: Source, i: nat, open: Text, items: Items, end: nat)
    requires ValidNode(ArrayNode(open, items)) && Spans(s, i, NodeText(ArrayNode(open, items)), end)
    ensures Answers(ReadValue(s, i), ArrayNode(open, items), end, DistinctItems(items))
    decreases items, 1
  {
    ItemsStart(items);
    var k := SpacedIsRead(s, i, LEFT_BRACKET, open, ItemsText(items), end);
    ItemsAreRead(s, k, items, end);
    ArrayValue(s, i, open);
  }

  lemma ItemsStart(items: Items)
    requires ValidItems(items)
    ensures ItemsText(items).Char? && StartsValue(ItemsText(items).head)
  {
    ValueStarts(items.value);
  }

  lemma {:induction false} ObjectIsRead(s: Source, i: nat, open: Text, fields: Fields, end: nat)
    requires ValidNode(ObjectNode(open, fields)) && Spans(s, i, NodeText(ObjectNode(open, fields)), end)
    ensures Answers(ReadValue(s, i), ObjectNode(open, fields), end, DistinctFields(fields, {}))
    decreases fields, 2
  {
    var k := SpacedIsRead(s, i, LEFT_BRACE, open, FieldsText(fields), end);
    FieldsAreRead(s, k, fields, end, {});
    ObjectValue(s, i, open);
  }

  /** A value, the white space behind it and what follows, taken apart. */
  lemma ValueTakenApart(s: Source, i: nat, value: Text, after: Text, more: Text, end: nat) returns (j: nat, k: nat)
    requires Blank(after) && Spans(s, i, Cat(value, Cat(after, more)), end)
    requires more.Char? && (more.head == COMMA || more.head == RIGHT_BRACKET || more.head == RIGHT_BRACE)
    ensures j == i + Size(value) && k == j + Size(after)
    ensures Spans(s, i, value, j) && Stops(s, j) && Run(s, j, Spaces) == after && Spans(s, k, more, end)
  {
    j := SpansSplit(s, i, value, Cat(after, more), end);
    k := SpansSplit(s, j, after, more, end);
    AfterStops(s, j, after, k);
    SpacesAreRead(s, j, after, k);
  }

  lemma ItemsAnswer(s: Source, i: nat, items: Items, j: nat, end: nat, first: bool, others: bool)
    requires Answers(ReadValue(s, i), items.value, j, first) && Run(s, j, Spaces) == items.after
    requires Answers(ReadMoreItems(s, j + Size(items.after)), items.more, end, others)
    ensures Answers(ReadItems(s, i), items, end, first && others)
  {
  }

  lemma {:induction false} ItemsAreRead(s: Source, i: nat, items: Items, end: nat)
    requires ValidItems(items) && Spans(s, i, ItemsText(items), end)
    ensures Answers(ReadItems(s, i), items, end, DistinctItems(items))
    decreases items, 0
  {
    var j, k := ValueTakenApart(s, i, NodeText(items.value), items.after, MoreItemsText(items.more), end);
    ValueIsRead(s, i, items.value, j);
    MoreItemsAreRead(s, k, items.more, end);
    ItemsAnswer(s, i, items, j, end, Distinct(items.value), DistinctMoreItems(items.more));
  }

  /** White space, or else the character behind it, stops a value. */
  lemma AfterStops(s: Source, j: nat, after: Text, k: nat)
    requires Blank(after) && Spans(s, j, after, k)
             && (Is(s, k, COMMA) || Is(s, k, RIGHT_BRACKET) || Is(s, k, RIGHT_BRACE))
    ensures Stops(s, j) && NoSpaceAt(s, k)
  {
  }

  lemma {:induction false} MoreItemsAreRead(s: Source, i: nat, more: MoreItems, end: nat)
    requires ValidMoreItems(more) && Spans(s, i, MoreItemsText(more), end)
    ensures Answers(ReadMoreItems(s, i), more, end, DistinctMoreItems(more))
    decreases more, 0
  {
    if more.NextItem? {
      ItemsStart(more.next);
      var k := SpacedIsRead(s, i, COMMA, more.before, ItemsText(more.next), end);
      ItemsAreRead(s, k, more.next, end);
    }
  }

  lemma FieldsAnswer(
      s: Source, i: nat, fields: Fields, start: nat, j: nat, end: nat, keys: set<Text>, first: bool, others: bool)
    requires fields.key.chunks.Valid() && ReadKey(s, i) == Some((fields.key, start))
    requires Answers(ReadValue(s, start), fields.value, j, first) && Run(s, j, Spaces) == fields.after
    requires var all := keys + {fields.key.chunks.Decoded()};
             Answers(ReadMoreFields(s, j + Size(fields.after), all), fields.more, end, others)
    ensures Answers(ReadFields(s, i, keys), fields, end, fields.key.chunks.Decoded() !in keys && first && others)
  {
  }

  lemma KeyTakenApart(s: Source, i: nat, key: Key, rest: Text, end: nat) returns (start: nat)
    requires key.Valid() && Spans(s, i, Cat(key.Text(), rest), end) && rest.Char? && !IsSpace(rest.head)
    ensures ReadKey(s, i) == Some((key, start)) && Spans(s, start, rest, end)
  {
    start := SpansSplit(s, i, key.Text(), rest, end);
    KeyIsRead(s, i, key, start);
  }

  /** What follows a key. */
  function FieldRest(fields: Fields): Text {
    Cat(NodeText(fields.value), Cat(fields.after, MoreFieldsText(fields.more)))
  }

  lemma {:induction false} FieldRestIsRead(s: Source, start: nat, fields: Fields, end: nat, keys: set<Text>)
    returns (j: nat)
    requires ValidFields(fields) && Spans(s, start, FieldRest(fields), end)
    ensures Answers(ReadValue(s, start), fields.value, j, Distinct(fields.value)) && Run(s, j, Spaces) == fields.after
    ensures Answers(ReadMoreFields(s, j + Size(fields.after), keys), fields.more, end,
                    DistinctMoreFields(fields.more, keys))
    decreases fields, 0
  {
    var k;
    j, k := ValueTakenApart(s, start, NodeText(fields.value), fields.after, MoreFieldsText(fields.more), end);
    ValueIsRead(s, start, fields.value, j);
    MoreFieldsAreRead(s, k, fields.more, end, keys);
  }

  lemma {:induction false} FieldsAreRead(s: Source, i: nat, fields: Fields, end: nat, keys: set<Text>)
    requires ValidFields(fields) && Spans(s, i, FieldsText(fields), end)
    ensures Answers(ReadFields(s, i, keys), fields, end, DistinctFields(fields, keys))
    decreases fields, 1
  {
    ValueStarts(fields.value);
    var start := KeyTakenApart(s, i, fields.key, FieldRest(fields), end);
    var all := keys + {fields.key.chunks.Decoded()};
    var j := FieldRestIsRead(s, start, fields, end, all);
    FieldsAnswer(s, i, fields, start, j, end, keys, Distinct(fields.value), DistinctMoreFields(fields.more, all));
  }

  lemma CommaIsRead(s: Source, i: nat, more: MoreFields, end: nat) returns (k: nat)
    requires ValidMoreFields(more) && more.NextField? && Spans(s, i, MoreFieldsText(more), end)
    ensures Is(s, i, COMMA) && Run(s, i + 1, Spaces) == more.before && k == i + 1 + Size(more.before)
    ensures Spans(s, k, FieldsText(more.next), end)
  {
    k := SpacedIsRead(s, i, COMMA, more.before, FieldsText(more.next), end);
  }

  lemma {:induction false} MoreFieldsAreRead(s: Source, i: nat, more: MoreFields, end: nat, keys: set<Text>)
    requires ValidMoreFields(more) && Spans(s, i, MoreFieldsText(more), end)
    ensures Answers(ReadMoreFields(s, i, keys), more, end, DistinctMoreFields(more, keys))
    decreases more, 0
  {
    if more.NextField? {
      var k := CommaIsRead(s, i, more, end);
      FieldsAreRead(s, k, more.next, end, keys);
      NextFieldAnswers(s, i, more, end, keys, ReadFields(s, k, keys));
    } else {
      NoFieldAnswers(s, i, end, keys);
    }
  }

  lemma NoFieldAnswers(s: Source, i: nat, end: nat, keys: set<Text>)
    requires Spans(s, i, One(RIGHT_BRACE), end)
    ensures Answers(ReadMoreFields(s, i, keys), NoField, end, true)
  {
    OneIsSpanned(s, i, RIGHT_BRACE, end);
  }

  lemma NextFieldAnswers(
      s: Source, i: nat, more: MoreFields, end: nat, keys: set<Text>, next: Option<(Fields, nat)>)
    requires ValidMoreFields(more) && more.NextField? && Is(s, i, COMMA) && Run(s, i + 1, Spaces) == more.before
    requires next == ReadFields(s, i + 1 + Size(more.before), keys)
    requires Answers(next, more.next, end, DistinctFields(more.next, keys))
    ensures Answers(ReadMoreFields(s, i, keys), more, end, DistinctMoreFields(more, keys))
  {
  }

  // ---- Whole texts ----

  datatype Document = Document(before: Text, value: Node, after: Text)
  {
    predicate Valid() {
      Blank(before) && ValidNode(value) && Blank(after)
    }

    function Text(): Text {
      Cat(before, Cat(NodeText(value), after))
    }
  }

  function ReadDocument(s: Source): Option<Document> {
    var before := Run(s, 0, Spaces);
    match ReadValue(s, Size(before))
    case None => None
    case Some((value, j)) =>
      var after := Run(s, j, Spaces);
      if j + Size(after) == |s| then Some(Document(before, value, after)) else None
  }

  /** What is accepted is a document of the grammar, all its keys distinct, and the source spells it. */
  lemma AcceptedIsDocument(s: Source)
    requires ReadDocument(s).Some?
    ensures ReadDocument(s).value.Valid() && Distinct(ReadDocument(s).value.value)
    ensures Spells(s, ReadDocument(s).value.Text())
  {
    var d := ReadDocument(s).value;
    var start := Size(d.before);
    var j := ReadValue(s, start).value.1;
    SpacesSpan(s, 0);
    ReadValueSpans(s, start);
    SpacesSpan(s, j);
    SpansJoin(s, start, NodeText(d.value), j, d.after, |s|);
    SpansJoin(s, 0, d.before, start, Cat(NodeText(d.value), d.after), |s|);
    SpansHas(s, 0, d.Text(), |s|);
  }

  /**
   A text of the grammar has one tree, and it is accepted exactly when in no object, at any depth, two keys
   mean the same string.
   */
  lemma DocumentIsRead(s: Source, d: Document)
    requires d.Valid() && Spells(s, d.Text())
    ensures ReadDocument(s) == if Distinct(d.value) then Some(d) else None
  {
    SpansHas(s, 0, d.Text(), |s|);
    var start := SpansSplit(s, 0, d.before, Cat(NodeText(d.value), d.after), |s|);
    var j := SpansSplit(s, start, NodeText(d.value), d.after, |s|);
    ValueStarts(d.value);
    SpacesAreRead(s, 0, d.before, start);
    SpacesAreRead(s, j, d.after, |s|);
    SpansHas(s, j, d.after, |s|);
    assert Stops(s, j);
    ValueIsRead(s, start, d.value, j);
  }

  /** One text, one document. */
  lemma DocumentUnique(s: Source, d: Document, e: Document)
    requires d.Valid() && Spells(s, d.Text()) && Distinct(d.value)
    requires e.Valid() && Spells(s, e.Text())
    ensures d == e
  {
    DocumentIsRead(s, d);
    DocumentIsRead(s, e);
  }
}

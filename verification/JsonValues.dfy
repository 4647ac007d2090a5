/**
 The values JSON texts mean, how they are printed, and that reading a printed value gives it back.
 */
module JsonValues {
  import opened Prelude
  import opened JsonLexical
  import opened JsonGrammar

  /** `Whole` is a safe integer; any other number is kept as it is written. */
  datatype Value =
    | Null
    | Bool(b: bool)
    | Whole(n: int)
    | Decimal(numeral: Numeral)
    | Str(text: Text)
    | Arr(items: Values)
    | Obj(members: Members)

  datatype Values = NoValue | Values(head: Value, rest: Values)
  datatype Members = NoMember | Member(key: Text, value: Value, rest: Members)

  const MAX_SAFE: int := 0x1f_ffff_ffff_ffff

  // ---- Meaning ----

  function DigitsValue(digits: Text, before: nat): nat
    requires All(digits, Digits)
  {
    match digits
    case Empty => before
    case Char(u, rest) => DigitsValue(rest, before * 10 + (u - ZERO))
  }

  function NumberMeaning(numeral: Numeral): Value
    requires numeral.Valid()
  {
    var size: int := DigitsValue(numeral.whole, 0);
    if numeral.fraction.NoFraction? && numeral.exponent.NoExponent? && size <= MAX_SAFE
    then Whole(if numeral.negative then -size else size)
    else Decimal(numeral)
  }

  function Meaning(n: Node): Value
    requires ValidNode(n)
  {
    match n
    case NullNode => Null
    case TrueNode => Bool(true)
    case FalseNode => Bool(false)
    case NumberNode(numeral) => NumberMeaning(numeral)
    case StringNode(chunks) => Str(chunks.Decoded())
    case EmptyArray(_) => Arr(NoValue)
    case ArrayNode(_, items) => Arr(ItemsMeaning(items))
    case EmptyObject(_) => Obj(NoMember)
    case ObjectNode(_, fields) => Obj(FieldsMeaning(fields))
  }

  function ItemsMeaning(items: Items): Values
    requires ValidItems(items)
  {
    Values(Meaning(items.value), MoreItemsMeaning(items.more))
  }

  function MoreItemsMeaning(more: MoreItems): Values
    requires ValidMoreItems(more)
  {
    match more
    case NoItem => NoValue
    case NextItem(_, next) => ItemsMeaning(next)
  }

  function FieldsMeaning(fields: Fields): Members
    requires ValidFields(fields)
  {
    Member(fields.key.chunks.Decoded(), Meaning(fields.value), MoreFieldsMeaning(fields.more))
  }

  function MoreFieldsMeaning(more: MoreFields): Members
    requires ValidMoreFields(more)
  {
    match more
    case NoField => NoMember
    case NextField(_, next) => FieldsMeaning(next)
  }

  /** The scanner takes any white space; the language of JSON has four characters of it. */
  predicate JsonBlank(text: Text) {
    match text
    case Empty => true
    case Char(u, rest) => (u == 9 || u == 10 || u == 13 || u == 0x20) && JsonBlank(rest)
  }

  predicate JsonSpaced(n: Node) {
    match n
    case EmptyArray(open) => JsonBlank(open)
    case ArrayNode(open, items) => JsonBlank(open) && JsonSpacedItems(items)
    case EmptyObject(open) => JsonBlank(open)
    case ObjectNode(open, fields) => JsonBlank(open) && JsonSpacedFields(fields)
    case _ => true
  }

  predicate JsonSpacedItems(items: Items) {
    JsonSpaced(items.value) && JsonBlank(items.after)
    && (items.more.NextItem? ==> JsonBlank(items.more.before) && JsonSpacedItems(items.more.next))
  }

  predicate JsonSpacedFields(fields: Fields) {
    && JsonBlank(fields.key.afterKey) && JsonBlank(fields.key.beforeValue)
    && JsonSpaced(fields.value) && JsonBlank(fields.after)
    && (fields.more.NextField? ==> JsonBlank(fields.more.before) && JsonSpacedFields(fields.more.next))
  }

  /** The scan, the platform's parser, and the scan for secrets. */
  function ParseStrict(s: Source, clean: Value -> bool): Option<Value> {
    match ReadDocument(s)
    case None => None
    case Some(d) =>
      AcceptedIsDocument(s);
      if JsonBlank(d.before) && JsonSpaced(d.value) && JsonBlank(d.after) && clean(Meaning(d.value))
      then Some(Meaning(d.value)) else None
  }

  // ---- Printing ----

  /** The numbers whose printed form is modelled: safe integers. */
  predicate Printable(v: Value) {
    match v
    case Whole(n) => -MAX_SAFE <= n <= MAX_SAFE
    case Decimal(_) => false
    case Arr(items) => PrintableValues(items)
    case Obj(members) => PrintableMembers(members)
    case _ => true
  }

  predicate PrintableValues(items: Values) {
    items.Values? ==> Printable(items.head) && PrintableValues(items.rest)
  }

  predicate PrintableMembers(members: Members) {
    members.Member? ==> Printable(members.value) && PrintableMembers(members.rest)
  }

  /** As in any object: no object, at any depth, has a key twice. */
  predicate KeysDistinct(v: Value) {
    match v
    case Arr(items) => ValuesDistinct(items)
    case Obj(members) => MembersDistinct(members, {})
    case _ => true
  }

  predicate ValuesDistinct(items: Values) {
    items.Values? ==> KeysDistinct(items.head) && ValuesDistinct(items.rest)
  }

  predicate MembersDistinct(members: Members, keys: set<Text>) {
    members.Member? ==>
      members.key !in keys && KeysDistinct(members.value) && MembersDistinct(members.rest, keys + {members.key})
  }

  function NatText(n: nat): Text {
    if n < 10 then One(ZERO + n) else Cat(NatText(n / 10), One(ZERO + n % 10))
  }

  function HexDigit(k: nat): CodeUnit
    requires k < 16
  {
    if k < 10 then ZERO + k else 0x61 + k - 10
  }

  predicate IsHigh(u: CodeUnit) { 0xd800 <= u <= 0xdbff }
  predicate IsLow(u: CodeUnit) { 0xdc00 <= u <= 0xdfff }

  /** How one code unit is printed inside a string, when it is not part of a surrogate pair. */
  function Escape(u: CodeUnit): Chunk {
    if u == QUOTE || u == BACKSLASH then Short(u)
    else if u == 8 then Short(0x62)
    else if u == 12 then Short(0x66)
    else if u == 10 then Short(0x6e)
    else if u == 13 then Short(0x72)
    else if u == 9 then Short(0x74)
    else if u <= 0x1f || IsHigh(u) || IsLow(u) then
      Hex(HexDigit(u / 0x1000), HexDigit(u / 0x100 % 16), HexDigit(u / 16 % 16), HexDigit(u % 16))
    else Raw(u)
  }

  function Escaped(text: Text): Chunks {
    match text
    case Empty => NoChunk
    case Char(u, rest) =>
      if IsHigh(u) && rest.Char? && IsLow(rest.head)
      then NextChunk(Raw(u), NextChunk(Raw(rest.head), Escaped(rest.rest)))
      else NextChunk(Escape(u), Escaped(rest))
  }

  /** The tree of the printed form, without any white space. */
  function NodeOf(v: Value): Node
    requires Printable(v)
  {
    match v
    case Null => NullNode
    case Bool(b) => if b then TrueNode else FalseNode
    case Whole(n) => NumberNode(Numeral(n < 0, NatText(if n < 0 then -n else n), NoFraction, NoExponent))
    case Str(text) => StringNode(Escaped(text))
    case Arr(items) => if items.NoValue? then EmptyArray(Empty) else ArrayNode(Empty, ItemsOf(items))
    case Obj(members) => if members.NoMember? then EmptyObject(Empty) else ObjectNode(Empty, FieldsOf(members))
  }

  function ItemsOf(items: Values): Items
    requires items.Values? && PrintableValues(items)
  {
    Item(NodeOf(items.head), Empty, if items.rest.NoValue? then NoItem else NextItem(Empty, ItemsOf(items.rest)))
  }

  function FieldsOf(members: Members): Fields
    requires members.Member? && PrintableMembers(members)
  {
    Field(Key(Escaped(members.key), Empty, Empty), NodeOf(members.value), Empty,
          if members.rest.NoMember? then NoField else NextField(Empty, FieldsOf(members.rest)))
  }

  function Print(v: Value): Text
    requires Printable(v)
  {
    NodeText(NodeOf(v))
  }

  // ---- Printing is undone by reading ----

  lemma {:induction false} DigitsValueAppends(digits: Text, before: nat, u: CodeUnit)
    requires All(digits, Digits) && IsDigit(u)
    ensures All(Cat(digits, One(u)), Digits)
    ensures DigitsValue(Cat(digits, One(u)), before) == DigitsValue(digits, before) * 10 + (u - ZERO)
    decreases digits
  {
    if digits.Char? {
      DigitsValueAppends(digits.rest, before * 10 + (digits.head - ZERO), u);
    }
  }

  lemma {:induction false} NatTextMeans(n: nat)
    ensures IsDigits(NatText(n)) && DigitsValue(NatText(n), 0) == n
    ensures NatText(n).head == ZERO <==> n == 0
    ensures NatText(n).head == ZERO ==> NatText(n).rest.Empty?
  {
    if n >= 10 {
      NatTextMeans(n / 10);
      DigitsValueAppends(NatText(n / 10), 0, ZERO + n % 10);
    }
  }

  lemma HexDigitMeans(k: nat)
    requires k < 16
    ensures IsHex(HexDigit(k)) && HexValue(HexDigit(k)) == k
  {
  }

  lemma HexDigitsMean(a: nat, b: nat, c: nat, d: nat)
    requires a < 16 && b < 16 && c < 16 && d < 16
    ensures Hex(HexDigit(a), HexDigit(b), HexDigit(c), HexDigit(d)).Valid()
    ensures HexMeaning(HexDigit(a), HexDigit(b), HexDigit(c), HexDigit(d)) == a * 0x1000 + b * 0x100 + c * 0x10 + d
  {
    HexDigitMeans(a);
    HexDigitMeans(b);
    HexDigitMeans(c);
    HexDigitMeans(d);
  }

  lemma HexSum(u: nat)
    ensures u / 0x1000 * 0x1000 + u / 0x100 % 16 * 0x100 + u / 16 % 16 * 0x10 + u % 16 == u
  {
    assert u / 0x100 == u / 16 / 16 && u / 0x1000 == u / 0x100 / 16;
  }

  lemma EscapeMeans(u: CodeUnit)
    ensures Escape(u).Valid() && Escape(u).Meaning() == u
  {
    if Escape(u).Hex? {
      HexDigitsMean(u / 0x1000, u / 0x100 % 16, u / 16 % 16, u % 16);
      HexSum(u);
    }
  }

  lemma {:induction false} EscapedMeans(text: Text)
    ensures Escaped(text).Valid() && Escaped(text).Decoded() == text
    decreases text
  {
    if text.Char? {
      EscapeMeans(text.head);
      EscapedMeans(text.rest);
      if IsHigh(text.head) && text.rest.Char? && IsLow(text.rest.head) {
        EscapedMeans(text.rest.rest);
      }
    }
  }

  lemma {:induction false} NodeOfMeans(v: Value)
    requires Printable(v)
    ensures ValidNode(NodeOf(v)) && JsonSpaced(NodeOf(v)) && Meaning(NodeOf(v)) == v
    ensures Distinct(NodeOf(v)) <==> KeysDistinct(v)
    decreases v
  {
    match v
    case Whole(n) => NatTextMeans(if n < 0 then -n else n);
    case Str(text) => EscapedMeans(text);
    case Arr(items) => if items.Values? { ItemsOfMean(items); }
    case Obj(members) => if members.Member? { FieldsOfMean(members, {}); }
    case _ =>
  }

  lemma {:induction false} ItemsOfMean(items: Values)
    requires items.Values? && PrintableValues(items)
    ensures ValidItems(ItemsOf(items)) && JsonSpacedItems(ItemsOf(items)) && ItemsMeaning(ItemsOf(items)) == items
    ensures DistinctItems(ItemsOf(items)) <==> ValuesDistinct(items)
    decreases items
  {
    NodeOfMeans(items.head);
    if items.rest.Values? {
      ItemsOfMean(items.rest);
    }
  }

  lemma {:induction false} FieldsOfMean(members: Members, keys: set<Text>)
    requires members.Member? && PrintableMembers(members)
    ensures ValidFields(FieldsOf(members)) && JsonSpacedFields(FieldsOf(members))
    ensures FieldsMeaning(FieldsOf(members)) == members
    ensures DistinctFields(FieldsOf(members), keys) <==> MembersDistinct(members, keys)
    decreases members
  {
    EscapedMeans(members.key);
    NodeOfMeans(members.value);
    if members.rest.Member? {
      FieldsOfMean(members.rest, keys + {members.key});
    }
  }

  /**
   Reading what was printed gives the value back exactly when no object of it has a key twice; otherwise the
   text is refused.
   */
  lemma PrintedIsParsed(s: Source, v: Value, clean: Value -> bool)
    requires Printable(v) && Spells(s, Print(v)) && clean(v)
    ensures ParseStrict(s, clean) == if KeysDistinct(v) then Some(v) else None
  {
    NodeOfMeans(v);
    var d := Document(Empty, NodeOf(v), Empty);
    CatEmpty(NodeText(NodeOf(v)));
    DocumentIsRead(s, d);
  }

  lemma {:induction false} CatEmpty(text: Text)
    ensures Cat(text, Empty) == text
  {
    if text.Char? {
      CatEmpty(text.rest);
    }
  }

  /** Two printable values print alike only when they are the same, members in the same order. */
  lemma PrintInjective(v: Value, w: Value)
    requires Printable(v) && Printable(w) && KeysDistinct(v) && KeysDistinct(w)
    ensures Print(v) == Print(w) <==> v == w
  {
    if Print(v) == Print(w) {
      var s := SourceOf(Print(v));
      PrintedIsParsed(s, v, _ => true);
      PrintedIsParsed(s, w, _ => true);
    }
  }

  function SourceOf(text: Text): (s: Source)
    ensures Spells(s, text)
  {
    match text
    case Empty => []
    case Char(u, rest) =>
      var tail := SourceOf(rest);
      ShiftedHas(u, tail, 0, rest);
      [u] + tail
  }

  lemma {:induction false} ShiftedHas(u: CodeUnit, s: Source, i: nat, text: Text)
    ensures Has([u] + s, i + 1, text) <==> Has(s, i, text)
    decreases text
  {
    if text.Char? {
      ShiftedHas(u, s, i + 1, text.rest);
    }
  }
}

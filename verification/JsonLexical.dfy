/**
 The lexical level of JSON texts: white space, string literals and numbers, each as a piece of concrete
 syntax with the text it stands for, and as what the scanner reads at a position.
 */
module JsonLexical {
  import opened Prelude

  /** UTF-16 code units. */
  type CodeUnit = u: nat | u < 0x1_0000
  type Source = seq<CodeUnit>

  const QUOTE: CodeUnit := 0x22
  const BACKSLASH: CodeUnit := 0x5c
  const MINUS: CodeUnit := 0x2d
  const PLUS: CodeUnit := 0x2b
  const POINT: CodeUnit := 0x2e
  const ZERO: CodeUnit := 0x30
  const COMMA: CodeUnit := 0x2c
  const COLON: CodeUnit := 0x3a
  const LEFT_BRACKET: CodeUnit := 0x5b
  const RIGHT_BRACKET: CodeUnit := 0x5d
  const LEFT_BRACE: CodeUnit := 0x7b
  const RIGHT_BRACE: CodeUnit := 0x7d
  const LETTER_U: CodeUnit := 0x75
  const SMALL_E: CodeUnit := 0x65
  const LARGE_E: CodeUnit := 0x45

  /** What `\s` matches in a regular expression. */
  predicate IsSpace(u: CodeUnit) {
    || 9 <= u <= 13 || u == 0x20 || u == 0xa0 || u == 0x1680 || 0x2000 <= u <= 0x200a
    || u == 0x2028 || u == 0x2029 || u == 0x202f || u == 0x205f || u == 0x3000 || u == 0xfeff
  }

  predicate IsDigit(u: CodeUnit) {
    ZERO <= u <= 0x39
  }

  predicate IsHex(u: CodeUnit) {
    IsDigit(u) || 0x41 <= u <= 0x46 || 0x61 <= u <= 0x66
  }

  datatype Kind = Digits | Spaces
  {
    predicate Has(u: CodeUnit) {
      match this
      case Digits => IsDigit(u)
      case Spaces => IsSpace(u)
    }
  }

  predicate Is(s: Source, i: nat, u: CodeUnit) {
    i < |s| && s[i] == u
  }

  // ---- Texts ----

  /** A string as the list of its code units. */
  datatype Text = Empty | Char(head: CodeUnit, rest: Text)

  function Size(text: Text): nat {
    match text
    case Empty => 0
    case Char(_, rest) => 1 + Size(rest)
  }

  function One(u: CodeUnit): Text {
    Char(u, Empty)
  }

  function Cat(a: Text, b: Text): (text: Text)
    ensures Size(text) == Size(a) + Size(b)
  {
    match a
    case Empty => b
    case Char(u, rest) => Char(u, Cat(rest, b))
  }

  predicate All(text: Text, kind: Kind) {
    match text
    case Empty => true
    case Char(u, rest) => kind.Has(u) && All(rest, kind)
  }

  /** The source has this text at this position. */
  predicate Has(s: Source, i: nat, text: Text): (has: bool)
    ensures has ==> i + Size(text) <= |s|
    decreases text
  {
    match text
    case Empty => i <= |s|
    case Char(u, rest) => Is(s, i, u) && Has(s, i + 1, rest)
  }

  /** The source is exactly this text. */
  predicate Spells(s: Source, text: Text) {
    Has(s, 0, text) && Size(text) == |s|
  }

  lemma {:induction false} HasJoined(s: Source, i: nat, a: Text, b: Text)
    ensures Has(s, i, Cat(a, b)) <==> Has(s, i, a) && Has(s, i + Size(a), b)
    decreases a
  {
    if a.Char? {
      HasJoined(s, i + 1, a.rest, b);
    }
  }

  /** A position has one text of each size. */
  lemma {:induction false} HasOneText(s: Source, i: nat, a: Text, b: Text)
    requires Has(s, i, a) && Has(s, i, b) && Size(a) == Size(b)
    ensures a == b
    decreases a
  {
    if a.Char? {
      HasOneText(s, i + 1, a.rest, b.rest);
    }
  }

  // ---- Runs ----

  /** The longest run at a position. */
  function Run(s: Source, i: nat, kind: Kind): (text: Text)
    ensures i <= |s| ==> i + Size(text) <= |s|
    decreases |s| - i
  {
    if i < |s| && kind.Has(s[i]) then Char(s[i], Run(s, i + 1, kind)) else Empty
  }

  lemma {:induction false} RunIs(s: Source, i: nat, kind: Kind)
    requires i <= |s|
    ensures All(Run(s, i, kind), kind) && Has(s, i, Run(s, i, kind))
    ensures i + Size(Run(s, i, kind)) < |s| ==> !kind.Has(s[i + Size(Run(s, i, kind))])
    decreases |s| - i
  {
    if i < |s| && kind.Has(s[i]) {
      RunIs(s, i + 1, kind);
    }
  }

  lemma {:induction false} RunIsRead(s: Source, i: nat, text: Text, kind: Kind)
    requires Has(s, i, text) && All(text, kind)
    requires i + Size(text) == |s| || !kind.Has(s[i + Size(text)])
    ensures Run(s, i, kind) == text
    decreases text
  {
    if text.Char? {
      RunIsRead(s, i + 1, text.rest, kind);
    }
  }

  // ---- Strings ----

  /** One character of a string literal: itself, a short escape, or four hexadecimal digits. */
  datatype Chunk = Raw(u: CodeUnit) | Short(letter: CodeUnit) | Hex(a: CodeUnit, b: CodeUnit, c: CodeUnit, d: CodeUnit)
  {
    predicate Valid() {
      match this
      case Raw(u) => u > 0x1f && u != QUOTE && u != BACKSLASH
      case Short(letter) => IsShortEscape(letter)
      case Hex(a, b, c, d) => IsHex(a) && IsHex(b) && IsHex(c) && IsHex(d)
    }

    function Size(): nat {
      match this
      case Raw(_) => 1
      case Short(_) => 2
      case Hex(_, _, _, _) => 6
    }

    function Before(text: Text): Text {
      match this
      case Raw(u) => Char(u, text)
      case Short(letter) => Char(BACKSLASH, Char(letter, text))
      case Hex(a, b, c, d) => Char(BACKSLASH, Char(LETTER_U, Char(a, Char(b, Char(c, Char(d, text))))))
    }

    /** The character meant. */
    function Meaning(): CodeUnit
      requires Valid()
    {
      match this
      case Raw(u) => u
      case Short(letter) => ShortMeaning(letter)
      case Hex(a, b, c, d) => HexMeaning(a, b, c, d)
    }
  }

  /** One of " \ / b f n r t */
  predicate IsShortEscape(u: CodeUnit) {
    u == QUOTE || u == BACKSLASH || u == 0x2f || u == 0x62 || u == 0x66 || u == 0x6e || u == 0x72 || u == 0x74
  }

  function ShortMeaning(letter: CodeUnit): CodeUnit {
    if letter == 0x62 then 8 else if letter == 0x66 then 12 else if letter == 0x6e then 10
    else if letter == 0x72 then 13 else if letter == 0x74 then 9 else letter
  }

  function HexValue(u: CodeUnit): (value: nat)
    requires IsHex(u)
    ensures value < 16
  {
    if IsDigit(u) then u - ZERO else if u <= 0x46 then u - 0x41 + 10 else u - 0x61 + 10
  }

  function HexMeaning(a: CodeUnit, b: CodeUnit, c: CodeUnit, d: CodeUnit): CodeUnit
    requires IsHex(a) && IsHex(b) && IsHex(c) && IsHex(d)
  {
    HexValue(a) * 0x1000 + HexValue(b) * 0x100 + HexValue(c) * 0x10 + HexValue(d)
  }

  datatype Chunks = NoChunk | NextChunk(chunk: Chunk, rest: Chunks)
  {
    predicate Valid() {
      match this
      case NoChunk => true
      case NextChunk(chunk, rest) => chunk.Valid() && rest.Valid()
    }

    /** The characters, and the closing quote. */
    function Closed(): Text {
      match this
      case NoChunk => One(QUOTE)
      case NextChunk(chunk, rest) => chunk.Before(rest.Closed())
    }

    function Quoted(): Text {
      Char(QUOTE, Closed())
    }

    /** The string a literal means. */
    function Decoded(): Text
      requires Valid()
    {
      match this
      case NoChunk => Empty
      case NextChunk(chunk, rest) => Char(chunk.Meaning(), rest.Decoded())
    }
  }

  predicate HexAt(s: Source, i: nat) {
    i < |s| && IsHex(s[i])
  }

  /** The character that starts at a position inside a literal. */
  function ReadChunk(s: Source, i: nat): (r: Option<Chunk>)
    requires i < |s|
    ensures r.Some? ==> r.value.Valid()
  {
    if s[i] == BACKSLASH then
      if Is(s, i + 1, LETTER_U) then
        if HexAt(s, i + 2) && HexAt(s, i + 3) && HexAt(s, i + 4) && HexAt(s, i + 5)
        then Some(Hex(s[i + 2], s[i + 3], s[i + 4], s[i + 5])) else None
      else if i + 1 < |s| && IsShortEscape(s[i + 1]) then Some(Short(s[i + 1]))
      else None
    else if s[i] > 0x1f && s[i] != QUOTE then Some(Raw(s[i]))
    else None
  }

  /** The rest of a literal, from behind its opening quote. */
  function ReadChunks(s: Source, i: nat): (r: Option<Chunks>)
    ensures r.Some? ==> r.value.Valid()
    decreases |s| - i
  {
    if i >= |s| then None
    else if s[i] == QUOTE then Some(NoChunk)
    else
      match ReadChunk(s, i)
      case None => None
      case Some(chunk) =>
        match ReadChunks(s, i + chunk.Size())
        case None => None
        case Some(rest) => Some(NextChunk(chunk, rest))
  }

  /** A character is read exactly where its text stands. */
  lemma ChunkIsRead(s: Source, i: nat, chunk: Chunk, text: Text)
    requires i < |s|
    ensures chunk.Valid() && Has(s, i, chunk.Before(text))
            <==> ReadChunk(s, i) == Some(chunk) && Has(s, i + chunk.Size(), text)
    ensures Size(chunk.Before(text)) == chunk.Size() + Size(text)
  {
    match chunk
    case Raw(u) =>
    case Short(letter) => assert Has(s, i + 1, Char(letter, text)) <==> Is(s, i + 1, letter) && Has(s, i + 2, text);
    case Hex(a, b, c, d) =>
      assert Has(s, i + 4, Char(c, Char(d, text))) <==> Is(s, i + 4, c) && Is(s, i + 5, d) && Has(s, i + 6, text);
      assert Has(s, i + 2, Char(a, Char(b, Char(c, Char(d, text)))))
             <==> Is(s, i + 2, a) && Is(s, i + 3, b) && Has(s, i + 4, Char(c, Char(d, text)));
      assert Size(Char(c, Char(d, text))) == 2 + Size(text);
      assert Size(Char(a, Char(b, Char(c, Char(d, text))))) == 4 + Size(text);
  }

  lemma {:induction false} ChunksAreRead(s: Source, i: nat, chunks: Chunks)
    requires chunks.Valid() && Has(s, i, chunks.Closed())
    ensures ReadChunks(s, i) == Some(chunks)
    decreases chunks
  {
    if chunks.NextChunk? {
      ChunkIsRead(s, i, chunks.chunk, chunks.rest.Closed());
      ChunksAreRead(s, i + chunks.chunk.Size(), chunks.rest);
    }
  }

  lemma {:induction false} ReadChunksHas(s: Source, i: nat)
    requires ReadChunks(s, i).Some?
    ensures Has(s, i, ReadChunks(s, i).value.Closed())
    decreases |s| - i
  {
    if s[i] != QUOTE {
      var chunk := ReadChunk(s, i).value;
      ReadChunksHas(s, i + chunk.Size());
      ChunkIsRead(s, i, chunk, ReadChunks(s, i + chunk.Size()).value.Closed());
    }
  }

  // ---- Numbers ----

  predicate DigitAt(s: Source, i: nat) {
    i < |s| && IsDigit(s[i])
  }

  predicate IsSign(s: Source, i: nat) {
    Is(s, i, PLUS) || Is(s, i, MINUS)
  }

  /** The number pattern matches no further. */
  predicate Ends(s: Source, j: nat) {
    !DigitAt(s, j) && !Is(s, j, POINT) && !Is(s, j, SMALL_E) && !Is(s, j, LARGE_E)
  }

  predicate IsDigits(text: Text) {
    text.Char? && All(text, Digits)
  }

  /** A run of digits is read whole when something else follows. */
  lemma DigitsAreRead(s: Source, i: nat, digits: Text)
    requires IsDigits(digits) && Has(s, i, digits) && !DigitAt(s, i + Size(digits))
    ensures DigitAt(s, i) && s[i] == digits.head && Run(s, i, Digits) == digits
  {
    RunIsRead(s, i, digits, Digits);
  }

  lemma DigitRunHas(s: Source, i: nat)
    requires DigitAt(s, i)
    ensures IsDigits(Run(s, i, Digits)) && Run(s, i, Digits).head == s[i] && Has(s, i, Run(s, i, Digits))
  {
    RunIs(s, i, Digits);
  }

  /** An optional exponent. */
  datatype Exponent = NoExponent | Exponent(mark: CodeUnit, sign: Option<CodeUnit>, digits: Text)
  {
    predicate Valid() {
      Exponent? ==>
        && (mark == SMALL_E || mark == LARGE_E) && (sign.Some? ==> sign.value == PLUS || sign.value == MINUS)
        && IsDigits(digits)
    }

    function Text(): Text {
      match this
      case NoExponent => Empty
      case Exponent(mark, None, digits) => Char(mark, digits)
      case Exponent(mark, Some(sign), digits) => Char(mark, Char(sign, digits))
    }
  }

  /** The longest match of the exponent part. */
  function ReadExponent(s: Source, i: nat): Exponent {
    if !Is(s, i, SMALL_E) && !Is(s, i, LARGE_E) then NoExponent
    else if IsSign(s, i + 1) then
      if DigitAt(s, i + 2) then Exponent(s[i], Some(s[i + 1]), Run(s, i + 2, Digits)) else NoExponent
    else if DigitAt(s, i + 1) then Exponent(s[i], None, Run(s, i + 1, Digits))
    else NoExponent
  }

  lemma ReadExponentHas(s: Source, i: nat)
    requires i <= |s|
    ensures ReadExponent(s, i).Valid() && Has(s, i, ReadExponent(s, i).Text())
  {
    match ReadExponent(s, i)
    case NoExponent =>
    case Exponent(_, None, _) => DigitRunHas(s, i + 1);
    case Exponent(_, Some(_), _) => DigitRunHas(s, i + 2);
  }

  lemma ExponentIsRead(s: Source, i: nat, e: Exponent)
    requires e.Valid() && Has(s, i, e.Text()) && Ends(s, i + Size(e.Text()))
    ensures ReadExponent(s, i) == e && !DigitAt(s, i) && !Is(s, i, POINT)
  {
    match e
    case NoExponent =>
    case Exponent(_, None, digits) => DigitsAreRead(s, i + 1, digits);
    case Exponent(_, Some(_), digits) => DigitsAreRead(s, i + 2, digits);
  }

  /** An optional fraction. */
  datatype Fraction = NoFraction | Fraction(digits: Text)
  {
    predicate Valid() {
      Fraction? ==> IsDigits(digits)
    }

    function Text(): Text {
      match this
      case NoFraction => Empty
      case Fraction(digits) => Char(POINT, digits)
    }
  }

  function ReadFraction(s: Source, i: nat): Fraction {
    if Is(s, i, POINT) && DigitAt(s, i + 1) then Fraction(Run(s, i + 1, Digits)) else NoFraction
  }

  lemma ReadFractionHas(s: Source, i: nat)
    requires i <= |s|
    ensures ReadFraction(s, i).Valid() && Has(s, i, ReadFraction(s, i).Text())
  {
    if ReadFraction(s, i).Fraction? {
      DigitRunHas(s, i + 1);
    }
  }

  lemma FractionIsRead(s: Source, i: nat, f: Fraction)
    requires f.Valid() && Has(s, i, f.Text()) && !DigitAt(s, i + Size(f.Text())) && !Is(s, i + Size(f.Text()), POINT)
    ensures ReadFraction(s, i) == f && !DigitAt(s, i)
  {
    if f.Fraction? {
      DigitsAreRead(s, i + 1, f.digits);
    }
  }

  datatype Numeral = Numeral(negative: bool, whole: Text, fraction: Fraction, exponent: Exponent)
  {
    predicate Valid() {
      IsDigits(whole) && (whole.head == ZERO ==> whole.rest.Empty?) && fraction.Valid() && exponent.Valid()
    }

    function Tail(): Text { Cat(fraction.Text(), exponent.Text()) }
    function Unsigned(): Text { Cat(whole, Tail()) }
    function Text(): Text { if negative then Char(MINUS, Unsigned()) else Unsigned() }
  }

  function Whole(s: Source, i: nat): Text
    requires DigitAt(s, i)
  {
    if s[i] == ZERO then One(ZERO) else Run(s, i, Digits)
  }

  function ReadUnsigned(s: Source, i: nat, negative: bool): Option<Numeral> {
    if !DigitAt(s, i) then None
    else
      var whole := Whole(s, i);
      var fraction := ReadFraction(s, i + Size(whole));
      Some(Numeral(negative, whole, fraction, ReadExponent(s, i + Size(whole) + Size(fraction.Text()))))
  }

  /** The match of the number pattern. */
  function ReadNumeral(s: Source, i: nat): Option<Numeral> {
    if Is(s, i, MINUS) then ReadUnsigned(s, i + 1, true) else ReadUnsigned(s, i, false)
  }

  lemma WholeHas(s: Source, i: nat)
    requires DigitAt(s, i)
    ensures Has(s, i, Whole(s, i)) && IsDigits(Whole(s, i))
    ensures Whole(s, i).head == ZERO ==> Whole(s, i).rest.Empty?
  {
    DigitRunHas(s, i);
  }

  lemma WholeIsRead(s: Source, i: nat, whole: Text)
    requires IsDigits(whole) && (whole.head == ZERO ==> whole.rest.Empty?)
    requires Has(s, i, whole) && !DigitAt(s, i + Size(whole))
    ensures DigitAt(s, i) && Whole(s, i) == whole
  {
    DigitsAreRead(s, i, whole);
  }

  lemma ReadUnsignedHas(s: Source, i: nat, negative: bool)
    requires DigitAt(s, i)
    ensures ReadUnsigned(s, i, negative).value.Valid() && Has(s, i, ReadUnsigned(s, i, negative).value.Unsigned())
  {
    var n := ReadUnsigned(s, i, negative).value;
    var end := i + Size(n.whole);
    WholeHas(s, i);
    ReadFractionHas(s, end);
    ReadExponentHas(s, end + Size(n.fraction.Text()));
    HasJoined(s, end, n.fraction.Text(), n.exponent.Text());
    HasJoined(s, i, n.whole, n.Tail());
  }

  lemma ReadNumeralHas(s: Source, i: nat)
    requires ReadNumeral(s, i).Some?
    ensures ReadNumeral(s, i).value.Valid() && Has(s, i, ReadNumeral(s, i).value.Text())
  {
    if Is(s, i, MINUS) {
      ReadUnsignedHas(s, i + 1, true);
    } else {
      ReadUnsignedHas(s, i, false);
    }
  }

  lemma TailIsRead(s: Source, i: nat, n: Numeral)
    requires n.Valid() && Has(s, i, n.Tail()) && Ends(s, i + Size(n.Tail()))
    ensures ReadFraction(s, i) == n.fraction && !DigitAt(s, i)
    ensures ReadExponent(s, i + Size(n.fraction.Text())) == n.exponent
  {
    HasJoined(s, i, n.fraction.Text(), n.exponent.Text());
    ExponentIsRead(s, i + Size(n.fraction.Text()), n.exponent);
    FractionIsRead(s, i, n.fraction);
  }

  /** An unsigned numeral is read in three parts. */
  lemma UnsignedOfParts(s: Source, i: nat, n: Numeral)
    requires DigitAt(s, i) && Whole(s, i) == n.whole
    requires ReadFraction(s, i + Size(n.whole)) == n.fraction
    requires ReadExponent(s, i + Size(n.whole) + Size(n.fraction.Text())) == n.exponent
    ensures ReadUnsigned(s, i, n.negative) == Some(n)
  {
  }

  lemma UnsignedIsRead(s: Source, i: nat, n: Numeral)
    requires n.Valid() && Has(s, i, n.Unsigned()) && Ends(s, i + Size(n.Unsigned()))
    ensures ReadUnsigned(s, i, n.negative) == Some(n) && DigitAt(s, i)
  {
    HasJoined(s, i, n.whole, n.Tail());
    TailIsRead(s, i + Size(n.whole), n);
    WholeIsRead(s, i, n.whole);
    UnsignedOfParts(s, i, n);
  }

  /** What may follow a value inside a text. */
  predicate Stops(s: Source, j: nat) {
    j < |s| ==> IsSpace(s[j]) || s[j] == COMMA || s[j] == RIGHT_BRACKET || s[j] == RIGHT_BRACE
  }

  lemma NumeralIsRead(s: Source, i: nat, n: Numeral)
    requires n.Valid() && Has(s, i, n.Text()) && Stops(s, i + Size(n.Text()))
    ensures ReadNumeral(s, i) == Some(n)
  {
    assert Ends(s, i + Size(n.Text()));
    if n.negative {
      UnsignedIsRead(s, i + 1, n);
    } else {
      UnsignedIsRead(s, i, n);
    }
  }
}

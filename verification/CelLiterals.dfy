/** Characters and escapes, against tables written out. */
module CelLiterals {
  // packages/model-option-map/src/tokenizer.ts: what the classes hold and what an escape stands for.

  import opened Outcomes
  import opened Sequences
  import opened Texts
  import opened CelTokens
  import opened CelParser
  import opened CelPrinter
  import opened CelTokenizer
  import opened CelSource
  import CelPrecedence

  // ---------------------------------------------------------------------------------------------
  // Classes of characters
  // ---------------------------------------------------------------------------------------------

  const DIGITS := "0123456789"
  const UPPER_CASE := "ABCDEFGHIJKLMNOPQRSTUVWXYZ"
  const LOWER_CASE := "abcdefghijklmnopqrstuvwxyz"
  const HEX_DIGITS := "0123456789ABCDEFabcdef"
  const SINGLE_OPERATORS := "+-*/%!<>"
  const PUNCTUATION := "{}[](),:?."

  /** The code unit is one of the ASCII characters. */
  predicate Among(c: CodeUnit, characters: string) {
    c < 128 && c as char in characters
  }

  lemma DigitsAreThese(c: CodeUnit)
    ensures IsDigit(c) <==> Among(c, DIGITS)
  {
  }

  lemma LettersAreThese(c: CodeUnit)
    ensures IsLetter(c) <==> Among(c, UPPER_CASE) || Among(c, LOWER_CASE) || Among(c, "_")
  {
    UpperCase(c);
    LowerCase(c);
  }

  lemma UpperCase(c: CodeUnit)
    ensures 65 <= c <= 90 <==> Among(c, UPPER_CASE)
  {
  }

  lemma LowerCase(c: CodeUnit)
    ensures 97 <= c <= 122 <==> Among(c, LOWER_CASE)
  {
  }

  lemma HexDigitsAreThese(c: CodeUnit)
    ensures IsHex(c) <==> Among(c, HEX_DIGITS)
  {
  }

  lemma OperatorsAreThese(c: CodeUnit)
    ensures IsSingle(c) <==> Among(c, SINGLE_OPERATORS)
    ensures IsPunctuation(c) <==> Among(c, PUNCTUATION)
  {
  }

  /** Tab, line feed, vertical tab, form feed, carriage return, space, no-break space and byte-order mark. */
  const COMMON_SPACES: set<CodeUnit> := {0x9, 0xA, 0xB, 0xC, 0xD, 0x20, 0xA0, 0xFEFF}

  /** The other space separators of Unicode, and its line and paragraph separators. */
  const OTHER_SPACES: set<CodeUnit> := {
    0x1680, 0x2000, 0x2001, 0x2002, 0x2003, 0x2004, 0x2005, 0x2006, 0x2007, 0x2008, 0x2009, 0x200A,
    0x2028, 0x2029, 0x202F, 0x205F, 0x3000}

  lemma SpacesAreThese(c: CodeUnit)
    ensures IsSpace(c) <==> c in COMMON_SPACES || c in OTHER_SPACES
  {
  }

  // ---------------------------------------------------------------------------------------------
  // Escapes
  // ---------------------------------------------------------------------------------------------

  /** What a letter behind a backslash stands for: itself, or a control character. */
  predicate StandsFor(letter: CodeUnit, unit: CodeUnit) {
    || (letter == unit && (letter == '\'' as int || letter == '"' as int || letter == '\\' as int))
    || (letter == 'b' as int && unit == 8) || (letter == 't' as int && unit == '\t' as int)
    || (letter == 'n' as int && unit == '\n' as int) || (letter == 'f' as int && unit == 12)
    || (letter == 'r' as int && unit == '\r' as int)
  }

  predicate IsQuote(c: CodeUnit) {
    c == '\'' as int || c == '"' as int
  }

  /** A source text that is one string literal. */
  lemma OneStringCompiles(g: Grammar, source: Text, quote: CodeUnit, pieces: seq<Piece>)
    requires Usable(g) && IsQuote(quote) && AllowedAll(pieces, quote) && source == [quote] + (WrittenAll(pieces) + [quote])
    ensures Compile(g, source) == Ok(StringLiteral(MeantAll(pieces, quote)))
  {
    hide *;
    var value := MeantAll(pieces, quote);
    StringIsSpelled(source, quote, pieces);
    StringIsOperand(g, value);
    CelPrecedence.SourceOperandsRead(g, StringLiteral(value), source);
  }

  lemma StringIsSpelled(source: Text, quote: CodeUnit, pieces: seq<Piece>)
    requires IsQuote(quote) && AllowedAll(pieces, quote) && source == [quote] + (WrittenAll(pieces) + [quote])
    ensures SpelledFrom(source, 0, [Lexeme(Str, MeantAll(pieces, quote))])
  {
    var value := MeantAll(pieces, quote);
    assert IsString(source, value, quote, pieces);
    assert source[0..|source|] == source;
    hide SpelledFrom, IsString;
    NothingIsSpelled(source);
    SpelledFirst(source, 0, |source|, [Lexeme(Str, value)]);
  }

  lemma NothingIsSpelled(source: Text)
    ensures SpelledFrom(source, |source|, [])
  {
  }

  lemma StringIsOperand(g: Grammar, value: Text)
    requires Usable(g)
    ensures Good(g, StringLiteral(value)) && CelPrecedence.OperandWritten(g, StringLiteral(value)) == [Lexeme(Str, value)]
  {
  }

  lemma OnePiece(piece: Piece, quote: CodeUnit)
    requires Allowed(piece, quote)
    ensures AllowedAll([piece], quote) && MeantAll([piece], quote) == [Meant(piece, quote)] && WrittenAll([piece]) == Written(piece)
  {
    assert [piece][1..] == [];
    assert WrittenAll([]) == [] && Written(piece) + [] == Written(piece);
  }

  /** A string of one escape is the character it stands for. */
  lemma EscapesRead(g: Grammar, quote: CodeUnit, letter: CodeUnit, unit: CodeUnit)
    requires Usable(g) && IsQuote(quote) && StandsFor(letter, unit)
    ensures Compile(g, [quote, '\\' as int, letter, quote]) == Ok(StringLiteral([unit]))
  {
    var piece := Simple(letter);
    OnePiece(piece, quote);
    OneStringCompiles(g, [quote, '\\' as int, letter, quote], quote, [piece]);
  }

  /** No other letter but `u` may stand behind a backslash. */
  lemma OtherEscapesFail(g: Grammar, quote: CodeUnit, letter: CodeUnit)
    requires IsQuote(quote) && letter != 'u' as int && forall unit :: !StandsFor(letter, unit)
    ensures Compile(g, [quote, '\\' as int, letter, quote]) == Err(CelError(UnsupportedEscape, 1))
  {
    assert !StandsFor(letter, letter) && !StandsFor(letter, 8) && !StandsFor(letter, 9);
    assert !StandsFor(letter, 10) && !StandsFor(letter, 12) && !StandsFor(letter, 13);
    var source := [quote, '\\' as int, letter, quote];
    assert StringFrom(source, 0, quote, 1) == Err(CelError(UnsupportedEscape, 1));
  }

  /** The hexadecimal digit of a number below sixteen, in either case. */
  function HexDigit(value: nat, upper: bool): CodeUnit
    requires value < 16
  {
    if value < 10 then '0' as int + value else if upper then 'A' as int + (value - 10) else 'a' as int + (value - 10)
  }

  lemma HexDigitRead(value: nat, upper: bool)
    requires value < 16
    ensures IsHex(HexDigit(value, upper)) && HexValue(HexDigit(value, upper)) == value
  {
  }

  /** Four hexadecimal digits behind `\u` are the code unit they write, whatever the case of each. */
  lemma UnicodeEscapesRead(g: Grammar, quote: CodeUnit, unit: CodeUnit, u1: bool, u2: bool, u3: bool, u4: bool)
    requires Usable(g) && IsQuote(quote)
    ensures var a, b := HexDigit(unit / 0x1000, u1), HexDigit(unit / 0x100 % 0x10, u2);
            var c, d := HexDigit(unit / 0x10 % 0x10, u3), HexDigit(unit % 0x10, u4);
            Compile(g, [quote, '\\' as int, 'u' as int, a, b, c, d, quote]) == Ok(StringLiteral([unit]))
  {
    hide *;
    FourDigits(unit, u1, u2, u3, u4);
    var a, b := HexDigit(unit / 0x1000, u1), HexDigit(unit / 0x100 % 0x10, u2);
    var c, d := HexDigit(unit / 0x10 % 0x10, u3), HexDigit(unit % 0x10, u4);
    HexPiece(quote, a, b, c, d);
    OneStringCompiles(g, [quote, '\\' as int, 'u' as int, a, b, c, d, quote], quote, [Hex(a, b, c, d)]);
  }

  lemma HexPiece(quote: CodeUnit, a: CodeUnit, b: CodeUnit, c: CodeUnit, d: CodeUnit)
    requires IsHex(a) && IsHex(b) && IsHex(c) && IsHex(d)
    ensures AllowedAll([Hex(a, b, c, d)], quote) && MeantAll([Hex(a, b, c, d)], quote) == [FourHex(a, b, c, d)]
    ensures [quote, '\\' as int, 'u' as int, a, b, c, d, quote] == [quote] + (WrittenAll([Hex(a, b, c, d)]) + [quote])
  {
    hide IsHex, FourHex;
    OnePiece(Hex(a, b, c, d), quote);
  }

  lemma FourDigits(unit: CodeUnit, u1: bool, u2: bool, u3: bool, u4: bool)
    ensures var a, b := HexDigit(unit / 0x1000, u1), HexDigit(unit / 0x100 % 0x10, u2);
            var c, d := HexDigit(unit / 0x10 % 0x10, u3), HexDigit(unit % 0x10, u4);
            IsHex(a) && IsHex(b) && IsHex(c) && IsHex(d) && FourHex(a, b, c, d) == unit
  {
    HexDigitRead(unit / 0x1000, u1);
    HexDigitRead(unit / 0x100 % 0x10, u2);
    HexDigitRead(unit / 0x10 % 0x10, u3);
    HexDigitRead(unit % 0x10, u4);
    InSixteens(unit);
    hide HexDigit, HexValue, IsHex;
  }

  lemma InSixteens(unit: CodeUnit)
    ensures 0x1000 * (unit / 0x1000) + 0x100 * (unit / 0x100 % 0x10) + 0x10 * (unit / 0x10 % 0x10) + unit % 0x10 == unit
    ensures unit / 0x1000 < 0x10
  {
    var q1 := unit / 0x10;
    var q2 := q1 / 0x10;
    assert unit / 0x100 == q2;
    assert unit / 0x1000 == q2 / 0x10;
  }
}

/** The tokenizer of the restricted expression language, over code units. */
module CelTokenizer {
  // packages/model-option-map/src/tokenizer.ts; the units are those of UTF-16.

  import opened Outcomes
  import opened CelTokens
  import opened CelParser
  import opened Sequences
  import opened Texts

  const QUOTE: CodeUnit := 39
  const DOUBLE_QUOTE: CodeUnit := 34
  const BACKSLASH: CodeUnit := 92
  const LINE_FEED: CodeUnit := 10
  const CARRIAGE_RETURN: CodeUnit := 13
  const SPACE: CodeUnit := 32
  const POINT: CodeUnit := 46
  const LETTER_U: CodeUnit := 117

  /** The class `\s` of ECMAScript: white space and line terminators. */
  predicate IsSpace(c: CodeUnit) {
    || 9 <= c <= 13 || c == 32 || c == 160 || c == 0x1680 || 0x2000 <= c <= 0x200A
    || c == 0x2028 || c == 0x2029 || c == 0x202F || c == 0x205F || c == 0x3000 || c == 0xFEFF
  }

  predicate IsDigit(c: CodeUnit) {
    48 <= c <= 57
  }

  predicate IsLetter(c: CodeUnit) {
    65 <= c <= 90 || 97 <= c <= 122 || c == 95
  }

  predicate IsWord(c: CodeUnit) {
    IsLetter(c) || IsDigit(c)
  }

  predicate IsHex(c: CodeUnit) {
    IsDigit(c) || 65 <= c <= 70 || 97 <= c <= 102
  }

  predicate IsPoint(c: CodeUnit) {
    c == POINT
  }

  predicate IsSign(c: CodeUnit) {
    c == 43 || c == 45
  }

  /** e or E */
  predicate IsExponentMark(c: CodeUnit) {
    c == 101 || c == 69
  }

  function HexValue(c: CodeUnit): (v: nat)
    requires IsHex(c)
    ensures v < 16
  {
    if IsDigit(c) then c - 48 else if c <= 70 then c - 55 else c - 87
  }

  predicate IsDouble(value: Text) {
    value == AND || value == OR || value == EQUAL || value == NOT_EQUAL || value == LESS_EQUAL || value == GREATER_EQUAL
  }

  /** + - * / % ! < > */
  predicate IsSingle(c: CodeUnit) {
    c == 43 || c == 45 || c == 42 || c == 47 || c == 37 || c == 33 || c == 60 || c == 62
  }

  /** { } [ ] ( ) , : ? . */
  predicate IsPunctuation(c: CodeUnit) {
    c == 123 || c == 125 || c == 91 || c == 93 || c == 40 || c == 41 || c == 44 || c == 58 || c == 63 || c == 46
  }

  /** What a backslash and one code unit stand for. */
  function SimpleEscape(c: CodeUnit): Option<CodeUnit> {
    if c == QUOTE || c == DOUBLE_QUOTE || c == BACKSLASH then Some(c)
    else if c == 98 then Some(8)
    else if c == 102 then Some(12)
    else if c == 110 then Some(10)
    else if c == 114 then Some(13)
    else if c == 116 then Some(9)
    else None
  }

  /** The first index from `i` on at which `belongs` fails. */
  function RunEnd(source: Text, i: nat, belongs: CodeUnit -> bool): (end: nat)
    requires i <= |source|
    ensures i <= end <= |source|
    ensures forall k :: i <= k < end ==> belongs(source[k])
    ensures end < |source| ==> !belongs(source[end])
    decreases |source| - i
  {
    if i < |source| && belongs(source[i]) then RunEnd(source, i + 1, belongs) else i
  }

  predicate Holds(source: Text, i: nat, belongs: CodeUnit -> bool) {
    i < |source| && belongs(source[i])
  }

  /** Where the optional fraction at `i` ends. */
  function FractionEnd(source: Text, i: nat): (end: nat)
    requires i <= |source|
    ensures i <= end <= |source|
  {
    if Holds(source, i, IsPoint) && Holds(source, i + 1, IsDigit) then RunEnd(source, i + 1, IsDigit) else i
  }

  /** Where the digits of an exponent marked at `i` would begin. */
  function ExponentDigits(source: Text, i: nat): nat {
    if Holds(source, i + 1, IsSign) then i + 2 else i + 1
  }

  function ExponentEnd(source: Text, i: nat): (end: nat)
    requires i <= |source|
    ensures i <= end <= |source|
  {
    if Holds(source, i, IsExponentMark) && Holds(source, ExponentDigits(source, i), IsDigit)
    then RunEnd(source, ExponentDigits(source, i), IsDigit)
    else i
  }

  function IntegerEnd(source: Text, i: nat): (end: nat)
    requires i < |source| && IsDigit(source[i])
    ensures i < end <= |source|
  {
    if source[i] == 48 then i + 1 else RunEnd(source, i + 1, IsDigit)
  }

  function NumberEnd(source: Text, i: nat): (end: nat)
    requires i < |source| && IsDigit(source[i])
    ensures i < end <= |source|
  {
    ExponentEnd(source, FractionEnd(source, IntegerEnd(source, i)))
  }

  /** The body of a string literal opened at `offset`, from `cursor` on: its text and the end of the token. */
  function StringFrom(source: Text, offset: nat, quote: CodeUnit, cursor: nat): (r: Result<(Text, nat), CelError>)
    requires offset < cursor
    ensures r.Ok? ==> cursor < r.value.1 <= |source|
    decreases |source| - cursor
  {
    if cursor >= |source| then Err(CelError(UnterminatedString, offset))
    else
      var c := source[cursor];
      if c == quote then Ok(([], cursor + 1))
      else if c == LINE_FEED || c == CARRIAGE_RETURN then Err(CelError(UnterminatedString, offset))
      else if c != BACKSLASH then Before([c], StringFrom(source, offset, quote, cursor + 1))
      else if cursor + 1 >= |source| then Err(CelError(UnterminatedEscape, cursor))
      else
        var escaped := source[cursor + 1];
        match SimpleEscape(escaped)
        case Some(meant) => Before([meant], StringFrom(source, offset, quote, cursor + 2))
        case None =>
          if escaped != LETTER_U then Err(CelError(UnsupportedEscape, cursor))
          else if !HexAt(source, cursor + 2) then Err(CelError(InvalidUnicodeEscape, cursor))
          else Before([HexUnit(source, cursor + 2)], StringFrom(source, offset, quote, cursor + 6))
  }

  predicate HexAt(source: Text, i: nat) {
    i + 4 <= |source| && IsHex(source[i]) && IsHex(source[i + 1]) && IsHex(source[i + 2]) && IsHex(source[i + 3])
  }

  function HexUnit(source: Text, i: nat): CodeUnit
    requires HexAt(source, i)
  {
    FourHex(source[i], source[i + 1], source[i + 2], source[i + 3])
  }

  function FourHex(a: CodeUnit, b: CodeUnit, c: CodeUnit, d: CodeUnit): CodeUnit
    requires IsHex(a) && IsHex(b) && IsHex(c) && IsHex(d)
  {
    0x1000 * HexValue(a) + 0x100 * HexValue(b) + 0x10 * HexValue(c) + HexValue(d)
  }

  function Before(text: Text, r: Result<(Text, nat), CelError>): Result<(Text, nat), CelError> {
    match r
    case Err(e) => Err(e)
    case Ok((rest, end)) => Ok((text + rest, end))
  }

  /** The token that starts at `i`, which is not white space. */
  function Next(source: Text, i: nat): (r: Result<Token, CelError>)
    requires i < |source| && !IsSpace(source[i])
    ensures r.Ok? ==> r.value.offset == i < r.value.end <= |source| && r.value.kind != Eof
  {
    var c := source[i];
    if c == QUOTE || c == DOUBLE_QUOTE then
      match StringFrom(source, i, c, i + 1)
      case Err(e) => Err(e)
      case Ok((text, end)) => Ok(Token(Str, text, i, end))
    else if IsDigit(c) then Ok(Cut(source, Number, i, NumberEnd(source, i)))
    else if IsLetter(c) then Ok(Cut(source, Identifier, i, RunEnd(source, i + 1, IsWord)))
    else if i + 2 <= |source| && IsDouble(source[i..i + 2]) then Ok(Cut(source, Operator, i, i + 2))
    else if IsSingle(c) then Ok(Cut(source, Operator, i, i + 1))
    else if IsPunctuation(c) then Ok(Cut(source, Punctuation, i, i + 1))
    else Err(CelError(UnsupportedToken, i))
  }

  /** A token that says what stands in the source. */
  function Cut(source: Text, kind: Kind, offset: nat, end: nat): Token
    requires offset <= end <= |source|
  {
    Token(kind, source[offset..end], offset, end)
  }

  /** All tokens from `i` on, and eof. */
  function Scan(source: Text, i: nat): (r: Result<seq<Token>, CelError>)
    requires i <= |source|
    decreases |source| - i
  {
    if i == |source| then Ok([Token(Eof, [], i, i)])
    else if IsSpace(source[i]) then Scan(source, i + 1)
    else
      match Next(source, i)
      case Err(e) => Err(e)
      case Ok(token) => After([token], Scan(source, token.end))
  }

  function After(tokens: seq<Token>, r: Result<seq<Token>, CelError>): Result<seq<Token>, CelError> {
    match r
    case Err(e) => Err(e)
    case Ok(rest) => Ok(tokens + rest)
  }

  // ---------------------------------------------------------------------------------------------
  // The loops
  // ---------------------------------------------------------------------------------------------

  method Tokenize(source: Text) returns (r: Result<seq<Token>, CelError>)
    ensures r == Scan(source, 0)
  {
    var tokens: seq<Token> := [];
    var offset := 0;
    AfterNone(Scan(source, 0));
    while offset < |source|
      invariant offset <= |source|
      invariant Scan(source, 0) == After(tokens, Scan(source, offset))
    {
      var character := source[offset];
      if IsSpace(character) {
        offset := offset + 1;
        continue;
      }
      var next := ReadToken(source, offset);
      if next.Err? {
        return Err(next.error);
      }
      AfterTwice(tokens, [next.value], Scan(source, next.value.end));
      tokens := tokens + [next.value];
      offset := next.value.end;
    }
    r := Ok(tokens + [Token(Eof, [], |source|, |source|)]);
  }

  lemma AfterNone(r: Result<seq<Token>, CelError>)
    ensures After([], r) == r
  {
    if r.Ok? {
      assert [] + r.value == r.value;
    }
  }

  lemma AfterTwice(a: seq<Token>, b: seq<Token>, r: Result<seq<Token>, CelError>)
    ensures After(a, After(b, r)) == After(a + b, r)
  {
    if r.Ok? {
      assert a + (b + r.value) == a + b + r.value;
    }
  }

  method ReadToken(source: Text, offset: nat) returns (r: Result<Token, CelError>)
    requires offset < |source| && !IsSpace(source[offset])
    ensures r == Next(source, offset)
  {
    var character := source[offset];
    if character == QUOTE || character == DOUBLE_QUOTE {
      r := ReadString(source, offset, character);
      return;
    }
    if IsDigit(character) {
      r := ReadNumber(source, offset);
      return;
    }
    if IsLetter(character) {
      var end := ReadWhile(source, offset + 1, IsWord);
      return Ok(Token(Identifier, source[offset..end], offset, end));
    }
    var pair := source[offset..if offset + 2 <= |source| then offset + 2 else |source|];
    if IsDouble(pair) {
      return Ok(Token(Operator, pair, offset, offset + 2));
    }
    assert source[offset..offset + 1] == [character];
    if IsSingle(character) {
      return Ok(Token(Operator, [character], offset, offset + 1));
    }
    if IsPunctuation(character) {
      return Ok(Token(Punctuation, [character], offset, offset + 1));
    }
    r := Err(CelError(UnsupportedToken, offset));
  }

  method ReadWhile(source: Text, offset: nat, belongs: CodeUnit -> bool) returns (cursor: nat)
    requires offset <= |source|
    ensures cursor == RunEnd(source, offset, belongs)
  {
    cursor := offset;
    while cursor < |source| && belongs(source[cursor])
      invariant offset <= cursor <= |source|
      invariant RunEnd(source, offset, belongs) == RunEnd(source, cursor, belongs)
    {
      cursor := cursor + 1;
    }
  }

  /** The source matches a regular expression; it is unrolled here part by part. */
  method ReadNumber(source: Text, offset: nat) returns (r: Result<Token, CelError>)
    requires offset < |source| && IsDigit(source[offset])
    ensures r == Ok(Cut(source, Number, offset, NumberEnd(source, offset)))
  {
    var end := offset + 1;
    if source[offset] != 48 {
      end := ReadWhile(source, end, IsDigit);
    }
    end := ReadFraction(source, end);
    end := ReadExponent(source, end);
    r := Ok(Token(Number, source[offset..end], offset, end));
  }

  method ReadFraction(source: Text, offset: nat) returns (end: nat)
    requires offset <= |source|
    ensures end == FractionEnd(source, offset)
  {
    end := offset;
    if Holds(source, offset, IsPoint) && Holds(source, offset + 1, IsDigit) {
      end := ReadWhile(source, offset + 1, IsDigit);
    }
  }

  method ReadExponent(source: Text, offset: nat) returns (end: nat)
    requires offset <= |source|
    ensures end == ExponentEnd(source, offset)
  {
    end := offset;
    if Holds(source, offset, IsExponentMark) {
      var digits := offset + 1;
      if Holds(source, digits, IsSign) {
        digits := digits + 1;
      }
      if Holds(source, digits, IsDigit) {
        end := ReadWhile(source, digits, IsDigit);
      }
    }
  }

  method ReadString(source: Text, offset: nat, quote: CodeUnit) returns (r: Result<Token, CelError>)
    requires offset < |source|
    ensures var body := StringFrom(source, offset, quote, offset + 1);
            r == match body case Err(e) => Err(e) case Ok((text, end)) => Ok(Token(Str, text, offset, end))
  {
    var cursor := offset + 1;
    var value: Text := [];
    BeforeNone(StringFrom(source, offset, quote, cursor));
    while cursor < |source|
      invariant offset < cursor
      invariant StringFrom(source, offset, quote, offset + 1) == Before(value, StringFrom(source, offset, quote, cursor))
      decreases |source| - cursor
    {
      var character := source[cursor];
      if character == quote {
        assert value + [] == value;
        return Ok(Token(Str, value, offset, cursor + 1));
      }
      if character == LINE_FEED || character == CARRIAGE_RETURN {
        return Err(CelError(UnterminatedString, offset));
      }
      if character != BACKSLASH {
        BeforeTwice(value, [character], StringFrom(source, offset, quote, cursor + 1));
        value := value + [character];
        cursor := cursor + 1;
        continue;
      }
      var escapeOffset := cursor;
      cursor := cursor + 1;
      if cursor >= |source| {
        return Err(CelError(UnterminatedEscape, escapeOffset));
      }
      var escaped := source[cursor];
      var simple := SimpleEscape(escaped);
      if simple.Some? {
        BeforeTwice(value, [simple.value], StringFrom(source, offset, quote, cursor + 1));
        value := value + [simple.value];
        cursor := cursor + 1;
        continue;
      }
      if escaped == LETTER_U {
        if !HexAt(source, cursor + 1) {
          return Err(CelError(InvalidUnicodeEscape, escapeOffset));
        }
        BeforeTwice(value, [HexUnit(source, cursor + 1)], StringFrom(source, offset, quote, cursor + 5));
        value := value + [HexUnit(source, cursor + 1)];
        cursor := cursor + 5;
        continue;
      }
      return Err(CelError(UnsupportedEscape, escapeOffset));
    }
    r := Err(CelError(UnterminatedString, offset));
  }

  lemma BeforeNone(r: Result<(Text, nat), CelError>)
    ensures Before([], r) == r
  {
    if r.Ok? {
      assert [] + r.value.0 == r.value.0;
    }
  }

  lemma BeforeTwice(a: Text, b: Text, r: Result<(Text, nat), CelError>)
    ensures Before(a, Before(b, r)) == Before(a + b, r)
  {
    if r.Ok? {
      assert a + (b + r.value.0) == a + b + r.value.0;
    }
  }

  // ---------------------------------------------------------------------------------------------
  // Where the tokens lie
  // ---------------------------------------------------------------------------------------------

  predicate Blank(source: Text, i: nat, j: nat) {
    i <= j <= |source| && forall k :: i <= k < j ==> IsSpace(source[k])
  }

  /**
   * From `i` on: the tokens follow each other with only white space before, between and behind them,
   * none of them empty; the last is eof at the end of the source; all but strings say what they cover.
   */
  ghost predicate LaidOut(source: Text, i: nat, tokens: seq<Token>)
    decreases |tokens|
  {
    && tokens != []
    && Blank(source, i, tokens[0].offset)
    && if |tokens| == 1 then tokens[0] == Token(Eof, [], |source|, |source|)
       else
         && tokens[0].kind != Eof && tokens[0].offset < tokens[0].end <= |source|
         && (tokens[0].kind != Str ==> tokens[0].value == source[tokens[0].offset..tokens[0].end])
         && LaidOut(source, tokens[0].end, tokens[1..])
  }

  lemma {:induction false} ScanLaysOut(source: Text, i: nat)
    requires i <= |source|
    ensures Scan(source, i).Ok? ==> LaidOut(source, i, Scan(source, i).value)
    decreases |source| - i
  {
    if i < |source| {
      if IsSpace(source[i]) {
        ScanLaysOut(source, i + 1);
      } else if Next(source, i).Ok? {
        var token := Next(source, i).value;
        ScanLaysOut(source, token.end);
        if Scan(source, i).Ok? {
          assert Scan(source, i).value[1..] == Scan(source, token.end).value;
        }
      }
    }
  }

  lemma {:induction false} LaidOutEnds(source: Text, i: nat, tokens: seq<Token>)
    requires LaidOut(source, i, tokens)
    ensures Ended(tokens)
    decreases |tokens|
  {
    if |tokens| > 1 {
      LaidOutEnds(source, tokens[0].end, tokens[1..]);
      forall k | 0 <= k < |tokens| && tokens[k].kind == Eof
        ensures k == |tokens| - 1
      {
        assert k > 0 && tokens[k] == tokens[1..][k - 1];
      }
    }
  }

  /** Any two tokens are disjoint and in order, and no token reaches past the source. */
  lemma {:induction false} LaidOutInOrder(source: Text, i: nat, tokens: seq<Token>, a: nat, b: nat)
    requires LaidOut(source, i, tokens) && a < b < |tokens|
    ensures i <= tokens[a].offset < tokens[a].end <= tokens[b].offset <= tokens[b].end <= |source|
    decreases |tokens|
  {
    if a > 0 {
      LaidOutInOrder(source, tokens[0].end, tokens[1..], a - 1, b - 1);
    } else if b > 1 {
      LaidOutInOrder(source, tokens[0].end, tokens[1..], 0, b - 1);
    } else {
      assert tokens[1] == tokens[1..][0];
    }
  }

  /** `parseRestrictedCel` on a source text: tokenize, then parse. */
  function Compile(g: Grammar, source: Text): Result<Expr, CelError> {
    match Scan(source, 0)
    case Err(e) => Err(e)
    case Ok(tokens) => ScanLaysOut(source, 0); LaidOutEnds(source, 0, tokens); ParseAll(g, tokens)
  }

  /** On every source text the two stages end with an expression or an error, as one function of the text. */
  method CompileSource(g: Grammar, source: Text) returns (r: Result<Expr, CelError>)
    ensures r == Compile(g, source)
  {
    var tokens := Tokenize(source);
    if tokens.Err? {
      return Err(tokens.error);
    }
    ScanLaysOut(source, 0);
    LaidOutEnds(source, 0, tokens.value);
    var parser := new Parser(g, tokens.value);
    r := parser.ParseProgram();
  }

  // ---------------------------------------------------------------------------------------------
  // Numbers: the scan finds the longest number
  // ---------------------------------------------------------------------------------------------

  predicate AllDigits(text: Text) {
    forall k :: 0 <= k < |text| ==> IsDigit(text[k])
  }

  /** 0, or digits that do not start with 0. */
  predicate IntegerText(text: Text) {
    text != [] && AllDigits(text) && (text[0] == 48 ==> |text| == 1)
  }

  /** Nothing, or a point and digits. */
  predicate FractionText(text: Text) {
    text == [] || (|text| > 1 && text[0] == POINT && AllDigits(text[1..]))
  }

  /** Nothing, or e or E, an optional sign, and digits. */
  predicate ExponentText(text: Text) {
    || text == []
    || (|text| > 1 && (text[0] == 101 || text[0] == 69) && AllDigits(text[1..]))
    || (|text| > 2 && (text[0] == 101 || text[0] == 69) && (text[1] == 43 || text[1] == 45) && AllDigits(text[2..]))
  }

  ghost predicate NumberSplit(text: Text, a: nat, b: nat) {
    a <= b <= |text| && IntegerText(text[..a]) && FractionText(text[a..b]) && ExponentText(text[b..])
  }

  /** The number literals of the language. */
  ghost predicate NumberText(text: Text) {
    exists a: nat, b: nat :: NumberSplit(text, a, b)
  }

  lemma SliceOfSlice(source: Text, i: nat, end: nat, p: nat, q: nat)
    requires i <= p <= q <= end <= |source|
    ensures source[i..end][p - i..q - i] == source[p..q]
  {
    var inner := source[i..end][p - i..q - i];
    forall k | 0 <= k < q - p
      ensures inner[k] == source[p..q][k]
    {
      assert inner[k] == source[i..end][p - i + k];
    }
  }

  lemma Sliced(source: Text, i: nat, end: nat, p: nat, q: nat)
    requires i <= p <= q <= end <= |source|
    ensures var text := source[i..end];
            text[..p - i] == source[i..p] && text[p - i..q - i] == source[p..q] && text[q - i..] == source[q..end]
  {
    SliceOfSlice(source, i, end, i, p);
    SliceOfSlice(source, i, end, p, q);
    SliceOfSlice(source, i, end, q, end);
  }

  lemma ScannedNumberIsNumber(source: Text, i: nat)
    requires i < |source| && IsDigit(source[i])
    ensures NumberText(source[i..NumberEnd(source, i)])
  {
    var p := IntegerEnd(source, i);
    var q := FractionEnd(source, p);
    var end := NumberEnd(source, i);
    var text := source[i..end];
    Sliced(source, i, end, p, q);
    IntegerScanned(source, i);
    FractionScanned(source, p);
    ExponentScanned(source, q);
    assert NumberSplit(text, p - i, q - i);
  }

  lemma IntegerScanned(source: Text, i: nat)
    requires i < |source| && IsDigit(source[i])
    ensures IntegerText(source[i..IntegerEnd(source, i)])
  {
    var text := source[i..IntegerEnd(source, i)];
    forall k | 0 <= k < |text|
      ensures IsDigit(text[k])
    {
      assert text[k] == source[i + k];
    }
  }

  lemma FractionScanned(source: Text, p: nat)
    requires p <= |source|
    ensures FractionText(source[p..FractionEnd(source, p)])
  {
    var text := source[p..FractionEnd(source, p)];
    if text != [] {
      assert text[0] == source[p];
      assert forall k :: 0 <= k < |text| - 1 ==> text[1..][k] == source[p + 1 + k];
    }
  }

  lemma ExponentScanned(source: Text, q: nat)
    requires q <= |source|
    ensures ExponentText(source[q..ExponentEnd(source, q)])
  {
    var text := source[q..ExponentEnd(source, q)];
    if text != [] {
      var n := ExponentDigits(source, q) - q;
      assert forall k :: 0 <= k < |text| - n ==> text[n..][k] == source[q + n + k];
    }
  }

  /** No longer piece of the source from `i` on is a number literal. */
  lemma NumberIsLongest(source: Text, i: nat, end: nat)
    requires i < |source| && IsDigit(source[i]) && i < end <= |source| && NumberText(source[i..end])
    ensures end <= NumberEnd(source, i)
  {
    var text := source[i..end];
    var a: nat, b: nat :| NumberSplit(text, a, b);
    var p, q := i + a, i + b;
    Sliced(source, i, end, p, q);
    hide RunEnd, IntegerEnd, FractionEnd, ExponentEnd, NumberSplit;
    LongestInteger(source, i, p);
    LongestTail(source, p, q, end, IntegerEnd(source, i));
  }

  /** A fraction and exponent from `p` on end no later than those scanned from `from`, where the digits end. */
  lemma LongestTail(source: Text, p: nat, q: nat, end: nat, from: nat)
    requires p <= q <= end <= |source| && p <= from <= |source|
    requires p < |source| && !IsDigit(source[p]) ==> p == from
    requires FractionText(source[p..q]) && ExponentText(source[q..end])
    ensures end <= ExponentEnd(source, FractionEnd(source, from))
  {
    hide RunEnd, ExponentEnd;
    if p < q {
      assert source[p] == source[p..q][0] && source[p..q][1..] == source[p + 1..q];
      LongestRun(source, p + 1, q);
    }
    if q < end {
      LongestExponent(source, q, end);
    }
  }

  lemma LongestRun(source: Text, i: nat, end: nat)
    requires i < end <= |source| && AllDigits(source[i..end])
    ensures end <= RunEnd(source, i, IsDigit) && IsDigit(source[i])
  {
    forall k | i <= k < end
      ensures IsDigit(source[k])
    {
      assert source[k] == source[i..end][k - i];
    }
  }

  /** An integer cannot stop short of a further digit, nor reach past the scanned one. */
  lemma LongestInteger(source: Text, i: nat, p: nat)
    requires i < p <= |source| && IntegerText(source[i..p])
    ensures IsDigit(source[i]) && p <= IntegerEnd(source, i)
    ensures p < |source| && !IsDigit(source[p]) ==> p == IntegerEnd(source, i)
  {
    assert source[i] == source[i..p][0];
    if source[i] != 48 && i + 1 < p {
      assert source[i + 1..p] == source[i..p][1..];
      LongestRun(source, i + 1, p);
    }
  }

  lemma LongestExponent(source: Text, q: nat, end: nat)
    requires q < end <= |source| && ExponentText(source[q..end])
    ensures end <= ExponentEnd(source, q) && !IsDigit(source[q]) && source[q] != POINT
  {
    var text := source[q..end];
    assert source[q] == text[0] && source[q + 1] == text[1];
    if AllDigits(text[1..]) {
      assert text[1..] == source[q + 1..end];
      LongestRun(source, q + 1, end);
    } else {
      assert text[2..] == source[q + 2..end];
      LongestRun(source, q + 2, end);
    }
  }

  // ---------------------------------------------------------------------------------------------
  // Strings: the scan reads exactly the well-formed bodies
  // ---------------------------------------------------------------------------------------------

  /** One code unit of a string, as written: itself, a simple escape, or four hex digits. */
  datatype Piece =
    | Plain(unit: CodeUnit)
    | Simple(escape: CodeUnit)
    | Hex(a: CodeUnit, b: CodeUnit, c: CodeUnit, d: CodeUnit)

  predicate Allowed(piece: Piece, quote: CodeUnit) {
    match piece
    case Plain(unit) => unit != quote && unit != BACKSLASH && unit != LINE_FEED && unit != CARRIAGE_RETURN
    case Simple(escape) => SimpleEscape(escape).Some?
    case Hex(a, b, c, d) => IsHex(a) && IsHex(b) && IsHex(c) && IsHex(d)
  }

  function Written(piece: Piece): (text: Text)
    ensures text != []
  {
    match piece
    case Plain(unit) => [unit]
    case Simple(escape) => [BACKSLASH, escape]
    case Hex(a, b, c, d) => [BACKSLASH, LETTER_U, a, b, c, d]
  }

  function Meant(piece: Piece, quote: CodeUnit): CodeUnit
    requires Allowed(piece, quote)
  {
    match piece
    case Plain(unit) => unit
    case Simple(escape) => SimpleEscape(escape).value
    case Hex(a, b, c, d) => FourHex(a, b, c, d)
  }

  function WrittenAll(pieces: seq<Piece>): Text {
    if pieces == [] then [] else Written(pieces[0]) + WrittenAll(pieces[1..])
  }

  predicate AllowedAll(pieces: seq<Piece>, quote: CodeUnit) {
    forall k :: 0 <= k < |pieces| ==> Allowed(pieces[k], quote)
  }

  function MeantAll(pieces: seq<Piece>, quote: CodeUnit): (text: Text)
    requires AllowedAll(pieces, quote)
    ensures |text| == |pieces|
  {
    if pieces == [] then [] else [Meant(pieces[0], quote)] + MeantAll(pieces[1..], quote)
  }

  /** One piece at the cursor is read as what it means. */
  lemma PieceReads(source: Text, offset: nat, quote: CodeUnit, cursor: nat, piece: Piece)
    requires offset < cursor && (quote == QUOTE || quote == DOUBLE_QUOTE)
    requires Allowed(piece, quote) && Stands(source, cursor, Written(piece))
    ensures StringFrom(source, offset, quote, cursor)
         == Before([Meant(piece, quote)], StringFrom(source, offset, quote, cursor + |Written(piece)|))
  {
    var text := source[cursor..cursor + |Written(piece)|];
    assert forall k :: 0 <= k < |text| ==> source[cursor + k] == text[k];
    assert source[cursor] == text[0];
    match piece
    case Plain(unit) =>
    case Simple(escape) =>
      assert source[cursor + 1] == text[1];
    case Hex(a, b, c, d) =>
      assert source[cursor + 1] == text[1] && source[cursor + 2] == text[2] && source[cursor + 3] == text[3];
      assert source[cursor + 4] == text[4] && source[cursor + 5] == text[5];
  }

  lemma WrittenFirst(source: Text, cursor: nat, pieces: seq<Piece>, quote: CodeUnit)
    requires pieces != []
    ensures Stands(source, cursor, WrittenAll(pieces) + [quote])
       <==> Stands(source, cursor, Written(pieces[0]))
            && Stands(source, cursor + |Written(pieces[0])|, WrittenAll(pieces[1..]) + [quote])
    ensures |WrittenAll(pieces)| == |Written(pieces[0])| + |WrittenAll(pieces[1..])|
  {
    hide Stands, Written;
    JoinTexts(Written(pieces[0]), WrittenAll(pieces[1..]), [quote]);
    StandsSplit(source, cursor, Written(pieces[0]), WrittenAll(pieces[1..]) + [quote]);
  }

  lemma JoinTexts(a: Text, b: Text, c: Text)
    ensures a + b + c == a + (b + c)
  {
  }

  lemma AllowedFirst(pieces: seq<Piece>, quote: CodeUnit)
    requires pieces != []
    ensures AllowedAll(pieces, quote) <==> Allowed(pieces[0], quote) && AllowedAll(pieces[1..], quote)
  {
    hide Allowed;
    assert AllowedAll(pieces[1..], quote) && Allowed(pieces[0], quote) ==> forall k :: 0 < k < |pieces| ==> pieces[k] == pieces[1..][k - 1];
  }

  lemma MeantFirst(pieces: seq<Piece>, quote: CodeUnit, end: nat)
    requires pieces != [] && AllowedAll(pieces, quote)
    ensures AllowedAll(pieces[1..], quote)
    ensures Before([Meant(pieces[0], quote)], Ok((MeantAll(pieces[1..], quote), end))) == Ok((MeantAll(pieces, quote), end))
  {
    hide Allowed, Meant;
  }

  lemma QuoteReads(source: Text, offset: nat, quote: CodeUnit, cursor: nat, pieces: seq<Piece>)
    requires offset < cursor && pieces == [] && AllowedAll(pieces, quote)
    requires Stands(source, cursor, WrittenAll(pieces) + [quote])
    ensures StringFrom(source, offset, quote, cursor) == Ok((MeantAll(pieces, quote), cursor + |WrittenAll(pieces)| + 1))
  {
    assert source[cursor] == source[cursor..cursor + 1][0] == quote;
    assert MeantAll(pieces, quote) == [];
  }

  /** However a string is written, with its escapes chosen freely, it is read as what was meant. */
  lemma {:induction false} StringReads(source: Text, offset: nat, quote: CodeUnit, cursor: nat, pieces: seq<Piece>)
    requires offset < cursor && (quote == QUOTE || quote == DOUBLE_QUOTE) && AllowedAll(pieces, quote)
    requires Stands(source, cursor, WrittenAll(pieces) + [quote])
    ensures StringFrom(source, offset, quote, cursor) == Ok((MeantAll(pieces, quote), cursor + |WrittenAll(pieces)| + 1))
    decreases pieces
  {
    hide *;
    if pieces == [] {
      QuoteReads(source, offset, quote, cursor, pieces);
    } else {
      var w := Written(pieces[0]);
      AllowedFirst(pieces, quote);
      WrittenFirst(source, cursor, pieces, quote);
      PieceReads(source, offset, quote, cursor, pieces[0]);
      StringReads(source, offset, quote, cursor + |w|, pieces[1..]);
      MeantFirst(pieces, quote, cursor + |WrittenAll(pieces)| + 1);
    }
  }

  /** And nothing else is read: a string token covers a quoted list of allowed pieces that mean its text. */
  lemma {:induction false} ReadStringWasWritten(source: Text, offset: nat, quote: CodeUnit, cursor: nat)
      returns (pieces: seq<Piece>)
    requires offset < cursor && (quote == QUOTE || quote == DOUBLE_QUOTE)
    requires StringFrom(source, offset, quote, cursor).Ok?
    ensures AllowedAll(pieces, quote) && Stands(source, cursor, WrittenAll(pieces) + [quote])
    ensures StringFrom(source, offset, quote, cursor).value
         == (MeantAll(pieces, quote), cursor + |WrittenAll(pieces)| + 1)
    decreases |source| - cursor
  {
    hide *;
    CursorInside(source, offset, quote, cursor);
    if source[cursor] == quote {
      pieces := [];
      QuoteStands(source, cursor, quote);
      QuoteReads(source, offset, quote, cursor, pieces);
    } else {
      var first := FirstPiece(source, cursor);
      FirstPieceStands(source, offset, quote, cursor);
      var next := cursor + |Written(first)|;
      PieceReads(source, offset, quote, cursor, first);
      BeforeOk([Meant(first, quote)], StringFrom(source, offset, quote, next));
      var rest := ReadStringWasWritten(source, offset, quote, next);
      pieces := [first] + rest;
      assert pieces[1..] == rest;
      AllowedFirst(pieces, quote);
      WrittenFirst(source, cursor, pieces, quote);
      MeantFirst(pieces, quote, cursor + |WrittenAll(pieces)| + 1);
    }
  }

  lemma CursorInside(source: Text, offset: nat, quote: CodeUnit, cursor: nat)
    requires offset < cursor && StringFrom(source, offset, quote, cursor).Ok?
    ensures cursor < |source|
  {
  }

  lemma QuoteStands(source: Text, cursor: nat, quote: CodeUnit)
    requires cursor < |source| && source[cursor] == quote
    ensures AllowedAll([], quote) && Stands(source, cursor, WrittenAll([]) + [quote])
  {
    assert source[cursor..cursor + 1] == [quote];
  }

  lemma BeforeOk(text: Text, r: Result<(Text, nat), CelError>)
    requires Before(text, r).Ok?
    ensures r.Ok?
  {
  }

  lemma FirstPieceStands(source: Text, offset: nat, quote: CodeUnit, cursor: nat)
    requires offset < cursor < |source| && StringFrom(source, offset, quote, cursor).Ok? && source[cursor] != quote
    ensures var first := FirstPiece(source, cursor); Allowed(first, quote) && Stands(source, cursor, Written(first))
  {
  }

  /** The piece at the cursor, if there is one. */
  function FirstPiece(source: Text, cursor: nat): Piece
    requires cursor < |source|
  {
    if source[cursor] != BACKSLASH || cursor + 1 >= |source| then Plain(source[cursor])
    else if SimpleEscape(source[cursor + 1]).Some? then Simple(source[cursor + 1])
    else if HexAt(source, cursor + 2) then
      Hex(source[cursor + 2], source[cursor + 3], source[cursor + 4], source[cursor + 5])
    else Plain(source[cursor])
  }
}

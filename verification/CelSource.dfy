/** From printed lexemes to source text, and back through the tokenizer. */
module CelSource {
  // However the lexemes are spelled and spaced, the tokenizer reads them, so the round trip of CelRoundTrip holds
  // for source texts.

  import opened Outcomes
  import opened Sequences
  import opened Texts
  import opened CelTokens
  import opened CelParser
  import opened CelPrinter
  import opened CelTokenizer
  import CelRoundTrip
  import CelMinimality

  /** A lexeme the tokenizer can produce. */
  ghost predicate Lexical(lexeme: Lexeme) {
    match lexeme.kind
    case Identifier => lexeme.value != [] && IsLetter(lexeme.value[0]) && forall k :: 0 <= k < |lexeme.value| ==> IsWord(lexeme.value[k])
    case Number => NumberText(lexeme.value)
    case Operator => IsDouble(lexeme.value) || (|lexeme.value| == 1 && IsSingle(lexeme.value[0]))
    case Punctuation => |lexeme.value| == 1 && IsPunctuation(lexeme.value[0])
    case Str => true
    case Eof => false
  }

  /** A string may be written in many ways, any other lexeme in one. */
  ghost predicate Spells(text: Text, lexeme: Lexeme) {
    if lexeme.kind == Str then
      exists quote, pieces :: IsString(text, lexeme.value, quote, pieces)
    else
      Lexical(lexeme) && text == lexeme.value
  }

  ghost predicate IsString(text: Text, value: Text, quote: CodeUnit, pieces: seq<Piece>) {
    && (quote == QUOTE || quote == DOUBLE_QUOTE) && AllowedAll(pieces, quote)
    && text == [quote] + (WrittenAll(pieces) + [quote]) && value == MeantAll(pieces, quote)
  }

  predicate Closed(source: Text, i: nat) {
    i == |source| || (i < |source| && IsSpace(source[i]))
  }

  /** From `i` on the source spells the lexemes, each behind any white space and followed by some or by the end. */
  ghost predicate SpelledFrom(source: Text, i: nat, lexemes: seq<Lexeme>)
    decreases lexemes
  {
    if lexemes == [] then i <= |source| && Blank(source, i, |source|)
    else exists j: nat, n: nat :: SpelledWord(source, i, j, n, lexemes[0]) && SpelledFrom(source, n, lexemes[1..])
  }

  ghost predicate SpelledWord(source: Text, i: nat, j: nat, n: nat, lexeme: Lexeme) {
    i <= j < n <= |source| && Blank(source, i, j) && Spells(source[j..n], lexeme) && Closed(source, n)
  }

  // ---------------------------------------------------------------------------------------------
  // Scanning spelled lexemes
  // ---------------------------------------------------------------------------------------------

  lemma {:induction false} RunStops(source: Text, i: nat, n: nat, belongs: CodeUnit -> bool)
    requires i <= n <= |source| && (forall k :: i <= k < n ==> belongs(source[k]))
    requires n < |source| ==> !belongs(source[n])
    ensures RunEnd(source, i, belongs) == n
    decreases n - i
  {
    if i < n {
      RunStops(source, i + 1, n, belongs);
    }
  }

  lemma NumbersHaveNoSpace(text: Text, k: nat)
    requires NumberText(text) && k < |text|
    ensures !IsSpace(text[k]) && IsDigit(text[0])
  {
    var a: nat, b: nat :| NumberSplit(text, a, b);
    assert text[0] == text[..a][0];
    if k < a {
      assert text[k] == text[..a][k];
    } else if k < b {
      var fraction := text[a..b];
      assert text[k] == fraction[k - a] && (k > a ==> fraction[k - a] == fraction[1..][k - a - 1]);
    } else {
      var exponent := text[b..];
      assert text[k] == exponent[k - b];
      assert k > b ==> exponent[k - b] == exponent[1..][k - b - 1];
      assert k > b + 1 ==> exponent[k - b] == exponent[2..][k - b - 2];
    }
  }

  lemma NumberReads(source: Text, j: nat, n: nat)
    requires j < n <= |source| && NumberText(source[j..n]) && Closed(source, n)
    ensures IsDigit(source[j]) && NumberEnd(source, j) == n
  {
    NumbersHaveNoSpace(source[j..n], 0);
    assert source[j] == source[j..n][0];
    NumberIsLongest(source, j, n);
    ScannedNumberIsNumber(source, j);
    var end := NumberEnd(source, j);
    if n < end {
      assert source[n] == source[j..end][n - j];
      NumbersHaveNoSpace(source[j..end], n - j);
    }
  }

  lemma QuotedBody(source: Text, j: nat, n: nat, quote: CodeUnit, body: Text)
    requires j < n <= |source| && source[j..n] == [quote] + body
    ensures source[j] == quote && Stands(source, j + 1, body) && n == j + 1 + |body|
  {
    assert source[j] == source[j..n][0];
    StandsSplit(source, j, [quote], body);
  }

  lemma StringSpelled(source: Text, j: nat, n: nat, value: Text)
    requires j < n <= |source| && Spells(source[j..n], Lexeme(Str, value))
    ensures (source[j] == QUOTE || source[j] == DOUBLE_QUOTE) && StringFrom(source, j, source[j], j + 1) == Ok((value, n))
  {
    var quote, pieces :| IsString(source[j..n], value, quote, pieces);
    hide MeantAll, WrittenAll, AllowedAll, StringFrom;
    QuotedBody(source, j, n, quote, WrittenAll(pieces) + [quote]);
    StringReads(source, j, quote, j + 1, pieces);
  }

  lemma IdentifierReads(source: Text, j: nat, n: nat)
    requires j < n <= |source| && Lexical(Lexeme(Identifier, source[j..n])) && Closed(source, n)
    ensures IsLetter(source[j]) && RunEnd(source, j + 1, IsWord) == n
  {
    assert source[j] == source[j..n][0];
    forall k | j + 1 <= k < n
      ensures IsWord(source[k])
    {
      assert source[k] == source[j..n][k - j];
    }
    RunStops(source, j + 1, n, IsWord);
  }

  lemma OperatorReads(source: Text, j: nat, n: nat, kind: Kind)
    requires j < n <= |source| && Lexical(Lexeme(kind, source[j..n])) && Closed(source, n)
    requires kind == Operator || kind == Punctuation
    ensures !IsSpace(source[j]) && Next(source, j) == Ok(Cut(source, kind, j, n))
  {
    assert source[j] == source[j..n][0];
    if n == j + 1 {
      if j + 2 <= |source| {
        assert source[j..j + 2][1] == source[n];
      }
    } else {
      assert n == j + 2;
    }
  }

  lemma NextReads(source: Text, j: nat, n: nat, lexeme: Lexeme)
    requires j < n <= |source| && Spells(source[j..n], lexeme) && Closed(source, n)
    ensures !IsSpace(source[j]) && Next(source, j) == Ok(Token(lexeme.kind, lexeme.value, j, n))
  {
    hide StringFrom, NumberEnd, RunEnd, NumberText, IsString;
    match lexeme.kind
    case Str => StringSpelled(source, j, n, lexeme.value);
    case Number => NumberReads(source, j, n);
    case Identifier => IdentifierReads(source, j, n);
    case _ => OperatorReads(source, j, n, lexeme.kind);
  }

  lemma {:induction false} BlankSkipped(source: Text, i: nat, j: nat)
    requires Blank(source, i, j)
    ensures Scan(source, i) == Scan(source, j)
    decreases j - i
  {
    if i < j {
      BlankSkipped(source, i + 1, j);
    }
  }

  /** The tokens are the lexemes, in order, and eof. */
  ghost predicate Reads(tokens: seq<Token>, lexemes: seq<Lexeme>) {
    && |tokens| == |lexemes| + 1 && tokens[|lexemes|].kind == Eof
    && forall k :: 0 <= k < |lexemes| ==> tokens[k].kind == lexemes[k].kind && tokens[k].value == lexemes[k].value
  }

  lemma {:induction false} SpelledIsRead(source: Text, i: nat, lexemes: seq<Lexeme>)
    requires SpelledFrom(source, i, lexemes)
    ensures i <= |source| && Scan(source, i).Ok? && Reads(Scan(source, i).value, lexemes)
    decreases lexemes
  {
    if lexemes == [] {
      BlankSkipped(source, i, |source|);
    } else {
      var j: nat, n: nat :| SpelledWord(source, i, j, n, lexemes[0]) && SpelledFrom(source, n, lexemes[1..]);
      BlankSkipped(source, i, j);
      NextReads(source, j, n, lexemes[0]);
      SpelledIsRead(source, n, lexemes[1..]);
      hide Next, Scan, Spells, SpelledFrom;
      FirstRead(Scan(source, n).value, Token(lexemes[0].kind, lexemes[0].value, j, n), lexemes);
    }
  }

  lemma FirstRead(tokens: seq<Token>, token: Token, lexemes: seq<Lexeme>)
    requires lexemes != [] && Reads(tokens, lexemes[1..])
    requires token.kind == lexemes[0].kind && token.value == lexemes[0].value
    ensures Reads([token] + tokens, lexemes)
  {
    forall k | 0 <= k < |lexemes|
      ensures ([token] + tokens)[k].kind == lexemes[k].kind && ([token] + tokens)[k].value == lexemes[k].value
    {
      assert k > 0 ==> ([token] + tokens)[k] == tokens[k - 1] && lexemes[k] == lexemes[1..][k - 1];
    }
  }

  // ---------------------------------------------------------------------------------------------
  // Every printed expression can be spelled
  // ---------------------------------------------------------------------------------------------

  /** The variable is a word and only number literals are JSON-safe, so all that is printed is lexical. */
  ghost predicate Spellable(g: Grammar) {
    && Usable(g) && (forall k :: 0 <= k < |g.variableName| ==> IsWord(g.variableName[k]))
    && forall number: Text :: g.jsonSafe(number) ==> NumberText(number)
  }

  ghost predicate LexicalAll(lexemes: seq<Lexeme>) {
    forall k :: 0 <= k < |lexemes| ==> Lexical(lexemes[k])
  }

  lemma LexicalConcat(a: seq<Lexeme>, b: seq<Lexeme>)
    requires LexicalAll(a) && LexicalAll(b)
    ensures LexicalAll(a + b)
  {
  }

  lemma LexicalMark(value: Text)
    requires value == LPAREN || value == RPAREN || value == LBRACKET || value == RBRACKET || value == LBRACE
          || value == RBRACE || value == COMMA || value == COLON || value == QUESTION
    ensures Lexical(Mark(value)) && LexicalAll([Mark(value)])
  {
  }

  lemma LexicalOperator(value: Text)
    requires 1 <= LevelOf(value) || IsUnary(value)
    ensures Lexical(Lexeme(Operator, value)) && LexicalAll([Lexeme(Operator, value)])
  {
  }

  lemma LexicalAround(open: Text, inner: seq<Lexeme>, close: Text)
    requires LexicalAll(inner) && Lexical(Mark(open)) && Lexical(Mark(close))
    ensures LexicalAll([Mark(open)] + inner + [Mark(close)])
  {
    hide Lexical;
  }

  lemma {:induction false} PrintIsLexical(g: Grammar, e: Expr, level: nat)
    requires Spellable(g) && Printable(g, e)
    ensures LexicalAll(Print(g, e, level))
    decreases e, 1
  {
    hide Raw, Printable, Spellable, Lexical, LexicalAll;
    RawIsLexical(g, e);
    LexicalMark(LPAREN);
    LexicalMark(RPAREN);
    LexicalAround(LPAREN, Raw(g, e), RPAREN);
  }

  lemma {:induction false} RawIsLexical(g: Grammar, e: Expr)
    requires Spellable(g) && Printable(g, e)
    ensures LexicalAll(Raw(g, e))
    decreases e, 0
  {
    match e
    case ArrayLiteral(elements) =>
      ElementsAreLexical(g, elements);
      LexicalMark(LBRACKET);
      LexicalMark(RBRACKET);
      LexicalAround(LBRACKET, PrintElements(g, elements), RBRACKET);
    case ObjectLiteral(entries) =>
      EntriesAreLexical(g, entries);
      LexicalMark(LBRACE);
      LexicalMark(RBRACE);
      LexicalAround(LBRACE, PrintEntries(g, entries), RBRACE);
    case Unary(operator, operand) =>
      LexicalOperator(operator);
      PrintIsLexical(g, operand, 7);
      LexicalConcat([Lexeme(Operator, operator)], Print(g, operand, 7));
    case Binary(operator, left, right) =>
      LexicalOperator(operator);
      PrintIsLexical(g, left, LevelOf(operator));
      PrintIsLexical(g, right, LevelOf(operator) + 1);
      LexicalThree(Print(g, left, LevelOf(operator)), Lexeme(Operator, operator), Print(g, right, LevelOf(operator) + 1));
    case Conditional(condition, whenTrue, whenFalse) =>
      PrintIsLexical(g, condition, 1);
      PrintIsLexical(g, whenTrue, 0);
      PrintIsLexical(g, whenFalse, 0);
      LexicalMark(QUESTION);
      LexicalMark(COLON);
      LexicalThree(Print(g, condition, 1), Mark(QUESTION), Print(g, whenTrue, 0));
      LexicalThree(Print(g, condition, 1) + [Mark(QUESTION)] + Print(g, whenTrue, 0), Mark(COLON), Print(g, whenFalse, 0));
    case _ =>
  }

  lemma LexicalThree(a: seq<Lexeme>, mid: Lexeme, b: seq<Lexeme>)
    requires LexicalAll(a) && Lexical(mid) && LexicalAll(b)
    ensures LexicalAll(a + [mid] + b)
  {
    hide Lexical;
  }

  lemma {:induction false} ElementsAreLexical(g: Grammar, elements: seq<Expr>)
    requires Spellable(g) && forall k :: 0 <= k < |elements| ==> Printable(g, elements[k])
    ensures LexicalAll(PrintElements(g, elements))
    decreases elements
  {
    if elements != [] {
      PrintIsLexical(g, elements[0], 0);
      ElementsAreLexical(g, elements[1..]);
      LexicalMark(COMMA);
      LexicalThree(Print(g, elements[0], 0), Mark(COMMA), PrintElements(g, elements[1..]));
    }
  }

  lemma {:induction false} EntriesAreLexical(g: Grammar, entries: seq<Entry>)
    requires Spellable(g) && forall k :: 0 <= k < |entries| ==> Printable(g, entries[k].value)
    ensures LexicalAll(PrintEntries(g, entries))
    decreases entries
  {
    if entries != [] {
      PrintIsLexical(g, entries[0].value, 0);
      LexicalMark(COLON);
      LexicalConcat([Lexeme(Str, entries[0].key), Mark(COLON)], Print(g, entries[0].value, 0));
      EntriesAreLexical(g, entries[1..]);
      LexicalMark(COMMA);
      LexicalThree(PrintEntry(g, entries[0]), Mark(COMMA), PrintEntries(g, entries[1..]));
    }
  }

  /** One way to write a text: escape the quotation mark, the backslash and the two line ends. */
  function PiecesOf(text: Text): (pieces: seq<Piece>)
    ensures AllowedAll(pieces, DOUBLE_QUOTE) && MeantAll(pieces, DOUBLE_QUOTE) == text
  {
    if text == [] then []
    else
      var c := text[0];
      var piece :=
        if c == DOUBLE_QUOTE || c == BACKSLASH then Simple(c)
        else if c == LINE_FEED then Simple(110)
        else if c == CARRIAGE_RETURN then Simple(114)
        else Plain(c);
      [piece] + PiecesOf(text[1..])
  }

  function Spell(lexeme: Lexeme): Text {
    if lexeme.kind == Str then [DOUBLE_QUOTE] + (WrittenAll(PiecesOf(lexeme.value)) + [DOUBLE_QUOTE]) else lexeme.value
  }

  /** The lexemes as a source text, one space behind each. */
  function Render(lexemes: seq<Lexeme>): Text {
    if lexemes == [] then [] else Spell(lexemes[0]) + [SPACE] + Render(lexemes[1..])
  }

  lemma SpellSpells(lexeme: Lexeme)
    requires Lexical(lexeme)
    ensures Spells(Spell(lexeme), lexeme) && Spell(lexeme) != []
  {
    if lexeme.kind == Str {
      assert IsString(Spell(lexeme), lexeme.value, DOUBLE_QUOTE, PiecesOf(lexeme.value));
    } else if lexeme.kind == Number {
      var a: nat, b: nat :| NumberSplit(lexeme.value, a, b);
    }
  }

  lemma {:induction false} RenderIsSpelled(source: Text, i: nat, lexemes: seq<Lexeme>)
    requires LexicalAll(lexemes) && i <= |source| && source[i..] == Render(lexemes)
    ensures SpelledFrom(source, i, lexemes)
    decreases lexemes
  {
    hide *;
    if lexemes == [] {
      NothingSpelled(source, i, lexemes);
    } else {
      LexicalParts(lexemes);
      RenderPeeled(source, i, lexemes);
      RenderIsSpelled(source, i + |Spell(lexemes[0])| + 1, lexemes[1..]);
      RenderFirst(source, i, i + |Spell(lexemes[0])|, lexemes);
    }
  }

  lemma NothingSpelled(source: Text, i: nat, lexemes: seq<Lexeme>)
    requires lexemes == [] && i <= |source| && source[i..] == Render(lexemes)
    ensures SpelledFrom(source, i, lexemes)
  {
    assert i == |source|;
  }

  lemma LexicalParts(lexemes: seq<Lexeme>)
    requires lexemes != [] && LexicalAll(lexemes)
    ensures Lexical(lexemes[0]) && LexicalAll(lexemes[1..])
  {
    hide Lexical;
  }

  lemma RenderPeeled(source: Text, i: nat, lexemes: seq<Lexeme>)
    requires lexemes != [] && i <= |source| && source[i..] == Render(lexemes)
    ensures var n := i + |Spell(lexemes[0])|;
            n < |source| && source[i..n] == Spell(lexemes[0]) && IsSpace(source[n]) && source[n + 1..] == Render(lexemes[1..])
  {
    hide Spell, IsSpace;
    Peel(source, i, Spell(lexemes[0]), Render(lexemes[1..]));
  }

  lemma RenderFirst(source: Text, i: nat, n: nat, lexemes: seq<Lexeme>)
    requires lexemes != [] && Lexical(lexemes[0]) && i <= n < |source| && source[i..n] == Spell(lexemes[0])
    requires IsSpace(source[n]) && SpelledFrom(source, n + 1, lexemes[1..])
    ensures SpelledFrom(source, i, lexemes)
  {
    hide Render, Spell, Spells, SpelledFrom, Lexical;
    SpellSpells(lexemes[0]);
    SpaceBefore(source, n, lexemes[1..]);
    SpelledFirst(source, i, n, lexemes);
  }

  lemma Peel(source: Text, i: nat, word: Text, rest: Text)
    requires i <= |source| && source[i..] == word + [SPACE] + rest
    ensures var n := i + |word|;
            n < |source| && source[i..n] == word && IsSpace(source[n]) && source[n + 1..] == rest
  {
    var n := i + |word|;
    assert |source[i..]| == |word| + 1 + |rest|;
    assert source[i..n] == source[i..][..|word|] == word;
    assert source[n] == source[i..][|word|];
    assert source[n + 1..] == source[i..][|word| + 1..] == rest;
  }

  lemma SpelledFirst(source: Text, i: nat, n: nat, lexemes: seq<Lexeme>)
    requires lexemes != [] && i < n <= |source| && Spells(source[i..n], lexemes[0]) && Closed(source, n)
    requires SpelledFrom(source, n, lexemes[1..])
    ensures SpelledFrom(source, i, lexemes)
  {
    assert SpelledWord(source, i, i, n, lexemes[0]);
  }

  lemma SpaceBefore(source: Text, n: nat, lexemes: seq<Lexeme>)
    requires n < |source| && IsSpace(source[n]) && SpelledFrom(source, n + 1, lexemes)
    ensures SpelledFrom(source, n, lexemes)
  {
    if lexemes != [] {
      var j: nat, end: nat :| SpelledWord(source, n + 1, j, end, lexemes[0]) && SpelledFrom(source, end, lexemes[1..]);
      assert SpelledWord(source, n, j, end, lexemes[0]);
    }
  }

  // ---------------------------------------------------------------------------------------------
  // The theorems
  // ---------------------------------------------------------------------------------------------

  /** Any source text that spells the printed expression compiles back to it exactly when the expression is clean. */
  lemma SourceRoundTrip(g: Grammar, e: Expr, source: Text)
    requires Usable(g) && Printable(g, e) && SpelledFrom(source, 0, Print(g, e, 0))
    ensures Compile(g, source) == Ok(e) <==> Clean(g, e)
  {
    SpelledIsRead(source, 0, Print(g, e, 0));
    ScanLaysOut(source, 0);
    var tokens := Scan(source, 0).value;
    LaidOutEnds(source, 0, tokens);
    hide Print, Scan, ParseAll, Clean, Printable, SpelledFrom, LaidOut;
    CelRoundTrip.RoundTripExactlyWhenClean(g, e, tokens);
  }

  /** In particular the rendered text of a clean expression does. */
  lemma RenderedRoundTrip(g: Grammar, e: Expr)
    requires Spellable(g) && Printable(g, e)
    ensures Compile(g, Render(Print(g, e, 0))) == Ok(e) <==> Clean(g, e)
  {
    var source := Render(Print(g, e, 0));
    PrintIsLexical(g, e, 0);
    assert source[0..] == source;
    RenderIsSpelled(source, 0, Print(g, e, 0));
    SourceRoundTrip(g, e, source);
  }

  lemma {:induction false} ScannedIsNumbered(source: Text, i: nat)
    requires i <= |source| && Scan(source, i).Ok?
    ensures CelMinimality.Numbered(Scan(source, i).value)
    decreases |source| - i
  {
    if i < |source| {
      if IsSpace(source[i]) {
        ScannedIsNumbered(source, i + 1);
      } else {
        ScannedIsNumbered(source, Next(source, i).value.end);
      }
    }
  }

  /** Whatever compiles can be printed, and no source text of it has fewer tokens than its print. */
  lemma CompiledIsPrintable(g: Grammar, source: Text)
    requires Compile(g, source).Ok?
    ensures var e := Compile(g, source).value; Printable(g, e) && |Print(g, e, 0)| + 1 <= |Scan(source, 0).value|
  {
    var tokens := Scan(source, 0).value;
    ScanLaysOut(source, 0);
    LaidOutEnds(source, 0, tokens);
    ScannedIsNumbered(source, 0);
    hide Print, Printable, Scan, LaidOut;
    CelMinimality.ParsedIsPrintable(g, tokens);
    CelMinimality.NoShorterTokens(g, tokens);
  }

  /** Compiling, printing and compiling again: the expression comes back exactly when it is clean. */
  lemma RecompiledExactlyWhenClean(g: Grammar, source: Text)
    requires Spellable(g) && Compile(g, source).Ok?
    ensures var e := Compile(g, source).value; Compile(g, Render(Print(g, e, 0))) == Ok(e) <==> Clean(g, e)
  {
    CompiledIsPrintable(g, source);
    RenderedRoundTrip(g, Compile(g, source).value);
  }

  /** The array whose only element is the string "]" is not clean: its text does not compile back. */
  lemma ABracketStringIsLost(g: Grammar)
    requires Spellable(g)
    ensures var e := ArrayLiteral([StringLiteral(RBRACKET)]);
            Printable(g, e) && !Clean(g, e) && Compile(g, Render(Print(g, e, 0))) != Ok(e)
  {
    var e := ArrayLiteral([StringLiteral(RBRACKET)]);
    assert e.elements[0] == StringLiteral(RBRACKET);
    assert Print(g, e.elements[0], 0)[0] == Lexeme(Str, RBRACKET);
    RenderedRoundTrip(g, e);
  }
}

/**
 * A printer for the expression language, with the fewest parentheses the grammar's levels allow, and
 * the round trip through the parser of CelParser.
 */
module CelPrinter {
  import opened Outcomes
  import opened Texts
  import opened CelTokens
  import opened CelParser

  /** What a token says, without where it stood. */
  datatype Lexeme = Lexeme(kind: Kind, value: Text)

  function Mark(value: Text): Lexeme {
    Lexeme(Punctuation, value)
  }

  /** The level at which an expression can stand without parentheses. */
  function Prec(e: Expr): (level: nat)
    ensures level <= 8
  {
    match e
    case Conditional(_, _, _) => 0
    case Binary(operator, _, _) => LevelOf(operator)
    case Unary(_, _) => 7
    case _ => 8
  }

  function Print(g: Grammar, e: Expr, level: nat): (lexemes: seq<Lexeme>)
    ensures lexemes != []
    decreases e, 1
  {
    if Prec(e) < level then [Mark(LPAREN)] + Raw(g, e) + [Mark(RPAREN)] else Raw(g, e)
  }

  function Raw(g: Grammar, e: Expr): (lexemes: seq<Lexeme>)
    ensures lexemes != []
    decreases e, 0
  {
    match e
    case NullLiteral => [Lexeme(Identifier, NULL)]
    case BoolLiteral(flag) => [Lexeme(Identifier, if flag then TRUE else FALSE)]
    case NumberLiteral(number) => [Lexeme(Number, number)]
    case StringLiteral(text) => [Lexeme(Str, text)]
    case Input => [Lexeme(Identifier, g.variableName)]
    case ArrayLiteral(elements) => [Mark(LBRACKET)] + PrintElements(g, elements) + [Mark(RBRACKET)]
    case ObjectLiteral(entries) => [Mark(LBRACE)] + PrintEntries(g, entries) + [Mark(RBRACE)]
    case Unary(operator, operand) => [Lexeme(Operator, operator)] + Print(g, operand, 7)
    case Binary(operator, left, right) =>
      Print(g, left, LevelOf(operator)) + [Lexeme(Operator, operator)] + Print(g, right, LevelOf(operator) + 1)
    case Conditional(condition, whenTrue, whenFalse) =>
      Print(g, condition, 1) + [Mark(QUESTION)] + Print(g, whenTrue, 0) + [Mark(COLON)] + Print(g, whenFalse, 0)
  }

  function PrintElements(g: Grammar, elements: seq<Expr>): (lexemes: seq<Lexeme>)
    ensures elements != [] ==> lexemes != []
    decreases elements
  {
    if elements == [] then []
    else if |elements| == 1 then Print(g, elements[0], 0)
    else Print(g, elements[0], 0) + [Mark(COMMA)] + PrintElements(g, elements[1..])
  }

  function PrintEntry(g: Grammar, entry: Entry): (lexemes: seq<Lexeme>)
    decreases entry
  {
    [Lexeme(Str, entry.key), Mark(COLON)] + Print(g, entry.value, 0)
  }

  function PrintEntries(g: Grammar, entries: seq<Entry>): (lexemes: seq<Lexeme>)
    ensures entries != [] ==> lexemes != []
    decreases entries
  {
    if entries == [] then []
    else if |entries| == 1 then PrintEntry(g, entries[0])
    else PrintEntry(g, entries[0]) + [Mark(COMMA)] + PrintEntries(g, entries[1..])
  }

  /** An expression the parser could have built: known operators, safe numbers, distinct keys. */
  ghost predicate Printable(g: Grammar, e: Expr)
    decreases e
  {
    match e
    case NumberLiteral(number) => number != [] && 48 <= number[0] <= 57 && g.jsonSafe(number)
    case ArrayLiteral(elements) => forall k :: 0 <= k < |elements| ==> Printable(g, elements[k])
    case ObjectLiteral(entries) =>
      && (forall k :: 0 <= k < |entries| ==> Printable(g, entries[k].value))
      && (forall k, n :: 0 <= k < n < |entries| ==> entries[k].key != entries[n].key)
    case Unary(operator, operand) => IsUnary(operator) && Printable(g, operand)
    case Binary(operator, left, right) => 1 <= LevelOf(operator) && Printable(g, left) && Printable(g, right)
    case Conditional(condition, whenTrue, whenFalse) =>
      Printable(g, condition) && Printable(g, whenTrue) && Printable(g, whenFalse)
    case _ => true
  }

  /**
   * No array whose first lexeme is the string "]", and no object whose first key is "}": the parser
   * compares the text of a token, not its kind, when it looks for the end of an empty list.
   */
  ghost predicate Clean(g: Grammar, e: Expr)
    decreases e
  {
    match e
    case ArrayLiteral(elements) =>
      && (elements != [] ==> Print(g, elements[0], 0)[0] != Lexeme(Str, RBRACKET))
      && forall k :: 0 <= k < |elements| ==> Clean(g, elements[k])
    case ObjectLiteral(entries) =>
      && (entries != [] ==> entries[0].key != RBRACE)
      && forall k :: 0 <= k < |entries| ==> Clean(g, entries[k].value)
    case Unary(_, operand) => Clean(g, operand)
    case Binary(_, left, right) => Clean(g, left) && Clean(g, right)
    case Conditional(condition, whenTrue, whenFalse) => Clean(g, condition) && Clean(g, whenTrue) && Clean(g, whenFalse)
    case _ => true
  }

  /** A variable name starts with a letter and is no keyword, as both option names of the source do. */
  predicate Usable(g: Grammar) {
    && g.variableName != [] && (65 <= g.variableName[0] <= 90 || 97 <= g.variableName[0] <= 122)
    && g.variableName != TRUE && g.variableName != FALSE && g.variableName != NULL
  }

  /** The lexemes stand in the token list from `i` on, and something follows. */
  ghost predicate At(ts: seq<Token>, i: int, lexemes: seq<Lexeme>) {
    && 0 <= i && i + |lexemes| < |ts|
    && forall k :: 0 <= k < |lexemes| ==> ts[i + k].kind == lexemes[k].kind && ts[i + k].value == lexemes[k].value
  }

  /** A token that cannot continue an expression printed at a level. */
  predicate Stops(t: Token, level: nat) {
    && t.value != LPAREN
    && (t.kind == Operator ==> LevelOf(t.value) < level || LevelOf(t.value) == 0)
    && (level == 0 ==> t.value != QUESTION)
  }

  lemma AtConcat(ts: seq<Token>, i: int, a: seq<Lexeme>, b: seq<Lexeme>)
    requires At(ts, i, a + b)
    ensures At(ts, i, a) && At(ts, i + |a|, b)
  {
    assert forall k :: 0 <= k < |a| ==> a[k] == (a + b)[k];
    assert forall k :: 0 <= k < |b| ==> b[k] == (a + b)[|a| + k];
  }

  ghost predicate Is(ts: seq<Token>, i: int, lexeme: Lexeme) {
    0 <= i < |ts| && ts[i].kind == lexeme.kind && ts[i].value == lexeme.value
  }

  lemma FirstAt(ts: seq<Token>, i: int, lexemes: seq<Lexeme>)
    requires At(ts, i, lexemes) && lexemes != []
    ensures Is(ts, i, lexemes[0])
  {
    assert ts[i + 0].kind == lexemes[0].kind && ts[i + 0].value == lexemes[0].value;
  }

  /** Lexemes with one in the middle singled out. */
  lemma Around(ts: seq<Token>, i: int, a: seq<Lexeme>, mid: Lexeme, b: seq<Lexeme>)
    requires At(ts, i, a + [mid] + b)
    ensures At(ts, i, a) && Is(ts, i + |a|, mid) && At(ts, i + |a| + 1, b)
  {
    assert a + [mid] + b == a + ([mid] + b);
    AtConcat(ts, i, a, [mid] + b);
    AtConcat(ts, i + |a|, [mid], b);
    FirstAt(ts, i + |a|, [mid]);
  }

  lemma Bracketed(ts: seq<Token>, i: int, open: Lexeme, a: seq<Lexeme>, close: Lexeme)
    requires At(ts, i, [open] + a + [close])
    ensures Is(ts, i, open) && At(ts, i + 1, a) && Is(ts, i + 1 + |a|, close)
  {
    AtConcat(ts, i, [open] + a, [close]);
    AtConcat(ts, i, [open], a);
    FirstAt(ts, i, [open]);
    FirstAt(ts, i + 1 + |a|, [close]);
  }

  lemma TextsDiffer()
    ensures LPAREN != QUESTION && LPAREN != COLON && LPAREN != COMMA && LPAREN != RPAREN && LPAREN != RBRACKET && LPAREN != RBRACE
    ensures LPAREN != LBRACKET && LPAREN != LBRACE && LBRACKET != LBRACE
    ensures QUESTION != COLON && QUESTION != COMMA && QUESTION != RPAREN && QUESTION != RBRACKET && QUESTION != RBRACE
    ensures COMMA != RBRACKET && COMMA != RBRACE && COMMA != COLON
    ensures TRUE != FALSE && TRUE != NULL && FALSE != NULL
    ensures LevelOf(LPAREN) == 0 && LevelOf(QUESTION) == 0 && !IsUnary(LPAREN)
  {
    assert LPAREN[0] == 40 && QUESTION[0] == 63 && COLON[0] == 58 && COMMA[0] == 44 && RPAREN[0] == 41;
    assert RBRACKET[0] == 93 && RBRACE[0] == 125 && LBRACKET[0] == 91 && LBRACE[0] == 123;
    assert |TRUE| == 4 && |FALSE| == 5 && |NULL| == 4 && TRUE[0] == 116 && NULL[0] == 110;
    assert NOT[0] == 33 && MINUS[0] == 45 && PLUS[0] == 43;
    assert OR[0] == 124 && AND[0] == 38 && EQUAL[0] == 61 && NOT_EQUAL[0] == 33 && LESS[0] == 60;
    assert LESS_EQUAL[0] == 60 && GREATER[0] == 62 && GREATER_EQUAL[0] == 62;
    assert TIMES[0] == 42 && SLASH[0] == 47 && PERCENT[0] == 37;
  }

  /** Parsing at a level from `i` on yields `e` and stops at `j`. */
  ghost predicate Parses(g: Grammar, ts: seq<Token>, i: int, level: nat, e: Expr, j: int) {
    Ended(ts) && 0 <= i < j < |ts| && level <= 8 && Parse(g, ts, i, level) == Ok((e, j))
  }

  /** Parsing at a binary level arrives in the fold at `j`, with `e` to the left. */
  ghost predicate Arrives(g: Grammar, ts: seq<Token>, i: int, level: nat, e: Expr, j: int) {
    Ended(ts) && 0 <= i <= j < |ts| && 1 <= level <= 6 && Parse(g, ts, i, level) == Fold(g, ts, j, level, e)
  }

  /** A result at a tight level is also the result at every looser one the next token does not continue. */
  lemma {:induction false} Descend(g: Grammar, ts: seq<Token>, i: int, e: Expr, j: int, from: nat, to: nat)
    requires Parses(g, ts, i, from, e, j) && to <= from && Stops(ts[j], to)
    requires from == 8 ==> ts[i].kind != Operator
    ensures Parses(g, ts, i, to, e, j)
    decreases from
  {
    hide LevelOf, IsUnary;
    if to < from {
      var level := from - 1;
      if 1 <= level <= 6 {
        assert Fold(g, ts, j, level, e) == Ok((e, j));
      } else if level == 0 {
        assert ParseConditional(g, ts, i, Ok((e, j))) == Ok((e, j));
      }
      Descend(g, ts, i, e, j, level, to);
    }
  }

  // ---------------------------------------------------------------------------------------------
  // Printing and parsing is the identity on clean expressions
  // ---------------------------------------------------------------------------------------------

  ghost predicate Good(g: Grammar, e: Expr) {
    Usable(g) && Printable(g, e) && Clean(g, e)
  }

  lemma {:induction false} PrintParses(g: Grammar, e: Expr, level: nat, ts: seq<Token>, i: int)
    requires Ended(ts) && Good(g, e) && level <= 8
    requires At(ts, i, Print(g, e, level)) && Stops(ts[i + |Print(g, e, level)|], level)
    ensures Parses(g, ts, i, level, e, i + |Print(g, e, level)|)
    decreases e, 3
  {
    hide Raw, Parse, Good;
    var raw := Raw(g, e);
    var j := i + |Print(g, e, level)|;
    assert 0 <= i <= j < |ts|;
    hide At;
    if Prec(e) < level {
      Bracketed(ts, i, Mark(LPAREN), raw, Mark(RPAREN));
      TextsDiffer();
      RawParses(g, e, ts, i + 1);
      RawHead(g, e, ts, i + 1);
      Descend(g, ts, i + 1, e, j - 1, Prec(e), 0);
      ParenParses(g, ts, i, e, j);
      Descend(g, ts, i, e, j, 8, level);
    } else {
      StopsTighter(ts[j], level, Prec(e));
      RawParses(g, e, ts, i);
      RawHead(g, e, ts, i);
      Descend(g, ts, i, e, j, Prec(e), level);
    }
  }

  /** The same before a mark that ends the expression. */
  lemma {:induction false} ParsesBefore(g: Grammar, e: Expr, level: nat, ts: seq<Token>, i: int, stop: Text)
    requires Ended(ts) && Good(g, e) && level <= 1 && At(ts, i, Print(g, e, level))
    requires stop == COLON || stop == COMMA || stop == RBRACKET || stop == RBRACE || (stop == QUESTION && level == 1)
    requires Is(ts, i + |Print(g, e, level)|, Mark(stop))
    ensures Parses(g, ts, i, level, e, i + |Print(g, e, level)|)
    decreases e, 4
  {
    hide Print, Good, Parse, At, LevelOf;
    TextsDiffer();
    PrintParses(g, e, level, ts, i);
  }

  lemma ParenParses(g: Grammar, ts: seq<Token>, i: int, e: Expr, j: int)
    requires Is(ts, i, Mark(LPAREN)) && Parses(g, ts, i + 1, 0, e, j - 1) && Is(ts, j - 1, Mark(RPAREN)) && j < |ts|
    ensures Parses(g, ts, i, 8, e, j)
  {
    TextsDiffer();
  }

  lemma StopsTighter(t: Token, loose: nat, tight: nat)
    requires Stops(t, loose) && loose <= tight
    ensures Stops(t, tight)
  {
    hide LevelOf;
  }

  lemma RawHead(g: Grammar, e: Expr, ts: seq<Token>, i: int)
    requires At(ts, i, Raw(g, e))
    ensures Prec(e) == 8 ==> ts[i].kind != Operator
  {
    FirstAt(ts, i, Raw(g, e));
    if Prec(e) == 8 {
      PrimaryHead(g, e);
    }
  }

  lemma PrimaryHead(g: Grammar, e: Expr)
    requires Prec(e) == 8
    ensures Raw(g, e)[0].kind != Operator
  {
  }

  /** The unparenthesized form parses at the expression's own level. */
  lemma {:induction false} RawParses(g: Grammar, e: Expr, ts: seq<Token>, i: int)
    requires Ended(ts) && Good(g, e)
    requires At(ts, i, Raw(g, e)) && Stops(ts[i + |Raw(g, e)|], Prec(e))
    ensures Parses(g, ts, i, Prec(e), e, i + |Raw(g, e)|)
    decreases e, 2
  {
    match e
    case ArrayLiteral(elements) => ArrayParses(g, e, ts, i);
    case ObjectLiteral(entries) => ObjectParses(g, e, ts, i);
    case Unary(operator, operand) => UnaryParses(g, e, ts, i);
    case Binary(operator, left, right) =>
      StopsTighter(ts[i + |Raw(g, e)|], Prec(e), Prec(e) + 1);
      SpineRaw(g, e, ts, i);
    case Conditional(condition, whenTrue, whenFalse) => ConditionalParses(g, e, ts, i);
    case _ =>
      FirstAt(ts, i, Raw(g, e));
      TextsDiffer();
  }

  lemma {:induction false} UnaryParses(g: Grammar, e: Expr, ts: seq<Token>, i: int)
    requires Ended(ts) && Good(g, e) && e.Unary?
    requires At(ts, i, Raw(g, e)) && Stops(ts[i + |Raw(g, e)|], 7)
    ensures Parses(g, ts, i, 7, e, i + |Raw(g, e)|)
    decreases e, 1
  {
    FirstAt(ts, i, Raw(g, e));
    AtConcat(ts, i, [Lexeme(Operator, e.operator)], Print(g, e.operand, 7));
    PrintParses(g, e.operand, 7, ts, i + 1);
  }

  lemma ConditionalPrinted(g: Grammar, e: Expr)
    requires e.Conditional?
    ensures Raw(g, e) == Print(g, e.condition, 1) + [Mark(QUESTION)] + Print(g, e.whenTrue, 0) + [Mark(COLON)] + Print(g, e.whenFalse, 0)
  {
    hide Print;
  }

  lemma ConditionalSplit(g: Grammar, e: Expr, ts: seq<Token>, i: int)
    requires e.Conditional? && At(ts, i, Raw(g, e))
    ensures var c, t, f := Print(g, e.condition, 1), Print(g, e.whenTrue, 0), Print(g, e.whenFalse, 0);
            && At(ts, i, c) && Is(ts, i + |c|, Mark(QUESTION))
            && At(ts, i + |c| + 1, t) && Is(ts, i + |c| + 1 + |t|, Mark(COLON))
            && At(ts, i + |c| + |t| + 2, f) && |Raw(g, e)| == |c| + |t| + |f| + 2
  {
    hide *;
    ConditionalPrinted(g, e);
    var c, t, f := Print(g, e.condition, 1), Print(g, e.whenTrue, 0), Print(g, e.whenFalse, 0);
    Around(ts, i, c + [Mark(QUESTION)] + t, Mark(COLON), f);
    Around(ts, i, c, Mark(QUESTION), t);
  }

  lemma {:induction false} ConditionalParses(g: Grammar, e: Expr, ts: seq<Token>, i: int)
    requires Ended(ts) && Good(g, e) && e.Conditional?
    requires At(ts, i, Raw(g, e)) && Stops(ts[i + |Raw(g, e)|], 0)
    ensures Parses(g, ts, i, 0, e, i + |Raw(g, e)|)
    decreases e, 1
  {
    hide *;
    ConditionalSplit(g, e, ts, i);
    GoodParts(g, e);
    var q := i + |Print(g, e.condition, 1)|;
    var c := q + 1 + |Print(g, e.whenTrue, 0)|;
    ParsesBefore(g, e.condition, 1, ts, i, QUESTION);
    ParsesBefore(g, e.whenTrue, 0, ts, q + 1, COLON);
    PrintParses(g, e.whenFalse, 0, ts, c + 1);
    ConditionalSteps(g, ts, i, e, q, c, i + |Raw(g, e)|);
  }

  lemma GoodParts(g: Grammar, e: Expr)
    requires e.Conditional? && Good(g, e)
    ensures Good(g, e.condition) && Good(g, e.whenTrue) && Good(g, e.whenFalse)
  {
  }

  lemma ConditionalSteps(g: Grammar, ts: seq<Token>, i: int, e: Expr, q: int, c: int, j: int)
    requires e.Conditional? && Is(ts, q, Mark(QUESTION)) && Is(ts, c, Mark(COLON))
    requires Parses(g, ts, i, 1, e.condition, q) && Parses(g, ts, q + 1, 0, e.whenTrue, c)
    requires Parses(g, ts, c + 1, 0, e.whenFalse, j)
    ensures Parses(g, ts, i, 0, e, j)
  {
    assert ParseConditional(g, ts, i, Ok((e.condition, q))) == Ok((e, j));
  }

  /** What an operator token does to the operand before it: nothing at a tighter level. */
  lemma OperatorStops(t: Token)
    requires t.kind == Operator && 1 <= LevelOf(t.value)
    ensures Stops(t, LevelOf(t.value) + 1)
  {
    TextsDiffer();
  }

  lemma BinarySplit(g: Grammar, e: Expr, ts: seq<Token>, i: int)
    requires e.Binary? && At(ts, i, Raw(g, e))
    ensures var l, r := Print(g, e.left, Prec(e)), Print(g, e.right, Prec(e) + 1);
            At(ts, i, l) && Is(ts, i + |l|, Lexeme(Operator, e.operator)) && At(ts, i + |l| + 1, r)
            && |Raw(g, e)| == |l| + |r| + 1
  {
    Around(ts, i, Print(g, e.left, Prec(e)), Lexeme(Operator, e.operator), Print(g, e.right, Prec(e) + 1));
  }

  /** A binary expression printed at its own level: its parse is the fold with all of it to the left. */
  lemma {:induction false} SpineRaw(g: Grammar, e: Expr, ts: seq<Token>, i: int)
    requires Ended(ts) && Good(g, e) && e.Binary?
    requires At(ts, i, Raw(g, e)) && Stops(ts[i + |Raw(g, e)|], Prec(e) + 1)
    ensures Arrives(g, ts, i, Prec(e), e, i + |Raw(g, e)|)
    decreases e, 1
  {
    BinarySplit(g, e, ts, i);
    hide Raw, LevelOf, Print, Parse, Fold, Printable, Clean, At, Stops;
    LeftArrives(g, e, ts, i);
    RightParses(g, e, ts, i + |Print(g, e.left, Prec(e))| + 1);
    FoldStep(g, ts, i, i + |Print(g, e.left, Prec(e))|, e, i + |Raw(g, e)|);
  }

  lemma {:induction false} LeftArrives(g: Grammar, e: Expr, ts: seq<Token>, i: int)
    requires Ended(ts) && Good(g, e) && e.Binary? && At(ts, i, Print(g, e.left, Prec(e)))
    requires Is(ts, i + |Print(g, e.left, Prec(e))|, Lexeme(Operator, e.operator))
    ensures 1 <= Prec(e) <= 6 && Arrives(g, ts, i, Prec(e), e.left, i + |Print(g, e.left, Prec(e))|)
    decreases e, 0
  {
    OperatorStops(ts[i + |Print(g, e.left, Prec(e))|]);
    Spine(g, e.left, Prec(e), ts, i);
  }

  lemma {:induction false} RightParses(g: Grammar, e: Expr, ts: seq<Token>, i: int)
    requires Ended(ts) && Good(g, e) && e.Binary? && At(ts, i, Print(g, e.right, Prec(e) + 1))
    requires Stops(ts[i + |Print(g, e.right, Prec(e) + 1)|], Prec(e) + 1)
    ensures Parses(g, ts, i, Prec(e) + 1, e.right, i + |Print(g, e.right, Prec(e) + 1)|)
    decreases e, 0
  {
    PrintParses(g, e.right, Prec(e) + 1, ts, i);
  }

  lemma FoldStep(g: Grammar, ts: seq<Token>, i: int, o: int, e: Expr, j: int)
    requires e.Binary? && 1 <= Prec(e) <= 6 && Is(ts, o, Lexeme(Operator, e.operator))
    requires Arrives(g, ts, i, Prec(e), e.left, o) && Parses(g, ts, o + 1, Prec(e) + 1, e.right, j)
    ensures Arrives(g, ts, i, Prec(e), e, j)
  {
    hide LevelOf;
  }

  /** The same for any left operand: parsing it at a binary level arrives in the fold just behind it. */
  lemma {:induction false} Spine(g: Grammar, e: Expr, level: nat, ts: seq<Token>, i: int)
    requires Ended(ts) && Good(g, e) && 1 <= level <= 6
    requires At(ts, i, Print(g, e, level)) && Stops(ts[i + |Print(g, e, level)|], level + 1)
    ensures Arrives(g, ts, i, level, e, i + |Print(g, e, level)|)
    decreases e, 4
  {
    hide Good, At, Raw;
    if Prec(e) == level {
      SpineRaw(g, e, ts, i);
    } else {
      assert Print(g, e, level) == Print(g, e, level + 1);
      PrintParses(g, e, level + 1, ts, i);
    }
  }

  lemma {:induction false} ArrayParses(g: Grammar, e: Expr, ts: seq<Token>, i: int)
    requires Ended(ts) && Good(g, e) && e.ArrayLiteral? && At(ts, i, Raw(g, e))
    ensures Parses(g, ts, i, 8, e, i + |Raw(g, e)|)
    decreases e, 1
  {
    hide Print, PrintElements, At;
    var inner := PrintElements(g, e.elements);
    Bracketed(ts, i, Mark(LBRACKET), inner, Mark(RBRACKET));
    if e.elements != [] {
      ElementsHead(g, e.elements);
      FirstAt(ts, i + 1, inner);
      OnlyStringsClose(g, e.elements[0], 0);
      ElementsParse(g, e.elements, ts, i + 1);
    }
    NoElements(g);
    hide Printable, Clean;
    ArraySteps(g, ts, i, e, i + |Raw(g, e)|);
  }

  lemma ArraySteps(g: Grammar, ts: seq<Token>, i: int, e: Expr, j: int)
    requires e.ArrayLiteral? && Is(ts, i, Mark(LBRACKET)) && Is(ts, j - 1, Mark(RBRACKET)) && Ended(ts) && j < |ts| && i + 2 <= j
    requires e.elements == [] ==> j == i + 2
    requires e.elements != [] ==> ts[i + 1].value != RBRACKET && ElementsParsed(g, ts, i + 1, e.elements, j - 1)
    ensures Parses(g, ts, i, 8, e, j)
  {
    TextsDiffer();
  }

  ghost predicate ElementsParsed(g: Grammar, ts: seq<Token>, i: int, elements: seq<Expr>, j: int) {
    Ended(ts) && 0 <= i < j < |ts| && Elements(g, ts, i) == Ok((elements, j))
  }

  lemma NoElements(g: Grammar)
    ensures PrintElements(g, []) == []
  {
  }

  lemma ElementsHead(g: Grammar, elements: seq<Expr>)
    requires elements != []
    ensures PrintElements(g, elements)[0] == Print(g, elements[0], 0)[0]
  {
  }

  /** The first lexeme of an expression reads "]" or "}" only if it is a string. */
  lemma {:induction false} OnlyStringsClose(g: Grammar, e: Expr, level: nat)
    requires Usable(g) && Printable(g, e)
    ensures var first := Print(g, e, level)[0]; first.value == RBRACKET || first.value == RBRACE ==> first.kind == Str
    decreases e
  {
    assert RBRACKET[0] == 93 && RBRACE[0] == 125 && LPAREN[0] == 40 && LBRACKET[0] == 91 && LBRACE[0] == 123;
    assert NOT[0] == 33 && MINUS[0] == 45 && PLUS[0] == 43 && TRUE[0] == 116 && FALSE[0] == 102 && NULL[0] == 110;
    if Prec(e) >= level {
      assert Print(g, e, level) == Raw(g, e);
      match e
      case Binary(operator, left, _) =>
        OnlyStringsClose(g, left, LevelOf(operator));
        assert Raw(g, e)[0] == Print(g, left, LevelOf(operator))[0];
      case Conditional(condition, _, _) =>
        OnlyStringsClose(g, condition, 1);
        assert Raw(g, e)[0] == Print(g, condition, 1)[0];
      case _ =>
    }
  }

  /** A list printed element by element: the first, and if there are more, a comma and the rest. */
  lemma ElementsSplit(g: Grammar, elements: seq<Expr>, ts: seq<Token>, i: int)
    requires elements != [] && At(ts, i, PrintElements(g, elements))
    ensures var head, tail := Print(g, elements[0], 0), PrintElements(g, elements[1..]);
            && At(ts, i, head)
            && (|elements| == 1 ==> |PrintElements(g, elements)| == |head|)
            && (|elements| > 1 ==> Is(ts, i + |head|, Mark(COMMA)) && At(ts, i + |head| + 1, tail))
            && (|elements| > 1 ==> |PrintElements(g, elements)| == |head| + 1 + |tail|)
  {
    hide Print, At, Is;
    if |elements| > 1 {
      Around(ts, i, Print(g, elements[0], 0), Mark(COMMA), PrintElements(g, elements[1..]));
    }
  }

  lemma {:induction false} ElementsParse(g: Grammar, elements: seq<Expr>, ts: seq<Token>, i: int)
    requires Ended(ts) && elements != [] && forall k :: 0 <= k < |elements| ==> Good(g, elements[k])
    requires At(ts, i, PrintElements(g, elements)) && Is(ts, i + |PrintElements(g, elements)|, Mark(RBRACKET))
    ensures ElementsParsed(g, ts, i, elements, i + |PrintElements(g, elements)|)
    decreases elements, 5
  {
    hide *;
    ElementsSplit(g, elements, ts, i);
    var c := i + |Print(g, elements[0], 0)|;
    ParsesBefore(g, elements[0], 0, ts, i, if |elements| == 1 then RBRACKET else COMMA);
    if |elements| > 1 {
      ElementsParse(g, elements[1..], ts, c + 1);
    }
    ElementsSteps(g, ts, i, elements, c, i + |PrintElements(g, elements)|);
  }

  lemma ElementsSteps(g: Grammar, ts: seq<Token>, i: int, elements: seq<Expr>, c: int, j: int)
    requires elements != [] && Parses(g, ts, i, 0, elements[0], c)
    requires |elements| == 1 ==> c == j && Is(ts, c, Mark(RBRACKET))
    requires |elements| > 1 ==> Is(ts, c, Mark(COMMA)) && ElementsParsed(g, ts, c + 1, elements[1..], j)
    ensures ElementsParsed(g, ts, i, elements, j)
  {
    TextsDiffer();
    assert [elements[0]] + elements[1..] == elements;
    assert |elements| == 1 ==> elements == [elements[0]];
  }

  ghost predicate EntriesParsed(g: Grammar, ts: seq<Token>, i: int, keys: set<Text>, entries: seq<Entry>, j: int) {
    Ended(ts) && 0 <= i < j < |ts| && Entries(g, ts, i, keys) == Ok((entries, j))
  }

  lemma {:induction false} ObjectParses(g: Grammar, e: Expr, ts: seq<Token>, i: int)
    requires Ended(ts) && Good(g, e) && e.ObjectLiteral? && At(ts, i, Raw(g, e))
    ensures Parses(g, ts, i, 8, e, i + |Raw(g, e)|)
    decreases e, 1
  {
    var inner := PrintEntries(g, e.entries);
    Bracketed(ts, i, Mark(LBRACE), inner, Mark(RBRACE));
    if e.entries != [] {
      EntriesHead(g, e.entries);
      FirstAt(ts, i + 1, inner);
      EntriesParse(g, e.entries, ts, i + 1, {});
    }
    hide Print, PrintEntries, Printable, Clean, At;
    ObjectSteps(g, ts, i, e, i + |Raw(g, e)|);
  }

  lemma ObjectSteps(g: Grammar, ts: seq<Token>, i: int, e: Expr, j: int)
    requires e.ObjectLiteral? && Is(ts, i, Mark(LBRACE)) && Is(ts, j - 1, Mark(RBRACE)) && Ended(ts) && j < |ts| && i + 2 <= j
    requires e.entries == [] ==> j == i + 2
    requires e.entries != [] ==> ts[i + 1].value != RBRACE && EntriesParsed(g, ts, i + 1, {}, e.entries, j - 1)
    ensures Parses(g, ts, i, 8, e, j)
  {
    TextsDiffer();
  }

  lemma EntriesHead(g: Grammar, entries: seq<Entry>)
    requires entries != []
    ensures PrintEntries(g, entries)[0] == Lexeme(Str, entries[0].key)
  {
    assert PrintEntry(g, entries[0])[0] == Lexeme(Str, entries[0].key);
  }

  lemma EntriesSplit(g: Grammar, entries: seq<Entry>, ts: seq<Token>, i: int)
    requires entries != [] && At(ts, i, PrintEntries(g, entries))
    ensures var head, tail := Print(g, entries[0].value, 0), PrintEntries(g, entries[1..]);
            && Is(ts, i, Lexeme(Str, entries[0].key)) && Is(ts, i + 1, Mark(COLON)) && At(ts, i + 2, head)
            && (|entries| == 1 ==> |PrintEntries(g, entries)| == 2 + |head|)
            && (|entries| > 1 ==> Is(ts, i + 2 + |head|, Mark(COMMA)) && At(ts, i + |head| + 3, tail))
            && (|entries| > 1 ==> |PrintEntries(g, entries)| == |head| + 3 + |tail|)
  {
    EntriesUnfold(g, entries);
    hide PrintEntries, PrintEntry, Print, At, Is;
    var entry := entries[0];
    if |entries| > 1 {
      Around(ts, i, PrintEntry(g, entry), Mark(COMMA), PrintEntries(g, entries[1..]));
    }
    EntrySplit(g, entry, ts, i);
  }

  lemma EntriesUnfold(g: Grammar, entries: seq<Entry>)
    requires entries != []
    ensures |PrintEntry(g, entries[0])| == 2 + |Print(g, entries[0].value, 0)|
    ensures |entries| == 1 ==> PrintEntries(g, entries) == PrintEntry(g, entries[0])
    ensures |entries| > 1 ==>
              PrintEntries(g, entries) == PrintEntry(g, entries[0]) + [Mark(COMMA)] + PrintEntries(g, entries[1..])
  {
    hide Print;
  }

  lemma EntrySplit(g: Grammar, entry: Entry, ts: seq<Token>, i: int)
    requires At(ts, i, PrintEntry(g, entry))
    ensures Is(ts, i, Lexeme(Str, entry.key)) && Is(ts, i + 1, Mark(COLON)) && At(ts, i + 2, Print(g, entry.value, 0))
  {
    hide Print;
    var start := [Lexeme(Str, entry.key), Mark(COLON)];
    AtConcat(ts, i, start, Print(g, entry.value, 0));
    assert start == [start[0]] + [start[1]];
    AtConcat(ts, i, [start[0]], [start[1]]);
    FirstAt(ts, i, [start[0]]);
    FirstAt(ts, i + 1, [start[1]]);
  }

  lemma {:induction false} EntriesParse(g: Grammar, entries: seq<Entry>, ts: seq<Token>, i: int, keys: set<Text>)
    requires Ended(ts) && entries != []
    requires forall k :: 0 <= k < |entries| ==> Good(g, entries[k].value) && entries[k].key !in keys
    requires forall k, n :: 0 <= k < n < |entries| ==> entries[k].key != entries[n].key
    requires At(ts, i, PrintEntries(g, entries)) && Is(ts, i + |PrintEntries(g, entries)|, Mark(RBRACE))
    ensures EntriesParsed(g, ts, i, keys, entries, i + |PrintEntries(g, entries)|)
    decreases entries, 5
  {
    hide *;
    EntriesSplit(g, entries, ts, i);
    var c := i + 2 + |Print(g, entries[0].value, 0)|;
    ParsesBefore(g, entries[0].value, 0, ts, i + 2, if |entries| == 1 then RBRACE else COMMA);
    if |entries| > 1 {
      EntriesParse(g, entries[1..], ts, c + 1, keys + {entries[0].key});
    }
    EntriesSteps(g, ts, i, keys, entries, c, i + |PrintEntries(g, entries)|);
  }

  lemma EntriesSteps(g: Grammar, ts: seq<Token>, i: int, keys: set<Text>, entries: seq<Entry>, c: int, j: int)
    requires entries != [] && entries[0].key !in keys && Is(ts, i, Lexeme(Str, entries[0].key)) && Is(ts, i + 1, Mark(COLON))
    requires Parses(g, ts, i + 2, 0, entries[0].value, c)
    requires |entries| == 1 ==> c == j && Is(ts, c, Mark(RBRACE))
    requires |entries| > 1 ==> Is(ts, c, Mark(COMMA)) && EntriesParsed(g, ts, c + 1, keys + {entries[0].key}, entries[1..], j)
    ensures EntriesParsed(g, ts, i, keys, entries, j)
  {
    TextsDiffer();
    var head := Entry(entries[0].key, entries[0].value);
    assert [head] + entries[1..] == entries;
    assert |entries| == 1 ==> entries == [head];
  }
}

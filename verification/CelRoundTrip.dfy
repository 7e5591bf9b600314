/** The exact condition under which a printed expression parses back. */
module CelRoundTrip {
  // A string token that reads like a closing bracket is eaten as punctuation; counting strings shows that the
  // expression it belonged to can then not come back.

  import opened Outcomes
  import opened Texts
  import opened CelTokens
  import opened CelParser
  import opened CelPrinter

  /** String tokens from `i` up to `j`. */
  function StringTokens(ts: seq<Token>, i: int, j: int): nat
    requires 0 <= i <= j <= |ts|
    decreases j - i
  {
    if i == j then 0 else (if ts[i].kind == Str then 1 else 0) + StringTokens(ts, i + 1, j)
  }

  /** String literals and object keys of an expression. */
  function Strings(e: Expr): nat
    decreases e
  {
    match e
    case StringLiteral(_) => 1
    case ArrayLiteral(elements) => ElementStrings(elements)
    case ObjectLiteral(entries) => EntryStrings(entries)
    case Unary(_, operand) => Strings(operand)
    case Binary(_, left, right) => Strings(left) + Strings(right)
    case Conditional(condition, whenTrue, whenFalse) => Strings(condition) + Strings(whenTrue) + Strings(whenFalse)
    case _ => 0
  }

  function ElementStrings(elements: seq<Expr>): nat
    decreases elements
  {
    if elements == [] then 0 else Strings(elements[0]) + ElementStrings(elements[1..])
  }

  function EntryStrings(entries: seq<Entry>): nat
    decreases entries
  {
    if entries == [] then 0 else 1 + Strings(entries[0].value) + EntryStrings(entries[1..])
  }

  lemma {:induction false} TokensSplit(ts: seq<Token>, i: int, j: int, k: int)
    requires 0 <= i <= j <= k <= |ts|
    ensures StringTokens(ts, i, k) == StringTokens(ts, i, j) + StringTokens(ts, j, k)
    decreases j - i
  {
    if i < j {
      TokensSplit(ts, i + 1, j, k);
    }
  }

  // ---------------------------------------------------------------------------------------------
  // No parse invents a string
  // ---------------------------------------------------------------------------------------------

  /** A result holds at most the strings of the tokens it consumed. */
  ghost predicate Thrifty(r: Parsed, ts: seq<Token>, i: int, before: nat) {
    r.Ok? ==> 0 <= i <= r.value.1 <= |ts| && Strings(r.value.0) <= before + StringTokens(ts, i, r.value.1)
  }

  lemma {:induction false} ParseIsThrifty(g: Grammar, ts: seq<Token>, i: nat, level: nat)
    requires Ended(ts) && i < |ts| && level <= 8
    ensures Thrifty(Parse(g, ts, i, level), ts, i, 0)
    decreases |ts| - i, 0, 9 - level
  {
    if level == 0 {
      ParseIsThrifty(g, ts, i, 1);
      ConditionalIsThrifty(g, ts, i, Parse(g, ts, i, 1));
    } else if level <= 6 {
      ParseIsThrifty(g, ts, i, level + 1);
      var left := Parse(g, ts, i, level + 1);
      if left.Ok? {
        FoldIsThrifty(g, ts, left.value.1, level, left.value.0);
        var r := Parse(g, ts, i, level);
        if r.Ok? {
          TokensSplit(ts, i, left.value.1, r.value.1);
        }
      }
    } else if level == 7 {
      if ts[i].kind == Operator && IsUnary(ts[i].value) {
        ParseIsThrifty(g, ts, i + 1, 7);
      } else {
        ParseIsThrifty(g, ts, i, 8);
      }
    } else {
      PrimaryIsThrifty(g, ts, i);
    }
  }

  lemma {:induction false} ConditionalIsThrifty(g: Grammar, ts: seq<Token>, i: nat, condition: Parsed)
    requires Ended(ts) && i < |ts| && (condition.Ok? ==> i < condition.value.1 < |ts|)
    ensures condition.Ok? && ParseConditional(g, ts, i, condition).Ok? ==>
              var r := ParseConditional(g, ts, i, condition).value;
              condition.value.1 <= r.1 && Strings(r.0) <= Strings(condition.value.0) + StringTokens(ts, condition.value.1, r.1)
    ensures Thrifty(condition, ts, i, 0) ==> Thrifty(ParseConditional(g, ts, i, condition), ts, i, 0)
    decreases |ts| - i, 0, 7
  {
    hide Parse;
    var r := ParseConditional(g, ts, i, condition);
    if condition.Ok? && r.Ok? && ts[condition.value.1].value == QUESTION {
      var j := condition.value.1;
      ParseIsThrifty(g, ts, j + 1, 0);
      var k := Parse(g, ts, j + 1, 0).value.1;
      ParseIsThrifty(g, ts, k + 1, 0);
      TokensSplit(ts, j, j + 1, r.value.1);
      TokensSplit(ts, j + 1, k, r.value.1);
      TokensSplit(ts, k, k + 1, r.value.1);
      TokensSplit(ts, i, j, r.value.1);
    }
  }

  lemma {:induction false} FoldIsThrifty(g: Grammar, ts: seq<Token>, i: nat, level: nat, left: Expr)
    requires Ended(ts) && i < |ts| && 1 <= level <= 6
    ensures Thrifty(Fold(g, ts, i, level, left), ts, i, Strings(left))
    decreases |ts| - i, 1, 0
  {
    hide Parse, LevelOf;
    if ts[i].kind == Operator && LevelOf(ts[i].value) == level {
      ParseIsThrifty(g, ts, i + 1, level + 1);
      var right := Parse(g, ts, i + 1, level + 1);
      if right.Ok? {
        var j := right.value.1;
        FoldIsThrifty(g, ts, j, level, Binary(ts[i].value, left, right.value.0));
        var r := Fold(g, ts, i, level, left);
        if r.Ok? {
          TokensSplit(ts, i + 1, j, r.value.1);
        }
      }
    }
  }

  lemma {:induction false} PrimaryIsThrifty(g: Grammar, ts: seq<Token>, i: nat)
    requires Ended(ts) && i < |ts|
    ensures Thrifty(Primary(g, ts, i), ts, i, 0)
    decreases |ts| - i, 0, 0
  {
    hide Parse, Elements, Entries;
    var r := Primary(g, ts, i);
    if r.Ok? && (ts[i].kind == Operator || ts[i].kind == Punctuation) {
      var j := r.value.1;
      TokensSplit(ts, i + 1, j - 1, j);
      TextsDiffer();
      if ts[i].value == LPAREN {
        ParseIsThrifty(g, ts, i + 1, 0);
      } else if ts[i].value == LBRACKET && ts[i + 1].value != RBRACKET {
        ElementsAreThrifty(g, ts, i + 1);
      } else if ts[i].value == LBRACE && ts[i + 1].value != RBRACE {
        EntriesAreThrifty(g, ts, i + 1, {});
      }
    }
  }

  lemma {:induction false} ElementsAreThrifty(g: Grammar, ts: seq<Token>, i: nat)
    requires Ended(ts) && i < |ts|
    ensures var r := Elements(g, ts, i); r.Ok? ==> ElementStrings(r.value.0) <= StringTokens(ts, i, r.value.1)
    decreases |ts| - i, 1, 0
  {
    hide Parse, Strings;
    ParseIsThrifty(g, ts, i, 0);
    var head := Parse(g, ts, i, 0);
    if head.Ok? {
      var j := head.value.1;
      assert ElementStrings([head.value.0]) == Strings(head.value.0);
      if ts[j].value == COMMA {
        ElementsAreThrifty(g, ts, j + 1);
        var tail := Elements(g, ts, j + 1);
        if tail.Ok? {
          assert ([head.value.0] + tail.value.0)[1..] == tail.value.0;
          TokensSplit(ts, i, j, tail.value.1);
        }
      }
    }
  }

  lemma {:induction false} EntriesAreThrifty(g: Grammar, ts: seq<Token>, i: nat, keys: set<Text>)
    requires Ended(ts) && i < |ts|
    ensures var r := Entries(g, ts, i, keys); r.Ok? ==> EntryStrings(r.value.0) <= StringTokens(ts, i, r.value.1)
    decreases |ts| - i, 1, 0
  {
    hide Parse, Strings;
    if Entries(g, ts, i, keys).Ok? {
      ParseIsThrifty(g, ts, i + 2, 0);
      var (value, j) := Parse(g, ts, i + 2, 0).value;
      var head := Entry(ts[i].value, value);
      assert EntryStrings([head]) == 1 + Strings(value);
      TokensSplit(ts, i, i + 2, j);
      assert StringTokens(ts, i, i + 2) >= 1;
      if ts[j].value == COMMA {
        EntriesAreThrifty(g, ts, j + 1, keys + {ts[i].value});
        var (tail, k) := Entries(g, ts, j + 1, keys + {ts[i].value}).value;
        assert ([head] + tail)[1..] == tail;
        TokensSplit(ts, i, j, k);
      }
    }
  }

  // ---------------------------------------------------------------------------------------------
  // Printing writes each string once
  // ---------------------------------------------------------------------------------------------

  function StringLexemes(lexemes: seq<Lexeme>): nat {
    if lexemes == [] then 0
    else StringLexemes(lexemes[..|lexemes| - 1]) + (if lexemes[|lexemes| - 1].kind == Str then 1 else 0)
  }

  lemma {:induction false} LexemesConcat(a: seq<Lexeme>, b: seq<Lexeme>)
    ensures StringLexemes(a + b) == StringLexemes(a) + StringLexemes(b)
  {
    if b == [] {
      assert a + b == a;
    } else {
      assert (a + b)[..|a + b| - 1] == a + b[..|b| - 1];
      LexemesConcat(a, b[..|b| - 1]);
    }
  }

  lemma Lexemes3(a: seq<Lexeme>, mid: Lexeme, b: seq<Lexeme>)
    ensures StringLexemes(a + [mid] + b) == StringLexemes(a) + (if mid.kind == Str then 1 else 0) + StringLexemes(b)
  {
    LexemesConcat(a + [mid], b);
    LexemesConcat(a, [mid]);
    assert [mid][..0] == [];
  }

  lemma {:induction false} TokensAt(ts: seq<Token>, i: int, lexemes: seq<Lexeme>)
    requires At(ts, i, lexemes)
    ensures StringTokens(ts, i, i + |lexemes|) == StringLexemes(lexemes)
  {
    if lexemes != [] {
      var n := |lexemes| - 1;
      TokensAt(ts, i, lexemes[..n]);
      TokensSplit(ts, i, i + n, i + n + 1);
      assert ts[i + n].kind == lexemes[n].kind;
    }
  }

  lemma Enclosed(open: Text, inner: seq<Lexeme>, close: Text)
    ensures StringLexemes([Mark(open)] + inner + [Mark(close)]) == StringLexemes(inner)
  {
    var a, b := [Mark(open)], [Mark(close)];
    LexemesConcat(a + inner, b);
    LexemesConcat(a, inner);
    assert a[..0] == [] && b[..0] == [];
  }

  lemma {:induction false} PrintCounts(g: Grammar, e: Expr, level: nat)
    ensures StringLexemes(Print(g, e, level)) == Strings(e)
    decreases e, 2
  {
    hide StringLexemes, Strings, Raw;
    RawCounts(g, e);
    Enclosed(LPAREN, Raw(g, e), RPAREN);
  }

  lemma {:induction false} RawCounts(g: Grammar, e: Expr)
    ensures StringLexemes(Raw(g, e)) == Strings(e)
    decreases e, 1
  {
    hide StringLexemes, Print, PrintElements, PrintEntries, LevelOf;
    match e
    case ArrayLiteral(elements) =>
      ElementsCount(g, elements);
      Enclosed(LBRACKET, PrintElements(g, elements), RBRACKET);
    case ObjectLiteral(entries) =>
      EntriesCount(g, entries);
      Enclosed(LBRACE, PrintEntries(g, entries), RBRACE);
    case Unary(operator, operand) =>
      PrintCounts(g, operand, 7);
      OneLexeme(Lexeme(Operator, operator));
      LexemesConcat([Lexeme(Operator, operator)], Print(g, operand, 7));
    case Binary(operator, left, right) =>
      var level := LevelOf(operator);
      PrintCounts(g, left, level);
      PrintCounts(g, right, level + 1);
      Lexemes3(Print(g, left, level), Lexeme(Operator, operator), Print(g, right, level + 1));
    case Conditional(condition, whenTrue, whenFalse) => ConditionalCounts(g, e);
    case _ => OneLexeme(Raw(g, e)[0]);
  }

  lemma OneLexeme(lexeme: Lexeme)
    ensures StringLexemes([lexeme]) == if lexeme.kind == Str then 1 else 0
  {
    assert [lexeme][..0] == [];
  }

  lemma {:induction false} ConditionalCounts(g: Grammar, e: Expr)
    requires e.Conditional?
    ensures StringLexemes(Raw(g, e)) == Strings(e)
    decreases e, 0
  {
    hide StringLexemes, Print;
    PrintCounts(g, e.condition, 1);
    PrintCounts(g, e.whenTrue, 0);
    PrintCounts(g, e.whenFalse, 0);
    var c, t, f := Print(g, e.condition, 1), Print(g, e.whenTrue, 0), Print(g, e.whenFalse, 0);
    Lexemes3(c, Mark(QUESTION), t);
    Lexemes3(c + [Mark(QUESTION)] + t, Mark(COLON), f);
  }

  lemma {:induction false} ElementsCount(g: Grammar, elements: seq<Expr>)
    ensures StringLexemes(PrintElements(g, elements)) == ElementStrings(elements)
    decreases elements
  {
    hide Print;
    if elements != [] {
      PrintCounts(g, elements[0], 0);
      if |elements| > 1 {
        ElementsCount(g, elements[1..]);
        Lexemes3(Print(g, elements[0], 0), Mark(COMMA), PrintElements(g, elements[1..]));
      }
    }
  }

  lemma {:induction false} EntriesCount(g: Grammar, entries: seq<Entry>)
    ensures StringLexemes(PrintEntries(g, entries)) == EntryStrings(entries)
    decreases entries
  {
    hide Print;
    if entries != [] {
      var entry := entries[0];
      PrintCounts(g, entry.value, 0);
      Lexemes3([Lexeme(Str, entry.key)], Mark(COLON), Print(g, entry.value, 0));
      assert [Lexeme(Str, entry.key)][..0] == [];
      assert PrintEntry(g, entry) == [Lexeme(Str, entry.key)] + [Mark(COLON)] + Print(g, entry.value, 0);
      if |entries| > 1 {
        EntriesCount(g, entries[1..]);
        Lexemes3(PrintEntry(g, entry), Mark(COMMA), PrintEntries(g, entries[1..]));
      }
    }
  }

  lemma PrintedStrings(g: Grammar, e: Expr, level: nat, ts: seq<Token>, i: int)
    requires At(ts, i, Print(g, e, level))
    ensures StringTokens(ts, i, i + |Print(g, e, level)|) == Strings(e)
  {
    TokensAt(ts, i, Print(g, e, level));
    PrintCounts(g, e, level);
  }

  // ---------------------------------------------------------------------------------------------
  // An unclean expression loses a string
  // ---------------------------------------------------------------------------------------------

  /** The parse fails, or holds fewer strings than the tokens it consumed. */
  ghost predicate Lossy(r: Parsed, ts: seq<Token>, i: int) {
    r.Ok? ==> 0 <= i <= r.value.1 <= |ts| && Strings(r.value.0) < StringTokens(ts, i, r.value.1)
  }

  ghost predicate LossyAt(g: Grammar, ts: seq<Token>, i: int, level: nat) {
    Ended(ts) && 0 <= i < |ts| && level <= 8 && Lossy(Parse(g, ts, i, level), ts, i)
  }

  /** Nothing parsed after a loss makes up for it. */
  lemma {:induction false} LossyDescends(g: Grammar, ts: seq<Token>, i: int, from: nat, to: nat)
    requires LossyAt(g, ts, i, from) && to <= from && (from == 8 ==> ts[i].kind != Operator)
    ensures LossyAt(g, ts, i, to)
    decreases from
  {
    if to < from {
      var level := from - 1;
      var inner := Parse(g, ts, i, from);
      if level == 0 {
        ConditionalStaysLossy(g, ts, i, inner);
      } else if level <= 6 && inner.Ok? {
        FoldStaysLossy(g, ts, i, inner.value.1, level, inner.value.0);
      }
      LossyDescends(g, ts, i, level, to);
    }
  }

  lemma FoldStaysLossy(g: Grammar, ts: seq<Token>, i: int, j: int, level: nat, left: Expr)
    requires Ended(ts) && 0 <= i <= j < |ts| && 1 <= level <= 6 && Strings(left) < StringTokens(ts, i, j)
    ensures Lossy(Fold(g, ts, j, level, left), ts, i)
  {
    FoldIsThrifty(g, ts, j, level, left);
    var r := Fold(g, ts, j, level, left);
    if r.Ok? {
      TokensSplit(ts, i, j, r.value.1);
    }
  }

  lemma ConditionalStaysLossy(g: Grammar, ts: seq<Token>, i: int, condition: Parsed)
    requires Ended(ts) && 0 <= i < |ts| && Lossy(condition, ts, i) && (condition.Ok? ==> i < condition.value.1 < |ts|)
    ensures Lossy(ParseConditional(g, ts, i, condition), ts, i)
  {
    ConditionalIsThrifty(g, ts, i, condition);
    var r := ParseConditional(g, ts, i, condition);
    if r.Ok? {
      TokensSplit(ts, i, condition.value.1, r.value.1);
    }
  }

  ghost predicate Bad(g: Grammar, e: Expr) {
    Usable(g) && Printable(g, e) && !Clean(g, e)
  }

  lemma {:induction false} UncleanPrintIsLossy(g: Grammar, e: Expr, level: nat, ts: seq<Token>, i: int)
    requires Ended(ts) && Bad(g, e) && level <= 8 && At(ts, i, Print(g, e, level))
    ensures LossyAt(g, ts, i, level)
    decreases e, 3
  {
    hide Raw, At, LossyAt, Bad;
    if Prec(e) < level {
      Bracketed(ts, i, Mark(LPAREN), Raw(g, e), Mark(RPAREN));
      UncleanRawIsLossy(g, e, ts, i + 1);
      RawHead(g, e, ts, i + 1);
      LossyDescends(g, ts, i + 1, Prec(e), 0);
      ParenStaysLossy(g, ts, i);
      LossyDescends(g, ts, i, 8, level);
    } else {
      UncleanRawIsLossy(g, e, ts, i);
      RawHead(g, e, ts, i);
      LossyDescends(g, ts, i, Prec(e), level);
    }
  }

  lemma ParenStaysLossy(g: Grammar, ts: seq<Token>, i: int)
    requires Is(ts, i, Mark(LPAREN)) && LossyAt(g, ts, i + 1, 0)
    ensures LossyAt(g, ts, i, 8)
  {
    TextsDiffer();
    if Primary(g, ts, i).Ok? {
      var j := Parse(g, ts, i + 1, 0).value.1;
      TokensSplit(ts, i + 1, j, j + 1);
    }
  }

  lemma {:induction false} UncleanRawIsLossy(g: Grammar, e: Expr, ts: seq<Token>, i: int)
    requires Ended(ts) && Bad(g, e) && At(ts, i, Raw(g, e))
    ensures LossyAt(g, ts, i, Prec(e))
    decreases e, 2
  {
    hide At, Raw, Print, LossyAt;
    match e
    case ArrayLiteral(elements) => UncleanArrayIsLossy(g, e, ts, i);
    case ObjectLiteral(entries) => UncleanObjectIsLossy(g, e, ts, i);
    case Unary(operator, operand) => UncleanUnaryIsLossy(g, e, ts, i);
    case Binary(operator, left, right) => UncleanBinaryIsLossy(g, e, ts, i);
    case Conditional(condition, whenTrue, whenFalse) => UncleanConditionalIsLossy(g, e, ts, i);
    case _ =>
  }

  lemma {:induction false} UncleanUnaryIsLossy(g: Grammar, e: Expr, ts: seq<Token>, i: int)
    requires Ended(ts) && Bad(g, e) && e.Unary? && At(ts, i, Raw(g, e))
    ensures LossyAt(g, ts, i, 7)
    decreases e, 1
  {
    hide At, Raw, Print, LossyAt, Is;
    UnarySplit(g, e, ts, i);
    UncleanPrintIsLossy(g, e.operand, 7, ts, i + 1);
    UnaryStaysLossy(g, ts, i, e.operator);
  }

  lemma UnarySplit(g: Grammar, e: Expr, ts: seq<Token>, i: int)
    requires e.Unary? && At(ts, i, Raw(g, e))
    ensures Is(ts, i, Lexeme(Operator, e.operator)) && At(ts, i + 1, Print(g, e.operand, 7))
  {
    hide Print, At, Is;
    AtConcat(ts, i, [Lexeme(Operator, e.operator)], Print(g, e.operand, 7));
    FirstAt(ts, i, [Lexeme(Operator, e.operator)]);
  }

  lemma UnaryStaysLossy(g: Grammar, ts: seq<Token>, i: int, operator: Text)
    requires Is(ts, i, Lexeme(Operator, operator)) && IsUnary(operator) && LossyAt(g, ts, i + 1, 7)
    ensures LossyAt(g, ts, i, 7)
  {
    hide IsUnary;
  }

  lemma {:induction false} UncleanBinaryIsLossy(g: Grammar, e: Expr, ts: seq<Token>, i: int)
    requires Ended(ts) && Bad(g, e) && e.Binary? && At(ts, i, Raw(g, e))
    ensures LossyAt(g, ts, i, Prec(e))
    decreases e, 1
  {
    BinarySplit(g, e, ts, i);
    if Clean(g, e.left) {
      UncleanRight(g, e, ts, i, i + |Print(g, e.left, Prec(e))|);
    } else {
      hide Raw, LevelOf, Print, Parse, Fold, At, LossyAt, Ended;
      UncleanPrintIsLossy(g, e.left, Prec(e), ts, i);
    }
  }

  lemma {:induction false} UncleanRight(g: Grammar, e: Expr, ts: seq<Token>, i: int, o: int)
    requires Ended(ts) && e.Binary? && Good(g, e.left) && Bad(g, e.right) && At(ts, i, Print(g, e.left, Prec(e)))
    requires 1 <= Prec(e) <= 6
    requires o == i + |Print(g, e.left, Prec(e))| && Is(ts, o, Lexeme(Operator, e.operator))
    requires At(ts, o + 1, Print(g, e.right, Prec(e) + 1))
    ensures LossyAt(g, ts, i, Prec(e))
    decreases e, 0
  {
    hide *;
    LeftArrivesWhole(g, e, ts, i);
    UncleanPrintIsLossy(g, e.right, Prec(e) + 1, ts, o + 1);
    LossyRight(g, e, ts, i, o);
  }

  /** A clean left operand arrives with all its strings. */
  lemma LeftArrivesWhole(g: Grammar, e: Expr, ts: seq<Token>, i: int)
    requires Ended(ts) && e.Binary? && 1 <= Prec(e) && Good(g, e.left) && At(ts, i, Print(g, e.left, Prec(e)))
    requires Is(ts, i + |Print(g, e.left, Prec(e))|, Lexeme(Operator, e.operator))
    ensures 1 <= Prec(e) <= 6 && Arrives(g, ts, i, Prec(e), e.left, i + |Print(g, e.left, Prec(e))|)
    ensures Strings(e.left) == StringTokens(ts, i, i + |Print(g, e.left, Prec(e))|)
  {
    hide Print, Parse, Fold, Good, StringTokens, Strings;
    OperatorStops(ts[i + |Print(g, e.left, Prec(e))|]);
    Spine(g, e.left, Prec(e), ts, i);
    PrintedStrings(g, e.left, Prec(e), ts, i);
  }

  lemma LossyRight(g: Grammar, e: Expr, ts: seq<Token>, i: int, o: int)
    requires e.Binary? && 1 <= Prec(e) <= 6 && Is(ts, o, Lexeme(Operator, e.operator))
    requires Arrives(g, ts, i, Prec(e), e.left, o) && Strings(e.left) == StringTokens(ts, i, o)
    requires LossyAt(g, ts, o + 1, Prec(e) + 1)
    ensures LossyAt(g, ts, i, Prec(e))
  {
    hide LevelOf;
    var right := Parse(g, ts, o + 1, Prec(e) + 1);
    if right.Ok? {
      TokensSplit(ts, i, o, o + 1);
      TokensSplit(ts, i, o + 1, right.value.1);
      FoldStaysLossy(g, ts, i, right.value.1, Prec(e), Binary(e.operator, e.left, right.value.0));
    }
  }

  lemma {:induction false} UncleanConditionalIsLossy(g: Grammar, e: Expr, ts: seq<Token>, i: int)
    requires Ended(ts) && Bad(g, e) && e.Conditional? && At(ts, i, Raw(g, e))
    ensures LossyAt(g, ts, i, 0)
    decreases e, 1
  {
    hide *;
    ConditionalSplit(g, e, ts, i);
    ConditionalParts(g, e);
    if Bad(g, e.condition) {
      UncleanPrintIsLossy(g, e.condition, 1, ts, i);
      LossyDescends(g, ts, i, 1, 0);
    } else {
      ParsesWhole(g, e.condition, 1, ts, i, QUESTION);
      UncleanBranches(g, e, ts, i, i + |Print(g, e.condition, 1)|);
    }
  }

  lemma {:induction false} UncleanBranches(g: Grammar, e: Expr, ts: seq<Token>, i: int, q: int)
    requires Ended(ts) && e.Conditional? && (Bad(g, e.whenTrue) || (Good(g, e.whenTrue) && Bad(g, e.whenFalse)))
    requires Parses(g, ts, i, 1, e.condition, q) && Is(ts, q, Mark(QUESTION)) && Strings(e.condition) == StringTokens(ts, i, q)
    requires At(ts, q + 1, Print(g, e.whenTrue, 0)) && Is(ts, q + 1 + |Print(g, e.whenTrue, 0)|, Mark(COLON))
    requires At(ts, q + 2 + |Print(g, e.whenTrue, 0)|, Print(g, e.whenFalse, 0))
    ensures LossyAt(g, ts, i, 0)
    decreases e, 0
  {
    hide *;
    if Bad(g, e.whenTrue) {
      UncleanPrintIsLossy(g, e.whenTrue, 0, ts, q + 1);
      LossyWhenTrue(g, e.condition, ts, i, q);
    } else {
      var c := q + 1 + |Print(g, e.whenTrue, 0)|;
      ParsesWhole(g, e.whenTrue, 0, ts, q + 1, COLON);
      UncleanPrintIsLossy(g, e.whenFalse, 0, ts, c + 1);
      LossyWhenFalse(g, e, ts, i, q, c);
    }
  }

  lemma ConditionalParts(g: Grammar, e: Expr)
    requires e.Conditional? && Bad(g, e)
    ensures Bad(g, e.condition) || (Good(g, e.condition) && (Bad(g, e.whenTrue) || (Good(g, e.whenTrue) && Bad(g, e.whenFalse))))
  {
  }

  /** A clean expression parses with all its strings. */
  lemma ParsesWhole(g: Grammar, e: Expr, level: nat, ts: seq<Token>, i: int, stop: Text)
    requires Ended(ts) && Good(g, e) && level <= 1 && At(ts, i, Print(g, e, level))
    requires stop == COLON || (stop == QUESTION && level == 1)
    requires Is(ts, i + |Print(g, e, level)|, Mark(stop))
    ensures Parses(g, ts, i, level, e, i + |Print(g, e, level)|)
    ensures Strings(e) == StringTokens(ts, i, i + |Print(g, e, level)|)
  {
    hide *;
    ParsesBefore(g, e, level, ts, i, stop);
    PrintedStrings(g, e, level, ts, i);
  }

  lemma ConditionFirst(g: Grammar, ts: seq<Token>, i: int, condition: Expr, q: int)
    requires Parses(g, ts, i, 1, condition, q)
    ensures Ended(ts) && 0 <= i < q < |ts| && Parse(g, ts, i, 0) == ParseConditional(g, ts, i, Ok((condition, q)))
  {
  }

  lemma LossyWhenTrue(g: Grammar, condition: Expr, ts: seq<Token>, i: int, q: int)
    requires Parses(g, ts, i, 1, condition, q) && Is(ts, q, Mark(QUESTION))
    requires Strings(condition) == StringTokens(ts, i, q) && LossyAt(g, ts, q + 1, 0)
    ensures LossyAt(g, ts, i, 0)
  {
    hide Parse, Parses;
    ConditionFirst(g, ts, i, condition, q);
    var r := Parse(g, ts, i, 0);
    if r.Ok? {
      var k := Parse(g, ts, q + 1, 0).value.1;
      ParseIsThrifty(g, ts, k + 1, 0);
      TokensSplit(ts, i, q, r.value.1);
      TokensSplit(ts, q + 1, k, r.value.1);
      TokensSplit(ts, k, k + 1, r.value.1);
    }
  }

  lemma LossyWhenFalse(g: Grammar, e: Expr, ts: seq<Token>, i: int, q: int, c: int)
    requires e.Conditional? && Parses(g, ts, i, 1, e.condition, q) && Is(ts, q, Mark(QUESTION))
    requires Parses(g, ts, q + 1, 0, e.whenTrue, c) && Is(ts, c, Mark(COLON))
    requires Strings(e.condition) == StringTokens(ts, i, q) && Strings(e.whenTrue) == StringTokens(ts, q + 1, c)
    requires LossyAt(g, ts, c + 1, 0)
    ensures LossyAt(g, ts, i, 0)
  {
    ConditionFirst(g, ts, i, e.condition, q);
    hide Parse;
    var r := Parse(g, ts, i, 0);
    if r.Ok? {
      TokensSplit(ts, i, q, r.value.1);
      TokensSplit(ts, q + 1, c, r.value.1);
    }
  }

  lemma {:induction false} UncleanArrayIsLossy(g: Grammar, e: Expr, ts: seq<Token>, i: int)
    requires Ended(ts) && Bad(g, e) && e.ArrayLiteral? && At(ts, i, Raw(g, e))
    ensures LossyAt(g, ts, i, 8)
    decreases e, 1
  {
    var inner := PrintElements(g, e.elements);
    Bracketed(ts, i, Mark(LBRACKET), inner, Mark(RBRACKET));
    assert e.elements != [];
    ElementsHead(g, e.elements);
    FirstAt(ts, i + 1, inner);
    if inner[0] != Lexeme(Str, RBRACKET) {
      OnlyStringsClose(g, e.elements[0], 0);
      UncleanElementsAreLossy(g, e.elements, ts, i + 1);
    }
    LossyArray(g, ts, i, inner[0]);
  }

  lemma LossyArray(g: Grammar, ts: seq<Token>, i: int, first: Lexeme)
    requires Ended(ts) && Is(ts, i, Mark(LBRACKET)) && Is(ts, i + 1, first) && i + 2 < |ts|
    requires first == Lexeme(Str, RBRACKET) || (first.value != RBRACKET && LossyElements(Elements(g, ts, i + 1), ts, i + 1))
    ensures LossyAt(g, ts, i, 8)
  {
    TextsDiffer();
    if first.value == RBRACKET {
      assert StringTokens(ts, i + 1, i + 2) == 1;
    } else if Primary(g, ts, i).Ok? {
      var j := Elements(g, ts, i + 1).value.1;
      TokensSplit(ts, i + 1, j, j + 1);
    }
  }

  ghost predicate LossyElements(r: Result<(seq<Expr>, nat), CelError>, ts: seq<Token>, i: int) {
    r.Ok? ==> 0 <= i <= r.value.1 <= |ts| && ElementStrings(r.value.0) < StringTokens(ts, i, r.value.1)
  }

  /** A list of printable expressions with an unclean one among them. */
  ghost predicate BadList(g: Grammar, elements: seq<Expr>) {
    && Usable(g) && (forall k :: 0 <= k < |elements| ==> Printable(g, elements[k]))
    && exists k :: 0 <= k < |elements| && !Clean(g, elements[k])
  }

  lemma BadListParts(g: Grammar, elements: seq<Expr>)
    requires BadList(g, elements)
    ensures elements != [] && (Bad(g, elements[0]) || (Good(g, elements[0]) && |elements| > 1 && BadList(g, elements[1..])))
  {
    var bad :| 0 <= bad < |elements| && !Clean(g, elements[bad]);
    if Clean(g, elements[0]) {
      assert !Clean(g, elements[1..][bad - 1]);
    }
  }

  lemma {:induction false} UncleanElementsAreLossy(g: Grammar, elements: seq<Expr>, ts: seq<Token>, i: int)
    requires Ended(ts) && BadList(g, elements) && At(ts, i, PrintElements(g, elements))
    ensures LossyElements(Elements(g, ts, i), ts, i)
    decreases elements, 5
  {
    hide *;
    BadListParts(g, elements);
    ElementsSplit(g, elements, ts, i);
    var c := i + |Print(g, elements[0], 0)|;
    if Bad(g, elements[0]) {
      UncleanPrintIsLossy(g, elements[0], 0, ts, i);
      LossyHead(g, ts, i);
    } else {
      ParsesBefore(g, elements[0], 0, ts, i, COMMA);
      AtFits(ts, c + 1, PrintElements(g, elements[1..]));
      UncleanElementsAreLossy(g, elements[1..], ts, c + 1);
      LossyTail(g, ts, i, elements[0], c);
    }
  }

  lemma LossyHead(g: Grammar, ts: seq<Token>, i: int)
    requires LossyAt(g, ts, i, 0)
    ensures LossyElements(Elements(g, ts, i), ts, i)
  {
    var r := Elements(g, ts, i);
    if r.Ok? {
      var (head, j) := Parse(g, ts, i, 0).value;
      assert ElementStrings([head]) == Strings(head);
      if ts[j].value == COMMA {
        ElementsAreThrifty(g, ts, j + 1);
        var tail := Elements(g, ts, j + 1).value;
        assert ([head] + tail.0)[1..] == tail.0;
        TokensSplit(ts, i, j, tail.1);
      }
    }
  }

  lemma LossyTail(g: Grammar, ts: seq<Token>, i: int, head: Expr, c: int)
    requires Parses(g, ts, i, 0, head, c) && Is(ts, c, Mark(COMMA)) && c + 1 < |ts|
    requires LossyElements(Elements(g, ts, c + 1), ts, c + 1)
    ensures LossyElements(Elements(g, ts, i), ts, i)
  {
    ParseIsThrifty(g, ts, i, 0);
    var r := Elements(g, ts, i);
    if r.Ok? {
      var tail := Elements(g, ts, c + 1).value;
      assert ([head] + tail.0)[1..] == tail.0;
      TokensSplit(ts, i, c, tail.1);
    }
  }

  lemma {:induction false} UncleanObjectIsLossy(g: Grammar, e: Expr, ts: seq<Token>, i: int)
    requires Ended(ts) && Bad(g, e) && e.ObjectLiteral? && At(ts, i, Raw(g, e))
    ensures LossyAt(g, ts, i, 8)
    decreases e, 1
  {
    var inner := PrintEntries(g, e.entries);
    Bracketed(ts, i, Mark(LBRACE), inner, Mark(RBRACE));
    assert e.entries != [];
    EntriesHead(g, e.entries);
    FirstAt(ts, i + 1, inner);
    if e.entries[0].key != RBRACE {
      UncleanEntriesAreLossy(g, e.entries, ts, i + 1, {});
    }
    LossyObject(g, ts, i, inner[0]);
  }

  lemma LossyObject(g: Grammar, ts: seq<Token>, i: int, first: Lexeme)
    requires Ended(ts) && Is(ts, i, Mark(LBRACE)) && Is(ts, i + 1, first) && i + 2 < |ts|
    requires first == Lexeme(Str, RBRACE) || (first.value != RBRACE && LossyEntries(Entries(g, ts, i + 1, {}), ts, i + 1))
    ensures LossyAt(g, ts, i, 8)
  {
    TextsDiffer();
    if first.value == RBRACE {
      assert StringTokens(ts, i + 1, i + 2) == 1;
    } else if Primary(g, ts, i).Ok? {
      var j := Entries(g, ts, i + 1, {}).value.1;
      TokensSplit(ts, i + 1, j, j + 1);
    }
  }

  ghost predicate LossyEntries(r: Result<(seq<Entry>, nat), CelError>, ts: seq<Token>, i: int) {
    r.Ok? ==> 0 <= i <= r.value.1 <= |ts| && EntryStrings(r.value.0) < StringTokens(ts, i, r.value.1)
  }

  ghost predicate BadEntries(g: Grammar, entries: seq<Entry>) {
    && Usable(g) && (forall k :: 0 <= k < |entries| ==> Printable(g, entries[k].value))
    && exists k :: 0 <= k < |entries| && !Clean(g, entries[k].value)
  }

  lemma BadEntriesParts(g: Grammar, entries: seq<Entry>)
    requires BadEntries(g, entries)
    ensures entries != []
    ensures Bad(g, entries[0].value) || (Good(g, entries[0].value) && |entries| > 1 && BadEntries(g, entries[1..]))
  {
    var bad :| 0 <= bad < |entries| && !Clean(g, entries[bad].value);
    if Clean(g, entries[0].value) {
      assert !Clean(g, entries[1..][bad - 1].value);
    }
  }

  lemma {:induction false} UncleanEntriesAreLossy(g: Grammar, entries: seq<Entry>, ts: seq<Token>, i: int, keys: set<Text>)
    requires Ended(ts) && BadEntries(g, entries) && At(ts, i, PrintEntries(g, entries))
    ensures LossyEntries(Entries(g, ts, i, keys), ts, i)
    decreases entries, 5
  {
    hide *;
    BadEntriesParts(g, entries);
    EntriesSplit(g, entries, ts, i);
    IsStr(ts, i, entries[0].key);
    var value := entries[0].value;
    var c := i + 2 + |Print(g, value, 0)|;
    if Bad(g, value) {
      UncleanPrintIsLossy(g, value, 0, ts, i + 2);
      LossyEntry(g, ts, i, keys);
    } else {
      ParsesBefore(g, value, 0, ts, i + 2, COMMA);
      AtFits(ts, c + 1, PrintEntries(g, entries[1..]));
      UncleanEntriesAreLossy(g, entries[1..], ts, c + 1, keys + {entries[0].key});
      LossyEntryTail(g, ts, i, keys, value, c);
    }
  }

  lemma AtFits(ts: seq<Token>, i: int, lexemes: seq<Lexeme>)
    requires At(ts, i, lexemes)
    ensures 0 <= i && i + |lexemes| < |ts|
  {
  }

  lemma IsStr(ts: seq<Token>, i: int, text: Text)
    requires Is(ts, i, Lexeme(Str, text))
    ensures 0 <= i < |ts| && ts[i].kind == Str && ts[i].value == text
  {
  }

  lemma LossyEntry(g: Grammar, ts: seq<Token>, i: int, keys: set<Text>)
    requires Ended(ts) && 0 <= i && LossyAt(g, ts, i + 2, 0) && ts[i].kind == Str
    ensures LossyEntries(Entries(g, ts, i, keys), ts, i)
  {
    hide Parse;
    var r := Entries(g, ts, i, keys);
    if r.Ok? {
      var (value, j) := Parse(g, ts, i + 2, 0).value;
      var head := Entry(ts[i].value, value);
      assert EntryStrings([head]) == 1 + Strings(value);
      TokensSplit(ts, i, i + 1, j);
      TokensSplit(ts, i + 1, i + 2, j);
      if ts[j].value == COMMA {
        EntriesAreThrifty(g, ts, j + 1, keys + {ts[i].value});
        var tail := Entries(g, ts, j + 1, keys + {ts[i].value}).value;
        assert ([head] + tail.0)[1..] == tail.0;
        TokensSplit(ts, i, j, tail.1);
      }
    }
  }

  lemma LossyEntryTail(g: Grammar, ts: seq<Token>, i: int, keys: set<Text>, value: Expr, c: int)
    requires Parses(g, ts, i + 2, 0, value, c) && 0 <= i && ts[i].kind == Str && Is(ts, c, Mark(COMMA)) && c + 1 < |ts|
    requires LossyEntries(Entries(g, ts, c + 1, keys + {ts[i].value}), ts, c + 1)
    ensures LossyEntries(Entries(g, ts, i, keys), ts, i)
  {
    ParseIsThrifty(g, ts, i + 2, 0);
    var r := Entries(g, ts, i, keys);
    if r.Ok? {
      var tail := Entries(g, ts, c + 1, keys + {ts[i].value}).value;
      assert ([Entry(ts[i].value, value)] + tail.0)[1..] == tail.0;
      TokensSplit(ts, i, i + 1, c);
      TokensSplit(ts, i + 1, i + 2, c);
      TokensSplit(ts, i, c, tail.1);
    }
  }

  // ---------------------------------------------------------------------------------------------
  // The theorem
  // ---------------------------------------------------------------------------------------------

  /** The tokens are the printed expression and eof. */
  ghost predicate PrintedTokens(g: Grammar, e: Expr, ts: seq<Token>) {
    Ended(ts) && At(ts, 0, Print(g, e, 0)) && |ts| == |Print(g, e, 0)| + 1
  }

  /**
   * Printing with the fewest parentheses and parsing gives the expression back exactly when no array
   * begins with the string "]" and no object's first key is "}", anywhere inside it.
   */
  lemma RoundTripExactlyWhenClean(g: Grammar, e: Expr, ts: seq<Token>)
    requires Usable(g) && Printable(g, e) && PrintedTokens(g, e, ts)
    ensures ParseAll(g, ts) == Ok(e) <==> Clean(g, e)
  {
    hide Print, Parse, Printable, Clean, Strings, StringTokens, At;
    PrintedEnds(g, e, ts);
    if Clean(g, e) {
      PrintParses(g, e, 0, ts, 0);
    } else {
      UncleanPrintIsLossy(g, e, 0, ts, 0);
      PrintedStrings(g, e, 0, ts, 0);
    }
  }

  lemma PrintedEnds(g: Grammar, e: Expr, ts: seq<Token>)
    requires PrintedTokens(g, e, ts)
    ensures var end := |Print(g, e, 0)|;
            end < |ts| && ts[end].kind == Eof && Stops(ts[end], 0) && forall k :: 0 <= k < |ts| && ts[k].kind == Eof ==> k == end
  {
    hide Print;
    TextsDiffer();
  }
}

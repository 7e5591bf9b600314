/** Every word of the source stands in the expression. */
module CelWords {
  // packages/model-option-map/src/parser.ts: a parse drops the marks of the grammar and keeps everything else, in order.

  import opened Outcomes
  import opened Texts
  import opened CelTokens
  import opened CelParser
  import opened CelPrinter

  /** ( ) [ ] { } , : ? by their text, as the parser compares them. */
  predicate IsMark(value: Text) {
    || value == [40] || value == [41] || value == [91] || value == [93] || value == [123] || value == [125]
    || value == [44] || value == [58] || value == [63]
  }

  function Word(kind: Kind, value: Text): seq<Lexeme> {
    if IsMark(value) then [] else [Lexeme(kind, value)]
  }

  /** The tokens from `i` up to `j` without the marks. */
  function Words(ts: seq<Token>, i: int, j: int): seq<Lexeme>
    requires 0 <= i <= j <= |ts|
    decreases j - i
  {
    if i == j then [] else Word(ts[i].kind, ts[i].value) + Words(ts, i + 1, j)
  }

  /** The words an expression is made of, from left to right. */
  function Content(g: Grammar, e: Expr): seq<Lexeme>
    decreases e
  {
    match e
    case NullLiteral => Word(Identifier, [110, 117, 108, 108])
    case BoolLiteral(flag) => Word(Identifier, if flag then [116, 114, 117, 101] else [102, 97, 108, 115, 101])
    case NumberLiteral(number) => Word(Number, number)
    case StringLiteral(text) => Word(Str, text)
    case Input => Word(Identifier, g.variableName)
    case ArrayLiteral(elements) => ElementsContent(g, elements)
    case ObjectLiteral(entries) => EntriesContent(g, entries)
    case Unary(operator, operand) => Word(Operator, operator) + Content(g, operand)
    case Binary(operator, left, right) => Content(g, left) + Word(Operator, operator) + Content(g, right)
    case Conditional(condition, whenTrue, whenFalse) => Content(g, condition) + Content(g, whenTrue) + Content(g, whenFalse)
  }

  function ElementsContent(g: Grammar, elements: seq<Expr>): seq<Lexeme>
    decreases elements
  {
    if elements == [] then [] else Content(g, elements[0]) + ElementsContent(g, elements[1..])
  }

  function EntriesContent(g: Grammar, entries: seq<Entry>): seq<Lexeme>
    decreases entries
  {
    if entries == [] then [] else Word(Str, entries[0].key) + Content(g, entries[0].value) + EntriesContent(g, entries[1..])
  }

  // ---------------------------------------------------------------------------------------------
  // Pieces of the token list and their words
  // ---------------------------------------------------------------------------------------------

  /** The words from `i` up to `j`. */
  ghost predicate Span(ts: seq<Token>, i: int, j: int, words: seq<Lexeme>) {
    0 <= i <= j <= |ts| && Words(ts, i, j) == words
  }

  lemma {:induction false} SpanJoin(ts: seq<Token>, i: int, j: int, k: int, a: seq<Lexeme>, b: seq<Lexeme>)
    requires Span(ts, i, j, a) && Span(ts, j, k, b)
    ensures Span(ts, i, k, a + b)
    decreases j - i
  {
    if i == j {
      assert a + b == b;
    } else {
      var first := Word(ts[i].kind, ts[i].value);
      var rest := Words(ts, i + 1, j);
      SpanJoin(ts, i + 1, j, k, rest, b);
      JoinWords(first, rest, b);
    }
  }

  lemma JoinWords(a: seq<Lexeme>, b: seq<Lexeme>, c: seq<Lexeme>)
    ensures a + b + c == a + (b + c)
  {
  }

  lemma SpanWord(ts: seq<Token>, i: int)
    requires 0 <= i < |ts|
    ensures Span(ts, i, i + 1, Word(ts[i].kind, ts[i].value))
  {
    assert Words(ts, i + 1, i + 1) == [];
  }

  lemma SpanMark(ts: seq<Token>, i: int)
    requires 0 <= i < |ts| && IsMark(ts[i].value)
    ensures Span(ts, i, i + 1, [])
  {
    SpanWord(ts, i);
  }

  /** Two pieces with a mark between them. */
  lemma SpanAcross(ts: seq<Token>, i: int, j: int, k: int, a: seq<Lexeme>, b: seq<Lexeme>)
    requires Span(ts, i, j, a) && j < |ts| && IsMark(ts[j].value) && Span(ts, j + 1, k, b)
    ensures Span(ts, i, k, a + b)
  {
    hide Words, IsMark;
    SpanMark(ts, j);
    SpanJoin(ts, j, j + 1, k, [], b);
    assert [] + b == b;
    SpanJoin(ts, i, j, k, a, b);
  }

  lemma SpanEnclosed(ts: seq<Token>, i: int, j: int, a: seq<Lexeme>)
    requires 0 <= i < j < |ts| && IsMark(ts[i].value) && IsMark(ts[j].value) && Span(ts, i + 1, j, a)
    ensures Span(ts, i, j + 1, a)
  {
    hide Words, IsMark;
    SpanMark(ts, i);
    SpanMark(ts, j);
    SpanJoin(ts, i, i + 1, j, [], a);
    assert [] + a == a && a + [] == a;
    SpanJoin(ts, i, j, j + 1, a, []);
  }

  lemma MarksAre()
    ensures IsMark(LPAREN) && IsMark(RPAREN) && IsMark(LBRACKET) && IsMark(RBRACKET) && IsMark(LBRACE) && IsMark(RBRACE)
    ensures IsMark(COMMA) && IsMark(COLON) && IsMark(QUESTION)
  {
  }

  // ---------------------------------------------------------------------------------------------
  // What a parse consumed is what it holds
  // ---------------------------------------------------------------------------------------------

  ghost predicate Tells(g: Grammar, r: Parsed, ts: seq<Token>, i: int) {
    r.Ok? ==> Span(ts, i, r.value.1, Content(g, r.value.0))
  }

  lemma {:induction false} ParseTells(g: Grammar, ts: seq<Token>, i: nat, level: nat)
    requires Ended(ts) && i < |ts| && level <= 8
    ensures Tells(g, Parse(g, ts, i, level), ts, i)
    decreases |ts| - i, 0, 9 - level
  {
    hide Span, Content;
    if level == 0 {
      ParseTells(g, ts, i, 1);
      ConditionalTells(g, ts, i, Parse(g, ts, i, 1));
    } else if level <= 6 {
      ParseTells(g, ts, i, level + 1);
      var left := Parse(g, ts, i, level + 1);
      if left.Ok? {
        FoldTells(g, ts, i, left.value.1, level, left.value.0);
      }
    } else if level == 7 {
      if ts[i].kind == Operator && IsUnary(ts[i].value) {
        ParseTells(g, ts, i + 1, 7);
        PrefixTells(g, ts, i);
      } else {
        ParseTells(g, ts, i, 8);
      }
    } else {
      PrimaryTells(g, ts, i);
    }
  }

  lemma PrefixTells(g: Grammar, ts: seq<Token>, i: nat)
    requires Ended(ts) && i + 1 < |ts| && ts[i].kind == Operator && IsUnary(ts[i].value)
    requires Tells(g, Parse(g, ts, i + 1, 7), ts, i + 1)
    ensures Tells(g, Parse(g, ts, i, 7), ts, i)
  {
    hide Span, Word;
    var r := Parse(g, ts, i + 1, 7);
    if r.Ok? {
      SpanWord(ts, i);
      SpanJoin(ts, i, i + 1, r.value.1, Word(Operator, ts[i].value), Content(g, r.value.0));
    }
  }

  lemma {:induction false} ConditionalTells(g: Grammar, ts: seq<Token>, i: nat, condition: Parsed)
    requires Ended(ts) && i < |ts| && (condition.Ok? ==> i < condition.value.1 < |ts|) && Tells(g, condition, ts, i)
    ensures Tells(g, ParseConditional(g, ts, i, condition), ts, i)
    decreases |ts| - i, 0, 7
  {
    hide Parse, Span, Content, IsMark;
    var r := ParseConditional(g, ts, i, condition);
    if condition.Ok? && r.Ok? && ts[condition.value.1].value == QUESTION {
      var j := condition.value.1;
      ParseTells(g, ts, j + 1, 0);
      var (t, k) := Parse(g, ts, j + 1, 0).value;
      ParseTells(g, ts, k + 1, 0);
      var (f, n) := Parse(g, ts, k + 1, 0).value;
      MarksAre();
      SpanAcross(ts, i, j, k, Content(g, condition.value.0), Content(g, t));
      SpanAcross(ts, i, k, n, Content(g, condition.value.0) + Content(g, t), Content(g, f));
      ConditionalContent(g, r.value.0);
    }
  }

  lemma ConditionalContent(g: Grammar, e: Expr)
    requires e.Conditional?
    ensures Content(g, e) == Content(g, e.condition) + Content(g, e.whenTrue) + Content(g, e.whenFalse)
  {
  }

  lemma BinaryContent(g: Grammar, operator: Text, left: Expr, right: Expr)
    ensures Content(g, Binary(operator, left, right)) == Content(g, left) + Word(Operator, operator) + Content(g, right)
  {
  }

  /** With the left operand from `from` up to the operator. */
  lemma {:induction false} FoldTells(g: Grammar, ts: seq<Token>, from: nat, i: nat, level: nat, left: Expr)
    requires Ended(ts) && i < |ts| && 1 <= level <= 6 && Span(ts, from, i, Content(g, left))
    ensures Tells(g, Fold(g, ts, i, level, left), ts, from)
    decreases |ts| - i, 1, 0
  {
    hide Parse, LevelOf, Span, Content, Word;
    if ts[i].kind == Operator && LevelOf(ts[i].value) == level {
      ParseTells(g, ts, i + 1, level + 1);
      var right := Parse(g, ts, i + 1, level + 1);
      if right.Ok? {
        var (e, j) := right.value;
        SpanWord(ts, i);
        SpanJoin(ts, from, i, i + 1, Content(g, left), Word(Operator, ts[i].value));
        SpanJoin(ts, from, i + 1, j, Content(g, left) + Word(Operator, ts[i].value), Content(g, e));
        BinaryContent(g, ts[i].value, left, e);
        FoldTells(g, ts, from, j, level, Binary(ts[i].value, left, e));
      }
    }
  }

  lemma {:induction false} PrimaryTells(g: Grammar, ts: seq<Token>, i: nat)
    requires Ended(ts) && i < |ts|
    ensures Tells(g, Primary(g, ts, i), ts, i)
    decreases |ts| - i, 0, 0
  {
    if ts[i].kind == Operator || ts[i].kind == Punctuation {
      hide Parse, Elements, Entries, Span, Content, IsMark;
      MarksAre();
      if ts[i].value == LPAREN {
        ParseTells(g, ts, i + 1, 0);
        ParenTells(g, ts, i);
      } else if ts[i].value == LBRACKET {
        if ts[i + 1].value != RBRACKET {
          ElementsTell(g, ts, i + 1);
        }
        ArrayTells(g, ts, i);
      } else if ts[i].value == LBRACE {
        if ts[i + 1].value != RBRACE {
          EntriesTell(g, ts, i + 1, {});
        }
        ObjectTells(g, ts, i);
      }
    } else {
      SpanWord(ts, i);
      hide Span, Word, Parse, Elements, Entries;
    }
  }

  lemma ParenTells(g: Grammar, ts: seq<Token>, i: nat)
    requires Ended(ts) && i + 1 < |ts| && (ts[i].kind == Operator || ts[i].kind == Punctuation) && ts[i].value == LPAREN
    requires Tells(g, Parse(g, ts, i + 1, 0), ts, i + 1)
    ensures Tells(g, Primary(g, ts, i), ts, i)
  {
    hide Parse, Span, Content, IsMark;
    MarksAre();
    var r := Parse(g, ts, i + 1, 0);
    if r.Ok? && ts[r.value.1].value == RPAREN {
      SpanEnclosed(ts, i, r.value.1, Content(g, r.value.0));
    }
  }

  lemma ArrayTells(g: Grammar, ts: seq<Token>, i: nat)
    requires Ended(ts) && i + 1 < |ts| && (ts[i].kind == Operator || ts[i].kind == Punctuation) && ts[i].value == LBRACKET
    requires ts[i + 1].value != RBRACKET ==> ElementsTold(g, ts, i + 1)
    ensures Tells(g, Primary(g, ts, i), ts, i)
  {
    hide Elements, Span, IsMark;
    TextsDiffer();
    MarksAre();
    if ts[i + 1].value == RBRACKET {
      SpanNothing(ts, i + 1);
      SpanEnclosed(ts, i, i + 1, []);
    } else {
      var r := Elements(g, ts, i + 1);
      if r.Ok? && ts[r.value.1].value == RBRACKET {
        SpanEnclosed(ts, i, r.value.1, ElementsContent(g, r.value.0));
      }
    }
  }

  lemma SpanNothing(ts: seq<Token>, i: int)
    requires 0 <= i <= |ts|
    ensures Span(ts, i, i, [])
  {
  }

  lemma ObjectTells(g: Grammar, ts: seq<Token>, i: nat)
    requires Ended(ts) && i + 1 < |ts| && (ts[i].kind == Operator || ts[i].kind == Punctuation) && ts[i].value == LBRACE
    requires ts[i + 1].value != RBRACE ==> EntriesTold(g, ts, i + 1, {})
    ensures Tells(g, Primary(g, ts, i), ts, i)
  {
    hide Entries, Span, IsMark;
    TextsDiffer();
    MarksAre();
    if ts[i + 1].value == RBRACE {
      SpanNothing(ts, i + 1);
      SpanEnclosed(ts, i, i + 1, []);
    } else {
      var r := Entries(g, ts, i + 1, {});
      if r.Ok? && ts[r.value.1].value == RBRACE {
        SpanEnclosed(ts, i, r.value.1, EntriesContent(g, r.value.0));
      }
    }
  }

  ghost predicate ElementsTold(g: Grammar, ts: seq<Token>, i: nat)
    requires Ended(ts) && i < |ts|
  {
    var r := Elements(g, ts, i);
    r.Ok? ==> Span(ts, i, r.value.1, ElementsContent(g, r.value.0))
  }

  lemma {:induction false} ElementsTell(g: Grammar, ts: seq<Token>, i: nat)
    requires Ended(ts) && i < |ts|
    ensures ElementsTold(g, ts, i)
    decreases |ts| - i, 1, 0
  {
    hide Parse, Content, Span, IsMark, ElementsContent;
    ParseTells(g, ts, i, 0);
    var head := Parse(g, ts, i, 0);
    if head.Ok? {
      var (e, j) := head.value;
      ElementsOneMore(g, e, []);
      if ts[j].value == COMMA {
        ElementsTell(g, ts, j + 1);
        var tail := Elements(g, ts, j + 1);
        if tail.Ok? {
          MarksAre();
          SpanAcross(ts, i, j, tail.value.1, Content(g, e), ElementsContent(g, tail.value.0));
          ElementsOneMore(g, e, tail.value.0);
        }
      }
    }
  }

  lemma ElementsOneMore(g: Grammar, head: Expr, tail: seq<Expr>)
    ensures ElementsContent(g, [head] + tail) == Content(g, head) + ElementsContent(g, tail)
    ensures ElementsContent(g, [head]) == Content(g, head)
  {
    assert ([head] + tail)[1..] == tail && [head][1..] == [];
  }

  ghost predicate EntriesTold(g: Grammar, ts: seq<Token>, i: nat, keys: set<Text>)
    requires Ended(ts) && i < |ts|
  {
    var r := Entries(g, ts, i, keys);
    r.Ok? ==> Span(ts, i, r.value.1, EntriesContent(g, r.value.0))
  }

  lemma {:induction false} EntriesTell(g: Grammar, ts: seq<Token>, i: nat, keys: set<Text>)
    requires Ended(ts) && i < |ts|
    ensures EntriesTold(g, ts, i, keys)
    decreases |ts| - i, 1, 0
  {
    hide Parse, Content, Span, IsMark, EntriesContent, Word;
    if Entries(g, ts, i, keys).Ok? {
      ParseTells(g, ts, i + 2, 0);
      var (value, j) := Parse(g, ts, i + 2, 0).value;
      var head := Entry(ts[i].value, value);
      MarksAre();
      SpanWord(ts, i);
      SpanAcross(ts, i, i + 1, j, Word(Str, ts[i].value), Content(g, value));
      EntriesOneMore(g, head, []);
      if ts[j].value == COMMA {
        EntriesTell(g, ts, j + 1, keys + {ts[i].value});
        var (tail, k) := Entries(g, ts, j + 1, keys + {ts[i].value}).value;
        SpanAcross(ts, i, j, k, Word(Str, ts[i].value) + Content(g, value), EntriesContent(g, tail));
        EntriesOneMore(g, head, tail);
      }
    }
  }

  lemma EntriesOneMore(g: Grammar, head: Entry, tail: seq<Entry>)
    ensures EntriesContent(g, [head] + tail) == Word(Str, head.key) + Content(g, head.value) + EntriesContent(g, tail)
    ensures EntriesContent(g, [head]) == Word(Str, head.key) + Content(g, head.value)
  {
    assert ([head] + tail)[1..] == tail && [head][1..] == [];
  }

  /** Whatever parses holds exactly the words of its tokens, in their order: none invented, lost or moved. */
  lemma EveryWordIsKept(g: Grammar, ts: seq<Token>)
    requires Ended(ts) && ParseAll(g, ts).Ok?
    ensures Content(g, ParseAll(g, ts).value) == Words(ts, 0, |ts| - 1)
  {
    hide Content, Words, Parse;
    ParseTells(g, ts, 0, 0);
  }
}

/** Prints are minimal, and the parser builds only what can be printed. */
module CelMinimality {
  import opened Outcomes
  import opened Texts
  import opened CelTokens
  import opened CelParser
  import opened CelPrinter

  /** Number tokens start with a digit. */
  ghost predicate Numbered(ts: seq<Token>) {
    forall k :: 0 <= k < |ts| && ts[k].kind == Number ==> ts[k].value != [] && 48 <= ts[k].value[0] <= 57
  }

  /** The expression can be printed, at this level within so many tokens. */
  ghost predicate Built(g: Grammar, e: Expr, level: nat, tokens: int) {
    Printable(g, e) && |Print(g, e, level)| <= tokens
  }

  /** A parse result is built of the tokens it consumed. */
  ghost predicate Builds(g: Grammar, r: Parsed, i: int, level: nat) {
    r.Ok? ==> Built(g, r.value.0, level, r.value.1 - i)
  }

  /** A looser level never needs more tokens, and brackets are all that a tighter one adds. */
  lemma LooserIsShorter(g: Grammar, e: Expr, loose: nat, tight: nat)
    requires loose <= tight
    ensures |Print(g, e, loose)| <= |Print(g, e, tight)| <= |Print(g, e, 0)| + 2
  {
  }

  lemma LooserBuilds(g: Grammar, r: Parsed, i: int, loose: nat, tight: nat)
    requires loose <= tight && Builds(g, r, i, tight)
    ensures Builds(g, r, i, loose)
  {
    if r.Ok? {
      LooserIsShorter(g, r.value.0, loose, tight);
    }
  }

  lemma {:induction false} ParseBuilds(g: Grammar, ts: seq<Token>, i: nat, level: nat)
    requires Ended(ts) && Numbered(ts) && i < |ts| && level <= 8
    ensures Builds(g, Parse(g, ts, i, level), i, level)
    decreases |ts| - i, 0, 10 - level
  {
    hide Builds, Print, Printable;
    if level == 0 {
      ParseBuilds(g, ts, i, 1);
      ConditionalBuilds(g, ts, i, Parse(g, ts, i, 1));
    } else if level <= 6 {
      ParseBuilds(g, ts, i, level + 1);
      var left := Parse(g, ts, i, level + 1);
      LooserBuilds(g, left, i, level, level + 1);
      if left.Ok? {
        BuildsUnfold(g, left, i, level);
        FoldBuilds(g, ts, i, left.value.1, level, left.value.0);
      }
      BuildsFold(g, Parse(g, ts, i, level), i, level);
    } else if level == 7 {
      if ts[i].kind == Operator && IsUnary(ts[i].value) {
        ParseBuilds(g, ts, i + 1, 7);
        UnaryBuilds(g, ts, i);
      } else {
        ParseBuilds(g, ts, i, 8);
        LooserBuilds(g, Parse(g, ts, i, 8), i, 7, 8);
      }
    } else {
      PrimaryBuilds(g, ts, i);
    }
  }

  lemma BuildsUnfold(g: Grammar, r: Parsed, i: int, level: nat)
    requires Builds(g, r, i, level) && r.Ok?
    ensures Built(g, r.value.0, level, r.value.1 - i)
  {
  }

  lemma BuildsFold(g: Grammar, r: Parsed, i: int, level: nat)
    requires r.Ok? ==> Built(g, r.value.0, level, r.value.1 - i)
    ensures Builds(g, r, i, level)
  {
  }

  lemma UnaryBuilds(g: Grammar, ts: seq<Token>, i: nat)
    requires Ended(ts) && i < |ts| && ts[i].kind == Operator && IsUnary(ts[i].value) && Builds(g, Parse(g, ts, i + 1, 7), i + 1, 7)
    ensures Builds(g, Parse(g, ts, i, 7), i, 7)
  {
    var r := Parse(g, ts, i + 1, 7);
    if r.Ok? {
      UnaryBuilt(g, ts[i].value, r.value.0, r.value.1 - i - 1);
    }
    hide Print, Printable;
  }

  lemma UnaryBuilt(g: Grammar, operator: Text, operand: Expr, tokens: int)
    requires IsUnary(operator) && Built(g, operand, 7, tokens)
    ensures Built(g, Unary(operator, operand), 7, tokens + 1)
  {
  }

  lemma BinaryBuilt(g: Grammar, operator: Text, left: Expr, right: Expr, a: int, b: int)
    requires 1 <= LevelOf(operator) && Built(g, left, LevelOf(operator), a) && Built(g, right, LevelOf(operator) + 1, b)
    ensures Built(g, Binary(operator, left, right), LevelOf(operator), a + 1 + b)
  {
    var l, r := Print(g, left, LevelOf(operator)), Print(g, right, LevelOf(operator) + 1);
    assert Raw(g, Binary(operator, left, right)) == l + [Lexeme(Operator, operator)] + r;
    assert Print(g, Binary(operator, left, right), LevelOf(operator)) == Raw(g, Binary(operator, left, right));
  }

  lemma ConditionalBuilt(g: Grammar, c: Expr, t: Expr, f: Expr, i: int, j: int, k: int)
    requires Built(g, c, 1, i) && Built(g, t, 0, j) && Built(g, f, 0, k)
    ensures Built(g, Conditional(c, t, f), 0, i + j + k + 2)
  {
  }

  lemma {:induction false} ConditionalBuilds(g: Grammar, ts: seq<Token>, i: nat, condition: Parsed)
    requires Ended(ts) && Numbered(ts) && i < |ts| && (condition.Ok? ==> i < condition.value.1 < |ts|) && Builds(g, condition, i, 1)
    ensures Builds(g, ParseConditional(g, ts, i, condition), i, 0)
    decreases |ts| - i, 0, 8
  {
    hide Print, Printable, Built;
    LooserBuilds(g, condition, i, 0, 1);
    if condition.Ok? && ts[condition.value.1].value == QUESTION {
      var j := condition.value.1;
      ParseBuilds(g, ts, j + 1, 0);
      var whenTrue := Parse(g, ts, j + 1, 0);
      if whenTrue.Ok? && ts[whenTrue.value.1].value == COLON {
        var k := whenTrue.value.1;
        ParseBuilds(g, ts, k + 1, 0);
        var whenFalse := Parse(g, ts, k + 1, 0);
        if whenFalse.Ok? {
          ConditionalBuilt(g, condition.value.0, whenTrue.value.0, whenFalse.value.0, j - i, k - j - 1, whenFalse.value.1 - k - 1);
        }
      }
    }
    hide Parse;
  }

  lemma {:induction false} FoldBuilds(g: Grammar, ts: seq<Token>, from: nat, i: nat, level: nat, left: Expr)
    requires Ended(ts) && Numbered(ts) && from <= i < |ts| && 1 <= level <= 6 && Built(g, left, level, i - from)
    ensures var r := Fold(g, ts, i, level, left); r.Ok? ==> Built(g, r.value.0, level, r.value.1 - from)
    decreases |ts| - i, 1, 0
  {
    hide Built, LevelOf;
    if ts[i].kind == Operator && LevelOf(ts[i].value) == level {
      ParseBuilds(g, ts, i + 1, level + 1);
      var right := Parse(g, ts, i + 1, level + 1);
      if right.Ok? {
        var (e, j) := right.value;
        BinaryBuilt(g, ts[i].value, left, e, i - from, j - i - 1);
        FoldBuilds(g, ts, from, j, level, Binary(ts[i].value, left, e));
      }
    }
  }

  lemma {:induction false} PrimaryBuilds(g: Grammar, ts: seq<Token>, i: nat)
    requires Ended(ts) && Numbered(ts) && i < |ts|
    ensures Builds(g, Primary(g, ts, i), i, 8)
    decreases |ts| - i, 0, 1
  {
    var token := ts[i];
    if token.kind != Operator && token.kind != Punctuation {
      LiteralBuilds(g, ts, i);
    } else {
      hide Print, Printable, Parse, Builds;
      TextsDiffer();
      if token.value == LPAREN {
        ParseBuilds(g, ts, i + 1, 0);
        ParenBuilds(g, ts, i);
      } else if token.value == LBRACKET {
        ArrayBuilds(g, ts, i);
      } else if token.value == LBRACE {
        ObjectBuilds(g, ts, i);
      } else {
        BuildsFold(g, Primary(g, ts, i), i, 8);
      }
    }
  }

  lemma LiteralBuilds(g: Grammar, ts: seq<Token>, i: nat)
    requires Ended(ts) && Numbered(ts) && i < |ts| && ts[i].kind != Operator && ts[i].kind != Punctuation
    ensures Builds(g, Primary(g, ts, i), i, 8)
  {
  }

  lemma ParenBuilds(g: Grammar, ts: seq<Token>, i: nat)
    requires Ended(ts) && i < |ts| && (ts[i].kind == Operator || ts[i].kind == Punctuation) && ts[i].value == LPAREN
    requires Builds(g, Parse(g, ts, i + 1, 0), i + 1, 0)
    ensures Builds(g, Primary(g, ts, i), i, 8)
  {
    var inner := Parse(g, ts, i + 1, 0);
    if inner.Ok? {
      LooserIsShorter(g, inner.value.0, 0, 8);
    }
    hide Print, Printable, Parse;
  }

  lemma {:induction false} ArrayBuilds(g: Grammar, ts: seq<Token>, i: nat)
    requires Ended(ts) && Numbered(ts) && i < |ts| && (ts[i].kind == Operator || ts[i].kind == Punctuation) && ts[i].value == LBRACKET
    ensures Builds(g, Primary(g, ts, i), i, 8)
    decreases |ts| - i, 0, 0
  {
    hide Parse;
    TextsDiffer();
    if ts[i + 1].value != RBRACKET {
      ElementsBuild(g, ts, i + 1);
    }
    hide Printable, PrintElements;
    ArrayBuilt(g, []);
    var r := Primary(g, ts, i);
    if r.Ok? && ts[i + 1].value != RBRACKET {
      ArrayBuilt(g, Elements(g, ts, i + 1).value.0);
    }
  }

  lemma ArrayBuilt(g: Grammar, elements: seq<Expr>)
    ensures (forall e :: e in elements ==> Printable(g, e)) ==>
              Printable(g, ArrayLiteral(elements)) && |Print(g, ArrayLiteral(elements), 8)| == |PrintElements(g, elements)| + 2
    ensures PrintElements(g, []) == []
  {
  }

  /** Elements that can be printed within so many tokens. */
  ghost predicate ElementsBuilt(g: Grammar, elements: seq<Expr>, tokens: int) {
    |PrintElements(g, elements)| <= tokens && forall e :: e in elements ==> Printable(g, e)
  }

  lemma {:induction false} ElementsBuild(g: Grammar, ts: seq<Token>, i: nat)
    requires Ended(ts) && Numbered(ts) && i < |ts|
    ensures var r := Elements(g, ts, i); r.Ok? ==> ElementsBuilt(g, r.value.0, r.value.1 - i)
    decreases |ts| - i, 1, 0
  {
    hide ElementsBuilt, Built, Print, Printable;
    ParseBuilds(g, ts, i, 0);
    var head := Parse(g, ts, i, 0);
    if head.Ok? {
      var (e, j) := head.value;
      OneElement(g, e, j - i);
      if ts[j].value == COMMA {
        ElementsBuild(g, ts, j + 1);
        var tail := Elements(g, ts, j + 1);
        if tail.Ok? {
          ElementsCons(g, e, tail.value.0, j - i, tail.value.1 - j - 1);
        }
      }
    }
    hide Parse;
  }

  lemma OneElement(g: Grammar, e: Expr, tokens: int)
    ensures Built(g, e, 0, tokens) ==> ElementsBuilt(g, [e], tokens)
  {
  }

  lemma ElementsCons(g: Grammar, head: Expr, tail: seq<Expr>, a: int, b: int)
    requires Built(g, head, 0, a) && ElementsBuilt(g, tail, b)
    ensures ElementsBuilt(g, [head] + tail, a + 1 + b)
  {
    assert ([head] + tail)[1..] == tail;
    hide Print, Printable;
  }

  lemma {:induction false} ObjectBuilds(g: Grammar, ts: seq<Token>, i: nat)
    requires Ended(ts) && Numbered(ts) && i < |ts| && (ts[i].kind == Operator || ts[i].kind == Punctuation) && ts[i].value == LBRACE
    ensures Builds(g, Primary(g, ts, i), i, 8)
    decreases |ts| - i, 0, 0
  {
    hide Parse;
    TextsDiffer();
    if ts[i + 1].value != RBRACE {
      EntriesBuild(g, ts, i + 1, {});
    }
    hide Printable, PrintEntries, Fresh;
    ObjectBuilt(g, []);
    var r := Primary(g, ts, i);
    if r.Ok? && ts[i + 1].value != RBRACE {
      ObjectBuilt(g, Entries(g, ts, i + 1, {}).value.0);
    }
  }

  /** Printable values under distinct keys, none among those already seen. */
  ghost predicate Fresh(g: Grammar, entries: seq<Entry>, keys: set<Text>) {
    && (forall k :: 0 <= k < |entries| ==> Printable(g, entries[k].value) && entries[k].key !in keys)
    && (forall k, n :: 0 <= k < n < |entries| ==> entries[k].key != entries[n].key)
  }

  lemma ObjectBuilt(g: Grammar, entries: seq<Entry>)
    ensures Fresh(g, entries, {}) ==>
              Printable(g, ObjectLiteral(entries)) && |Print(g, ObjectLiteral(entries), 8)| == |PrintEntries(g, entries)| + 2
    ensures PrintEntries(g, []) == [] && Fresh(g, [], {})
  {
  }

  /** Entries that can be printed within so many tokens, under keys not seen. */
  ghost predicate EntriesBuilt(g: Grammar, entries: seq<Entry>, keys: set<Text>, tokens: int) {
    |PrintEntries(g, entries)| <= tokens && Fresh(g, entries, keys)
  }

  lemma {:induction false} EntriesBuild(g: Grammar, ts: seq<Token>, i: nat, keys: set<Text>)
    requires Ended(ts) && Numbered(ts) && i < |ts|
    ensures var r := Entries(g, ts, i, keys); r.Ok? ==> EntriesBuilt(g, r.value.0, keys, r.value.1 - i)
    decreases |ts| - i, 1, 0
  {
    hide EntriesBuilt, Built, Print, Printable;
    if Entries(g, ts, i, keys).Ok? {
      ParseBuilds(g, ts, i + 2, 0);
      var (value, j) := Parse(g, ts, i + 2, 0).value;
      var head := Entry(ts[i].value, value);
      OneEntry(g, head, keys, j - i - 2);
      if ts[j].value == COMMA {
        EntriesBuild(g, ts, j + 1, keys + {head.key});
        var (tail, k) := Entries(g, ts, j + 1, keys + {head.key}).value;
        EntriesCons(g, head, tail, keys, j - i - 2, k - j - 1);
      }
    }
    hide Parse;
  }

  lemma OneEntry(g: Grammar, head: Entry, keys: set<Text>, tokens: int)
    requires head.key !in keys
    ensures Built(g, head.value, 0, tokens) ==> EntriesBuilt(g, [head], keys, tokens + 2)
  {
    hide Print, Printable, PrintEntries;
    EntriesUnfold(g, [head]);
  }

  lemma EntriesCons(g: Grammar, head: Entry, tail: seq<Entry>, keys: set<Text>, a: int, b: int)
    requires head.key !in keys && Built(g, head.value, 0, a) && EntriesBuilt(g, tail, keys + {head.key}, b)
    ensures EntriesBuilt(g, [head] + tail, keys, a + 3 + b)
  {
    hide Print, Printable, PrintEntries;
    assert ([head] + tail)[1..] == tail;
    EntriesUnfold(g, [head] + tail);
  }

  /** Whatever the parser returns can be printed. */
  lemma ParsedIsPrintable(g: Grammar, ts: seq<Token>)
    requires Ended(ts) && Numbered(ts) && ParseAll(g, ts).Ok?
    ensures Printable(g, ParseAll(g, ts).value)
  {
    ParseBuilds(g, ts, 0, 0);
  }

  /** The print is minimal: no token list for the expression, its end included, is shorter. */
  lemma NoShorterTokens(g: Grammar, ts: seq<Token>)
    requires Ended(ts) && Numbered(ts) && ParseAll(g, ts).Ok?
    ensures |Print(g, ParseAll(g, ts).value, 0)| + 1 <= |ts|
  {
    ParseBuilds(g, ts, 0, 0);
  }
}

/** The parser, by recursive descent, of packages/model-option-map/src/parser.ts: nine levels. */
module CelParser {
  import opened Outcomes
  import opened Texts
  import opened CelTokens

  /** The variable a map may name, and which number literals are JSON-safe. */
  datatype Grammar = Grammar(variableName: Text, jsonSafe: Text -> bool)

  type Parsed = Result<(Expr, nat), CelError>

  /** What the tokenizer guarantees and the parser relies on: one token of kind eof, last and without text. */
  predicate Ended(ts: seq<Token>) {
    && ts != [] && ts[|ts| - 1].kind == Eof && ts[|ts| - 1].value == []
    && forall k :: 0 <= k < |ts| && ts[k].kind == Eof ==> k == |ts| - 1
  }

  function Fail<T>(kind: ErrorKind, token: Token): Result<T, CelError> {
    Err(CelError(kind, token.offset))
  }

  /**
   * The grammar level by level: 0 conditional, 1 to 6 the binary levels, 7 unary, 8 primary.
   * The result is the expression and the index of the next token.
   */
  function Parse(g: Grammar, ts: seq<Token>, i: nat, level: nat): (r: Parsed)
    requires Ended(ts) && i < |ts| && level <= 8
    ensures r.Ok? ==> i < r.value.1 < |ts|
    decreases |ts| - i, 0, 9 - level
  {
    if level == 0 then ParseConditional(g, ts, i, Parse(g, ts, i, 1))
    else if level <= 6 then
      match Parse(g, ts, i, level + 1)
      case Err(e) => Err(e)
      case Ok((left, j)) => Fold(g, ts, j, level, left)
    else if level == 7 then
      if ts[i].kind == Operator && IsUnary(ts[i].value) then
        match Parse(g, ts, i + 1, 7)
        case Err(e) => Err(e)
        case Ok((operand, j)) => Ok((Unary(ts[i].value, operand), j))
      else Parse(g, ts, i, 8)
    else Primary(g, ts, i)
  }

  /** After the condition: `?`, a conditional, `:`, a conditional; or nothing. */
  function ParseConditional(g: Grammar, ts: seq<Token>, i: nat, condition: Parsed): (r: Parsed)
    requires Ended(ts) && i < |ts|
    requires condition.Ok? ==> i < condition.value.1 < |ts|
    ensures r.Ok? ==> i < r.value.1 < |ts|
    decreases |ts| - i, 0, 7
  {
    match condition
    case Err(e) => Err(e)
    case Ok((c, j)) =>
      if ts[j].value != QUESTION then Ok((c, j))
      else
        match Parse(g, ts, j + 1, 0)
        case Err(e) => Err(e)
        case Ok((t, k)) =>
          if ts[k].value != COLON then Fail(Expected(COLON), ts[k])
          else
            match Parse(g, ts, k + 1, 0)
            case Err(e) => Err(e)
            case Ok((f, n)) => Ok((Conditional(c, t, f), n))
  }

  /** The loop of `parseBinary`: operators of one level, folded to the left. */
  function Fold(g: Grammar, ts: seq<Token>, i: nat, level: nat, left: Expr): (r: Parsed)
    requires Ended(ts) && i < |ts| && 1 <= level <= 6
    ensures r.Ok? ==> i <= r.value.1 < |ts|
    decreases |ts| - i, 1, 0
  {
    if ts[i].kind == Operator && LevelOf(ts[i].value) == level then
      match Parse(g, ts, i + 1, level + 1)
      case Err(e) => Err(e)
      case Ok((right, j)) => Fold(g, ts, j, level, Binary(ts[i].value, left, right))
    else Ok((left, i))
  }

  function Primary(g: Grammar, ts: seq<Token>, i: nat): (r: Parsed)
    requires Ended(ts) && i < |ts|
    ensures r.Ok? ==> i < r.value.1 < |ts|
    decreases |ts| - i, 0, 0
  {
    var token := ts[i];
    match token.kind
    case Eof => Fail(UnexpectedToken, token)
    case Number =>
      if g.jsonSafe(token.value) then Step(NumberLiteral(token.value), ts, i) else Fail(NumberNotSafe, token)
    case Str => Step(StringLiteral(token.value), ts, i)
    case Identifier =>
      if ts[i + 1].value == LPAREN then Fail(FunctionCall, ts[i + 1])
      else if token.value == g.variableName then Step(Input, ts, i)
      else if token.value == TRUE then Step(BoolLiteral(true), ts, i)
      else if token.value == FALSE then Step(BoolLiteral(false), ts, i)
      else if token.value == NULL then Step(NullLiteral, ts, i)
      else Fail(UnknownIdentifier, token)
    case _ =>
      if token.value == LPAREN then
        match Parse(g, ts, i + 1, 0)
        case Err(e) => Err(e)
        case Ok((inner, j)) => if ts[j].value == RPAREN then Ok((inner, j + 1)) else Fail(Expected(RPAREN), ts[j])
      else if token.value == LBRACKET then
        if ts[i + 1].value == RBRACKET then Ok((ArrayLiteral([]), i + 2))
        else
          match Elements(g, ts, i + 1)
          case Err(e) => Err(e)
          case Ok((elements, j)) =>
            if ts[j].value == RBRACKET then Ok((ArrayLiteral(elements), j + 1)) else Fail(Expected(RBRACKET), ts[j])
      else if token.value == LBRACE then
        if ts[i + 1].value == RBRACE then Ok((ObjectLiteral([]), i + 2))
        else
          match Entries(g, ts, i + 1, {})
          case Err(e) => Err(e)
          case Ok((entries, j)) =>
            if ts[j].value == RBRACE then Ok((ObjectLiteral(entries), j + 1)) else Fail(Expected(RBRACE), ts[j])
      else Fail(UnexpectedToken, token)
  }

  /** A one-token expression. */
  function Step(e: Expr, ts: seq<Token>, i: nat): (r: Parsed)
    requires Ended(ts) && i < |ts| && ts[i].kind != Eof
    ensures r == Ok((e, i + 1)) && i + 1 < |ts|
  {
    Ok((e, i + 1))
  }

  /** One or more elements separated by commas. */
  function Elements(g: Grammar, ts: seq<Token>, i: nat): (r: Result<(seq<Expr>, nat), CelError>)
    requires Ended(ts) && i < |ts|
    ensures r.Ok? ==> i < r.value.1 < |ts|
    decreases |ts| - i, 1, 0
  {
    match Parse(g, ts, i, 0)
    case Err(e) => Err(e)
    case Ok((head, j)) =>
      if ts[j].value != COMMA then Ok(([head], j))
      else
        match Elements(g, ts, j + 1)
        case Err(e) => Err(e)
        case Ok((tail, k)) => Ok(([head] + tail, k))
  }

  /** One or more `key: value` entries separated by commas, no key among those already seen. */
  function Entries(g: Grammar, ts: seq<Token>, i: nat, keys: set<Text>): (r: Result<(seq<Entry>, nat), CelError>)
    requires Ended(ts) && i < |ts|
    ensures r.Ok? ==> i < r.value.1 < |ts|
    decreases |ts| - i, 1, 0
  {
    if ts[i].kind != Str then Fail(KeyNotString, ts[i])
    else if ts[i].value in keys then Fail(DuplicateKey, ts[i])
    else if ts[i + 1].value != COLON then Fail(Expected(COLON), ts[i + 1])
    else
      match Parse(g, ts, i + 2, 0)
      case Err(e) => Err(e)
      case Ok((value, j)) =>
        var head := Entry(ts[i].value, value);
        if ts[j].value != COMMA then Ok(([head], j))
        else
          match Entries(g, ts, j + 1, keys + {ts[i].value})
          case Err(e) => Err(e)
          case Ok((tail, k)) => Ok(([head] + tail, k))
  }

  /** `parse`: one conditional, then eof. */
  function ParseAll(g: Grammar, ts: seq<Token>): Result<Expr, CelError>
    requires Ended(ts)
  {
    match Parse(g, ts, 0, 0)
    case Err(e) => Err(e)
    case Ok((e, j)) =>
      if ts[j].kind == Eof then Ok(e)
      else if ts[j].value == DOT then Fail(MemberAccess, ts[j])
      else if ts[j].value == LPAREN then Fail(FunctionCall, ts[j])
      else Fail(UnexpectedToken, ts[j])
  }

  /** The parser object: a cursor over the tokens, moved by every method. */
  class Parser {
    const g: Grammar
    const tokens: seq<Token>
    var index: nat

    ghost predicate Valid()
      reads this
    {
      Ended(tokens) && index < |tokens|
    }

    /** `r` and the cursor are what the grammar says of the cursor's old position. */
    ghost predicate Follows(r: Result<Expr, CelError>, parsed: Parsed)
      reads this
    {
      match parsed
      case Err(e) => r == Err(e)
      case Ok((expr, j)) => r == Ok(expr) && index == j
    }

    constructor (g: Grammar, tokens: seq<Token>)
      requires Ended(tokens)
      ensures Valid() && index == 0 && this.g == g && this.tokens == tokens
    {
      this.g, this.tokens, index := g, tokens, 0;
    }

    method ParseProgram() returns (r: Result<Expr, CelError>)
      requires Valid() && index == 0
      modifies this
      ensures r == ParseAll(g, tokens)
    {
      var parsed := ParseConditionalExpr();
      if parsed.Err? {
        return parsed;
      }
      var trailing := tokens[index];
      if trailing.kind != Eof {
        if trailing.value == DOT {
          return Fail(MemberAccess, trailing);
        }
        if trailing.value == LPAREN {
          return Fail(FunctionCall, trailing);
        }
        return Fail(UnexpectedToken, trailing);
      }
      r := parsed;
    }

    method Consume(value: Text) returns (consumed: bool)
      requires Valid() && value != []
      modifies this
      ensures Valid() && consumed == (tokens[old(index)].value == value)
      ensures index == if consumed then old(index) + 1 else old(index)
    {
      if tokens[index].value != value {
        return false;
      }
      index := index + 1;
      consumed := true;
    }

    /** The token at the cursor; the cursor moves on unless it is at eof. */
    method Advance() returns (token: Token)
      requires Valid()
      modifies this
      ensures Valid() && token == tokens[old(index)]
      ensures index == if token.kind == Eof then old(index) else old(index) + 1
    {
      token := tokens[index];
      if token.kind != Eof {
        index := index + 1;
      }
    }

    method ParseConditionalExpr() returns (r: Result<Expr, CelError>)
      requires Valid()
      modifies this
      ensures Valid() && Follows(r, Parse(g, tokens, old(index), 0))
      decreases |tokens| - index, 20
    {
      var condition := ParseBinary(1);
      if condition.Err? {
        return condition;
      }
      var question := Consume(QUESTION);
      if !question {
        return condition;
      }
      var whenTrue := ParseConditionalExpr();
      if whenTrue.Err? {
        return whenTrue;
      }
      var colon := Consume(COLON);
      if !colon {
        return Fail(Expected(COLON), tokens[index]);
      }
      var whenFalse := ParseConditionalExpr();
      if whenFalse.Err? {
        return whenFalse;
      }
      r := Ok(Conditional(condition.value, whenTrue.value, whenFalse.value));
    }

    /** One of the six binary levels. */
    method ParseBinary(level: nat) returns (r: Result<Expr, CelError>)
      requires Valid() && 1 <= level <= 6
      modifies this
      ensures Valid() && Follows(r, Parse(g, tokens, old(index), level))
      decreases |tokens| - index, 20 - 2 * level
    {
      r := ParseOperand(level + 1);
      if r.Err? {
        return;
      }
      ghost var start := index;
      ghost var goal := Fold(g, tokens, index, level, r.value);
      while tokens[index].kind == Operator && tokens[index].value in Operators(level)
        invariant Valid() && start <= index && old(index) < index
        invariant r.Ok? && Fold(g, tokens, index, level, r.value) == goal
        decreases |tokens| - index
      {
        LevelsDisjoint(tokens[index].value, level);
        var operator := Advance();
        var right := ParseOperand(level + 1);
        if right.Err? {
          return right;
        }
        r := Ok(Binary(operator.value, r.value, right.value));
      }
      LevelsDisjoint(tokens[index].value, level);
    }

    /** The next tighter level. */
    method ParseOperand(level: nat) returns (r: Result<Expr, CelError>)
      requires Valid() && 2 <= level <= 7
      modifies this
      ensures Valid() && Follows(r, Parse(g, tokens, old(index), level))
      decreases |tokens| - index, 21 - 2 * level
    {
      if level == 7 {
        r := ParseUnary();
      } else {
        r := ParseBinary(level);
      }
    }

    method ParseUnary() returns (r: Result<Expr, CelError>)
      requires Valid()
      modifies this
      ensures Valid() && Follows(r, Parse(g, tokens, old(index), 7))
      decreases |tokens| - index, 3
    {
      var token := tokens[index];
      if token.kind == Operator && IsUnary(token.value) {
        var _ := Advance();
        var operand := ParseUnary();
        if operand.Err? {
          return operand;
        }
        return Ok(Unary(token.value, operand.value));
      }
      r := ParsePrimary();
    }

    method ParsePrimary() returns (r: Result<Expr, CelError>)
      requires Valid()
      modifies this
      ensures Valid() && Follows(r, Parse(g, tokens, old(index), 8))
      decreases |tokens| - index, 2
    {
      var token := Advance();
      if token.kind == Number {
        return if g.jsonSafe(token.value) then Ok(NumberLiteral(token.value)) else Fail(NumberNotSafe, token);
      }
      if token.kind == Str {
        return Ok(StringLiteral(token.value));
      }
      if token.kind == Identifier {
        if tokens[index].value == LPAREN {
          return Fail(FunctionCall, tokens[index]);
        }
        if token.value == g.variableName {
          return Ok(Input);
        }
        if token.value == TRUE || token.value == FALSE {
          return Ok(BoolLiteral(token.value == TRUE));
        }
        if token.value == NULL {
          return Ok(NullLiteral);
        }
        return Fail(UnknownIdentifier, token);
      }
      if token.value == LPAREN {
        var inner := ParseConditionalExpr();
        if inner.Err? {
          return inner;
        }
        var close := Consume(RPAREN);
        return if close then inner else Fail(Expected(RPAREN), tokens[index]);
      }
      if token.value == LBRACKET {
        r := ParseArray();
        return;
      }
      if token.value == LBRACE {
        r := ParseObject();
        return;
      }
      r := Fail(UnexpectedToken, token);
    }

    /** After `[`. */
    method ParseArray() returns (r: Result<Expr, CelError>)
      requires Valid() && 0 < index
      requires tokens[index - 1].value == LBRACKET && (tokens[index - 1].kind == Operator || tokens[index - 1].kind == Punctuation)
      modifies this
      ensures Valid() && Follows(r, Parse(g, tokens, old(index) - 1, 8))
      decreases |tokens| - index, 21
    {
      var elements: seq<Expr> := [];
      var close := Consume(RBRACKET);
      if close {
        return Ok(ArrayLiteral([]));
      }
      ghost var goal := Elements(g, tokens, index);
      PrependNothing(goal);
      var more := true;
      while more
        invariant Valid() && old(index) <= index
        invariant more ==> goal == Prepend(elements, Elements(g, tokens, index))
        invariant !more ==> goal == Ok((elements, index))
        decreases |tokens| - index, more
      {
        var element := ParseConditionalExpr();
        if element.Err? {
          return element;
        }
        ghost var before := elements;
        elements := elements + [element.value];
        more := Consume(COMMA);
        assert before + [element.value] == elements;
        PrependTwice(before, [element.value], if more then Elements(g, tokens, index) else goal);
      }
      close := Consume(RBRACKET);
      r := if close then Ok(ArrayLiteral(elements)) else Fail(Expected(RBRACKET), tokens[index]);
    }

    /** After `{`. */
    method ParseObject() returns (r: Result<Expr, CelError>)
      requires Valid() && 0 < index
      requires tokens[index - 1].value == LBRACE && (tokens[index - 1].kind == Operator || tokens[index - 1].kind == Punctuation)
      modifies this
      ensures Valid() && Follows(r, Parse(g, tokens, old(index) - 1, 8))
      decreases |tokens| - index, 21
    {
      ObjectAt(g, tokens, index - 1);
      hide Parse, Primary, Entries;
      var entries: seq<Entry> := [];
      var keys: set<Text> := {};
      var close := Consume(RBRACE);
      if close {
        return Ok(ObjectLiteral([]));
      }
      ghost var goal := Entries(g, tokens, index, keys);
      PrependNothing(goal);
      var more := true;
      while more
        invariant Valid() && old(index) <= index
        invariant more ==> goal == Prepend(entries, Entries(g, tokens, index, keys))
        invariant !more ==> goal == Ok((entries, index))
        decreases |tokens| - index, more
      {
        var entry := ParseEntry(keys);
        if entry.Err? {
          return Err(entry.error);
        }
        ghost var before := entries;
        keys := keys + {entry.value.key};
        entries := entries + [entry.value];
        more := Consume(COMMA);
        PrependTwice(before, [entry.value], if more then Entries(g, tokens, index, keys) else goal);
      }
      close := Consume(RBRACE);
      r := if close then Ok(ObjectLiteral(entries)) else Fail(Expected(RBRACE), tokens[index]);
    }

    /** One turn of that loop: `key: value`, the key not among those seen. */
    method ParseEntry(keys: set<Text>) returns (r: Result<Entry, CelError>)
      requires Valid()
      modifies this
      ensures Valid() && (r.Err? ==> Entries(g, tokens, old(index), keys) == Err(r.error))
      ensures r.Ok? ==>
                && old(index) < index && r.value.key !in keys
                && Entries(g, tokens, old(index), keys)
                == if tokens[index].value != COMMA then Ok(([r.value], index))
                   else Prepend([r.value], Entries(g, tokens, index + 1, keys + {r.value.key}))
      decreases |tokens| - index, 20
    {
      hide Parse;
      var key := Advance();
      if key.kind != Str {
        return Fail(KeyNotString, key);
      }
      if key.value in keys {
        return Fail(DuplicateKey, key);
      }
      var colon := Consume(COLON);
      if !colon {
        return Fail(Expected(COLON), tokens[index]);
      }
      var value := ParseConditionalExpr();
      r := if value.Ok? then Ok(Entry(key.value, value.value)) else Err(value.error);
    }
  }

  /** What a brace opens. */
  lemma ObjectAt(g: Grammar, ts: seq<Token>, i: nat)
    requires Ended(ts) && i + 1 < |ts| && ts[i].value == LBRACE && (ts[i].kind == Operator || ts[i].kind == Punctuation)
    ensures Parse(g, ts, i, 8)
         == if ts[i + 1].value == RBRACE then Ok((ObjectLiteral([]), i + 2))
            else match Entries(g, ts, i + 1, {})
                 case Err(e) => Err(e)
                 case Ok((entries, j)) =>
                   if ts[j].value == RBRACE then Ok((ObjectLiteral(entries), j + 1)) else Fail(Expected(RBRACE), ts[j])
  {
    assert LBRACE[0] == 123 && LPAREN[0] == 40 && LBRACKET[0] == 91;
  }

  /** A list result with more items in front. */
  ghost function Prepend<T>(front: seq<T>, r: Result<(seq<T>, nat), CelError>): Result<(seq<T>, nat), CelError> {
    match r
    case Err(e) => Err(e)
    case Ok((back, j)) => Ok((front + back, j))
  }

  lemma PrependNothing<T>(r: Result<(seq<T>, nat), CelError>)
    ensures Prepend([], r) == r
  {
    if r.Ok? {
      assert [] + r.value.0 == r.value.0;
    }
  }

  lemma PrependTwice<T>(front: seq<T>, more: seq<T>, r: Result<(seq<T>, nat), CelError>)
    ensures Prepend(front + more, r) == Prepend(front, Prepend(more, r))
  {
    if r.Ok? {
      assert front + more + r.value.0 == front + (more + r.value.0);
    }
  }
}

/** Which error a text the language does not have is refused with, and where. */
module CelErrors {
  // packages/model-option-map/src/parser.ts, over tokens; the characters are written out.

  import opened Outcomes
  import opened Texts
  import opened CelTokens
  import opened CelParser
  import opened CelPrinter
  import opened CelPrecedence

  /** The parse fails with this error at this token. */
  predicate Refused(g: Grammar, ts: seq<Token>, kind: ErrorKind, at: int)
    requires Ended(ts)
  {
    0 <= at < |ts| && ParseAll(g, ts) == Err(CelError(kind, ts[at].offset))
  }

  /** A parse at any level that is not prefixed ends as the primary does, if that fails. */
  lemma PrimaryRefuses(g: Grammar, ts: seq<Token>, error: CelError)
    requires Ended(ts) && Primary(g, ts, 0) == Err(error) && !(ts[0].kind == Operator && IsUnary(ts[0].value))
    ensures ParseAll(g, ts) == Err(error)
  {
    hide Primary, IsUnary;
    assert Parse(g, ts, 0, 7) == Parse(g, ts, 0, 8);
    assert Parse(g, ts, 0, 6) == Parse(g, ts, 0, 7);
    assert Parse(g, ts, 0, 5) == Parse(g, ts, 0, 6);
    assert Parse(g, ts, 0, 4) == Parse(g, ts, 0, 5);
    assert Parse(g, ts, 0, 3) == Parse(g, ts, 0, 4);
    assert Parse(g, ts, 0, 2) == Parse(g, ts, 0, 3);
    assert Parse(g, ts, 0, 1) == Parse(g, ts, 0, 2);
    assert Parse(g, ts, 0, 0) == Parse(g, ts, 0, 1);
  }

  /** A name that is followed by an opening parenthesis, or that is neither the variable nor a keyword. */
  lemma NamesRefused(g: Grammar, ts: seq<Token>)
    requires Ended(ts) && ts[0].kind == Identifier
    ensures ts[1].value == [40] ==> Refused(g, ts, FunctionCall, 1)
    ensures ts[1].value != [40] && ts[0].value != g.variableName && ts[0].value != [116, 114, 117, 101]
            && ts[0].value != [102, 97, 108, 115, 101] && ts[0].value != [110, 117, 108, 108] ==>
              Refused(g, ts, UnknownIdentifier, 0)
  {
    if ts[1].value == [40] {
      PrimaryRefuses(g, ts, CelError(FunctionCall, ts[1].offset));
    } else if Primary(g, ts, 0).Err? {
      PrimaryRefuses(g, ts, CelError(UnknownIdentifier, ts[0].offset));
    }
  }

  /** A number that JSON cannot hold, nothing at all, and a mark or operator that starts no expression. */
  lemma FirstTokenRefused(g: Grammar, ts: seq<Token>)
    requires Ended(ts)
    ensures ts[0].kind == Number && !g.jsonSafe(ts[0].value) ==> Refused(g, ts, NumberNotSafe, 0)
    ensures ts[0].kind == Eof ==> Refused(g, ts, UnexpectedToken, 0)
    ensures ts[0].kind == Punctuation && ts[0].value != [40] && ts[0].value != [91] && ts[0].value != [123] ==>
              Refused(g, ts, UnexpectedToken, 0)
  {
    if ts[0].kind == Number && !g.jsonSafe(ts[0].value) {
      PrimaryRefuses(g, ts, CelError(NumberNotSafe, ts[0].offset));
    } else if Primary(g, ts, 0) == Err(CelError(UnexpectedToken, ts[0].offset)) && ts[0].kind != Operator {
      PrimaryRefuses(g, ts, CelError(UnexpectedToken, ts[0].offset));
    }
  }

  /** Behind a complete expression a point is a member access, and any other mark but `?` and `(` is unexpected. */
  lemma TrailingRefused(g: Grammar, operands: seq<Expr>, operators: seq<Text>, ts: seq<Token>)
    requires Ended(ts) && Chain(g, operands, operators) && At(ts, 0, Written(g, operands, operators))
    requires ts[|Written(g, operands, operators)|].kind == Punctuation
    requires ts[|Written(g, operands, operators)|].value != [63] && ts[|Written(g, operands, operators)|].value != [40]
    ensures var end := |Written(g, operands, operators)|;
            Refused(g, ts, if ts[end].value == [46] then MemberAccess else UnexpectedToken, end)
  {
    hide Written, At, Good, Rank, Parses, LevelOf;
    var end := |Written(g, operands, operators)|;
    Inside(ts, 0, Written(g, operands, operators));
    assert Stops(ts[end], 0);
    hide Stops;
    ChainParses(g, operands, operators, 0, ts, 0);
    AfterWhole(g, ts, Grouped(operands, operators), end);
  }

  lemma AfterWhole(g: Grammar, ts: seq<Token>, e: Expr, end: int)
    requires Parses(g, ts, 0, 0, e, end) && ts[end].kind == Punctuation && ts[end].value != [40]
    ensures Refused(g, ts, if ts[end].value == [46] then MemberAccess else UnexpectedToken, end)
  {
    hide Parse;
  }

  /** Between parentheses the expression must be all there is. */
  lemma ParenthesisMissing(g: Grammar, operands: seq<Expr>, operators: seq<Text>, ts: seq<Token>)
    requires Ended(ts) && Chain(g, operands, operators) && ts[0].kind == Punctuation && ts[0].value == [40]
    requires At(ts, 1, Written(g, operands, operators))
    requires var t := ts[1 + |Written(g, operands, operators)|];
             (t.kind == Punctuation || t.kind == Eof) && t.value != [63] && t.value != [40] && t.value != [41]
    ensures Refused(g, ts, Expected([41]), 1 + |Written(g, operands, operators)|)
  {
    hide Written, At, Good, Rank, Parses, LevelOf;
    var end := 1 + |Written(g, operands, operators)|;
    Inside(ts, 1, Written(g, operands, operators));
    assert Stops(ts[end], 0);
    hide Stops;
    ChainParses(g, operands, operators, 0, ts, 1);
    InsideParentheses(g, ts, Grouped(operands, operators), end);
    PrimaryRefuses(g, ts, CelError(Expected([41]), ts[end].offset));
  }

  lemma InsideParentheses(g: Grammar, ts: seq<Token>, e: Expr, end: int)
    requires Parses(g, ts, 1, 0, e, end) && ts[0].kind == Punctuation && ts[0].value == [40] && ts[end].value != [41]
    ensures Primary(g, ts, 0) == Err(CelError(Expected([41]), ts[end].offset))
  {
    hide Parse;
  }

  /** The same for the elements of an array. */
  lemma BracketMissing(g: Grammar, operands: seq<Expr>, operators: seq<Text>, ts: seq<Token>)
    requires Ended(ts) && Chain(g, operands, operators) && ts[0].kind == Punctuation && ts[0].value == [91] && ts[1].value != [93]
    requires At(ts, 1, Written(g, operands, operators))
    requires var t := ts[1 + |Written(g, operands, operators)|];
             (t.kind == Punctuation || t.kind == Eof) && t.value != [63] && t.value != [40] && t.value != [44] && t.value != [93]
    ensures Refused(g, ts, Expected([93]), 1 + |Written(g, operands, operators)|)
  {
    hide Written, At, Good, Rank, Parses, LevelOf;
    var end := 1 + |Written(g, operands, operators)|;
    Inside(ts, 1, Written(g, operands, operators));
    assert Stops(ts[end], 0);
    hide Stops;
    ChainParses(g, operands, operators, 0, ts, 1);
    InsideBrackets(g, ts, Grouped(operands, operators), end);
    PrimaryRefuses(g, ts, CelError(Expected([93]), ts[end].offset));
  }

  lemma InsideBrackets(g: Grammar, ts: seq<Token>, e: Expr, end: int)
    requires Parses(g, ts, 1, 0, e, end) && ts[0].kind == Punctuation && ts[0].value == [91] && ts[1].value != [93]
    requires ts[end].value != [44] && ts[end].value != [93]
    ensures Primary(g, ts, 0) == Err(CelError(Expected([93]), ts[end].offset))
  {
    hide Parse;
    assert Elements(g, ts, 1) == Ok(([e], end));
  }

  /** A condition with its first branch needs a colon. */
  lemma ColonMissing(g: Grammar, operands: seq<Expr>, operators: seq<Text>, whenTrue: Expr, ts: seq<Token>)
    requires Ended(ts) && Chain(g, operands, operators) && Good(g, whenTrue)
    requires At(ts, 0, Written(g, operands, operators))
    requires var q := |Written(g, operands, operators)|;
             && ts[q].kind == Punctuation && ts[q].value == [63] && At(ts, q + 1, Print(g, whenTrue, 0))
             && var t := ts[q + 1 + |Print(g, whenTrue, 0)|];
             (t.kind == Punctuation || t.kind == Eof) && t.value != [63] && t.value != [40] && t.value != [58]
    ensures Refused(g, ts, Expected([58]), |Written(g, operands, operators)| + 1 + |Print(g, whenTrue, 0)|)
  {
    hide Written, At, Good, Rank, Parses, LevelOf, Print;
    ChainRanked(g, operands, operators);
    var q := |Written(g, operands, operators)|;
    var c := q + 1 + |Print(g, whenTrue, 0)|;
    Inside(ts, 0, Written(g, operands, operators));
    Inside(ts, q + 1, Print(g, whenTrue, 0));
    assert Stops(ts[q], 1) && Stops(ts[c], 0);
    hide Stops;
    ChainParses(g, operands, operators, 1, ts, 0);
    PrintParses(g, whenTrue, 0, ts, q + 1);
    NoColon(g, ts, Grouped(operands, operators), q, whenTrue, c);
  }

  lemma NoColon(g: Grammar, ts: seq<Token>, condition: Expr, q: int, whenTrue: Expr, c: int)
    requires Parses(g, ts, 0, 1, condition, q) && Parses(g, ts, q + 1, 0, whenTrue, c)
    requires ts[q].value == [63] && ts[c].value != [58]
    ensures Refused(g, ts, Expected([58]), c)
  {
    assert ParseConditional(g, ts, 0, Ok((condition, q))) == Err(CelError(Expected([58]), ts[c].offset));
  }

  /** A key must be a string with a colon behind it, and not one of the keys before. */
  lemma KeysRefused(g: Grammar, ts: seq<Token>)
    requires Ended(ts) && ts[0].kind == Punctuation && ts[0].value == [123] && ts[1].value != [125]
    ensures ts[1].kind != Str ==> Refused(g, ts, KeyNotString, 1)
    ensures ts[1].kind == Str && ts[2].value != [58] ==> Refused(g, ts, Expected([58]), 2)
  {
    if ts[1].kind != Str {
      assert Entries(g, ts, 1, {}) == Err(CelError(KeyNotString, ts[1].offset));
      PrimaryRefuses(g, ts, CelError(KeyNotString, ts[1].offset));
    } else if ts[2].value != [58] {
      assert Entries(g, ts, 1, {}) == Err(CelError(Expected([58]), ts[2].offset));
      PrimaryRefuses(g, ts, CelError(Expected([58]), ts[2].offset));
    }
  }

  lemma RepeatedKeyRefused(g: Grammar, value: Expr, ts: seq<Token>)
    requires Ended(ts) && Good(g, value) && ts[0].kind == Punctuation && ts[0].value == [123]
    requires ts[1].kind == Str && ts[1].value != [125] && ts[2].value == [58] && At(ts, 3, Print(g, value, 0))
    requires var c := 3 + |Print(g, value, 0)|;
             ts[c].kind == Punctuation && ts[c].value == [44] && ts[c + 1].kind == Str && ts[c + 1].value == ts[1].value
    ensures Refused(g, ts, DuplicateKey, 4 + |Print(g, value, 0)|)
  {
    hide At, Good, Parses, LevelOf, Print;
    var c := 3 + |Print(g, value, 0)|;
    Inside(ts, 3, Print(g, value, 0));
    assert Stops(ts[c], 0);
    hide Stops;
    PrintParses(g, value, 0, ts, 3);
    SecondKey(g, ts, value, c);
    PrimaryRefuses(g, ts, CelError(DuplicateKey, ts[c + 1].offset));
  }

  lemma SecondKey(g: Grammar, ts: seq<Token>, value: Expr, c: int)
    requires Parses(g, ts, 3, 0, value, c) && c + 1 < |ts| && ts[0].kind == Punctuation && ts[0].value == [123]
    requires ts[1].kind == Str && ts[1].value != [125] && ts[2].value == [58]
    requires ts[c].kind == Punctuation && ts[c].value == [44] && ts[c + 1].kind == Str && ts[c + 1].value == ts[1].value
    ensures Primary(g, ts, 0) == Err(CelError(DuplicateKey, ts[c + 1].offset))
  {
    hide Parse;
    assert Entries(g, ts, c + 1, {ts[1].value}) == Err(CelError(DuplicateKey, ts[c + 1].offset));
    assert {} + {ts[1].value} == {ts[1].value};
  }
}

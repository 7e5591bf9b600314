/** How operators group, against a ranking written over their characters. */
module CelPrecedence {
  // The parser, the printer and the round trips read the levels from one table; here the table itself is pinned down.

  import opened Outcomes
  import opened Texts
  import opened CelTokens
  import opened CelParser
  import opened CelPrinter
  import CelTokenizer
  import CelSource

  /** or, and, equality, relational, additive, multiplicative: how tightly a binary operator binds; 0 for none. */
  function Rank(operator: Text): (rank: nat)
    ensures rank <= 6
  {
    if operator == [124, 124] then 1
    else if operator == [38, 38] then 2
    else if operator == [61, 61] || operator == [33, 61] then 3
    else if operator == [60] || operator == [60, 61] || operator == [62] || operator == [62, 61] then 4
    else if operator == [43] || operator == [45] then 5
    else if operator == [42] || operator == [47] || operator == [37] then 6
    else 0
  }

  lemma OperatorsAreRanked(operator: Text, level: nat)
    requires 1 <= level <= 6
    ensures operator in Operators(level) <==> Rank(operator) == level
    ensures LevelOf(operator) == Rank(operator)
  {
    assert |OR| == 2 && OR[0] == 124 && OR[1] == 124 && |AND| == 2 && AND[0] == 38 && AND[1] == 38;
  }

  // ---------------------------------------------------------------------------------------------
  // Chains of operands and operators
  // ---------------------------------------------------------------------------------------------

  /** An operand: any expression, in parentheses if it is binary or conditional. */
  function Atom(g: Grammar, e: Expr): (lexemes: seq<Lexeme>)
    ensures lexemes != []
  {
    if e.Binary? || e.Conditional? then [Lexeme(Punctuation, [40])] + Print(g, e, 0) + [Lexeme(Punctuation, [41])]
    else Print(g, e, 0)
  }

  ghost predicate Chain(g: Grammar, operands: seq<Expr>, operators: seq<Text>) {
    && |operands| == |operators| + 1
    && (forall k :: 0 <= k < |operands| ==> Good(g, operands[k]))
    && forall k :: 0 <= k < |operators| ==> 1 <= Rank(operators[k])
  }

  /** Operand, operator, operand and so on. */
  function Written(g: Grammar, operands: seq<Expr>, operators: seq<Text>): (lexemes: seq<Lexeme>)
    requires |operands| == |operators| + 1
    ensures lexemes != []
    decreases operators
  {
    if operators == [] then Atom(g, operands[0])
    else Atom(g, operands[0]) + [Lexeme(Operator, operators[0])] + Written(g, operands[1..], operators[1..])
  }

  /** The last of the loosest operators. */
  function Loosest(operators: seq<Text>): (k: nat)
    requires operators != []
    ensures k < |operators|
    ensures forall n :: 0 <= n < |operators| ==> Rank(operators[k]) <= Rank(operators[n])
    ensures forall n :: k < n < |operators| ==> Rank(operators[k]) < Rank(operators[n])
  {
    var last := |operators| - 1;
    if last == 0 then 0
    else
      var k := Loosest(operators[..last]);
      assert forall n :: 0 <= n < last ==> operators[n] == operators[..last][n];
      if Rank(operators[last]) <= Rank(operators[k]) then last else k
  }

  /** The tree a chain stands for: the loosest operator applies last, of equals the one furthest to the right. */
  function Grouped(operands: seq<Expr>, operators: seq<Text>): Expr
    requires |operands| == |operators| + 1
    decreases operators
  {
    if operators == [] then operands[0]
    else
      var k := Loosest(operators);
      Binary(operators[k], Grouped(operands[..k + 1], operators[..k]), Grouped(operands[k + 1..], operators[k + 1..]))
  }

  lemma {:induction false} WrittenSplits(g: Grammar, operands: seq<Expr>, operators: seq<Text>, k: nat)
    requires |operands| == |operators| + 1 && k < |operators|
    ensures Written(g, operands, operators)
         == Written(g, operands[..k + 1], operators[..k]) + [Lexeme(Operator, operators[k])]
            + Written(g, operands[k + 1..], operators[k + 1..])
    decreases k
  {
    hide Atom;
    if k > 0 {
      WrittenSplits(g, operands[1..], operators[1..], k - 1);
      assert operands[1..][..k] == operands[..k + 1][1..] && operators[1..][..k - 1] == operators[..k][1..];
      assert operands[1..][k..] == operands[k + 1..] && operators[1..][k..] == operators[k + 1..];
    }
  }

  lemma AtomPrinted(g: Grammar, e: Expr)
    requires Printable(g, e)
    ensures Atom(g, e) == Print(g, e, 7)
  {
    hide Raw;
  }

  lemma AtomParses(g: Grammar, e: Expr, ts: seq<Token>, i: int)
    requires Ended(ts) && Good(g, e) && At(ts, i, Atom(g, e)) && Stops(ts[i + |Atom(g, e)|], 7)
    ensures Parses(g, ts, i, 7, e, i + |Atom(g, e)|)
  {
    AtomPrinted(g, e);
    hide Print, Printable, Clean, Parse, At;
    PrintParses(g, e, 7, ts, i);
  }

  lemma ChainParts(g: Grammar, operands: seq<Expr>, operators: seq<Text>, k: nat)
    requires Chain(g, operands, operators) && k < |operators|
    ensures Chain(g, operands[..k + 1], operators[..k]) && Chain(g, operands[k + 1..], operators[k + 1..])
  {
    hide Good, Rank;
  }

  /** Every operator of the chain binds at least as tightly as the level. */
  predicate Tight(operators: seq<Text>, level: nat) {
    forall k :: 0 <= k < |operators| ==> level <= Rank(operators[k])
  }

  /** The two sides of the operator that applies last. */
  lemma ChainAt(g: Grammar, operands: seq<Expr>, operators: seq<Text>, ts: seq<Token>, i: int)
    requires Chain(g, operands, operators) && operators != [] && At(ts, i, Written(g, operands, operators))
    ensures var k := Loosest(operators); var o := i + |Written(g, operands[..k + 1], operators[..k])|;
            && At(ts, i, Written(g, operands[..k + 1], operators[..k])) && Is(ts, o, Lexeme(Operator, operators[k]))
            && At(ts, o + 1, Written(g, operands[k + 1..], operators[k + 1..]))
            && i + |Written(g, operands, operators)| == o + 1 + |Written(g, operands[k + 1..], operators[k + 1..])|
  {
    hide Written, Rank, At, Is, Good;
    var k := Loosest(operators);
    WrittenSplits(g, operands, operators, k);
    Around(ts, i, Written(g, operands[..k + 1], operators[..k]), Lexeme(Operator, operators[k]),
           Written(g, operands[k + 1..], operators[k + 1..]));
  }

  lemma RankStops(ts: seq<Token>, o: int, operator: Text, level: nat)
    requires Is(ts, o, Lexeme(Operator, operator)) && 1 <= Rank(operator) < level
    ensures Stops(ts[o], level)
  {
    OperatorsAreRanked(operator, 1);
  }

  lemma Inside(ts: seq<Token>, i: int, lexemes: seq<Lexeme>)
    requires At(ts, i, lexemes)
    ensures 0 <= i <= i + |lexemes| < |ts|
  {
  }

  lemma ChainRanked(g: Grammar, operands: seq<Expr>, operators: seq<Text>)
    requires Chain(g, operands, operators)
    ensures |operands| == |operators| + 1 && Tight(operators, 1)
    ensures forall k :: 0 <= k < |operators| ==> 1 <= Rank(operators[k])
  {
    hide Rank, Good;
  }

  /** Parsing a chain at the level of its last operator arrives in the fold behind it. */
  lemma {:induction false} ChainArrives(g: Grammar, operands: seq<Expr>, operators: seq<Text>, ts: seq<Token>, i: int)
    requires Ended(ts) && Chain(g, operands, operators) && operators != [] && At(ts, i, Written(g, operands, operators))
    requires Stops(ts[i + |Written(g, operands, operators)|], Rank(operators[Loosest(operators)]) + 1)
    ensures Arrives(g, ts, i, Rank(operators[Loosest(operators)]), Grouped(operands, operators), i + |Written(g, operands, operators)|)
    decreases operators, 0
  {
    hide *;
    ChainRanked(g, operands, operators);
    GroupedUnfold(operands, operators);
    LoosestParts(operators);
    var k := Loosest(operators);
    var o := i + |Written(g, operands[..k + 1], operators[..k])|;
    ChainAt(g, operands, operators, ts, i);
    ChainParts(g, operands, operators, k);
    RankStops(ts, o, operators[k], Rank(operators[k]) + 1);
    ChainSpine(g, operands[..k + 1], operators[..k], Rank(operators[k]), ts, i);
    ChainParses(g, operands[k + 1..], operators[k + 1..], Rank(operators[k]) + 1, ts, o + 1);
    GroupedStep(g, ts, i, o, Grouped(operands, operators), i + |Written(g, operands, operators)|);
  }

  lemma GroupedUnfold(operands: seq<Expr>, operators: seq<Text>)
    requires |operands| == |operators| + 1 && operators != []
    ensures var k := Loosest(operators);
            Grouped(operands, operators)
            == Binary(operators[k], Grouped(operands[..k + 1], operators[..k]), Grouped(operands[k + 1..], operators[k + 1..]))
  {
    hide Rank, Loosest;
  }

  lemma LoosestParts(operators: seq<Text>)
    requires operators != []
    ensures var k := Loosest(operators);
            Tight(operators[..k], Rank(operators[k])) && Tight(operators[k + 1..], Rank(operators[k]) + 1)
  {
    hide Rank, Loosest;
  }

  lemma GroupedStep(g: Grammar, ts: seq<Token>, i: int, o: int, e: Expr, j: int)
    requires e.Binary? && 1 <= Rank(e.operator) && Is(ts, o, Lexeme(Operator, e.operator))
    requires Arrives(g, ts, i, Rank(e.operator), e.left, o) && Parses(g, ts, o + 1, Rank(e.operator) + 1, e.right, j)
    ensures Arrives(g, ts, i, Rank(e.operator), e, j)
  {
    OperatorsAreRanked(e.operator, 1);
    hide Arrives, Parses, Is, Rank, LevelOf;
    FoldStep(g, ts, i, o, e, j);
  }

  /** The part left of an operator arrives in the fold just before it. */
  lemma {:induction false} ChainSpine(g: Grammar, operands: seq<Expr>, operators: seq<Text>, level: nat, ts: seq<Token>, i: int)
    requires Ended(ts) && Chain(g, operands, operators) && 1 <= level <= 6 && Tight(operators, level)
    requires At(ts, i, Written(g, operands, operators)) && Stops(ts[i + |Written(g, operands, operators)|], level + 1)
    ensures Arrives(g, ts, i, level, Grouped(operands, operators), i + |Written(g, operands, operators)|)
    decreases operators, 2
  {
    hide Written, Rank, At, Is, Good, Stops, Parses, Ended;
    if operators != [] && Rank(operators[Loosest(operators)]) == level {
      ChainArrives(g, operands, operators, ts, i);
    } else {
      ChainParses(g, operands, operators, level + 1, ts, i);
      ParsedArrives(g, ts, i, level, Grouped(operands, operators), i + |Written(g, operands, operators)|);
    }
  }

  lemma ParsedArrives(g: Grammar, ts: seq<Token>, i: int, level: nat, e: Expr, j: int)
    requires Parses(g, ts, i, level + 1, e, j) && 1 <= level <= 6
    ensures Arrives(g, ts, i, level, e, j)
  {
  }

  lemma ArrivedParses(g: Grammar, ts: seq<Token>, i: int, level: nat, e: Expr, j: int)
    requires Arrives(g, ts, i, level, e, j) && i < j && Stops(ts[j], level)
    ensures Parses(g, ts, i, level, e, j)
  {
    hide LevelOf;
  }

  /** A chain that binds tightly enough parses at a level, up to a token that does not continue it. */
  lemma {:induction false} ChainParses(g: Grammar, operands: seq<Expr>, operators: seq<Text>, level: nat, ts: seq<Token>, i: int)
    requires Ended(ts) && Chain(g, operands, operators) && level <= 7 && Tight(operators, level)
    requires At(ts, i, Written(g, operands, operators)) && Stops(ts[i + |Written(g, operands, operators)|], level)
    ensures Parses(g, ts, i, level, Grouped(operands, operators), i + |Written(g, operands, operators)|)
    decreases operators, 1
  {
    hide Rank, At, Is, Good, Stops, Parses, Arrives, Ended, Atom;
    var e := Grouped(operands, operators);
    var j := i + |Written(g, operands, operators)|;
    Inside(ts, i, Written(g, operands, operators));
    if operators == [] {
      StopsTighter(ts[j], level, 7);
      AtomParses(g, e, ts, i);
      Descend(g, ts, i, e, j, 7, level);
    } else {
      var rank := Rank(operators[Loosest(operators)]);
      StopsTighter(ts[j], level, rank);
      StopsTighter(ts[j], level, rank + 1);
      ChainArrives(g, operands, operators, ts, i);
      ArrivedParses(g, ts, i, rank, e, j);
      Descend(g, ts, i, e, j, rank, level);
    }
  }

  // ---------------------------------------------------------------------------------------------
  // The theorems, on tokens
  // ---------------------------------------------------------------------------------------------

  /** The tokens are the lexemes and eof. */
  ghost predicate TokensAre(ts: seq<Token>, lexemes: seq<Lexeme>) {
    Ended(ts) && At(ts, 0, lexemes) && |ts| == |lexemes| + 1
  }

  lemma TokensEnd(ts: seq<Token>, lexemes: seq<Lexeme>)
    requires TokensAre(ts, lexemes)
    ensures Ended(ts) && |ts| == |lexemes| + 1 && Stops(ts[|ts| - 1], 0)
  {
    TextsDiffer();
  }

  lemma ParsedIsAll(g: Grammar, ts: seq<Token>, e: Expr)
    requires Ended(ts) && Parses(g, ts, 0, 0, e, |ts| - 1)
    ensures ParseAll(g, ts) == Ok(e)
  {
    hide Parse;
  }

  /** A chain of any length, its operators in any order, parses to its tree. */
  lemma ChainsGroup(g: Grammar, operands: seq<Expr>, operators: seq<Text>, ts: seq<Token>)
    requires Chain(g, operands, operators) && TokensAre(ts, Written(g, operands, operators))
    ensures ParseAll(g, ts) == Ok(Grouped(operands, operators))
  {
    TokensEnd(ts, Written(g, operands, operators));
    hide Written, At, Good, Stops, Parses, Rank, ParseAll, Grouped, Ended;
    ChainParses(g, operands, operators, 0, ts, 0);
    ParsedIsAll(g, ts, Grouped(operands, operators));
  }


  /** Three operands and two operators. */
  function TwoWritten(g: Grammar, a: Expr, o1: Text, b: Expr, o2: Text, c: Expr): seq<Lexeme> {
    Atom(g, a) + [Lexeme(Operator, o1)] + (Atom(g, b) + [Lexeme(Operator, o2)] + Atom(g, c))
  }

  /**
   * Of two operators without parentheses the tighter one applies first, and of equally tight ones the left one:
   * the operators are spelled out in `Rank`.
   */
  lemma TwoOperatorsGroup(g: Grammar, a: Expr, o1: Text, b: Expr, o2: Text, c: Expr, ts: seq<Token>)
    requires Good(g, a) && Good(g, b) && Good(g, c) && 1 <= Rank(o1) && 1 <= Rank(o2)
    requires TokensAre(ts, TwoWritten(g, a, o1, b, o2, c))
    ensures ParseAll(g, ts) == Ok(Binary(o1, a, Binary(o2, b, c))) <==> Rank(o1) < Rank(o2)
    ensures ParseAll(g, ts) == Ok(Binary(o2, Binary(o1, a, b), c)) <==> Rank(o2) <= Rank(o1)
  {
    TwoIsWritten(g, a, o1, b, o2, c);
    hide Good, Rank, TokensAre, Written, Atom, ParseAll;
    ChainsGroup(g, [a, b, c], [o1, o2], ts);
    TwoGrouped(a, o1, b, o2, c);
  }

  lemma TwoIsWritten(g: Grammar, a: Expr, o1: Text, b: Expr, o2: Text, c: Expr)
    ensures Written(g, [a, b, c], [o1, o2]) == TwoWritten(g, a, o1, b, o2, c)
  {
    hide Atom;
    assert [a, b, c][1..] == [b, c] && [b, c][1..] == [c] && [o1, o2][1..] == [o2] && [o2][1..] == [];
    assert Written(g, [c], []) == Atom(g, c);
    assert Written(g, [b, c], [o2]) == Atom(g, b) + [Lexeme(Operator, o2)] + Atom(g, c);
    assert Written(g, [a, b, c], [o1, o2]) == Atom(g, a) + [Lexeme(Operator, o1)] + Written(g, [b, c], [o2]);
  }

  lemma TwoGrouped(a: Expr, o1: Text, b: Expr, o2: Text, c: Expr)
    ensures Grouped([a, b, c], [o1, o2])
         == if Rank(o1) < Rank(o2) then Binary(o1, a, Binary(o2, b, c)) else Binary(o2, Binary(o1, a, b), c)
    ensures Binary(o1, a, Binary(o2, b, c)) != Binary(o2, Binary(o1, a, b), c)
  {
    hide Rank;
    assert [o1, o2][..1] == [o1] && [o1, o2][1..] == [o2] && [o1, o2][2..] == [] && [o1, o2][..0] == [];
    assert [a, b, c][..1] == [a] && [a, b, c][1..] == [b, c] && [a, b, c][..2] == [a, b] && [a, b, c][2..] == [c];
    assert Grouped([a, b], [o1]) == Binary(o1, a, b) by {
      assert [a, b][..1] == [a] && [a, b][1..] == [b] && [o1][..0] == [] && [o1][1..] == [];
    }
    assert Grouped([b, c], [o2]) == Binary(o2, b, c) by {
      assert [b, c][..1] == [b] && [b, c][1..] == [c] && [o2][..0] == [] && [o2][1..] == [];
    }
  }

  /** A condition, `?`, a branch, `:` and a branch. */
  function Asked(condition: seq<Lexeme>, whenTrue: seq<Lexeme>, whenFalse: seq<Lexeme>): seq<Lexeme> {
    condition + [Lexeme(Punctuation, [63])] + whenTrue + [Lexeme(Punctuation, [58])] + whenFalse
  }

  lemma AskedSplit(ts: seq<Token>, c: seq<Lexeme>, t: seq<Lexeme>, f: seq<Lexeme>)
    requires TokensAre(ts, Asked(c, t, f))
    ensures && At(ts, 0, c) && Is(ts, |c|, Mark(QUESTION)) && At(ts, |c| + 1, t) && Is(ts, |c| + 1 + |t|, Mark(COLON))
            && At(ts, |c| + |t| + 2, f) && |ts| == |c| + |t| + |f| + 3
  {
    hide At, Is;
    Around(ts, 0, c + [Mark(QUESTION)] + t, Mark(COLON), f);
    Around(ts, 0, c, Mark(QUESTION), t);
  }

  /** A conditional binds more loosely than every operator, and the branch behind its colon holds all that follows. */
  lemma ConditionalsGroup(g: Grammar, operands: seq<Expr>, operators: seq<Text>, whenTrue: Expr, whenFalse: Expr, ts: seq<Token>)
    requires Chain(g, operands, operators) && Good(g, whenTrue) && Good(g, whenFalse)
    requires TokensAre(ts, Asked(Written(g, operands, operators), Print(g, whenTrue, 0), Print(g, whenFalse, 0)))
    ensures ParseAll(g, ts) == Ok(Conditional(Grouped(operands, operators), whenTrue, whenFalse))
  {
    hide *;
    ChainRanked(g, operands, operators);
    var c, t, f := Written(g, operands, operators), Print(g, whenTrue, 0), Print(g, whenFalse, 0);
    TokensEnd(ts, Asked(c, t, f));
    AskedSplit(ts, c, t, f);
    QuestionStops(ts, |c|);
    ChainParses(g, operands, operators, 1, ts, 0);
    ParsesBefore(g, whenTrue, 0, ts, |c| + 1, COLON);
    PrintParses(g, whenFalse, 0, ts, |c| + |t| + 2);
    var e := Conditional(Grouped(operands, operators), whenTrue, whenFalse);
    ConditionalSteps(g, ts, 0, e, |c|, |c| + |t| + 1, |ts| - 1);
    ParsedIsAll(g, ts, e);
  }

  lemma QuestionStops(ts: seq<Token>, q: int)
    requires Is(ts, q, Mark(QUESTION))
    ensures Stops(ts[q], 1)
  {
    TextsDiffer();
  }

  /** The prefixes are !, - and +: before an operand they make an operand. */
  lemma PrefixesBind(g: Grammar, operator: Text, operand: Expr)
    requires Good(g, operand) && (operator == [33] || operator == [45] || operator == [43])
    ensures Good(g, Unary(operator, operand)) && Atom(g, Unary(operator, operand)) == [Lexeme(Operator, operator)] + Atom(g, operand)
  {
    AtomPrinted(g, operand);
    AtomPrinted(g, Unary(operator, operand));
  }

  /** No expression starts with any other operator. */
  lemma OtherOperatorsStartNothing(g: Grammar, ts: seq<Token>)
    requires Ended(ts) && ts[0].kind == Operator && ts[0].value != [33] && ts[0].value != [45] && ts[0].value != [43]
    requires ts[0].value != [40] && ts[0].value != [91] && ts[0].value != [123]
    ensures ParseAll(g, ts) == Err(CelError(UnexpectedToken, ts[0].offset))
  {
    assert Parse(g, ts, 0, 8) == Err(CelError(UnexpectedToken, ts[0].offset));
    assert Parse(g, ts, 0, 7) == Parse(g, ts, 0, 8);
    assert Parse(g, ts, 0, 6) == Parse(g, ts, 0, 7);
    assert Parse(g, ts, 0, 5) == Parse(g, ts, 0, 6);
    assert Parse(g, ts, 0, 4) == Parse(g, ts, 0, 5);
    assert Parse(g, ts, 0, 3) == Parse(g, ts, 0, 4);
    assert Parse(g, ts, 0, 2) == Parse(g, ts, 0, 3);
    assert Parse(g, ts, 0, 1) == Parse(g, ts, 0, 2);
    assert Parse(g, ts, 0, 0) == Parse(g, ts, 0, 1);
  }

  // ---------------------------------------------------------------------------------------------
  // What stands between the operators
  // ---------------------------------------------------------------------------------------------

  function ListWritten(g: Grammar, elements: seq<Expr>): seq<Lexeme> {
    if elements == [] then []
    else if |elements| == 1 then Print(g, elements[0], 0)
    else Print(g, elements[0], 0) + [Lexeme(Punctuation, [44])] + ListWritten(g, elements[1..])
  }

  function EntryWritten(g: Grammar, entry: Entry): seq<Lexeme> {
    [Lexeme(Str, entry.key), Lexeme(Punctuation, [58])] + Print(g, entry.value, 0)
  }

  function EntriesWritten(g: Grammar, entries: seq<Entry>): seq<Lexeme> {
    if entries == [] then []
    else if |entries| == 1 then EntryWritten(g, entries[0])
    else EntryWritten(g, entries[0]) + [Lexeme(Punctuation, [44])] + EntriesWritten(g, entries[1..])
  }

  /** null, true, false, numbers, strings, the variable, [..], {..} and prefixed operands. */
  function OperandWritten(g: Grammar, e: Expr): seq<Lexeme>
    requires !e.Binary? && !e.Conditional?
  {
    match e
    case NullLiteral => [Lexeme(Identifier, [110, 117, 108, 108])]
    case BoolLiteral(flag) => [Lexeme(Identifier, if flag then [116, 114, 117, 101] else [102, 97, 108, 115, 101])]
    case NumberLiteral(number) => [Lexeme(Number, number)]
    case StringLiteral(text) => [Lexeme(Str, text)]
    case Input => [Lexeme(Identifier, g.variableName)]
    case ArrayLiteral(elements) => [Lexeme(Punctuation, [91])] + ListWritten(g, elements) + [Lexeme(Punctuation, [93])]
    case ObjectLiteral(entries) => [Lexeme(Punctuation, [123])] + EntriesWritten(g, entries) + [Lexeme(Punctuation, [125])]
    case Unary(operator, operand) => [Lexeme(Operator, operator)] + Atom(g, operand)
  }

  lemma {:induction false} ListIsPrinted(g: Grammar, elements: seq<Expr>)
    ensures ListWritten(g, elements) == PrintElements(g, elements)
  {
    hide Print;
    if |elements| > 1 {
      ListIsPrinted(g, elements[1..]);
    }
  }

  lemma {:induction false} EntriesArePrinted(g: Grammar, entries: seq<Entry>)
    ensures EntriesWritten(g, entries) == PrintEntries(g, entries)
  {
    hide Print;
    if |entries| > 1 {
      EntriesArePrinted(g, entries[1..]);
    }
  }

  lemma OperandIsPrinted(g: Grammar, e: Expr)
    requires Printable(g, e) && !e.Binary? && !e.Conditional?
    ensures OperandWritten(g, e) == Atom(g, e)
  {
    assert Atom(g, e) == Raw(g, e);
    hide Print;
    match e
    case ArrayLiteral(elements) =>
      ListIsPrinted(g, elements);
    case ObjectLiteral(entries) =>
      EntriesArePrinted(g, entries);
    case Unary(operator, operand) =>
      AtomPrinted(g, operand);
    case _ =>
  }

  /** Operands in the characters of the language are read as what they stand for. */
  lemma OperandsRead(g: Grammar, e: Expr, ts: seq<Token>)
    requires Good(g, e) && !e.Binary? && !e.Conditional? && TokensAre(ts, OperandWritten(g, e))
    ensures ParseAll(g, ts) == Ok(e)
  {
    OperandIsPrinted(g, e);
    hide Rank, Good, TokensAre, Atom, ParseAll;
    assert Written(g, [e], []) == Atom(g, e);
    ChainsGroup(g, [e], [], ts);
  }

  // ---------------------------------------------------------------------------------------------
  // The theorems, on source texts
  // ---------------------------------------------------------------------------------------------

  /** However the lexemes are spelled and spaced, the text compiles to what their tokens parse to. */
  lemma SpelledTokens(g: Grammar, source: Text, lexemes: seq<Lexeme>) returns (ts: seq<Token>)
    requires CelSource.SpelledFrom(source, 0, lexemes)
    ensures TokensAre(ts, lexemes) && CelTokenizer.Compile(g, source) == ParseAll(g, ts)
  {
    CelSource.SpelledIsRead(source, 0, lexemes);
    CelTokenizer.ScanLaysOut(source, 0);
    ts := CelTokenizer.Scan(source, 0).value;
    CelTokenizer.LaidOutEnds(source, 0, ts);
  }

  lemma SourceChainsGroup(g: Grammar, operands: seq<Expr>, operators: seq<Text>, source: Text)
    requires Chain(g, operands, operators) && CelSource.SpelledFrom(source, 0, Written(g, operands, operators))
    ensures CelTokenizer.Compile(g, source) == Ok(Grouped(operands, operators))
  {
    hide *;
    ChainRanked(g, operands, operators);
    var ts := SpelledTokens(g, source, Written(g, operands, operators));
    ChainsGroup(g, operands, operators, ts);
  }

  lemma SourceTwoOperatorsGroup(g: Grammar, a: Expr, o1: Text, b: Expr, o2: Text, c: Expr, source: Text)
    requires Good(g, a) && Good(g, b) && Good(g, c) && 1 <= Rank(o1) && 1 <= Rank(o2)
    requires CelSource.SpelledFrom(source, 0, TwoWritten(g, a, o1, b, o2, c))
    ensures CelTokenizer.Compile(g, source) == Ok(Binary(o1, a, Binary(o2, b, c))) <==> Rank(o1) < Rank(o2)
    ensures CelTokenizer.Compile(g, source) == Ok(Binary(o2, Binary(o1, a, b), c)) <==> Rank(o2) <= Rank(o1)
  {
    hide *;
    var ts := SpelledTokens(g, source, TwoWritten(g, a, o1, b, o2, c));
    TwoOperatorsGroup(g, a, o1, b, o2, c, ts);
  }

  lemma SourceConditionalsGroup(g: Grammar, operands: seq<Expr>, operators: seq<Text>, whenTrue: Expr, whenFalse: Expr, source: Text)
    requires Chain(g, operands, operators) && Good(g, whenTrue) && Good(g, whenFalse)
    requires CelSource.SpelledFrom(source, 0, Asked(Written(g, operands, operators), Print(g, whenTrue, 0), Print(g, whenFalse, 0)))
    ensures CelTokenizer.Compile(g, source) == Ok(Conditional(Grouped(operands, operators), whenTrue, whenFalse))
  {
    hide *;
    ChainRanked(g, operands, operators);
    var ts := SpelledTokens(g, source, Asked(Written(g, operands, operators), Print(g, whenTrue, 0), Print(g, whenFalse, 0)));
    ConditionalsGroup(g, operands, operators, whenTrue, whenFalse, ts);
  }

  lemma SourceOperandsRead(g: Grammar, e: Expr, source: Text)
    requires Good(g, e) && !e.Binary? && !e.Conditional? && CelSource.SpelledFrom(source, 0, OperandWritten(g, e))
    ensures CelTokenizer.Compile(g, source) == Ok(e)
  {
    hide *;
    var ts := SpelledTokens(g, source, OperandWritten(g, e));
    OperandsRead(g, e, ts);
  }
}

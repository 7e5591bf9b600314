/** The two `Quote` functions for Windows command lines, and how they are parsed. */
module Quoting {
  // release/ReleaseHost.cs and tools/launcher/ZaicodeLauncher.cs, against the parsing rule of the Microsoft C
  // runtime.

  import opened Sequences
  import opened Texts

  const TAB: CodeUnit := 9
  const LINE_FEED: CodeUnit := 10
  const VERTICAL_TAB: CodeUnit := 11
  const SPACE: CodeUnit := 32
  const QUOTE: CodeUnit := 34
  const BACKSLASH: CodeUnit := 92

  function Slashes(n: nat): (text: Text)
    ensures |text| == n
  {
    if n == 0 then [] else [BACKSLASH] + Slashes(n - 1)
  }

  /** The rest of a quoted argument after `slashes` pending backslashes, with the closing quotation mark. */
  function Escaped(value: Text, slashes: nat): (text: Text)
    ensures text != []
    decreases |value|
  {
    if value == [] then Slashes(2 * slashes) + [QUOTE]
    else if value[0] == BACKSLASH then Escaped(value[1..], slashes + 1)
    else if value[0] == QUOTE then Slashes(2 * slashes + 1) + [QUOTE] + Escaped(value[1..], 0)
    else Slashes(slashes) + [value[0]] + Escaped(value[1..], 0)
  }

  function Quoted(value: Text): (text: Text)
    ensures text != []
  {
    [QUOTE] + Escaped(value, 0)
  }

  /** The code units for which the launcher quotes an argument. */
  predicate NeedsQuotes(c: CodeUnit) {
    c == SPACE || c == TAB || c == LINE_FEED || c == VERTICAL_TAB || c == QUOTE
  }

  predicate Plain(value: Text) {
    value != [] && forall k :: 0 <= k < |value| ==> !NeedsQuotes(value[k])
  }

  /** An argument as either program may write it. */
  function Write(value: Text, always: bool): (text: Text)
    ensures text != []
  {
    if !always && Plain(value) then value else Quoted(value)
  }

  function WriteAll(args: seq<Text>, always: bool): (parts: seq<Text>) {
    seq(|args|, k requires 0 <= k < |args| => Write(args[k], always))
  }

  /** `string.Join(" ", parts)`. */
  function Spaced(parts: seq<Text>): Text {
    if parts == [] then []
    else if |parts| == 1 then parts[0]
    else parts[0] + [SPACE] + Spaced(parts[1..])
  }

  function Join(args: seq<Text>, always: bool): Text {
    Spaced(WriteAll(args, always))
  }

  // ---------------------------------------------------------------------------------------------
  // The loops
  // ---------------------------------------------------------------------------------------------

  lemma {:induction false} SlashesMore(n: nat)
    ensures Slashes(n) + [BACKSLASH] == Slashes(n + 1)
    decreases n
  {
    if n > 0 {
      SlashesMore(n - 1);
      assert Slashes(n) + [BACKSLASH] == [BACKSLASH] + (Slashes(n - 1) + [BACKSLASH]);
    }
  }

  /** `Quote` of release/ReleaseHost.cs: one pass with a count of pending backslashes. */
  method QuoteAlways(value: Text) returns (output: Text)
    ensures output == Quoted(value)
  {
    output := [QUOTE];
    var slashes := 0;
    for k := 0 to |value|
      invariant output + Escaped(value[k..], slashes) == Quoted(value)
    {
      var character := value[k];
      assert value[k..][0] == character && value[k..][1..] == value[k + 1..];
      if character == BACKSLASH {
        slashes := slashes + 1;
        continue;
      }
      ghost var before := output;
      if character == QUOTE {
        output := output + Slashes(slashes * 2 + 1);
        output := output + [QUOTE];
        assert before + (Slashes(slashes * 2 + 1) + [QUOTE] + Escaped(value[k + 1..], 0)) == output + Escaped(value[k + 1..], 0);
      } else {
        output := output + Slashes(slashes);
        output := output + [character];
        assert before + (Slashes(slashes) + [character] + Escaped(value[k + 1..], 0)) == output + Escaped(value[k + 1..], 0);
      }
      slashes := 0;
    }
    assert output + (Slashes(slashes * 2) + [QUOTE]) == output + Slashes(slashes * 2) + [QUOTE];
    output := output + Slashes(slashes * 2);
    output := output + [QUOTE];
  }

  /** `Quote` of tools/launcher/ZaicodeLauncher.cs: nothing to quote, or runs of backslashes in an inner loop. */
  method QuoteWhenNeeded(argument: Text) returns (output: Text)
    ensures output == Write(argument, false)
  {
    hide Slashes;
    if argument == [] {
      assert Slashes(0) == [];
      return [QUOTE, QUOTE];
    }
    var special := IndexOfAny(argument);
    if special == |argument| {
      return argument;
    }
    output := [QUOTE];
    var i := 0;
    while i < |argument|
      invariant i <= |argument|
      invariant output + Escaped(argument[i..], 0) == Quoted(argument)
    {
      var backslashCount := 0;
      while i < |argument| && argument[i] == BACKSLASH
        invariant i <= |argument|
        invariant output + Escaped(argument[i..], backslashCount) == Quoted(argument)
      {
        assert argument[i..][0] == BACKSLASH && argument[i..][1..] == argument[i + 1..];
        backslashCount := backslashCount + 1;
        i := i + 1;
      }
      ghost var before := output;
      if i == |argument| {
        output := output + Slashes(backslashCount * 2);
        assert argument[i..] == [];
        assert before + (Slashes(2 * backslashCount) + [QUOTE]) == output + [QUOTE];
        break;
      }
      assert argument[i..][0] == argument[i] && argument[i..][1..] == argument[i + 1..];
      if argument[i] == QUOTE {
        output := output + Slashes(backslashCount * 2 + 1);
        output := output + [QUOTE];
        assert before + (Slashes(2 * backslashCount + 1) + [QUOTE] + Escaped(argument[i + 1..], 0))
            == output + Escaped(argument[i + 1..], 0);
      } else {
        output := output + Slashes(backslashCount);
        output := output + [argument[i]];
        assert before + (Slashes(backslashCount) + [argument[i]] + Escaped(argument[i + 1..], 0))
            == output + Escaped(argument[i + 1..], 0);
      }
      i := i + 1;
    }
    assert output + [QUOTE] == Quoted(argument);
    output := output + [QUOTE];
  }

  method IndexOfAny(argument: Text) returns (index: nat)
    ensures index <= |argument| && (index == |argument| <==> forall k :: 0 <= k < |argument| ==> !NeedsQuotes(argument[k]))
  {
    index := 0;
    while index < |argument| && !NeedsQuotes(argument[index])
      invariant index <= |argument| && forall k :: 0 <= k < index ==> !NeedsQuotes(argument[k])
    {
      index := index + 1;
    }
  }

  /** `Arguments` of release/ReleaseHost.cs. */
  method Arguments(args: seq<Text>) returns (line: Text)
    ensures line == Join(args, true)
  {
    var result: seq<Text> := [];
    for k := 0 to |args|
      invariant result == WriteAll(args[..k], true)
    {
      var quoted := QuoteAlways(args[k]);
      result := result + [quoted];
    }
    assert args[..|args|] == args;
    line := Spaced(result);
  }

  // ---------------------------------------------------------------------------------------------
  // The Microsoft C runtime's parser
  // ---------------------------------------------------------------------------------------------

  predicate Ends(line: Text, i: nat) {
    i >= |line| || line[i] == 0
  }

  predicate Blank(line: Text, i: nat) {
    i < |line| && (line[i] == SPACE || line[i] == TAB)
  }

  /** How many backslashes stand from `i` on. */
  function Run(line: Text, i: nat): (n: nat)
    ensures i <= |line| ==> i + n <= |line|
    decreases |line| - i
  {
    if i < |line| && line[i] == BACKSLASH then 1 + Run(line, i + 1) else 0
  }

  /**
   * One argument from `i` on and where it ends. Before a quotation mark, 2n backslashes are n and the mark
   * opens or closes a quoted part, and 2n + 1 are n and the mark is itself; elsewhere they are themselves.
   * Two marks inside a quoted part are one.
   */
  function ParseArgument(line: Text, i: nat, quoted: bool): (r: (Text, nat))
    requires i <= |line|
    ensures i <= r.1 <= |line| && (!quoted && !Ends(line, i) && !Blank(line, i) ==> i < r.1)
    decreases |line| - i
  {
    var n := Run(line, i);
    var k := i + n;
    if Ends(line, k) then (Slashes(n), k)
    else if line[k] == QUOTE then
      if n % 2 == 1 then Behind(Slashes(n / 2) + [QUOTE], ParseArgument(line, k + 1, quoted))
      else if quoted && k + 1 < |line| && line[k + 1] == QUOTE then
        Behind(Slashes(n / 2) + [QUOTE], ParseArgument(line, k + 2, quoted))
      else Behind(Slashes(n / 2), ParseArgument(line, k + 1, !quoted))
    else if !quoted && Blank(line, k) then (Slashes(n), k)
    else Behind(Slashes(n) + [line[k]], ParseArgument(line, k + 1, quoted))
  }

  function Behind(text: Text, r: (Text, nat)): (Text, nat) {
    (text + r.0, r.1)
  }

  /** All arguments of a command line from `i` on. */
  function ParseArguments(line: Text, i: nat): seq<Text>
    requires i <= |line|
    decreases |line| - i
  {
    if Ends(line, i) then []
    else if Blank(line, i) then ParseArguments(line, i + 1)
    else
      var (argument, end) := ParseArgument(line, i, false);
      [argument] + ParseArguments(line, end)
  }

  // ---------------------------------------------------------------------------------------------
  // Quoting and parsing
  // ---------------------------------------------------------------------------------------------

  predicate NulFree(value: Text) {
    forall k :: 0 <= k < |value| ==> value[k] != 0
  }

  /** Where an argument may end: at the end of the line or before a blank. */
  predicate Closes(line: Text, i: nat) {
    i <= |line| && (i == |line| || Blank(line, i))
  }

  lemma {:induction false} RunCounts(line: Text, i: nat, n: nat)
    requires Stands(line, i, Slashes(n)) && (i + n < |line| ==> line[i + n] != BACKSLASH)
    ensures Run(line, i) == n
    decreases n
  {
    if n > 0 {
      StandsFirst(line, i, Slashes(n));
      RunCounts(line, i + 1, n - 1);
    }
  }

  /** Backslashes, one code unit that is none, and the rest. */
  lemma RunThen(line: Text, i: nat, n: nat, c: CodeUnit, rest: Text)
    requires Stands(line, i, Slashes(n) + [c] + rest) && c != BACKSLASH
    ensures Run(line, i) == n && i + n < |line| && line[i + n] == c && Stands(line, i + n + 1, rest)
  {
    StandsSplit(line, i, Slashes(n) + [c], rest);
    StandsSplit(line, i, Slashes(n), [c]);
    StandsFirst(line, i + n, [c]);
    RunCounts(line, i, n);
  }

  /** Parsing from `i` on inside a quoted part yields `value` and ends at `end`. */
  ghost predicate Inside(line: Text, i: nat, value: Text, end: nat) {
    i <= |line| && ParseArgument(line, i, true) == (value, end)
  }

  lemma {:induction false} EscapedParses(line: Text, i: nat, value: Text, slashes: nat)
    requires Stands(line, i, Escaped(value, slashes)) && NulFree(value) && Closes(line, i + |Escaped(value, slashes)|)
    ensures Inside(line, i, Slashes(slashes) + value, i + |Escaped(value, slashes)|)
    decreases |value|
  {
    hide *;
    EscapedUnfolds(value, slashes);
    if value == [] {
      ClosingMark(line, i, slashes);
      assert Slashes(slashes) + value == Slashes(slashes);
    } else {
      var c, rest := value[0], value[1..];
      NulFreeParts(value);
      if c == BACKSLASH {
        EscapedParses(line, i, rest, slashes + 1);
        SlashesMore(slashes);
        assert Slashes(slashes) + value == Slashes(slashes) + [BACKSLASH] + rest;
      } else {
        var n := if c == QUOTE then 2 * slashes + 1 else slashes;
        RunThen(line, i, n, c, Escaped(rest, 0));
        EscapedParses(line, i + n + 1, rest, 0);
        UnitInside(line, i, slashes, c, rest, i + |Escaped(value, slashes)|);
        assert Slashes(slashes) + value == Slashes(slashes) + [c] + rest;
      }
    }
  }

  lemma EscapedUnfolds(value: Text, slashes: nat)
    ensures value == [] ==> Escaped(value, slashes) == Slashes(2 * slashes) + [QUOTE]
    ensures value != [] && value[0] == BACKSLASH ==> Escaped(value, slashes) == Escaped(value[1..], slashes + 1)
    ensures value != [] && value[0] != BACKSLASH ==>
              var n := if value[0] == QUOTE then 2 * slashes + 1 else slashes;
              Escaped(value, slashes) == Slashes(n) + [value[0]] + Escaped(value[1..], 0)
  {
    hide Slashes;
  }

  lemma NulFreeParts(value: Text)
    requires NulFree(value) && value != []
    ensures value[0] != 0 && NulFree(value[1..])
  {
  }

  lemma ClosingMark(line: Text, i: nat, slashes: nat)
    requires Stands(line, i, Slashes(2 * slashes) + [QUOTE]) && Closes(line, i + 2 * slashes + 1)
    ensures Inside(line, i, Slashes(slashes), i + 2 * slashes + 1)
  {
    assert Slashes(2 * slashes) + [QUOTE] + [] == Slashes(2 * slashes) + [QUOTE];
    RunThen(line, i, 2 * slashes, QUOTE, []);
    var end := i + 2 * slashes + 1;
    assert ParseArgument(line, end, false) == ([], end);
    assert Slashes(slashes) + [] == Slashes(slashes);
  }

  /** A quotation mark behind an odd run of backslashes, or any other unit behind any run. */
  lemma UnitInside(line: Text, i: nat, slashes: nat, c: CodeUnit, rest: Text, end: nat)
    requires c != 0 && c != BACKSLASH
    requires var n := if c == QUOTE then 2 * slashes + 1 else slashes;
             i + n < |line| && Run(line, i) == n && line[i + n] == c && Inside(line, i + n + 1, Slashes(0) + rest, end)
    ensures Inside(line, i, Slashes(slashes) + [c] + rest, end)
  {
    assert Slashes(0) + rest == rest;
    assert (2 * slashes + 1) / 2 == slashes;
  }

  lemma QuotedParses(line: Text, i: nat, value: Text)
    requires Stands(line, i, Quoted(value)) && NulFree(value) && Closes(line, i + |Quoted(value)|)
    ensures ParseArgument(line, i, false) == (value, i + |Quoted(value)|)
  {
    StandsFirst(line, i, Quoted(value));
    assert Quoted(value)[1..] == Escaped(value, 0);
    EscapedParses(line, i + 1, value, 0);
    assert Run(line, i) == 0;
    assert [] + ([] + value) == value;
  }

  /** Backslashes that no quotation mark follows stay as they are. */
  lemma {:induction false} PlainParses(line: Text, i: nat, value: Text)
    requires Stands(line, i, value) && NulFree(value) && Closes(line, i + |value|)
    requires forall k :: 0 <= k < |value| ==> !NeedsQuotes(value[k])
    ensures ParseArgument(line, i, false) == (value, i + |value|)
    decreases |value|
  {
    hide *;
    var n := LeadingRun(value);
    if n == |value| {
      assert value[..n] == value;
      OnlySlashes(line, i, n);
    } else {
      var rest := value[n + 1..];
      assert value == value[..n] + [value[n]] + rest;
      NulFreeSplit(value, n);
      RunThen(line, i, n, value[n], rest);
      PlainParses(line, i + n + 1, rest);
      PlainUnit(line, i, n, rest, i + |value|);
    }
  }

  lemma OnlySlashes(line: Text, i: nat, n: nat)
    requires Stands(line, i, Slashes(n)) && Closes(line, i + n)
    ensures i <= |line| && ParseArgument(line, i, false) == (Slashes(n), i + n)
  {
    RunCounts(line, i, n);
  }

  lemma NulFreeSplit(value: Text, n: nat)
    requires NulFree(value) && n < |value|
    ensures value[n] != 0 && NulFree(value[n + 1..])
  {
  }

  lemma PlainUnit(line: Text, i: nat, n: nat, rest: Text, end: nat)
    requires i + n < |line| && Run(line, i) == n && line[i + n] != 0 && !NeedsQuotes(line[i + n])
    requires ParseArgument(line, i + n + 1, false) == (rest, end)
    ensures ParseArgument(line, i, false) == (Slashes(n) + [line[i + n]] + rest, end)
  {
  }

  lemma LeadingRun(value: Text) returns (n: nat)
    ensures n <= |value| && value[..n] == Slashes(n) && (n < |value| ==> value[n] != BACKSLASH)
  {
    n := 0;
    while n < |value| && value[n] == BACKSLASH
      invariant n <= |value| && value[..n] == Slashes(n)
    {
      SlashesMore(n);
      assert value[..n + 1] == value[..n] + [BACKSLASH];
      n := n + 1;
    }
  }

  lemma WrittenParses(line: Text, i: nat, value: Text, always: bool)
    requires Stands(line, i, Write(value, always)) && NulFree(value) && Closes(line, i + |Write(value, always)|)
    ensures !Ends(line, i) && !Blank(line, i)
    ensures ParseArgument(line, i, false) == (value, i + |Write(value, always)|)
  {
    StandsFirst(line, i, Write(value, always));
    if !always && Plain(value) {
      PlainParses(line, i, value);
    } else {
      QuotedParses(line, i, value);
    }
  }

  lemma {:induction false} JoinedParses(line: Text, i: nat, args: seq<Text>, always: bool)
    requires i <= |line| && line[i..] == Join(args, always) && forall k :: 0 <= k < |args| ==> NulFree(args[k])
    ensures ParseArguments(line, i) == args
    decreases |args|
  {
    hide *;
    if args == [] {
      NoneParsed(line, i, args, always);
    } else if |args| == 1 {
      OnlyOne(line, i, args, always);
    } else {
      var end := i + |Write(args[0], always)|;
      FirstOfMany(line, i, args, always);
      ClosedByBlank(line, end);
      WrittenParses(line, i, args[0], always);
      JoinedParses(line, end + 1, args[1..], always);
      ParsedFirst(line, i, args, end);
    }
  }

  lemma NoneParsed(line: Text, i: nat, args: seq<Text>, always: bool)
    requires args == [] && i <= |line| && line[i..] == Join(args, always)
    ensures ParseArguments(line, i) == args
  {
    assert i == |line|;
  }

  lemma OnlyOne(line: Text, i: nat, args: seq<Text>, always: bool)
    requires |args| == 1 && i <= |line| && line[i..] == Join(args, always) && NulFree(args[0])
    ensures ParseArguments(line, i) == args
  {
    assert Join(args, always) == Write(args[0], always);
    hide ParseArgument, Write;
    WrittenParses(line, i, args[0], always);
    assert [args[0]] + [] == args;
  }

  lemma ClosedByBlank(line: Text, end: nat)
    requires end < |line| && line[end] == SPACE
    ensures Closes(line, end)
  {
  }

  lemma ParsedFirst(line: Text, i: nat, args: seq<Text>, end: nat)
    requires args != [] && i <= |line| && end < |line| && line[end] == SPACE && !Ends(line, i) && !Blank(line, i)
    requires ParseArgument(line, i, false) == (args[0], end) && ParseArguments(line, end + 1) == args[1..]
    ensures ParseArguments(line, i) == args
  {
    hide ParseArgument;
    assert ParseArguments(line, end) == ParseArguments(line, end + 1);
    assert [args[0]] + args[1..] == args;
  }

  lemma FirstOfMany(line: Text, i: nat, args: seq<Text>, always: bool)
    requires |args| > 1 && i <= |line| && line[i..] == Join(args, always)
    ensures var first := Write(args[0], always);
            var end := i + |first|;
            && Stands(line, i, first) && end < |line| && line[end] == SPACE
            && line[end + 1..] == Join(args[1..], always)
  {
    hide Write;
    var first, rest := Write(args[0], always), Join(args[1..], always);
    assert WriteAll(args, always)[1..] == WriteAll(args[1..], always);
    assert line[i..] == first + [SPACE] + rest;
    assert Stands(line, i, first + [SPACE] + rest);
    StandsSplit(line, i, first + [SPACE], rest);
    StandsSplit(line, i, first, [SPACE]);
    StandsFirst(line, i + |first|, [SPACE]);
    assert line[i + |first| + 1..] == rest;
  }

  lemma {:induction false} ParsedArgumentIsNulFree(line: Text, i: nat, quoted: bool)
    requires i <= |line|
    ensures NulFree(ParseArgument(line, i, quoted).0)
    decreases |line| - i
  {
    hide *;
    var head, j, inside := ParseUnfolds(line, i, quoted);
    if i < j <= |line| {
      ParsedArgumentIsNulFree(line, j, inside);
      NulFreeConcat(head, ParseArgument(line, j, inside).0);
    }
  }

  /** What an argument begins with: backslashes and perhaps one unit, and then the rest from a later position. */
  lemma ParseUnfolds(line: Text, i: nat, quoted: bool) returns (head: Text, j: nat, inside: bool)
    requires i <= |line|
    ensures NulFree(head)
    ensures if i < j <= |line| then ParseArgument(line, i, quoted).0 == head + ParseArgument(line, j, inside).0
            else ParseArgument(line, i, quoted).0 == head
  {
    hide Slashes, NulFree, Run;
    var n := Run(line, i);
    var k := i + n;
    SlashesAreNulFree(n);
    SlashesAreNulFree(n / 2);
    NulFreeUnit(Slashes(n / 2), QUOTE);
    if Ends(line, k) || (!quoted && Blank(line, k)) {
      head, j, inside := Slashes(n), i, quoted;
    } else if line[k] != QUOTE {
      NulFreeUnit(Slashes(n), line[k]);
      head, j, inside := Slashes(n) + [line[k]], k + 1, quoted;
    } else if n % 2 == 1 {
      head, j, inside := Slashes(n / 2) + [QUOTE], k + 1, quoted;
    } else if quoted && k + 1 < |line| && line[k + 1] == QUOTE {
      head, j, inside := Slashes(n / 2) + [QUOTE], k + 2, quoted;
    } else {
      head, j, inside := Slashes(n / 2), k + 1, !quoted;
    }
  }

  lemma NulFreeConcat(a: Text, b: Text)
    requires NulFree(a) && NulFree(b)
    ensures NulFree(a + b)
  {
  }

  lemma NulFreeUnit(a: Text, c: CodeUnit)
    requires NulFree(a) && c != 0
    ensures NulFree(a + [c])
  {
  }

  lemma {:induction false} SlashesAreNulFree(n: nat)
    ensures NulFree(Slashes(n))
  {
    if n > 0 {
      SlashesAreNulFree(n - 1);
    }
  }

  lemma {:induction false} ParsedAreNulFree(line: Text, i: nat)
    requires i <= |line|
    ensures forall k :: 0 <= k < |ParseArguments(line, i)| ==> NulFree(ParseArguments(line, i)[k])
    decreases |line| - i
  {
    if !Ends(line, i) {
      if Blank(line, i) {
        ParsedAreNulFree(line, i + 1);
      } else {
        ParsedArgumentIsNulFree(line, i, false);
        ParsedAreNulFree(line, ParseArgument(line, i, false).1);
      }
    }
  }

  /**
   * Parsing the joined line returns the arguments exactly when none contains a NUL, both for the program
   * that always quotes and for the one that quotes when it must.
   */
  lemma ArgumentsReturnExactlyWhen(args: seq<Text>, always: bool)
    ensures ParseArguments(Join(args, always), 0) == args <==> forall k :: 0 <= k < |args| ==> NulFree(args[k])
  {
    var line := Join(args, always);
    ParsedAreNulFree(line, 0);
    if forall k :: 0 <= k < |args| ==> NulFree(args[k]) {
      assert line[0..] == line;
      JoinedParses(line, 0, args, always);
    }
  }
}

// What the tokeniser and the grammar make of a line, said on literal characters and on positions of
// tokens, without their own definitions.
module ShellLines {
  import opened Util
  import opened ShellSyntax
  import opened ShellPrint
  import opened ShellRun

  /* Characters */

  lemma SpaceFirst(c: char, x: string)
    requires IsSpace(c)
    ensures Tokens([c] + x) == Tokens(x)
  {
    assert ([c] + x)[1..] == x;
    assert ([c] + x)[1 + SpaceRun(x)..] == x[SpaceRun(x)..];
  }

  // Space, tab, carriage return, newline and vertical tab separate tokens and make none.
  lemma WhiteSpaceSeparates(a: string, c: char, b: string)
    requires c == ' ' || c == '\t' || c == '\r' || c == '\n' || c == 11 as char
    ensures Tokens(a + [c] + b) == Tokens(a) + Tokens(b)
  {
    hide Tokens;
    assert a + [c] + b == a + ([c] + b);
    TokensAppend(a, [c] + b);
    SpaceFirst(c, b);
  }

  // The three symbols are tokens by themselves, wherever they stand.
  lemma SymbolsStandAlone(a: string, b: string)
    ensures Tokens(a + "<" + b) == Tokens(a) + [Redir(In)] + Tokens(b)
    ensures Tokens(a + ">" + b) == Tokens(a) + [Redir(Out)] + Tokens(b)
    ensures Tokens(a + "|" + b) == Tokens(a) + [Bar] + Tokens(b)
  {
    SymbolStandsAlone(a, '<', b);
    SymbolStandsAlone(a, '>', b);
    SymbolStandsAlone(a, '|', b);
  }

  lemma SymbolStandsAlone(a: string, c: char, b: string)
    requires IsSymbol(c)
    ensures Tokens(a + [c] + b) == Tokens(a) + [SymbolToken(c)] + Tokens(b)
  {
    hide Tokens, SymbolToken;
    assert a + [c] + b == a + ([c] + b);
    TokensAppend(a, [c] + b);
    SymbolFirst(c, b);
  }

  predicate IsPlain(c: char) {
    c !in {' ', '\t', '\r', '\n', 11 as char, '<', '|', '>'}
  }

  lemma WordsArePlain(w: string)
    requires w != [] && Tokens(w) == [Word(w)]
    ensures IsWord(w)
  {
    TokensAreGood(w);
    assert Tokens(w)[0].w == w;
  }

  // Any other characters in a row are one word, and nothing else is.
  lemma PlainTextIsAWord(w: string)
    requires w != []
    ensures Tokens(w) == [Word(w)] <==>
            forall i :: 0 <= i < |w| ==> w[i] !in {' ', '\t', '\r', '\n', 11 as char, '<', '|', '>'}
  {
    hide Tokens;
    if IsWord(w) {
      WordTokens(w);
    }
    if Tokens(w) == [Word(w)] {
      WordsArePlain(w);
    }
  }

  lemma NoText()
    ensures Tokens("") == []
  {
  }

  // The newline that fgets() leaves at the end of a line is of no account.
  lemma NewlineIsIgnored(line: string)
    ensures ParseLine(line + "\n") == ParseLine(line)
  {
    hide Tokens;
    WhiteSpaceSeparates(line, '\n', "");
    NoText();
    assert line + ['\n'] + "" == line + "\n" && Tokens(line) + [] == Tokens(line);
  }

  /* Stages */

  // The words among the first "k" tokens that no redirection takes as its file.
  function ArgsOf(ts: seq<Token>, k: nat): seq<string>
    requires k <= |ts|
  {
    if k == 0 then []
    else if ts[k - 1].Word? && (k == 1 || !ts[k - 2].Redir?) then ArgsOf(ts, k - 1) + [ts[k - 1].w]
    else ArgsOf(ts, k - 1)
  }

  // The others, each with its direction.
  function RedirsOf(ts: seq<Token>, k: nat): seq<Redirection>
    requires k <= |ts|
  {
    if k == 0 then []
    else if ts[k - 1].Word? && k > 1 && ts[k - 2].Redir? then RedirsOf(ts, k - 1) + [Redirection(ts[k - 1].w, ts[k - 2].dir)]
    else RedirsOf(ts, k - 1)
  }

  ghost predicate HoldsUpTo(ts: seq<Token>, k: nat, st: Stage) {
    k <= |ts| && st.args == ArgsOf(ts, k) && st.redirs == RedirsOf(ts, k)
  }

  lemma {:induction false} StageHoldsFrom(ts: seq<Token>, i: nat, st: Stage) returns (b: nat)
    requires HoldsUpTo(ts, i, st) && (i == 0 || !ts[i - 1].Redir?) && ParseStage(st, ts[i..]).Parsed?
    ensures i <= b <= |ts| && ParseStage(st, ts[i..]).rest == ts[b..]
    ensures (b == |ts| || ts[b] == Bar) && forall k :: i <= k < b ==> ts[k] != Bar
    ensures HoldsUpTo(ts, b, ParseStage(st, ts[i..]).stage)
    decreases |ts| - i
  {
    if i == |ts| || ts[i] == Bar {
      b := i;
    } else if ts[i].Redir? {
      var st' := st.(redirs := st.redirs + [Redirection(ts[i + 1].w, ts[i].dir)]);
      assert ts[i..][2..] == ts[i + 2..];
      TwoMore(ts, i);
      b := StageHoldsFrom(ts, i + 2, st');
    } else {
      var st' := st.(args := st.args + [ts[i].w]);
      assert ts[i..][1..] == ts[i + 1..];
      b := StageHoldsFrom(ts, i + 1, st');
    }
  }

  lemma TwoMore(ts: seq<Token>, i: nat)
    requires i + 1 < |ts| && ts[i].Redir? && ts[i + 1].Word?
    ensures ArgsOf(ts, i + 2) == ArgsOf(ts, i)
    ensures RedirsOf(ts, i + 2) == RedirsOf(ts, i) + [Redirection(ts[i + 1].w, ts[i].dir)]
  {
    assert ArgsOf(ts, i + 1) == ArgsOf(ts, i) && RedirsOf(ts, i + 1) == RedirsOf(ts, i);
  }

  // An accepted line without a bar is one stage, whose arguments and redirections are in the order
  // written, however they are mixed.
  lemma OneStage(ts: seq<Token>)
    requires Bar !in ts && ParseStages(ts).Ok?
    ensures ParseStages(ts).value == [Stage(ArgsOf(ts, |ts|), RedirsOf(ts, |ts|))]
  {
    assert ts[0..] == ts;
    var b := StageHoldsFrom(ts, 0, EMPTY_STAGE);
  }

  // A bar ends a stage, and what follows it is parsed by itself.
  lemma BarEndsStage(ts: seq<Token>, us: seq<Token>)
    requires Bar !in ts && ParseStages(ts + [Bar] + us).Ok?
    ensures ParseStages(us).Ok?
    ensures ParseStages(ts + [Bar] + us).value == [Stage(ArgsOf(ts, |ts|), RedirsOf(ts, |ts|))] + ParseStages(us).value
  {
    var all := ts + [Bar] + us;
    assert all[0..] == all;
    var b := StageHoldsFrom(all, 0, EMPTY_STAGE);
    assert all[|ts|] == Bar;
    assert forall k :: 0 <= k < |ts| ==> all[k] == ts[k] && ts[k] in ts;
    SamePrefix(ts, all, b);
    assert all[b..][1..] == us;
  }

  lemma {:induction false} SamePrefix(ts: seq<Token>, us: seq<Token>, k: nat)
    requires k <= |ts| <= |us| && forall i :: 0 <= i < |ts| ==> us[i] == ts[i]
    ensures ArgsOf(us, k) == ArgsOf(ts, k) && RedirsOf(us, k) == RedirsOf(ts, k)
  {
    if k > 0 {
      SamePrefix(ts, us, k - 1);
    }
  }

  /* Rejected lines */

  // The words among tokens a..b that are not files.
  function ArgPositions(ts: seq<Token>, a: nat, b: nat): set<nat>
    requires a <= b <= |ts|
  {
    set k: nat | a <= k < b && ts[k].Word? && (k == 0 || !ts[k - 1].Redir?)
  }

  lemma {:induction false} ArgCountIs(ts: seq<Token>, a: nat, b: nat)
    requires a <= b <= |ts|
    ensures ArgCount(ts, a, b) == |ArgPositions(ts, a, b)|
  {
    if a < b {
      ArgCountIs(ts, a, b - 1);
      assert ArgPositions(ts, a, b) == ArgPositions(ts, a, b - 1) + if IsArg(ts, b - 1) then {b - 1} else {};
    } else {
      assert ArgPositions(ts, a, b) == {};
    }
  }

  // Some "<" or ">" has no word after it.
  ghost predicate LacksFile(ts: seq<Token>) {
    exists k :: 0 <= k < |ts| && ts[k].Redir? && (k + 1 == |ts| || !ts[k + 1].Word?)
  }

  // From a bar, or the start, to before the next one there are ten words that are not files.
  ghost predicate TenWords(ts: seq<Token>) {
    exists a: nat, b: nat :: a <= b <= |ts| && (a == 0 || ts[a - 1] == Bar) && Bar !in ts[a..b] &&
      |ArgPositions(ts, a, b)| >= 10
  }

  lemma TenWordsIff(ts: seq<Token>)
    ensures TenWords(ts) <==> exists a: nat, b: nat :: Crowded(ts, a, b)
  {
    forall a: nat, b: nat | a <= b <= |ts|
      ensures Bar !in ts[a..b] <==> forall k :: a <= k < b ==> ts[k] != Bar
      ensures ArgCount(ts, a, b) == |ArgPositions(ts, a, b)|
    {
      ArgCountIs(ts, a, b);
      assert forall k :: a <= k < b ==> ts[k] == ts[a..b][k - a];
    }
    if a: nat, b: nat :| Crowded(ts, a, b) {
      assert a <= b <= |ts| && (a == 0 || ts[a - 1] == Bar) && Bar !in ts[a..b];
    }
    if TenWords(ts) {
      var a: nat, b: nat :| a <= b <= |ts| && (a == 0 || ts[a - 1] == Bar) && Bar !in ts[a..b] &&
        |ArgPositions(ts, a, b)| >= 10;
      assert Crowded(ts, a, b);
    }
  }

  lemma LacksFileIff(ts: seq<Token>)
    ensures LacksFile(ts) <==> exists k: nat :: Dangling(ts, k)
  {
    if k: nat :| Dangling(ts, k) {
      assert ts[k].Redir?;
    }
    if LacksFile(ts) {
      var k :| 0 <= k < |ts| && ts[k].Redir? && (k + 1 == |ts| || !ts[k + 1].Word?);
      assert Dangling(ts, k);
    }
  }

  // A line is rejected for one of two reasons, each of which it gives only when it applies.
  lemma {:induction false} RejectedWhen(s: string)
    ensures ParseLine(s).Err? <==> LacksFile(Tokens(s)) || TenWords(Tokens(s))
    ensures ParseLine(s) == Err(MissingFile) ==> LacksFile(Tokens(s))
    ensures ParseLine(s) == Err(TooManyArgs) ==> TenWords(Tokens(s))
  {
    hide Tokens, LacksFile, TenWords, ParseStages;
    RejectedIff(s);
    LacksFileIff(Tokens(s));
    TenWordsIff(Tokens(s));
    assert Tokens(s)[0..] == Tokens(s);
    ReasonApplies(Tokens(s), 0);
  }

  lemma {:induction false} ReasonApplies(ts: seq<Token>, a: nat)
    requires a <= |ts| && (a == 0 || ts[a - 1] == Bar)
    ensures ParseStages(ts[a..]) == Err(MissingFile) ==> exists k: nat :: Dangling(ts, k)
    ensures ParseStages(ts[a..]) == Err(TooManyArgs) ==> exists x: nat, b: nat :: Crowded(ts, x, b)
    decreases |ts| - a
  {
    StageFrom(ts, a, a, EMPTY_STAGE);
    if ParseStage(EMPTY_STAGE, ts[a..]).Parsed? {
      var b := CompleteStage(ts, a);
      if b < |ts| {
        assert ts[b..][1..] == ts[b + 1..];
        ReasonApplies(ts, b + 1);
      }
    }
  }

  /* Ten arguments */

  lemma {:induction false} TooMany(st: Stage, args: seq<string>)
    requires |st.args| < MAXARGS <= |st.args| + |args|
    ensures ParseStage(st, CmdTokens(Exec(args))) == Failed(TooManyArgs)
    decreases |args|
  {
    var st' := st.(args := st.args + [args[0]]);
    assert CmdTokens(Exec(args))[1..] == CmdTokens(Exec(args[1..]));
    if |st'.args| < MAXARGS {
      TooMany(st', args[1..]);
    }
  }

  // Words with spaces between them are a command if and only if there are at most nine.
  lemma NineArgumentsAtMost(args: seq<string>)
    requires forall w :: w in args ==> IsWord(w)
    ensures ParseLine(PrintArgs(args)) == if |args| <= 9 then Ok(Exec(args)) else Err(TooManyArgs)
  {
    if |args| <= 9 {
      PrintThenParse(Exec(args));
    } else {
      ArgsTokens(args);
      TooMany(EMPTY_STAGE, args);
    }
  }

  lemma AddLetter(text: string, c: char, longer: string, ws: seq<string>)
    requires IsPlain(c) && longer == text + " " + [c] && Tokens(text) == CmdTokens(Exec(ws))
    ensures Tokens(longer) == CmdTokens(Exec(ws + [[c]]))
  {
    hide Tokens;
    WhiteSpaceSeparates(text, ' ', [c]);
    PlainTextIsAWord([c]);
  }

  lemma LetterTokens()
    ensures Tokens("a b c d e f g h i") == CmdTokens(Exec(["a", "b", "c", "d", "e", "f", "g", "h", "i"]))
  {
    hide Tokens;
    PlainTextIsAWord("a");
    assert Tokens("a") == CmdTokens(Exec(["a"]));
    AddLetter("a", 'b', "a b", ["a"]);
    AddLetter("a b", 'c', "a b c", ["a", "b"]);
    AddLetter("a b c", 'd', "a b c d", ["a", "b", "c"]);
    AddLetter("a b c d", 'e', "a b c d e", ["a", "b", "c", "d"]);
    AddLetter("a b c d e", 'f', "a b c d e f", ["a", "b", "c", "d", "e"]);
    AddLetter("a b c d e f", 'g', "a b c d e f g", ["a", "b", "c", "d", "e", "f"]);
    AddLetter("a b c d e f g", 'h', "a b c d e f g h", ["a", "b", "c", "d", "e", "f", "g"]);
    AddLetter("a b c d e f g h", 'i', "a b c d e f g h i", ["a", "b", "c", "d", "e", "f", "g", "h"]);
  }

  // Nine letters are a command; a tenth is one too many.
  lemma TenLetters()
    ensures ParseLine("a b c d e f g h i") == Ok(Exec(["a", "b", "c", "d", "e", "f", "g", "h", "i"]))
    ensures ParseLine("a b c d e f g h i j") == Err(TooManyArgs)
  {
    hide Tokens;
    var nine := ["a", "b", "c", "d", "e", "f", "g", "h", "i"];
    LetterTokens();
    ParsePrinted(Exec(nine));
    AddLetter("a b c d e f g h i", 'j', "a b c d e f g h i j", nine);
    TooMany(EMPTY_STAGE, nine + [['j']]);
  }

  /* From a line to its processes */

  lemma ExampleTokens()
    ensures Tokens("ls <a >b >c|wc\n") ==
            [Word("ls"), Redir(In), Word("a"), Redir(Out), Word("b"), Redir(Out), Word("c"), Bar, Word("wc")]
  {
    hide Tokens;
    NoText();
    PlainTextIsAWord("ls");
    PlainTextIsAWord("a");
    PlainTextIsAWord("b");
    PlainTextIsAWord("c");
    PlainTextIsAWord("wc");
    WhiteSpaceSeparates("ls <a >b >c|wc", '\n', "");
    SymbolsStandAlone("ls <a >b >c", "wc");
    SymbolsStandAlone("ls <a >b ", "c");
    WhiteSpaceSeparates("ls <a >b", ' ', "");
    SymbolsStandAlone("ls <a ", "b");
    WhiteSpaceSeparates("ls <a", ' ', "");
    SymbolsStandAlone("ls ", "a");
    WhiteSpaceSeparates("ls", ' ', "");
    assert "ls <a >b >c|wc" + ['\n'] + "" == "ls <a >b >c|wc\n";
    assert "ls <a >b >c" + "|" + "wc" == "ls <a >b >c|wc";
    assert "ls <a >b " + ">" + "c" == "ls <a >b >c";
    assert "ls <a >b" + [' '] + "" == "ls <a >b ";
    assert "ls <a " + ">" + "b" == "ls <a >b";
    assert "ls <a" + [' '] + "" == "ls <a ";
    assert "ls " + "<" + "a" == "ls <a";
    assert "ls" + [' '] + "" == "ls ";
  }

  const LS: Cmd := Redirect(Redirect(Redirect(Exec(["ls"]), "a", In), "b", Out), "c", Out)
  const WC: Cmd := Exec(["wc"])

  lemma ExampleIsPlain()
    ensures IsStageCmd(LS) && IsStageCmd(WC)
  {
    assert IsWord("ls") && IsWord("wc") && IsWord("a") && IsWord("b") && IsWord("c");
  }

  lemma ExampleTree()
    ensures ParseLine("ls <a >b >c|wc\n") == Ok(Pipe(LS, WC))
  {
    hide Tokens;
    ExampleTokens();
    ExampleIsPlain();
    assert CmdTokens(Exec(["ls"])) == [Word("ls")] && CmdTokens(WC) == [Word("wc")];
    assert CmdTokens(Pipe(LS, WC)) == Tokens("ls <a >b >c|wc\n");
    ParsePrinted(Pipe(LS, WC));
  }

  lemma ExampleStage(given0: File, given1: File, given2: File)
    ensures IsStageCmd(LS) && StageOf(LS).args == ["ls"]
    ensures StageFds(given0, given1, given2, StageOf(LS).redirs) == map[0 := Opened("a", In), 1 := Opened("b", Out), 2 := given2]
  {
    ExampleIsPlain();
    var rs := [Redirection("a", In), Redirection("b", Out), Redirection("c", Out)];
    assert StageOf(LS).redirs == rs && rs[1..] == [Redirection("b", Out), Redirection("c", Out)];
    assert FirstFile(rs, In) == Some("a") && FirstFile(rs[1..], Out) == Some("b");
  }

  // In full: ls reads from a and writes to b, neither to c nor to the pipe; wc reads from the pipe.
  lemma ExampleProcesses(fds: Fds)
    requires fds == map[0 := Given(0), 1 := Given(1), 2 := Given(2)]
    ensures ParseLine("ls <a >b >c|wc\n").Ok?
    ensures Outcome(ParseLine("ls <a >b >c|wc\n").value, fds, 0).0 ==
            [ Leaf(["ls"], map[0 := Opened("a", In), 1 := Opened("b", Out), 2 := Given(2)]),
              Leaf(["wc"], map[0 := ReadEnd(0), 1 := Given(1), 2 := Given(2)]) ]
  {
    hide ParseLine, Outcome, IsStageCmd, StageFds;
    ExampleTree();
    ExampleIsPlain();
    PipeOutcome(Pipe(LS, WC), fds, 0);
    ExampleStage(fds[0], WriteEnd(0), fds[2]);
    StageOutcome(WC, fds[0 := ReadEnd(0)], 1);
    NoRedirections(ReadEnd(0), Given(1), Given(2));
  }

  lemma NoRedirections(given0: File, given1: File, given2: File)
    ensures StageFds(given0, given1, given2, []) == map[0 := given0, 1 := given1, 2 := given2]
  {
  }
}

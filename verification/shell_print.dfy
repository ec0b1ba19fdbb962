// Printing a command and parsing it again.
module ShellPrint {
  import opened Util
  import opened ShellSyntax

  /* Tokens of a concatenation */

  lemma {:induction false} SpaceRunAppend(a: string, x: string)
    ensures SpaceRun(a + x) == if SpaceRun(a) < |a| then SpaceRun(a) else |a| + SpaceRun(x)
  {
    if a == [] {
      assert a + x == x;
    } else {
      assert (a + x)[1..] == a[1..] + x;
      SpaceRunAppend(a[1..], x);
    }
  }

  lemma {:induction false} WordRunAppend(a: string, x: string)
    requires x == [] || !IsWordChar(x[0])
    ensures WordRun(a + x) == WordRun(a)
  {
    if a == [] {
      assert a + x == x;
    } else {
      assert (a + x)[1..] == a[1..] + x;
      WordRunAppend(a[1..], x);
    }
  }

  lemma FirstTokenAppend(t: string, x: string)
    requires t != [] && !IsSpace(t[0]) && (x == [] || !IsWordChar(x[0]))
    ensures FirstToken(t + x) == FirstToken(t) && FirstLength(t + x) == FirstLength(t)
    ensures (t + x)[FirstLength(t)..] == t[FirstLength(t)..] + x
  {
    WordRunAppend(t, x);
    assert (t + x)[..WordRun(t)] == t[..WordRun(t)];
  }

  // One step of the tokeniser, at a text "t" that follows "n" white-space characters.
  lemma TokensStep(s: string, n: nat, t: string)
    requires n == SpaceRun(s) < |s| && t == s[n..]
    ensures Tokens(s) == [FirstToken(t)] + Tokens(t[FirstLength(t)..])
  {
  }

  lemma TokensAfterSpaces(s: string, t: string)
    requires t == s[SpaceRun(s)..]
    ensures Tokens(s) == if t == [] then [] else [FirstToken(t)] + Tokens(t[FirstLength(t)..])
  {
  }

  lemma TokensOfSpaces(a: string, x: string)
    requires SpaceRun(a) == |a|
    ensures Tokens(a + x) == Tokens(x)
  {
    hide Tokens, FirstToken, FirstLength, IsSpace;
    SpaceRunAppend(a, x);
    assert (a + x)[|a| + SpaceRun(x)..] == x[SpaceRun(x)..];
    TokensAfterSpaces(a + x, x[SpaceRun(x)..]);
    TokensAfterSpaces(x, x[SpaceRun(x)..]);
  }

  // The first token of "a" is also the first token of "a" with more text after it.
  lemma TokensAppendHead(a: string, x: string) returns (f: Token, rest: string)
    requires SpaceRun(a) < |a| && (x == [] || !IsWordChar(x[0]))
    ensures |rest| < |a|
    ensures Tokens(a) == [f] + Tokens(rest) && Tokens(a + x) == [f] + Tokens(rest + x)
  {
    var n := SpaceRun(a);
    var t := a[n..];
    f, rest := FirstToken(t), t[FirstLength(t)..];
    SpaceRunAppend(a, x);
    assert (a + x)[n..] == t + x;
    TokensStep(a, n, t);
    TokensStep(a + x, n, t + x);
    FirstTokenAppend(t, x);
  }

  // A text that does not go on a word of "a" adds its own tokens.
  lemma {:induction false} TokensAppend(a: string, x: string)
    requires x == [] || !IsWordChar(x[0])
    ensures Tokens(a + x) == Tokens(a) + Tokens(x)
    decreases |a|
  {
    if SpaceRun(a) == |a| {
      TokensOfSpaces(a, x);
    } else {
      var f, rest := TokensAppendHead(a, x);
      TokensAppend(rest, x);
      Join(f, Tokens(rest), Tokens(x), Tokens(a), Tokens(a + x));
    }
  }

  lemma Join(f: Token, r: seq<Token>, x: seq<Token>, fr: seq<Token>, frx: seq<Token>)
    requires fr == [f] + r && frx == [f] + (r + x)
    ensures frx == fr + x
  {
  }

  lemma TokensSkipSpace(x: string)
    ensures Tokens(" " + x) == Tokens(x)
  {
    assert (" " + x)[1..] == x;
    assert (" " + x)[1 + SpaceRun(x)..] == x[SpaceRun(x)..];
  }

  /* Printing */

  predicate IsWord(w: string) {
    w != [] && forall i :: 0 <= i < |w| ==> IsWordChar(w[i])
  }

  function PrintArgs(args: seq<string>): string {
    if args == [] then "" else PrintArgs(args[..|args| - 1]) + " " + args[|args| - 1]
  }

  function DirChar(d: Dir): char {
    if d.In? then '<' else '>'
  }

  // Arguments, then redirections from the innermost to the outermost, stages joined by bars.
  function Print(c: Cmd): string {
    match c
    case Exec(args) => PrintArgs(args)
    case Redirect(sub, file, dir) => Print(sub) + ([' ', DirChar(dir)] + (" " + file))
    case Pipe(l, r) => Print(l) + ([' ', '|'] + Print(r))
  }

  // The tokens a command is printed as.
  function CmdTokens(c: Cmd): seq<Token> {
    match c
    case Exec(args) => seq(|args|, i requires 0 <= i < |args| => Word(args[i]))
    case Redirect(sub, file, dir) => CmdTokens(sub) + [Redir(dir), Word(file)]
    case Pipe(l, r) => CmdTokens(l) + [Bar] + CmdTokens(r)
  }

  // The trees the parser builds.
  predicate IsStageCmd(c: Cmd) {
    match c
    case Exec(args) => |args| < MAXARGS && forall i :: 0 <= i < |args| ==> IsWord(args[i])
    case Redirect(sub, file, dir) => IsStageCmd(sub) && IsWord(file)
    case Pipe(_, _) => false
  }

  predicate InImage(c: Cmd) {
    match c
    case Pipe(l, r) => IsStageCmd(l) && InImage(r)
    case _ => IsStageCmd(c)
  }

  lemma {:induction false} WordTokens(w: string)
    requires IsWord(w)
    ensures Tokens(w) == [Word(w)]
  {
    WholeWord(w);
    assert w[..|w|] == w && w[|w|..] == [];
  }

  lemma {:induction false} WholeWord(w: string)
    requires forall i :: 0 <= i < |w| ==> IsWordChar(w[i])
    ensures WordRun(w) == |w|
  {
    if w != [] {
      WholeWord(w[1..]);
    }
  }

  lemma AddArgTokens(text: string, w: string)
    requires IsWord(w)
    ensures Tokens(text + (" " + w)) == Tokens(text) + [Word(w)]
  {
    TokensAppend(text, " " + w);
    TokensSkipSpace(w);
    WordTokens(w);
  }

  lemma {:induction false} ArgsTokens(args: seq<string>)
    requires forall i :: 0 <= i < |args| ==> IsWord(args[i])
    ensures Tokens(PrintArgs(args)) == CmdTokens(Exec(args))
  {
    if args != [] {
      var init, w := args[..|args| - 1], args[|args| - 1];
      ArgsTokens(init);
      AddArgTokens(PrintArgs(init), w);
      PrintArgsLast(args);
    }
  }

  lemma PrintArgsLast(args: seq<string>)
    requires args != []
    ensures var init, w := args[..|args| - 1], args[|args| - 1];
            && PrintArgs(args) == PrintArgs(init) + (" " + w)
            && CmdTokens(Exec(args)) == CmdTokens(Exec(init)) + [Word(w)]
  {
  }

  lemma SymbolFirst(c: char, x: string)
    requires IsSymbol(c)
    ensures Tokens([c] + x) == [SymbolToken(c)] + Tokens(x)
  {
    var y := [c] + x;
    assert y[0..] == y && y[1..] == x;
    TokensStep(y, 0, y);
  }

  lemma SymbolTokens(c: char, x: string)
    requires IsSymbol(c)
    ensures Tokens([' ', c] + x) == [SymbolToken(c)] + Tokens(x)
  {
    SymbolFirst(c, x);
    TokensSkipSpace([c] + x);
    assert [' ', c] + x == " " + ([c] + x);
  }

  lemma RedirTokens(file: string, dir: Dir)
    requires IsWord(file)
    ensures Tokens([' ', DirChar(dir)] + (" " + file)) == [Redir(dir), Word(file)]
  {
    SymbolTokens(DirChar(dir), " " + file);
    TokensSkipSpace(file);
    WordTokens(file);
  }

  lemma {:induction false} PrintTokens(c: Cmd)
    requires InImage(c)
    ensures Tokens(Print(c)) == CmdTokens(c)
  {
    match c
    case Exec(args) => ArgsTokens(args);
    case Redirect(sub, file, dir) =>
      PrintTokens(sub);
      TokensAppend(Print(sub), [' ', DirChar(dir)] + (" " + file));
      RedirTokens(file, dir);
    case Pipe(l, r) =>
      PrintTokens(l);
      PrintTokens(r);
      TokensAppend(Print(l), [' ', '|'] + Print(r));
      SymbolTokens('|', Print(r));
  }

  /* Parsing what was printed */

  // The stage a redirected command came from.
  function StageOf(c: Cmd): Stage
    requires IsStageCmd(c)
  {
    match c
    case Exec(args) => Stage(args, [])
    case Redirect(sub, file, dir) => var st := StageOf(sub); st.(redirs := st.redirs + [Redirection(file, dir)])
  }

  lemma {:induction false} StageOfIsInverse(c: Cmd)
    requires IsStageCmd(c)
    ensures StageCmd(StageOf(c)) == c
    ensures |StageOf(c).args| < MAXARGS
  {
    if c.Redirect? {
      StageOfIsInverse(c.sub);
      var st := StageOf(c.sub);
      var rs := StageOf(c).redirs;
      assert rs[..|rs| - 1] == st.redirs;
    }
  }

  lemma {:induction false} ParseArgs(st: Stage, args: seq<string>, tail: seq<Token>)
    requires |st.args| + |args| < MAXARGS
    ensures ParseStage(st, CmdTokens(Exec(args)) + tail) == ParseStage(st.(args := st.args + args), tail)
    decreases |args|
  {
    var ts := CmdTokens(Exec(args)) + tail;
    if args == [] {
      assert ts == tail && st.args + args == st.args;
    } else {
      assert ts[0] == Word(args[0]) && ts[1..] == CmdTokens(Exec(args[1..])) + tail;
      var st' := st.(args := st.args + [args[0]]);
      ParseArgs(st', args[1..], tail);
      assert st'.args + args[1..] == st.args + args;
    }
  }

  // Parsing the tokens of a stage command yields its stage, and goes on with what follows.
  lemma {:induction false} ParseStageCmd(c: Cmd, tail: seq<Token>)
    requires IsStageCmd(c)
    ensures ParseStage(EMPTY_STAGE, CmdTokens(c) + tail) == ParseStage(StageOf(c), tail)
  {
    match c
    case Exec(args) =>
      ParseArgs(EMPTY_STAGE, args, tail);
      assert EMPTY_STAGE.args + args == args;
    case Redirect(sub, file, dir) =>
      var tail' := [Redir(dir), Word(file)] + tail;
      assert CmdTokens(c) + tail == CmdTokens(sub) + tail';
      ParseStageCmd(sub, tail');
      assert tail'[2..] == tail;
  }

  lemma {:induction false} ParsePrinted(c: Cmd)
    requires InImage(c)
    ensures var r := ParseStages(CmdTokens(c)); r.Ok? && Build(r.value) == c
  {
    var first := if c.Pipe? then c.left else c;
    var tail := if c.Pipe? then [Bar] + CmdTokens(c.right) else [];
    StageOfIsInverse(first);
    ParseStageCmd(first, tail);
    assert CmdTokens(c) == CmdTokens(first) + tail;
    if c.Pipe? {
      assert tail[1..] == CmdTokens(c.right);
      ParsePrinted(c.right);
      var sts := ParseStages(CmdTokens(c.right)).value;
      assert ([StageOf(first)] + sts)[1..] == sts;
    }
  }

  // Printing a tree the parser can build and parsing the text gives the same tree.
  lemma PrintThenParse(c: Cmd)
    requires InImage(c)
    ensures ParseLine(Print(c)) == Ok(c)
  {
    PrintTokens(c);
    ParsePrinted(c);
  }

  /* The image of the parser */

  ghost predicate GoodTokens(ts: seq<Token>) {
    forall k :: 0 <= k < |ts| && ts[k].Word? ==> IsWord(ts[k].w)
  }

  lemma {:induction false} WordRunIsWord(s: string)
    ensures forall i :: 0 <= i < WordRun(s) ==> IsWordChar(s[i])
  {
    if s != [] && IsWordChar(s[0]) {
      WordRunIsWord(s[1..]);
      assert forall i :: 0 < i < WordRun(s) ==> s[i] == s[1..][i - 1];
    }
  }

  lemma {:induction false} TokensAreGood(s: string)
    ensures GoodTokens(Tokens(s))
    decreases |s|
  {
    var t := s[SpaceRun(s)..];
    if t != [] {
      WordRunIsWord(t);
      TokensAreGood(t[FirstLength(t)..]);
    }
  }

  ghost predicate GoodStage(st: Stage) {
    && |st.args| < MAXARGS
    && (forall i :: 0 <= i < |st.args| ==> IsWord(st.args[i]))
    && (forall i :: 0 <= i < |st.redirs| ==> IsWord(st.redirs[i].file))
  }

  lemma {:induction false} StageIsGood(st: Stage, ts: seq<Token>)
    requires GoodStage(st) && GoodTokens(ts) && ParseStage(st, ts).Parsed?
    ensures GoodStage(ParseStage(st, ts).stage) && GoodTokens(ParseStage(st, ts).rest)
    decreases |ts|
  {
    if ts != [] && ts[0].Redir? {
      StageIsGood(st.(redirs := st.redirs + [Redirection(ts[1].w, ts[0].dir)]), ts[2..]);
    } else if ts != [] && ts[0].Word? {
      StageIsGood(st.(args := st.args + [ts[0].w]), ts[1..]);
    }
  }

  lemma {:induction false} StageCmdInImage(c: Cmd, rs: seq<Redirection>)
    requires IsStageCmd(c) && forall i :: 0 <= i < |rs| ==> IsWord(rs[i].file)
    ensures IsStageCmd(Wrap(c, rs))
    decreases |rs|
  {
    if rs != [] {
      StageCmdInImage(c, rs[..|rs| - 1]);
    }
  }

  lemma {:induction false} BuiltInImage(ts: seq<Token>)
    requires GoodTokens(ts) && ParseStages(ts).Ok?
    ensures InImage(Build(ParseStages(ts).value))
    decreases |ts|
  {
    var r := ParseStage(EMPTY_STAGE, ts);
    StageIsGood(EMPTY_STAGE, ts);
    StageCmdInImage(Exec(r.stage.args), r.stage.redirs);
    if r.rest != [] {
      BuiltInImage(r.rest[1..]);
      var sts := ParseStages(r.rest[1..]).value;
      assert ([r.stage] + sts)[1..] == sts;
    }
  }

  // Every accepted line gives a tree in the image, and printing that tree and parsing it again
  // changes nothing.
  lemma ParsePrintParse(s: string)
    requires ParseLine(s).Ok?
    ensures InImage(ParseLine(s).value)
    ensures ParseLine(Print(ParseLine(s).value)) == ParseLine(s)
  {
    TokensAreGood(s);
    BuiltInImage(Tokens(s));
    PrintThenParse(ParseLine(s).value);
  }
}

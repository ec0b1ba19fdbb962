// The command language of hw2/shell.c: a line is cut into tokens, and the token list is parsed by
//   line ::= stage { '|' stage }      stage ::= { word | '<' word | '>' word }
module ShellSyntax {
  import opened Util

  const MAXARGS: nat := 10

  datatype Dir = In | Out

  datatype Token = Word(w: string) | Redir(dir: Dir) | Bar

  datatype Cmd =
    | Exec(argv: seq<string>)
    | Redirect(sub: Cmd, file: string, dir: Dir)
    | Pipe(left: Cmd, right: Cmd)

  datatype Error = MissingFile | TooManyArgs | SyntaxError | Leftovers

  /* Tokens */

  predicate IsSpace(c: char) {
    c == ' ' || c == '\t' || c == '\r' || c == '\n' || c == 11 as char
  }

  predicate IsSymbol(c: char) {
    c == '<' || c == '|' || c == '>'
  }

  predicate IsWordChar(c: char) {
    !IsSpace(c) && !IsSymbol(c)
  }

  // The number of leading white-space characters.
  function SpaceRun(s: string): (n: nat)
    ensures n <= |s|
    ensures n < |s| ==> !IsSpace(s[n])
  {
    if s != [] && IsSpace(s[0]) then 1 + SpaceRun(s[1..]) else 0
  }

  // The number of leading word characters.
  function WordRun(s: string): (n: nat)
    ensures n <= |s|
    ensures s != [] && IsWordChar(s[0]) ==> 0 < n
  {
    if s != [] && IsWordChar(s[0]) then 1 + WordRun(s[1..]) else 0
  }

  function SymbolToken(c: char): Token
    requires IsSymbol(c)
  {
    if c == '|' then Bar else if c == '<' then Redir(In) else Redir(Out)
  }

  // The token at the start of a text that does not start with white space.
  function FirstToken(t: string): Token
    requires t != []
  {
    if IsSymbol(t[0]) then SymbolToken(t[0]) else Word(t[..WordRun(t)])
  }

  function FirstLength(t: string): (n: nat)
    requires t != [] && !IsSpace(t[0])
    ensures 0 < n <= |t|
  {
    if IsSymbol(t[0]) then 1 else WordRun(t)
  }

  function Tokens(s: string): seq<Token>
    decreases |s|
  {
    var t := s[SpaceRun(s)..];
    if t == [] then [] else [FirstToken(t)] + Tokens(t[FirstLength(t)..])
  }

  /* Grammar */

  datatype Redirection = Redirection(file: string, dir: Dir)

  // A stage: its arguments and its redirections, each in the order written.
  datatype Stage = Stage(args: seq<string>, redirs: seq<Redirection>)

  datatype Parsed = Parsed(stage: Stage, rest: seq<Token>) | Failed(error: Error)

  // Adds the tokens up to the next bar, or the end, to "st".
  function ParseStage(st: Stage, ts: seq<Token>): (r: Parsed)
    ensures r.Parsed? ==> |r.rest| <= |ts| && (r.rest == [] || r.rest[0] == Bar)
    decreases |ts|
  {
    if ts == [] || ts[0] == Bar then Parsed(st, ts)
    else if ts[0].Redir? then
      if |ts| > 1 && ts[1].Word?
      then ParseStage(st.(redirs := st.redirs + [Redirection(ts[1].w, ts[0].dir)]), ts[2..])
      else Failed(MissingFile)
    else if |st.args| + 1 >= MAXARGS then Failed(TooManyArgs)
    else ParseStage(st.(args := st.args + [ts[0].w]), ts[1..])
  }

  const EMPTY_STAGE := Stage([], [])

  function ParseStages(ts: seq<Token>): (r: Result<seq<Stage>, Error>)
    ensures r.Ok? ==> r.value != []
    decreases |ts|
  {
    match ParseStage(EMPTY_STAGE, ts)
    case Failed(e) => Err(e)
    case Parsed(st, rest) =>
      if rest == [] then Ok([st])
      else
        match ParseStages(rest[1..])
        case Err(e) => Err(e)
        case Ok(sts) => Ok([st] + sts)
  }

  // Later redirections wrap earlier ones.
  function Wrap(c: Cmd, rs: seq<Redirection>): Cmd
    decreases |rs|
  {
    if rs == [] then c
    else
      var last := rs[|rs| - 1];
      Redirect(Wrap(c, rs[..|rs| - 1]), last.file, last.dir)
  }

  function StageCmd(st: Stage): Cmd {
    Wrap(Exec(st.args), st.redirs)
  }

  function Build(sts: seq<Stage>): Cmd
    requires sts != []
  {
    if |sts| == 1 then StageCmd(sts[0]) else Pipe(StageCmd(sts[0]), Build(sts[1..]))
  }

  function ParseLine(s: string): Result<Cmd, Error> {
    match ParseStages(Tokens(s))
    case Err(e) => Err(e)
    case Ok(sts) => Ok(Build(sts))
  }

  /* When a line is rejected */

  // A redirection that is not followed by a word.
  ghost predicate Dangling(ts: seq<Token>, k: nat) {
    k < |ts| && ts[k].Redir? && !(k + 1 < |ts| && ts[k + 1].Word?)
  }

  // A word that no redirection takes as its file.
  predicate IsArg(ts: seq<Token>, k: nat)
    requires k < |ts|
  {
    ts[k].Word? && !(k > 0 && ts[k - 1].Redir?)
  }

  function ArgCount(ts: seq<Token>, a: nat, b: nat): nat
    requires a <= b <= |ts|
  {
    if a == b then 0 else ArgCount(ts, a, b - 1) + if IsArg(ts, b - 1) then 1 else 0
  }

  // Tokens a..b are the start of one stage.
  ghost predicate InStage(ts: seq<Token>, a: nat, b: nat) {
    && a <= b <= |ts|
    && (a == 0 || ts[a - 1] == Bar)
    && (forall k :: a <= k < b ==> ts[k] != Bar)
  }

  ghost predicate Crowded(ts: seq<Token>, a: nat, b: nat) {
    InStage(ts, a, b) && ArgCount(ts, a, b) >= MAXARGS
  }

  // How ParseStage fares from token "i" of a stage that began at token "a".
  ghost predicate StageVerdict(ts: seq<Token>, a: nat, i: nat, r: Parsed) {
    match r
    case Failed(MissingFile) => exists k: nat :: i <= k && Dangling(ts, k)
    case Failed(TooManyArgs) => exists b: nat :: Crowded(ts, a, b)
    case Failed(_) => false
    case Parsed(st, rest) =>
      exists b: nat :: i <= b && StageEnds(ts, a, i, b) && rest == ts[b..]
  }

  // Tokens i..b complete a stage begun at "a", and it is well formed.
  ghost predicate StageEnds(ts: seq<Token>, a: nat, i: nat, b: nat) {
    && InStage(ts, a, b)
    && (b == |ts| || ts[b] == Bar)
    && ArgCount(ts, a, b) < MAXARGS
    && (forall k: nat :: i <= k < b ==> !Dangling(ts, k))
  }

  lemma RedirStep(ts: seq<Token>, a: nat, i: nat, st: Stage) returns (st': Stage)
    requires a <= i && i + 1 < |ts| && ts[i].Redir? && ts[i + 1].Word?
    ensures st'.args == st.args && ParseStage(st, ts[i..]) == ParseStage(st', ts[i + 2..])
    ensures ArgCount(ts, a, i + 2) == ArgCount(ts, a, i)
  {
    st' := st.(redirs := st.redirs + [Redirection(ts[i + 1].w, ts[i].dir)]);
    assert ts[i..][2..] == ts[i + 2..];
    assert ArgCount(ts, a, i + 2) == ArgCount(ts, a, i + 1);
  }

  lemma ArgStep(ts: seq<Token>, a: nat, i: nat, st: Stage) returns (st': Stage)
    requires a <= i < |ts| && ts[i].Word? && (i == a || !ts[i - 1].Redir?) && (a == 0 || ts[a - 1] == Bar)
    ensures |st'.args| == |st.args| + 1 && ArgCount(ts, a, i + 1) == ArgCount(ts, a, i) + 1
    ensures ParseStage(st, ts[i..]) == if |st'.args| >= MAXARGS then Failed(TooManyArgs) else ParseStage(st', ts[i + 1..])
  {
    st' := st.(args := st.args + [ts[i].w]);
    assert ts[i..][1..] == ts[i + 1..];
  }

  // The stage is over, or the redirection at "i" has no file.
  lemma StageStops(ts: seq<Token>, a: nat, i: nat, st: Stage)
    requires InStage(ts, a, i) && ArgCount(ts, a, i) < MAXARGS
    requires i == |ts| || ts[i] == Bar || Dangling(ts, i)
    ensures StageVerdict(ts, a, i, ParseStage(st, ts[i..]))
  {
    if i == |ts| || ts[i] == Bar {
      assert StageEnds(ts, a, i, i);
    }
  }

  lemma {:induction false} StageFrom(ts: seq<Token>, a: nat, i: nat, st: Stage)
    requires InStage(ts, a, i) && (i == a || !ts[i - 1].Redir?)
    requires |st.args| == ArgCount(ts, a, i) < MAXARGS
    ensures StageVerdict(ts, a, i, ParseStage(st, ts[i..]))
    decreases |ts| - i
  {
    hide ParseStage, ArgCount;
    if i == |ts| || ts[i] == Bar || Dangling(ts, i) {
      StageStops(ts, a, i, st);
    } else if ts[i].Word? {
      var st' := ArgStep(ts, a, i, st);
      if |st'.args| >= MAXARGS {
        assert Crowded(ts, a, i + 1);
      } else {
        StageFrom(ts, a, i + 1, st');
        WidenVerdict(ts, a, i, i + 1, ParseStage(st', ts[i + 1..]));
      }
    } else {
      var st' := RedirStep(ts, a, i, st);
      StageFrom(ts, a, i + 2, st');
      WidenVerdict(ts, a, i, i + 2, ParseStage(st', ts[i + 2..]));
    }
  }

  lemma WidenVerdict(ts: seq<Token>, a: nat, i: nat, j: nat, r: Parsed)
    requires i <= j && StageVerdict(ts, a, j, r)
    requires forall k: nat :: i <= k < j ==> !Dangling(ts, k)
    ensures StageVerdict(ts, a, i, r)
  {
    if r.Parsed? {
      var b: nat :| j <= b && StageEnds(ts, a, j, b) && r.rest == ts[b..];
      assert StageEnds(ts, a, i, b);
    }
  }

  lemma {:induction false} ArgCountGrows(ts: seq<Token>, a: nat, b: nat, c: nat)
    requires a <= b <= c <= |ts|
    ensures ArgCount(ts, a, b) <= ArgCount(ts, a, c)
  {
    if b < c {
      ArgCountGrows(ts, a, b, c - 1);
    }
  }

  ghost predicate Bad(ts: seq<Token>, a: nat) {
    (exists k: nat :: a <= k && Dangling(ts, k)) || (exists x: nat, b: nat :: a <= x && Crowded(ts, x, b))
  }

  lemma NotCrowdedWithin(ts: seq<Token>, a: nat, b: nat, x: nat, y: nat)
    requires StageEnds(ts, a, a, b) && a <= x <= b && InStage(ts, x, y)
    ensures !Crowded(ts, x, y)
  {
    assert x == a && y <= b;
    ArgCountGrows(ts, a, y, b);
  }

  // A well-formed stage ends before anything bad after its first token does.
  lemma BadAfterStage(ts: seq<Token>, a: nat, b: nat)
    requires StageEnds(ts, a, a, b)
    ensures Bad(ts, a) <==> b < |ts| && Bad(ts, b + 1)
  {
    forall x: nat, y: nat | a <= x && Crowded(ts, x, y) ensures b < x {
      if x <= b {
        NotCrowdedWithin(ts, a, b, x, y);
      }
    }
    assert b < |ts| ==> !Dangling(ts, b);
    assert forall k: nat :: a <= k && Dangling(ts, k) ==> b < k;
  }

  lemma BadStage(ts: seq<Token>, a: nat)
    requires a <= |ts| && (a == 0 || ts[a - 1] == Bar) && ParseStage(EMPTY_STAGE, ts[a..]).Failed?
    ensures Bad(ts, a)
    ensures ParseStage(EMPTY_STAGE, ts[a..]).error in {MissingFile, TooManyArgs}
  {
    StageFrom(ts, a, a, EMPTY_STAGE);
  }

  lemma CompleteStage(ts: seq<Token>, a: nat) returns (b: nat)
    requires a <= |ts| && (a == 0 || ts[a - 1] == Bar) && ParseStage(EMPTY_STAGE, ts[a..]).Parsed?
    ensures a <= b <= |ts| && ParseStage(EMPTY_STAGE, ts[a..]).rest == ts[b..]
    ensures b < |ts| ==> ts[b] == Bar
    ensures Bad(ts, a) <==> b < |ts| && Bad(ts, b + 1)
  {
    StageFrom(ts, a, a, EMPTY_STAGE);
    b :| a <= b && StageEnds(ts, a, a, b) && ParseStage(EMPTY_STAGE, ts[a..]).rest == ts[b..];
    BadAfterStage(ts, a, b);
  }

  lemma {:induction false} StagesFrom(ts: seq<Token>, a: nat)
    requires a <= |ts| && (a == 0 || ts[a - 1] == Bar)
    ensures ParseStages(ts[a..]).Err? <==> Bad(ts, a)
    ensures ParseStages(ts[a..]).Err? ==> ParseStages(ts[a..]).error in {MissingFile, TooManyArgs}
    decreases |ts| - a
  {
    if ParseStage(EMPTY_STAGE, ts[a..]).Failed? {
      BadStage(ts, a);
    } else {
      var b := CompleteStage(ts, a);
      if b < |ts| {
        assert ts[b..][1..] == ts[b + 1..];
        StagesFrom(ts, b + 1);
      }
    }
  }

  // Some redirection lacks its file, or some stage has ten or more arguments.
  ghost predicate Malformed(ts: seq<Token>) {
    (exists k: nat :: Dangling(ts, k)) || (exists a: nat, b: nat :: Crowded(ts, a, b))
  }

  lemma BadFromTheStart(ts: seq<Token>)
    ensures Bad(ts, 0) <==> Malformed(ts)
  {
    if k: nat :| Dangling(ts, k) {
      assert 0 <= k && Dangling(ts, k);
    } else if a: nat, b: nat :| Crowded(ts, a, b) {
      assert 0 <= a && Crowded(ts, a, b);
    }
  }

  // A line is rejected exactly when it is malformed; the "syntax error" and "leftovers" exits are
  // never taken.
  lemma {:induction false} RejectedIff(s: string)
    ensures ParseLine(s).Err? <==> Malformed(Tokens(s))
    ensures ParseLine(s) != Err(SyntaxError) && ParseLine(s) != Err(Leftovers)
  {
    var ts := Tokens(s);
    assert ts[0..] == ts;
    StagesFrom(ts, 0);
    BadFromTheStart(ts);
  }
}

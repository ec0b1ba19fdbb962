// The parser of hw2/shell.c as written: a fused lexer and recursive-descent parser that moves a
// pointer over the line and fills in an exec node after it has been wrapped in redirections.
module ShellParser {
  import opened Util
  import opened ShellSyntax

  // struct execcmd: argv is a fixed array, ended by a null pointer.
  class ExecCmd {
    const argv: array<Option<string>>

    constructor ()
      ensures fresh(argv) && argv.Length == MAXARGS
      ensures forall i :: 0 <= i < MAXARGS ==> argv[i] == None
    {
      argv := new Option<string>[MAXARGS](i => None);
    }
  }

  // struct cmd *: only exec nodes are written after they are built.
  datatype CmdPtr = ExecPtr(e: ExecCmd) | RedirPtr(sub: CmdPtr, file: string, dir: Dir) | PipePtr(left: CmdPtr, right: CmdPtr)

  function Leading(a: seq<Option<string>>): seq<string> {
    if a == [] || a[0].None? then [] else [a[0].value] + Leading(a[1..])
  }

  function Nodes(c: CmdPtr): set<object> {
    match c
    case ExecPtr(e) => {e.argv}
    case RedirPtr(sub, _, _) => Nodes(sub)
    case PipePtr(l, r) => Nodes(l) + Nodes(r)
  }

  // The tree a pointer leads to.
  ghost function View(c: CmdPtr): Cmd
    reads Nodes(c)
  {
    match c
    case ExecPtr(e) => Exec(Leading(e.argv[..]))
    case RedirPtr(sub, file, dir) => Redirect(View(sub), file, dir)
    case PipePtr(l, r) => Pipe(View(l), View(r))
  }

  lemma {:induction false} NodesAllocated(c: CmdPtr)
    ensures forall o :: o in Nodes(c) ==> allocated(o)
  {
    match c
    case ExecPtr(e) =>
    case RedirPtr(sub, _, _) => NodesAllocated(sub);
    case PipePtr(l, r) => NodesAllocated(l); NodesAllocated(r);
  }

  function WrapPtr(c: CmdPtr, rs: seq<Redirection>): CmdPtr
    decreases |rs|
  {
    if rs == [] then c
    else
      var last := rs[|rs| - 1];
      RedirPtr(WrapPtr(c, rs[..|rs| - 1]), last.file, last.dir)
  }

  lemma {:induction false} ViewOfWrap(c: CmdPtr, rs: seq<Redirection>)
    ensures Nodes(WrapPtr(c, rs)) == Nodes(c)
    ensures View(WrapPtr(c, rs)) == Wrap(View(c), rs)
    decreases |rs|
  {
    if rs != [] {
      ViewOfWrap(c, rs[..|rs| - 1]);
    }
  }

  lemma {:induction false} LeadingIs(a: seq<Option<string>>, args: seq<string>)
    requires |args| < |a| && a[|args|] == None
    requires forall i :: 0 <= i < |args| ==> a[i] == Some(args[i])
    ensures Leading(a) == args
  {
    if args != [] {
      LeadingIs(a[1..], args[1..]);
    }
  }

  // What gettoken() returns for a token; '\0' is the end of the line.
  function Code(t: Token): char {
    match t
    case Word(_) => 'a'
    case Redir(In) => '<'
    case Redir(Out) => '>'
    case Bar => '|'
  }

  lemma TokensAt(buf: string, p: nat, q: nat)
    requires p <= q <= |buf| && q == p + SpaceRun(buf[p..])
    ensures q == |buf| ==> Tokens(buf[p..]) == []
    ensures q < |buf| ==> !IsSpace(buf[q])
    ensures q < |buf| ==> Tokens(buf[p..]) == [FirstToken(buf[q..])] + Tokens(buf[q + FirstLength(buf[q..])..])
  {
    assert buf[p..][SpaceRun(buf[p..])..] == buf[q..];
    if q < |buf| {
      assert buf[q..][FirstLength(buf[q..])..] == buf[q + FirstLength(buf[q..])..];
    }
  }

  lemma {:induction false} SkipOne(buf: string, p: nat)
    requires p < |buf|
    ensures SpaceRun(buf[p..]) == if IsSpace(buf[p]) then 1 + SpaceRun(buf[p + 1..]) else 0
    ensures WordRun(buf[p..]) == if IsWordChar(buf[p]) then 1 + WordRun(buf[p + 1..]) else 0
  {
    assert buf[p..][1..] == buf[p + 1..];
  }

  lemma SkippedTokens(buf: string, p: nat, q: nat)
    requires p <= q <= |buf| && q == p + SpaceRun(buf[p..])
    ensures Tokens(buf[q..]) == Tokens(buf[p..])
  {
    TokensAt(buf, p, q);
    TokensAt(buf, q, q) by { if q < |buf| { SkipOne(buf, q); } }
  }

  lemma TokensFrom(buf: string, p: nat, q: nat, eq: nat)
    requires p <= q < |buf| && q == p + SpaceRun(buf[p..]) && !IsSpace(buf[q])
    requires eq == q + FirstLength(buf[q..]) <= |buf|
    ensures Tokens(buf[p..]) == [FirstToken(buf[q..])] + Tokens(buf[eq..])
  {
    TokensAt(buf, p, q);
  }

  // Characters q..eq after white space are one token, and the new rest follows them.
  lemma TokenSpan(buf: string, p: nat, q: nat, eq: nat, ret: char) returns (t: Token)
    requires p <= q < |buf| && q == p + SpaceRun(buf[p..]) && !IsSpace(buf[q])
    requires if IsSymbol(buf[q]) then ret == buf[q] && eq == q + 1 else ret == 'a' && eq == q + WordRun(buf[q..])
    ensures q < eq <= |buf|
    ensures Tokens(buf[p..]) == [t] + Tokens(buf[eq..]) && Code(t) == ret
    ensures ret == 'a' ==> t == Word(buf[q..eq])
  {
    hide Tokens;
    t := FirstToken(buf[q..]);
    assert buf[q..][..eq - q] == buf[q..eq];
    TokensFrom(buf, p, q, eq);
  }

  // The character after white space tells a symbol token from a word.
  lemma HeadCode(buf: string, p: nat, q: nat)
    requires p <= q <= |buf| && q == p + SpaceRun(buf[p..])
    ensures Tokens(buf[p..]) == [] <==> q == |buf|
    ensures q < |buf| ==> Code(Tokens(buf[p..])[0]) == if IsSymbol(buf[q]) then buf[q] else 'a'
  {
    TokensAt(buf, p, q);
  }

  /* The grammar, one token at a time */

  lemma StepEnd(st: Stage, ts: seq<Token>)
    requires ts == [] || ts[0] == Bar
    ensures ParseStage(st, ts) == Parsed(st, ts)
  {
  }

  lemma StepRedir(st: Stage, ts: seq<Token>)
    requires ts != [] && ts[0].Redir?
    ensures ParseStage(st, ts) ==
            if |ts| > 1 && ts[1].Word?
            then ParseStage(st.(redirs := st.redirs + [Redirection(ts[1].w, ts[0].dir)]), ts[2..])
            else Failed(MissingFile)
  {
  }

  lemma StepArg(st: Stage, ts: seq<Token>)
    requires ts != [] && ts[0].Word?
    ensures ParseStage(st, ts) ==
            if |st.args| + 1 >= MAXARGS then Failed(TooManyArgs)
            else ParseStage(st.(args := st.args + [ts[0].w]), ts[1..])
  {
  }

  class Parser {
    const buf: string           // the line, without its terminating NUL
    var s: nat                  // *ps
    ghost var rest: seq<Token>  // the tokens from there on

    constructor (line: string)
      requires '\0' !in line
      ensures Valid() && buf == line && s == 0 && rest == Tokens(line)
    {
      buf, s := line, 0;
      rest := Tokens(line);
      new;
      assert buf[0..] == buf;
    }

    ghost predicate Valid()
      reads this
    {
      s <= |buf| && '\0' !in buf && rest == Tokens(buf[s..])
    }

    // *s, which is NUL at es.
    function Cur(p: nat): char {
      if p < |buf| then buf[p] else '\0'
    }

    method SkipSpaces(p: nat) returns (q: nat)
      requires p <= |buf|
      ensures p <= q <= |buf| && q == p + SpaceRun(buf[p..])
    {
      q := p;
      while q < |buf| && IsSpace(buf[q])
        invariant p <= q <= |buf| && SpaceRun(buf[p..]) == q - p + SpaceRun(buf[q..])
      {
        SkipOne(buf, q);
        q := q + 1;
      }
      if q < |buf| {
        SkipOne(buf, q);
      }
    }

    method Peek(toks: string) returns (r: bool)
      requires Valid() && forall c :: c in toks ==> IsSymbol(c)
      modifies this`s
      ensures Valid() && old(s) <= s
      ensures rest == [] ==> s == |buf|
      ensures r <==> rest != [] && Code(rest[0]) in toks
    {
      hide Tokens;
      var p := SkipSpaces(s);
      SkippedTokens(buf, s, p);
      HeadCode(buf, s, p);
      s := p;
      r := Cur(p) != '\0' && Cur(p) in toks;
    }

    // The loop of gettoken() over a word.
    method SkipWord(q: nat) returns (eq: nat)
      requires q <= |buf|
      ensures q <= eq <= |buf| && eq == q + WordRun(buf[q..])
    {
      eq := q;
      while eq < |buf| && !IsSpace(buf[eq]) && !IsSymbol(buf[eq])
        invariant q <= eq <= |buf| && WordRun(buf[q..]) == eq - q + WordRun(buf[eq..])
      {
        SkipOne(buf, eq);
        eq := eq + 1;
      }
      if eq < |buf| {
        SkipOne(buf, eq);
      }
    }

    method GetToken() returns (ret: char, q: nat, eq: nat)
      requires Valid()
      modifies this
      ensures Valid() && q <= eq <= |buf|
      ensures old(rest) == [] ==> ret == '\0' && s == |buf| && rest == []
      ensures old(rest) != [] ==> old(s) < s && ret == Code(old(rest)[0]) && rest == old(rest)[1..]
      ensures ret == 'a' ==> old(rest) != [] && old(rest)[0] == Word(buf[q..eq])
    {
      hide Tokens;
      q := SkipSpaces(s);
      SkippedTokens(buf, s, q);
      HeadCode(buf, s, q);
      eq := q;
      ret := Cur(q);
      if ret == '\0' {
      } else if IsSymbol(ret) {
        eq := eq + 1;
      } else {
        ret := 'a';
        eq := SkipWord(q);
      }
      if q < |buf| {
        ghost var t := TokenSpan(buf, s, q, eq, ret);
        rest := Tokens(buf[eq..]);
      }
      s := SkipSpaces(eq);
      SkippedTokens(buf, eq, s);
    }

    // The body of the loop of parseredirs(): one redirection.
    method ParseRedir(ret: CmdPtr, ghost base: CmdPtr, ghost st: Stage)
      returns (r: Result<CmdPtr, Error>, ghost st': Stage)
      requires Valid() && ret == WrapPtr(base, st.redirs)
      requires rest != [] && rest[0].Redir?
      modifies this
      ensures Valid() && old(s) < s
      ensures r.Err? ==> ParseStage(st, old(rest)) == Failed(r.error)
      ensures r.Ok? ==> r.value == WrapPtr(base, st'.redirs) && st'.args == st.args
      ensures r.Ok? ==> ParseStage(st, old(rest)) == ParseStage(st', rest)
    {
      hide Tokens, ParseStage;
      StepRedir(st, rest);
      st' := st;
      var tok, _, _ := GetToken();
      var t, q, eq := GetToken();
      if t != 'a' {
        return Err(MissingFile), st;
      }
      var file, dir := buf[q..eq], if tok == '<' then In else Out;
      st' := st.(redirs := st.redirs + [Redirection(file, dir)]);
      r := Ok(RedirPtr(ret, file, dir));
    }

    // "st" is what the stage holds so far: "cmd" is its exec node wrapped in its redirections.
    method ParseRedirs(cmd: CmdPtr, ghost base: CmdPtr, ghost st: Stage)
      returns (r: Result<CmdPtr, Error>, ghost st': Stage)
      requires Valid() && cmd == WrapPtr(base, st.redirs)
      modifies this
      ensures Valid() && old(s) <= s
      ensures r.Err? ==> ParseStage(st, old(rest)) == Failed(r.error)
      ensures r.Ok? ==> r.value == WrapPtr(base, st'.redirs) && st'.args == st.args
      ensures r.Ok? ==> ParseStage(st, old(rest)) == ParseStage(st', rest)
      ensures r.Ok? ==> (rest == [] || !rest[0].Redir?)
    {
      hide Tokens, ParseStage;
      r := Ok(cmd);
      st' := st;
      ghost var goal := ParseStage(st, rest);
      var more := Peek("<>");
      while more
        invariant Valid() && old(s) <= s
        invariant r.Ok? && r.value == WrapPtr(base, st'.redirs) && st'.args == st.args
        invariant ParseStage(st', rest) == goal
        invariant more <==> rest != [] && rest[0].Redir?
        decreases |buf| - s
      {
        r, st' := ParseRedir(r.value, base, st');
        if r.Err? {
          return;
        }
        more := Peek("<>");
      }
    }

    // The body of the loop of parseexec(), once gettoken() has found a word: it goes into the exec
    // node, which redirections may have wrapped already, and the redirections after it are parsed.
    method TakeArg(cmd: ExecCmd, argc: nat, word: string, ret: CmdPtr, ghost st: Stage)
      returns (r: Result<CmdPtr, Error>, ghost st': Stage)
      requires Valid() && Filled(cmd, st.args) && argc == |st.args| && ret == WrapPtr(ExecPtr(cmd), st.redirs)
      modifies this, cmd.argv
      ensures Valid() && old(s) <= s
      ensures r.Err? ==> ParseStage(st, [Word(word)] + old(rest)) == Failed(r.error)
      ensures r.Ok? ==> Filled(cmd, st'.args) && |st'.args| == argc + 1 && r.value == WrapPtr(ExecPtr(cmd), st'.redirs)
      ensures r.Ok? ==> ParseStage(st, [Word(word)] + old(rest)) == ParseStage(st', rest)
      ensures r.Ok? ==> (rest == [] || !rest[0].Redir?)
    {
      hide Tokens, ParseStage;
      StepArg(st, [Word(word)] + rest);
      st' := st;
      cmd.argv[argc] := Some(word);
      if argc + 1 >= MAXARGS {
        return Err(TooManyArgs), st;
      }
      r, st' := ParseRedirs(ret, ExecPtr(cmd), st.(args := st.args + [word]));
    }

    method ParseExec() returns (r: Result<CmdPtr, Error>)
      requires Valid()
      modifies this
      ensures Valid() && old(s) <= s
      ensures match ParseStage(EMPTY_STAGE, old(rest))
              case Failed(e) => r == Err(e)
              case Parsed(st, rest') => r.Ok? && fresh(Nodes(r.value)) && View(r.value) == StageCmd(st) && rest == rest'
    {
      hide Tokens, ParseStage;
      ghost var goal := ParseStage(EMPTY_STAGE, rest);
      var cmd := new ExecCmd();
      var argc := 0;
      ghost var st := EMPTY_STAGE;
      r, st := ParseRedirs(ExecPtr(cmd), ExecPtr(cmd), st);
      if r.Err? {
        return;
      }
      var bar := Peek("|");
      while !bar
        invariant Valid() && old(s) <= s
        invariant fresh(cmd.argv) && Filled(cmd, st.args) && argc == |st.args|
        invariant r.Ok? && r.value == WrapPtr(ExecPtr(cmd), st.redirs)
        invariant ParseStage(st, rest) == goal
        invariant rest == [] || !rest[0].Redir?
        invariant bar <==> rest != [] && rest[0] == Bar
        decreases |buf| - s
      {
        ghost var ts := rest;
        var tok, q, eq := GetToken();
        if tok == '\0' {
          break;
        }
        if tok != 'a' {
          return Err(SyntaxError);
        }
        assert ts == [Word(buf[q..eq])] + rest;
        r, st := TakeArg(cmd, argc, buf[q..eq], r.value, st);
        if r.Err? {
          return;
        }
        argc := argc + 1;
        bar := Peek("|");
      }
      StepEnd(st, rest);
      cmd.argv[argc] := None;
      FilledIn(cmd, st);
    }

    method ParsePipe() returns (r: Result<CmdPtr, Error>)
      requires Valid()
      modifies this
      ensures Valid() && old(s) <= s
      ensures match ParseStages(old(rest))
              case Err(e) => r == Err(e)
              case Ok(sts) => r.Ok? && fresh(Nodes(r.value)) && View(r.value) == Build(sts) && rest == []
      decreases |buf| - s
    {
      hide Tokens, ParseStage;
      r := ParseExec();
      if r.Err? {
        return;
      }
      var left := r.value;
      NodesAllocated(left);
      var bar := Peek("|");
      if bar {
        var _, _, _ := GetToken();
        r := ParsePipe();
        if r.Ok? {
          r := Ok(PipePtr(left, r.value));
        }
      }
    }

    method ParseCmd() returns (r: Result<CmdPtr, Error>)
      requires Valid() && s == 0
      modifies this
      ensures match ParseLine(buf)
              case Err(e) => r == Err(e)
              case Ok(c) => r.Ok? && View(r.value) == c
    {
      hide Tokens;
      assert buf[0..] == buf;
      r := ParsePipe();
      if r.Ok? {
        NodesAllocated(r.value);
        var _ := Peek("");
        r := if s != |buf| then Err(Leftovers) else r;
      }
    }
  }

  // argv holds the arguments so far, with room for one more and the null pointer.
  ghost predicate Filled(cmd: ExecCmd, args: seq<string>)
    reads cmd.argv
  {
    && cmd.argv.Length == MAXARGS && |args| < MAXARGS
    && (forall i :: 0 <= i < |args| ==> cmd.argv[i] == Some(args[i]))
  }

  // Once argv has its null pointer, the wrapped node is the stage's command.
  lemma FilledIn(cmd: ExecCmd, st: Stage)
    requires Filled(cmd, st.args) && cmd.argv[|st.args|] == None
    ensures var c := WrapPtr(ExecPtr(cmd), st.redirs); View(c) == StageCmd(st) && Nodes(c) == {cmd.argv}
  {
    LeadingIs(cmd.argv[..], st.args);
    ViewOfWrap(ExecPtr(cmd), st.redirs);
  }
}

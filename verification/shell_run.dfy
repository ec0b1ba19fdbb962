// runcmd() of hw2/shell.c: what a command tree does to descriptor tables.
//
// open, dup and pipe take the lowest free descriptor (section 2.14 of POSIX.1-2017 XSH) and succeed.
module ShellRun {
  import opened Util
  import opened ShellSyntax
  import opened ShellPrint

  // What a descriptor refers to: something the shell was started with, a file, or an end of a pipe.
  datatype File = Given(id: nat) | Opened(name: string, dir: Dir) | ReadEnd(pipe: nat) | WriteEnd(pipe: nat)

  type Fds = map<nat, File>

  // A process that has come to an exec node. It calls execvp() if argv is not empty.
  datatype Leaf = Leaf(argv: seq<string>, fds: Fds)

  /* Descriptor tables */

  ghost predicate IsLeastFree(fds: Fds, n: nat) {
    n !in fds && forall j: nat :: j < n ==> j in fds
  }

  function From(fds: Fds, n: nat): set<nat> {
    set k | k in fds.Keys && n <= k
  }

  lemma FewerFrom(fds: Fds, n: nat)
    requires n in fds
    ensures From(fds, n + 1) < From(fds, n)
  {
    assert n in From(fds, n) && n !in From(fds, n + 1);
  }

  function LeastFreeFrom(fds: Fds, n: nat): (r: nat)
    requires forall j: nat :: j < n ==> j in fds
    ensures IsLeastFree(fds, r)
    decreases From(fds, n)
  {
    if n in fds then
      FewerFrom(fds, n);
      LeastFreeFrom(fds, n + 1)
    else n
  }

  function LeastFree(fds: Fds): nat {
    LeastFreeFrom(fds, 0)
  }

  lemma LeastFreeIs(fds: Fds, n: nat)
    requires IsLeastFree(fds, n)
    ensures LeastFree(fds) == n
  {
  }

  function OpenLowest(fds: Fds, f: File): Fds {
    fds[LeastFree(fds) := f]
  }

  function Close(fds: Fds, fd: nat): Fds {
    fds - {fd}
  }

  function Dup(fds: Fds, fd: nat): Fds {
    if fd in fds then OpenLowest(fds, fds[fd]) else fds
  }

  class Process {
    var fds: Fds

    constructor (fds: Fds)
      ensures this.fds == fds
    {
      this.fds := fds;
    }

    method CloseFd(fd: nat)
      modifies this
      ensures fds == Close(old(fds), fd)
    {
      fds := fds - {fd};
    }

    method OpenFile(f: File) returns (fd: nat)
      modifies this
      ensures fd == LeastFree(old(fds)) && fds == OpenLowest(old(fds), f)
    {
      fd := 0;
      while fd in fds
        invariant fds == old(fds) && forall j: nat :: j < fd ==> j in fds
        decreases From(fds, fd)
      {
        FewerFrom(fds, fd);
        fd := fd + 1;
      }
      LeastFreeIs(fds, fd);
      fds := fds[fd := f];
    }

    method DupFd(fd: nat)
      modifies this
      ensures fds == Dup(old(fds), fd)
    {
      if fd in fds {
        var _ := OpenFile(fds[fd]);
      }
    }
  }

  /* runcmd */

  // The table after pipe(p) makes pipe "n", with p[0] and p[1].
  function PipeFds(fds: Fds, n: nat): (Fds, nat, nat) {
    var r := LeastFree(fds);
    var fds1 := OpenLowest(fds, ReadEnd(n));
    var w := LeastFree(fds1);
    (OpenLowest(fds1, WriteEnd(n)), r, w)
  }

  // One process running "c" from a table, with "n" the number of pipes made so far: the processes
  // that come to exec nodes, and the number of pipes made by then.
  function Outcome(c: Cmd, fds: Fds, n: nat): (seq<Leaf>, nat) {
    match c
    case Exec(argv) => ([Leaf(argv, fds)], n)
    case Redirect(sub, file, dir) =>
      Outcome(sub, OpenLowest(Close(fds, if dir.In? then 0 else 1), Opened(file, dir)), n)
    case Pipe(left, right) =>
      var (both, r, w) := PipeFds(fds, n);
      var (ls, n1) := Outcome(left, Close(Close(Dup(Close(both, 1), w), r), w), n + 1);
      var (rs, n2) := Outcome(right, Close(Close(Dup(Close(both, 0), r), w), r), n1);
      (ls + rs, n2)
  }

  class System {
    var pipes: nat

    constructor ()
      ensures pipes == 0
    {
      pipes := 0;
    }

    // fork() gives the child its own copy of the table, so the two sides do not interact.
    method RunCmd(c: Cmd, p: Process) returns (leaves: seq<Leaf>)
      modifies this, p
      ensures (leaves, pipes) == Outcome(c, old(p.fds), old(pipes))
      decreases c
    {
      match c
      case Exec(argv) =>
        leaves := [Leaf(argv, p.fds)];
      case Redirect(sub, file, dir) =>
        p.CloseFd(if dir.In? then 0 else 1);
        var _ := p.OpenFile(Opened(file, dir));
        leaves := RunCmd(sub, p);
      case Pipe(left, right) =>
        var n := pipes;
        pipes := pipes + 1;
        var r := p.OpenFile(ReadEnd(n));
        var w := p.OpenFile(WriteEnd(n));
        var child := new Process(p.fds);
        child.CloseFd(1);
        child.DupFd(w);
        child.CloseFd(r);
        child.CloseFd(w);
        var ls := RunCmd(left, child);
        p.CloseFd(0);
        p.DupFd(r);
        p.CloseFd(w);
        p.CloseFd(r);
        var rs := RunCmd(right, p);
        leaves := ls + rs;
    }
  }

  /* One stage */

  predicate Standard(fds: Fds) {
    fds.Keys == {0, 1, 2}
  }

  // The file of the first redirection in a direction.
  function FirstFile(rs: seq<Redirection>, dir: Dir): Option<string> {
    if rs == [] then None
    else if rs[0].dir == dir then Some(rs[0].file)
    else FirstFile(rs[1..], dir)
  }

  function OrFile(f: File, rs: seq<Redirection>, dir: Dir): File {
    var first := FirstFile(rs, dir);
    if first.Some? then Opened(first.value, dir) else f
  }

  // What a stage's process has open: for each direction its leftmost redirection, or what it was given.
  function StageFds(given0: File, given1: File, given2: File, rs: seq<Redirection>): Fds {
    map[0 := OrFile(given0, rs, In), 1 := OrFile(given1, rs, Out), 2 := given2]
  }

  lemma {:induction false} FirstFileAppend(rs: seq<Redirection>, x: Redirection, dir: Dir)
    ensures FirstFile(rs + [x], dir) ==
            if FirstFile(rs, dir).Some? then FirstFile(rs, dir) else if x.dir == dir then Some(x.file) else None
  {
    if rs != [] {
      assert (rs + [x])[1..] == rs[1..] + [x];
      FirstFileAppend(rs[1..], x, dir);
    } else {
      assert rs + [x] == [x] && [x][1..] == [];
    }
  }

  // Closing 0 or 1 and opening a file puts the file there.
  lemma Reopen(fds: Fds, fd: nat, f: File)
    requires Standard(fds) && fd in {0, 1}
    ensures OpenLowest(Close(fds, fd), f) == fds[fd := f]
  {
    LeastFreeIs(Close(fds, fd), fd);
  }

  lemma {:induction false} StageOutcome(c: Cmd, fds: Fds, n: nat)
    requires IsStageCmd(c) && Standard(fds)
    ensures Outcome(c, fds, n) ==
            ([Leaf(StageOf(c).args, StageFds(fds[0], fds[1], fds[2], StageOf(c).redirs))], n)
  {
    match c
    case Exec(args) =>
      assert StageFds(fds[0], fds[1], fds[2], []) == fds;
    case Redirect(sub, file, dir) =>
      var fd := if dir.In? then 0 else 1;
      Reopen(fds, fd, Opened(file, dir));
      StageOutcome(sub, fds[fd := Opened(file, dir)], n);
      FirstFileAppend(StageOf(sub).redirs, Redirection(file, dir), In);
      FirstFileAppend(StageOf(sub).redirs, Redirection(file, dir), Out);
  }

  /* The standard's order */

  // The table that redirections make when they are applied from left to right, as in section 2.7 of
  // POSIX.1-2017 XCU.
  function InOrder(fds: Fds, rs: seq<Redirection>): Fds {
    if rs == [] then fds
    else
      var last := rs[|rs| - 1];
      InOrder(fds, rs[..|rs| - 1])[(if last.dir.In? then 0 else 1) := Opened(last.file, last.dir)]
  }

  function LastFile(rs: seq<Redirection>, dir: Dir): Option<string> {
    if rs == [] then None
    else if rs[|rs| - 1].dir == dir then Some(rs[|rs| - 1].file)
    else LastFile(rs[..|rs| - 1], dir)
  }

  function OrLast(f: File, rs: seq<Redirection>, dir: Dir): File {
    var last := LastFile(rs, dir);
    if last.Some? then Opened(last.value, dir) else f
  }

  lemma {:induction false} InOrderIs(fds: Fds, rs: seq<Redirection>)
    requires Standard(fds)
    ensures InOrder(fds, rs) == map[0 := OrLast(fds[0], rs, In), 1 := OrLast(fds[1], rs, Out), 2 := fds[2]]
  {
    if rs != [] {
      InOrderIs(fds, rs[..|rs| - 1]);
    }
  }

  lemma {:induction false} SomeFileIff(rs: seq<Redirection>, dir: Dir)
    ensures FirstFile(rs, dir).Some? <==> LastFile(rs, dir).Some?
  {
    if rs != [] {
      var front, last := rs[..|rs| - 1], rs[|rs| - 1];
      SomeFileIff(front, dir);
      FirstFileAppend(front, last, dir);
      assert front + [last] == rs;
    }
  }

  ghost predicate SameEnds(rs: seq<Redirection>) {
    FirstFile(rs, In) == LastFile(rs, In) && FirstFile(rs, Out) == LastFile(rs, Out)
  }

  lemma SameTablesIff(fds: Fds, rs: seq<Redirection>)
    requires Standard(fds)
    ensures StageFds(fds[0], fds[1], fds[2], rs) == InOrder(fds, rs) <==> SameEnds(rs)
  {
    hide FirstFile, LastFile, InOrder;
    InOrderIs(fds, rs);
    SomeFileIff(rs, In);
    SomeFileIff(rs, Out);
    var mine, theirs := StageFds(fds[0], fds[1], fds[2], rs), InOrder(fds, rs);
    assert mine == theirs <==> mine[0] == theirs[0] && mine[1] == theirs[1];
  }

  // A stage with any redirections, from any table, runs as the standard has it if and only if the
  // first and the last file of each direction are the same.
  lemma RedirectionOrderAgreesIff(c: Cmd, fds: Fds, n: nat)
    requires IsStageCmd(c) && Standard(fds)
    ensures Outcome(c, fds, n).0 == [Leaf(StageOf(c).args, InOrder(fds, StageOf(c).redirs))] <==> SameEnds(StageOf(c).redirs)
  {
    hide Outcome, InOrder, StageFds, SameEnds;
    StageOutcome(c, fds, n);
    SameTablesIff(fds, StageOf(c).redirs);
  }

  // However many there are, the command sees the leftmost redirection of each direction, and of two
  // that name different files the standard's order has the other: "> a > b" writes to a and not to b.
  lemma LeftmostRedirectionWins(c: Cmd, fds: Fds, n: nat, dir: Dir)
    requires IsStageCmd(c) && Standard(fds) && StageOf(c).redirs != [] && StageOf(c).redirs[0].dir == dir
    ensures var rs, fd := StageOf(c).redirs, if dir.In? then 0 else 1;
            && |Outcome(c, fds, n).0| == 1
            && var leaf := Outcome(c, fds, n).0[0];
               && Standard(leaf.fds) && leaf.fds[fd] == Opened(rs[0].file, dir)
               && (rs[|rs| - 1].dir == dir && rs[|rs| - 1].file != rs[0].file ==>
                     Standard(InOrder(fds, rs)) && InOrder(fds, rs)[fd] == Opened(rs[|rs| - 1].file, dir) != leaf.fds[fd])
  {
    hide Outcome, InOrder;
    StageOutcome(c, fds, n);
    InOrderIs(fds, StageOf(c).redirs);
  }

  /* Pipelines */

  function StagesOf(c: Cmd): seq<Stage>
    requires InImage(c)
  {
    if c.Pipe? then [StageOf(c.left)] + StagesOf(c.right) else [StageOf(c)]
  }

  lemma PipeTables(fds: Fds, n: nat)
    requires Standard(fds)
    ensures var (both, r, w) := PipeFds(fds, n);
            && r == 3 && w == 4
            && Close(Close(Dup(Close(both, 1), w), r), w) == fds[1 := WriteEnd(n)]
            && Close(Close(Dup(Close(both, 0), r), w), r) == fds[0 := ReadEnd(n)]
  {
    LeastFreeIs(fds, 3);
    var fds1 := OpenLowest(fds, ReadEnd(n));
    LeastFreeIs(fds1, 4);
    var both := OpenLowest(fds1, WriteEnd(n));
    LeastFreeIs(Close(both, 1), 1);
    LeastFreeIs(Close(both, 0), 0);
  }

  // What stage "k" of "m" is given before its own redirections.
  function GivenIn(fds: Fds, n: nat, k: nat): File
    requires Standard(fds)
  {
    if k == 0 then fds[0] else ReadEnd(n + k - 1)
  }

  function GivenOut(fds: Fds, n: nat, k: nat, m: nat): File
    requires Standard(fds)
  {
    if k + 1 == m then fds[1] else WriteEnd(n + k)
  }

  ghost predicate StageLeaf(fds: Fds, n: nat, sts: seq<Stage>, k: nat, leaf: Leaf)
    requires Standard(fds) && k < |sts|
  {
    && leaf.argv == sts[k].args
    && leaf.fds == StageFds(GivenIn(fds, n, k), GivenOut(fds, n, k, |sts|), fds[2], sts[k].redirs)
  }

  // The left stage writes to the new pipe, and the rest of the pipeline runs reading from it.
  lemma PipeOutcome(c: Cmd, fds: Fds, n: nat)
    requires InImage(c) && c.Pipe? && Standard(fds)
    ensures var (rest, n') := Outcome(c.right, fds[0 := ReadEnd(n)], n + 1);
            var first := Leaf(StageOf(c.left).args, StageFds(fds[0], WriteEnd(n), fds[2], StageOf(c.left).redirs));
            Outcome(c, fds, n) == ([first] + rest, n')
  {
    PipeTables(fds, n);
    StageOutcome(c.left, fds[1 := WriteEnd(n)], n + 1);
  }

  ghost predicate StageLeaves(fds: Fds, n: nat, sts: seq<Stage>, leaves: seq<Leaf>)
    requires Standard(fds)
  {
    |leaves| == |sts| && forall k :: 0 <= k < |sts| ==> StageLeaf(fds, n, sts, k, leaves[k])
  }

  lemma AddStage(fds: Fds, n: nat, first: Leaf, st: Stage, sts: seq<Stage>, rest: seq<Leaf>)
    requires Standard(fds) && sts != [] && StageLeaves(fds[0 := ReadEnd(n)], n + 1, sts, rest)
    requires first == Leaf(st.args, StageFds(fds[0], WriteEnd(n), fds[2], st.redirs))
    ensures StageLeaves(fds, n, [st] + sts, [first] + rest)
  {
    var all, leaves := [st] + sts, [first] + rest;
    forall k | 0 <= k < |all| ensures StageLeaf(fds, n, all, k, leaves[k]) {
      assert k > 0 ==> StageLeaf(fds[0 := ReadEnd(n)], n + 1, sts, k - 1, rest[k - 1]);
    }
  }

  // Every stage's process ends up with exactly descriptors 0, 1 and 2: its leftmost redirections,
  // otherwise the two pipes next to it, otherwise what the shell was given.
  lemma {:induction false} PipelineOutcome(c: Cmd, fds: Fds, n: nat)
    requires InImage(c) && Standard(fds)
    ensures StageLeaves(fds, n, StagesOf(c), Outcome(c, fds, n).0)
    ensures Outcome(c, fds, n).1 == n + |StagesOf(c)| - 1
  {
    if !c.Pipe? {
      StageOutcome(c, fds, n);
    } else {
      var right := fds[0 := ReadEnd(n)];
      PipeOutcome(c, fds, n);
      PipelineOutcome(c.right, right, n + 1);
      var leaves, rest := Outcome(c, fds, n).0, Outcome(c.right, right, n + 1).0;
      AddStage(fds, n, leaves[0], StageOf(c.left), StagesOf(c.right), rest);
    }
  }

  ghost predicate Holds(leaf: Leaf, f: File) {
    f in leaf.fds.Values
  }

  // No process keeps an end of a pipe open that is not its own: the write end of pipe k belongs to
  // stage k as its output and the read end to stage k + 1 as its input, or to nobody.
  lemma PipeEndsAreNotLeaked(c: Cmd, fds: Fds, k: nat, j: nat)
    requires InImage(c) && Standard(fds)
    requires forall i: nat :: WriteEnd(i) !in fds.Values && ReadEnd(i) !in fds.Values
    requires j < |StagesOf(c)|
    ensures |Outcome(c, fds, 0).0| == |StagesOf(c)|
    ensures var leaf, st := Outcome(c, fds, 0).0[j], StagesOf(c)[j];
            && (Holds(leaf, WriteEnd(k)) <==> j == k && k + 1 < |StagesOf(c)| && FirstFile(st.redirs, Out) == None)
            && (Holds(leaf, ReadEnd(k)) <==> j == k + 1 && FirstFile(st.redirs, In) == None)
  {
    PipelineOutcome(c, fds, 0);
    assert StageLeaf(fds, 0, StagesOf(c), j, Outcome(c, fds, 0).0[j]);
    StageHolds(fds, StagesOf(c), j, Outcome(c, fds, 0).0[j], k);
  }

  lemma StageHolds(fds: Fds, sts: seq<Stage>, j: nat, leaf: Leaf, k: nat)
    requires Standard(fds) && j < |sts| && StageLeaf(fds, 0, sts, j, leaf)
    requires forall i: nat :: WriteEnd(i) !in fds.Values && ReadEnd(i) !in fds.Values
    ensures Holds(leaf, WriteEnd(k)) <==> j == k && k + 1 < |sts| && FirstFile(sts[j].redirs, Out) == None
    ensures Holds(leaf, ReadEnd(k)) <==> j == k + 1 && FirstFile(sts[j].redirs, In) == None
  {
    assert leaf.fds.Values == {leaf.fds[0], leaf.fds[1], leaf.fds[2]};
    assert fds[0] in fds.Values && fds[1] in fds.Values && fds[2] in fds.Values;
  }

  lemma StageLeavesAreStandard(fds: Fds, n: nat, sts: seq<Stage>, leaves: seq<Leaf>)
    requires Standard(fds) && StageLeaves(fds, n, sts, leaves)
    ensures forall leaf :: leaf in leaves ==> Standard(leaf.fds)
  {
    forall k | 0 <= k < |leaves| ensures Standard(leaves[k].fds) {
      assert StageLeaf(fds, n, sts, k, leaves[k]);
    }
  }

  // From the text of a line to its processes, each with exactly 0, 1 and 2 open.
  lemma LineOutcome(line: string, fds: Fds)
    requires ParseLine(line).Ok? && Standard(fds)
    ensures var c := ParseLine(line).value;
            && InImage(c)
            && StageLeaves(fds, 0, StagesOf(c), Outcome(c, fds, 0).0)
            && forall leaf :: leaf in Outcome(c, fds, 0).0 ==> Standard(leaf.fds)
  {
    hide Outcome;
    ParsePrintParse(line);
    var c := ParseLine(line).value;
    PipelineOutcome(c, fds, 0);
    StageLeavesAreStandard(fds, 0, StagesOf(c), Outcome(c, fds, 0).0);
  }
}

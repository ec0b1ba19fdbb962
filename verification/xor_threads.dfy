// The parallel reader, final_project/run_multithreaded.c. Threads share only the file, which nobody
// writes, so one turn of a thread's loop is one step.
module XorThreads {
  import opened XorWords
  import opened XorBlocks
  import Strides

  const INT_MAX: nat := 0x7fff_ffff

  // thread_arg, and the locals of thread_read().
  class ThreadArg {
    const file: seq<byte>
    const blockSize: nat
    const buf: array<byte>
    const threadNum: nat
    const numThreads: nat
    var xor: word
    var count: nat
    var offset: nat
    var finished: bool  // the loop of thread_read() has ended

    ghost predicate Valid()
      reads this
    {
      && threadNum < numThreads && buf.Length == blockSize && blockSize % WORD_SIZE == 0
      && offset == Turn() * blockSize
      && (0 < blockSize ==> xor == StridePart(Upto(Blocks(file, blockSize), Turn()), threadNum, numThreads))
      && (blockSize == 0 ==> xor == 0)
      && (finished ==> blockSize == 0 || |file| <= offset)
    }

    // The block it reads next.
    ghost function Turn(): nat
      reads this
    {
      numThreads * count + threadNum
    }

    // A bound on the turns it has yet to take.
    ghost function Ahead(): nat
      reads this
    {
      if finished then 0 else if |file| <= offset then 1 else 1 + |file| - offset
    }

    constructor (file: seq<byte>, blockSize: nat, threadNum: nat, numThreads: nat)
      requires threadNum < numThreads && blockSize % WORD_SIZE == 0
      requires threadNum * blockSize <= INT_MAX
      ensures Valid() && fresh(buf) && !finished
      ensures this.file == file && this.blockSize == blockSize && this.threadNum == threadNum && this.numThreads == numThreads
    {
      this.file := file;
      this.blockSize := blockSize;
      this.threadNum := threadNum;
      this.numThreads := numThreads;
      buf := new byte[blockSize];
      xor := 0;
      count := 0;
      offset := threadNum * blockSize;
      finished := false;
      new;
      if 0 < blockSize {
        NoTurnYet(Blocks(file, blockSize), threadNum, numThreads);
      }
    }

    // One turn of the loop, or its end.
    method Round()
      requires Valid() && !finished
      modifies this, buf
      ensures Valid() && Ahead() < old(Ahead())
    {
      hide Xor, XorOf, Blocks, Chunk, StridePart, Upto;
      var r, x := ReadWords(file, buf, offset);
      if r == 0 {
        finished := true;
      } else {
        xor := Xor(xor, x);
        count := count + 1;
        offset := (numThreads * count + threadNum) * blockSize;
        TurnTaken(file, blockSize, threadNum, numThreads, old(count));
      }
    }
  }

  // The pread() of the loop's condition and, if it gave anything, the xorbuf() of its body.
  method ReadWords(file: seq<byte>, buf: array<byte>, offset: nat) returns (r: nat, x: word)
    modifies buf
    ensures r == 0 <==> buf.Length == 0 || |file| <= offset
    ensures r > 0 ==> x == XorOf(Chunk(file, buf.Length, offset))
  {
    hide Xor, XorOf, Chunk;
    x := 0;
    r := Pread(file, buf, buf.Length, offset);
    if r > 0 {
      x := XorRead(buf, r);
    }
  }

  // A thread's next block is its next term.
  lemma TurnTaken(file: seq<byte>, b: nat, i: nat, n: nat, count: nat)
    requires 0 < b && i < n && (n * count + i) * b < |file|
    ensures var xs := Blocks(file, b);
            var j := n * count + i;
            StridePart(Upto(xs, n * (count + 1) + i), i, n) == Xor(StridePart(Upto(xs, j), i, n), XorOf(Chunk(file, b, j * b)))
    ensures (n * (count + 1) + i) * b > (n * count + i) * b
  {
    hide Xor, XorOf, Blocks, Chunk, StridePart;
    var j := n * count + i;
    assert n * (count + 1) + i == j + n;
    Strides.ModIs(j, n, count, i);
    BlockAt(file, b, j);
    NextTurn(Blocks(file, b), n, j);
    assert (j + n) * b == j * b + n * b && n * b > 0;
  }

  function Sum(s: seq<nat>): nat {
    if s == [] then 0 else Sum(s[..|s| - 1]) + s[|s| - 1]
  }

  lemma {:induction false} SumDrops(s: seq<nat>, i: nat, v: nat)
    requires i < |s| && v < s[i]
    ensures Sum(s[i := v]) < Sum(s)
  {
    if i < |s| - 1 {
      SumDrops(s[..|s| - 1], i, v);
      assert s[i := v][..|s| - 1] == s[..|s| - 1][i := v];
    } else {
      assert s[i := v][..|s| - 1] == s[..|s| - 1];
    }
  }

  // A thread that has ended has taken in its whole stride.
  lemma StrideComplete(file: seq<byte>, b: nat, i: nat, n: nat, turn: nat)
    requires 0 < b && i < n && |file| <= turn * b
    ensures StridePart(Upto(Blocks(file, b), turn), i, n) == StridePart(Blocks(file, b), i, n)
  {
    hide Blocks, StridePart;
    BlockAt(file, b, turn);
    assert Upto(Blocks(file, b), turn) == Blocks(file, b);
  }

  ghost predicate Distinct(args: seq<ThreadArg>) {
    forall i, j :: 0 <= i < j < |args| ==> args[i] != args[j] && args[i].buf != args[j].buf
  }

  // Thread "i" of "n".
  ghost predicate IsThread(file: seq<byte>, b: nat, n: nat, i: nat, t: ThreadArg)
    reads t
  {
    t.Valid() && t.file == file && t.blockSize == b && t.threadNum == i && t.numThreads == n
  }

  // What main has once it has joined "k" threads.
  ghost function Joined(file: seq<byte>, b: nat, n: nat, k: nat): word
    requires 0 < n
  {
    if b == 0 then 0 else Parts(Blocks(file, b), n, k)
  }

  lemma JoinedAll(file: seq<byte>, b: nat, n: nat)
    requires 0 < n && b % WORD_SIZE == 0
    ensures Joined(file, b, n, n) == if b == 0 then 0 else XorOf(file)
  {
    if b != 0 {
      StridesCover(Blocks(file, b), n);
      BlocksMakeFile(file, b);
    }
  }

  lemma JoinOne(file: seq<byte>, b: nat, n: nat, k: nat, t: ThreadArg)
    requires k < n && IsThread(file, b, n, k, t) && t.finished
    ensures Joined(file, b, n, k + 1) == Xor(Joined(file, b, n, k), t.xor)
  {
    hide Xor, Blocks, StridePart, Upto;
    if b == 0 {
      XorZero(0);
    } else {
      StrideComplete(file, b, k, n, t.Turn());
    }
  }

  // All the threads, and how far each may have to go.
  ghost predicate AreThreads(file: seq<byte>, b: nat, n: nat, args: seq<ThreadArg>, ahead: seq<nat>)
    reads args
  {
    |args| == |ahead| && Distinct(args) && forall i :: 0 <= i < |args| ==> IsThread(file, b, n, i, args[i]) && ahead[i] == args[i].Ahead()
  }

  method MakeThreads(file: seq<byte>, b: nat, n: nat) returns (args: seq<ThreadArg>, ghost ahead: seq<nat>)
    requires 0 < n && b % WORD_SIZE == 0 && (n - 1) * b <= INT_MAX
    ensures |args| == n && AreThreads(file, b, n, args, ahead)
    ensures forall i :: 0 <= i < n ==> fresh(args[i]) && fresh(args[i].buf)
  {
    hide Blocks, StridePart, Upto, ThreadArg.Turn;
    args, ahead := [], [];
    for i := 0 to n
      invariant |args| == i && AreThreads(file, b, n, args, ahead)
      invariant forall k :: 0 <= k < i ==> fresh(args[k]) && fresh(args[k].buf)
    {
      Strides.Monotone(i, n - 1, b);
      var arg := new ThreadArg(file, b, i, n);
      args := args + [arg];
      ahead := ahead + [arg.Ahead()];
    }
  }

  // Thread "i" runs one turn; nobody else is touched.
  method Turn(file: seq<byte>, b: nat, n: nat, args: seq<ThreadArg>, ghost ahead: seq<nat>, i: nat) returns (ghost ahead': seq<nat>)
    requires AreThreads(file, b, n, args, ahead) && i < |args| && !args[i].finished
    modifies args[i], args[i].buf
    ensures AreThreads(file, b, n, args, ahead') && Sum(ahead') < Sum(ahead)
  {
    args[i].Round();
    ahead' := ahead[i := args[i].Ahead()];
    SumDrops(ahead, i, args[i].Ahead());
  }

  // Threads take their turns in any order, and main joins them in theirs. However that goes, it ends,
  // with what fast.c computes; a block too small for a word leaves nothing.
  method DiskRead(file: seq<byte>, blockSize: nat, numThreads: nat) returns (xor: word)
    requires 1 <= numThreads && (numThreads - 1) * (blockSize / WORD_SIZE * WORD_SIZE) <= INT_MAX
    ensures xor == DiskXor(file, blockSize)
    ensures blockSize >= 4 ==> xor == XorOf(file)
    ensures blockSize < 4 ==> xor == 0
  {
    hide Xor, XorOf, Joined, IsThread, Sum;
    var b := blockSize / WORD_SIZE * WORD_SIZE;
    assert b == 0 <==> blockSize < WORD_SIZE;
    var args;
    ghost var ahead;
    args, ahead := MakeThreads(file, b, numThreads);
    xor := 0;
    var joined := 0;
    JoinedNone(file, b, numThreads);
    while joined < numThreads
      invariant 0 <= joined <= numThreads && xor == Joined(file, b, numThreads, joined)
      invariant AreThreads(file, b, numThreads, args, ahead)
      decreases Sum(ahead), numThreads - joined
    {
      if
      case args[joined].finished =>
        JoinOne(file, b, numThreads, joined, args[joined]);
        xor := Xor(xor, args[joined].xor);
        joined := joined + 1;
      case exists i :: 0 <= i < numThreads && !args[i].finished =>
        var i :| 0 <= i < numThreads && !args[i].finished;
        ahead := Turn(file, b, numThreads, args, ahead, i);
    }
    JoinedAll(file, b, numThreads);
  }

  lemma JoinedNone(file: seq<byte>, b: nat, n: nat)
    requires 0 < n
    ensures Joined(file, b, n, 0) == 0
  {
  }

  // What disk_read() leaves in xor.
  function DiskXor(file: seq<byte>, blockSize: nat): word {
    if blockSize < WORD_SIZE then 0 else XorOf(file)
  }

  // The block size makes no difference, if and only if a block can hold a word: one word of 1 is
  // lost to any smaller block.
  lemma BlockSizeDoesNotMatterIff(blockSize: nat)
    ensures (forall file :: DiskXor(file, blockSize) == XorOf(file)) <==> blockSize >= WORD_SIZE
  {
    hide XorOf;
    OneIsLost(blockSize);
  }

  lemma OneIsLost(blockSize: nat)
    ensures XorOf([1, 0, 0, 0]) == 1
    ensures blockSize < WORD_SIZE ==> DiskXor([1, 0, 0, 0], blockSize) != XorOf([1, 0, 0, 0])
  {
    var file: seq<byte> := [1, 0, 0, 0];
    NoWholeWord(file[WORD_SIZE..]);
    assert WordAt(file, 0) == 1;
  }
}

// The sequential readers: disk_read() of final_project/fast.c and of final_project/run_blocksize.c.
module XorReaders {
  import opened XorBlocks
  import opened XorWords
  import Strides

  class OpenFile {
    const bytes: seq<byte>
    var pos: nat

    constructor (bytes: seq<byte>)
      ensures this.bytes == bytes && pos == 0
    {
      this.bytes := bytes;
      pos := 0;
    }

    method Read(buf: array<byte>, n: nat) returns (r: nat)
      requires n <= buf.Length
      modifies this, buf
      ensures r == |Chunk(bytes, n, old(pos))| && buf[..r] == Chunk(bytes, n, old(pos)) && pos == old(pos) + r
      ensures r == if |bytes| <= old(pos) then 0 else if |bytes| - old(pos) < n then |bytes| - old(pos) else n
    {
      r := Pread(bytes, buf, n, pos);
      pos := pos + r;
    }
  }

  // What has been read and the chunk after it.
  lemma AddChunk(file: seq<byte>, n: nat, p: nat)
    requires p <= |file| && p % WORD_SIZE == 0
    ensures p + |Chunk(file, n, p)| <= |file|
    ensures XorOf(file[..p + |Chunk(file, n, p)|]) == Xor(XorOf(file[..p]), XorOf(Chunk(file, n, p)))
  {
    hide Xor, XorOf;
    assert file[..p + |Chunk(file, n, p)|] == file[..p] + Chunk(file, n, p);
    XorOfConcat(file[..p], Chunk(file, n, p));
  }

  const FAST_BLOCK: nat := 4096

  // fast.c computes the exclusive or of the file's whole words.
  method FastRead(file: seq<byte>) returns (xor: word)
    ensures xor == XorOf(file)
  {
    hide Xor, XorOf;
    var fd := new OpenFile(file);
    var size := FAST_BLOCK / WORD_SIZE;
    var buf := new byte[size * WORD_SIZE];
    xor := 0;
    NoWholeWord(file[..0]);
    var r: nat := fd.Read(buf, size * WORD_SIZE);
    ghost var done: nat := 0;
    while r > 0
      invariant fd.bytes == file && done <= |file| && xor == XorOf(file[..done])
      invariant r <= buf.Length && buf[..r] == Chunk(file, buf.Length, done) && fd.pos == done + r
      invariant r > 0 ==> done % WORD_SIZE == 0
      decreases |file| - done
    {
      AddChunk(file, buf.Length, done);
      var x := XorRead(buf, r);
      xor := Xor(xor, x);
      done := done + r;
      r := fd.Read(buf, size * WORD_SIZE);
    }
    assert file[..done] == file;
  }

  function Min(a: int, b: int): int {
    if a <= b then a else b
  }

  // A block count below zero counts as none.
  function Whole(count: int): nat {
    if count < 0 then 0 else count
  }

  // Where "count" blocks of "b" bytes end.
  function EndOf(file: seq<byte>, b: nat, count: nat): (end: nat)
    ensures end <= |file|
  {
    Min(|file|, b * count)
  }

  lemma NextBlock(file: seq<byte>, b: nat, count: nat)
    requires b % WORD_SIZE == 0
    ensures EndOf(file, b, count) + |Chunk(file, b, EndOf(file, b, count))| == EndOf(file, b, count + 1)
    ensures Chunk(file, b, EndOf(file, b, count)) != [] ==> EndOf(file, b, count) % WORD_SIZE == 0
  {
    assert b * (count + 1) == b * count + b;
    assert b * count == WORD_SIZE * (b / WORD_SIZE * count);
  }

  lemma NoMoreBlocks(file: seq<byte>, b: nat, count: nat, more: nat)
    requires Chunk(file, b, EndOf(file, b, count)) == [] && count <= more
    ensures EndOf(file, b, more) == EndOf(file, b, count)
  {
    Strides.Monotone(count, more, b);
  }

  lemma NoBlockYet(file: seq<byte>, b: nat)
    ensures EndOf(file, b, 0) == 0
  {
  }

  // With enough blocks it agrees with fast.c.
  lemma EnoughBlocks(file: seq<byte>, b: nat, count: nat)
    requires |file| <= b * count
    ensures XorOf(file[..EndOf(file, b, count)]) == XorOf(file)
  {
    hide XorOf;
    assert file[..|file|] == file;
  }

  lemma {:induction false} FirstBlocks(file: seq<byte>, b: nat, count: nat)
    requires 0 < b && b % WORD_SIZE == 0
    ensures Fold(Upto(Blocks(file, b), count)) == XorOf(file[..EndOf(file, b, count)])
  {
    hide Xor, XorOf, Blocks, Chunk, EndOf;
    if count == 0 {
      NoBlockYet(file, b);
      NoWholeWord(file[..0]);
    } else {
      var m := count - 1;
      FirstBlocks(file, b, m);
      NextBlock(file, b, m);
      OneMoreBlock(file, b, m);
    }
  }

  lemma OneMoreBlock(file: seq<byte>, b: nat, m: nat)
    requires 0 < b && b % WORD_SIZE == 0
    requires Fold(Upto(Blocks(file, b), m)) == XorOf(file[..EndOf(file, b, m)])
    requires EndOf(file, b, m) + |Chunk(file, b, EndOf(file, b, m))| == EndOf(file, b, m + 1)
    ensures Fold(Upto(Blocks(file, b), m + 1)) == XorOf(file[..EndOf(file, b, m + 1)])
  {
    hide Xor, XorOf, Blocks, Chunk;
    var xs, end := Blocks(file, b), EndOf(file, b, m);
    BlockAt(file, b, m);
    if m < |xs| {
      assert xs[..m + 1][..m] == xs[..m];
      NextBlock(file, b, m);
      AddChunk(file, b, end);
    } else {
      assert Upto(xs, m + 1) == Upto(xs, m);
    }
  }

  // The claims of BlockRead() in terms of the count itself.
  lemma CountedBlocks(file: seq<byte>, b: nat, count: int)
    requires b % WORD_SIZE == 0
    ensures count <= 0 ==> XorOf(file[..EndOf(file, b, Whole(count))]) == 0
    ensures count >= 0 && b > 0 ==>
              var xs := Blocks(file, b);
              XorOf(file[..EndOf(file, b, Whole(count))]) == Fold(xs[..if count < |xs| then count else |xs|])
    ensures count >= 0 && |file| <= b * count ==> XorOf(file[..EndOf(file, b, Whole(count))]) == XorOf(file)
    ensures EndOf(file, b, Whole(count) + 1) == if count < 0 then Min(|file|, b) else Min(|file|, b * (count + 1))
  {
    hide Xor, XorOf, Blocks;
    if count <= 0 {
      NoBlockYet(file, b);
      NoWholeWord(file[..0]);
    } else if |file| <= b * count {
      EnoughBlocks(file, b, count);
    }
    if count >= 0 && b > 0 {
      FirstBlocks(file, b, count);
      var xs := Blocks(file, b);
      assert Upto(xs, count) == xs[..if count < |xs| then count else |xs|];
    }
    if count == 0 && |file| <= b * count {
      assert file[..0] == file;
    }
  }

  // run_blocksize.c computes that of the first "blockCount" blocks, each cut down to whole words, and
  // reads one block further before it looks at the count.
  method BlockRead(file: seq<byte>, blockSize: nat, blockCount: int) returns (xor: word, fd: OpenFile)
    ensures var b := blockSize / WORD_SIZE * WORD_SIZE;
            && xor == XorOf(file[..EndOf(file, b, Whole(blockCount))])
            && fd.pos == EndOf(file, b, Whole(blockCount) + 1)
    ensures var b := blockSize / 4 * 4;
            && (blockCount <= 0 ==> xor == 0)
            && (blockCount >= 0 && b > 0 ==>
                  var xs := Blocks(file, b);
                  xor == Fold(xs[..if blockCount < |xs| then blockCount else |xs|]))
            && (blockCount >= 0 && |file| <= b * blockCount ==> xor == XorOf(file))
            && (blockCount >= 0 ==> fd.pos == if |file| < b * (blockCount + 1) then |file| else b * (blockCount + 1))
            && (blockCount < 0 ==> fd.pos == if |file| < b then |file| else b)
  {
    hide Xor, XorOf, EndOf, Chunk;
    NoBlockYet(file, blockSize / WORD_SIZE * WORD_SIZE);
    fd := new OpenFile(file);
    var size := blockSize / WORD_SIZE;
    var b := size * WORD_SIZE;
    var buf := new byte[b];
    xor := 0;
    var count := 0;
    NoWholeWord(file[..0]);
    var r: nat := fd.Read(buf, b);
    ghost var done: nat := 0;
    while r > 0 && count < blockCount
      invariant fd.bytes == file && done <= |file| && xor == XorOf(file[..done])
      invariant r <= b && buf[..r] == Chunk(file, b, done) && fd.pos == done + r
      invariant 0 <= count <= Whole(blockCount) && done == EndOf(file, b, count)
      decreases blockCount - count
    {
      NextBlock(file, b, count);
      AddChunk(file, b, done);
      var x := XorRead(buf, r);
      xor := Xor(xor, x);
      count := count + 1;
      done := done + r;
      r := fd.Read(buf, b);
    }
    NextBlock(file, b, count);
    if r == 0 {
      NoMoreBlocks(file, b, count, Whole(blockCount));
      NoMoreBlocks(file, b, count, Whole(blockCount) + 1);
    }
    CountedBlocks(file, b, blockCount);
  }
}

// Words, their exclusive or, and xorbuf(), which final_project/fast.c, final_project/run_blocksize.c
// and final_project/run_multithreaded.c share.
module XorWords {

  type byte = bv8
  type word = bv32

  const WORD_SIZE: nat := 4

  function Xor(a: word, b: word): word {
    a ^ b
  }

  lemma XorZero(a: word)
    ensures Xor(a, 0) == a && Xor(0, a) == a
  {
  }

  lemma XorAssociates(a: word, b: word, c: word)
    ensures Xor(Xor(a, b), c) == Xor(a, Xor(b, c))
  {
  }

  lemma XorCommutes(a: word, b: word)
    ensures Xor(a, b) == Xor(b, a)
  {
  }

  lemma XorMoves(a: word, b: word, c: word)
    ensures Xor(Xor(a, b), c) == Xor(Xor(a, c), b)
  {
    hide Xor;
    XorAssociates(a, b, c);
    XorAssociates(a, c, b);
    XorCommutes(b, c);
  }

  // An unsigned int as a little-endian machine keeps it.
  function WordAt(bytes: seq<byte>, i: nat): word
    requires i + WORD_SIZE <= |bytes|
  {
    (bytes[i] as word) | ((bytes[i + 1] as word) << 8) | ((bytes[i + 2] as word) << 16) | ((bytes[i + 3] as word) << 24)
  }

  // The exclusive or of the whole words in "bytes"; up to three bytes at the end make none.
  function XorOf(bytes: seq<byte>): word {
    if |bytes| < WORD_SIZE then 0 else Xor(WordAt(bytes, 0), XorOf(bytes[WORD_SIZE..]))
  }

  lemma {:induction false} XorOfConcat(a: seq<byte>, b: seq<byte>)
    requires |a| % WORD_SIZE == 0
    ensures XorOf(a + b) == Xor(XorOf(a), XorOf(b))
  {
    hide Xor, WordAt;
    if a == [] {
      assert a + b == b;
      XorZero(XorOf(b));
    } else {
      XorOfConcat(a[WORD_SIZE..], b);
      assert (a + b)[WORD_SIZE..] == a[WORD_SIZE..] + b;
      SameWord(a, a + b);
      XorAssociates(WordAt(a, 0), XorOf(a[WORD_SIZE..]), XorOf(b));
    }
  }

  lemma SameWord(a: seq<byte>, b: seq<byte>)
    requires WORD_SIZE <= |a| && WORD_SIZE <= |b| && a[..WORD_SIZE] == b[..WORD_SIZE]
    ensures WordAt(a, 0) == WordAt(b, 0)
  {
    assert forall i :: 0 <= i < WORD_SIZE ==> a[i] == a[..WORD_SIZE][i] && b[i] == b[..WORD_SIZE][i];
  }

  lemma OneWord(bytes: seq<byte>, i: nat)
    requires i + WORD_SIZE <= |bytes|
    ensures XorOf(bytes[i..i + WORD_SIZE]) == WordAt(bytes, i)
  {
    hide Xor;
    var w := bytes[i..i + WORD_SIZE];
    assert WordAt(w, 0) == WordAt(bytes, i);
    XorZero(WordAt(w, 0));
  }

  lemma NoWholeWord(bytes: seq<byte>)
    requires |bytes| < WORD_SIZE
    ensures XorOf(bytes) == 0
  {
  }

  // The bytes after the last whole word do not count.
  lemma WholeWords(bytes: seq<byte>)
    ensures XorOf(bytes) == XorOf(bytes[..|bytes| / WORD_SIZE * WORD_SIZE])
  {
    hide Xor, WordAt, XorOf;
    var n := |bytes| / WORD_SIZE * WORD_SIZE;
    assert bytes == bytes[..n] + bytes[n..];
    XorOfConcat(bytes[..n], bytes[n..]);
    NoWholeWord(bytes[n..]);
    XorZero(XorOf(bytes[..n]));
  }

  /* Bits */

  predicate Bit(w: word, k: bv5) {
    (w >> k) & 1 == 1
  }

  // The four bytes of a word, the first one lowest.
  lemma BytesOfWord(bytes: seq<byte>, i: nat)
    requires i + 4 <= |bytes|
    ensures WordAt(bytes, i) & 0xff == bytes[i] as word
    ensures (WordAt(bytes, i) >> 8) & 0xff == bytes[i + 1] as word
    ensures (WordAt(bytes, i) >> 16) & 0xff == bytes[i + 2] as word
    ensures WordAt(bytes, i) >> 24 == bytes[i + 3] as word
  {
  }

  lemma XorBit(a: word, b: word, k: bv5)
    ensures Bit(Xor(a, b), k) <==> Bit(a, k) != Bit(b, k)
    ensures !Bit(0, k) && Xor(a, a) == 0
  {
  }

  // The words among the first "n" that have bit "k".
  function WordsWithBit(bytes: seq<byte>, n: nat, k: bv5): set<nat>
    requires 4 * n <= |bytes|
  {
    set i: nat | i < n && Bit(WordAt(bytes, 4 * i), k)
  }

  lemma {:induction false} ParityOf(bytes: seq<byte>, n: nat, k: bv5)
    requires 4 * n <= |bytes|
    ensures Bit(XorOf(bytes[..4 * n]), k) <==> |WordsWithBit(bytes, n, k)| % 2 == 1
  {
    hide Xor, WordAt, XorOf, Bit;
    if n == 0 {
      NoWholeWord(bytes[..0]);
      XorBit(0, 0, k);
    } else {
      var m, w := n - 1, WordAt(bytes, 4 * (n - 1));
      ParityOf(bytes, m, k);
      assert bytes[..4 * n] == bytes[..4 * m] + bytes[4 * m..4 * m + WORD_SIZE];
      XorOfConcat(bytes[..4 * m], bytes[4 * m..4 * m + WORD_SIZE]);
      OneWord(bytes, 4 * m);
      XorBit(XorOf(bytes[..4 * m]), w, k);
      assert WordsWithBit(bytes, n, k) == WordsWithBit(bytes, m, k) + if Bit(w, k) then {m} else {};
    }
  }

  // Bit by bit, what the readers compute is whether an odd number of whole words has the bit.
  lemma XorIsParity(bytes: seq<byte>, k: bv5)
    ensures Bit(XorOf(bytes), k) <==> |set i: nat | i < |bytes| / 4 && Bit(WordAt(bytes, 4 * i), k)| % 2 == 1
  {
    hide Xor, WordAt, XorOf, Bit;
    WholeWords(bytes);
    ParityOf(bytes, |bytes| / 4, k);
    assert bytes[..|bytes| / WORD_SIZE * WORD_SIZE] == bytes[..4 * (|bytes| / 4)];
  }

  lemma TwiceIsNothing(a: seq<byte>)
    requires |a| % 4 == 0
    ensures XorOf(a + a) == 0
  {
    hide WordAt, XorOf, Xor;
    XorOfConcat(a, a);
    XorBit(XorOf(a), XorOf(a), 0);
  }

  // The buffer is memory: "size" words of it.
  method XorBuf(buffer: array<byte>, size: nat) returns (result: word)
    requires WORD_SIZE * size <= buffer.Length
    ensures result == XorOf(buffer[..WORD_SIZE * size])
  {
    hide Xor, WordAt, XorOf;
    result := 0;
    NoWholeWord([]);
    assert buffer[..WORD_SIZE * 0] == [];
    for i := 0 to size
      invariant result == XorOf(buffer[..WORD_SIZE * i])
    {
      ghost var w := buffer[WORD_SIZE * i..WORD_SIZE * (i + 1)];
      assert buffer[..WORD_SIZE * (i + 1)] == buffer[..WORD_SIZE * i] + w;
      XorOfConcat(buffer[..WORD_SIZE * i], w);
      OneWord(buffer[..], WORD_SIZE * i);
      assert buffer[..][WORD_SIZE * i..WORD_SIZE * i + WORD_SIZE] == w;
      result := Xor(result, WordAt(buffer[..], WORD_SIZE * i));
    }
  }

  // What every reader makes of the "r" bytes it has read.
  method XorRead(buffer: array<byte>, r: nat) returns (x: word)
    requires r <= buffer.Length
    ensures x == XorOf(buffer[..r])
  {
    hide Xor, WordAt, XorOf;
    var size := r / WORD_SIZE;
    x := XorBuf(buffer, size);
    WholeWords(buffer[..r]);
    assert buffer[..WORD_SIZE * size] == buffer[..r][..WORD_SIZE * size];
  }

  /* Reading */

  // What a read of "n" bytes at "offset" of a regular file gives.
  function Chunk(file: seq<byte>, n: nat, offset: nat): (c: seq<byte>)
    ensures |c| <= n
    ensures c == [] <==> n == 0 || |file| <= offset
  {
    if |file| <= offset then [] else if |file| < offset + n then file[offset..] else file[offset..offset + n]
  }

  method Pread(file: seq<byte>, buf: array<byte>, n: nat, offset: nat) returns (r: nat)
    requires n <= buf.Length
    modifies buf
    ensures r == |Chunk(file, n, offset)| && buf[..r] == Chunk(file, n, offset)
    ensures r == if |file| <= offset then 0 else if |file| - offset < n then |file| - offset else n
    ensures forall i :: 0 <= i < r ==> buf[i] == file[offset + i]
    ensures forall i :: r <= i < buf.Length ==> buf[i] == old(buf[i])
  {
    ghost var c := Chunk(file, n, offset);
    r := 0;
    while r < n && offset + r < |file|
      invariant r <= |c|
      invariant buf[..r] == c[..r]
      invariant forall i :: r <= i < buf.Length ==> buf[i] == old(buf[i])
    {
      buf[r] := file[offset + r];
      assert buf[..r + 1] == buf[..r] + [file[offset + r]];
      assert c[..r + 1] == c[..r] + [c[r]];
      r := r + 1;
    }
    assert c[..r] == c;
    assert forall i :: 0 <= i < r ==> buf[i] == buf[..r][i] == c[i];
  }
}

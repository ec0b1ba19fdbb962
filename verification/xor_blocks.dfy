// A file cut into blocks, and blocks dealt out in strides.
module XorBlocks {
  import opened XorWords
  import Strides

  /* Exclusive or of a series, and of every n-th of its terms */

  function Fold(xs: seq<word>): word {
    if xs == [] then 0 else Xor(Fold(xs[..|xs| - 1]), xs[|xs| - 1])
  }

  lemma {:induction false} FoldCons(x: word, xs: seq<word>)
    ensures Fold([x] + xs) == Xor(x, Fold(xs))
  {
    hide Xor;
    if xs == [] {
      XorZero(x);
      assert ([x] + xs)[..0] == [];
    } else {
      var front, last := xs[..|xs| - 1], xs[|xs| - 1];
      FoldCons(x, front);
      assert ([x] + xs)[..|xs|] == [x] + front;
      XorAssociates(x, Fold(front), last);
    }
  }

  // The terms whose index is "i" modulo "n".
  function StridePart(xs: seq<word>, i: nat, n: nat): word
    requires 0 < n
  {
    if xs == [] then 0
    else
      var front := StridePart(xs[..|xs| - 1], i, n);
      if (|xs| - 1) % n == i then Xor(front, xs[|xs| - 1]) else front
  }

  // The parts of the first "k" strides together.
  function Parts(xs: seq<word>, n: nat, k: nat): word
    requires 0 < n
  {
    if k == 0 then 0 else Xor(Parts(xs, n, k - 1), StridePart(xs, k - 1, n))
  }

  lemma {:induction false} EmptyParts(n: nat, k: nat)
    requires 0 < n
    ensures Parts([], n, k) == 0
  {
    hide Xor;
    XorZero(0);
    if k > 0 {
      EmptyParts(n, k - 1);
    }
  }

  // The last term is in one part.
  lemma {:induction false} LastTerm(xs: seq<word>, n: nat, k: nat)
    requires 0 < n && xs != []
    ensures var front, last := xs[..|xs| - 1], xs[|xs| - 1];
            Parts(xs, n, k) == if (|xs| - 1) % n < k then Xor(Parts(front, n, k), last) else Parts(front, n, k)
  {
    hide Xor;
    if k > 0 {
      var front, last := xs[..|xs| - 1], xs[|xs| - 1];
      LastTerm(xs, n, k - 1);
      XorMoves(Parts(front, n, k - 1), last, StridePart(front, k - 1, n));
      XorAssociates(Parts(front, n, k - 1), StridePart(front, k - 1, n), last);
    }
  }

  // Dealing a series out in strides loses nothing and repeats nothing.
  lemma {:induction false} StridesCover(xs: seq<word>, n: nat)
    requires 0 < n
    ensures Parts(xs, n, n) == Fold(xs)
  {
    hide Xor, Parts;
    if xs == [] {
      EmptyParts(n, n);
    } else {
      StridesCover(xs[..|xs| - 1], n);
      LastTerm(xs, n, n);
    }
  }

  lemma {:induction false} OthersTurns(xs: seq<word>, i: nat, n: nat, a: nat, b: nat)
    requires 0 < n && a <= b <= |xs| && forall m :: a <= m < b ==> m % n != i
    ensures StridePart(xs[..a], i, n) == StridePart(xs[..b], i, n)
    decreases b
  {
    hide Xor;
    if a < b {
      OthersTurns(xs, i, n, a, b - 1);
      assert xs[..b][..b - 1] == xs[..b - 1];
    }
  }

  // One turn of a stride takes in one term.
  lemma NextTurn(xs: seq<word>, n: nat, j: nat)
    requires 0 < n && j < |xs|
    ensures StridePart(Upto(xs, j + n), j % n, n) == Xor(StridePart(xs[..j], j % n, n), xs[j])
  {
    hide Xor;
    var b := if j + n <= |xs| then j + n else |xs|;
    forall m | j + 1 <= m < b ensures m % n != j % n {
      if m % n == j % n {
        Strides.StrideGap(j, m, n);
      }
    }
    OthersTurns(xs, j % n, n, j + 1, b);
    assert xs[..j + 1][..j] == xs[..j];
    assert Upto(xs, j + n) == xs[..b];
  }

  function Upto(xs: seq<word>, j: nat): seq<word> {
    if j <= |xs| then xs[..j] else xs
  }

  // Before its first turn a stride has nothing.
  lemma NoTurnYet(xs: seq<word>, i: nat, n: nat)
    requires i < n
    ensures StridePart(Upto(xs, i), i, n) == 0
  {
    hide Xor;
    var b := if i <= |xs| then i else |xs|;
    forall m | 0 <= m < b ensures m % n != i {
      Strides.ModIs(m, n, 0, m);
    }
    OthersTurns(xs, i, n, 0, b);
    assert Upto(xs, i) == xs[..b];
  }

  /* The blocks of a file */

  // What each block of "n" bytes contributes; the last may be short.
  function Blocks(file: seq<byte>, n: nat): seq<word>
    requires 0 < n
  {
    if file == [] then [] else [XorOf(Chunk(file, n, 0))] + Blocks(file[|Chunk(file, n, 0)|..], n)
  }

  // Together they make the file.
  lemma {:induction false} BlocksMakeFile(file: seq<byte>, n: nat)
    requires 0 < n && n % WORD_SIZE == 0
    ensures Fold(Blocks(file, n)) == XorOf(file)
    decreases |file|
  {
    hide Xor, WordAt, XorOf;
    if file == [] {
      NoWholeWord(file);
    } else {
      var c := Chunk(file, n, 0);
      var rest := file[|c|..];
      BlocksMakeFile(rest, n);
      FoldCons(XorOf(c), Blocks(rest, n));
      FirstChunk(file, n);
    }
  }

  lemma FirstChunk(file: seq<byte>, n: nat)
    requires 0 < n && n % WORD_SIZE == 0
    ensures var c := Chunk(file, n, 0); XorOf(file) == Xor(XorOf(c), XorOf(file[|c|..]))
  {
    hide Xor, WordAt, XorOf;
    var c := Chunk(file, n, 0);
    assert c + file[|c|..] == file;
    if |c| == n {
      XorOfConcat(c, file[n..]);
    } else {
      NoWholeWord(file[|c|..]);
      XorZero(XorOf(c));
    }
  }

  // Reading a block's length at a multiple of it gives that block, and nothing past the last one.
  lemma {:induction false} BlockAt(file: seq<byte>, n: nat, m: nat)
    requires 0 < n
    ensures m < |Blocks(file, n)| <==> m * n < |file|
    ensures m < |Blocks(file, n)| ==> Blocks(file, n)[m] == XorOf(Chunk(file, n, m * n))
    decreases |file|
  {
    hide XorOf, Xor;
    if file != [] && m > 0 {
      var rest := file[|Chunk(file, n, 0)|..];
      BlockAt(rest, n, m - 1);
      assert m * n == (m - 1) * n + n && (m - 1) * n >= 0;
      if n <= |file| {
        assert Chunk(rest, n, (m - 1) * n) == Chunk(file, n, m * n);
      }
    }
  }
}

// The invariant of the hash-table interleavings, in every locking mode.
module HashInv {
  import opened Util
  import opened AtomicTable
  import opened HashMachine
  import Strides

  // A head read from bucket "b": null, or a published entry of that bucket.
  ghost predicate HeadOk(u: Setup, chain: map<nat, seq<nat>>, h: Option<nat>, b: nat) {
    h.Some? ==> h.value in chain && h.value < |u.keys| && BucketOf(u, h.value) == b
  }

  // A published entry holds its key and thread, and points to an entry published before it.
  ghost predicate EntryOk(u: Setup, nodes: seq<Node>, chain: map<nat, seq<nat>>, j: nat)
    requires SetupOk(u) && j in chain
  {
    && j < |nodes| == |u.keys|
    && nodes[j].key == u.keys[j] && nodes[j].val == Owner(u, j)
    && HeadOk(u, chain, nodes[j].next, BucketOf(u, j))
    && chain[j] == [j] + ChainOf(chain, nodes[j].next)
    && j !in ChainOf(chain, nodes[j].next)
    && (forall x :: x in chain[j] ==> x in chain)
  }

  ghost predicate Entries(u: Setup, s: State)
    requires SetupOk(u)
  {
    forall j :: j in s.chain ==> EntryOk(u, s.nodes, s.chain, j)
  }

  ghost predicate Heads(u: Setup, s: State) {
    |s.table| == NUM_BUCKETS && forall b :: 0 <= b < NUM_BUCKETS ==> HeadOk(u, s.chain, s.table[b], b)
  }

  // The head a thread in its window will link its entry in front of.
  function WindowHead(nodes: seq<Node>, pc: Pc): Option<nat>
    requires InWindow(pc) && pc.j < |nodes|
  {
    if pc.HasHead? then pc.head else nodes[pc.j].next
  }

  ghost predicate PcOk(u: Setup, nodes: seq<Node>, chain: map<nat, seq<nat>>, t: nat, pc: Pc)
    requires SetupOk(u) && |nodes| == |u.keys|
  {
    && Owner(u, pc.j) == t
    && (!pc.Loop? ==> pc.j < |u.keys|)
    && (InWindow(pc) ==> HeadOk(u, chain, WindowHead(nodes, pc), BucketOf(u, pc.j)))
    && (pc.HasKey? || pc.Filled? ==> nodes[pc.j].key == u.keys[pc.j])
    && (pc.Filled? ==> nodes[pc.j].val == t)
  }

  ghost predicate Pcs(u: Setup, s: State)
    requires SetupOk(u) && Sizes(u, s)
  {
    forall t :: 0 <= t < |s.pcs| ==> PcOk(u, s.nodes, s.chain, t, s.pcs[t])
  }

  // How far its thread has come tells whether an entry is published.
  ghost predicate IsOut(pc: Pc, j: nat) {
    j < pc.j || (j == pc.j && pc.Published?)
  }

  ghost predicate Progress(u: Setup, s: State)
    requires SetupOk(u) && Sizes(u, s)
  {
    forall j: nat :: j in s.chain <==> j < |u.keys| && IsOut(s.pcs[Owner(u, j)], j)
  }

  // With locks, a thread inside insert() holds its bucket's, and nobody publishes under it.
  ghost predicate LockOk(u: Setup, s: State, t: nat)
    requires Sizes(u, s) && t < |s.pcs|
  {
    !s.pcs[t].Loop? && s.pcs[t].j < |u.keys| ==>
      && s.locks[LockOf(u.mode, BucketOf(u, s.pcs[t].j))] == Some(t)
      && (InWindow(s.pcs[t]) ==> WindowHead(s.nodes, s.pcs[t]) == s.table[BucketOf(u, s.pcs[t].j)])
  }

  ghost predicate Locks(u: Setup, s: State)
    requires SetupOk(u) && Sizes(u, s)
  {
    !u.mode.NoLock? ==> forall t :: 0 <= t < |s.pcs| ==> LockOk(u, s, t)
  }

  // A safe entry is reachable from its bucket, and from every head on which an insert is under way.
  ghost predicate WindowKeeps(u: Setup, s: State, x: nat, t: nat)
    requires Sizes(u, s) && x < |u.keys| && t < |s.pcs|
  {
    InWindow(s.pcs[t]) && s.pcs[t].j < |u.keys| && BucketOf(u, s.pcs[t].j) == BucketOf(u, x) ==>
      x in ChainOf(s.chain, WindowHead(s.nodes, s.pcs[t]))
  }

  ghost predicate SafeOk(u: Setup, s: State, x: nat)
    requires Sizes(u, s)
  {
    && x in s.chain && x < |u.keys|
    && x in ChainOf(s.chain, s.table[BucketOf(u, x)])
    && (forall t :: 0 <= t < |s.pcs| ==> WindowKeeps(u, s, x, t))
  }

  ghost predicate Safe(u: Setup, s: State)
    requires Sizes(u, s)
  {
    && (forall x :: x in s.safe ==> SafeOk(u, s, x))
    && (!u.mode.NoLock? || u.threads == 1 ==> forall x :: x in s.chain ==> x in s.safe)
  }

  ghost predicate ReaderOk(u: Setup, chain: map<nat, seq<nat>>, r: Reader) {
    match r
    case Ready => true
    case Walking(key, at, compared) => 0 <= key && HeadOk(u, chain, at, KeyBucket(key)) && (compared ==> at.Some?)
    case Returned(key, result) =>
      result.Some? ==> result.value in chain && result.value < |u.keys| && u.keys[result.value] == key
  }

  ghost predicate Readers(u: Setup, s: State) {
    forall r :: 0 <= r < |s.readers| ==> ReaderOk(u, s.chain, s.readers[r])
  }

  ghost predicate Inv(u: Setup, s: State) {
    && SetupOk(u) && Sizes(u, s)
    && Entries(u, s) && Heads(u, s) && Pcs(u, s) && Progress(u, s)
    && Locks(u, s) && Safe(u, s) && Readers(u, s)
  }

  lemma InitInv(u: Setup, s: State)
    requires SetupOk(u) && Init(u, s)
    ensures Inv(u, s)
  {
    forall t | 0 <= t < |s.pcs| ensures PcOk(u, s.nodes, s.chain, t, s.pcs[t]) {
      OwnerOfFirst(u, t);
    }
    forall j: nat ensures j in s.chain <==> j < |u.keys| && IsOut(s.pcs[Owner(u, j)], j) {
      OwnerBelow(u, j);
    }
  }

  /* Arithmetic of the strides */

  lemma OwnerOfFirst(u: Setup, t: nat)
    requires t < u.threads
    ensures Owner(u, t) == t
  {
  }

  lemma OwnerBelow(u: Setup, j: nat)
    requires 0 < u.threads
    ensures Owner(u, j) <= j
  {
  }

  lemma OwnerOfNext(u: Setup, j: nat)
    requires 0 < u.threads
    ensures Owner(u, j + u.threads) == Owner(u, j)
  {
    Strides.NextStride(j, u.threads);
  }

  // Two indices of one thread are at least a stride apart.
  lemma StrideGap(u: Setup, a: nat, b: nat)
    requires 0 < u.threads && Owner(u, a) == Owner(u, b) && a < b
    ensures a + u.threads <= b
  {
    Strides.StrideGap(a, b, u.threads);
  }

  /* Steps that leave memory alone: lock, read the head, unlock */

  lemma MoveKeepsProgress(u: Setup, s: State, t: nat, pc: Pc, j: nat)
    requires SetupOk(u) && Sizes(u, s) && t < |s.pcs| && Progress(u, s)
    requires j < |u.keys| && Owner(u, j) == t ==> (IsOut(pc, j) <==> IsOut(s.pcs[t], j))
    ensures j in s.chain <==> j < |u.keys| && IsOut(s.pcs[t := pc][Owner(u, j)], j)
  {
    hide KeyBucket, Owner, IsOut;
  }

  // Thread "t" moves to "pc" without touching the chains.
  lemma MoveKeepsPcs(u: Setup, s: State, t: nat, pc: Pc, locks: seq<Option<nat>>)
    requires Inv(u, s) && t < |s.pcs| && |locks| == NUM_BUCKETS
    requires PcOk(u, s.nodes, s.chain, t, pc)
    requires forall j: nat :: j < |u.keys| && Owner(u, j) == t ==> (IsOut(pc, j) <==> IsOut(s.pcs[t], j))
    ensures var s' := s.(pcs := s.pcs[t := pc], locks := locks);
            Sizes(u, s') && Entries(u, s') && Heads(u, s') && Pcs(u, s') && Progress(u, s') && Readers(u, s')
  {
    hide KeyBucket, Owner, IsOut, EntryOk, PcOk, ReaderOk, HeadOk, Locks, Safe;
    var s' := s.(pcs := s.pcs[t := pc], locks := locks);
    forall x | 0 <= x < |s'.pcs| ensures PcOk(u, s'.nodes, s'.chain, x, s'.pcs[x]) {
      assert PcOk(u, s.nodes, s.chain, x, s.pcs[x]);
    }
    forall j: nat ensures j in s'.chain <==> j < |u.keys| && IsOut(s'.pcs[Owner(u, j)], j) {
      MoveKeepsProgress(u, s, t, pc, j);
    }
  }

  // A thread that is not in its window puts no demand on the safe entries.
  lemma MoveKeepsSafe(u: Setup, s: State, t: nat, pc: Pc, locks: seq<Option<nat>>)
    requires Sizes(u, s) && Safe(u, s) && t < |s.pcs| && |locks| == NUM_BUCKETS
    requires InWindow(pc) && pc.j < |u.keys| ==> pc.HasHead? && pc.head == s.table[BucketOf(u, pc.j)] && |s.nodes| == |u.keys|
    ensures Safe(u, s.(pcs := s.pcs[t := pc], locks := locks))
  {
    hide KeyBucket, Owner;
    var s' := s.(pcs := s.pcs[t := pc], locks := locks);
    forall x | x in s'.safe ensures SafeOk(u, s', x) {
      assert SafeOk(u, s, x);
      forall y | 0 <= y < |s'.pcs| ensures WindowKeeps(u, s', x, y) {
        assert WindowKeeps(u, s, x, y);
      }
    }
  }

  lemma LockKeepsLocks(u: Setup, s: State, t: nat, j: nat)
    requires SetupOk(u) && Sizes(u, s) && Locks(u, s) && CanLock(u, s, t, j)
    ensures Locks(u, DoLock(u, s, t, j))
  {
    hide KeyBucket, Owner;
    var s' := DoLock(u, s, t, j);
    if !u.mode.NoLock? {
      forall x | 0 <= x < |s'.pcs| ensures LockOk(u, s', x) {
        assert LockOk(u, s, x);
      }
    }
  }

  lemma LockKeeps(u: Setup, s: State, t: nat, j: nat)
    requires Inv(u, s) && CanLock(u, s, t, j)
    ensures Inv(u, DoLock(u, s, t, j))
  {
    hide KeyBucket, Owner;
    var s' := DoLock(u, s, t, j);
    assert PcOk(u, s.nodes, s.chain, t, s.pcs[t]);
    MoveKeepsPcs(u, s, t, Locked(j), s'.locks);
    LockKeepsLocks(u, s, t, j);
    MoveKeepsSafe(u, s, t, Locked(j), s'.locks);
  }

  lemma ReadHeadKeepsLocks(u: Setup, s: State, t: nat, j: nat)
    requires SetupOk(u) && Sizes(u, s) && Locks(u, s) && At(u, s, t, Locked(j))
    ensures Locks(u, DoReadHead(u, s, t, j))
  {
    hide KeyBucket, Owner;
    var s' := DoReadHead(u, s, t, j);
    if !u.mode.NoLock? {
      forall x | 0 <= x < |s'.pcs| ensures LockOk(u, s', x) {
        assert LockOk(u, s, x);
      }
    }
  }

  lemma ReadHeadKeeps(u: Setup, s: State, t: nat, j: nat)
    requires Inv(u, s) && At(u, s, t, Locked(j))
    ensures Inv(u, DoReadHead(u, s, t, j))
  {
    hide KeyBucket, Owner;
    var pc := HasHead(j, s.table[BucketOf(u, j)]);
    assert PcOk(u, s.nodes, s.chain, t, s.pcs[t]);
    MoveKeepsPcs(u, s, t, pc, s.locks);
    ReadHeadKeepsLocks(u, s, t, j);
    MoveKeepsSafe(u, s, t, pc, s.locks);
  }

  lemma UnlockKeepsLocks(u: Setup, s: State, t: nat, j: nat)
    requires SetupOk(u) && Sizes(u, s) && Locks(u, s) && At(u, s, t, Published(j))
    ensures Locks(u, DoUnlock(u, s, t, j))
  {
    hide KeyBucket, Owner;
    var s' := DoUnlock(u, s, t, j);
    if !u.mode.NoLock? {
      assert LockOk(u, s, t);
      forall x | 0 <= x < |s'.pcs| ensures LockOk(u, s', x) {
        assert LockOk(u, s, x);
      }
    }
  }

  lemma UnlockMoves(u: Setup, s: State, t: nat, j: nat, i: nat)
    requires SetupOk(u) && At(u, s, t, Published(j)) && Owner(u, j) == Owner(u, i) == t
    ensures IsOut(Loop(j + u.threads), i) <==> IsOut(s.pcs[t], i)
  {
    if i > j { StrideGap(u, j, i); }
  }

  lemma UnlockKeepsPcs(u: Setup, s: State, t: nat, j: nat)
    requires Inv(u, s) && At(u, s, t, Published(j))
    ensures var s' := DoUnlock(u, s, t, j);
            Sizes(u, s') && Entries(u, s') && Heads(u, s') && Pcs(u, s') && Progress(u, s') && Readers(u, s')
  {
    hide KeyBucket, Owner, IsOut;
    assert PcOk(u, s.nodes, s.chain, t, s.pcs[t]);
    OwnerOfNext(u, j);
    forall i: nat | i < |u.keys| && Owner(u, i) == t ensures IsOut(Loop(j + u.threads), i) <==> IsOut(s.pcs[t], i) {
      UnlockMoves(u, s, t, j, i);
    }
    MoveKeepsPcs(u, s, t, Loop(j + u.threads), DoUnlock(u, s, t, j).locks);
  }

  lemma UnlockKeepsSafe(u: Setup, s: State, t: nat, j: nat)
    requires SetupOk(u) && Sizes(u, s) && Safe(u, s) && At(u, s, t, Published(j))
    ensures Safe(u, DoUnlock(u, s, t, j))
  {
    hide KeyBucket, Owner, ChainOf;
    MoveKeepsSafe(u, s, t, Loop(j + u.threads), DoUnlock(u, s, t, j).locks);
  }

  lemma UnlockKeeps(u: Setup, s: State, t: nat, j: nat)
    requires Inv(u, s) && At(u, s, t, Published(j))
    ensures Inv(u, DoUnlock(u, s, t, j))
  {
    hide KeyBucket, Owner, IsOut, ChainOf, Safe, Locks, Pcs, Progress, Entries;
    UnlockKeepsPcs(u, s, t, j);
    UnlockKeepsLocks(u, s, t, j);
    UnlockKeepsSafe(u, s, t, j);
  }

  /* Steps that write an entry before it is published */

  // Thread "t" writes its own, unpublished entry "j" and stays in its window.
  ghost predicate OwnWrite(u: Setup, s: State, t: nat, node: Node, pc: Pc) {
    && Sizes(u, s) && t < |s.pcs| && InWindow(s.pcs[t]) && InWindow(pc)
    && s.pcs[t].j == pc.j < |u.keys|
    && WindowHead(s.nodes[pc.j := node], pc) == WindowHead(s.nodes, s.pcs[t])
  }

  ghost function AfterWrite(u: Setup, s: State, t: nat, node: Node, pc: Pc): State
    requires OwnWrite(u, s, t, node, pc)
  {
    s.(pcs := s.pcs[t := pc], nodes := s.nodes[pc.j := node])
  }

  // The entry is not published, and no other thread is at it.
  lemma OwnEntry(u: Setup, s: State, t: nat, node: Node, pc: Pc)
    requires SetupOk(u) && Sizes(u, s) && Pcs(u, s) && Progress(u, s) && OwnWrite(u, s, t, node, pc)
    ensures pc.j !in s.chain
    ensures forall x :: 0 <= x < |s.pcs| && x != t ==> s.pcs[x].j != pc.j
  {
    hide KeyBucket, Owner;
    assert PcOk(u, s.nodes, s.chain, t, s.pcs[t]);
    forall x | 0 <= x < |s.pcs| && x != t ensures s.pcs[x].j != pc.j {
      assert PcOk(u, s.nodes, s.chain, x, s.pcs[x]);
    }
  }

  lemma WriteKeepsEntries(u: Setup, s: State, t: nat, node: Node, pc: Pc)
    requires Inv(u, s) && OwnWrite(u, s, t, node, pc)
    ensures var s' := AfterWrite(u, s, t, node, pc); Entries(u, s') && Progress(u, s')
  {
    hide KeyBucket, Owner, ChainOf;
    OwnEntry(u, s, t, node, pc);
    var s' := AfterWrite(u, s, t, node, pc);
    forall i | i in s'.chain ensures EntryOk(u, s'.nodes, s'.chain, i) {
      assert EntryOk(u, s.nodes, s.chain, i);
    }
  }

  lemma WriteKeepsPcs(u: Setup, s: State, t: nat, node: Node, pc: Pc)
    requires Inv(u, s) && OwnWrite(u, s, t, node, pc) && PcOk(u, s.nodes[pc.j := node], s.chain, t, pc)
    ensures Pcs(u, AfterWrite(u, s, t, node, pc))
  {
    hide KeyBucket, Owner;
    OwnEntry(u, s, t, node, pc);
    var s' := AfterWrite(u, s, t, node, pc);
    forall x | 0 <= x < |s'.pcs| ensures PcOk(u, s'.nodes, s'.chain, x, s'.pcs[x]) {
      assert PcOk(u, s.nodes, s.chain, x, s.pcs[x]);
    }
  }

  lemma WriteKeepsWindows(u: Setup, s: State, t: nat, node: Node, pc: Pc)
    requires Inv(u, s) && OwnWrite(u, s, t, node, pc)
    ensures var s' := AfterWrite(u, s, t, node, pc); Locks(u, s') && Safe(u, s')
  {
    hide KeyBucket, Owner, ChainOf;
    OwnEntry(u, s, t, node, pc);
    var s' := AfterWrite(u, s, t, node, pc);
    forall x | x in s'.safe ensures SafeOk(u, s', x) {
      assert SafeOk(u, s, x);
      forall y | 0 <= y < |s'.pcs| ensures WindowKeeps(u, s', x, y) {
        assert WindowKeeps(u, s, x, y);
      }
    }
    if !u.mode.NoLock? {
      forall x | 0 <= x < |s'.pcs| ensures LockOk(u, s', x) {
        assert LockOk(u, s, x);
      }
    }
  }

  lemma WriteKeeps(u: Setup, s: State, t: nat, node: Node, pc: Pc)
    requires Inv(u, s) && OwnWrite(u, s, t, node, pc) && PcOk(u, s.nodes[pc.j := node], s.chain, t, pc)
    ensures Inv(u, AfterWrite(u, s, t, node, pc))
  {
    hide KeyBucket, Owner, ChainOf;
    WriteKeepsEntries(u, s, t, node, pc);
    WriteKeepsPcs(u, s, t, node, pc);
    WriteKeepsWindows(u, s, t, node, pc);
  }

  lemma WriteNextKeeps(u: Setup, s: State, t: nat, j: nat, head: Option<nat>)
    requires Inv(u, s) && At(u, s, t, HasHead(j, head))
    ensures Inv(u, DoWriteNext(u, s, t, j, head))
  {
    hide KeyBucket, Owner, ChainOf;
    assert PcOk(u, s.nodes, s.chain, t, s.pcs[t]);
    WriteKeeps(u, s, t, s.nodes[j].(next := head), HasNext(j));
  }

  lemma WriteKeyKeeps(u: Setup, s: State, t: nat, j: nat)
    requires Inv(u, s) && At(u, s, t, HasNext(j))
    ensures Inv(u, DoWriteKey(u, s, t, j))
  {
    hide KeyBucket, Owner, ChainOf;
    assert PcOk(u, s.nodes, s.chain, t, s.pcs[t]);
    WriteKeeps(u, s, t, s.nodes[j].(key := u.keys[j]), HasKey(j));
  }

  lemma WriteValKeeps(u: Setup, s: State, t: nat, j: nat)
    requires Inv(u, s) && At(u, s, t, HasKey(j))
    ensures Inv(u, DoWriteVal(u, s, t, j))
  {
    hide KeyBucket, Owner, ChainOf;
    assert PcOk(u, s.nodes, s.chain, t, s.pcs[t]);
    WriteKeeps(u, s, t, s.nodes[j].(val := t), Filled(j));
  }

  /* Publishing */

  // What a thread is about to publish.
  lemma FilledEntry(u: Setup, s: State, t: nat, j: nat)
    requires Inv(u, s) && At(u, s, t, Filled(j))
    ensures j !in s.chain
    ensures HeadOk(u, s.chain, s.nodes[j].next, BucketOf(u, j))
    ensures forall x :: x in ChainOf(s.chain, s.nodes[j].next) ==> x in s.chain
  {
    hide KeyBucket, Owner;
    assert PcOk(u, s.nodes, s.chain, t, s.pcs[t]);
    assert !IsOut(s.pcs[t], j);
    if s.nodes[j].next.Some? {
      assert EntryOk(u, s.nodes, s.chain, s.nodes[j].next.value);
    }
  }

  // Old chains stay as they are, and the new entry's leads through the one it links to.
  lemma PublishChains(u: Setup, s: State, t: nat, j: nat)
    requires Inv(u, s) && At(u, s, t, Filled(j))
    ensures j !in s.chain
    ensures HeadOk(u, s.chain, s.nodes[j].next, BucketOf(u, j))
    ensures forall x :: x in ChainOf(s.chain, s.nodes[j].next) ==> x in s.chain
    ensures forall h: Option<nat> :: (h.Some? ==> h.value in s.chain) ==> ChainOf(DoPublish(u, s, t, j).chain, h) == ChainOf(s.chain, h)
    ensures ChainOf(DoPublish(u, s, t, j).chain, Some(j)) == [j] + ChainOf(s.chain, s.nodes[j].next)
  {
    hide KeyBucket, Owner, Inv;
    FilledEntry(u, s, t, j);
  }

  lemma PublishKeepsEntries(u: Setup, s: State, t: nat, j: nat)
    requires Inv(u, s) && At(u, s, t, Filled(j))
    ensures var s' := DoPublish(u, s, t, j); Entries(u, s') && Heads(u, s')
  {
    hide KeyBucket, Owner, ChainOf;
    var s' := DoPublish(u, s, t, j);
    PublishChains(u, s, t, j);
    assert PcOk(u, s.nodes, s.chain, t, s.pcs[t]);
    forall i | i in s'.chain ensures EntryOk(u, s'.nodes, s'.chain, i) {
      assert i != j ==> EntryOk(u, s.nodes, s.chain, i);
    }
  }

  lemma PublishKeepsPcs(u: Setup, s: State, t: nat, j: nat)
    requires Inv(u, s) && At(u, s, t, Filled(j))
    ensures var s' := DoPublish(u, s, t, j); Pcs(u, s') && Progress(u, s')
  {
    hide KeyBucket, Owner, ChainOf;
    var s' := DoPublish(u, s, t, j);
    assert PcOk(u, s.nodes, s.chain, t, s.pcs[t]);
    forall x | 0 <= x < |s'.pcs| ensures PcOk(u, s'.nodes, s'.chain, x, s'.pcs[x]) {
      assert PcOk(u, s.nodes, s.chain, x, s.pcs[x]);
    }
  }

  lemma PublishKeepsReaders(u: Setup, s: State, t: nat, j: nat)
    requires Inv(u, s) && At(u, s, t, Filled(j))
    ensures Readers(u, DoPublish(u, s, t, j))
  {
    hide KeyBucket, Owner, ChainOf;
    var s' := DoPublish(u, s, t, j);
    PublishChains(u, s, t, j);
    forall r | 0 <= r < |s'.readers| ensures ReaderOk(u, s'.chain, s'.readers[r]) {
      assert ReaderOk(u, s.chain, s.readers[r]);
    }
  }

  // With locks, the bucket's other windows are empty, so their heads do not go stale.
  lemma PublishKeepsLocks(u: Setup, s: State, t: nat, j: nat)
    requires Inv(u, s) && At(u, s, t, Filled(j))
    ensures Locks(u, DoPublish(u, s, t, j))
    ensures !u.mode.NoLock? || u.threads == 1 ==> Alone(u, s, t, BucketOf(u, j))
  {
    hide KeyBucket, Owner, ChainOf;
    var s' := DoPublish(u, s, t, j);
    if !u.mode.NoLock? {
      assert LockOk(u, s, t);
      forall x | 0 <= x < |s'.pcs| ensures LockOk(u, s', x) {
        assert LockOk(u, s, x);
      }
      forall x | 0 <= x < |s.pcs| && x != t && InWindow(s.pcs[x]) && s.pcs[x].j < |u.keys|
        ensures BucketOf(u, s.pcs[x].j) != BucketOf(u, j)
      {
        assert LockOk(u, s, x);
      }
    }
  }

  lemma PublishKeepsSafe(u: Setup, s: State, t: nat, j: nat)
    requires Inv(u, s) && At(u, s, t, Filled(j))
    ensures Safe(u, DoPublish(u, s, t, j))
  {
    hide KeyBucket, Owner, ChainOf;
    var s' := DoPublish(u, s, t, j);
    PublishChains(u, s, t, j);
    PublishKeepsLocks(u, s, t, j);
    forall x | x in s'.safe ensures SafeOk(u, s', x) {
      if x in s.safe {
        OldSafe(u, s, t, j, x);
      } else {
        NewSafe(u, s, t, j);
      }
    }
  }

  // A window's head keeps its chain when another entry is published.
  lemma WindowHeadsStay(u: Setup, s: State, t: nat, j: nat, y: nat)
    requires Inv(u, s) && At(u, s, t, Filled(j)) && y < |s.pcs| && y != t && InWindow(s.pcs[y])
    ensures s.pcs[y].j < |u.keys|
    ensures ChainOf(DoPublish(u, s, t, j).chain, WindowHead(s.nodes, s.pcs[y])) == ChainOf(s.chain, WindowHead(s.nodes, s.pcs[y]))
  {
    hide KeyBucket, Owner, ChainOf;
    assert PcOk(u, s.nodes, s.chain, y, s.pcs[y]);
    PublishChains(u, s, t, j);
  }

  lemma OldSafeWindow(u: Setup, s: State, t: nat, j: nat, x: nat, y: nat)
    requires Inv(u, s) && At(u, s, t, Filled(j)) && x < |u.keys| && y < |s.pcs| && WindowKeeps(u, s, x, y)
    ensures WindowKeeps(u, DoPublish(u, s, t, j), x, y)
  {
    hide KeyBucket, Owner, ChainOf, Inv, BucketOf, Alone;
    if y != t && InWindow(s.pcs[y]) {
      WindowHeadsStay(u, s, t, j, y);
    }
  }

  lemma SafeIsReachable(u: Setup, s: State, x: nat)
    requires Inv(u, s) && x in s.safe
    ensures SafeOk(u, s, x) && HeadOk(u, s.chain, s.table[BucketOf(u, x)], BucketOf(u, x))
  {
    hide KeyBucket, Owner, ChainOf;
    assert SafeOk(u, s, x);
  }

  lemma OldSafeInTable(u: Setup, s: State, t: nat, j: nat, x: nat)
    requires Inv(u, s) && At(u, s, t, Filled(j)) && x in s.safe
    ensures var s' := DoPublish(u, s, t, j);
            x in s'.chain && x < |u.keys| && x in ChainOf(s'.chain, s'.table[BucketOf(u, x)])
  {
    hide KeyBucket, Owner, ChainOf, Inv, Alone, BucketOf;
    PublishChains(u, s, t, j);
    SafeIsReachable(u, s, x);
    assert WindowKeeps(u, s, x, t);
  }

  lemma OldSafe(u: Setup, s: State, t: nat, j: nat, x: nat)
    requires Inv(u, s) && At(u, s, t, Filled(j)) && x in s.safe
    ensures SafeOk(u, DoPublish(u, s, t, j), x)
  {
    hide KeyBucket, Owner, ChainOf, Inv, Alone, BucketOf, WindowKeeps, HeadOk, DoPublish;
    OldSafeInTable(u, s, t, j, x);
    SafeIsReachable(u, s, x);
    forall y | 0 <= y < |s.pcs| ensures WindowKeeps(u, DoPublish(u, s, t, j), x, y) {
      assert WindowKeeps(u, s, x, y);
      OldSafeWindow(u, s, t, j, x, y);
    }
  }

  lemma NewSafe(u: Setup, s: State, t: nat, j: nat)
    requires Inv(u, s) && At(u, s, t, Filled(j)) && Alone(u, s, t, BucketOf(u, j))
    ensures SafeOk(u, DoPublish(u, s, t, j), j)
  {
    hide KeyBucket, Owner, ChainOf;
    PublishChains(u, s, t, j);
  }

  lemma PublishKeeps(u: Setup, s: State, t: nat, j: nat)
    requires Inv(u, s) && At(u, s, t, Filled(j))
    ensures Inv(u, DoPublish(u, s, t, j))
  {
    hide KeyBucket, Owner, ChainOf;
    PublishKeepsEntries(u, s, t, j);
    PublishKeepsPcs(u, s, t, j);
    PublishKeepsReaders(u, s, t, j);
    PublishKeepsLocks(u, s, t, j);
    PublishKeepsSafe(u, s, t, j);
  }

  /* Readers */

  lemma ReaderMoves(u: Setup, s: State, r: nat, w: Reader)
    requires Inv(u, s) && r < |s.readers| && ReaderOk(u, s.chain, w)
    ensures Inv(u, s.(readers := s.readers[r := w]))
  {
    hide KeyBucket, Owner, ChainOf;
    var s' := s.(readers := s.readers[r := w]);
    if !u.mode.NoLock? {
      forall x | 0 <= x < |s'.pcs| ensures LockOk(u, s', x) {
        assert LockOk(u, s, x);
      }
    }
    forall x | x in s'.safe ensures SafeOk(u, s', x) {
      assert SafeOk(u, s, x);
      forall y | 0 <= y < |s'.pcs| ensures WindowKeeps(u, s', x, y) {
        assert WindowKeeps(u, s, x, y);
      }
    }
  }

  lemma BeginKeeps(u: Setup, s: State, r: nat, key: int)
    requires Inv(u, s) && CanBegin(u, s, r, key)
    ensures Inv(u, DoBegin(u, s, r, key))
  {
    hide KeyBucket, Owner, ChainOf;
    ReaderMoves(u, s, r, Walking(key, s.table[KeyBucket(key)], false));
  }

  lemma WalkIsOk(u: Setup, s: State, r: nat)
    requires Inv(u, s) && CanWalk(u, s, r)
    ensures ReaderOk(u, s.chain, DoWalk(u, s, r).readers[r])
  {
    hide KeyBucket, Owner, ChainOf, Heads, Pcs, Progress, Locks, Safe;
    var w := s.readers[r];
    assert ReaderOk(u, s.chain, w);
    if w.at.Some? {
      assert EntryOk(u, s.nodes, s.chain, w.at.value);
    }
  }

  lemma WalkKeeps(u: Setup, s: State, r: nat)
    requires Inv(u, s) && CanWalk(u, s, r)
    ensures Inv(u, DoWalk(u, s, r))
  {
    hide KeyBucket, Owner, ChainOf;
    WalkIsOk(u, s, r);
    ReaderMoves(u, s, r, DoWalk(u, s, r).readers[r]);
  }

  /* Every step, every run */

  lemma StepKeepsInv(u: Setup, s: State, act: Action, s': State)
    requires Inv(u, s) && Step(u, s, act, s')
    ensures Inv(u, s')
  {
    hide KeyBucket, Owner, ChainOf;
    match act
    case Lock(t, j) => LockKeeps(u, s, t, j);
    case ReadHead(t, j) => ReadHeadKeeps(u, s, t, j);
    case WriteNext(t, j, head) => WriteNextKeeps(u, s, t, j, head);
    case WriteKey(t, j) => WriteKeyKeeps(u, s, t, j);
    case WriteVal(t, j) => WriteValKeeps(u, s, t, j);
    case Publish(t, j) => PublishKeeps(u, s, t, j);
    case Unlock(t, j) => UnlockKeeps(u, s, t, j);
    case Begin(r, key) => BeginKeeps(u, s, r, key);
    case Walk(r) => WalkKeeps(u, s, r);
  }

  lemma {:induction false} RunKeepsInv(u: Setup, states: seq<State>, acts: seq<Action>, n: nat)
    requires Run(u, states, acts) && n < |states|
    ensures Inv(u, states[n])
  {
    if n == 0 {
      InitInv(u, states[0]);
    } else {
      RunKeepsInv(u, states, acts, n - 1);
      StepKeepsInv(u, states[n - 1], acts[n - 1], states[n]);
    }
  }
}

// What the invariant means for runs of the three hash-table programs.
module HashTheorems {
  import opened Util
  import opened AtomicTable
  import opened HashMachine
  import opened HashInv
  import HashCode

  // The pointers in memory lead from "h" through "c" to null.
  ghost predicate IsChain(nodes: seq<Node>, h: Option<nat>, c: seq<nat>)
    decreases |c|
  {
    if c == [] then h == None
    else h == Some(c[0]) && c[0] < |nodes| && IsChain(nodes, nodes[c[0]].next, c[1..])
  }

  ghost predicate Distinct(c: seq<nat>) {
    forall i, j :: 0 <= i < j < |c| ==> c[i] != c[j]
  }

  // Memory holds at "j" the entry of the j-th key.
  ghost predicate HoldsKey(u: Setup, nodes: seq<Node>, j: nat)
    requires 0 < u.threads
  {
    j < |nodes| == |u.keys| && nodes[j].key == u.keys[j] && nodes[j].val == Owner(u, j)
  }

  // A published entry that hashes to "b" and holds what its thread put in.
  ghost predicate Genuine(u: Setup, s: State, b: nat, j: nat)
    requires 0 < u.threads
  {
    j in s.chain && HoldsKey(u, s.nodes, j) && BucketOf(u, j) == b
  }

  lemma FirstOfChain(u: Setup, s: State, j: nat, b: nat)
    requires Inv(u, s) && HeadOk(u, s.chain, Some(j), b)
    ensures j < |s.nodes| && Genuine(u, s, b, j)
    ensures var next := s.nodes[j].next;
            HeadOk(u, s.chain, next, b) && ChainOf(s.chain, Some(j)) == [j] + ChainOf(s.chain, next) && j !in ChainOf(s.chain, next)
  {
    hide KeyBucket, Owner, Locks, Safe, Readers, Pcs, Progress;
    assert EntryOk(u, s.nodes, s.chain, j);
  }

  lemma ConsChain(nodes: seq<Node>, j: nat, c: seq<nat>)
    requires j < |nodes| && IsChain(nodes, nodes[j].next, c) && Distinct(c) && j !in c
    ensures IsChain(nodes, Some(j), [j] + c) && Distinct([j] + c)
  {
    assert ([j] + c)[1..] == c;
  }

  lemma {:induction false} ChainIsReal(u: Setup, s: State, h: Option<nat>, b: nat)
    requires Inv(u, s) && HeadOk(u, s.chain, h, b)
    ensures var c := ChainOf(s.chain, h);
            && IsChain(s.nodes, h, c) && Distinct(c)
            && forall x :: x in c ==> Genuine(u, s, b, x)
    decreases |ChainOf(s.chain, h)|
  {
    hide Inv, HeadOk, Genuine, KeyBucket;
    if h.Some? {
      FirstOfChain(u, s, h.value, b);
      var next := s.nodes[h.value].next;
      ChainIsReal(u, s, next, b);
      ConsChain(s.nodes, h.value, ChainOf(s.chain, next));
    }
  }

  // In every interleaving, with or without locks, each bucket's pointers form a finite list without
  // repetition, of published entries that hash to it and hold what their thread put in.
  lemma ChainsAreSound(u: Setup, states: seq<State>, acts: seq<Action>, n: nat, b: nat) returns (c: seq<nat>)
    requires Run(u, states, acts) && n < |states| && b < NUM_BUCKETS
    ensures |states[n].table| == NUM_BUCKETS && IsChain(states[n].nodes, states[n].table[b], c) && Distinct(c)
    ensures forall x :: x in c ==> Genuine(u, states[n], b, x)
  {
    hide KeyBucket, Owner;
    RunKeepsInv(u, states, acts, n);
    c := ChainOf(states[n].chain, states[n].table[b]);
    ChainIsReal(u, states[n], states[n].table[b], b);
  }

  /* No lost keys */

  ghost predicate Reachable(u: Setup, s: State, j: nat) {
    && j < |u.keys| && |s.table| == NUM_BUCKETS
    && exists c :: IsChain(s.nodes, s.table[BucketOf(u, j)], c) && j in c
  }

  lemma SafeIsInTable(u: Setup, s: State, j: nat)
    requires Inv(u, s) && j in s.safe
    ensures Reachable(u, s, j)
  {
    hide KeyBucket, Owner;
    SafeIsReachable(u, s, j);
    ChainIsReal(u, s, s.table[BucketOf(u, j)], BucketOf(u, j));
  }

  lemma AllAreOut(u: Setup, s: State, j: nat)
    requires Inv(u, s) && AllJoined(u, s) && j < |u.keys|
    ensures j in s.chain
  {
    hide KeyBucket, Entries, Locks, Safe, Readers, Heads;
    assert IsOut(s.pcs[Owner(u, j)], j);
  }

  lemma InNumbers(u: Setup, j: nat)
    requires 0 < u.threads && j < |u.keys|
    ensures BucketOf(u, j) == u.keys[j] % 5 && Owner(u, j) == j % u.threads
  {
  }

  // With per-bucket locks, with the global lock, or with one thread: after the barrier every bucket
  // is a list of exactly the keys that hash to it, each once, and no key is lost.
  lemma NoKeyIsLost(u: Setup, states: seq<State>, acts: seq<Action>, n: nat, b: nat) returns (c: seq<nat>)
    requires Run(u, states, acts) && n < |states| && b < NUM_BUCKETS
    requires AllJoined(u, states[n]) && (!u.mode.NoLock? || u.threads == 1)
    ensures |states[n].table| == NUM_BUCKETS && IsChain(states[n].nodes, states[n].table[b], c) && Distinct(c)
    ensures forall j: nat :: j in c <==> j < |u.keys| && u.keys[j] % 5 == b
    ensures forall j :: j in c ==>
              j < |states[n].nodes| && states[n].nodes[j].key == u.keys[j] && states[n].nodes[j].val == j % u.threads
  {
    hide KeyBucket, Owner;
    forall j: nat | j < |u.keys| ensures BucketOf(u, j) == u.keys[j] % 5 && Owner(u, j) == j % u.threads {
      InNumbers(u, j);
    }
    var s := states[n];
    RunKeepsInv(u, states, acts, n);
    c := ChainOf(s.chain, s.table[b]);
    ChainIsReal(u, s, s.table[b], b);
    forall j: nat | j < |u.keys| && BucketOf(u, j) == b ensures j in c {
      AllAreOut(u, s, j);
      SafeIsReachable(u, s, j);
    }
  }

  /* Without locks */

  lemma SafeGrows(u: Setup, s: State, act: Action, s': State)
    requires Step(u, s, act, s')
    ensures s.safe <= s'.safe
  {
    hide KeyBucket, Owner, ChainOf, Alone;
  }

  lemma {:induction false} SafeForEver(u: Setup, states: seq<State>, acts: seq<Action>, i: nat, n: nat)
    requires Run(u, states, acts) && i <= n < |states|
    ensures states[i].safe <= states[n].safe
  {
    hide KeyBucket, Owner, Step;
    if i < n {
      SafeForEver(u, states, acts, i, n - 1);
      SafeGrows(u, states[n - 1], acts[n - 1], states[n]);
    }
  }

  // Even without locks, an entry published while no other insert on its bucket is between reading
  // the head and publishing stays reachable for ever.
  lemma UndisturbedInsertIsKept(u: Setup, states: seq<State>, acts: seq<Action>, i: nat, n: nat)
    requires Run(u, states, acts) && i < n < |states| && acts[i].Publish?
    requires Sizes(u, states[i]) && acts[i].j < |u.keys| && Alone(u, states[i], acts[i].t, BucketOf(u, acts[i].j))
    ensures Reachable(u, states[n], acts[i].j)
  {
    hide KeyBucket, Owner;
    assert Step(u, states[i], acts[i], states[i + 1]);
    SafeForEver(u, states, acts, i + 1, n);
    RunKeepsInv(u, states, acts, n);
    SafeIsInTable(u, states[n], acts[i].j);
  }

  /* A run without locks that loses a key */

  const RACE: Setup := Setup(NoLock, [0, 5], 2)

  function Race(n0: Node, n1: Node, head: Option<nat>, p0: Pc, p1: Pc, chain: map<nat, seq<nat>>, safe: set<nat>): State {
    State([n0, n1], [head, None, None, None, None], [None, None, None, None, None], [p0, p1], [], chain, safe)
  }

  const BLANK: Node := Node(0, 1, None)
  const FIRST: Node := Node(0, 0, None)
  const SECOND: Node := Node(5, 1, None)

  function RaceStates(): seq<State> {
    [ Race(BLANK, BLANK, None, Loop(0), Loop(1), map[], {}),
      Race(BLANK, BLANK, None, Locked(0), Loop(1), map[], {}),
      Race(BLANK, BLANK, None, Locked(0), Locked(1), map[], {}),
      Race(BLANK, BLANK, None, HasHead(0, None), Locked(1), map[], {}),
      Race(BLANK, BLANK, None, HasHead(0, None), HasHead(1, None), map[], {}),
      Race(BLANK, BLANK, None, HasNext(0), HasHead(1, None), map[], {}),
      Race(BLANK, BLANK, None, HasNext(0), HasNext(1), map[], {}),
      Race(BLANK, BLANK, None, HasKey(0), HasNext(1), map[], {}),
      Race(BLANK, SECOND, None, HasKey(0), HasKey(1), map[], {}),
      Race(FIRST, SECOND, None, Filled(0), HasKey(1), map[], {}),
      Race(FIRST, SECOND, None, Filled(0), Filled(1), map[], {}),
      Race(FIRST, SECOND, Some(0), Published(0), Filled(1), map[0 := [0]], {}),
      Race(FIRST, SECOND, Some(1), Published(0), Published(1), map[0 := [0], 1 := [1]], {1}),
      Race(FIRST, SECOND, Some(1), Loop(2), Published(1), map[0 := [0], 1 := [1]], {1}),
      Race(FIRST, SECOND, Some(1), Loop(2), Loop(3), map[0 := [0], 1 := [1]], {1}) ]
  }

  function RaceActions(): seq<Action> {
    [ Lock(0, 0), Lock(1, 1), ReadHead(0, 0), ReadHead(1, 1), WriteNext(0, 0, None), WriteNext(1, 1, None),
      WriteKey(0, 0), WriteKey(1, 1), WriteVal(0, 0), WriteVal(1, 1), Publish(0, 0), Publish(1, 1), Unlock(0, 0), Unlock(1, 1) ]
  }

  lemma RaceReads(i: nat)
    requires i < 4
    ensures Step(RACE, RaceStates()[i], RaceActions()[i], RaceStates()[i + 1])
  {
  }

  lemma RaceLinks(i: nat)
    requires 4 <= i < 7
    ensures Step(RACE, RaceStates()[i], RaceActions()[i], RaceStates()[i + 1])
  {
  }

  lemma RaceFills(i: nat)
    requires 7 <= i < 10
    ensures Step(RACE, RaceStates()[i], RaceActions()[i], RaceStates()[i + 1])
  {
  }

  lemma RacePublishes()
    ensures Step(RACE, RaceStates()[10], Publish(0, 0), RaceStates()[11])
    ensures Step(RACE, RaceStates()[11], Publish(1, 1), RaceStates()[12])
  {
    assert InWindow(RaceStates()[10].pcs[1]) && BucketOf(RACE, 1) == 0;
    assert !Alone(RACE, RaceStates()[10], 0, 0);
    assert Alone(RACE, RaceStates()[11], 1, 0);
    assert forall j: nat, chain: map<nat, seq<nat>> :: [j] + ChainOf(chain, None) == [j];
    assert {} + {1} == {1};
  }

  lemma RaceEnds()
    ensures Step(RACE, RaceStates()[12], Unlock(0, 0), RaceStates()[13])
    ensures Step(RACE, RaceStates()[13], Unlock(1, 1), RaceStates()[14])
  {
  }

  lemma RaceLosesFirst(c: seq<nat>)
    requires IsChain([FIRST, SECOND], Some(1), c)
    ensures 0 !in c
  {
    assert IsChain([FIRST, SECOND], None, c[1..]);
  }

  // Two threads that read the head of a bucket before either has published: one key is lost.
  lemma DisturbedInsertIsLost()
    ensures Run(RACE, RaceStates(), RaceActions())
    ensures var s := RaceStates()[14]; AllJoined(RACE, s) && 0 in s.chain && !Reachable(RACE, s, 0)
  {
    hide Step, IsChain;
    forall i | 0 <= i < 14 ensures Step(RACE, RaceStates()[i], RaceActions()[i], RaceStates()[i + 1]) {
      RacePublishes();
      RaceEnds();
      if i < 4 {
        RaceReads(i);
      } else if i < 7 {
        RaceLinks(i);
      } else if i < 10 {
        RaceFills(i);
      }
    }
    forall c | IsChain([FIRST, SECOND], Some(1), c) ensures 0 !in c {
      RaceLosesFirst(c);
    }
  }

  /* Refinement of the atomic table */

  function EntriesOf(nodes: seq<Node>, c: seq<nat>): seq<Entry> {
    seq(|c|, i requires 0 <= i < |c| => if c[i] < |nodes| then Entry(nodes[c[i]].key, nodes[c[i]].val) else Entry(0, 0))
  }

  // The contents of memory as an atomic table.
  ghost function Abs(u: Setup, s: State): Contents
    requires Sizes(u, s)
  {
    seq(NUM_BUCKETS, b requires 0 <= b < NUM_BUCKETS => EntriesOf(s.nodes, ChainOf(s.chain, s.table[b])))
  }

  // A step that publishes nothing leaves the contents of published entries alone.
  lemma OthersStutter(u: Setup, s: State, act: Action, s': State)
    requires Inv(u, s) && Step(u, s, act, s') && !act.Publish?
    ensures Sizes(u, s') && Abs(u, s') == Abs(u, s)
  {
    hide KeyBucket, Owner, ChainOf, EntriesOf, HeadOk;
    forall b | 0 <= b < NUM_BUCKETS ensures Abs(u, s')[b] == Abs(u, s)[b] {
      assert HeadOk(u, s.chain, s.table[b], b);
      ListStays(u, s, act, s', s.table[b], b);
    }
  }

  // No step changes the list that a published entry leads.
  lemma ListStays(u: Setup, s: State, act: Action, s': State, h: Option<nat>, b: nat)
    requires Inv(u, s) && Step(u, s, act, s') && HeadOk(u, s.chain, h, b)
    ensures ChainOf(s'.chain, h) == ChainOf(s.chain, h)
    ensures EntriesOf(s'.nodes, ChainOf(s'.chain, h)) == EntriesOf(s.nodes, ChainOf(s.chain, h))
  {
    hide KeyBucket, Step, ChainOf, Genuine, IsChain, Distinct, Entries, Heads, Pcs, Progress, Locks, Safe, Readers;
    ChainStays(u, s, act, s', h, b);
    var c := ChainOf(s.chain, h);
    ChainIsReal(u, s, h, b);
    forall i | 0 <= i < |c| ensures EntriesOf(s'.nodes, c)[i] == EntriesOf(s.nodes, c)[i] {
      assert Genuine(u, s, b, c[i]);
      PublishedNodesStay(u, s, act, s', b, c[i]);
    }
  }

  lemma ChainStays(u: Setup, s: State, act: Action, s': State, h: Option<nat>, b: nat)
    requires Inv(u, s) && Step(u, s, act, s') && HeadOk(u, s.chain, h, b)
    ensures ChainOf(s'.chain, h) == ChainOf(s.chain, h)
  {
    hide KeyBucket, Inv, ChainOf, Alone;
    if act.Publish? {
      PublishChains(u, s, act.t, act.j);
    }
  }

  lemma PublishedNodesStay(u: Setup, s: State, act: Action, s': State, b: nat, x: nat)
    requires Inv(u, s) && Step(u, s, act, s') && Genuine(u, s, b, x)
    ensures x < |s.nodes| && |s'.nodes| == |s.nodes| && s'.nodes[x] == s.nodes[x]
  {
    hide KeyBucket, Owner, ChainOf, Inv, Alone;
    if act.WriteNext? || act.WriteKey? || act.WriteVal? {
      UnpublishedWhileWriting(u, s, act.t);
    }
  }

  lemma UnpublishedWhileWriting(u: Setup, s: State, t: nat)
    requires Inv(u, s) && t < |s.pcs| && InWindow(s.pcs[t])
    ensures s.pcs[t].j !in s.chain
  {
    hide KeyBucket, Owner, ChainOf, Locks, Safe, Readers, Entries, Heads;
    assert PcOk(u, s.nodes, s.chain, t, s.pcs[t]);
    assert !IsOut(s.pcs[t], s.pcs[t].j);
  }

  // With locks, publishing is the atomic insert.
  lemma PublishIsAtomicInsert(u: Setup, s: State, t: nat, j: nat)
    requires Inv(u, s) && At(u, s, t, Filled(j)) && !u.mode.NoLock?
    ensures Abs(u, DoPublish(u, s, t, j)) == Prepend(Abs(u, s), Entry(u.keys[j], t))
  {
    hide KeyBucket, Owner, ChainOf;
    var s' := DoPublish(u, s, t, j);
    PublishChains(u, s, t, j);
    assert LockOk(u, s, t);
    assert PcOk(u, s.nodes, s.chain, t, s.pcs[t]);
    forall b | 0 <= b < NUM_BUCKETS ensures Abs(u, s')[b] == Prepend(Abs(u, s), Entry(u.keys[j], t))[b] {
      assert HeadOk(u, s.chain, s.table[b], b);
    }
  }

  // The inserts in the order in which they were published.
  function LogOf(u: Setup, acts: seq<Action>): seq<Entry> {
    if acts == [] then []
    else
      var a := acts[|acts| - 1];
      LogOf(u, acts[..|acts| - 1]) + if a.Publish? && a.j < |u.keys| then [Entry(u.keys[a.j], a.t)] else []
  }

  lemma LogGrows(u: Setup, acts: seq<Action>, n: nat)
    requires 0 < n <= |acts|
    ensures var a := acts[n - 1];
            LogOf(u, acts[..n]) == if a.Publish? && a.j < |u.keys| then LogOf(u, acts[..n - 1]) + [Entry(u.keys[a.j], a.t)]
                                   else LogOf(u, acts[..n - 1])
  {
    assert acts[..n][..n - 1] == acts[..n - 1];
  }

  lemma ReplayGrows(log: seq<Entry>, e: Entry)
    ensures Replay(log + [e]) == Prepend(Replay(log), e)
  {
    assert (log + [e])[..|log|] == log;
  }

  // Both locked programs refine the atomic table: at every moment memory is what the inserts so far,
  // in lock order, make of an empty table.
  lemma {:induction false} LockedTableIsAtomic(u: Setup, states: seq<State>, acts: seq<Action>, n: nat)
    requires Run(u, states, acts) && n < |states| && !u.mode.NoLock?
    ensures Sizes(u, states[n]) && Abs(u, states[n]) == Replay(LogOf(u, acts[..n]))
  {
    hide Inv, Abs, Replay, Prepend, LogOf, Step, Init;
    if n == 0 {
      EmptyLog(u, states[0], acts);
    } else {
      var a := acts[n - 1];
      LockedTableIsAtomic(u, states, acts, n - 1);
      RunKeepsInv(u, states, acts, n - 1);
      LockedStep(u, states[n - 1], a, states[n]);
      LogGrows(u, acts, n);
      if a.Publish? && a.j < |u.keys| {
        ReplayGrows(LogOf(u, acts[..n - 1]), Entry(u.keys[a.j], a.t));
      }
    }
  }

  lemma EmptyLog(u: Setup, s: State, acts: seq<Action>)
    requires Init(u, s)
    ensures Sizes(u, s) && Abs(u, s) == Replay(LogOf(u, acts[..0]))
  {
    EmptyAtFirst(u, s);
  }

  lemma EmptyAtFirst(u: Setup, s: State)
    requires Init(u, s)
    ensures Abs(u, s) == EMPTY
  {
    forall b | 0 <= b < NUM_BUCKETS ensures Abs(u, s)[b] == [] {
    }
  }

  lemma LockedStep(u: Setup, s: State, a: Action, s': State)
    requires Inv(u, s) && Step(u, s, a, s') && !u.mode.NoLock?
    ensures Sizes(u, s')
    ensures Abs(u, s') == if a.Publish? && a.j < |u.keys| then Prepend(Abs(u, s), Entry(u.keys[a.j], a.t)) else Abs(u, s)
  {
    hide KeyBucket, Owner, ChainOf, Inv;
    if a.Publish? {
      PublishIsAtomicInsert(u, s, a.t, a.j);
    } else {
      OthersStutter(u, s, a, s');
    }
  }

  // So a lookup in memory finds the value of the latest insert of the key, in lock order.
  lemma LockedLookupIsLatest(u: Setup, states: seq<State>, acts: seq<Action>, n: nat, key: int)
    requires Run(u, states, acts) && n < |states| && !u.mode.NoLock?
    ensures Sizes(u, states[n]) && Lookup(Abs(u, states[n]), key) == Latest(LogOf(u, acts[..n]), key)
  {
    hide KeyBucket, Owner, ChainOf, Step, Init, Abs, Lookup, Latest;
    LockedTableIsAtomic(u, states, acts, n);
    LookupFindsLatest(LogOf(u, acts[..n]), key);
  }

  lemma FoundInList(nodes: seq<Node>, c: seq<nat>, j: nat)
    requires j in c && j < |nodes|
    ensures Find(EntriesOf(nodes, c), nodes[j].key).Some?
  {
    var i :| 0 <= i < |c| && c[i] == j;
    assert EntriesOf(nodes, c)[i].key == nodes[j].key;
    FindIff(EntriesOf(nodes, c), nodes[j].key);
  }

  lemma PublishedHoldsKey(u: Setup, s: State, j: nat)
    requires Inv(u, s) && j in s.chain
    ensures j < |u.keys| && HoldsKey(u, s.nodes, j)
  {
    hide KeyBucket, Owner, Locks, Safe, Readers, Pcs, Progress;
    assert EntryOk(u, s.nodes, s.chain, j);
  }

  // With locks or with one thread, everything published is safe.
  lemma PublishedIsSafe(u: Setup, s: State, j: nat)
    requires Inv(u, s) && j in s.chain && (!u.mode.NoLock? || u.threads == 1)
    ensures j in s.safe
  {
    hide KeyBucket, Owner, Locks, Entries, Readers, Pcs, Progress;
  }

  lemma SafeLookup(u: Setup, s: State, j: nat)
    requires Inv(u, s) && j in s.safe
    ensures j < |u.keys| && Lookup(Abs(u, s), u.keys[j]).Some?
  {
    hide KeyBucket, Owner, ChainOf, Entries, Heads, Pcs, Progress, Locks, Safe, Readers;
    SafeIsReachable(u, s, j);
    PublishedHoldsKey(u, s, j);
    FoundInList(s.nodes, ChainOf(s.chain, s.table[BucketOf(u, j)]), j);
  }

  // After the barrier a lookup finds every key.
  lemma EveryLookupSucceeds(u: Setup, states: seq<State>, acts: seq<Action>, n: nat, j: nat)
    requires Run(u, states, acts) && n < |states| && j < |u.keys|
    requires AllJoined(u, states[n]) && (!u.mode.NoLock? || u.threads == 1)
    ensures Lookup(Abs(u, states[n]), u.keys[j]).Some?
  {
    hide Inv, Run, AllJoined, Lookup, Abs;
    RunKeepsInv(u, states, acts, n);
    AllAreOut(u, states[n], j);
    PublishedIsSafe(u, states[n], j);
    SafeLookup(u, states[n], j);
  }

  lemma NothingIsMissed(u: Setup, states: seq<State>, acts: seq<Action>, n: nat)
    requires Run(u, states, acts) && n < |states|
    requires AllJoined(u, states[n]) && (!u.mode.NoLock? || u.threads == 1)
    ensures HashCode.Misses(Abs(u, states[n]), u.keys, |u.keys|) == {}
  {
    hide Abs, Lookup, Run;
    forall j: nat | j < |u.keys| ensures j !in HashCode.Misses(Abs(u, states[n]), u.keys, |u.keys|) {
      EveryLookupSucceeds(u, states, acts, n, j);
    }
  }

  // So the get phase, run by any number of threads on the memory that the put phase has left, counts
  // no lost key.
  method CountLost(table: HashCode.HashTable, keys: seq<int>, k: nat,
                   ghost u: Setup, ghost states: seq<State>, ghost acts: seq<Action>, ghost n: nat)
    returns (total: nat)
    requires Run(u, states, acts) && n < |states| && u.keys == keys && 0 < k
    requires AllJoined(u, states[n]) && (!u.mode.NoLock? || u.threads == 1)
    requires table.Valid() && table.View() == Abs(u, states[n])
    ensures total == 0
  {
    NothingIsMissed(u, states, acts, n);
    total := table.TotalLost(keys, k);
  }
}

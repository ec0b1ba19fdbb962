// What retrieve() returns while other threads insert: every call is atomic at its read of table[i].
module HashReaders {
  import opened Util
  import opened AtomicTable
  import opened HashMachine
  import opened HashInv
  import opened HashTheorems

  // The entry a reader has returned.
  ghost function ResultOf(s: State, r: nat): Option<Entry>
    requires r < |s.readers|
  {
    var w := s.readers[r];
    if w.Returned? && w.result.Some? && w.result.value < |s.nodes|
    then Some(Entry(s.nodes[w.result.value].key, s.nodes[w.result.value].val)) else None
  }

  // A reader that has begun and, if it goes on alone, returns "ans".
  ghost predicate Answers(s: State, r: nat, key: int, ans: Option<Entry>) {
    && r < |s.readers|
    && match s.readers[r]
       case Ready => false
       case Walking(k, at, compared) =>
         && k == key && Find(EntriesOf(s.nodes, ChainOf(s.chain, at)), key) == ans
         && (compared && at.Some? ==> at.value < |s.nodes| && s.nodes[at.value].key != key)
       case Returned(k, result) => k == key && ResultOf(s, r) == ans
  }

  lemma FindHere(nodes: seq<Node>, j: nat, rest: seq<nat>, key: int)
    requires j < |nodes|
    ensures Find(EntriesOf(nodes, [j] + rest), key) ==
            if nodes[j].key == key then Some(Entry(nodes[j].key, nodes[j].val)) else Find(EntriesOf(nodes, rest), key)
  {
    assert EntriesOf(nodes, [j] + rest)[1..] == EntriesOf(nodes, rest);
  }

  lemma WalkerIsPlaced(u: Setup, s: State, r: nat)
    requires Inv(u, s) && r < |s.readers| && s.readers[r].Walking?
    ensures HeadOk(u, s.chain, s.readers[r].at, KeyBucket(s.readers[r].key))
    ensures s.readers[r].compared ==> s.readers[r].at.Some?
  {
    hide KeyBucket, Owner, ChainOf, Locks, Safe, Pcs, Progress, Entries;
    assert ReaderOk(u, s.chain, s.readers[r]);
  }

  lemma ResultIsPublished(u: Setup, s: State, r: nat)
    requires Inv(u, s) && r < |s.readers| && s.readers[r].Returned? && s.readers[r].result.Some?
    ensures var e := s.readers[r].result.value;
            e < |u.keys| && Genuine(u, s, BucketOf(u, e), e) && u.keys[e] == s.readers[r].key
  {
    hide KeyBucket, Owner, ChainOf, Locks, Safe, Pcs, Progress, Entries;
    assert ReaderOk(u, s.chain, s.readers[r]);
    PublishedHoldsKey(u, s, s.readers[r].result.value);
  }

  /* Linearizability */

  lemma WalkKeepsAnswer(u: Setup, s: State, r: nat, key: int, ans: Option<Entry>)
    requires Inv(u, s) && CanWalk(u, s, r) && Answers(s, r, key, ans)
    ensures Answers(DoWalk(u, s, r), r, key, ans)
  {
    hide Inv, KeyBucket, ChainOf, EntriesOf, Genuine, HeadOk;
    WalkerIsPlaced(u, s, r);
    var at := s.readers[r].at;
    if at.Some? {
      FirstOfChain(u, s, at.value, KeyBucket(key));
      FindHere(s.nodes, at.value, ChainOf(s.chain, s.nodes[at.value].next), key);
    } else {
      NothingAtNull(s);
    }
  }

  lemma NothingAtNull(s: State)
    ensures EntriesOf(s.nodes, ChainOf(s.chain, None)) == []
  {
  }

  lemma OthersLeaveReader(u: Setup, s: State, act: Action, s': State, r: nat)
    requires Step(u, s, act, s') && r < |s.readers| && !s.readers[r].Ready? && act != Walk(r)
    ensures r < |s'.readers| && s'.readers[r] == s.readers[r]
  {
    hide KeyBucket, Owner, ChainOf, Alone;
  }

  lemma OthersKeepAnswer(u: Setup, s: State, act: Action, s': State, r: nat, key: int, ans: Option<Entry>)
    requires Inv(u, s) && Step(u, s, act, s') && act != Walk(r) && Answers(s, r, key, ans)
    ensures Answers(s', r, key, ans)
  {
    hide Inv, Step, KeyBucket, ChainOf, EntriesOf, Genuine, HeadOk;
    OthersLeaveReader(u, s, act, s', r);
    var w := s.readers[r];
    if w.Walking? {
      WalkerIsPlaced(u, s, r);
      ListStays(u, s, act, s', w.at, KeyBucket(key));
      if w.at.Some? {
        FirstOfChain(u, s, w.at.value, KeyBucket(key));
        PublishedNodesStay(u, s, act, s', KeyBucket(key), w.at.value);
      }
    } else if w.result.Some? {
      ResultIsPublished(u, s, r);
      PublishedNodesStay(u, s, act, s', BucketOf(u, w.result.value), w.result.value);
    }
  }

  lemma BeginAnswers(u: Setup, s: State, r: nat, key: int, s': State)
    requires Step(u, s, Begin(r, key), s')
    ensures Sizes(u, s) && Answers(s', r, key, Lookup(Abs(u, s), key))
  {
    hide KeyBucket, ChainOf, EntriesOf;
  }

  lemma {:induction false} KeepsAnswer(u: Setup, states: seq<State>, acts: seq<Action>, i: nat, n: nat, r: nat, key: int, ans: Option<Entry>)
    requires Run(u, states, acts) && i <= n < |states| && Answers(states[i], r, key, ans)
    ensures Answers(states[n], r, key, ans)
  {
    hide Inv, Step, Init, Answers;
    if i < n {
      KeepsAnswer(u, states, acts, i, n - 1, r, key, ans);
      RunKeepsInv(u, states, acts, n - 1);
      AnswersStep(u, states[n - 1], acts[n - 1], states[n], r, key, ans);
    }
  }

  lemma AnswersStep(u: Setup, s: State, act: Action, s': State, r: nat, key: int, ans: Option<Entry>)
    requires Inv(u, s) && Step(u, s, act, s') && Answers(s, r, key, ans)
    ensures Answers(s', r, key, ans)
  {
    hide Inv, Answers;
    if act == Walk(r) {
      WalkKeepsAnswer(u, s, r, key, ans);
    } else {
      OthersKeepAnswer(u, s, act, s', r, key, ans);
    }
  }

  // In all three programs retrieve() returns what a lookup in the table would have given at the moment
  // it read table[i], whatever is inserted while it walks.
  lemma RetrieveIsAtomic(u: Setup, states: seq<State>, acts: seq<Action>, i: nat, n: nat, r: nat)
    requires Run(u, states, acts) && i < n < |states| && acts[i].Begin? && acts[i].r == r
    requires r < |states[n].readers| && states[n].readers[r].Returned?
    ensures Sizes(u, states[i]) && ResultOf(states[n], r) == Lookup(Abs(u, states[i]), acts[i].key)
  {
    hide Inv, Step, Init, Abs, Lookup;
    BeginAnswers(u, states[i], r, acts[i].key, states[i + 1]);
    KeepsAnswer(u, states, acts, i + 1, n, r, acts[i].key, Lookup(Abs(u, states[i]), acts[i].key));
  }

  // With locks that is the latest insert of the key, in lock order.
  lemma RetrieveReturnsLatest(u: Setup, states: seq<State>, acts: seq<Action>, i: nat, n: nat, r: nat)
    requires Run(u, states, acts) && i < n < |states| && acts[i].Begin? && acts[i].r == r && !u.mode.NoLock?
    requires r < |states[n].readers| && states[n].readers[r].Returned?
    ensures ResultOf(states[n], r) == Latest(LogOf(u, acts[..i]), acts[i].key)
  {
    hide Step, Init, Abs, Lookup, Latest, LogOf, ResultOf;
    RetrieveIsAtomic(u, states, acts, i, n, r);
    LockedLookupIsLatest(u, states, acts, i, acts[i].key);
  }

  // And it returns an entry of its key if an insert of the key was published before it began: any such
  // insert with locks or one thread, an undisturbed one without locks.
  lemma RetrieveFindsFinishedInsert(u: Setup, states: seq<State>, acts: seq<Action>, i: nat, n: nat, r: nat, x: nat)
    requires Run(u, states, acts) && i < n < |states| && acts[i].Begin? && acts[i].r == r
    requires x < |u.keys| && u.keys[x] == acts[i].key
    requires x in states[i].safe || (x in states[i].chain && (!u.mode.NoLock? || u.threads == 1))
    requires r < |states[n].readers| && states[n].readers[r].Returned?
    ensures states[n].readers[r].result.Some?
    ensures var e := states[n].readers[r].result.value;
            e < |u.keys| && HoldsKey(u, states[n].nodes, e) && u.keys[e] == acts[i].key
  {
    hide Inv, Step, Init, Lookup;
    RunKeepsInv(u, states, acts, i);
    RunKeepsInv(u, states, acts, n);
    if x !in states[i].safe {
      PublishedIsSafe(u, states[i], x);
    }
    SafeLookup(u, states[i], x);
    RetrieveIsAtomic(u, states, acts, i, n, r);
    KeyOfReader(u, states, acts, i, n, r);
    ResultIsPublished(u, states[n], r);
  }

  lemma KeyOfReader(u: Setup, states: seq<State>, acts: seq<Action>, i: nat, n: nat, r: nat)
    requires Run(u, states, acts) && i < n < |states| && acts[i].Begin? && acts[i].r == r
    requires r < |states[n].readers| && states[n].readers[r].Returned?
    ensures states[n].readers[r].key == acts[i].key
  {
    hide Inv, Step, Init, Abs, Lookup;
    BeginAnswers(u, states[i], r, acts[i].key, states[i + 1]);
    KeepsAnswer(u, states, acts, i + 1, n, r, acts[i].key, Lookup(Abs(u, states[i]), acts[i].key));
  }

  /* Termination */

  // How many steps a reader has yet to take.
  ghost function Ahead(s: State, r: nat): nat
    requires r < |s.readers|
  {
    var w := s.readers[r];
    if w.Walking? then 2 * |ChainOf(s.chain, w.at)| + (if w.compared then 0 else 1) else 0
  }

  lemma WalkAdvances(u: Setup, s: State, r: nat)
    requires Inv(u, s) && CanWalk(u, s, r)
    ensures Ahead(DoWalk(u, s, r), r) < Ahead(s, r)
  {
    hide Inv, KeyBucket, ChainOf;
    WalkerIsPlaced(u, s, r);
    if s.readers[r].at.Some? {
      FirstOfChain(u, s, s.readers[r].at.value, KeyBucket(s.readers[r].key));
    }
  }

  lemma WalkStep(u: Setup, s: State, act: Action, s': State, r: nat)
    requires Inv(u, s) && Step(u, s, act, s') && r < |s.readers| && !s.readers[r].Ready?
    ensures r < |s'.readers| && !s'.readers[r].Ready?
    ensures act == Walk(r) ==> Ahead(s', r) < Ahead(s, r)
    ensures act != Walk(r) ==> Ahead(s', r) == Ahead(s, r)
  {
    hide Inv, KeyBucket, ChainOf, HeadOk;
    if act == Walk(r) {
      WalkAdvances(u, s, r);
    } else {
      OthersLeaveReader(u, s, act, s', r);
      if s.readers[r].Walking? {
        WalkerIsPlaced(u, s, r);
        ChainStays(u, s, act, s', s.readers[r].at, KeyBucket(s.readers[r].key));
      }
    }
  }

  function Walks(acts: seq<Action>, r: nat): nat {
    if acts == [] then 0 else Walks(acts[..|acts| - 1], r) + if acts[|acts| - 1] == Walk(r) then 1 else 0
  }

  // retrieve() ends within two steps for each entry that was ahead of it when it began, and one more,
  // whatever is inserted while it walks.
  lemma {:induction false} RetrieveTerminates(u: Setup, states: seq<State>, acts: seq<Action>, i: nat, n: nat, r: nat)
    requires Run(u, states, acts) && i <= n < |states|
    requires r < |states[i].readers| && !states[i].readers[r].Ready?
    ensures r < |states[n].readers| && !states[n].readers[r].Ready?
    ensures Walks(acts[i..n], r) + Ahead(states[n], r) <= Ahead(states[i], r)
  {
    hide Step, Init, Inv, Ahead;
    if i < n {
      RetrieveTerminates(u, states, acts, i, n - 1, r);
      RunKeepsInv(u, states, acts, n - 1);
      assert acts[i..n][..n - 1 - i] == acts[i..n - 1];
      WalkStep(u, states[n - 1], acts[n - 1], states[n], r);
    }
  }

  // A reader is never held up: it can begin with any key, and go on until it has returned.
  lemma ReaderCanStep(u: Setup, states: seq<State>, acts: seq<Action>, n: nat, r: nat, key: int)
    requires Run(u, states, acts) && n < |states| && r < |states[n].readers| && 0 <= key
    ensures states[n].readers[r].Ready? ==> CanBegin(u, states[n], r, key)
    ensures states[n].readers[r].Walking? ==> CanWalk(u, states[n], r)
  {
    hide Step, Init, ChainOf, KeyBucket;
    RunKeepsInv(u, states, acts, n);
    if states[n].readers[r].Walking? && states[n].readers[r].at.Some? {
      WalkerIsPlaced(u, states[n], r);
    }
  }
}

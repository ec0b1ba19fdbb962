// Exactly when an insert is lost. Without locks a bucket keeps all its entries if and only if no entry
// was published on it while another insert was between reading the head and publishing.
module HashLoss {
  import opened Util
  import opened AtomicTable
  import opened HashMachine
  import opened HashInv
  import opened HashTheorems

  /* The entry at the head of a bucket */

  // No other entry leads to it, and a bucket with published entries has one.
  ghost predicate TopOk(u: Setup, s: State, x: nat)
    requires Sizes(u, s) && x in s.chain
  {
    && x < |u.keys|
    && s.table[BucketOf(u, x)].Some?
    && (forall b :: 0 <= b < NUM_BUCKETS && s.table[b].Some? && s.table[b].value in ChainOf(s.chain, Some(x)) ==> s.table[b].value == x)
  }

  ghost predicate Tops(u: Setup, s: State) {
    Sizes(u, s) && forall x :: x in s.chain ==> TopOk(u, s, x)
  }

  lemma ChainIsPublished(u: Setup, s: State, x: nat, y: nat)
    requires Inv(u, s) && x in s.chain && y in ChainOf(s.chain, Some(x))
    ensures y in s.chain
  {
    hide KeyBucket, Owner, Locks, Safe, Readers, Pcs, Progress, Heads;
    assert EntryOk(u, s.nodes, s.chain, x);
  }

  lemma PublishKeepsTop(u: Setup, s: State, t: nat, j: nat, x: nat)
    requires Inv(u, s) && Tops(u, s) && At(u, s, t, Filled(j)) && x in s.chain
    ensures TopOk(u, DoPublish(u, s, t, j), x)
  {
    hide KeyBucket, Inv, ChainOf, Alone, BucketOf;
    PublishChains(u, s, t, j);
    assert TopOk(u, s, x);
    if j in ChainOf(s.chain, Some(x)) {
      ChainIsPublished(u, s, x, j);
    }
  }

  lemma TableHead(u: Setup, s: State, b: nat)
    requires Inv(u, s) && b < NUM_BUCKETS
    ensures HeadOk(u, s.chain, s.table[b], b)
  {
    hide KeyBucket, Owner, ChainOf, Entries, Locks, Safe, Readers, Pcs, Progress;
  }

  lemma NewTop(u: Setup, s: State, t: nat, j: nat)
    requires Inv(u, s) && Tops(u, s) && At(u, s, t, Filled(j))
    ensures TopOk(u, DoPublish(u, s, t, j), j)
  {
    hide KeyBucket, Inv, ChainOf, Alone;
    PublishChains(u, s, t, j);
    var next, bucket := s.nodes[j].next, BucketOf(u, j);
    if next.Some? {
      assert TopOk(u, s, next.value);
      forall b | 0 <= b < NUM_BUCKETS && s.table[b].Some? && s.table[b].value in ChainOf(s.chain, next) ensures b == bucket {
        TableHead(u, s, b);
      }
    } else {
      NullLeadsNowhere(s.chain);
    }
  }

  lemma NullLeadsNowhere(chain: map<nat, seq<nat>>)
    ensures ChainOf(chain, None) == []
  {
  }

  lemma StepKeepsTops(u: Setup, s: State, act: Action, s': State)
    requires Inv(u, s) && Tops(u, s) && Step(u, s, act, s')
    ensures Tops(u, s')
  {
    hide KeyBucket, Owner, Inv, Alone, ChainOf, BucketOf;
    if act.Publish? {
      forall x | x in s'.chain ensures TopOk(u, s', x) {
        if x == act.j {
          NewTop(u, s, act.t, act.j);
        } else {
          PublishKeepsTop(u, s, act.t, act.j, x);
        }
      }
    } else {
      forall x | x in s'.chain ensures TopOk(u, s', x) {
        assert TopOk(u, s, x);
      }
    }
  }

  lemma {:induction false} RunKeepsTops(u: Setup, states: seq<State>, acts: seq<Action>, n: nat)
    requires Run(u, states, acts) && n < |states|
    ensures Tops(u, states[n])
  {
    hide Step, Inv, TopOk;
    if n > 0 {
      RunKeepsTops(u, states, acts, n - 1);
      RunKeepsInv(u, states, acts, n - 1);
      StepKeepsTops(u, states[n - 1], acts[n - 1], states[n]);
    }
  }

  /* Disturbed buckets */

  // Thread "t" has an insert on bucket "b" under way.
  ghost predicate OpenOn(u: Setup, s: State, t: nat, b: nat) {
    t < |s.pcs| && InWindow(s.pcs[t]) && s.pcs[t].j < |u.keys| == |s.nodes| && BucketOf(u, s.pcs[t].j) == b
  }

  // And the head it has read is not the bucket's any more.
  ghost predicate Stale(u: Setup, s: State, t: nat, b: nat) {
    OpenOn(u, s, t, b) && b < |s.table| && WindowHead(s.nodes, s.pcs[t]) != s.table[b]
  }

  ghost predicate LostEntry(u: Setup, s: State, b: nat, x: nat) {
    x in s.chain && x < |u.keys| && BucketOf(u, x) == b && b < |s.table| && x !in ChainOf(s.chain, s.table[b])
  }

  // Something is lost, or about to be.
  ghost predicate Disturbed(u: Setup, s: State, b: nat) {
    (exists x: nat :: LostEntry(u, s, b, x)) || (exists t: nat :: Stale(u, s, t, b))
  }

  // An entry is published while another insert on the bucket is under way.
  ghost predicate Collides(u: Setup, s: State, act: Action, b: nat) {
    act.Publish? && Sizes(u, s) && act.j < |u.keys| && BucketOf(u, act.j) == b && !Alone(u, s, act.t, b)
  }

  lemma OthersKeepStale(u: Setup, s: State, act: Action, s': State, t: nat, b: nat)
    requires Inv(u, s) && Step(u, s, act, s') && !act.Publish?
    ensures Stale(u, s', t, b) <==> Stale(u, s, t, b)
  {
    hide KeyBucket, Owner, ChainOf, Entries, Heads, Locks, Safe, Readers;
    if (act.WriteNext? || act.WriteKey? || act.WriteVal?) && t != act.t && t < |s.pcs| {
      assert PcOk(u, s.nodes, s.chain, t, s.pcs[t]) && PcOk(u, s.nodes, s.chain, act.t, s.pcs[act.t]);
    }
  }

  lemma OthersKeepLost(u: Setup, s: State, act: Action, s': State, b: nat, x: nat)
    requires Step(u, s, act, s') && !act.Publish?
    ensures LostEntry(u, s', b, x) <==> LostEntry(u, s, b, x)
  {
    hide KeyBucket, Owner, ChainOf;
  }

  // What a publish leaves of the other inserts: on its own bucket all of them are stale.
  lemma PublishMakesStale(u: Setup, s: State, t: nat, j: nat, y: nat, b: nat)
    requires Inv(u, s) && At(u, s, t, Filled(j)) && y != t
    ensures var s' := DoPublish(u, s, t, j);
            Stale(u, s', y, b) <==> if b == BucketOf(u, j) then OpenOn(u, s, y, b) else Stale(u, s, y, b)
  {
    hide KeyBucket, Owner, ChainOf, Entries, Locks, Safe, Readers, Alone;
    FilledEntry(u, s, t, j);
    if y < |s.pcs| {
      assert PcOk(u, s.nodes, s.chain, y, s.pcs[y]);
    }
  }

  lemma PublisherIsDone(u: Setup, s: State, t: nat, j: nat, b: nat)
    requires At(u, s, t, Filled(j))
    ensures !Stale(u, DoPublish(u, s, t, j), t, b)
    ensures OpenOn(u, s, t, b) <==> b == BucketOf(u, j)
  {
  }

  // On another bucket nothing is lost or found.
  lemma PublishElsewhere(u: Setup, s: State, t: nat, j: nat, b: nat, x: nat)
    requires Inv(u, s) && At(u, s, t, Filled(j)) && b != BucketOf(u, j)
    ensures LostEntry(u, DoPublish(u, s, t, j), b, x) <==> LostEntry(u, s, b, x)
  {
    hide KeyBucket, Owner, ChainOf, Inv, Alone;
    PublishChains(u, s, t, j);
    if b < |s.table| {
      TableHead(u, s, b);
    }
  }

  // On its own bucket, with the head as it was read, what is lost is what was.
  lemma PublishOnTop(u: Setup, s: State, t: nat, j: nat, x: nat)
    requires Inv(u, s) && At(u, s, t, Filled(j))
    requires s.nodes[j].next == s.table[BucketOf(u, j)]
    ensures var b := BucketOf(u, j); LostEntry(u, DoPublish(u, s, t, j), b, x) <==> LostEntry(u, s, b, x)
  {
    hide KeyBucket, Owner, ChainOf, Inv, Alone;
    PublishChains(u, s, t, j);
  }

  // With a stale head, the entry that was at the head is lost.
  lemma StalePublishLoses(u: Setup, s: State, t: nat, j: nat) returns (x: nat)
    requires Inv(u, s) && Tops(u, s) && At(u, s, t, Filled(j))
    requires s.nodes[j].next != s.table[BucketOf(u, j)]
    ensures LostEntry(u, DoPublish(u, s, t, j), BucketOf(u, j), x)
  {
    hide KeyBucket, Owner, Inv, Alone;
    PublishChains(u, s, t, j);
    var b, next := BucketOf(u, j), s.nodes[j].next;
    TableHead(u, s, b);
    if next.Some? {
      assert TopOk(u, s, next.value);
    }
    x := s.table[b].value;
  }

  lemma PublishDisturbs(u: Setup, s: State, t: nat, j: nat)
    requires Inv(u, s) && Tops(u, s) && At(u, s, t, Filled(j))
    ensures var b := BucketOf(u, j);
            Disturbed(u, DoPublish(u, s, t, j), b) <==> Disturbed(u, s, b) || !Alone(u, s, t, b)
  {
    hide KeyBucket, Inv, Tops, LostEntry, DoPublish;
    var b, s' := BucketOf(u, j), DoPublish(u, s, t, j);
    assert |s.nodes| == |u.keys|;
    PublisherIsDone(u, s, t, j, b);
    forall y: nat | y != t ensures Stale(u, s', y, b) <==> OpenOn(u, s, y, b) {
      PublishMakesStale(u, s, t, j, y, b);
    }
    assert Alone(u, s, t, b) <==> forall y: nat :: y != t ==> !OpenOn(u, s, y, b) by {
      AloneMeans(u, s, t, b);
    }
    assert Stale(u, s, t, b) <==> s.nodes[j].next != s.table[b];
    if Stale(u, s, t, b) {
      var x := StalePublishLoses(u, s, t, j);
    } else {
      forall x: nat ensures LostEntry(u, s', b, x) <==> LostEntry(u, s, b, x) {
        PublishOnTop(u, s, t, j, x);
      }
    }
  }

  lemma AloneMeans(u: Setup, s: State, t: nat, b: nat)
    requires Sizes(u, s)
    ensures Alone(u, s, t, b) <==> forall y: nat :: y != t ==> !OpenOn(u, s, y, b)
  {
    hide KeyBucket;
    if !Alone(u, s, t, b) {
      var y :| 0 <= y < |s.pcs| && y != t && InWindow(s.pcs[y]) && s.pcs[y].j < |u.keys| && BucketOf(u, s.pcs[y].j) == b;
      assert OpenOn(u, s, y, b);
    }
  }

  lemma PublishLeavesOthers(u: Setup, s: State, t: nat, j: nat, b: nat)
    requires Inv(u, s) && At(u, s, t, Filled(j)) && b != BucketOf(u, j)
    ensures Disturbed(u, DoPublish(u, s, t, j), b) <==> Disturbed(u, s, b)
  {
    hide KeyBucket, Inv, LostEntry, DoPublish;
    var s' := DoPublish(u, s, t, j);
    PublisherIsDone(u, s, t, j, b);
    forall y: nat ensures Stale(u, s', y, b) <==> Stale(u, s, y, b) {
      if y != t {
        PublishMakesStale(u, s, t, j, y, b);
      }
    }
    forall x: nat ensures LostEntry(u, s', b, x) <==> LostEntry(u, s, b, x) {
      PublishElsewhere(u, s, t, j, b, x);
    }
  }

  // A bucket becomes disturbed by a collision, and nothing ever mends it.
  lemma DisturbedStep(u: Setup, s: State, act: Action, s': State, b: nat)
    requires Inv(u, s) && Tops(u, s) && Step(u, s, act, s')
    ensures Disturbed(u, s', b) <==> Disturbed(u, s, b) || Collides(u, s, act, b)
  {
    hide KeyBucket, Inv, Tops, LostEntry, Stale, Alone;
    if act.Publish? {
      if BucketOf(u, act.j) == b {
        PublishDisturbs(u, s, act.t, act.j);
      } else {
        PublishLeavesOthers(u, s, act.t, act.j, b);
      }
    } else {
      forall t: nat ensures Stale(u, s', t, b) <==> Stale(u, s, t, b) {
        OthersKeepStale(u, s, act, s', t, b);
      }
      forall x: nat ensures LostEntry(u, s', b, x) <==> LostEntry(u, s, b, x) {
        OthersKeepLost(u, s, act, s', b, x);
      }
    }
  }

  lemma InitUndisturbed(u: Setup, s: State, b: nat)
    requires Init(u, s)
    ensures !Disturbed(u, s, b)
  {
  }

  ghost predicate Collision(u: Setup, states: seq<State>, acts: seq<Action>, n: nat, b: nat)
    requires n <= |acts| < |states|
  {
    exists i :: 0 <= i < n && Collides(u, states[i], acts[i], b)
  }

  // At every moment of every run a bucket has a lost entry, or an insert under way that will lose one,
  // exactly if there has been a collision on it.
  lemma {:induction false} DisturbedIff(u: Setup, states: seq<State>, acts: seq<Action>, n: nat, b: nat)
    requires Run(u, states, acts) && n < |states|
    ensures Disturbed(u, states[n], b) <==> Collision(u, states, acts, n, b)
  {
    hide Step, Init, Inv, Tops, Disturbed, Collides;
    if n == 0 {
      InitUndisturbed(u, states[0], b);
    } else {
      DisturbedIff(u, states, acts, n - 1, b);
      RunKeepsInv(u, states, acts, n - 1);
      RunKeepsTops(u, states, acts, n - 1);
      DisturbedStep(u, states[n - 1], acts[n - 1], states[n], b);
    }
  }

  /* After the barrier */

  lemma {:induction false} OneChain(nodes: seq<Node>, h: Option<nat>, c: seq<nat>, d: seq<nat>)
    requires IsChain(nodes, h, c) && IsChain(nodes, h, d)
    ensures c == d
    decreases |c|
  {
    if c != [] {
      OneChain(nodes, nodes[c[0]].next, c[1..], d[1..]);
      assert c == [c[0]] + c[1..] && d == [d[0]] + d[1..];
    }
  }

  lemma ReachableIff(u: Setup, s: State, j: nat)
    requires Inv(u, s) && j < |u.keys|
    ensures Reachable(u, s, j) <==> j in ChainOf(s.chain, s.table[BucketOf(u, j)])
  {
    hide KeyBucket, Entries, Heads, Pcs, Progress, Locks, Safe, Readers, IsChain, ChainOf, Genuine;
    var h := s.table[BucketOf(u, j)];
    TableHead(u, s, BucketOf(u, j));
    ChainIsReal(u, s, h, BucketOf(u, j));
    forall c | IsChain(s.nodes, h, c) ensures c == ChainOf(s.chain, h) {
      OneChain(s.nodes, h, c, ChainOf(s.chain, h));
    }
  }

  lemma JoinedReachableIff(u: Setup, s: State, j: nat)
    requires Inv(u, s) && AllJoined(u, s) && j < |u.keys|
    ensures Reachable(u, s, j) <==> !LostEntry(u, s, BucketOf(u, j), j)
  {
    hide KeyBucket, Inv, Reachable, ChainOf;
    AllAreOut(u, s, j);
    ReachableIff(u, s, j);
  }

  // After the barrier all keys that hash to a bucket are in it, if and only if no entry was published
  // on it while another insert on it was under way. This holds of all three programs; with locks or
  // with one thread there is no such publication.
  lemma BucketKeepsAllIff(u: Setup, states: seq<State>, acts: seq<Action>, n: nat, b: nat)
    requires Run(u, states, acts) && n < |states| && AllJoined(u, states[n])
    ensures (forall j: nat :: j < |u.keys| && BucketOf(u, j) == b ==> Reachable(u, states[n], j)) <==>
            (forall i :: 0 <= i < n ==> !Collides(u, states[i], acts[i], b))
  {
    hide Step, Init, Inv, KeyBucket, Reachable, Collides;
    var s := states[n];
    RunKeepsInv(u, states, acts, n);
    DisturbedIff(u, states, acts, n, b);
    assert forall t: nat :: !Stale(u, s, t, b);
    forall j: nat | j < |u.keys| ensures Reachable(u, s, j) <==> !LostEntry(u, s, BucketOf(u, j), j) {
      JoinedReachableIff(u, s, j);
    }
  }

  // And with locks or one thread nothing collides.
  lemma LocksPreventCollisions(u: Setup, states: seq<State>, acts: seq<Action>, i: nat, b: nat)
    requires Run(u, states, acts) && i < |acts| && (!u.mode.NoLock? || u.threads == 1)
    ensures !Collides(u, states[i], acts[i], b)
  {
    hide Inv, Init, KeyBucket, ChainOf, Alone;
    RunKeepsInv(u, states, acts, i);
    assert Step(u, states[i], acts[i], states[i + 1]);
    if acts[i].Publish? {
      PublishKeepsLocks(u, states[i], acts[i].t, acts[i].j);
    }
  }
}

// The put phase of hw4/parallel_mutex.c, hw4/parallel_spin.c and hw4/parallel_hashtable.c as an
// interleaving of threads, with lock-free readers beside them. The three programs differ only in
// the lock that insert() takes.
//
// Memory is sequentially consistent. malloc() hands out a new address every time, so the entry of
// the j-th key is named j.
module HashMachine {
  import opened Util
  import opened AtomicTable

  datatype Mode = PerBucket | Global | NoLock

  datatype Node = Node(key: int, val: int, next: Option<nat>)

  // Where a thread is in put_phase() and insert(); "j" is its index into keys.
  datatype Pc =
    | Loop(j: nat)                      // at the test of the for loop
    | Locked(j: nat)                    // holds the lock, if there is one
    | HasHead(j: nat, head: Option<nat>)  // has read table[i]
    | HasNext(j: nat)                   // has written e->next
    | HasKey(j: nat)                    // has written e->key
    | Filled(j: nat)                    // has written e->val
    | Published(j: nat)                 // has written table[i]

  // A call of retrieve(): not begun, at an entry, whose key it may have compared, or returned.
  datatype Reader = Ready | Walking(key: int, at: Option<nat>, compared: bool) | Returned(key: int, result: Option<nat>)

  datatype Setup = Setup(mode: Mode, keys: seq<int>, threads: nat)

  datatype State = State(
    nodes: seq<Node>,
    table: seq<Option<nat>>,
    locks: seq<Option<nat>>,
    pcs: seq<Pc>,
    readers: seq<Reader>,
    chain: map<nat, seq<nat>>,  // for each published entry, the entries its pointers lead through
    safe: set<nat>)             // entries published while no other insert on the bucket was under way

  ghost predicate SetupOk(u: Setup) {
    0 < u.threads && forall j :: 0 <= j < |u.keys| ==> 0 <= u.keys[j]
  }

  function BucketOf(u: Setup, j: nat): (b: nat)
    requires j < |u.keys|
    ensures b < NUM_BUCKETS
  {
    KeyBucket(u.keys[j])
  }

  // The thread whose loop comes to index "j".
  function Owner(u: Setup, j: nat): (t: nat)
    requires 0 < u.threads
    ensures t < u.threads
  {
    j % u.threads
  }

  function LockOf(mode: Mode, b: nat): nat {
    if mode.Global? then 0 else b
  }

  ghost predicate Sizes(u: Setup, s: State) {
    |s.nodes| == |u.keys| && |s.table| == |s.locks| == NUM_BUCKETS && |s.pcs| == u.threads
  }

  ghost predicate Init(u: Setup, s: State) {
    && Sizes(u, s)
    && (forall b :: 0 <= b < NUM_BUCKETS ==> s.table[b] == None && s.locks[b] == None)
    && (forall t :: 0 <= t < u.threads ==> s.pcs[t] == Loop(t))
    && (forall r :: 0 <= r < |s.readers| ==> s.readers[r] == Ready)
    && s.chain == map[] && s.safe == {}
  }

  /* insert() */

  // Thread "t" is at "pc" with an entry to insert.
  ghost predicate At(u: Setup, s: State, t: nat, pc: Pc) {
    Sizes(u, s) && t < |s.pcs| && s.pcs[t] == pc && pc.j < |u.keys|
  }

  ghost predicate CanLock(u: Setup, s: State, t: nat, j: nat) {
    At(u, s, t, Loop(j)) && (u.mode.NoLock? || s.locks[LockOf(u.mode, BucketOf(u, j))] == None)
  }

  ghost function DoLock(u: Setup, s: State, t: nat, j: nat): State
    requires CanLock(u, s, t, j)
  {
    var locks := if u.mode.NoLock? then s.locks else s.locks[LockOf(u.mode, BucketOf(u, j)) := Some(t)];
    s.(pcs := s.pcs[t := Locked(j)], locks := locks)
  }

  ghost function DoReadHead(u: Setup, s: State, t: nat, j: nat): State
    requires At(u, s, t, Locked(j))
  {
    s.(pcs := s.pcs[t := HasHead(j, s.table[BucketOf(u, j)])])
  }

  ghost function DoWriteNext(u: Setup, s: State, t: nat, j: nat, head: Option<nat>): State
    requires At(u, s, t, HasHead(j, head))
  {
    s.(pcs := s.pcs[t := HasNext(j)], nodes := s.nodes[j := s.nodes[j].(next := head)])
  }

  ghost function DoWriteKey(u: Setup, s: State, t: nat, j: nat): State
    requires At(u, s, t, HasNext(j))
  {
    s.(pcs := s.pcs[t := HasKey(j)], nodes := s.nodes[j := s.nodes[j].(key := u.keys[j])])
  }

  ghost function DoWriteVal(u: Setup, s: State, t: nat, j: nat): State
    requires At(u, s, t, HasKey(j))
  {
    s.(pcs := s.pcs[t := Filled(j)], nodes := s.nodes[j := s.nodes[j].(val := t)])
  }

  // Between reading the head of its bucket and publishing the entry it links in front of it.
  predicate InWindow(pc: Pc) {
    pc.HasHead? || pc.HasNext? || pc.HasKey? || pc.Filled?
  }

  ghost predicate Alone(u: Setup, s: State, t: nat, b: nat)
    requires Sizes(u, s)
  {
    forall x :: 0 <= x < |s.pcs| && x != t && InWindow(s.pcs[x]) && s.pcs[x].j < |u.keys| ==> BucketOf(u, s.pcs[x].j) != b
  }

  function ChainOf(chain: map<nat, seq<nat>>, h: Option<nat>): seq<nat> {
    if h.Some? && h.value in chain then chain[h.value] else []
  }

  ghost function DoPublish(u: Setup, s: State, t: nat, j: nat): (s': State)
    requires At(u, s, t, Filled(j))
    ensures Sizes(u, s') && s'.pcs == s.pcs[t := Published(j)]
  {
    var b := BucketOf(u, j);
    s.(pcs := s.pcs[t := Published(j)],
       table := s.table[b := Some(j)],
       chain := s.chain[j := [j] + ChainOf(s.chain, s.nodes[j].next)],
       safe := if Alone(u, s, t, b) then s.safe + {j} else s.safe)
  }

  ghost function DoUnlock(u: Setup, s: State, t: nat, j: nat): State
    requires At(u, s, t, Published(j))
  {
    var locks := if u.mode.NoLock? then s.locks else s.locks[LockOf(u.mode, BucketOf(u, j)) := None];
    s.(pcs := s.pcs[t := Loop(j + u.threads)], locks := locks)
  }

  /* retrieve() */

  ghost predicate CanBegin(u: Setup, s: State, r: nat, key: int) {
    Sizes(u, s) && r < |s.readers| && s.readers[r].Ready? && 0 <= key
  }

  ghost function DoBegin(u: Setup, s: State, r: nat, key: int): State
    requires CanBegin(u, s, r, key)
  {
    s.(readers := s.readers[r := Walking(key, s.table[KeyBucket(key)], false)])
  }

  ghost predicate CanWalk(u: Setup, s: State, r: nat) {
    Sizes(u, s) && r < |s.readers| && s.readers[r].Walking? && (s.readers[r].at.Some? ==> s.readers[r].at.value < |s.nodes|)
  }

  // It tests b for null and compares b->key, or reads b->next.
  ghost function DoWalk(u: Setup, s: State, r: nat): (s': State)
    requires CanWalk(u, s, r)
    ensures s' == s.(readers := s'.readers) && |s'.readers| == |s.readers|
  {
    var w := s.readers[r];
    if w.at.None? then s.(readers := s.readers[r := Returned(w.key, None)])
    else if w.compared then s.(readers := s.readers[r := Walking(w.key, s.nodes[w.at.value].next, false)])
    else if s.nodes[w.at.value].key == w.key then s.(readers := s.readers[r := Returned(w.key, w.at)])
    else s.(readers := s.readers[r := w.(compared := true)])
  }

  /* Steps and runs */

  datatype Action =
    | Lock(t: nat, j: nat)
    | ReadHead(t: nat, j: nat)
    | WriteNext(t: nat, j: nat, head: Option<nat>)
    | WriteKey(t: nat, j: nat)
    | WriteVal(t: nat, j: nat)
    | Publish(t: nat, j: nat)
    | Unlock(t: nat, j: nat)
    | Begin(r: nat, key: int)
    | Walk(r: nat)

  ghost predicate Step(u: Setup, s: State, act: Action, s': State) {
    match act
    case Lock(t, j) => CanLock(u, s, t, j) && s' == DoLock(u, s, t, j)
    case ReadHead(t, j) => At(u, s, t, Locked(j)) && s' == DoReadHead(u, s, t, j)
    case WriteNext(t, j, head) => At(u, s, t, HasHead(j, head)) && s' == DoWriteNext(u, s, t, j, head)
    case WriteKey(t, j) => At(u, s, t, HasNext(j)) && s' == DoWriteKey(u, s, t, j)
    case WriteVal(t, j) => At(u, s, t, HasKey(j)) && s' == DoWriteVal(u, s, t, j)
    case Publish(t, j) => At(u, s, t, Filled(j)) && s' == DoPublish(u, s, t, j)
    case Unlock(t, j) => At(u, s, t, Published(j)) && s' == DoUnlock(u, s, t, j)
    case Begin(r, key) => CanBegin(u, s, r, key) && s' == DoBegin(u, s, r, key)
    case Walk(r) => CanWalk(u, s, r) && s' == DoWalk(u, s, r)
  }

  ghost predicate Run(u: Setup, states: seq<State>, acts: seq<Action>) {
    && SetupOk(u)
    && |states| == |acts| + 1
    && Init(u, states[0])
    && forall i :: 0 <= i < |acts| ==> Step(u, states[i], acts[i], states[i + 1])
  }

  // Every thread's for loop has ended: main() gets past its first barrier.
  ghost predicate AllJoined(u: Setup, s: State) {
    Sizes(u, s) && forall t :: 0 <= t < |s.pcs| ==> s.pcs[t].Loop? && s.pcs[t].j >= |u.keys|
  }
}

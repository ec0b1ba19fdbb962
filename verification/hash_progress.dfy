// The put phase can always be finished: no deadlock, with or without locks.
module HashProgress {
  import opened Util
  import opened AtomicTable
  import opened HashMachine
  import opened HashInv

  // A lock is held by a thread that is inside insert() on a bucket it protects.
  ghost predicate HolderOk(u: Setup, s: State, l: nat)
    requires Sizes(u, s) && l < |s.locks|
  {
    s.locks[l].Some? ==>
      var t := s.locks[l].value;
      !u.mode.NoLock? && t < |s.pcs| && !s.pcs[t].Loop? && s.pcs[t].j < |u.keys| && LockOf(u.mode, BucketOf(u, s.pcs[t].j)) == l
  }

  ghost predicate Holders(u: Setup, s: State) {
    Sizes(u, s) && forall l :: 0 <= l < |s.locks| ==> HolderOk(u, s, l)
  }

  lemma StepKeepsHolders(u: Setup, s: State, act: Action, s': State)
    requires Holders(u, s) && Step(u, s, act, s')
    ensures Holders(u, s')
  {
    hide KeyBucket, ChainOf, Alone;
    forall l | 0 <= l < |s'.locks| ensures HolderOk(u, s', l) {
      assert HolderOk(u, s, l);
    }
  }

  lemma {:induction false} RunKeepsHolders(u: Setup, states: seq<State>, acts: seq<Action>, n: nat)
    requires Run(u, states, acts) && n < |states|
    ensures Holders(u, states[n])
  {
    hide Step, HolderOk;
    if n == 0 {
      NoHolderAtFirst(u, states[0]);
    } else {
      RunKeepsHolders(u, states, acts, n - 1);
      StepKeepsHolders(u, states[n - 1], acts[n - 1], states[n]);
    }
  }

  lemma NoHolderAtFirst(u: Setup, s: State)
    requires Init(u, s)
    ensures Holders(u, s)
  {
  }

  // With a mutex for each bucket an insert is held up exactly by another on the same bucket; with one
  // spinlock, by any other; without locks, by none.
  ghost predicate HeldUp(u: Setup, s: State, j: nat) {
    exists x :: 0 <= x < |s.pcs| && !s.pcs[x].Loop? && s.pcs[x].j < |u.keys| && j < |u.keys| &&
      match u.mode
      case PerBucket => u.keys[s.pcs[x].j] % 5 == u.keys[j] % 5
      case Global => true
      case NoLock => false
  }

  lemma InsertIsHeldUpIff(u: Setup, states: seq<State>, acts: seq<Action>, n: nat, t: nat, j: nat)
    requires Run(u, states, acts) && n < |states| && At(u, states[n], t, Loop(j))
    ensures CanLock(u, states[n], t, j) <==> !HeldUp(u, states[n], j)
  {
    hide Inv, Step, Init;
    RunKeepsInv(u, states, acts, n);
    RunKeepsHolders(u, states, acts, n);
    LockFreeIff(u, states[n], j);
  }

  lemma LockFreeIff(u: Setup, s: State, j: nat)
    requires Inv(u, s) && Holders(u, s) && j < |u.keys|
    ensures (u.mode.NoLock? || s.locks[LockOf(u.mode, BucketOf(u, j))] == None) <==> !HeldUp(u, s, j)
  {
    hide Owner, ChainOf, Entries, Heads, Pcs, Progress, Safe, Readers;
    if !u.mode.NoLock? {
      var l := LockOf(u.mode, BucketOf(u, j));
      assert HolderOk(u, s, l);
      forall x | 0 <= x < |s.pcs| && !s.pcs[x].Loop? && s.pcs[x].j < |u.keys|
        ensures s.locks[LockOf(u.mode, BucketOf(u, s.pcs[x].j))] == Some(x)
      {
        assert LockOk(u, s, x);
      }
    }
  }

  /* Work */

  function Left(keys: nat, j: nat): nat {
    if j < keys then keys - j else 0
  }

  // The steps a thread has before it at most; a thread inside insert() has an index of the array.
  function Work(keys: nat, pc: Pc): nat {
    var w := 7 * Left(keys, pc.j);
    var done := match pc
      case Loop(_) => 0
      case Locked(_) => 1
      case HasHead(_, _) => 2
      case HasNext(_) => 3
      case HasKey(_) => 4
      case Filled(_) => 5
      case Published(_) => 6;
    if done <= w then w - done else 0
  }

  function AllWork(keys: nat, pcs: seq<Pc>): nat {
    if pcs == [] then 0 else AllWork(keys, pcs[..|pcs| - 1]) + Work(keys, pcs[|pcs| - 1])
  }

  lemma {:induction false} LessWork(keys: nat, pcs: seq<Pc>, t: nat, pc: Pc)
    requires t < |pcs| && Work(keys, pc) < Work(keys, pcs[t])
    ensures AllWork(keys, pcs[t := pc]) < AllWork(keys, pcs)
  {
    hide Work;
    var n := |pcs| - 1;
    if t < n {
      LessWork(keys, pcs[..n], t, pc);
      assert pcs[t := pc][..n] == pcs[..n][t := pc];
    } else {
      assert pcs[t := pc][..n] == pcs[..n];
    }
  }

  // A thread inside insert() is never held up.
  lemma InsideCanStep(u: Setup, s: State, t: nat) returns (act: Action, s': State)
    requires SetupOk(u) && Sizes(u, s) && t < |s.pcs| && !s.pcs[t].Loop? && s.pcs[t].j < |u.keys|
    ensures Step(u, s, act, s') && s'.pcs == s.pcs[t := s'.pcs[t]] && Work(|u.keys|, s'.pcs[t]) < Work(|u.keys|, s.pcs[t])
  {
    hide KeyBucket, ChainOf, Alone;
    match s.pcs[t]
    case Locked(j) => act, s' := ReadHead(t, j), DoReadHead(u, s, t, j);
    case HasHead(j, head) => act, s' := WriteNext(t, j, head), DoWriteNext(u, s, t, j, head);
    case HasNext(j) => act, s' := WriteKey(t, j), DoWriteKey(u, s, t, j);
    case HasKey(j) => act, s' := WriteVal(t, j), DoWriteVal(u, s, t, j);
    case Filled(j) => act, s' := Publish(t, j), DoPublish(u, s, t, j);
    case Published(j) => act, s' := Unlock(t, j), DoUnlock(u, s, t, j);
  }

  // With nobody inside, every lock is free.
  lemma OutsideCanStep(u: Setup, s: State, t: nat) returns (act: Action, s': State)
    requires SetupOk(u) && Holders(u, s) && t < |s.pcs| && s.pcs[t].Loop? && s.pcs[t].j < |u.keys|
    requires forall x :: 0 <= x < |s.pcs| ==> s.pcs[x].Loop?
    ensures Step(u, s, act, s') && s'.pcs == s.pcs[t := s'.pcs[t]] && Work(|u.keys|, s'.pcs[t]) < Work(|u.keys|, s.pcs[t])
  {
    hide KeyBucket;
    var j := s.pcs[t].j;
    assert HolderOk(u, s, LockOf(u.mode, BucketOf(u, j)));
    act, s' := Lock(t, j), DoLock(u, s, t, j);
  }

  lemma SomeoneCanStep(u: Setup, s: State) returns (act: Action, s': State)
    requires Inv(u, s) && Holders(u, s) && !AllJoined(u, s)
    ensures Step(u, s, act, s') && AllWork(|u.keys|, s'.pcs) < AllWork(|u.keys|, s.pcs)
  {
    hide KeyBucket, Step, Holders, Entries, Heads, Progress, Locks, Safe, Readers, Work;
    var t: nat;
    if x: nat :| x < |s.pcs| && !s.pcs[x].Loop? {
      t := x;
      assert PcOk(u, s.nodes, s.chain, t, s.pcs[t]);
      act, s' := InsideCanStep(u, s, t);
    } else {
      t :| t < |s.pcs| && s.pcs[t].j < |u.keys|;
      act, s' := OutsideCanStep(u, s, t);
    }
    LessWork(|u.keys|, s.pcs, t, s'.pcs[t]);
  }

  lemma RunGrows(u: Setup, states: seq<State>, acts: seq<Action>, act: Action, s': State)
    requires Run(u, states, acts) && Step(u, states[|acts|], act, s')
    ensures Run(u, states + [s'], acts + [act])
  {
    hide Step, Init;
  }

  // Every run, in all three programs, can be continued until main() gets past its barrier.
  lemma {:induction false} PutPhaseCanFinish(u: Setup, states: seq<State>, acts: seq<Action>)
    returns (more: seq<State>, steps: seq<Action>)
    requires Run(u, states, acts)
    ensures |more| == |steps| && Run(u, states + more, acts + steps)
    ensures AllJoined(u, (states + more)[|acts| + |steps|])
    decreases AllWork(|u.keys|, states[|acts|].pcs)
  {
    hide Inv, Step, Init, Holders, AllJoined, AllWork;
    var s := states[|acts|];
    if AllJoined(u, s) {
      more, steps := [], [];
      assert states + more == states && acts + steps == acts;
    } else {
      RunKeepsInv(u, states, acts, |acts|);
      RunKeepsHolders(u, states, acts, |acts|);
      var act, s' := SomeoneCanStep(u, s);
      RunGrows(u, states, acts, act, s');
      var more', steps' := PutPhaseCanFinish(u, states + [s'], acts + [act]);
      more, steps := [s'] + more', [act] + steps';
      assert states + more == states + [s'] + more' && acts + steps == acts + [act] + steps';
    }
  }
}

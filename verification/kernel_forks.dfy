// The steps of the kernel model that create, abandon, orphan and reap processes keep its invariant.
module KernelForks {
  import opened Util
  import opened ProcTable
  import opened Kernel
  import opened Forest
  import opened KernelInv
  import opened KernelSteps

  /* wait reaps */

  // What reaping a zombie finds: its thread has left its stack for good.
  lemma ZombieIsGone(ps: Table, ts: seq<Thread>, cpus: seq<Cpu>, lock: Option<nat>, p: nat, z: nat)
    requires Threads(ps, ts) && Cpus(ps, ts, cpus, lock) && LockFor(cpus, lock, p)
    requires z != p && z < |ps| && ps[z].state == ZOMBIE
    ensures ts[z] == Saved(InExit) && !OnSome(cpus, z)
  {
    OffCpu(ps, ts, cpus, lock, p, z);
    assert ThreadOk(ps[z], ts[z], z);
  }

  ghost predicate Reapable(s: State, p: nat, z: nat) {
    Inv(s) && s.lock == None && p != z && p < |s.procs| && z < |s.procs| && s.procs[z].state == ZOMBIE
  }

  lemma ReapKeepsThreads(s: State, p: nat, z: nat)
    requires Reapable(s, p, z)
    ensures Threads(ReapTable(s.procs, z), s.threads[z := NoThread])
  {
  }

  lemma ReapKeepsForks(s: State, p: nat, z: nat)
    requires Reapable(s, p, z)
    ensures Forks(ReapTable(s.procs, z), s.threads[z := NoThread])
  {
    ZombieIsGone(s.procs, s.threads, s.cpus, s.lock, p, z);
    ForkFrameKeeps(s.procs, s.threads, ReapTable(s.procs, z), s.threads[z := NoThread]);
  }

  lemma ReapKeepsCpus(s: State, p: nat, z: nat)
    requires Reapable(s, p, z)
    ensures Cpus(ReapTable(s.procs, z), s.threads[z := NoThread], s.cpus, s.lock)
  {
    ZombieIsGone(s.procs, s.threads, s.cpus, s.lock, p, z);
    CpusFrame(s.procs, s.threads, ReapTable(s.procs, z), s.threads[z := NoThread], s.cpus, s.lock);
  }

  lemma ReapKeepsWakeups(s: State, p: nat, z: nat)
    requires Reapable(s, p, z)
    ensures Wakeups(ReapTable(s.procs, z), s.threads[z := NoThread], s.lks, s.data)
  {
    ZombieIsGone(s.procs, s.threads, s.cpus, s.lock, p, z);
    WakeupsFrame(s.procs, s.threads, ReapTable(s.procs, z), s.threads[z := NoThread], s.lks, s.data);
  }

  lemma WaitReapKeeps(s: State, c: nat, p: nat, z: nat)
    requires Inv(s) && CanWait(s, c, p) && WaitDecision(WaitView(s, p), p) == Reap(z)
    ensures Inv(DoWait(s, c, p))
    ensures z != p
  {
    var r := Returned(s, c, p);
    OnProcFacts(s, c, p);
    ReturnKeeps(s, c, p);
    assert Matches(r.procs[z], ZombieOf(p));
    ReapKeepsThreads(r, p, z);
    ReapKeepsForks(r, p, z);
    ReapKeepsCpus(r, p, z);
    ReapKeepsWakeups(r, p, z);
    ReapKeeps(r.procs, z, p, r.nextpid);
    ReapHistory(r.procs, z, r.procs[p].pid, r.nextpid, r.exited, r.reaped, r.failed);
  }

  lemma WaitKeeps(s: State, c: nat, p: nat)
    requires Inv(s) && CanWait(s, c, p)
    ensures Inv(DoWait(s, c, p))
  {
    match WaitDecision(WaitView(s, p), p)
    case Reap(z) => WaitReapKeeps(s, c, p, z);
    case Fail => ReturnKeeps(s, c, p);
    case Block => WaitBlockKeeps(s, c, p);
  }

  /* exit */

  // The exiting process is not in the middle of a fork.
  lemma ExitForkFrame(s: State, c: nat, p: nat, i: nat)
    requires Inv(s) && CanExit(s, c, p) && i < |s.procs|
    ensures var s' := DoExit(s, c, p); ForkFrame(s.procs[i], s.threads[i], s'.procs[i], s'.threads[i])
  {
    OnProcFacts(s, c, p);
    assert ExitTable(s.procs, p)[i] == ExitSlot(s.procs, p, i);
    assert !Owns(s.threads, p, i);
  }

  lemma ExitRouses(s: State, c: nat, p: nat, i: nat)
    requires CanExit(s, c, p) && i < |s.procs| && i != p
    ensures Roused(s.procs[i], ExitTable(s.procs, p)[i])
  {
    assert ExitTable(s.procs, p)[i] == ExitSlot(s.procs, p, i);
  }

  lemma ExitKeepsThreads(s: State, c: nat, p: nat)
    requires Inv(s) && CanExit(s, c, p)
    ensures var s' := DoExit(s, c, p); Threads(s'.procs, s'.threads) && Forks(s'.procs, s'.threads)
  {
    var s' := DoExit(s, c, p);
    FreeMeansNoneLeaving(s);
    forall i | 0 <= i < |s.procs| ensures ForkFrame(s.procs[i], s.threads[i], s'.procs[i], s'.threads[i]) {
      ExitForkFrame(s, c, p, i);
    }
    ForkFrameKeeps(s.procs, s.threads, s'.procs, s'.threads);
    forall i | 0 <= i < |s.procs| ensures ThreadOk(s'.procs[i], s'.threads[i], i) {
      assert ThreadOk(s.procs[i], s.threads[i], i);
      if i != p { ExitRouses(s, c, p, i); }
    }
  }

  lemma ExitKeepsCpus(s: State, c: nat, p: nat)
    requires Inv(s) && CanExit(s, c, p)
    ensures var s' := DoExit(s, c, p); Cpus(s'.procs, s'.threads, s'.cpus, s'.lock)
  {
    var s' := DoExit(s, c, p);
    OnProcFacts(s, c, p);
    forall i | 0 <= i < |s.procs| && i != p ensures SameShape(s.procs[i], s.threads[i], s'.procs[i], s'.threads[i]) {
      ExitRouses(s, c, p, i);
    }
    assert s.cpus == s.cpus[c := s.cpus[c]];
    CpuMove(s.procs, s.threads, s'.procs, s'.threads, s.cpus, s.lock, s.cpus[c], Some(c), c, p);
  }

  lemma ExitKeepsWakeups(s: State, c: nat, p: nat)
    requires Inv(s) && CanExit(s, c, p)
    ensures var s' := DoExit(s, c, p); Wakeups(s'.procs, s'.threads, s'.lks, s'.data)
  {
    var s' := DoExit(s, c, p);
    OnProcFacts(s, c, p);
    HoldersSurvive(s, p, Leaving(InExit));
    forall i | 0 <= i < |s.procs| && i != p ensures s'.procs[i].state == SLEEPING ==> s.procs[i].state == SLEEPING {
      ExitRouses(s, c, p, i);
    }
    AwakeKeepsWakeups(s, s'.procs, s'.threads, p);
  }

  lemma ExitStepKeeps(s: State, c: nat, p: nat)
    requires Inv(s) && CanExit(s, c, p)
    ensures Inv(DoExit(s, c, p))
  {
    OnProcFacts(s, c, p);
    ExitKeeps(s.procs, p, s.nextpid);
    ExitKeepsThreads(s, c, p);
    ExitKeepsCpus(s, c, p);
    ExitKeepsWakeups(s, c, p);
    ExitHistory(s.procs, p, s.nextpid, s.exited, s.reaped, s.failed);
  }

  /* fork */

  // The slot "np" becomes "q" with its thread at "u" while its forker "p" runs on.
  ghost predicate ForkStep(s: State, c: nat, p: nat, np: nat, q: Proc, u: Thread) {
    && Sizes(s) && OnProc(s, c, p) && s.threads[p].Running?
    && np < |s.procs| && np != p
    && Dormant(s.procs[np]) && ThreadOk(q, u, np) && !OnStack(u) && q.state != RUNNING && q.state != SLEEPING
  }

  lemma ForkStepKeepsCpus(s: State, c: nat, p: nat, np: nat, q: Proc, u: Thread, ctl: Ctl)
    requires Inv(s) && ForkStep(s, c, p, np, q, u)
    ensures Cpus(s.procs[np := q], s.threads[p := Running(ctl)][np := u], s.cpus, s.lock)
  {
    DormantOffCpu(s.procs, s.threads, s.cpus, s.lock, np);
    CpusFrame(s.procs, s.threads, s.procs[np := q], s.threads[p := Running(ctl)][np := u], s.cpus, s.lock);
  }

  lemma ForkStepKeepsWakeups(s: State, c: nat, p: nat, np: nat, q: Proc, u: Thread, ctl: Ctl)
    requires Inv(s) && ForkStep(s, c, p, np, q, u)
    ensures Wakeups(s.procs[np := q], s.threads[p := Running(ctl)][np := u], s.lks, s.data)
  {
    assert ThreadOk(s.procs[np], s.threads[np], np);
    assert ThreadOk(s.procs[p], s.threads[p], p);
    WakeupsFrame(s.procs, s.threads, s.procs[np := q], s.threads[p := Running(ctl)][np := u], s.lks, s.data);
  }

  lemma ForkStepKeepsThreads(s: State, c: nat, p: nat, np: nat, q: Proc, u: Thread, ctl: Ctl)
    requires Inv(s) && ForkStep(s, c, p, np, q, u)
    ensures Threads(s.procs[np := q], s.threads[p := Running(ctl)][np := u])
  {
    assert ThreadOk(s.procs[p], s.threads[p], p);
  }

  lemma ForkStepKeeps(s: State, c: nat, p: nat, np: nat, q: Proc, u: Thread, ctl: Ctl)
    requires Inv(s) && ForkStep(s, c, p, np, q, u)
    ensures Threads(s.procs[np := q], s.threads[p := Running(ctl)][np := u])
    ensures Cpus(s.procs[np := q], s.threads[p := Running(ctl)][np := u], s.cpus, s.lock)
    ensures Wakeups(s.procs[np := q], s.threads[p := Running(ctl)][np := u], s.lks, s.data)
  {
    ForkStepKeepsThreads(s, c, p, np, q, u, ctl);
    ForkStepKeepsCpus(s, c, p, np, q, u, ctl);
    ForkStepKeepsWakeups(s, c, p, np, q, u, ctl);
  }

  // The forker owns the slot it names and nobody else does.
  lemma OwnerFacts(s: State, c: nat, p: nat, np: nat)
    requires Inv(s) && OnProc(s, c, p) && s.threads[p].Running? && Owns(s.threads, p, np)
    ensures OwnOk(s.procs, s.threads, p, np) && np != p
    ensures forall r: nat :: Owns(s.threads, r, np) ==> r == p
    ensures s.procs[p].state == RUNNING
  {
    OnProcFacts(s, c, p);
  }

  // Owners other than "p" own what they owned, and "p" owns what its new position says.
  lemma ForksMove(ps: Table, ts: seq<Thread>, p: nat, np: nat, q: Proc, u: Thread, ctl: Ctl)
    requires Forks(ps, ts) && p < |ps| && np < |ps| && np != p && ts[p].Running?
    requires CtlOf(ts[np]) == User && CtlOf(u) == User
    requires forall r: nat, n: nat :: Owns(ts, r, n) && (r == p || n == np) ==> r == p && n == np
    requires ctl == User || ctl == ForkAlloc(np) || ctl == ForkStack(np) || ctl == ForkParent(np)
    requires ctl != User ==> OwnOk(ps[np := q], ts[p := Running(ctl)][np := u], p, np)
    requires ctl == User ==> q.state != EMBRYO || q.parent == None
    ensures Forks(ps[np := q], ts[p := Running(ctl)][np := u])
  {
    var qs, us := ps[np := q], ts[p := Running(ctl)][np := u];
    forall r: nat, n: nat | Owns(us, r, n) ensures OwnOk(qs, us, r, n) && (r == p <==> n == np) {
      if r != p {
        assert Owns(ts, r, n);
        assert OwnOk(ps, ts, r, n);
        OwnerIsNotOwned(ps, ts, r, n, p);
      }
    }
    forall r1: nat, r2: nat, n: nat | Owns(us, r1, n) && Owns(us, r2, n) ensures r1 == r2 {
      if n != np {
        assert Owns(ts, r1, n) && Owns(ts, r2, n);
      }
    }
    forall i | 0 <= i < |qs| && qs[i].state == EMBRYO && qs[i].parent.Some? ensures Owns(us, qs[i].parent.value, i) {
      if i != np {
        assert Owns(ts, ps[i].parent.value, i);
      }
    }
  }

  // A slot that is being filled in has no running thread.
  lemma OwnerIsNotOwned(ps: Table, ts: seq<Thread>, r: nat, n: nat, p: nat)
    requires Forks(ps, ts) && Owns(ts, r, n) && p < |ts| && ts[p].Running?
    ensures n != p
  {
    assert OwnOk(ps, ts, r, n);
  }

  lemma AllocStepKeeps(s: State, c: nat, p: nat)
    requires Inv(s) && CanAlloc(s, c, p)
    ensures Inv(DoAlloc(s, c, p))
  {
    var np := FindUnused(s.procs).value;
    var q := AllocTable(s.procs, np, s.nextpid)[np];
    OnProcFacts(s, c, p);
    assert Matches(s.procs[np], Unused);
    assert ThreadOk(s.procs[np], s.threads[np], np);
    assert s.threads[p := Running(ForkAlloc(np))] == s.threads[p := Running(ForkAlloc(np))][np := NoThread];
    ForkStepKeeps(s, c, p, np, q, NoThread, ForkAlloc(np));
    AllocKeeps(s.procs, np, s.nextpid);
    AllocHistory(s.procs, np, s.nextpid, s.exited, s.reaped, s.failed);
    assert s.procs[np].parent == None;
    ForksMove(s.procs, s.threads, p, np, q, NoThread, ForkAlloc(np));
  }

  // The forker's move as the invariant of forks sees it.
  lemma OwnerMoves(s: State, c: nat, p: nat, np: nat, q: Proc, u: Thread, ctl: Ctl)
    requires Inv(s) && OnProc(s, c, p) && s.threads[p].Running? && Owns(s.threads, p, np)
    requires q.pid == s.procs[np].pid && CtlOf(u) == User
    requires ctl == User || ctl == ForkStack(np) || ctl == ForkParent(np)
    requires ctl == User ==> q.state != EMBRYO
    requires ctl != User ==> q.state == EMBRYO && u == Saved(AtForkret) && q.parent == (if ctl == ForkParent(np) then Some(p) else None)
    ensures np < |s.procs| && Forks(s.procs[np := q], s.threads[p := Running(ctl)][np := u])
  {
    OwnerFacts(s, c, p, np);
    ForksMove(s.procs, s.threads, p, np, q, u, ctl);
  }

  // What fork() knows of its slot, for the other parts of the invariant.
  lemma OwnedSlot(s: State, c: nat, p: nat, np: nat)
    requires Inv(s) && OnProc(s, c, p) && s.threads[p].Running? && Owns(s.threads, p, np)
    ensures np < |s.procs| && np != p && s.procs[np].state == EMBRYO
    ensures s.procs[p].state == RUNNING && s.procs[p].pid < s.procs[np].pid
    ensures s.procs[np].parent == (if s.threads[p].ctl == ForkParent(np) then Some(p) else None)
    ensures s.threads[np] == (if s.threads[p].ctl == ForkAlloc(np) then NoThread else Saved(AtForkret))
  {
    OwnerFacts(s, c, p, np);
  }

  // Both failure paths of fork() end the same way.
  lemma AbandonStepKeeps(s: State, c: nat, p: nat, np: nat)
    requires Inv(s) && (CanKallocFail(s, c, p, np) || CanCopyFail(s, c, p, np))
    ensures Inv(s.(procs := SetState(s.procs, np, UNUSED), threads := s.threads[p := Running(User)][np := NoThread], failed := s.failed + 1))
  {
    var q := s.procs[np].(state := UNUSED);
    OwnedSlot(s, c, p, np);
    ForkStepKeeps(s, c, p, np, q, NoThread, User);
    AbandonKeeps(s.procs, np, s.nextpid);
    AbandonHistory(s.procs, np, s.nextpid, s.exited, s.reaped, s.failed);
    OwnerMoves(s, c, p, np, q, NoThread, User);
  }

  lemma KallocFailKeeps(s: State, c: nat, p: nat, np: nat)
    requires Inv(s) && CanKallocFail(s, c, p, np)
    ensures Inv(DoKallocFail(s, c, p, np))
  {
    OwnedSlot(s, c, p, np);
    AbandonStepKeeps(s, c, p, np);
    assert s.threads[p := Running(User)] == s.threads[p := Running(User)][np := NoThread];
  }

  lemma KallocOkKeeps(s: State, c: nat, p: nat, np: nat)
    requires Inv(s) && CanKallocOk(s, c, p, np)
    ensures Inv(DoKallocOk(s, c, p, np))
  {
    var u := Saved(AtForkret);
    OwnedSlot(s, c, p, np);
    assert s.procs[np := s.procs[np]] == s.procs;
    ForkStepKeeps(s, c, p, np, s.procs[np], u, ForkStack(np));
    OwnerMoves(s, c, p, np, s.procs[np], u, ForkStack(np));
  }

  lemma AdoptStepKeeps(s: State, c: nat, p: nat, np: nat)
    requires Inv(s) && CanAdopt(s, c, p, np)
    ensures Inv(DoAdopt(s, c, p, np))
  {
    var q, u := s.procs[np].(parent := Some(p)), s.threads[np];
    OwnedSlot(s, c, p, np);
    assert s.threads[p := Running(ForkParent(np))][np := u] == s.threads[p := Running(ForkParent(np))];
    ForkStepKeeps(s, c, p, np, q, u, ForkParent(np));
    AdoptKeeps(s.procs, np, p, s.nextpid);
    HistoryFrame(s.procs, s.procs[np := q], s.nextpid, s.exited, s.reaped, s.failed);
    OwnerMoves(s, c, p, np, q, u, ForkParent(np));
  }

  lemma ForkDoneKeeps(s: State, c: nat, p: nat, np: nat)
    requires Inv(s) && CanForkDone(s, c, p, np)
    ensures Inv(DoForkDone(s, c, p, np))
  {
    hide Wakeups, Cpus, Forks;
    var q, u := s.procs[np].(state := RUNNABLE), s.threads[np];
    OwnedSlot(s, c, p, np);
    assert s.threads[p := Running(User)][np := u] == s.threads[p := Running(User)];
    ForkStepKeeps(s, c, p, np, q, u, User);
    LaunchKeeps(s.procs, np, s.nextpid);
    HistoryFrame(s.procs, s.procs[np := q], s.nextpid, s.exited, s.reaped, s.failed);
    OwnerMoves(s, c, p, np, q, u, User);
  }

  /* Every step, every run */

  predicate Forking(act: Action) {
    act.Alloc? || act.KallocFail? || act.KallocOk? || act.CopyFail? || act.Adopt? || act.ForkDone?
  }

  lemma ForkingKeepsInv(s: State, act: Action, s': State)
    requires Inv(s) && Step(s, act, s') && Forking(act)
    ensures Inv(s')
  {
    hide Inv;
    match act
    case Alloc(c, p) => AllocStepKeeps(s, c, p);
    case KallocFail(c, p, np) => KallocFailKeeps(s, c, p, np);
    case KallocOk(c, p, np) => KallocOkKeeps(s, c, p, np);
    case CopyFail(c, p, np) => AbandonStepKeeps(s, c, p, np);
    case Adopt(c, p, np) => AdoptStepKeeps(s, c, p, np);
    case ForkDone(c, p, np) => ForkDoneKeeps(s, c, p, np);
  }

  predicate Switching(act: Action) {
    act.Schedule? || act.SwitchIn? || act.SwitchOut? || act.Release? || act.Resume? || act.Yield?
  }

  lemma SwitchingKeepsInv(s: State, act: Action, s': State)
    requires Inv(s) && Step(s, act, s') && Switching(act)
    ensures Inv(s')
  {
    hide Inv;
    match act
    case Schedule(c, r) => ScheduleKeeps(s, c, r);
    case SwitchIn(c, p) => SwitchInKeeps(s, c, p);
    case SwitchOut(c, p) => SwitchOutKeeps(s, c, p);
    case Release(c) => ReleaseKeeps(s, c);
    case Resume(c, p) => ResumeKeeps(s, c, p);
    case Yield(c, p) => YieldKeeps(s, c, p);
  }

  lemma StepKeepsInv(s: State, act: Action, s': State)
    requires Inv(s) && Step(s, act, s')
    ensures Inv(s')
  {
    hide Inv;
    if Forking(act) {
      ForkingKeepsInv(s, act, s');
    } else if Switching(act) {
      SwitchingKeepsInv(s, act, s');
    } else {
      match act
      case SleepLock(c, p, ch, want) => SleepLockKeeps(s, c, p, ch, want);
      case SleepUnlock(c, p) => SleepUnlockKeeps(s, c, p);
      case Sleep(c, p) => SleepKeeps(s, c, p);
      case Wait(c, p) => WaitKeeps(s, c, p);
      case Exit(c, p) => ExitStepKeeps(s, c, p);
      case Kill(c, p, pid) => KillKeeps(s, c, p, pid);
      case SetTicketsTo(c, p, t) => SetTicketsKeeps(s, c, p, t);
      case Acquire(a, ch) => AcquireKeeps(s, a, ch);
      case Write(a, ch, v, owes) => WriteKeeps(s, a, ch, v, owes);
      case Wakeup(a, ch) => WakeupKeeps(s, a, ch);
      case ReleaseLk(a, ch) => ReleaseLkKeeps(s, a, ch);
    }
  }

  lemma {:induction false} RunKeepsInv(states: seq<State>, acts: seq<Action>, n: nat)
    requires Run(states, acts) && n < |states|
    ensures Inv(states[n])
  {
    hide Inv, Step, Init;
    if n == 0 {
      InitInv(states[0]);
    } else {
      RunKeepsInv(states, acts, n - 1);
      StepKeepsInv(states[n - 1], acts[n - 1], states[n]);
    }
  }
}

// Every step of the kernel model keeps its invariant.
module KernelSteps {
  import opened Util
  import opened ProcTable
  import opened Kernel
  import opened Forest
  import opened KernelInv

  /* Steps that create, abandon, orphan or reap nobody */

  ghost predicate CalmSlot(p: Proc, q: Proc) {
    q.pid == p.pid && q.parent == p.parent && (q.state == p.state || (Alive(p) && Alive(q)))
  }

  // Slot "p" acts; other slots are at most roused, and that only when no thread is half-way out.
  ghost predicate Calm(ps: Table, ts: seq<Thread>, qs: Table, us: seq<Thread>, p: nat) {
    && |us| == |qs| == |ts| == |ps| && p < |ps|
    && (forall i :: 0 <= i < |ps| ==> CalmSlot(ps[i], qs[i]))
    && (forall i :: 0 <= i < |ps| && i != p ==> us[i] == ts[i] && Roused(ps[i], qs[i]))
    && (NoneLeaving(ts) || forall i :: 0 <= i < |ps| && i != p ==> qs[i] == ps[i])
    && ThreadOk(qs[p], us[p], p)
    && CtlOf(us[p]) == CtlOf(ts[p])
    && (ps[p].state == EMBRYO ==> us[p] == ts[p])
  }

  lemma CalmKeepsThreads(s: State, qs: Table, us: seq<Thread>, p: nat)
    requires Threads(s.procs, s.threads) && Calm(s.procs, s.threads, qs, us, p)
    ensures Threads(qs, us)
  {
  }

  lemma CalmKeepsForks(s: State, qs: Table, us: seq<Thread>, p: nat)
    requires Forks(s.procs, s.threads) && Calm(s.procs, s.threads, qs, us, p)
    ensures Forks(qs, us)
  {
    ForkFrameKeeps(s.procs, s.threads, qs, us);
  }

  lemma CalmKeepsHistory(s: State, qs: Table, us: seq<Thread>, p: nat)
    requires Calm(s.procs, s.threads, qs, us, p)
    requires History(s.procs, s.nextpid, s.exited, s.reaped, s.failed)
    ensures History(qs, s.nextpid, s.exited, s.reaped, s.failed)
  {
    HistoryFrame(s.procs, qs, s.nextpid, s.exited, s.reaped, s.failed);
  }

  lemma CalmKeeps(s: State, qs: Table, us: seq<Thread>, p: nat)
    requires Inv(s) && Calm(s.procs, s.threads, qs, us, p)
    ensures Threads(qs, us) && Forks(qs, us) && History(qs, s.nextpid, s.exited, s.reaped, s.failed)
  {
    CalmKeepsThreads(s, qs, us, p);
    CalmKeepsForks(s, qs, us, p);
    CalmKeepsHistory(s, qs, us, p);
  }

  // Nobody else falls asleep and slot "p" does not fall asleep on a data channel.
  lemma AwakeKeepsWakeups(s: State, qs: Table, us: seq<Thread>, p: nat)
    requires Inv(s) && |us| == |qs| == |s.procs| && p < |qs|
    requires forall i :: 0 <= i < |qs| && i != p ==> us[i] == s.threads[i] && (qs[i].state == SLEEPING ==> s.procs[i].state == SLEEPING)
    requires qs[p].state != SLEEPING || us[p] == Leaving(InWait) || AsBefore(s.procs[p], s.threads[p], qs[p], us[p])
    requires !us[p].AtSleep? && Owners(us, s.lks)
    ensures Wakeups(qs, us, s.lks, s.data)
  {
    forall i: nat, ch: nat, want: iset<int> | AsleepFor(qs, us, i, ch, want)
      ensures AsleepFor(s.procs, s.threads, i, ch, want)
    {
    }
    forall i: nat, ch: nat, want: iset<int> | AboutToSleep(us, i, ch, want) ensures AboutToSleep(s.threads, i, ch, want) {
    }
    WakeupsFrame(s.procs, s.threads, qs, us, s.lks, s.data);
  }

  ghost predicate AsBefore(p: Proc, t: Thread, q: Proc, u: Thread) {
    p.state == SLEEPING && match t case Leaving(k) => u == t || u == Saved(k) case _ => u == t
  }

  lemma HoldersSurvive(s: State, p: nat, t: Thread)
    requires Inv(s) && p < |s.threads| && (t.Running? || HoldsNone(s, p) || !(s.threads[p].Running? || s.threads[p].AtSleep?))
    ensures Owners(s.threads[p := t], s.lks)
  {
  }

  /* Steps that change one slot and one CPU */

  // The acting slot "p" becomes "q" with its thread at "t", while CPU "c" becomes "cpu".
  ghost predicate Move(s: State, c: nat, p: nat, q: Proc, t: Thread, cpu: Cpu, lock': Option<nat>)
    requires Sizes(s) && c < |s.cpus| && p < |s.procs|
  {
    && CalmSlot(s.procs[p], q) && ThreadOk(q, t, p) && CtlOf(t) == CtlOf(s.threads[p])
    && s.procs[p].state != EMBRYO
    && (s.cpus[c].proc == Some(p) || (s.cpus[c].proc == None && !OnSome(s.cpus, p)))
    && s.lock in {None, Some(c)} && lock' in {None, Some(c)}
    && CpuOk(s.procs[p := q], s.threads[p := t], s.cpus[c := cpu], lock', c) && (lock'.Some? ==> cpu.at != Top)
    && (cpu.proc == Some(p) || (cpu.proc == None && q.state != RUNNING && !OnStack(t)))
  }

  lemma MoveKeeps(s: State, c: nat, p: nat, q: Proc, t: Thread, cpu: Cpu, lock': Option<nat>)
    requires Inv(s) && c < |s.cpus| && p < |s.procs| && Move(s, c, p, q, t, cpu, lock')
    ensures Threads(s.procs[p := q], s.threads[p := t]) && Forks(s.procs[p := q], s.threads[p := t])
    ensures Cpus(s.procs[p := q], s.threads[p := t], s.cpus[c := cpu], lock')
    ensures History(s.procs[p := q], s.nextpid, s.exited, s.reaped, s.failed)
  {
    hide Forks, History;
    CalmKeeps(s, s.procs[p := q], s.threads[p := t], p);
    CpuMove(s.procs, s.threads, s.procs[p := q], s.threads[p := t], s.cpus, s.lock, cpu, lock', c, p);
  }

  lemma ShiftOne(ps: Table, p: nat, q: Proc, nextpid: int)
    requires TableInv(ps, nextpid) && p < |ps| && ShiftSlot(ps[p], q)
    ensures TableInv(ps[p := q], nextpid)
  {
    ShiftKeeps(ps, ps[p := q], nextpid);
  }

  lemma OneKeepsWakeups(s: State, p: nat, q: Proc, t: Thread)
    requires Inv(s) && p < |s.procs|
    requires q.state != SLEEPING || t == Leaving(InWait) || AsBefore(s.procs[p], s.threads[p], q, t)
    requires !t.AtSleep? && (t.Running? || HoldsNone(s, p) || !(s.threads[p].Running? || s.threads[p].AtSleep?))
    ensures Wakeups(s.procs[p := q], s.threads[p := t], s.lks, s.data)
  {
    HoldersSurvive(s, p, t);
    AwakeKeepsWakeups(s, s.procs[p := q], s.threads[p := t], p);
  }

  // With ptable.lock free, a RUNNABLE process has its context saved.
  lemma SavedWhenFree(s: State, p: nat)
    requires Inv(s) && s.lock == None && p < |s.procs| && s.procs[p].state == RUNNABLE
    ensures s.threads[p].Saved? && s.threads[p].k != InExit && !OnSome(s.cpus, p)
  {
    assert ThreadOk(s.procs[p], s.threads[p], p);
    OffCpu(s.procs, s.threads, s.cpus, s.lock, p, p);
  }

  // What holds of a process on a CPU.
  lemma OnProcFacts(s: State, c: nat, p: nat)
    requires Inv(s) && OnProc(s, c, p)
    ensures CpuOk(s.procs, s.threads, s.cpus, s.lock, c) && ThreadOk(s.procs[p], s.threads[p], p)
    ensures s.threads[p].Running? ==> s.procs[p].state == RUNNING && s.lock != Some(c)
    ensures s.threads[p].Entering? ==> s.procs[p].state == RUNNING && s.lock == Some(c)
    ensures s.threads[p].Leaving? ==> s.lock == Some(c)
    ensures s.threads[p].AtSleep? ==> s.procs[p].state == RUNNING && s.lock == Some(c)
  {
  }

  lemma ScheduleKeeps(s: State, c: nat, r: Option<nat>)
    requires Inv(s) && CanSchedule(s, c, r)
    ensures Inv(DoSchedule(s, c, r))
  {
    hide TableInv, Forks, History, Wakeups;
    if r.Some? {
      var p, q := r.value, s.procs[r.value].(state := RUNNING);
      SavedWhenFree(s, p);
      assert CpuOk(s.procs, s.threads, s.cpus, s.lock, c);
      assert ThreadOk(s.procs[p], s.threads[p], p);
      assert s.threads[p := s.threads[p]] == s.threads;
      ShiftOne(s.procs, p, q, s.nextpid);
      MoveKeeps(s, c, p, q, s.threads[p], Cpu(r, Picked), Some(c));
      OneKeepsWakeups(s, p, q, s.threads[p]);
    }
  }

  lemma SwitchInKeeps(s: State, c: nat, p: nat)
    requires Inv(s) && CanSwitchIn(s, c, p)
    ensures Inv(DoSwitchIn(s, c, p))
  {
    hide TableInv, Forks, History, Wakeups;
    var t := Entering(s.threads[p].k);
    assert CpuOk(s.procs, s.threads, s.cpus, s.lock, c);
    assert ThreadOk(s.procs[p], s.threads[p], p);
    assert s.procs[p := s.procs[p]] == s.procs;
    MoveKeeps(s, c, p, s.procs[p], t, Cpu(Some(p), InProc), s.lock);
    OneKeepsWakeups(s, p, s.procs[p], t);
  }

  lemma SwitchOutKeeps(s: State, c: nat, p: nat)
    requires Inv(s) && CanSwitchOut(s, c, p)
    ensures Inv(DoSwitchOut(s, c, p))
  {
    hide TableInv, Forks, History, Wakeups;
    var t := Saved(s.threads[p].k);
    OnProcFacts(s, c, p);
    assert s.procs[p := s.procs[p]] == s.procs;
    MoveKeeps(s, c, p, s.procs[p], t, Cpu(Some(p), Back), s.lock);
    OneKeepsWakeups(s, p, s.procs[p], t);
  }

  lemma ReleaseKeeps(s: State, c: nat)
    requires Inv(s) && CanRelease(s, c)
    ensures Inv(DoRelease(s, c))
  {
    assert CpuOk(s.procs, s.threads, s.cpus, s.lock, c);
    CpuMove(s.procs, s.threads, s.procs, s.threads, s.cpus, s.lock, Cpu(None, Top), None, c, s.cpus[c].proc.value);
  }

  lemma ResumeKeeps(s: State, c: nat, p: nat)
    requires Inv(s) && CanResume(s, c, p)
    ensures Inv(DoResume(s, c, p))
  {
    hide TableInv, Forks, History, Wakeups;
    var s' := DoResume(s, c, p);
    var q, t := s'.procs[p], s'.threads[p];
    OnProcFacts(s, c, p);
    assert s'.procs == s.procs[p := q] && s'.threads == s.threads[p := t] && s.cpus == s.cpus[c := s.cpus[c]];
    ShiftOne(s.procs, p, q, s.nextpid);
    MoveKeeps(s, c, p, q, t, s.cpus[c], None);
    OneKeepsWakeups(s, p, q, t);
  }

  /* yield, sleep */

  lemma YieldKeeps(s: State, c: nat, p: nat)
    requires Inv(s) && CanYield(s, c, p)
    ensures Inv(DoYield(s, c, p))
  {
    hide TableInv, Forks, History, Wakeups;
    var q, t := s.procs[p].(state := RUNNABLE), Leaving(InYield(s.threads[p].ctl));
    OnProcFacts(s, c, p);
    assert s.cpus == s.cpus[c := s.cpus[c]];
    ShiftOne(s.procs, p, q, s.nextpid);
    MoveKeeps(s, c, p, q, t, s.cpus[c], Some(c));
    OneKeepsWakeups(s, p, q, t);
  }

  // Inside sleep() the process is RUNNING until its last write.
  lemma AtSleepMoves(s: State, c: nat, p: nat, t: Thread)
    requires Inv(s) && OnProc(s, c, p) && t.AtSleep? && CtlOf(s.threads[p]) == User
    requires (s.threads[p].Running? && s.lock == None) || s.threads[p].AtSleep?
    ensures Threads(s.procs, s.threads[p := t]) && Forks(s.procs, s.threads[p := t])
    ensures Cpus(s.procs, s.threads[p := t], s.cpus, Some(c))
  {
    hide TableInv, Forks, History, Wakeups;
    OnProcFacts(s, c, p);
    assert s.procs[p := s.procs[p]] == s.procs && s.cpus == s.cpus[c := s.cpus[c]];
    MoveKeeps(s, c, p, s.procs[p], t, s.cpus[c], Some(c));
  }

  lemma SleepLockKeeps(s: State, c: nat, p: nat, ch: nat, want: iset<int>)
    requires Inv(s) && CanSleepLock(s, c, p, ch, want)
    ensures Inv(DoSleepLock(s, c, p, ch, want))
  {
    hide TableInv, Forks, History, Wakeups;
    AtSleepMoves(s, c, p, AtSleep(ch, want, false));
    SleepLockKeepsWakeups(s, c, p, ch, want);
  }

  // With ptable.lock taken, lk is still held and the condition still false.
  lemma SleepLockKeepsWakeups(s: State, c: nat, p: nat, ch: nat, want: iset<int>)
    requires Inv(s) && CanSleepLock(s, c, p, ch, want)
    ensures var s' := DoSleepLock(s, c, p, ch, want); Wakeups(s'.procs, s'.threads, s'.lks, s'.data)
  {
    var s' := DoSleepLock(s, c, p, ch, want);
    forall i: nat, l: nat, w: iset<int> | AsleepFor(s'.procs, s'.threads, i, l, w) ensures AsleepFor(s.procs, s.threads, i, l, w) {
    }
    forall i: nat, l: nat, w: iset<int> | AboutToSleep(s'.threads, i, l, w) && i != p ensures AboutToSleep(s.threads, i, l, w) {
    }
    assert forall l :: 0 <= l < |s.lks| && s.lks[l].Held? && s.lks[l].owner == Slot(p) ==> s.lks[ch := Free][l] == Free;
  }

  lemma SleepUnlockKeeps(s: State, c: nat, p: nat)
    requires Inv(s) && CanSleepUnlock(s, c, p)
    ensures Inv(DoSleepUnlock(s, c, p))
  {
    hide TableInv, Forks, History, Wakeups;
    OnProcFacts(s, c, p);
    AtSleepMoves(s, c, p, s.threads[p].(released := true));
    SleepUnlockKeepsWakeups(s, c, p);
  }

  // At the moment lk becomes free the condition is false; from then on the process counts as asleep.
  lemma SleepUnlockKeepsWakeups(s: State, c: nat, p: nat)
    requires Inv(s) && CanSleepUnlock(s, c, p)
    ensures var s' := DoSleepUnlock(s, c, p); Wakeups(s'.procs, s'.threads, s'.lks, s'.data)
  {
    var s' := DoSleepUnlock(s, c, p);
    var t := s.threads[p];
    assert AboutToSleep(s.threads, p, t.ch, t.want);
    forall i: nat, l: nat, w: iset<int> | AsleepFor(s'.procs, s'.threads, i, l, w)
      ensures l < |s'.lks| && (s'.data[l] in w ==> s'.lks[l].Held? && s'.lks[l].pending)
    {
      assert i != p ==> AsleepFor(s.procs, s.threads, i, l, w);
    }
    forall i: nat, l: nat, w: iset<int> | AboutToSleep(s'.threads, i, l, w)
      ensures l < |s'.lks| && s'.lks[l] == Held(Slot(i), false) && s'.data[l] !in w
    {
      assert AboutToSleep(s.threads, i, l, w);
    }
  }

  lemma SleepKeeps(s: State, c: nat, p: nat)
    requires Inv(s) && CanSleep(s, c, p)
    ensures Inv(DoSleep(s, c, p))
  {
    hide TableInv, Forks, History, Wakeups;
    var q, t := s.procs[p].(chan := Other(s.threads[p].ch), state := SLEEPING), Leaving(InSleep(s.threads[p].ch, s.threads[p].want));
    OnProcFacts(s, c, p);
    assert s.cpus == s.cpus[c := s.cpus[c]];
    ShiftOne(s.procs, p, q, s.nextpid);
    MoveKeeps(s, c, p, q, t, s.cpus[c], Some(c));
    SleepKeepsWakeups(s, c, p);
  }

  // What happened between the release of lk and the write of SLEEPING is not forgotten by it.
  lemma SleepKeepsWakeups(s: State, c: nat, p: nat)
    requires Inv(s) && CanSleep(s, c, p)
    ensures var s' := DoSleep(s, c, p); Wakeups(s'.procs, s'.threads, s'.lks, s'.data)
  {
    var s' := DoSleep(s, c, p);
    forall i: nat, l: nat, w: iset<int> | AsleepFor(s'.procs, s'.threads, i, l, w) ensures AsleepFor(s.procs, s.threads, i, l, w) {
    }
    forall i: nat, l: nat, w: iset<int> | AboutToSleep(s'.threads, i, l, w) ensures AboutToSleep(s.threads, i, l, w) {
    }
    HoldersSurvive(s, p, s'.threads[p]);
    WakeupsFrame(s.procs, s.threads, s'.procs, s'.threads, s.lks, s.data);
  }

  /* settickets, kill and wakeup leave every thread where it is */

  lemma RousingKeepsCpus(s: State, qs: Table)
    requires Inv(s) && |qs| == |s.procs|
    requires forall i :: 0 <= i < |qs| ==> Roused(s.procs[i], qs[i])
    ensures Cpus(qs, s.threads, s.cpus, s.lock)
  {
    forall c | 0 <= c < |s.cpus| ensures CpuOk(qs, s.threads, s.cpus, s.lock, c) {
      assert CpuOk(s.procs, s.threads, s.cpus, s.lock, c);
    }
  }

  lemma RousingKeepsWakeups(s: State, qs: Table)
    requires Inv(s) && |qs| == |s.procs|
    requires forall i :: 0 <= i < |qs| ==> Roused(s.procs[i], qs[i])
    ensures Wakeups(qs, s.threads, s.lks, s.data)
  {
    WakeupsFrame(s.procs, s.threads, qs, s.threads, s.lks, s.data);
  }

  lemma RousingKeepsThread(s: State, qs: Table)
    requires Inv(s) && |qs| == |s.procs|
    requires forall i :: 0 <= i < |qs| ==> CalmSlot(s.procs[i], qs[i]) && Roused(s.procs[i], qs[i])
    requires NoneLeaving(s.threads) || forall i :: 0 <= i < |qs| ==> qs[i].state == s.procs[i].state
    ensures Threads(qs, s.threads)
  {
    forall i | 0 <= i < |qs| ensures ThreadOk(qs[i], s.threads[i], i) {
      assert ThreadOk(s.procs[i], s.threads[i], i);
    }
  }

  lemma RousingKeepsForks(s: State, qs: Table)
    requires Inv(s) && |qs| == |s.procs|
    requires forall i :: 0 <= i < |qs| ==> CalmSlot(s.procs[i], qs[i])
    ensures Forks(qs, s.threads)
    ensures History(qs, s.nextpid, s.exited, s.reaped, s.failed)
  {
    ForkFrameKeeps(s.procs, s.threads, qs, s.threads);
    HistoryFrame(s.procs, qs, s.nextpid, s.exited, s.reaped, s.failed);
  }

  lemma RousingKeeps(s: State, qs: Table)
    requires Inv(s) && |qs| == |s.procs| && TableInv(qs, s.nextpid)
    requires forall i :: 0 <= i < |qs| ==> CalmSlot(s.procs[i], qs[i]) && Roused(s.procs[i], qs[i])
    requires NoneLeaving(s.threads) || forall i :: 0 <= i < |qs| ==> qs[i].state == s.procs[i].state
    ensures Inv(s.(procs := qs))
  {
    RousingKeepsCpus(s, qs);
    RousingKeepsWakeups(s, qs);
    RousingKeepsThread(s, qs);
    RousingKeepsForks(s, qs);
  }

  lemma SetTicketsKeeps(s: State, c: nat, p: nat, t: int32)
    requires Inv(s) && CanSetTickets(s, c, p)
    ensures Inv(DoSetTickets(s, c, p, t))
  {
    ShiftOne(s.procs, p, s.procs[p].(tickets := t), s.nextpid);
    RousingKeeps(s, SetTickets(s.procs, p, t));
  }

  // Nobody is half-way out, or half-way asleep, while the lock is free.
  lemma FreeMeansNoneLeaving(s: State)
    requires Inv(s) && s.lock == None
    ensures NoneLeaving(s.threads)
    ensures forall i :: 0 <= i < |s.threads| ==> !s.threads[i].AtSleep?
  {
    forall i | 0 <= i < |s.threads| ensures !s.threads[i].Leaving? && !s.threads[i].AtSleep? {
      if OnSome(s.cpus, i) {
        OnCpuRuns(s.procs, s.threads, s.cpus, s.lock, i, i);
      }
    }
  }

  lemma KillKeeps(s: State, c: nat, p: nat, pid: int)
    requires Inv(s) && CanKill(s, c, p)
    ensures Inv(DoKill(s, c, p, pid))
  {
    KillShifts(s.procs, pid);
    ShiftKeeps(s.procs, KillTable(s.procs, pid), s.nextpid);
    FreeMeansNoneLeaving(s);
    RousingKeeps(s, KillTable(s.procs, pid));
  }

  lemma WakeKeeps(s: State, chan: Chan)
    requires Inv(s) && s.lock == None
    ensures Inv(s.(procs := WakeTable(s.procs, chan)))
  {
    WakeShifts(s.procs, chan);
    ShiftKeeps(s.procs, WakeTable(s.procs, chan), s.nextpid);
    FreeMeansNoneLeaving(s);
    RousingKeeps(s, WakeTable(s.procs, chan));
  }

  /* Other locks */

  lemma AcquireKeeps(s: State, a: Agent, ch: nat)
    requires Inv(s) && CanAcquire(s, a, ch)
    ensures Inv(DoAcquire(s, a, ch))
  {
  }

  // Nobody else can act on a lock that a process in sleep() has not released yet.
  lemma HolderIsNotAboutToSleep(s: State, a: Agent, ch: nat)
    requires Wakeups(s.procs, s.threads, s.lks, s.data) && HoldsLk(s, a, ch)
    ensures forall i: nat, l: nat, w: iset<int> :: AboutToSleep(s.threads, i, l, w) ==> l != ch
  {
  }

  lemma WriteKeepsWakeups(s: State, a: Agent, ch: nat, v: int, owes: bool)
    requires Wakeups(s.procs, s.threads, s.lks, s.data) && CanWrite(s, a, ch, v, owes)
    ensures var s' := DoWrite(s, a, ch, v, owes); Wakeups(s'.procs, s'.threads, s'.lks, s'.data)
  {
    HolderIsNotAboutToSleep(s, a, ch);
  }

  lemma WriteKeeps(s: State, a: Agent, ch: nat, v: int, owes: bool)
    requires Inv(s) && CanWrite(s, a, ch, v, owes)
    ensures Inv(DoWrite(s, a, ch, v, owes))
  {
    WriteKeepsWakeups(s, a, ch, v, owes);
  }

  lemma ReleaseLkKeeps(s: State, a: Agent, ch: nat)
    requires Inv(s) && CanReleaseLk(s, a, ch)
    ensures Inv(DoReleaseLk(s, a, ch))
  {
    HolderIsNotAboutToSleep(s, a, ch);
  }

  // After wakeup() nobody is asleep on the channel, because nobody is in the middle of sleep() while
  // the waker holds ptable.lock.
  lemma WokenUp(s: State, ch: nat, i: nat, l: nat, w: iset<int>)
    requires Inv(s) && s.lock == None && AsleepFor(WakeTable(s.procs, Other(ch)), s.threads, i, l, w)
    ensures l != ch
  {
    FreeMeansNoneLeaving(s);
    assert ThreadOk(s.procs[i], s.threads[i], i);
    assert WakeTable(s.procs, Other(ch))[i] == WakeSlot(s.procs[i], Other(ch));
  }

  lemma WakeupKeeps(s: State, a: Agent, ch: nat)
    requires Inv(s) && CanWakeup(s, a, ch)
    ensures Inv(DoWakeup(s, a, ch))
  {
    hide TableInv, Threads, Forks, Cpus, History;
    var r := s.(procs := WakeTable(s.procs, Other(ch)));
    WakeKeeps(s, Other(ch));
    HolderIsNotAboutToSleep(s, a, ch);
    forall i: nat, l: nat, w: iset<int> | AsleepFor(r.procs, r.threads, i, l, w) ensures l != ch {
      WokenUp(s, ch, i, l, w);
    }
  }

  /* wait */

  // wait() returns: the acting process goes on, and the lock is free.
  ghost function Returned(s: State, c: nat, p: nat): State
    requires CanWait(s, c, p)
  {
    s.(procs := WaitView(s, p), threads := s.threads[p := Running(User)], lock := None)
  }

  lemma ReturnKeeps(s: State, c: nat, p: nat)
    requires Inv(s) && CanWait(s, c, p)
    ensures Inv(Returned(s, c, p))
  {
    hide TableInv, Forks, History, Wakeups;
    var q, t := WaitView(s, p)[p], Running(User);
    OnProcFacts(s, c, p);
    assert WaitView(s, p) == s.procs[p := q] && s.cpus == s.cpus[c := s.cpus[c]];
    ShiftOne(s.procs, p, q, s.nextpid);
    MoveKeeps(s, c, p, q, t, s.cpus[c], None);
    OneKeepsWakeups(s, p, q, t);
  }

  lemma WaitBlockKeepsTable(s: State, c: nat, p: nat)
    requires Inv(s) && CanWait(s, c, p) && WaitDecision(WaitView(s, p), p) == Block
    ensures TableInv(SleepTable(WaitView(s, p), p, ProcAddr(p)), s.nextpid)
  {
    var ps := WaitView(s, p);
    OnProcFacts(s, c, p);
    assert ps == s.procs[p := ps[p]];
    ShiftOne(s.procs, p, ps[p], s.nextpid);
    BlockKeeps(ps, p, s.nextpid);
  }

  lemma WaitBlockKeeps(s: State, c: nat, p: nat)
    requires Inv(s) && CanWait(s, c, p) && WaitDecision(WaitView(s, p), p) == Block
    ensures Inv(DoWait(s, c, p))
  {
    hide TableInv, Forks, History, Wakeups, WaitDecision;
    var q, t := s.procs[p].(chan := ProcAddr(p), state := SLEEPING), Leaving(InWait);
    OnProcFacts(s, c, p);
    assert SleepTable(WaitView(s, p), p, ProcAddr(p)) == s.procs[p := q] && s.cpus == s.cpus[c := s.cpus[c]];
    WaitBlockKeepsTable(s, c, p);
    MoveKeeps(s, c, p, q, t, s.cpus[c], Some(c));
    OneKeepsWakeups(s, p, q, t);
  }
}

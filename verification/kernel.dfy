// hw3/proc.c and hw3/sysproc.c as an interleaving of processes, CPUs and interrupt handlers.
//
// A state holds the process table, where the kernel thread of each process is, what each CPU is
// doing, who holds ptable.lock, and the other spinlocks with the data they protect. A step is one
// critical section, cut at each swtch(), or one write that the code makes outside the lock. sleep() is
// cut where it releases lk, since others may take lk from there on.
module Kernel {
  import opened Util
  import opened ProcTable
  import L = Lottery

  // Where a process is between two critical sections. fork() can be preempted, holding a new slot.
  datatype Ctl =
    | User
    | ForkAlloc(np: nat)   // allocproc() has claimed np
    | ForkStack(np: nat)   // np has a kernel stack
    | ForkParent(np: nat)  // np->parent is set

  // What a process does when it comes back from swtch() in sched().
  datatype Cont =
    | InYield(ctl: Ctl)
    | InSleep(ch: nat, want: iset<int>)  // sleep() on Other(ch), until the data is in "want"
    | InWait                             // sleep() called by wait()
    | AtForkret
    | InExit

  datatype Thread =
    | NoThread
    | Running(ctl: Ctl)
    | Leaving(k: Cont)   // holds ptable.lock, state written, about to swtch() to the scheduler
    | Saved(k: Cont)     // context saved on its kernel stack
    | Entering(k: Cont)  // holds ptable.lock, just back from swtch()
    | AtSleep(ch: nat, want: iset<int>, released: bool)  // in sleep(), holds ptable.lock, and lk until released

  datatype Where =
    | Top     // in scheduler(), not holding the lock
    | Picked  // in scheduler(), about to swtch() to proc
    | InProc  // running the kernel thread of proc
    | Back    // in scheduler(), just back from swtch()

  datatype Cpu = Cpu(proc: Option<nat>, at: Where)

  datatype Agent = Slot(i: nat) | Interrupt(id: nat)

  // A spinlock other than ptable.lock. "pending" says that its holder has made an awaited condition
  // true and has not called wakeup() yet.
  datatype Lk = Free | Held(owner: Agent, pending: bool)

  datatype State = State(
    procs: Table,
    nextpid: int,
    threads: seq<Thread>,
    cpus: seq<Cpu>,
    lock: Option<nat>,      // the CPU holding ptable.lock
    lks: seq<Lk>,
    data: seq<int>,
    exited: set<int>,       // pids that have called exit()
    reaped: map<int, int>,  // pids wait() has returned, with the pid it returned them to
    failed: nat)            // slots allocproc() or fork() gave up

  ghost predicate Sizes(s: State) {
    && INIT < |s.procs| == |s.threads|
    && |s.lks| == |s.data|
  }

  // After userinit().
  ghost predicate Init(s: State) {
    && Sizes(s)
    && s.procs[INIT] == FREE_SLOT.(state := RUNNABLE, pid := 1, tickets := MAGIC_TICKET_NUM)
    && s.threads[INIT] == Saved(AtForkret)
    && (forall i :: 0 <= i < |s.procs| && i != INIT ==> s.procs[i] == FREE_SLOT && s.threads[i] == NoThread)
    && (forall c :: 0 <= c < |s.cpus| ==> s.cpus[c] == Cpu(None, Top))
    && (forall l :: 0 <= l < |s.lks| ==> s.lks[l] == Free)
    && s.nextpid == 2
    && s.lock == None
    && s.exited == {} && s.reaped == map[] && s.failed == 0
  }

  /* Guards */

  // CPU "c" is running the kernel thread of process "p".
  ghost predicate OnProc(s: State, c: nat, p: nat) {
    && Sizes(s)
    && c < |s.cpus| && s.cpus[c] == Cpu(Some(p), InProc)
    && p < |s.procs|
  }

  ghost predicate At(s: State, c: nat, p: nat, ctl: Ctl) {
    OnProc(s, c, p) && s.threads[p] == Running(ctl)
  }

  // As cpu->ncli == 1 in sched(): no lock but ptable.lock.
  ghost predicate HoldsNone(s: State, p: nat) {
    forall l :: 0 <= l < |s.lks| && s.lks[l].Held? ==> s.lks[l].owner != Slot(p)
  }

  // Past the release of lk in sleep(): about to become SLEEPING, or SLEEPING.
  ghost predicate AsleepFor(ps: Table, ts: seq<Thread>, i: nat, ch: nat, want: iset<int>) {
    && i < |ps| == |ts|
    && (|| ts[i] == AtSleep(ch, want, true)
        || (ps[i].state == SLEEPING && (ts[i] == Leaving(InSleep(ch, want)) || ts[i] == Saved(InSleep(ch, want)))))
  }

  // Writing "v" makes no sleeper's condition true.
  ghost predicate NoneBecomesReady(s: State, ch: nat, v: int)
    requires ch < |s.data|
  {
    forall i: nat, want: iset<int> :: AsleepFor(s.procs, s.threads, i, ch, want) && v in want ==> s.data[ch] in want
  }

  ghost predicate CanAct(s: State, a: Agent) {
    a.Slot? ==> a.i < |s.threads| && s.threads[a.i].Running?
  }

  ghost predicate HoldsLk(s: State, a: Agent, ch: nat) {
    Sizes(s) && CanAct(s, a) && ch < |s.lks| && s.lks[ch].Held? && s.lks[ch].owner == a
  }

  // A draw of the lottery: at most the sum, and not negative unless the sum is.
  ghost predicate IsDraw(ps: Table, draw: int) {
    draw <= L.Total(ps) && (0 <= L.Total(ps) ==> 0 <= draw)
  }

  // What a scheduler pass may pick. When the sums do not overflow, a draw must have picked it;
  // otherwise they are undefined in C and any RUNNABLE slot may be.
  ghost predicate MayPick(ps: Table, r: Option<nat>) {
    && (r.Some? ==> r.value < |ps| && ps[r.value].state == RUNNABLE)
    && (L.SumsFit(ps) ==> exists draw :: IsDraw(ps, draw) && L.IsPick(ps, draw, r))
  }

  /* The scheduler */

  ghost predicate CanSchedule(s: State, c: nat, r: Option<nat>) {
    && Sizes(s)
    && c < |s.cpus| && s.cpus[c].at == Top
    && s.lock == None
    && MayPick(s.procs, r)
  }

  ghost function DoSchedule(s: State, c: nat, r: Option<nat>): State
    requires CanSchedule(s, c, r)
  {
    if r.None? then s
    else s.(procs := SetState(s.procs, r.value, RUNNING), cpus := s.cpus[c := Cpu(r, Picked)], lock := Some(c))
  }

  ghost predicate CanSwitchIn(s: State, c: nat, p: nat) {
    && Sizes(s)
    && c < |s.cpus| && s.cpus[c] == Cpu(Some(p), Picked)
    && p < |s.procs| && s.threads[p].Saved?
  }

  ghost function DoSwitchIn(s: State, c: nat, p: nat): State
    requires CanSwitchIn(s, c, p)
  {
    s.(threads := s.threads[p := Entering(s.threads[p].k)], cpus := s.cpus[c := Cpu(Some(p), InProc)])
  }

  ghost predicate CanSwitchOut(s: State, c: nat, p: nat) {
    OnProc(s, c, p) && s.threads[p].Leaving?
  }

  ghost function DoSwitchOut(s: State, c: nat, p: nat): State
    requires CanSwitchOut(s, c, p)
  {
    s.(threads := s.threads[p := Saved(s.threads[p].k)], cpus := s.cpus[c := Cpu(Some(p), Back)])
  }

  ghost predicate CanRelease(s: State, c: nat) {
    Sizes(s) && c < |s.cpus| && s.cpus[c].at == Back
  }

  ghost function DoRelease(s: State, c: nat): State
    requires CanRelease(s, c)
  {
    s.(cpus := s.cpus[c := Cpu(None, Top)], lock := None)
  }

  /* Coming back from sched(), except into wait() */

  ghost predicate CanResume(s: State, c: nat, p: nat) {
    OnProc(s, c, p) && s.threads[p].Entering? && (s.threads[p].k.InYield? || s.threads[p].k.InSleep? || s.threads[p].k.AtForkret?)
  }

  ghost function DoResume(s: State, c: nat, p: nat): State
    requires CanResume(s, c, p)
  {
    match s.threads[p].k
    case InYield(ctl) => s.(threads := s.threads[p := Running(ctl)], lock := None)
    case InSleep(_, _) => s.(threads := s.threads[p := Running(User)], lock := None, procs := ClearChan(s.procs, p))
    case _ => s.(threads := s.threads[p := Running(User)], lock := None)
  }

  /* yield, sleep, wait, exit, kill */

  ghost predicate CanYield(s: State, c: nat, p: nat) {
    OnProc(s, c, p) && s.threads[p].Running? && s.lock == None && HoldsNone(s, p)
  }

  ghost function DoYield(s: State, c: nat, p: nat): State
    requires CanYield(s, c, p)
  {
    s.(procs := SetState(s.procs, p, RUNNABLE), threads := s.threads[p := Leaving(InYield(s.threads[p].ctl))], lock := Some(c))
  }

  // sleep() takes ptable.lock while it holds lk. The caller found its condition false under lk, and
  // holds no other lock.
  ghost predicate CanSleepLock(s: State, c: nat, p: nat, ch: nat, want: iset<int>) {
    && At(s, c, p, User)
    && s.lock == None
    && ch < |s.lks| && s.lks[ch] == Held(Slot(p), false)
    && s.data[ch] !in want
    && HoldsNone(s.(lks := s.lks[ch := Free]), p)
  }

  ghost function DoSleepLock(s: State, c: nat, p: nat, ch: nat, want: iset<int>): State
    requires CanSleepLock(s, c, p, ch, want)
  {
    s.(threads := s.threads[p := AtSleep(ch, want, false)], lock := Some(c))
  }

  // It releases lk. Others may take it from here on.
  ghost predicate CanSleepUnlock(s: State, c: nat, p: nat) {
    && OnProc(s, c, p)
    && s.threads[p].AtSleep? && !s.threads[p].released
    && s.threads[p].ch < |s.lks| && s.lks[s.threads[p].ch] == Held(Slot(p), false)
  }

  ghost function DoSleepUnlock(s: State, c: nat, p: nat): State
    requires CanSleepUnlock(s, c, p)
  {
    s.(threads := s.threads[p := s.threads[p].(released := true)], lks := s.lks[s.threads[p].ch := Free])
  }

  // It writes chan and state, and calls sched().
  ghost predicate CanSleep(s: State, c: nat, p: nat) {
    OnProc(s, c, p) && s.threads[p].AtSleep? && s.threads[p].released && HoldsNone(s, p)
  }

  ghost function DoSleep(s: State, c: nat, p: nat): State
    requires CanSleep(s, c, p)
  {
    var t := s.threads[p];
    s.(procs := SleepTable(s.procs, p, Other(t.ch)), threads := s.threads[p := Leaving(InSleep(t.ch, t.want))])
  }

  // A scan of wait(): the first one, or one after being woken, still holding the lock.
  ghost predicate CanWait(s: State, c: nat, p: nat) {
    && OnProc(s, c, p)
    && ((s.threads[p] == Running(User) && s.lock == None) || s.threads[p] == Entering(InWait))
    && (WaitDecision(WaitView(s, p), p) == Block ==> HoldsNone(s, p))
  }

  // The table wait() scans: sleep() has cleared p->chan if p was asleep.
  ghost function WaitView(s: State, p: nat): Table
    requires Sizes(s) && p < |s.procs|
  {
    if s.threads[p].Entering? then ClearChan(s.procs, p) else s.procs
  }

  ghost function DoWait(s: State, c: nat, p: nat): State
    requires CanWait(s, c, p)
  {
    var ps := WaitView(s, p);
    match WaitDecision(ps, p)
    case Reap(z) =>
      s.(procs := ReapTable(ps, z), threads := s.threads[p := Running(User)][z := NoThread], lock := None,
         reaped := s.reaped[ps[z].pid := ps[p].pid])
    case Fail =>
      s.(procs := ps, threads := s.threads[p := Running(User)], lock := None)
    case Block =>
      s.(procs := SleepTable(ps, p, ProcAddr(p)), threads := s.threads[p := Leaving(InWait)], lock := Some(c))
  }

  // initproc panics instead.
  ghost predicate CanExit(s: State, c: nat, p: nat) {
    At(s, c, p, User) && p != INIT && s.lock == None && HoldsNone(s, p)
  }

  ghost function DoExit(s: State, c: nat, p: nat): State
    requires CanExit(s, c, p)
  {
    s.(procs := ExitTable(s.procs, p), threads := s.threads[p := Leaving(InExit)], lock := Some(c),
       exited := s.exited + {s.procs[p].pid})
  }

  ghost predicate CanKill(s: State, c: nat, p: nat) {
    At(s, c, p, User) && s.lock == None
  }

  ghost function DoKill(s: State, c: nat, p: nat, pid: int): State
    requires CanKill(s, c, p)
  {
    s.(procs := KillTable(s.procs, pid))
  }

  /* fork */

  ghost predicate CanAlloc(s: State, c: nat, p: nat) {
    At(s, c, p, User) && s.lock == None && FindUnused(s.procs).Some?
  }

  ghost function DoAlloc(s: State, c: nat, p: nat): State
    requires CanAlloc(s, c, p)
  {
    var np := FindUnused(s.procs).value;
    s.(procs := AllocTable(s.procs, np, s.nextpid), nextpid := s.nextpid + 1, threads := s.threads[p := Running(ForkAlloc(np))])
  }

  ghost predicate CanKallocFail(s: State, c: nat, p: nat, np: nat) {
    At(s, c, p, ForkAlloc(np)) && np < |s.procs|
  }

  ghost function DoKallocFail(s: State, c: nat, p: nat, np: nat): State
    requires CanKallocFail(s, c, p, np)
  {
    s.(procs := SetState(s.procs, np, UNUSED), threads := s.threads[p := Running(User)], failed := s.failed + 1)
  }

  ghost predicate CanKallocOk(s: State, c: nat, p: nat, np: nat) {
    At(s, c, p, ForkAlloc(np)) && np < |s.procs|
  }

  ghost function DoKallocOk(s: State, c: nat, p: nat, np: nat): State
    requires CanKallocOk(s, c, p, np)
  {
    s.(threads := s.threads[p := Running(ForkStack(np))][np := Saved(AtForkret)])
  }

  ghost predicate CanCopyFail(s: State, c: nat, p: nat, np: nat) {
    At(s, c, p, ForkStack(np)) && np < |s.procs|
  }

  ghost function DoCopyFail(s: State, c: nat, p: nat, np: nat): State
    requires CanCopyFail(s, c, p, np)
  {
    s.(procs := SetState(s.procs, np, UNUSED), threads := s.threads[p := Running(User)][np := NoThread], failed := s.failed + 1)
  }

  ghost predicate CanAdopt(s: State, c: nat, p: nat, np: nat) {
    At(s, c, p, ForkStack(np)) && np < |s.procs|
  }

  ghost function DoAdopt(s: State, c: nat, p: nat, np: nat): State
    requires CanAdopt(s, c, p, np)
  {
    s.(procs := SetParent(s.procs, np, p), threads := s.threads[p := Running(ForkParent(np))])
  }

  ghost predicate CanForkDone(s: State, c: nat, p: nat, np: nat) {
    At(s, c, p, ForkParent(np)) && np < |s.procs| && s.lock == None
  }

  ghost function DoForkDone(s: State, c: nat, p: nat, np: nat): State
    requires CanForkDone(s, c, p, np)
  {
    s.(procs := SetState(s.procs, np, RUNNABLE), threads := s.threads[p := Running(User)])
  }

  ghost predicate CanSetTickets(s: State, c: nat, p: nat) {
    At(s, c, p, User)
  }

  ghost function DoSetTickets(s: State, c: nat, p: nat, t: int32): State
    requires CanSetTickets(s, c, p)
  {
    s.(procs := SetTickets(s.procs, p, t))
  }

  /* Other locks and wakeup */

  ghost predicate CanAcquire(s: State, a: Agent, ch: nat) {
    Sizes(s) && CanAct(s, a) && ch < |s.lks| && s.lks[ch] == Free
  }

  ghost function DoAcquire(s: State, a: Agent, ch: nat): State
    requires CanAcquire(s, a, ch)
  {
    s.(lks := s.lks[ch := Held(a, false)])
  }

  // A write of the data that makes some sleeper's condition true owes it a wakeup().
  ghost predicate CanWrite(s: State, a: Agent, ch: nat, v: int, owes: bool) {
    HoldsLk(s, a, ch) && (owes || NoneBecomesReady(s, ch, v))
  }

  ghost function DoWrite(s: State, a: Agent, ch: nat, v: int, owes: bool): State
    requires CanWrite(s, a, ch, v, owes)
  {
    s.(data := s.data[ch := v], lks := s.lks[ch := Held(a, s.lks[ch].pending || owes)])
  }

  ghost predicate CanWakeup(s: State, a: Agent, ch: nat) {
    HoldsLk(s, a, ch) && s.lock == None
  }

  ghost function DoWakeup(s: State, a: Agent, ch: nat): State
    requires CanWakeup(s, a, ch)
  {
    s.(procs := WakeTable(s.procs, Other(ch)), lks := s.lks[ch := Held(a, false)])
  }

  ghost predicate CanReleaseLk(s: State, a: Agent, ch: nat) {
    HoldsLk(s, a, ch) && !s.lks[ch].pending
  }

  ghost function DoReleaseLk(s: State, a: Agent, ch: nat): State
    requires CanReleaseLk(s, a, ch)
  {
    s.(lks := s.lks[ch := Free])
  }

  /* Steps and runs */

  datatype Action =
    | Schedule(c: nat, r: Option<nat>)
    | SwitchIn(c: nat, p: nat)
    | SwitchOut(c: nat, p: nat)
    | Release(c: nat)
    | Resume(c: nat, p: nat)
    | Yield(c: nat, p: nat)
    | SleepLock(c: nat, p: nat, ch: nat, want: iset<int>)
    | SleepUnlock(c: nat, p: nat)
    | Sleep(c: nat, p: nat)
    | Wait(c: nat, p: nat)
    | Exit(c: nat, p: nat)
    | Kill(c: nat, p: nat, pid: int)
    | Alloc(c: nat, p: nat)
    | KallocFail(c: nat, p: nat, np: nat)
    | KallocOk(c: nat, p: nat, np: nat)
    | CopyFail(c: nat, p: nat, np: nat)
    | Adopt(c: nat, p: nat, np: nat)
    | ForkDone(c: nat, p: nat, np: nat)
    | SetTicketsTo(c: nat, p: nat, t: int32)
    | Acquire(a: Agent, ch: nat)
    | Write(a: Agent, ch: nat, v: int, owes: bool)
    | Wakeup(a: Agent, ch: nat)
    | ReleaseLk(a: Agent, ch: nat)

  ghost predicate Step(s: State, act: Action, s': State) {
    match act
    case Schedule(c, r) => CanSchedule(s, c, r) && s' == DoSchedule(s, c, r)
    case SwitchIn(c, p) => CanSwitchIn(s, c, p) && s' == DoSwitchIn(s, c, p)
    case SwitchOut(c, p) => CanSwitchOut(s, c, p) && s' == DoSwitchOut(s, c, p)
    case Release(c) => CanRelease(s, c) && s' == DoRelease(s, c)
    case Resume(c, p) => CanResume(s, c, p) && s' == DoResume(s, c, p)
    case Yield(c, p) => CanYield(s, c, p) && s' == DoYield(s, c, p)
    case SleepLock(c, p, ch, want) => CanSleepLock(s, c, p, ch, want) && s' == DoSleepLock(s, c, p, ch, want)
    case SleepUnlock(c, p) => CanSleepUnlock(s, c, p) && s' == DoSleepUnlock(s, c, p)
    case Sleep(c, p) => CanSleep(s, c, p) && s' == DoSleep(s, c, p)
    case Wait(c, p) => CanWait(s, c, p) && s' == DoWait(s, c, p)
    case Exit(c, p) => CanExit(s, c, p) && s' == DoExit(s, c, p)
    case Kill(c, p, pid) => CanKill(s, c, p) && s' == DoKill(s, c, p, pid)
    case Alloc(c, p) => CanAlloc(s, c, p) && s' == DoAlloc(s, c, p)
    case KallocFail(c, p, np) => CanKallocFail(s, c, p, np) && s' == DoKallocFail(s, c, p, np)
    case KallocOk(c, p, np) => CanKallocOk(s, c, p, np) && s' == DoKallocOk(s, c, p, np)
    case CopyFail(c, p, np) => CanCopyFail(s, c, p, np) && s' == DoCopyFail(s, c, p, np)
    case Adopt(c, p, np) => CanAdopt(s, c, p, np) && s' == DoAdopt(s, c, p, np)
    case ForkDone(c, p, np) => CanForkDone(s, c, p, np) && s' == DoForkDone(s, c, p, np)
    case SetTicketsTo(c, p, t) => CanSetTickets(s, c, p) && s' == DoSetTickets(s, c, p, t)
    case Acquire(a, ch) => CanAcquire(s, a, ch) && s' == DoAcquire(s, a, ch)
    case Write(a, ch, v, owes) => CanWrite(s, a, ch, v, owes) && s' == DoWrite(s, a, ch, v, owes)
    case Wakeup(a, ch) => CanWakeup(s, a, ch) && s' == DoWakeup(s, a, ch)
    case ReleaseLk(a, ch) => CanReleaseLk(s, a, ch) && s' == DoReleaseLk(s, a, ch)
  }

  ghost predicate Run(states: seq<State>, acts: seq<Action>) {
    && |states| == |acts| + 1
    && Init(states[0])
    && forall i :: 0 <= i < |acts| ==> Step(states[i], acts[i], states[i + 1])
  }
}

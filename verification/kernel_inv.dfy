// The invariant of the kernel model, apart from the table's own (forest.dfy), and the lemmas that
// each kind of step keeps it.
module KernelInv {
  import opened Util
  import opened ProcTable
  import opened Kernel
  import opened Forest

  /* Threads: a slot's state agrees with where its kernel thread is */

  ghost predicate LeavingOk(p: Proc, k: Cont, i: nat) {
    match k
    case InYield(_) => p.state == RUNNABLE
    case InSleep(ch, _) => p.state == SLEEPING && p.chan == Other(ch)
    case InWait => p.state == SLEEPING && p.chan == ProcAddr(i)
    case AtForkret => false
    case InExit => p.state == ZOMBIE
  }

  ghost predicate SavedOk(p: Proc, k: Cont, i: nat) {
    match k
    case InYield(_) => p.state in {RUNNABLE, RUNNING}
    case InSleep(ch, _) => Alive(p) && p.chan == Other(ch)
    case InWait => Alive(p) && p.chan == ProcAddr(i)
    case AtForkret => p.state in {EMBRYO, RUNNABLE, RUNNING}
    case InExit => p.state == ZOMBIE
  }

  ghost predicate ThreadOk(p: Proc, t: Thread, i: nat) {
    match t
    case NoThread => p.state in {UNUSED, EMBRYO}
    case Running(_) => p.state == RUNNING
    case Leaving(k) => LeavingOk(p, k, i)
    case Saved(k) => SavedOk(p, k, i)
    case Entering(k) => p.state == RUNNING && k != InExit
    case AtSleep(_, _, _) => p.state == RUNNING
  }

  ghost predicate Threads(ps: Table, ts: seq<Thread>) {
    |ts| == |ps| && forall i :: 0 <= i < |ps| ==> ThreadOk(ps[i], ts[i], i)
  }

  /* fork: an EMBRYO slot belongs to the process that is filling it in */

  ghost function CtlOf(t: Thread): Ctl {
    match t
    case Running(ctl) => ctl
    case Leaving(InYield(ctl)) => ctl
    case Saved(InYield(ctl)) => ctl
    case Entering(InYield(ctl)) => ctl
    case _ => User
  }

  ghost predicate Owns(ts: seq<Thread>, p: nat, np: nat) {
    p < |ts| && (CtlOf(ts[p]) == ForkAlloc(np) || CtlOf(ts[p]) == ForkStack(np) || CtlOf(ts[p]) == ForkParent(np))
  }

  ghost predicate OwnOk(ps: Table, ts: seq<Thread>, p: nat, np: nat)
    requires p < |ps| == |ts|
  {
    && np < |ps|
    && ps[np].state == EMBRYO
    && ps[p].pid < ps[np].pid
    && ps[np].parent == (if CtlOf(ts[p]) == ForkParent(np) then Some(p) else None)
    && ts[np] == (if CtlOf(ts[p]) == ForkAlloc(np) then NoThread else Saved(AtForkret))
  }

  ghost predicate Forks(ps: Table, ts: seq<Thread>) {
    && |ts| == |ps|
    && (forall p: nat, np: nat :: Owns(ts, p, np) ==> OwnOk(ps, ts, p, np))
    && (forall p: nat, q: nat, np: nat :: Owns(ts, p, np) && Owns(ts, q, np) ==> p == q)
    && (forall c :: 0 <= c < |ps| && ps[c].state == EMBRYO && ps[c].parent.Some? ==> Owns(ts, ps[c].parent.value, c))
  }

  /* CPUs and ptable.lock */

  // A slot no CPU has anything to do with.
  ghost predicate Dormant(p: Proc) {
    p.state in {UNUSED, EMBRYO}
  }

  ghost predicate CpuOk(ps: Table, ts: seq<Thread>, cpus: seq<Cpu>, lock: Option<nat>, c: nat)
    requires |ts| == |ps| && c < |cpus|
  {
    && (cpus[c].at == Top <==> cpus[c].proc == None)
    && (cpus[c].proc.Some? ==>
          var p := cpus[c].proc.value;
          && p < |ps|
          && match cpus[c].at
             case Picked => lock == Some(c) && ps[p].state == RUNNING && ts[p].Saved?
             case InProc => if lock == Some(c) then ts[p].Leaving? || ts[p].Entering? || ts[p].AtSleep? else ts[p].Running?
             case Back => lock == Some(c) && ts[p].Saved? && ps[p].state != RUNNING && !Dormant(ps[p])
             case Top => false)
  }

  // Some CPU has slot "p" as its proc.
  ghost predicate OnSome(cpus: seq<Cpu>, p: nat) {
    exists c :: 0 <= c < |cpus| && cpus[c].proc == Some(p)
  }

  ghost predicate OnStack(t: Thread) {
    t.Running? || t.Leaving? || t.Entering? || t.AtSleep?
  }

  ghost predicate Cpus(ps: Table, ts: seq<Thread>, cpus: seq<Cpu>, lock: Option<nat>) {
    && |ts| == |ps|
    && (forall c :: 0 <= c < |cpus| ==> CpuOk(ps, ts, cpus, lock, c))
    && (forall c, d :: 0 <= c < d < |cpus| && cpus[c].proc.Some? ==> cpus[c].proc != cpus[d].proc)
    && (lock.Some? ==> lock.value < |cpus| && cpus[lock.value].at != Top)
    && (forall p :: 0 <= p < |ps| && (ps[p].state == RUNNING || OnStack(ts[p])) ==> OnSome(cpus, p))
  }

  /* Other locks */

  // Still holding lk in sleep().
  ghost predicate AboutToSleep(ts: seq<Thread>, i: nat, ch: nat, want: iset<int>) {
    i < |ts| && ts[i] == AtSleep(ch, want, false)
  }

  // A thread that may hold lock "l".
  ghost predicate MayHold(t: Thread, l: nat) {
    t.Running? || (t.AtSleep? && t.ch == l && !t.released)
  }

  ghost predicate Owners(ts: seq<Thread>, lks: seq<Lk>) {
    forall l :: 0 <= l < |lks| && lks[l].Held? && lks[l].owner.Slot? ==>
      lks[l].owner.i < |ts| && MayHold(ts[lks[l].owner.i], l)
  }

  ghost predicate Wakeups(ps: Table, ts: seq<Thread>, lks: seq<Lk>, data: seq<int>) {
    && |ts| == |ps| && |lks| == |data|
    && (forall i: nat, ch: nat, want: iset<int> :: AsleepFor(ps, ts, i, ch, want) ==>
          ch < |lks| && (data[ch] in want ==> lks[ch].Held? && lks[ch].pending))
    && (forall i: nat, ch: nat, want: iset<int> :: AboutToSleep(ts, i, ch, want) ==>
          ch < |lks| && lks[ch] == Held(Slot(i), false) && data[ch] !in want)
    && Owners(ts, lks)
  }

  /* History */

  ghost function Used(p: Proc): int {
    if p.state == UNUSED then 0 else 1
  }

  ghost function Occupied(ps: Table): int {
    if ps == [] then 0 else Occupied(ps[..|ps| - 1]) + Used(ps[|ps| - 1])
  }

  ghost predicate History(ps: Table, nextpid: int, exited: set<int>, reaped: map<int, int>, failed: nat) {
    && (forall i :: 0 <= i < |ps| ==> (ps[i].pid in exited <==> ps[i].state == ZOMBIE))
    && (forall pid :: pid in exited ==> 0 < pid < nextpid)
    && (forall pid :: pid in reaped ==> pid in exited && forall i :: 0 <= i < |ps| ==> ps[i].pid != pid)
    && Occupied(ps) + |reaped| + failed == nextpid - 1
  }

  ghost predicate Inv(s: State) {
    && Sizes(s)
    && TableInv(s.procs, s.nextpid)
    && Threads(s.procs, s.threads)
    && Forks(s.procs, s.threads)
    && Cpus(s.procs, s.threads, s.cpus, s.lock)
    && Wakeups(s.procs, s.threads, s.lks, s.data)
    && History(s.procs, s.nextpid, s.exited, s.reaped, s.failed)
  }

  /* Initially */

  lemma {:induction false} OccupiedByOne(ps: Table, n: nat)
    requires 0 < n <= |ps| && ps[0].state != UNUSED
    requires forall i :: 0 < i < |ps| ==> ps[i].state == UNUSED
    ensures Occupied(ps[..n]) == 1
  {
    assert ps[..n][..n - 1] == ps[..n - 1];
    if n > 1 {
      OccupiedByOne(ps, n - 1);
    }
  }

  lemma InitTable(ps: Table)
    requires 0 < |ps|
    requires ps[INIT] == FREE_SLOT.(state := RUNNABLE, pid := 1, tickets := MAGIC_TICKET_NUM)
    requires forall i :: 0 < i < |ps| ==> ps[i] == FREE_SLOT
    ensures TableInv(ps, 2)
    ensures History(ps, 2, {}, map[], 0)
  {
    OccupiedByOne(ps, |ps|);
    assert ps[..|ps|] == ps;
  }

  lemma InitInv(s: State)
    requires Init(s)
    ensures Inv(s)
  {
    InitTable(s.procs);
    assert forall p: nat, np: nat :: !Owns(s.threads, p, np);
  }

  /* Threads */

  ghost predicate NoneLeaving(ts: seq<Thread>) {
    forall i :: 0 <= i < |ts| ==> !ts[i].Leaving?
  }

  // ptable.lock is free, or held on behalf of slot "p".
  ghost predicate LockFor(cpus: seq<Cpu>, lock: Option<nat>, p: nat) {
    lock.Some? ==> lock.value < |cpus| && cpus[lock.value].proc == Some(p)
  }

  // Any other slot that is on a CPU is then running outside the critical sections.
  lemma OnCpuRuns(ps: Table, ts: seq<Thread>, cpus: seq<Cpu>, lock: Option<nat>, p: nat, i: nat)
    requires Cpus(ps, ts, cpus, lock) && LockFor(cpus, lock, p)
    requires OnSome(cpus, i) && (lock.None? || i != p)
    ensures i < |ts| && ts[i].Running?
  {
    var c :| 0 <= c < |cpus| && cpus[c].proc == Some(i);
    assert CpuOk(ps, ts, cpus, lock, c);
  }

  lemma OffCpu(ps: Table, ts: seq<Thread>, cpus: seq<Cpu>, lock: Option<nat>, p: nat, i: nat)
    requires Threads(ps, ts) && Cpus(ps, ts, cpus, lock) && LockFor(cpus, lock, p)
    requires i < |ps| && (lock.None? || i != p) && ps[i].state != RUNNING
    ensures !OnSome(cpus, i)
  {
    assert ThreadOk(ps[i], ts[i], i);
    if OnSome(cpus, i) {
      OnCpuRuns(ps, ts, cpus, lock, p, i);
    }
  }

  // Some sleepers become RUNNABLE.
  ghost predicate Roused(p: Proc, q: Proc) {
    q.chan == p.chan && (q.state == p.state || (p.state == SLEEPING && q.state == RUNNABLE))
  }

  /* Cpus */

  ghost predicate SameShape(p: Proc, t: Thread, q: Proc, u: Thread) {
    && (q.state == RUNNING <==> p.state == RUNNING) && (Dormant(q) <==> Dormant(p))
    && (u.Running? <==> t.Running?) && (u.Leaving? <==> t.Leaving?)
    && (u.Saved? <==> t.Saved?) && (u.Entering? <==> t.Entering?) && (u.AtSleep? <==> t.AtSleep?)
  }

  // A slot that is on no CPU before and not on one after, or that looks the same to the CPUs.
  ghost predicate CpuFrame(p: Proc, t: Thread, q: Proc, u: Thread, cpus: seq<Cpu>, i: nat) {
    SameShape(p, t, q, u) || (!OnSome(cpus, i) && q.state != RUNNING && !OnStack(u))
  }

  // CPU "c" and the slot "p" it has or takes change together, under a lock nobody else holds.
  lemma CpuMove(ps: Table, ts: seq<Thread>, qs: Table, us: seq<Thread>, cpus: seq<Cpu>,
                lock: Option<nat>, cpu: Cpu, lock': Option<nat>, c: nat, p: nat)
    requires Cpus(ps, ts, cpus, lock) && |qs| == |us| == |ps|
    requires c < |cpus| && p < |ps| && (cpus[c].proc == Some(p) || (cpus[c].proc == None && !OnSome(cpus, p)))
    requires lock in {None, Some(c)} && lock' in {None, Some(c)}
    requires forall i :: 0 <= i < |ps| && i != p ==> CpuFrame(ps[i], ts[i], qs[i], us[i], cpus, i)
    requires CpuOk(qs, us, cpus[c := cpu], lock', c) && (lock'.Some? ==> cpu.at != Top)
    requires cpu.proc == Some(p) || (cpu.proc == None && qs[p].state != RUNNING && !OnStack(us[p]))
    ensures Cpus(qs, us, cpus[c := cpu], lock')
  {
    var cpus' := cpus[c := cpu];
    forall d | 0 <= d < |cpus'| ensures CpuOk(qs, us, cpus', lock', d) {
      if d != c {
        OtherCpuOk(ps, ts, qs, us, cpus, lock, cpu, lock', c, d, p);
      }
    }
    forall i | 0 <= i < |qs| && (qs[i].state == RUNNING || OnStack(us[i])) ensures OnSome(cpus', i) {
      if i == p {
        assert cpus'[c].proc == Some(p);
      } else {
        assert SameShape(ps[i], ts[i], qs[i], us[i]);
        var d :| 0 <= d < |cpus| && cpus[d].proc == Some(i);
        assert cpus'[d].proc == Some(i);
      }
    }
  }

  lemma OtherCpuOk(ps: Table, ts: seq<Thread>, qs: Table, us: seq<Thread>, cpus: seq<Cpu>,
                   lock: Option<nat>, cpu: Cpu, lock': Option<nat>, c: nat, d: nat, p: nat)
    requires Cpus(ps, ts, cpus, lock) && |qs| == |us| == |ps|
    requires c < |cpus| && d < |cpus| && d != c && cpus[d].proc != Some(p)
    requires lock in {None, Some(c)} && lock' in {None, Some(c)}
    requires forall i :: 0 <= i < |ps| && i != p ==> CpuFrame(ps[i], ts[i], qs[i], us[i], cpus, i)
    ensures CpuOk(qs, us, cpus[c := cpu], lock', d)
  {
    assert CpuOk(ps, ts, cpus, lock, d);
    if cpus[d].proc.Some? {
      var i := cpus[d].proc.value;
      assert OnSome(cpus, i);
      assert CpuFrame(ps[i], ts[i], qs[i], us[i], cpus, i);
    }
  }

  // No CPU changes, nor what any CPU sees of its slot.
  lemma CpusFrame(ps: Table, ts: seq<Thread>, qs: Table, us: seq<Thread>, cpus: seq<Cpu>, lock: Option<nat>)
    requires Cpus(ps, ts, cpus, lock) && |qs| == |us| == |ps|
    requires forall i :: 0 <= i < |ps| ==> CpuFrame(ps[i], ts[i], qs[i], us[i], cpus, i)
    ensures Cpus(qs, us, cpus, lock)
  {
    forall c | 0 <= c < |cpus| ensures CpuOk(qs, us, cpus, lock, c) {
      assert CpuOk(ps, ts, cpus, lock, c);
      assert cpus[c].proc.Some? ==> OnSome(cpus, cpus[c].proc.value);
    }
  }

  lemma DormantOffCpu(ps: Table, ts: seq<Thread>, cpus: seq<Cpu>, lock: Option<nat>, i: nat)
    requires Threads(ps, ts) && Cpus(ps, ts, cpus, lock) && i < |ps| && Dormant(ps[i])
    ensures !OnSome(cpus, i)
  {
    assert ThreadOk(ps[i], ts[i], i);
    forall c | 0 <= c < |cpus| ensures cpus[c].proc != Some(i) {
      assert CpuOk(ps, ts, cpus, lock, c);
    }
  }

  /* Forks */

  // Nothing that fork() is filling in, or that its filler is known by, changes.
  ghost predicate ForkFrame(p: Proc, t: Thread, q: Proc, u: Thread) {
    && CtlOf(u) == CtlOf(t)
    && (CtlOf(t) != User ==> q.pid == p.pid)
    && (q.state == EMBRYO <==> p.state == EMBRYO)
    && (p.state == EMBRYO ==> u == t && q.pid == p.pid && q.parent == p.parent)
  }

  lemma ForkFrameKeeps(ps: Table, ts: seq<Thread>, qs: Table, us: seq<Thread>)
    requires Forks(ps, ts) && |qs| == |us| == |ps|
    requires forall i :: 0 <= i < |ps| ==> ForkFrame(ps[i], ts[i], qs[i], us[i])
    ensures Forks(qs, us)
  {
    forall p: nat, np: nat ensures Owns(us, p, np) <==> Owns(ts, p, np) {
      if p < |ps| { assert ForkFrame(ps[p], ts[p], qs[p], us[p]); }
    }
    forall p: nat, np: nat | Owns(us, p, np) ensures OwnOk(qs, us, p, np) {
      assert Owns(ts, p, np);
      assert OwnOk(ps, ts, p, np);
      assert ForkFrame(ps[p], ts[p], qs[p], us[p]);
      assert ForkFrame(ps[np], ts[np], qs[np], us[np]);
    }
    forall c | 0 <= c < |qs| && qs[c].state == EMBRYO && qs[c].parent.Some? ensures Owns(us, qs[c].parent.value, c) {
      assert ForkFrame(ps[c], ts[c], qs[c], us[c]);
      assert Owns(ts, ps[c].parent.value, c);
    }
  }

  /* Wakeups */

  // Nobody newly falls asleep on a data channel, and no thread holding another lock stops running.
  lemma WakeupsFrame(ps: Table, ts: seq<Thread>, qs: Table, us: seq<Thread>, lks: seq<Lk>, data: seq<int>)
    requires Wakeups(ps, ts, lks, data) && |qs| == |us| == |ps|
    requires forall i: nat, ch: nat, want: iset<int> :: AsleepFor(qs, us, i, ch, want) ==> AsleepFor(ps, ts, i, ch, want)
    requires forall i: nat, ch: nat, want: iset<int> :: AboutToSleep(us, i, ch, want) ==> AboutToSleep(ts, i, ch, want)
    requires Owners(us, lks)
    ensures Wakeups(qs, us, lks, data)
  {
  }

  /* History */

  lemma {:induction false} OccupiedSame(ps: Table, qs: Table)
    requires |ps| == |qs| && forall i :: 0 <= i < |ps| ==> (qs[i].state == UNUSED <==> ps[i].state == UNUSED)
    ensures Occupied(qs) == Occupied(ps)
  {
    if |ps| > 0 {
      OccupiedSame(ps[..|ps| - 1], qs[..|ps| - 1]);
    }
  }

  lemma {:induction false} OccupiedUpdate(ps: Table, i: nat, q: Proc)
    requires i < |ps|
    ensures Occupied(ps[i := q]) == Occupied(ps) - Used(ps[i]) + Used(q)
  {
    var n := |ps| - 1;
    if i < n {
      OccupiedUpdate(ps[..n], i, q);
      assert ps[i := q][..n] == ps[..n][i := q];
    } else {
      assert ps[i := q][..n] == ps[..n];
    }
  }

  lemma HistoryFrame(ps: Table, qs: Table, nextpid: int, exited: set<int>, reaped: map<int, int>, failed: nat)
    requires History(ps, nextpid, exited, reaped, failed) && |qs| == |ps|
    requires forall i :: 0 <= i < |ps| ==> qs[i].pid == ps[i].pid
    requires forall i :: 0 <= i < |ps| ==> (qs[i].state == UNUSED <==> ps[i].state == UNUSED)
    requires forall i :: 0 <= i < |ps| ==> (qs[i].state == ZOMBIE <==> ps[i].state == ZOMBIE)
    ensures History(qs, nextpid, exited, reaped, failed)
  {
    OccupiedSame(ps, qs);
  }

  lemma AllocHistory(ps: Table, np: nat, nextpid: int, exited: set<int>, reaped: map<int, int>, failed: nat)
    requires History(ps, nextpid, exited, reaped, failed) && Pids(ps, nextpid) && np < |ps| && ps[np].state == UNUSED
    ensures History(AllocTable(ps, np, nextpid), nextpid + 1, exited, reaped, failed)
  {
    OccupiedUpdate(ps, np, AllocTable(ps, np, nextpid)[np]);
    assert nextpid !in exited;
  }

  lemma AbandonHistory(ps: Table, np: nat, nextpid: int, exited: set<int>, reaped: map<int, int>, failed: nat)
    requires History(ps, nextpid, exited, reaped, failed) && np < |ps| && ps[np].state == EMBRYO
    ensures History(SetState(ps, np, UNUSED), nextpid, exited, reaped, failed + 1)
  {
    OccupiedUpdate(ps, np, ps[np].(state := UNUSED));
  }

  lemma ExitHistory(ps: Table, me: nat, nextpid: int, exited: set<int>, reaped: map<int, int>, failed: nat)
    requires History(ps, nextpid, exited, reaped, failed) && Pids(ps, nextpid) && me < |ps| && ps[me].state == RUNNING
    ensures History(ExitTable(ps, me), nextpid, exited + {ps[me].pid}, reaped, failed)
  {
    var qs := ExitTable(ps, me);
    assert forall i :: 0 <= i < |ps| ==> qs[i] == ExitSlot(ps, me, i);
    OccupiedSame(ps, qs);
    assert ps[me].pid !in reaped;
  }

  lemma ReapHistory(ps: Table, z: nat, parent: int, nextpid: int, exited: set<int>, reaped: map<int, int>, failed: nat)
    requires History(ps, nextpid, exited, reaped, failed) && Pids(ps, nextpid) && z < |ps| && ps[z].state == ZOMBIE
    ensures ps[z].pid in exited && ps[z].pid !in reaped
    ensures History(ReapTable(ps, z), nextpid, exited, reaped[ps[z].pid := parent], failed)
  {
    OccupiedUpdate(ps, z, ReapTable(ps, z)[z]);
    assert ps[z].pid !in reaped;
    assert |reaped[ps[z].pid := parent]| == |reaped| + 1;
  }
}

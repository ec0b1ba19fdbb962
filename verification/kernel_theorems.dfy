// What the invariant means for runs of the kernel.
module KernelTheorems {
  import opened Util
  import opened ProcTable
  import opened Kernel
  import opened Forest
  import opened KernelInv
  import opened KernelSteps
  import opened KernelForks
  import L = Lottery

  /* The parent forest */

  // A path goes from a slot to its parent, to its parent's parent, and so on.
  ghost predicate Ancestry(ps: Table, path: seq<nat>) {
    && |path| > 0
    && (forall k :: 0 <= k < |path| ==> path[k] < |ps|)
    && (forall k :: 0 < k < |path| ==> ps[path[k - 1]].parent == Some(path[k]))
  }

  // In every reachable state each process descends from initproc through live, ever older parents.
  lemma EveryProcessDescendsFromInit(states: seq<State>, acts: seq<Action>, n: nat, c: nat) returns (path: seq<nat>)
    requires Run(states, acts) && n < |states|
    requires c < |states[n].procs| && (Alive(states[n].procs[c]) || states[n].procs[c].state == ZOMBIE)
    ensures var ps := states[n].procs;
            && Ancestry(ps, path) && path[0] == c && path[|path| - 1] == INIT
            && forall k :: 0 < k < |path| ==> Alive(ps[path[k]]) && ps[path[k]].pid < ps[path[k - 1]].pid
  {
    RunKeepsInv(states, acts, n);
    path := PathToInit(states[n].procs, c);
  }

  lemma {:induction false} PathToInit(ps: Table, c: nat) returns (path: seq<nat>)
    requires Rooted(ps) && Parents(ps) && c < |ps| && (Alive(ps[c]) || ps[c].state == ZOMBIE) && 0 <= ps[c].pid
    requires forall i :: 0 <= i < |ps| ==> 0 <= ps[i].pid
    ensures Ancestry(ps, path) && path[0] == c && path[|path| - 1] == INIT
    ensures forall k :: 0 < k < |path| ==> Alive(ps[path[k]]) && ps[path[k]].pid < ps[path[k - 1]].pid
    decreases ps[c].pid
  {
    if c == INIT {
      path := [c];
    } else {
      var p := ps[c].parent.value;
      assert Edge(ps, c, p);
      var rest := PathToInit(ps, p);
      path := [c] + rest;
    }
  }

  // Pids in use are distinct, and every parent link leads to a live process older than its child.
  lemma ParentLinksFormAForest(states: seq<State>, acts: seq<Action>, n: nat)
    requires Run(states, acts) && n < |states|
    ensures var s := states[n];
            && (forall i, j :: 0 <= i < j < |s.procs| && s.procs[i].pid == s.procs[j].pid ==> s.procs[i].pid == 0)
            && (forall i :: 0 <= i < |s.procs| ==> s.procs[i].pid < s.nextpid)
            && (forall c :: 0 <= c < |s.procs| && s.procs[c].parent.Some? ==>
                  var p := s.procs[c].parent.value;
                  p < |s.procs| && Alive(s.procs[p]) && s.procs[p].pid < s.procs[c].pid)
  {
    RunKeepsInv(states, acts, n);
    var s := states[n];
    forall c | 0 <= c < |s.procs| && s.procs[c].parent.Some? ensures Edge(s.procs, c, s.procs[c].parent.value) {
    }
  }

  /* wait */

  // No exit, re-parenting or kill is missed by a process asleep in wait().
  lemma WaiterHasSomethingToWaitFor(states: seq<State>, acts: seq<Action>, n: nat, i: nat)
    requires Run(states, acts) && n < |states|
    requires i < |states[n].procs| && SleepsInWait(states[n].procs[i])
    ensures states[n].procs[i].chan == ProcAddr(i) && !states[n].procs[i].killed
    ensures exists c: nat :: Child(states[n].procs, c, i)
    ensures forall c: nat :: !ZombieChild(states[n].procs, c, i)
  {
    RunKeepsInv(states, acts, n);
    assert JustifiedWait(states[n].procs, i);
  }

  // RUNNABLE, RUNNING, or asleep for a reason other than its children.
  ghost predicate CanProceed(p: Proc) {
    p.state in {RUNNABLE, RUNNING} || (p.state == SLEEPING && !SleepsInWait(p))
  }

  // Waiting is never circular: below every process asleep in wait() there is one that is not.
  lemma WaitingIsNotCircular(states: seq<State>, acts: seq<Action>, n: nat, i: nat) returns (path: seq<nat>)
    requires Run(states, acts) && n < |states|
    requires i < |states[n].procs| && SleepsInWait(states[n].procs[i])
    ensures Ancestry(states[n].procs, path) && |path| > 1 && path[|path| - 1] == i
    ensures CanProceed(states[n].procs[path[0]])
  {
    RunKeepsInv(states, acts, n);
    path := Unblocked(states[n], i);
  }

  lemma {:induction false} Unblocked(s: State, i: nat) returns (path: seq<nat>)
    requires Inv(s) && i < |s.procs| && SleepsInWait(s.procs[i])
    ensures Ancestry(s.procs, path) && |path| > 1 && path[|path| - 1] == i
    ensures CanProceed(s.procs[path[0]])
    decreases s.nextpid - s.procs[i].pid
  {
    var c := LiveChild(s, i);
    path := [c, i];
    if !CanProceed(s.procs[c]) {
      var rest := Unblocked(s, c);
      path := rest + [i];
      ExtendAncestry(s.procs, rest, i);
    }
  }

  lemma ExtendAncestry(ps: Table, path: seq<nat>, i: nat)
    requires Ancestry(ps, path) && Child(ps, path[|path| - 1], i) && i < |ps|
    ensures Ancestry(ps, path + [i])
  {
  }

  // A process asleep in wait() has a live, younger child: an EMBRYO's parent is busy in fork().
  lemma LiveChild(s: State, i: nat) returns (c: nat)
    requires Inv(s) && i < |s.procs| && SleepsInWait(s.procs[i])
    ensures Child(s.procs, c, i) && Alive(s.procs[c]) && s.procs[i].pid < s.procs[c].pid < s.nextpid
  {
    assert JustifiedWait(s.procs, i);
    c :| Child(s.procs, c, i);
    assert !ZombieChild(s.procs, c, i);
    assert Edge(s.procs, c, i);
    assert ThreadOk(s.procs[i], s.threads[i], i);
    assert !Owns(s.threads, i, c);
  }

  /* One CPU per running process */

  ghost predicate ExactlyOneCpu(cpus: seq<Cpu>, p: nat) {
    exists c :: 0 <= c < |cpus| && cpus[c].proc == Some(p) && forall d :: 0 <= d < |cpus| && cpus[d].proc == Some(p) ==> d == c
  }

  // With ptable.lock free, RUNNING means being the proc of precisely one CPU.
  lemma RunningOnExactlyOneCpu(states: seq<State>, acts: seq<Action>, n: nat, p: nat)
    requires Run(states, acts) && n < |states| && states[n].lock == None && p < |states[n].procs|
    ensures states[n].procs[p].state == RUNNING <==> ExactlyOneCpu(states[n].cpus, p)
    ensures states[n].procs[p].state != RUNNING ==> !OnSome(states[n].cpus, p)
  {
    RunKeepsInv(states, acts, n);
    var s := states[n];
    if s.procs[p].state == RUNNING {
      var c :| 0 <= c < |s.cpus| && s.cpus[c].proc == Some(p);
      assert forall d :: 0 <= d < |s.cpus| && s.cpus[d].proc == Some(p) ==> d == c;
    } else {
      OffCpu(s.procs, s.threads, s.cpus, s.lock, p, p);
    }
  }

  // No CPU picks a process before its last CPU has saved its context, though its state says RUNNABLE
  // from before that.
  lemma PickedOnlyWhenSaved(states: seq<State>, acts: seq<Action>, n: nat, c: nat, p: nat)
    requires Run(states, acts) && n < |acts| && acts[n] == Schedule(c, Some(p))
    ensures p < |states[n].threads| && states[n].threads[p].Saved? && states[n].threads[p].k != InExit && !OnSome(states[n].cpus, p)
  {
    RunKeepsInv(states, acts, n);
    assert Step(states[n], acts[n], states[n + 1]);
    SavedWhenFree(states[n], p);
  }

  // No two CPUs ever run on the same kernel stack.
  lemma OneCpuPerStack(states: seq<State>, acts: seq<Action>, n: nat, c: nat, d: nat, p: nat)
    requires Run(states, acts) && n < |states|
    requires OnProc(states[n], c, p) && OnProc(states[n], d, p)
    ensures c == d
  {
    RunKeepsInv(states, acts, n);
    assert c < d || d < c || c == d;
  }

  /* Reaping */

  ghost predicate Reaps(s: State, act: Action, z: nat) {
    act.Wait? && CanWait(s, act.c, act.p) && WaitDecision(WaitView(s, act.p), act.p) == Reap(z)
  }

  // wait() returns a child of its caller that has exited, that it has not returned before, and whose
  // kernel stack nobody is running on when it is freed.
  lemma ReapedChild(states: seq<State>, acts: seq<Action>, n: nat, z: nat)
    requires Run(states, acts) && n < |acts| && Reaps(states[n], acts[n], z)
    ensures var s := states[n];
            && z < |s.procs| && ZombieChild(s.procs, z, acts[n].p)
            && s.procs[z].pid in s.exited && s.procs[z].pid !in s.reaped
            && s.threads[z] == Saved(InExit) && !OnSome(s.cpus, z)
            && states[n + 1].reaped == s.reaped[s.procs[z].pid := s.procs[acts[n].p].pid]
  {
    RunKeepsInv(states, acts, n);
    assert Step(states[n], acts[n], states[n + 1]);
    ReapFacts(states[n], acts[n].c, acts[n].p, z);
  }

  lemma ReapFacts(s: State, c: nat, p: nat, z: nat)
    requires Inv(s) && CanWait(s, c, p) && WaitDecision(WaitView(s, p), p) == Reap(z)
    ensures ZombieChild(s.procs, z, p) && z != p
    ensures s.procs[z].pid in s.exited && s.procs[z].pid !in s.reaped
    ensures s.threads[z] == Saved(InExit) && !OnSome(s.cpus, z)
  {
    OnProcFacts(s, c, p);
    assert Matches(WaitView(s, p)[z], ZombieOf(p));
    ZombieIsGone(s.procs, s.threads, s.cpus, s.lock, p, z);
  }

  lemma ReapedGrows(s: State, act: Action, s': State)
    requires Step(s, act, s')
    ensures s.reaped.Keys <= s'.reaped.Keys
  {
  }

  lemma {:induction false} ReapedStays(states: seq<State>, acts: seq<Action>, i: nat, j: nat)
    requires Run(states, acts) && i <= j < |states|
    ensures states[i].reaped.Keys <= states[j].reaped.Keys
  {
    if i < j {
      ReapedStays(states, acts, i, j - 1);
      ReapedGrows(states[j - 1], acts[j - 1], states[j]);
    }
  }

  // Over a run no pid is returned by wait() twice, even though slots are reused.
  lemma PidReturnedOnce(states: seq<State>, acts: seq<Action>, i: nat, y: nat, j: nat, z: nat)
    requires Run(states, acts) && i < j < |acts|
    requires Reaps(states[i], acts[i], y) && Reaps(states[j], acts[j], z)
    ensures y < |states[i].procs| && z < |states[j].procs| && states[i].procs[y].pid != states[j].procs[z].pid
  {
    ReapedChild(states, acts, i, y);
    ReapedChild(states, acts, j, z);
    ReapedStays(states, acts, i + 1, j);
  }

  // Occupied slots are allocations less reaps less failed allocations.
  lemma SlotsAreConserved(states: seq<State>, acts: seq<Action>, n: nat)
    requires Run(states, acts) && n < |states|
    ensures Occupied(states[n].procs) == (states[n].nextpid - 1) - |states[n].reaped| - states[n].failed
  {
    RunKeepsInv(states, acts, n);
  }

  /* sleep and wakeup */

  // If every holder of a lock that makes a condition true calls wakeup() before releasing it, then no
  // process is asleep, or past the release of lk on its way to sleep, with its condition true unless
  // that wakeup() is still to come.
  lemma NoLostWakeup(states: seq<State>, acts: seq<Action>, n: nat, i: nat, ch: nat, want: iset<int>)
    requires Run(states, acts) && n < |states| && AsleepFor(states[n].procs, states[n].threads, i, ch, want)
    ensures ch < |states[n].lks| == |states[n].data|
    ensures states[n].data[ch] in want ==> states[n].lks[ch].Held? && states[n].lks[ch].pending
  {
    RunKeepsInv(states, acts, n);
  }

  // When it comes, it finds them: taking ptable.lock before releasing lk keeps wakeup() from scanning
  // the table before SLEEPING is written.
  lemma WakeupFindsSleepers(states: seq<State>, acts: seq<Action>, n: nat, i: nat, want: iset<int>)
    requires Run(states, acts) && n < |acts| && acts[n].Wakeup?
    requires AsleepFor(states[n].procs, states[n].threads, i, acts[n].ch, want)
    ensures states[n].procs[i].state == SLEEPING
    ensures i < |states[n + 1].procs| && states[n + 1].procs[i].state == RUNNABLE
  {
    RunKeepsInv(states, acts, n);
    var s := states[n];
    assert Step(s, acts[n], states[n + 1]);
    FreeMeansNoneLeaving(s);
    assert ThreadOk(s.procs[i], s.threads[i], i);
    assert states[n + 1].procs[i] == WakeSlot(s.procs[i], Other(acts[n].ch));
  }

  // The window is there: while a process in sleep() has released lk and is not SLEEPING yet, an
  // interrupt handler can take lk and make the condition true, but not call wakeup().
  lemma WakerMayComeInBetween(s: State, c: nat, p: nat, ch: nat, want: iset<int>, id: nat, v: int)
    requires Inv(s) && OnProc(s, c, p) && s.threads[p] == AtSleep(ch, want, true)
    requires ch < |s.lks| && s.lks[ch] == Free && v in want
    ensures CanAcquire(s, Interrupt(id), ch)
    ensures var s1 := DoAcquire(s, Interrupt(id), ch);
            && CanWrite(s1, Interrupt(id), ch, v, true)
            && var s2 := DoWrite(s1, Interrupt(id), ch, v, true);
               && s2.procs[p].state == RUNNING && s2.data[ch] in want
               && AsleepFor(s2.procs, s2.threads, p, ch, want) && !CanWakeup(s2, Interrupt(id), ch)
  {
    OnProcFacts(s, c, p);
  }

  /* The scheduler's pass */

  // A scheduler pass finds nothing, and lets the CPU halt, only if nothing is RUNNABLE.
  lemma HaltsOnlyWhenIdle(s: State, c: nat)
    requires CanSchedule(s, c, None) && L.SumsFit(s.procs)
    ensures !L.AnyRunnable(s.procs)
  {
    var draw :| IsDraw(s.procs, draw) && L.IsPick(s.procs, draw, None);
    L.PassIsWorkConserving(s.procs, draw);
  }

  /* ptable.lock is never stuck */

  ghost function ThreadDistance(t: Thread): nat {
    match t
    case AtSleep(_, _, released) => if released then 3 else 4
    case Entering(_) => 3
    case _ => 2
  }

  // How many steps its holder is from releasing ptable.lock.
  ghost function Distance(s: State): nat {
    if s.lock == None || s.lock.value >= |s.cpus| || s.cpus[s.lock.value].proc == None then 0
    else
      var cpu := s.cpus[s.lock.value];
      match cpu.at
      case Picked => 4
      case InProc => if cpu.proc.value < |s.threads| then ThreadDistance(s.threads[cpu.proc.value]) else 0
      case Back => 1
      case Top => 0
  }

  // The holder can always take a step by itself, and it brings the release nearer.
  lemma HolderStep(s: State) returns (act: Action, s': State)
    requires Inv(s) && s.lock.Some?
    ensures Step(s, act, s')
    ensures s'.lock == None || (s'.lock == s.lock && Distance(s') < Distance(s))
  {
    hide TableInv, Forks, History, SetState;
    var c := s.lock.value;
    assert CpuOk(s.procs, s.threads, s.cpus, s.lock, c);
    var p := s.cpus[c].proc.value;
    match s.cpus[c].at
    case Picked =>
      act, s' := SwitchIn(c, p), DoSwitchIn(s, c, p);
    case Back =>
      act, s' := Release(c), DoRelease(s, c);
    case InProc =>
      if s.threads[p].Leaving? {
        act, s' := SwitchOut(c, p), DoSwitchOut(s, c, p);
      } else if s.threads[p].AtSleep? {
        act, s' := SleepCanStep(s, c, p);
      } else {
        assert ThreadOk(s.procs[p], s.threads[p], p);
        act, s' := EnteringCanStep(s, c, p);
      }
  }

  // No step of anybody else takes the lock from its holder or puts the release off.
  lemma NobodyDelaysTheHolder(s: State, act: Action, s': State)
    requires Inv(s) && s.lock.Some? && Step(s, act, s')
    ensures s'.lock == None || (s'.lock == s.lock && Distance(s') <= Distance(s))
  {
    hide Inv, Distance;
    if Forking(act) {
      ForkersDelayNobody(s, act, s');
    } else if OfCpu(act) {
      OnlyHolderSwitches(s, act, s');
    } else {
      OthersTouchNoThread(s, act, s');
    }
  }

  // From every reachable state ptable.lock is at most four steps from being free.
  lemma LockCanBeReleased(states: seq<State>, acts: seq<Action>) returns (more: seq<State>, steps: seq<Action>)
    requires Run(states, acts)
    ensures |more| == |steps| <= 4 && Run(states + more, acts + steps)
    ensures (states + more)[|acts| + |steps|].lock == None
  {
    hide Inv, Step, Init, Distance;
    more, steps := Unlocking(states, acts);
    DistanceAtMost(states[|acts|]);
  }

  lemma DistanceAtMost(s: State)
    ensures Distance(s) <= 4
    ensures Inv(s) && s.lock.Some? ==> Distance(s) > 0
  {
    if Inv(s) && s.lock.Some? {
      assert CpuOk(s.procs, s.threads, s.cpus, s.lock, s.lock.value);
    }
  }

  lemma {:induction false} Unlocking(states: seq<State>, acts: seq<Action>) returns (more: seq<State>, steps: seq<Action>)
    requires Run(states, acts)
    ensures |more| == |steps| <= Distance(states[|acts|]) && Run(states + more, acts + steps)
    ensures (states + more)[|acts| + |steps|].lock == None
    decreases Distance(states[|acts|])
  {
    hide Inv, Step, Init, Distance;
    var s := states[|acts|];
    if s.lock == None {
      more, steps := [], [];
      assert states + more == states && acts + steps == acts;
    } else {
      RunKeepsInv(states, acts, |acts|);
      DistanceAtMost(s);
      var act, s' := HolderStep(s);
      RunGrows(states, acts, act, s');
      if s'.lock == None {
        more, steps := [s'], [act];
      } else {
        var more', steps' := Unlocking(states + [s'], acts + [act]);
        more, steps := [s'] + more', [act] + steps';
        assert states + more == states + [s'] + more' && acts + steps == acts + [act] + steps';
      }
    }
  }

  lemma RunGrows(states: seq<State>, acts: seq<Action>, act: Action, s': State)
    requires Run(states, acts) && Step(states[|acts|], act, s')
    ensures Run(states + [s'], acts + [act])
  {
    hide Step, Init;
  }

  // And in every run, whatever anybody does, the lock stays with its holder until it is released, and
  // the release is never put off.
  lemma {:induction false} HolderKeepsTheLock(states: seq<State>, acts: seq<Action>, n: nat)
    requires Run(states, acts) && n < |acts| && states[n].lock.Some?
    ensures states[n + 1].lock == None ||
            (states[n + 1].lock == states[n].lock && Distance(states[n + 1]) <= Distance(states[n]))
  {
    hide Inv, Step, Init, Distance;
    RunKeepsInv(states, acts, n);
    NobodyDelaysTheHolder(states[n], acts[n], states[n + 1]);
  }

  lemma OthersTouchNoThread(s: State, act: Action, s': State)
    requires Step(s, act, s') && s.lock.Some? && !Forking(act) && !OfCpu(act)
    ensures s'.lock == s.lock && Distance(s') == Distance(s)
  {
  }

  lemma ForkersDelayNobody(s: State, act: Action, s': State)
    requires Inv(s) && s.lock.Some? && Step(s, act, s') && Forking(act)
    ensures s'.lock == s.lock && Distance(s') == Distance(s)
  {
    hide Inv, Step, Forking;
    var p := HolderProc(s);
    ForkersAreElsewhere(s, act, s', s.lock.value, p);
    ForkersTouchOwnThreads(s, act, s', p);
  }

  lemma HolderProc(s: State) returns (p: nat)
    requires Inv(s) && s.lock.Some?
    ensures s.lock.value < |s.cpus| && s.cpus[s.lock.value].proc == Some(p) && p < |s.threads|
  {
    assert CpuOk(s.procs, s.threads, s.cpus, s.lock, s.lock.value);
    p := s.cpus[s.lock.value].proc.value;
  }

  lemma ForkersTouchOwnThreads(s: State, act: Action, s': State, p: nat)
    requires Step(s, act, s') && Forking(act) && act.p != p && (act.Alloc? || act.np != p) && p < |s.threads|
    ensures s'.lock == s.lock && s'.cpus == s.cpus && |s'.threads| == |s.threads| && s'.threads[p] == s.threads[p]
  {
  }

  predicate OfCpu(act: Action) {
    (Switching(act) || act.SleepLock? || act.SleepUnlock? || act.Sleep? || act.Wait? || act.Exit? || act.Kill?) && !act.Schedule?
  }

  lemma OnlyHolderSwitches(s: State, act: Action, s': State)
    requires Inv(s) && s.lock.Some? && Step(s, act, s') && OfCpu(act)
    ensures s'.lock == None || (s'.lock == s.lock && Distance(s') <= Distance(s))
  {
    hide TableInv, Forks, Wakeups, History, WaitDecision, ReapTable, SleepTable, ExitTable, KillTable, SetState, ClearChan, HoldsNone;
    assert CpuOk(s.procs, s.threads, s.cpus, s.lock, act.c);
    assert act.c == s.lock.value;
  }

  // A forker runs outside the lock, and the slot it fills in is on no CPU.
  lemma ForkersAreElsewhere(s: State, act: Action, s': State, c: nat, p: nat)
    requires Inv(s) && s.lock == Some(c) && c < |s.cpus| && s.cpus[c].proc == Some(p)
    requires Forking(act) && Step(s, act, s')
    ensures act.p != p && (act.Alloc? || act.np != p)
  {
    OnProcFacts(s, act.c, act.p);
    assert CpuOk(s.procs, s.threads, s.cpus, s.lock, c);
    if !act.Alloc? {
      OwnedSlot(s, act.c, act.p, act.np);
      DormantOffCpu(s.procs, s.threads, s.cpus, s.lock, act.np);
    }
  }

  // release() and sched() find what they insist on.
  lemma SleepCanStep(s: State, c: nat, p: nat) returns (act: Action, s': State)
    requires Inv(s) && OnProc(s, c, p) && s.lock == Some(c) && s.threads[p].AtSleep?
    ensures Step(s, act, s')
    ensures s'.lock == s.lock && Distance(s') < Distance(s)
  {
    hide TableInv, Forks, History, Threads, Cpus, SleepTable;
    if s.threads[p].released {
      assert HoldsNone(s, p);
      act, s' := Sleep(c, p), DoSleep(s, c, p);
    } else {
      assert AboutToSleep(s.threads, p, s.threads[p].ch, s.threads[p].want);
      act, s' := SleepUnlock(c, p), DoSleepUnlock(s, c, p);
    }
  }

  lemma EnteringCanStep(s: State, c: nat, p: nat) returns (act: Action, s': State)
    requires Inv(s) && OnProc(s, c, p) && s.lock == Some(c) && s.threads[p].Entering? && s.threads[p].k != InExit
    ensures Step(s, act, s')
    ensures s'.lock == None || (s'.lock == s.lock && Distance(s') < Distance(s))
  {
    hide TableInv, Forks, History, WaitDecision, ReapTable, SleepTable, ClearChan;
    if s.threads[p].k == InWait {
      assert HoldsNone(s, p);
      act, s' := Wait(c, p), DoWait(s, c, p);
    } else {
      act, s' := Resume(c, p), DoResume(s, c, p);
    }
  }
}

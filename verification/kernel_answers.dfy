// What a step of wait(), kill(), wakeup() or exit() does to the table of a running kernel, said on the
// fields of the slots.
module KernelAnswers {
  import opened Util
  import opened ProcTable
  import opened Kernel
  import opened KernelInv
  import opened Forest
  import opened KernelSteps
  import opened KernelForks
  import opened KernelKill
  import L = Lottery
  import ProcCode

  ghost predicate HasZombie(ps: Table, p: nat) {
    exists z :: 0 <= z < |ps| && ps[z].parent == Some(p) && ps[z].state == ZOMBIE
  }

  ghost predicate HasSomeChild(ps: Table, p: nat) {
    exists c :: 0 <= c < |ps| && ps[c].parent == Some(p)
  }

  /* wait */

  lemma DecisionIs(s: State, p: nat)
    requires Sizes(s) && p < |s.procs|
    ensures var d := WaitDecision(WaitView(s, p), p);
            && (d.Reap? <==> HasZombie(s.procs, p))
            && (d.Fail? <==> !HasZombie(s.procs, p) && (s.procs[p].killed || !HasSomeChild(s.procs, p)))
            && (d.Block? <==> !HasZombie(s.procs, p) && !s.procs[p].killed && HasSomeChild(s.procs, p))
  {
    var ps := WaitView(s, p);
    assert forall i :: 0 <= i < |ps| ==> ps[i].parent == s.procs[i].parent && ps[i].state == s.procs[i].state;
    assert HasChild(ps, p) <==> HasSomeChild(s.procs, p) by {
      if c :| 0 <= c < |ps| && ps[c].parent == Some(p) {
        assert s.procs[c].parent == Some(p);
      }
      if c :| 0 <= c < |ps| && s.procs[c].parent == Some(p) {
        assert ps[c].parent == Some(p);
      }
    }
    if z :| 0 <= z < |ps| && s.procs[z].parent == Some(p) && s.procs[z].state == ZOMBIE {
      assert Matches(ps[z], ZombieOf(p));
    }
  }

  // wait() frees a slot and goes on exactly if its caller has a zombie child, falls asleep on its own
  // slot exactly if it has a child but no zombie and is not killed, and otherwise goes on having
  // changed nothing but its own chan.
  lemma WaitAnswers(states: seq<State>, acts: seq<Action>, n: nat)
    requires Run(states, acts) && n < |acts| && acts[n].Wait?
    ensures var s, s', p := states[n], states[n + 1], acts[n].p;
            && p < |s.procs| == |s'.procs| && p < |s'.threads|
            && (s'.reaped != s.reaped <==> HasZombie(s.procs, p))
            && (HasZombie(s.procs, p) ==> s'.threads[p] == Running(User) && s'.lock == None)
            && (s'.threads[p] == Leaving(InWait) <==>
                  HasSomeChild(s.procs, p) && !HasZombie(s.procs, p) && !s.procs[p].killed)
            && (s'.threads[p] == Leaving(InWait) ==>
                  s'.procs == s.procs[p := s.procs[p].(chan := ProcAddr(p), state := SLEEPING)] && s'.lock != None)
            && (!HasZombie(s.procs, p) && (!HasSomeChild(s.procs, p) || s.procs[p].killed) ==>
                  && s'.threads[p] == Running(User) && s'.lock == None
                  && s'.procs == s.procs[p := s.procs[p].(chan := s'.procs[p].chan)])
  {
    hide Inv, WaitDecision, HasZombie, HasSomeChild, Init, HoldsNone;
    RunKeepsInv(states, acts, n);
    var s, p := states[n], acts[n].p;
    assert Step(s, acts[n], states[n + 1]);
    DecisionIs(s, p);
    if WaitDecision(WaitView(s, p), p).Reap? {
      ReapIsNews(s, acts[n].c, p);
    }
  }

  lemma ReapIsNews(s: State, c: nat, p: nat)
    requires Inv(s) && CanWait(s, c, p) && WaitDecision(WaitView(s, p), p).Reap?
    ensures var s' := DoWait(s, c, p);
            |s'.procs| == |s.procs| && |s'.threads| == |s.threads| && s'.reaped != s.reaped && s'.threads[p] == Running(User)
  {
    hide Forks, Cpus, Wakeups;
    var z := WaitDecision(WaitView(s, p), p).slot;
    OnProcFacts(s, c, p);
    assert Matches(WaitView(s, p)[z], ZombieOf(p));
    assert s.procs[z].pid in s.exited && s.procs[z].pid !in s.reaped;
  }

  /* kill */

  // kill() marks the first slot with the pid and wakes it if it sleeps, on whatever channel; no other
  // slot changes, and none does if there is none with the pid.
  lemma KillAnswers(states: seq<State>, acts: seq<Action>, n: nat)
    requires Run(states, acts) && n < |acts| && acts[n].Kill?
    ensures var ps, pid := states[n].procs, acts[n].pid;
            && (forall k :: 0 <= k < |ps| && ps[k].pid == pid && (forall j :: 0 <= j < k ==> ps[j].pid != pid) ==>
                  states[n + 1].procs == ps[k := ps[k].(killed := true, state := if ps[k].state == SLEEPING then RUNNABLE else ps[k].state)])
            && ((forall k :: 0 <= k < |ps| ==> ps[k].pid != pid) ==> states[n + 1].procs == ps)
  {
    assert Step(states[n], acts[n], states[n + 1]);
    var ps, pid := states[n].procs, acts[n].pid;
    forall k: nat | k < |ps| && ps[k].pid == pid && (forall j :: 0 <= j < k ==> ps[j].pid != pid) ensures FindPid(ps, pid) == Some(k) {
      FirstIs(ps, Pid(pid), k);
    }
  }

  // So whoever a kill() finds is not asleep after it.
  lemma KilledIsNotAsleep(states: seq<State>, acts: seq<Action>, n: nat, i: nat)
    requires Run(states, acts) && n < |acts| && Kills(states[n], acts[n], i)
    ensures i < |states[n + 1].procs| && states[n + 1].procs[i].killed && states[n + 1].procs[i].state != SLEEPING
  {
    assert Step(states[n], acts[n], states[n + 1]);
  }

  /* wakeup and exit */

  // wakeup() makes the sleepers on its channel RUNNABLE and leaves all others as they are.
  lemma WakeupAnswers(states: seq<State>, acts: seq<Action>, n: nat, i: nat)
    requires Run(states, acts) && n < |acts| && acts[n].Wakeup? && i < |states[n].procs|
    ensures |states[n + 1].procs| == |states[n].procs|
    ensures var p := states[n].procs[i];
            states[n + 1].procs[i] == if p.state == SLEEPING && p.chan == Other(acts[n].ch) then p.(state := RUNNABLE) else p
  {
    assert Step(states[n], acts[n], states[n + 1]);
  }

  // exit() does to every slot what the fields say; init, asleep in wait(), is left asleep by it exactly
  // if it is neither the parent nor inherits a zombie.
  lemma ExitAnswers(states: seq<State>, acts: seq<Action>, n: nat, i: nat)
    requires Run(states, acts) && n < |acts| && acts[n].Exit? && i < |states[n].procs|
    ensures |states[n + 1].procs| == |states[n].procs|
    ensures ProcCode.ExitFields(states[n].procs, acts[n].p, i, states[n + 1].procs[i])
    ensures i == 0 && states[n].procs[0].state == SLEEPING && states[n].procs[0].chan == ProcAddr(0) ==>
              (states[n + 1].procs[0].state == SLEEPING <==>
                 states[n].procs[acts[n].p].parent != Some(0) && !HasZombie(states[n].procs, acts[n].p))
  {
    assert Step(states[n], acts[n], states[n + 1]);
    ProcCode.ExitSlotFields(states[n].procs, acts[n].p, i);
    assert states[n + 1].procs[i] == ExitSlot(states[n].procs, acts[n].p, i);
  }

  /* chan */

  // The channel that belongs to where a thread is.
  ghost function ChanOf(t: Thread, i: nat): Chan {
    match t
    case Leaving(InSleep(ch, _)) => Other(ch)
    case Saved(InSleep(ch, _)) => Other(ch)
    case Entering(InSleep(ch, _)) => Other(ch)
    case Leaving(InWait) => ProcAddr(i)
    case Saved(InWait) => ProcAddr(i)
    case Entering(InWait) => ProcAddr(i)
    case _ => NoChan
  }

  ghost predicate Chans(s: State) {
    Sizes(s) && forall i :: 0 <= i < |s.procs| ==> s.procs[i].chan == ChanOf(s.threads[i], i)
  }

  lemma AllocKeepsChans(s: State, c: nat, p: nat)
    requires Chans(s) && CanAlloc(s, c, p)
    ensures Chans(DoAlloc(s, c, p))
  {
  }

  lemma ForkKeepsChans(s: State, act: Action, s': State)
    requires Inv(s) && Chans(s) && Step(s, act, s') && Forking(act)
    ensures Chans(s')
  {
    hide Wakeups, History, Cpus, TableInv, FirstFrom;
    if act.Alloc? {
      AllocKeepsChans(s, act.c, act.p);
    } else {
      OwnedSlot(s, act.c, act.p, act.np);
    }
  }

  lemma ZombieHasNoChan(s: State, z: nat)
    requires Inv(s) && Chans(s) && z < |s.procs| && s.procs[z].state == ZOMBIE
    ensures s.procs[z].chan == NoChan
  {
    hide TableInv, Forks, Cpus, Wakeups, History;
    assert ThreadOk(s.procs[z], s.threads[z], z);
  }

  lemma WaitKeepsChans(s: State, c: nat, p: nat)
    requires Inv(s) && Chans(s) && CanWait(s, c, p)
    ensures Chans(DoWait(s, c, p))
  {
    hide Inv, WaitDecision, HoldsNone;
    var d := WaitDecision(WaitView(s, p), p);
    if d.Reap? {
      ReapTarget(s, p);
      ZombieHasNoChan(s, d.slot);
    }
  }

  lemma ReapTarget(s: State, p: nat)
    requires Sizes(s) && p < |s.procs| && WaitDecision(WaitView(s, p), p).Reap?
    ensures var z := WaitDecision(WaitView(s, p), p).slot; z < |s.procs| && s.procs[z].state == ZOMBIE
  {
    assert Matches(WaitView(s, p)[WaitDecision(WaitView(s, p), p).slot], ZombieOf(p));
  }

  lemma ExitKeepsChans(s: State, c: nat, p: nat)
    requires Chans(s) && CanExit(s, c, p)
    ensures Chans(DoExit(s, c, p))
  {
  }

  lemma OthersKeepChans(s: State, act: Action, s': State)
    requires Chans(s) && Step(s, act, s') && !Forking(act) && !act.Wait? && !act.Exit?
    ensures Chans(s')
  {
    hide FirstFrom, WaitDecision, ExitTable;
  }

  lemma {:induction false} RunKeepsChans(states: seq<State>, acts: seq<Action>, n: nat)
    requires Run(states, acts) && n < |states|
    ensures Chans(states[n])
  {
    hide Inv, Chans, Step;
    if n == 0 {
      ChansAtFirst(states[0]);
    } else {
      RunKeepsChans(states, acts, n - 1);
      RunKeepsInv(states, acts, n - 1);
      StepKeepsChans(states[n - 1], acts[n - 1], states[n]);
    }
  }

  lemma ChansAtFirst(s: State)
    requires Init(s)
    ensures Chans(s)
  {
  }

  lemma StepKeepsChans(s: State, act: Action, s': State)
    requires Inv(s) && Chans(s) && Step(s, act, s')
    ensures Chans(s')
  {
    hide Inv, Chans;
    if Forking(act) {
      ForkKeepsChans(s, act, s');
    } else if act.Wait? {
      WaitKeepsChans(s, act.c, act.p);
    } else if act.Exit? {
      ExitKeepsChans(s, act.c, act.p);
    } else {
      OthersKeepChans(s, act, s');
    }
  }

  // In every reachable state chan is set exactly between the last writes of sleep() before sched() and
  // the first after it: a process running its own code has none.
  lemma ChanTellsSleep(states: seq<State>, acts: seq<Action>, n: nat, i: nat)
    requires Run(states, acts) && n < |states| && i < |states[n].procs|
    ensures i < |states[n].threads|
    ensures states[n].threads[i].Running? || states[n].threads[i].AtSleep? || states[n].threads[i] == NoThread ==>
              states[n].procs[i].chan == NoChan
    ensures states[n].procs[i].chan != NoChan ==>
              var t := states[n].threads[i];
              (t.Leaving? || t.Saved? || t.Entering?) && (t.k.InSleep? || t.k.InWait?)
  {
    RunKeepsChans(states, acts, n);
  }

  /* What can be done */

  // A process that runs its own code, with ptable.lock free and no lock of its own, can make every call.
  lemma EveryCallIsOpen(states: seq<State>, acts: seq<Action>, n: nat, c: nat, p: nat)
    requires Run(states, acts) && n < |states| && c < |states[n].cpus| && states[n].cpus[c] == Cpu(Some(p), InProc)
    requires states[n].lock == None
    requires forall l :: 0 <= l < |states[n].lks| ==> states[n].lks[l] == Free || states[n].lks[l].owner != Slot(p)
    ensures p < |states[n].procs| && p < |states[n].threads| && states[n].threads[p].Running? && CanYield(states[n], c, p)
    ensures states[n].threads[p] == Running(User) ==>
              && CanWait(states[n], c, p) && CanKill(states[n], c, p) && CanSetTickets(states[n], c, p)
              && (p != 0 ==> CanExit(states[n], c, p))
              && ((exists i :: 0 <= i < |states[n].procs| && states[n].procs[i].state == UNUSED) ==> CanAlloc(states[n], c, p))
  {
    hide WaitDecision, Forks, History, Wakeups, TableInv;
    RunKeepsInv(states, acts, n);
    var s := states[n];
    assert CpuOk(s.procs, s.threads, s.cpus, s.lock, c);
    if i :| 0 <= i < |s.procs| && s.procs[i].state == UNUSED {
      assert Matches(s.procs[i], Unused);
    }
  }

  // And it can go to sleep on any other lock it holds, as long as its condition is false.
  lemma SleepIsOpen(states: seq<State>, acts: seq<Action>, n: nat, c: nat, p: nat, ch: nat, want: iset<int>)
    requires Run(states, acts) && n < |states| && c < |states[n].cpus| && states[n].cpus[c] == Cpu(Some(p), InProc)
    requires states[n].lock == None && p < |states[n].threads| && states[n].threads[p] == Running(User)
    requires ch < |states[n].lks| == |states[n].data| && states[n].lks[ch] == Held(Slot(p), false)
    requires states[n].data[ch] !in want
    requires forall l :: 0 <= l < |states[n].lks| && l != ch ==> states[n].lks[l] == Free || states[n].lks[l].owner != Slot(p)
    ensures CanSleepLock(states[n], c, p, ch, want)
  {
    RunKeepsInv(states, acts, n);
  }

  // A fork under way can go on, or fail, from wherever it is.
  lemma ForkIsOpen(states: seq<State>, acts: seq<Action>, n: nat, c: nat, p: nat, np: nat)
    requires Run(states, acts) && n < |states| && c < |states[n].cpus| && states[n].cpus[c] == Cpu(Some(p), InProc)
    requires p < |states[n].threads| && states[n].threads[p].Running?
    ensures states[n].threads[p].ctl == ForkAlloc(np) ==> CanKallocOk(states[n], c, p, np) && CanKallocFail(states[n], c, p, np)
    ensures states[n].threads[p].ctl == ForkStack(np) ==> CanAdopt(states[n], c, p, np) && CanCopyFail(states[n], c, p, np)
    ensures states[n].threads[p].ctl == ForkParent(np) && states[n].lock == None ==> CanForkDone(states[n], c, p, np)
  {
    RunKeepsInv(states, acts, n);
    if Owns(states[n].threads, p, np) {
      OwnedSlot(states[n], c, p, np);
    }
  }

  // A CPU in scheduler() that finds ptable.lock free can make its pass.
  lemma PassIsOpen(states: seq<State>, acts: seq<Action>, n: nat, c: nat) returns (r: Option<nat>)
    requires Run(states, acts) && n < |states| && c < |states[n].cpus| && states[n].cpus[c].at == Top && states[n].lock == None
    ensures CanSchedule(states[n], c, r)
  {
    hide Step, Init;
    RunKeepsInv(states, acts, n);
    var ps := states[n].procs;
    var draw := if 0 <= L.Total(ps) then 0 else L.Total(ps);
    L.PassIsWorkConserving(ps, draw);
    if L.AnyRunnable(ps) {
      var i := L.FirstReaching(ps, draw, |ps|);
      r := Some(i);
    } else {
      r := None;
    }
    assert IsDraw(ps, draw) && L.IsPick(ps, draw, r);
  }
}

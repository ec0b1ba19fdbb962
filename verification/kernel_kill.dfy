// Which slots are marked killed. kill() does not look for UNUSED slots, and allocproc() does not clear
// the mark, so a process can be born killed.
module KernelKill {
  import opened Util
  import opened ProcTable
  import opened Kernel
  import opened KernelTheorems
  import L = Lottery

  ghost predicate Kills(s: State, act: Action, i: nat) {
    act.Kill? && FindPid(s.procs, act.pid) == Some(i)
  }

  lemma KillMarks(s: State, c: nat, p: nat, pid: int, i: nat)
    requires CanKill(s, c, p) && i < |s.procs|
    ensures |DoKill(s, c, p, pid).procs| == |s.procs|
    ensures DoKill(s, c, p, pid).procs[i].killed <==> FindPid(s.procs, pid) == Some(i) || s.procs[i].killed
  {
  }

  lemma WaitClears(s: State, c: nat, p: nat, i: nat)
    requires CanWait(s, c, p) && i < |s.procs|
    ensures |DoWait(s, c, p).procs| == |s.procs|
    ensures DoWait(s, c, p).procs[i].killed <==> s.procs[i].killed && WaitDecision(WaitView(s, p), p) != Reap(i)
  {
  }

  lemma OthersLeaveMarks(s: State, act: Action, s': State, i: nat)
    requires Step(s, act, s') && i < |s.procs| && !act.Kill? && !act.Wait?
    ensures |s'.procs| == |s.procs| && s'.procs[i].killed == s.procs[i].killed
  {
    hide WaitDecision, KillTable, FirstFrom;
  }

  lemma KilledStep(s: State, act: Action, s': State, i: nat)
    requires Step(s, act, s') && i < |s.procs|
    ensures |s'.procs| == |s.procs|
    ensures s'.procs[i].killed <==> Kills(s, act, i) || (s.procs[i].killed && !Reaps(s, act, i))
  {
    hide WaitDecision, WaitView, FirstFrom;
    if act.Kill? {
      KillMarks(s, act.c, act.p, act.pid, i);
    } else if act.Wait? {
      WaitClears(s, act.c, act.p, i);
    } else {
      OthersLeaveMarks(s, act, s', i);
    }
  }

  // Step "k" is a kill() that found the slot, and no wait() has freed the slot since.
  ghost predicate StandingKill(states: seq<State>, acts: seq<Action>, k: nat, n: nat, i: nat)
    requires k < n <= |acts| < |states|
  {
    Kills(states[k], acts[k], i) && forall m :: k < m < n ==> !Reaps(states[m], acts[m], i)
  }

  ghost predicate KilledSince(states: seq<State>, acts: seq<Action>, n: nat, i: nat)
    requires n <= |acts| < |states|
  {
    exists k :: 0 <= k < n && StandingKill(states, acts, k, n, i)
  }

  lemma KilledSinceStep(states: seq<State>, acts: seq<Action>, n: nat, i: nat)
    requires n < |acts| < |states|
    ensures KilledSince(states, acts, n + 1, i) <==>
            Kills(states[n], acts[n], i) || (KilledSince(states, acts, n, i) && !Reaps(states[n], acts[n], i))
  {
    hide Kills, Reaps;
    assert Kills(states[n], acts[n], i) <==> StandingKill(states, acts, n, n + 1, i);
    if KilledSince(states, acts, n, i) && !Reaps(states[n], acts[n], i) {
      var k :| 0 <= k < n && StandingKill(states, acts, k, n, i);
      assert StandingKill(states, acts, k, n + 1, i);
    }
    if KilledSince(states, acts, n + 1, i) && !Kills(states[n], acts[n], i) {
      var k :| 0 <= k < n + 1 && StandingKill(states, acts, k, n + 1, i);
      assert k != n;
      assert StandingKill(states, acts, k, n, i);
    }
  }

  // In every run a slot, whoever it belongs to, is marked exactly if a kill() has found it since it
  // was last freed by wait().
  lemma {:induction false} KilledIff(states: seq<State>, acts: seq<Action>, n: nat, i: nat)
    requires Run(states, acts) && n < |states| && i < |states[0].procs|
    ensures |states[n].procs| == |states[0].procs|
    ensures states[n].procs[i].killed <==> KilledSince(states, acts, n, i)
  {
    hide Step, KilledSince, Kills, Reaps;
    if n == 0 {
      NoneKilledAtFirst(states, acts, i);
    } else {
      KilledIff(states, acts, n - 1, i);
      KilledStep(states[n - 1], acts[n - 1], states[n], i);
      KilledSinceStep(states, acts, n - 1, i);
    }
  }

  lemma NoneKilledAtFirst(states: seq<State>, acts: seq<Action>, i: nat)
    requires Run(states, acts) && i < |states[0].procs|
    ensures !states[0].procs[i].killed && !KilledSince(states, acts, 0, i)
  {
  }

  // So fork() makes a child that is not killed from the start exactly if no kill() has found its slot
  // since then, before or after it was claimed.
  lemma ChildStartsUnkilledIff(states: seq<State>, acts: seq<Action>, n: nat)
    requires Run(states, acts) && n < |acts| && acts[n].ForkDone? && acts[n].np < |states[0].procs|
    ensures var np := acts[n].np;
            && np < |states[n + 1].procs| && states[n + 1].procs[np].state == RUNNABLE
            && (!states[n + 1].procs[np].killed <==> !KilledSince(states, acts, n, np))
  {
    hide KilledSince;
    KilledIff(states, acts, n, acts[n].np);
    assert Step(states[n], acts[n], states[n + 1]);
    KilledStep(states[n], acts[n], states[n + 1], acts[n].np);
    assert !Kills(states[n], acts[n], acts[n].np) && !Reaps(states[n], acts[n], acts[n].np);
  }

  /* A run in which kill(0) marks a free slot and the next child is born in it */

  function Born(p0: Proc, p1: Proc, t0: Thread, t1: Thread, cpu: Cpu, lock: Option<nat>, nextpid: int): State {
    State([p0, p1], nextpid, [t0, t1], [cpu], lock, [], [], {}, map[], 0)
  }

  function InitProc(st: ProcState): Proc {
    Proc(st, 1, None, NoChan, false, MAGIC_TICKET_NUM)
  }

  const MARKED: Proc := FREE_SLOT.(killed := true)
  const CLAIMED: Proc := Proc(EMBRYO, 2, None, NoChan, true, MAGIC_TICKET_NUM)

  function BornStates(): seq<State> {
    var on := Cpu(Some(0), InProc);
    [ Born(InitProc(RUNNABLE), FREE_SLOT, Saved(AtForkret), NoThread, Cpu(None, Top), None, 2),
      Born(InitProc(RUNNING), FREE_SLOT, Saved(AtForkret), NoThread, Cpu(Some(0), Picked), Some(0), 2),
      Born(InitProc(RUNNING), FREE_SLOT, Entering(AtForkret), NoThread, on, Some(0), 2),
      Born(InitProc(RUNNING), FREE_SLOT, Running(User), NoThread, on, None, 2),
      Born(InitProc(RUNNING), MARKED, Running(User), NoThread, on, None, 2),
      Born(InitProc(RUNNING), CLAIMED, Running(ForkAlloc(1)), NoThread, on, None, 3),
      Born(InitProc(RUNNING), CLAIMED, Running(ForkStack(1)), Saved(AtForkret), on, None, 3),
      Born(InitProc(RUNNING), CLAIMED.(parent := Some(0)), Running(ForkParent(1)), Saved(AtForkret), on, None, 3),
      Born(InitProc(RUNNING), CLAIMED.(parent := Some(0), state := RUNNABLE), Running(User), Saved(AtForkret), on, None, 3) ]
  }

  function BornActions(): seq<Action> {
    [ Schedule(0, Some(0)), SwitchIn(0, 0), Resume(0, 0), Kill(0, 0, 0), Alloc(0, 0), KallocOk(0, 0, 1), Adopt(0, 0, 1),
      ForkDone(0, 0, 1) ]
  }

  lemma BornIsPicked()
    ensures Step(BornStates()[0], Schedule(0, Some(0)), BornStates()[1])
  {
    var ps := BornStates()[0].procs;
    assert L.Prefix(ps, 1) == L.Prefix(ps, 2) == 20 by {
      assert L.Prefix(ps, 0) == 0;
    }
    assert IsDraw(ps, 0) && L.IsPick(ps, 0, Some(0));
  }

  lemma BornRuns(i: nat)
    requires 1 <= i < 3
    ensures Step(BornStates()[i], BornActions()[i], BornStates()[i + 1])
  {
  }

  lemma BornMarks()
    ensures Step(BornStates()[3], Kill(0, 0, 0), BornStates()[4])
  {
    FirstIs(BornStates()[3].procs, Pid(0), 1);
  }

  lemma BornClaims()
    ensures Step(BornStates()[4], Alloc(0, 0), BornStates()[5])
  {
    FirstIs(BornStates()[4].procs, Unused, 1);
  }

  lemma BornForks(i: nat)
    requires 5 <= i < 8
    ensures Step(BornStates()[i], BornActions()[i], BornStates()[i + 1])
  {
  }

  lemma ChildIsBornKilled()
    ensures Run(BornStates(), BornActions())
    ensures var child := BornStates()[8].procs[1]; child.state == RUNNABLE && child.parent == Some(INIT) && child.killed
  {
    hide Step;
    forall i | 0 <= i < 8 ensures Step(BornStates()[i], BornActions()[i], BornStates()[i + 1]) {
      BornIsPicked();
      BornMarks();
      BornClaims();
      if 1 <= i < 3 {
        BornRuns(i);
      } else if 5 <= i {
        BornForks(i);
      }
    }
  }
}

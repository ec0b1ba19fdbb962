// hw3/proc.c: the loops over ptable.proc, run on an array, against the table functions that the
// interleaving model in kernel.dfy takes as its steps.
module ProcCode {
  import opened Util
  import opened ProcTable
  import L = Lottery

  // ExitSlot after the re-parenting loop has passed the first "k" slots and before the final write.
  ghost function ExitProgress(ps: Table, me: nat, k: nat, i: nat): Proc
    requires me < |ps| && i < |ps|
  {
    var p := ps[i];
    var woken :=
      || Woken(p, AddrOf(ps[me].parent))
      || (Woken(p, ProcAddr(INIT)) && exists z :: 0 <= z < k && ZombieChild(ps, z, me));
    p.(state := if woken then RUNNABLE else p.state,
       parent := if i < k && p.parent == Some(me) then Some(INIT) else p.parent)
  }

  ghost predicate FirstUnused(ps: Table, np: nat) {
    np < |ps| && ps[np].state == UNUSED && forall j :: 0 <= j < np ==> ps[j].state != UNUSED
  }

  // What exit() by "me" makes of slot "i": its own becomes a zombie, its children are init's, and who
  // sleeps is woken if it is the parent, or init and there is a zombie to inherit; else nothing changes.
  ghost predicate ExitFields(ps: Table, me: nat, i: nat, q: Proc) {
    && me < |ps| && i < |ps|
    && q.pid == ps[i].pid && q.chan == ps[i].chan && q.killed == ps[i].killed && q.tickets == ps[i].tickets
    && q.parent == (if ps[i].parent == Some(me) then Some(0) else ps[i].parent)
    && (i == me ==> q.state == ZOMBIE)
    && (i != me && ps[i].state != SLEEPING ==> q.state == ps[i].state)
    && (i != me && ps[i].state == SLEEPING ==>
          if ps[i].chan == (if ps[me].parent.Some? then ProcAddr(ps[me].parent.value) else NoChan)
             || (ps[i].chan == ProcAddr(0) && exists z :: 0 <= z < |ps| && ps[z].parent == Some(me) && ps[z].state == ZOMBIE)
          then q.state == RUNNABLE else q.state == SLEEPING)
  }

  lemma ExitSlotFields(ps: Table, me: nat, i: nat)
    requires me < |ps| && i < |ps|
    ensures ExitFields(ps, me, i, ExitSlot(ps, me, i))
  {
    assert LeavesZombie(ps, me) <==> exists z :: 0 <= z < |ps| && ps[z].parent == Some(me) && ps[z].state == ZOMBIE by {
      if z: nat :| ZombieChild(ps, z, me) {
        assert ps[z].parent == Some(me) && ps[z].state == ZOMBIE;
      }
      if z :| 0 <= z < |ps| && ps[z].parent == Some(me) && ps[z].state == ZOMBIE {
        assert ZombieChild(ps, z, me);
      }
    }
  }

  class PTable {
    const proc: array<Proc>
    var nextpid: int

    ghost function Contents(): Table
      reads this, proc
    {
      proc[..]
    }

    constructor (n: nat)
      requires 0 < n
      ensures fresh(proc) && proc.Length == n
      ensures nextpid == 1 && forall i :: 0 <= i < n ==> proc[i] == Proc(UNUSED, 0, None, NoChan, false, 0)
    {
      proc := new Proc[n](i => FREE_SLOT);
      nextpid := 1;
    }

    method Wakeup1(chan: Chan)
      modifies proc
      ensures Contents() == WakeTable(old(Contents()), chan)
      ensures forall i :: 0 <= i < proc.Length ==>
                var p := old(proc[i]);
                proc[i] == if p.state == SLEEPING && p.chan == chan then p.(state := RUNNABLE) else p
    {
      var p := 0;
      while p < proc.Length
        invariant 0 <= p <= proc.Length
        invariant forall i :: 0 <= i < p ==> proc[i] == WakeSlot(old(proc[i]), chan)
        invariant forall i :: p <= i < proc.Length ==> proc[i] == old(proc[i])
      {
        if proc[p].state == SLEEPING && proc[p].chan == chan {
          proc[p] := proc[p].(state := RUNNABLE);
        }
        p := p + 1;
      }
    }

    // A failed kalloc() frees the slot but leaves the pid it was given.
    method AllocProc(kallocOk: bool) returns (r: Option<nat>)
      modifies this, proc
      ensures var np := FindUnused(old(Contents()));
              if np.None? then r == None && Contents() == old(Contents()) && nextpid == old(nextpid)
              else
                && nextpid == old(nextpid) + 1
                && var t := AllocTable(old(Contents()), np.value, old(nextpid));
                   if kallocOk then r == np && Contents() == t
                   else r == None && Contents() == SetState(t, np.value, UNUSED)
    {
      ghost var ps := Contents();
      var p := 0;
      while p < proc.Length && proc[p].state != UNUSED
        invariant 0 <= p <= proc.Length
        invariant forall i :: 0 <= i < p ==> proc[i].state != UNUSED
      {
        p := p + 1;
      }
      assert First(ps, Unused) == if p < |ps| then Some(p) else None by {
        FirstIs(ps, Unused, p);
      }
      if p == proc.Length {
        return None;
      }
      proc[p] := proc[p].(state := EMBRYO);
      proc[p] := proc[p].(pid := nextpid);
      nextpid := nextpid + 1;
      proc[p] := proc[p].(tickets := MAGIC_TICKET_NUM);
      if !kallocOk {
        proc[p] := proc[p].(state := UNUSED);
        return None;
      }
      r := Some(p);
    }

    // fork() with no other CPU running in between.
    method Fork(me: nat, kallocOk: bool, copyOk: bool) returns (pid: int)
      requires me < proc.Length
      modifies this, proc
      ensures var np := FindUnused(old(Contents()));
              if np.None? then pid == -1 && Contents() == old(Contents()) && nextpid == old(nextpid)
              else
                && nextpid == old(nextpid) + 1
                && var t := AllocTable(old(Contents()), np.value, old(nextpid));
                   if kallocOk && copyOk
                   then pid == old(nextpid) && Contents() == SetState(SetParent(t, np.value, me), np.value, RUNNABLE)
                   else pid == -1 && Contents() == SetState(t, np.value, UNUSED)
      ensures forall np: nat :: FirstUnused(old(Contents()), np) ==>
                var p := old(Contents())[np];
                Contents() == old(Contents())[np :=
                  if kallocOk && copyOk then Proc(RUNNABLE, pid, Some(me), p.chan, p.killed, 20)
                  else Proc(UNUSED, old(nextpid), p.parent, p.chan, p.killed, 20)]
      ensures (forall i :: 0 <= i < proc.Length ==> old(proc[i]).state != UNUSED) ==> pid == -1 && Contents() == old(Contents())
    {
      forall np: nat | FirstUnused(Contents(), np) ensures FindUnused(Contents()) == Some(np) {
        FirstIs(Contents(), Unused, np);
      }
      var r := AllocProc(kallocOk);
      if r.None? {
        return -1;
      }
      var np := r.value;
      if !copyOk {
        proc[np] := proc[np].(state := UNUSED);
        return -1;
      }
      proc[np] := proc[np].(parent := Some(me));
      pid := proc[np].pid;
      proc[np] := proc[np].(state := RUNNABLE);
    }

    // exit() from acquiring ptable.lock to entering sched().
    method Exit(me: nat)
      requires INIT != me < proc.Length
      modifies proc
      ensures Contents() == ExitTable(old(Contents()), me)
      ensures forall i :: 0 <= i < proc.Length ==> ExitFields(old(Contents()), me, i, proc[i])
    {
      ghost var ps := Contents();
      Wakeup1(AddrOf(proc[me].parent));
      var p := 0;
      while p < proc.Length
        invariant 0 <= p <= proc.Length
        invariant forall i :: 0 <= i < proc.Length ==> proc[i] == ExitProgress(ps, me, p, i)
      {
        if proc[p].parent == Some(me) {
          proc[p] := proc[p].(parent := Some(INIT));
          if proc[p].state == ZOMBIE {
            assert ZombieChild(ps, p, me);
            Wakeup1(ProcAddr(INIT));
          }
        }
        p := p + 1;
      }
      proc[me] := proc[me].(state := ZOMBIE);
      forall i | 0 <= i < proc.Length ensures ExitFields(ps, me, i, proc[i]) {
        ExitSlotFields(ps, me, i);
        assert ExitTable(ps, me)[i] == ExitSlot(ps, me, i);
      }
    }

    // One scan of wait(), from holding ptable.lock to returning or entering sched().
    method Wait(me: nat) returns (outcome: WaitOutcome, pid: int)
      requires me < proc.Length
      modifies proc
      ensures outcome == WaitDecision(old(Contents()), me)
      ensures Contents() == WaitTable(old(Contents()), me)
      ensures outcome.Reap? ==> pid == old(Contents())[outcome.slot].pid
      ensures outcome.Fail? ==> pid == -1
      ensures outcome.Reap? <==> exists z :: 0 <= z < proc.Length && old(proc[z]).parent == Some(me) && old(proc[z]).state == ZOMBIE
      ensures outcome.Fail? <==>
              && (forall z :: 0 <= z < proc.Length && old(proc[z]).parent == Some(me) ==> old(proc[z]).state != ZOMBIE)
              && (old(proc[me]).killed || forall c :: 0 <= c < proc.Length ==> old(proc[c]).parent != Some(me))
      ensures outcome.Fail? ==> Contents() == old(Contents())
      ensures outcome.Block? ==>
              Contents() == old(Contents())[me := old(Contents())[me].(chan := ProcAddr(me), state := SLEEPING)]
      ensures outcome.Reap? ==>
              var z := outcome.slot;
              && z < proc.Length && old(proc[z]).parent == Some(me) && old(proc[z]).state == ZOMBIE && pid == old(proc[z]).pid
              && (forall i :: 0 <= i < z && old(proc[i]).parent == Some(me) ==> old(proc[i]).state != ZOMBIE)
              && Contents() == old(Contents())[z := Proc(UNUSED, 0, None, old(proc[z]).chan, false, old(proc[z]).tickets)]
    {
      ghost var ps := Contents();
      var havekids := false;
      var p := 0;
      while p < proc.Length
        invariant 0 <= p <= proc.Length
        invariant forall i :: 0 <= i < p ==> !Matches(ps[i], ZombieOf(me))
        invariant havekids <==> exists i :: 0 <= i < p && ps[i].parent == Some(me)
        invariant Contents() == ps
      {
        if proc[p].parent == Some(me) {
          havekids := true;
          if proc[p].state == ZOMBIE {
            FirstIs(ps, ZombieOf(me), p);
            pid := proc[p].pid;
            proc[p] := proc[p].(state := UNUSED);
            proc[p] := proc[p].(pid := 0);
            proc[p] := proc[p].(parent := None);
            proc[p] := proc[p].(killed := false);
            return Reap(p), pid;
          }
        }
        p := p + 1;
      }
      FirstIs(ps, ZombieOf(me), p);
      if !havekids || proc[me].killed {
        return Fail, -1;
      }
      proc[me] := proc[me].(chan := ProcAddr(me));
      proc[me] := proc[me].(state := SLEEPING);
      return Block, 0;
    }

    // kill() does not skip UNUSED slots.
    method Kill(pid: int) returns (r: int)
      modifies proc
      ensures Contents() == KillTable(old(Contents()), pid)
      ensures r == 0 <==> exists i :: 0 <= i < proc.Length && old(Contents())[i].pid == pid
      ensures r == 0 || r == -1
      ensures r == -1 ==> Contents() == old(Contents())
      ensures forall k :: 0 <= k < proc.Length && old(proc[k]).pid == pid && (forall j :: 0 <= j < k ==> old(proc[j]).pid != pid) ==>
                var p := old(proc[k]);
                Contents() == old(Contents())[k := p.(killed := true, state := if p.state == SLEEPING then RUNNABLE else p.state)]
    {
      ghost var ps := Contents();
      var p := 0;
      while p < proc.Length
        invariant 0 <= p <= proc.Length
        invariant forall i :: 0 <= i < p ==> ps[i].pid != pid
        invariant Contents() == ps
      {
        if proc[p].pid == pid {
          FirstIs(ps, Pid(pid), p);
          proc[p] := proc[p].(killed := true);
          if proc[p].state == SLEEPING {
            proc[p] := proc[p].(state := RUNNABLE);
          }
          return 0;
        }
        p := p + 1;
      }
      FirstIs(ps, Pid(pid), p);
      r := -1;
    }

    // One turn of scheduler()'s loop up to the swtch(). "draw" is what random_at_most() answers, any
    // value up to its argument. The counters are C ints and do not overflow.
    method SchedulerPass(draw: int32) returns (chosen: Option<nat>)
      requires L.SumsFit(Contents()) && draw as int <= L.Total(Contents())
      modifies proc
      ensures L.IsPick(old(Contents()), draw as int, chosen)
      ensures chosen.Some? <==> L.AnyRunnable(old(Contents()))
      ensures Contents() == if chosen.Some? then SetState(old(Contents()), chosen.value, RUNNING) else old(Contents())
    {
      ghost var ps := Contents();
      var num_tickets: int32 := 0;
      var p := 0;
      while p < proc.Length
        invariant 0 <= p <= proc.Length
        invariant num_tickets as int == L.Prefix(ps, p)
        invariant Contents() == ps
      {
        assert -INT_MAX - 1 <= L.Prefix(ps, p + 1) <= INT_MAX;
        if proc[p].state == RUNNABLE {
          num_tickets := num_tickets + proc[p].tickets;
        }
        p := p + 1;
      }
      var winner := draw;
      assert winner <= num_tickets;
      L.PassIsWorkConserving(ps, winner as int);
      var counter: int32 := 0;
      p := 0;
      while p < proc.Length
        invariant 0 <= p <= proc.Length
        invariant counter as int == L.Prefix(ps, p)
        invariant forall j :: 0 <= j < p && ps[j].state == RUNNABLE ==> L.Prefix(ps, j + 1) < winner as int
        invariant Contents() == ps
      {
        assert -INT_MAX - 1 <= L.Prefix(ps, p + 1) <= INT_MAX;
        if proc[p].state == RUNNABLE {
          counter := counter + proc[p].tickets;
          if counter >= winner {
            proc[p] := proc[p].(state := RUNNING);
            assert L.Chosen(ps, winner as int, p);
            return Some(p);
          }
        }
        p := p + 1;
      }
      chosen := None;
    }

    // sys_settickets(): any int will do.
    method SetTickets(me: nat, tix: int32) returns (r: int32)
      requires me < proc.Length
      modifies proc
      ensures r == tix && Contents() == old(Contents())[me := old(Contents())[me].(tickets := tix)]
      ensures Contents() == ProcTable.SetTickets(old(Contents()), me, tix)
    {
      proc[me] := proc[me].(tickets := tix);
      r := proc[me].tickets;
    }

    // The writes of sleep() between taking ptable.lock and sched().
    method GoToSleep(me: nat, chan: Chan)
      requires me < proc.Length
      modifies proc
      ensures Contents() == SleepTable(old(Contents()), me, chan)
    {
      proc[me] := proc[me].(chan := chan);
      proc[me] := proc[me].(state := SLEEPING);
    }
  }
}

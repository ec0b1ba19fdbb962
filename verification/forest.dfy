// What every step keeps true of the process table alone: pids, the parent forest, and who may be
// asleep in wait().
module Forest {
  import opened Util
  import opened ProcTable

  ghost predicate Pids(ps: Table, nextpid: int) {
    && (forall i :: 0 <= i < |ps| ==> 0 <= ps[i].pid < nextpid && (ps[i].state != UNUSED ==> 0 < ps[i].pid))
    && (forall i, j :: 0 <= i < j < |ps| && ps[i].pid == ps[j].pid ==> ps[i].pid == 0)
  }

  // initproc is always there, and every other process has a parent.
  ghost predicate Rooted(ps: Table) {
    && INIT < |ps|
    && Alive(ps[INIT]) && ps[INIT].pid == 1 && ps[INIT].parent == None
    && (forall i :: 0 <= i < |ps| && i != INIT && (Alive(ps[i]) || ps[i].state == ZOMBIE) ==> ps[i].parent.Some?)
  }

  // A parent is a live, older process; an empty slot has none.
  ghost predicate Edge(ps: Table, c: nat, p: nat)
    requires c < |ps|
  {
    p < |ps| && Alive(ps[p]) && ps[p].pid < ps[c].pid && ps[c].state != UNUSED
  }

  ghost predicate Parents(ps: Table) {
    forall c :: 0 <= c < |ps| && ps[c].parent.Some? ==> Edge(ps, c, ps[c].parent.value)
  }

  // Asleep in wait() means: not killed, and some child to wait for, none of them a zombie.
  ghost predicate JustifiedWait(ps: Table, i: nat)
    requires i < |ps|
  {
    && ps[i].chan == ProcAddr(i)
    && !ps[i].killed
    && (exists c: nat :: Child(ps, c, i))
    && (forall c: nat :: !ZombieChild(ps, c, i))
  }

  ghost predicate Waits(ps: Table) {
    forall i :: 0 <= i < |ps| && SleepsInWait(ps[i]) ==> JustifiedWait(ps, i)
  }

  ghost predicate TableInv(ps: Table, nextpid: int) {
    Pids(ps, nextpid) && Rooted(ps) && Parents(ps) && Waits(ps)
  }

  /* Steps that leave pids and parents alone */

  // Slots change state only among the live ones, and nobody newly sleeps in wait().
  ghost predicate ShiftSlot(p: Proc, q: Proc) {
    && q.pid == p.pid && q.parent == p.parent
    && (q.state == p.state || (Alive(p) && Alive(q)))
    && (SleepsInWait(q) ==> SleepsInWait(p) && q.chan == p.chan && q.killed == p.killed)
  }

  ghost predicate Shifts(ps: Table, qs: Table) {
    |qs| == |ps| && forall i :: 0 <= i < |ps| ==> ShiftSlot(ps[i], qs[i])
  }

  lemma ShiftKeeps(ps: Table, qs: Table, nextpid: int)
    requires TableInv(ps, nextpid) && Shifts(ps, qs)
    ensures TableInv(qs, nextpid)
  {
    ShiftKeepsPids(ps, qs, nextpid);
    ShiftKeepsParents(ps, qs);
    forall i | 0 <= i < |qs| && SleepsInWait(qs[i]) ensures JustifiedWait(qs, i) {
      ShiftKeepsWait(ps, qs, i);
    }
  }

  lemma ShiftKeepsPids(ps: Table, qs: Table, nextpid: int)
    requires Pids(ps, nextpid) && Shifts(ps, qs)
    ensures Pids(qs, nextpid)
  {
    assert forall i :: 0 <= i < |qs| ==> ShiftSlot(ps[i], qs[i]);
  }

  lemma ShiftKeepsParents(ps: Table, qs: Table)
    requires Rooted(ps) && Parents(ps) && Shifts(ps, qs)
    ensures Rooted(qs) && Parents(qs)
  {
    assert ShiftSlot(ps[INIT], qs[INIT]);
    forall c | 0 <= c < |qs| && qs[c].parent.Some? ensures Edge(qs, c, qs[c].parent.value) {
      var p := qs[c].parent.value;
      assert ShiftSlot(ps[c], qs[c]);
      assert Edge(ps, c, p);
      assert ShiftSlot(ps[p], qs[p]);
    }
  }

  lemma ShiftKeepsWait(ps: Table, qs: Table, i: nat)
    requires Waits(ps) && Shifts(ps, qs) && i < |qs| && SleepsInWait(qs[i])
    ensures JustifiedWait(qs, i)
  {
    assert ShiftSlot(ps[i], qs[i]);
    assert JustifiedWait(ps, i);
    var c: nat :| Child(ps, c, i);
    assert Child(qs, c, i) by { assert ShiftSlot(ps[c], qs[c]); }
    forall d: nat ensures !ZombieChild(qs, d, i) {
      if d < |ps| {
        assert ShiftSlot(ps[d], qs[d]);
      }
      assert !ZombieChild(ps, d, i);
    }
  }

  lemma KillShifts(ps: Table, pid: int)
    ensures Shifts(ps, KillTable(ps, pid))
  {
  }

  lemma WakeShifts(ps: Table, chan: Chan)
    ensures Shifts(ps, WakeTable(ps, chan))
  {
    forall i | 0 <= i < |ps| ensures ShiftSlot(ps[i], WakeTable(ps, chan)[i]) {
      assert WakeTable(ps, chan)[i] == WakeSlot(ps[i], chan);
    }
  }

  /* fork */

  lemma AllocKeeps(ps: Table, np: nat, nextpid: int)
    requires TableInv(ps, nextpid) && np < |ps| && ps[np].state == UNUSED
    ensures TableInv(AllocTable(ps, np, nextpid), nextpid + 1)
  {
    var qs := AllocTable(ps, np, nextpid);
    assert ps[np].parent == None;
    OtherSlotKeepsParents(ps, qs, np);
    OtherSlotKeepsWaits(ps, qs, np);
  }

  // A slot that is not live, is nobody's parent, and neither becomes a zombie nor drops its parent.
  ghost predicate OnlySlot(ps: Table, qs: Table, np: nat) {
    && np < |ps| == |qs|
    && (forall i :: 0 <= i < |ps| && i != np ==> qs[i] == ps[i])
    && ps[np].state in {UNUSED, EMBRYO}
    && qs[np].state != ZOMBIE && qs[np].state != SLEEPING
    && (ps[np].parent.Some? ==> qs[np].parent == ps[np].parent)
  }

  lemma OtherSlotKeepsParents(ps: Table, qs: Table, np: nat)
    requires Rooted(ps) && Parents(ps) && OnlySlot(ps, qs, np)
    requires qs[np].parent.Some? ==> np != qs[np].parent.value && Edge(qs, np, qs[np].parent.value)
    requires Alive(qs[np]) ==> qs[np].parent.Some?
    ensures Rooted(qs) && Parents(qs)
  {
    forall c | 0 <= c < |qs| && qs[c].parent.Some? ensures Edge(qs, c, qs[c].parent.value) {
      if c != np {
        assert Edge(ps, c, ps[c].parent.value);
      }
    }
  }

  lemma OtherSlotKeepsWaits(ps: Table, qs: Table, np: nat)
    requires Waits(ps) && OnlySlot(ps, qs, np)
    ensures Waits(qs)
  {
    forall i | 0 <= i < |qs| && SleepsInWait(qs[i]) ensures JustifiedWait(qs, i) {
      assert JustifiedWait(ps, i);
      var c: nat :| Child(ps, c, i);
      assert Child(qs, c, i);
      forall d: nat ensures !ZombieChild(qs, d, i) {
        assert !ZombieChild(ps, d, i);
      }
    }
  }

  lemma AbandonKeeps(ps: Table, np: nat, nextpid: int)
    requires TableInv(ps, nextpid) && np < |ps| && ps[np].state == EMBRYO && ps[np].parent == None
    ensures TableInv(SetState(ps, np, UNUSED), nextpid)
  {
    var qs := SetState(ps, np, UNUSED);
    OtherSlotKeepsParents(ps, qs, np);
    OtherSlotKeepsWaits(ps, qs, np);
  }

  lemma AdoptKeeps(ps: Table, np: nat, p: nat, nextpid: int)
    requires TableInv(ps, nextpid) && np < |ps| && p < |ps| && ps[np].state == EMBRYO && ps[np].parent == None
    requires Alive(ps[p]) && ps[p].pid < ps[np].pid
    ensures TableInv(SetParent(ps, np, p), nextpid)
  {
    var qs := SetParent(ps, np, p);
    OtherSlotKeepsParents(ps, qs, np);
    OtherSlotKeepsWaits(ps, qs, np);
  }

  lemma LaunchKeeps(ps: Table, np: nat, nextpid: int)
    requires TableInv(ps, nextpid) && np < |ps| && ps[np].state == EMBRYO && ps[np].parent.Some?
    ensures TableInv(SetState(ps, np, RUNNABLE), nextpid)
  {
    var qs := SetState(ps, np, RUNNABLE);
    assert Edge(ps, np, ps[np].parent.value);
    OtherSlotKeepsParents(ps, qs, np);
    OtherSlotKeepsWaits(ps, qs, np);
  }

  /* exit */

  lemma ExitKeeps(ps: Table, me: nat, nextpid: int)
    requires TableInv(ps, nextpid) && INIT != me < |ps| && ps[me].state == RUNNING
    ensures TableInv(ExitTable(ps, me), nextpid)
  {
    var qs := ExitTable(ps, me);
    ExitKeepsParents(ps, me, nextpid);
    forall i | 0 <= i < |qs| && SleepsInWait(qs[i]) ensures JustifiedWait(qs, i) {
      ExitKeepsWait(ps, me, i, nextpid);
    }
    assert forall i :: 0 <= i < |ps| ==> qs[i].pid == ps[i].pid;
  }

  lemma ExitKeepsParents(ps: Table, me: nat, nextpid: int)
    requires TableInv(ps, nextpid) && INIT != me < |ps| && ps[me].state == RUNNING
    ensures Rooted(ExitTable(ps, me)) && Parents(ExitTable(ps, me))
  {
    var qs := ExitTable(ps, me);
    assert qs[INIT] == ExitSlot(ps, me, INIT);
    forall c | 0 <= c < |qs| && qs[c].parent.Some? ensures Edge(qs, c, qs[c].parent.value) {
      assert qs[c] == ExitSlot(ps, me, c);
      assert Edge(ps, c, ps[c].parent.value);
      var p := qs[c].parent.value;
      assert qs[p] == ExitSlot(ps, me, p);
      assert p != me;
    }
  }

  // A process that is still asleep in wait() was, and was on neither of the woken channels.
  lemma ExitStillAsleep(ps: Table, me: nat, i: nat)
    requires me < |ps| && i < |ps| && SleepsInWait(ExitTable(ps, me)[i])
    ensures i != me && SleepsInWait(ps[i])
    ensures ExitTable(ps, me)[i].chan == ps[i].chan && ExitTable(ps, me)[i].killed == ps[i].killed
    ensures ps[i].chan != AddrOf(ps[me].parent)
    ensures ps[i].chan == ProcAddr(INIT) ==> !LeavesZombie(ps, me)
  {
    assert ExitTable(ps, me)[i] == ExitSlot(ps, me, i);
  }

  lemma ExitZombies(ps: Table, me: nat, d: nat, i: nat)
    requires me < |ps| && ps[me].parent != Some(me) && ZombieChild(ExitTable(ps, me), d, i)
    ensures
      || (d == me && ps[me].parent == Some(i))
      || ZombieChild(ps, d, i)
      || (i == INIT && ZombieChild(ps, d, me))
  {
    assert ExitTable(ps, me)[d] == ExitSlot(ps, me, d);
  }

  // Nobody still asleep in wait() lost a child to the exit or gained a zombie from it.
  lemma ExitKeepsWait(ps: Table, me: nat, i: nat, nextpid: int)
    requires TableInv(ps, nextpid) && INIT != me < |ps| && ps[me].state == RUNNING
    requires i < |ps| && SleepsInWait(ExitTable(ps, me)[i])
    ensures JustifiedWait(ExitTable(ps, me), i)
  {
    var qs := ExitTable(ps, me);
    ExitStillAsleep(ps, me, i);
    assert JustifiedWait(ps, i);
    assert Edge(ps, me, ps[me].parent.value);
    var c: nat :| Child(ps, c, i);
    assert Child(qs, c, i) by { assert qs[c] == ExitSlot(ps, me, c); }
    forall d: nat ensures !ZombieChild(qs, d, i) {
      if ZombieChild(qs, d, i) {
        ExitZombies(ps, me, d, i);
        assert false;
      }
    }
  }

  /* wait */

  lemma ReapKeeps(ps: Table, z: nat, me: nat, nextpid: int)
    requires TableInv(ps, nextpid) && ZombieChild(ps, z, me) && !SleepsInWait(ps[me])
    ensures TableInv(ReapTable(ps, z), nextpid)
  {
    var qs := ReapTable(ps, z);
    forall c | 0 <= c < |qs| && qs[c].parent.Some? ensures Edge(qs, c, qs[c].parent.value) {
      assert Edge(ps, c, ps[c].parent.value);
    }
    forall i | 0 <= i < |qs| && SleepsInWait(qs[i]) ensures JustifiedWait(qs, i) {
      assert JustifiedWait(ps, i);
      assert i != me;
      var c: nat :| Child(ps, c, i);
      assert Child(qs, c, i);
      forall d: nat ensures !ZombieChild(qs, d, i) {
        assert !ZombieChild(ps, d, i);
      }
    }
  }

  lemma BlockKeeps(ps: Table, me: nat, nextpid: int)
    requires TableInv(ps, nextpid) && me < |ps| && Alive(ps[me]) && WaitDecision(ps, me) == Block
    ensures TableInv(SleepTable(ps, me, ProcAddr(me)), nextpid)
  {
    var qs := SleepTable(ps, me, ProcAddr(me));
    forall c | 0 <= c < |qs| && qs[c].parent.Some? ensures Edge(qs, c, qs[c].parent.value) {
      assert Edge(ps, c, ps[c].parent.value);
    }
    forall i | 0 <= i < |qs| && SleepsInWait(qs[i]) ensures JustifiedWait(qs, i) {
      assert JustifiedWait(ps, i) || i == me;
      BlockJustified(ps, me, i);
    }
  }

  lemma BlockJustified(ps: Table, me: nat, i: nat)
    requires me < |ps| && i < |ps| && WaitDecision(ps, me) == Block
    requires i == me || JustifiedWait(ps, i)
    ensures JustifiedWait(SleepTable(ps, me, ProcAddr(me)), i)
  {
    var qs := SleepTable(ps, me, ProcAddr(me));
    var c: nat :| c < |ps| && ps[c].parent == Some(i);
    assert Child(qs, c, i);
    forall d: nat ensures !ZombieChild(qs, d, i) {
      assert i != me ==> !ZombieChild(ps, d, i);
      assert d < |ps| && i == me ==> !Matches(ps[d], ZombieOf(me));
    }
  }
}

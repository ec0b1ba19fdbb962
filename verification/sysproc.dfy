// hw3/sysproc.c: sys_sleep() waits on the tick counter, in C's wrapping arithmetic.
module SysProc {
  import opened Util
  import opened ProcTable
  import opened Kernel
  import opened KernelTheorems

  const WRAP: int := 0x1_0000_0000

  newtype uint32 = x: int | 0 <= x < 0x1_0000_0000

  // "ticks - ticks0 < n" compares two unsigned ints: the difference wraps and n is converted.
  function Since(ticks: uint32, ticks0: uint32): uint32 {
    ((ticks as int - ticks0 as int) % WRAP) as uint32
  }

  function Unsigned(n: int32): uint32 {
    (n as int % WRAP) as uint32
  }

  predicate SleepOver(ticks: uint32, ticks0: uint32, n: int32) {
    Since(ticks, ticks0) >= Unsigned(n)
  }

  datatype Slept = Done(wakes: nat) | Killed(wakes: nat) | Asleep

  // The loop of sys_sleep(). Entry k of the arguments is what the k-th evaluation of the loop sees
  // in ticks and proc->killed; sleep() comes between two evaluations. Asleep means that the last
  // sleep() has not returned.
  method SysSleep(n: int32, ticks: seq<uint32>, killed: seq<bool>) returns (r: Slept)
    requires |ticks| == |killed| > 0
    ensures r.Done? ==> r.wakes < |ticks| && SleepOver(ticks[r.wakes], ticks[0], n)
    ensures r.Killed? ==> r.wakes < |ticks| && killed[r.wakes] && !SleepOver(ticks[r.wakes], ticks[0], n)
    ensures forall j :: 0 <= j < (if r.Asleep? then |ticks| else r.wakes) ==> !killed[j] && !SleepOver(ticks[j], ticks[0], n)
  {
    var ticks0 := ticks[0];
    var k := 0;
    while Since(ticks[k], ticks0) < Unsigned(n)
      invariant 0 <= k < |ticks|
      invariant forall j :: 0 <= j < k ==> !killed[j] && !SleepOver(ticks[j], ticks0, n)
      decreases |ticks| - k
    {
      if killed[k] {
        return Killed(k);
      }
      k := k + 1;
      if k == |ticks| {
        return Asleep;
      }
    }
    r := Done(k);
  }

  // Counted in real ticks, which do not wrap, the loop ends at an evaluation k ticks after the first
  // exactly when k modulo 2^32 has reached n taken modulo 2^32.
  lemma SleepOverAfter(start: nat, k: nat, n: int32)
    ensures SleepOver(((start + k) % WRAP) as uint32, (start % WRAP) as uint32, n) <==> k % WRAP >= n as int % WRAP
  {
    assert (((start + k) % WRAP) - (start % WRAP)) % WRAP == k % WRAP;
  }

  // Within the first 2^32 ticks: a non-negative n waits for n ticks, however the counter wraps in
  // between; a negative n waits for 2^32 + n of them.
  lemma SleepsForNTicks(start: nat, k: nat, n: int32)
    requires k < WRAP
    ensures SleepOver(((start + k) % WRAP) as uint32, (start % WRAP) as uint32, n) <==>
            k >= if n >= 0 then n as int else WRAP + n as int
  {
    SleepOverAfter(start, k, n);
    assert n < 0 ==> n as int % WRAP == WRAP + n as int;
  }

  // The values of ticks that a sleeper in sys_sleep() waits for.
  predicate TimeUp(t: int, ticks0: uint32, n: int32) {
    0 <= t < WRAP && SleepOver(t as uint32, ticks0, n)
  }

  ghost function Awaited(ticks0: uint32, n: int32): iset<int> {
    iset t: int | TimeUp(t, ticks0, n)
  }

  // No process is left asleep in sys_sleep() with its time up: as long as each tick increments ticks
  // and calls wakeup(&ticks) under tickslock, the wakeup it is owed is still to come.
  lemma NobodyOversleeps(states: seq<State>, acts: seq<Action>, m: nat, i: nat, tickslock: nat, ticks0: uint32, n: int32)
    requires Run(states, acts) && m < |states|
    requires AsleepFor(states[m].procs, states[m].threads, i, tickslock, Awaited(ticks0, n))
    ensures tickslock < |states[m].lks| == |states[m].data|
    ensures var ticks := states[m].data[tickslock];
            0 <= ticks < 0x1_0000_0000 && (ticks - ticks0 as int) % 0x1_0000_0000 >= n as int % 0x1_0000_0000 ==>
              states[m].lks[tickslock].Held? && states[m].lks[tickslock].pending
  {
    NoLostWakeup(states, acts, m, i, tickslock, Awaited(ticks0, n));
  }
}

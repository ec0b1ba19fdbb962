// The process table of hw3/proc.c as a value, and what each critical section does to it.
//
// A table is the contents of ptable.proc. Slots are named by their index, so the address of a
// struct proc is a nat, and a null pointer is None.
module ProcTable {
  import opened Util

  newtype int32 = x: int | -0x8000_0000 <= x < 0x8000_0000

  const INT_MAX: int := 0x7fff_ffff
  const MAGIC_TICKET_NUM: int32 := 20

  // userinit() allocates the first slot of an empty table for initproc.
  const INIT: nat := 0

  datatype ProcState = UNUSED | EMBRYO | SLEEPING | RUNNABLE | RUNNING | ZOMBIE

  // What a process sleeps on. Only wait() sleeps on the address of a process.
  datatype Chan = NoChan | ProcAddr(slot: nat) | Other(id: nat)

  datatype Proc = Proc(
    state: ProcState,
    pid: int,
    parent: Option<nat>,
    chan: Chan,
    killed: bool,
    tickets: int32)

  type Table = seq<Proc>

  // A zero-filled slot.
  const FREE_SLOT := Proc(UNUSED, 0, None, NoChan, false, 0)

  function AddrOf(p: Option<nat>): Chan {
    if p.Some? then ProcAddr(p.value) else NoChan
  }

  // A process that has been made runnable and has not exited.
  predicate Alive(p: Proc) {
    p.state in {SLEEPING, RUNNABLE, RUNNING}
  }

  predicate Child(ps: Table, c: nat, p: nat) {
    c < |ps| && ps[c].parent == Some(p)
  }

  predicate ZombieChild(ps: Table, c: nat, p: nat) {
    Child(ps, c, p) && ps[c].state == ZOMBIE
  }

  predicate SleepsInWait(p: Proc) {
    p.state == SLEEPING && p.chan.ProcAddr?
  }

  // What a scan of the table looks for.
  datatype Sought = Unused | ZombieOf(parent: nat) | Pid(pid: int)

  predicate Matches(p: Proc, w: Sought) {
    match w
    case Unused => p.state == UNUSED
    case ZombieOf(me) => p.parent == Some(me) && p.state == ZOMBIE
    case Pid(pid) => p.pid == pid
  }

  // The first slot at or after "from" that matches.
  function FirstFrom(ps: Table, w: Sought, from: nat): (r: Option<nat>)
    requires from <= |ps|
    ensures r.Some? ==> from <= r.value < |ps| && Matches(ps[r.value], w) &&
                        forall j :: from <= j < r.value ==> !Matches(ps[j], w)
    ensures r.None? ==> forall j :: from <= j < |ps| ==> !Matches(ps[j], w)
    decreases |ps| - from
  {
    if from == |ps| then None
    else if Matches(ps[from], w) then Some(from)
    else FirstFrom(ps, w, from + 1)
  }

  function First(ps: Table, w: Sought): Option<nat> {
    FirstFrom(ps, w, 0)
  }

  // A scan that stops at "k" having rejected everything before it has found the first match.
  lemma FirstIs(ps: Table, w: Sought, k: nat)
    requires k <= |ps|
    requires forall j :: 0 <= j < k ==> !Matches(ps[j], w)
    requires k < |ps| ==> Matches(ps[k], w)
    ensures First(ps, w) == if k < |ps| then Some(k) else None
  {
    var r := First(ps, w);
    if r.Some? {
      assert !(r.value < k);
    }
  }

  /* wakeup1 */

  predicate Woken(p: Proc, chan: Chan) {
    p.state == SLEEPING && p.chan == chan
  }

  function WakeSlot(p: Proc, chan: Chan): Proc {
    if Woken(p, chan) then p.(state := RUNNABLE) else p
  }

  function WakeTable(ps: Table, chan: Chan): (r: Table)
    ensures |r| == |ps|
    ensures forall i :: 0 <= i < |ps| ==> r[i] == WakeSlot(ps[i], chan)
  {
    seq(|ps|, i requires 0 <= i < |ps| => WakeSlot(ps[i], chan))
  }

  /* allocproc */

  function FindUnused(ps: Table): Option<nat> {
    First(ps, Unused)
  }

  function AllocTable(ps: Table, np: nat, pid: int): Table
    requires np < |ps|
  {
    ps[np := ps[np].(state := EMBRYO, pid := pid, tickets := MAGIC_TICKET_NUM)]
  }

  /* exit */

  // init is woken on behalf of an exiting process if it inherits a zombie.
  ghost predicate LeavesZombie(ps: Table, me: nat) {
    exists z :: ZombieChild(ps, z, me)
  }

  ghost function ExitSlot(ps: Table, me: nat, i: nat): Proc
    requires me < |ps| && i < |ps|
  {
    var p := ps[i];
    var woken := Woken(p, AddrOf(ps[me].parent)) || (Woken(p, ProcAddr(INIT)) && LeavesZombie(ps, me));
    p.(state := if i == me then ZOMBIE else if woken then RUNNABLE else p.state,
       parent := if p.parent == Some(me) then Some(INIT) else p.parent)
  }

  ghost function ExitTable(ps: Table, me: nat): (r: Table)
    requires me < |ps|
    ensures |r| == |ps|
    ensures forall i :: 0 <= i < |ps| ==> r[i] == ExitSlot(ps, me, i)
  {
    seq(|ps|, i requires 0 <= i < |ps| => ExitSlot(ps, me, i))
  }

  /* wait */

  datatype WaitOutcome = Reap(slot: nat) | Fail | Block

  predicate HasChild(ps: Table, me: nat) {
    exists c :: 0 <= c < |ps| && ps[c].parent == Some(me)
  }

  function FindZombie(ps: Table, me: nat): Option<nat> {
    First(ps, ZombieOf(me))
  }

  // What one scan of wait() decides.
  function WaitDecision(ps: Table, me: nat): WaitOutcome
    requires me < |ps|
  {
    var z := FindZombie(ps, me);
    if z.Some? then Reap(z.value)
    else if !HasChild(ps, me) || ps[me].killed then Fail
    else Block
  }

  function ReapTable(ps: Table, z: nat): Table
    requires z < |ps|
  {
    ps[z := ps[z].(state := UNUSED, pid := 0, parent := None, killed := false)]
  }

  function SleepTable(ps: Table, me: nat, chan: Chan): Table
    requires me < |ps|
  {
    ps[me := ps[me].(chan := chan, state := SLEEPING)]
  }

  function WaitTable(ps: Table, me: nat): Table
    requires me < |ps|
  {
    match WaitDecision(ps, me)
    case Reap(z) => ReapTable(ps, z)
    case Fail => ps
    case Block => SleepTable(ps, me, ProcAddr(me))
  }

  /* kill */

  function FindPid(ps: Table, pid: int): Option<nat> {
    First(ps, Pid(pid))
  }

  function KillSlot(p: Proc): Proc {
    p.(killed := true, state := if p.state == SLEEPING then RUNNABLE else p.state)
  }

  function KillTable(ps: Table, pid: int): Table {
    match FindPid(ps, pid)
    case None => ps
    case Some(i) => ps[i := KillSlot(ps[i])]
  }

  /* single-slot writes */

  function SetState(ps: Table, i: nat, st: ProcState): Table
    requires i < |ps|
  {
    ps[i := ps[i].(state := st)]
  }

  function SetParent(ps: Table, i: nat, parent: nat): Table
    requires i < |ps|
  {
    ps[i := ps[i].(parent := Some(parent))]
  }

  function ClearChan(ps: Table, i: nat): Table
    requires i < |ps|
  {
    ps[i := ps[i].(chan := NoChan)]
  }

  function SetTickets(ps: Table, i: nat, tickets: int32): Table
    requires i < |ps|
  {
    ps[i := ps[i].(tickets := tickets)]
  }
}

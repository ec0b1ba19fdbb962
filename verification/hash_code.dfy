// insert(), retrieve(), get_phase() and the counting in main() of hw4 on a table of linked entries,
// as they run when nothing else changes the table: insert() under its lock, retrieve() after the
// barrier.
module HashCode {
  import opened Util
  import opened AtomicTable
  import Strides

  class BucketEntry {
    var key: int
    var val: int
    var next: BucketEntry?

    constructor ()
    {
    }
  }

  // The pointers from "h" lead through "c" to null.
  ghost predicate Linked(h: BucketEntry?, c: seq<BucketEntry>)
    reads c
  {
    if c == [] then h == null else h == c[0] && Linked(c[0].next, c[1..])
  }

  ghost function ListOf(c: seq<BucketEntry>): seq<Entry>
    reads c
  {
    if c == [] then [] else [Entry(c[0].key, c[0].val)] + ListOf(c[1..])
  }

  lemma PushEntry(h: BucketEntry?, c: seq<BucketEntry>, e: BucketEntry)
    requires Linked(h, c) && e.next == h
    ensures Linked(e, [e] + c) && ListOf([e] + c) == [Entry(e.key, e.val)] + ListOf(c)
  {
    assert ([e] + c)[1..] == c;
  }

  class HashTable {
    const table: array<BucketEntry?>
    ghost var chains: seq<seq<BucketEntry>>

    ghost var nodes: set<BucketEntry>

    ghost predicate Valid()
      reads this, table, nodes
    {
      && table.Length == |chains| == NUM_BUCKETS
      && (forall b :: 0 <= b < NUM_BUCKETS ==> (forall e :: e in chains[b] ==> e in nodes) && Linked(table[b], chains[b]))
    }

    ghost function View(): Contents
      requires Valid()
      reads this, table, nodes
    {
      [ListOf(chains[0]), ListOf(chains[1]), ListOf(chains[2]), ListOf(chains[3]), ListOf(chains[4])]
    }

    constructor ()
      ensures Valid() && View() == EMPTY && fresh(table)
    {
      table := new BucketEntry?[NUM_BUCKETS](i => null);
      chains := [[], [], [], [], []];
      nodes := {};
    }

    method Insert(key: int, val: int)
      requires Valid() && 0 <= key
      modifies this, table
      ensures Valid() && View() == Prepend(old(View()), Entry(key, val))
    {
      hide Linked, ListOf, KeyBucket;
      var i := KeyBucket(key);
      var e := new BucketEntry();
      e.next := table[i];
      e.key := key;
      e.val := val;
      table[i] := e;
      chains := chains[i := [e] + chains[i]];
      nodes := nodes + {e};
      PushEntry(old(table[i]), old(chains)[i], e);
    }

    method Retrieve(key: int) returns (b: BucketEntry?)
      requires Valid() && 0 <= key
      ensures b == null <==> Lookup(View(), key) == None
      ensures b != null ==> b in chains[KeyBucket(key)] && Lookup(View(), key) == Some(Entry(b.key, b.val)) && b.key == key
    {
      b := table[KeyBucket(key)];
      ghost var c := chains[KeyBucket(key)];
      while b != null
        invariant (forall e :: e in c ==> e in chains[KeyBucket(key)]) && Linked(b, c)
        invariant Find(ListOf(c), key) == Lookup(View(), key)
        decreases |c|
      {
        assert ListOf(c)[1..] == ListOf(c[1..]);
        if b.key == key {
          return;
        }
        b := b.next;
        c := c[1..];
      }
    }

    // One thread's get phase: it looks up every k-th key from its own number on, and counts those it
    // does not find.
    method GetPhase(keys: seq<int>, tid: nat, k: nat) returns (lost: nat)
      requires Valid() && 0 < k && tid < k && forall j :: 0 <= j < |keys| ==> 0 <= keys[j]
      ensures lost == |ThreadMisses(View(), keys, |keys|, k, tid)|
      ensures lost == |(set j: nat | j < |keys| && j % k == tid && forall e :: e in View()[keys[j] % 5] ==> e.key != keys[j])|
    {
      hide Lookup, ThreadMisses;
      ghost var c := View();
      lost := 0;
      var j := tid;
      NoneBelowOwn(c, keys, tid, k);
      while j < |keys|
        invariant 0 <= j && j % k == tid
        invariant lost == |ThreadMisses(c, keys, j, k, tid)|
      {
        var b := Retrieve(keys[j]);
        if b == null {
          lost := lost + 1;
        }
        NextOfThread(c, keys, j, k);
        j := j + k;
      }
      NonePastEnd(c, keys, j, k, tid);
      ThreadMissesAre(c, keys, k, tid);
    }

    // main() adds up what the threads lost: the number of keys that are not in the table.
    method TotalLost(keys: seq<int>, k: nat) returns (total: nat)
      requires Valid() && 0 < k && forall j :: 0 <= j < |keys| ==> 0 <= keys[j]
      ensures total == |Misses(View(), keys, |keys|)|
      ensures total == |(set j: nat | j < |keys| && forall e :: e in View()[keys[j] % 5] ==> e.key != keys[j])|
    {
      hide Lookup, Misses, ThreadMisses, MissesBelow;
      ghost var c := View();
      total := 0;
      MissesAddUp(c, keys, k);
      MissesAre(c, keys);
      for i := 0 to k
        invariant total == |MissesBelow(c, keys, k, i)|
      {
        var lost := GetPhase(keys, i, k);
        total := total + lost;
        OneMoreThread(c, keys, k, i);
      }
    }
  }

  // The indices below "n" whose keys are not in the table.
  function Misses(c: Contents, keys: seq<int>, n: nat): set<nat> {
    set j: nat | j < n && j < |keys| && Lookup(c, keys[j]).None?
  }

  // Those that thread "t" of "k" visits.
  function ThreadMisses(c: Contents, keys: seq<int>, n: nat, k: nat, t: nat): set<nat>
    requires 0 < k
  {
    set j | j in Misses(c, keys, n) && j % k == t
  }

  // Those that the first "t" threads visit.
  function MissesBelow(c: Contents, keys: seq<int>, k: nat, t: nat): set<nat>
    requires 0 < k
  {
    set j | j in Misses(c, keys, |keys|) && j % k < t
  }

  lemma MissedIff(c: Contents, key: int)
    ensures Lookup(c, key).None? <==> forall e :: e in c[key % 5] ==> e.key != key
  {
    FindIff(c[key % 5], key);
  }

  lemma MissesAre(c: Contents, keys: seq<int>)
    ensures Misses(c, keys, |keys|) == set j: nat | j < |keys| && forall e :: e in c[keys[j] % 5] ==> e.key != keys[j]
  {
    hide Lookup;
    forall j: nat | j < |keys| ensures Lookup(c, keys[j]).None? <==> forall e :: e in c[keys[j] % 5] ==> e.key != keys[j] {
      MissedIff(c, keys[j]);
    }
  }

  lemma ThreadMissesAre(c: Contents, keys: seq<int>, k: nat, t: nat)
    requires 0 < k
    ensures ThreadMisses(c, keys, |keys|, k, t) ==
            set j: nat | j < |keys| && j % k == t && forall e :: e in c[keys[j] % 5] ==> e.key != keys[j]
  {
    hide Lookup, Misses;
    MissesAre(c, keys);
  }

  lemma NoneBelowOwn(c: Contents, keys: seq<int>, tid: nat, k: nat)
    requires tid < k
    ensures ThreadMisses(c, keys, tid, k, tid) == {}
  {
    forall j: nat | j < tid ensures j % k != tid {
      Strides.ModIs(j, k, 0, j);
    }
  }

  lemma NonePastEnd(c: Contents, keys: seq<int>, n: nat, k: nat, tid: nat)
    requires 0 < k && |keys| <= n
    ensures ThreadMisses(c, keys, n, k, tid) == ThreadMisses(c, keys, |keys|, k, tid)
  {
  }

  // The next index a thread visits is the next one of its residue.
  lemma NextOfThread(c: Contents, keys: seq<int>, j: nat, k: nat)
    requires 0 < k && j < |keys|
    ensures (j + k) % k == j % k
    ensures |ThreadMisses(c, keys, j + k, k, j % k)| == |ThreadMisses(c, keys, j, k, j % k)| + if Lookup(c, keys[j]).None? then 1 else 0
  {
    hide Lookup;
    Strides.NextStride(j, k);
    forall i | j < i < j + k ensures i % k != j % k {
      if i % k == j % k {
        Strides.StrideGap(j, i, k);
      }
    }
    assert ThreadMisses(c, keys, j + k, k, j % k) == ThreadMisses(c, keys, j, k, j % k) + if Lookup(c, keys[j]).None? then {j} else {};
  }

  lemma OneMoreThread(c: Contents, keys: seq<int>, k: nat, t: nat)
    requires t < k
    ensures |MissesBelow(c, keys, k, t + 1)| == |MissesBelow(c, keys, k, t)| + |ThreadMisses(c, keys, |keys|, k, t)|
  {
    hide Lookup, Misses;
    var a, b := MissesBelow(c, keys, k, t), ThreadMisses(c, keys, |keys|, k, t);
    assert MissesBelow(c, keys, k, t + 1) == a + b && a !! b;
  }

  lemma MissesAddUp(c: Contents, keys: seq<int>, k: nat)
    requires 0 < k
    ensures MissesBelow(c, keys, k, 0) == {} && MissesBelow(c, keys, k, k) == Misses(c, keys, |keys|)
  {
    hide Lookup, Misses;
  }
}

// What the hash tables of hw4 are meant to be: a table to which insert() prepends in one step, and
// in which retrieve() finds the first entry of a key.
module AtomicTable {
  import opened Util

  const NUM_BUCKETS: nat := 5

  // random() yields non-negative keys, so C's remainder is Dafny's.
  function KeyBucket(key: int): (b: nat)
    ensures b < NUM_BUCKETS
  {
    key % NUM_BUCKETS
  }

  datatype Entry = Entry(key: int, val: int)

  type Contents = c: seq<seq<Entry>> | |c| == NUM_BUCKETS witness [[], [], [], [], []]

  const EMPTY: Contents := [[], [], [], [], []]

  function Prepend(c: Contents, e: Entry): Contents {
    c[KeyBucket(e.key) := [e] + c[KeyBucket(e.key)]]
  }

  function Find(list: seq<Entry>, key: int): Option<Entry> {
    if list == [] then None
    else if list[0].key == key then Some(list[0])
    else Find(list[1..], key)
  }

  function Lookup(c: Contents, key: int): Option<Entry> {
    Find(c[KeyBucket(key)], key)
  }

  // The table after a series of inserts.
  function Replay(log: seq<Entry>): Contents {
    if log == [] then EMPTY else Prepend(Replay(log[..|log| - 1]), log[|log| - 1])
  }

  // The last insert of a key.
  function Latest(log: seq<Entry>, key: int): Option<Entry> {
    if log == [] then None
    else if log[|log| - 1].key == key then Some(log[|log| - 1])
    else Latest(log[..|log| - 1], key)
  }

  lemma {:induction false} LookupFindsLatest(log: seq<Entry>, key: int)
    ensures Lookup(Replay(log), key) == Latest(log, key)
  {
    if log != [] {
      var e, c := log[|log| - 1], Replay(log[..|log| - 1]);
      LookupFindsLatest(log[..|log| - 1], key);
      assert ([e] + c[KeyBucket(e.key)])[1..] == c[KeyBucket(e.key)];
    }
  }

  lemma {:induction false} FindIff(list: seq<Entry>, key: int)
    ensures Find(list, key).Some? <==> exists i :: 0 <= i < |list| && list[i].key == key
    ensures Find(list, key).Some? ==> Find(list, key).value in list && Find(list, key).value.key == key
  {
    if list != [] && list[0].key != key {
      FindIff(list[1..], key);
      assert forall i :: 1 <= i < |list| ==> list[i] == list[1..][i - 1];
    }
  }

  // The bucket of a key is what is left of it after taking away fives.
  lemma KeyBucketIs(key: int, q: int, b: int)
    requires key == 5 * q + b && 0 <= b < 5
    ensures KeyBucket(key) == b
  {
  }

  // The search stops at the first entry of the key.
  lemma {:induction false} FindIsFirst(list: seq<Entry>, key: int, i: nat)
    requires i < |list| && list[i].key == key && forall j :: 0 <= j < i ==> list[j].key != key
    ensures Find(list, key) == Some(list[i])
  {
    if i > 0 {
      FindIsFirst(list[1..], key, i - 1);
    }
  }

  lemma LookupAfterInsert(c: Contents, e: Entry, key: int)
    ensures Lookup(Prepend(c, e), key) == if key == e.key then Some(e) else Lookup(c, key)
  {
    assert ([e] + c[KeyBucket(e.key)])[1..] == c[KeyBucket(e.key)];
  }

  // And the latest insert of a key is the one after which there is no other.
  lemma {:induction false} LatestIs(log: seq<Entry>, key: int)
    ensures forall i :: 0 <= i < |log| && log[i].key == key && (forall j :: i < j < |log| ==> log[j].key != key) ==>
              Latest(log, key) == Some(log[i])
    ensures (forall i :: 0 <= i < |log| ==> log[i].key != key) ==> Latest(log, key) == None
  {
    if log != [] {
      LatestIs(log[..|log| - 1], key);
    }
  }
}

/**
 The bucketed hash tables: the tables of workers, lists and schedulers, keyed by an identifier that occurs
 once, and the wt_ready_queue of a list, where one tid may occur several times. The hash function and the
 number of buckets are arbitrary.
 */
module Buckets {

  datatype Option<V> = None | Some(value: V)

  datatype Entry<V> = Entry(key: nat, value: V)

  /** One bucket, most recent entry first. */
  type Chain<V> = seq<Entry<V>>

  type Hash = nat -> nat

  function Index(h: Hash, n: nat, key: nat): (i: nat)
    requires n >= 1
    ensures i < n
  {
    h(key) % n
  }

  // ---- one bucket ----

  /** The first entry with this key. */
  function Find<V>(c: Chain<V>, key: nat): (r: Option<V>)
    ensures r.Some? <==> exists i :: 0 <= i < |c| && c[i].key == key
  {
    if c == [] then None
    else if c[0].key == key then Some(c[0].value)
    else Find(c[1..], key)
  }

  function WithoutFirst<V>(c: Chain<V>, key: nat): Chain<V> {
    if c == [] then []
    else if c[0].key == key then c[1..]
    else [c[0]] + WithoutFirst(c[1..], key)
  }

  function WithoutKey<V>(c: Chain<V>, key: nat): Chain<V> {
    if c == [] then []
    else if c[0].key == key then WithoutKey(c[1..], key)
    else [c[0]] + WithoutKey(c[1..], key)
  }

  function Occurs<V>(c: Chain<V>, key: nat): nat {
    if c == [] then 0 else (if c[0].key == key then 1 else 0) + Occurs(c[1..], key)
  }

  lemma {:induction false} FoundIffOccurs<V>(c: Chain<V>, key: nat)
    ensures Find(c, key).Some? <==> Occurs(c, key) > 0
    decreases |c|
  {
    if c != [] { FoundIffOccurs(c[1..], key); }
  }

  lemma {:induction false} FirstGone<V>(c: Chain<V>, key: nat, k: nat)
    ensures Occurs(WithoutFirst(c, key), k) == Occurs(c, k) - (if k == key && Occurs(c, k) > 0 then 1 else 0)
    ensures k != key ==> Find(WithoutFirst(c, key), k) == Find(c, k)
    decreases |c|
  {
    if c != [] {
      FirstGone(c[1..], key, k);
      var rest := WithoutFirst(c[1..], key);
      assert ([c[0]] + rest)[1..] == rest;
    }
  }

  lemma {:induction false} AllGone<V>(c: Chain<V>, key: nat, k: nat)
    ensures Occurs(WithoutKey(c, key), k) == if k == key then 0 else Occurs(c, k)
    ensures Find(WithoutKey(c, key), k) == if k == key then None else Find(c, k)
    decreases |c|
  {
    if c != [] {
      AllGone(c[1..], key, k);
      var rest := WithoutKey(c[1..], key);
      assert ([c[0]] + rest)[1..] == rest;
    }
  }

  lemma {:induction false} NotThere<V>(c: Chain<V>, d: Chain<V>, key: nat)
    requires forall i :: 0 <= i < |c| ==> c[i].key != key
    ensures Find(c + d, key) == Find(d, key)
    ensures WithoutFirst(c + d, key) == c + WithoutFirst(d, key)
    ensures WithoutKey(c + d, key) == c + WithoutKey(d, key)
    decreases |c|
  {
    if c == [] {
      assert c + d == d;
      assert [] + WithoutFirst(d, key) == WithoutFirst(d, key) && [] + WithoutKey(d, key) == WithoutKey(d, key);
    } else {
      NotThere(c[1..], d, key);
      NotFirst(c + d, key);
      assert (c + d)[0] == c[0] && (c + d)[1..] == c[1..] + d;
      hide *;
      assert [c[0]] + (c[1..] + WithoutFirst(d, key)) == c + WithoutFirst(d, key);
      assert [c[0]] + (c[1..] + WithoutKey(d, key)) == c + WithoutKey(d, key);
    }
  }

  lemma NotFirst<V>(c: Chain<V>, key: nat)
    requires c != [] && c[0].key != key
    ensures Find(c, key) == Find(c[1..], key)
    ensures WithoutFirst(c, key) == [c[0]] + WithoutFirst(c[1..], key)
    ensures WithoutKey(c, key) == [c[0]] + WithoutKey(c[1..], key)
  {}

  lemma OneMore<V>(c: Chain<V>, key: nat, value: V, k: nat)
    ensures Occurs([Entry(key, value)] + c, k) == Occurs(c, k) + if k == key then 1 else 0
  {
    assert ([Entry(key, value)] + c)[1..] == c;
  }

  lemma OneGone<V>(c: Chain<V>, j: nat, key: nat)
    requires j < |c| && c[j].key == key && forall k :: 0 <= k < j ==> c[k].key != key
    ensures c[..j] + c[j + 1..] == WithoutFirst(c, key)
    ensures WithoutKey(c[..j] + c[j + 1..], key) == WithoutKey(c, key)
  {
    NotThere(c[..j], c[j..], key);
    NotThere(c[..j], c[j + 1..], key);
    assert c[..j] + c[j..] == c;
  }

  lemma NoneGone<V>(c: Chain<V>, key: nat)
    requires forall k :: 0 <= k < |c| ==> c[k].key != key
    ensures WithoutFirst(c, key) == c && WithoutKey(c, key) == c
  {
    NotThere(c, [], key);
    assert c + [] == c;
  }

  // ---- the whole table ----

  type Table<V> = seq<Chain<V>>

  /** Every entry is in the bucket of its key. */
  predicate Filed<V>(b: Table<V>, h: Hash) {
    && |b| >= 1
    && forall i, j :: 0 <= i < |b| && 0 <= j < |b[i]| ==> Index(h, |b|, b[i][j].key) == i
  }

  function Lookup<V>(b: Table<V>, h: Hash, key: nat): Option<V>
    requires |b| >= 1
  {
    Find(b[Index(h, |b|, key)], key)
  }

  function Inserted<V>(b: Table<V>, h: Hash, key: nat, value: V): Table<V>
    requires |b| >= 1
  {
    var i := Index(h, |b|, key);
    b[i := [Entry(key, value)] + b[i]]
  }

  function Removed<V>(b: Table<V>, h: Hash, key: nat): Table<V>
    requires |b| >= 1
  {
    var i := Index(h, |b|, key);
    b[i := WithoutFirst(b[i], key)]
  }

  function Purged<V>(b: Table<V>, h: Hash, key: nat): Table<V>
    requires |b| >= 1
  {
    var i := Index(h, |b|, key);
    b[i := WithoutKey(b[i], key)]
  }

  lemma PurgedIs<V>(b: Table<V>, h: Hash, key: nat)
    requires |b| >= 1
    ensures var i := Index(h, |b|, key); Purged(b, h, key) == b[i := WithoutKey(b[i], key)]
  {}

  /** The keys of all entries of all buckets: what a walk over the whole table meets. */
  function Keys<V>(b: Table<V>): multiset<nat> {
    if b == [] then multiset{} else ChainKeys(b[0]) + Keys(b[1..])
  }

  function ChainKeys<V>(c: Chain<V>): multiset<nat> {
    if c == [] then multiset{} else multiset{c[0].key} + ChainKeys(c[1..])
  }

  lemma {:induction false} ChainKeysCount<V>(c: Chain<V>, key: nat)
    ensures ChainKeys(c)[key] == Occurs(c, key)
    decreases |c|
  {
    if c != [] { ChainKeysCount(c[1..], key); }
  }

  lemma {:induction false} KeysSet<V>(b: Table<V>, i: nat, c: Chain<V>, key: nat)
    requires i < |b|
    ensures Keys(b[i := c])[key] == Keys(b)[key] - Occurs(b[i], key) + Occurs(c, key)
    decreases |b|
  {
    ChainKeysCount(b[0], key);
    ChainKeysCount(c, key);
    if i == 0 {
      assert b[i := c][1..] == b[1..];
    } else {
      KeysSet(b[1..], i - 1, c, key);
      assert b[i := c][1..] == b[1..][i - 1 := c];
    }
  }

  /** In a filed table a key occurs in its own bucket only. */
  lemma {:induction false} KeysInBucket<V>(b: Table<V>, i: nat, key: nat)
    requires i < |b|
    requires forall k, j :: 0 <= k < |b| && k != i && 0 <= j < |b[k]| ==> b[k][j].key != key
    ensures Keys(b)[key] == Occurs(b[i], key)
    decreases |b|
  {
    ChainKeysCount(b[0], key);
    if i == 0 {
      KeyNowhere(b[1..], key);
    } else {
      FoundIffOccurs(b[0], key);
      KeysInBucket(b[1..], i - 1, key);
    }
  }

  lemma {:induction false} KeyNowhere<V>(b: Table<V>, key: nat)
    requires forall k, j :: 0 <= k < |b| && 0 <= j < |b[k]| ==> b[k][j].key != key
    ensures Keys(b)[key] == 0
    decreases |b|
  {
    if b != [] {
      ChainKeysCount(b[0], key);
      FoundIffOccurs(b[0], key);
      KeyNowhere(b[1..], key);
    }
  }

  lemma KeyCount<V>(b: Table<V>, h: Hash, key: nat)
    requires Filed(b, h)
    ensures Keys(b)[key] == Occurs(b[Index(h, |b|, key)], key)
  {
    KeysInBucket(b, Index(h, |b|, key), key);
  }

  /** The bucket search finds a key exactly if the table has it. */
  lemma SearchFinds<V>(b: Table<V>, h: Hash, key: nat)
    requires Filed(b, h)
    ensures Lookup(b, h, key).Some? <==> key in Keys(b)
  {
    KeyCount(b, h, key);
    FoundIffOccurs(b[Index(h, |b|, key)], key);
  }

  lemma BagWithout(a: multiset<nat>, b: multiset<nat>, key: nat)
    requires forall k: nat :: a[k] == if k == key then 0 else b[k]
    ensures a == b[key := 0]
  {}

  lemma BagWith(a: multiset<nat>, b: multiset<nat>, key: nat)
    requires forall k: nat :: a[k] == b[k] + if k == key then 1 else 0
    ensures a == b + multiset{key}
  {}

  // ---- what the operations do to the queue of a list ----

  /** add_worker_thread adds one element, also when the tid is there already. */
  lemma InsertAdds<V>(b: Table<V>, h: Hash, key: nat, value: V)
    requires Filed(b, h)
    ensures Filed(Inserted(b, h, key, value), h)
    ensures Keys(Inserted(b, h, key, value)) == Keys(b) + multiset{key}
  {
    var i := Index(h, |b|, key);
    var c := [Entry(key, value)] + b[i];
    assert Filed(b[i := c], h);
    hide Filed, Keys, Occurs;
    forall k: nat ensures Keys(b[i := c])[k] == Keys(b)[k] + if k == key then 1 else 0 {
      KeysSet(b, i, c, k);
      OneMore(b[i], key, value, k);
    }
    BagWith(Keys(b[i := c]), Keys(b), key);
  }

  lemma {:induction false} KeptEntries<V>(c: Chain<V>, key: nat)
    ensures forall e :: e in WithoutKey(c, key) ==> e in c
    ensures forall e :: e in WithoutFirst(c, key) ==> e in c
    decreases |c|
  {
    if c != [] { KeptEntries(c[1..], key); }
  }

  lemma FiledStays<V>(b: Table<V>, h: Hash, i: nat, c: Chain<V>)
    requires Filed(b, h) && i < |b| && forall e :: e in c ==> e in b[i]
    ensures Filed(b[i := c], h)
  {
    forall j | 0 <= j < |c| ensures Index(h, |b|, c[j].key) == i {
      assert c[j] in b[i];
    }
  }

  lemma PurgeFiled<V>(b: Table<V>, h: Hash, key: nat)
    requires Filed(b, h)
    ensures Filed(Purged(b, h, key), h)
  {
    var i := Index(h, |b|, key);
    KeptEntries(b[i], key);
    FiledStays(b, h, i, WithoutKey(b[i], key));
  }

  lemma PurgeCounts<V>(b: Table<V>, h: Hash, key: nat, k: nat)
    requires Filed(b, h)
    ensures Keys(Purged(b, h, key))[k] == if k == key then 0 else Keys(b)[k]
  {
    var i := Index(h, |b|, key);
    KeysSet(b, i, WithoutKey(b[i], key), k);
    AllGone(b[i], key, k);
    KeyCount(b, h, key);
  }

  /** The exit deletion walks one bucket and removes all and only the elements with the worker's tid. */
  lemma PurgeEmpties<V>(b: Table<V>, h: Hash, key: nat)
    requires Filed(b, h)
    ensures Filed(Purged(b, h, key), h)
    ensures Keys(Purged(b, h, key)) == Keys(b)[key := 0]
  {
    PurgeFiled(b, h, key);
    hide *;
    forall k: nat ensures Keys(Purged(b, h, key))[k] == if k == key then 0 else Keys(b)[k] {
      PurgeCounts(b, h, key, k);
    }
    BagWithout(Keys(Purged(b, h, key)), Keys(b), key);
  }

  /** It leaves the look-up of every other key as it was. */
  lemma PurgeLooks<V>(b: Table<V>, h: Hash, key: nat, k: nat)
    requires Filed(b, h)
    ensures Lookup(Purged(b, h, key), h, k) == if k == key then None else Lookup(b, h, k)
  {
    AllGone(b[Index(h, |b|, key)], key, k);
  }

  /** What remains of a bucket keeps its order. */
  lemma {:induction false} PurgeKeepsOrder<V>(c: Chain<V>, d: Chain<V>, key: nat)
    ensures WithoutKey(c + d, key) == WithoutKey(c, key) + WithoutKey(d, key)
    ensures |c| == 1 ==> WithoutKey(c, key) == if c[0].key == key then [] else c
    decreases |c|
  {
    if c == [] {
      assert c + d == d;
    } else {
      assert (c + d)[0] == c[0] && (c + d)[1..] == c[1..] + d;
      PurgeKeepsOrder(c[1..], d, key);
    }
  }

  // ---- refinement of a map ----

  /** The table of workers, lists or schedulers shows the map m. */
  ghost predicate Shows<V(!new)>(b: Table<V>, h: Hash, m: map<nat, V>) {
    && Filed(b, h)
    && forall k :: Lookup(b, h, k) == (if k in m then Some(m[k]) else None) && Keys(b)[k] <= 1
  }

  /** A record is inserted, or the one with this key is looked up and deleted. */
  datatype Op<V> = Insert(key: nat, value: V) | Delete(key: nat)

  function OnTable<V>(b: Table<V>, h: Hash, op: Op<V>): Table<V>
    requires |b| >= 1
  {
    match op
    case Insert(k, v) => Inserted(b, h, k, v)
    case Delete(k) => Removed(b, h, k)
  }

  function OnMap<V>(m: map<nat, V>, op: Op<V>): map<nat, V> {
    match op
    case Insert(k, v) => m[k := v]
    case Delete(k) => m - {k}
  }

  predicate FreshKey<V>(m: map<nat, V>, op: Op<V>) {
    op.Insert? ==> op.key !in m
  }

  lemma DeleteLooks<V>(b: Table<V>, h: Hash, key: nat, k: nat)
    requires Filed(b, h)
    ensures Filed(Removed(b, h, key), h)
    ensures k != key ==> Lookup(Removed(b, h, key), h, k) == Lookup(b, h, k) && Keys(Removed(b, h, key))[k] == Keys(b)[k]
    ensures Keys(Removed(b, h, key))[key] == if Keys(b)[key] > 0 then Keys(b)[key] - 1 else 0
  {
    var i := Index(h, |b|, key);
    var c := WithoutFirst(b[i], key);
    KeptEntries(b[i], key);
    FiledStays(b, h, i, c);
    KeysSet(b, i, c, k);
    KeysSet(b, i, c, key);
    FirstGone(b[i], key, k);
    FirstGone(b[i], key, key);
    KeyCount(b, h, key);
  }

  lemma InsertLooks<V>(b: Table<V>, h: Hash, key: nat, value: V, k: nat)
    requires Filed(b, h)
    ensures Lookup(Inserted(b, h, key, value), h, k) == if k == key then Some(value) else Lookup(b, h, k)
  {
    var i := Index(h, |b|, key);
    assert ([Entry(key, value)] + b[i])[1..] == b[i];
  }

  /** A delete takes the most recent record with its key, so it undoes the last insert. */
  lemma DeleteUndoesInsert<V>(b: Table<V>, h: Hash, key: nat, value: V)
    requires Filed(b, h)
    ensures Removed(Inserted(b, h, key, value), h, key) == b
  {
    assert ([Entry(key, value)] + b[Index(h, |b|, key)])[1..] == b[Index(h, |b|, key)];
  }

  lemma InsertShows<V(!new)>(b: Table<V>, h: Hash, m: map<nat, V>, key: nat, v: V)
    requires Shows(b, h, m) && key !in m
    ensures Shows(Inserted(b, h, key, v), h, m[key := v])
  {
    var c := Inserted(b, h, key, v);
    InsertAdds(b, h, key, v);
    SearchFinds(b, h, key);
    hide Inserted, Lookup, Keys, Filed;
    forall k ensures Lookup(c, h, k) == (if k in m[key := v] then Some(m[key := v][k]) else None) && Keys(c)[k] <= 1 {
      InsertLooks(b, h, key, v, k);
    }
  }

  lemma DeleteShows<V(!new)>(b: Table<V>, h: Hash, m: map<nat, V>, key: nat)
    requires Shows(b, h, m)
    ensures Shows(Removed(b, h, key), h, m - {key})
  {
    var c := Removed(b, h, key);
    DeleteLooks(b, h, key, key);
    SearchFinds(c, h, key);
    hide Removed, Lookup, Keys, Filed;
    forall k ensures Lookup(c, h, k) == (if k in m - {key} then Some((m - {key})[k]) else None) && Keys(c)[k] <= 1 {
      DeleteLooks(b, h, key, k);
    }
  }

  lemma OpShows<V(!new)>(b: Table<V>, h: Hash, m: map<nat, V>, op: Op<V>)
    requires Shows(b, h, m) && FreshKey(m, op)
    ensures Shows(OnTable(b, h, op), h, OnMap(m, op))
  {
    hide Shows;
    match op
    case Insert(key, v) => InsertShows(b, h, m, key, v);
    case Delete(key) => DeleteShows(b, h, m, key);
  }

  function TableAfter<V>(b: Table<V>, h: Hash, ops: seq<Op<V>>): (c: Table<V>)
    requires |b| >= 1
    ensures |c| == |b|
    decreases |ops|
  {
    if ops == [] then b else TableAfter(OnTable(b, h, ops[0]), h, ops[1..])
  }

  function MapAfter<V>(m: map<nat, V>, ops: seq<Op<V>>): map<nat, V>
    decreases |ops|
  {
    if ops == [] then m else MapAfter(OnMap(m, ops[0]), ops[1..])
  }

  predicate FreshKeys<V>(m: map<nat, V>, ops: seq<Op<V>>)
    decreases |ops|
  {
    ops == [] || (FreshKey(m, ops[0]) && FreshKeys(OnMap(m, ops[0]), ops[1..]))
  }

  /**
   For any hash function and number of buckets: after any inserts under fresh keys and deletes, the bucket
   search agrees with a map.
   */
  lemma {:induction false} TableRefinesMap<V(!new)>(b: Table<V>, h: Hash, m: map<nat, V>, ops: seq<Op<V>>)
    requires Shows(b, h, m) && FreshKeys(m, ops)
    ensures Shows(TableAfter(b, h, ops), h, MapAfter(m, ops))
    decreases |ops|
  {
    if ops != [] {
      OpShows(b, h, m, ops[0]);
      hide Shows;
      TableRefinesMap(OnTable(b, h, ops[0]), h, OnMap(m, ops[0]), ops[1..]);
    }
  }

  lemma {:induction false} NoKeys<V>(b: Table<V>)
    requires forall i :: 0 <= i < |b| ==> b[i] == []
    ensures Keys(b) == multiset{}
    decreases |b|
  {
    if b != [] { NoKeys(b[1..]); }
  }

  lemma EmptyShows<V(!new)>(b: Table<V>, h: Hash)
    requires |b| >= 1 && forall i :: 0 <= i < |b| ==> b[i] == []
    ensures Shows(b, h, map[])
  {
    NoKeys(b);
  }

  /**
   Fresh keys are needed: after a delete the search misses the key exactly if the key was there at most once.
   Otherwise it finds an older record with the same identifier.
   */
  lemma DeleteForgetsIff<V>(b: Table<V>, h: Hash, key: nat)
    requires Filed(b, h)
    ensures Lookup(Removed(b, h, key), h, key) == None <==> Keys(b)[key] <= 1
  {
    DeleteLooks(b, h, key, key);
    SearchFinds(Removed(b, h, key), h, key);
  }

  // ---- the tables in memory ----

  class HashTable<V> {
    const hash: Hash
    const buckets: array<Chain<V>>

    ghost predicate Valid()
      reads this, buckets
    {
      Filed(buckets[..], hash)
    }

    constructor (n: nat, hash: Hash)
      requires n >= 1
      ensures Valid() && fresh(buckets) && this.hash == hash
      ensures buckets.Length == n && forall i :: 0 <= i < n ==> buckets[i] == []
    {
      this.hash := hash;
      buckets := new Chain<V>[n](_ => []);
    }

    /** hash_add_rcu: the new entry is the first of its bucket. */
    method Add(key: nat, value: V)
      requires Valid()
      modifies buckets
      ensures Valid() && buckets[..] == Inserted(old(buckets[..]), hash, key, value)
    {
      InsertAdds(buckets[..], hash, key, value);
      var i := Index(hash, buckets.Length, key);
      buckets[i] := [Entry(key, value)] + buckets[i];
      assert buckets[..] == Inserted(old(buckets[..]), hash, key, value);
    }

    /** get_kworker_thread, get_kcompletion_list and get_ksched_thread: walk the bucket, compare keys. */
    method Search(key: nat) returns (r: Option<V>)
      requires Valid()
      ensures r == Lookup(buckets[..], hash, key)
    {
      var c := buckets[Index(hash, buckets.Length, key)];
      var j := 0;
      while j < |c|
        invariant j <= |c| && forall i :: 0 <= i < j ==> c[i].key != key
      {
        if c[j].key == key {
          NotThere(c[..j], c[j..], key);
          assert c[..j] + c[j..] == c;
          return Some(c[j].value);
        }
        j := j + 1;
      }
      return None;
    }

    /** hash_del of the record that a search for key finds. */
    method Remove(key: nat)
      requires Valid()
      modifies buckets
      ensures Valid() && buckets[..] == Removed(old(buckets[..]), hash, key)
    {
      DeleteLooks(buckets[..], hash, key, key);
      var i := Index(hash, buckets.Length, key);
      var c := buckets[i];
      var j := 0;
      while j < |c| && c[j].key != key
        invariant j <= |c| && forall k :: 0 <= k < j ==> c[k].key != key
      {
        j := j + 1;
      }
      if j < |c| {
        OneGone(c, j, key);
        buckets[i] := c[..j] + c[j + 1..];
      } else {
        NoneGone(c, key);
      }
      assert buckets[..] == Removed(old(buckets[..]), hash, key);
    }

    /** hash_for_each_possible_safe with a key comparison and hash_del, as on exit. */
    method Purge(key: nat)
      requires Valid()
      modifies buckets
      ensures Valid() && buckets[..] == Purged(old(buckets[..]), hash, key)
    {
      PurgeEmpties(buckets[..], hash, key);
      hide Filed, Keys, WithoutKey, Purged;
      var i := Index(hash, buckets.Length, key);
      ghost var b, c := buckets[..], buckets[i];
      var j := 0;
      while j < |buckets[i]|
        invariant j <= |buckets[i]| && forall k :: 0 <= k < j ==> buckets[i][k].key != key
        invariant buckets[..] == b[i := buckets[i]]
        invariant WithoutKey(buckets[i], key) == WithoutKey(c, key)
        decreases |buckets[i]| - j
      {
        var d := buckets[i];
        if d[j].key == key {
          OneGone(d, j, key);
          buckets[i] := d[..j] + d[j + 1..];
        } else {
          j := j + 1;
        }
      }
      NoneGone(buckets[i], key);
      PurgedIs(b, hash, key);
    }
  }
}

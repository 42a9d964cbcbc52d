/** The bounded expiring cache of src/limits.rs, and what any history of it means. */
module Limits {
  import opened Harvest

  /** An entry: when it expires, and its value. */
  datatype Entry<+V> = Entry(expires: int, value: V)

  ghost predicate IsOldestEntry<K, V>(m: map<K, Entry<V>>, k: K) {
    k in m && forall j :: j in m ==> m[k].expires <= m[j].expires
  }

  /** Reading: an expired entry is dropped. */
  function AfterGet<K, V>(m: map<K, Entry<V>>, key: K, now: int): map<K, Entry<V>> {
    if key in m && m[key].expires > now then m else m - {key}
  }

  function Hit<K, V>(m: map<K, Entry<V>>, key: K, now: int): Option<V> {
    if key in m && m[key].expires > now then Some(m[key].value) else None
  }

  /** Inserting: `victim` is the entry evicted to make room, if that was needed. */
  ghost predicate Inserts<K, V>(m: map<K, Entry<V>>, n: map<K, Entry<V>>, capacity: nat, key: K, e: Entry<V>,
                                victim: Option<K>) {
    && (victim.Some? <==> key !in m && |m| == capacity)
    && (victim.Some? ==> IsOldestEntry(m, victim.value))
    && n == (if victim.Some? then m - {victim.value} else m)[key := e]
  }

  class ExpiringCache<K(==), V> {
    var entries: map<K, Entry<V>>
    const capacity: nat

    constructor (capacity: nat)
      requires capacity > 0
      ensures entries == map[] && this.capacity == capacity
    {
      entries := map[];
      this.capacity := capacity;
    }

    method Get(key: K, now: int) returns (r: Option<V>)
      modifies this
      ensures r == Hit(old(entries), key, now) && entries == AfterGet(old(entries), key, now)
    {
      if key in entries && entries[key].expires > now {
        return Some(entries[key].value);
      }
      entries := entries - {key};
      return None;
    }

    /** Equal expiries leave open which entry goes. */
    method Insert(key: K, value: V, now: int, ttl: int) returns (victim: Option<K>)
      requires capacity > 0 && |entries| <= capacity
      modifies this
      ensures Inserts(old(entries), entries, capacity, key, Entry(now + ttl, value), victim)
      ensures |entries| <= capacity
    {
      victim := None;
      if key !in entries && |entries| == capacity {
        var k := FindOldest();
        victim := Some(k);
        RemoveOne(entries, k);
        entries := entries - {k};
      }
      AddOne(entries, key, Entry(now + ttl, value));
      entries := entries[key := Entry(now + ttl, value)];
    }

    method FindOldest() returns (k: K)
      requires entries != map[]
      ensures IsOldestEntry(entries, k)
    {
      var todo := entries.Keys;
      k :| k in todo;
      todo := todo - {k};
      while todo != {}
        invariant todo <= entries.Keys && k in entries
        invariant forall j :: j in entries && j !in todo ==> entries[k].expires <= entries[j].expires
        decreases |todo|
      {
        var j :| j in todo;
        todo := todo - {j};
        if entries[j].expires < entries[k].expires {
          k := j;
        }
      }
    }
  }

  lemma RemoveOne<K, V>(m: map<K, Entry<V>>, k: K)
    requires k in m
    ensures |m - {k}| == |m| - 1
  {
  }

  lemma AddOne<K, V>(m: map<K, Entry<V>>, k: K, e: Entry<V>)
    ensures |m[k := e]| == |m| + if k in m then 0 else 1
  {
  }

  // ------------------------------------------------------------------------- histories

  datatype Op<K, V> =
    | Read(key: K, at: int)
    | Write(key: K, value: V, at: int, ttl: int, victim: Option<K>)

  /** One operation takes the content from `m` to `n`. */
  ghost predicate Does<K, V>(op: Op<K, V>, m: map<K, Entry<V>>, n: map<K, Entry<V>>, capacity: nat) {
    match op
    case Read(k, at) => n == AfterGet(m, k, at)
    case Write(k, v, at, ttl, victim) => Inserts(m, n, capacity, k, Entry(at + ttl, v), victim)
  }

  /** `states[i]` is the content before `ops[i]`, `states[|ops|]` at the end; times
      never go backwards. */
  ghost predicate History<K, V>(ops: seq<Op<K, V>>, states: seq<map<K, Entry<V>>>, capacity: nat) {
    && capacity > 0
    && |states| == |ops| + 1
    && states[0] == map[]
    && (forall i, j :: 0 <= i < j < |ops| ==> ops[i].at <= ops[j].at)
    && forall i :: 0 <= i < |ops| ==> Does(ops[i], states[i], states[i + 1], capacity)
  }

  lemma HistoryGrows<K, V>(ops: seq<Op<K, V>>, states: seq<map<K, Entry<V>>>, capacity: nat, op: Op<K, V>, n: map<K,
                           Entry<V>>)
    requires History(ops, states, capacity) && Does(op, states[|ops|], n, capacity)
    requires ops != [] ==> ops[|ops| - 1].at <= op.at
    ensures History(ops + [op], states + [n], capacity)
  {
  }

  /** Operation `i` is the latest insertion of `key` among the first `n`. */
  ghost predicate LatestWrite<K, V>(ops: seq<Op<K, V>>, n: nat, key: K, i: int) {
    && 0 <= i < n <= |ops| && ops[i].Write? && ops[i].key == key
    && forall j :: i < j < n && ops[j].Write? ==> ops[j].key != key
  }

  /** Operation `j` evicted `key`, the oldest entry of a full cache. */
  ghost predicate EvictedAt<K, V>(ops: seq<Op<K, V>>, states: seq<map<K, Entry<V>>>, capacity: nat, key: K, j: int)
    requires 0 <= j < |ops| < |states|
  {
    ops[j].Write? && ops[j].victim == Some(key) && |states[j]| == capacity && IsOldestEntry(states[j], key)
    && ops[j].key !in states[j]
  }

  lemma {:induction false} SizeStays<K, V>(ops: seq<Op<K, V>>, states: seq<map<K, Entry<V>>>, capacity: nat, n: nat)
    requires History(ops, states, capacity) && n <= |ops|
    ensures |states[n]| <= capacity
  {
    if n > 0 {
      SizeStays(ops, states, capacity, n - 1);
      var m := states[n - 1];
      match ops[n - 1]
      case Read(k, at) =>
        if k in m { RemoveOne(m, k); } else { assert m - {k} == m; }
      case Write(k, v, at, ttl, victim) =>
        if victim.Some? { RemoveOne(m, victim.value); }
        AddOne(if victim.Some? then m - {victim.value} else m, k, Entry(at + ttl, v));
    }
  }

  /** What is in the cache is each key's latest insertion. */
  lemma {:induction false} HoldsLatest<K, V>(ops: seq<Op<K, V>>, states: seq<map<K, Entry<V>>>, capacity: nat,
                                             n: nat, key: K)
      returns (i: int)
    requires History(ops, states, capacity) && n <= |ops| && key in states[n]
    ensures LatestWrite(ops, n, key, i) && states[n][key] == Entry(ops[i].at + ops[i].ttl, ops[i].value)
  {
    assert n > 0 && Does(ops[n - 1], states[n - 1], states[n], capacity);
    if ops[n - 1].Write? && ops[n - 1].key == key {
      i := n - 1;
    } else {
      i := HoldsLatest(ops, states, capacity, n - 1, key);
    }
  }

  /** At operation `j` the insertion `i` leaves: it is read after its expiry, or evicted
      as the oldest entry of a full cache. */
  ghost predicate LeavesAt<K, V>(ops: seq<Op<K, V>>, states: seq<map<K, Entry<V>>>, capacity: nat, key: K,
                                 i: int, j: int)
    requires 0 <= i < |ops| < |states| && 0 <= j < |ops| && ops[i].Write?
  {
    || (ops[j].Read? && ops[j].key == key && ops[j].at >= ops[i].at + ops[i].ttl)
    || EvictedAt(ops, states, capacity, key, j)
  }

  lemma LeavesNow<K, V>(ops: seq<Op<K, V>>, states: seq<map<K, Entry<V>>>, capacity: nat, n: nat, key: K, i: int)
    requires History(ops, states, capacity) && n < |ops| && LatestWrite(ops, n, key, i)
    requires key in states[n] && key !in states[n + 1]
    ensures LeavesAt(ops, states, capacity, key, i, n)
  {
    assert Does(ops[n], states[n], states[n + 1], capacity);
    var k := HoldsLatest(ops, states, capacity, n, key);
    assert k == i;
  }

  /** A key's latest insertion is in the cache, or has left it in one of these ways. */
  lemma {:induction false} LeavesForAReason<K, V>(ops: seq<Op<K, V>>, states: seq<map<K, Entry<V>>>, capacity: nat,
                                                  n: nat, key: K, i: int)
    requires History(ops, states, capacity) && LatestWrite(ops, n, key, i)
    ensures key in states[n] || exists j :: i < j < n && LeavesAt(ops, states, capacity, key, i, j)
  {
    if i == n - 1 {
      assert Does(ops[i], states[i], states[n], capacity);
    } else {
      LeavesForAReason(ops, states, capacity, n - 1, key, i);
      if key in states[n - 1] && key !in states[n] {
        LeavesNow(ops, states, capacity, n - 1, key, i);
      }
    }
  }

  ghost predicate EvictedSince<K, V>(ops: seq<Op<K, V>>, states: seq<map<K, Entry<V>>>, capacity: nat, key: K, i: int)
    requires |ops| < |states|
  {
    exists j :: 0 <= j < |ops| && i < j && EvictedAt(ops, states, capacity, key, j)
  }

  lemma MissWasEvicted<K, V>(ops: seq<Op<K, V>>, states: seq<map<K, Entry<V>>>, capacity: nat, key: K, now: int, i: int)
    requires History(ops, states, capacity) && LatestWrite(ops, |ops|, key, i) && ops[|ops| - 1].at <= now
    requires now < ops[i].at + ops[i].ttl && Hit(states[|ops|], key, now).None?
    ensures EvictedSince(ops, states, capacity, key, i)
  {
    var n := |ops|;
    LeavesForAReason(ops, states, capacity, n, key, i);
    if key in states[n] {
      var k := HoldsLatest(ops, states, capacity, n, key);
    } else {
      var j :| i < j < n && LeavesAt(ops, states, capacity, key, i, j);
      assert ops[j].at <= ops[n - 1].at;
    }
  }

  /** Operation `i` is the latest insertion of `key`, and has not expired. */
  ghost predicate Current<K, V>(ops: seq<Op<K, V>>, key: K, now: int, i: int) {
    LatestWrite(ops, |ops|, key, i) && now < ops[i].at + ops[i].ttl
  }

  /** After any history, at a time not before its last operation: a hit is the value of
      the key's latest insertion, strictly before its expiry; and a miss on a key whose
      latest insertion has not expired means it was evicted as the oldest of a full cache. */
  lemma CacheMeansItsHistory<K, V>(ops: seq<Op<K, V>>, states: seq<map<K, Entry<V>>>, capacity: nat, key: K, now: int)
    requires History(ops, states, capacity) && (ops != [] ==> ops[|ops| - 1].at <= now)
    ensures |states[|ops|]| <= capacity
    ensures var hit := Hit(states[|ops|], key, now);
      hit.Some? ==> exists i :: Current(ops, key, now, i) && hit.value == ops[i].value
    ensures forall i :: Current(ops, key, now, i) && Hit(states[|ops|], key, now).None? ==>
      EvictedSince(ops, states, capacity, key, i)
  {
    SizeStays(ops, states, capacity, |ops|);
    if key in states[|ops|] {
      var i := HoldsLatest(ops, states, capacity, |ops|, key);
      assert now < states[|ops|][key].expires ==> Current(ops, key, now, i);
    }
    forall i | Current(ops, key, now, i) && Hit(states[|ops|], key, now).None?
      ensures EvictedSince(ops, states, capacity, key, i)
    {
      MissWasEvicted(ops, states, capacity, key, now, i);
    }
  }
}

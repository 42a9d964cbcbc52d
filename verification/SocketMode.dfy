/** Admission of Socket Mode events and its duplicate suppression
    (src/slackbot/socket_mode.rs:123-162, 190-199). */
module SocketMode {
  import opened Harvest
  import opened Limits
  import Snapshots

  /** 900 seconds, in nanoseconds. */
  const DEDUP_TTL: int := 900_000_000_000
  const QUEUE_BOUND: nat := 256

  /** Workspace, application and event identifier. */
  datatype Key = Key(team: string, app: string, event: string)

  class Queue<T> {
    var items: seq<T>
    var closed: bool

    constructor ()
      ensures items == [] && !closed
    {
      items, closed := [], false;
    }
  }

  datatype Reply = Acknowledged | Retry

  class Ingress<T> {
    var accepting: bool
    const seen: ExpiringCache<Key, ()>

    /** A new session shares the cache of the sessions before it. */
    constructor (seen: ExpiringCache<Key, ()>)
      ensures accepting && this.seen == seen
    {
      accepting := true;
      this.seen := seen;
    }

    method Enqueue(tx: Queue<T>, key: Key, message: T, now: int) returns (r: Reply, victim: Option<Key>)
      requires seen.capacity > 0 && |seen.entries| <= seen.capacity
      modifies seen, tx
      ensures |seen.entries| <= seen.capacity && tx.closed == old(tx.closed)
      ensures !accepting ==> r.Retry? && seen.entries == old(seen.entries) && tx.items == old(tx.items)
      ensures accepting ==>
        var fresh' := AfterGet(old(seen.entries), key, now);
        var admitted := Hit(old(seen.entries), key, now).None? && !tx.closed && |old(tx.items)| < QUEUE_BOUND;
        && (r.Retry? <==> Hit(old(seen.entries), key, now).None? && tx.closed)
        && tx.items == old(tx.items) + (if admitted then [message] else [])
        && (if admitted then Inserts(fresh', seen.entries, seen.capacity, key, Entry(now + DEDUP_TTL, ()), victim)
            else seen.entries == fresh')
        && (Hit(old(seen.entries), key, now).None? && !admitted ==> key !in seen.entries)
    {
      victim := None;
      if !accepting { return Retry, victim; }
      var known := seen.Get(key, now);
      if known.Some? { return Acknowledged, victim; }
      AfterGetSize(old(seen.entries), key, now);
      if tx.closed { return Retry, victim; }
      if |tx.items| < QUEUE_BOUND {
        tx.items := tx.items + [message];
        victim := seen.Insert(key, (), now, DEDUP_TTL);
      }
      return Acknowledged, victim;
    }
  }

  lemma AfterGetSize<K, V>(m: map<K, Entry<V>>, key: K, now: int)
    ensures |AfterGet(m, key, now)| <= |m|
  {
  }

  /** A cache history made of enqueue calls only: every insertion follows a miss on the
      same key at the same time, and has the fixed lifetime. */
  ghost predicate Admissions(ops: seq<Op<Key, ()>>, states: seq<map<Key, Entry<()>>>, capacity: nat) {
    && History(ops, states, capacity)
    && forall i :: 0 <= i < |ops| ==> AfterMiss(ops, states, i)
  }

  /** An insertion right after a miss on the same key, at the same time. */
  ghost predicate AfterMiss(ops: seq<Op<Key, ()>>, states: seq<map<Key, Entry<()>>>, i: int)
    requires 0 <= i < |ops| < |states|
  {
    ops[i].Write? ==>
      && ops[i].ttl == DEDUP_TTL
      && i > 0 && ops[i - 1] == Read(ops[i].key, ops[i].at)
      && Hit(states[i - 1], ops[i].key, ops[i].at).None?
  }

  /** A call that only looks the key up extends the history ... */
  lemma LookupExtends(ops: seq<Op<Key, ()>>, states: seq<map<Key, Entry<()>>>, capacity: nat, key: Key, now: int)
    requires Admissions(ops, states, capacity) && (ops != [] ==> ops[|ops| - 1].at <= now)
    ensures Admissions(ops + [Read(key, now)], states + [AfterGet(states[|ops|], key, now)], capacity)
  {
    var op, n := Read(key, now), AfterGet(states[|ops|], key, now);
    HistoryGrows(ops, states, capacity, op, n);
    forall i | 0 <= i < |ops + [op]| ensures AfterMiss(ops + [op], states + [n], i) {
      if i < |ops| { assert AfterMiss(ops, states, i); }
    }
  }

  /** ... and so does one that also admits it: over any number of sessions, the calls
      of `Enqueue` make a history of admissions. */
  lemma {:induction false} EnqueueExtends(ops: seq<Op<Key, ()>>, states: seq<map<Key, Entry<()>>>, capacity: nat,
                       key: Key, now: int, victim: Option<Key>, n: map<Key, Entry<()>>)
    requires Admissions(ops, states, capacity) && (ops != [] ==> ops[|ops| - 1].at <= now)
    requires Hit(states[|ops|], key, now).None?
    requires Inserts(AfterGet(states[|ops|], key, now), n, capacity, key, Entry(now + DEDUP_TTL, ()), victim)
    ensures Admissions(ops + [Read(key, now)] + [Write(key, (), now, DEDUP_TTL, victim)],
      states + [AfterGet(states[|ops|], key, now)] + [n], capacity)
  {
    LookupExtends(ops, states, capacity, key, now);
    var looked, found := ops + [Read(key, now)], states + [AfterGet(states[|ops|], key, now)];
    var op := Write(key, (), now, DEDUP_TTL, victim);
    HistoryGrows(looked, found, capacity, op, n);
    forall i | 0 <= i < |looked + [op]| ensures AfterMiss(looked + [op], found + [n], i) {
      if i < |looked| { assert AfterMiss(looked, found, i); }
    }
  }

  /** Other keys admitted before operation `n`, no earlier than `since`. */
  ghost function OtherKeys(ops: seq<Op<Key, ()>>, key: Key, since: int, n: nat): set<Key>
    requires n <= |ops|
  {
    set i | 0 <= i < n && ops[i].Write? && ops[i].key != key && ops[i].at >= since :: ops[i].key
  }

  /** When a key is evicted, a full cache of other keys was admitted no earlier than it. */
  lemma EvictionNeedsOthers(ops: seq<Op<Key, ()>>, states: seq<map<Key, Entry<()>>>, capacity: nat, key: Key,
                            i: int, e: int)
    requires Admissions(ops, states, capacity) && 0 <= i < e < |ops|
    requires LatestWrite(ops, e, key, i) && EvictedAt(ops, states, capacity, key, e)
    ensures |OtherKeys(ops, key, ops[i].at, e + 1)| >= capacity
  {
    var m := states[e];
    var k := HoldsLatest(ops, states, capacity, e, key);
    assert k == i && AfterMiss(ops, states, i);
    var others := m.Keys - {key} + {ops[e].key};
    forall x | x in others ensures x in OtherKeys(ops, key, ops[i].at, e + 1) {
      if x != ops[e].key {
        var j := HoldsLatest(ops, states, capacity, e, x);
        assert AfterMiss(ops, states, j);
        assert m[key].expires <= m[x].expires;
      } else {
        assert ops[e].key == x;
      }
    }
    assert |m.Keys| == capacity;
    Snapshots.SubsetSize(others, OtherKeys(ops, key, ops[i].at, e + 1));
  }

  lemma {:induction false} LastBefore(ops: seq<Op<Key, ()>>, n: nat, key: Key, i: int) returns (l: int)
    requires 0 <= i < n <= |ops| && ops[i].Write? && ops[i].key == key
    ensures i <= l && LatestWrite(ops, n, key, l)
    decreases n
  {
    if ops[n - 1].Write? && ops[n - 1].key == key {
      l := n - 1;
    } else {
      l := LastBefore(ops, n - 1, key, i);
    }
  }

  /** Over every history, whatever sessions it spans: the same key is admitted twice
      only 900 seconds apart, or around at least `capacity` other admitted keys. */
  lemma DuplicatesAreSuppressed(ops: seq<Op<Key, ()>>, states: seq<map<Key, Entry<()>>>, capacity: nat, i: int, j: int)
    requires Admissions(ops, states, capacity)
    requires 0 <= i < j < |ops| && ops[i].Write? && ops[j].Write? && ops[i].key == ops[j].key
    ensures ops[j].at - ops[i].at >= 900 * 1_000_000_000 || |OtherKeys(ops, ops[i].key, ops[i].at, j)| >= capacity
  {
    var key, now := ops[i].key, ops[j].at;
    assert AfterMiss(ops, states, j);
    var n := j - 1;
    var l := LastBefore(ops, n, key, i);
    assert AfterMiss(ops, states, l);
    if now < ops[l].at + DEDUP_TTL {
      LeavesForAReason(ops, states, capacity, n, key, l);
      if key in states[n] {
        var k := HoldsLatest(ops, states, capacity, n, key);
      } else {
        var e :| l < e < n && LeavesAt(ops, states, capacity, key, l, e);
        assert ops[e].at <= now && EvictedAt(ops, states, capacity, key, e);
        assert LatestWrite(ops, e, key, l);
        EvictionNeedsOthers(ops, states, capacity, key, l, e);
        Snapshots.SubsetSize(OtherKeys(ops, key, ops[l].at, e + 1), OtherKeys(ops, key, ops[i].at, j));
      }
    }
  }
}

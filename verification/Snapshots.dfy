/** The recovery state of src/slackbot/user_session/state.rs as values: what each
    `Store` operation does to the data behind its mutex. The class in Store.dfy
    is proved to do exactly this in place, and Protocol.dfy runs on it. */
module Snapshots {
  import opened Harvest

  const MAX_CHANNELS: nat := 4096
  const MAX_THREADS: nat := 4096
  const MAX_SEEN: nat := 32768
  const OVERLAP: int := 120

  datatype Msg = Msg(channel: string, ts: string)

  datatype Channel = Channel(covered: int, threads: map<string, int>, recovering: bool, failed: bool)

  datatype Seen = Seen(channel: string, ts: string, at: int)

  datatype Snapshot = Snapshot(channels: map<string, Channel>, seen: seq<Seen>)

  /** One tracked thread, with the fields in the order the eviction sorts by. */
  datatype Thread = Thread(at: int, channel: string, ts: string)

  function Max(a: int, b: int): int { if a < b then b else a }

  function SeenMsgs(seen: seq<Seen>): set<Msg> {
    set e | e in seen :: Msg(e.channel, e.ts)
  }

  // ---------------------------------------------------------------- ordering

  predicate TextLess(a: string, b: string) {
    b != "" && (a == "" || a[0] < b[0] || (a[0] == b[0] && TextLess(a[1..], b[1..])))
  }

  predicate ThreadLess(a: Thread, b: Thread) {
    || a.at < b.at
    || (a.at == b.at && TextLess(a.channel, b.channel))
    || (a.at == b.at && a.channel == b.channel && TextLess(a.ts, b.ts))
  }

  lemma {:induction false} TextTotal(a: string, b: string)
    ensures a == b || TextLess(a, b) || TextLess(b, a)
    ensures !(TextLess(a, b) && TextLess(b, a))
    ensures !TextLess(a, a)
  {
    if a != "" {
      TextTotal(a[1..], a[1..]);
      if b != "" && a[0] == b[0] {
        TextTotal(a[1..], b[1..]);
        assert a[1..] == b[1..] ==> a == [a[0]] + b[1..] == b;
      }
    }
  }

  lemma {:induction false} TextTransitive(a: string, b: string, c: string)
    requires TextLess(a, b) && TextLess(b, c)
    ensures TextLess(a, c)
  {
    if a != "" && a[0] == b[0] == c[0] {
      TextTransitive(a[1..], b[1..], c[1..]);
    }
  }

  lemma ThreadTotal(a: Thread, b: Thread)
    ensures a == b || ThreadLess(a, b) || ThreadLess(b, a)
    ensures !(ThreadLess(a, b) && ThreadLess(b, a))
    ensures !ThreadLess(a, a)
  {
    TextTotal(a.channel, b.channel);
    TextTotal(a.ts, b.ts);
    TextTotal(a.channel, a.channel);
    TextTotal(a.ts, a.ts);
  }

  lemma ThreadTransitive(a: Thread, b: Thread, c: Thread)
    requires ThreadLess(a, b) && ThreadLess(b, c)
    ensures ThreadLess(a, c)
  {
    TextTotal(a.channel, a.channel);
    if a.channel != b.channel && b.channel != c.channel && a.at == b.at == c.at {
      TextTransitive(a.channel, b.channel, c.channel);
    }
    if a.channel == b.channel == c.channel && a.at == b.at == c.at {
      TextTransitive(a.ts, b.ts, c.ts);
    }
  }

  // ----------------------------------------------------------------- pruning

  function Retained(seen: seq<Seen>, limit: int): (r: seq<Seen>)
    ensures |r| <= |seen|
    ensures forall e :: e in r <==> e in seen && e.at >= limit
  {
    if seen == [] then []
    else if seen[|seen| - 1].at >= limit then Retained(seen[..|seen| - 1], limit) + [seen[|seen| - 1]]
    else Retained(seen[..|seen| - 1], limit)
  }

  function LastN<T>(s: seq<T>, n: nat): (r: seq<T>)
    ensures |r| <= n
  {
    if |s| <= n then s else s[|s| - n..]
  }

  function PrunedSeen(seen: seq<Seen>, at: int, window: int): seq<Seen> {
    LastN(Retained(seen, at - window - OVERLAP), MAX_SEEN)
  }

  ghost function Threads(channels: map<string, Channel>): set<Thread> {
    set id, ts | id in channels && ts in channels[id].threads :: Thread(channels[id].threads[ts], id, ts)
  }

  ghost function ThreadsAt(id: string, threads: map<string, int>): set<Thread> {
    set ts | ts in threads :: Thread(threads[ts], id, ts)
  }

  ghost function ThreadsIn(channels: map<string, Channel>, ids: set<string>): set<Thread> {
    set t | t in Threads(channels) && t.channel in ids
  }

  lemma {:induction false} ThreadsAtSize(id: string, threads: map<string, int>)
    ensures |ThreadsAt(id, threads)| == |threads|
  {
    if threads.Keys != {} {
      var ts :| ts in threads;
      var rest := threads - {ts};
      ThreadsAtSize(id, rest);
      assert ThreadsAt(id, threads) == ThreadsAt(id, rest) + {Thread(threads[ts], id, ts)};
      assert rest.Keys == threads.Keys - {ts};
    }
  }

  /** Counting channel by channel counts the threads of the whole store. */
  lemma ThreadsInStep(channels: map<string, Channel>, ids: set<string>, id: string)
    requires id in channels && id !in ids
    ensures |ThreadsIn(channels, ids + {id})| == |ThreadsIn(channels, ids)| + |channels[id].threads|
  {
    var here := ThreadsAt(id, channels[id].threads);
    ThreadsAtSize(id, channels[id].threads);
    assert ThreadsIn(channels, ids + {id}) == ThreadsIn(channels, ids) + here;
    assert ThreadsIn(channels, ids) !! here;
  }

  /** `t` comes before every other member of `f`. */
  ghost predicate IsOldest(t: Thread, f: set<Thread>) {
    t in f && forall u :: u in f && u != t ==> ThreadLess(t, u)
  }

  lemma {:induction false} OldestExists(f: set<Thread>)
    requires f != {}
    ensures exists t :: IsOldest(t, f)
  {
    var t :| t in f;
    if f == {t} {
      assert IsOldest(t, f);
    } else {
      OldestExists(f - {t});
      var u :| IsOldest(u, f - {t});
      ThreadTotal(t, u);
      if ThreadLess(t, u) {
        forall v | v in f && v != t ensures ThreadLess(t, v) {
          if v != u { ThreadTransitive(t, u, v); }
        }
        assert IsOldest(t, f);
      } else {
        assert IsOldest(u, f);
      }
    }
  }

  ghost function Oldest(f: set<Thread>): (t: Thread)
    requires f != {}
    ensures IsOldest(t, f)
  {
    OldestExists(f);
    var t :| IsOldest(t, f);
    t
  }

  /** The `cap` largest threads: drop the oldest one until they fit. */
  ghost function Newest(f: set<Thread>, cap: nat): (k: set<Thread>)
    ensures k <= f
    ensures |k| <= cap
    decreases |f|
  {
    if |f| <= cap then f else Newest(f - {Oldest(f)}, cap)
  }

  /** What the eviction promises, with no reference to how it is computed. */
  ghost predicate KeepsNewest(k: set<Thread>, f: set<Thread>, cap: nat) {
    && k <= f
    && |k| == (if |f| <= cap then |f| else cap)
    && forall t, u :: t in k && u in f - k ==> ThreadLess(u, t)
  }

  lemma {:induction false} NewestIsExact(f: set<Thread>, cap: nat)
    ensures KeepsNewest(Newest(f, cap), f, cap)
    decreases |f|
  {
    if |f| > cap {
      var g := f - {Oldest(f)};
      NewestIsExact(g, cap);
    }
  }

  /** The promise has only one answer, so it defines the eviction completely. */
  lemma KeepsNewestIsUnique(k: set<Thread>, l: set<Thread>, f: set<Thread>, cap: nat)
    requires KeepsNewest(k, f, cap) && KeepsNewest(l, f, cap)
    ensures k == l
  {
    if !(k <= l) {
      var t :| t in k && t !in l;
      if l <= k {
        SubsetSize(l, k - {t});
      } else {
        var u :| u in l && u !in k;
        ThreadTotal(t, u);
      }
    } else if k != l {
      var u :| u in l && u !in k;
      SubsetSize(k, l - {u});
    }
  }

  lemma {:induction false} SubsetSize<T>(a: set<T>, b: set<T>)
    requires a <= b
    ensures |a| <= |b|
  {
    if a != {} {
      var x :| x in a;
      SubsetSize(a - {x}, b - {x});
    }
  }

  /** Channels with exactly the threads of `keep` that they already had. */
  ghost function OnlyThreads(channels: map<string, Channel>, keep: set<Thread>): (r: map<string, Channel>)
    ensures r.Keys == channels.Keys
    ensures forall id :: id in r ==>
      && r[id].covered == channels[id].covered
      && r[id].recovering == channels[id].recovering
      && r[id].failed == channels[id].failed
      && r[id].threads.Keys <= channels[id].threads.Keys
  {
    map id | id in channels :: channels[id].(threads :=
      map ts | ts in channels[id].threads && Thread(channels[id].threads[ts], id, ts) in keep ::
        channels[id].threads[ts])
  }

  ghost function Fresh(channels: map<string, Channel>, limit: int): set<Thread> {
    set t | t in Threads(channels) && t.at >= limit
  }

  ghost function PrunedChannels(channels: map<string, Channel>, at: int, window: int): (r: map<string, Channel>)
    ensures r.Keys == channels.Keys
    ensures forall id :: id in r ==>
      && r[id].covered == channels[id].covered
      && r[id].recovering == channels[id].recovering
      && r[id].failed == channels[id].failed
      && r[id].threads.Keys <= channels[id].threads.Keys
  {
    OnlyThreads(channels, Newest(Fresh(channels, at - window), MAX_THREADS))
  }

  ghost function Prune(s: Snapshot, at: int, window: int): (r: Snapshot)
    ensures SameCheckpoints(s, r)
  {
    Snapshot(PrunedChannels(s.channels, at, window), PrunedSeen(s.seen, at, window))
  }

  lemma ThreadsOfOnly(channels: map<string, Channel>, keep: set<Thread>)
    ensures Threads(OnlyThreads(channels, keep)) == Threads(channels) * keep
  {
    var r := OnlyThreads(channels, keep);
    forall t ensures t in Threads(r) <==> t in Threads(channels) * keep {
      if t in Threads(channels) * keep {
        assert t.ts in r[t.channel].threads;
      }
    }
  }

  lemma ThreadsOfPruned(channels: map<string, Channel>, at: int, window: int)
    ensures KeepsNewest(Threads(PrunedChannels(channels, at, window)), Fresh(channels, at - window), MAX_THREADS)
  {
    var f := Fresh(channels, at - window);
    NewestIsExact(f, MAX_THREADS);
    ThreadsOfOnly(channels, Newest(f, MAX_THREADS));
    assert Threads(channels) * Newest(f, MAX_THREADS) == Newest(f, MAX_THREADS);
  }

  /** `last` is `kept` without a prefix, which is dropped only to meet the limit. */
  ghost predicate IsLast(last: seq<Seen>, kept: seq<Seen>, cap: nat) {
    |last| <= cap && exists dropped :: kept == dropped + last && (dropped == [] || |last| == cap)
  }

  lemma LastNIsLast(s: seq<Seen>, n: nat)
    ensures IsLast(LastN(s, n), s, n)
  {
    assert s == s[..|s| - |LastN(s, n)|] + LastN(s, n);
  }

  /** Pruning keeps exactly the newest 4096 fresh threads over all channels, keeps
      the last 32768 fresh duplicate entries in order, and touches nothing else. */
  lemma PruneIsExact(s: Snapshot, at: int, window: int)
    ensures var p := Prune(s, at, window);
      && KeepsNewest(Threads(p.channels), Fresh(s.channels, at - window), MAX_THREADS)
      && (forall id :: id in p.channels ==> p.channels[id] == s.channels[id].(threads := p.channels[id].threads))
      && p.channels.Keys == s.channels.Keys
      && IsLast(p.seen, Retained(s.seen, at - window - OVERLAP), MAX_SEEN)
  {
    ThreadsOfPruned(s.channels, at, window);
    LastNIsLast(Retained(s.seen, at - window - OVERLAP), MAX_SEEN);
  }

  /** What counts as retained, in order. */
  lemma {:induction false} RetainedIsInOrder(seen: seq<Seen>, limit: int, more: seq<Seen>)
    ensures Retained(seen + more, limit) == Retained(seen, limit) + Retained(more, limit)
  {
    if more == [] {
      assert seen + more == seen;
    } else {
      var init := more[..|more| - 1];
      RetainedIsInOrder(seen, limit, init);
      assert (seen + more)[..|seen + more| - 1] == seen + init;
    }
  }

  // -------------------------------------------------------------- operations

  /** An operation that leaves every checkpoint and every recovering flag alone. */
  ghost predicate SameCheckpoints(a: Snapshot, b: Snapshot) {
    && a.channels.Keys == b.channels.Keys
    && forall id :: id in a.channels ==>
         a.channels[id].covered == b.channels[id].covered && a.channels[id].recovering == b.channels[id].recovering
  }

  function NewChannel(at: int): Channel { Channel(at, map[], false, false) }

  /** What one turn of the loop in `begin_connection` leaves for one channel. */
  function Joined(channels: map<string, Channel>, id: string, at: int, window: int): Channel {
    var c := if id in channels then channels[id] else NewChannel(at);
    c.(covered := Max(c.covered, at - window), recovering := id in channels, failed := false)
  }

  function Join(channels: map<string, Channel>, id: string, at: int, window: int): map<string, Channel> {
    channels[id := Joined(channels, id, at, window)]
  }

  predicate Joinable(channels: map<string, Channel>, id: string) {
    ValidId(id) && (id in channels || |channels| < MAX_CHANNELS)
  }

  /** The loop of `begin_connection`; an error leaves the channels joined so far. */
  function JoinAll(channels: map<string, Channel>, ids: seq<string>, at: int, window: int): (map<string, Channel>, bool)
    decreases |ids|
  {
    if ids == [] then (channels, true)
    else if !Joinable(channels, ids[0]) then (channels, false)
    else JoinAll(Join(channels, ids[0], at, window), ids[1..], at, window)
  }

  function Kept(channels: map<string, Channel>, ids: seq<string>): map<string, Channel> {
    map id | id in channels && id in ids :: channels[id]
  }

  ghost function BeginConnection(s: Snapshot, ids: seq<string>, at: int, window: int): (Snapshot, bool) {
    var (channels, ok) := JoinAll(Kept(s.channels, ids), ids, at, window);
    if ok then (Prune(Snapshot(channels, s.seen), at, window), true) else (Snapshot(channels, s.seen), false)
  }

  function AddChannel(s: Snapshot, id: string, at: int): (Snapshot, bool) {
    if !Joinable(s.channels, id) then (s, false)
    else if id in s.channels then (s, true)
    else (s.(channels := s.channels[id := NewChannel(at)]), true)
  }

  function WithFailed(s: Snapshot, id: string, failed: bool): (r: Snapshot)
    ensures SameCheckpoints(s, r)
  {
    if id in s.channels then s.(channels := s.channels[id := s.channels[id].(failed := failed)]) else s
  }

  function WithThread(s: Snapshot, id: string, parent: string, at: int): (r: Snapshot)
    ensures SameCheckpoints(s, r)
  {
    if ValidTs(parent) && id in s.channels
    then s.(channels := s.channels[id := s.channels[id].(threads := s.channels[id].threads[parent := at])])
    else s
  }

  function ForgetThread(s: Snapshot, id: string, ts: string): (r: Snapshot)
    ensures SameCheckpoints(s, r)
  {
    if id in s.channels
    then s.(channels := s.channels[id := s.channels[id].(threads := s.channels[id].threads - {ts})])
    else s
  }

  ghost function RememberThread(s: Snapshot, id: string, parent: string, at: int, window: int): (r: Snapshot)
    ensures SameCheckpoints(s, r)
  {
    Prune(WithThread(s, id, parent, at), at, window)
  }

  ghost function Processed(s: Snapshot, m: Msg, thread: Option<string>, at: int, window: int): (r: Snapshot)
    ensures SameCheckpoints(s, r)
  {
    var t := s.(seen := s.seen + [Seen(m.channel, m.ts, at)]);
    Prune(if thread.Some? then WithThread(t, m.channel, thread.value, at) else t, at, window)
  }

  function FinishRecovery(s: Snapshot, id: string, through: int): Snapshot {
    if id in s.channels && !s.channels[id].failed then
      var c := s.channels[id];
      s.(channels := s.channels[id := c.(covered := Max(c.covered, through), recovering := false)])
    else s
  }

  function Advanced(channels: map<string, Channel>, through: int): (r: map<string, Channel>)
    ensures r.Keys == channels.Keys
  {
    map id | id in channels ::
      if channels[id].recovering || channels[id].failed then channels[id]
      else channels[id].(covered := Max(channels[id].covered, through))
  }

  ghost function Checkpoint(s: Snapshot, through: int, at: int, window: int): Snapshot {
    Prune(s.(channels := Advanced(s.channels, through)), at, window)
  }

  /** What a save writes: the two flags are not serialised. */
  function Persisted(s: Snapshot): (r: Snapshot)
    ensures r.channels.Keys == s.channels.Keys && r.seen == s.seen
  {
    s.(channels := map id | id in s.channels :: s.channels[id].(recovering := false, failed := false))
  }

  /** The first second a recovery pass asks history for. */
  function RecoverFrom(covered: int, through: int, window: int): int {
    Max(Max(covered - OVERLAP, through - window), 0)
  }

  // ------------------------------------------------------- joining, in closed form

  predicate Distinct<T(==)>(s: seq<T>) {
    forall i, j :: 0 <= i < j < |s| ==> s[i] != s[j]
  }

  function Elements<T>(s: seq<T>): set<T> { set x | x in s }

  lemma ElementsStep<T>(ids: seq<T>)
    ensures ids == [] ==> Elements(ids) == {}
    ensures ids != [] ==> Elements(ids) == {ids[0]} + Elements(ids[1..])
  {
  }

  lemma {:induction false} DistinctSize<T>(s: seq<T>)
    requires Distinct(s)
    ensures |Elements(s)| == |s|
  {
    ElementsStep(s);
    if s != [] {
      assert s[0] !in s[1..];
      DistinctSize(s[1..]);
    }
  }

  /** Distinct, valid ids within the cap never make the loop fail, whatever order
      the set of members was listed in. */
  lemma {:induction false} JoinAllSucceeds(channels: map<string, Channel>, ids: seq<string>, all: set<string>,
                                           at: int, window: int)
    requires Elements(ids) <= all && channels.Keys <= all && |all| <= MAX_CHANNELS
    requires forall id :: id in Elements(ids) ==> ValidId(id)
    decreases |ids|
    ensures JoinAll(channels, ids, at, window).1
  {
    ElementsStep(ids);
    if ids != [] {
      var id, rest := ids[0], ids[1..];
      if id !in channels {
        SubsetSize(channels.Keys + {id}, all);
      }
      var joined := Join(channels, id, at, window);
      assert joined.Keys == channels.Keys + {id};
      JoinAllSucceeds(joined, rest, all, at, window);
    }
  }

  lemma {:induction false} JoinAllKeys(channels: map<string, Channel>, ids: seq<string>, at: int, window: int)
    requires JoinAll(channels, ids, at, window).1
    decreases |ids|
    ensures JoinAll(channels, ids, at, window).0.Keys == channels.Keys + Elements(ids)
  {
    ElementsStep(ids);
    if ids != [] {
      JoinAllKeys(Join(channels, ids[0], at, window), ids[1..], at, window);
    }
  }

  /** ... and every channel is treated independently of the others. */
  lemma {:induction false} JoinAllTreatsEachAlone(channels: map<string, Channel>, ids: seq<string>, at: int,
                                                  window: int, id: string)
    requires Distinct(ids) && JoinAll(channels, ids, at, window).1 && (id in ids || id in channels)
    decreases |ids|
    ensures var r := JoinAll(channels, ids, at, window).0;
      id in r && r[id] == if id in ids then Joined(channels, id, at, window) else channels[id]
  {
    if ids != [] {
      JoinAllTreatsEachAlone(Join(channels, ids[0], at, window), ids[1..], at, window, id);
    }
  }

  /** Together: the members, each joined by itself. */
  lemma JoinAllIsPointwise(channels: map<string, Channel>, ids: seq<string>, at: int, window: int)
    requires Distinct(ids) && |Elements(ids)| <= MAX_CHANNELS && forall id :: id in Elements(ids) ==> ValidId(id)
    ensures var (r, ok) := JoinAll(Kept(channels, ids), ids, at, window);
      ok && r.Keys == Elements(ids) && forall id :: id in r ==> r[id] == Joined(channels, id, at, window)
  {
    var kept := Kept(channels, ids);
    JoinAllSucceeds(kept, ids, Elements(ids), at, window);
    JoinAllKeys(kept, ids, at, window);
    var r := JoinAll(kept, ids, at, window).0;
    forall id | id in r ensures r[id] == Joined(channels, id, at, window) {
      JoinAllTreatsEachAlone(kept, ids, at, window, id);
    }
  }
}

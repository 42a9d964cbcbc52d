/** `Store` of src/slackbot/user_session/state.rs, with its data updated in place.
    Each method is proved to do what the function of the same name in Snapshots says. */
module StoreObject {
  import opened Harvest
  import S = Snapshots
  import opened StateFile

  type Channel = S.Channel
  type Thread = S.Thread

  // ------------------------------------------------------------- sorting the threads

  ghost predicate Ascending(s: seq<Thread>) {
    forall i, j :: 0 <= i < j < |s| ==> S.ThreadLess(s[i], s[j])
  }

  /** `sort_unstable` on distinct threads. */
  method Sort(s: seq<Thread>) returns (r: seq<Thread>)
    requires S.Distinct(s)
    ensures Ascending(r) && S.Elements(r) == S.Elements(s) && |r| == |s|
  {
    r := [];
    for n := 0 to |s|
      invariant Ascending(r) && S.Elements(r) == S.Elements(s[..n]) && |r| == n
    {
      var i := 0;
      while i < |r| && S.ThreadLess(r[i], s[n])
        invariant i <= |r|
        invariant forall k :: 0 <= k < i ==> S.ThreadLess(r[k], s[n])
      {
        i := i + 1;
      }
      assert s[n] !in S.Elements(r);
      InsertKeepsOrder(r, i, s[n]);
      assert S.Elements(s[..n + 1]) == S.Elements(s[..n]) + {s[n]} by { assert s[..n + 1] == s[..n] + [s[n]]; }
      r := r[..i] + [s[n]] + r[i..];
    }
    assert s[..|s|] == s;
  }

  lemma InsertKeepsOrder(r: seq<Thread>, i: nat, t: Thread)
    requires Ascending(r) && i <= |r| && t !in r
    requires (forall k :: 0 <= k < i ==> S.ThreadLess(r[k], t)) && (i < |r| ==> !S.ThreadLess(r[i], t))
    ensures Ascending(r[..i] + [t] + r[i..])
    ensures S.Elements(r[..i] + [t] + r[i..]) == S.Elements(r) + {t}
  {
    forall k | i <= k < |r| ensures S.ThreadLess(t, r[k]) {
      S.ThreadTotal(t, r[i]);
      if k > i {
        S.ThreadTransitive(t, r[i], r[k]);
      }
    }
    var q := r[..i] + [t] + r[i..];
    forall u ensures u in q <==> u in r || u == t {
      assert r == r[..i] + r[i..];
    }
  }

  /** Removing the first entries of the sorted list is removing the oldest threads. */
  lemma FirstAreOldest(sorted: seq<Thread>, cap: nat)
    requires Ascending(sorted) && |sorted| >= cap
    ensures S.Elements(sorted) - S.Elements(sorted[..|sorted| - cap]) == S.Newest(S.Elements(sorted), cap)
  {
    var f, k := S.Elements(sorted), |sorted| - cap;
    var first, rest := S.Elements(sorted[..k]), S.Elements(sorted[k..]);
    AscendingIsDistinct(sorted);
    S.DistinctSize(sorted);
    S.DistinctSize(sorted[k..]);
    assert f - first == rest by {
      assert sorted == sorted[..k] + sorted[k..];
    }
    S.NewestIsExact(f, cap);
    S.KeepsNewestIsUnique(rest, S.Newest(f, cap), f, cap);
  }

  lemma AscendingIsDistinct(sorted: seq<Thread>)
    requires Ascending(sorted)
    ensures S.Distinct(sorted)
  {
    forall i, j | 0 <= i < j < |sorted| ensures sorted[i] != sorted[j] {
      S.ThreadTotal(sorted[i], sorted[i]);
    }
  }

  lemma OnlyTwice(channels: map<string, Channel>, f: set<Thread>, k: set<Thread>)
    requires k <= f
    ensures S.OnlyThreads(S.OnlyThreads(channels, f), k) == S.OnlyThreads(channels, k)
  {
    var a, b := S.OnlyThreads(S.OnlyThreads(channels, f), k), S.OnlyThreads(channels, k);
    forall id | id in channels ensures a[id] == b[id] {
      assert a[id].threads == b[id].threads;
    }
  }

  lemma OnlyAll(channels: map<string, Channel>)
    ensures S.OnlyThreads(channels, S.Threads(channels)) == channels
  {
    var r := S.OnlyThreads(channels, S.Threads(channels));
    forall id | id in channels ensures r[id] == channels[id] {
      assert r[id].threads == channels[id].threads;
    }
  }

  function Young(c: Channel, limit: int): Channel {
    c.(threads := map ts | ts in c.threads && c.threads[ts] >= limit :: c.threads[ts])
  }

  lemma OnlyFresh(channels: map<string, Channel>, limit: int, id: string)
    requires id in channels
    ensures S.OnlyThreads(channels, S.Fresh(channels, limit))[id] == Young(channels[id], limit)
  {
  }

  /** The threads of `ids`, and those of `id` listed so far. */
  ghost function Listed(channels: map<string, Channel>, ids: set<string>, id: string, done: set<string>): set<Thread> {
    set t | t in S.Threads(channels) && (t.channel in ids || (t.channel == id && t.ts in done))
  }

  lemma ListOne(channels: map<string, Channel>, ids: set<string>, id: string, done: set<string>, ts: string)
    requires id in channels && id !in ids && ts in channels[id].threads && ts !in done
    ensures var t := S.Thread(channels[id].threads[ts], id, ts);
      t !in Listed(channels, ids, id, done) &&
        Listed(channels, ids, id, done + {ts}) == Listed(channels, ids, id, done) + {t}
  {
  }

  lemma Extend(all: seq<Thread>, t: Thread)
    requires S.Distinct(all) && t !in S.Elements(all)
    ensures S.Distinct(all + [t]) && S.Elements(all + [t]) == S.Elements(all) + {t}
  {
  }

  class Store {
    var channels: map<string, Channel>
    var seen: seq<S.Seen>
    const window: int

    function Data(): S.Snapshot reads this { S.Snapshot(channels, seen) }

    constructor (data: S.Snapshot, window: int)
      ensures Data() == data && this.window == window
    {
      channels, seen := data.channels, data.seen;
      this.window := window;
    }

    // -------------------------------------------------------------------- pruning

    method PruneSeen(at: int)
      modifies this`seen
      ensures seen == S.PrunedSeen(old(seen), at, window)
    {
      seen := S.Retained(seen, at - window - S.OVERLAP);
      ghost var kept := seen;
      while |seen| > S.MAX_SEEN
        invariant |seen| <= |kept| && seen == kept[|kept| - |seen|..]
        invariant |seen| >= S.MAX_SEEN || seen == kept
      {
        seen := seen[1..];
      }
    }

    method RetainFresh(limit: int)
      modifies this`channels
      ensures channels == S.OnlyThreads(old(channels), S.Fresh(old(channels), limit))
    {
      var todo := channels.Keys;
      while todo != {}
        invariant todo <= channels.Keys == old(channels).Keys
        invariant forall id :: id in channels ==>
          channels[id] == if id in todo then old(channels)[id] else Young(old(channels)[id], limit)
        decreases |todo|
      {
        var id :| id in todo;
        channels := channels[id := Young(channels[id], limit)];
        todo := todo - {id};
      }
      forall id | id in channels
        ensures channels[id] == S.OnlyThreads(old(channels), S.Fresh(old(channels), limit))[id]
      {
        OnlyFresh(old(channels), limit, id);
      }
    }

    method Count() returns (count: nat)
      ensures count == |S.Threads(channels)|
    {
      count := 0;
      var todo := channels.Keys;
      ghost var counted: set<string> := {};
      assert S.ThreadsIn(channels, {}) == {};
      while todo != {}
        invariant todo + counted == channels.Keys && todo !! counted
        invariant count == |S.ThreadsIn(channels, counted)|
        decreases |todo|
      {
        var id :| id in todo;
        S.ThreadsInStep(channels, counted, id);
        count := count + |channels[id].threads|;
        todo, counted := todo - {id}, counted + {id};
      }
      assert S.ThreadsIn(channels, channels.Keys) == S.Threads(channels);
    }

    method Collect() returns (all: seq<Thread>)
      ensures S.Distinct(all) && S.Elements(all) == S.Threads(channels)
    {
      all := [];
      var todo := channels.Keys;
      while todo != {}
        invariant todo <= channels.Keys && S.Distinct(all)
        invariant S.Elements(all) == S.ThreadsIn(channels, channels.Keys - todo)
        decreases |todo|
      {
        var id :| id in todo;
        all := CollectChannel(all, id, channels.Keys - todo);
        todo := todo - {id};
        assert channels.Keys - todo == channels.Keys - (todo + {id}) + {id};
      }
      assert S.ThreadsIn(channels, channels.Keys) == S.Threads(channels);
    }

    method CollectChannel(before: seq<Thread>, id: string, ghost ids: set<string>) returns (all: seq<Thread>)
      requires id in channels && id !in ids && S.Distinct(before) && S.Elements(before) == S.ThreadsIn(channels, ids)
      ensures S.Distinct(all) && S.Elements(all) == S.ThreadsIn(channels, ids + {id})
    {
      all := before;
      var threads := channels[id].threads;
      var todo := threads.Keys;
      ghost var done: set<string> := {};
      assert Listed(channels, ids, id, {}) == S.ThreadsIn(channels, ids);
      while todo != {}
        invariant todo + done == threads.Keys && todo !! done && S.Distinct(all)
        invariant S.Elements(all) == Listed(channels, ids, id, done)
        decreases |todo|
      {
        var ts :| ts in todo;
        var t := S.Thread(threads[ts], id, ts);
        ListOne(channels, ids, id, done, ts);
        Extend(all, t);
        all := all + [t];
        todo, done := todo - {ts}, done + {ts};
      }
      assert Listed(channels, ids, id, threads.Keys) == S.ThreadsIn(channels, ids + {id});
    }

    /** Removing the first entries, one by one. */
    method RemoveFirst(sorted: seq<Thread>, count: nat, ghost rest: set<Thread>)
      requires count <= |sorted| && S.Elements(sorted) == S.Threads(channels)
      requires rest == S.Elements(sorted) - S.Elements(sorted[..count])
      modifies this`channels
      ensures channels == S.OnlyThreads(old(channels), rest)
    {
      ghost var f, gone: set<Thread> := S.Elements(sorted), {};
      OnlyAll(channels);
      assert f - gone == f;
      for i := 0 to count
        invariant gone == S.Elements(sorted[..i])
        invariant channels == S.OnlyThreads(old(channels), f - gone)
      {
        var t := sorted[i];
        PrefixStep(sorted, i);
        EvictOne(old(channels), f - gone, t);
        assert f - gone - {t} == f - (gone + {t});
        channels := channels[t.channel := channels[t.channel].(threads := channels[t.channel].threads - {t.ts})];
        gone := gone + {t};
      }
    }

    static lemma PrefixStep(s: seq<Thread>, i: nat)
      requires i < |s|
      ensures S.Elements(s[..i + 1]) == S.Elements(s[..i]) + {s[i]}
      ensures s[i] in S.Elements(s)
    {
      assert s[..i + 1] == s[..i] + [s[i]];
    }

    static lemma EvictOne(channels: map<string, Channel>, keep: set<Thread>, t: Thread)
      requires t in S.Threads(channels)
      ensures var c := S.OnlyThreads(channels, keep);
        c[t.channel := c[t.channel].(threads := c[t.channel].threads - {t.ts})] == S.OnlyThreads(channels, keep - {t})
    {
      var c, d := S.OnlyThreads(channels, keep), S.OnlyThreads(channels, keep - {t});
      forall id | id in channels
        ensures d[id].threads == if id == t.channel then c[id].threads - {t.ts} else c[id].threads
      {
      }
    }

    method Prune(at: int)
      modifies this
      ensures Data() == S.Prune(old(Data()), at, window)
    {
      PruneSeen(at);
      ghost var before, f := channels, S.Fresh(channels, at - window);
      RetainFresh(at - window);
      S.ThreadsOfOnly(before, f);
      assert S.Threads(channels) == f;
      var count := Count();
      if count > S.MAX_THREADS {
        EvictOldest();
        OnlyTwice(before, f, S.Newest(f, S.MAX_THREADS));
      }
    }

    method EvictOldest()
      requires |S.Threads(channels)| > S.MAX_THREADS
      modifies this`channels
      ensures channels == S.OnlyThreads(old(channels), S.Newest(S.Threads(old(channels)), S.MAX_THREADS))
    {
      var sorted := Sorted();
      FirstAreOldest(sorted, S.MAX_THREADS);
      RemoveFirst(sorted, |sorted| - S.MAX_THREADS, S.Newest(S.Threads(channels), S.MAX_THREADS));
    }

    method Sorted() returns (sorted: seq<Thread>)
      ensures Ascending(sorted) && S.Elements(sorted) == S.Threads(channels) && |sorted| == |S.Threads(channels)|
    {
      var all := Collect();
      S.DistinctSize(all);
      sorted := Sort(all);
    }

    // ----------------------------------------------------------------- connections

    method BeginConnection(ids: seq<string>, at: int) returns (ok: bool)
      modifies this
      ensures (Data(), ok) == S.BeginConnection(old(Data()), ids, at, window)
    {
      channels := S.Kept(channels, ids);
      ghost var kept := channels;
      for i := 0 to |ids|
        invariant seen == old(seen) && S.JoinAll(kept, ids, at, window) == S.JoinAll(channels, ids[i..], at, window)
      {
        var id := ids[i];
        assert ids[i..][0] == id && ids[i..][1..] == ids[i + 1..];
        if !ValidId(id) { return false; }
        var existed := id in channels;
        if !(existed || |channels| < S.MAX_CHANNELS) { return false; }
        var c := if existed then channels[id] else S.NewChannel(at);
        c := c.(recovering := existed, failed := false);
        if c.covered < at - window {
          c := c.(covered := at - window);
        }
        channels := channels[id := c];
      }
      Prune(at);
      return true;
    }

    method AddChannel(id: string, at: int) returns (ok: bool)
      modifies this`channels
      ensures (Data(), ok) == S.AddChannel(old(Data()), id, at)
    {
      ok := ValidId(id) && (id in channels || |channels| < S.MAX_CHANNELS);
      if ok && id !in channels {
        channels := channels[id := S.NewChannel(at)];
      }
    }

    method RecoveryChannels() returns (r: map<string, Channel>)
      ensures forall id :: id in r <==> id in channels && channels[id].recovering
      ensures forall id :: id in r ==> r[id] == channels[id]
    {
      r := map id | id in channels && channels[id].recovering :: channels[id];
    }

    method ThreadsOf(id: string) returns (r: set<string>)
      ensures r == if id in channels then channels[id].threads.Keys else {}
    {
      r := if id in channels then channels[id].threads.Keys else {};
    }

    method RetryChannel(id: string)
      modifies this`channels
      ensures Data() == S.WithFailed(old(Data()), id, false)
    {
      if id in channels {
        channels := channels[id := channels[id].(failed := false)];
      }
    }

    method Failed(id: string)
      modifies this`channels
      ensures Data() == S.WithFailed(old(Data()), id, true)
    {
      if id in channels {
        channels := channels[id := channels[id].(failed := true)];
      }
    }

    method ForgetThread(id: string, ts: string)
      modifies this`channels
      ensures Data() == S.ForgetThread(old(Data()), id, ts)
    {
      if id in channels {
        channels := channels[id := channels[id].(threads := channels[id].threads - {ts})];
      }
    }

    method RememberThread(id: string, parent: string, at: int)
      modifies this
      ensures Data() == S.RememberThread(old(Data()), id, parent, at, window)
    {
      if ValidTs(parent) && id in channels {
        channels := channels[id := channels[id].(threads := channels[id].threads[parent := at])];
      }
      Prune(at);
    }

    method Processed(m: S.Msg, thread: Option<string>, at: int)
      modifies this
      ensures Data() == S.Processed(old(Data()), m, thread, at, window)
    {
      seen := seen + [S.Seen(m.channel, m.ts, at)];
      if thread.Some? && ValidTs(thread.value) && m.channel in channels {
        var threads := channels[m.channel].threads[thread.value := at];
        channels := channels[m.channel := channels[m.channel].(threads := threads)];
      }
      Prune(at);
    }

    method IsSeen(m: S.Msg) returns (found: bool)
      ensures found <==> m in S.SeenMsgs(seen)
    {
      found := false;
      for i := 0 to |seen|
        invariant found <==> exists k :: 0 <= k < i && S.Msg(seen[k].channel, seen[k].ts) == m
      {
        if seen[i].channel == m.channel && seen[i].ts == m.ts {
          found := true;
        }
      }
      assert m in S.SeenMsgs(seen) ==> exists e :: e in seen && S.Msg(e.channel, e.ts) == m;
    }

    method FinishRecovery(id: string, through: int)
      modifies this`channels
      ensures Data() == S.FinishRecovery(old(Data()), id, through)
    {
      if id in channels && !channels[id].failed {
        channels := channels[id := channels[id].(covered := S.Max(channels[id].covered, through), recovering := false)];
      }
    }

    method Checkpoint(through: int, at: int)
      modifies this
      ensures Data() == S.Checkpoint(old(Data()), through, at, window)
    {
      ghost var target := S.Advanced(channels, through);
      var todo := channels.Keys;
      while todo != {}
        invariant todo <= channels.Keys == old(channels).Keys && seen == old(seen)
        invariant forall id :: id in channels ==> channels[id] == if id in todo then old(channels)[id] else target[id]
        decreases |todo|
      {
        var id :| id in todo;
        if !channels[id].recovering && !channels[id].failed {
          channels := channels[id := channels[id].(covered := S.Max(channels[id].covered, through))];
        }
        todo := todo - {id};
      }
      assert channels == target;
      Prune(at);
    }
  }

  predicate ThreadKeysOk(c: Channel) { forall ts :: ts in c.threads ==> ValidTs(ts) }

  predicate SeenOk(e: S.Seen) { ValidId(e.channel) && ValidTs(e.ts) }

  predicate ChannelOk(id: string, c: Channel, now: int) {
    ValidId(id) && 0 <= c.covered <= now + CLOCK_SLACK && ThreadKeysOk(c)
  }

  ghost predicate Checked(channels: map<string, Channel>, read: set<string>, threads: int, now: int) {
    && read <= channels.Keys
    && threads == |S.ThreadsIn(channels, read)|
    && forall id :: id in read ==> ChannelOk(id, channels[id], now)
  }

  lemma CheckedOneMore(channels: map<string, Channel>, read: set<string>, threads: int, now: int, id: string)
    requires Checked(channels, read, threads, now) && id in channels && id !in read && ChannelOk(id, channels[id], now)
    ensures Checked(channels, read + {id}, threads + |channels[id].threads|, now)
  {
    S.ThreadsInStep(channels, read, id);
  }

  /** The loop of `Store::open` over the channels. */
  method CheckChannels(channels: map<string, Channel>, now: int) returns (ok: bool)
    ensures ok <==>
      (forall id :: id in channels ==> ChannelOk(id, channels[id], now)) && |S.Threads(channels)| <= S.MAX_THREADS
  {
    var threads, todo := 0, channels.Keys;
    assert S.ThreadsIn(channels, {}) == {};
    while todo != {}
      invariant todo <= channels.Keys && Checked(channels, channels.Keys - todo, threads, now)
      decreases |todo|
    {
      var id :| id in todo;
      if !ChannelOk(id, channels[id], now) { return false; }
      CheckedOneMore(channels, channels.Keys - todo, threads, now, id);
      assert channels.Keys - todo + {id} == channels.Keys - (todo - {id});
      threads, todo := threads + |channels[id].threads|, todo - {id};
    }
    assert channels.Keys - todo == channels.Keys && Checked(channels, channels.Keys, threads, now);
    assert S.ThreadsIn(channels, channels.Keys) == S.Threads(channels);
    return threads <= S.MAX_THREADS;
  }

  /** What a file must be: of this account and version, at most 16 MiB; at most 4096
      channels and as many threads in all, and 32768 duplicate entries; checkpoints between
      zero and five minutes from now; well-formed identifiers and timestamps throughout. */
  lemma AcceptedExactly(f: File, size: nat, team: string, user: string, now: int)
    ensures Accepts(f, size, team, user, now) <==>
      && ValidId(team) && ValidId(user) && f.team == team && f.user == user && f.version == 1 && size <= 16777216
      && |f.snap.channels| <= 4096 && |S.Threads(f.snap.channels)| <= 4096 && |f.snap.seen| <= 32768
      && (forall id :: id in f.snap.channels ==>
            ValidId(id) && f.snap.channels[id].covered >= 0 && f.snap.channels[id].covered - now <= 300)
      && (forall t :: t in S.Threads(f.snap.channels) ==> ValidTs(t.ts))
      && forall i :: 0 <= i < |f.snap.seen| ==> ValidId(f.snap.seen[i].channel) && ValidTs(f.snap.seen[i].ts)
  {
    forall id, ts | id in f.snap.channels && ts in f.snap.channels[id].threads
      ensures S.Thread(f.snap.channels[id].threads[ts], id, ts) in S.Threads(f.snap.channels)
    {
    }
    assert forall e :: e in f.snap.seen ==> exists i :: 0 <= i < |f.snap.seen| && f.snap.seen[i] == e;
  }

  /** `Store::open`, given the file's content if there is one. */
  method Open(file: Option<File>, size: nat, team: string, user: string, now: int) returns (r: Option<S.Snapshot>)
    ensures r ==
      if !(ValidId(team) && ValidId(user)) then None
      else if file.None? then Some(S.Snapshot(map[], []))
      else if Accepts(file.value, size, team, user, now) then Some(file.value.snap)
      else None
  {
    if !(ValidId(team) && ValidId(user)) { return None; }
    if file.None? { return Some(S.Snapshot(map[], [])); }
    var f := file.value;
    if size > MAX_STATE_BYTES || f.version != VERSION || f.team != team || f.user != user { return None; }
    if |f.snap.channels| > S.MAX_CHANNELS || |f.snap.seen| > S.MAX_SEEN { return None; }
    var ok := CheckChannels(f.snap.channels, now);
    if !ok || exists e :: e in f.snap.seen && !SeenOk(e) { return None; }
    return Some(f.snap);
  }
}

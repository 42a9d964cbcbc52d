/** What the operations of the store do to the tracked threads, the duplicate log and the
    checkpoints, said without the functions that compute it. */
module Tracking {
  import opened Harvest
  import opened Snapshots

  // ------------------------------------------------------------------ tracked threads

  /** The threads of `channels` that are not `ts` in `id`. */
  ghost function Others(channels: map<string, Channel>, id: string, ts: string): set<Thread> {
    set t | t in Threads(channels) && !(t.channel == id && t.ts == ts)
  }

  /** A valid parent in a known channel is tracked from `at` on, instead of from before. */
  lemma ParentIsTracked(s: Snapshot, id: string, parent: string, at: int)
    ensures var r := WithThread(s, id, parent, at);
      && r.seen == s.seen
      && Threads(r.channels) == if ValidTs(parent) && id in s.channels
                                then Others(s.channels, id, parent) + {Thread(at, id, parent)}
                                else Threads(s.channels)
  {
    var r := WithThread(s, id, parent, at);
    if ValidTs(parent) && id in s.channels {
      assert parent in r.channels[id].threads;
      forall t ensures t in Threads(r.channels) <==> t in Others(s.channels, id, parent) + {Thread(at, id, parent)} {
        if t in Others(s.channels, id, parent) {
          assert t.ts in r.channels[t.channel].threads;
        }
      }
    }
  }

  /** A forgotten thread is not tracked any more, every other one is. */
  lemma ThreadIsForgotten(s: Snapshot, id: string, ts: string)
    ensures var r := ForgetThread(s, id, ts);
      r.seen == s.seen && Threads(r.channels) == Others(s.channels, id, ts)
  {
    var r := ForgetThread(s, id, ts);
    forall t ensures t in Threads(r.channels) <==> t in Others(s.channels, id, ts) {
      if t in Others(s.channels, id, ts) {
        assert t.ts in r.channels[t.channel].threads;
      }
    }
  }

  /** The threads `f`, pruned at `at`. */
  ghost predicate PrunedTo(k: set<Thread>, f: set<Thread>, at: int, window: int) {
    KeepsNewest(k, (set t | t in f && t.at >= at - window), MAX_THREADS)
  }

  lemma PruneKeepsNewest(s: Snapshot, at: int, window: int)
    ensures PrunedTo(Threads(Prune(s, at, window).channels), Threads(s.channels), at, window)
  {
    ThreadsOfPruned(s.channels, at, window);
    assert Fresh(s.channels, at - window) == set t | t in Threads(s.channels) && t.at >= at - window;
  }

  /** A thread as new as any is left out only if the store is full of others as new. */
  lemma NewestStays(k: set<Thread>, others: set<Thread>, it: Thread, window: int)
    requires PrunedTo(k, others + {it}, it.at, window) && it !in others && window >= 0
    ensures it in k || |set u | u in others && u.at >= it.at| >= MAX_THREADS
  {
    if it !in k {
      var young, newer := (set t | t in others + {it} && t.at >= it.at - window), set u | u in others && u.at >= it.at;
      if |k| == |young| {
        SubsetSize(k, young - {it});
      }
      assert forall u :: u in k ==> ThreadLess(it, u);
      assert k <= newer;
      SubsetSize(k, newer);
    }
  }

  /** Noting the parent of a message tracks it from now on and keeps the newest threads of
      all; it is not tracked afterwards only if 4096 others were noted no earlier. */
  lemma RememberingTracks(s: Snapshot, id: string, parent: string, at: int, window: int)
    ensures var k := Threads(RememberThread(s, id, parent, at, window).channels);
      var others, it := Others(s.channels, id, parent), Thread(at, id, parent);
      if ValidTs(parent) && id in s.channels then
        && PrunedTo(k, others + {it}, at, window)
        && (window >= 0 ==> it in k || |set u | u in others && u.at >= at| >= MAX_THREADS)
      else PrunedTo(k, Threads(s.channels), at, window)
  {
    var r := WithThread(s, id, parent, at);
    var k := Threads(RememberThread(s, id, parent, at, window).channels);
    ParentIsTracked(s, id, parent, at);
    PruneKeepsNewest(r, at, window);
    if ValidTs(parent) && id in s.channels && window >= 0 {
      NewestStays(k, Others(s.channels, id, parent), Thread(at, id, parent), window);
    }
  }

  /** Recording a message does the same for its parent, if it has one. */
  lemma RecordingTracks(s: Snapshot, m: Msg, thread: Option<string>, at: int, window: int)
    ensures var k := Threads(Processed(s, m, thread, at, window).channels);
      if thread.Some? && ValidTs(thread.value) && m.channel in s.channels then
        PrunedTo(k, Others(s.channels, m.channel, thread.value) + {Thread(at, m.channel, thread.value)}, at, window)
      else PrunedTo(k, Threads(s.channels), at, window)
  {
    var t := s.(seen := s.seen + [Seen(m.channel, m.ts, at)]);
    if thread.Some? {
      ParentIsTracked(t, m.channel, thread.value, at);
      PruneKeepsNewest(WithThread(t, m.channel, thread.value, at), at, window);
    } else {
      PruneKeepsNewest(t, at, window);
    }
  }

  // ---------------------------------------------------------------------- reconnecting

  lemma JoinKeepsThreads(channels: map<string, Channel>, id: string, at: int, window: int)
    ensures Threads(Join(channels, id, at, window)) == Threads(channels)
  {
    var r := Join(channels, id, at, window);
    forall t ensures t in Threads(r) <==> t in Threads(channels) {
      if t in Threads(channels) {
        assert t.ts in r[t.channel].threads;
      }
    }
  }

  lemma {:induction false} JoinAllKeepsThreads(channels: map<string, Channel>, ids: seq<string>, at: int, window: int)
    ensures Threads(JoinAll(channels, ids, at, window).0) == Threads(channels)
    decreases |ids|
  {
    if ids != [] && Joinable(channels, ids[0]) {
      JoinKeepsThreads(channels, ids[0], at, window);
      JoinAllKeepsThreads(Join(channels, ids[0], at, window), ids[1..], at, window);
    }
  }

  lemma KeptKeepsThreads(channels: map<string, Channel>, ids: seq<string>)
    ensures Threads(Kept(channels, ids)) == set t | t in Threads(channels) && t.channel in ids
  {
    var r := Kept(channels, ids);
    forall t ensures t in Threads(r) <==> t in Threads(channels) && t.channel in ids {
      if t in Threads(channels) && t.channel in ids {
        assert t.ts in r[t.channel].threads;
      }
    }
  }

  /** A reconnect forgets no thread of a channel that was known and is still joined, but
      for pruning, and keeps the duplicate log, but for pruning; one that fails does not
      prune. */
  lemma ReconnectKeepsThreads(s: Snapshot, ids: seq<string>, at: int, window: int)
    ensures var (r, ok) := BeginConnection(s, ids, at, window);
      var still := set t | t in Threads(s.channels) && t.channel in ids;
      if ok then
        && PrunedTo(Threads(r.channels), still, at, window)
        && IsLast(r.seen, Retained(s.seen, at - window - OVERLAP), MAX_SEEN)
      else Threads(r.channels) == still && r.seen == s.seen
  {
    var (channels, ok) := JoinAll(Kept(s.channels, ids), ids, at, window);
    KeptKeepsThreads(s.channels, ids);
    JoinAllKeepsThreads(Kept(s.channels, ids), ids, at, window);
    PruneKeepsNewest(Snapshot(channels, s.seen), at, window);
    LastNIsLast(Retained(s.seen, at - window - OVERLAP), MAX_SEEN);
  }

  /** It fails exactly at the first identifier that is not one, or that finds 4096 other
      channels there, and leaves the ones before it joined. */
  lemma {:induction false} JoiningStops(channels: map<string, Channel>, ids: seq<string>, at: int, window: int)
      returns (n: nat)
    requires !JoinAll(channels, ids, at, window).1
    ensures n < |ids| && JoinAll(channels, ids[..n], at, window) == (JoinAll(channels, ids, at, window).0, true)
    ensures var r := JoinAll(channels, ids, at, window).0;
      !ValidId(ids[n]) || (ids[n] !in r && |r| >= 4096)
    decreases |ids|
  {
    if !Joinable(channels, ids[0]) {
      n := 0;
    } else {
      var k := JoiningStops(Join(channels, ids[0], at, window), ids[1..], at, window);
      n := k + 1;
      assert ids[..n][1..] == ids[1..][..k];
    }
  }

  // ------------------------------------------------------------------- everything else

  /** Only checkpoints and flags differ. */
  ghost predicate SameContent(s: Snapshot, r: Snapshot) {
    && s.channels.Keys == r.channels.Keys && s.seen == r.seen
    && forall id :: id in s.channels ==> s.channels[id].threads == r.channels[id].threads
  }

  /** A channel that was not known is added with nothing tracked and no flag; a known one
      is left alone; an identifier that is not one, or one too many, changes nothing. */
  lemma AddingIsExact(s: Snapshot, id: string, at: int)
    ensures var (r, ok) := AddChannel(s, id, at);
      && (ok <==> ValidId(id) && (id in s.channels || |s.channels| < 4096))
      && (!ok || id in s.channels ==> r == s)
      && (ok && id !in s.channels ==>
            && r.channels.Keys == s.channels.Keys + {id} && r.seen == s.seen
            && r.channels[id] == Channel(at, map[], false, false)
            && forall x :: x in s.channels ==> r.channels[x] == s.channels[x])
  {
  }

  /** Setting or clearing the flag of a channel changes that flag only. */
  lemma FlaggingIsExact(s: Snapshot, id: string, failed: bool)
    ensures var r := WithFailed(s, id, failed);
      && SameContent(s, r) && SameCheckpoints(s, r)
      && forall x :: x in s.channels ==>
           r.channels[x].failed == if x == id then failed else s.channels[x].failed
  {
  }

  /** A pass that finishes moves only its own channel, not back, and not if a message of
      it failed. */
  lemma FinishingIsExact(s: Snapshot, id: string, through: int)
    ensures var r := FinishRecovery(s, id, through);
      && SameContent(s, r)
      && forall x :: x in s.channels ==>
           var c, d := s.channels[x], r.channels[x];
           if x == id && !c.failed then !d.recovering && !d.failed && d.covered == Max(c.covered, through) else d == c
  {
  }

  /** A heartbeat's checkpoint moves every channel that neither recovers nor failed at
      least to it, no channel back, and no other one at all. */
  lemma CheckpointMoves(s: Snapshot, through: int, at: int, window: int)
    ensures var r := Checkpoint(s, through, at, window);
      && r.channels.Keys == s.channels.Keys
      && PrunedTo(Threads(r.channels), Threads(s.channels), at, window)
      && IsLast(r.seen, Retained(s.seen, at - window - OVERLAP), MAX_SEEN)
      && forall id :: id in s.channels ==>
           var c, d := s.channels[id], r.channels[id];
           && d.recovering == c.recovering && d.failed == c.failed
           && if c.recovering || c.failed then d.covered == c.covered
              else d.covered >= through && d.covered >= c.covered && (d.covered == through || d.covered == c.covered)
  {
    var t := s.(channels := Advanced(s.channels, through));
    assert Threads(t.channels) == Threads(s.channels);
    PruneKeepsNewest(t, at, window);
    LastNIsLast(Retained(s.seen, at - window - OVERLAP), MAX_SEEN);
  }

  /** A save writes everything but the two flags. */
  lemma SavingIsExact(s: Snapshot)
    ensures var r := Persisted(s);
      && SameContent(s, r)
      && forall id :: id in s.channels ==>
           r.channels[id].covered == s.channels[id].covered && !r.channels[id].recovering && !r.channels[id].failed
  {
  }
}

/** The duplicate log is kept long enough for recovery: while a pass bounded by
    `through` may still fetch a message, age never removes its entry. */
module Retention {
  import opened Harvest
  import opened Snapshots
  import opened Protocol
  import opened Safety
  import opened Theorems

  /** `e` is in the log with at most `k` entries after it. */
  ghost predicate Near(seen: seq<Seen>, e: Seen, k: int) {
    exists i :: 0 <= i < |seen| && seen[i] == e && |seen| - 1 - i <= k
  }

  lemma {:induction false} RetainedKeepsNear(seen: seq<Seen>, limit: int, e: Seen, k: int)
    requires Near(seen, e, k) && e.at >= limit
    ensures Near(Retained(seen, limit), e, k)
  {
    var i :| 0 <= i < |seen| && seen[i] == e && |seen| - 1 - i <= k;
    var last, init, r := seen[|seen| - 1], seen[..|seen| - 1], Retained(seen, limit);
    if i == |seen| - 1 {
      assert r[|r| - 1] == e;
    } else {
      assert init[i] == e;
      RetainedKeepsNear(init, limit, e, k - 1);
      var j :| 0 <= j < |Retained(init, limit)| && Retained(init, limit)[j] == e &&
        |Retained(init, limit)| - 1 - j <= k - 1;
      assert r[j] == e;
    }
  }

  lemma PruneKeepsNear(s: Snapshot, at: int, window: int, e: Seen, k: int)
    requires Near(s.seen, e, k) && e.at >= at - window - OVERLAP && k < MAX_SEEN
    ensures Near(Prune(s, at, window).seen, e, k)
  {
    var kept := Retained(s.seen, at - window - OVERLAP);
    RetainedKeepsNear(s.seen, at - window - OVERLAP, e, k);
    var j :| 0 <= j < |kept| && kept[j] == e && |kept| - 1 - j <= k;
    var last := LastN(kept, MAX_SEEN);
    assert last[j - (|kept| - |last|)] == e;
  }

  lemma ProcessedKeepsNear(s: Snapshot, m: Msg, thread: Option<string>, at: int, window: int, e: Seen, k: int)
    requires Near(s.seen, e, k) && e.at >= at - window - OVERLAP && k + 1 < MAX_SEEN
    ensures Near(Processed(s, m, thread, at, window).seen, e, k + 1)
  {
    var t := s.(seen := s.seen + [Seen(m.channel, m.ts, at)]);
    var i :| 0 <= i < |s.seen| && s.seen[i] == e && |s.seen| - 1 - i <= k;
    assert t.seen[i] == e;
    PruneKeepsNear(if thread.Some? then WithThread(t, m.channel, thread.value, at) else t, at, window, e, k + 1);
  }

  function Recorded(step: Step): int { if step.Notes? && step.n.Record? then 1 else 0 }

  lemma NoteKeepsNear(w: World, s: State, step: NoteStep, e: Seen, k: int)
    requires NoteEnabled(w, s, step) && Near(s.store.mem.snap.seen, e, k)
    requires e.at >= s.clock - w.window - OVERLAP && k + (if step.Record? then 1 else 0) < MAX_SEEN
    ensures Near(NoteApply(w, s, step).store.mem.snap.seen, e, k + if step.Record? then 1 else 0)
  {
    var snap, m := s.store.mem.snap, s.lock.value.m;
    match step
    case Remember(parent) => PruneKeepsNear(WithThread(snap, m.channel, parent, s.clock), s.clock, w.window, e, k);
    case Record(thread) => ProcessedKeepsNear(snap, m, thread, s.clock, w.window, e, k);
    case Fail =>
  }

  lemma BeginKeepsNear(b: Book, order: seq<string>, ids: set<string>, began: int, window: int, e: Seen, k: int)
    requires Distinct(order) && Elements(order) == ids && |ids| <= MAX_CHANNELS && b.floor.Keys == b.snap.channels.Keys
    requires window >= 1 && (forall id :: id in ids ==> ValidId(id)) && Near(b.snap.seen, e, k)
    requires e.at >= began - window - OVERLAP && k < MAX_SEEN
    ensures Near(BeginBook(b, order, began, window).snap.seen, e, k)
  {
    BeginFacts(b, order, ids, began, window);
    var joined := JoinAll(Kept(b.snap.channels, order), order, began, window).0;
    PruneKeepsNear(Snapshot(joined, b.snap.seen), began, window, e, k);
  }

  lemma BookKeepsNear(w: World, s: State, step: BookStep, e: Seen, k: int)
    requires ValidWorld(w) && Inv(w, s) && BookEnabled(w, s, step) && !step.Crash? && Near(s.store.mem.snap.seen, e, k)
    requires e.at >= s.clock - w.window - OVERLAP && k < MAX_SEEN
    ensures Near(BookApply(w, s, step).store.mem.snap.seen, e, k)
  {
    var snap := s.store.mem.snap;
    match step
    case Begin(order) => BeginKeepsNear(s.store.mem, order, s.members, s.link.began, w.window, e, k);
    case TakeBarrier =>
      PruneKeepsNear(snap.(channels := Advanced(snap.channels, s.link.busy.value.at)), s.clock, w.window, e, k);
    case _ =>
  }

  lemma StepKeepsNear(w: World, s: State, step: Step, e: Seen, k: int)
    requires ValidWorld(w) && Inv(w, s) && Enabled(w, s, step) && step != Books(Crash)
    requires Near(s.store.mem.snap.seen, e, k)
    requires e.at >= s.clock - w.window - OVERLAP && k + Recorded(step) < MAX_SEEN
    ensures Near(Apply(w, s, step).store.mem.snap.seen, e, k + Recorded(step))
  {
    if !Prunes(step) {
      OnlyPruningForgets(w, s, step);
    } else if step.Books? {
      BookKeepsNear(w, s, step.b, e, k);
    } else {
      NoteKeepsNear(w, s, step.n, e, k);
    }
  }

  lemma ClockAdvances(w: World, s: State, step: Step)
    requires Enabled(w, s, step)
    ensures s.clock <= Apply(w, s, step).clock
  {
  }

  function RecordCount(steps: seq<Step>): nat {
    if steps == [] then 0 else RecordCount(steps[..|steps| - 1]) + Recorded(steps[|steps| - 1])
  }

  /** Across any number of retries, reconnects and other messages, until OVERLAP
      seconds past `through`: the entry of a message that the pass can fetch stays,
      unless 32768 later messages were recorded. */
  lemma {:induction false} EntryOutlivesRetries(w: World, steps: seq<Step>, more: seq<Step>, e: Seen, k: nat,
                                                covered: int, through: int)
    requires ValidWorld(w) && Exec(w, steps).Some? && Exec(w, steps + more).Some? && Books(Crash) !in more
    requires Near(Exec(w, steps).value.store.mem.snap.seen, e, k)
    requires RecoverFrom(covered, through, w.window) <= Second(Msg(e.channel, e.ts)) <= e.at
    requires Exec(w, steps + more).value.clock <= through + OVERLAP
    requires k + RecordCount(more) < MAX_SEEN
    ensures Near(Exec(w, steps + more).value.store.mem.snap.seen, e, k + RecordCount(more))
    ensures Msg(e.channel, e.ts) in SeenMsgs(Exec(w, steps + more).value.store.mem.snap.seen)
    decreases |more|
  {
    if more == [] {
      assert steps + more == steps;
    } else {
      var before, step := more[..|more| - 1], more[|more| - 1];
      assert (steps + more)[..|steps + more| - 1] == steps + before;
      var s := Exec(w, steps + before).value;
      ClockAdvances(w, s, step);
      EntryOutlivesRetries(w, steps, before, e, k, covered, through);
      EveryRun(w, steps + before);
      StepKeepsNear(w, s, step, e, k + RecordCount(before));
    }
    var seen := Exec(w, steps + more).value.store.mem.snap.seen;
    var i :| 0 <= i < |seen| && seen[i] == e;
    assert e in seen;
  }

  /** The time limit is exact: one second later, age can remove an entry that the
      pass may still fetch. `recover` retries against a fixed `through` without one. */
  lemma AgeLimitIsExact(at: int, through: int, window: int)
    ensures (forall e: Seen :: e.at >= through - window ==> e in Prune(Snapshot(map[], [e]), at, window).seen)
       <==> at <= through + OVERLAP
  {
    var e := Seen("C1", "0", through - window);
    forall f: Seen ensures f in PrunedSeen([f], at, window) <==> f.at >= at - window - OVERLAP {
      assert [f][..0] == [];
      assert f in [f];
    }
    assert e in Prune(Snapshot(map[], [e]), at, window).seen <==> at <= through + OVERLAP;
  }
}

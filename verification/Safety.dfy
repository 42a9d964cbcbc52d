/** What every step of the session keeps. */
module Safety {
  import opened Harvest
  import opened Snapshots
  import opened Protocol

  /** Messages that are dealt with: the worker's receipt was `true`, or a filter of
      the program (normalise, prepare_message, channel membership) discarded them. */
  function Done(s: State): set<Msg> { s.work.acked + s.work.filtered }

  // ------------------------------------------------------------ the reader's queue

  function Handled(l: Link): int { l.taken - (if l.busy.Some? then 1 else 0) }

  ghost predicate LinkOk(s: State) {
    && s.link.taken <= |s.link.read|
    && (s.link.busy.Some? ==> s.link.taken > 0 && s.link.read[s.link.taken - 1] == s.link.busy.value)
    && (!s.link.started ==> s.link.taken == 0 && s.link.finished == {})
    && (s.link.started ==> s.link.open)
    && (!s.link.open ==> s.link == CLOSED)
    && (s.pass.Some? ==> s.link.started)
    && |s.link.read| <= s.link.taken + QUEUE_BOUND
  }

  ghost predicate LockOk(s: State) {
    s.lock.Some? ==>
      var h := s.lock.value;
      && (h.task.Live? ==> s.link.started && !s.link.broken && s.link.busy == Some(Posted(h.m)))
      && (h.task.Recovery? ==> s.pass.Some? && s.pass.value.current == Some(h.m))
      && (!h.phase.Entered? ==> ValidId(h.m.channel) && ValidTs(h.m.ts) && h.m !in SeenMsgs(s.store.mem.snap.seen))
      && (h.phase.Waiting? ==> h.phase.job == |s.work.jobs| - 1 && s.work.jobs[h.phase.job].m == h.m)
  }

  ghost predicate JobsOk(s: State) {
    && s.work.head <= |s.work.jobs|
    && forall j :: 0 <= j < |s.work.jobs| && s.work.jobs[j].receipt == Some(true) ==> s.work.jobs[j].m in s.work.acked
  }

  ghost predicate PassOk(s: State) {
    s.pass.Some? ==>
      var p := s.pass.value;
      && p.handled <= Done(s)
      && p.returned <= p.handled + Elements(p.pending) + if p.current.Some? then {p.current.value} else {}
  }

  ghost predicate ConsumedOk(s: State) {
    forall i :: 0 <= i < Handled(s.link) <= |s.link.read| && s.link.read[i].Posted? ==> s.link.read[i].m in Done(s)
  }

  ghost predicate SeenOk(s: State) {
    && SeenMsgs(s.store.mem.snap.seen) <= s.work.acked
    && SeenMsgs(s.store.disk.snap.seen) <= s.work.acked
    && (s.store.saving.Some? ==> SeenMsgs(s.store.saving.value.snap.seen) <= s.work.acked)
  }

  ghost predicate TasksOk(s: State) { LinkOk(s) && LockOk(s) && JobsOk(s) }

  ghost predicate ResultsOk(s: State) { PassOk(s) && SeenOk(s) && ConsumedOk(s) }

  ghost predicate Order(s: State) { TasksOk(s) && ResultsOk(s) }

  lemma SeenOfPrune(s: Snapshot, at: int, window: int)
    ensures SeenMsgs(Prune(s, at, window).seen) <= SeenMsgs(s.seen)
  {
  }

  lemma SeenOfProcessed(s: Snapshot, m: Msg, thread: Option<string>, at: int, window: int)
    ensures SeenMsgs(Processed(s, m, thread, at, window).seen) <= SeenMsgs(s.seen) + {m}
  {
  }

  lemma WireKeepsTasks(w: World, s: State, step: WireStep)
    requires TasksOk(s) && WireEnabled(w, s, step)
    ensures TasksOk(WireApply(w, s, step))
  {
  }

  lemma WireKeepsResults(w: World, s: State, step: WireStep)
    requires Order(s) && WireEnabled(w, s, step)
    ensures ResultsOk(WireApply(w, s, step))
  {
  }

  lemma WireKeepsOrder(w: World, s: State, step: WireStep)
    requires Order(s) && WireEnabled(w, s, step)
    ensures Order(WireApply(w, s, step))
  {
    WireKeepsTasks(w, s, step);
    WireKeepsResults(w, s, step);
  }

  lemma BookKeepsOrder(w: World, s: State, step: BookStep)
    requires Order(s) && BookEnabled(w, s, step)
    ensures Order(BookApply(w, s, step))
  {
  }

  lemma PassKeepsOrder(w: World, s: State, step: PassStep)
    requires Order(s) && PassEnabled(w, s, step)
    ensures Order(PassApply(w, s, step))
  {
  }

  lemma TaskKeepsTasks(w: World, s: State, step: TaskStep)
    requires TasksOk(s) && TaskEnabled(w, s, step)
    ensures TasksOk(TaskApply(w, s, step))
  {
  }

  lemma TaskKeepsResults(w: World, s: State, step: TaskStep)
    requires Order(s) && TaskEnabled(w, s, step)
    ensures ResultsOk(TaskApply(w, s, step))
  {
  }

  lemma NoteKeepsTasks(w: World, s: State, step: NoteStep)
    requires TasksOk(s) && NoteEnabled(w, s, step)
    ensures TasksOk(NoteApply(w, s, step))
  {
  }

  /** `process` returned Ok for the acknowledged message `m`. */
  ghost predicate Finished(s: State, t: State, m: Msg) {
    && m in s.work.acked && t.work.acked == s.work.acked && t.work.filtered == s.work.filtered
    && SeenMsgs(t.store.mem.snap.seen) <= SeenMsgs(s.store.mem.snap.seen) + {m}
    && t.store.disk == s.store.disk && t.store.saving == s.store.saving
    && t.link.read == s.link.read && t.link.taken == s.link.taken
    && (t.link.busy == s.link.busy
        || (0 < s.link.taken <= |s.link.read| && s.link.read[s.link.taken - 1] == Posted(m)))
    && (t.pass == s.pass
        || (s.pass.Some? && s.pass.value.current == Some(m)
            && t.pass == Some(s.pass.value.(handled := s.pass.value.handled + {m}, current := None))))
  }

  lemma FinishedKeepsResults(s: State, t: State, m: Msg)
    requires ResultsOk(s) && Finished(s, t, m)
    ensures ResultsOk(t)
  {
  }

  lemma RecordFinishes(w: World, s: State, thread: Option<string>)
    requires TasksOk(s) && NoteEnabled(w, s, Record(thread))
    ensures Finished(s, NoteApply(w, s, Record(thread)), s.lock.value.m)
  {
    SeenOfProcessed(s.store.mem.snap, s.lock.value.m, thread, s.clock, w.window);
  }

  lemma RecordKeepsResults(w: World, s: State, thread: Option<string>)
    requires Order(s) && NoteEnabled(w, s, Record(thread))
    ensures ResultsOk(NoteApply(w, s, Record(thread)))
  {
    RecordFinishes(w, s, thread);
    FinishedKeepsResults(s, NoteApply(w, s, Record(thread)), s.lock.value.m);
  }

  lemma NoteKeepsResults(w: World, s: State, step: NoteStep)
    requires Order(s) && NoteEnabled(w, s, step)
    ensures ResultsOk(NoteApply(w, s, step))
  {
    match step
    case Remember(parent) =>
      SeenOfPrune(WithThread(s.store.mem.snap, s.lock.value.m.channel, parent, s.clock), s.clock, w.window);
    case Record(thread) => RecordKeepsResults(w, s, thread);
    case Fail =>
  }

  // ---------------------------------------------------------------------- the claims

  /** Every message the book claims is dealt with, apart from the exposed ones. */
  ghost predicate Claimed(w: World, done: set<Msg>, exposed: iset<Msg>, b: Book) {
    && b.floor.Keys == b.snap.channels.Keys
    && forall m :: m in w.posted && m.channel in b.snap.channels
        && b.floor[m.channel] <= Second(m) < b.snap.channels[m.channel].covered - OVERLAP && m !in exposed
        ==> m in done
  }

  /** Channels that no longer await recovery are complete up to the connection's start. */
  ghost predicate CaughtUp(w: World, done: set<Msg>, exposed: iset<Msg>, b: Book, began: int) {
    forall m :: m in w.posted && m.channel in b.snap.channels && m.channel in b.floor
        && !b.snap.channels[m.channel].recovering && b.floor[m.channel] <= Second(m) <= began && m !in exposed
        ==> m in done
  }

  /** A recovering channel's floor already reflects the window. */
  ghost predicate FloorsRaised(b: Book, began: int, window: int) {
    forall id :: id in b.snap.channels && id in b.floor && b.snap.channels[id].recovering
        && b.snap.channels[id].covered - OVERLAP < began - window
        ==> began - window <= b.floor[id]
  }

  /** Whatever a queued checkpoint stands for was queued before it. */
  ghost predicate BarriersOk(w: World, l: Link) {
    forall i, m :: 0 <= i < |l.read| && l.read[i].Barrier? && m in w.posted
        && l.began < Second(m) < l.read[i].at - OVERLAP
        ==> Posted(m) in l.read[..i]
  }

  ghost predicate PassRange(w: World, s: State) {
    s.pass.Some? ==>
      var p := s.pass.value;
      && p.channel in s.store.mem.snap.channels
      && s.store.mem.snap.channels[p.channel].recovering
      && p.oldest == RecoverFrom(s.store.mem.snap.channels[p.channel].covered, s.link.began, w.window)
  }

  ghost predicate StoreClaims(w: World, done: set<Msg>, exposed: iset<Msg>, st: Stores) {
    && Claimed(w, done, exposed, st.mem)
    && Claimed(w, done, exposed, st.disk)
    && (st.saving.Some? ==> Claimed(w, done, exposed, st.saving.value))
  }

  ghost predicate LinkClaims(w: World, done: set<Msg>, exposed: iset<Msg>, b: Book, l: Link) {
    && BarriersOk(w, l)
    && (l.started ==> CaughtUp(w, done, exposed, b, l.began) && FloorsRaised(b, l.began, w.window))
  }

  ghost predicate Claims(w: World, s: State) {
    && StoreClaims(w, Done(s), s.exposed, s.store)
    && LinkClaims(w, Done(s), s.exposed, s.store.mem, s.link)
    && PassRange(w, s)
  }

  lemma WireKeepsBarriers(w: World, s: State, step: WireStep)
    requires LinkOk(s) && BarriersOk(w, s.link) && WireEnabled(w, s, step)
    ensures BarriersOk(w, WireApply(w, s, step).link)
  {
    var l, k := s.link, WireApply(w, s, step).link;
    forall i, m | 0 <= i < |k.read| && k.read[i].Barrier? && m in w.posted &&
      k.began < Second(m) < k.read[i].at - OVERLAP
      ensures Posted(m) in k.read[..i]
    {
      assert l.read <= k.read && l.began == k.began;
      if i < |l.read| {
        assert k.read[..i] == l.read[..i];
      } else {
        assert step.Pong? && k.read[..i] == l.read;
      }
    }
  }

  lemma WireKeepsClaims(w: World, s: State, step: WireStep)
    requires Order(s) && Claims(w, s) && WireEnabled(w, s, step)
    ensures Claims(w, WireApply(w, s, step))
  {
    WireKeepsBarriers(w, s, step);
  }

  /** More work done, same checkpoints, same connection, same pass. */
  ghost predicate Quiet(s: State, t: State) {
    && Done(s) <= Done(t) && t.exposed == s.exposed
    && t.store.disk == s.store.disk && t.store.saving == s.store.saving
    && SameCheckpoints(s.store.mem.snap, t.store.mem.snap) && t.store.mem.floor == s.store.mem.floor
    && t.link.read == s.link.read && t.link.began == s.link.began && t.link.started == s.link.started
    && t.clock == s.clock && t.link.open == s.link.open && t.link.ping == s.link.ping
    && t.link.joined == s.link.joined && t.link.finished == s.link.finished
    && (t.pass.Some? ==>
          s.pass.Some? && t.pass.value.channel == s.pass.value.channel && t.pass.value.oldest == s.pass.value.oldest
          && t.pass.value.query == s.pass.value.query)
  }

  lemma QuietKeepsClaims(w: World, s: State, t: State)
    requires Claims(w, s) && Quiet(s, t)
    ensures Claims(w, t)
  {
  }

  lemma TaskIsQuiet(w: World, s: State, step: TaskStep)
    requires TaskEnabled(w, s, step)
    ensures Quiet(s, TaskApply(w, s, step))
  {
  }

  lemma RememberIsQuiet(w: World, s: State, parent: string)
    requires NoteEnabled(w, s, Remember(parent))
    ensures Quiet(s, NoteApply(w, s, Remember(parent)))
  {
  }

  lemma RecordIsQuiet(w: World, s: State, thread: Option<string>)
    requires NoteEnabled(w, s, Record(thread))
    ensures Quiet(s, NoteApply(w, s, Record(thread)))
  {
    DoneIsQuiet(s, Processed(s.store.mem.snap, s.lock.value.m, thread, s.clock, w.window));
  }

  lemma DoneIsQuiet(s: State, snap: Snapshot)
    requires Holds(s) && SameCheckpoints(s.store.mem.snap, snap)
    ensures Quiet(s, SetSnap(TaskDone(s), snap))
  {
  }

  lemma FailIsQuiet(w: World, s: State)
    requires NoteEnabled(w, s, Fail)
    ensures Quiet(s, NoteApply(w, s, Fail))
  {
  }

  lemma NoteIsQuiet(w: World, s: State, step: NoteStep)
    requires NoteEnabled(w, s, step)
    ensures Quiet(s, NoteApply(w, s, step))
  {
    match step
    case Remember(parent) => RememberIsQuiet(w, s, parent);
    case Record(thread) => RecordIsQuiet(w, s, thread);
    case Fail => FailIsQuiet(w, s);
  }

  lemma TaskKeepsClaims(w: World, s: State, step: TaskStep)
    requires Claims(w, s) && TaskEnabled(w, s, step)
    ensures Claims(w, TaskApply(w, s, step))
  {
    TaskIsQuiet(w, s, step);
    QuietKeepsClaims(w, s, TaskApply(w, s, step));
  }

  lemma NoteKeepsClaims(w: World, s: State, step: NoteStep)
    requires Claims(w, s) && NoteEnabled(w, s, step)
    ensures Claims(w, NoteApply(w, s, step))
  {
    NoteIsQuiet(w, s, step);
    QuietKeepsClaims(w, s, NoteApply(w, s, step));
  }

  lemma PassKeepsClaims(w: World, s: State, step: PassStep)
    requires ValidWorld(w) && Order(s) && Claims(w, s) && PassEnabled(w, s, step)
    ensures Claims(w, PassApply(w, s, step))
  {
    if step.Finish? {
      FinishKeepsClaims(w, s);
    } else if step.Start? {
      QuietKeepsClaims(w, s, PassApply(w, s, step).(pass := None));
    }
  }

  /** A pass that has come to the end of its last page has dealt with everything in its
      range, except for what history was entitled to leave out. */
  lemma PassIsComplete(w: World, s: State, m: Msg)
    requires PassOk(s) && PassEnabled(w, s, Finish)
    requires m in w.posted && m.channel == s.pass.value.channel && s.pass.value.oldest <= Second(m) <= s.link.began
    requires m !in Missed(w, s.pass.value, s.link.began)
    ensures m in Done(s)
  {
    assert Owed(w, m, s.pass.value.channel, s.pass.value.oldest, s.link.began, s.pass.value.query) ||
      m in s.pass.value.returned;
  }

  /** Channel `id` is complete from `oldest` through `through`, and says so. */
  ghost predicate CompletesChannel(w: World, done: set<Msg>, exposed: iset<Msg>, b: Book, r: Book, id: string,
                                   oldest: int, through: int) {
    && r.floor == b.floor && r.snap.channels.Keys == b.snap.channels.Keys
    && (forall x :: x in b.snap.channels && x != id ==> r.snap.channels[x] == b.snap.channels[x])
    && (id in b.snap.channels ==>
          || r.snap.channels[id] == b.snap.channels[id]
          || (r.snap.channels[id].covered == Max(b.snap.channels[id].covered, through) &&
            !r.snap.channels[id].recovering))
    && forall m :: m in w.posted && m.channel == id && oldest <= Second(m) <= through && m !in exposed ==> m in done
  }

  lemma CompletionKeepsBook(w: World, done: set<Msg>, exposed: iset<Msg>, more: iset<Msg>, b: Book, r: Book,
                            id: string, began: int)
    requires Claimed(w, done, exposed, b) && CaughtUp(w, done, exposed, b, began) && FloorsRaised(b, began, w.window)
    requires exposed <= more && ValidWorld(w) && id in b.snap.channels && b.snap.channels[id].recovering
    requires CompletesChannel(w, done, more, b, r, id, RecoverFrom(b.snap.channels[id].covered, began, w.window), began)
    ensures Claimed(w, done, more, r) && CaughtUp(w, done, more, r, began) && FloorsRaised(r, began, w.window)
  {
  }

  lemma ClaimedLess(w: World, done: set<Msg>, exposed: iset<Msg>, more: iset<Msg>, b: Book)
    requires Claimed(w, done, exposed, b) && exposed <= more
    ensures Claimed(w, done, more, b)
  {
  }

  /** So the channel's claim may move up to the connection's start. */
  lemma FinishKeepsClaims(w: World, s: State)
    requires ValidWorld(w) && Order(s) && Claims(w, s) && PassEnabled(w, s, Finish)
    ensures Claims(w, PassApply(w, s, Finish))
  {
    var t, p := PassApply(w, s, Finish), s.pass.value;
    FinishCompletes(w, s);
    CompletionKeepsBook(w, Done(s), s.exposed, t.exposed, s.store.mem, t.store.mem, p.channel, s.link.began);
    ClaimedLess(w, Done(s), s.exposed, t.exposed, s.store.disk);
    if s.store.saving.Some? {
      ClaimedLess(w, Done(s), s.exposed, t.exposed, s.store.saving.value);
    }
  }

  lemma FinishCompletes(w: World, s: State)
    requires PassOk(s) && PassEnabled(w, s, Finish)
    ensures var t, p := PassApply(w, s, Finish), s.pass.value;
      CompletesChannel(w, Done(s), t.exposed, s.store.mem, t.store.mem, p.channel, p.oldest, s.link.began)
  {
    var t, p := PassApply(w, s, Finish), s.pass.value;
    forall m | m in w.posted && m.channel == p.channel && p.oldest <= Second(m) <= s.link.began && m !in t.exposed
      ensures m in Done(s)
    {
      PassIsComplete(w, s, m);
    }
  }

  /** What begin_connection makes of each member channel. */
  ghost predicate Began(b: Book, r: Book, ids: set<string>, began: int, window: int) {
    && r.snap.channels.Keys == r.floor.Keys == ids
    && b.snap.channels.Keys == b.floor.Keys
    && forall id :: id in ids ==>
         var c := r.snap.channels[id];
         !c.failed &&
         if id in b.snap.channels then
           && c.covered == Max(b.snap.channels[id].covered, began - window) && c.recovering
           && r.floor[id] == RaisedFloor(b.floor[id], b.snap.channels[id].covered, began, window)
         else
           c.covered == began && !c.recovering && r.floor[id] == began + 1
  }

  lemma BeginFacts(b: Book, order: seq<string>, ids: set<string>, began: int, window: int)
    requires Distinct(order) && Elements(order) == ids && |ids| <= MAX_CHANNELS && b.floor.Keys == b.snap.channels.Keys
    requires window >= 1 && forall id :: id in ids ==> ValidId(id)
    ensures BeginConnection(b.snap, order, began, window).1
    ensures Began(b, BeginBook(b, order, began, window), ids, began, window)
  {
    JoinAllIsPointwise(b.snap.channels, order, began, window);
    assert forall id :: id in order <==> id in Elements(order);
  }

  lemma BeganKeepsBook(w: World, done: set<Msg>, exposed: iset<Msg>, b: Book, r: Book, ids: set<string>, began: int)
    requires Claimed(w, done, exposed, b) && Began(b, r, ids, began, w.window)
    ensures Claimed(w, done, exposed, r) && CaughtUp(w, done, exposed, r, began) && FloorsRaised(r, began, w.window)
  {
  }

  lemma BeginKeepsClaims(w: World, s: State, order: seq<string>)
    requires ValidWorld(w) && Order(s) && Claims(w, s) && BookEnabled(w, s, Begin(order))
    ensures Claims(w, BookApply(w, s, Begin(order)))
  {
    var t := BookApply(w, s, Begin(order));
    BeginFacts(s.store.mem, order, s.members, s.link.began, w.window);
    BeganKeepsBook(w, Done(s), s.exposed, s.store.mem, t.store.mem, s.members, s.link.began);
  }

  lemma AddKeepsClaims(w: World, s: State, id: string)
    requires ValidWorld(w) && Order(s) && Claims(w, s) && BookEnabled(w, s, Add(id))
    ensures Claims(w, BookApply(w, s, Add(id)))
  {
  }

  /** The heartbeat barrier: when a checkpoint takes effect, every message queued
      before its pong has been dealt with, and so has everything it stands for. */
  lemma BarrierIsOrdered(w: World, s: State)
    requires Order(s) && BarriersOk(w, s.link) && BookEnabled(w, s, TakeBarrier)
    ensures s.link.read[s.link.taken - 1] == s.link.busy.value
    ensures forall i :: 0 <= i < s.link.taken - 1 && s.link.read[i].Posted? ==> s.link.read[i].m in Done(s)
    ensures forall m :: m in w.posted && s.link.began < Second(m) < s.link.busy.value.at - OVERLAP ==> m in Done(s)
  {
  }

  lemma AdvanceKeepsBook(w: World, done: set<Msg>, exposed: iset<Msg>, b: Book, r: Book, at: int, began: int)
    requires Claimed(w, done, exposed, b) && CaughtUp(w, done, exposed, b, began) && FloorsRaised(b, began, w.window)
    requires SameCheckpoints(Snapshot(Advanced(b.snap.channels, at), []), r.snap) && r.floor == b.floor
    requires forall m :: m in w.posted && began < Second(m) < at - OVERLAP ==> m in done
    ensures Claimed(w, done, exposed, r) && CaughtUp(w, done, exposed, r, began) && FloorsRaised(r, began, w.window)
  {
  }

  lemma BarrierKeepsClaims(w: World, s: State)
    requires Order(s) && Claims(w, s) && BookEnabled(w, s, TakeBarrier)
    ensures Claims(w, BookApply(w, s, TakeBarrier))
  {
    BarrierIsOrdered(w, s);
    AdvanceKeepsBook(w, Done(s), s.exposed, s.store.mem, BookApply(w, s, TakeBarrier).store.mem,
      s.link.busy.value.at, s.link.began);
  }

  lemma BookKeepsClaims(w: World, s: State, step: BookStep)
    requires ValidWorld(w) && Order(s) && Claims(w, s) && BookEnabled(w, s, step)
    ensures Claims(w, BookApply(w, s, step))
  {
    match step
    case Begin(order) => BeginKeepsClaims(w, s, order);
    case Add(id) => AddKeepsClaims(w, s, id);
    case TakeBarrier => BarrierKeepsClaims(w, s);
    case _ =>
  }
}

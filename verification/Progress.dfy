/** Further invariants of every run: time bounds, agreement of memory and file,
    recoveries that cannot be forgotten, duplicates, rows and size limits. */
module Progress {
  import opened Harvest
  import opened Snapshots
  import opened Protocol
  import opened Safety

  // ------------------------------------------------------------------- time bounds

  ghost predicate Within(b: Book, t: int) {
    forall id :: id in b.snap.channels ==> 0 <= b.snap.channels[id].covered <= t
  }

  ghost predicate AllWithin(st: Stores, t: int) {
    Within(st.mem, t) && Within(st.disk, t) && (st.saving.Some? ==> Within(st.saving.value, t))
  }

  ghost predicate TimesOk(s: State) {
    && 0 <= s.clock
    && AllWithin(s.store, s.clock)
    && (s.link.open ==> 0 <= s.link.began <= s.clock)
    && (s.link.open && !s.link.started ==> AllWithin(s.store, s.link.began))
    && (s.link.ping.Some? ==> s.link.ping.value <= s.clock)
    && (forall i :: 0 <= i < |s.link.read| && s.link.read[i].Barrier? ==> s.link.read[i].at <= s.clock)
  }

  // ------------------------------------------------- memory never falls behind the file

  ghost predicate NotBehind(earlier: Book, later: Book) {
    forall id :: id in earlier.snap.channels && id in later.snap.channels ==>
      earlier.snap.channels[id].covered <= later.snap.channels[id].covered
  }

  ghost predicate DiskOk(st: Stores) {
    && NotBehind(st.disk, st.mem)
    && (st.saving.Some? ==> NotBehind(st.disk, st.saving.value) && NotBehind(st.saving.value, st.mem))
  }

  // --------------------------------------------------- pending recovery is not forgotten

  /** Every channel known when the connection began, and not recovered on it since,
      is still recovering and its checkpoint has not moved. */
  ghost predicate Frozen(b: Book, l: Link) {
    l.started ==> forall id :: id in l.joined && id !in l.finished ==>
      && id in b.snap.channels
      && b.snap.channels[id].recovering
      && b.snap.channels[id].covered == l.joined[id]
  }

  // ------------------------------------------------------------------------- floors

  ghost predicate FloorsWithin(b: Book, t: int) { forall id :: id in b.floor ==> b.floor[id] <= t }

  /** Losing `later` for `earlier` raises no floor; and a channel that `later` no longer
      has can only come back with a floor of at least `t`. */
  ghost predicate NotHigher(earlier: Book, later: Book, t: int) {
    forall id :: id in earlier.floor ==> earlier.floor[id] <= if id in later.floor then later.floor[id] else t
  }

  ghost predicate FloorsOk(s: State) {
    var st, t := s.store, if s.link.open then s.link.began + 1 else s.clock + 1;
    && FloorsWithin(st.mem, if s.link.started then s.clock + 1 else t)
    && NotHigher(st.disk, st.mem, t)
    && (st.saving.Some? ==> NotHigher(st.saving.value, st.mem, t))
  }

  // --------------------------------------------------------------------------- rows

  /** A `true` receipt means that every URL the filter passes is in the database. */
  ghost predicate RowsOk(w: World, k: Work) {
    !w.dryRun ==> forall m, u :: m in k.acked && u in w.urls(m) ==> (m, u) in k.rows
  }

  ghost predicate BoundsOk(s: State) { TimesOk(s) && DiskOk(s.store) && Frozen(s.store.mem, s.link) }

  ghost predicate Steady(w: World, s: State) { BoundsOk(s) && FloorsOk(s) && RowsOk(w, s.work) }

  lemma ProcessedIsSeen(s: Snapshot, m: Msg, thread: Option<string>, at: int, window: int)
    requires window >= 1
    ensures m in SeenMsgs(Processed(s, m, thread, at, window).seen)
  {
    var e := Seen(m.channel, m.ts, at);
    var seen := s.seen + [e];
    assert seen[..|seen| - 1] == s.seen;
    var kept := Retained(seen, at - window - OVERLAP);
    assert kept[|kept| - 1] == e;
    assert e in LastN(kept, MAX_SEEN);
  }

  lemma WireKeepsSteady(w: World, s: State, step: WireStep)
    requires Order(s) && Steady(w, s) && WireEnabled(w, s, step)
    ensures Steady(w, WireApply(w, s, step))
  {
  }

  lemma TaskKeepsSteady(w: World, s: State, step: TaskStep)
    requires Order(s) && Steady(w, s) && TaskEnabled(w, s, step)
    ensures Steady(w, TaskApply(w, s, step))
  {
  }

  lemma QuietKeepsBounds(s: State, t: State)
    requires BoundsOk(s) && Quiet(s, t)
    ensures BoundsOk(t)
  {
  }

  lemma QuietKeepsFloors(s: State, t: State)
    requires FloorsOk(s) && Quiet(s, t)
    ensures FloorsOk(t)
  {
  }

  lemma NoteKeepsSteady(w: World, s: State, step: NoteStep)
    requires Steady(w, s) && NoteEnabled(w, s, step)
    ensures Steady(w, NoteApply(w, s, step))
  {
    NoteIsQuiet(w, s, step);
    QuietKeepsBounds(s, NoteApply(w, s, step));
    QuietKeepsFloors(s, NoteApply(w, s, step));
    NoteLeavesWork(w, s, step);
  }

  lemma NoteLeavesWork(w: World, s: State, step: NoteStep)
    requires NoteEnabled(w, s, step)
    ensures NoteApply(w, s, step).work == s.work
  {
  }

  lemma PassKeepsSteady(w: World, s: State, step: PassStep)
    requires Order(s) && Steady(w, s) && PassEnabled(w, s, step)
    ensures Steady(w, PassApply(w, s, step))
  {
  }

  lemma BeganKeepsStores(st: Stores, r: Book, ids: set<string>, began: int, window: int)
    requires AllWithin(st, began) && DiskOk(st) && Began(st.mem, r, ids, began, window) && began >= 0 && window >= 1
    ensures Within(r, began) && NotBehind(st.disk, r) && (st.saving.Some? ==> NotBehind(st.saving.value, r))
  {
  }

  /** Only the store's memory and the link's bookkeeping of the connection change. */
  ghost predicate Moved(s: State, t: State) {
    && t.clock == s.clock && t.store.disk == s.store.disk && t.store.saving == s.store.saving
    && t.link.open == s.link.open && t.link.began == s.link.began
    && t.link.ping == s.link.ping && t.link.read == s.link.read
    && t.link.started && t.link.finished == s.link.finished
  }

  lemma BeganKeepsBounds(s: State, t: State, order: seq<string>, window: int)
    requires BoundsOk(s) && s.link.open && !s.link.started && window >= 1 && Moved(s, t)
    requires Began(s.store.mem, t.store.mem, s.members, s.link.began, window)
    requires Elements(order) == s.members
    requires t.link.joined == JoinedFrom(s.store.mem.snap.channels, order, s.link.began, window)
    ensures BoundsOk(t)
  {
    BeganKeepsStores(s.store, t.store.mem, s.members, s.link.began, window);
    assert forall id :: id in order ==> id in Elements(order);
  }

  lemma BeginKeepsBounds(w: World, s: State, order: seq<string>)
    requires ValidWorld(w) && Claims(w, s) && BoundsOk(s) && BookEnabled(w, s, Begin(order))
    ensures BoundsOk(BookApply(w, s, Begin(order)))
  {
    BeginFacts(s.store.mem, order, s.members, s.link.began, w.window);
    BeganKeepsBounds(s, BookApply(w, s, Begin(order)), order, w.window);
  }

  lemma AdvanceKeepsBounds(s: State, t: State, at: int)
    requires BoundsOk(s) && s.link.started && Moved(s, t) && t.link.joined == s.link.joined && at <= s.clock
    requires SameCheckpoints(Snapshot(Advanced(s.store.mem.snap.channels, at), []), t.store.mem.snap)
    ensures BoundsOk(t)
  {
  }

  lemma BarrierKeepsBounds(w: World, s: State)
    requires LinkOk(s) && BoundsOk(s) && BookEnabled(w, s, TakeBarrier)
    ensures BoundsOk(BookApply(w, s, TakeBarrier))
  {
    AdvanceKeepsBounds(s, BookApply(w, s, TakeBarrier), s.link.busy.value.at);
  }

  lemma BookKeepsBounds(w: World, s: State, step: BookStep)
    requires ValidWorld(w) && LinkOk(s) && Claims(w, s) && BoundsOk(s) && BookEnabled(w, s, step)
    ensures BoundsOk(BookApply(w, s, step))
  {
    match step
    case Begin(order) => BeginKeepsBounds(w, s, order);
    case Add(id) => AddKeepsBounds(w, s, id);
    case TakeBarrier => BarrierKeepsBounds(w, s);
    case _ =>
  }

  lemma AddKeepsBounds(w: World, s: State, id: string)
    requires LinkOk(s) && BoundsOk(s) && BookEnabled(w, s, Add(id))
    ensures BoundsOk(BookApply(w, s, Add(id)))
  {
  }

  lemma BookLeavesWork(w: World, s: State, step: BookStep)
    requires BookEnabled(w, s, step)
    ensures var t := BookApply(w, s, step).work; t.acked == s.work.acked && t.rows == s.work.rows
  {
  }

  lemma BeganKeepsFloors(s: State, t: State, window: int)
    requires FloorsOk(s) && s.link.open && !s.link.started && window >= 1 && s.link.began <= s.clock && Moved(s, t)
    requires Began(s.store.mem, t.store.mem, s.members, s.link.began, window)
    ensures FloorsOk(t)
  {
  }

  lemma BeginKeepsFloors(w: World, s: State, order: seq<string>)
    requires ValidWorld(w) && Claims(w, s) && TimesOk(s) && FloorsOk(s) && BookEnabled(w, s, Begin(order))
    ensures FloorsOk(BookApply(w, s, Begin(order)))
  {
    BeginFacts(s.store.mem, order, s.members, s.link.began, w.window);
    BeganKeepsFloors(s, BookApply(w, s, Begin(order)), w.window);
  }

  lemma BookKeepsFloors(w: World, s: State, step: BookStep)
    requires ValidWorld(w) && LinkOk(s) && Claims(w, s) && TimesOk(s) && FloorsOk(s) && BookEnabled(w, s, step)
    ensures FloorsOk(BookApply(w, s, step))
  {
    match step
    case Begin(order) => BeginKeepsFloors(w, s, order);
    case Add(id) => AddKeepsFloors(w, s, id);
    case _ =>
  }

  lemma AddKeepsFloors(w: World, s: State, id: string)
    requires LinkOk(s) && Claims(w, s) && TimesOk(s) && FloorsOk(s) && BookEnabled(w, s, Add(id))
    ensures FloorsOk(BookApply(w, s, Add(id)))
  {
  }

  lemma BookKeepsSteady(w: World, s: State, step: BookStep)
    requires ValidWorld(w) && LinkOk(s) && Claims(w, s) && Steady(w, s) && BookEnabled(w, s, step)
    ensures Steady(w, BookApply(w, s, step))
  {
    BookKeepsBounds(w, s, step);
    BookKeepsFloors(w, s, step);
    BookLeavesWork(w, s, step);
  }
}

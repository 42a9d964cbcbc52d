/** What holds in every state that any sequence of steps can reach. */
module Theorems {
  import opened Harvest
  import opened Snapshots
  import opened Protocol
  import opened Safety
  import opened Progress
  import opened Reload
  import opened StateFile
  import opened Tracking

  ghost predicate Inv(w: World, s: State) {
    Order(s) && Claims(w, s) && Steady(w, s) && AllCapsOk(s)
  }

  lemma WireKeepsInv(w: World, s: State, step: WireStep)
    requires ValidWorld(w) && Inv(w, s) && WireEnabled(w, s, step)
    ensures Inv(w, WireApply(w, s, step))
  {
    WireKeepsOrder(w, s, step);
    WireKeepsClaims(w, s, step);
    WireKeepsSteady(w, s, step);
    WireKeepsCaps(w, s, step);
  }

  lemma BookKeepsInv(w: World, s: State, step: BookStep)
    requires ValidWorld(w) && Inv(w, s) && BookEnabled(w, s, step)
    ensures Inv(w, BookApply(w, s, step))
  {
    BookKeepsOrder(w, s, step);
    BookKeepsClaims(w, s, step);
    BookKeepsSteady(w, s, step);
    BookKeepsCaps(w, s, step);
  }

  lemma TaskKeepsInv(w: World, s: State, step: TaskStep)
    requires ValidWorld(w) && Inv(w, s) && TaskEnabled(w, s, step)
    ensures Inv(w, TaskApply(w, s, step))
  {
    TaskKeepsTasks(w, s, step);
    TaskKeepsResults(w, s, step);
    TaskKeepsClaims(w, s, step);
    TaskKeepsSteady(w, s, step);
  }

  lemma NoteKeepsInv(w: World, s: State, step: NoteStep)
    requires ValidWorld(w) && Inv(w, s) && NoteEnabled(w, s, step)
    ensures Inv(w, NoteApply(w, s, step))
  {
    NoteKeepsTasks(w, s, step);
    NoteKeepsResults(w, s, step);
    NoteKeepsClaims(w, s, step);
    NoteKeepsSteady(w, s, step);
    NoteKeepsCaps(w, s, step);
  }

  lemma PassKeepsInv(w: World, s: State, step: PassStep)
    requires ValidWorld(w) && Inv(w, s) && PassEnabled(w, s, step)
    ensures Inv(w, PassApply(w, s, step))
  {
    PassKeepsOrder(w, s, step);
    PassKeepsClaims(w, s, step);
    PassKeepsSteady(w, s, step);
    PassKeepsCaps(w, s, step);
  }

  lemma StepKeepsInv(w: World, s: State, step: Step)
    requires ValidWorld(w) && Inv(w, s) && Enabled(w, s, step)
    ensures Inv(w, Apply(w, s, step))
  {
    match step
    case Wire(x) => WireKeepsInv(w, s, x);
    case Books(x) => BookKeepsInv(w, s, x);
    case Tasks(x) => TaskKeepsInv(w, s, x);
    case Notes(x) => NoteKeepsInv(w, s, x);
    case Passes(x) => PassKeepsInv(w, s, x);
  }

  lemma InitInv(w: World)
    ensures Inv(w, INIT)
  {
    assert Threads(EMPTY.channels) == {};
  }

  lemma {:induction false} EveryRun(w: World, steps: seq<Step>)
    requires ValidWorld(w) && Exec(w, steps).Some?
    ensures Inv(w, Exec(w, steps).value)
    decreases |steps|
  {
    if steps == [] {
      InitInv(w);
    } else {
      var before := steps[..|steps| - 1];
      EveryRun(w, before);
      StepKeepsInv(w, Exec(w, before).value, steps[|steps| - 1]);
    }
  }

  lemma {:induction false} PrefixRuns(w: World, steps: seq<Step>, k: nat)
    requires Exec(w, steps).Some? && k <= |steps|
    ensures Exec(w, steps[..k]).Some?
    decreases |steps|
  {
    if k < |steps| {
      PrefixRuns(w, steps[..|steps| - 1], k);
      assert steps[..|steps| - 1][..k] == steps[..k];
    } else {
      assert steps[..k] == steps;
    }
  }

  /** The state before step `k` of a run, and the last state for `k == |steps|`. */
  ghost function At(w: World, steps: seq<Step>, k: nat): State
    requires Exec(w, steps).Some? && k <= |steps|
  {
    PrefixRuns(w, steps, k);
    Exec(w, steps[..k]).value
  }

  lemma AtStep(w: World, steps: seq<Step>, k: nat)
    requires ValidWorld(w) && Exec(w, steps).Some? && k < |steps|
    ensures Enabled(w, At(w, steps, k), steps[k])
    ensures At(w, steps, k + 1) == Apply(w, At(w, steps, k), steps[k])
    ensures Inv(w, At(w, steps, k))
  {
    PrefixRuns(w, steps, k + 1);
    PrefixRuns(w, steps, k);
    assert steps[..k + 1][..k] == steps[..k];
    EveryRun(w, steps[..k]);
  }

  // ----------------------------------------------------------------- checkpoint soundness

  /** The book claims `m`: tracked channel, floor reached, OVERLAP below the checkpoint. */
  ghost predicate Claiming(b: Book, m: Msg) {
    && m.channel in b.snap.channels && m.channel in b.floor
    && b.floor[m.channel] <= Second(m) < b.snap.channels[m.channel].covered - OVERLAP
  }

  /** Acknowledged with all its allowed URLs stored, or discarded by a filter. */
  ghost predicate DealtWith(w: World, s: State, m: Msg) {
    || m in s.work.filtered
    || (m in s.work.acked && (!w.dryRun ==> forall u :: u in w.urls(m) ==> (m, u) in s.work.rows))
  }

  /** In memory and on disk, through any interleaving, reconnect or crash: a posted
      message below a checkpoint is dealt with, unless a pass that asked history too
      early was entitled to miss it. */
  lemma {:induction false} CheckpointsAreSound(w: World, steps: seq<Step>, m: Msg)
    requires ValidWorld(w) && Exec(w, steps).Some? && m in w.posted
    ensures var s := Exec(w, steps).value;
      m !in s.exposed && (Claiming(s.store.mem, m) || Claiming(s.store.disk, m)) ==> DealtWith(w, s, m)
  {
    EveryRun(w, steps);
  }

  // ------------------------------------------------------------------------ filtering

  /** The step discards `m`: a filter of `process`, or its channel is not a member. */
  ghost predicate Filters(s: State, step: Step, m: Msg) {
    || (step == Tasks(Filter) && s.lock.Some? && s.lock.value.m == m)
    || (step == Wire(DropForeign) && s.link.busy == Some(Posted(m)) && m.channel !in s.members)
  }

  lemma WireFilters(w: World, s: State, step: WireStep, m: Msg)
    requires WireEnabled(w, s, step) && m in WireApply(w, s, step).work.filtered
    ensures m in s.work.filtered || Filters(s, Wire(step), m)
  {
  }

  lemma TaskFilters(w: World, s: State, step: TaskStep, m: Msg)
    requires TaskEnabled(w, s, step) && m in TaskApply(w, s, step).work.filtered
    ensures m in s.work.filtered || Filters(s, Tasks(step), m)
  {
  }

  lemma BookFiltersNone(w: World, s: State, step: BookStep)
    requires BookEnabled(w, s, step)
    ensures BookApply(w, s, step).work.filtered == s.work.filtered
  {
  }

  lemma NoteFiltersNone(w: World, s: State, step: NoteStep)
    requires NoteEnabled(w, s, step)
    ensures NoteApply(w, s, step).work.filtered == s.work.filtered
  {
  }

  lemma StepFilters(w: World, s: State, step: Step, m: Msg)
    requires Enabled(w, s, step) && m in Apply(w, s, step).work.filtered
    ensures m in s.work.filtered || Filters(s, step, m)
  {
    match step
    case Wire(x) => WireFilters(w, s, x, m);
    case Books(x) => BookFiltersNone(w, s, x);
    case Tasks(x) => TaskFilters(w, s, x, m);
    case Notes(x) => NoteFiltersNone(w, s, x);
    case Passes(x) =>
  }

  ghost predicate FiltersAt(w: World, steps: seq<Step>, i: nat, m: Msg)
    requires Exec(w, steps).Some?
  {
    i < |steps| && Filters(At(w, steps, i), steps[i], m)
  }

  /** Nothing is discarded but by such a step. */
  lemma {:induction false} FilteredIsExplained(w: World, steps: seq<Step>, n: nat, m: Msg) returns (i: nat)
    requires ValidWorld(w) && Exec(w, steps).Some? && n <= |steps| && m in At(w, steps, n).work.filtered
    ensures i < n && FiltersAt(w, steps, i, m)
    decreases n
  {
    assert steps[..0] == [];
    i := n - 1;
    AtStep(w, steps, i);
    StepFilters(w, At(w, steps, i), steps[i], m);
    if m in At(w, steps, i).work.filtered {
      i := FilteredIsExplained(w, steps, i, m);
    }
  }

  /** So what no filter discards is below a checkpoint only if it was acknowledged, with
      all its allowed URLs stored. */
  lemma {:induction false} KeptIsAcknowledged(w: World, steps: seq<Step>, m: Msg)
    requires ValidWorld(w) && Exec(w, steps).Some? && m in w.posted
    requires forall i: nat :: !FiltersAt(w, steps, i, m)
    ensures var s := Exec(w, steps).value;
      m !in s.exposed && (Claiming(s.store.mem, m) || Claiming(s.store.disk, m)) ==>
        m in s.work.acked && (!w.dryRun ==> forall u :: u in w.urls(m) ==> (m, u) in s.work.rows)
  {
    CheckpointsAreSound(w, steps, m);
    assert steps[..|steps|] == steps;
    if m in At(w, steps, |steps|).work.filtered {
      var i := FilteredIsExplained(w, steps, |steps|, m);
    }
  }

  /** The message events queued before the one being handled, all dealt with. */
  ghost predicate PrefixDone(s: State) {
    && 0 < s.link.taken <= |s.link.read| <= s.link.taken + QUEUE_BOUND
    && s.link.busy == Some(s.link.read[s.link.taken - 1])
    && forall i :: 0 <= i < s.link.taken - 1 && s.link.read[i].Posted? ==> s.link.read[i].m in Done(s)
  }

  /** The consumer is about to apply a checkpoint. */
  predicate AtBarrier(l: Link) { LiveNext(l) && l.busy.Some? && l.busy.value.Barrier? }

  lemma BarrierHasPrefix(w: World, s: State)
    requires Inv(w, s) && AtBarrier(s.link)
    ensures PrefixDone(s)
  {
  }

  /** A queued checkpoint takes effect only after every message queued before its
      pong has been dealt with. */
  lemma {:induction false} HeartbeatIsABarrier(w: World, steps: seq<Step>)
    requires ValidWorld(w) && Exec(w, steps).Some? && AtBarrier(Exec(w, steps).value.link)
    ensures PrefixDone(Exec(w, steps).value)
  {
    EveryRun(w, steps);
    BarrierHasPrefix(w, Exec(w, steps).value);
  }

  // ------------------------------------------------------------------ restart and recovery

  /** After any crash or reconnect, a channel known when the connection began stays
      frozen at the checkpoint it joined with until its own pass succeeds. */
  lemma {:induction false} RecoveryIsNotForgotten(w: World, steps: seq<Step>, id: string)
    requires ValidWorld(w) && Exec(w, steps).Some?
    ensures var s := Exec(w, steps).value;
      s.link.started && id in s.link.joined && id !in s.link.finished ==>
        && id in s.store.mem.snap.channels && s.store.mem.snap.channels[id].recovering
        && s.store.mem.snap.channels[id].covered == s.link.joined[id]
  {
    EveryRun(w, steps);
  }

  /** What begin_connection makes of the channels that `s` knows. */
  ghost predicate AllJoined(s: State, t: State) {
    && t.link.started && t.link.finished == {} && t.store.mem.snap.channels.Keys == s.members
    && forall id :: id in s.members && id in s.store.mem.snap.channels ==>
         id in t.link.joined && t.store.mem.snap.channels[id].recovering
  }

  lemma BeginJoinsAll(w: World, s: State, order: seq<string>)
    requires ValidWorld(w) && LinkOk(s) && Claims(w, s) && BookEnabled(w, s, Begin(order))
    ensures AllJoined(s, BookApply(w, s, Begin(order)))
  {
    BeginFacts(s.store.mem, order, s.members, s.link.began, w.window);
    assert forall id :: id in Elements(order) ==> id in order;
  }

  lemma CrashReloads(w: World, s: State)
    ensures BookApply(w, s, Crash).store.mem == s.store.disk && BookApply(w, s, Crash).store.disk == s.store.disk
  {
  }

  /** ... and those are all the channels the store knew; after a crash, it knows those
      of the file. */
  lemma {:induction false} EveryKnownChannelJoins(w: World, steps: seq<Step>, k: nat)
    requires ValidWorld(w) && Exec(w, steps).Some? && k < |steps| && steps[k].Books?
    ensures steps[k].b.Begin? ==> AllJoined(At(w, steps, k), At(w, steps, k + 1))
    ensures steps[k].b.Crash? ==> At(w, steps, k + 1).store.mem == At(w, steps, k).store.disk
  {
    AtStep(w, steps, k);
    if steps[k].b.Begin? {
      BeginJoinsAll(w, At(w, steps, k), steps[k].b.order);
    } else if steps[k].b.Crash? {
      CrashReloads(w, At(w, steps, k));
    }
  }

  lemma WireLeavesStore(w: World, s: State, step: WireStep)
    requires WireEnabled(w, s, step)
    ensures WireApply(w, s, step).store == s.store
  {
  }

  lemma PassLeavesBooks(w: World, s: State, step: PassStep)
    requires PassEnabled(w, s, step)
    ensures var t := PassApply(w, s, step).store;
      t.disk == s.store.disk && t.saving == s.store.saving && t.mem.floor == s.store.mem.floor
  {
  }

  lemma BookMovesLater(w: World, s: State, step: BookStep)
    requires !s.link.started && BookEnabled(w, s, step) && !step.Begin? && !step.Crash?
    ensures BookApply(w, s, step).store.mem == s.store.mem
  {
  }

  lemma PassIsLater(w: World, s: State, step: PassStep)
    requires LinkOk(s) && PassEnabled(w, s, step)
    ensures s.link.started
  {
  }

  /** Between a crash or a reconnect and that moment no checkpoint moves. */
  lemma {:induction false} NothingMovesBeforeJoining(w: World, steps: seq<Step>, k: nat)
    requires ValidWorld(w) && Exec(w, steps).Some? && k < |steps| && !At(w, steps, k).link.started
    requires !(steps[k].Books? && (steps[k].b.Begin? || steps[k].b.Crash?))
    ensures SameCheckpoints(At(w, steps, k).store.mem.snap, At(w, steps, k + 1).store.mem.snap)
  {
    AtStep(w, steps, k);
    StepMovesLater(w, At(w, steps, k), steps[k]);
  }

  lemma StepMovesLater(w: World, s: State, step: Step)
    requires LinkOk(s) && !s.link.started && Enabled(w, s, step)
    requires !(step.Books? && (step.b.Begin? || step.b.Crash?))
    ensures SameCheckpoints(s.store.mem.snap, Apply(w, s, step).store.mem.snap)
  {
    match step
    case Wire(x) => WireLeavesStore(w, s, x);
    case Books(x) => BookMovesLater(w, s, x);
    case Tasks(x) => TaskIsQuiet(w, s, x);
    case Notes(x) => NoteIsQuiet(w, s, x);
    case Passes(x) => PassIsLater(w, s, x);
  }

  lemma BookKeepsDisk(w: World, s: State, step: BookStep, id: string)
    requires DiskOk(s.store) && BookEnabled(w, s, step)
    ensures var d := BookApply(w, s, step).store.disk.snap.channels;
      id in s.store.disk.snap.channels && id in d ==> s.store.disk.snap.channels[id].covered <= d[id].covered
  {
  }

  lemma StepKeepsDisk(w: World, s: State, step: Step, id: string)
    requires ValidWorld(w) && Inv(w, s) && Enabled(w, s, step)
    ensures var t := Apply(w, s, step);
      id in s.store.disk.snap.channels && id in t.store.disk.snap.channels ==>
        s.store.disk.snap.channels[id].covered <= t.store.disk.snap.channels[id].covered
  {
    match step
    case Wire(x) => WireLeavesStore(w, s, x);
    case Books(x) => BookKeepsDisk(w, s, x, id);
    case Tasks(x) => TaskIsQuiet(w, s, x);
    case Notes(x) => NoteIsQuiet(w, s, x);
    case Passes(x) => PassLeavesBooks(w, s, x);
  }

  /** The checkpoint on file never goes down while the channel is on file. */
  lemma {:induction false} FileOnlyAdvances(w: World, steps: seq<Step>, k: nat, id: string)
    requires ValidWorld(w) && Exec(w, steps).Some? && k <= |steps|
    requires forall j :: k <= j <= |steps| ==>
      Exec(w, steps[..j]).Some? && id in Exec(w, steps[..j]).value.store.disk.snap.channels
    ensures id in Exec(w, steps).value.store.disk.snap.channels
    ensures Exec(w, steps[..k]).value.store.disk.snap.channels[id].covered
         <= Exec(w, steps).value.store.disk.snap.channels[id].covered
    decreases |steps|
  {
    assert steps[..|steps|] == steps;
    if k < |steps| {
      var before := steps[..|steps| - 1];
      assert forall j :: 0 <= j < |steps| ==> before[..j] == steps[..j];
      FileOnlyAdvances(w, before, k, id);
      EveryRun(w, before);
      StepKeepsDisk(w, Exec(w, before).value, steps[|steps| - 1], id);
    }
  }

  /** Neither flag is set, as `open` finds it. */
  ghost predicate Unflagged(b: Book) {
    forall id :: id in b.snap.channels ==> !b.snap.channels[id].recovering && !b.snap.channels[id].failed
  }

  ghost predicate FileUnflagged(st: Stores) { Unflagged(st.disk) && (st.saving.Some? ==> Unflagged(st.saving.value)) }

  lemma BookKeepsFileUnflagged(w: World, s: State, step: BookStep)
    requires FileUnflagged(s.store) && BookEnabled(w, s, step)
    ensures FileUnflagged(BookApply(w, s, step).store)
  {
  }

  lemma StepKeepsFileUnflagged(w: World, s: State, step: Step)
    requires FileUnflagged(s.store) && Enabled(w, s, step)
    ensures FileUnflagged(Apply(w, s, step).store)
  {
    match step
    case Wire(x) => WireLeavesStore(w, s, x);
    case Books(x) => BookKeepsFileUnflagged(w, s, x);
    case Tasks(x) => TaskIsQuiet(w, s, x);
    case Notes(x) => NoteIsQuiet(w, s, x);
    case Passes(x) => PassLeavesBooks(w, s, x);
  }

  /** The file never says which channels await recovery or failed: what keeps a restart
      from forgetting them is that a connection marks every channel it knows. */
  lemma {:induction false} FlagsAreNotSaved(w: World, steps: seq<Step>)
    requires Exec(w, steps).Some?
    ensures FileUnflagged(Exec(w, steps).value.store)
    decreases |steps|
  {
    if steps != [] {
      FlagsAreNotSaved(w, steps[..|steps| - 1]);
      StepKeepsFileUnflagged(w, Exec(w, steps[..|steps| - 1]).value, steps[|steps| - 1]);
    }
  }

  /** `b` is what a save of `m` writes: everything but the two flags. */
  ghost predicate SavedFrom(b: Book, m: Book) {
    && SameContent(m.snap, b.snap) && b.floor == m.floor && Unflagged(b)
    && forall id :: id in b.snap.channels ==> b.snap.channels[id].covered == m.snap.channels[id].covered
  }

  ghost predicate FilesFrom(st: Stores, m: Book, n: Book) {
    SavedFrom(st.disk, m) && (st.saving.Some? ==> SavedFrom(st.saving.value, n))
  }

  lemma BookSaves(w: World, s: State, step: BookStep, m: Book, n: Book)
    requires BookEnabled(w, s, step) && FilesFrom(s.store, m, n)
    ensures var t := BookApply(w, s, step).store;
      if step.SaveStart? then FilesFrom(t, m, s.store.mem)
      else if step.SaveCommit? then FilesFrom(t, n, n)
      else FilesFrom(t, m, n)
  {
    if step.SaveStart? {
      SavingIsExact(s.store.mem.snap);
    }
  }

  lemma StepSaves(w: World, s: State, step: Step, m: Book, n: Book)
    requires Enabled(w, s, step) && FilesFrom(s.store, m, n) && !step.Books?
    ensures FilesFrom(Apply(w, s, step).store, m, n)
  {
    match step
    case Wire(x) => WireLeavesStore(w, s, x);
    case Tasks(x) => TaskIsQuiet(w, s, x);
    case Notes(x) => NoteIsQuiet(w, s, x);
    case Passes(x) => PassLeavesBooks(w, s, x);
  }

  /** In every run, the file is what the memory was in some earlier state, apart from the
      flags: checkpoints, threads, duplicate log and all; and a save in progress likewise,
      from no earlier a state. */
  lemma {:induction false} FileIsAnOldMemory(w: World, steps: seq<Step>, n: nat) returns (k: nat, l: nat)
    requires ValidWorld(w) && Exec(w, steps).Some? && n <= |steps|
    ensures k <= l <= n && FilesFrom(At(w, steps, n).store, At(w, steps, k).store.mem, At(w, steps, l).store.mem)
    decreases n
  {
    assert steps[..0] == [];
    if n == 0 {
      k, l := 0, 0;
    } else {
      k, l := FileIsAnOldMemory(w, steps, n - 1);
      AtStep(w, steps, n - 1);
      var s, step, a, b := At(w, steps, n - 1), steps[n - 1], At(w, steps, k).store.mem, At(w, steps, l).store.mem;
      if step.Books? {
        BookSaves(w, s, step.b, a, b);
        if step.b.SaveStart? {
          l := n - 1;
        } else if step.b.SaveCommit? {
          k := l;
        }
      } else {
        StepSaves(w, s, step, a, b);
      }
    }
  }

  // ------------------------------------------------------------------ failed channels

  /** Processing a message of the channel failed, with the checkpoint at `c`. */
  ghost predicate Stuck(s: State, id: string, c: int) {
    var channels := s.store.mem.snap.channels;
    id in channels && channels[id].failed && channels[id].covered == c
  }

  /** A reconnect, a restart, or a new pass on the channel. */
  predicate Clears(step: Step, id: string) {
    (step.Books? && (step.b.Begin? || step.b.Crash?)) || step == Passes(Start(id))
  }

  lemma BookKeepsStuck(w: World, s: State, step: BookStep, id: string, c: int)
    requires BookEnabled(w, s, step) && !step.Begin? && !step.Crash? && Stuck(s, id, c)
    ensures Stuck(BookApply(w, s, step), id, c)
  {
  }

  lemma NoteKeepsStuck(w: World, s: State, step: NoteStep, id: string, c: int)
    requires NoteEnabled(w, s, step) && Stuck(s, id, c)
    ensures Stuck(NoteApply(w, s, step), id, c)
  {
  }

  lemma PassKeepsStuck(w: World, s: State, step: PassStep, id: string, c: int)
    requires PassEnabled(w, s, step) && step != Start(id) && Stuck(s, id, c)
    ensures Stuck(PassApply(w, s, step), id, c)
  {
  }

  lemma TaskLeavesStore(w: World, s: State, step: TaskStep)
    requires TaskEnabled(w, s, step)
    ensures TaskApply(w, s, step).store == s.store && TaskApply(w, s, step).clock == s.clock
  {
  }

  lemma StepKeepsStuck(w: World, s: State, step: Step, id: string, c: int)
    requires Enabled(w, s, step) && !Clears(step, id) && Stuck(s, id, c)
    ensures Stuck(Apply(w, s, step), id, c)
  {
    match step
    case Wire(x) => WireLeavesStore(w, s, x);
    case Books(x) => BookKeepsStuck(w, s, x, id, c);
    case Tasks(x) => TaskLeavesStore(w, s, x);
    case Notes(x) => NoteKeepsStuck(w, s, x, id, c);
    case Passes(x) => PassKeepsStuck(w, s, x, id, c);
  }

  /** After a failure the channel's checkpoint does not move, whatever heartbeats
      arrive and whatever passes finish, until it is recovered from there again. */
  lemma {:induction false} FailureFreezesTheChannel(w: World, steps: seq<Step>, more: seq<Step>, id: string, c: int)
    requires Exec(w, steps).Some? && Exec(w, steps + more).Some? && Stuck(Exec(w, steps).value, id, c)
    requires forall i :: 0 <= i < |more| ==> !Clears(more[i], id)
    ensures Stuck(Exec(w, steps + more).value, id, c)
    decreases |more|
  {
    if more == [] {
      assert steps + more == steps;
    } else {
      var before, step := more[..|more| - 1], more[|more| - 1];
      assert (steps + more)[..|steps + more| - 1] == steps + before;
      FailureFreezesTheChannel(w, steps, before, id, c);
      StepKeepsStuck(w, Exec(w, steps + before).value, step, id, c);
    }
  }

  // ------------------------------------------------------------------------- duplicates

  ghost predicate Logged(s: State, m: Msg) { m in SeenMsgs(s.store.mem.snap.seen) }

  /** `process` records `m`, or submits it to the worker. */
  predicate Records(s: State, step: Step, m: Msg) {
    step.Notes? && step.n.Record? && s.lock.Some? && s.lock.value.m == m
  }

  predicate Submits(s: State, step: Step, m: Msg) { step == Tasks(Submit) && s.lock.Some? && s.lock.value.m == m }

  /** The steps that prune the log, and a crash, which falls back on the file. */
  predicate Prunes(step: Step) {
    || (step.Books? && (step.b.Begin? || step.b.TakeBarrier? || step.b.Crash?))
    || (step.Notes? && !step.n.Fail?)
  }

  ghost predicate Forgets(s: State, t: State, step: Step, m: Msg) { Logged(s, m) && !Logged(t, m) && Prunes(step) }

  lemma BookForgets(w: World, s: State, step: BookStep)
    requires BookEnabled(w, s, step) && !Prunes(Books(step))
    ensures BookApply(w, s, step).store.mem.snap.seen == s.store.mem.snap.seen
  {
  }

  lemma PassLeavesLog(w: World, s: State, step: PassStep)
    requires PassEnabled(w, s, step)
    ensures PassApply(w, s, step).store.mem.snap.seen == s.store.mem.snap.seen && PassApply(w, s, step).clock == s.clock
  {
  }

  lemma OnlyPruningForgets(w: World, s: State, step: Step)
    requires Enabled(w, s, step) && !Prunes(step)
    ensures Apply(w, s, step).store.mem.snap.seen == s.store.mem.snap.seen
  {
    match step
    case Wire(x) => WireLeavesStore(w, s, x);
    case Books(x) => BookForgets(w, s, x);
    case Tasks(x) => TaskLeavesStore(w, s, x);
    case Notes(x) =>
    case Passes(x) => PassLeavesLog(w, s, x);
  }

  /** Step `i` makes the log forget `m`. */
  ghost predicate ForgetsAt(w: World, steps: seq<Step>, i: nat, m: Msg)
    requires Exec(w, steps).Some?
  {
    i < |steps| && Forgets(At(w, steps, i), At(w, steps, i + 1), steps[i], m)
  }

  lemma ForgetsHere(w: World, steps: seq<Step>, i: nat, m: Msg)
    requires ValidWorld(w) && Exec(w, steps).Some? && i < |steps|
    requires Logged(At(w, steps, i), m) && !Logged(At(w, steps, i + 1), m)
    ensures ForgetsAt(w, steps, i, m)
  {
    AtStep(w, steps, i);
    if !Prunes(steps[i]) {
      OnlyPruningForgets(w, At(w, steps, i), steps[i]);
    }
  }

  lemma {:induction false} LeavesBetween(w: World, steps: seq<Step>, a: nat, b: nat, m: Msg) returns (i: nat)
    requires ValidWorld(w) && Exec(w, steps).Some? && a <= b <= |steps|
    requires Logged(At(w, steps, a), m) && !Logged(At(w, steps, b), m)
    ensures a <= i < b && ForgetsAt(w, steps, i, m)
    decreases b
  {
    i := b - 1;
    if Logged(At(w, steps, i), m) {
      ForgetsHere(w, steps, i, m);
    } else {
      i := LeavesBetween(w, steps, a, i, m);
    }
  }

  lemma RecordLogs(w: World, s: State, step: Step, m: Msg)
    requires ValidWorld(w) && Enabled(w, s, step) && Records(s, step, m)
    ensures Logged(Apply(w, s, step), m)
  {
    ProcessedIsSeen(s.store.mem.snap, m, step.n.thread, s.clock, w.window);
  }

  lemma SubmitIsUnlogged(w: World, s: State, step: Step, m: Msg)
    requires LockOk(s) && Enabled(w, s, step) && Submits(s, step, m)
    ensures !Logged(s, m)
  {
  }

  /** Whichever tasks do it: if a message is recorded and later submitted again, its
      entry has left the duplicate log in between, by pruning or with a crash. */
  lemma {:induction false} ResubmissionIsExplained(w: World, steps: seq<Step>, r: nat, k: nat, m: Msg)
    requires ValidWorld(w) && Exec(w, steps).Some? && r < k < |steps|
    requires Records(At(w, steps, r), steps[r], m) && Submits(At(w, steps, k), steps[k], m)
    ensures exists i :: r < i < k && ForgetsAt(w, steps, i, m)
  {
    AtStep(w, steps, r);
    RecordLogs(w, At(w, steps, r), steps[r], m);
    AtStep(w, steps, k);
    SubmitIsUnlogged(w, At(w, steps, k), steps[k], m);
    var i := LeavesBetween(w, steps, r + 1, k, m);
  }

  /** Every entry of the duplicate log, in memory or on disk, was acknowledged. */
  lemma {:induction false} SeenWasAcknowledged(w: World, steps: seq<Step>, m: Msg)
    requires ValidWorld(w) && Exec(w, steps).Some?
    ensures var s := Exec(w, steps).value;
      m in SeenMsgs(s.store.mem.snap.seen) || m in SeenMsgs(s.store.disk.snap.seen) ==> m in s.work.acked
  {
    EveryRun(w, steps);
  }

  // ---------------------------------------------------------------------------- reloading

  /** At any later time, `open` accepts the file, whatever order its maps are in. */
  lemma {:induction false} SavedStateReloads(w: World, steps: seq<Step>, team: string, user: string, now: int,
                          ids: seq<string>, orders: map<string, seq<string>>)
    requires ValidWorld(w) && Exec(w, steps).Some? && ValidId(team) && ValidId(user)
    requires Exec(w, steps).value.clock <= now < MAX_TIME
    requires Lists(ids, Exec(w, steps).value.store.disk.snap.channels.Keys)
    requires forall id :: id in ids ==>
      id in orders && Lists(orders[id], Exec(w, steps).value.store.disk.snap.channels[id].threads.Keys)
    ensures var f := File(VERSION, team, user, Exec(w, steps).value.store.disk.snap);
      && (forall id :: id in ids ==> id in f.snap.channels) && (forall e :: e in f.snap.seen ==> e.at >= 0)
      && Enumerates(orders, f.snap.channels, now)
      && Accepts(f, |FileText(f, ids, orders, now)|, team, user, now)
  {
    EveryRun(w, steps);
    var s := Exec(w, steps).value;
    var f := File(VERSION, team, user, s.store.disk.snap);
    assert forall id :: id in f.snap.channels ==> id in ids by {
      assert forall id :: id in Elements(ids) ==> id in ids;
    }
    assert CapsOk(f.snap, now);
    TextFits(f, ids, orders, now);
  }

  /** And a save of the memory always passes the size check, in any order. */
  lemma {:induction false} SaveAlwaysFits(w: World, steps: seq<Step>, team: string, user: string, ids: seq<string>,
                                          orders: map<string, seq<string>>)
    requires ValidWorld(w) && Exec(w, steps).Some? && ValidId(team) && ValidId(user)
    requires Exec(w, steps).value.clock < MAX_TIME
    requires Lists(ids, Exec(w, steps).value.store.mem.snap.channels.Keys)
    requires forall id :: id in ids ==>
      id in orders && Lists(orders[id], Exec(w, steps).value.store.mem.snap.channels[id].threads.Keys)
    ensures var s := Exec(w, steps).value;
      var now, f := s.clock, File(VERSION, team, user, Persisted(s.store.mem.snap));
      && (forall id :: id in ids ==> id in f.snap.channels) && (forall e :: e in f.snap.seen ==> e.at >= 0)
      && Enumerates(orders, f.snap.channels, now)
      && |FileText(f, ids, orders, now)| < MAX_STATE_BYTES
  {
    EveryRun(w, steps);
    var s := Exec(w, steps).value;
    SnapshotFits(Persisted(s.store.mem.snap), team, user, ids, orders, s.clock, s.store.mem.snap);
  }

  lemma SnapshotFits(snap: Snapshot, team: string, user: string, ids: seq<string>, orders: map<string, seq<string>>,
                     now: int, was: Snapshot)
    requires ValidId(team) && ValidId(user) && now < MAX_TIME && CapsOk(was, now) && snap == Persisted(was)
    requires forall id :: id in was.channels ==> 0 <= was.channels[id].covered <= now
    requires Lists(ids, was.channels.Keys) && forall id :: id in ids ==>
      id in orders && Lists(orders[id], was.channels[id].threads.Keys)
    ensures (forall id :: id in ids ==> id in snap.channels) && (forall e :: e in snap.seen ==> e.at >= 0)
    ensures Enumerates(orders, snap.channels, now)
    ensures |FileText(File(VERSION, team, user, snap), ids, orders, now)| < MAX_STATE_BYTES
  {
    SameThreadsSameCaps(was, snap, now);
    assert forall id :: id in snap.channels ==> id in ids by {
      assert forall id :: id in Elements(ids) ==> id in ids;
    }
    TextFits(File(VERSION, team, user, snap), ids, orders, now);
  }

  // -------------------------------------------------------------------------- the window

  /** Seconds nobody will ask for: not claimed by the checkpoint as it was before the
      window was applied, and older than the window. */
  function Forfeited(covered: int, began: int, window: int, second: int): bool {
    0 <= second && covered - OVERLAP <= second < began - window
  }

  /** Up to the connection's start, a second is either claimed already, requested by
      the channel's pass, or forfeited; never two of these. Nothing is forfeited, and
      neither clip changes anything, when the outage fits the window. */
  lemma OutageIsLosslessOrForfeits(channels: map<string, Channel>, id: string, began: int, window: int, second: int)
    requires id in channels && channels[id].covered <= began && window >= 1 && 0 <= second <= began
    ensures var covered := channels[id].covered;
      var c := Joined(channels, id, began, window).covered;
      var oldest := RecoverFrom(c, began, window);
      var claimed, requested, lost :=
        second < covered - OVERLAP, oldest <= second, Forfeited(covered, began, window, second);
      && (claimed || requested || lost)
      && !(claimed && requested) && !(claimed && lost) && !(requested && lost)
      && (began - covered <= window - OVERLAP ==> c == covered && oldest == Max(covered - OVERLAP, 0) && !lost)
  {
  }

  /** Falling back on the file does not raise a floor; a reconnect raises it exactly if
      the checkpoint, less the overlap, is older than the window; nothing else moves it. */
  ghost predicate FloorMoves(w: World, s: State, t: State, step: Step, id: string)
    requires id in s.store.mem.snap.channels
  {
    var oldest := s.link.began - w.window;
    var raised := step.Books? && step.b.Begin? && s.store.mem.snap.channels[id].covered - OVERLAP < oldest;
    id in t.store.mem.snap.channels ==>
      && id in s.store.mem.floor && id in t.store.mem.floor
      && if step == Books(Crash) then t.store.mem.floor[id] <= s.store.mem.floor[id]
         else t.store.mem.floor[id] == if raised then Max(s.store.mem.floor[id], oldest) else s.store.mem.floor[id]
  }

  lemma BeganMovesFloor(w: World, s: State, t: State, order: seq<string>, id: string)
    requires Began(s.store.mem, t.store.mem, s.members, s.link.began, w.window) && id in s.store.mem.snap.channels
    ensures FloorMoves(w, s, t, Books(Begin(order)), id)
  {
  }

  lemma BeginMovesFloor(w: World, s: State, order: seq<string>, id: string)
    requires ValidWorld(w) && Claims(w, s) && BookEnabled(w, s, Begin(order)) && id in s.store.mem.snap.channels
    ensures FloorMoves(w, s, BookApply(w, s, Begin(order)), Books(Begin(order)), id)
  {
    BeginFacts(s.store.mem, order, s.members, s.link.began, w.window);
    BeganMovesFloor(w, s, BookApply(w, s, Begin(order)), order, id);
  }

  lemma BookMovesFloor(w: World, s: State, step: BookStep, id: string)
    requires ValidWorld(w) && Claims(w, s) && FloorsOk(s) && BookEnabled(w, s, step) && id in s.store.mem.snap.channels
    ensures FloorMoves(w, s, BookApply(w, s, step), Books(step), id)
  {
    if step.Begin? {
      BeginMovesFloor(w, s, step.order, id);
    }
  }

  lemma StepMovesFloor(w: World, s: State, step: Step, id: string)
    requires ValidWorld(w) && Inv(w, s) && Enabled(w, s, step) && id in s.store.mem.snap.channels
    ensures FloorMoves(w, s, Apply(w, s, step), step, id)
  {
    match step
    case Wire(x) => WireLeavesStore(w, s, x);
    case Books(x) => BookMovesFloor(w, s, x, id);
    case Tasks(x) => TaskIsQuiet(w, s, x);
    case Notes(x) => NoteIsQuiet(w, s, x);
    case Passes(x) => PassLeavesBooks(w, s, x);
  }

  /** In every run, one step at a time. */
  lemma {:induction false} FloorRisesOnlyByTheWindow(w: World, steps: seq<Step>, k: nat, id: string)
    requires ValidWorld(w) && Exec(w, steps).Some? && k < |steps| && id in At(w, steps, k).store.mem.snap.channels
    ensures FloorMoves(w, At(w, steps, k), At(w, steps, k + 1), steps[k], id)
  {
    AtStep(w, steps, k);
    StepMovesFloor(w, At(w, steps, k), steps[k], id);
  }

  /** From state `k` to state `n` the channel stays tracked. */
  ghost predicate StaysTracked(w: World, steps: seq<Step>, k: nat, n: nat, id: string)
    requires Exec(w, steps).Some? && n <= |steps|
  {
    forall j :: k <= j <= n ==> id in At(w, steps, j).store.mem.snap.channels
  }

  /** The outage that ends with this connection fits the window, with the overlap. */
  ghost predicate Fits(w: World, s: State, id: string) {
    id in s.store.mem.snap.channels && s.link.began - s.store.mem.snap.channels[id].covered <= w.window - OVERLAP
  }

  ghost predicate EveryOutageFits(w: World, steps: seq<Step>, k: nat, n: nat, id: string)
    requires Exec(w, steps).Some? && n <= |steps|
  {
    forall j :: k <= j < n && steps[j].Books? && steps[j].b.Begin? ==> Fits(w, At(w, steps, j), id)
  }

  /** From state `k` to state `n`: not raised, and not moved either if `still`. */
  ghost predicate NotRaised(w: World, steps: seq<Step>, k: nat, n: nat, id: string, still: bool)
    requires Exec(w, steps).Some? && k <= |steps| && n <= |steps|
  {
    var a, b := At(w, steps, k).store.mem.floor, At(w, steps, n).store.mem.floor;
    id in a && id in b && b[id] <= a[id] && (still ==> b[id] == a[id])
  }

  lemma StartsUnraised(w: World, steps: seq<Step>, k: nat, id: string)
    requires ValidWorld(w) && Exec(w, steps).Some? && k <= |steps| && id in At(w, steps, k).store.mem.snap.channels
    ensures NotRaised(w, steps, k, k, id, true)
  {
    PrefixRuns(w, steps, k);
    EveryRun(w, steps[..k]);
  }

  /** Step `j` keeps the channel, and if it reconnects, the outage fits. */
  ghost predicate StepFits(w: World, steps: seq<Step>, j: nat, id: string)
    requires Exec(w, steps).Some? && j < |steps|
  {
    && id in At(w, steps, j).store.mem.snap.channels && id in At(w, steps, j + 1).store.mem.snap.channels
    && (steps[j].Books? && steps[j].b.Begin? ==> Fits(w, At(w, steps, j), id))
  }

  lemma OneStepUnraised(w: World, steps: seq<Step>, j: nat, id: string)
    requires ValidWorld(w) && Exec(w, steps).Some? && j < |steps| && StepFits(w, steps, j, id)
    ensures NotRaised(w, steps, j, j + 1, id, steps[j] != Books(Crash))
  {
    FloorRisesOnlyByTheWindow(w, steps, j, id);
  }

  predicate CrashFree(steps: seq<Step>, k: nat, n: nat)
    requires n <= |steps|
  {
    forall j :: k <= j < n ==> steps[j] != Books(Crash)
  }

  lemma OneMoreUnraised(w: World, steps: seq<Step>, k: nat, n: nat, id: string)
    requires Exec(w, steps).Some? && k <= n < |steps|
    requires NotRaised(w, steps, k, n, id, CrashFree(steps, k, n))
    requires NotRaised(w, steps, n, n + 1, id, steps[n] != Books(Crash))
    ensures NotRaised(w, steps, k, n + 1, id, CrashFree(steps, k, n + 1))
  {
  }

  lemma {:induction false} UnraisedOver(w: World, steps: seq<Step>, k: nat, n: nat, id: string)
    requires ValidWorld(w) && Exec(w, steps).Some? && k <= n <= |steps|
    requires id in At(w, steps, k).store.mem.snap.channels
    requires forall j :: k <= j < n ==> StepFits(w, steps, j, id)
    ensures NotRaised(w, steps, k, n, id, CrashFree(steps, k, n))
    decreases n
  {
    if k == n {
      StartsUnraised(w, steps, k, id);
    } else {
      UnraisedOver(w, steps, k, n - 1, id);
      OneStepUnraised(w, steps, n - 1, id);
      OneMoreUnraised(w, steps, k, n - 1, id);
    }
  }

  /** If every outage fits, then over any part of any run, through reconnects, crashes
      and restarts, the floor never rises, and without a crash it does not move at all. */
  lemma NoFloorEverRises(w: World, steps: seq<Step>, k: nat, n: nat, id: string)
    requires ValidWorld(w) && Exec(w, steps).Some? && k <= n <= |steps|
    requires StaysTracked(w, steps, k, n, id) && EveryOutageFits(w, steps, k, n, id)
    ensures NotRaised(w, steps, k, n, id, CrashFree(steps, k, n))
  {
    UnraisedOver(w, steps, k, n, id);
  }

  // ---------------------------------------------------------------- what may be missed

  /** A pass on the message's channel finished, on a connection that began at most
      OVERLAP seconds after the message's second. */
  ghost predicate Exposes(s: State, step: Step, m: Msg) {
    && step == Passes(Finish) && s.pass.Some? && s.pass.value.channel == m.channel
    && s.link.began - OVERLAP <= Second(m) <= s.link.began
  }

  /** A pass asks history no earlier than its connection began. */
  ghost predicate QueryOk(s: State) { s.pass.Some? ==> s.link.began <= s.pass.value.query }

  lemma WireKeepsQuery(w: World, s: State, step: WireStep)
    requires LinkOk(s) && QueryOk(s) && WireEnabled(w, s, step)
    ensures QueryOk(WireApply(w, s, step)) && WireApply(w, s, step).exposed == s.exposed
  {
  }

  lemma BookKeepsQuery(w: World, s: State, step: BookStep)
    requires QueryOk(s) && BookEnabled(w, s, step)
    ensures QueryOk(BookApply(w, s, step)) && BookApply(w, s, step).exposed == s.exposed
  {
  }

  lemma PassKeepsQuery(w: World, s: State, step: PassStep, m: Msg)
    requires LinkOk(s) && TimesOk(s) && QueryOk(s) && PassEnabled(w, s, step)
    ensures QueryOk(PassApply(w, s, step))
    ensures m in PassApply(w, s, step).exposed ==> m in s.exposed || Exposes(s, Passes(step), m)
  {
  }

  lemma StepExposes(w: World, s: State, step: Step, m: Msg)
    requires LinkOk(s) && TimesOk(s) && QueryOk(s) && Enabled(w, s, step)
    ensures QueryOk(Apply(w, s, step))
    ensures m in Apply(w, s, step).exposed ==> m in s.exposed || Exposes(s, step, m)
  {
    match step
    case Wire(x) => WireKeepsQuery(w, s, x);
    case Books(x) => BookKeepsQuery(w, s, x);
    case Tasks(x) => TaskIsQuiet(w, s, x);
    case Notes(x) => NoteIsQuiet(w, s, x);
    case Passes(x) => PassKeepsQuery(w, s, x, m);
  }

  lemma {:induction false} EveryQuery(w: World, steps: seq<Step>, n: nat, m: Msg)
    requires ValidWorld(w) && Exec(w, steps).Some? && n <= |steps|
    ensures QueryOk(At(w, steps, n))
    decreases n
  {
    if n > 0 {
      EveryQuery(w, steps, n - 1, m);
      AtStep(w, steps, n - 1);
      StepExposes(w, At(w, steps, n - 1), steps[n - 1], m);
    }
  }

  ghost predicate ExposesAt(w: World, steps: seq<Step>, k: nat, m: Msg)
    requires Exec(w, steps).Some?
  {
    k < |steps| && Exposes(At(w, steps, k), steps[k], m)
  }

  lemma ExposedHere(w: World, steps: seq<Step>, k: nat, m: Msg)
    requires ValidWorld(w) && Exec(w, steps).Some? && k < |steps|
    requires m in At(w, steps, k + 1).exposed && m !in At(w, steps, k).exposed
    ensures ExposesAt(w, steps, k, m)
  {
    EveryQuery(w, steps, k, m);
    AtStep(w, steps, k);
    StepExposes(w, At(w, steps, k), steps[k], m);
  }

  /** The exemption in CheckpointsAreSound is no wider than this. */
  lemma {:induction false} ExposedIsNarrow(w: World, steps: seq<Step>, n: nat, m: Msg)
    requires ValidWorld(w) && Exec(w, steps).Some? && n <= |steps| && m in At(w, steps, n).exposed
    ensures exists k :: 0 <= k < n && ExposesAt(w, steps, k, m)
    decreases n
  {
    assert steps[..0] == [];
    if n > 0 {
      if m in At(w, steps, n - 1).exposed {
        ExposedIsNarrow(w, steps, n - 1, m);
      } else {
        ExposedHere(w, steps, n - 1, m);
      }
    }
  }
}

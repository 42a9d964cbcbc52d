/** The step machine and the session's code describe the same program: what `process`
    does to one message is a sequence of the machine's steps. */
module Agreement {
  import opened Harvest
  import opened Snapshots
  import opened Protocol
  import opened Theorems
  import R = RecoveryPass

  lemma Follow(w: World, run: seq<Step>, step: Step)
    requires Exec(w, run).Some? && Enabled(w, Exec(w, run).value, step)
    ensures Exec(w, run + [step]) == Some(Apply(w, Exec(w, run).value, step))
  {
  }

  // ------------------------------------------------------------------ before and after

  /** The consumer or the recovery loop is about to call `process` on `m`. */
  ghost predicate Calls(s: State, task: Task, m: Msg) {
    && s.lock.None?
    && if task.Live? then AtMessage(s.link) && s.link.busy.value.m == m && m.channel in s.members
       else Turns(s) && s.pass.value.pending[0] == m
  }

  /** The pass turns to the next message of its page. */
  predicate Turns(s: State) { s.pass.Some? && s.pass.value.current.None? && s.pass.value.pending != [] }

  predicate MayCall(s: State, task: Task) { task.Recovery? ==> Turns(s) }

  /** The state `s` of the caller, once it holds the lock for `m`. */
  ghost function AtWork(s: State, task: Task, m: Msg, phase: Phase): State
    requires MayCall(s, task)
  {
    s.(lock := Some(Holder(task, m, phase)),
       pass := if task.Live? then s.pass
               else Some(s.pass.value.(current := Some(m), pending := s.pass.value.pending[1..])))
  }

  /** `process` returned: Ok lets its caller go on, an error ends the connection's
      processing, or the pass. */
  ghost function Back(s: State, task: Task, m: Msg, ok: bool): State
    requires MayCall(s, task)
  {
    if task.Live? then s.(lock := None, link := if ok then s.link.(busy := None) else s.link.(broken := true))
    else s.(lock := None, pass := if !ok then None else Some(s.pass.value.(
      handled := s.pass.value.handled + {m}, pending := s.pass.value.pending[1..])))
  }

  // -------------------------------------------------------------------- step by step

  /** The worker answers `false` to every job nobody waits for any more. */
  lemma {:induction false} Drains(w: World, run: seq<Step>, head: nat) returns (more: seq<Step>, work: Work)
    requires Exec(w, run).Some? && Exec(w, run).value.work.head == head <= |Exec(w, run).value.work.jobs|
    ensures run <= more
    ensures Exec(w, more) == Some(Exec(w, run).value.(work := work))
    ensures var was := Exec(w, run).value.work;
      && work.head == |work.jobs| == |was.jobs|
      && work.acked == was.acked && work.filtered == was.filtered && work.rows == was.rows
    decreases |Exec(w, run).value.work.jobs| - head
  {
    more, work := run, Exec(w, run).value.work;
    if head < |work.jobs| {
      var step := Tasks(Answer(false, {}));
      Follow(w, run, step);
      RefusalLeaves(w, Exec(w, run).value);
      more, work := Drains(w, run + [step], head + 1);
    }
  }

  lemma RefusalLeaves(w: World, s: State)
    requires s.work.head < |s.work.jobs|
    ensures TaskEnabled(w, s, Answer(false, {}))
    ensures var t := TaskApply(w, s, Answer(false, {}));
      && t == s.(work := t.work) && t.work.head == s.work.head + 1 && |t.work.jobs| == |s.work.jobs|
      && t.work.acked == s.work.acked && t.work.filtered == s.work.filtered && t.work.rows == s.work.rows
  {
    var m, none: set<string> := s.work.jobs[s.work.head].m, {};
    assert s.work.rows + (set u | u in none :: (m, u)) == s.work.rows;
  }

  lemma Begins(w: World, run: seq<Step>, s: State, task: Task, m: Msg) returns (more: seq<Step>)
    requires Exec(w, run) == Some(s) && Calls(s, task, m)
    ensures run <= more
    ensures Exec(w, more) == Some(AtWork(s, task, m, Entered))
  {
    more := run;
    if task.Recovery? {
      Follow(w, run, Passes(Item));
      more := run + [Passes(Item)];
    }
    Follow(w, more, Tasks(Enter(task)));
    more := more + [Tasks(Enter(task))];
  }

  ghost function WithParent(s: State, m: Msg, parent: Option<string>, window: int): State {
    if parent.Some? then SetSnap(s, RememberThread(s.store.mem.snap, m.channel, parent.value, s.clock, window)) else s
  }

  lemma Remembers(w: World, run: seq<Step>, s: State, task: Task, m: Msg, parent: Option<string>)
      returns (more: seq<Step>)
    requires MayCall(s, task) && Exec(w, run) == Some(AtWork(s, task, m, Entered))
    ensures run <= more
    ensures Exec(w, more) == Some(AtWork(WithParent(s, m, parent, w.window), task, m, Entered))
  {
    more := run;
    if parent.Some? {
      Follow(w, run, Notes(Remember(parent.value)));
      more := run + [Notes(Remember(parent.value))];
    }
  }

  lemma Skips(w: World, run: seq<Step>, s: State, task: Task, m: Msg, step: TaskStep)
    requires MayCall(s, task) && Exec(w, run) == Some(AtWork(s, task, m, Entered))
    requires step.Filter? || (step.Duplicate? && m in SeenMsgs(s.store.mem.snap.seen))
    ensures var back := Back(s, task, m, true);
      Exec(w, run + [Tasks(step)]) == Some(if step.Filter? then Discard(back, m) else back)
  {
    Follow(w, run, Tasks(step));
  }

  ghost function Submitted(s: State, m: Msg): State { s.(work := s.work.(jobs := s.work.jobs + [Job(m, None)])) }

  lemma Submits(w: World, run: seq<Step>, s: State, task: Task, m: Msg) returns (more: seq<Step>)
    requires MayCall(s, task) && Exec(w, run) == Some(AtWork(s, task, m, Entered))
    requires m !in SeenMsgs(s.store.mem.snap.seen) && ValidId(m.channel) && ValidTs(m.ts)
    ensures run <= more
    ensures Exec(w, more) == Some(AtWork(Submitted(s, m), task, m, Waiting(|s.work.jobs|)))
  {
    Follow(w, run, Tasks(Check));
    more := run + [Tasks(Check)];
    Follow(w, more, Tasks(Submit));
    more := more + [Tasks(Submit)];
  }

  lemma GivesUp(w: World, run: seq<Step>, s: State, task: Task, m: Msg, job: nat)
    requires MayCall(s, task) && Exec(w, run) == Some(AtWork(s, task, m, Waiting(job)))
    ensures Exec(w, run + [Notes(Fail)])
      == Some(Back(SetSnap(s, WithFailed(s.store.mem.snap, m.channel, true)), task, m, false))
  {
    Follow(w, run, Notes(Fail));
  }

  /** The worker stores the URLs and answers `true`, at time `done`. */
  ghost function Confirmed(w: World, s: State, m: Msg, done: int): State
    requires s.work.head < |s.work.jobs|
  {
    var jobs := s.work.jobs[s.work.head := s.work.jobs[s.work.head].(receipt := Some(true))];
    s.(clock := done, work := s.work.(jobs := jobs, head := s.work.head + 1, acked := s.work.acked + {m},
       rows := s.work.rows + set u | u in w.urls(m) :: (m, u)))
  }

  lemma Answers(w: World, run: seq<Step>, s: State, task: Task, m: Msg, done: int) returns (more: seq<Step>)
    requires MayCall(s, task) && s.work.head < |s.work.jobs| && s.work.jobs[s.work.head].m == m && done >= s.clock
    requires Exec(w, run) == Some(AtWork(s, task, m, Waiting(s.work.head)))
    ensures run <= more
    ensures Exec(w, more) == Some(AtWork(Confirmed(w, s, m, done), task, m, Waiting(s.work.head)))
  {
    Follow(w, run, Tasks(Answer(true, w.urls(m))));
    more := run + [Tasks(Answer(true, w.urls(m)))];
    Follow(w, more, Wire(Tick(done)));
    more := more + [Wire(Tick(done))];
  }

  lemma Finishes(w: World, run: seq<Step>, s: State, task: Task, m: Msg, job: nat, thread: Option<string>)
    requires MayCall(s, task) && Exec(w, run) == Some(AtWork(s, task, m, Waiting(job)))
    requires job < |s.work.jobs| && s.work.jobs[job].receipt == Some(true)
    ensures Exec(w, run + [Notes(Record(thread))])
      == Some(Back(SetSnap(s, Processed(s.store.mem.snap, m, thread, s.clock, w.window)), task, m, true))
  {
    Follow(w, run, Notes(Record(thread)));
  }

  // ------------------------------------------------------------------ the whole call

  /** What a call leaves alone. */
  ghost predicate Same(s: State, t: State) {
    && t.members == s.members && t.exposed == s.exposed && t.store.mem.floor == s.store.mem.floor
    && t.store.disk == s.store.disk && t.store.saving == s.store.saving
  }

  /** A call of `process` on `m` that ended with `fate`: where its caller stands, and
      what was acknowledged, discarded and stored. */
  ghost predicate Did(w: World, s: State, t: State, task: Task, m: Msg, fate: R.Fate)
    requires MayCall(s, task)
  {
    var back := Back(s, task, m, !fate.Lost?);
    && t.lock.None? && t.link == back.link && t.pass == back.pass && Same(s, t)
    && t.work.acked == s.work.acked + (if fate.Delivered? then {m} else {})
    && t.work.filtered == s.work.filtered + (if fate.Discarded? then {m} else {})
    && t.work.rows == s.work.rows + (if fate.Delivered? then set u | u in w.urls(m) :: (m, u) else {})
  }

  lemma Delivers(w: World, run: seq<Step>, s: State, task: Task, m: Msg, thread: Option<string>, done: int)
      returns (more: seq<Step>)
    requires MayCall(s, task) && Exec(w, run) == Some(AtWork(s, task, m, Entered)) && s.work.head == |s.work.jobs|
    requires m !in SeenMsgs(s.store.mem.snap.seen) && ValidId(m.channel) && ValidTs(m.ts) && done >= s.clock
    ensures run <= more
    ensures Exec(w, more).Some? && Did(w, s, Exec(w, more).value, task, m, R.Delivered)
    ensures Exec(w, more).value.store.mem.snap == Processed(s.store.mem.snap, m, thread, done, w.window)
    ensures Exec(w, more).value.clock == done
  {
    more := Submits(w, run, s, task, m);
    var t := Submitted(s, m);
    more := Answers(w, more, t, task, m, done);
    var u := Confirmed(w, t, m, done);
    Finishes(w, more, u, task, m, t.work.head, thread);
    more := more + [Notes(Record(thread))];
  }

  lemma Loses(w: World, run: seq<Step>, s: State, task: Task, m: Msg) returns (more: seq<Step>)
    requires MayCall(s, task) && Exec(w, run) == Some(AtWork(s, task, m, Entered))
    requires m !in SeenMsgs(s.store.mem.snap.seen) && ValidId(m.channel) && ValidTs(m.ts)
    ensures run <= more
    ensures Exec(w, more).Some? && Did(w, s, Exec(w, more).value, task, m, R.Lost)
    ensures Exec(w, more).value.store.mem.snap == WithFailed(s.store.mem.snap, m.channel, true)
    ensures Exec(w, more).value.clock == s.clock
  {
    more := Submits(w, run, s, task, m);
    GivesUp(w, more, Submitted(s, m), task, m, |s.work.jobs|);
    more := more + [Notes(Fail)];
  }

  lemma Skipped(w: World, run: seq<Step>, s: State, task: Task, m: Msg, fate: R.Fate) returns (more: seq<Step>)
    requires MayCall(s, task) && Exec(w, run) == Some(AtWork(s, task, m, Entered))
    requires fate.Discarded? || (fate.Known? && m in SeenMsgs(s.store.mem.snap.seen))
    ensures run <= more
    ensures Exec(w, more).Some? && Did(w, s, Exec(w, more).value, task, m, fate)
    ensures Exec(w, more).value.store == s.store && Exec(w, more).value.clock == s.clock
  {
    var step := if fate.Discarded? then Filter else Duplicate;
    Skips(w, run, s, task, m, step);
    more := run + [Tasks(step)];
  }

  /** The clock reaches the call, and the worker has answered all earlier jobs. */
  lemma Prepares(w: World, run: seq<Step>, task: Task, m: Msg, at: int) returns (more: seq<Step>, t: State)
    requires ValidWorld(w) && Exec(w, run).Some? && Calls(Exec(w, run).value, task, m) && Exec(w, run).value.clock <= at
    ensures run <= more
    ensures var s := Exec(w, run).value;
      && t == s.(clock := at, work := t.work) && t.work.head == |t.work.jobs|
      && t.work.acked == s.work.acked && t.work.filtered == s.work.filtered && t.work.rows == s.work.rows
    ensures Exec(w, more) == Some(AtWork(t, task, m, Entered))
  {
    EveryRun(w, run);
    Follow(w, run, Wire(Tick(at)));
    var ticked := run + [Wire(Tick(at))];
    var work;
    more, work := Drains(w, ticked, Exec(w, ticked).value.work.head);
    t := Exec(w, ticked).value.(work := work);
    more := Begins(w, more, t, task, m);
  }

  lemma Concludes(w: World, run: seq<Step>, s: State, task: Task, src: R.Source, item: R.Item) returns (more: seq<Step>)
    requires ValidId(src.id) && item.ts.Some? && item.at == s.clock <= item.done && s.work.head == |s.work.jobs|
    requires MayCall(s, task) && Exec(w, run) == Some(AtWork(s, task, Msg(src.id, item.ts.value), Entered))
    ensures run <= more
    ensures Exec(w, more).Some? && item.at <= Exec(w, more).value.clock <= item.done
    ensures Exec(w, more).value.store.mem.snap == R.Processing(s.store.mem.snap, src, item, w.window).0
    ensures var fate := R.FateOf(s.store.mem.snap, src, item, w.window);
      Did(w, s, Exec(w, more).value, task, Msg(src.id, item.ts.value), fate)
  {
    var m, fate := Msg(src.id, item.ts.value), R.FateOf(s.store.mem.snap, src, item, w.window);
    if !R.Normal(item) {
      more := Skipped(w, run, s, task, m, fate);
    } else {
      var parent := R.Parent(item, src.thread);
      more := Remembers(w, run, s, task, m, parent);
      var t := WithParent(s, m, parent, w.window);
      assert t.store.mem.snap == R.Noted(s.store.mem.snap, src, item, w.window);
      match fate {
        case Delivered => more := Delivers(w, more, t, task, m, parent, item.done);
        case Lost => more := Loses(w, more, t, task, m);
        case _ => more := Skipped(w, more, t, task, m, fate);
      }
    }
  }

  /** From any reachable state in which the consumer or a pass is about to call
      `process`, whatever is still queued at the worker, some steps of the machine do
      exactly what the code does. */
  lemma {:induction false} ProcessIsARun(w: World, run: seq<Step>, task: Task, src: R.Source, item: R.Item)
      returns (more: seq<Step>)
    requires ValidWorld(w) && Exec(w, run).Some? && ValidId(src.id) && item.ts.Some?
    requires Calls(Exec(w, run).value, task, Msg(src.id, item.ts.value))
    requires Exec(w, run).value.clock <= item.at <= item.done
    ensures run <= more
    ensures Exec(w, more).Some? && item.at <= Exec(w, more).value.clock <= item.done
    ensures var s, t := Exec(w, run).value, Exec(w, more).value;
      && t.store.mem.snap == R.Processing(s.store.mem.snap, src, item, w.window).0
      && Did(w, s, t, task, Msg(src.id, item.ts.value), R.FateOf(s.store.mem.snap, src, item, w.window))
  {
    var t;
    more, t := Prepares(w, run, task, Msg(src.id, item.ts.value), item.at);
    more := Concludes(w, more, t, task, src, item);
  }
}

/** How long a pass may be retried against the same bound before it processes messages
    again that are already recorded. Age keeps their entries in the duplicate log until
    OVERLAP seconds past the bound; `recover` retries without that limit. */
module Retries {
  import opened Harvest
  import opened Snapshots
  import opened Protocol
  import opened Safety
  import opened Theorems
  import opened Retention
  import A = Agreement

  /** Neither a recording nor a crash. */
  predicate Calm(step: Step) { step != Books(Crash) && Recorded(step) == 0 }

  /** Step `k` is a pass that submits a message again, although step `r` recorded it, not
      before its own second; since then no crash, and too few recordings to fill the log. */
  ghost predicate Resubmits(w: World, steps: seq<Step>, r: nat, k: nat, m: Msg)
    requires Exec(w, steps).Some?
  {
    && r < k < |steps|
    && Records(At(w, steps, r), steps[r], m) && Second(m) <= At(w, steps, r).clock
    && Submits(At(w, steps, k), steps[k], m)
    && At(w, steps, k).pass.Some? && At(w, steps, k).lock.value.task.Recovery?
    && At(w, steps, k).pass.value.oldest <= Second(m)
    && Books(Crash) !in steps[r + 1..k] && RecordCount(steps[r + 1..k]) < MAX_SEEN
  }

  /** Passes that are over `d` seconds after their bound never do. */
  ghost predicate SafeFor(d: int) {
    forall w: World, steps: seq<Step>, r: nat, k: nat, m: Msg ::
      ValidWorld(w) && Exec(w, steps).Some? && Resubmits(w, steps, r, k, m)
      ==> At(w, steps, k).clock > At(w, steps, k).link.began + d
  }

  lemma RecordIsNear(w: World, s: State, step: Step, m: Msg)
    requires ValidWorld(w) && Enabled(w, s, step) && Records(s, step, m)
    ensures Near(Apply(w, s, step).store.mem.snap.seen, Seen(m.channel, m.ts, s.clock), 0)
  {
    var snap, e := s.store.mem.snap, Seen(m.channel, m.ts, s.clock);
    var t := snap.(seen := snap.seen + [e]);
    var noted := if step.n.thread.Some? then WithThread(t, m.channel, step.n.thread.value, s.clock) else t;
    assert t.seen[|snap.seen|] == e;
    PruneKeepsNear(noted, s.clock, w.window, e, 0);
  }

  lemma AtIsExec(w: World, steps: seq<Step>, k: nat)
    requires Exec(w, steps).Some? && k <= |steps|
    ensures Exec(w, steps[..k]) == Some(At(w, steps, k))
  {
    PrefixRuns(w, steps, k);
  }

  lemma TakeSplits<T>(s: seq<T>, r: nat, k: nat)
    requires r <= k <= |s|
    ensures s[..r] + s[r..k] == s[..k]
  {
  }

  /** From state `r` on, the entry is still there in state `k`. */
  lemma StaysLogged(w: World, steps: seq<Step>, r: nat, k: nat, e: Seen, covered: int, through: int)
    requires ValidWorld(w) && Exec(w, steps).Some? && r <= k <= |steps|
    requires Near(At(w, steps, r).store.mem.snap.seen, e, 0) && At(w, steps, k).clock <= through + OVERLAP
    requires RecoverFrom(covered, through, w.window) <= Second(Msg(e.channel, e.ts)) <= e.at
    requires Books(Crash) !in steps[r..k] && RecordCount(steps[r..k]) < MAX_SEEN
    ensures Logged(At(w, steps, k), Msg(e.channel, e.ts))
  {
    AtIsExec(w, steps, r);
    AtIsExec(w, steps, k);
    TakeSplits(steps, r, k);
    EntryOutlivesRetries(w, steps[..r], steps[r..k], e, 0, covered, through);
  }

  lemma RecordedAt(w: World, steps: seq<Step>, r: nat, m: Msg)
    requires ValidWorld(w) && Exec(w, steps).Some? && r < |steps| && Records(At(w, steps, r), steps[r], m)
    ensures Near(At(w, steps, r + 1).store.mem.snap.seen, Seen(m.channel, m.ts, At(w, steps, r).clock), 0)
  {
    AtStep(w, steps, r);
    RecordIsNear(w, At(w, steps, r), steps[r], m);
  }

  /** What a pass in a run asks for, and that it submits only what is not logged. */
  lemma PassSubmits(w: World, steps: seq<Step>, k: nat, m: Msg) returns (covered: int)
    requires ValidWorld(w) && Exec(w, steps).Some? && k < |steps|
    requires Submits(At(w, steps, k), steps[k], m) && At(w, steps, k).pass.Some?
    ensures !Logged(At(w, steps, k), m)
    ensures var t := At(w, steps, k); t.pass.value.oldest == RecoverFrom(covered, t.link.began, w.window)
  {
    AtStep(w, steps, k);
    var t := At(w, steps, k);
    SubmitIsUnlogged(w, t, steps[k], m);
    covered := t.store.mem.snap.channels[t.pass.value.channel].covered;
  }

  /** Within the overlap after its bound, no pass does that. */
  lemma ResubmissionIsLate(w: World, steps: seq<Step>, r: nat, k: nat, m: Msg)
    requires ValidWorld(w) && Exec(w, steps).Some? && Resubmits(w, steps, r, k, m)
    ensures At(w, steps, k).clock > At(w, steps, k).link.began + OVERLAP
  {
    RecordedAt(w, steps, r, m);
    var covered := PassSubmits(w, steps, k, m);
    var through := At(w, steps, k).link.began;
    if At(w, steps, k).clock <= through + OVERLAP {
      StaysLogged(w, steps, r + 1, k, Seen(m.channel, m.ts, At(w, steps, r).clock), covered, through);
    }
  }

  // --------------------------------------------------------- a run that processes twice

  const LATE := Msg("C1", "999")
  const ENTRY := Seen("C1", "999", 999)

  ghost const SLOW: World := World(iset{LATE}, 1, m => {}, false)

  lemma LateSecond()
    ensures MessageTimestamp("999") == Some(999) && Second(LATE) == 999 && ValidTs("999") && ValidWorld(SLOW)
  {
    var ts := "999";
    assert Find(ts, '.') == 3 && ts[..3] == ts;
    assert ts[..2] == "99" && "99"[..1] == "9" && "9"[..0] == "";
    assert Value("") == 0 && Value("9") == 9 && Value("99") == 99 && Value(ts) == 999;
  }

  /** Channel C1 without threads. */
  function One(covered: int, recovering: bool, seen: seq<Seen>): Snapshot {
    Snapshot(map["C1" := Channel(covered, map[], recovering, false)], seen)
  }

  lemma NoThreadsToPrune(channels: map<string, Channel>, at: int, window: int)
    requires forall id :: id in channels ==> channels[id].threads == map[]
    ensures PrunedChannels(channels, at, window) == channels
  {
    var p := PrunedChannels(channels, at, window);
    forall id | id in channels ensures p[id] == channels[id] {
      assert p[id].threads == map[];
    }
  }

  lemma PruneEntry(at: int)
    ensures PrunedSeen([ENTRY], at, 1) == if at <= 999 + 1 + OVERLAP then [ENTRY] else []
    ensures PrunedSeen([], at, 1) == []
  {
    assert [ENTRY][..0] == [];
  }

  lemma PruneOne(covered: int, recovering: bool, at: int)
    ensures Prune(One(covered, recovering, [ENTRY]), at, 1)
      == One(covered, recovering, if at <= 999 + 1 + OVERLAP then [ENTRY] else [])
    ensures Prune(One(covered, recovering, []), at, 1) == One(covered, recovering, [])
  {
    NoThreadsToPrune(One(covered, recovering, []).channels, at, 1);
    PruneEntry(at);
  }

  ghost function Scene(clock: int, snap: Snapshot, floor: int, link: Link, work: Work): State {
    var stores := Stores(Book(snap, map["C1" := floor]), None, Book(EMPTY, map[]));
    State(clock, stores, link, {"C1"}, None, None, work, iset{})
  }

  const JOB := Job(LATE, Some(true))
  const DONE := Work([JOB], 1, {LATE}, {}, {})

  /** One more step. */
  lemma Then(run: seq<Step>, s: State, step: Step) returns (more: seq<Step>, t: State)
    requires Exec(SLOW, run) == Some(s) && Enabled(SLOW, s, step)
    ensures more == run + [step] && t == Apply(SLOW, s, step) && Exec(SLOW, more) == Some(t)
  {
    A.Follow(SLOW, run, step);
    more, t := run + [step], Apply(SLOW, s, step);
  }

  /** From `run` on, only calm steps. */
  predicate Calmly(run: seq<Step>, more: seq<Step>) {
    run <= more && forall i :: |run| <= i < |more| ==> Calm(more[i])
  }

  lemma FirstBook()
    ensures BeginBook(Book(EMPTY, map[]), ["C1"], 0, 1) == Book(One(0, false, []), map["C1" := 1])
  {
    var order := ["C1"];
    assert Kept(map[], order) == map[];
    var joined := Join(map[], "C1", 0, 1);
    assert JoinAll(joined, order[1..], 0, 1) == (joined, true);
    assert joined == One(0, false, []).channels;
    PruneOne(0, false, 0);
    assert BeginBook(Book(EMPTY, map[]), order, 0, 1).floor == map["C1" := 1];
  }

  lemma Connects() returns (run: seq<Step>, s: State)
    ensures Exec(SLOW, run) == Some(s)
    ensures s == Scene(999, One(0, false, []), 1, CLOSED.(open := true, started := true), Work([], 0, {}, {}, {}))
  {
    run, s := [], INIT;
    run, s := Then(run, s, Wire(Connect));
    run, s := Then(run, s, Wire(SetMembers({"C1"})));
    assert Elements(["C1"]) == {"C1"};
    FirstBook();
    run, s := Then(run, s, Books(Begin(["C1"])));
    assert s.link.joined == map[];
    run, s := Then(run, s, Wire(Tick(999)));
  }

  const ARRIVED :=
    CLOSED.(open := true, started := true, read := [Posted(LATE)], taken := 1, busy := Some(Posted(LATE)))

  /** LATE arrives live. */
  lemma Arrives() returns (run: seq<Step>, s: State)
    ensures Exec(SLOW, run) == Some(s)
    ensures s == Scene(999, One(0, false, []), 1, ARRIVED, Work([], 0, {}, {}, {}))
      .(lock := Some(Holder(Live, LATE, Entered)))
  {
    run, s := Connects();
    run, s := Then(run, s, Wire(Receive(Posted(LATE))));
    run, s := Then(run, s, Wire(Take));
    run, s := Then(run, s, Tasks(Enter(Live)));
  }

  lemma Delivered(run: seq<Step>, s: State) returns (more: seq<Step>, t: State)
    requires Exec(SLOW, run) == Some(s)
    requires s == Scene(999, One(0, false, []), 1, ARRIVED, Work([Job(LATE, None)], 0, {}, {}, {}))
      .(lock := Some(Holder(Live, LATE, Waiting(0))))
    ensures Exec(SLOW, more) == Some(t)
    ensures t == Scene(999, One(0, false, []), 1, ARRIVED, DONE).(lock := Some(Holder(Live, LATE, Waiting(0))))
  {
    more, t := Then(run, s, Tasks(Answer(true, {})));
    assert t.work.rows == {} && t.work.jobs == [JOB];
  }

  /** It is processed, and is about to be recorded. */
  lemma Processes() returns (run: seq<Step>, s: State)
    ensures Exec(SLOW, run) == Some(s)
    ensures s == Scene(999, One(0, false, []), 1, ARRIVED, DONE).(lock := Some(Holder(Live, LATE, Waiting(0))))
  {
    LateSecond();
    run, s := Arrives();
    run, s := Then(run, s, Tasks(Check));
    run, s := Then(run, s, Tasks(Submit));
    assert s.work.jobs == [Job(LATE, None)];
    run, s := Delivered(run, s);
  }

  lemma RecordOne()
    ensures Processed(One(0, false, []), LATE, None, 999, 1) == One(0, false, [ENTRY])
  {
    assert [] + [ENTRY] == [ENTRY];
    PruneOne(0, false, 999);
  }

  lemma Reconnected()
    ensures BeginBook(Book(One(0, false, [ENTRY]), map["C1" := 1]), ["C1"], 1000, 1)
      == Book(One(999, true, [ENTRY]), map["C1" := 999])
  {
    var order, channels := ["C1"], One(0, false, [ENTRY]).channels;
    assert Kept(channels, order) == channels;
    var joined := Join(channels, "C1", 1000, 1);
    assert JoinAll(joined, order[1..], 1000, 1) == (joined, true);
    assert joined == One(999, true, [ENTRY]).channels;
    PruneOne(999, true, 1000);
    assert BeginBook(Book(One(0, false, [ENTRY]), map["C1" := 1]), order, 1000, 1).floor == map["C1" := 999];
  }

  const BOUND := CLOSED.(open := true, began := 1000, started := true, joined := map["C1" := 999])

  lemma Leaves(run: seq<Step>, s: State) returns (more: seq<Step>, t: State)
    requires Exec(SLOW, run) == Some(s)
    requires s == Scene(999, One(0, false, [ENTRY]), 1, ARRIVED.(busy := None), DONE)
    ensures Exec(SLOW, more) == Some(t) && Calmly(run, more)
    ensures t == Scene(1000, One(0, false, [ENTRY]), 1, CLOSED, DONE)
  {
    more, t := Then(run, s, Wire(Disconnect));
    more, t := Then(more, t, Wire(Tick(1000)));
  }

  /** A connection begins whose passes are bounded by 1000. */
  lemma Rejoins(run: seq<Step>, s: State) returns (more: seq<Step>, t: State)
    requires Exec(SLOW, run) == Some(s) && s == Scene(1000, One(0, false, [ENTRY]), 1, CLOSED, DONE)
    ensures Exec(SLOW, more) == Some(t) && Calmly(run, more)
    ensures t == Scene(1000, One(999, true, [ENTRY]), 999, BOUND, DONE)
  {
    more, t := Then(run, s, Wire(Connect));
    more, t := Joins(more, t);
  }

  lemma Joins(run: seq<Step>, s: State) returns (more: seq<Step>, t: State)
    requires Exec(SLOW, run) == Some(s)
    requires s == Scene(1000, One(0, false, [ENTRY]), 1, CLOSED.(open := true, began := 1000), DONE)
    ensures Exec(SLOW, more) == Some(t) && Calmly(run, more)
    ensures t == Scene(1000, One(999, true, [ENTRY]), 999, BOUND, DONE)
  {
    assert Elements(["C1"]) == {"C1"};
    Reconnected();
    assert JoinedFrom(One(0, false, [ENTRY]).channels, ["C1"], 1000, 1) == map["C1" := 999];
    more, t := Then(run, s, Books(Begin(["C1"])));
  }

  lemma ForgetOne()
    ensures RememberThread(One(999, true, [ENTRY]), "C1", "", 1001 + OVERLAP, 1) == One(999, true, [])
  {
    assert MessageTimestamp("").None?;
    PruneOne(999, true, 1001 + OVERLAP);
  }

  /** The scene with a pass on C1 that has been shown `shown`. */
  ghost function During(snap: Snapshot, shown: set<Msg>, lock: Option<Holder>, current: Option<Msg>): State {
    Scene(1001 + OVERLAP, snap, 999, BOUND, DONE)
      .(lock := lock, pass := Some(Pass("C1", 999, 1001 + OVERLAP, shown, [], {}, current)))
  }

  lemma StartsLate(run: seq<Step>, s: State) returns (more: seq<Step>, t: State)
    requires Exec(SLOW, run) == Some(s) && s == Scene(1000, One(999, true, [ENTRY]), 999, BOUND, DONE)
    ensures Exec(SLOW, more) == Some(t) && Calmly(run, more)
    ensures t == During(One(999, true, [ENTRY]), {}, None, None)
  {
    more, t := Then(run, s, Wire(Tick(1001 + OVERLAP)));
    more, t := Then(more, t, Passes(Start("C1")));
    assert WithFailed(One(999, true, [ENTRY]), "C1", false) == One(999, true, [ENTRY]);
  }

  const TAKEN := Holder(Recovery, LATE, Entered)

  ghost function OnPage(): State {
    var empty := During(One(999, true, [ENTRY]), {LATE}, None, None);
    empty.(pass := Some(empty.pass.value.(pending := [LATE])))
  }

  /** One second past the overlap, history shows it to a pass ... */
  lemma IsShown(run: seq<Step>, s: State) returns (more: seq<Step>, t: State)
    requires Exec(SLOW, run) == Some(s) && s == During(One(999, true, [ENTRY]), {}, None, None)
    ensures Exec(SLOW, more) == Some(t) && Calmly(run, more) && t == OnPage()
  {
    LateSecond();
    assert Elements([LATE]) == {LATE};
    more, t := Then(run, s, Passes(Page([LATE])));
    assert t.pass.value.returned == {LATE};
  }

  lemma IsNext(run: seq<Step>, s: State) returns (more: seq<Step>, t: State)
    requires Exec(SLOW, run) == Some(s) && s == OnPage()
    ensures Exec(SLOW, more) == Some(t) && Calmly(run, more)
    ensures t == During(One(999, true, [ENTRY]), {LATE}, None, Some(LATE))
  {
    assert [LATE][1..] == [];
    more, t := Then(run, s, Passes(Item));
  }

  /** ... which turns to it. */
  lemma IsTaken(run: seq<Step>, s: State) returns (more: seq<Step>, t: State)
    requires Exec(SLOW, run) == Some(s) && s == During(One(999, true, [ENTRY]), {LATE}, None, Some(LATE))
    ensures Exec(SLOW, more) == Some(t) && Calmly(run, more)
    ensures t == During(One(999, true, [ENTRY]), {LATE}, Some(TAKEN), Some(LATE))
  {
    more, t := Then(run, s, Tasks(Enter(Recovery)));
  }

  /** The pruning on the way to the duplicate check drops the entry. */
  lemma IsPruned(run: seq<Step>, s: State) returns (more: seq<Step>, t: State)
    requires Exec(SLOW, run) == Some(s) && s == During(One(999, true, [ENTRY]), {LATE}, Some(TAKEN), Some(LATE))
    ensures Exec(SLOW, more) == Some(t) && Calmly(run, more)
    ensures t == During(One(999, true, []), {LATE}, Some(TAKEN), Some(LATE))
  {
    ForgetOne();
    more, t := Then(run, s, Notes(Remember("")));
  }

  lemma IsMissed(run: seq<Step>, s: State) returns (more: seq<Step>, t: State)
    requires Exec(SLOW, run) == Some(s) && s == During(One(999, true, []), {LATE}, Some(TAKEN), Some(LATE))
    ensures Exec(SLOW, more) == Some(t) && Calmly(run, more)
    ensures t == During(One(999, true, []), {LATE}, Some(TAKEN.(phase := Unseen)), Some(LATE))
  {
    LateSecond();
    more, t := Then(run, s, Tasks(Check));
  }

  lemma CalmChain(a: seq<Step>, b: seq<Step>, c: seq<Step>)
    requires Calmly(a, b) && Calmly(b, c)
    ensures Calmly(a, c)
  {
  }

  /** From the recording to the second submission. */
  lemma ComesBack(run: seq<Step>, s: State) returns (more: seq<Step>, t: State)
    requires Exec(SLOW, run) == Some(s) && s == Scene(999, One(0, false, [ENTRY]), 1, ARRIVED.(busy := None), DONE)
    ensures Exec(SLOW, more) == Some(t) && Calmly(run, more)
    ensures t == During(One(999, true, []), {LATE}, Some(TAKEN.(phase := Unseen)), Some(LATE))
  {
    var a, sa := Leaves(run, s);
    var b, sb := Rejoins(a, sa);
    CalmChain(run, a, b);
    var c, sc := StartsLate(b, sb);
    CalmChain(run, b, c);
    var shown, ss := IsShown(c, sc);
    CalmChain(run, c, shown);
    var d, sd := IsNext(shown, ss);
    CalmChain(run, shown, d);
    var e, se := IsTaken(d, sd);
    CalmChain(run, d, e);
    var f, sf := IsPruned(e, se);
    CalmChain(run, e, f);
    more, t := IsMissed(f, sf);
    CalmChain(run, f, more);
  }

  lemma {:induction false} CalmCounts(steps: seq<Step>)
    requires forall i :: 0 <= i < |steps| ==> Calm(steps[i])
    ensures Books(Crash) !in steps && RecordCount(steps) == 0
  {
    if steps != [] {
      CalmCounts(steps[..|steps| - 1]);
    }
  }

  lemma AtPrefix(run: seq<Step>, more: seq<Step>)
    requires run <= more && Exec(SLOW, more).Some?
    ensures Exec(SLOW, run).Some? && At(SLOW, more, |run|) == Exec(SLOW, run).value
  {
    PrefixRuns(SLOW, more, |run|);
    assert more[..|run|] == run;
  }

  /** The steps at the two places, and those in between. */
  lemma Places(before: seq<Step>, again: seq<Step>, steps: seq<Step>)
    requires Calmly(before + [Notes(Record(None))], again) && steps == again + [Tasks(Submit)]
    ensures before <= steps && again <= steps && |before| < |again| < |steps|
    ensures steps[|before|] == Notes(Record(None)) && steps[|again|] == Tasks(Submit)
    ensures Books(Crash) !in steps[|before| + 1..|again|] && RecordCount(steps[|before| + 1..|again|]) == 0
  {
    var recorded := before + [Notes(Record(None))];
    assert recorded <= again <= steps;
    assert steps[|before|] == recorded[|before|];
    var between := steps[|before| + 1..|again|];
    forall i | 0 <= i < |between| ensures Calm(between[i]) {
      assert between[i] == again[|recorded| + i];
    }
    CalmCounts(between);
  }

  lemma RecordsLate(s: State)
    requires s.clock == 999 && s.lock.Some? && s.lock.value.m == LATE
    ensures Records(s, Notes(Record(None)), LATE) && Second(LATE) <= s.clock
  {
    LateSecond();
  }

  lemma SubmitsLate(u: State)
    requires u.lock.Some? && u.lock.value.m == LATE && u.pass.Some? && u.pass.value.oldest == 999
    ensures Submits(u, Tasks(Submit), LATE) && u.pass.value.oldest <= Second(LATE)
  {
    LateSecond();
  }

  /** Recorded after `before`, submitted again after `again`. */
  lemma TwiceResubmits(before: seq<Step>, s: State, again: seq<Step>, u: State, steps: seq<Step>)
    requires Exec(SLOW, before) == Some(s) && Exec(SLOW, again) == Some(u) && Exec(SLOW, steps).Some?
    requires Calmly(before + [Notes(Record(None))], again) && steps == again + [Tasks(Submit)]
    requires s.clock == 999 && s.lock.Some? && s.lock.value.m == LATE
    requires u.lock.Some? && u.lock.value.m == LATE && u.lock.value.task.Recovery?
    requires u.pass.Some? && u.pass.value.oldest == 999
    ensures Resubmits(SLOW, steps, |before|, |again|, LATE)
    ensures At(SLOW, steps, |again|) == u
  {
    Places(before, again, steps);
    AtPrefix(before, steps);
    AtPrefix(again, steps);
    RecordsLate(s);
    SubmitsLate(u);
  }

  /** The whole run: recorded at second 999, submitted again at 1001 + OVERLAP by a pass
      bounded by 1000. */
  lemma ProcessesTwice() returns (steps: seq<Step>, r: nat, k: nat)
    ensures Exec(SLOW, steps).Some? && Resubmits(SLOW, steps, r, k, LATE)
    ensures At(SLOW, steps, k).clock == At(SLOW, steps, k).link.began + OVERLAP + 1
  {
    LateSecond();
    var before, s := Processes();
    RecordOne();
    var recorded, t := Then(before, s, Notes(Record(None)));
    var again, u := ComesBack(recorded, t);
    var last;
    steps, last := Then(again, u, Tasks(Submit));
    r, k := |before|, |again|;
    TwiceResubmits(before, s, again, u, steps);
  }

  /** So the limit is exact over all runs. */
  lemma SafeExactlyWithinTheOverlap(d: int)
    ensures SafeFor(d) <==> d <= OVERLAP
  {
    if d <= OVERLAP {
      forall w: World, steps: seq<Step>, r: nat, k: nat, m: Msg
        | ValidWorld(w) && Exec(w, steps).Some? && Resubmits(w, steps, r, k, m)
        ensures At(w, steps, k).clock > At(w, steps, k).link.began + d
      {
        ResubmissionIsLate(w, steps, r, k, m);
      }
    } else {
      LateSecond();
      var steps, r, k := ProcessesTwice();
    }
  }
}

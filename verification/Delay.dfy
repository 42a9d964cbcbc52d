/** How long a recovery pass must wait before it asks history. The program asks at
    once, and finish_recovery then moves the checkpoint to the connection's start:
    messages of the last OVERLAP seconds before it, which history may not show yet
    and the stream does not carry, are lost when later heartbeats move on. */
module Delay {
  import opened Harvest
  import opened Snapshots
  import opened Protocol
  import opened Safety
  import opened Theorems

  /** Every pass starts at least `d` seconds after its connection began. */
  ghost predicate Patient(w: World, steps: seq<Step>, d: int)
    decreases |steps|
  {
    steps == [] ||
    var before, step := steps[..|steps| - 1], steps[|steps| - 1];
    && Patient(w, before, d)
    && (Exec(w, before).Some? && step.Passes? && step.p.Start? ==>
          Exec(w, before).value.clock >= Exec(w, before).value.link.began + d)
  }

  /** Soundness without exceptions. */
  ghost predicate FullySound(w: World, s: State) {
    forall m :: m in w.posted && (Claiming(s.store.mem, m) || Claiming(s.store.disk, m)) ==> DealtWith(w, s, m)
  }

  ghost predicate SoundWithDelay(d: int) {
    forall w: World, steps: seq<Step> :: ValidWorld(w) && Exec(w, steps).Some? && Patient(w, steps, d)
      ==> FullySound(w, Exec(w, steps).value)
  }

  ghost predicate NothingExposed(s: State) {
    s.exposed == iset{} && (s.pass.Some? ==> s.pass.value.query > s.link.began + OVERLAP)
  }

  lemma StepExposesNothing(w: World, s: State, step: Step)
    requires LinkOk(s) && NothingExposed(s) && Enabled(w, s, step)
    requires step.Passes? && step.p.Start? ==> s.clock > s.link.began + OVERLAP
    ensures NothingExposed(Apply(w, s, step))
  {
    match step
    case Wire(x) => WireExposesNothing(w, s, x);
    case Books(x) => BookExposesNothing(w, s, x);
    case Tasks(x) => TaskExposesNothing(w, s, x);
    case Notes(x) => NoteExposesNothing(w, s, x);
    case Passes(x) => PassExposesNothing(w, s, x);
  }

  lemma WireExposesNothing(w: World, s: State, step: WireStep)
    requires LinkOk(s) && NothingExposed(s) && WireEnabled(w, s, step)
    ensures NothingExposed(WireApply(w, s, step))
  {
  }

  lemma TaskExposesNothing(w: World, s: State, step: TaskStep)
    requires NothingExposed(s) && TaskEnabled(w, s, step)
    ensures NothingExposed(TaskApply(w, s, step))
  {
  }

  lemma NoteExposesNothing(w: World, s: State, step: NoteStep)
    requires NothingExposed(s) && NoteEnabled(w, s, step)
    ensures NothingExposed(NoteApply(w, s, step))
  {
  }

  lemma BookExposesNothing(w: World, s: State, step: BookStep)
    requires NothingExposed(s) && BookEnabled(w, s, step)
    ensures NothingExposed(BookApply(w, s, step))
  {
  }

  lemma PassExposesNothing(w: World, s: State, step: PassStep)
    requires NothingExposed(s) && PassEnabled(w, s, step)
    requires step.Start? ==> s.clock > s.link.began + OVERLAP
    ensures NothingExposed(PassApply(w, s, step))
  {
  }

  lemma {:induction false} PatienceExposesNothing(w: World, steps: seq<Step>, d: int)
    requires ValidWorld(w) && Exec(w, steps).Some? && Patient(w, steps, d) && d > OVERLAP
    ensures NothingExposed(Exec(w, steps).value)
    decreases |steps|
  {
    if steps != [] {
      var before := steps[..|steps| - 1];
      PatienceExposesNothing(w, before, d);
      EveryRun(w, before);
      StepExposesNothing(w, Exec(w, before).value, steps[|steps| - 1]);
    }
  }

  // ---------------------------------------------------------------- a run that loses one

  const LOST := Msg("C1", "1000")

  ghost const UNLUCKY: World := World(iset{LOST}, 86400, m => {}, false)

  /** Channel C1, no threads, empty duplicate log. */
  function Only(covered: int, recovering: bool): Snapshot {
    Snapshot(map["C1" := Channel(covered, map[], recovering, false)], [])
  }

  lemma LostSecond()
    ensures MessageTimestamp("1000") == Some(1000) && Second(LOST) == 1000
  {
    var ts := "1000";
    var dot := Find(ts, '.');
    assert dot == 4;
    assert ts[..4] == ts;
    assert ts[..3] == "100" && ts[..2] == "10" && ts[..1] == "1" && ts[..0] == "";
    assert "100"[..2] == "10" && "10"[..1] == "1" && "1"[..0] == "";
    assert Value("") == 0 && Value("1") == 1 && Value("10") == 10 && Value("100") == 100 && Value(ts) == 1000;
  }

  /** One more possible step. */
  lemma Then(w: World, steps: seq<Step>, step: Step, d: int)
    requires Exec(w, steps).Some? && Enabled(w, Exec(w, steps).value, step) && Patient(w, steps, d)
    requires step.Passes? && step.p.Start? ==> Exec(w, steps).value.clock >= Exec(w, steps).value.link.began + d
    ensures Exec(w, steps + [step]) == Some(Apply(w, Exec(w, steps).value, step)) && Patient(w, steps + [step], d)
  {
  }

  /** Memory with C1, an empty file, nothing submitted. */
  ghost function Scene(clock: int, snap: Snapshot, link: Link, pass: Option<Pass>, exposed: iset<Msg>): State {
    State(clock, Stores(Book(snap, map["C1" := 1]), None, Book(EMPTY, map[])), link, {"C1"}, None, pass,
          Work([], 0, {}, {}, {}), exposed)
  }

  lemma SetupConnects(d: int) returns (steps: seq<Step>)
    ensures Patient(UNLUCKY, steps, d)
    ensures Exec(UNLUCKY, steps) == Some(Scene(0, Only(0, false), CLOSED.(open := true, started := true), None, iset{}))
  {
    var w := UNLUCKY;
    steps := [];
    Then(w, steps, Wire(Connect), d);
    steps := steps + [Wire(Connect)];
    Then(w, steps, Wire(SetMembers({"C1"})), d);
    steps := steps + [Wire(SetMembers({"C1"}))];
    var s := Exec(w, steps).value;
    assert s == INIT.(link := CLOSED.(open := true), members := {"C1"});
    var order := ["C1"];
    assert Elements(order) == {"C1"};
    Then(w, steps, Books(Begin(order)), d);
    BeginOnly(s);
    steps := steps + [Books(Begin(order))];
  }

  lemma FirstBook()
    ensures BeginBook(Book(EMPTY, map[]), ["C1"], 0, 86400) == Book(Only(0, false), map["C1" := 1])
  {
  }

  lemma BeginOnly(s: State)
    requires s == INIT.(link := CLOSED.(open := true), members := {"C1"})
    requires BookEnabled(UNLUCKY, s, Begin(["C1"]))
    ensures BookApply(UNLUCKY, s, Begin(["C1"])) ==
      Scene(0, Only(0, false), CLOSED.(open := true, started := true), None, iset{})
  {
    FirstBook();
    assert BookApply(UNLUCKY, s, Begin(["C1"])).link.joined == map[];
  }

  lemma RejoinBook(b: Book)
    requires b == Book(Only(0, false), map["C1" := 1])
    ensures BeginBook(b, ["C1"], 1000, 86400) == Book(Only(0, true), map["C1" := 1])
  {
  }

  lemma RejoinOnly(s: State)
    requires s == Scene(1000, Only(0, false), CLOSED.(open := true, began := 1000), None, iset{})
    requires BookEnabled(UNLUCKY, s, Begin(["C1"]))
    ensures BookApply(UNLUCKY, s, Begin(["C1"]))
      == Scene(1000, Only(0, true), CLOSED.(open := true, began := 1000, started := true, joined := map["C1" := 0]),
        None, iset{})
  {
    RejoinBook(s.store.mem);
    assert BookApply(UNLUCKY, s, Begin(["C1"])).link.joined == map["C1" := 0];
  }

  lemma Reconnects(d: int) returns (steps: seq<Step>)
    ensures Patient(UNLUCKY, steps, d)
    ensures Exec(UNLUCKY, steps) == Some(Scene(1000, Only(0, true),
      CLOSED.(open := true, began := 1000, started := true, joined := map["C1" := 0]), None, iset{}))
  {
    var w := UNLUCKY;
    steps := SetupConnects(d);
    Then(w, steps, Wire(Disconnect), d);
    steps := steps + [Wire(Disconnect)];
    Then(w, steps, Wire(Tick(1000)), d);
    steps := steps + [Wire(Tick(1000))];
    Then(w, steps, Wire(Connect), d);
    steps := steps + [Wire(Connect)];
    var s := Exec(w, steps).value;
    assert s == Scene(1000, Only(0, false), CLOSED.(open := true, began := 1000), None, iset{});
    assert Elements(["C1"]) == {"C1"};
    Then(w, steps, Books(Begin(["C1"])), d);
    RejoinOnly(s);
    steps := steps + [Books(Begin(["C1"]))];
  }

  const REJOINED := CLOSED.(open := true, began := 1000, started := true, joined := map["C1" := 0], finished := {"C1"})

  lemma PassStarts(d: int) returns (steps: seq<Step>)
    requires d <= OVERLAP
    ensures Patient(UNLUCKY, steps, d) && Exec(UNLUCKY, steps).Some?
    ensures var q := 1000 + Max(d, 0);
      Exec(UNLUCKY, steps).value ==
        Scene(q, Only(0, true), REJOINED.(finished := {}), Some(Pass("C1", 0, q, {}, [], {}, None)), iset{})
  {
    var q := 1000 + Max(d, 0);
    steps := Reconnects(d);
    Then(UNLUCKY, steps, Wire(Tick(q)), d);
    steps := steps + [Wire(Tick(q))];
    Then(UNLUCKY, steps, Passes(Start("C1")), d);
    steps := steps + [Passes(Start("C1"))];
    assert WithFailed(Only(0, true), "C1", false) == Only(0, true);
  }

  lemma FinishOnly(s: State, q: int)
    requires 1000 <= q <= 1000 + OVERLAP
    requires s == Scene(q, Only(0, true), REJOINED.(finished := {}), Some(Pass("C1", 0, q, {}, [], {}, None)), iset{})
    ensures PassEnabled(UNLUCKY, s, Finish)
    ensures PassApply(UNLUCKY, s, Finish) == Scene(q, Only(1000, false), REJOINED, None, iset{LOST})
  {
    LostSecond();
    assert FinishRecovery(Only(0, true), "C1", 1000) == Only(1000, false);
    assert Missed(UNLUCKY, s.pass.value, 1000) == iset{LOST};
  }

  /** The pass, `d` seconds after the connection began: history need not show LOST. */
  lemma PassFinishes(d: int) returns (steps: seq<Step>)
    requires d <= OVERLAP
    ensures Patient(UNLUCKY, steps, d) && Exec(UNLUCKY, steps).Some?
    ensures Exec(UNLUCKY, steps).value == Scene(1000 + Max(d, 0), Only(1000, false), REJOINED, None, iset{LOST})
  {
    steps := PassStarts(d);
    FinishOnly(Exec(UNLUCKY, steps).value, 1000 + Max(d, 0));
    Then(UNLUCKY, steps, Passes(Finish), d);
    steps := steps + [Passes(Finish)];
  }

  lemma PongArrives(d: int) returns (steps: seq<Step>)
    requires d <= OVERLAP
    ensures Patient(UNLUCKY, steps, d) && Exec(UNLUCKY, steps).Some?
    ensures Exec(UNLUCKY, steps).value ==
      Scene(2000, Only(1000, false), REJOINED.(read := [Barrier(2000)]), None, iset{LOST})
  {
    LostSecond();
    steps := PassFinishes(d);
    Then(UNLUCKY, steps, Wire(Tick(2000)), d);
    steps := steps + [Wire(Tick(2000))];
    Then(UNLUCKY, steps, Wire(Ping), d);
    steps := steps + [Wire(Ping)];
    Then(UNLUCKY, steps, Wire(Pong), d);
    steps := steps + [Wire(Pong)];
  }

  lemma AdvanceOnly()
    ensures Checkpoint(Only(1000, false), 2000, 2000, 86400) == Only(2000, false)
  {
  }

  lemma HeartbeatMovesOn(d: int) returns (steps: seq<Step>)
    requires d <= OVERLAP
    ensures Patient(UNLUCKY, steps, d) && Exec(UNLUCKY, steps).Some?
    ensures Exec(UNLUCKY, steps).value.store.mem == Book(Only(2000, false), map["C1" := 1])
    ensures Exec(UNLUCKY, steps).value.work == Work([], 0, {}, {}, {})
  {
    steps := PongArrives(d);
    Then(UNLUCKY, steps, Wire(Take), d);
    steps := steps + [Wire(Take)];
    Then(UNLUCKY, steps, Books(TakeBarrier), d);
    steps := steps + [Books(TakeBarrier)];
    AdvanceOnly();
  }

  /** The claim, read without exceptions, holds of every run exactly when passes wait
      out the overlap. */
  lemma SoundExactlyWhenPassesWait(d: int)
    ensures SoundWithDelay(d) <==> d > OVERLAP
  {
    if d > OVERLAP {
      forall w: World, steps: seq<Step> | ValidWorld(w) && Exec(w, steps).Some? && Patient(w, steps, d)
        ensures FullySound(w, Exec(w, steps).value)
      {
        WaitingIsEnough(w, steps, d);
      }
    } else {
      LostSecond();
      var steps := HeartbeatMovesOn(d);
      assert !FullySound(UNLUCKY, Exec(UNLUCKY, steps).value) by {
        var s := Exec(UNLUCKY, steps).value;
        assert Claiming(s.store.mem, LOST) && !DealtWith(UNLUCKY, s, LOST);
      }
    }
  }

  lemma {:induction false} WaitingIsEnough(w: World, steps: seq<Step>, d: int)
    requires ValidWorld(w) && Exec(w, steps).Some? && Patient(w, steps, d) && d > OVERLAP
    ensures FullySound(w, Exec(w, steps).value)
  {
    PatienceExposesNothing(w, steps, d);
    forall m | m in w.posted ensures
      (Claiming(Exec(w, steps).value.store.mem, m) || Claiming(Exec(w, steps).value.store.disk, m))
      ==> DealtWith(w, Exec(w, steps).value, m)
    {
      CheckpointsAreSound(w, steps, m);
    }
  }
}

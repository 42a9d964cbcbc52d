/** The user session as a step machine: the socket reader, the consumer of its queue,
    the recovery loop, the message worker, saving, reconnecting and crashing, in any
    interleaving (src/slackbot/user_session.rs, user_session/recovery.rs).

    `World.posted` is fixed for the whole run: every channel-level message posted
    while the account was in the channel, past and future. What Slack promises about
    it appears as the guards `StreamDelivered` and `HistoryReturned` of the steps at
    which the program relies on it. */
module Protocol {
  import opened Harvest
  import opened Snapshots

  const QUEUE_BOUND: nat := 256

  ghost const EMPTY: Snapshot := Snapshot(map[], [])

  /** `urls(m)` are the URLs of `m` that the URL filter lets through whenever asked. */
  datatype World = World(posted: iset<Msg>, window: int, urls: Msg -> set<string>, dryRun: bool)

  ghost predicate ValidWorld(w: World) {
    w.window >= 1 && forall m :: m in w.posted ==> MessageTimestamp(m.ts).Some?
  }

  function Second(m: Msg): int {
    var t := MessageTimestamp(m.ts);
    if t.Some? then t.value else -1
  }

  /** Store data with the claim that goes with it: for each channel, the earliest
      second the program has ever undertaken to cover. */
  datatype Book = Book(snap: Snapshot, floor: map<string, int>)

  datatype Event = Posted(m: Msg) | Roster | Barrier(at: int)

  /** One websocket connection: `read` is everything the reader has queued on it,
      `taken` how much of that the consumer has received, `busy` what it is handling.
      `joined` records the checkpoints of the channels known at the connection's
      start, `finished` the channels whose recovery pass has succeeded since. */
  datatype Link = Link(
    open: bool, began: int, started: bool, read: seq<Event>, taken: nat, busy: Option<Event>,
    broken: bool, ping: Option<int>, joined: map<string, int>, finished: set<string>)

  const CLOSED := Link(false, 0, false, [], 0, None, false, None, map[], {})

  datatype Task = Live | Recovery

  /** Where the holder of the `processing` lock stands. */
  datatype Phase = Entered | Unseen | Waiting(job: nat)

  datatype Holder = Holder(task: Task, m: Msg, phase: Phase)

  /** A recovery pass: what history has shown it in its range so far, what of the
      current page is still to be processed, what has been processed successfully, and
      the message in hand. */
  datatype Pass = Pass(
    channel: string, oldest: int, query: int,
    returned: set<Msg>, pending: seq<Msg>, handled: set<Msg>, current: Option<Msg>)

  datatype Job = Job(m: Msg, receipt: Option<bool>)

  /** The store in memory, a save in progress, and the file. */
  datatype Stores = Stores(mem: Book, saving: Option<Book>, disk: Book)

  /** Everything submitted to the worker, of which it has answered the first `head`;
      the messages it answered `true`, those a filter discarded, and the rows in the
      database. */
  datatype Work = Work(jobs: seq<Job>, head: nat, acked: set<Msg>, filtered: set<Msg>, rows: set<(Msg, string)>)

  datatype State = State(
    clock: int, store: Stores, link: Link, members: set<string>, lock: Option<Holder>, pass: Option<Pass>,
    work: Work, exposed: iset<Msg>)

  ghost const INIT := State(0, Stores(Book(EMPTY, map[]), None, Book(EMPTY, map[])),
    CLOSED, {}, None, None, Work([], 0, {}, {}, {}), iset{})

  /** The socket, its reader and the consumer's end of the queue. */
  datatype WireStep =
    | Tick(t: int) | Connect | Disconnect
    | Receive(e: Event) | Ping | Pong
    | SetMembers(ids: set<string>)
    | Take | TakeRoster | DropForeign | Break

  /** Whole-store operations, saving, and the loss of the process. */
  datatype BookStep =
    | Begin(order: seq<string>) | Add(id: string) | TakeBarrier
    | SaveStart | SaveCommit | SaveAbort | Crash

  /** `process` on one message, and the worker that answers it. */
  datatype TaskStep =
    | Enter(task: Task) | Filter | Duplicate | Check | Submit
    | Answer(ok: bool, inserted: set<string>)

  /** What `process` writes to the store. */
  datatype NoteStep = Remember(parent: string) | Record(thread: Option<string>) | Fail

  /** The recovery loop: a pass starts, history shows it a page, it takes the next message
      of the page, drops a thread that no longer exists, and finishes, or gives up. */
  datatype PassStep = Start(id: string) | Page(messages: seq<Msg>) | Item | Forget(ts: string) | Finish | Abort

  datatype Step = Wire(w: WireStep) | Books(b: BookStep) | Tasks(t: TaskStep) | Notes(n: NoteStep) | Passes(p: PassStep)

  // --------------------------------------------------------- the environment's promises

  /** A message stamped after the connection began, and more than OVERLAP seconds
      before a ping's recorded time, arrives before the pong. */
  ghost predicate StreamDelivered(w: World, link: Link, at: int) {
    forall m :: m in w.posted && link.began < Second(m) < at - OVERLAP ==> Posted(m) in link.read
  }

  /** A message of the requested range that history owes to a query made at `query`. */
  ghost predicate Owed(w: World, m: Msg, id: string, oldest: int, through: int, query: int) {
    m in w.posted && m.channel == id && oldest <= Second(m) <= through && Second(m) < query - OVERLAP
  }

  /** By the last page, history has shown every message of the requested range that was
      posted more than OVERLAP seconds before the query. */
  ghost predicate HistoryReturned(w: World, p: Pass, through: int) {
    forall m :: Owed(w, m, p.channel, p.oldest, through, p.query) ==> m in p.returned
  }

  /** What a pass may miss within that promise. */
  ghost function Missed(w: World, p: Pass, through: int): iset<Msg> {
    iset m | m in w.posted && m.channel == p.channel && p.oldest <= Second(m) <= through
      && p.query - OVERLAP <= Second(m) && m !in p.returned
  }

  // ---------------------------------------------------------------------- the steps

  /** The consumer may act. */
  predicate LiveNext(l: Link) { l.open && l.started && !l.broken }

  predicate HasRoom(l: Link) { |l.read| < l.taken + QUEUE_BOUND }

  predicate AtMessage(l: Link) { LiveNext(l) && l.busy.Some? && l.busy.value.Posted? }

  predicate LiveLocked(s: State) { s.lock.Some? && s.lock.value.task.Live? }

  /** Every message of the pages so far has been processed successfully. */
  predicate BetweenPages(s: State) { s.pass.Some? && s.pass.value.current.None? && s.pass.value.pending == [] }

  predicate Holds(s: State) {
    s.lock.Some? && (s.lock.value.task.Recovery? ==> s.pass.Some?)
  }

  ghost predicate WireEnabled(w: World, s: State, step: WireStep) {
    match step
    case Tick(t) => t >= s.clock
    case Connect => !s.link.open
    case Disconnect => s.link.open
    case Receive(e) => s.link.open && !e.Barrier? && HasRoom(s.link)
    case Ping => s.link.open && s.link.ping.None?
    case Pong => s.link.open && s.link.ping.Some? && HasRoom(s.link) && StreamDelivered(w, s.link, s.link.ping.value)
    case SetMembers(ids) => s.link.open && |ids| <= MAX_CHANNELS && forall id :: id in ids ==> ValidId(id)
    case Take => LiveNext(s.link) && s.link.busy.None? && s.link.taken < |s.link.read|
    case TakeRoster => LiveNext(s.link) && s.link.busy == Some(Roster)
    case DropForeign => AtMessage(s.link) && s.link.busy.value.m.channel !in s.members && !LiveLocked(s)
    case Break => LiveNext(s.link) && s.link.busy.Some? && !LiveLocked(s)
  }

  ghost predicate BookEnabled(w: World, s: State, step: BookStep) {
    match step
    case Begin(order) => s.link.open && !s.link.started && Distinct(order) && Elements(order) == s.members
                         && |s.members| <= MAX_CHANNELS && forall id :: id in s.members ==> ValidId(id)
    case Add(id) => LiveNext(s.link) && id in s.members && Joinable(s.store.mem.snap.channels, id)
    case TakeBarrier => LiveNext(s.link) && s.link.busy.Some? && s.link.busy.value.Barrier?
    case SaveStart => s.store.saving.None?
    case SaveCommit => s.store.saving.Some?
    case SaveAbort => s.store.saving.Some?
    case Crash => true
  }

  ghost predicate TaskEnabled(w: World, s: State, step: TaskStep) {
    match step
    case Enter(task) =>
      && s.lock.None?
      && if task.Live? then AtMessage(s.link) && s.link.busy.value.m.channel in s.members
         else s.pass.Some? && s.pass.value.current.Some?
    case Filter => Holds(s) && !s.lock.value.phase.Waiting?
    case Duplicate => Holds(s) && s.lock.value.phase.Entered? && s.lock.value.m in SeenMsgs(s.store.mem.snap.seen)
    case Check => Holds(s) && s.lock.value.phase.Entered? && s.lock.value.m !in SeenMsgs(s.store.mem.snap.seen)
                  && ValidId(s.lock.value.m.channel) && ValidTs(s.lock.value.m.ts)
    case Submit => Holds(s) && s.lock.value.phase.Unseen?
    case Answer(ok, inserted) =>
      s.work.head < |s.work.jobs| && (ok && !w.dryRun ==> w.urls(s.work.jobs[s.work.head].m) <= inserted)
  }

  ghost predicate NoteEnabled(w: World, s: State, step: NoteStep) {
    match step
    case Remember(parent) => Holds(s) && s.lock.value.phase.Entered?
    case Record(thread) => Holds(s) && s.lock.value.phase.Waiting? && s.lock.value.phase.job < |s.work.jobs|
                           && s.work.jobs[s.lock.value.phase.job].receipt == Some(true)
    case Fail => Holds(s) && !s.lock.value.phase.Entered?
  }

  ghost predicate PassEnabled(w: World, s: State, step: PassStep) {
    match step
    case Start(id) => s.link.open && s.link.started && s.pass.None? && id in s.members
                      && id in s.store.mem.snap.channels && s.store.mem.snap.channels[id].recovering
    case Page(messages) => BetweenPages(s) && forall m :: m in messages ==>
      m.channel == s.pass.value.channel && s.pass.value.oldest <= Second(m) <= s.link.began
    case Item => s.pass.Some? && s.pass.value.current.None? && s.pass.value.pending != []
    case Forget(ts) => BetweenPages(s)
    case Finish => BetweenPages(s) && HistoryReturned(w, s.pass.value, s.link.began)
    case Abort => s.pass.Some? && s.pass.value.current.None?
  }

  ghost predicate Enabled(w: World, s: State, step: Step) {
    match step
    case Wire(x) => WireEnabled(w, s, x)
    case Books(x) => BookEnabled(w, s, x)
    case Tasks(x) => TaskEnabled(w, s, x)
    case Notes(x) => NoteEnabled(w, s, x)
    case Passes(x) => PassEnabled(w, s, x)
  }

  ghost function SetMem(s: State, b: Book): State { s.(store := s.store.(mem := b)) }

  ghost function SetSnap(s: State, snap: Snapshot): State { SetMem(s, s.store.mem.(snap := snap)) }

  function Discard(s: State, m: Msg): State {
    s.(work := s.work.(filtered := s.work.filtered + {m}))
  }

  /** `process` returns Ok: the lock is released and its caller moves on. */
  ghost function TaskDone(s: State): State
    requires Holds(s)
  {
    if s.lock.value.task.Live? then s.(lock := None, link := s.link.(busy := None))
    else
      var p := s.pass.value;
      s.(lock := None, pass := Some(p.(handled := p.handled + {s.lock.value.m}, current := None)))
  }

  /** The floor after the window has been applied to a checkpoint at `covered`. */
  function RaisedFloor(floor: int, covered: int, began: int, window: int): int {
    if covered - OVERLAP < began - window then Max(floor, began - window) else floor
  }

  ghost function BeginBook(b: Book, order: seq<string>, began: int, window: int): Book {
    Book(BeginConnection(b.snap, order, began, window).0,
         map id | id in order :: if id in b.floor && id in b.snap.channels
                                 then RaisedFloor(b.floor[id], b.snap.channels[id].covered, began, window)
                                 else began + 1)
  }

  /** The checkpoints that known channels start a connection with. */
  function JoinedFrom(channels: map<string, Channel>, order: seq<string>, began: int, window: int): map<string, int> {
    map id | id in order && id in channels :: Max(channels[id].covered, began - window)
  }

  ghost function AddBook(b: Book, id: string, at: int, began: int): Book {
    Book(AddChannel(b.snap, id, at).0, if id in b.snap.channels then b.floor else b.floor[id := Max(at, began + 1)])
  }

  ghost function WireApply(w: World, s: State, step: WireStep): State
    requires WireEnabled(w, s, step)
  {
    match step
    case Tick(t) => s.(clock := t)
    case Connect => s.(link := CLOSED.(open := true, began := s.clock))
    case Disconnect => s.(link := CLOSED, lock := None, pass := None)
    case Receive(e) => s.(link := s.link.(read := s.link.read + [e]))
    case Ping => s.(link := s.link.(ping := Some(s.clock)))
    case Pong => s.(link := s.link.(read := s.link.read + [Barrier(s.link.ping.value)], ping := None))
    case SetMembers(ids) => s.(members := ids)
    case Take => s.(link := s.link.(busy := Some(s.link.read[s.link.taken]), taken := s.link.taken + 1))
    case TakeRoster => s.(link := s.link.(busy := None))
    case DropForeign => Discard(s, s.link.busy.value.m).(link := s.link.(busy := None))
    case Break => s.(link := s.link.(broken := true))
  }

  ghost function BookApply(w: World, s: State, step: BookStep): State
    requires BookEnabled(w, s, step)
  {
    match step
    case Begin(order) =>
      SetMem(s, BeginBook(s.store.mem, order, s.link.began, w.window)).(link := s.link.(started := true,
        joined := JoinedFrom(s.store.mem.snap.channels, order, s.link.began, w.window)))
    case Add(id) => SetMem(s, AddBook(s.store.mem, id, s.clock, s.link.began))
    case TakeBarrier => SetSnap(s, Checkpoint(s.store.mem.snap, s.link.busy.value.at, s.clock, w.window))
                          .(link := s.link.(busy := None))
    case SaveStart => s.(store := s.store.(saving := Some(s.store.mem.(snap := Persisted(s.store.mem.snap)))))
    case SaveCommit => s.(store := s.store.(disk := s.store.saving.value, saving := None))
    case SaveAbort => s.(store := s.store.(saving := None))
    case Crash => 
      var lost := SetMem(s, s.store.disk);
      lost.(store := lost.store.(saving := None), link := CLOSED, members := {}, lock := None, pass := None,
            work := s.work.(head := |s.work.jobs|))
  }

  ghost function TaskApply(w: World, s: State, step: TaskStep): State
    requires TaskEnabled(w, s, step)
  {
    match step
    case Enter(task) =>
      var m := if task.Live? then s.link.busy.value.m else s.pass.value.current.value;
      s.(lock := Some(Holder(task, m, Entered)))
    case Filter => Discard(TaskDone(s), s.lock.value.m)
    case Duplicate => TaskDone(s)
    case Check => s.(lock := Some(s.lock.value.(phase := Unseen)))
    case Submit => s.(work := s.work.(jobs := s.work.jobs + [Job(s.lock.value.m, None)]),
                      lock := Some(s.lock.value.(phase := Waiting(|s.work.jobs|))))
    case Answer(ok, inserted) =>
      var m := s.work.jobs[s.work.head].m;
      s.(work := s.work.(
        jobs := s.work.jobs[s.work.head := s.work.jobs[s.work.head].(receipt := Some(ok))], head := s.work.head + 1,
        acked := if ok then s.work.acked + {m} else s.work.acked,
        rows := s.work.rows + set u | u in inserted :: (m, u)))
  }

  ghost function NoteApply(w: World, s: State, step: NoteStep): State
    requires NoteEnabled(w, s, step)
  {
    match step
    case Remember(parent) =>
      SetSnap(s, RememberThread(s.store.mem.snap, s.lock.value.m.channel, parent, s.clock, w.window))
    case Record(thread) =>
      SetSnap(TaskDone(s), Processed(s.store.mem.snap, s.lock.value.m, thread, s.clock, w.window))
    case Fail =>
      var f := SetSnap(s, WithFailed(s.store.mem.snap, s.lock.value.m.channel, true)).(lock := None);
      if s.lock.value.task.Live? then f.(link := s.link.(broken := true)) else f.(pass := None)
  }

  ghost function PassApply(w: World, s: State, step: PassStep): State
    requires PassEnabled(w, s, step)
  {
    match step
    case Start(id) =>
      var oldest := RecoverFrom(s.store.mem.snap.channels[id].covered, s.link.began, w.window);
      SetSnap(s, WithFailed(s.store.mem.snap, id, false)).(pass := Some(Pass(id, oldest, s.clock, {}, [], {}, None)))
    case Page(messages) =>
      s.(pass := Some(s.pass.value.(returned := s.pass.value.returned + Elements(messages), pending := messages)))
    case Item =>
      s.(pass := Some(s.pass.value.(current := Some(s.pass.value.pending[0]), pending := s.pass.value.pending[1..])))
    case Forget(ts) => SetSnap(s, ForgetThread(s.store.mem.snap, s.pass.value.channel, ts))
    case Finish =>
      var id := s.pass.value.channel;
      var ok := id in s.store.mem.snap.channels && !s.store.mem.snap.channels[id].failed;
      SetSnap(s, FinishRecovery(s.store.mem.snap, id, s.link.began))
        .(pass := None, link := s.link.(finished := if ok then s.link.finished + {id} else s.link.finished),
          exposed := s.exposed + Missed(w, s.pass.value, s.link.began))
    case Abort => s.(pass := None)
  }

  ghost function Apply(w: World, s: State, step: Step): State
    requires Enabled(w, s, step)
  {
    match step
    case Wire(x) => WireApply(w, s, x)
    case Books(x) => BookApply(w, s, x)
    case Tasks(x) => TaskApply(w, s, x)
    case Notes(x) => NoteApply(w, s, x)
    case Passes(x) => PassApply(w, s, x)
  }

  /** The state after a sequence of steps, if each was possible in turn. */
  ghost function Exec(w: World, steps: seq<Step>): Option<State>
    decreases |steps|
  {
    if steps == [] then Some(INIT)
    else
      var before := Exec(w, steps[..|steps| - 1]);
      var step := steps[|steps| - 1];
      if before.Some? && Enabled(w, before.value, step) then Some(Apply(w, before.value, step)) else None
  }
}

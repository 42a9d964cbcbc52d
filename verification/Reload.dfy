/** Whatever the bot saves it can load again: the limits checked by `Store::open`
    and the size limit checked by `Store::save`. */
module Reload {
  import opened Harvest
  import opened Snapshots
  import opened StateFile
  import opened Protocol
  import opened Safety

  // ---------------------------------------------------------- limits kept by every step

  ghost predicate ChannelsOk(channels: map<string, Channel>, t: int) {
    && |channels| <= MAX_CHANNELS
    && forall id :: id in channels ==>
         ValidId(id) && forall ts :: ts in channels[id].threads ==> ValidTs(ts) && 0 <= channels[id].threads[ts] <= t
  }

  ghost predicate SeenEntriesOk(seen: seq<Seen>, t: int) {
    forall e :: e in seen ==> ValidId(e.channel) && ValidTs(e.ts) && 0 <= e.at <= t
  }

  ghost predicate CapsOk(s: Snapshot, t: int) {
    && ChannelsOk(s.channels, t) && SeenEntriesOk(s.seen, t)
    && |Threads(s.channels)| <= MAX_THREADS && |s.seen| <= MAX_SEEN
  }

  ghost predicate AllCapsOk(s: State) {
    && CapsOk(s.store.mem.snap, s.clock)
    && CapsOk(s.store.disk.snap, s.clock)
    && (s.store.saving.Some? ==> CapsOk(s.store.saving.value.snap, s.clock))
  }

  lemma PruneRestoresCaps(s: Snapshot, at: int, window: int, t: int)
    requires ChannelsOk(s.channels, t) && SeenEntriesOk(s.seen, t)
    ensures CapsOk(Prune(s, at, window), t)
  {
    var p := Prune(s, at, window);
    ThreadsOfOnly(s.channels, Newest(Fresh(s.channels, at - window), MAX_THREADS));
    SubsetSize(Threads(p.channels), Newest(Fresh(s.channels, at - window), MAX_THREADS));
    assert |p.channels.Keys| == |s.channels.Keys|;
    var kept := Retained(s.seen, at - window - OVERLAP);
    assert forall e :: e in LastN(kept, MAX_SEEN) ==> e in kept;
  }

  /** Only checkpoints and flags differ. */
  ghost predicate SameThreads(a: map<string, Channel>, b: map<string, Channel>) {
    a.Keys == b.Keys && forall id :: id in a ==> a[id].threads == b[id].threads
  }

  lemma SameThreadsSameCaps(a: Snapshot, b: Snapshot, t: int)
    requires SameThreads(a.channels, b.channels) && a.seen == b.seen
    ensures ChannelsOk(a.channels, t) ==> ChannelsOk(b.channels, t)
    ensures CapsOk(a, t) ==> CapsOk(b, t)
  {
    assert |a.channels.Keys| == |b.channels.Keys|;
    assert Threads(a.channels) == Threads(b.channels);
  }

  lemma WithThreadKeeps(s: Snapshot, id: string, parent: string, at: int)
    requires ChannelsOk(s.channels, at) && at >= 0
    ensures ChannelsOk(WithThread(s, id, parent, at).channels, at) && WithThread(s, id, parent, at).seen == s.seen
  {
  }

  lemma WireKeepsCaps(w: World, s: State, step: WireStep)
    requires AllCapsOk(s) && WireEnabled(w, s, step)
    ensures AllCapsOk(WireApply(w, s, step))
  {
  }

  lemma RememberKeepsCaps(s: Snapshot, id: string, parent: string, at: int, window: int)
    requires CapsOk(s, at) && at >= 0
    ensures CapsOk(RememberThread(s, id, parent, at, window), at)
  {
    WithThreadKeeps(s, id, parent, at);
    PruneRestoresCaps(WithThread(s, id, parent, at), at, window, at);
  }

  lemma ProcessedKeepsCaps(s: Snapshot, m: Msg, thread: Option<string>, at: int, window: int)
    requires CapsOk(s, at) && at >= 0 && ValidId(m.channel) && ValidTs(m.ts)
    ensures CapsOk(Processed(s, m, thread, at, window), at)
  {
    var t := s.(seen := s.seen + [Seen(m.channel, m.ts, at)]);
    if thread.Some? {
      WithThreadKeeps(t, m.channel, thread.value, at);
    }
    PruneRestoresCaps(if thread.Some? then WithThread(t, m.channel, thread.value, at) else t, at, window, at);
  }

  lemma NoteKeepsCaps(w: World, s: State, step: NoteStep)
    requires LockOk(s) && 0 <= s.clock && AllCapsOk(s) && NoteEnabled(w, s, step)
    ensures AllCapsOk(NoteApply(w, s, step))
  {
    var snap := s.store.mem.snap;
    var m := s.lock.value.m;
    match step
    case Remember(parent) => RememberKeepsCaps(snap, m.channel, parent, s.clock, w.window);
    case Record(thread) => ProcessedKeepsCaps(snap, m, thread, s.clock, w.window);
    case Fail => SameThreadsSameCaps(snap, WithFailed(snap, m.channel, true), s.clock);
  }

  lemma PassLeavesThreads(w: World, s: State, step: PassStep)
    requires PassEnabled(w, s, step) && !step.Forget?
    ensures var t := PassApply(w, s, step);
      && t.clock == s.clock && t.store.disk == s.store.disk && t.store.saving == s.store.saving
      && SameThreads(s.store.mem.snap.channels, t.store.mem.snap.channels)
      && t.store.mem.snap.seen == s.store.mem.snap.seen
  {
  }

  lemma ForgetKeepsCaps(s: Snapshot, id: string, ts: string, t: int)
    requires CapsOk(s, t)
    ensures CapsOk(ForgetThread(s, id, ts), t)
  {
    var r := ForgetThread(s, id, ts);
    assert |r.channels.Keys| == |s.channels.Keys|;
    SubsetSize(Threads(r.channels), Threads(s.channels));
  }

  lemma PassKeepsCaps(w: World, s: State, step: PassStep)
    requires AllCapsOk(s) && PassEnabled(w, s, step)
    ensures AllCapsOk(PassApply(w, s, step))
  {
    if step.Forget? {
      ForgetKeepsCaps(s.store.mem.snap, s.pass.value.channel, step.ts, s.clock);
    } else {
      PassLeavesThreads(w, s, step);
      SameThreadsSameCaps(s.store.mem.snap, PassApply(w, s, step).store.mem.snap, s.clock);
    }
  }

  lemma JoinKeepsThreads(b: Book, order: seq<string>, at: int, window: int, t: int)
    requires ChannelsOk(b.snap.channels, t)
    requires Distinct(order) && |Elements(order)| <= MAX_CHANNELS && forall id :: id in Elements(order) ==> ValidId(id)
    ensures ChannelsOk(JoinAll(Kept(b.snap.channels, order), order, at, window).0, t)
  {
    JoinAllIsPointwise(b.snap.channels, order, at, window);
    assert |JoinAll(Kept(b.snap.channels, order), order, at, window).0.Keys| == |Elements(order)|;
  }

  lemma BeginKeepsCaps(b: Book, order: seq<string>, at: int, window: int, t: int)
    requires CapsOk(b.snap, t) && b.floor.Keys == b.snap.channels.Keys && window >= 1
    requires Distinct(order) && |Elements(order)| <= MAX_CHANNELS && forall id :: id in Elements(order) ==> ValidId(id)
    ensures CapsOk(BeginBook(b, order, at, window).snap, t)
  {
    JoinKeepsThreads(b, order, at, window, t);
    BeginFacts(b, order, Elements(order), at, window);
    PruneRestoresCaps(Snapshot(JoinAll(Kept(b.snap.channels, order), order, at, window).0, b.snap.seen), at, window, t);
  }

  lemma CheckpointKeepsCaps(s: Snapshot, through: int, at: int, window: int)
    requires CapsOk(s, at)
    ensures CapsOk(Checkpoint(s, through, at, window), at)
  {
    var t := s.(channels := Advanced(s.channels, through));
    SameThreadsSameCaps(s, t, at);
    PruneRestoresCaps(t, at, window, at);
  }

  lemma BookKeepsCaps(w: World, s: State, step: BookStep)
    requires ValidWorld(w) && Claims(w, s) && AllCapsOk(s) && BookEnabled(w, s, step)
    ensures AllCapsOk(BookApply(w, s, step))
  {
    match step
    case Begin(order) => BeginKeepsCaps(s.store.mem, order, s.link.began, w.window, s.clock);
    case Add(id) => AddKeepsCaps(s.store.mem.snap, id, s.clock);
    case TakeBarrier => CheckpointKeepsCaps(s.store.mem.snap, s.link.busy.value.at, s.clock, w.window);
    case SaveStart => SameThreadsSameCaps(s.store.mem.snap, Persisted(s.store.mem.snap), s.clock);
    case _ =>
  }

  lemma AddKeepsThreads(channels: map<string, Channel>, id: string, at: int)
    requires id !in channels
    ensures Threads(channels[id := NewChannel(at)]) == Threads(channels)
    ensures |channels[id := NewChannel(at)]| == |channels| + 1
  {
    var r := channels[id := NewChannel(at)];
    assert r.Keys == channels.Keys + {id} && |r.Keys| == |r| && |channels.Keys| == |channels|;
    forall t | t in Threads(channels) ensures t in Threads(r) {
      assert t.channel in r && t.ts in r[t.channel].threads;
    }
  }

  lemma AddKeepsCaps(s: Snapshot, id: string, at: int)
    requires CapsOk(s, at) && Joinable(s.channels, id)
    ensures CapsOk(AddChannel(s, id, at).0, at)
  {
    if id !in s.channels {
      AddKeepsThreads(s.channels, id, at);
    }
  }

  // --------------------------------------------------------------------- the file's size

  function Pow10(k: nat): nat { if k == 0 then 1 else 10 * Pow10(k - 1) }

  lemma {:induction false} DecimalLength(n: nat, digits: nat)
    requires n < Pow10(digits) && digits > 0
    ensures |Decimal(n)| <= digits
  {
    if n >= 10 {
      DecimalLength(n / 10, digits - 1);
    }
  }

  function Quoted(s: string): string { "\"" + s + "\"" }

  function Commas(items: seq<string>): string {
    if items == [] then "" else if |items| == 1 then items[0] else items[0] + "," + Commas(items[1..])
  }

  lemma {:induction false} CommasLength(items: seq<string>, k: nat)
    requires forall i :: 0 <= i < |items| ==> |items[i]| < k
    ensures |Commas(items)| <= |items| * k
  {
    if |items| > 1 {
      CommasLength(items[1..], k);
    }
  }

  /** serde_json's compact text; identifiers and timestamps need no escapes, and
      `order` is whatever order the map is written in. */
  ghost function ThreadTexts(threads: map<string, int>, order: seq<string>): seq<string>
    requires forall ts :: ts in order ==> ts in threads && threads[ts] >= 0
  {
    seq(|order|, i requires 0 <= i < |order| => Quoted(order[i]) + ":" + Decimal(threads[order[i]]))
  }

  ghost predicate Lists(order: seq<string>, keys: set<string>) { Distinct(order) && Elements(order) == keys }

  ghost function ChannelText(id: string, c: Channel, order: seq<string>): string
    requires c.covered >= 0 && Elements(order) <= c.threads.Keys && forall ts :: ts in c.threads ==> c.threads[ts] >= 0
  {
    assert forall ts :: ts in order ==> ts in Elements(order);
    Quoted(id) + ":{\"covered_until\":" + Decimal(c.covered)
      + ",\"threads\":{" + Commas(ThreadTexts(c.threads, order)) + "}}"
  }

  ghost predicate Enumerates(orders: map<string, seq<string>>, channels: map<string, Channel>, t: int) {
    forall id :: id in channels ==>
      && id in orders && Lists(orders[id], channels[id].threads.Keys)
      && 0 <= channels[id].covered <= t
      && forall ts :: ts in channels[id].threads ==> 0 <= channels[id].threads[ts] <= t
  }

  ghost function ChannelTexts(channels: map<string, Channel>, ids: seq<string>, orders: map<string, seq<string>>,
                              t: int): seq<string>
    requires (forall id :: id in ids ==> id in channels) && Enumerates(orders, channels, t)
  {
    if ids == [] then []
    else
      assert ids[0] in ids;
      [ChannelText(ids[0], channels[ids[0]], orders[ids[0]])] + ChannelTexts(channels, ids[1..], orders, t)
  }

  function SeenText(e: Seen): string
    requires e.at >= 0
  {
    "{\"channel\":" + Quoted(e.channel) + ",\"ts\":" + Quoted(e.ts) + ",\"processed_at\":" + Decimal(e.at) + "}"
  }

  ghost function SeenTexts(seen: seq<Seen>): seq<string>
    requires forall e :: e in seen ==> e.at >= 0
  {
    seq(|seen|, i requires 0 <= i < |seen| => SeenText(seen[i]))
  }

  ghost function FileText(f: File, ids: seq<string>, orders: map<string, seq<string>>, t: int): string
    requires (forall id :: id in ids ==> id in f.snap.channels) && Enumerates(orders, f.snap.channels, t)
    requires forall e :: e in f.snap.seen ==> e.at >= 0
  {
    "{\"version\":" + Decimal(f.version) + ",\"team\":" + Quoted(f.team) + ",\"user\":" + Quoted(f.user)
      + ",\"channels\":{" + Commas(ChannelTexts(f.snap.channels, ids, orders, t))
      + "},\"seen\":[" + Commas(SeenTexts(f.snap.seen)) + "]}"
  }

  lemma TimeLength(n: nat)
    requires n < MAX_TIME
    ensures |Decimal(n)| <= 19
  {
    assert Pow10(4) == 10000;
    assert Pow10(8) == 100000000;
    assert Pow10(12) == 1000000000000;
    assert Pow10(16) == 10000000000000000;
    assert Pow10(19) == 10000000000000000000;
    DecimalLength(n, 19);
  }

  lemma ChannelLength(id: string, c: Channel, order: seq<string>, t: int)
    requires |id| <= 64 && 0 <= c.covered <= t < MAX_TIME && Lists(order, c.threads.Keys)
    requires forall ts :: ts in c.threads ==> |ts| <= 32 && 0 <= c.threads[ts] <= t
    ensures |ChannelText(id, c, order)| < 130 + 60 * |c.threads|
  {
    TimeLength(c.covered);
    assert forall ts :: ts in order ==> ts in Elements(order);
    var items := ThreadTexts(c.threads, order);
    forall i | 0 <= i < |items| ensures |items[i]| < 60 {
      assert order[i] in order;
      TimeLength(c.threads[order[i]]);
    }
    CommasLength(items, 60);
    DistinctSize(order);
    assert |c.threads.Keys| == |c.threads|;
  }

  lemma {:induction false} ChannelsLength(channels: map<string, Channel>, ids: seq<string>, orders: map<string,
                                          seq<string>>, t: int)
    requires (forall id :: id in ids ==> id in channels) && Enumerates(orders, channels, t)
    requires ChannelsOk(channels, t) && t < MAX_TIME && Distinct(ids)
    ensures |Commas(ChannelTexts(channels, ids, orders, t))| <= 131 * |ids| + 60 * |ThreadsIn(channels, Elements(ids))|
  {
    if ids != [] {
      var id, rest := ids[0], ids[1..];
      assert id in ids;
      ChannelsLength(channels, rest, orders, t);
      ChannelLength(id, channels[id], orders[id], t);
      ThreadsOfFirst(channels, ids);
      CommasStep(ChannelText(id, channels[id], orders[id]), ChannelTexts(channels, rest, orders, t));
    }
  }

  lemma ThreadsOfFirst(channels: map<string, Channel>, ids: seq<string>)
    requires ids != [] && Distinct(ids) && ids[0] in channels
    ensures |ThreadsIn(channels, Elements(ids))| ==
      |ThreadsIn(channels, Elements(ids[1..]))| + |channels[ids[0]].threads|
  {
    ElementsStep(ids);
    assert ids[0] !in ids[1..];
    ThreadsInStep(channels, Elements(ids[1..]), ids[0]);
    assert Elements(ids[1..]) + {ids[0]} == Elements(ids);
  }

  lemma CommasStep(item: string, rest: seq<string>)
    ensures |Commas([item] + rest)| <= |item| + 1 + |Commas(rest)|
  {
  }

  lemma SeenLength(seen: seq<Seen>, t: int)
    requires SeenEntriesOk(seen, t) && t < MAX_TIME
    ensures |Commas(SeenTexts(seen))| <= 160 * |seen|
  {
    forall i | 0 <= i < |seen| ensures |SeenText(seen[i])| < 160 {
      assert seen[i] in seen;
      TimeLength(seen[i].at);
    }
    CommasLength(SeenTexts(seen), 160);
  }

  /** The text of anything within the caps is far below 16 MiB, in whatever order the
      maps are written, so the size check of `save` never fires. */
  lemma TextFits(f: File, ids: seq<string>, orders: map<string, seq<string>>, t: int)
    requires f.version == VERSION && ValidId(f.team) && ValidId(f.user)
    requires CapsOk(f.snap, t) && t < MAX_TIME
    requires Lists(ids, f.snap.channels.Keys) && Enumerates(orders, f.snap.channels, t)
    ensures |FileText(f, ids, orders, t)| < MAX_STATE_BYTES
  {
    assert forall id :: id in ids ==> id in Elements(ids);
    ChannelsLength(f.snap.channels, ids, orders, t);
    SeenLength(f.snap.seen, t);
    DistinctSize(ids);
    assert |f.snap.channels.Keys| == |f.snap.channels|;
    SubsetSize(ThreadsIn(f.snap.channels, Elements(ids)), Threads(f.snap.channels));
    assert |Decimal(f.version)| == 1;
  }
}

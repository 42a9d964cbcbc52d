/** The step machine and the recovery code describe the same program: a pass that
    `recover_channel` brings to a successful end continues any run of the machine from
    `Start` to `Finish`. In particular the machine's `Finish` relies on nothing but
    Slack's promise about the pages. */
module Passes {
  import opened Harvest
  import opened Snapshots
  import opened Protocol
  import opened Safety
  import opened Theorems
  import opened Agreement
  import R = RecoveryPass
  import Sc = Screening

  // ------------------------------------------------------ what the pages show, and Ok

  function MsgOf(id: string, item: R.Item): Msg { Msg(id, if item.ts.Some? then item.ts.value else "") }

  function Msgs(id: string, items: seq<R.Item>): seq<Msg> {
    seq(|items|, i requires 0 <= i < |items| => MsgOf(id, items[i]))
  }

  /** Some item of the first `n` pages carries the timestamp. */
  ghost predicate Shown(replies: nat -> R.Reply, n: nat, ts: string) {
    exists i, k ::
      && 0 <= i < n && replies(i).Page? && replies(i).messages.Some?
      && 0 <= k < |replies(i).messages.value| && replies(i).messages.value[k].ts == Some(ts)
  }

  ghost predicate ChainEnds(replies: nat -> R.Reply, n: nat) {
    n > 0 && R.Leads(replies, n - 1) && R.Readable(replies(n - 1)) && replies(n - 1).next == ""
  }

  /** Slack's promise about history, in terms of its replies alone: a chain of pages that
      comes to its end has shown everything owed to a query made at `query`. */
  ghost predicate HistoryShows(w: World, id: string, replies: nat -> R.Reply, range: R.Range, query: int) {
    forall n: nat, m ::
      ChainEnds(replies, n) && Owed(w, m, id, range.oldest, range.through, query) ==> Shown(replies, n, m.ts)
  }

  lemma {:induction false} WantedHas(items: seq<R.Item>, k: nat, range: R.Range)
    requires k < |items| && R.InRange(items[k], range)
    ensures items[k] in R.Wanted(items, range)
  {
    if k < |items| - 1 {
      WantedHas(items[..|items| - 1], k, range);
    }
  }

  lemma {:induction false} FetchedHas(replies: nat -> R.Reply, i: nat, n: nat, item: R.Item, range: R.Range)
    requires i < n && item in R.Fetched(replies, i + 1, range)
    ensures item in R.Fetched(replies, n, range)
    decreases n - i
  {
    if i + 1 < n {
      R.FetchedGrows(replies, i + 1, range);
      FetchedHas(replies, i + 1, n, item, range);
    }
  }

  lemma PageIsFetched(replies: nat -> R.Reply, i: nat, k: nat, range: R.Range)
    requires replies(i).Page? && replies(i).messages.Some? && k < |replies(i).messages.value|
    requires R.InRange(replies(i).messages.value[k], range)
    ensures replies(i).messages.value[k] in R.Fetched(replies, i + 1, range)
  {
    WantedHas(replies(i).messages.value, k, range);
  }

  lemma MsgIsIn(id: string, items: seq<R.Item>, item: R.Item)
    requires item in items
    ensures MsgOf(id, item) in Elements(Msgs(id, items))
  {
    var k :| 0 <= k < |items| && items[k] == item;
    assert Msgs(id, items)[k] == MsgOf(id, item);
  }

  /** If the page loop is complete and history kept its promise, everything owed was
      among the items processed. */
  lemma CompleteHasOwed(w: World, s: Snapshot, src: R.Source, replies: nat -> R.Reply, n: nat, range: R.Range,
                        query: int, m: Msg)
    requires ValidWorld(w) && R.Complete(s, src, replies, n, range)
    requires HistoryShows(w, src.id, replies, range, query) && Owed(w, m, src.id, range.oldest, range.through, query)
    ensures m in Elements(Msgs(src.id, R.Fetched(replies, n, range)))
  {
    assert ChainEnds(replies, n) && Shown(replies, n, m.ts);
    var i, k :| 0 <= i < n && replies(i).Page? && replies(i).messages.Some?
      && 0 <= k < |replies(i).messages.value| && replies(i).messages.value[k].ts == Some(m.ts);
    var item := replies(i).messages.value[k];
    PageIsFetched(replies, i, k, range);
    FetchedHas(replies, i, n, item, range);
    MsgIsIn(src.id, R.Fetched(replies, n, range), item);
  }

  // ---------------------------------------------------------------------- time passes

  /** When the last of the items was done with, after `from`. */
  function Until(items: seq<R.Item>, from: int): int { if items == [] then from else items[|items| - 1].done }

  /** The clock readings do not go back. */
  predicate Timed(items: seq<R.Item>, from: int) {
    items != [] ==>
      var last, init := items[|items| - 1], items[..|items| - 1];
      Timed(init, from) && Until(init, from) <= last.at <= last.done
  }

  // --------------------------------------------------------------------- items, pages

  /** In a pass on `id`, between messages, with `pending` left of the page. */
  ghost predicate InPass(s: State, id: string, pending: seq<Msg>) {
    && s.lock.None? && s.pass.Some?
    && s.pass.value.channel == id && s.pass.value.current.None? && s.pass.value.pending == pending
  }

  /** What is acknowledged, discarded or stored stays so, and is joined by some of `ms`. */
  ghost predicate Grows(s: State, t: State, ms: set<Msg>) {
    && s.work.acked <= t.work.acked <= s.work.acked + ms
    && s.work.filtered <= t.work.filtered <= s.work.filtered + ms
    && s.work.rows <= t.work.rows
  }

  /** The same pass, on the same connection, with the messages `ms` processed. */
  ghost predicate Further(s: State, t: State, id: string, pending: seq<Msg>, ms: set<Msg>)
    requires s.pass.Some?
  {
    && InPass(t, id, pending) && t.link == s.link && Same(s, t) && Grows(s, t, ms)
    && t.pass.value.oldest == s.pass.value.oldest && t.pass.value.query == s.pass.value.query
    && t.pass.value.handled == s.pass.value.handled + ms
  }

  lemma FurtherChain(s: State, t: State, u: State, id: string, p: seq<Msg>, q: seq<Msg>, a: set<Msg>, b: set<Msg>)
    requires s.pass.Some? && t.pass.Some? && Further(s, t, id, p, a) && Further(t, u, id, q, b)
    ensures Further(s, u, id, q, a + b)
  {
  }

  /** The filters of `process` have nothing against it. */
  predicate Keeps(id: string, item: R.Item) { Sc.Harvested(item) && Sc.Fits(id, item) }

  /** The messages among the items that the filters keep. */
  function Kept(id: string, items: seq<R.Item>): set<Msg> {
    set i | 0 <= i < |items| && Keeps(id, items[i]) :: MsgOf(id, items[i])
  }

  lemma KeptSplits(id: string, items: seq<R.Item>)
    requires items != []
    ensures var last, init := items[|items| - 1], items[..|items| - 1];
      Kept(id, items) == Kept(id, init) + if Keeps(id, last) then {MsgOf(id, last)} else {}
  {
  }

  /** Processed with success, it is confirmed now or was acknowledged before. */
  lemma KeptIsDelivered(w: World, run: seq<Step>, s: State, src: R.Source, item: R.Item)
    requires ValidWorld(w) && Exec(w, run) == Some(s) && Keeps(src.id, item)
    requires R.Processing(s.store.mem.snap, src, item, w.window).1
    ensures R.FateOf(s.store.mem.snap, src, item, w.window).Delivered? || MsgOf(src.id, item) in s.work.acked
  {
    var snap := s.store.mem.snap;
    Sc.DiscardedByItsFields(snap, src, item, w.window);
    if R.FateOf(snap, src, item, w.window).Known? {
      Sc.HarvestedIsNoted(snap, src, item, w.window);
      Sc.NotingForgets(snap, src, item, w.window);
      SeenWasAcknowledged(w, run, MsgOf(src.id, item));
    }
  }

  predicate Stamped(items: seq<R.Item>) { forall i :: 0 <= i < |items| ==> items[i].ts.Some? }

  lemma OneMore(w: World, run: seq<Step>, s: State, src: R.Source, item: R.Item, rest: seq<Msg>, from: int)
      returns (more: seq<Step>, t: State)
    requires ValidWorld(w) && Exec(w, run) == Some(s) && ValidId(src.id) && item.ts.Some?
    requires InPass(s, src.id, [MsgOf(src.id, item)] + rest) && s.clock <= from <= item.at <= item.done
    requires R.Processing(s.store.mem.snap, src, item, w.window).1
    ensures run <= more && Exec(w, more) == Some(t) && t.clock <= item.done
    ensures Further(s, t, src.id, rest, {MsgOf(src.id, item)}) && t.pass.value.returned == s.pass.value.returned
    ensures t.store.mem.snap == R.Processing(s.store.mem.snap, src, item, w.window).0
    ensures Keeps(src.id, item) ==> MsgOf(src.id, item) in t.work.acked
  {
    if Keeps(src.id, item) {
      KeptIsDelivered(w, run, s, src, item);
    }
    more := ProcessIsARun(w, run, Recovery, src, item);
    t := Exec(w, more).value;
    assert ([MsgOf(src.id, item)] + rest)[1..] == rest;
  }

  lemma LastMsg(id: string, items: seq<R.Item>, rest: seq<Msg>)
    requires items != []
    ensures var last, init := MsgOf(id, items[|items| - 1]), Msgs(id, items[..|items| - 1]);
      && Msgs(id, items) + rest == init + ([last] + rest)
      && Elements(Msgs(id, items)) == Elements(init) + {last}
  {
    assert Msgs(id, items) == Msgs(id, items[..|items| - 1]) + [MsgOf(id, items[|items| - 1])];
  }

  lemma {:induction false} ItemsAreARun(w: World, run: seq<Step>, s: State, src: R.Source, items: seq<R.Item>,
                                        rest: seq<Msg>, from: int)
      returns (more: seq<Step>, t: State)
    requires ValidWorld(w) && Exec(w, run) == Some(s) && ValidId(src.id) && Stamped(items)
    requires InPass(s, src.id, Msgs(src.id, items) + rest) && s.clock <= from && Timed(items, from)
    requires R.AllOk(s.store.mem.snap, src, items, w.window)
    ensures run <= more && Exec(w, more) == Some(t) && t.clock <= Until(items, from)
    ensures Further(s, t, src.id, rest, Elements(Msgs(src.id, items))) && t.pass.value.returned == s.pass.value.returned
    ensures t.store.mem.snap == R.After(s.store.mem.snap, src, items, w.window)
    ensures Kept(src.id, items) <= t.work.acked
    decreases |items|
  {
    if items == [] {
      assert Msgs(src.id, items) + rest == rest;
      more, t := run, s;
    } else {
      var last, init := items[|items| - 1], items[..|items| - 1];
      LastMsg(src.id, items, rest);
      KeptSplits(src.id, items);
      var left := [MsgOf(src.id, last)] + rest;
      var some, u := ItemsAreARun(w, run, s, src, init, left, from);
      more, t := OneMore(w, some, u, src, last, rest, Until(init, from));
      FurtherChain(s, u, t, src.id, left, rest, Elements(Msgs(src.id, init)), {MsgOf(src.id, last)});
    }
  }

  predicate AllInRange(items: seq<R.Item>, range: R.Range) {
    forall i :: 0 <= i < |items| ==> R.InRange(items[i], range)
  }

  lemma {:induction false} WantedInRange(items: seq<R.Item>, range: R.Range)
    ensures AllInRange(R.Wanted(items, range), range)
  {
    if items != [] {
      WantedInRange(items[..|items| - 1], range);
    }
  }

  lemma {:induction false} FetchedInRange(replies: nat -> R.Reply, n: nat, range: R.Range)
    ensures AllInRange(R.Fetched(replies, n, range), range)
  {
    if n > 0 {
      var r := replies(n - 1);
      FetchedInRange(replies, n - 1, range);
      if r.Page? && r.messages.Some? {
        WantedInRange(r.messages.value, range);
      }
    }
  }

  /** The range of a pass that is under way. */
  function Bounds(w: World, s: State): R.Range
    requires s.pass.Some?
  {
    R.Range(s.pass.value.oldest, s.link.began, w.window)
  }

  /** What a source has in range arrives, as one page, and is processed. */
  lemma PageIsARun(w: World, run: seq<Step>, s: State, src: R.Source, items: seq<R.Item>, from: int)
      returns (more: seq<Step>, t: State)
    requires ValidWorld(w) && Exec(w, run) == Some(s) && ValidId(src.id) && InPass(s, src.id, [])
    requires AllInRange(items, Bounds(w, s)) && s.clock <= from && Timed(items, from)
    requires R.AllOk(s.store.mem.snap, src, items, w.window)
    ensures run <= more && Exec(w, more) == Some(t) && t.clock <= Until(items, from)
    ensures Further(s, t, src.id, [], Elements(Msgs(src.id, items)))
    ensures t.pass.value.returned == s.pass.value.returned + Elements(Msgs(src.id, items))
    ensures t.store.mem.snap == R.After(s.store.mem.snap, src, items, w.window)
    ensures Kept(src.id, items) <= t.work.acked
  {
    var page := Msgs(src.id, items);
    Follow(w, run, Passes(Page(page)));
    var shown := run + [Passes(Page(page))];
    assert page + [] == page;
    more, t := ItemsAreARun(w, shown, Exec(w, shown).value, src, items, [], from);
  }

  // ----------------------------------------------------------------------- the visits

  lemma VisitIsARun(w: World, run: seq<Step>, s: State, v: R.Visit, replies: nat -> R.Reply, from: int)
      returns (more: seq<Step>, t: State)
    requires ValidWorld(w) && Exec(w, run) == Some(s) && ValidId(v.src.id) && InPass(s, v.src.id, [])
    requires R.Served(s.store.mem.snap, v, replies, Bounds(w, s)) && s.clock <= from && Timed(v.handled, from)
    ensures run <= more && Exec(w, more) == Some(t) && t.clock <= Until(v.handled, from)
    ensures Further(s, t, v.src.id, [], Elements(Msgs(v.src.id, v.handled)))
    ensures t.pass.value.returned == s.pass.value.returned + Elements(Msgs(v.src.id, v.handled))
    ensures t.store.mem.snap == R.AfterVisit(s.store.mem.snap, v, w.window)
    ensures Kept(v.src.id, v.handled) <= t.work.acked
  {
    var n := ServedPages(s.store.mem.snap, v, replies, Bounds(w, s));
    FetchedInRange(replies, n, Bounds(w, s));
    more, t := PageIsARun(w, run, s, v.src, v.handled, from);
    if v.gone && v.src.thread.Some? {
      Follow(w, more, Passes(Forget(v.src.thread.value)));
      more := more + [Passes(Forget(v.src.thread.value))];
      t := Exec(w, more).value;
    }
  }

  lemma ServedPages(s: Snapshot, v: R.Visit, replies: nat -> R.Reply, range: R.Range) returns (n: nat)
    requires R.Served(s, v, replies, range)
    ensures v.handled == R.Fetched(replies, n, range) && R.AllOk(s, v.src, v.handled, range.window)
    ensures !v.gone ==> R.Complete(s, v.src, replies, n, range)
  {
    n := R.PagesOf(v);
  }

  function UntilVisits(visits: seq<R.Visit>, from: int): int {
    if visits == [] then from else Until(visits[|visits| - 1].handled, UntilVisits(visits[..|visits| - 1], from))
  }

  predicate TimedVisits(visits: seq<R.Visit>, from: int) {
    visits != [] ==>
      var init := visits[..|visits| - 1];
      TimedVisits(init, from) && Timed(visits[|visits| - 1].handled, UntilVisits(init, from))
  }

  /** Everything in range that the visits saw. */
  function Seen(id: string, visits: seq<R.Visit>): set<Msg> {
    if visits == [] then {}
    else Seen(id, visits[..|visits| - 1]) + Elements(Msgs(id, visits[|visits| - 1].handled))
  }

  /** Those of them that the filters keep. */
  function KeptBy(id: string, visits: seq<R.Visit>): set<Msg> {
    if visits == [] then {}
    else KeptBy(id, visits[..|visits| - 1]) + Kept(id, visits[|visits| - 1].handled)
  }

  lemma {:induction false} SeenFirst(id: string, visits: seq<R.Visit>)
    requires visits != []
    ensures Elements(Msgs(id, visits[0].handled)) <= Seen(id, visits)
  {
    if |visits| > 1 {
      SeenFirst(id, visits[..|visits| - 1]);
    }
  }

  lemma {:induction false} VisitsAreARun(w: World, run: seq<Step>, s: State, id: string, visits: seq<R.Visit>,
                                         replies: Option<string> -> nat -> R.Reply, from: int)
      returns (more: seq<Step>, t: State)
    requires ValidWorld(w) && Exec(w, run) == Some(s) && ValidId(id) && InPass(s, id, [])
    requires R.HistoryFirst(visits, id) && s.clock <= from && TimedVisits(visits, from)
    requires R.AllServed(s.store.mem.snap, visits, |visits|, replies, Bounds(w, s))
    ensures run <= more && Exec(w, more) == Some(t) && t.clock <= UntilVisits(visits, from)
    ensures Further(s, t, id, [], Seen(id, visits)) && t.pass.value.returned == s.pass.value.returned + Seen(id, visits)
    ensures t.store.mem.snap == R.AfterVisits(s.store.mem.snap, visits, w.window)
    ensures KeptBy(id, visits) <= t.work.acked
    decreases |visits|
  {
    if visits == [] {
      more, t := run, s;
    } else {
      var last, init := visits[|visits| - 1], visits[..|visits| - 1];
      ServedBefore(s.store.mem.snap, visits, replies, Bounds(w, s));
      var some, u := VisitsAreARun(w, run, s, id, init, replies, from);
      more, t := VisitIsARun(w, some, u, last, replies(last.src.thread), UntilVisits(init, from));
      FurtherChain(s, u, t, id, [], [], Seen(id, init), Elements(Msgs(id, last.handled)));
    }
  }

  lemma ServedBefore(s: Snapshot, visits: seq<R.Visit>, replies: Option<string> -> nat -> R.Reply, range: R.Range)
    requires visits != [] && R.AllServed(s, visits, |visits|, replies, range)
    ensures var n := |visits| - 1;
      && R.AllServed(s, visits[..n], n, replies, range)
      && R.Served(R.AfterVisits(s, visits[..n], range.window), visits[n], replies(visits[n].src.thread), range)
  {
    var init := visits[..|visits| - 1];
    forall i | 0 <= i < |init|
      ensures R.Served(R.AfterVisits(s, init[..i], range.window), init[i], replies(init[i].src.thread), range)
    {
      assert init[..i] == visits[..i];
    }
  }

  lemma FirstIsServed(s: Snapshot, visits: seq<R.Visit>, replies: Option<string> -> nat -> R.Reply, range: R.Range)
    requires visits != [] && visits[0].src.thread.None? && R.AllServed(s, visits, |visits|, replies, range)
    ensures R.Served(s, visits[0], replies(None), range)
  {
    assert visits[..0] == [];
    assert R.Served(R.AfterVisits(s, visits[..0], range.window), visits[0], replies(visits[0].src.thread), range);
  }

  // ------------------------------------------------------------------------- the pass

  /** The range of the pass of channel `id` that starts in state `s`. */
  function RangeOf(w: World, s: State, id: string): R.Range
    requires id in s.store.mem.snap.channels
  {
    R.Range(RecoverFrom(s.store.mem.snap.channels[id].covered, s.link.began, w.window), s.link.began, w.window)
  }

  ghost predicate MayStart(s: State, id: string) {
    && s.link.open && s.link.started && s.pass.None? && s.lock.None? && id in s.members
    && id in s.store.mem.snap.channels && s.store.mem.snap.channels[id].recovering
  }

  /** The store as the pass finds it. */
  function Retried(s: State, id: string): Snapshot { WithFailed(s.store.mem.snap, id, false) }

  /** `recover_channel` makes these visits in state `s`, and returns Ok. */
  ghost predicate Succeeds(w: World, s: State, id: string, visits: seq<R.Visit>, maxPages: nat,
                           replies: Option<string> -> nat -> R.Reply)
    requires id in s.store.mem.snap.channels
  {
    && R.Attempted(Retried(s, id), id, visits, R.Ok, maxPages, replies, RangeOf(w, s, id))
    && TimedVisits(visits, s.clock)
  }

  /** What Slack owes to that pass. */
  ghost predicate SlackKeepsPromise(w: World, s: State, id: string, replies: Option<string> -> nat -> R.Reply)
    requires id in s.store.mem.snap.channels
  {
    HistoryShows(w, id, replies(None), RangeOf(w, s, id), s.clock)
  }

  /** Where the pass stands when all visits are made. */
  ghost predicate VisitsMade(w: World, s: State, t: State, id: string, visits: seq<R.Visit>)
    requires id in s.store.mem.snap.channels
  {
    && InPass(t, id, []) && Bounds(w, t) == RangeOf(w, s, id) && t.pass.value.query == s.clock
    && t.link == s.link && Same(s, t) && Grows(s, t, Seen(id, visits))
    && t.pass.value.returned == t.pass.value.handled == Seen(id, visits)
    && t.store.mem.snap == R.AfterVisits(Retried(s, id), visits, w.window)
    && KeptBy(id, visits) <= t.work.acked
  }

  lemma StartMakesNoVisits(w: World, s: State, id: string)
    requires MayStart(s, id) && Enabled(w, s, Passes(Start(id)))
    ensures VisitsMade(w, s, Apply(w, s, Passes(Start(id))), id, [])
  {
  }

  /** The pass starts. */
  lemma Starts(w: World, run: seq<Step>, s: State, id: string) returns (t: State)
    requires ValidWorld(w) && Exec(w, run) == Some(s) && MayStart(s, id)
    ensures Exec(w, run + [Passes(Start(id))]) == Some(t) && t.clock == s.clock && ValidId(id)
    ensures VisitsMade(w, s, t, id, [])
  {
    EveryRun(w, run);
    Follow(w, run, Passes(Start(id)));
    t := Apply(w, s, Passes(Start(id)));
    StartMakesNoVisits(w, s, id);
  }

  /** It makes all its visits. */
  lemma StartsAndVisits(w: World, run: seq<Step>, s: State, id: string, visits: seq<R.Visit>, maxPages: nat,
                        replies: Option<string> -> nat -> R.Reply)
      returns (more: seq<Step>, t: State)
    requires ValidWorld(w) && Exec(w, run) == Some(s) && MayStart(s, id)
    requires Succeeds(w, s, id, visits, maxPages, replies)
    ensures Exec(w, more) == Some(t) && run + [Passes(Start(id))] <= more && VisitsMade(w, s, t, id, visits)
  {
    var begun := Starts(w, run, s, id);
    more, t := VisitsAreARun(w, run + [Passes(Start(id))], begun, id, visits, replies, s.clock);
  }

  /** The guard of `Finish` is what the code has achieved plus what Slack promised. */
  lemma CompletePassMayFinish(w: World, s: State, t: State, id: string, visits: seq<R.Visit>, maxPages: nat,
                              replies: Option<string> -> nat -> R.Reply)
    requires ValidWorld(w) && MayStart(s, id) && SlackKeepsPromise(w, s, id, replies)
    requires Succeeds(w, s, id, visits, maxPages, replies) && VisitsMade(w, s, t, id, visits)
    ensures PassEnabled(w, t, Finish)
  {
    var range := RangeOf(w, s, id);
    FirstIsServed(Retried(s, id), visits, replies, range);
    SeenFirst(id, visits);
    var n := ServedPages(Retried(s, id), visits[0], replies(None), range);
    forall m | Owed(w, m, id, range.oldest, range.through, s.clock) ensures m in t.pass.value.returned {
      CompleteHasOwed(w, Retried(s, id), visits[0].src, replies(None), n, range, s.clock, m);
    }
  }

  /** Of the range, what history need not have shown to a query made at `s.clock`, and
      what the visits did not see either. */
  ghost function Unseen(w: World, s: State, id: string, visits: seq<R.Visit>): iset<Msg>
    requires id in s.store.mem.snap.channels
  {
    iset m | m in w.posted && m.channel == id && RangeOf(w, s, id).oldest <= Second(m) <= s.link.began
      && s.clock - OVERLAP <= Second(m) && m !in Seen(id, visits)
  }

  /** A finished pass: the store is as the code leaves it and the channel recovered; all
      that the visits saw is dealt with, acknowledged if the filters keep it, and so is all
      that history owed; nothing else was touched. */
  ghost predicate PassDone(w: World, s: State, t: State, id: string, visits: seq<R.Visit>)
    requires id in s.store.mem.snap.channels
  {
    && t.store.mem.snap == R.AfterAttempt(s.store.mem.snap, R.Attempt(id, visits, R.Ok), s.link.began, w.window)
    && t.store.mem.floor == s.store.mem.floor && t.store.disk == s.store.disk && t.store.saving == s.store.saving
    && t.lock.None? && t.pass.None? && t.members == s.members
    && t.link == s.link.(finished := s.link.finished + {id})
    && Grows(s, t, Seen(id, visits)) && Seen(id, visits) <= Done(t) && KeptBy(id, visits) <= t.work.acked
    && (forall m :: Owed(w, m, id, RangeOf(w, s, id).oldest, s.link.began, s.clock) ==> m in Done(t))
    && t.exposed == s.exposed + Unseen(w, s, id, visits)
  }

  lemma FinishRecovers(w: World, s: State, t: State, id: string, visits: seq<R.Visit>, maxPages: nat,
                       replies: Option<string> -> nat -> R.Reply)
    requires MayStart(s, id) && Succeeds(w, s, id, visits, maxPages, replies)
    requires VisitsMade(w, s, t, id, visits) && PassEnabled(w, t, Finish)
    ensures var u := PassApply(w, t, Finish);
      && u.store.mem.snap == R.AfterAttempt(s.store.mem.snap, R.Attempt(id, visits, R.Ok), s.link.began, w.window)
      && u.lock.None? && u.pass.None? && u.link == s.link.(finished := s.link.finished + {id})
  {
    assert visits[..|visits|] == visits;
    R.ServedKeepsFlags(Retried(s, id), visits, |visits|, replies, RangeOf(w, s, id));
    Unblamed(s.store.mem.snap, t.store.mem.snap, id);
  }

  lemma Unblamed(s: Snapshot, t: Snapshot, id: string)
    requires id in s.channels && R.SameFlags(WithFailed(s, id, false), t)
    ensures id in t.channels && !t.channels[id].failed
  {
    assert !R.Blamed(WithFailed(s, id, false), id);
    assert !R.Blamed(t, id);
  }

  lemma FinishLeaves(w: World, s: State, t: State, id: string, visits: seq<R.Visit>)
    requires MayStart(s, id) && VisitsMade(w, s, t, id, visits) && PassEnabled(w, t, Finish) && PassOk(t)
    ensures var u := PassApply(w, t, Finish);
      && u.store.mem.floor == s.store.mem.floor && u.store.disk == s.store.disk && u.store.saving == s.store.saving
      && u.members == s.members && Grows(s, u, Seen(id, visits)) && Seen(id, visits) <= Done(u)
      && KeptBy(id, visits) <= u.work.acked
      && u.exposed == s.exposed + Unseen(w, s, id, visits)
      && forall m :: Owed(w, m, id, RangeOf(w, s, id).oldest, s.link.began, s.clock) ==> m in Done(u)
  {
    assert Missed(w, t.pass.value, t.link.began) == Unseen(w, s, id, visits);
    assert t.pass.value.oldest == Bounds(w, t).oldest;
  }

  /** From any reachable state in which a pass may start: if `recover_channel` ends it
      with Ok, then the run goes on with `Start`, with what the pass does, and with
      `Finish`, to a state in which the pass is done. */
  lemma {:induction false} PassIsARun(w: World, run: seq<Step>, s: State, id: string, visits: seq<R.Visit>,
                                      maxPages: nat,
                                      replies: Option<string> -> nat -> R.Reply)
      returns (more: seq<Step>, t: State)
    requires ValidWorld(w) && Exec(w, run) == Some(s) && MayStart(s, id)
    requires Succeeds(w, s, id, visits, maxPages, replies) && SlackKeepsPromise(w, s, id, replies)
    ensures run + [Passes(Start(id))] <= more && more[|more| - 1] == Passes(Finish)
    ensures Exec(w, more) == Some(t) && PassDone(w, s, t, id, visits)
  {
    var before, u := StartsAndVisits(w, run, s, id, visits, maxPages, replies);
    CompletePassMayFinish(w, s, u, id, visits, maxPages, replies);
    EveryRun(w, before);
    Follow(w, before, Passes(Finish));
    FinishRecovers(w, s, u, id, visits, maxPages, replies);
    FinishLeaves(w, s, u, id, visits);
    more, t := before + [Passes(Finish)], PassApply(w, u, Finish);
  }
}
